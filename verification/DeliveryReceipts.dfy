/** From a confirmed claimed send to its job. As long as no write leaves a waiting reply under
    another conversation's fence, the proof of a sent reply never changes, and a reply marked as
    recorded has its observation under exactly that proof; and in every run repeating the two
    records calls after a crash moves nothing, and succeeds while the step is active. */
module DeliveryReceipts {
  import opened Prelude
  import opened JobEngine
  import opened JobRuns
  import opened JobTheorems
  import opened ReplyStore
  import opened Delivery
  import DeliverySafety

  // ---- The records database only gains events --------------------------------------------------

  predicate Observed(db: Db, claim: ClaimRef, source: SourceId) {
    claim.job in db.jobs && Recorded(db.jobs[claim.job].events, claim.step, Observation, source)
  }

  predicate EventsLast(db: Db, next: Db) {
    forall job <- db.jobs :: job in next.jobs && |db.jobs[job].events| <= |next.jobs[job].events|
      && next.jobs[job].events[..|db.jobs[job].events|] == db.jobs[job].events
  }

  lemma RowGrows(db: Db, next: Db, job: JobId, e: Event)
    requires job in db.jobs && job in next.jobs && next.jobs[job].events == db.jobs[job].events + [e]
    requires forall other <- db.jobs :: other != job ==> other in next.jobs && next.jobs[other] == db.jobs[other]
    ensures EventsLast(db, next)
  {
  }

  lemma ClaimingKeepsEvents(env: Installed, db: Db, c: Command)
    requires c.Begin? || c.Reserve?
    ensures EventsLast(db, (if c.Begin? then BeginAction(env, db, c) else ReserveIntent(env, db, c)).0)
  {
    var next := (if c.Begin? then BeginAction(env, db, c) else ReserveIntent(env, db, c)).0;
    if next != db {
      var events := next.jobs[c.job].events;
      RowGrows(db, next, c.job, events[|events| - 1]);
    }
  }

  lemma ObservingKeepsEvents(env: Installed, db: Db, c: Command)
    requires c.Observe?
    ensures EventsLast(db, RecordObservation(env, db, c).0)
  {
    var next := RecordObservation(env, db, c).0;
    if next != db {
      var events := next.jobs[c.job].events;
      RowGrows(db, next, c.job, events[|events| - 1]);
    }
  }

  lemma ReconcilingKeepsEvents(db: Db, c: Command)
    requires c.Reconcile?
    ensures EventsLast(db, ReconcileAbsent(db, c).0)
  {
    var next := ReconcileAbsent(db, c).0;
    if next != db {
      var events := next.jobs[c.job].events;
      RowGrows(db, next, c.job, events[|events| - 1]);
    }
  }

  lemma OpeningKeepsEvents(env: Installed, db: Db, c: Command)
    requires c.Open? && Fresh(db, c)
    ensures EventsLast(db, OpenJob(env, db, c).0)
  {
  }

  lemma TransactKeepsEvents(env: Installed, db: Db, c: Command)
    ensures EventsLast(db, Transact(env, db, c))
  {
    if Fresh(db, c) {
      match c
      case Open(_, _, _, _, _, _, _) => OpeningKeepsEvents(env, db, c);
      case Begin(_, _, _, _, _, _, _, _) => ClaimingKeepsEvents(env, db, c);
      case Reserve(_, _, _, _, _) => ClaimingKeepsEvents(env, db, c);
      case FinishReceipt(_, _, _, _) =>
      case Observe(_, _, _, _, _) => ObservingKeepsEvents(env, db, c);
      case Reconcile(_, _, _, _, _, _) => ReconcilingKeepsEvents(db, c);
      case Collect(_, _, _) =>
      case Install(_) => InstallingKeepsEvents(env, db, c);
    }
  }

  lemma InstallingKeepsEvents(env: Installed, db: Db, c: Command)
    requires c.Install?
    ensures EventsLast(db, InstallSop(env, db, c).0)
  {
    forall job | job in db.jobs ensures InstallSop(env, db, c).0.jobs[job].events == db.jobs[job].events {
      InstallCarries(env, db, c, job);
    }
  }

  lemma ObservedLasts(env: Installed, db: Db, c: Command, claim: ClaimRef, source: SourceId)
    requires Observed(db, claim, source)
    ensures Observed(Transact(env, db, c), claim, source)
  {
    TransactKeepsEvents(env, db, c);
    var events := db.jobs[claim.job].events;
    var e :| e in events && SameEvent(e, claim.step, Observation, source);
    var k :| 0 <= k < |events| && events[k] == e;
    assert Transact(env, db, c).jobs[claim.job].events[..|events|][k] == e;
  }

  lemma UnrefusedIsObserved(env: Installed, db: Db, claim: ClaimRef, source: SourceId, now: Time)
    requires !RecordObservation(env, db, Observe(claim.job, claim.step, source, false, now)).1.Refused?
    ensures Observed(Transact(env, db, Observe(claim.job, claim.step, source, false, now)), claim, source)
  {
    var c := Observe(claim.job, claim.step, source, false, now);
    var row := db.jobs[claim.job];
    var next := Transact(env, db, c);
    if !Recorded(row.events, claim.step, Observation, source) {
      var events := next.jobs[claim.job].events;
      assert SameEvent(events[|events| - 1], claim.step, Observation, source);
    }
  }

  // ---- The writes that leave a reply under another's fence --------------------------------------------

  /** The write is accepted and leaves a waiting reply under a fence that names another
      conversation's: it is cut off before its own fence, or takes the fence of a request under
      which another conversation's reply, cut off before, still waits. */
  predicate Misfences(cfg: Config, s: Sys, a: Action) {
    && a.Write? && a.owned && TakesReplies(s.phase) && Gate(s.store, a.key.req) == Written
    && if a.cut then
         && a.key !in s.store.replies && WrittenStatus(cfg, a.key) == Pending
         && a.key.req in s.store.fences && Target(s.store, a.key.req) != a.key
       else
         exists k <- s.store.replies :: s.store.replies[k].status == Pending && k.req == a.key.req && k != a.key
  }

  /** A run in which no write does that. */
  ghost predicate Straight(cfg: Config, s: Sys, actions: seq<Action>) {
    actions == []
    || var before := actions[..|actions| - 1];
       Straight(cfg, s, before) && !Misfences(cfg, RunFrom(cfg, s, before), actions[|actions| - 1])
  }

  /** A straight run has no bad cut. */
  lemma {:induction false} StraightIsClean(cfg: Config, s: Sys, actions: seq<Action>)
    requires Straight(cfg, s, actions)
    ensures DeliverySafety.Clean(cfg, s, actions)
  {
    if actions != [] {
      StraightIsClean(cfg, s, actions[..|actions| - 1]);
    }
  }

  lemma {:induction false} NoWritesIsStraight(cfg: Config, s: Sys, actions: seq<Action>)
    requires DeliverySafety.NoWrites(actions)
    ensures Straight(cfg, s, actions)
  {
    if actions != [] {
      NoWritesIsStraight(cfg, s, actions[..|actions| - 1]);
      assert actions[|actions| - 1] in actions;
    }
  }

  /** A waiting reply whose request has a fence is the one that fence names, and it is closed. */
  predicate WaitsAtHome(store: Store) {
    forall k <- store.replies :: store.replies[k].status == Pending && k.req in store.fences ==> DeliverySafety.Fenced(store, k)
  }

  predicate AtHome(cfg: Config, store: Store) {
    DeliverySafety.FencesSound(cfg, store) && WaitsAtHome(store)
  }

  /** The replies that recovery or the running delivery will settle. */
  function Unsettled(phase: Phase): seq<Key> {
    match phase
    case Recovering(todo) => todo
    case Sending(todo) => todo
    case InFlight(key, todo) => [key] + todo
    case Finishing(_, _, _, _, todo, true) => todo
    case _ => []
  }

  function Owed(phase: Phase): seq<Key> {
    match phase
    case Receipts(todo) => todo
    case Finishing(_, _, _, _, todo, false) => todo
    case _ => []
  }

  predicate WorkSound(s: Sys) {
    && DeliverySafety.Distinct(Unsettled(s.phase))
    && (forall k <- Unsettled(s.phase) :: k in s.store.replies && s.store.replies[k].status == Pending)
    && (forall k <- Owed(s.phase) :: k in s.store.replies && s.store.replies[k].status == Sent)
  }

  ghost predicate FinishingSound(cfg: Config, s: Sys) {
    s.phase.Finishing? ==>
      var f := s.phase;
      && f.key in s.store.replies && s.store.replies[f.key].status == Sent
      && s.store.replies[f.key].chunks == f.chunks && s.store.replies[f.key].claim == Some(f.claim)
      && (f.stage == 2 ==> Observed(Database(cfg, s), f.claim, cfg.proof(f.key, f.chunks)))
  }

  /** A reply marked as recorded was sent, and its job holds its observation. */
  ghost predicate RecordedIsObserved(cfg: Config, s: Sys) {
    forall k <- s.store.replies :: s.store.replies[k].recorded ==>
      var reply := s.store.replies[k];
      reply.status == Sent && reply.claim.Some? && Observed(Database(cfg, s), reply.claim.value, cfg.proof(k, reply.chunks))
  }

  ghost predicate Honest(cfg: Config, s: Sys) {
    AtHome(cfg, s.store) && WorkSound(s) && FinishingSound(cfg, s) && RecordedIsObserved(cfg, s)
  }

  /** What a step does to replies that are already sent: nothing a reader of the proof sees. */
  ghost predicate SentLast(before: Store, after: Store) {
    forall k <- before.replies :: before.replies[k].status == Sent ==>
      k in after.replies && after.replies[k].(recorded := false, parked := false) == before.replies[k].(recorded := false, parked := false)
  }

  function SettledReply(reply: Reply, status: Status, chunks: Option<seq<string>>): Reply {
    reply.(status := status, chunks := if chunks.Some? then chunks.value else reply.chunks)
  }

  /** The stores before and after the settlement of one waiting reply. */
  predicate SettledOne(before: Store, after: Store, key: Key, reply: Reply) {
    && key in before.replies && after.replies == before.replies[key := reply]
    && key.req in before.fences && after.fences.Keys == before.fences.Keys
    && after.fences[key.req].room == before.fences[key.req].room
    && after.fences[key.req].status in {reply.status, before.fences[key.req].status}
    && forall r <- after.fences :: r != key.req ==> after.fences[r] == before.fences[r]
  }

  lemma SettledOneKeepsHome(cfg: Config, before: Store, after: Store, key: Key, reply: Reply)
    requires AtHome(cfg, before) && SettledOne(before, after, key, reply) && before.replies[key].status == Pending
    requires reply.status in {Sent, Unknown, Failed}
    ensures AtHome(cfg, after) && SentLast(before, after)
  {
    forall r | r in after.fences ensures Target(after, r) in after.replies {
      assert Target(before, r) in before.replies;
    }
    forall k | k in after.replies && after.replies[k].status == Pending && k.req in after.fences ensures DeliverySafety.Fenced(after, k) {
      assert DeliverySafety.Fenced(before, k) && DeliverySafety.Fenced(before, key);
    }
  }

  /** A waiting reply's settlement settles that reply. */
  lemma SettlesOne(cfg: Config, s: Sys, key: Key, status: Status, chunks: Option<seq<string>>, cut: bool, after: Phase)
    requires AtHome(cfg, s.store) && key in s.store.replies && s.store.replies[key].status == Pending && key.req in s.store.fences
    ensures var next := SettleStep(s, key.req, status, chunks, cut, after);
            && SettledOne(s.store, next.store, key, SettledReply(s.store.replies[key], status, chunks))
            && next.commands == s.commands && next.phase in {Down, after}
  {
    assert DeliverySafety.Fenced(s.store, key);
  }

  lemma SettleAtHome(cfg: Config, s: Sys, key: Key, status: Status, chunks: Option<seq<string>>, cut: bool, after: Phase)
    requires AtHome(cfg, s.store) && key in s.store.replies && s.store.replies[key].status == Pending
    requires status in {Sent, Unknown, Failed}
    ensures var next := SettleStep(s, key.req, status, chunks, cut, after);
            && AtHome(cfg, next.store) && SentLast(s.store, next.store) && next.commands == s.commands
            && (forall k <- s.store.replies :: k != key ==> k in next.store.replies && next.store.replies[k] == s.store.replies[k])
            && next.store.replies.Keys == s.store.replies.Keys
            && (key.req in s.store.fences ==> next.store.replies[key] == SettledReply(s.store.replies[key], status, chunks))
            && (key.req !in s.store.fences ==> next == s.(phase := Down))
            && next.phase in {Down, after}
  {
    var next := SettleStep(s, key.req, status, chunks, cut, after);
    if key.req in s.store.fences {
      SettlesOne(cfg, s, key, status, chunks, cut, after);
      SettledOneKeepsHome(cfg, s.store, next.store, key, SettledReply(s.store.replies[key], status, chunks));
    } else {
      assert next == s.(phase := Down);
    }
  }

  lemma RecoverKeepsHonest(cfg: Config, s: Sys, cut: bool)
    requires Honest(cfg, s)
    ensures Honest(cfg, RecoverStep(s, cut)) && SentLast(s.store, RecoverStep(s, cut).store)
  {
    if s.phase.Recovering? && s.phase.todo != [] {
      var key := s.phase.todo[0];
      assert key in Unsettled(s.phase);
      SettleAtHome(cfg, s, key, Unknown, None, cut, Recovering(s.phase.todo[1..]));
      var next := RecoverStep(s, cut);
      RecoverKeepsWork(s, next, key);
      assert next.store.replies[key].recorded == s.store.replies[key].recorded;
      SettlingKeepsRecorded(cfg, s, next, key);
    }
  }

  lemma RecoverKeepsWork(s: Sys, next: Sys, key: Key)
    requires WorkSound(s) && s.phase.Recovering? && s.phase.todo != [] && s.phase.todo[0] == key
    requires forall k <- s.store.replies :: k != key ==> k in next.store.replies && next.store.replies[k] == s.store.replies[k]
    requires next.phase in {Down, Recovering(s.phase.todo[1..])}
    ensures WorkSound(next)
  {
    forall k | k in s.phase.todo[1..] ensures k in Unsettled(s.phase) && k != key {
      var i :| 0 <= i < |s.phase.todo| - 1 && s.phase.todo[1..][i] == k;
      assert s.phase.todo[i + 1] == k;
    }
  }

  lemma TailUnsettled(key: Key, todo: seq<Key>)
    requires DeliverySafety.Distinct([key] + todo)
    ensures DeliverySafety.Distinct(todo) && forall k <- todo :: k in [key] + todo && k != key
  {
    var all := [key] + todo;
    forall i, j | 0 <= i < j < |todo| ensures todo[i] != todo[j] {
      assert all[i + 1] != all[j + 1];
    }
    forall k | k in todo ensures k in all && k != key {
      var i :| 0 <= i < |todo| && todo[i] == k;
      assert all[i + 1] == k && all[0] != all[i + 1];
    }
  }

  lemma ConfirmKeepsWork(s: Sys, next: Sys, key: Key)
    requires WorkSound(s) && s.phase.InFlight? && s.phase.key == key
    requires DeliverySafety.Distinct(s.phase.todo) && forall k <- s.phase.todo :: k in Unsettled(s.phase) && k != key
    requires forall k <- s.store.replies :: k != key ==> k in next.store.replies && next.store.replies[k] == s.store.replies[k]
    requires next.phase.Down? || (Unsettled(next.phase) == s.phase.todo && Owed(next.phase) == [])
    ensures WorkSound(next)
  {
  }

  /** Confirming settles the reply in flight and no other. */
  lemma ConfirmSettlesItsOwn(cfg: Config, s: Sys, outcome: SendOutcome, cut: bool)
    requires AtHome(cfg, s.store) && s.phase.InFlight? && s.phase.key in s.store.replies
    requires s.store.replies[s.phase.key].status == Pending
    ensures var key, next := s.phase.key, ConfirmStep(s, outcome, cut);
            var chunks := if outcome.SendConfirmed? then Some(outcome.chunks) else None;
            && AtHome(cfg, next.store) && SentLast(s.store, next.store) && next.commands == s.commands
            && next.store.replies.Keys == s.store.replies.Keys
            && (forall k <- s.store.replies :: k != key ==> next.store.replies[k] == s.store.replies[k])
            && next.store.replies[key] in {s.store.replies[key], SettledReply(s.store.replies[key], OutcomeStatus(outcome), chunks)}
            && (next.phase in {Down, Sending(s.phase.todo)}
                || (outcome.SendConfirmed? && s.store.replies[key].claim.Some?
                    && next.phase == Finishing(key, s.store.replies[key].claim.value, outcome.chunks, 0, s.phase.todo, true)
                    && next.store.replies[key] == SettledReply(s.store.replies[key], Sent, chunks)))
  {
    var chunks := if outcome.SendConfirmed? then Some(outcome.chunks) else None;
    SettleAtHome(cfg, s, s.phase.key, OutcomeStatus(outcome), chunks, cut, Sending(s.phase.todo));
  }

  lemma ConfirmKeepsHonest(cfg: Config, s: Sys, outcome: SendOutcome, cut: bool)
    requires Honest(cfg, s)
    ensures Honest(cfg, ConfirmStep(s, outcome, cut)) && SentLast(s.store, ConfirmStep(s, outcome, cut).store)
  {
    if s.phase.InFlight? {
      var key := s.phase.key;
      assert key == Unsettled(s.phase)[0];
      ConfirmSettlesItsOwn(cfg, s, outcome, cut);
      var next := ConfirmStep(s, outcome, cut);
      TailUnsettled(key, s.phase.todo);
      ConfirmKeepsWork(s, next, key);
      SettlingKeepsRecorded(cfg, s, next, key);
    }
  }

  lemma SettlingKeepsRecorded(cfg: Config, s: Sys, next: Sys, key: Key)
    requires RecordedIsObserved(cfg, s) && key in s.store.replies && s.store.replies[key].status == Pending
    requires next.store.replies.Keys == s.store.replies.Keys && next.commands == s.commands
    requires forall k <- s.store.replies :: k != key ==> next.store.replies[k] == s.store.replies[k]
    requires next.store.replies[key].recorded == s.store.replies[key].recorded
    ensures RecordedIsObserved(cfg, next)
  {
  }

  lemma WriteKeepsHonest(cfg: Config, s: Sys, a: Action)
    requires Honest(cfg, s) && a.Write? && !Misfences(cfg, s, a)
    ensures Honest(cfg, WriteStep(cfg, s, a)) && SentLast(s.store, WriteStep(cfg, s, a).store)
  {
    var next := WriteStep(cfg, s, a);
    WriteKeepsHome(cfg, s, a);
    assert forall k <- s.store.replies :: k in next.store.replies && next.store.replies[k] == s.store.replies[k];
    assert forall k <- next.store.replies :: next.store.replies[k].recorded ==> k in s.store.replies;
  }

  lemma WriteKeepsHome(cfg: Config, s: Sys, a: Action)
    requires AtHome(cfg, s.store) && a.Write? && !Misfences(cfg, s, a)
    ensures AtHome(cfg, WriteStep(cfg, s, a).store)
  {
    var next := WriteStep(cfg, s, a);
    forall k | k in next.store.replies && next.store.replies[k].status == Pending && k.req in next.store.fences
      ensures DeliverySafety.Fenced(next.store, k)
    {
      if k != a.key && k.req in s.store.fences {
        assert DeliverySafety.Fenced(s.store, k);
      }
    }
  }

  lemma TeachKeepsHome(cfg: Config, s: Sys, a: Action)
    requires AtHome(cfg, s.store) && a.EnsureTeach?
    ensures var next := TeachStep(cfg, s, a);
            && AtHome(cfg, next.store) && next.commands == s.commands
            && (next == s || next.phase in {Idle, Down})
            && forall k <- next.store.replies :: k in s.store.replies
                 && (next.store.replies[k] == s.store.replies[k]
                     || (s.store.replies[k].status == Held && next.store.replies[k].recorded == s.store.replies[k].recorded))
    ensures SentLast(s.store, TeachStep(cfg, s, a).store)
  {
    if s.phase == Idle && cfg.heldIn.Some? {
      var key := Key(cfg.heldIn.value, a.req);
      if a.req in s.store.fences {
        assert s.store.fences[a.req].status == Held ==> Target(s.store, a.req) == key;
      }
    }
  }

  lemma TeachKeepsHonest(cfg: Config, s: Sys, a: Action)
    requires Honest(cfg, s) && a.EnsureTeach?
    ensures Honest(cfg, TeachStep(cfg, s, a)) && SentLast(s.store, TeachStep(cfg, s, a).store)
  {
    TeachKeepsHome(cfg, s, a);
  }

  lemma RecordsKeepsHonest(cfg: Config, s: Sys, next: Sys, c: Command)
    requires Honest(cfg, s) && next.store == s.store && next.commands == s.commands + [c]
    requires WorkSound(next)
    requires next.phase in {Down, s.phase}
               || (s.phase.Finishing? && next.phase == s.phase.(stage := 1))
               || (s.phase.Finishing? && next.phase == s.phase.(stage := 2)
                   && Observed(Database(cfg, next), s.phase.claim, cfg.proof(s.phase.key, s.phase.chunks)))
    ensures Honest(cfg, next)
  {
    assert next.commands[..|next.commands| - 1] == s.commands;
    forall claim, source | Observed(Database(cfg, s), claim, source) ensures Observed(Database(cfg, next), claim, source) {
      ObservedLasts(InstalledNow(cfg, s), Database(cfg, s), c, claim, source);
    }
  }

  lemma FinishKeepsHonest(cfg: Config, s: Sys, a: Action)
    requires Honest(cfg, s) && (a.FinishProof? || a.FinishObservation?)
    ensures Honest(cfg, FinishStep(cfg, s, a)) && SentLast(s.store, FinishStep(cfg, s, a).store)
  {
    var next := FinishStep(cfg, s, a);
    if next != s {
      var c := next.commands[|next.commands| - 1];
      assert next.commands[..|next.commands| - 1] == s.commands;
      assert Unsettled(next.phase) in {[], Unsettled(s.phase)} && Owed(next.phase) in {[], Owed(s.phase)};
      if a.FinishObservation? && !next.phase.Down? {
        UnrefusedIsObserved(InstalledNow(cfg, s), Database(cfg, s), s.phase.claim, cfg.proof(s.phase.key, s.phase.chunks), a.now);
      }
      RecordsKeepsHonest(cfg, s, next, c);
    }
  }

  lemma AnnotateKeepsHonest(cfg: Config, s: Sys)
    requires Honest(cfg, s)
    ensures Honest(cfg, AnnotateStep(s)) && SentLast(s.store, AnnotateStep(s).store)
  {
    var next := AnnotateStep(s);
    assert Unsettled(next.phase) == Unsettled(s.phase) && Owed(next.phase) == Owed(s.phase);
  }

  lemma AdvanceKeepsHonest(cfg: Config, s: Sys)
    requires Honest(cfg, s)
    ensures Honest(cfg, AdvanceStep(s)) && SentLast(s.store, AdvanceStep(s).store)
  {
    var next := AdvanceStep(s);
    if s.phase.Sending? && s.phase.todo != [] {
      assert [s.phase.todo[0]] + s.phase.todo[1..] == s.phase.todo;
    }
    if s.phase.Receipts? && s.phase.todo != [] {
      assert s.phase.todo[0] in Owed(s.phase);
    }
  }

  lemma BeginKeepsHonest(cfg: Config, s: Sys, a: Action)
    requires Honest(cfg, s) && (a.Start? || a.BeginDeliver? || a.BeginSending?)
    ensures Honest(cfg, Next(cfg, s, a)) && SentLast(s.store, Next(cfg, s, a).store)
  {
    var next := Next(cfg, s, a);
    if next != s {
      assert a.Start? ==> forall k <- a.order :: k in ClaimedPending(s.store);
      assert a.BeginDeliver? ==> forall k <- a.order :: k in SentUnrecorded(s.store);
      assert a.BeginSending? ==> forall k <- a.order :: k in AllPending(s.store);
    }
  }

  lemma NextKeepsHonest(cfg: Config, s: Sys, a: Action)
    requires Honest(cfg, s) && !Misfences(cfg, s, a)
    ensures Honest(cfg, Next(cfg, s, a)) && SentLast(s.store, Next(cfg, s, a).store)
  {
    match a
    case Crash =>
    case Start(_) => BeginKeepsHonest(cfg, s, a);
    case RecoverOne(cut) => RecoverKeepsHonest(cfg, s, cut);
    case Write(_, _, _, _, _) => WriteKeepsHonest(cfg, s, a);
    case Teach(_) =>
    case EnsureTeach(_, _, _, _) => TeachKeepsHonest(cfg, s, a);
    case BeginDeliver(_) => BeginKeepsHonest(cfg, s, a);
    case BeginSending(_) => BeginKeepsHonest(cfg, s, a);
    case Advance => AdvanceKeepsHonest(cfg, s);
    case Confirm(outcome, cut) => ConfirmKeepsHonest(cfg, s, outcome, cut);
    case FinishProof => FinishKeepsHonest(cfg, s, a);
    case FinishObservation(_) => FinishKeepsHonest(cfg, s, a);
    case Annotate => AnnotateKeepsHonest(cfg, s);
    case Records(command) => RecordsKeepsHonest(cfg, s, s.(commands := s.commands + [command]), command);
  }

  lemma {:induction false} RunIsHonest(cfg: Config, actions: seq<Action>)
    requires Straight(cfg, NewSystem, actions)
    ensures Honest(cfg, RunFrom(cfg, NewSystem, actions))
  {
    if actions != [] {
      RunIsHonest(cfg, actions[..|actions| - 1]);
      NextKeepsHonest(cfg, RunFrom(cfg, NewSystem, actions[..|actions| - 1]), actions[|actions| - 1]);
    }
  }

  // ---- The promises -----------------------------------------------------------------------------------

  lemma {:induction false} SentStays(cfg: Config, s: Sys, rest: seq<Action>, k: Key)
    requires Honest(cfg, s) && Straight(cfg, s, rest) && k in s.store.replies && s.store.replies[k].status == Sent
    ensures var later := RunFrom(cfg, s, rest);
            && Honest(cfg, later) && k in later.store.replies
            && later.store.replies[k].(recorded := false, parked := false) == s.store.replies[k].(recorded := false, parked := false)
  {
    if rest != [] {
      SentStays(cfg, s, rest[..|rest| - 1], k);
      NextKeepsHonest(cfg, RunFrom(cfg, s, rest[..|rest| - 1]), rest[|rest| - 1]);
    }
  }

  /** Once sent, a reply keeps its status, claim, text and chunk ids, and so its proof. */
  lemma ProofNeverChanges(cfg: Config, first: seq<Action>, rest: seq<Action>, k: Key)
    requires Straight(cfg, NewSystem, first) && Straight(cfg, RunFrom(cfg, NewSystem, first), rest)
    requires var s := RunFrom(cfg, NewSystem, first); k in s.store.replies && s.store.replies[k].status == Sent
    ensures var s := RunFrom(cfg, NewSystem, first);
            var later := RunFrom(cfg, s, rest);
            && k in later.store.replies && later.store.replies[k].status == Sent
            && later.store.replies[k].claim == s.store.replies[k].claim && later.store.replies[k].text == s.store.replies[k].text
            && cfg.proof(k, later.store.replies[k].chunks) == cfg.proof(k, s.store.replies[k].chunks)
  {
    RunIsHonest(cfg, first);
    SentStays(cfg, RunFrom(cfg, NewSystem, first), rest, k);
  }

  /** A reply annotated as recorded was sent under its claim, and that claim's job holds an
      observation of its step whose source is the proof of the chunk ids now stored. */
  lemma RecordedMeansObserved(cfg: Config, actions: seq<Action>, k: Key)
    requires Straight(cfg, NewSystem, actions)
    requires var s := RunFrom(cfg, NewSystem, actions); k in s.store.replies && s.store.replies[k].recorded
    ensures var s := RunFrom(cfg, NewSystem, actions);
            var reply := s.store.replies[k];
            && reply.status == Sent && reply.claim.Some?
            && Observed(Run(cfg.env, s.commands), reply.claim.value, cfg.proof(k, reply.chunks))
  {
    RunIsHonest(cfg, actions);
  }

  /** The step of the claim is active in the definition that its job has by now. */
  ghost predicate StepActive(cfg: Config, s: Sys, claim: ClaimRef) {
    && claim.job in Database(cfg, s).jobs
    && DefinitionOf(InstalledNow(cfg, s), Database(cfg, s).jobs[claim.job]).Some?
    && Sop.StepOf(DefinitionOf(InstalledNow(cfg, s), Database(cfg, s).jobs[claim.job]).value, claim.step).Some?
  }

  /** The completion in hand is of a claim on which an observation of the same source rests. */
  ghost predicate AlreadyObserved(cfg: Config, s: Sys) {
    && s.phase.Finishing? && s.phase.stage == 0
    && s.phase.claim.job in Database(cfg, s).jobs
    && exists k :: RestsHere(cfg, s, k)
  }

  ghost predicate RestsHere(cfg: Config, s: Sys, k: int)
    requires s.phase.Finishing? && s.phase.claim.job in Database(cfg, s).jobs
  {
    var events := Database(cfg, s).jobs[s.phase.claim.job].events;
    && 0 <= k < |events| && events[k].step == s.phase.claim.step && events[k].source == cfg.proof(s.phase.key, s.phase.chunks)
    && events[k].trail == Rests(s.phase.claim.id)
  }

  /** Once the observation is recorded for the claim, any later completion of the same receipt
      leaves the records database as it is. Both calls succeed, and only the annotation is left,
      if and only if the claim's step is still active; after an upgrade that retired it, the second
      call is refused and ends the process. */
  lemma RetryAfterCrashMovesNothing(cfg: Config, actions: seq<Action>, now: Time)
    requires AlreadyObserved(cfg, RunFrom(cfg, NewSystem, actions))
    ensures var s := RunFrom(cfg, NewSystem, actions);
            var done := Next(cfg, Next(cfg, s, FinishProof), FinishObservation(now));
            && Database(cfg, done) == Database(cfg, s) && done.store == s.store
            && done.phase == if StepActive(cfg, s, s.phase.claim) then s.phase.(stage := 2) else Down
  {
    CompletesIffActive(cfg, RunFrom(cfg, NewSystem, actions), now);
  }

  lemma CompletesIffActive(cfg: Config, s: Sys, now: Time)
    requires AlreadyObserved(cfg, s)
    ensures var done := Next(cfg, Next(cfg, s, FinishProof), FinishObservation(now));
            && Database(cfg, done) == Database(cfg, s) && InstalledNow(cfg, done) == InstalledNow(cfg, s) && done.store == s.store
            && done.phase == if StepActive(cfg, s, s.phase.claim) then s.phase.(stage := 2) else Down
  {
    var k :| RestsHere(cfg, s, k);
    RetryIsDoneIffActive(cfg.env, s.commands, s.phase.claim.job, k, false, now);
    ProofChangesNothing(cfg, s);
    ObservationChangesNothing(cfg, Next(cfg, s, FinishProof), now);
  }

  lemma ProofChangesNothing(cfg: Config, s: Sys)
    requires s.phase.Finishing? && s.phase.stage == 0
    requires var finish := FinishReceipt(s.phase.claim.job, s.phase.claim.step, cfg.proof(s.phase.key, s.phase.chunks), s.phase.claim.id);
             WriteReceipt(Database(cfg, s), finish).0 == Database(cfg, s) && !WriteReceipt(Database(cfg, s), finish).1.Refused?
    ensures var one := Next(cfg, s, FinishProof);
            && Database(cfg, one) == Database(cfg, s) && InstalledNow(cfg, one) == InstalledNow(cfg, s)
            && one.phase == s.phase.(stage := 1) && one.store == s.store
  {
    var one := Next(cfg, s, FinishProof);
    assert one.commands[..|one.commands| - 1] == s.commands;
  }

  lemma ObservationChangesNothing(cfg: Config, s: Sys, now: Time)
    requires s.phase.Finishing? && s.phase.stage == 1
    requires var observe := Observe(s.phase.claim.job, s.phase.claim.step, cfg.proof(s.phase.key, s.phase.chunks), false, now);
             RecordObservation(InstalledNow(cfg, s), Database(cfg, s), observe).0 == Database(cfg, s)
    ensures var observe := Observe(s.phase.claim.job, s.phase.claim.step, cfg.proof(s.phase.key, s.phase.chunks), false, now);
            var two := Next(cfg, s, FinishObservation(now));
            && Database(cfg, two) == Database(cfg, s) && InstalledNow(cfg, two) == InstalledNow(cfg, s) && two.store == s.store
            && two.phase == if RecordObservation(InstalledNow(cfg, s), Database(cfg, s), observe).1.Refused? then Down else s.phase.(stage := 2)
  {
    var two := Next(cfg, s, FinishObservation(now));
    assert two.commands[..|two.commands| - 1] == s.commands;
  }
}
