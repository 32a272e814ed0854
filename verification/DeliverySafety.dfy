/** A claimed reply is handed to the transport at most once, in every run with crashes between
    any two writes, as long as no claimed reply is cut off, before its fence is written, under a
    request id that another conversation's fence holds. */
module DeliverySafety {
  import opened Prelude
  import opened ReplyStore
  import opened Delivery

  // ---- The one write that breaks the promise ------------------------------------------------

  /** A claimed reply's record is written, and the process dies before its fence is, while the
      fence of that request still names another conversation. */
  predicate BadCut(cfg: Config, s: Sys, a: Action) {
    && a.Write? && a.claim.Some? && a.cut && a.owned && TakesReplies(s.phase)
    && a.key !in s.store.replies && WrittenStatus(cfg, a.key) == Pending
    && a.key.req in s.store.fences && Target(s.store, a.key.req) != a.key && Gate(s.store, a.key.req) == Written
  }

  /** A run in which no write is a bad cut. */
  ghost predicate Clean(cfg: Config, s: Sys, actions: seq<Action>) {
    actions == []
    || var before := actions[..|actions| - 1];
       Clean(cfg, s, before) && !BadCut(cfg, RunFrom(cfg, s, before), actions[|actions| - 1])
  }

  // ---- What every step keeps --------------------------------------------------------------------

  predicate Claimed(store: Store, k: Key) {
    k in store.replies && store.replies[k].claim.Some?
  }

  predicate WaitingClaim(store: Store, k: Key) {
    Claimed(store, k) && store.replies[k].status == Pending
  }

  /** The request's fence names this reply and is still closed. */
  predicate Fenced(store: Store, k: Key) {
    k.req in store.fences && store.fences[k.req].room == k.room && store.fences[k.req].status in {Pending, Held}
  }

  predicate Stopped(phase: Phase) {
    phase.Down? || phase.Recovering?
  }

  predicate FencesSound(cfg: Config, store: Store) {
    && FencesNameReplies(store)
    && forall r <- store.fences :: store.fences[r].status == Held ==> Some(store.fences[r].room) == cfg.heldIn
  }

  ghost predicate WaitingFenced(s: Sys) {
    forall k :: WaitingClaim(s.store, k) ==> Fenced(s.store, k) || (Stopped(s.phase) && k.req !in s.store.fences)
  }

  ghost predicate HandedKnown(s: Sys) {
    forall k :: Count(s.log, k) > 0 ==> k in s.store.replies && s.store.replies[k].status != Held
  }

  /** The promise, with what makes it inductive: a claimed reply that was handed over is settled,
      or is on the wire, or the process has stopped and will settle it before it sends again. */
  ghost predicate HandedOnce(s: Sys) {
    forall k :: Claimed(s.store, k) ==>
      && Count(s.log, k) <= 1
      && (Count(s.log, k) == 1 && s.store.replies[k].status == Pending ==>
            Stopped(s.phase) || (s.phase.InFlight? && s.phase.key == k))
  }

  predicate Distinct(keys: seq<Key>) {
    forall i, j :: 0 <= i < j < |keys| ==> keys[i] != keys[j]
  }

  /** The replies the running delivery has still to hand over. */
  function Queue(phase: Phase): seq<Key> {
    match phase
    case Sending(todo) => todo
    case InFlight(_, todo) => todo
    case Finishing(_, _, _, _, todo, sending) => if sending then todo else []
    case _ => []
  }

  ghost predicate QueueSound(s: Sys) {
    && Distinct(Queue(s.phase))
    && (forall k <- Queue(s.phase) :: k in s.store.replies && s.store.replies[k].status != Held
          && (Claimed(s.store, k) ==> Count(s.log, k) == 0))
    && (s.phase.InFlight? ==> s.phase.key !in s.phase.todo && Count(s.log, s.phase.key) > 0)
  }

  ghost predicate RecoverySound(s: Sys) {
    s.phase.Recovering? ==> forall k :: WaitingClaim(s.store, k) ==> k in s.phase.todo
  }

  ghost predicate Safe(cfg: Config, s: Sys) {
    FencesSound(cfg, s.store) && WaitingFenced(s) && HandedKnown(s) && HandedOnce(s) && QueueSound(s) && RecoverySound(s)
  }

  // ---- Step by step --------------------------------------------------------------------------------

  lemma CrashKeepsSafe(cfg: Config, s: Sys)
    requires Safe(cfg, s)
    ensures Safe(cfg, s.(phase := Down))
  {
  }

  lemma StartKeepsSafe(cfg: Config, s: Sys, order: seq<Key>)
    requires Safe(cfg, s) && s.phase.Down? && Enumerates(order, ClaimedPending(s.store))
    ensures Safe(cfg, s.(phase := Recovering(order)))
  {
    forall k | WaitingClaim(s.store, k) ensures k in order {
      assert k in ClaimedPending(s.store);
    }
  }

  lemma WriteKeepsSafe(cfg: Config, s: Sys, a: Action)
    requires Safe(cfg, s) && a.Write? && !BadCut(cfg, s, a)
    ensures Safe(cfg, WriteStep(cfg, s, a))
  {
    var after := WriteStep(cfg, s, a);
    if TakesReplies(s.phase) && a.owned && Gate(s.store, a.key.req) == Written {
      assert a.key !in s.store.replies ==> Count(s.log, a.key) == 0;
      forall k | WaitingClaim(after.store, k)
        ensures Fenced(after.store, k) || (Stopped(after.phase) && k.req !in after.store.fences)
      {
        if k == a.key {
          assert WaitingClaim(s.store, k) ==> Fenced(s.store, k);
        } else {
          assert WaitingClaim(s.store, k) && Fenced(s.store, k);
        }
      }
    }
  }

  /** What any settlement changes: one reply's status and chunks, and at most its fence's. */
  ghost predicate Settles(before: Store, after: Store, req: RequestId, status: Status) {
    && req in before.fences
    && after.replies.Keys == before.replies.Keys && after.fences.Keys == before.fences.Keys
    && (forall k <- before.replies :: k != Target(before, req) ==> after.replies[k] == before.replies[k])
    && (forall r <- before.fences :: r != req ==> after.fences[r] == before.fences[r])
    && Target(before, req) in before.replies
    && after.replies[Target(before, req)].status == status
    && after.replies[Target(before, req)].claim == before.replies[Target(before, req)].claim
    && after.fences[req].room == before.fences[req].room
    && after.fences[req].status in {status, before.fences[req].status}
  }

  lemma SettleStepSettles(s: Sys, req: RequestId, status: Status, chunks: Option<seq<string>>, cut: bool, after: Phase)
    requires req in s.store.fences && FencesNameReplies(s.store)
    ensures Settles(s.store, SettleStep(s, req, status, chunks, cut, after).store, req, status)
  {
  }

  lemma SettleKeepsFences(cfg: Config, before: Store, after: Store, req: RequestId, status: Status)
    requires FencesSound(cfg, before) && Settles(before, after, req, status) && status != Held
    ensures FencesSound(cfg, after)
  {
    forall r | r in after.fences ensures Target(after, r) in after.replies {
      assert Target(before, r) in before.replies;
    }
  }

  /** Settling by a status no claim waits in, whichever reply the fence names. */
  lemma SettleKeepsWaiting(s: Sys, after: Store, req: RequestId, status: Status, k: Key)
    requires WaitingFenced(s) && Settles(s.store, after, req, status) && status in {Sent, Unknown, Failed}
    requires WaitingClaim(after, k)
    ensures WaitingClaim(s.store, k) && k.req != req
    ensures Fenced(s.store, k) ==> Fenced(after, k)
  {
    assert k != Target(s.store, req) && WaitingClaim(s.store, k);
    assert Fenced(s.store, k) || k.req !in s.store.fences;
  }

  lemma SettleKeepsSafe(cfg: Config, s: Sys, next: Sys, req: RequestId, status: Status)
    requires Safe(cfg, s) && Settles(s.store, next.store, req, status) && status in {Sent, Unknown, Failed}
    requires next.log == s.log && Queue(next.phase) in {[], Queue(s.phase)} && !next.phase.InFlight?
    requires s.phase.InFlight? ==> s.phase.key.req == req
    requires Stopped(s.phase) ==> Stopped(next.phase)
    requires next.phase.Recovering? ==>
      s.phase.Recovering? && s.phase.todo != [] && s.phase.todo[0].req == req && next.phase.todo == s.phase.todo[1..]
    ensures Safe(cfg, next)
  {
    SettleKeepsFences(cfg, s.store, next.store, req, status);
    forall k | WaitingClaim(next.store, k)
      ensures WaitingClaim(s.store, k) && k.req != req && (Fenced(s.store, k) ==> Fenced(next.store, k))
    {
      SettleKeepsWaiting(s, next.store, req, status, k);
    }
    SettleKeepsHanded(s, next, req, status);
  }

  lemma SettleKeepsHanded(s: Sys, next: Sys, req: RequestId, status: Status)
    requires HandedKnown(s) && Settles(s.store, next.store, req, status) && next.log == s.log && status != Held
    ensures HandedKnown(next)
    ensures forall k :: Claimed(next.store, k) <==> Claimed(s.store, k)
    ensures forall k <- s.store.replies :: next.store.replies[k].status == Held ==> s.store.replies[k].status == Held
  {
  }

  lemma RecoverKeepsSafe(cfg: Config, s: Sys, cut: bool)
    requires Safe(cfg, s)
    ensures Safe(cfg, RecoverStep(s, cut))
  {
    if s.phase.Recovering? && s.phase.todo != [] {
      var req := s.phase.todo[0].req;
      if req in s.store.fences {
        var next := RecoverStep(s, cut);
        SettleStepSettles(s, req, Unknown, None, cut, Recovering(s.phase.todo[1..]));
        SettleKeepsSafe(cfg, s, next, req, Unknown);
      }
    }
  }

  lemma ConfirmKeepsSafe(cfg: Config, s: Sys, outcome: SendOutcome, cut: bool)
    requires Safe(cfg, s)
    ensures Safe(cfg, ConfirmStep(s, outcome, cut))
  {
    if s.phase.InFlight? && s.phase.key.req in s.store.fences {
      var req := s.phase.key.req;
      var next := ConfirmStep(s, outcome, cut);
      var chunks := if outcome.SendConfirmed? then Some(outcome.chunks) else None;
      SettleStepSettles(s, req, OutcomeStatus(outcome), chunks, cut, Sending(s.phase.todo));
      SettleKeepsSafe(cfg, s, next, req, OutcomeStatus(outcome));
    }
  }

  /** A teach check that lets a reply go settles the very reply it found held. */
  lemma LettingGoKeepsSafe(cfg: Config, s: Sys, next: Sys, key: Key)
    requires Safe(cfg, s) && s.phase == Idle && key in s.store.replies && s.store.replies[key].status == Held
    requires Settles(s.store, next.store, key.req, Pending) && Target(s.store, key.req) == key
    requires s.store.fences[key.req].status == Held
    requires next.log == s.log && next.phase in {Idle, Down}
    ensures Safe(cfg, next)
  {
    assert Count(s.log, key) == 0;
    SettleKeepsFences(cfg, s.store, next.store, key.req, Pending);
    forall k | WaitingClaim(next.store, k) ensures Fenced(next.store, k) {
      if k != key {
        assert WaitingClaim(s.store, k) && Fenced(s.store, k);
      }
    }
    SettleKeepsHanded(s, next, key.req, Pending);
  }

  lemma ParkingKeepsSafe(cfg: Config, s: Sys, next: Sys, key: Key)
    requires Safe(cfg, s) && s.phase == Idle && key in s.store.replies && s.store.replies[key].status == Held
    requires next.store == s.store.(replies := s.store.replies[key := s.store.replies[key].(parked := true)])
    requires next.log == s.log && next.phase == Idle
    ensures Safe(cfg, next)
  {
    assert forall k :: WaitingClaim(next.store, k) <==> WaitingClaim(s.store, k);
  }

  lemma TeachKeepsSafe(cfg: Config, s: Sys, a: Action)
    requires Safe(cfg, s) && a.EnsureTeach?
    ensures Safe(cfg, TeachStep(cfg, s, a))
  {
    var next := TeachStep(cfg, s, a);
    if next.store != s.store {
      var key := Key(cfg.heldIn.value, a.req);
      if TeachDecision(a.req in s.taught, cfg.program, a.recordedAfter, a.answer).Parked? {
        ParkingKeepsSafe(cfg, s, next, key);
      } else {
        SettleStepSettles(s, a.req, Pending, None, a.cut, Idle);
        LettingGoKeepsSafe(cfg, s, next, key);
      }
    }
  }

  lemma {:induction false} CountGrows(log: seq<Handed>, h: Handed)
    ensures forall k :: Count(log + [h], k) == Count(log, k) + if h.key == k then 1 else 0
  {
    assert (log + [h])[..|log|] == log;
  }

  lemma BeginSendingKeepsSafe(cfg: Config, s: Sys, order: seq<Key>)
    requires Safe(cfg, s) && s.phase == Receipts([]) && Enumerates(order, AllPending(s.store))
    ensures Safe(cfg, s.(phase := Sending(order)))
  {
    var next := s.(phase := Sending(order));
    assert Queue(next.phase) == order;
    forall k | k in order ensures k in s.store.replies && s.store.replies[k].status != Held && (Claimed(s.store, k) ==> Count(s.log, k) == 0) {
      assert k in AllPending(s.store);
    }
  }

  lemma HandingKeepsSafe(cfg: Config, s: Sys)
    requires Safe(cfg, s) && s.phase.Sending? && s.phase.todo != [] && s.phase.todo[0] in s.store.replies
    ensures Safe(cfg, AdvanceStep(s))
  {
    var key := s.phase.todo[0];
    var next := AdvanceStep(s);
    CountGrows(s.log, Handed(key, s.store.replies[key].text));
    assert next.store == s.store && Queue(next.phase) == s.phase.todo[1..];
    RestIsDistinct(s.phase.todo);
  }

  lemma AdvanceKeepsSafe(cfg: Config, s: Sys)
    requires Safe(cfg, s)
    ensures Safe(cfg, AdvanceStep(s))
  {
    if s.phase.Sending? && s.phase.todo != [] && s.phase.todo[0] in s.store.replies {
      HandingKeepsSafe(cfg, s);
    }
  }

  lemma RestIsDistinct(todo: seq<Key>)
    requires todo != [] && Distinct(todo)
    ensures Distinct(todo[1..]) && forall k <- todo[1..] :: k in todo && k != todo[0]
  {
    forall k | k in todo[1..] ensures k in todo && k != todo[0] {
      var i :| 0 <= i < |todo| - 1 && todo[1..][i] == k;
      assert todo[i + 1] == k;
    }
  }

  lemma AnnotateKeepsSafe(cfg: Config, s: Sys)
    requires Safe(cfg, s)
    ensures Safe(cfg, AnnotateStep(s))
  {
    var next := AnnotateStep(s);
    assert forall k :: WaitingClaim(next.store, k) <==> WaitingClaim(s.store, k);
  }

  lemma FinishKeepsSafe(cfg: Config, s: Sys, a: Action)
    requires Safe(cfg, s) && (a.FinishProof? || a.FinishObservation?)
    ensures Safe(cfg, FinishStep(cfg, s, a))
  {
  }

  lemma NextKeepsSafe(cfg: Config, s: Sys, a: Action)
    requires Safe(cfg, s) && !BadCut(cfg, s, a)
    ensures Safe(cfg, Next(cfg, s, a))
  {
    match a
    case Crash => CrashKeepsSafe(cfg, s);
    case Start(order) => if s.phase.Down? && Enumerates(order, ClaimedPending(s.store)) { StartKeepsSafe(cfg, s, order); }
    case RecoverOne(cut) => RecoverKeepsSafe(cfg, s, cut);
    case Write(_, _, _, _, _) => WriteKeepsSafe(cfg, s, a);
    case Teach(req) =>
    case EnsureTeach(_, _, _, _) => TeachKeepsSafe(cfg, s, a);
    case BeginDeliver(order) =>
    case BeginSending(order) =>
      if s.phase == Receipts([]) && Enumerates(order, AllPending(s.store)) { BeginSendingKeepsSafe(cfg, s, order); }
    case Advance => AdvanceKeepsSafe(cfg, s);
    case Confirm(outcome, cut) => ConfirmKeepsSafe(cfg, s, outcome, cut);
    case FinishProof => FinishKeepsSafe(cfg, s, a);
    case FinishObservation(_) => FinishKeepsSafe(cfg, s, a);
    case Annotate => AnnotateKeepsSafe(cfg, s);
    case Records(command) =>
  }

  lemma {:induction false} CleanKeepsSafe(cfg: Config, s: Sys, actions: seq<Action>)
    requires Safe(cfg, s) && Clean(cfg, s, actions)
    ensures Safe(cfg, RunFrom(cfg, s, actions))
  {
    if actions != [] {
      var before := actions[..|actions| - 1];
      CleanKeepsSafe(cfg, s, before);
      NextKeepsSafe(cfg, RunFrom(cfg, s, before), actions[|actions| - 1]);
    }
  }

  lemma NewSystemIsSafe(cfg: Config)
    ensures Safe(cfg, NewSystem)
  {
  }

  /** In every run without a bad cut, with a crash allowed between any two writes and around
      every call, a claimed reply reaches the transport at most once. */
  lemma ClaimedHandedAtMostOnce(cfg: Config, actions: seq<Action>, k: Key)
    requires Clean(cfg, NewSystem, actions) && Claimed(RunFrom(cfg, NewSystem, actions).store, k)
    ensures Count(RunFrom(cfg, NewSystem, actions).log, k) <= 1
  {
    NewSystemIsSafe(cfg);
    CleanKeepsSafe(cfg, NewSystem, actions);
  }

  // ---- Runs put together -----------------------------------------------------------------------------

  /** No conversation writes: the run is the loop's own work, and crashes. */
  predicate NoWrites(actions: seq<Action>) {
    forall a <- actions :: !a.Write?
  }

  lemma {:induction false} NoWritesIsClean(cfg: Config, s: Sys, actions: seq<Action>)
    requires NoWrites(actions)
    ensures Clean(cfg, s, actions)
  {
    if actions != [] {
      NoWritesIsClean(cfg, s, actions[..|actions| - 1]);
      assert actions[|actions| - 1] in actions;
    }
  }

  lemma RunAppends(cfg: Config, s: Sys, actions: seq<Action>, a: Action)
    ensures RunFrom(cfg, s, actions + [a]) == Next(cfg, RunFrom(cfg, s, actions), a)
  {
    assert (actions + [a])[..|actions|] == actions;
  }

  lemma {:induction false} RunsJoin(cfg: Config, s: Sys, first: seq<Action>, second: seq<Action>)
    ensures RunFrom(cfg, s, first + second) == RunFrom(cfg, RunFrom(cfg, s, first), second)
  {
    if second == [] {
      assert first + second == first;
    } else {
      var before := second[..|second| - 1];
      RunsJoin(cfg, s, first, before);
      assert (first + second)[..|first + second| - 1] == first + before;
    }
  }

  lemma {:induction false} AnOrder(keys: set<Key>) returns (order: seq<Key>)
    ensures Enumerates(order, keys)
    decreases |keys|
  {
    if keys == {} {
      order := [];
    } else {
      var k :| k in keys;
      var rest := AnOrder(keys - {k});
      order := [k] + rest;
    }
  }

  lemma AnOrderFrom(keys: set<Key>, k: Key) returns (order: seq<Key>)
    requires k in keys
    ensures Enumerates(order, keys) && order[0] == k
  {
    var rest := AnOrder(keys - {k});
    order := [k] + rest;
  }

  lemma OneStep(cfg: Config, s: Sys, a: Action)
    ensures RunFrom(cfg, s, [a]) == Next(cfg, s, a)
  {
    assert [a][..0] == [];
  }

  lemma TwoSteps(cfg: Config, s: Sys, a: Action, b: Action)
    ensures RunFrom(cfg, s, [a, b]) == Next(cfg, Next(cfg, s, a), b)
  {
    OneStep(cfg, s, a);
    assert [a, b][..1] == [a];
  }

  lemma ThreeSteps(cfg: Config, s: Sys, a: Action, b: Action, c: Action)
    ensures RunFrom(cfg, s, [a, b, c]) == Next(cfg, Next(cfg, Next(cfg, s, a), b), c)
  {
    TwoSteps(cfg, s, a, b);
    assert [a, b, c][..2] == [a, b];
  }
}
