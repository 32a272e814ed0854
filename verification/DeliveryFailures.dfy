/** Runs in which a promise of the delivery fails. Each starts from a new system, in a channel that
    holds no room back, and takes straight steps up to the write that breaks the promise, where two
    conversations use one request id, or up to the receipt that no call will complete. */
module DeliveryFailures {
  import opened Prelude
  import opened JobEngine
  import opened JobRuns
  import opened JobForms
  import opened ReplyStore
  import opened Delivery
  import opened DeliverySafety
  import opened DeliveryTheorems
  import opened DeliveryRecovery
  import opened DeliveryReceipts
  import DeliveryRepeats
  import DeliveryCredit
  import DeliveryHopeless
  import opened SopExamples
  import UpgradeExamples

  const ONE := Key("one", "request")
  const OTHER := Key("other", "request")

  function WriteNow(key: Key, claim: Option<ClaimRef>): Action {
    Write(key, "text", claim, true, false)
  }

  function CutOff(key: Key, claim: Option<ClaimRef>): Action {
    Write(key, "text", claim, true, true)
  }

  function Waits(claim: Option<ClaimRef>): Reply {
    Reply(Pending, claim, "text", [], false, false)
  }

  // ---- Pieces of runs ----------------------------------------------------------------------------------

  /** A straight run from a new system. */
  ghost predicate Reaches(cfg: Config, actions: seq<Action>, s: Sys) {
    Straight(cfg, NewSystem, actions) && RunFrom(cfg, NewSystem, actions) == s
  }

  /** The process's own work, between two states. */
  ghost predicate Leads(cfg: Config, s: Sys, actions: seq<Action>, t: Sys) {
    NoWrites(actions) && RunFrom(cfg, s, actions) == t
  }

  lemma Goes(cfg: Config, actions: seq<Action>, s: Sys, a: Action)
    requires Reaches(cfg, actions, s) && !Misfences(cfg, s, a)
    ensures Reaches(cfg, actions + [a], Next(cfg, s, a))
  {
    assert (actions + [a])[..|actions|] == actions;
  }

  lemma {:induction false} GoesOn(cfg: Config, actions: seq<Action>, s: Sys, more: seq<Action>, t: Sys)
    requires Reaches(cfg, actions, s) && Leads(cfg, s, more, t)
    ensures Reaches(cfg, actions + more, t)
  {
    if more == [] {
      assert actions + more == actions;
    } else {
      var before, last := more[..|more| - 1], more[|more| - 1];
      assert last in more && forall a <- before :: a in more;
      GoesOn(cfg, actions, s, before, RunFrom(cfg, s, before));
      Goes(cfg, actions + before, RunFrom(cfg, s, before), last);
      assert actions + before + [last] == actions + more;
    }
  }

  lemma LeadsOn(cfg: Config, s: Sys, first: seq<Action>, t: Sys, second: seq<Action>, u: Sys)
    requires Leads(cfg, s, first, t) && Leads(cfg, t, second, u)
    ensures Leads(cfg, s, first + second, u)
  {
    RunsJoin(cfg, s, first, second);
  }

  lemma LeadsBy(cfg: Config, s: Sys, a: Action)
    requires !a.Write?
    ensures Leads(cfg, s, [a], Next(cfg, s, a))
  {
    OneStep(cfg, s, a);
  }

  /** A restart with nothing to recover. */
  lemma Restarts(cfg: Config, s: Sys) returns (actions: seq<Action>)
    requires s.phase.Down? && ClaimedPending(s.store) == {}
    ensures Leads(cfg, s, actions, s.(phase := Idle))
  {
    assert Enumerates([], ClaimedPending(s.store));
    var up := s.(phase := Recovering([]));
    LeadsBy(cfg, s, Start([]));
    LeadsBy(cfg, up, RecoverOne(false));
    LeadsOn(cfg, s, [Start([])], up, [RecoverOne(false)], s.(phase := Idle));
    actions := [Start([])] + [RecoverOne(false)];
  }

  /** One delivery with no receipt owed, up to the hand-over of its first reply. */
  lemma HandsOverFirst(cfg: Config, s: Sys, key: Key, todo: seq<Key>) returns (actions: seq<Action>)
    requires s.phase == Idle && SentUnrecorded(s.store) == {} && Enumerates([key] + todo, AllPending(s.store)) && key in s.store.replies
    ensures Leads(cfg, s, actions, s.(phase := InFlight(key, todo), log := s.log + [Handed(key, s.store.replies[key].text)]))
  {
    var order := [key] + todo;
    assert order[0] == key && order[1..] == todo;
    assert Enumerates([], SentUnrecorded(s.store));
    ThreeSteps(cfg, s, BeginDeliver([]), BeginSending(order), Advance);
    actions := [BeginDeliver([]), BeginSending(order), Advance];
  }

  // ---- A refused reply ---------------------------------------------------------------------------------

  function At(phase: Phase, replies: map<Key, Reply>, named: Key, status: Status, log: seq<Handed>): Sys {
    Sys(Store(replies, map[named.req := Fence(status, named.room, [])]), phase, log, [], {}, {})
  }

  /** The one conversation's reply was written, handed over and refused. */
  function OneRefused(claim: Option<ClaimRef>): Sys {
    At(Idle, map[ONE := Waits(claim).(status := Failed)], ONE, Failed, [Handed(ONE, "text")])
  }

  lemma IdleIsReached(cfg: Config) returns (actions: seq<Action>)
    ensures Reaches(cfg, actions, NewSystem.(phase := Idle))
  {
    var up := Restarts(cfg, NewSystem);
    GoesOn(cfg, [], NewSystem, up, NewSystem.(phase := Idle));
    assert [] + up == up;
    actions := up;
  }

  lemma OneFlies(cfg: Config, claim: Option<ClaimRef>) returns (actions: seq<Action>)
    requires cfg.heldIn.None?
    ensures Reaches(cfg, actions, At(InFlight(ONE, []), map[ONE := Waits(claim)], ONE, Pending, [Handed(ONE, "text")]))
  {
    var idle := IdleIsReached(cfg);
    var written := At(Idle, map[ONE := Waits(claim)], ONE, Pending, []);
    Goes(cfg, idle, NewSystem.(phase := Idle), WriteNow(ONE, claim));
    assert AllPending(written.store) == {ONE} && SentUnrecorded(written.store) == {};
    var pass := HandsOverFirst(cfg, written, ONE, []);
    var flying := At(InFlight(ONE, []), map[ONE := Waits(claim)], ONE, Pending, [Handed(ONE, "text")]);
    assert [] + flying.log == flying.log;
    GoesOn(cfg, idle + [WriteNow(ONE, claim)], written, pass, flying);
    actions := idle + [WriteNow(ONE, claim)] + pass;
  }

  lemma OneRefusedIsReached(cfg: Config, claim: Option<ClaimRef>) returns (actions: seq<Action>)
    requires cfg.heldIn.None?
    ensures Reaches(cfg, actions, OneRefused(claim))
  {
    actions := OneFlies(cfg, claim);
    var flying := At(InFlight(ONE, []), map[ONE := Waits(claim)], ONE, Pending, [Handed(ONE, "text")]);
    Goes(cfg, actions, flying, Confirm(SendRefused, false));
    actions := actions + [Confirm(SendRefused, false)];
    Goes(cfg, actions, OneRefused(claim).(phase := Sending([])), Advance);
    actions := actions + [Advance];
  }

  /** The bad cut of RepeatsIffBadCut can happen, and the process gets past its receipts. */
  lemma BadCutIsReachable(cfg: Config, claim: ClaimRef) returns (actions: seq<Action>)
    requires cfg.heldIn.None?
    ensures var s := RunFrom(cfg, NewSystem, actions);
            && Clean(cfg, NewSystem, actions) && BadCut(cfg, s, CutOff(OTHER, Some(claim)))
            && DeliveryRepeats.PassesReceipts(cfg, Next(cfg, s, CutOff(OTHER, Some(claim))))
  {
    actions := OneRefusedIsReached(cfg, Some(claim));
    StraightIsClean(cfg, NewSystem, actions);
    assert SentUnrecorded(OneRefused(Some(claim)).store) == {};
    DeliveryCredit.OwingNothingPasses(cfg, actions, CutOff(OTHER, Some(claim)));
  }

  /** So can the retry that RetryAfterFailureIsLost is about. */
  lemma FailedRetryIsReachable(cfg: Config, claim: Option<ClaimRef>) returns (actions: seq<Action>)
    requires cfg.heldIn.None?
    ensures RetriesFailed(RunFrom(cfg, NewSystem, actions), WriteNow(ONE, claim))
  {
    actions := OneRefusedIsReached(cfg, claim);
  }

  // ---- A refused reply that is recorded as sent ------------------------------------------------------------

  /** The other conversation's reply, cut off, waits beside the one that was refused. */
  function OtherWaits(phase: Phase, one: Reply, log: seq<Handed>): Sys {
    At(phase, map[ONE := one, OTHER := Waits(None)], ONE, Failed, log)
  }

  const OTHER_CUT := CutOff(OTHER, None)
  const ONE_HANDED := [Handed(ONE, "text")]

  lemma OtherIsCutOff(cfg: Config, claim: Option<ClaimRef>)
    requires cfg.heldIn.None?
    ensures var s := OneRefused(claim);
            !BadCut(cfg, s, OTHER_CUT) && Misfences(cfg, s, OTHER_CUT)
            && Next(cfg, s, OTHER_CUT) == OtherWaits(Down, Waits(claim).(status := Failed), ONE_HANDED)
  {
  }

  /** The process starts again beside the reply that was cut off. */
  lemma OtherIsListed(cfg: Config, claim: Option<ClaimRef>) returns (actions: seq<Action>)
    ensures var one := Waits(claim).(status := Failed);
            Leads(cfg, OtherWaits(Down, one, ONE_HANDED), actions, OtherWaits(Idle, one, ONE_HANDED))
  {
    var down := OtherWaits(Down, Waits(claim).(status := Failed), ONE_HANDED);
    assert ClaimedPending(down.store) == {};
    actions := Restarts(cfg, down);
  }

  lemma OtherFlies(cfg: Config, claim: Option<ClaimRef>) returns (actions: seq<Action>)
    ensures var one := Waits(claim).(status := Failed);
            Leads(cfg, OtherWaits(Idle, one, ONE_HANDED), actions,
                  OtherWaits(InFlight(OTHER, []), one, ONE_HANDED + [Handed(OTHER, "text")]))
  {
    var idle := OtherWaits(Idle, Waits(claim).(status := Failed), ONE_HANDED);
    assert AllPending(idle.store) == {OTHER} && SentUnrecorded(idle.store) == {};
    actions := HandsOverFirst(cfg, idle, OTHER, []);
  }

  /** The other conversation's reply was confirmed, and that was written down on the one. */
  function OneCredited(phase: Phase, one: Reply, commands: seq<Command>, log: seq<Handed>): Sys {
    Sys(Store(map[ONE := one, OTHER := Waits(None)], map[ONE.req := Fence(Sent, ONE.room, one.chunks)]), phase, log, commands, {}, {})
  }

  lemma CreditingRun(cfg: Config, claim: ClaimRef) returns (rest: seq<Action>)
    ensures var one := Waits(Some(claim)).(status := Failed);
            Leads(cfg, OtherWaits(Down, one, ONE_HANDED), rest,
                  OneCredited(Finishing(ONE, claim, ["chunk"], 0, [], true), one.(status := Sent, chunks := ["chunk"]), [],
                              ONE_HANDED + [Handed(OTHER, "text")]))
  {
    var one := Waits(Some(claim)).(status := Failed);
    var up := OtherIsListed(cfg, Some(claim));
    var pass := OtherFlies(cfg, Some(claim));
    var cut, flying := OtherWaits(Down, one, ONE_HANDED), OtherWaits(InFlight(OTHER, []), one, ONE_HANDED + [Handed(OTHER, "text")]);
    LeadsOn(cfg, cut, up, OtherWaits(Idle, one, ONE_HANDED), pass, flying);
    LeadsBy(cfg, flying, Confirm(SendConfirmed(["chunk"]), false));
    var done := ConfirmStep(flying, SendConfirmed(["chunk"]), false);
    LeadsOn(cfg, cut, up + pass, flying, [Confirm(SendConfirmed(["chunk"]), false)], done);
    rest := up + pass + [Confirm(SendConfirmed(["chunk"]), false)];
  }

  /** A refused reply becomes sent, and its action is about to be recorded as done, because a
      reply of another conversation was confirmed, which itself goes on waiting. */
  lemma RefusedIsCredited(cfg: Config, claim: ClaimRef) returns (before: seq<Action>, rest: seq<Action>)
    requires cfg.heldIn.None?
    ensures var s := RunFrom(cfg, NewSystem, before);
            && Straight(cfg, NewSystem, before) && !BadCut(cfg, s, OTHER_CUT) && Misfences(cfg, s, OTHER_CUT) && NoWrites(rest)
            && s.store.replies == map[ONE := Waits(Some(claim)).(status := Failed)]
            && var t := RunFrom(cfg, Next(cfg, s, OTHER_CUT), rest);
               && t.store.replies == map[ONE := Waits(Some(claim)).(status := Sent, chunks := ["chunk"]), OTHER := Waits(None)]
               && t.phase == Finishing(ONE, claim, ["chunk"], 0, [], true)
               && t.log == [Handed(ONE, "text"), Handed(OTHER, "text")]
  {
    before := OneRefusedIsReached(cfg, Some(claim));
    OtherIsCutOff(cfg, Some(claim));
    rest := CreditingRun(cfg, claim);
  }

  // ---- A proof that changes ------------------------------------------------------------------------------------

  /** The other conversation's waiting reply, in flight from idle, is confirmed, and the pass ends;
      what was sent is written down on the one the fence names. */
  lemma ConfirmsOther(cfg: Config, s: Sys, chunk: string) returns (actions: seq<Action>)
    requires s.phase == Idle && FencesNameReplies(s.store) && SentUnrecorded(s.store) == {} && AllPending(s.store) == {OTHER}
    requires OTHER.req in s.store.fences && Target(s.store, OTHER.req) == ONE && s.store.replies[ONE].claim.None?
    ensures OTHER in AllPending(s.store)
    ensures var log := s.log + [Handed(OTHER, s.store.replies[OTHER].text)];
            Leads(cfg, s, actions, s.(store := Settle(s.store, OTHER.req, Sent, Some([chunk])), log := log))
  {
    assert OTHER in AllPending(s.store);
    var pass := HandsOverFirst(cfg, s, OTHER, []);
    var flying := s.(phase := InFlight(OTHER, []), log := s.log + [Handed(OTHER, s.store.replies[OTHER].text)]);
    var confirm := Confirm(SendConfirmed([chunk]), false);
    var sent := flying.(store := Settle(s.store, OTHER.req, Sent, Some([chunk])), phase := Sending([]));
    LeadsBy(cfg, flying, confirm);
    LeadsOn(cfg, s, pass, flying, [confirm], sent);
    LeadsBy(cfg, sent, Advance);
    LeadsOn(cfg, s, pass + [confirm], sent, [Advance], sent.(phase := Idle));
    actions := pass + [confirm] + [Advance];
  }

  /** A sent reply's chunk ids, and so its proof, are overwritten by those of a later send of
      another conversation's reply. */
  lemma ProofChanges(cfg: Config) returns (before: seq<Action>, first: seq<Action>, second: seq<Action>)
    requires cfg.heldIn.None?
    ensures var s := RunFrom(cfg, NewSystem, before);
            && Straight(cfg, NewSystem, before) && !BadCut(cfg, s, OTHER_CUT) && Misfences(cfg, s, OTHER_CUT) && NoWrites(first + second)
            && var t := RunFrom(cfg, Next(cfg, s, OTHER_CUT), first);
               var u := RunFrom(cfg, t, second);
               && t.store.replies == map[ONE := Waits(None).(status := Sent, chunks := ["first"]), OTHER := Waits(None)]
               && u.store.replies == map[ONE := Waits(None).(status := Sent, chunks := ["second"]), OTHER := Waits(None)]
  {
    before := OneRefusedIsReached(cfg, None);
    OtherIsCutOff(cfg, None);
    var one := Waits(None).(status := Failed);
    var up := OtherIsListed(cfg, None);
    var idle := OtherWaits(Idle, one, ONE_HANDED);
    var t, once, twice := OtherIsSentTwice(cfg);
    LeadsOn(cfg, OtherWaits(Down, one, ONE_HANDED), up, idle, once, t);
    first, second := up + once, twice;
  }

  lemma OtherIsSentTwice(cfg: Config) returns (t: Sys, first: seq<Action>, second: seq<Action>)
    ensures var idle := OtherWaits(Idle, Waits(None).(status := Failed), ONE_HANDED);
            Leads(cfg, idle, first, t) && NoWrites(second)
    ensures t.store.replies == map[ONE := Waits(None).(status := Sent, chunks := ["first"]), OTHER := Waits(None)]
    ensures RunFrom(cfg, t, second).store.replies == map[ONE := Waits(None).(status := Sent, chunks := ["second"]), OTHER := Waits(None)]
  {
    var idle := OtherWaits(Idle, Waits(None).(status := Failed), ONE_HANDED);
    assert AllPending(idle.store) == {OTHER} && SentUnrecorded(idle.store) == {};
    first := ConfirmsOther(cfg, idle, "first");
    t := idle.(store := Settle(idle.store, OTHER.req, Sent, Some(["first"])), log := idle.log + [Handed(OTHER, "text")]);
    assert AllPending(t.store) == {OTHER} && SentUnrecorded(t.store) == {};
    second := ConfirmsOther(cfg, t, "second");
  }

  // ---- A record without its observation -------------------------------------------------------------------------

  const CLAIM := ClaimRef("j", "r", "i")

  function Completed(recorded: bool, chunk: string): Reply {
    Waits(Some(CLAIM)).(status := Sent, chunks := [chunk], recorded := recorded)
  }

  lemma ProofIsTaken(cfg: Config, s: Sys, c: Command)
    requires s.phase.Finishing? && s.phase.stage == 0
    requires var f := s.phase; c == FinishReceipt(f.claim.job, f.claim.step, cfg.proof(f.key, f.chunks), f.claim.id)
    requires WriteReceipt(Database(cfg, s), c).1 == Done
    ensures Leads(cfg, s, [FinishProof], s.(commands := s.commands + [c], phase := s.phase.(stage := 1)))
  {
    LeadsBy(cfg, s, FinishProof);
  }

  lemma ObservationIsTaken(cfg: Config, s: Sys, c: Command)
    requires s.phase.Finishing? && s.phase.stage == 1
    requires var f := s.phase; c == Observe(f.claim.job, f.claim.step, cfg.proof(f.key, f.chunks), false, 0)
    requires RecordObservation(InstalledNow(cfg, s), Database(cfg, s), c).1 == Done
    ensures Leads(cfg, s, [FinishObservation(0)], s.(commands := s.commands + [c], phase := s.phase.(stage := 2)))
  {
    LeadsBy(cfg, s, FinishObservation(0));
  }

  lemma ActionIsBegun(cfg: Config, s: Sys) returns (actions: seq<Action>)
    requires s.commands == []
    ensures Leads(cfg, s, actions, s.(commands := [OPENING, REMINDER]))
  {
    assert [] + [OPENING] == [OPENING] && [OPENING] + [REMINDER] == [OPENING, REMINDER];
    LeadsBy(cfg, s, Records(OPENING));
    LeadsBy(cfg, s.(commands := [OPENING]), Records(REMINDER));
    LeadsOn(cfg, s, [Records(OPENING)], s.(commands := [OPENING]), [Records(REMINDER)], s.(commands := [OPENING, REMINDER]));
    actions := [Records(OPENING)] + [Records(REMINDER)];
  }

  lemma NothingIsInstalled(cfg: Config, s: Sys)
    requires NoInstalls(s.commands)
    ensures InstalledNow(cfg, s) == cfg.env
  {
    NothingInstalled(cfg.env, [], s.commands);
    assert [] + s.commands == s.commands;
  }

  /** The action is begun and, on the strength of a send, recorded as done. */
  lemma CallsSucceed(cfg: Config, s: Sys, source: SourceId) returns (actions: seq<Action>)
    requires cfg.env == REMINDED && source == cfg.proof(ONE, ["chunk"])
    requires s.commands == [] && s.phase == Finishing(ONE, CLAIM, ["chunk"], 0, [], true)
    ensures Leads(cfg, s, actions, s.(commands := FinishingRun(source), phase := s.phase.(stage := 2)))
  {
    var all := FinishingRun(source);
    var began := ActionIsBegun(cfg, s);
    var c := s.(commands := [OPENING, REMINDER]);
    var d := c.(commands := [OPENING, REMINDER, all[2]], phase := s.phase.(stage := 1));
    assert [OPENING, REMINDER] + [all[2]] == [OPENING, REMINDER, all[2]] && [OPENING, REMINDER, all[2]] + [all[3]] == all;
    ReminderIsFinished(source);
    ProofIsTaken(cfg, c, all[2]);
    LeadsOn(cfg, s, began, c, [FinishProof], d);
    NothingIsInstalled(cfg, d);
    ObservationIsTaken(cfg, d, all[3]);
    LeadsOn(cfg, s, began + [FinishProof], d, [FinishObservation(0)], d.(commands := all, phase := s.phase.(stage := 2)));
    actions := began + [FinishProof] + [FinishObservation(0)];
  }

  lemma OneIsAnnotated(cfg: Config, commands: seq<Command>, log: seq<Handed>) returns (actions: seq<Action>)
    ensures Leads(cfg, OneCredited(Finishing(ONE, CLAIM, ["chunk"], 2, [], true), Completed(false, "chunk"), commands, log), actions,
                  OneCredited(Idle, Completed(true, "chunk"), commands, log))
  {
    var a := OneCredited(Finishing(ONE, CLAIM, ["chunk"], 2, [], true), Completed(false, "chunk"), commands, log);
    var b := OneCredited(Sending([]), Completed(true, "chunk"), commands, log);
    assert a.store.replies[ONE := Completed(true, "chunk")] == b.store.replies;
    LeadsBy(cfg, a, Annotate);
    LeadsBy(cfg, b, Advance);
    LeadsOn(cfg, a, [Annotate], b, [Advance], OneCredited(Idle, Completed(true, "chunk"), commands, log));
    actions := [Annotate] + [Advance];
  }

  lemma OneIsOverwritten(cfg: Config, commands: seq<Command>, log: seq<Handed>) returns (actions: seq<Action>)
    ensures NoWrites(actions)
    ensures var t := RunFrom(cfg, OneCredited(Idle, Completed(true, "chunk"), commands, log), actions);
            t.store.replies == map[ONE := Completed(true, "second"), OTHER := Waits(None)] && t.commands == commands
  {
    var idle := OneCredited(Idle, Completed(true, "chunk"), commands, log);
    assert AllPending(idle.store) == {OTHER} && SentUnrecorded(idle.store) == {};
    var pass := HandsOverFirst(cfg, idle, OTHER, []);
    var flying := idle.(phase := InFlight(OTHER, []), log := log + [Handed(OTHER, "text")]);
    var confirm := Confirm(SendConfirmed(["second"]), false);
    LeadsBy(cfg, flying, confirm);
    LeadsOn(cfg, idle, pass, flying, [confirm], ConfirmStep(flying, SendConfirmed(["second"]), false));
    actions := pass + [confirm];
  }

  /** The record of an action whose reply was refused is marked as recorded, and its job holds no
      observation from the proof of the chunk ids now stored with it. */
  lemma RecordedWithoutObservation(cfg: Config) returns (before: seq<Action>, rest: seq<Action>)
    requires cfg.heldIn.None? && cfg.env == REMINDED && cfg.proof(ONE, ["chunk"]) != cfg.proof(ONE, ["second"])
    ensures var s := RunFrom(cfg, NewSystem, before);
            && Straight(cfg, NewSystem, before) && !BadCut(cfg, s, OTHER_CUT) && Misfences(cfg, s, OTHER_CUT) && NoWrites(rest)
            && s.store.replies == map[ONE := Waits(Some(CLAIM)).(status := Failed)]
            && var t := RunFrom(cfg, Next(cfg, s, OTHER_CUT), rest);
               && t.store.replies == map[ONE := Completed(true, "second"), OTHER := Waits(None)]
               && !Observed(Run(cfg.env, t.commands), CLAIM, cfg.proof(ONE, ["second"]))
  {
    before := OneRefusedIsReached(cfg, Some(CLAIM));
    OtherIsCutOff(cfg, Some(CLAIM));
    var log := ONE_HANDED + [Handed(OTHER, "text")];
    var source := cfg.proof(ONE, ["chunk"]);
    var cut := OtherWaits(Down, Waits(Some(CLAIM)).(status := Failed), ONE_HANDED);
    var stage := Finishing(ONE, CLAIM, ["chunk"], 0, [], true);
    var credit := CreditingRun(cfg, CLAIM);
    var calls := CallsSucceed(cfg, OneCredited(stage, Completed(false, "chunk"), [], log), source);
    LeadsOn(cfg, cut, credit, OneCredited(stage, Completed(false, "chunk"), [], log), calls,
            OneCredited(stage.(stage := 2), Completed(false, "chunk"), FinishingRun(source), log));
    var mark := OneIsAnnotated(cfg, FinishingRun(source), log);
    var idle := OneCredited(Idle, Completed(true, "chunk"), FinishingRun(source), log);
    LeadsOn(cfg, cut, credit + calls, OneCredited(stage.(stage := 2), Completed(false, "chunk"), FinishingRun(source), log), mark, idle);
    var again := OneIsOverwritten(cfg, FinishingRun(source), log);
    LeadsOn(cfg, cut, credit + calls + mark, idle, again, RunFrom(cfg, idle, again));
    rest := credit + calls + mark + again;
    ReminderIsFinished(source);
  }

  // ---- A receipt that cannot be recorded ------------------------------------------------------------------------

  /** The one conversation's reply is sent, and not annotated yet. */
  function OneSent(phase: Phase, commands: seq<Command>): Sys {
    At(phase, map[ONE := Completed(false, "chunk")], ONE, Sent, ONE_HANDED)
      .(store := Store(map[ONE := Completed(false, "chunk")], map[ONE.req := Fence(Sent, ONE.room, ["chunk"])]), commands := commands)
  }

  lemma OneSentIsReached(cfg: Config) returns (actions: seq<Action>)
    requires cfg.heldIn.None?
    ensures Reaches(cfg, actions, OneSent(Finishing(ONE, CLAIM, ["chunk"], 0, [], true), []))
  {
    actions := OneFlies(cfg, Some(CLAIM));
    var flying := At(InFlight(ONE, []), map[ONE := Waits(Some(CLAIM))], ONE, Pending, [Handed(ONE, "text")]);
    Goes(cfg, actions, flying, Confirm(SendConfirmed(["chunk"]), false));
    actions := actions + [Confirm(SendConfirmed(["chunk"]), false)];
  }

  lemma StepIsRetired(cfg: Config, s: Sys, source: SourceId)
    requires cfg.env == REMINDED && s.commands == FinishingRun(source) + [UpgradeExamples.RETIREMENT]
    ensures DeliveryHopeless.ClaimGone(cfg, s, CLAIM)
  {
    ReminderIsFinished(source);
    UpgradeExamples.RetiringIsInstalled(source);
    assert UpgradeExamples.RETIRED_STEP in UpgradeExamples.RETIRING.events;
  }

  /** The two records calls of the confirmed send are made. */
  lemma SentIsCompleted(cfg: Config, source: SourceId) returns (actions: seq<Action>)
    requires cfg.heldIn.None? && cfg.env == REMINDED && source == cfg.proof(ONE, ["chunk"])
    ensures Reaches(cfg, actions, OneSent(Finishing(ONE, CLAIM, ["chunk"], 2, [], true), FinishingRun(source)))
  {
    var stage := Finishing(ONE, CLAIM, ["chunk"], 0, [], true);
    actions := OneSentIsReached(cfg);
    var calls := CallsSucceed(cfg, OneSent(stage, []), source);
    GoesOn(cfg, actions, OneSent(stage, []), calls, OneSent(stage.(stage := 2), FinishingRun(source)));
    actions := actions + calls;
  }

  lemma FinishedIsObserved(source: SourceId)
    ensures Observed(Run(REMINDED, FinishingRun(source)), CLAIM, source)
  {
    ReminderIsFinished(source);
  }

  lemma StaysObserved(cfg: Config, source: SourceId)
    requires cfg.env == REMINDED
    ensures Observed(Run(cfg.env, FinishingRun(source) + [UpgradeExamples.RETIREMENT]), CLAIM, source)
  {
    FinishedIsObserved(source);
    RunExtends(cfg.env, FinishingRun(source), UpgradeExamples.RETIREMENT);
    ObservedLasts(InstalledAfter(cfg.env, FinishingRun(source)), Run(cfg.env, FinishingRun(source)), UpgradeExamples.RETIREMENT, CLAIM, source);
  }

  lemma RemindedIsWellInstalled()
    ensures WellInstalled(REMINDED)
  {
    RemindingIsAccepted();
  }

  /** The process is killed between the two records calls of a confirmed send and the annotation,
      and the upgrade that retires the step is installed before it starts again: the state that
      HopelessReceiptBlocks is about, of a claim whose observation is recorded. */
  lemma RetiredReceiptIsReachable(cfg: Config) returns (actions: seq<Action>)
    requires cfg.heldIn.None? && cfg.env == REMINDED
    ensures WellInstalled(cfg.env) && Straight(cfg, NewSystem, actions)
    ensures var s := RunFrom(cfg, NewSystem, actions);
            && s.phase == Down && s.store.replies == map[ONE := Completed(false, "chunk")]
            && ONE in SentUnrecorded(s.store) && DeliveryHopeless.ClaimGone(cfg, s, CLAIM)
            && Observed(Database(cfg, s), CLAIM, cfg.proof(ONE, ["chunk"]))
  {
    var source := cfg.proof(ONE, ["chunk"]);
    var commands := FinishingRun(source);
    actions := SentIsCompleted(cfg, source);
    Goes(cfg, actions, OneSent(Finishing(ONE, CLAIM, ["chunk"], 2, [], true), commands), Crash);
    Goes(cfg, actions + [Crash], OneSent(Down, commands), Records(UpgradeExamples.RETIREMENT));
    actions := actions + [Crash] + [Records(UpgradeExamples.RETIREMENT)];
    RemindedIsWellInstalled();
    StepIsRetired(cfg, OneSent(Down, commands + [UpgradeExamples.RETIREMENT]), source);
    StaysObserved(cfg, source);
  }

  const ABSENT := Reconcile("j", "r", "s", "i", Some("x"), false)

  lemma AbsentIs(db: Db)
    requires db.jobs == map["j" := REMINDER_ROW]
    ensures var next := Transact(REMINDED, db, ABSENT);
            next.jobs.Keys == {"j"} && next.jobs["j"].pending == map[] && next.receipts == db.receipts && next.issued == db.issued
  {
    assert REMINDER_ROW.pending["t"].id == "i" && HasClaim(REMINDER_ROW.pending, "i");
    assert REMINDER_ROW.pending - {"t"} == map[];
  }

  lemma ReminderIsLost(cfg: Config, s: Sys, source: SourceId)
    requires cfg.env == REMINDED && s.commands == [OPENING, REMINDER] + [ABSENT]
    ensures DeliveryHopeless.ClaimLost(cfg, s, CLAIM, source)
  {
    ReminderIsBegun();
    RunExtends(REMINDED, [OPENING, REMINDER], ABSENT);
    NothingInstalled(REMINDED, [], [OPENING, REMINDER]);
    assert [] + [OPENING, REMINDER] == [OPENING, REMINDER];
    AbsentIs(Run(REMINDED, [OPENING, REMINDER]));
  }

  lemma BegunIsSent(cfg: Config) returns (actions: seq<Action>)
    requires cfg.heldIn.None?
    ensures Reaches(cfg, actions, OneSent(Finishing(ONE, CLAIM, ["chunk"], 0, [], true), [OPENING, REMINDER]))
  {
    var stage := Finishing(ONE, CLAIM, ["chunk"], 0, [], true);
    actions := OneSentIsReached(cfg);
    var begun := ActionIsBegun(cfg, OneSent(stage, []));
    GoesOn(cfg, actions, OneSent(stage, []), begun, OneSent(stage, [OPENING, REMINDER]));
    actions := actions + begun;
  }

  /** The process is killed between the confirmation and the receipt, and the claim is reconciled
      absent before it starts again: such a state too. */
  lemma LostReceiptIsReachable(cfg: Config) returns (actions: seq<Action>)
    requires cfg.heldIn.None? && cfg.env == REMINDED
    ensures WellInstalled(cfg.env) && Straight(cfg, NewSystem, actions)
    ensures var s := RunFrom(cfg, NewSystem, actions);
            && s.phase == Down && s.store.replies == map[ONE := Completed(false, "chunk")]
            && ONE in SentUnrecorded(s.store) && DeliveryHopeless.ClaimLost(cfg, s, CLAIM, cfg.proof(ONE, ["chunk"]))
  {
    actions := BegunIsSent(cfg);
    Goes(cfg, actions, OneSent(Finishing(ONE, CLAIM, ["chunk"], 0, [], true), [OPENING, REMINDER]), Crash);
    Goes(cfg, actions + [Crash], OneSent(Down, [OPENING, REMINDER]), Records(ABSENT));
    actions := actions + [Crash] + [Records(ABSENT)];
    RemindedIsWellInstalled();
    ReminderIsLost(cfg, OneSent(Down, [OPENING, REMINDER] + [ABSENT]), cfg.proof(ONE, ["chunk"]));
  }

  // ---- A fence that is taken ------------------------------------------------------------------------------------

  const BOTH := map[ONE := Waits(None), OTHER := Waits(None)]

  /** The one conversation's reply was cut off before the request's first fence, and waits. */
  function OneUnfenced(phase: Phase): Sys {
    Sys(Store(map[ONE := Waits(None)], map[]), phase, [], [], {}, {})
  }

  lemma OneUnfencedIsReached(cfg: Config) returns (actions: seq<Action>)
    requires cfg.heldIn.None?
    ensures Reaches(cfg, actions, OneUnfenced(Idle))
  {
    actions := IdleIsReached(cfg);
    Goes(cfg, actions, NewSystem.(phase := Idle), CutOff(ONE, None));
    actions := actions + [CutOff(ONE, None)];
    assert ClaimedPending(OneUnfenced(Down).store) == {};
    var up := Restarts(cfg, OneUnfenced(Down));
    GoesOn(cfg, actions, OneUnfenced(Down), up, OneUnfenced(Idle));
    actions := actions + up;
  }

  lemma FenceIsTaken(cfg: Config)
    requires cfg.heldIn.None?
    ensures Misfences(cfg, OneUnfenced(Idle), WriteNow(OTHER, None))
    ensures Next(cfg, OneUnfenced(Idle), WriteNow(OTHER, None)) == At(Idle, BOTH, OTHER, Pending, [])
  {
    assert OneUnfenced(Idle).store.replies[ONE].status == Pending;
  }

  lemma UnfencedFlies(cfg: Config) returns (actions: seq<Action>)
    ensures Leads(cfg, At(Idle, BOTH, OTHER, Pending, []), actions, At(InFlight(ONE, [OTHER]), BOTH, OTHER, Pending, ONE_HANDED))
  {
    var taken := At(Idle, BOTH, OTHER, Pending, []);
    assert AllPending(taken.store) == {ONE, OTHER} && SentUnrecorded(taken.store) == {};
    assert [ONE] + [OTHER] == [ONE, OTHER];
    actions := HandsOverFirst(cfg, taken, ONE, [OTHER]);
    assert [] + ONE_HANDED == ONE_HANDED;
  }

  /** No cut is needed at the second write: a reply that was cut off before its first fence waits,
      another conversation's reply takes the request, and is then sent without being handed over; the
      running delivery, which has it in its queue, hands it over afterwards. */
  lemma TakenFenceMiscredits(cfg: Config) returns (before: seq<Action>, rest: seq<Action>)
    requires cfg.heldIn.None?
    ensures var s := RunFrom(cfg, NewSystem, before);
            var taken := WriteNow(OTHER, None);
            && Straight(cfg, NewSystem, before) && !taken.cut && Misfences(cfg, s, taken) && NoWrites(rest)
            && var t := RunFrom(cfg, Next(cfg, s, taken), rest);
               && t.store.replies == map[ONE := Waits(None), OTHER := Waits(None).(status := Sent, chunks := ["chunk"])]
               && t.log == [Handed(ONE, "text")]
               && t.phase == Sending([OTHER]) && Next(cfg, t, Advance).log == t.log + [Handed(OTHER, "text")]
  {
    before := OneUnfencedIsReached(cfg);
    FenceIsTaken(cfg);
    var pass := UnfencedFlies(cfg);
    var taken, flying := At(Idle, BOTH, OTHER, Pending, []), At(InFlight(ONE, [OTHER]), BOTH, OTHER, Pending, ONE_HANDED);
    var confirm := Confirm(SendConfirmed(["chunk"]), false);
    LeadsBy(cfg, flying, confirm);
    LeadsOn(cfg, taken, pass, flying, [confirm], ConfirmStep(flying, SendConfirmed(["chunk"]), false));
    rest := pass + [confirm];
    OtherIsNext(cfg, ConfirmStep(flying, SendConfirmed(["chunk"]), false));
  }

  lemma OtherIsNext(cfg: Config, s: Sys)
    requires s.phase == Sending([OTHER]) && OTHER in s.store.replies && s.store.replies[OTHER].text == "text"
    ensures Next(cfg, s, Advance).log == s.log + [Handed(OTHER, "text")]
  {
  }

  // ---- A dead end ---------------------------------------------------------------------------------------------

  /** The deadly cut of EndsForGoodIff can happen, at the first reply already. */
  lemma DeadEndIsReachable(cfg: Config, claim: ClaimRef) returns (actions: seq<Action>)
    requires cfg.heldIn.None?
    ensures var s := RunFrom(cfg, NewSystem, actions);
            && Straight(cfg, NewSystem, actions + [CutOff(ONE, Some(claim))])
            && DeadlyCut(cfg, s, CutOff(ONE, Some(claim))) && !CanServeAgain(cfg, Next(cfg, s, CutOff(ONE, Some(claim))))
  {
    actions := IdleIsReached(cfg);
    Goes(cfg, actions, NewSystem.(phase := Idle), CutOff(ONE, Some(claim)));
    StraightIsClean(cfg, NewSystem, actions);
    EndsForGoodIff(cfg, actions, CutOff(ONE, Some(claim)));
  }
}
