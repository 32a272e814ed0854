/** A bad cut does break the promise of DeliverySafety: the reply that it leaves under another's
    fence is handed over at every start, once the process gets past the receipts it owes. */
module DeliveryRepeats {
  import opened Prelude
  import opened ReplyStore
  import opened Delivery
  import opened DeliverySafety
  import opened DeliveryRecovery
  import opened DeliveryPasses

  predicate Waiting(store: Store, k: Key) {
    k in store.replies && store.replies[k].status == Pending
  }

  /** A reply waits, and its request's fence names another conversation. */
  predicate Misfenced(s: Sys, k: Key) {
    FencesNameReplies(s.store) && Waiting(s.store, k) && k.req in s.store.fences && Target(s.store, k.req) != k
  }

  // ---- Up to the sending -----------------------------------------------------------------------------

  /** Nothing is being sent. */
  predicate BeforeSending(phase: Phase) {
    phase.Down? || phase.Recovering? || phase.Idle? || phase.Receipts? || (phase.Finishing? && !phase.sending)
  }

  predicate GoesUp(a: Action) {
    a.Start? || a.RecoverOne? || a.BeginDeliver? || a.Advance? || a.FinishProof? || a.FinishObservation? || a.Annotate?
  }

  /** A start, its recovery and the receipts leave a misfenced reply waiting: recovery settles some
      other reply in its place. No claim, receipt or fence is added. */
  predicate PassesOver(s: Sys, next: Sys, k: Key)
    requires Misfenced(s, k)
  {
    && BeforeSending(next.phase) && next.log == s.log && Misfenced(next, k)
    && next.store.replies[k].claim == s.store.replies[k].claim && next.store.fences.Keys == s.store.fences.Keys
    && ClaimedPending(next.store) <= ClaimedPending(s.store) && SentUnrecorded(next.store) <= SentUnrecorded(s.store)
  }

  lemma RecoveryPassesOver(cfg: Config, s: Sys, cut: bool, k: Key)
    requires BeforeSending(s.phase) && Misfenced(s, k)
    ensures PassesOver(s, RecoverStep(s, cut), k)
  {
    if s.phase.Recovering? && s.phase.todo != [] && s.phase.todo[0].req in s.store.fences {
      SettleStepSettles(s, s.phase.todo[0].req, Unknown, None, cut, Recovering(s.phase.todo[1..]));
      var next := RecoverStep(s, cut);
      forall r | r in next.store.fences ensures Target(next.store, r) in next.store.replies {
        assert Target(s.store, r) in s.store.replies;
      }
    }
  }

  lemma AnnotatingPassesOver(cfg: Config, s: Sys, k: Key)
    requires BeforeSending(s.phase) && Misfenced(s, k)
    ensures PassesOver(s, AnnotateStep(s), k)
  {
    var next := AnnotateStep(s);
    forall r | r in next.store.fences ensures Target(next.store, r) in next.store.replies {
      assert Target(s.store, r) in s.store.replies;
    }
  }

  lemma GoingUpPassesOver(cfg: Config, s: Sys, a: Action, k: Key)
    requires BeforeSending(s.phase) && Misfenced(s, k) && GoesUp(a)
    ensures PassesOver(s, Next(cfg, s, a), k)
  {
    match a
    case RecoverOne(cut) => RecoveryPassesOver(cfg, s, cut, k);
    case Annotate => AnnotatingPassesOver(cfg, s, k);
    case _ =>
  }

  lemma {:induction false} UpRunPassesOver(cfg: Config, s: Sys, actions: seq<Action>, k: Key)
    requires BeforeSending(s.phase) && Misfenced(s, k) && forall a <- actions :: GoesUp(a)
    ensures PassesOver(s, RunFrom(cfg, s, actions), k)
  {
    if actions != [] {
      var before, last := actions[..|actions| - 1], actions[|actions| - 1];
      assert last in actions;
      UpRunPassesOver(cfg, s, before, k);
      GoingUpPassesOver(cfg, RunFrom(cfg, s, before), last, k);
    }
  }

  lemma {:induction false} ReceiptPassGoesUp(order: seq<Key>, clock: Key -> JobEngine.Time)
    ensures forall a <- ReceiptPass(order, clock) :: GoesUp(a)
  {
    if order != [] {
      ReceiptPassGoesUp(order[..|order| - 1], clock);
    }
  }

  lemma StartGoesUp(order: seq<Key>)
    ensures forall a <- StartRun(order) :: GoesUp(a)
  {
  }

  // ---- Past the receipts -------------------------------------------------------------------------------

  /** One start, in this order of claimed replies, and the receipts of its first delivery, in this
      order and at these times. */
  ghost predicate ComesThrough(cfg: Config, s: Sys, claims: seq<Key>, order: seq<Key>, clock: Key -> JobEngine.Time) {
    && Enumerates(claims, ClaimedPending(s.store))
    && var up := RunFrom(cfg, s.(phase := Down), StartRun(claims));
       up.phase == Idle && Enumerates(order, SentUnrecorded(up.store)) && RunFrom(cfg, up, ReceiptsRun(order, clock)).phase == Receipts([])
  }

  /** A process that stops here and starts again gets past the receipts it owes. */
  ghost predicate PassesReceipts(cfg: Config, s: Sys) {
    exists claims, order, clock :: ComesThrough(cfg, s, claims, order, clock)
  }

  lemma PassesFromDown(cfg: Config, s: Sys)
    requires PassesReceipts(cfg, s)
    ensures PassesReceipts(cfg, s.(phase := Down))
  {
    var claims, order, clock :| ComesThrough(cfg, s, claims, order, clock);
    assert ComesThrough(cfg, s.(phase := Down), claims, order, clock);
  }

  lemma NoneOwedPasses(cfg: Config, s: Sys)
    requires s.phase == Idle && SentUnrecorded(s.store) == {}
    ensures RunFrom(cfg, s, ReceiptsRun([], _ => 0)) == s.(phase := Receipts([]))
  {
    assert ReceiptsRun([], _ => 0) == [BeginDeliver([])];
    OneStep(cfg, s, BeginDeliver([]));
  }

  predicate SettlesOnly(s: Sys, next: Sys) {
    SentUnrecorded(next.store) <= SentUnrecorded(s.store)
  }

  lemma {:induction false} StartOwesNoMore(cfg: Config, s: Sys, actions: seq<Action>)
    requires BeforeSending(s.phase) && forall a <- actions :: a.Start? || a.RecoverOne?
    ensures SettlesOnly(s, RunFrom(cfg, s, actions)) && BeforeSending(RunFrom(cfg, s, actions).phase)
  {
    if actions != [] {
      var before, last := actions[..|actions| - 1], actions[|actions| - 1];
      assert last in actions;
      StartOwesNoMore(cfg, s, before);
      var t := RunFrom(cfg, s, before);
      forall k | k in SentUnrecorded(Next(cfg, t, last).store) ensures k in SentUnrecorded(t.store) {
      }
    }
  }

  /** A process that owes no receipt, and whose claimed waiting replies all have a fence, does. */
  lemma NothingOwedPasses(cfg: Config, s: Sys)
    requires FencesNameReplies(s.store) && AllFenced(ClaimedPending(s.store), s.store) && SentUnrecorded(s.store) == {}
    ensures PassesReceipts(cfg, s)
  {
    var down := s.(phase := Down);
    var claims := AnOrder(ClaimedPending(s.store));
    StartEnds(cfg, down, claims);
    StartOwesNoMore(cfg, down, StartRun(claims));
    var up := RunFrom(cfg, down, StartRun(claims));
    NoneOwedPasses(cfg, up);
    assert Enumerates([], SentUnrecorded(up.store));
    assert ComesThrough(cfg, s, claims, [], _ => 0);
  }

  // ---- The hand-over -------------------------------------------------------------------------------------

  /** The reply has just been handed over, once, and stands as it did; no receipt is owed. */
  ghost predicate HandedOver(s: Sys, end: Sys, k: Key) {
    && Misfenced(end, k) && end.phase.InFlight? && end.phase.key == k
    && Count(end.log, k) == Count(s.log, k) + 1
    && k in s.store.replies && end.store.replies[k].claim == s.store.replies[k].claim
    && SentUnrecorded(end.store) == {} && AllFenced(ClaimedPending(end.store), end.store)
  }

  /** From the end of the receipts: the sending begins with this reply. */
  lemma HandsOverNow(cfg: Config, s: Sys, k: Key) returns (actions: seq<Action>)
    requires s.phase == Receipts([]) && Misfenced(s, k) && SentUnrecorded(s.store) == {} && AllFenced(ClaimedPending(s.store), s.store)
    ensures NoWrites(actions) && HandedOver(s, RunFrom(cfg, s, actions), k)
  {
    assert k in AllPending(s.store);
    var order := AnOrderFrom(AllPending(s.store), k);
    actions := [BeginSending(order), Advance];
    TwoSteps(cfg, s, BeginSending(order), Advance);
    CountGrows(s.log, Handed(k, s.store.replies[k].text));
  }

  /** The state in which a start that comes through finds itself. */
  lemma ComesUp(cfg: Config, s: Sys, k: Key, claims: seq<Key>, order: seq<Key>, clock: Key -> JobEngine.Time)
    requires s.phase.Down? && Misfenced(s, k) && ComesThrough(cfg, s, claims, order, clock)
    ensures var t := RunFrom(cfg, s, StartRun(claims) + ReceiptsRun(order, clock));
            t.phase == Receipts([]) && PassesOver(s, t, k) && SentUnrecorded(t.store) == {} && AllFenced(ClaimedPending(t.store), t.store)
  {
    var up := RunFrom(cfg, s, StartRun(claims));
    RunsJoin(cfg, s, StartRun(claims), ReceiptsRun(order, clock));
    StartGoesUp(claims);
    ReceiptPassGoesUp(order, clock);
    UpRunPassesOver(cfg, s, StartRun(claims) + ReceiptsRun(order, clock), k);
    StartEnds(cfg, s, claims);
    PassReachesSendingIff(cfg, up, order, clock);
  }

  lemma UpIsNoWrite(claims: seq<Key>, order: seq<Key>, clock: Key -> JobEngine.Time)
    ensures NoWrites(StartRun(claims) + ReceiptsRun(order, clock))
  {
    StartGoesUp(claims);
    ReceiptPassGoesUp(order, clock);
  }

  /** From a stopped process: restart, recover, complete the receipts, and hand the reply over. */
  lemma HandsOver(cfg: Config, s: Sys, k: Key) returns (actions: seq<Action>)
    requires s.phase.Down? && Misfenced(s, k) && PassesReceipts(cfg, s)
    ensures NoWrites(actions) && HandedOver(s, RunFrom(cfg, s, actions), k)
  {
    var claims, order, clock :| ComesThrough(cfg, s, claims, order, clock);
    var up := StartRun(claims) + ReceiptsRun(order, clock);
    ComesUp(cfg, s, k, claims, order, clock);
    UpIsNoWrite(claims, order, clock);
    var pass := HandsOverNow(cfg, RunFrom(cfg, s, up), k);
    RunsJoin(cfg, s, up, pass);
    actions := up + pass;
  }

  /** The same, after a crash in whatever state the process is. */
  lemma HandsOverFrom(cfg: Config, s: Sys, k: Key) returns (actions: seq<Action>)
    requires Misfenced(s, k) && PassesReceipts(cfg, s)
    ensures NoWrites(actions)
    ensures var end := RunFrom(cfg, s, actions); Misfenced(end, k) && end.phase.InFlight? && end.phase.key == k
  {
    OneStep(cfg, s, Crash);
    PassesFromDown(cfg, s);
    var rest := HandsOver(cfg, s.(phase := Down), k);
    RunsJoin(cfg, s, [Crash], rest);
    actions := [Crash] + rest;
  }

  ghost predicate CanRepeat(cfg: Config, s: Sys, k: Key) {
    exists actions :: Clean(cfg, s, actions)
      && Claimed(RunFrom(cfg, s, actions).store, k) && Count(RunFrom(cfg, s, actions).log, k) >= 2
  }

  lemma HandsOverAndStops(cfg: Config, s: Sys, k: Key) returns (actions: seq<Action>)
    requires s.phase.Down? && Misfenced(s, k) && PassesReceipts(cfg, s)
    ensures NoWrites(actions)
    ensures var down := RunFrom(cfg, s, actions);
            && down.phase.Down? && Misfenced(down, k) && PassesReceipts(cfg, down)
            && Count(down.log, k) == Count(s.log, k) + 1 && down.store.replies[k].claim == s.store.replies[k].claim
  {
    var once := HandsOver(cfg, s, k);
    RunAppends(cfg, s, once, Crash);
    actions := once + [Crash];
    NothingOwedPasses(cfg, RunFrom(cfg, s, actions));
  }

  lemma MisfencedRepeats(cfg: Config, s: Sys, k: Key)
    requires s.phase.Down? && Misfenced(s, k) && Claimed(s.store, k) && PassesReceipts(cfg, s)
    ensures CanRepeat(cfg, s, k)
  {
    var first := HandsOverAndStops(cfg, s, k);
    var again := HandsOver(cfg, RunFrom(cfg, s, first), k);
    RunsJoin(cfg, s, first, again);
    NoWritesIsClean(cfg, s, first + again);
  }

  /** The promise fails after a write exactly when that write is a bad cut: in any state a clean
      run reaches, the rest of the run can hand some claimed reply over twice, without another bad
      cut, if and only if this write was one, provided that the process then gets past the receipts
      it owes. */
  lemma RepeatsIffBadCut(cfg: Config, actions: seq<Action>, a: Action)
    requires Clean(cfg, NewSystem, actions) && a.Write?
    requires var s := RunFrom(cfg, NewSystem, actions); BadCut(cfg, s, a) ==> PassesReceipts(cfg, Next(cfg, s, a))
    ensures var s := RunFrom(cfg, NewSystem, actions);
            (exists k :: CanRepeat(cfg, Next(cfg, s, a), k)) <==> BadCut(cfg, s, a)
  {
    var s := RunFrom(cfg, NewSystem, actions);
    NewSystemIsSafe(cfg);
    CleanKeepsSafe(cfg, NewSystem, actions);
    if BadCut(cfg, s, a) {
      MisfencedRepeats(cfg, Next(cfg, s, a), a.key);
    } else {
      NextKeepsSafe(cfg, s, a);
      forall k, rest | Clean(cfg, Next(cfg, s, a), rest) && Claimed(RunFrom(cfg, Next(cfg, s, a), rest).store, k)
        ensures Count(RunFrom(cfg, Next(cfg, s, a), rest).log, k) <= 1
      {
        CleanKeepsSafe(cfg, Next(cfg, s, a), rest);
      }
    }
  }
}
