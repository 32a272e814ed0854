/** When a process can start again. recover() settles every claimed reply that still waits, and
    settling one whose request has no fence throws: then no start ever gets past it. */
module DeliveryRecovery {
  import opened ReplyStore
  import opened Delivery
  import opened DeliverySafety
  import opened DeliveryTheorems

  // ---- Recovery runs -----------------------------------------------------------------------------

  function Recoveries(n: nat): seq<Action> {
    seq(n, _ => RecoverOne(false))
  }

  lemma OnlyRecoveries(cfg: Config, s: Sys, n: nat)
    ensures Clean(cfg, s, Recoveries(n))
  {
    NoWritesIsClean(cfg, s, Recoveries(n));
  }

  /** A recovery that ends leaves no claimed reply waiting. */
  lemma {:induction false} RecoveryClearsClaims(cfg: Config, s: Sys, n: nat)
    requires Safe(cfg, s) && s.phase.Recovering? && RunFrom(cfg, s, Recoveries(n)).phase == Idle
    ensures ClaimedPending(RunFrom(cfg, s, Recoveries(n)).store) == {}
  {
    if n > 0 {
      assert Recoveries(n)[..n - 1] == Recoveries(n - 1);
      var before := RunFrom(cfg, s, Recoveries(n - 1));
      OnlyRecoveries(cfg, s, n - 1);
      CleanKeepsSafe(cfg, s, Recoveries(n - 1));
      if before.phase == Idle {
        RecoveryClearsClaims(cfg, s, n - 1);
      } else {
        assert before.phase == Recovering([]);
        assert forall k :: k in ClaimedPending(before.store) ==> WaitingClaim(before.store, k);
      }
    }
  }

  // ---- When one ends -------------------------------------------------------------------------------

  predicate AllFenced(keys: set<Key>, store: Store) {
    forall k <- keys :: k.req in store.fences
  }

  lemma SettlesOn(s: Sys)
    requires s.phase.Recovering? && s.phase.todo != [] && FencesNameReplies(s.store) && s.phase.todo[0].req in s.store.fences
    ensures var next := RecoverStep(s, false);
            next.phase == Recovering(s.phase.todo[1..]) && FencesNameReplies(next.store) && next.store.fences.Keys == s.store.fences.Keys
  {
    var next := RecoverStep(s, false);
    forall r | r in next.store.fences ensures Target(next.store, r) in next.store.replies {
      assert Target(s.store, r) in s.store.replies;
    }
  }

  lemma {:induction false} FencedTodoEnds(cfg: Config, s: Sys)
    requires s.phase.Recovering? && FencesNameReplies(s.store) && forall k <- s.phase.todo :: k.req in s.store.fences
    ensures RunFrom(cfg, s, Recoveries(|s.phase.todo| + 1)).phase == Idle
    decreases |s.phase.todo|
  {
    var n := |s.phase.todo|;
    var next := RecoverStep(s, false);
    assert Recoveries(1) == [RecoverOne(false)];
    OneStep(cfg, s, RecoverOne(false));
    if n > 0 {
      SettlesOn(s);
      FencedTodoEnds(cfg, next);
      assert Recoveries(1) + Recoveries(n) == Recoveries(n + 1);
      RunsJoin(cfg, s, Recoveries(1), Recoveries(n));
    }
  }

  /** A claimed reply waits under a request that has no fence, and recovery has not met it yet. */
  predicate Stuck(s: Sys, k: Key) {
    WaitingClaim(s.store, k) && k.req !in s.store.fences && (s.phase.Down? || (s.phase.Recovering? && k in s.phase.todo))
  }

  lemma NextStaysStuck(cfg: Config, s: Sys, a: Action, k: Key)
    requires Stuck(s, k)
    ensures Stuck(Next(cfg, s, a), k) && Next(cfg, s, a).log == s.log
  {
    if a.RecoverOne? && s.phase.Recovering? {
      assert s.phase.todo != [];
    }
  }

  lemma {:induction false} StuckForGood(cfg: Config, s: Sys, actions: seq<Action>, k: Key)
    requires Stuck(s, k)
    ensures Stuck(RunFrom(cfg, s, actions), k) && RunFrom(cfg, s, actions).log == s.log
  {
    if actions != [] {
      StuckForGood(cfg, s, actions[..|actions| - 1], k);
      NextStaysStuck(cfg, RunFrom(cfg, s, actions[..|actions| - 1]), actions[|actions| - 1], k);
    }
  }

  lemma RecoveryEndsIff(cfg: Config, s: Sys)
    requires s.phase.Recovering? && FencesNameReplies(s.store) && Enumerates(s.phase.todo, ClaimedPending(s.store))
    ensures RunFrom(cfg, s, Recoveries(|s.phase.todo| + 1)).phase == Idle <==> AllFenced(ClaimedPending(s.store), s.store)
  {
    if AllFenced(ClaimedPending(s.store), s.store) {
      forall k | k in s.phase.todo ensures k.req in s.store.fences {
        assert k in ClaimedPending(s.store);
      }
      FencedTodoEnds(cfg, s);
    } else {
      var k :| k in ClaimedPending(s.store) && k.req !in s.store.fences;
      StuckForGood(cfg, s, Recoveries(|s.phase.todo| + 1), k);
    }
  }

  /** One start and its recovery. */
  function StartRun(order: seq<Key>): seq<Action> {
    [Start(order)] + Recoveries(|order| + 1)
  }

  lemma Starting(cfg: Config, s: Sys, order: seq<Key>)
    requires s.phase.Down? && Enumerates(order, ClaimedPending(s.store))
    ensures RunFrom(cfg, s, StartRun(order)) == RunFrom(cfg, s.(phase := Recovering(order)), Recoveries(|order| + 1))
  {
    OneStep(cfg, s, Start(order));
    RunsJoin(cfg, s, [Start(order)], Recoveries(|order| + 1));
  }

  lemma StartEnds(cfg: Config, s: Sys, order: seq<Key>)
    requires s.phase.Down? && FencesNameReplies(s.store) && Enumerates(order, ClaimedPending(s.store))
    ensures RunFrom(cfg, s, StartRun(order)).phase == Idle <==> AllFenced(ClaimedPending(s.store), s.store)
  {
    Starting(cfg, s, order);
    RecoveryEndsIff(cfg, s.(phase := Recovering(order)));
  }

  ghost predicate CanServeAgain(cfg: Config, s: Sys) {
    exists actions :: TakesReplies(RunFrom(cfg, s, actions).phase)
  }

  /** From any state of any run in which the process is down: the next start, in whatever order
      the directory lists the replies, ends its recovery if and only if the request of every
      claimed waiting reply has a fence; and if not, no run at all gets the process up again. */
  lemma StartEndsIff(cfg: Config, before: seq<Action>, order: seq<Key>)
    requires var s := RunFrom(cfg, NewSystem, before); s.phase.Down? && Enumerates(order, ClaimedPending(s.store))
    ensures var s := RunFrom(cfg, NewSystem, before);
            && (RunFrom(cfg, s, StartRun(order)).phase == Idle <==> AllFenced(ClaimedPending(s.store), s.store))
            && (CanServeAgain(cfg, s) <==> AllFenced(ClaimedPending(s.store), s.store))
  {
    var s := RunFrom(cfg, NewSystem, before);
    RunKeepsFences(cfg, before);
    StartEnds(cfg, s, order);
    if AllFenced(ClaimedPending(s.store), s.store) {
      assert TakesReplies(RunFrom(cfg, s, StartRun(order)).phase);
    } else {
      var k :| k in ClaimedPending(s.store) && k.req !in s.store.fences;
      forall actions ensures !TakesReplies(RunFrom(cfg, s, actions).phase) {
        StuckForGood(cfg, s, actions, k);
      }
    }
  }

  /** In every clean run a start comes up with no claimed reply left waiting if and only if the
      request of each one that waited has a fence. */
  lemma StartClearsClaimsIff(cfg: Config, before: seq<Action>, order: seq<Key>)
    requires Clean(cfg, NewSystem, before)
    requires var s := RunFrom(cfg, NewSystem, before); s.phase.Down? && Enumerates(order, ClaimedPending(s.store))
    ensures var s := RunFrom(cfg, NewSystem, before);
            var up := RunFrom(cfg, s, StartRun(order));
            up.phase == Idle && ClaimedPending(up.store) == {} <==> AllFenced(ClaimedPending(s.store), s.store)
  {
    var s := RunFrom(cfg, NewSystem, before);
    StartEndsIff(cfg, before, order);
    if AllFenced(ClaimedPending(s.store), s.store) {
      NewSystemIsSafe(cfg);
      CleanKeepsSafe(cfg, NewSystem, before);
      StartKeepsSafe(cfg, s, order);
      Starting(cfg, s, order);
      RecoveryClearsClaims(cfg, s.(phase := Recovering(order)), |order| + 1);
    }
  }

  // ---- The write that ends it all ---------------------------------------------------------------------

  /** A claimed reply's record is written under a new request, and the process dies before its
      fence is. */
  predicate DeadlyCut(cfg: Config, s: Sys, a: Action) {
    && a.Write? && a.claim.Some? && a.cut && a.owned && TakesReplies(s.phase)
    && a.key !in s.store.replies && WrittenStatus(cfg, a.key) == Pending && a.key.req !in s.store.fences
  }

  lemma CutLeavesStuck(cfg: Config, s: Sys, a: Action)
    requires DeadlyCut(cfg, s, a)
    ensures Stuck(Next(cfg, s, a), a.key)
  {
  }

  lemma OtherWritesLeaveFenced(cfg: Config, s: Sys, a: Action)
    requires Safe(cfg, s) && TakesReplies(s.phase) && a.Write? && !DeadlyCut(cfg, s, a)
    ensures var next := Next(cfg, s, a); AllFenced(ClaimedPending(next.store), next.store)
  {
    var next := Next(cfg, s, a);
    forall k | k in ClaimedPending(next.store) ensures k.req in next.store.fences {
      assert WaitingClaim(s.store, k) ==> Fenced(s.store, k);
    }
  }

  /** In every clean run, a reply's write leaves a process that can never serve again exactly when
      a claimed reply is cut off before the first fence of its request. */
  lemma EndsForGoodIff(cfg: Config, before: seq<Action>, a: Action)
    requires Clean(cfg, NewSystem, before) && TakesReplies(RunFrom(cfg, NewSystem, before).phase) && a.Write?
    ensures var s := RunFrom(cfg, NewSystem, before);
            !CanServeAgain(cfg, Next(cfg, s, a)) <==> DeadlyCut(cfg, s, a)
  {
    var s := RunFrom(cfg, NewSystem, before);
    var next := Next(cfg, s, a);
    NewSystemIsSafe(cfg);
    CleanKeepsSafe(cfg, NewSystem, before);
    if DeadlyCut(cfg, s, a) {
      CutLeavesStuck(cfg, s, a);
      forall actions ensures !TakesReplies(RunFrom(cfg, next, actions).phase) {
        StuckForGood(cfg, next, actions, a.key);
      }
    } else if next.phase.Down? {
      OtherWritesLeaveFenced(cfg, s, a);
      RunAppends(cfg, NewSystem, before, a);
      var order := AnOrder(ClaimedPending(next.store));
      StartEndsIff(cfg, before + [a], order);
    } else {
      assert TakesReplies(RunFrom(cfg, next, []).phase);
    }
  }
}
