/** When a settled reply can be handed over again: only while the delivery that is running has it
    in its queue, which no run brings about in which no write leaves a reply under another's fence. */
module DeliverySettled {
  import opened Prelude
  import opened ReplyStore
  import opened Delivery
  import opened DeliverySafety
  import opened DeliveryTheorems
  import DeliveryReceipts

  predicate IsSettled(store: Store, k: Key) {
    k in store.replies && store.replies[k].status in {Sent, Unknown, Failed}
  }

  // ---- What is queued is written --------------------------------------------------------------------

  /** What the running delivery has in hand was written. */
  predicate InHandKnown(s: Sys) {
    && (forall k <- Queue(s.phase) :: k in s.store.replies)
    && (s.phase.InFlight? ==> s.phase.key in s.store.replies)
  }

  lemma QueueShrinks(cfg: Config, s: Sys, a: Action)
    ensures var q, next := Queue(s.phase), Queue(Next(cfg, s, a).phase);
            || (forall k <- next :: k in q)
            || (a.BeginSending? && forall k <- next :: k in AllPending(s.store))
  {
    match a
    case Advance =>
      assert s.phase.Sending? && s.phase.todo != [] ==> forall k <- s.phase.todo[1..] :: k in s.phase.todo;
    case _ =>
  }

  lemma FlyingWasQueued(cfg: Config, s: Sys, a: Action)
    requires Next(cfg, s, a).phase.InFlight?
    ensures var key := Next(cfg, s, a).phase.key; (s.phase.InFlight? && s.phase.key == key) || key in Queue(s.phase)
  {
  }

  lemma NextKeepsInHand(cfg: Config, s: Sys, a: Action)
    requires InHandKnown(s)
    ensures InHandKnown(Next(cfg, s, a))
  {
    NextKeepsBodies(cfg, s, a);
    QueueShrinks(cfg, s, a);
    if Next(cfg, s, a).phase.InFlight? {
      FlyingWasQueued(cfg, s, a);
    }
  }

  lemma {:induction false} RunKeepsInHand(cfg: Config, actions: seq<Action>)
    ensures InHandKnown(RunFrom(cfg, NewSystem, actions))
  {
    if actions != [] {
      RunKeepsInHand(cfg, actions[..|actions| - 1]);
      NextKeepsInHand(cfg, RunFrom(cfg, NewSystem, actions[..|actions| - 1]), actions[|actions| - 1]);
    }
  }

  // ---- What is queued can be handed over --------------------------------------------------------------

  ghost predicate Known(cfg: Config, s: Sys) {
    FencesSound(cfg, s.store) && InHandKnown(s)
  }

  lemma RefusedGoesOn(cfg: Config, s: Sys)
    requires Known(cfg, s) && s.phase.InFlight? && s.phase.key.req in s.store.fences
    ensures var next := Next(cfg, s, Confirm(SendRefused, false));
            Known(cfg, next) && next.phase == Sending(s.phase.todo) && next.log == s.log
  {
    assert Target(s.store, s.phase.key.req) in s.store.replies;
    NextKeepsFences(cfg, s, Confirm(SendRefused, false));
    NextKeepsInHand(cfg, s, Confirm(SendRefused, false));
  }

  /** A write gives the request of the reply in flight its fence. */
  lemma FencedInFlight(cfg: Config, s: Sys)
    requires Known(cfg, s) && s.phase.InFlight? && s.phase.key.req !in s.store.fences
    ensures var next := Next(cfg, s, Write(s.phase.key, "", None, true, false));
            Known(cfg, next) && next.phase == s.phase && next.log == s.log && s.phase.key.req in next.store.fences
  {
    NextKeepsFences(cfg, s, Write(s.phase.key, "", None, true, false));
    NextKeepsInHand(cfg, s, Write(s.phase.key, "", None, true, false));
  }

  /** The reply in flight comes off the wire, and the pass goes on. */
  lemma ComesOff(cfg: Config, s: Sys) returns (actions: seq<Action>)
    requires Known(cfg, s) && s.phase.InFlight?
    ensures var next := RunFrom(cfg, s, actions);
            Known(cfg, next) && next.phase == Sending(s.phase.todo) && next.log == s.log
  {
    var off := Confirm(SendRefused, false);
    if s.phase.key.req in s.store.fences {
      RefusedGoesOn(cfg, s);
      OneStep(cfg, s, off);
      actions := [off];
    } else {
      var write := Write(s.phase.key, "", None, true, false);
      FencedInFlight(cfg, s);
      RefusedGoesOn(cfg, Next(cfg, s, write));
      TwoSteps(cfg, s, write, off);
      actions := [write, off];
    }
  }

  lemma NextIsHanded(cfg: Config, s: Sys, k: Key)
    requires Known(cfg, s) && s.phase.Sending? && s.phase.todo != []
    ensures var next := Next(cfg, s, Advance);
            && Known(cfg, next) && next.phase == InFlight(s.phase.todo[0], s.phase.todo[1..])
            && Count(next.log, k) == Count(s.log, k) + if s.phase.todo[0] == k then 1 else 0
  {
    assert s.phase.todo[0] in Queue(s.phase);
    NextKeepsInHand(cfg, s, Advance);
    CountGrows(s.log, Handed(s.phase.todo[0], s.store.replies[s.phase.todo[0]].text));
  }

  lemma {:induction false} QueuedIsHanded(cfg: Config, s: Sys, k: Key) returns (actions: seq<Action>)
    requires Known(cfg, s) && s.phase.Sending? && k in s.phase.todo
    ensures Count(RunFrom(cfg, s, actions).log, k) > Count(s.log, k)
    decreases |s.phase.todo|
  {
    NextIsHanded(cfg, s, k);
    OneStep(cfg, s, Advance);
    actions := [Advance];
    if s.phase.todo[0] != k {
      var flying := Next(cfg, s, Advance);
      var off := ComesOff(cfg, flying);
      var rest := QueuedIsHanded(cfg, RunFrom(cfg, flying, off), k);
      RunsJoin(cfg, flying, off, rest);
      RunsJoin(cfg, s, [Advance], off + rest);
      actions := [Advance] + (off + rest);
    }
  }

  ghost predicate CanReturn(cfg: Config, s: Sys, k: Key) {
    exists rest :: Count(RunFrom(cfg, s, rest).log, k) > Count(s.log, k)
  }

  lemma QueuedReturns(cfg: Config, s: Sys, k: Key)
    requires Known(cfg, s) && k in Queue(s.phase) && !s.phase.Finishing?
    ensures CanReturn(cfg, s, k)
  {
    if s.phase.InFlight? {
      var off := ComesOff(cfg, s);
      var rest := QueuedIsHanded(cfg, RunFrom(cfg, s, off), k);
      RunsJoin(cfg, s, off, rest);
    } else {
      var rest := QueuedIsHanded(cfg, s, k);
    }
  }

  /** In any state of any run, other than in the middle of a completion: a settled reply can be handed
      over again if and only if the running delivery still has it in its queue. In the middle of one
      it is so only if. */
  lemma SettledReturnsIff(cfg: Config, actions: seq<Action>, k: Key)
    requires IsSettled(RunFrom(cfg, NewSystem, actions).store, k)
    ensures var s := RunFrom(cfg, NewSystem, actions);
            && (!s.phase.Finishing? ==> (CanReturn(cfg, s, k) <==> k in Queue(s.phase)))
            && (CanReturn(cfg, s, k) ==> k in Queue(s.phase))
  {
    var s := RunFrom(cfg, NewSystem, actions);
    RunKeepsFences(cfg, actions);
    RunKeepsInHand(cfg, actions);
    if k !in Queue(s.phase) {
      forall rest ensures Count(RunFrom(cfg, s, rest).log, k) == Count(s.log, k) {
        SettledForGood(cfg, s, rest, k);
      }
    } else if !s.phase.Finishing? {
      QueuedReturns(cfg, s, k);
    }
  }

  // ---- Straight runs -----------------------------------------------------------------------------------

  /** After a run in which no write left a waiting reply under another's fence no settled reply is
      queued, and so none is ever handed over again or unsettled, whatever follows. */
  lemma SettledAfterStraight(cfg: Config, actions: seq<Action>, rest: seq<Action>, k: Key)
    requires DeliveryReceipts.Straight(cfg, NewSystem, actions) && IsSettled(RunFrom(cfg, NewSystem, actions).store, k)
    ensures var s := RunFrom(cfg, NewSystem, actions);
            && k !in Queue(s.phase)
            && IsSettled(RunFrom(cfg, s, rest).store, k) && Count(RunFrom(cfg, s, rest).log, k) == Count(s.log, k)
  {
    var s := RunFrom(cfg, NewSystem, actions);
    DeliveryReceipts.RunIsHonest(cfg, actions);
    RunKeepsFences(cfg, actions);
    assert forall j <- Queue(s.phase) :: j in DeliveryReceipts.Unsettled(s.phase);
    SettledForGood(cfg, s, rest, k);
  }
}
