/** What every run of the browser-input machine keeps. */
module BrowserTheorems {
  import opened Prelude
  import opened BrowserInputs

  // ---- The history grows by one event ------------------------------------------------------------

  lemma ReachedAfter(history: seq<Event>, e: Event, id: InputId)
    ensures MayHaveReached(history + [e], id) ==
            (if e.id != id then MayHaveReached(history, id)
             else match e
               case Steered(_, release) => Some(release)
               case Rejected(_) => None
               case Released(_, _) => MayHaveReached(history, id))
  {
    assert (history + [e])[..|history|] == history;
  }

  lemma ProperAfter(history: seq<Event>, e: Event)
    requires Proper(history) && Allowed(history, e)
    ensures Proper(history + [e])
  {
    assert (history + [e])[..|history|] == history;
  }

  lemma NoReleaseYet(s: Sys, id: InputId)
    requires ReleasesStand(s) && id in s.inputs && s.inputs[id].release.None?
    ensures !HasRelease(s.history, id)
  {
  }

  /** A step that writes no event and leaves every release and every hold in place. */
  lemma QuietStepKeeps(s: Sys, next: Sys)
    requires Safe(s) && next.history == s.history
    requires ControlSound(next) && DeliverySound(next)
    requires forall id <- s.inputs :: id in next.inputs && next.inputs[id].release == s.inputs[id].release
    requires forall id <- s.inputs :: MayHaveReached(s.history, id).Some? && s.inputs[id].release.None? ==>
               next.inputs[id].phase == Uncertain
               || (next.inputs[id].phase == s.inputs[id].phase
                   && (s.inputs[id].phase == Dispatching ==> next.life != Up || (next.delivery.Steering? && next.delivery.id == id)))
    ensures Safe(next)
  {
    forall id | MayHaveReached(next.history, id).Some?
      ensures id in next.inputs
      ensures next.inputs[id].release.Some? ==> next.inputs[id].release == MayHaveReached(next.history, id)
      ensures next.inputs[id].release.None? && next.inputs[id].phase != Uncertain ==>
                next.inputs[id].phase == Dispatching && (next.life != Up || (next.delivery.Steering? && next.delivery.id == id))
    {
      assert id in s.inputs;
    }
  }

  // ---- Step by step -----------------------------------------------------------------------------------

  lemma LifeKeepsSafe(s: Sys, a: Action)
    requires Safe(s)
    ensures Safe(LifeStep(s, a))
  {
    var next := LifeStep(s, a);
    if a.Crash? || a.Start? {
      assert next.inputs == s.inputs;
    }
    QuietStepKeeps(s, next);
  }

  lemma TurnKeepsSafe(s: Sys, a: Action)
    requires Safe(s) && (a.Choose? || a.PassOver? || a.TurnBegins? || a.TurnAccepted? || a.TurnEnds? || a.TurnCloses?)
    ensures Safe(PassStep(s, a))
  {
    QuietStepKeeps(s, PassStep(s, a));
  }

  lemma WriteReleaseKeepsSafe(s: Sys, release: ReleaseId)
    requires Safe(s)
    ensures Safe(PassStep(s, WriteRelease(release)))
  {
    if s.pass.Chosen? {
      var id, next := s.pass.id, PassStep(s, WriteRelease(release));
      assert s.active.None? && s.delivery == NoDelivery && MayHaveReached(s.history, id).None?;
      NoReleaseYet(s, id);
      ProperAfter(s.history, Released(id, release));
      forall other ensures MayHaveReached(next.history, other) == MayHaveReached(s.history, other) {
        ReachedAfter(s.history, Released(id, release), other);
      }
    }
  }

  lemma CloseKeepsSafe(s: Sys, a: Action)
    requires Safe(s)
    ensures Safe(CloseStep(s, a))
  {
    QuietStepKeeps(s, CloseStep(s, a));
  }

  lemma QuietDeliveryKeepsSafe(s: Sys, a: Action)
    requires Safe(s)
    requires !a.Steer? && !a.Acknowledge? && !a.SteerFails?
    ensures Safe(DeliveryStep(s, a))
  {
    QuietStepKeeps(s, DeliveryStep(s, a));
  }

  lemma SteerKeepsSafe(s: Sys)
    requires Safe(s)
    ensures Safe(DeliveryStep(s, Steer))
  {
    var next := DeliveryStep(s, Steer);
    if next != s {
      var id, release := s.delivery.id, s.delivery.release;
      NoReleaseYet(s, id);
      ProperAfter(s.history, Steered(id, release));
      forall other ensures MayHaveReached(next.history, other) == if other == id then Some(release) else MayHaveReached(s.history, other) {
        ReachedAfter(s.history, Steered(id, release), other);
      }
    }
  }

  /** The running delivery gives its input the release of its own turn. */
  lemma DeliveryReleases(s: Sys, next: Sys)
    requires Safe(s) && (s.delivery.Steering? || s.delivery.Acked? || s.delivery.Told?)
    requires var id, release := s.delivery.id, s.delivery.release;
             && id in s.inputs && next.inputs == WithRelease(s.inputs, id, release) && next.history == s.history + [Released(id, release)]
             && next.delivery == if s.delivery.Steering? && next.delivery.Acked? then Acked(id, release) else Unsure(id, release)
    requires next.life == s.life && next.pass == s.pass && next.active == s.active
    ensures Safe(next)
  {
    var id, release := s.delivery.id, s.delivery.release;
    if s.inputs[id].release.None? {
      NoReleaseYet(s, id);
    }
    assert MayHaveReached(s.history, id).Some? ==> MayHaveReached(s.history, id) == Some(release);
    ProperAfter(s.history, Released(id, release));
    forall other ensures MayHaveReached(next.history, other) == MayHaveReached(s.history, other) {
      ReachedAfter(s.history, Released(id, release), other);
    }
  }

  lemma DeliveryRejected(s: Sys)
    requires Safe(s)
    ensures Safe(FailStep(s, true))
  {
    var next := FailStep(s, true);
    if next != s {
      var id := s.delivery.id;
      ProperAfter(s.history, Rejected(id));
      forall other ensures MayHaveReached(next.history, other) == if other == id then None else MayHaveReached(s.history, other) {
        ReachedAfter(s.history, Rejected(id), other);
      }
    }
  }

  lemma AcknowledgeKeepsSafe(s: Sys)
    requires Safe(s)
    ensures Safe(DeliveryStep(s, Acknowledge))
  {
    if s.delivery.Steering? {
      DeliveryReleases(s, DeliveryStep(s, Acknowledge));
    }
  }

  lemma FailureKeepsSafe(s: Sys, rejected: bool)
    requires Safe(s)
    ensures Safe(FailStep(s, rejected))
  {
    if rejected {
      DeliveryRejected(s);
    } else if s.delivery.Steering? || s.delivery.Acked? || s.delivery.Told? {
      DeliveryReleases(s, FailStep(s, false));
    }
  }

  lemma PassKeepsSafe(s: Sys, a: Action)
    requires Safe(s)
    ensures Safe(PassStep(s, a))
  {
    match a
    case WriteRelease(release) => WriteReleaseKeepsSafe(s, release);
    case Choose(_) => TurnKeepsSafe(s, a);
    case PassOver => TurnKeepsSafe(s, a);
    case TurnBegins => TurnKeepsSafe(s, a);
    case TurnAccepted => TurnKeepsSafe(s, a);
    case TurnEnds => TurnKeepsSafe(s, a);
    case TurnCloses => TurnKeepsSafe(s, a);
    case _ =>
  }

  lemma DeliveryKeepsSafe(s: Sys, a: Action)
    requires Safe(s)
    ensures Safe(DeliveryStep(s, a))
  {
    match a
    case Steer => SteerKeepsSafe(s);
    case Acknowledge => AcknowledgeKeepsSafe(s);
    case SteerFails(rejected) => FailureKeepsSafe(s, rejected);
    case _ => QuietDeliveryKeepsSafe(s, a);
  }

  lemma NextIsOneOf(s: Sys, a: Action)
    ensures Next(s, a) in {LifeStep(s, a), PassStep(s, a), CloseStep(s, a), DeliveryStep(s, a)}
  {
  }

  lemma NextKeepsSafe(s: Sys, a: Action)
    requires Safe(s)
    ensures Safe(Next(s, a))
  {
    LifeKeepsSafe(s, a);
    PassKeepsSafe(s, a);
    CloseKeepsSafe(s, a);
    DeliveryKeepsSafe(s, a);
    NextIsOneOf(s, a);
  }

  lemma {:induction false} RunIsSafe(actions: seq<Action>)
    ensures Safe(RunFrom(NewSystem, actions))
  {
    if actions != [] {
      RunIsSafe(actions[..|actions| - 1]);
      NextKeepsSafe(RunFrom(NewSystem, actions[..|actions| - 1]), actions[|actions| - 1]);
    }
  }

  // ---- The promises -----------------------------------------------------------------------------------------

  /** In every interleaving, all releases an input was ever given are one and the same. */
  lemma AtMostOneRelease(actions: seq<Action>, a: Event, b: Event)
    requires var history := RunFrom(NewSystem, actions).history; a in history && b in history
    requires a.Released? && b.Released? && a.id == b.id
    ensures a.release == b.release
  {
    RunIsSafe(actions);
  }

  /** Whatever the k-th event of a run does, it was allowed after the ones before it. */
  lemma {:induction false} EveryEventAllowed(history: seq<Event>, k: nat)
    requires Proper(history) && k < |history|
    ensures Allowed(history[..k], history[k])
  {
    if k < |history| - 1 {
      EveryEventAllowed(history[..|history| - 1], k);
      assert history[..|history| - 1][..k] == history[..k];
    }
  }

  /** An input that a steering call may have delivered is never steered again, nor one that has a
      release; and the only release it can get is that of the turn it may have reached. */
  lemma NeverGivenTwice(actions: seq<Action>, k: nat)
    requires k < |RunFrom(NewSystem, actions).history|
    ensures var history := RunFrom(NewSystem, actions).history;
            var before, id := history[..k], history[k].id;
            match history[k]
            case Steered(_, _) => MayHaveReached(before, id).None? && !HasRelease(before, id)
            case Released(_, release) => MayHaveReached(before, id).Some? ==> MayHaveReached(before, id) == Some(release)
            case Rejected(_) => true
  {
    RunIsSafe(actions);
    EveryEventAllowed(RunFrom(NewSystem, actions).history, k);
  }

  function EventsOf(history: seq<Event>, id: InputId): seq<Event> {
    if history == [] then []
    else
      var last := history[|history| - 1];
      EventsOf(history[..|history| - 1], id) + if last.id == id && !last.Rejected? then [last] else []
  }

  lemma OtherEvent(history: seq<Event>, e: Event, id: InputId)
    requires e.id != id || e.Rejected?
    ensures EventsOf(history + [e], id) == EventsOf(history, id)
  {
    assert (history + [e])[..|history|] == history;
    assert EventsOf(history, id) + [] == EventsOf(history, id);
  }

  /** The input as it was: uncertain, under the release it had if any, and nothing new done to it. */
  predicate StaysAs(s: Sys, next: Sys, id: InputId) {
    && id in s.inputs && id in next.inputs
    && next.inputs[id].release == s.inputs[id].release && next.inputs[id].phase == s.inputs[id].phase
    && EventsOf(next.history, id) == EventsOf(s.history, id)
  }

  predicate NotInHand(s: Sys, id: InputId) {
    (s.pass.Chosen? ==> s.pass.id != id) && (s.delivery != NoDelivery ==> s.delivery.id != id)
  }

  lemma UncertainNotInHand(s: Sys, id: InputId)
    requires Safe(s) && id in s.inputs && s.inputs[id].phase == Uncertain
    ensures NotInHand(s, id)
  {
  }

  lemma HistoryStays(s: Sys, next: Sys, id: InputId, e: Event)
    requires next.history == s.history + [e] && e.id != id
    ensures EventsOf(next.history, id) == EventsOf(s.history, id)
  {
    OtherEvent(s.history, e, id);
  }

  lemma PassPassesOver(s: Sys, a: Action, id: InputId)
    requires NotInHand(s, id) && id in s.inputs && s.inputs[id].phase == Uncertain
    ensures StaysAs(s, PassStep(s, a), id)
  {
    var next := PassStep(s, a);
    if next.history != s.history {
      HistoryStays(s, next, id, next.history[|s.history|]);
    }
  }

  lemma DeliveryPassesOver(s: Sys, a: Action, id: InputId)
    requires NotInHand(s, id) && id in s.inputs && s.inputs[id].phase == Uncertain
    ensures StaysAs(s, DeliveryStep(s, a), id)
  {
    var next := DeliveryStep(s, a);
    if next.history != s.history {
      HistoryStays(s, next, id, next.history[|s.history|]);
    }
  }

  lemma OthersPassOver(s: Sys, a: Action, id: InputId)
    requires id in s.inputs && s.inputs[id].phase == Uncertain
    ensures StaysAs(s, LifeStep(s, a), id) && StaysAs(s, CloseStep(s, a), id)
  {
  }

  /** One step on an input already uncertain. */
  lemma UncertainStays(s: Sys, a: Action, id: InputId)
    requires Safe(s) && id in s.inputs && s.inputs[id].phase == Uncertain
    ensures StaysAs(s, Next(s, a), id)
  {
    UncertainNotInHand(s, id);
    PassPassesOver(s, a, id);
    DeliveryPassesOver(s, a, id);
    OthersPassOver(s, a, id);
  }

  /** Once an input is uncertain, no later delivery, pass or restart steers it, releases it or
      makes it anything else. */
  lemma {:induction false} UncertainForGood(before: seq<Action>, after: seq<Action>, id: InputId)
    requires var s := RunFrom(NewSystem, before); id in s.inputs && s.inputs[id].phase == Uncertain
    ensures var s, later := RunFrom(NewSystem, before), RunFrom(RunFrom(NewSystem, before), after);
            StaysAs(s, later, id) && Safe(later)
  {
    RunIsSafe(before);
    if after != [] {
      var s := RunFrom(NewSystem, before);
      UncertainForGood(before, after[..|after| - 1], id);
      var last := RunFrom(s, after[..|after| - 1]);
      UncertainStays(last, after[|after| - 1], id);
      NextKeepsSafe(last, after[|after| - 1]);
    }
  }
}
