/** Whose sends the records believe. A confirmation is written down on the reply that the request's
    fence names; it is the reply that was handed over exactly as long as no write leaves a waiting
    reply under another conversation's fence. */
module DeliveryCredit {
  import opened ReplyStore
  import opened Delivery
  import opened DeliverySafety
  import opened DeliveryRecovery
  import opened DeliveryRepeats
  import opened DeliveryReceipts

  // ---- Straight runs credit the reply that was sent -----------------------------------------------

  predicate IsSent(store: Store, k: Key) {
    k in store.replies && store.replies[k].status == Sent
  }

  /** The step confirms this reply, in flight, with these chunk ids. */
  predicate Confirms(s: Sys, a: Action, k: Key, chunks: seq<string>) {
    s.phase.InFlight? && s.phase.key == k && a.Confirm? && a.outcome == SendConfirmed(chunks)
  }

  lemma OnlyConfirmSends(cfg: Config, s: Sys, a: Action, k: Key)
    requires !a.Confirm? && IsSent(Next(cfg, s, a).store, k)
    ensures IsSent(s.store, k)
  {
  }

  /** A reply becomes sent only by the confirmation of its own hand-over, and with the chunk ids
      that this confirmation gave. */
  lemma SentOnlyWhenConfirmed(cfg: Config, s: Sys, a: Action, k: Key)
    requires Honest(cfg, s) && !IsSent(s.store, k) && IsSent(Next(cfg, s, a).store, k)
    ensures Confirms(s, a, k, Next(cfg, s, a).store.replies[k].chunks)
  {
    if a.Confirm? {
      if s.phase.InFlight? {
        assert s.phase.key == Unsettled(s.phase)[0];
        ConfirmSettlesItsOwn(cfg, s, a.outcome, a.cut);
      }
    } else {
      OnlyConfirmSends(cfg, s, a, k);
    }
  }

  /** Step n of the run confirms this reply. */
  ghost predicate ConfirmedAt(cfg: Config, actions: seq<Action>, n: nat, k: Key, chunks: seq<string>) {
    n < |actions| && Confirms(RunFrom(cfg, NewSystem, actions[..n]), actions[n], k, chunks)
  }

  /** In a straight run every sent reply was itself handed over and confirmed, and the chunk ids
      stored with it, of which its proof is made, are those of that confirmation. */
  lemma {:induction false} SentWasConfirmed(cfg: Config, actions: seq<Action>, k: Key) returns (n: nat)
    requires Straight(cfg, NewSystem, actions) && IsSent(RunFrom(cfg, NewSystem, actions).store, k)
    ensures ConfirmedAt(cfg, actions, n, k, RunFrom(cfg, NewSystem, actions).store.replies[k].chunks)
  {
    var before, last := actions[..|actions| - 1], actions[|actions| - 1];
    var s := RunFrom(cfg, NewSystem, before);
    RunIsHonest(cfg, before);
    if IsSent(s.store, k) {
      n := SentWasConfirmed(cfg, before, k);
      NextKeepsHonest(cfg, s, last);
      assert actions[..n] == before[..n];
    } else {
      SentOnlyWhenConfirmed(cfg, s, last, k);
      n := |actions| - 1;
    }
  }

  // ---- And only they do ------------------------------------------------------------------------------

  /** Confirming the reply in flight, with these chunk ids, makes some other reply sent, or gives
      a sent one other chunk ids. */
  ghost predicate Miscredits(t: Sys, chunks: seq<string>, k: Key) {
    && t.phase.InFlight? && k != t.phase.key
    && k in t.store.replies && IsSent(ConfirmStep(t, SendConfirmed(chunks), false).store, k)
    && (!IsSent(t.store, k) || t.store.replies[k].chunks != ConfirmStep(t, SendConfirmed(chunks), false).store.replies[k].chunks)
  }

  ghost predicate CanMiscredit(cfg: Config, s: Sys) {
    exists rest, chunks, k :: Straight(cfg, s, rest) && Miscredits(RunFrom(cfg, s, rest), chunks, k)
  }

  lemma HonestNeverMiscredits(cfg: Config, t: Sys, chunks: seq<string>, k: Key)
    requires Honest(cfg, t)
    ensures !Miscredits(t, chunks, k)
  {
    if t.phase.InFlight? {
      assert t.phase.key == Unsettled(t.phase)[0];
      ConfirmSettlesItsOwn(cfg, t, SendConfirmed(chunks), false);
    }
  }

  lemma {:induction false} StraightKeepsHonest(cfg: Config, s: Sys, actions: seq<Action>)
    requires Honest(cfg, s) && Straight(cfg, s, actions)
    ensures Honest(cfg, RunFrom(cfg, s, actions))
  {
    if actions != [] {
      StraightKeepsHonest(cfg, s, actions[..|actions| - 1]);
      NextKeepsHonest(cfg, RunFrom(cfg, s, actions[..|actions| - 1]), actions[|actions| - 1]);
    }
  }

  /** A misfenced reply in flight: its confirmation is written down on the one the fence names. */
  lemma MisfencedMiscredits(t: Sys, k: Key)
    requires Misfenced(t, k) && t.phase.InFlight? && t.phase.key == k
    ensures Miscredits(t, t.store.replies[Target(t.store, k.req)].chunks + ["chunk"], Target(t.store, k.req))
  {
    var target := Target(t.store, k.req);
    var chunks := t.store.replies[target].chunks + ["chunk"];
    assert ConfirmStep(t, SendConfirmed(chunks), false).store.replies[target].chunks == chunks;
  }

  lemma MisfencedCanMiscredit(cfg: Config, s: Sys, k: Key)
    requires Misfenced(s, k) && PassesReceipts(cfg, s)
    ensures CanMiscredit(cfg, s)
  {
    var rest := HandsOverFrom(cfg, s, k);
    NoWritesIsStraight(cfg, s, rest);
    MisfencedMiscredits(RunFrom(cfg, s, rest), k);
  }

  lemma MisfencesLeavesMisfenced(cfg: Config, s: Sys, a: Action) returns (k: Key)
    requires Safe(cfg, s) && Misfences(cfg, s, a)
    ensures Misfenced(Next(cfg, s, a), k)
  {
    if a.cut {
      k := a.key;
    } else {
      k :| k in s.store.replies && s.store.replies[k].status == Pending && k.req == a.key.req && k != a.key;
    }
  }

  /** A confirmation can come to be written down on a reply that was not sent, or on a sent one
      over its own, exactly when a write leaves a reply under another's fence: in any state a
      straight run reaches, the rest of the run, without another such write, can miscredit if and
      only if this write was one, provided that the process then gets past the receipts it owes. */
  lemma MiscreditsIffMisfences(cfg: Config, actions: seq<Action>, a: Action)
    requires Straight(cfg, NewSystem, actions) && a.Write?
    requires var s := RunFrom(cfg, NewSystem, actions); Misfences(cfg, s, a) ==> PassesReceipts(cfg, Next(cfg, s, a))
    ensures var s := RunFrom(cfg, NewSystem, actions);
            CanMiscredit(cfg, Next(cfg, s, a)) <==> Misfences(cfg, s, a)
  {
    var s := RunFrom(cfg, NewSystem, actions);
    if Misfences(cfg, s, a) {
      NewSystemIsSafe(cfg);
      StraightIsClean(cfg, NewSystem, actions);
      CleanKeepsSafe(cfg, NewSystem, actions);
      var k := MisfencesLeavesMisfenced(cfg, s, a);
      MisfencedCanMiscredit(cfg, Next(cfg, s, a), k);
    } else {
      RunIsHonest(cfg, actions);
      NextKeepsHonest(cfg, s, a);
      forall rest, chunks, k | Straight(cfg, Next(cfg, s, a), rest)
        ensures !Miscredits(RunFrom(cfg, Next(cfg, s, a), rest), chunks, k)
      {
        StraightKeepsHonest(cfg, Next(cfg, s, a), rest);
        HonestNeverMiscredits(cfg, RunFrom(cfg, Next(cfg, s, a), rest), chunks, k);
      }
    }
  }

  /** It does get past them when none is owed. */
  lemma OwingNothingPasses(cfg: Config, actions: seq<Action>, a: Action)
    requires Clean(cfg, NewSystem, actions) && a.Write?
    requires var s := RunFrom(cfg, NewSystem, actions);
             SentUnrecorded(s.store) == {} && (BadCut(cfg, s, a) || Misfences(cfg, s, a))
    ensures PassesReceipts(cfg, Next(cfg, RunFrom(cfg, NewSystem, actions), a))
  {
    var s := RunFrom(cfg, NewSystem, actions);
    var next := Next(cfg, s, a);
    NewSystemIsSafe(cfg);
    CleanKeepsSafe(cfg, NewSystem, actions);
    OtherWritesLeaveFenced(cfg, s, a);
    forall j | j in SentUnrecorded(next.store) ensures j in SentUnrecorded(s.store) {
    }
    NothingOwedPasses(cfg, next);
  }
}
