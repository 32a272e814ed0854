/** When a delivery gets past the receipts it owes: deliver() completes every sent claimed reply that
    is not recorded yet before it sends anything, and a refused call ends the process. */
module DeliveryPasses {
  import opened Prelude
  import opened JobEngine
  import opened ReplyStore
  import opened Delivery
  import opened DeliverySafety

  // ---- Receipts, completed one by one --------------------------------------------------------------

  function Completion(now: Time): seq<Action> {
    [FinishProof, FinishObservation(now), Annotate]
  }

  /** One receipt completed after a crash. */
  function CompletionOfOne(now: Time): seq<Action> {
    [Advance] + Completion(now)
  }

  function ReceiptPass(order: seq<Key>, clock: Key -> Time): seq<Action> {
    if order == [] then [] else ReceiptPass(order[..|order| - 1], clock) + CompletionOfOne(clock(order[|order| - 1]))
  }

  ghost function Completed(cfg: Config, s: Sys, now: Time): Sys {
    Next(cfg, Next(cfg, Next(cfg, s, FinishProof), FinishObservation(now)), Annotate)
  }

  lemma CompletionIs(cfg: Config, s: Sys, now: Time)
    ensures RunFrom(cfg, s, Completion(now)) == Completed(cfg, s, now)
  {
    ThreeSteps(cfg, s, FinishProof, FinishObservation(now), Annotate);
  }

  lemma ReceiptIs(cfg: Config, s: Sys, now: Time)
    ensures RunFrom(cfg, s, CompletionOfOne(now)) == Completed(cfg, Next(cfg, s, Advance), now)
  {
    OneStep(cfg, s, Advance);
    RunsJoin(cfg, s, [Advance], Completion(now));
    CompletionIs(cfg, Next(cfg, s, Advance), now);
  }

  predicate PassStep(a: Action) {
    a.RecoverOne? || a.Advance? || a.Confirm? || a.FinishProof? || a.FinishObservation? || a.Annotate?
  }

  lemma {:induction false} DownStays(cfg: Config, s: Sys, actions: seq<Action>)
    requires s.phase.Down? && forall a <- actions :: PassStep(a)
    ensures RunFrom(cfg, s, actions) == s
  {
    if actions != [] {
      DownStays(cfg, s, actions[..|actions| - 1]);
      assert PassStep(actions[|actions| - 1]);
    }
  }

  lemma {:induction false} DownReceiptPass(cfg: Config, s: Sys, order: seq<Key>, clock: Key -> Time, i: nat)
    requires i <= |order| && RunFrom(cfg, s, ReceiptPass(order[..i], clock)).phase.Down?
    ensures RunFrom(cfg, s, ReceiptPass(order, clock)) == RunFrom(cfg, s, ReceiptPass(order[..i], clock))
  {
    if i == |order| {
      assert order[..i] == order;
    } else {
      var before := order[..|order| - 1];
      assert before[..i] == order[..i];
      DownReceiptPass(cfg, s, before, clock, i);
      RunsJoin(cfg, s, ReceiptPass(before, clock), CompletionOfOne(clock(order[|order| - 1])));
      DownStays(cfg, RunFrom(cfg, s, ReceiptPass(before, clock)), CompletionOfOne(clock(order[|order| - 1])));
    }
  }

  /** A records call, as one transaction of the run and what its outcome does to the process. */
  lemma FinishStepIs(cfg: Config, s: Sys, c: Command, a: Action)
    requires s.phase.Finishing?
    requires var f := s.phase;
             var source := cfg.proof(f.key, f.chunks);
             || (a == FinishProof && f.stage == 0 && c == FinishReceipt(f.claim.job, f.claim.step, source, f.claim.id))
             || (a.FinishObservation? && f.stage == 1 && c == Observe(f.claim.job, f.claim.step, source, false, a.now))
    ensures var (db, outcome) := Apply(InstalledNow(cfg, s), Database(cfg, s), c);
            && Run(cfg.env, s.commands + [c]) == db
            && FinishStep(cfg, s, a)
               == s.(commands := s.commands + [c], phase := if outcome.Refused? then Down else s.phase.(stage := s.phase.stage + 1))
  {
    assert (s.commands + [c])[..|s.commands|] == s.commands;
  }

  // ---- What one owed receipt comes to ---------------------------------------------------------------

  /** The two records calls that complete a claim with this source; None if one is refused. */
  ghost function CompletedDb(at: Installed, db: Db, claim: ClaimRef, source: SourceId, now: Time): Option<Db> {
    var (mid, first) := WriteReceipt(db, FinishReceipt(claim.job, claim.step, source, claim.id));
    if first.Refused? then None
    else
      var (done, second) := RecordObservation(at, mid, Observe(claim.job, claim.step, source, false, now));
      if second.Refused? then None else Some(done)
  }

  predicate AreOwed(store: Store, order: seq<Key>) {
    forall k <- order :: k in store.replies && store.replies[k].claim.Some?
  }

  /** The database after these receipts, one after the other; None if any call of theirs is refused. */
  ghost function AfterReceipts(cfg: Config, at: Installed, db: Db, store: Store, order: seq<Key>, clock: Key -> Time): Option<Db>
    requires AreOwed(store, order)
  {
    if order == [] then Some(db)
    else
      var last := order[|order| - 1];
      match AfterReceipts(cfg, at, db, store, order[..|order| - 1], clock)
      case None => None
      case Some(before) =>
        CompletedDb(at, before, store.replies[last].claim.value, cfg.proof(last, store.replies[last].chunks), clock(last))
  }

  function Marked(store: Store, keys: seq<Key>): Store {
    store.(replies := map k | k in store.replies :: if k in keys then store.replies[k].(recorded := true) else store.replies[k])
  }

  /** The process goes on as it was, but for its phase, its store and what the records service ran. */
  ghost predicate Quiet(cfg: Config, s: Sys, t: Sys) {
    t.log == s.log && t.taught == s.taught && t.silent == s.silent && InstalledNow(cfg, t) == InstalledNow(cfg, s)
  }

  lemma ReceiptCall(cfg: Config, s: Sys)
    requires s.phase.Finishing? && s.phase.stage == 0
    ensures var f := s.phase;
            var (db, outcome) := WriteReceipt(Database(cfg, s), FinishReceipt(f.claim.job, f.claim.step, cfg.proof(f.key, f.chunks), f.claim.id));
            var t := Next(cfg, s, FinishProof);
            && t.phase == (if outcome.Refused? then Down else f.(stage := 1))
            && Database(cfg, t) == db && t.store == s.store && Quiet(cfg, s, t)
  {
    var t := Next(cfg, s, FinishProof);
    assert t.commands[..|t.commands| - 1] == s.commands;
  }

  lemma ObservationCall(cfg: Config, s: Sys, now: Time)
    requires s.phase.Finishing? && s.phase.stage == 1
    ensures var f := s.phase;
            var (db, outcome) := RecordObservation(InstalledNow(cfg, s), Database(cfg, s), Observe(f.claim.job, f.claim.step, cfg.proof(f.key, f.chunks), false, now));
            var t := Next(cfg, s, FinishObservation(now));
            && t.phase == (if outcome.Refused? then Down else f.(stage := 2))
            && Database(cfg, t) == db && t.store == s.store && Quiet(cfg, s, t)
  {
    var t := Next(cfg, s, FinishObservation(now));
    assert t.commands[..|t.commands| - 1] == s.commands;
  }

  /** A completion ends the process if one of its calls is refused, and else leaves the annotation. */
  lemma CompletionComesTo(cfg: Config, s: Sys, now: Time)
    requires s.phase.Finishing? && s.phase.stage == 0 && s.phase.key in s.store.replies
    ensures var f := s.phase;
            var d := CompletedDb(InstalledNow(cfg, s), Database(cfg, s), f.claim, cfg.proof(f.key, f.chunks), now);
            var t := Completed(cfg, s, now);
            if d.None? then t.phase.Down?
            else
              && t.phase == (if f.sending then Sending(f.todo) else Receipts(f.todo)) && Database(cfg, t) == d.value && Quiet(cfg, s, t)
              && t.store == s.store.(replies := s.store.replies[f.key := s.store.replies[f.key].(recorded := true)])
  {
    ReceiptCall(cfg, s);
    var one := Next(cfg, s, FinishProof);
    if one.phase.Finishing? {
      ObservationCall(cfg, one, now);
      AnnotationComesTo(cfg, Next(cfg, one, FinishObservation(now)));
    } else {
      DownAlready(cfg, one, now);
    }
  }

  lemma AnnotationComesTo(cfg: Config, s: Sys)
    ensures s.phase.Down? ==> Next(cfg, s, Annotate) == s
    ensures s.phase.Finishing? && s.phase.stage == 2 && s.phase.key in s.store.replies ==>
              Next(cfg, s, Annotate)
              == s.(phase := if s.phase.sending then Sending(s.phase.todo) else Receipts(s.phase.todo),
                    store := s.store.(replies := s.store.replies[s.phase.key := s.store.replies[s.phase.key].(recorded := true)]))
  {
  }

  lemma DownAlready(cfg: Config, s: Sys, now: Time)
    requires s.phase.Down?
    ensures Next(cfg, Next(cfg, s, FinishObservation(now)), Annotate) == s
  {
  }

  lemma OneReceipt(cfg: Config, s: Sys, key: Key, todo: seq<Key>, now: Time)
    requires s.phase == Receipts([key] + todo) && key in s.store.replies && s.store.replies[key].claim.Some?
    ensures var reply := s.store.replies[key];
            var d := CompletedDb(InstalledNow(cfg, s), Database(cfg, s), reply.claim.value, cfg.proof(key, reply.chunks), now);
            var t := RunFrom(cfg, s, CompletionOfOne(now));
            if d.None? then t.phase.Down?
            else
              && t.phase == Receipts(todo) && Database(cfg, t) == d.value && Quiet(cfg, s, t)
              && t.store == s.store.(replies := s.store.replies[key := reply.(recorded := true)])
  {
    assert ([key] + todo)[1..] == todo;
    ReceiptIs(cfg, s, now);
    CompletionComesTo(cfg, Next(cfg, s, Advance), now);
  }

  lemma MarkedOneMore(store: Store, keys: seq<Key>, key: Key)
    requires key in store.replies
    ensures var so := Marked(store, keys);
            Marked(store, keys + [key]) == so.(replies := so.replies[key := so.replies[key].(recorded := true)])
  {
  }

  /** After the first i receipts. */
  ghost predicate ReceiptsDone(cfg: Config, s: Sys, t: Sys, order: seq<Key>, i: nat, clock: Key -> Time)
    requires i <= |order| && AreOwed(s.store, order[..i])
  {
    var d := AfterReceipts(cfg, InstalledNow(cfg, s), Database(cfg, s), s.store, order[..i], clock);
    if d.None? then t.phase.Down?
    else t.phase == Receipts(order[i..]) && Database(cfg, t) == d.value && Quiet(cfg, s, t) && t.store == Marked(s.store, order[..i])
  }

  lemma OneMoreReceipt(cfg: Config, s: Sys, t: Sys, order: seq<Key>, i: nat, clock: Key -> Time)
    requires AreOwed(s.store, order) && 0 < i <= |order| && ReceiptsDone(cfg, s, t, order, i - 1, clock)
    ensures ReceiptsDone(cfg, s, RunFrom(cfg, t, CompletionOfOne(clock(order[i - 1]))), order, i, clock)
  {
    var before, last := order[..i - 1], order[i - 1];
    assert order[..i][..i - 1] == before && order[..i] == before + [last];
    if t.phase.Down? {
      DownStays(cfg, t, CompletionOfOne(clock(last)));
    } else {
      assert order[i - 1..] == [last] + order[i..];
      assert last in order;
      OneReceipt(cfg, t, last, order[i..], clock(last));
      MarkedOneMore(s.store, before, last);
    }
  }

  lemma {:induction false} ReceiptsComeTo(cfg: Config, s: Sys, order: seq<Key>, i: nat, clock: Key -> Time)
    requires s.phase == Receipts(order) && AreOwed(s.store, order) && i <= |order|
    ensures ReceiptsDone(cfg, s, RunFrom(cfg, s, ReceiptPass(order[..i], clock)), order, i, clock)
  {
    if i == 0 {
      assert order[0..] == order && Marked(s.store, []).replies == s.store.replies;
    } else {
      assert order[..i][..i - 1] == order[..i - 1];
      ReceiptsComeTo(cfg, s, order, i - 1, clock);
      var t := RunFrom(cfg, s, ReceiptPass(order[..i - 1], clock));
      OneMoreReceipt(cfg, s, t, order, i, clock);
      RunsJoin(cfg, s, ReceiptPass(order[..i - 1], clock), CompletionOfOne(clock(order[i - 1])));
    }
  }

  lemma NoneOwedAfter(store: Store, order: seq<Key>)
    requires Enumerates(order, SentUnrecorded(store))
    ensures SentUnrecorded(Marked(store, order)) == {}
  {
    forall k ensures k !in SentUnrecorded(Marked(store, order)) {
      assert k in SentUnrecorded(store) ==> k in order;
    }
  }

  /** deliver(), up to its sending. */
  function ReceiptsRun(order: seq<Key>, clock: Key -> Time): seq<Action> {
    [BeginDeliver(order)] + ReceiptPass(order, clock)
  }

  /** From any idle state, a delivery gets to its sending if and only if no call of the receipts it
      owes, completed one after the other, is refused; otherwise it ends the process. */
  lemma PassReachesSendingIff(cfg: Config, s: Sys, order: seq<Key>, clock: Key -> Time)
    requires s.phase == Idle && Enumerates(order, SentUnrecorded(s.store))
    ensures AreOwed(s.store, order)
    ensures var t := RunFrom(cfg, s, ReceiptsRun(order, clock));
            var d := AfterReceipts(cfg, InstalledNow(cfg, s), Database(cfg, s), s.store, order, clock);
            && (t.phase == Receipts([]) <==> d.Some?) && (t.phase.Down? <==> d.None?)
            && (d.Some? ==> SentUnrecorded(t.store) == {} && Quiet(cfg, s, t) && t.store == Marked(s.store, order))
  {
    assert forall k <- order :: k in SentUnrecorded(s.store);
    var begun := Next(cfg, s, BeginDeliver(order));
    OneStep(cfg, s, BeginDeliver(order));
    RunsJoin(cfg, s, [BeginDeliver(order)], ReceiptPass(order, clock));
    ReceiptsComeTo(cfg, begun, order, |order|, clock);
    assert order[..|order|] == order && order[|order|..] == [];
    NoneOwedAfter(s.store, order);
  }
}
