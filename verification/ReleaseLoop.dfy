/** recover() and deliver() of runtime/loop.ts as loops over the store, the transport and the
    records service. Each is shown to be a run of the delivery machine, so what holds of every
    run holds of them. */
module ReleaseLoop {
  import opened Prelude
  import opened JobEngine
  import opened JobRuns
  import JobTools
  import opened ReplyStore
  import opened Delivery
  import opened DeliverySafety
  import opened DeliveryRecovery
  import opened DeliveryPasses

  // ---- The runs the loops make ---------------------------------------------------------------------

  /** One reply handed over and settled, and its action completed if it is confirmed and claimed. */
  function HandOver(outcome: SendOutcome, now: Time): seq<Action> {
    [Advance, Confirm(outcome, false)] + Completion(now)
  }

  function SendPass(order: seq<Key>, transport: Key -> SendOutcome, clock: Key -> Time): seq<Action> {
    if order == [] then []
    else
      var last := order[|order| - 1];
      SendPass(order[..|order| - 1], transport, clock) + HandOver(transport(last), clock(last))
  }

  /** A whole deliver(). */
  function DeliverRun(receipts: seq<Key>, order: seq<Key>, transport: Key -> SendOutcome, clock: Key -> Time): seq<Action> {
    [BeginDeliver(receipts)] + ReceiptPass(receipts, clock) + [BeginSending(order)] + SendPass(order, transport, clock) + [Advance]
  }

  lemma DeliveryIs(cfg: Config, s: Sys, receipts: seq<Key>, order: seq<Key>, transport: Key -> SendOutcome, clock: Key -> Time)
    ensures var between := RunFrom(cfg, Next(cfg, s, BeginDeliver(receipts)), ReceiptPass(receipts, clock));
            var sent := RunFrom(cfg, Next(cfg, between, BeginSending(order)), SendPass(order, transport, clock));
            RunFrom(cfg, s, DeliverRun(receipts, order, transport, clock)) == Next(cfg, sent, Advance)
  {
    var first := [BeginDeliver(receipts)];
    OneStep(cfg, s, BeginDeliver(receipts));
    RunsJoin(cfg, s, first, ReceiptPass(receipts, clock));
    var second := first + ReceiptPass(receipts, clock);
    RunAppends(cfg, s, second, BeginSending(order));
    RunsJoin(cfg, s, second + [BeginSending(order)], SendPass(order, transport, clock));
    RunAppends(cfg, s, second + [BeginSending(order)] + SendPass(order, transport, clock), Advance);
  }

  lemma {:induction false} DownSendPass(cfg: Config, s: Sys, order: seq<Key>, transport: Key -> SendOutcome, clock: Key -> Time, i: nat)
    requires i <= |order| && RunFrom(cfg, s, SendPass(order[..i], transport, clock)).phase.Down?
    ensures RunFrom(cfg, s, SendPass(order, transport, clock)) == RunFrom(cfg, s, SendPass(order[..i], transport, clock))
  {
    if i == |order| {
      assert order[..i] == order;
    } else {
      var before := order[..|order| - 1];
      assert before[..i] == order[..i];
      DownSendPass(cfg, s, before, transport, clock, i);
      RunsJoin(cfg, s, SendPass(before, transport, clock), HandOver(transport(order[|order| - 1]), clock(order[|order| - 1])));
      DownStays(cfg, RunFrom(cfg, s, SendPass(before, transport, clock)), HandOver(transport(order[|order| - 1]), clock(order[|order| - 1])));
    }
  }

  /** A completion is the two calls and the annotation. */
  lemma CompletedIs(cfg: Config, s: Sys, two: Sys, now: Time)
    requires two == FinishStep(cfg, FinishStep(cfg, s, FinishProof), FinishObservation(now))
    ensures Completed(cfg, s, now) == AnnotateStep(two) && (two.phase.Down? ==> Completed(cfg, s, now) == two)
  {
    assert Next(cfg, s, FinishProof) == FinishStep(cfg, s, FinishProof);
    assert Next(cfg, two, Annotate) == AnnotateStep(two);
  }

  lemma NothingToComplete(cfg: Config, s: Sys, now: Time)
    requires !s.phase.Finishing?
    ensures Completed(cfg, s, now) == s
  {
  }

  lemma HandOverIs(cfg: Config, s: Sys, outcome: SendOutcome, now: Time)
    ensures RunFrom(cfg, s, HandOver(outcome, now)) == Completed(cfg, Next(cfg, Next(cfg, s, Advance), Confirm(outcome, false)), now)
  {
    var two := [Advance, Confirm(outcome, false)];
    TwoSteps(cfg, s, Advance, Confirm(outcome, false));
    RunsJoin(cfg, s, two, Completion(now));
    CompletionIs(cfg, RunFrom(cfg, s, two), now);
  }

  /** Replies may be marked and settled, never dropped, and keep their claims. */
  predicate BodiesStay(before: map<Key, Reply>, after: map<Key, Reply>) {
    after.Keys == before.Keys && forall k <- before :: after[k].claim == before[k].claim
  }

  // ---- The loops ---------------------------------------------------------------------------------------

  class ReleaseLoop {
    const cfg: Config
    const files: ReplyFiles
    const tools: JobTools.JobTools
    var log: seq<Handed>
    var taught: set<RequestId>
    var silent: set<RequestId>
    ghost var commands: seq<Command>

    ghost function State(phase: Phase): Sys
      reads this, files
    {
      Sys(files.View(), phase, log, commands, taught, silent)
    }

    ghost predicate Valid()
      reads this, files, tools
    {
      files.Valid() && tools.Valid() && tools.env == InstalledAfter(cfg.env, commands) && tools.View() == Run(cfg.env, commands)
    }

    constructor (cfg: Config, files: ReplyFiles, tools: JobTools.JobTools)
      requires files.Valid() && files.View() == Store(map[], map[])
      requires tools.env == cfg.env && tools.View() == EmptyDb
      ensures Valid() && this.cfg == cfg && this.files == files && this.tools == tools
      ensures State(Down) == NewSystem
    {
      this.cfg, this.files, this.tools := cfg, files, tools;
      log, taught, silent, commands := [], {}, {}, [];
      new;
      RunIsSound(cfg.env, []);
    }

    /** The replies of a directory listing that some test picks out. */
    method Pick(listing: seq<Key>, wanted: Reply -> bool) returns (order: seq<Key>)
      requires Enumerates(listing, files.replies.Keys)
      ensures Enumerates(order, set k | k in files.replies && wanted(files.replies[k]))
    {
      order := [];
      for i := 0 to |listing|
        invariant forall k <- order :: k in listing[..i]
        invariant forall k <- listing[..i] :: k in order <==> wanted(files.replies[k])
        invariant forall a, b :: 0 <= a < b < |order| ==> order[a] != order[b]
      {
        assert listing[..i + 1] == listing[..i] + [listing[i]];
        assert listing[i] !in order;
        if wanted(files.replies[listing[i]]) {
          order := order + [listing[i]];
        }
      }
    }

    /** One claimed reply of recover(). */
    method MarkUnknown(key: Key, ghost todo: seq<Key>) returns (settled: bool)
      requires Valid()
      modifies files
      ensures Valid()
      ensures State(if settled then Recovering(todo) else Down) == Next(cfg, old(State(Recovering([key] + todo))), RecoverOne(false))
    {
      assert ([key] + todo)[1..] == todo;
      settled := files.SettleDelivery(key.req, Unknown, None);
    }

    lemma OneMoreRecovery(start: Sys, i: nat)
      ensures RunFrom(cfg, start, Recoveries(i + 1)) == RecoverStep(RunFrom(cfg, start, Recoveries(i)), false)
    {
      assert Recoveries(i + 1)[..i] == Recoveries(i);
    }

    /** The loop of recover(). */
    method MarkEach(todo: seq<Key>) returns (up: bool)
      requires Valid()
      modifies files
      ensures Valid()
      ensures State(if up then Idle else Down) == RunFrom(cfg, old(State(Recovering(todo))), Recoveries(|todo| + 1))
    {
      ghost var start := State(Recovering(todo));
      for i := 0 to |todo|
        invariant Valid()
        invariant State(Recovering(todo[i..])) == RunFrom(cfg, start, Recoveries(i))
      {
        assert todo[i..] == [todo[i]] + todo[i + 1..];
        var settled := MarkUnknown(todo[i], todo[i + 1..]);
        OneMoreRecovery(start, i);
        if !settled {
          ThrewInRecovery(start, i, |todo|);
          return false;
        }
      }
      OneMoreRecovery(start, |todo|);
      return true;
    }

    /** recover(): every claimed reply still pending becomes unknown. False when it threw, which is
        exactly when one of them is under a request without a fence. */
    method Recover(listing: seq<Key>) returns (up: bool, ghost order: seq<Key>)
      requires Valid() && Enumerates(listing, files.replies.Keys)
      modifies files
      ensures Valid() && Enumerates(order, old(ClaimedPending(files.View())))
      ensures State(if up then Idle else Down) == RunFrom(cfg, old(State(Recovering(order))), Recoveries(|order| + 1))
      ensures up <==> AllFenced(old(ClaimedPending(files.View())), old(files.View()))
    {
      ghost var before := files.View();
      var todo := Pick(listing, (r: Reply) => r.status == Pending && r.claim.Some?);
      order := todo;
      assert (set k | k in files.replies && ((r: Reply) => r.status == Pending && r.claim.Some?)(files.replies[k])) == ClaimedPending(files.View());
      RecoveryEndsIff(cfg, State(Recovering(todo)));
      up := MarkEach(todo);
    }

    lemma ThrewInRecovery(s: Sys, i: nat, n: nat)
      requires i < n && RunFrom(cfg, s, Recoveries(i + 1)).phase.Down?
      ensures RunFrom(cfg, s, Recoveries(n + 1)) == RunFrom(cfg, s, Recoveries(i + 1))
    {
      assert Recoveries(n + 1) == Recoveries(i + 1) + Recoveries(n - i);
      RunsJoin(cfg, s, Recoveries(i + 1), Recoveries(n - i));
      DownStays(cfg, RunFrom(cfg, s, Recoveries(i + 1)), Recoveries(n - i));
    }

    /** ensureTeachCheck() for a release of the held room; the follow-up's effect and answer are
        what a model turn happens to give. False when it threw. */
    method EnsureTeachCheck(req: RequestId, recordedAfter: bool, answer: string) returns (up: bool)
      requires Valid() && cfg.heldIn.Some?
      modifies this`taught, this`silent, files
      ensures Valid()
      ensures State(if up then Idle else Down) == TeachStep(cfg, old(State(Idle)), EnsureTeach(req, recordedAfter, answer, false))
    {
      var key := Key(cfg.heldIn.value, req);
      if key !in files.replies || files.replies[key].status != Held {
        return true;
      }
      if req in taught {
        up := files.ReleaseHeldReply(req);
        return;
      }
      if cfg.program {
        files.Park(key);
        return true;
      }
      up := FollowUp(req, recordedAfter, answer);
    }

    /** The rest of ensureTeachCheck(): the harness is asked once more, and the reply let go or
        parked by what came of it. */
    method FollowUp(req: RequestId, recordedAfter: bool, answer: string) returns (up: bool)
      requires Valid() && cfg.heldIn.Some? && !cfg.program && req !in taught
      requires var key := Key(cfg.heldIn.value, req); key in files.replies && files.replies[key].status == Held
      modifies this`taught, this`silent, files
      ensures Valid()
      ensures State(if up then Idle else Down) == TeachStep(cfg, old(State(Idle)), EnsureTeach(req, recordedAfter, answer, false))
    {
      var key := Key(cfg.heldIn.value, req);
      if recordedAfter {
        taught := taught + {req};
      }
      if SaidNothingTaught(answer) {
        silent := silent + {req};
      }
      if req in taught || SaidNothingTaught(answer) {
        up := files.ReleaseHeldReply(req);
      } else {
        files.Park(key);
        up := true;
      }
    }

    /** finishMappedAction(), its receipt transaction. */
    method FinishTheReceipt(key: Key, claim: ClaimRef, chunks: seq<string>, ghost todo: seq<Key>, ghost sending: bool) returns (up: bool)
      requires Valid()
      modifies this`commands, tools
      ensures Valid()
      ensures State(if up then Finishing(key, claim, chunks, 1, todo, sending) else Down)
              == FinishStep(cfg, old(State(Finishing(key, claim, chunks, 0, todo, sending))), FinishProof)
    {
      ghost var before := State(Finishing(key, claim, chunks, 0, todo, sending));
      var source := cfg.proof(key, chunks);
      FinishStepIs(cfg, before, FinishReceipt(claim.job, claim.step, source, claim.id), FinishProof);
      var outcome := tools.FinishReceipt(claim.job, claim.step, source, claim.id);
      commands := commands + [FinishReceipt(claim.job, claim.step, source, claim.id)];
      assert tools.View() == Run(cfg.env, commands);
      return !outcome.Refused?;
    }

    /** finishMappedAction(), its observation transaction. */
    method FinishTheObservation(key: Key, claim: ClaimRef, chunks: seq<string>, now: Time, ghost todo: seq<Key>, ghost sending: bool)
      returns (up: bool)
      requires Valid()
      modifies this`commands, tools
      ensures Valid()
      ensures State(if up then Finishing(key, claim, chunks, 2, todo, sending) else Down)
              == FinishStep(cfg, old(State(Finishing(key, claim, chunks, 1, todo, sending))), FinishObservation(now))
    {
      ghost var before := State(Finishing(key, claim, chunks, 1, todo, sending));
      var source := cfg.proof(key, chunks);
      FinishStepIs(cfg, before, Observe(claim.job, claim.step, source, false, now), FinishObservation(now));
      var outcome := tools.JobRecordObservation(claim.job, claim.step, source, false, now);
      commands := commands + [Observe(claim.job, claim.step, source, false, now)];
      assert tools.View() == Run(cfg.env, commands);
      return !outcome.Refused?;
    }

    /** finishMappedAction(): the receipt, and only if it was not refused the observation. */
    method FinishMappedAction(key: Key, claim: ClaimRef, chunks: seq<string>, now: Time, ghost todo: seq<Key>, ghost sending: bool)
      returns (up: bool)
      requires Valid()
      modifies this`commands, tools
      ensures Valid()
      ensures State(if up then Finishing(key, claim, chunks, 2, todo, sending) else Down)
              == FinishStep(cfg, FinishStep(cfg, old(State(Finishing(key, claim, chunks, 0, todo, sending))), FinishProof), FinishObservation(now))
    {
      up := FinishTheReceipt(key, claim, chunks, todo, sending);
      if up {
        up := FinishTheObservation(key, claim, chunks, now, todo, sending);
      }
    }

    /** recordSentAction(): the receipt and the observation, then the annotation. */
    method RecordSentAction(key: Key, claim: ClaimRef, chunks: seq<string>, now: Time, ghost todo: seq<Key>, ghost sending: bool)
      returns (up: bool)
      requires Valid() && key in files.replies
      modifies this`commands, files, tools
      ensures Valid()
      ensures files.replies == (if up then old(files.replies)[key := old(files.replies)[key].(recorded := true)] else old(files.replies))
      ensures State(if !up then Down else if sending then Sending(todo) else Receipts(todo))
              == Completed(cfg, old(State(Finishing(key, claim, chunks, 0, todo, sending))), now)
    {
      ghost var start := State(Finishing(key, claim, chunks, 0, todo, sending));
      up := FinishMappedAction(key, claim, chunks, now, todo, sending);
      ghost var two := State(if up then Finishing(key, claim, chunks, 2, todo, sending) else Down);
      CompletedIs(cfg, start, two, now);
      if !up {
        return;
      }
      files.MarkRecorded(key);
      assert State(if sending then Sending(todo) else Receipts(todo)) == AnnotateStep(two);
    }

    /** One reply of deliver(): handed over, settled under its request, and completed. */
    method HandOverOne(key: Key, outcome: SendOutcome, now: Time, ghost todo: seq<Key>) returns (up: bool)
      requires Valid() && key in files.replies
      modifies this`log, this`commands, files, tools
      ensures Valid() && files.replies.Keys == old(files.replies.Keys)
      ensures State(if up then Sending(todo) else Down)
              == Completed(cfg, ConfirmStep(AdvanceStep(old(State(Sending([key] + todo)))), outcome, false), now)
    {
      ghost var before := State(Sending([key] + todo));
      assert ([key] + todo)[1..] == todo;
      log := log + [Handed(key, files.replies[key].text)];
      ghost var flying := State(InFlight(key, todo));
      assert flying == AdvanceStep(before);
      var chunks := if outcome.SendConfirmed? then Some(outcome.chunks) else None;
      var settled := files.SettleDelivery(key.req, OutcomeStatus(outcome), chunks);
      if !settled {
        NothingToComplete(cfg, State(Down), now);
        return false;
      }
      var confirmed := Key(files.fences[key.req].room, key.req);
      assert confirmed == Target(flying.store, key.req);
      var claim := files.replies[confirmed].claim;
      assert claim == flying.store.replies[confirmed].claim;
      if outcome.SendConfirmed? && claim.Some? {
        assert State(Finishing(confirmed, claim.value, outcome.chunks, 0, todo, true)) == ConfirmStep(flying, outcome, false);
        up := RecordSentAction(confirmed, claim.value, outcome.chunks, now, todo, true);
      } else {
        assert State(Sending(todo)) == ConfirmStep(flying, outcome, false);
        NothingToComplete(cfg, State(Sending(todo)), now);
        up := true;
      }
    }

    method CompleteOne(key: Key, now: Time, ghost todo: seq<Key>) returns (up: bool)
      requires Valid() && key in files.replies && files.replies[key].claim.Some?
      modifies this`commands, files, tools
      ensures Valid() && BodiesStay(old(files.replies), files.replies)
      ensures State(if up then Receipts(todo) else Down) == Completed(cfg, AdvanceStep(old(State(Receipts([key] + todo)))), now)
    {
      var reply := files.replies[key];
      assert ([key] + todo)[1..] == todo;
      assert State(Finishing(key, reply.claim.value, reply.chunks, 0, todo, false)) == AdvanceStep(State(Receipts([key] + todo)));
      up := RecordSentAction(key, reply.claim.value, reply.chunks, now, todo, false);
    }

    /** The body of deliver()'s first loop. */
    method CompleteEach(order: seq<Key>, clock: Key -> Time) returns (up: bool)
      requires Valid() && forall k <- order :: k in files.replies && files.replies[k].claim.Some?
      modifies this`commands, files, tools
      ensures Valid() && files.replies.Keys == old(files.replies.Keys)
      ensures State(if up then Receipts([]) else Down) == RunFrom(cfg, old(State(Receipts(order))), ReceiptPass(order, clock))
    {
      ghost var start := State(Receipts(order));
      for i := 0 to |order|
        invariant Valid() && BodiesStay(old(files.replies), files.replies)
        invariant State(Receipts(order[i..])) == RunFrom(cfg, start, ReceiptPass(order[..i], clock))
      {
        ghost var before := State(Receipts(order[i..]));
        assert order[i..] == [order[i]] + order[i + 1..];
        assert order[..i + 1][..i] == order[..i];
        RunsJoin(cfg, start, ReceiptPass(order[..i], clock), CompletionOfOne(clock(order[i])));
        ReceiptIs(cfg, before, clock(order[i]));
        assert Next(cfg, before, Advance) == AdvanceStep(before);
        up := CompleteOne(order[i], clock(order[i]), order[i + 1..]);
        if !up {
          DownReceiptPass(cfg, start, order, clock, i + 1);
          return;
        }
      }
      assert order[..|order|] == order;
      return true;
    }

    /** The body of deliver()'s second loop. */
    method SendEach(order: seq<Key>, transport: Key -> SendOutcome, clock: Key -> Time) returns (up: bool)
      requires Valid() && forall k <- order :: k in files.replies
      modifies this`log, this`commands, files, tools
      ensures Valid()
      ensures State(if up then Sending([]) else Down) == RunFrom(cfg, old(State(Sending(order))), SendPass(order, transport, clock))
    {
      ghost var start := State(Sending(order));
      for i := 0 to |order|
        invariant Valid() && files.replies.Keys == old(files.replies.Keys)
        invariant State(Sending(order[i..])) == RunFrom(cfg, start, SendPass(order[..i], transport, clock))
      {
        ghost var before := State(Sending(order[i..]));
        assert order[i..] == [order[i]] + order[i + 1..];
        assert order[..i + 1][..i] == order[..i];
        RunsJoin(cfg, start, SendPass(order[..i], transport, clock), HandOver(transport(order[i]), clock(order[i])));
        HandOverIs(cfg, before, transport(order[i]), clock(order[i]));
        PassBegins(cfg, before, transport(order[i]));
        up := HandOverOne(order[i], transport(order[i]), clock(order[i]), order[i + 1..]);
        if !up {
          DownSendPass(cfg, start, order, transport, clock, i + 1);
          return;
        }
      }
      assert order[..|order|] == order;
      return true;
    }

    lemma PassBegins(cfg: Config, s: Sys, outcome: SendOutcome)
      ensures Next(cfg, Next(cfg, s, Advance), Confirm(outcome, false)) == ConfirmStep(AdvanceStep(s), outcome, false)
    {
    }

    /** deliver(), first loop: the receipts that a crash left unrecorded. */
    method CompleteReceipts(listing: seq<Key>, clock: Key -> Time) returns (up: bool, ghost receipts: seq<Key>)
      requires Valid() && Enumerates(listing, files.replies.Keys)
      modifies this`commands, files, tools
      ensures Valid() && files.replies.Keys == old(files.replies.Keys)
      ensures Enumerates(receipts, old(SentUnrecorded(files.View())))
      ensures State(if up then Receipts([]) else Down)
              == RunFrom(cfg, Next(cfg, old(State(Idle)), BeginDeliver(receipts)), ReceiptPass(receipts, clock))
    {
      var owed := Pick(listing, (r: Reply) => r.status == Sent && r.claim.Some? && !r.recorded);
      assert (set k | k in files.replies && ((r: Reply) => r.status == Sent && r.claim.Some? && !r.recorded)(files.replies[k])) == SentUnrecorded(files.View());
      receipts := owed;
      assert State(Receipts(owed)) == Next(cfg, State(Idle), BeginDeliver(receipts));
      assert forall k <- owed :: k in SentUnrecorded(files.View());
      up := CompleteEach(owed, clock);
    }

    /** deliver(), second loop: every pending reply is handed over. */
    method SendPending(listing: seq<Key>, transport: Key -> SendOutcome, clock: Key -> Time) returns (up: bool, ghost order: seq<Key>)
      requires Valid() && Enumerates(listing, files.replies.Keys)
      modifies this`log, this`commands, files, tools
      ensures Valid() && Enumerates(order, old(AllPending(files.View())))
      ensures State(if up then Sending([]) else Down)
              == RunFrom(cfg, Next(cfg, old(State(Receipts([]))), BeginSending(order)), SendPass(order, transport, clock))
    {
      var queue := Pick(listing, (r: Reply) => r.status == Pending);
      assert (set k | k in files.replies && ((r: Reply) => r.status == Pending)(files.replies[k])) == AllPending(files.View());
      order := queue;
      assert State(Sending(queue)) == Next(cfg, State(Receipts([])), BeginSending(order));
      assert forall k <- queue :: k in AllPending(files.View());
      up := SendEach(queue, transport, clock);
    }

    /** deliver(). False when it threw. The two orders are those its two readings of the directory
        gave; the second is empty if the process did not get that far. */
    method Deliver(listing: seq<Key>, transport: Key -> SendOutcome, clock: Key -> Time)
      returns (up: bool, ghost receipts: seq<Key>, ghost order: seq<Key>)
      requires Valid() && Enumerates(listing, files.replies.Keys)
      modifies this`log, this`commands, files, tools
      ensures Valid() && Enumerates(receipts, old(SentUnrecorded(files.View())))
      ensures State(if up then Idle else Down) == RunFrom(cfg, old(State(Idle)), DeliverRun(receipts, order, transport, clock))
    {
      ghost var start := State(Idle);
      up, receipts := CompleteReceipts(listing, clock);
      order := [];
      if up {
        up, order := SendPending(listing, transport, clock);
      } else {
        NothingMoreToSend(cfg, State(Down), transport, clock);
      }
      LastAdvance(cfg, State(if up then Sending([]) else Down));
      DeliveryIs(cfg, start, receipts, order, transport, clock);
    }
  }

  lemma NothingMoreToSend(cfg: Config, s: Sys, transport: Key -> SendOutcome, clock: Key -> Time)
    requires s.phase.Down?
    ensures RunFrom(cfg, Next(cfg, s, BeginSending([])), SendPass([], transport, clock)) == s
  {
  }

  lemma LastAdvance(cfg: Config, s: Sys)
    requires s.phase in {Down, Sending([])}
    ensures Next(cfg, s, Advance) == s.(phase := if s.phase.Down? then Down else Idle)
  {
  }
}
