/** What else holds in every run of the delivery machine, bad cuts included: what is said is
    never changed, a held room's reply needs a teaching or its denial, a settled reply stays
    settled, and a retry after a failed send is lost. */
module DeliveryTheorems {
  import opened Prelude
  import opened ReplyStore
  import opened Delivery
  import opened DeliverySafety

  // ---- Text -------------------------------------------------------------------------------------

  predicate SaidAsWritten(s: Sys) {
    forall h <- s.log :: h.key in s.store.replies && s.store.replies[h.key].text == h.text
  }

  /** No step changes a written reply's text or claim, or removes a reply. */
  ghost predicate BodiesLast(before: Store, after: Store) {
    forall k <- before.replies :: k in after.replies
      && after.replies[k].text == before.replies[k].text && after.replies[k].claim == before.replies[k].claim
  }

  lemma TeachKeepsBodies(cfg: Config, s: Sys, a: Action)
    requires a.EnsureTeach?
    ensures BodiesLast(s.store, TeachStep(cfg, s, a).store) && TeachStep(cfg, s, a).log == s.log
  {
  }

  lemma ConfirmKeepsBodies(s: Sys, outcome: SendOutcome, cut: bool)
    ensures BodiesLast(s.store, ConfirmStep(s, outcome, cut).store) && ConfirmStep(s, outcome, cut).log == s.log
  {
  }

  lemma NextKeepsBodies(cfg: Config, s: Sys, a: Action)
    ensures BodiesLast(s.store, Next(cfg, s, a).store)
    ensures Next(cfg, s, a).log == s.log || (a.Advance? && Next(cfg, s, a).log == AdvanceStep(s).log)
  {
    match a
    case EnsureTeach(_, _, _, _) => TeachKeepsBodies(cfg, s, a);
    case Confirm(outcome, cut) => ConfirmKeepsBodies(s, outcome, cut);
    case _ =>
  }

  lemma NextSaysAsWritten(cfg: Config, s: Sys, a: Action)
    requires SaidAsWritten(s)
    ensures SaidAsWritten(Next(cfg, s, a))
  {
    NextKeepsBodies(cfg, s, a);
    if a.Advance? && s.phase.Sending? && s.phase.todo != [] && s.phase.todo[0] in s.store.replies {
      var next := Next(cfg, s, a);
      assert forall h <- next.log :: h in s.log || h == Handed(s.phase.todo[0], s.store.replies[s.phase.todo[0]].text);
    }
  }

  /** Whatever reached the transport is, word for word, the reply as it was first written. */
  lemma {:induction false} TextNeverChanges(cfg: Config, actions: seq<Action>)
    ensures SaidAsWritten(RunFrom(cfg, NewSystem, actions))
  {
    if actions != [] {
      TextNeverChanges(cfg, actions[..|actions| - 1]);
      NextSaysAsWritten(cfg, RunFrom(cfg, NewSystem, actions[..|actions| - 1]), actions[|actions| - 1]);
    }
  }

  // ---- Held replies --------------------------------------------------------------------------------

  /** A teaching is on record under this release, or a harness that can be asked again was, and
      answered exactly that nothing was taught. */
  predicate Answered(cfg: Config, s: Sys, req: RequestId) {
    req in s.taught || (!cfg.program && req in s.silent)
  }

  predicate HeldRoom(cfg: Config, k: Key) {
    Some(k.room) == cfg.heldIn
  }

  ghost predicate HeldUntilAnswered(cfg: Config, s: Sys) {
    && (forall h <- s.log :: HeldRoom(cfg, h.key) ==> Answered(cfg, s, h.key.req))
    && (forall k <- s.store.replies :: HeldRoom(cfg, k) && s.store.replies[k].status == Pending ==> Answered(cfg, s, k.req))
    && (forall k <- Queue(s.phase) :: HeldRoom(cfg, k) ==> Answered(cfg, s, k.req))
  }

  /** Every store change but a write only makes a reply pending when its release was answered. */
  ghost predicate OnlyAnsweredWait(cfg: Config, s: Sys, next: Sys) {
    && next.store.replies.Keys == s.store.replies.Keys
    && s.taught <= next.taught && s.silent <= next.silent
    && forall k <- s.store.replies :: next.store.replies[k].status == Pending && HeldRoom(cfg, k) ==>
         s.store.replies[k].status == Pending || Answered(cfg, next, k.req)
  }

  lemma TeachWaits(cfg: Config, s: Sys, a: Action)
    requires a.EnsureTeach?
    ensures OnlyAnsweredWait(cfg, s, TeachStep(cfg, s, a))
    ensures TeachStep(cfg, s, a).log == s.log && Queue(TeachStep(cfg, s, a).phase) in {[], Queue(s.phase)}
  {
  }

  lemma ConfirmWaits(cfg: Config, s: Sys, outcome: SendOutcome, cut: bool)
    ensures OnlyAnsweredWait(cfg, s, ConfirmStep(s, outcome, cut))
    ensures ConfirmStep(s, outcome, cut).log == s.log && Queue(ConfirmStep(s, outcome, cut).phase) in {[], Queue(s.phase)}
  {
  }

  lemma WaitsKeepsHeld(cfg: Config, s: Sys, next: Sys)
    requires HeldUntilAnswered(cfg, s) && OnlyAnsweredWait(cfg, s, next)
    requires next.log == s.log && Queue(next.phase) in {[], Queue(s.phase)}
    ensures HeldUntilAnswered(cfg, next)
  {
  }

  lemma WriteKeepsHeld(cfg: Config, s: Sys, a: Action)
    requires HeldUntilAnswered(cfg, s) && a.Write?
    ensures HeldUntilAnswered(cfg, WriteStep(cfg, s, a))
  {
  }

  lemma AdvanceKeepsHeld(cfg: Config, s: Sys)
    requires HeldUntilAnswered(cfg, s)
    ensures HeldUntilAnswered(cfg, AdvanceStep(s))
  {
    var next := AdvanceStep(s);
    assert next.store == s.store && next.taught == s.taught && next.silent == s.silent;
    if s.phase.Sending? && s.phase.todo != [] && s.phase.todo[0] in s.store.replies {
      assert forall h <- next.log :: h in s.log || h.key == s.phase.todo[0];
      assert forall k <- Queue(next.phase) :: k in Queue(s.phase);
    }
  }

  lemma NextKeepsHeld(cfg: Config, s: Sys, a: Action)
    requires HeldUntilAnswered(cfg, s)
    ensures HeldUntilAnswered(cfg, Next(cfg, s, a))
  {
    var next := Next(cfg, s, a);
    match a
    case Write(_, _, _, _, _) => WriteKeepsHeld(cfg, s, a);
    case Advance => AdvanceKeepsHeld(cfg, s);
    case EnsureTeach(_, _, _, _) => TeachWaits(cfg, s, a); WaitsKeepsHeld(cfg, s, next);
    case Confirm(outcome, cut) => ConfirmWaits(cfg, s, outcome, cut); WaitsKeepsHeld(cfg, s, next);
    case BeginSending(order) =>
      assert Queue(next.phase) != Queue(s.phase) ==> forall k <- order :: k in AllPending(s.store);
    case _ => WaitsKeepsHeld(cfg, s, next);
  }

  lemma {:induction false} RunKeepsHeld(cfg: Config, actions: seq<Action>)
    ensures HeldUntilAnswered(cfg, RunFrom(cfg, NewSystem, actions))
  {
    if actions != [] {
      RunKeepsHeld(cfg, actions[..|actions| - 1]);
      NextKeepsHeld(cfg, RunFrom(cfg, NewSystem, actions[..|actions| - 1]), actions[|actions| - 1]);
    }
  }

  /** A reply of the management conversation with teaching enabled reaches the transport only
      under an answered release; a program harness needs a recorded teaching. */
  lemma TaughtBeforeSaid(cfg: Config, actions: seq<Action>, h: Handed)
    requires h in RunFrom(cfg, NewSystem, actions).log && Some(h.key.room) == cfg.heldIn
    ensures var s := RunFrom(cfg, NewSystem, actions);
            h.key.req in s.taught || (!cfg.program && h.key.req in s.silent)
  {
    RunKeepsHeld(cfg, actions);
  }

  // ---- Settled replies ------------------------------------------------------------------------------

  /** Sent, unknown or failed, and not in the hands of the delivery that is running. */
  predicate SettledFor(s: Sys, k: Key) {
    && k in s.store.replies && s.store.replies[k].status in {Sent, Unknown, Failed}
    && k !in Queue(s.phase)
  }

  lemma NextKeepsFences(cfg: Config, s: Sys, a: Action)
    requires FencesSound(cfg, s.store)
    ensures FencesSound(cfg, Next(cfg, s, a).store)
  {
    match a
    case RecoverOne(cut) =>
      if s.phase.Recovering? && s.phase.todo != [] && s.phase.todo[0].req in s.store.fences {
        SettleStepSettles(s, s.phase.todo[0].req, Unknown, None, cut, Recovering(s.phase.todo[1..]));
        SettleKeepsFences(cfg, s.store, RecoverStep(s, cut).store, s.phase.todo[0].req, Unknown);
      }
    case Confirm(outcome, cut) => ConfirmKeepsFences(cfg, s, outcome, cut);
    case EnsureTeach(_, _, _, _) => TeachKeepsFences(cfg, s, a);
    case Write(_, _, _, _, _) =>
    case _ =>
  }

  lemma ConfirmKeepsFences(cfg: Config, s: Sys, outcome: SendOutcome, cut: bool)
    requires FencesSound(cfg, s.store)
    ensures FencesSound(cfg, ConfirmStep(s, outcome, cut).store)
  {
    if s.phase.InFlight? && s.phase.key.req in s.store.fences {
      var chunks := if outcome.SendConfirmed? then Some(outcome.chunks) else None;
      SettleStepSettles(s, s.phase.key.req, OutcomeStatus(outcome), chunks, cut, Sending(s.phase.todo));
      SettleKeepsFences(cfg, s.store, ConfirmStep(s, outcome, cut).store, s.phase.key.req, OutcomeStatus(outcome));
    }
  }

  lemma TeachKeepsFences(cfg: Config, s: Sys, a: Action)
    requires FencesSound(cfg, s.store) && a.EnsureTeach?
    ensures FencesSound(cfg, TeachStep(cfg, s, a).store)
  {
    if a.req in s.store.fences && TeachStep(cfg, s, a).store.fences != s.store.fences {
      SettleStepSettles(s, a.req, Pending, None, a.cut, Idle);
      SettleKeepsFences(cfg, s.store, TeachStep(cfg, s, a).store, a.req, Pending);
    }
  }

  lemma TeachKeepsSettled(cfg: Config, s: Sys, a: Action, k: Key)
    requires FencesSound(cfg, s.store) && SettledFor(s, k) && a.EnsureTeach?
    ensures SettledFor(TeachStep(cfg, s, a), k) && TeachStep(cfg, s, a).log == s.log
  {
  }

  lemma ConfirmKeepsSettled(cfg: Config, s: Sys, outcome: SendOutcome, cut: bool, k: Key)
    requires SettledFor(s, k)
    ensures SettledFor(ConfirmStep(s, outcome, cut), k) && ConfirmStep(s, outcome, cut).log == s.log
  {
    ConfirmWaits(cfg, s, outcome, cut);
  }

  lemma NextKeepsSettled(cfg: Config, s: Sys, a: Action, k: Key)
    requires FencesSound(cfg, s.store) && SettledFor(s, k)
    ensures SettledFor(Next(cfg, s, a), k) && Count(Next(cfg, s, a).log, k) == Count(s.log, k)
  {
    match a
    case EnsureTeach(_, _, _, _) => TeachKeepsSettled(cfg, s, a, k);
    case Confirm(outcome, cut) => ConfirmKeepsSettled(cfg, s, outcome, cut, k);
    case Advance =>
      if s.phase.Sending? && s.phase.todo != [] && s.phase.todo[0] in s.store.replies {
        CountGrows(s.log, Handed(s.phase.todo[0], s.store.replies[s.phase.todo[0]].text));
        assert forall j <- s.phase.todo[1..] :: j in Queue(s.phase);
      }
    case BeginSending(order) =>
      assert k !in AllPending(s.store);
    case _ =>
  }

  /** From any state of any run: once a reply is sent, unknown or failed, nothing that follows,
      crashes, restarts, recoveries and retries included, hands it over again or unsettles it. */
  lemma {:induction false} SettledForGood(cfg: Config, s: Sys, actions: seq<Action>, k: Key)
    requires FencesSound(cfg, s.store) && SettledFor(s, k)
    ensures SettledFor(RunFrom(cfg, s, actions), k) && Count(RunFrom(cfg, s, actions).log, k) == Count(s.log, k)
    ensures FencesSound(cfg, RunFrom(cfg, s, actions).store)
  {
    if actions != [] {
      var before := actions[..|actions| - 1];
      SettledForGood(cfg, s, before, k);
      NextKeepsFences(cfg, RunFrom(cfg, s, before), actions[|actions| - 1]);
      NextKeepsSettled(cfg, RunFrom(cfg, s, before), actions[|actions| - 1], k);
    }
  }

  lemma {:induction false} RunKeepsFences(cfg: Config, actions: seq<Action>)
    ensures FencesSound(cfg, RunFrom(cfg, NewSystem, actions).store)
  {
    if actions != [] {
      RunKeepsFences(cfg, actions[..|actions| - 1]);
      NextKeepsFences(cfg, RunFrom(cfg, NewSystem, actions[..|actions| - 1]), actions[|actions| - 1]);
    }
  }

  /** The write is a retry, in the same conversation, of a reply whose send has failed. */
  predicate RetriesFailed(s: Sys, a: Action) {
    && a.Write? && a.owned && !a.cut && TakesReplies(s.phase)
    && a.key.req in s.store.fences && s.store.fences[a.key.req] == Fence(Failed, a.key.room, s.store.fences[a.key.req].chunks)
    && SettledFor(s, a.key) && s.store.replies[a.key].status == Failed
  }

  /** A retry after a failed send, written in the same conversation, is accepted and goes nowhere:
      its record stays failed and is never handed over. */
  lemma RetryAfterFailureIsLost(cfg: Config, before: seq<Action>, a: Action, rest: seq<Action>)
    requires RetriesFailed(RunFrom(cfg, NewSystem, before), a)
    ensures var s := RunFrom(cfg, NewSystem, before);
            var accepted := Next(cfg, s, a);
            && WriteReply(s.store, a.key, Reply(WrittenStatus(cfg, a.key), a.claim, a.text, [], false, false), true).1 == Written
            && accepted.store.fences[a.key.req].status == WrittenStatus(cfg, a.key)
            && accepted.store.replies[a.key] == s.store.replies[a.key]
            && Count(RunFrom(cfg, accepted, rest).log, a.key) == Count(s.log, a.key)
  {
    var s := RunFrom(cfg, NewSystem, before);
    RunKeepsFences(cfg, before);
    NextKeepsFences(cfg, s, a);
    NextKeepsSettled(cfg, s, a, a.key);
    SettledForGood(cfg, Next(cfg, s, a), rest, a.key);
  }
}
