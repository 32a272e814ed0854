/** A receipt that can never be recorded: an upgrade has retired the step of a claimed reply that
    was sent and is not annotated yet, or its claim was reconciled absent before the receipt was
    written. deliver() completes receipts before it sends, and so nothing is sent again. */
module DeliveryHopeless {
  import opened JobEngine
  import opened JobRuns
  import opened JobForms
  import opened JobHopeless
  import opened ReplyStore
  import opened Delivery
  import opened DeliveryReceipts
  import DeliveryCredit
  import DeliveryRepeats

  // ---- The process that owes its receipt ---------------------------------------------------------------

  ghost predicate ClaimGone(cfg: Config, s: Sys, claim: ClaimRef) {
    GoneFor(InstalledNow(cfg, s), Database(cfg, s), claim.job, claim.step)
  }

  ghost predicate ClaimLost(cfg: Config, s: Sys, claim: ClaimRef, source: SourceId) {
    Lost(Database(cfg, s), claim.id, claim.job, claim.step, source)
  }

  /** The claim's step is retired in its job's definition, or the claim is no longer pending and
      has no such receipt. */
  ghost predicate Hopeless(cfg: Config, s: Sys, claim: ClaimRef, source: SourceId) {
    ClaimGone(cfg, s, claim) || ClaimLost(cfg, s, claim, source)
  }

  lemma CommandKeepsHopeless(cfg: Config, s: Sys, next: Sys, c: Command, claim: ClaimRef, source: SourceId)
    requires next.commands == s.commands + [c]
    ensures ClaimGone(cfg, s, claim) ==> ClaimGone(cfg, next, claim)
    ensures ClaimLost(cfg, s, claim, source) ==> ClaimLost(cfg, next, claim, source)
  {
    RunExtends(cfg.env, s.commands, c);
    if ClaimGone(cfg, s, claim) {
      RunIsCurrent(cfg.env, s.commands);
      TransactKeepsGone(InstalledNow(cfg, s), Database(cfg, s), c, claim.job, claim.step);
    }
    if ClaimLost(cfg, s, claim, source) {
      RunIsSound(cfg.env, s.commands);
      TransactKeepsLost(InstalledNow(cfg, s), Database(cfg, s), c, claim.id, claim.job, claim.step, source);
    }
  }

  lemma NextCommands(cfg: Config, s: Sys, a: Action) returns (c: Command)
    ensures Next(cfg, s, a).commands == s.commands || Next(cfg, s, a).commands == s.commands + [c]
  {
    var next := Next(cfg, s, a);
    if |next.commands| > 0 {
      c := next.commands[|next.commands| - 1];
    } else {
      c := Collect("", "", "");
    }
  }

  lemma NextKeepsHopeless(cfg: Config, s: Sys, a: Action, claim: ClaimRef, source: SourceId)
    ensures ClaimGone(cfg, s, claim) ==> ClaimGone(cfg, Next(cfg, s, a), claim)
    ensures ClaimLost(cfg, s, claim, source) ==> ClaimLost(cfg, Next(cfg, s, a), claim, source)
  {
    var c := NextCommands(cfg, s, a);
    if Next(cfg, s, a).commands != s.commands {
      CommandKeepsHopeless(cfg, s, Next(cfg, s, a), c, claim, source);
    }
  }

  /** The observation of a retired step is refused, whatever else holds. */
  lemma ObservationIsRefused(cfg: Config, s: Sys, now: Time)
    requires WellInstalled(cfg.env) && s.phase.Finishing? && s.phase.stage == 1 && ClaimGone(cfg, s, s.phase.claim)
    ensures Next(cfg, s, FinishObservation(now)).phase.Down?
  {
    StaysWellInstalled(cfg.env, s.commands);
    GoneIsRefused(InstalledNow(cfg, s), Database(cfg, s), s.phase.claim.job, s.phase.claim.step);
  }

  /** And the receipt of a lost claim. */
  lemma ReceiptIsRefused(cfg: Config, s: Sys)
    requires s.phase.Finishing? && s.phase.stage == 0 && ClaimLost(cfg, s, s.phase.claim, cfg.proof(s.phase.key, s.phase.chunks))
    ensures Next(cfg, s, FinishProof).phase.Down?
  {
    LostIsRefused(Database(cfg, s), s.phase.claim.id, s.phase.claim.job, s.phase.claim.step, cfg.proof(s.phase.key, s.phase.chunks));
  }

  /** A sent claimed reply whose receipt is hopeless is not recorded. */
  ghost predicate Owing(cfg: Config, s: Sys, k: Key) {
    && Honest(cfg, s) && DeliveryCredit.IsSent(s.store, k) && s.store.replies[k].claim.Some? && !s.store.replies[k].recorded
    && Hopeless(cfg, s, s.store.replies[k].claim.value, cfg.proof(k, s.store.replies[k].chunks))
  }

  /** The process sends nothing, and has this receipt still before it; only a retired step's gets
      as far as its observation. */
  ghost predicate Ahead(cfg: Config, s: Sys, k: Key) {
    && DeliveryRepeats.BeforeSending(s.phase)
    && (s.phase.Receipts? ==> k in s.phase.todo)
    && (s.phase.Finishing? ==>
          if s.phase.key != k then k in s.phase.todo
          else s.phase.stage == 0 || (s.phase.stage == 1 && ClaimGone(cfg, s, s.phase.claim)))
  }

  ghost predicate Blocked(cfg: Config, s: Sys, k: Key) {
    Owing(cfg, s, k) && Ahead(cfg, s, k)
  }

  lemma OnlyAnnotateRecords(cfg: Config, s: Sys, a: Action, k: Key)
    requires k in s.store.replies && !s.store.replies[k].recorded
    requires s.phase.Finishing? && s.phase.key == k ==> s.phase.stage != 2
    ensures k in Next(cfg, s, a).store.replies ==> !Next(cfg, s, a).store.replies[k].recorded
  {
  }

  lemma NextKeepsOwing(cfg: Config, s: Sys, a: Action, k: Key)
    requires Blocked(cfg, s, k) && !Misfences(cfg, s, a)
    ensures Owing(cfg, Next(cfg, s, a), k)
  {
    NextKeepsHonest(cfg, s, a);
    OnlyAnnotateRecords(cfg, s, a, k);
    NextKeepsHopeless(cfg, s, a, s.store.replies[k].claim.value, cfg.proof(k, s.store.replies[k].chunks));
  }

  lemma FinishingKeepsAhead(cfg: Config, s: Sys, a: Action, k: Key)
    requires WellInstalled(cfg.env) && Blocked(cfg, s, k) && (a.FinishProof? || a.FinishObservation?)
    ensures Ahead(cfg, Next(cfg, s, a), k) && Next(cfg, s, a).log == s.log
  {
    if s.phase.Finishing? && s.phase.key == k {
      var claim, source := s.phase.claim, cfg.proof(k, s.phase.chunks);
      NextKeepsHopeless(cfg, s, a, claim, source);
      if a.FinishObservation? && s.phase.stage == 1 {
        ObservationIsRefused(cfg, s, a.now);
      } else if a.FinishProof? && s.phase.stage == 0 && !ClaimGone(cfg, s, claim) {
        ReceiptIsRefused(cfg, s);
      }
    }
  }

  lemma NextKeepsAhead(cfg: Config, s: Sys, a: Action, k: Key)
    requires WellInstalled(cfg.env) && Blocked(cfg, s, k)
    ensures Ahead(cfg, Next(cfg, s, a), k) && Next(cfg, s, a).log == s.log
  {
    match a
    case BeginDeliver(order) =>
      assert k in SentUnrecorded(s.store);
    case FinishProof => FinishingKeepsAhead(cfg, s, a, k);
    case FinishObservation(_) => FinishingKeepsAhead(cfg, s, a, k);
    case Records(c) =>
      if s.phase.Finishing? {
        CommandKeepsHopeless(cfg, s, Next(cfg, s, a), c, s.phase.claim, "");
      }
    case _ =>
  }

  lemma {:induction false} StaysBlocked(cfg: Config, s: Sys, rest: seq<Action>, k: Key)
    requires WellInstalled(cfg.env) && Blocked(cfg, s, k) && Straight(cfg, s, rest)
    ensures Blocked(cfg, RunFrom(cfg, s, rest), k) && RunFrom(cfg, s, rest).log == s.log
  {
    if rest != [] {
      var before, last := rest[..|rest| - 1], rest[|rest| - 1];
      StaysBlocked(cfg, s, before, k);
      NextKeepsOwing(cfg, RunFrom(cfg, s, before), last, k);
      NextKeepsAhead(cfg, RunFrom(cfg, s, before), last, k);
    }
  }

  /** Under accepted definitions, in every run in which no write leaves a waiting reply under
      another's fence: if the process is down or idle while it owes a hopeless receipt, nothing is
      ever handed over again, and that receipt is never recorded, whatever else is written,
      recorded or installed from then on. */
  lemma HopelessReceiptBlocks(cfg: Config, first: seq<Action>, rest: seq<Action>, k: Key)
    requires WellInstalled(cfg.env) && Straight(cfg, NewSystem, first) && Straight(cfg, RunFrom(cfg, NewSystem, first), rest)
    requires var s := RunFrom(cfg, NewSystem, first);
             s.phase in {Down, Idle} && k in SentUnrecorded(s.store)
             && Hopeless(cfg, s, s.store.replies[k].claim.value, cfg.proof(k, s.store.replies[k].chunks))
    ensures var s := RunFrom(cfg, NewSystem, first);
            var t := RunFrom(cfg, s, rest);
            t.log == s.log && k in SentUnrecorded(t.store)
  {
    RunIsHonest(cfg, first);
    StaysBlocked(cfg, RunFrom(cfg, NewSystem, first), rest, k);
  }
}
