/** Claims that can never be finished: their step was retired, or they were reconciled absent before
    any receipt of theirs was written. Neither is ever undone. */
module JobHopeless {
  import opened Prelude
  import opened Sop
  import opened SopValidation
  import opened SopForward
  import opened JobEngine
  import opened JobHistory
  import opened JobRuns
  import opened JobTheorems
  import opened JobForms

  // ---- A retired step -----------------------------------------------------------------------------

  predicate StepGone(sop: Sop, step: StepId) {
    exists s <- sop.events :: s.id == step && s.retired
  }

  lemma {:induction false} FirstIsOnly(events: seq<Step>, s: Step)
    requires DistinctSteps(events) && s in events
    ensures FirstWithId(events, s.id) == Some(s)
  {
    if events[0] != s {
      assert s in events[1..];
      var i :| 0 <= i < |events| && events[i] == s;
      assert events[0].id != events[i].id;
      FirstIsOnly(events[1..], s);
    }
  }

  lemma GoneIsInactive(sop: Sop, step: StepId)
    requires DistinctSteps(sop.events) && StepGone(sop, step)
    ensures StepOf(sop, step).None?
  {
    var s :| s in sop.events && s.id == step && s.retired;
    FirstIsOnly(sop.events, s);
  }

  lemma StepWithIdIsIn(steps: seq<Step>, id: StepId)
    ensures StepWithId(steps, id).Some? ==> StepWithId(steps, id).value in steps && StepWithId(steps, id).value.id == id
  {
  }

  lemma ForwardKeepsGone(previous: Sop, next: Sop, step: StepId)
    requires Forward(previous, next) && StepGone(previous, step)
    ensures StepGone(next, step)
  {
    var s :| s in previous.events && s.id == step && s.retired;
    assert CarriesStep(s, next);
    StepWithIdIsIn(next.events, s.id);
  }

  /** The job's definition has retired this step. */
  ghost predicate GoneFor(env: Installed, db: Db, job: JobId, step: StepId) {
    job in db.jobs && DefinitionOf(env, db.jobs[job]).Some? && StepGone(DefinitionOf(env, db.jobs[job]).value, step)
  }

  lemma TransactKeepsGone(env: Installed, db: Db, c: Command, job: JobId, step: StepId)
    requires JobsCurrent(env, db) && GoneFor(env, db, job, step)
    ensures GoneFor(InstalledBy(env, c), Transact(env, db, c), job, step)
  {
    if c.Install? {
      InstallCarries(env, db, c, job);
      if Installs(env, c.definition) && db.jobs[job].sop == c.definition.sop {
        ForwardKeepsGone(LatestOf(env, c.definition.sop).value, c.definition, step);
      }
    } else {
      TransactSteps(env, db, c, job);
    }
  }

  /** Every command on such a step is refused. */
  lemma GoneIsRefused(env: Installed, db: Db, job: JobId, step: StepId)
    requires WellInstalled(env) && GoneFor(env, db, job, step)
    ensures Locate(env, db, job, step) == Missing(SopStepInvalid)
  {
    var row := db.jobs[job];
    assert Accepted(DefinitionOf(env, row).value, row.sop);
    GoneIsInactive(DefinitionOf(env, row).value, step);
  }

  // ---- A lost claim --------------------------------------------------------------------------------

  /** No job holds this claim any more, and there is no such receipt of it. */
  ghost predicate Lost(db: Db, id: ActionId, job: JobId, step: StepId, source: SourceId) {
    && id in db.issued && !ClaimedSomewhere(db, id)
    && !(id in db.receipts && db.receipts[id].job == job && db.receipts[id].step == step && db.receipts[id].source == source)
  }

  lemma PendingOnlyFresh(env: Installed, db: Db, c: Command, id: ActionId)
    requires Sound(env, db) && id in db.issued && !ClaimedSomewhere(db, id)
    ensures !ClaimedSomewhere(Transact(env, db, c), id)
  {
    var next := Transact(env, db, c);
    forall job, t | job in next.jobs && t in next.jobs[job].pending ensures next.jobs[job].pending[t].id != id {
      if job !in db.jobs {
        OpenedAtStart(env, db, c, job);
      } else if c.Install? {
        InstallCarries(env, db, c, job);
      } else {
        TransactSteps(env, db, c, job);
      }
    }
  }

  lemma ReceiptsOfOthers(env: Installed, db: Db, c: Command, id: ActionId)
    requires id in db.issued && !ClaimedSomewhere(db, id)
    ensures var next := Transact(env, db, c);
            id in next.issued && (id in next.receipts <==> id in db.receipts) && (id in db.receipts ==> next.receipts[id] == db.receipts[id])
  {
    if Fresh(db, c) {
      match c
      case Open(_, _, _, _, _, _, _) =>
      case Begin(_, _, _, _, _, _, _, _) =>
      case Reserve(_, _, _, _, _) =>
      case FinishReceipt(_, _, _, _) =>
      case Observe(_, _, _, _, _) =>
      case Reconcile(_, _, _, _, _, _) =>
      case Collect(_, _, _) =>
      case Install(_) =>
    }
  }

  lemma TransactKeepsLost(env: Installed, db: Db, c: Command, id: ActionId, job: JobId, step: StepId, source: SourceId)
    requires Sound(env, db) && Lost(db, id, job, step, source)
    ensures Lost(Transact(env, db, c), id, job, step, source)
  {
    PendingOnlyFresh(env, db, c, id);
    ReceiptsOfOthers(env, db, c, id);
  }

  /** Its receipt is refused. */
  lemma LostIsRefused(db: Db, id: ActionId, job: JobId, step: StepId, source: SourceId)
    requires Lost(db, id, job, step, source)
    ensures WriteReceipt(db, FinishReceipt(job, step, source, id)).1.Refused?
  {
    assert job in db.jobs ==> !HasClaim(db.jobs[job].pending, id);
  }
}
