/** The handlers of createJobTools, and the installation of a definition, as they change the
    tables in place. Each method is one transaction, except ActionFinish, which is two. */
module JobTools {
  import opened Prelude
  import opened Sop
  import opened SopValidation
  import opened SopForward
  import opened JobEngine
  import opened JobHistory
  import opened JobRuns

  class JobTools {
    var env: Installed
    var jobs: map<JobId, Job>
    var receipts: map<ActionId, Receipt>
    var collected: set<Collected>
    ghost var issued: set<ActionId>

    ghost function View(): Db
      reads this
    {
      Db(jobs, receipts, collected, issued)
    }

    ghost predicate Valid()
      reads this
    {
      Sound(env, View())
    }

    constructor (env: Installed)
      ensures Valid() && View() == EmptyDb && this.env == env
    {
      this.env := env;
      jobs, receipts, collected, issued := map[], map[], {}, {};
    }

    method JobOpen(newJob: JobId, sop: string, unit: string, references: seq<string>, cause: SourceId,
                   turn: Option<TurnContext>, now: Time) returns (outcome: Outcome)
      requires Valid() && newJob !in jobs
      modifies this`jobs
      ensures Valid()
      ensures (View(), outcome) == OpenJob(env, old(View()), Open(newJob, sop, unit, references, cause, turn, now))
    {
      OpenKeepsSound(env, View(), Open(newJob, sop, unit, references, cause, turn, now));
      if !HasText(unit) {
        return Refused(JobUnitInvalid);
      }
      if turn.None? || cause !in turn.value.sources {
        return Refused(JobOpenCauseMismatch);
      }
      if turn.value.unit != unit {
        return Refused(JobOpenUnitMismatch);
      }
      if exists r <- references :: !HasText(r) {
        return Refused(JobReferencesInvalid);
      }
      if sop !in env.latest || (sop, env.latest[sop]) !in env.definitions {
        return Refused(SopNotInstalled);
      }
      var version := env.latest[sop];
      var positions := InitialPositions(env.definitions[(sop, version)]);
      jobs := jobs[newJob := Job(sop, version, unit, references, positions, map t | t in positions :: now, map[], [])];
      return Done;
    }

    /** readJob, definitionFor and stepOf, in that order. */
    method Find(job: JobId, step: StepId) returns (located: Located)
      ensures located == Locate(env, View(), job, step)
    {
      if job !in jobs {
        return Missing(JobNotFound);
      }
      var row := jobs[job];
      var definition := DefinitionOf(env, row);
      if definition.None? {
        return Missing(SopVersionNotInstalled);
      }
      var event := StepOf(definition.value, step);
      if event.None? {
        return Missing(SopStepInvalid);
      }
      return Found(row, event.value);
    }

    /** The track of the pending claim with this id; claims never share an id. */
    method FindClaim(row: Job, id: ActionId) returns (track: Option<TrackId>)
      requires ClaimsMade(row) && MadeOnce(row.events)
      ensures track.Some? <==> HasClaim(row.pending, id)
      ensures track.Some? ==> track.value == ClaimTrack(row.pending, id)
    {
      if t :| t in row.pending && row.pending[t].id == id {
        ClaimsDiffer(row, t, ClaimTrack(row.pending, id));
        return Some(t);
      }
      return None;
    }

    /** The track of the pending claim of this step that is met first. */
    method FindClaimOf(row: Job, step: StepId) returns (track: Option<TrackId>)
      ensures track.Some? <==> HasClaimOf(row.pending, step)
      ensures track.Some? ==> track.value == ClaimTrackOf(row.pending, step)
    {
      if t :| t in row.pending && IsFirstOf(row.pending, step, t) {
        OneIsFirst(row.pending, step, t, ClaimTrackOf(row.pending, step));
        return Some(t);
      }
      if HasClaimOf(row.pending, step) {
        FirstExists(row.pending, step);
      }
      return None;
    }

    method AddClaim(job: JobId, row: Job, step: Step, claim: Claim)
      modifies this`jobs, this`issued
      ensures View() == WithClaim(old(View()), job, row, step, claim)
    {
      var key := ClaimKey(step);
      var at := if key in row.positions then Some(row.positions[key]) else None;
      var event := Event(step.id, Intent, claim.source, false, None, Makes(claim.id, claim.state, key, at));
      jobs := jobs[job := row.(pending := row.pending[key := claim], events := row.events + [event])];
      issued := issued + {claim.id};
    }

    method ActionBegin(job: JobId, step: StepId, source: SourceId, operation: string, owner: Owner, ownerLives: bool,
                       newId: ActionId, now: Time) returns (outcome: Outcome)
      requires Valid() && newId !in issued
      modifies this`jobs, this`issued
      ensures Valid()
      ensures (View(), outcome) == BeginAction(env, old(View()), Begin(job, step, source, operation, owner, ownerLives, newId, now))
    {
      ghost var before, c := View(), Begin(job, step, source, operation, owner, ownerLives, newId, now);
      TransactKeepsSound(env, before, c);
      if owner.pid < 1 || !ownerLives {
        return Refused(JobActionOwnerInvalid);
      }
      if !HasText(operation) {
        return Refused(JobOperationInvalid);
      }
      var located := Find(job, step);
      if located.Missing? {
        return Refused(located.why);
      }
      var row, event := located.row, located.step;
      if event.kind != IntentStep || !Mapped(event, operation) {
        return Refused(JobActionUnmapped);
      }
      var legal, why := Legality(event, row.positions);
      if !legal {
        return Refused(JobMoveRefused);
      }
      if ClaimKey(event) in row.pending {
        return Refused(JobActionPending);
      }
      if Recorded(row.events, step, Intent, source) {
        return Refused(EventExists);
      }
      AddClaim(job, row, event, Claim(step, newId, source, Claimed, now, Some(owner)));
      return Done;
    }

    method JobRecordIntent(job: JobId, step: StepId, source: SourceId, newId: ActionId, now: Time) returns (outcome: Outcome)
      requires Valid() && newId !in issued
      modifies this`jobs, this`issued
      ensures Valid()
      ensures (View(), outcome) == ReserveIntent(env, old(View()), Reserve(job, step, source, newId, now))
    {
      ghost var before, c := View(), Reserve(job, step, source, newId, now);
      TransactKeepsSound(env, before, c);
      var located := Find(job, step);
      if located.Missing? {
        return Refused(located.why);
      }
      var row, event := located.row, located.step;
      if Recorded(row.events, step, Intent, source) {
        return AlreadyDone;
      }
      if event.kind != IntentStep {
        return Refused(JobStepNotIntent);
      }
      var legal, why := Legality(event, row.positions);
      if !legal {
        return Refused(JobMoveRefused);
      }
      if ClaimKey(event) in row.pending {
        return Refused(JobActionPending);
      }
      AddClaim(job, row, event, Claim(step, newId, source, Reserved, now, None));
      return Done;
    }

    /** The first transaction of action_finish. */
    method FinishReceipt(job: JobId, step: StepId, source: SourceId, id: ActionId) returns (outcome: Outcome)
      requires Valid()
      modifies this`receipts
      ensures Valid()
      ensures (View(), outcome) == WriteReceipt(old(View()), Command.FinishReceipt(job, step, source, id))
    {
      ReceiptKeepsSound(env, View(), Command.FinishReceipt(job, step, source, id));
      if job !in jobs {
        return Refused(JobNotFound);
      }
      var row := jobs[job];
      var track := FindClaim(row, id);
      if track.Some? {
        var claim := row.pending[track.value];
        if claim.step != step || claim.state != Claimed {
          return Refused(JobActionClaimAbsent);
        }
        if id !in receipts {
          receipts := receipts[id := Receipt(job, row.sop, step, source)];
        }
        return Done;
      }
      var prior := id in receipts && receipts[id].job == job && receipts[id].step == step && receipts[id].source == source;
      return if prior then AlreadyDone else Refused(JobActionClaimAbsent);
    }

    method JobRecordObservation(job: JobId, step: StepId, source: SourceId, verified: bool, now: Time) returns (outcome: Outcome)
      requires Valid()
      modifies this`jobs
      ensures Valid()
      ensures (View(), outcome) == RecordObservation(env, old(View()), Observe(job, step, source, verified, now))
    {
      ObservationKeepsSound(env, View(), Observe(job, step, source, verified, now));
      var located := Find(job, step);
      if located.Missing? {
        return Refused(located.why);
      }
      var row, event := located.row, located.step;
      if Recorded(row.events, step, Observation, source) {
        return AlreadyDone;
      }
      var trail := NoClaim;
      if event.observedVia == AGENT_ACTION {
        var track := FindClaimOf(row, step);
        if track.None? {
          return Refused(JobActionReceiptAbsent);
        }
        var claim := row.pending[track.value];
        if claim.id !in receipts || receipts[claim.id] != Receipt(job, row.sop, step, source) {
          return Refused(JobActionReceiptAbsent);
        }
        trail := Rests(claim.id);
      } else if Collected(source, event.observedVia, row.unit) !in collected && !verified {
        return Refused(JobSourceUnverified);
      }
      SaveObservation(job, row, event, source, now, trail);
      return Done;
    }

    method SaveObservation(job: JobId, row: Job, event: Step, source: SourceId, now: Time, trail: Trail)
      modifies this`jobs
      ensures View() == old(View()).(jobs := old(jobs)[job := AfterObservation(row, event, source, now, trail)])
    {
      var next, offModel := ApplyObservation(event, row.positions);
      var since := map t | t in row.since.Keys + next.Keys && (t in row.since || Moves(row.positions, next, t)) ::
        if Moves(row.positions, next, t) then now else row.since[t];
      var pending := map t | t in row.pending && !Moves(row.positions, next, t) :: row.pending[t];
      var events := row.events + [Event(event.id, Observation, source, offModel, None, trail)];
      jobs := jobs[job := row.(positions := next, since := since, pending := pending, events := events)];
    }

    /** action_finish: the receipt, then the observation it proves. */
    method ActionFinish(job: JobId, step: StepId, source: SourceId, id: ActionId, now: Time) returns (outcome: Outcome)
      requires Valid()
      modifies this`jobs, this`receipts
      ensures Valid()
      ensures var (mid, first) := WriteReceipt(old(View()), Command.FinishReceipt(job, step, source, id));
              if first.Refused? then (View(), outcome) == (mid, first)
              else (View(), outcome) == RecordObservation(env, mid, Observe(job, step, source, false, now))
    {
      outcome := FinishReceipt(job, step, source, id);
      if outcome.Refused? {
        return;
      }
      outcome := JobRecordObservation(job, step, source, false, now);
    }

    method ActionReconcileReady(job: JobId, step: StepId, id: ActionId, ownerLives: bool) returns (outcome: Outcome)
      requires Valid()
      ensures outcome == ReconcileReady(View(), job, step, id, ownerLives)
    {
      if job !in jobs {
        return Refused(JobNotFound);
      }
      var row := jobs[job];
      assert RowSound(job, row, receipts, issued);
      var track := FindClaim(row, id);
      if track.None? || row.pending[track.value].step != step {
        return Refused(JobActionClaimAbsent);
      }
      if row.pending[track.value].owner.None? {
        return Refused(JobActionOwnerUnknown);
      }
      return if ownerLives then Refused(JobActionOwnerActive) else Done;
    }

    method ActionReconcileAbsent(job: JobId, step: StepId, source: SourceId, id: ActionId, evidence: Option<string>, ownerLives: bool)
      returns (outcome: Outcome)
      requires Valid()
      modifies this`jobs
      ensures Valid()
      ensures (View(), outcome) == ReconcileAbsent(old(View()), Reconcile(job, step, source, id, evidence, ownerLives))
    {
      ReconcileKeepsSound(env, View(), Reconcile(job, step, source, id, evidence, ownerLives));
      if evidence.None? {
        return Refused(JobActionReadAbsent);
      }
      if job !in jobs {
        return Refused(JobNotFound);
      }
      var row := jobs[job];
      var track := FindClaim(row, id);
      if track.Some? {
        var claim := row.pending[track.value];
        if claim.step != step {
          return Refused(JobActionClaimAbsent);
        }
        if claim.owner.None? {
          return Refused(JobActionOwnerUnknown);
        }
        if ownerLives {
          return Refused(JobActionOwnerActive);
        }
        if Recorded(row.events, step, ReconciledAbsent, source) {
          return Refused(EventExists);
        }
        var event := Event(step, ReconciledAbsent, source, false, evidence, Drops(id));
        jobs := jobs[job := row.(pending := row.pending - {track.value}, events := row.events + [event])];
        return Done;
      }
      return Refused(JobActionClaimAbsent);
    }

    /** The renames that installing this definition owes, or None when it is refused. */
    method RenamesOrRefusal(definition: Sop) returns (renames: Option<seq<Rename>>)
      requires (definition.sop, definition.version) !in env.definitions
      ensures renames == if Installs(env, definition) then Some(RenamesFor(env, definition)) else None
    {
      var faults := ValidateSop(definition, definition.sop);
      if faults != [] {
        return None;
      }
      var previous := LatestOf(env, definition.sop);
      if previous.None? {
        return Some([]);
      }
      renames := ForwardOnly(previous.value, definition);
    }

    /** installSops() for one definition: checked, compared with the version installed last, and
        its jobs carried over. */
    method InstallDefinition(definition: Sop) returns (outcome: Outcome)
      requires Valid()
      modifies this`env, this`jobs
      ensures Valid() && env == NowInstalled(old(env), definition)
      ensures (View(), outcome) == InstallSop(old(env), old(View()), Command.Install(definition))
    {
      InstallKeepsSound(env, View(), Command.Install(definition));
      var key := (definition.sop, definition.version);
      if key in env.definitions {
        var faults := ValidateSop(definition, definition.sop);
        return if faults == [] && env.definitions[key] == definition then AlreadyDone else Refused(RecordsMigrationRefused);
      }
      var renames := RenamesOrRefusal(definition);
      if renames.None? {
        return Refused(RecordsMigrationRefused);
      }
      jobs := map j | j in jobs ::
        if jobs[j].sop == definition.sop then CarriedTo(jobs[j], definition, renames.value) else jobs[j];
      env := Installed(env.definitions[key := definition], env.latest[definition.sop := definition.version]);
      return Done;
    }
  }
}
