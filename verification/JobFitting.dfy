/** Claims that fit the definition in force: their step is an active intent, is claimed under the
    key they have, and can be taken from where their track stands. Transactions keep that; an
    installation may not, and then what finishing a claim does is another matter. */
module JobFitting {
  import opened Prelude
  import opened Sop
  import opened JobEngine
  import opened JobHistory
  import opened JobRuns
  import opened JobTheorems

  /** The step can still be taken, as far as its own track is concerned. */
  predicate StillFits(step: Step, positions: Positions, track: TrackId) {
    && (HasPrimary(step) ==> exists move <- step.moves :: move.track == track && Fits(move, positions))
    && forall need <- step.needs :: need.0 == track ==> Holds(positions, track, need.1)
  }

  predicate ClaimFits(sop: Sop, row: Job, track: TrackId)
    requires track in row.pending
  {
    var step := StepOf(sop, row.pending[track].step);
    && step.Some? && step.value.kind == IntentStep && track == ClaimKey(step.value)
    && StillFits(step.value, row.positions, track)
  }

  predicate ClaimsFit(sop: Sop, row: Job) {
    forall t <- row.pending :: ClaimFits(sop, row, t)
  }

  predicate Fitting(env: Installed, db: Db) {
    forall job <- db.jobs :: DefinitionOf(env, db.jobs[job]).Some? && ClaimsFit(DefinitionOf(env, db.jobs[job]).value, db.jobs[job])
  }

  // ---- Transactions keep it ---------------------------------------------------------------------

  lemma PlacedTheSame(step: Step, before: Positions, after: Positions, track: TrackId)
    requires StillFits(step, before, track) && PlaceOf(before, track) == PlaceOf(after, track)
    ensures StillFits(step, after, track)
  {
    if HasPrimary(step) {
      var move :| move in step.moves && move.track == track && Fits(move, before);
      assert Fits(move, after);
    }
  }

  lemma RowStepFits(sop: Sop, row: Job, next: Job, issued: set<ActionId>, track: TrackId)
    requires ClaimsFit(sop, row) && RowSteps(sop, row, next, issued) && track in next.pending
    ensures ClaimFits(sop, next, track)
  {
    if next != row {
      var e := next.events[|next.events| - 1];
      if track in row.pending {
        assert ClaimFits(sop, row, track);
        PlaceStays(sop, row, next, e, issued, track);
        PlacedTheSame(StepOf(sop, row.pending[track].step).value, row.positions, next.positions, track);
      }
    }
  }

  /** The condition that an installer can check: in every job that is carried over, every pending
      claim fits the new definition. */
  predicate LeavesFitting(env: Installed, db: Db, c: Command) {
    c.Install? && Installs(env, c.definition) ==>
      forall job <- db.jobs :: db.jobs[job].sop == c.definition.sop ==>
        ClaimsFit(c.definition, CarriedTo(db.jobs[job], c.definition, RenamesFor(env, c.definition)))
  }

  /** A run in which every installation leaves fitting claims. */
  ghost predicate Gentle(env: Installed, commands: seq<Command>) {
    commands == []
    || var before := commands[..|commands| - 1];
       Gentle(env, before) && LeavesFitting(InstalledAfter(env, before), Run(env, before), commands[|commands| - 1])
  }

  lemma InstallKeepsFitting(env: Installed, db: Db, c: Command)
    requires Fitting(env, db) && c.Install? && LeavesFitting(env, db, c)
    ensures Fitting(NowInstalled(env, c.definition), InstallSop(env, db, c).0)
  {
    var next := InstallSop(env, db, c).0;
    forall job | job in next.jobs
      ensures DefinitionOf(NowInstalled(env, c.definition), next.jobs[job]).Some?
      ensures ClaimsFit(DefinitionOf(NowInstalled(env, c.definition), next.jobs[job]).value, next.jobs[job])
    {
      InstallCarries(env, db, c, job);
      assert DefinitionOf(env, db.jobs[job]).Some?;
    }
  }

  lemma TransactKeepsFitting(env: Installed, db: Db, c: Command)
    requires Fitting(env, db) && LeavesFitting(env, db, c)
    ensures Fitting(InstalledBy(env, c), Transact(env, db, c))
  {
    if c.Install? {
      InstallKeepsFitting(env, db, c);
    } else {
      var next := Transact(env, db, c);
      forall job | job in next.jobs
        ensures DefinitionOf(env, next.jobs[job]).Some? && ClaimsFit(DefinitionOf(env, next.jobs[job]).value, next.jobs[job])
      {
        if job in db.jobs {
          TransactSteps(env, db, c, job);
          var sop := DefinitionOf(env, db.jobs[job]).value;
          forall t | t in next.jobs[job].pending ensures ClaimFits(sop, next.jobs[job], t) {
            RowStepFits(sop, db.jobs[job], next.jobs[job], db.issued, t);
          }
        } else {
          OpenedAtStart(env, db, c, job);
        }
      }
    }
  }

  lemma {:induction false} RunIsFitting(env: Installed, commands: seq<Command>)
    requires Gentle(env, commands)
    ensures Fitting(InstalledAfter(env, commands), Run(env, commands))
  {
    if commands != [] {
      var before := commands[..|commands| - 1];
      RunIsFitting(env, before);
      TransactKeepsFitting(InstalledAfter(env, before), Run(env, before), commands[|commands| - 1]);
    }
  }

  // ---- What it is good for ------------------------------------------------------------------------

  /** In every such run two claims of one step are on one track: a step has one primary track. */
  lemma OneClaimPerStep(env: Installed, commands: seq<Command>, job: JobId, a: TrackId, b: TrackId)
    requires Gentle(env, commands) && job in Run(env, commands).jobs
    requires var pending := Run(env, commands).jobs[job].pending;
             a in pending && b in pending && pending[a].step == pending[b].step
    ensures a == b
  {
    RunIsFitting(env, commands);
    var row := Run(env, commands).jobs[job];
    var sop := DefinitionOf(InstalledAfter(env, commands), row).value;
    assert ClaimFits(sop, row, a) && ClaimFits(sop, row, b);
  }

  /** What recording an observation of this step did to the job, which had a claim under this track:
      the track went where a listed move of it leads that started where it stood, and the event is
      flagged exactly if another track did not stand where the step needs it. */
  predicate FinishedOnPrimary(step: Step, row: Job, next: Job, track: TrackId) {
    && (HasPrimary(step) ==>
          exists move <- step.moves ::
            move.track == track && Fits(move, row.positions) && PlaceOf(next.positions, track) == Some(move.to))
    && next.events != []
    && (next.events[|next.events| - 1].offModel <==>
          exists need <- step.needs :: need.0 != track && !Holds(row.positions, need.0, need.1))
  }

  /** The step without what it asks of other tracks. */
  function OnItsOwn(step: Step, track: TrackId): (own: Step)
    ensures forall need :: need in own.needs <==> need in step.needs && need.0 == track
  {
    step.(needs := NeedsOf(step.needs, track))
  }

  function NeedsOf(needs: seq<(TrackId, PosId)>, track: TrackId): (own: seq<(TrackId, PosId)>)
    ensures forall need :: need in own <==> need in needs && need.0 == track
  {
    if needs == [] then []
    else
      var last := needs[|needs| - 1];
      assert forall need :: need in needs <==> need in needs[..|needs| - 1] || need == last;
      NeedsOf(needs[..|needs| - 1], track) + if last.0 == track then [last] else []
  }

  /** Finishing the claim, wherever the other tracks will stand by then, moves its own track by a
      listed move and is off the model exactly through another track; and if the step asked nothing
      of other tracks it would be on the model. */
  ghost predicate FinishesOnPrimary(sop: Sop, row: Job, track: TrackId)
    requires track in row.pending
  {
    && StepOf(sop, row.pending[track].step).Some?
    && var step := StepOf(sop, row.pending[track].step).value;
       && step.kind == IntentStep && track == ClaimKey(step)
       && forall positions, source, now, trail :: PlaceOf(positions, track) == PlaceOf(row.positions, track) ==>
            FinishGoes(step, row.(positions := positions), source, now, trail, track)
  }

  predicate FinishGoes(step: Step, row: Job, source: SourceId, now: Time, trail: Trail, track: TrackId) {
    && FinishedOnPrimary(step, row, AfterObservation(row, step, source, now, trail), track)
    && FinishedOnPrimary(OnItsOwn(step, track), row, AfterObservation(row, OnItsOwn(step, track), source, now, trail), track)
  }

  lemma FitFinishes(step: Step, row: Job, source: SourceId, now: Time, trail: Trail, track: TrackId)
    requires track == ClaimKey(step) && StillFits(step, row.positions, track)
    ensures FinishedOnPrimary(step, row, AfterObservation(row, step, source, now, trail), track)
  {
    TakenFits(step.moves, track, row.positions);
  }

  lemma FinishedOnItsOwnFits(step: Step, row: Job, next: Job, track: TrackId)
    requires FinishedOnPrimary(step, row, next, track) && next == AfterObservation(row, step, "", 0, NoClaim)
    requires forall need <- step.needs :: need.0 == track
    ensures StillFits(step, row.positions, track)
  {
    assert !next.events[|next.events| - 1].offModel;
  }

  lemma FitsIffFinishes(sop: Sop, row: Job, track: TrackId)
    requires track in row.pending
    ensures ClaimFits(sop, row, track) <==> FinishesOnPrimary(sop, row, track)
  {
    var found := StepOf(sop, row.pending[track].step);
    if found.Some? && found.value.kind == IntentStep && track == ClaimKey(found.value) {
      var step := found.value;
      if StillFits(step, row.positions, track) {
        forall positions, source, now, trail | PlaceOf(positions, track) == PlaceOf(row.positions, track)
          ensures FinishGoes(step, row.(positions := positions), source, now, trail, track)
        {
          PlacedTheSame(step, row.positions, positions, track);
          FitFinishes(step, row.(positions := positions), source, now, trail, track);
          FitFinishes(OnItsOwn(step, track), row.(positions := positions), source, now, trail, track);
        }
      } else if FinishesOnPrimary(sop, row, track) {
        var own := OnItsOwn(step, track);
        assert row.(positions := row.positions) == row;
        assert FinishGoes(step, row.(positions := row.positions), "", 0, NoClaim, track);
        FinishedOnItsOwnFits(own, row, AfterObservation(row, own, "", 0, NoClaim), track);
      }
    }
  }

  lemma RecordedFinishes(env: Installed, db: Db, c: Command, track: TrackId)
    requires c.Observe? && RecordObservation(env, db, c).1 == Done && track in db.jobs[c.job].pending
    requires c.step == db.jobs[c.job].pending[track].step && ClaimFits(DefinitionOf(env, db.jobs[c.job]).value, db.jobs[c.job], track)
    ensures FinishedOnPrimary(StepOf(DefinitionOf(env, db.jobs[c.job]).value, c.step).value, db.jobs[c.job],
                              RecordObservation(env, db, c).0.jobs[c.job], track)
  {
    var row, next := db.jobs[c.job], RecordObservation(env, db, c).0.jobs[c.job];
    var step := StepOf(DefinitionOf(env, row).value, c.step).value;
    FitFinishes(step, row, c.source, c.now, next.events[|row.events|].trail, track);
  }

  lemma PendingFits(env: Installed, commands: seq<Command>, job: JobId, track: TrackId)
    requires Gentle(env, commands) && job in Run(env, commands).jobs && track in Run(env, commands).jobs[job].pending
    ensures var at, row := InstalledAfter(env, commands), Run(env, commands).jobs[job];
            && DefinitionOf(at, row).Some? && ClaimFits(DefinitionOf(at, row).value, row, track)
            && FinishesOnPrimary(DefinitionOf(at, row).value, row, track)
  {
    RunIsFitting(env, commands);
    var row := Run(env, commands).jobs[job];
    var sop := DefinitionOf(InstalledAfter(env, commands), row).value;
    assert ClaimFits(sop, row, track);
    FitsIffFinishes(sop, row, track);
  }

  /** In every such run finishing a pending claim moves its own track, whenever it comes; and so does
      the observation of its step that is recorded now. */
  lemma FinishIsOnPrimary(env: Installed, commands: seq<Command>, job: JobId, track: TrackId, c: Command)
    requires Gentle(env, commands) && job in Run(env, commands).jobs && track in Run(env, commands).jobs[job].pending
    requires c.Observe? && c.job == job && c.step == Run(env, commands).jobs[job].pending[track].step
    ensures var at, db := InstalledAfter(env, commands), Run(env, commands);
            var row := db.jobs[job];
            && DefinitionOf(at, row).Some? && FinishesOnPrimary(DefinitionOf(at, row).value, row, track)
            && (RecordObservation(at, db, c).1 == Done ==>
                  FinishedOnPrimary(StepOf(DefinitionOf(at, row).value, c.step).value, row, Run(env, commands + [c]).jobs[job], track))
  {
    PendingFits(env, commands, job, track);
    var at, db := InstalledAfter(env, commands), Run(env, commands);
    if RecordObservation(at, db, c).1 == Done {
      RunExtends(env, commands, c);
      RecordedFinishes(at, db, c, track);
    }
  }

  /** After an installation, finishing any pending claim is still a move on its own primary track
      if and only if every carried claim fits the new definition. */
  lemma UpgradeKeepsFinishIff(env: Installed, commands: seq<Command>, c: Command)
    requires Gentle(env, commands) && c.Install?
    ensures var at, db := InstalledAfter(env, commands + [c]), Run(env, commands + [c]);
            && (forall job <- db.jobs :: DefinitionOf(at, db.jobs[job]).Some?)
            && (LeavesFitting(InstalledAfter(env, commands), Run(env, commands), c) <==>
                  forall job, t :: job in db.jobs && t in db.jobs[job].pending ==>
                    FinishesOnPrimary(DefinitionOf(at, db.jobs[job]).value, db.jobs[job], t))
  {
    RunIsFitting(env, commands);
    RunExtends(env, commands, c);
    RunIsSound(env, commands + [c]);
    var was, early := InstalledAfter(env, commands), Run(env, commands);
    var at, db := InstalledAfter(env, commands + [c]), Run(env, commands + [c]);
    if LeavesFitting(was, early, c) {
      InstallKeepsFitting(was, early, c);
      forall job, t | job in db.jobs && t in db.jobs[job].pending
        ensures FinishesOnPrimary(DefinitionOf(at, db.jobs[job]).value, db.jobs[job], t)
      {
        assert ClaimsFit(DefinitionOf(at, db.jobs[job]).value, db.jobs[job]);
        FitsIffFinishes(DefinitionOf(at, db.jobs[job]).value, db.jobs[job], t);
      }
    } else {
      var job :| job in early.jobs && early.jobs[job].sop == c.definition.sop
                 && !ClaimsFit(c.definition, CarriedTo(early.jobs[job], c.definition, RenamesFor(was, c.definition)));
      InstallCarries(was, early, c, job);
      var t :| t in db.jobs[job].pending && !ClaimFits(c.definition, db.jobs[job], t);
      FitsIffFinishes(c.definition, db.jobs[job], t);
    }
  }
}
