/** Jobs that are well formed under the definition in force: what each transaction keeps, and what
    an installation must not do. */
module JobForms {
  import opened Prelude
  import opened Sop
  import opened SopValidation
  import opened SopForward
  import opened JobEngine
  import opened JobHistory
  import opened JobRuns
  import opened JobTheorems
  import opened SopUpgrade

  /** Every installed definition was accepted, under its own name and version. */
  predicate WellInstalled(env: Installed) {
    && (forall at <- env.definitions ::
          env.definitions[at].sop == at.0 && env.definitions[at].version == at.1 && Accepted(env.definitions[at], at.0))
    && (forall sop <- env.latest :: (sop, env.latest[sop]) in env.definitions)
  }

  lemma {:induction false} StaysWellInstalled(env: Installed, commands: seq<Command>)
    requires WellInstalled(env)
    ensures WellInstalled(InstalledAfter(env, commands))
  {
    if commands != [] {
      StaysWellInstalled(env, commands[..|commands| - 1]);
    }
  }

  /** Every job is of the version installed last. */
  predicate JobsCurrent(env: Installed, db: Db) {
    forall job <- db.jobs :: db.jobs[job].sop in env.latest && db.jobs[job].version == env.latest[db.jobs[job].sop]
  }

  lemma OpenIsCurrent(env: Installed, db: Db, c: Command)
    requires c.Open? && JobsCurrent(env, db)
    ensures JobsCurrent(env, OpenJob(env, db, c).0)
  {
  }

  lemma TransactKeepsCurrent(env: Installed, db: Db, c: Command)
    requires Sound(env, db) && JobsCurrent(env, db)
    ensures JobsCurrent(InstalledBy(env, c), Transact(env, db, c))
  {
    var next := Transact(env, db, c);
    if c.Open? {
      OpenIsCurrent(env, db, c);
    } else {
      forall job | job in next.jobs
        ensures next.jobs[job].sop in InstalledBy(env, c).latest && next.jobs[job].version == InstalledBy(env, c).latest[next.jobs[job].sop]
      {
        if c.Install? {
          InstallCarries(env, db, c, job);
        } else {
          OnlyOpenOpens(env, db, c, job);
          TransactSteps(env, db, c, job);
        }
      }
    }
  }

  lemma OnlyOpenOpens(env: Installed, db: Db, c: Command, job: JobId)
    requires !c.Open? && job in Transact(env, db, c).jobs
    ensures job in db.jobs
  {
    if Fresh(db, c) {
      match c
      case Begin(_, _, _, _, _, _, _, _) =>
      case Reserve(_, _, _, _, _) =>
      case FinishReceipt(_, _, _, _) =>
      case Observe(_, _, _, _, _) =>
      case Reconcile(_, _, _, _, _, _) =>
      case Collect(_, _, _) =>
      case Install(_) =>
    }
  }

  lemma {:induction false} RunIsCurrent(env: Installed, commands: seq<Command>)
    ensures JobsCurrent(InstalledAfter(env, commands), Run(env, commands))
  {
    if commands != [] {
      var before := commands[..|commands| - 1];
      RunIsCurrent(env, before);
      RunIsSound(env, before);
      TransactKeepsCurrent(InstalledAfter(env, before), Run(env, before), commands[|commands| - 1]);
    }
  }

  // ---- Well-formed jobs -------------------------------------------------------------------------

  /** An installation that adds no track to those of the definition before it. */
  predicate AddsNoTrack(env: Installed, c: Command) {
    c.Install? && Installs(env, c.definition) && LatestOf(env, c.definition.sop).Some? ==>
      TrackIds(c.definition.tracks) <= TrackIds(LatestOf(env, c.definition.sop).value.tracks)
  }

  ghost predicate KeepsTracks(env: Installed, commands: seq<Command>) {
    commands == []
    || var before := commands[..|commands| - 1];
       KeepsTracks(env, before) && AddsNoTrack(InstalledAfter(env, before), commands[|commands| - 1])
  }

  predicate AllWellFormed(env: Installed, db: Db) {
    forall job <- db.jobs ::
      DefinitionOf(env, db.jobs[job]).Some? && WellFormed(DefinitionOf(env, db.jobs[job]).value, db.jobs[job].positions)
  }

  lemma RowStepKeepsForm(sop: Sop, row: Job, next: Job, issued: set<ActionId>)
    requires Structural(sop) && WellFormed(sop, row.positions) && RowSteps(sop, row, next, issued)
    ensures WellFormed(sop, next.positions)
  {
    if next != row {
      var e := next.events[|next.events| - 1];
      if Observes(sop, row, next, e) {
        ObservationKeepsForm(sop, StepOf(sop, e.step).value, row.positions);
      }
    }
  }

  /** Where the carried job stands is well formed exactly when no track was added. */
  lemma CarriedKeepsFormIff(env: Installed, db: Db, c: Command, job: JobId)
    requires WellInstalled(env) && JobsCurrent(env, db) && AllWellFormed(env, db)
    requires c.Install? && Installs(env, c.definition) && job in db.jobs && db.jobs[job].sop == c.definition.sop
    ensures var next := InstallSop(env, db, c).0;
            job in next.jobs && (WellFormed(c.definition, next.jobs[job].positions) <==> AddsNoTrack(env, c))
  {
    InstallCarries(env, db, c, job);
    var previous := LatestOf(env, c.definition.sop).value;
    assert DefinitionOf(env, db.jobs[job]) == Some(previous);
    var renames := RenamesFor(env, c.definition);
    OwedRenamesAreOwed(previous, c.definition);
    UpgradeKeepsFormIff(previous, c.definition, db.jobs[job].positions, renames, renames);
  }

  lemma InstallKeepsForms(env: Installed, db: Db, c: Command)
    requires WellInstalled(env) && JobsCurrent(env, db) && AllWellFormed(env, db) && c.Install? && AddsNoTrack(env, c)
    ensures AllWellFormed(NowInstalled(env, c.definition), InstallSop(env, db, c).0)
  {
    var at, next := NowInstalled(env, c.definition), InstallSop(env, db, c).0;
    forall job | job in next.jobs
      ensures DefinitionOf(at, next.jobs[job]).Some? && WellFormed(DefinitionOf(at, next.jobs[job]).value, next.jobs[job].positions)
    {
      InstallCarries(env, db, c, job);
      assert DefinitionOf(env, db.jobs[job]).Some?;
      if Installs(env, c.definition) && db.jobs[job].sop == c.definition.sop {
        CarriedKeepsFormIff(env, db, c, job);
      }
    }
  }

  lemma TransactKeepsForms(env: Installed, db: Db, c: Command)
    requires WellInstalled(env) && JobsCurrent(env, db) && AllWellFormed(env, db) && AddsNoTrack(env, c)
    ensures AllWellFormed(InstalledBy(env, c), Transact(env, db, c))
  {
    if c.Install? {
      InstallKeepsForms(env, db, c);
    } else {
      var next := Transact(env, db, c);
      forall job | job in next.jobs
        ensures DefinitionOf(env, next.jobs[job]).Some? && WellFormed(DefinitionOf(env, next.jobs[job]).value, next.jobs[job].positions)
      {
        if job in db.jobs {
          TransactSteps(env, db, c, job);
          RowStepKeepsForm(DefinitionOf(env, db.jobs[job]).value, db.jobs[job], next.jobs[job], db.issued);
        } else {
          OpenedAtStart(env, db, c, job);
          InitialIsWellFormed(DefinitionOf(env, next.jobs[job]).value);
        }
      }
    }
  }

  lemma {:induction false} RunIsWellFormed(env: Installed, commands: seq<Command>)
    requires WellInstalled(env) && KeepsTracks(env, commands)
    ensures AllWellFormed(InstalledAfter(env, commands), Run(env, commands))
  {
    if commands != [] {
      var before := commands[..|commands| - 1];
      RunIsWellFormed(env, before);
      StaysWellInstalled(env, before);
      RunIsCurrent(env, before);
      TransactKeepsForms(InstalledAfter(env, before), Run(env, before), commands[|commands| - 1]);
    }
  }

  /** Under accepted definitions, in every run whose installations add no track, no job is ever
      refused by positionViews(): each view exists and shows the stored position. */
  lemma ViewsNeverRefuse(env: Installed, commands: seq<Command>, job: JobId)
    requires WellInstalled(env) && KeepsTracks(env, commands) && job in Run(env, commands).jobs
    ensures var row := Run(env, commands).jobs[job];
            && DefinitionOf(InstalledAfter(env, commands), row).Some?
            && var tracks := DefinitionOf(InstalledAfter(env, commands), row).value.tracks;
               var views := PositionViews(tracks, row.positions);
               && views.Some? && |views.value| == |tracks|
               && forall i :: 0 <= i < |tracks| ==>
                    tracks[i].id in row.positions && views.value[i].id == row.positions[tracks[i].id]
  {
    RunIsWellFormed(env, commands);
    var row := Run(env, commands).jobs[job];
    var sop := DefinitionOf(InstalledAfter(env, commands), row).value;
    ViewsExist(sop.tracks, row.positions);
  }

  /** After such a run, an accepted installation makes a job that it carries be refused its views
      exactly when it adds a track. */
  lemma UpgradeRefusesViewsIff(env: Installed, commands: seq<Command>, c: Command, job: JobId)
    requires WellInstalled(env) && KeepsTracks(env, commands)
    requires c.Install? && Installs(InstalledAfter(env, commands), c.definition)
    requires job in Run(env, commands).jobs && Run(env, commands).jobs[job].sop == c.definition.sop
    ensures var next := Run(env, commands + [c]);
            job in next.jobs
            && (PositionViews(c.definition.tracks, next.jobs[job].positions).None? <==> !AddsNoTrack(InstalledAfter(env, commands), c))
  {
    var at, db := InstalledAfter(env, commands), Run(env, commands);
    RunIsWellFormed(env, commands);
    StaysWellInstalled(env, commands);
    RunIsCurrent(env, commands);
    RunExtends(env, commands, c);
    CarriedKeepsFormIff(at, db, c, job);
    InstallCarries(at, db, c, job);
    RenameKeys(db.jobs[job].positions, RenamesFor(at, c.definition));
    var positions := Run(env, commands + [c]).jobs[job].positions;
    ViewsExist(c.definition.tracks, positions);
    PlacedIsFormed(LatestOf(at, c.definition.sop).value, c.definition, positions);
  }

  lemma PlacedIsFormed(previous: Sop, next: Sop, positions: Positions)
    requires Forward(previous, next) && positions.Keys == TrackIds(previous.tracks)
    ensures WellPlaced(next, positions) ==> WellFormed(next, positions)
  {
    ForwardKeepsTracks(previous, next);
    if WellPlaced(next, positions) {
      forall id | id in TrackIds(next.tracks) ensures id in positions {
      }
    }
  }
}
