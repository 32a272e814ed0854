/** What a reader can rely on in every run, upgrades included: of claims, observations and
    positions. */
module JobTheorems {
  import opened Prelude
  import opened Sop
  import opened JobEngine
  import opened JobHistory
  import opened JobRuns

  /** The part of the invariant that is about one job's claims. */
  lemma RunOwnsClaims(env: Installed, commands: seq<Command>, job: JobId)
    requires job in Run(env, commands).jobs
    ensures var row := Run(env, commands).jobs[job];
            DefinitionOf(InstalledAfter(env, commands), row).Some? && ClaimsMade(row) && MadeOnce(row.events) && OwnersKnown(row)
  {
    RunIsSound(env, commands);
  }

  // ---- What one transaction does to one job ----------------------------------------------------

  predicate Grows(row: Job, next: Job, e: Event) {
    next.events == row.events + [e] && next.sop == row.sop && next.version == row.version
  }

  /** An observation was recorded: the tracks it moves lose their claims. */
  predicate Observes(sop: Sop, row: Job, next: Job, e: Event) {
    && e.kind == Observation && StepOf(sop, e.step).Some?
    && var step := StepOf(sop, e.step).value;
       && next.positions == Observed(step, row.positions) && e.offModel == OffModel(step, row.positions)
       && next.pending == map t | t in row.pending && !Moves(row.positions, next.positions, t) :: row.pending[t]
  }

  /** The step may be claimed under this key, and is not. */
  predicate Claimable(sop: Sop, row: Job, step: StepId, t: TrackId) {
    && t !in row.pending && StepOf(sop, step).Some?
    && StepOf(sop, step).value.kind == IntentStep && Legal(StepOf(sop, step).value, row.positions)
    && ClaimKey(StepOf(sop, step).value) == t
  }

  /** A claim was made of an unused id, or one was dropped; the job stands where it stood. */
  predicate ChangesClaims(sop: Sop, row: Job, next: Job, e: Event, issued: set<ActionId>) {
    && e.kind != Observation && next.positions == row.positions
    && forall t <- next.pending ::
         || (t in row.pending && next.pending[t] == row.pending[t])
         || (next.pending[t].id !in issued && Claimable(sop, row, next.pending[t].step, t)
             && e == Event(next.pending[t].step, Intent, next.pending[t].source, false, None,
                           Makes(next.pending[t].id, next.pending[t].state, t, PlaceOf(row.positions, t))))
  }

  predicate RowSteps(sop: Sop, row: Job, next: Job, issued: set<ActionId>) {
    || next == row
    || (next.events != []
        && var e := next.events[|next.events| - 1];
           Grows(row, next, e) && (Observes(sop, row, next, e) || ChangesClaims(sop, row, next, e, issued)))
  }

  lemma BeginSteps(env: Installed, db: Db, c: Command, job: JobId)
    requires c.Begin? && Fresh(db, c) && job in db.jobs && DefinitionOf(env, db.jobs[job]).Some?
    ensures var next := BeginAction(env, db, c).0;
            job in next.jobs && RowSteps(DefinitionOf(env, db.jobs[job]).value, db.jobs[job], next.jobs[job], db.issued)
  {
  }

  lemma ReserveSteps(env: Installed, db: Db, c: Command, job: JobId)
    requires c.Reserve? && Fresh(db, c) && job in db.jobs && DefinitionOf(env, db.jobs[job]).Some?
    ensures var next := ReserveIntent(env, db, c).0;
            job in next.jobs && RowSteps(DefinitionOf(env, db.jobs[job]).value, db.jobs[job], next.jobs[job], db.issued)
  {
  }

  lemma ObserveSteps(env: Installed, db: Db, c: Command, job: JobId)
    requires c.Observe? && job in db.jobs && DefinitionOf(env, db.jobs[job]).Some?
    ensures var next := RecordObservation(env, db, c).0;
            job in next.jobs && RowSteps(DefinitionOf(env, db.jobs[job]).value, db.jobs[job], next.jobs[job], db.issued)
  {
  }

  lemma ReconcileSteps(env: Installed, db: Db, c: Command, job: JobId)
    requires c.Reconcile? && job in db.jobs && DefinitionOf(env, db.jobs[job]).Some?
    ensures var next := ReconcileAbsent(db, c).0;
            job in next.jobs && RowSteps(DefinitionOf(env, db.jobs[job]).value, db.jobs[job], next.jobs[job], db.issued)
  {
  }

  lemma OpenLeaves(env: Installed, db: Db, c: Command, job: JobId)
    requires c.Open? && Fresh(db, c) && job in db.jobs
    ensures var next := OpenJob(env, db, c).0; job in next.jobs && next.jobs[job] == db.jobs[job]
  {
  }

  /** Between two installations a job only moves by its own definition. */
  lemma TransactSteps(env: Installed, db: Db, c: Command, job: JobId)
    requires !c.Install? && job in db.jobs && DefinitionOf(env, db.jobs[job]).Some?
    ensures var next := Transact(env, db, c);
            job in next.jobs && RowSteps(DefinitionOf(env, db.jobs[job]).value, db.jobs[job], next.jobs[job], db.issued)
  {
    if Fresh(db, c) {
      match c
      case Open(_, _, _, _, _, _, _) => OpenLeaves(env, db, c, job);
      case Begin(_, _, _, _, _, _, _, _) => BeginSteps(env, db, c, job);
      case Reserve(_, _, _, _, _) => ReserveSteps(env, db, c, job);
      case FinishReceipt(_, _, _, _) =>
      case Observe(_, _, _, _, _) => ObserveSteps(env, db, c, job);
      case Reconcile(_, _, _, _, _, _) => ReconcileSteps(env, db, c, job);
      case Collect(_, _, _) =>
    }
  }

  lemma OpenedAtStart(env: Installed, db: Db, c: Command, job: JobId)
    requires job !in db.jobs && job in Transact(env, db, c).jobs
    ensures var row := Transact(env, db, c).jobs[job];
            && row.events == [] && row.pending == map[] && DefinitionOf(env, row).Some?
            && row.positions == InitialPositions(DefinitionOf(env, row).value)
  {
    if Fresh(db, c) {
      match c
      case Open(_, _, _, _, _, _, _) =>
      case Begin(_, _, _, _, _, _, _, _) =>
      case Reserve(_, _, _, _, _) =>
      case FinishReceipt(_, _, _, _) =>
      case Observe(_, _, _, _, _) =>
      case Reconcile(_, _, _, _, _, _) =>
      case Collect(_, _, _) =>
      case Install(_) =>
    }
  }

  // ---- Observations rest on claims ---------------------------------------------------------

  /** This command, on this database and under these definitions, records event k of the job. */
  ghost predicate Records(at: Installed, db: Db, c: Command, job: JobId, k: int, e: Event) {
    && c.Observe? && c.job == job && Locate(at, db, job, e.step).Found? && |db.jobs[job].events| == k
    && var (next, outcome) := RecordObservation(at, db, c);
       outcome == Done && job in next.jobs && |next.jobs[job].events| == k + 1 && next.jobs[job].events[k] == e
  }

  /** Command n of the run recorded it, under what was installed then. */
  ghost predicate RecordedBy(env: Installed, commands: seq<Command>, n: int, job: JobId, k: int, e: Event) {
    0 <= n < |commands| && Records(InstalledAfter(env, commands[..n]), Run(env, commands[..n]), commands[n], job, k, e)
  }

  lemma OnlyObserveObserves(env: Installed, db: Db, c: Command, job: JobId, k: int)
    requires job in Transact(env, db, c).jobs && 0 <= k < |Transact(env, db, c).jobs[job].events|
    requires Transact(env, db, c).jobs[job].events[k].kind == Observation
    ensures var e := Transact(env, db, c).jobs[job].events[k];
            (job in db.jobs && k < |db.jobs[job].events| && db.jobs[job].events[k] == e) || Records(env, db, c, job, k, e)
  {
    TransactAddsOne(env, db, c);
    var next := Transact(env, db, c);
    if !SameLogs(db, next) && c.job == job && k == |db.jobs[job].events| {
      LastObserved(env, db, c);
    }
  }

  lemma LastObserved(env: Installed, db: Db, c: Command)
    requires !c.Open? && !c.Collect? && !c.Install? && c.job in db.jobs && c.job in Transact(env, db, c).jobs
    requires var events := Transact(env, db, c).jobs[c.job].events;
             |events| == |db.jobs[c.job].events| + 1 && events[|events| - 1].kind == Observation
    ensures var events := Transact(env, db, c).jobs[c.job].events;
            Records(env, db, c, c.job, |db.jobs[c.job].events|, events[|events| - 1])
  {
  }

  lemma {:induction false} ObservationWasRecorded(env: Installed, commands: seq<Command>, job: JobId, k: int) returns (n: int)
    requires var db := Run(env, commands);
             job in db.jobs && 0 <= k < |db.jobs[job].events| && db.jobs[job].events[k].kind == Observation
    ensures RecordedBy(env, commands, n, job, k, Run(env, commands).jobs[job].events[k])
  {
    var before, c := commands[..|commands| - 1], commands[|commands| - 1];
    OnlyObserveObserves(InstalledAfter(env, before), Run(env, before), c, job, k);
    var db, e := Run(env, before), Run(env, commands).jobs[job].events[k];
    if job in db.jobs && k < |db.jobs[job].events| && db.jobs[job].events[k] == e {
      n := ObservationWasRecorded(env, before, job, k);
      assert before[..n] == commands[..n];
    } else {
      n := |commands| - 1;
    }
  }

  /** Every observation in the log of any run was recorded by some command. Where the definition
      in force then made its step an agent_action, it has a receipt of the same job, step and
      source, whose action id an earlier action_begin of that step claimed. */
  lemma ObservationHasClaim(env: Installed, commands: seq<Command>, job: JobId, k: int) returns (n: int)
    requires var db := Run(env, commands);
             job in db.jobs && 0 <= k < |db.jobs[job].events| && db.jobs[job].events[k].kind == Observation
    ensures var e := Run(env, commands).jobs[job].events[k];
            && RecordedBy(env, commands, n, job, k, e)
            && (Locate(InstalledAfter(env, commands[..n]), Run(env, commands[..n]), job, e.step).step.observedVia == AGENT_ACTION
                <==> e.trail.Rests?)
    ensures var db := Run(env, commands);
            var row := db.jobs[job];
            var e := row.events[k];
            e.trail.Rests? ==>
              && e.trail.id in db.receipts && db.receipts[e.trail.id] == Receipt(job, row.sop, e.step, e.source)
              && exists m :: m < k && Made(row.events, m, e.step, e.trail.id, Claimed)
  {
    n := ObservationWasRecorded(env, commands, job, k);
    RunIsSound(env, commands);
    var row := Run(env, commands).jobs[job];
    assert row.events[k].trail.Rests? ==> Rested(job, row, Run(env, commands).receipts, k);
  }

  /** A claim yields at most one observation, in any job. */
  lemma OneObservationPerClaim(env: Installed, commands: seq<Command>, a: JobId, i: int, b: JobId, j: int)
    requires var db := Run(env, commands);
             && a in db.jobs && 0 <= i < |db.jobs[a].events| && db.jobs[a].events[i].trail.Rests?
             && b in db.jobs && 0 <= j < |db.jobs[b].events| && db.jobs[b].events[j].trail.Rests?
             && db.jobs[a].events[i].trail.id == db.jobs[b].events[j].trail.id
    ensures a == b && i == j
  {
    RunIsSound(env, commands);
    var db := Run(env, commands);
    assert Rested(a, db.jobs[a], db.receipts, i);
    assert Rested(b, db.jobs[b], db.receipts, j);
  }

  /** A claim is dropped at most once, and never while it is still pending. */
  lemma DroppedOnce(env: Installed, commands: seq<Command>, job: JobId, i: int, j: int)
    requires var db := Run(env, commands);
             && job in db.jobs && 0 <= i < |db.jobs[job].events| && 0 <= j < |db.jobs[job].events|
             && db.jobs[job].events[i].trail.Drops? && db.jobs[job].events[j].trail.Drops?
             && db.jobs[job].events[i].trail.id == db.jobs[job].events[j].trail.id
    ensures i == j
    ensures var row := Run(env, commands).jobs[job]; !HasClaim(row.pending, row.events[i].trail.id)
  {
    RunIsSound(env, commands);
  }

  // ---- Positions are the replay of the log ---------------------------------------------------

  /** The positions that recorded observations lead to, from these. */
  function Replay(sop: Sop, base: Positions, events: seq<Event>): Positions {
    if events == [] then base
    else
      var last := events[|events| - 1];
      var before := Replay(sop, base, events[..|events| - 1]);
      match StepOf(sop, last.step)
      case Some(step) => if last.kind == Observation then Observed(step, before) else before
      case None => before
  }

  predicate FlagRight(sop: Sop, base: Positions, events: seq<Event>, k: nat)
    requires k < |events|
  {
    events[k].kind == Observation ==>
      && StepOf(sop, events[k].step).Some?
      && events[k].offModel == OffModel(StepOf(sop, events[k].step).value, Replay(sop, base, events[..k]))
  }

  predicate Replayed(sop: Sop, base: Positions, events: seq<Event>, positions: Positions) {
    && positions == Replay(sop, base, events)
    && forall k :: 0 <= k < |events| ==> FlagRight(sop, base, events, k)
  }

  lemma ReplaysOneMore(sop: Sop, base: Positions, events: seq<Event>, row: Job, next: Job, e: Event)
    requires Replayed(sop, base, events, row.positions)
    requires e.kind == Observation ==> Observes(sop, row, next, e)
    requires e.kind != Observation ==> next.positions == row.positions
    ensures Replayed(sop, base, events + [e], next.positions)
  {
    var more := events + [e];
    assert more[..|events|] == events;
    forall k | 0 <= k < |more| ensures FlagRight(sop, base, more, k) {
      if k < |events| {
        assert FlagRight(sop, base, events, k);
        assert more[..k] == events[..k];
      }
    }
  }

  /** The events of a job since an earlier state, and where it stood then: at the start of its
      definition if it was not open yet. */
  ghost predicate ReplayedSince(sop: Sop, early: Db, job: JobId, row: Job) {
    var base := if job in early.jobs then early.jobs[job].positions else InitialPositions(sop);
    var n := if job in early.jobs then |early.jobs[job].events| else 0;
    n <= |row.events| && Replayed(sop, base, row.events[n..], row.positions)
  }

  lemma RowStepReplays(sop: Sop, early: Db, job: JobId, row: Job, next: Job, issued: set<ActionId>)
    requires ReplayedSince(sop, early, job, row) && RowSteps(sop, row, next, issued)
    ensures ReplayedSince(sop, early, job, next)
  {
    if next != row {
      var e := next.events[|next.events| - 1];
      var base := if job in early.jobs then early.jobs[job].positions else InitialPositions(sop);
      var n := if job in early.jobs then |early.jobs[job].events| else 0;
      assert next.events[n..] == row.events[n..] + [e];
      ReplaysOneMore(sop, base, row.events[n..], row, next, e);
    }
  }

  /** From any state of any run, for as long as nothing is installed: stored positions are the
      replay of the observations recorded since, under the definition in force, from where the job
      stood then, and each off_model flag is the one the replay computes. */
  lemma {:induction false} PositionsAreReplayed(env: Installed, first: seq<Command>, rest: seq<Command>, job: JobId)
    requires NoInstalls(rest) && job in Run(env, first + rest).jobs
    ensures var row := Run(env, first + rest).jobs[job];
            var definition := DefinitionOf(InstalledAfter(env, first), row);
            definition.Some? && ReplayedSince(definition.value, Run(env, first), job, row)
  {
    RunIsSound(env, first + rest);
    NothingInstalled(env, first, rest);
    if rest == [] {
      assert first + rest == first;
      assert Run(env, first).jobs[job].events[|Run(env, first).jobs[job].events|..] == [];
    } else {
      var before, c := first + rest[..|rest| - 1], rest[|rest| - 1];
      assert c in rest;
      RunSplits(env, first, rest);
      NothingInstalled(env, first, rest[..|rest| - 1]);
      var at, db := InstalledAfter(env, first), Run(env, before);
      if job in db.jobs {
        PositionsAreReplayed(env, first, rest[..|rest| - 1], job);
        TransactSteps(at, db, c, job);
        RowStepReplays(DefinitionOf(at, db.jobs[job]).value, Run(env, first), job, db.jobs[job], Run(env, first + rest).jobs[job], db.issued);
      } else {
        JobsLast(env, first, rest[..|rest| - 1]);
        OpenedAtStart(at, db, c, job);
        assert Run(env, first + rest).jobs[job].events[0..] == [];
      }
    }
  }

  lemma TransactKeepsJobs(env: Installed, db: Db, c: Command)
    ensures db.jobs.Keys <= Transact(env, db, c).jobs.Keys && db.issued <= Transact(env, db, c).issued
  {
    if Fresh(db, c) {
      match c
      case Open(_, _, _, _, _, _, _) =>
      case Begin(_, _, _, _, _, _, _, _) =>
      case Reserve(_, _, _, _, _) =>
      case FinishReceipt(_, _, _, _) =>
      case Observe(_, _, _, _, _) =>
      case Reconcile(_, _, _, _, _, _) =>
      case Collect(_, _, _) =>
      case Install(_) =>
    }
  }

  lemma {:induction false} JobsLast(env: Installed, first: seq<Command>, rest: seq<Command>)
    ensures Run(env, first).jobs.Keys <= Run(env, first + rest).jobs.Keys
    ensures Run(env, first).issued <= Run(env, first + rest).issued
  {
    if rest == [] {
      assert first + rest == first;
    } else {
      var before := first + rest[..|rest| - 1];
      RunSplits(env, first, rest);
      JobsLast(env, first, rest[..|rest| - 1]);
      TransactKeepsJobs(InstalledAfter(env, before), Run(env, before), rest[|rest| - 1]);
    }
  }

  // ---- A claim pins its track -----------------------------------------------------------------

  /** Event k made this pending claim, and its track stands where the claim found it. */
  predicate Pinned(row: Job, track: TrackId, k: int)
    requires track in row.pending
  {
    MadeFor(row, track, k) && row.events[k].trail.at == PlaceOf(row.positions, track)
  }

  ghost predicate PinnedSince(early: Db, job: JobId, row: Job, track: TrackId)
    requires track in row.pending
  {
    if job in early.jobs && track in early.jobs[job].pending && early.jobs[job].pending[track].id == row.pending[track].id
    then PlaceOf(row.positions, track) == PlaceOf(early.jobs[job].positions, track)
    else exists k :: Pinned(row, track, k)
  }

  lemma ClaimsAreIssued(row: Job, issued: set<ActionId>, track: TrackId)
    requires ClaimsMade(row) && TrailsIssued(row.events, issued) && track in row.pending
    ensures row.pending[track].id in issued
  {
    var k :| MadeFor(row, track, k);
  }

  lemma RowStepPins(sop: Sop, early: Db, job: JobId, row: Job, next: Job, issued: set<ActionId>, track: TrackId)
    requires RowSteps(sop, row, next, issued) && track in next.pending
    requires track in row.pending ==> PinnedSince(early, job, row, track)
    requires job in early.jobs && track in early.jobs[job].pending ==> early.jobs[job].pending[track].id in issued
    ensures PinnedSince(early, job, next, track)
  {
    if next != row {
      var e := next.events[|next.events| - 1];
      if track in row.pending && next.pending[track] == row.pending[track] {
        assert PlaceOf(next.positions, track) == PlaceOf(row.positions, track) by {
          PlaceStays(sop, row, next, e, issued, track);
        }
        if k :| Pinned(row, track, k) {
          var claim := row.pending[track];
          MadeLasts(row.events, e, k, claim.step, claim.id, claim.state);
          assert Pinned(next, track, k);
        }
      } else {
        assert Pinned(next, track, |row.events|);
      }
    }
  }

  lemma PlaceStays(sop: Sop, row: Job, next: Job, e: Event, issued: set<ActionId>, track: TrackId)
    requires Observes(sop, row, next, e) || ChangesClaims(sop, row, next, e, issued)
    requires track in row.pending && track in next.pending
    ensures PlaceOf(next.positions, track) == PlaceOf(row.positions, track)
  {
    if Observes(sop, row, next, e) {
      assert !Moves(row.positions, next.positions, track);
      assert row.positions.Keys <= next.positions.Keys;
    }
  }

  /** From any state of any run, for as long as nothing is installed: the track of a claim that
      has been pending since then stands where it stood then, and the track of a later claim
      stands where the claim found it. */
  lemma {:induction false} ClaimPinsTrack(env: Installed, first: seq<Command>, rest: seq<Command>, job: JobId, track: TrackId)
    requires NoInstalls(rest) && job in Run(env, first + rest).jobs && track in Run(env, first + rest).jobs[job].pending
    ensures PinnedSince(Run(env, first), job, Run(env, first + rest).jobs[job], track)
  {
    RunIsSound(env, first);
    if rest == [] {
      assert first + rest == first;
    } else {
      var before, c := first + rest[..|rest| - 1], rest[|rest| - 1];
      assert c in rest;
      RunSplits(env, first, rest);
      var at, db, early := InstalledAfter(env, before), Run(env, before), Run(env, first);
      RunIsSound(env, before);
      JobsLast(env, first, rest[..|rest| - 1]);
      if job in db.jobs {
        if track in db.jobs[job].pending {
          ClaimPinsTrack(env, first, rest[..|rest| - 1], job, track);
        }
        if job in early.jobs && track in early.jobs[job].pending {
          ClaimsAreIssued(early.jobs[job], early.issued, track);
        }
        TransactSteps(at, db, c, job);
        RowStepPins(DefinitionOf(at, db.jobs[job]).value, early, job, db.jobs[job], Run(env, first + rest).jobs[job], db.issued, track);
      } else {
        OpenedAtStart(at, db, c, job);
      }
    }
  }

  // ---- What an observation leaves pending ---------------------------------------------------------

  /** Observing this step leaves the track where it stands. */
  predicate StaysOn(step: Step, track: TrackId, at: Option<PosId>) {
    NextAt(step, if at.Some? then map[track := at.value] else map[], track) == at
  }

  lemma {:induction false} TakenIsLocal(moves: seq<Move>, track: TrackId, p: Positions, q: Positions)
    requires PlaceOf(p, track) == PlaceOf(q, track)
    ensures Taken(moves, track, p) == Taken(moves, track, q)
  {
    if moves != [] {
      TakenIsLocal(moves[..|moves| - 1], track, p, q);
    }
  }

  lemma MovesUnlessStays(step: Step, positions: Positions, track: TrackId)
    ensures Moves(positions, Observed(step, positions), track) <==> !StaysOn(step, track, PlaceOf(positions, track))
  {
    var at := PlaceOf(positions, track);
    var here := if at.Some? then map[track := at.value] else map[];
    TakenIsLocal(step.moves, track, positions, here);
    TakenFits(step.moves, track, positions);
  }

  /** Observing a step leaves a pending claim, of whatever step, exactly when it leaves the
      claim's track where it is. */
  lemma ObservationFreesUnlessStays(row: Job, track: TrackId, step: Step, source: SourceId, now: Time, trail: Trail)
    requires track in row.pending
    ensures track in AfterObservation(row, step, source, now, trail).pending <==> StaysOn(step, track, PlaceOf(row.positions, track))
  {
    MovesUnlessStays(step, row.positions, track);
  }

  // ---- A claim is one job's ------------------------------------------------------------------------

  predicate AllIssued(db: Db) {
    forall job <- db.jobs :: TrailsIssued(db.jobs[job].events, db.issued)
  }

  predicate MakesAt(events: seq<Event>, k: int, id: ActionId) {
    0 <= k < |events| && events[k].trail.Makes? && events[k].trail.id == id
  }

  /** No two jobs made the same claim. */
  ghost predicate MadeApart(db: Db) {
    forall a, b, i, j, id :: a in db.jobs && b in db.jobs && MakesAt(db.jobs[a].events, i, id) && MakesAt(db.jobs[b].events, j, id) ==> a == b
  }

  /** One event more in one job; a claim that it makes was not issued before. */
  predicate OneMore(db: Db, next: Db, job: JobId, e: Event) {
    && job in db.jobs && next.jobs.Keys == db.jobs.Keys && next.jobs[job].events == db.jobs[job].events + [e]
    && (forall other <- db.jobs :: other != job ==> next.jobs[other] == db.jobs[other])
    && (e.trail.Makes? ==> e.trail.id !in db.issued)
  }

  /** Every log stands, and a job that was not there begins with none. */
  predicate SameLogs(db: Db, next: Db) {
    forall a <- next.jobs :: next.jobs[a].events == if a in db.jobs then db.jobs[a].events else []
  }

  lemma OneMoreKeepsApart(db: Db, next: Db, job: JobId, e: Event)
    requires MadeApart(db) && AllIssued(db) && OneMore(db, next, job, e)
    ensures MadeApart(next)
  {
    forall a, b, i, j, id | a in next.jobs && b in next.jobs && MakesAt(next.jobs[a].events, i, id) && MakesAt(next.jobs[b].events, j, id)
      ensures a == b
    {
      MadeBefore(db, next, job, e, a, i, id);
      MadeBefore(db, next, job, e, b, j, id);
    }
  }

  lemma SameLogsKeepApart(db: Db, next: Db)
    requires MadeApart(db) && SameLogs(db, next)
    ensures MadeApart(next)
  {
    forall a, b, i, j, id | a in next.jobs && b in next.jobs && MakesAt(next.jobs[a].events, i, id) && MakesAt(next.jobs[b].events, j, id)
      ensures a == b
    {
      assert MakesAt(db.jobs[a].events, i, id) && MakesAt(db.jobs[b].events, j, id);
    }
  }

  lemma MadeBefore(db: Db, next: Db, job: JobId, e: Event, a: JobId, i: int, id: ActionId)
    requires AllIssued(db) && OneMore(db, next, job, e) && a in next.jobs && MakesAt(next.jobs[a].events, i, id)
    ensures (a == job && i == |db.jobs[job].events| && id !in db.issued) || (MakesAt(db.jobs[a].events, i, id) && id in db.issued)
  {
    assert TrailsIssued(db.jobs[a].events, db.issued);
    assert a != job ==> next.jobs[a].events == db.jobs[a].events;
  }

  predicate AtMostOneMore(db: Db, next: Db, c: Command) {
    SameLogs(db, next)
    || (!c.Open? && !c.Collect? && !c.Install? && c.job in next.jobs && next.jobs[c.job].events != []
        && OneMore(db, next, c.job, next.jobs[c.job].events[|next.jobs[c.job].events| - 1]))
  }

  lemma BeginAddsOne(env: Installed, db: Db, c: Command)
    requires c.Begin? && Fresh(db, c)
    ensures AtMostOneMore(db, BeginAction(env, db, c).0, c)
  {
  }

  lemma ReserveAddsOne(env: Installed, db: Db, c: Command)
    requires c.Reserve? && Fresh(db, c)
    ensures AtMostOneMore(db, ReserveIntent(env, db, c).0, c)
  {
  }

  lemma ObservationAddsOne(env: Installed, db: Db, c: Command)
    requires c.Observe?
    ensures AtMostOneMore(db, RecordObservation(env, db, c).0, c)
  {
  }

  lemma ReconcilingAddsOne(db: Db, c: Command)
    requires c.Reconcile?
    ensures AtMostOneMore(db, ReconcileAbsent(db, c).0, c)
  {
  }

  lemma OpeningAddsNone(env: Installed, db: Db, c: Command)
    requires c.Open? && Fresh(db, c)
    ensures SameLogs(db, OpenJob(env, db, c).0)
  {
  }

  lemma InstallAddsNone(env: Installed, db: Db, c: Command)
    requires c.Install?
    ensures SameLogs(db, InstallSop(env, db, c).0)
  {
  }

  /** Every transaction opens a job, adds one event to one, or leaves all logs as they are. */
  lemma TransactAddsOne(env: Installed, db: Db, c: Command)
    ensures AtMostOneMore(db, Transact(env, db, c), c)
  {
    if Fresh(db, c) {
      match c
      case Open(_, _, _, _, _, _, _) => OpeningAddsNone(env, db, c);
      case Begin(_, _, _, _, _, _, _, _) => BeginAddsOne(env, db, c);
      case Reserve(_, _, _, _, _) => ReserveAddsOne(env, db, c);
      case FinishReceipt(_, _, _, _) =>
      case Observe(_, _, _, _, _) => ObservationAddsOne(env, db, c);
      case Reconcile(_, _, _, _, _, _) => ReconcilingAddsOne(db, c);
      case Collect(_, _, _) =>
      case Install(_) => InstallAddsNone(env, db, c);
    }
  }

  lemma {:induction false} RunMakesApart(env: Installed, commands: seq<Command>)
    ensures MadeApart(Run(env, commands)) && AllIssued(Run(env, commands))
  {
    RunIsSound(env, commands);
    if commands != [] {
      var before := Run(env, commands[..|commands| - 1]);
      RunMakesApart(env, commands[..|commands| - 1]);
      var c, next := commands[|commands| - 1], Run(env, commands);
      TransactAddsOne(InstalledAfter(env, commands[..|commands| - 1]), before, c);
      if SameLogs(before, next) {
        SameLogsKeepApart(before, next);
      } else {
        OneMoreKeepsApart(before, next, c.job, next.jobs[c.job].events[|next.jobs[c.job].events| - 1]);
      }
    }
  }

  lemma PendingWasMade(env: Installed, commands: seq<Command>, job: JobId, track: TrackId) returns (k: int)
    requires job in Run(env, commands).jobs && track in Run(env, commands).jobs[job].pending
    ensures MakesAt(Run(env, commands).jobs[job].events, k, Run(env, commands).jobs[job].pending[track].id)
  {
    RunIsSound(env, commands);
    var row := Run(env, commands).jobs[job];
    k :| MadeFor(row, track, k);
  }

  /** In every run a claim's id is pending in one job at most, and there under one track. */
  lemma PendingOnce(env: Installed, commands: seq<Command>, a: JobId, s: TrackId, b: JobId, t: TrackId)
    requires var jobs := Run(env, commands).jobs;
             a in jobs && b in jobs && s in jobs[a].pending && t in jobs[b].pending && jobs[a].pending[s].id == jobs[b].pending[t].id
    ensures a == b && s == t
  {
    RunMakesApart(env, commands);
    RunIsSound(env, commands);
    var i := PendingWasMade(env, commands, a, s);
    var j := PendingWasMade(env, commands, b, t);
    var row := Run(env, commands).jobs[a];
    ClaimsDiffer(row, s, t);
  }

  // ---- Reconciling what was found ready -----------------------------------------------------------

  predicate ClaimedSomewhere(db: Db, id: ActionId) {
    exists job <- db.jobs :: HasClaim(db.jobs[job].pending, id)
  }

  /** In every run, reconciling a claim as absent comes out as asking whether it was ready did,
      when the read of the client's system is supplied and its source was not used before for
      this; and once it is done the action id is claimed nowhere in the database. */
  lemma ReadyMeansReconcilable(env: Installed, commands: seq<Command>, c: Command)
    requires c.Reconcile? && c.evidence.Some?
    requires var db := Run(env, commands);
             c.job in db.jobs ==> !Recorded(db.jobs[c.job].events, c.step, ReconciledAbsent, c.source)
    ensures var db := Run(env, commands);
            && ReconcileAbsent(db, c).1 == ReconcileReady(db, c.job, c.step, c.id, c.ownerLives)
            && (ReconcileAbsent(db, c).1 == Done ==> ClaimedSomewhere(db, c.id) && !ClaimedSomewhere(Run(env, commands + [c]), c.id))
  {
    var db := Run(env, commands);
    assert (commands + [c])[..|commands|] == commands;
    if ReconcileAbsent(db, c).1 == Done {
      var track := ClaimTrack(db.jobs[c.job].pending, c.id);
      var next := Run(env, commands + [c]);
      forall job, t | job in next.jobs && t in next.jobs[job].pending ensures next.jobs[job].pending[t].id != c.id {
        assert next.jobs[job].pending[t] == db.jobs[job].pending[t];
        if db.jobs[job].pending[t].id == c.id {
          PendingOnce(env, commands, job, t, c.job, track);
        }
      }
    }
  }

  // ---- Retries -----------------------------------------------------------------------------------

  /** After an observation has been recorded for a claim, finishing that claim again with the same
      source, however often and however late, changes nothing. The receipt is not refused; the
      observation is found again if and only if its step is still active in the definition that is
      installed by then, and is refused otherwise: the step is looked up first. */
  lemma RetryIsDoneIffActive(env: Installed, commands: seq<Command>, job: JobId, k: int, verified: bool, now: Time)
    requires var db := Run(env, commands);
             job in db.jobs && 0 <= k < |db.jobs[job].events| && db.jobs[job].events[k].trail.Rests?
    ensures var at, db := InstalledAfter(env, commands), Run(env, commands);
            var e := db.jobs[job].events[k];
            var finish, again := FinishReceipt(job, e.step, e.source, e.trail.id), Observe(job, e.step, e.source, verified, now);
            && WriteReceipt(db, finish).0 == db && !WriteReceipt(db, finish).1.Refused?
            && DefinitionOf(at, db.jobs[job]).Some?
            && RecordObservation(at, db, again)
               == (db, if StepOf(DefinitionOf(at, db.jobs[job]).value, e.step).Some? then AlreadyDone else Refused(SopStepInvalid))
  {
    RunIsSound(env, commands);
    var db := Run(env, commands);
    var row := db.jobs[job];
    var e := row.events[k];
    assert Rested(job, row, db.receipts, k);
    assert SameEvent(row.events[k], e.step, Observation, e.source);
    if HasClaim(row.pending, e.trail.id) {
      RestedClaimIsItsOwn(job, row, db.receipts, k, ClaimTrack(row.pending, e.trail.id));
    }
  }

  lemma RestedClaimIsItsOwn(job: JobId, row: Job, receipts: map<ActionId, Receipt>, k: int, track: TrackId)
    requires ClaimsMade(row) && MadeOnce(row.events) && AllRested(job, row, receipts)
    requires 0 <= k < |row.events| && row.events[k].trail.Rests?
    requires track in row.pending && row.pending[track].id == row.events[k].trail.id
    ensures row.pending[track].step == row.events[k].step && row.pending[track].state == Claimed
  {
    assert Rested(job, row, receipts, k);
    var m :| m < k && Made(row.events, m, row.events[k].step, row.events[k].trail.id, Claimed);
    var p :| MadeFor(row, track, p);
    assert p == m;
  }
}
