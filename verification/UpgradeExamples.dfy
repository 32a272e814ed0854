/** Runs in which an accepted upgrade breaks a promise that its two definitions keep as long as
    nothing is installed. */
module UpgradeExamples {
  import opened Prelude
  import opened Sop
  import opened SopValidation
  import opened SopForward
  import opened JobEngine
  import opened JobRuns
  import opened JobTheorems
  import opened JobFitting
  import opened JobExclusive
  import opened SopExamples

  // ---- A step that moves to another track -----------------------------------------------------------

  function Pair(id: TrackId, from: PosId, to: PosId): Track {
    Track(id, "x", from, [PositionOf(from, None), PositionOf(to, None)])
  }

  const ONE_TRACK := Pair("a", "x", "y")
  const OTHER_TRACK := Pair("b", "z", "w")

  function Moving(track: TrackId, from: PosId, to: PosId): Step {
    Step("s", IntentStep, "x", AGENT_ACTION, [Move(track, [from], to)], [], Some(Named("x")), false)
  }

  const MOVES_ONE := Moving("a", "x", "y")
  const MOVES_OTHER := Moving("b", "z", "w")
  const BEFORE := Definition("1", [ONE_TRACK, OTHER_TRACK], [MOVES_ONE])
  const AFTER := Definition("2", [ONE_TRACK, OTHER_TRACK], [MOVES_OTHER])

  lemma PairIsGood(id: TrackId, from: PosId, to: PosId)
    requires IsName(id) && IsName(from) && IsName(to) && from != to
    ensures GoodTrack(Pair(id, from, to)) && Ids(Pair(id, from, to).positions) == {from, to}
  {
    TextIsText();
    var p, q := PositionOf(from, None), PositionOf(to, None);
    assert p in [p, q] && q in [p, q] && GoodPosition(p) && GoodPosition(q);
    assert [p, q][0] == p && [p, q][1] == q;
  }

  lemma TracksAreDeclared()
    ensures GoodTracks([ONE_TRACK, OTHER_TRACK]) && DeclaredBy([ONE_TRACK, OTHER_TRACK]) == map["a" := {"x", "y"}, "b" := {"z", "w"}]
  {
    PairIsGood("a", "x", "y");
    PairIsGood("b", "z", "w");
    assert [ONE_TRACK, OTHER_TRACK][..1] == [ONE_TRACK] && [ONE_TRACK][..0] == [];
    assert DeclaredBy([ONE_TRACK]) == map["a" := {"x", "y"}];
  }

  lemma MovingIsGood(track: TrackId, from: PosId, to: PosId, declared: Declared)
    requires IsName(track) && track in declared && {from, to} <= declared[track]
    ensures GoodStep(Moving(track, from, to), {AGENT_ACTION}, declared)
  {
    TextIsText();
    assert !IsSpace(track[0]);
    assert GoodMove(Move(track, [from], to), declared);
  }

  lemma MovingIsAccepted(version: string, step: Step)
    requires HasText(version) && step.id == "s" && GoodStep(step, {AGENT_ACTION}, DeclaredBy([ONE_TRACK, OTHER_TRACK]))
    ensures Accepted(Definition(version, [ONE_TRACK, OTHER_TRACK], [step]), FILE)
  {
    TracksAreDeclared();
  }

  lemma BothVersionsAreAccepted()
    ensures Accepted(BEFORE, FILE) && Accepted(AFTER, FILE)
  {
    TextIsText();
    TracksAreDeclared();
    MovingIsGood("a", "x", "y", DeclaredBy([ONE_TRACK, OTHER_TRACK]));
    MovingIsGood("b", "z", "w", DeclaredBy([ONE_TRACK, OTHER_TRACK]));
    MovingIsAccepted("1", MOVES_ONE);
    MovingIsAccepted("2", MOVES_OTHER);
  }

  lemma {:induction false} KeptOwesNothing(was: Track, positions: seq<Position>, next: Sop)
    requires TrackWithId(next.tracks, was.id) == Some(was) && forall p <- positions :: p in was.positions
    ensures OwedIn(was, positions, next) == []
  {
    if positions != [] {
      assert positions[|positions| - 1] in positions;
      KeptOwesNothing(was, positions[..|positions| - 1], next);
    }
  }

  lemma {:induction false} KeptOweNothing(tracks: seq<Track>, next: Sop)
    requires forall t <- tracks :: TrackWithId(next.tracks, t.id) == Some(t)
    ensures OwedOf(tracks, next) == []
  {
    if tracks != [] {
      var last := tracks[|tracks| - 1];
      assert last in tracks;
      KeptOweNothing(tracks[..|tracks| - 1], next);
      KeptOwesNothing(last, last.positions, next);
    }
  }

  /** An upgrade that keeps every track as it was, and every step that was retired, is accepted and
      renames nothing. */
  lemma SameTracksFollow(previous: Sop, next: Sop)
    requires next.tracks == previous.tracks && DistinctTracks(next.tracks)
    requires forall s <- previous.events :: CarriesStep(s, next)
    ensures Forward(previous, next) && OwedRenames(previous, next) == []
  {
    forall t | t in previous.tracks ensures TrackWithId(next.tracks, t.id) == Some(t) {
      var found := TrackWithId(next.tracks, t.id).value;
      assert found in next.tracks && found.id == t.id;
    }
    KeptOweNothing(previous.tracks, next);
  }

  lemma StepsAreThere()
    ensures StepOf(BEFORE, "s") == Some(MOVES_ONE) && StepOf(AFTER, "s") == Some(MOVES_OTHER)
    ensures Departs(MOVES_ONE) && Departs(MOVES_OTHER)
    ensures StepWithId(AFTER.events, "s") == Some(MOVES_OTHER)
  {
    assert [MOVES_ONE][0] == MOVES_ONE && [MOVES_OTHER][0] == MOVES_OTHER;
  }

  const INSTALLED := Installed(map[(FILE, "1") := BEFORE], map[FILE := "1"])
  const UPGRADE := Install(AFTER)
  const TAKING := Begin("j", "s", "s", "x", Owner(1, "x"), true, "i", 0)

  lemma UpgradeIsAccepted()
    ensures Installs(INSTALLED, AFTER) && RenamesFor(INSTALLED, AFTER) == []
  {
    BothVersionsAreAccepted();
    StepsAreThere();
    assert MOVES_ONE in BEFORE.events;
    forall s | s in BEFORE.events ensures CarriesStep(s, AFTER) {
      assert s == MOVES_ONE;
    }
    SameTracksFollow(BEFORE, AFTER);
  }

  const PLACES := map["a" := "x", "b" := "z"]
  const TAKEN := Claim("s", "i", "s", Claimed, 0, Some(Owner(1, "x")))
  const TAKING_EVENT := Event("s", Intent, "s", false, None, Makes("i", Claimed, "a", Some("x")))
  const OPENED_ROW := Job(FILE, "1", "x", [], PLACES, map["a" := 0, "b" := 0], map[], [])
  const TAKEN_ROW := OPENED_ROW.(pending := map["a" := TAKEN], events := [TAKING_EVENT])

  lemma JobStands()
    ensures Run(INSTALLED, [OPENING]).jobs == map["j" := OPENED_ROW] && Run(INSTALLED, [OPENING]).issued == {}
  {
    JobIsOpened(INSTALLED, BEFORE);
    assert [ONE_TRACK, OTHER_TRACK][..1] == [ONE_TRACK];
    InitialOfOne(ONE_TRACK);
    assert InitialPositions(BEFORE) == PLACES;
    assert (map t | t in PLACES :: 0) == map["a" := 0, "b" := 0];
  }

  lemma TakingIs(db: Db)
    requires db.jobs == map["j" := OPENED_ROW] && db.issued == {}
    ensures Transact(INSTALLED, db, TAKING) == db.(jobs := map["j" := TAKEN_ROW], issued := {"i"})
  {
    TextIsText();
    StepsAreThere();
    assert Locate(INSTALLED, db, "j", "s") == Found(OPENED_ROW, MOVES_ONE);
    assert Move("a", ["x"], "y") in MOVES_ONE.moves && Fits(Move("a", ["x"], "y"), PLACES);
    assert map[]["a" := TAKEN] == map["a" := TAKEN] && [] + [TAKING_EVENT] == [TAKING_EVENT];
    assert WithClaim(db, "j", OPENED_ROW, MOVES_ONE, TAKEN).jobs == map["j" := TAKEN_ROW];
  }

  const RUN := [OPENING, TAKING]

  lemma StepIsTaken()
    ensures Run(INSTALLED, RUN).jobs == map["j" := TAKEN_ROW] && Run(INSTALLED, RUN).receipts == map[] && Run(INSTALLED, RUN).issued == {"i"}
    ensures InstalledAfter(INSTALLED, RUN) == INSTALLED
  {
    JobStands();
    RunExtends(INSTALLED, [OPENING], TAKING);
    assert [OPENING] + [TAKING] == RUN;
    OpeningWritesNothingElse();
    TakingIs(Run(INSTALLED, [OPENING]));
  }

  lemma OpeningWritesNothingElse()
    ensures Run(INSTALLED, [OPENING]).receipts == map[] && InstalledAfter(INSTALLED, [OPENING]) == INSTALLED
  {
    assert [OPENING][..0] == [];
  }

  const UPGRADED := Installed(map[(FILE, "1") := BEFORE, (FILE, "2") := AFTER], map[FILE := "2"])
  const CARRIED_ROW := TAKEN_ROW.(version := "2")

  /** An installation that renames nothing, on one job. */
  lemma InstallCarriesOne(env: Installed, db: Db, c: Command, row: Job)
    requires c.Install? && Installs(env, c.definition) && RenamesFor(env, c.definition) == []
    requires db.jobs == map["j" := row] && row.sop == c.definition.sop
    ensures Transact(env, db, c) == db.(jobs := map["j" := row.(version := c.definition.version)])
  {
    assert RenameAll(row.positions, []) == row.positions && RenameSinceAll(row.since, []) == row.since;
    assert InstallSop(env, db, c).0.jobs == map["j" := row.(version := c.definition.version)];
  }

  lemma JobIsCarried()
    ensures var db := Run(INSTALLED, RUN + [UPGRADE]);
            && db.jobs == map["j" := CARRIED_ROW] && db.receipts == map[] && db.issued == {"i"}
            && InstalledAfter(INSTALLED, RUN + [UPGRADE]) == UPGRADED
  {
    StepIsTaken();
    UpgradeIsAccepted();
    RunExtends(INSTALLED, RUN, UPGRADE);
    InstallCarriesOne(INSTALLED, Run(INSTALLED, RUN), UPGRADE, TAKEN_ROW);
  }

  lemma TakenStays()
    ensures StaysOn(MOVES_OTHER, "a", Some("x"))
  {
    assert Taken(MOVES_OTHER.moves[..0], "a", map["a" := "x"]) == None;
    assert Taken(MOVES_OTHER.moves, "a", map["a" := "x"]) == None;
  }

  lemma CarriedIsBehind(db: Db)
    requires db.jobs == map["j" := CARRIED_ROW] && db.receipts == map[]
    ensures StaysBehind(UPGRADED, db, "j", "a")
  {
    StepsAreThere();
    TakenStays();
    PrecedesIsAnOrder("a", "a");
    assert IsFirstOf(CARRIED_ROW.pending, "s", "a");
  }

  /** Version 2 moves the step to another track. Both versions are accepted, the upgrade is, every
      intent of both departs from every place it starts at; and a claim that version 1 began comes
      to be both observed and reconciled absent under version 2. */
  lemma UpgradeGoesBothWays() returns (rest: seq<Command>)
    ensures Accepted(BEFORE, FILE) && Accepted(AFTER, FILE) && Departs(MOVES_ONE) && Departs(MOVES_OTHER)
    ensures InstalledAfter(INSTALLED, RUN) == INSTALLED && Installs(INSTALLED, AFTER) && RenamesFor(INSTALLED, AFTER) == []
    ensures NoInstalls(rest) && GoneBothWays(Run(INSTALLED, RUN + [UPGRADE] + rest), "j", "i")
  {
    BothVersionsAreAccepted();
    StepsAreThere();
    UpgradeIsAccepted();
    StepIsTaken();
    JobIsCarried();
    CarriedIsBehind(Run(INSTALLED, RUN + [UPGRADE]));
    rest := StaysBehindGoesBothWays(INSTALLED, RUN + [UPGRADE], "j", "a");
  }

  const AGAIN := Begin("j", "s", "t", "x", Owner(1, "x"), true, "k", 0)
  const SECOND := Claim("s", "k", "t", Claimed, 0, Some(Owner(1, "x")))

  lemma AgainIs(db: Db)
    requires db.jobs == map["j" := CARRIED_ROW] && db.issued == {"i"}
    ensures var jobs := Transact(UPGRADED, db, AGAIN).jobs;
            jobs.Keys == {"j"} && jobs["j"].pending == map["a" := TAKEN, "b" := SECOND]
  {
    TextIsText();
    StepsAreThere();
    assert Locate(UPGRADED, db, "j", "s") == Found(CARRIED_ROW, MOVES_OTHER);
    assert Move("b", ["z"], "w") in MOVES_OTHER.moves && Fits(Move("b", ["z"], "w"), PLACES);
    assert !SameEvent(TAKING_EVENT, "s", Intent, "t");
    assert BeginAction(UPGRADED, db, AGAIN).0 == WithClaim(db, "j", CARRIED_ROW, MOVES_OTHER, SECOND);
    assert map["a" := TAKEN]["b" := SECOND] == map["a" := TAKEN, "b" := SECOND];
  }

  lemma CarriedDoesNotFit()
    ensures CarriedTo(TAKEN_ROW, AFTER, []) == CARRIED_ROW && !ClaimFits(AFTER, CARRIED_ROW, "a")
  {
    StepsAreThere();
    assert RenameAll(PLACES, []) == PLACES && RenameSinceAll(TAKEN_ROW.since, []) == TAKEN_ROW.since;
  }

  lemma UpgradeIsNotGentle(db: Db)
    requires db.jobs == map["j" := TAKEN_ROW]
    ensures !LeavesFitting(INSTALLED, db, UPGRADE)
  {
    UpgradeIsAccepted();
    CarriedDoesNotFit();
    assert "j" in db.jobs && "a" in CARRIED_ROW.pending;
  }

  /** Nor does that claim fit version 2, under which the same step can be claimed a second time
      beside it. */
  lemma UpgradeAllowsSecondClaim()
    ensures !LeavesFitting(INSTALLED, Run(INSTALLED, RUN), UPGRADE)
    ensures var jobs := Run(INSTALLED, RUN + [UPGRADE] + [AGAIN]).jobs;
            jobs.Keys == {"j"} && jobs["j"].pending == map["a" := TAKEN, "b" := SECOND] && TAKEN.step == SECOND.step
  {
    StepIsTaken();
    UpgradeIsNotGentle(Run(INSTALLED, RUN));
    SecondIsPending();
  }

  lemma SecondIsPending()
    ensures var jobs := Run(INSTALLED, RUN + [UPGRADE] + [AGAIN]).jobs;
            jobs.Keys == {"j"} && jobs["j"].pending == map["a" := TAKEN, "b" := SECOND]
  {
    JobIsCarried();
    RunExtends(INSTALLED, RUN + [UPGRADE], AGAIN);
    AgainIs(Run(INSTALLED, RUN + [UPGRADE]));
  }

  // ---- A step that is retired ---------------------------------------------------------------------------

  const RETIRED_STEP := REMIND.(retired := true)
  const RETIRING := Definition("2", REMINDING.tracks, [RETIRED_STEP])
  const RETIRED := Installed(map[(FILE, "1") := REMINDING, (FILE, "2") := RETIRING], map[FILE := "2"])

  lemma RetiringIsAccepted()
    ensures Accepted(RETIRING, FILE) && Installs(REMINDED, RETIRING) && RenamesFor(REMINDED, RETIRING) == []
    ensures StepOf(RETIRING, "r") == None && NowInstalled(REMINDED, RETIRING) == RETIRED
  {
    TextIsText();
    RemindingIsAccepted();
    assert REMIND in REMINDING.events && GoodStep(REMIND, {AGENT_ACTION}, DeclaredBy(REMINDING.tracks));
    assert GoodStep(RETIRED_STEP, {AGENT_ACTION}, DeclaredBy(REMINDING.tracks));
    assert [RETIRED_STEP][0] == RETIRED_STEP && StepWithId(RETIRING.events, "r") == Some(RETIRED_STEP);
    SameTracksFollow(REMINDING, RETIRING);
  }

  const RETIREMENT := Install(RETIRING)

  predicate OnlyVersionDiffers(was: Db, db: Db) {
    was.jobs.Keys == {"j"} && was.jobs["j"].sop == FILE && db == was.(jobs := map["j" := was.jobs["j"].(version := "2")])
  }

  lemma RetirementCarries(db: Db)
    requires db.jobs.Keys == {"j"} && db.jobs["j"].sop == FILE
    ensures OnlyVersionDiffers(db, Transact(REMINDED, db, RETIREMENT))
  {
    RetiringIsAccepted();
    assert db.jobs == map["j" := db.jobs["j"]];
    InstallCarriesOne(REMINDED, db, RETIREMENT, db.jobs["j"]);
  }

  lemma FinishedJob(source: SourceId)
    ensures var db := Run(REMINDED, FinishingRun(source)); db.jobs.Keys == {"j"} && db.jobs["j"].sop == FILE
  {
    ReminderIsFinished(source);
  }

  lemma NotRetiredYet(source: SourceId)
    ensures InstalledAfter(REMINDED, FinishingRun(source)) == REMINDED
  {
    NothingInstalled(REMINDED, [], FinishingRun(source));
    assert [] + FinishingRun(source) == FinishingRun(source);
  }

  lemma RetiringIsInstalled(source: SourceId)
    ensures OnlyVersionDiffers(Run(REMINDED, FinishingRun(source)), Run(REMINDED, FinishingRun(source) + [RETIREMENT]))
    ensures InstalledAfter(REMINDED, FinishingRun(source) + [RETIREMENT]) == RETIRED
  {
    var commands := FinishingRun(source);
    RetiringIsAccepted();
    NotRetiredYet(source);
    RunExtends(REMINDED, commands, RETIREMENT);
    FinishedJob(source);
    RetirementCarries(Run(REMINDED, commands));
  }

  /** The receipt and the observation of a claim are recorded, an accepted upgrade retires the step,
      and the same completion, made again, is refused. */
  lemma RetiredRetryIsRefused(source: SourceId)
    ensures Accepted(REMINDING, FILE) && Accepted(RETIRING, FILE) && Forward(REMINDING, RETIRING)
    ensures var commands := FinishingRun(source) + [RETIREMENT];
            var at, db := InstalledAfter(REMINDED, commands), Run(REMINDED, commands);
            && "j" in db.jobs && (exists k :: 0 <= k < |db.jobs["j"].events| && db.jobs["j"].events[k].trail == Rests("i"))
            && WriteReceipt(db, FinishReceipt("j", "r", source, "i")).0 == db
            && !WriteReceipt(db, FinishReceipt("j", "r", source, "i")).1.Refused?
            && RecordObservation(at, db, Observe("j", "r", source, false, 0)) == (db, Refused(SopStepInvalid))
  {
    RemindingIsAccepted();
    RetiringIsAccepted();
    RetiringIsInstalled(source);
    ReminderIsFinished(source);
    var commands := FinishingRun(source) + [RETIREMENT];
    var events := Run(REMINDED, commands).jobs["j"].events;
    var k :| 0 <= k < |events| && events[k].trail == Rests("i") && events[k].step == "r" && events[k].source == source;
    RetryIsDoneIffActive(REMINDED, commands, "j", k, false, 0);
  }
}
