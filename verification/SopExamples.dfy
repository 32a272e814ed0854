/** Accepted definitions at which a promise of the job engine or of an upgrade fails. */
module SopExamples {
  import opened Prelude
  import opened Sop
  import opened SopValidation
  import opened JobEngine
  import opened JobRuns
  import opened JobTheorems
  import opened JobExclusive
  import opened SopForward
  import opened SopSince

  const FILE := "sop"

  function PositionOf(id: PosId, renamedFrom: Option<PosId>): Position {
    Position(id, "x", "x", "x", "x", false, false, None, renamedFrom)
  }

  function TrackOf(id: TrackId, position: Position): Track {
    Track(id, "x", position.id, [position])
  }

  function Definition(version: string, tracks: seq<Track>, events: seq<Step>): Sop {
    Sop(FILE, version, tracks, events, {AGENT_ACTION})
  }

  predicate IsName(id: string) {
    |id| == 1 && 'a' <= id[0] <= 'z'
  }

  lemma TextIsText()
    ensures HasText("x") && HasText("1") && HasText("2") && HasText(AGENT_ACTION)
  {
    assert !IsSpace("x"[0]) && !IsSpace("1"[0]) && !IsSpace("2"[0]) && !IsSpace(AGENT_ACTION[0]);
  }

  lemma TrackIsGood(id: TrackId, position: PosId, renamedFrom: Option<PosId>)
    requires IsName(id) && IsName(position) && (renamedFrom.Some? ==> IsName(renamedFrom.value))
    ensures GoodTrack(TrackOf(id, PositionOf(position, renamedFrom)))
  {
    TextIsText();
    var p := PositionOf(position, renamedFrom);
    assert p in [p] && GoodPosition(p);
  }

  lemma OneTrackIsAccepted(version: string, track: Track)
    requires HasText(version) && GoodTrack(track) && |track.positions| == 1 && track.positions[0].onDeadline.None?
    ensures Accepted(Definition(version, [track], []), FILE)
  {
    TextIsText();
  }

  lemma TwoTracksAreAccepted(version: string, one: Track, two: Track)
    requires HasText(version) && GoodTrack(one) && GoodTrack(two) && one.id != two.id
    requires |one.positions| == 1 && one.positions[0].onDeadline.None? && |two.positions| == 1 && two.positions[0].onDeadline.None?
    ensures Accepted(Definition(version, [one, two], []), FILE)
  {
    TextIsText();
  }

  // ---- A step that stays ---------------------------------------------------------------------------------

  const REMIND := Step("r", IntentStep, "x", AGENT_ACTION, [Move("t", ["w"], "w")], [], Some(Named("x")), false)
  const REMINDING := Definition("1", [TrackOf("t", PositionOf("w", None))], [REMIND])
  const REMINDED := Installed(map[(FILE, "1") := REMINDING], map[FILE := "1"])
  const OPENING := Open("j", FILE, "x", [], "c", Some(TurnContext({"c"}, "x")), 0)
  const REMINDER := Begin("j", "r", "s", "x", Owner(1, "x"), true, "i", 0)

  lemma RemindingIsAccepted()
    ensures Accepted(REMINDING, FILE)
  {
    TextIsText();
    TrackIsGood("t", "w", None);
    var track := TrackOf("t", PositionOf("w", None));
    assert [track][..0] == [];
    assert DeclaredBy([track]) == map["t" := {"w"}] by {
      assert Ids([PositionOf("w", None)]) == {"w"};
    }
    assert !IsSpace("t"[0]);
    assert HasText("t");
    assert GoodMove(Move("t", ["w"], "w"), DeclaredBy([track]));
    assert GoodStep(REMIND, {AGENT_ACTION}, DeclaredBy([track]));
  }

  lemma JobIsOpened(env: Installed, sop: Sop)
    requires env.definitions == map[(FILE, "1") := sop] && env.latest == map[FILE := "1"]
    ensures var positions := InitialPositions(sop);
            Run(env, [OPENING]).jobs == map["j" := Job(FILE, "1", "x", [], positions, map t | t in positions :: 0, map[], [])]
            && Run(env, [OPENING]).issued == {}
  {
    TextIsText();
    assert [OPENING][..0] == [];
    assert Run(env, []) == EmptyDb;
  }

  /** A definition with a step that stays can be accepted, such a step can be begun, and its claim
      then goes both ways in some run, with nothing installed. */
  lemma StayingStepIsAccepted()
    ensures Accepted(REMINDING, FILE) && BeginsStaying(REMINDED, Run(REMINDED, [OPENING]), REMINDER)
    ensures exists commands :: NoInstalls(commands) && BothWays(REMINDED, commands)
  {
    RemindingIsAccepted();
    JobIsOpened(REMINDED, REMINDING);
    RemindingStays();
    ReminderIsBegun();
    NothingInstalled(REMINDED, [], [OPENING, REMINDER]);
    assert [] + [OPENING, REMINDER] == [OPENING, REMINDER];
    ReminderIsBehind(Run(REMINDED, [OPENING, REMINDER]));
    BehindHasBothWays(REMINDED, [OPENING, REMINDER], "j", "t");
  }

  lemma ReminderIsBehind(db: Db)
    requires db.jobs == map["j" := REMINDER_ROW] && db.receipts == map[]
    ensures StaysBehind(REMINDED, db, "j", "t")
  {
    assert [REMIND][0] == REMIND && StepOf(REMINDING, "r") == Some(REMIND);
    PrecedesIsAnOrder("t", "t");
    assert IsFirstOf(REMINDER_ROW.pending, "r", "t");
    RemindingLeaves();
  }

  lemma RemindingLeaves()
    ensures StaysOn(REMIND, "t", Some("w"))
  {
    var move := Move("t", ["w"], "w");
    assert REMIND.moves[0] == move && REMIND.moves[..0] == [];
    assert Fits(move, map["t" := "w"]);
    assert Taken(REMIND.moves, "t", map["t" := "w"]) == Some("w");
  }

  lemma RemindingStays()
    requires var jobs := Run(REMINDED, [OPENING]).jobs;
             jobs == map["j" := Job(FILE, "1", "x", [], InitialPositions(REMINDING), map t | t in InitialPositions(REMINDING) :: 0, map[], [])]
             && Run(REMINDED, [OPENING]).issued == {}
    ensures BeginsStaying(REMINDED, Run(REMINDED, [OPENING]), REMINDER)
  {
    TextIsText();
    var track := TrackOf("t", PositionOf("w", None));
    assert [track][..0] == [];
    assert InitialPositions(REMINDING) == map["t" := "w"];
    assert [REMIND][0] == REMIND;
    assert StepOf(REMINDING, "r") == Some(REMIND);
    var db := Run(REMINDED, [OPENING]);
    assert Locate(REMINDED, db, "j", "r") == Found(db.jobs["j"], REMIND);
    assert Move("t", ["w"], "w") in REMIND.moves && Fits(Move("t", ["w"], "w"), map["t" := "w"]);
  }

  const BEGUN := Claim("r", "i", "s", Claimed, 0, Some(Owner(1, "x")))
  const BEGINNING := Event("r", Intent, "s", false, None, Makes("i", Claimed, "t", Some("w")))
  const REMINDER_ROW := Job(FILE, "1", "x", [], map["t" := "w"], map["t" := 0], map["t" := BEGUN], [BEGINNING])

  lemma BeginningIs(db: Db)
    requires db.jobs == map["j" := REMINDER_ROW.(pending := map[], events := [])] && db.issued == {}
    ensures BeginAction(REMINDED, db, REMINDER).0 == db.(jobs := map["j" := REMINDER_ROW], issued := {"i"})
  {
    TextIsText();
    assert [REMIND][0] == REMIND && StepOf(REMINDING, "r") == Some(REMIND);
    assert Locate(REMINDED, db, "j", "r") == Found(db.jobs["j"], REMIND);
    assert Move("t", ["w"], "w") in REMIND.moves && Fits(Move("t", ["w"], "w"), map["t" := "w"]);
    assert map[]["t" := BEGUN] == map["t" := BEGUN] && [] + [BEGINNING] == [BEGINNING];
    assert WithClaim(db, "j", db.jobs["j"], REMIND, BEGUN).jobs == map["j" := REMINDER_ROW];
  }

  lemma ReminderIsBegun()
    ensures var db := Run(REMINDED, [OPENING, REMINDER]);
            db.jobs == map["j" := REMINDER_ROW] && db.receipts == map[] && db.issued == {"i"}
  {
    JobIsOpened(REMINDED, REMINDING);
    InitialOfOne(TrackOf("t", PositionOf("w", None)));
    RunExtends(REMINDED, [OPENING], REMINDER);
    assert [OPENING] + [REMINDER] == [OPENING, REMINDER];
    var db := Run(REMINDED, [OPENING]);
    assert InitialPositions(REMINDING) == map["t" := "w"];
    assert (map t | t in map["t" := "w"] :: 0) == map["t" := 0];
    assert db.jobs == map["j" := REMINDER_ROW.(pending := map[], events := [])];
    BeginningIs(db);
    NoReceiptAtOpening();
  }

  lemma NoReceiptAtOpening()
    ensures Run(REMINDED, [OPENING]).receipts == map[]
  {
    assert [OPENING][..0] == [];
  }

  lemma ReminderHasReceipt(db: Db, source: SourceId)
    requires db.jobs == map["j" := REMINDER_ROW] && db.receipts == map[]
    ensures WriteReceipt(db, FinishReceipt("j", "r", source, "i"))
            == (db.(receipts := map["i" := Receipt("j", FILE, "r", source)]), Done)
  {
    assert REMINDER_ROW.pending["t"].id == "i" && HasClaim(REMINDER_ROW.pending, "i");
  }

  lemma ReminderIsObserved(db: Db, source: SourceId)
    requires db.jobs == map["j" := REMINDER_ROW] && db.receipts == map["i" := Receipt("j", FILE, "r", source)]
    ensures RecordObservation(REMINDED, db, Observe("j", "r", source, false, 0))
            == (db.(jobs := db.jobs["j" := AfterObservation(REMINDER_ROW, REMIND, source, 0, Rests("i"))]), Done)
  {
    assert REMINDER_ROW.pending["t"].step == "r" && HasClaimOf(REMINDER_ROW.pending, "r");
    assert [REMIND][0] == REMIND && StepOf(REMINDING, "r") == Some(REMIND);
    assert !SameEvent(BEGINNING, "r", Observation, source);
  }

  predicate OneRests(events: seq<Event>, source: SourceId) {
    exists k :: 0 <= k < |events| && events[k].trail == Rests("i") && SameEvent(events[k], "r", Observation, source)
  }

  /** The action is begun, and recorded as done under this source. */
  function FinishingRun(source: SourceId): seq<Command> {
    [OPENING, REMINDER, FinishReceipt("j", "r", source, "i"), Observe("j", "r", source, false, 0)]
  }

  /** The reminder that was begun can be finished: both calls succeed, and its job then holds one
      observation, from the source given. */
  lemma ReminderIsFinished(source: SourceId)
    ensures var receipt := FinishReceipt("j", "r", source, "i");
            var observe := Observe("j", "r", source, false, 0);
            var begun := Run(REMINDED, [OPENING, REMINDER]);
            var proved := Run(REMINDED, [OPENING, REMINDER, receipt]);
            var done := Run(REMINDED, FinishingRun(source));
            && WriteReceipt(begun, receipt) == (proved, Done) && RecordObservation(REMINDED, proved, observe) == (done, Done)
            && done.jobs.Keys == {"j"} && done.jobs["j"].sop == FILE && OneRests(done.jobs["j"].events, source)
            && (forall other :: Recorded(done.jobs["j"].events, "r", Observation, other) ==> other == source)
  {
    var receipt := FinishReceipt("j", "r", source, "i");
    var observe := Observe("j", "r", source, false, 0);
    ReminderIsBegun();
    var begun := Run(REMINDED, [OPENING, REMINDER]);
    ReminderHasReceipt(begun, source);
    RunExtends(REMINDED, [OPENING, REMINDER], receipt);
    assert [OPENING, REMINDER] + [receipt] == [OPENING, REMINDER, receipt];
    var proved := Run(REMINDED, [OPENING, REMINDER, receipt]);
    ReminderIsObserved(proved, source);
    RunExtends(REMINDED, [OPENING, REMINDER, receipt], observe);
    assert [OPENING, REMINDER, receipt] + [observe] == FinishingRun(source);
    var events := AfterObservation(REMINDER_ROW, REMIND, source, 0, Rests("i")).events;
    assert forall e <- events :: e == BEGINNING || e == events[1];
    assert events[1].trail == Rests("i") && SameEvent(events[1], "r", Observation, source);
  }

  // ---- An upgrade that adds a track -------------------------------------------------------------------------

  lemma OneTrackWithId(track: Track)
    ensures TrackWithId([track], track.id) == Some(track)
  {
  }

  lemma TwoTracksWithId(one: Track, two: Track)
    requires one.id != two.id
    ensures TrackWithId([one, two], one.id) == Some(one) && TrackWithId([one, two], two.id) == Some(two)
  {
    assert [one, two][..1] == [one];
    OneTrackWithId(one);
  }

  lemma InitialOfOne(track: Track)
    ensures InitialOf([track]) == map[track.id := track.initial]
  {
    assert [track][..0] == [];
  }

  function Installing(sop: Sop): Installed {
    Installed(map[(FILE, "1") := sop], map[FILE := "1"])
  }

  const SHORT := Definition("1", [TrackOf("t", PositionOf("p", None))], [])
  const LONGER := Definition("2", [TrackOf("t", PositionOf("p", None)), TrackOf("u", PositionOf("p", None))], [])

  lemma BothAreAccepted()
    ensures Accepted(SHORT, FILE) && Accepted(LONGER, FILE)
  {
    TextIsText();
    TrackIsGood("t", "p", None);
    TrackIsGood("u", "p", None);
    OneTrackIsAccepted("1", TrackOf("t", PositionOf("p", None)));
    TwoTracksAreAccepted("2", TrackOf("t", PositionOf("p", None)), TrackOf("u", PositionOf("p", None)));
  }

  /** An upgrade that keeps every track as it was renames nothing. */
  lemma KeptTracks(previous: Sop, next: Sop)
    requires previous.events == [] && forall t <- previous.tracks :: TrackWithId(next.tracks, t.id) == Some(t)
    ensures Forward(previous, next) && forall r :: !Owed(previous, next, r)
  {
  }

  lemma JobLacksTrack(positions: Positions)
    requires positions == map["t" := "p"]
    ensures WellFormed(SHORT, positions) && !WellFormed(LONGER, positions) && PositionViews(LONGER.tracks, positions).None?
  {
    var u := TrackOf("u", PositionOf("p", None));
    assert u == LONGER.tracks[1] && u in LONGER.tracks;
    ViewsExist(LONGER.tracks, positions);
    assert Ids([PositionOf("p", None)]) == {"p"};
  }

  /** An upgrade that adds a track can be accepted. A job opened before has no position on it
      afterwards, and is refused its views. */
  lemma AddedTrackIsUninitialised()
    ensures Accepted(SHORT, FILE) && Accepted(LONGER, FILE) && Forward(SHORT, LONGER) && forall r :: !Owed(SHORT, LONGER, r)
    ensures var jobs := Run(Installing(SHORT), [OPENING]).jobs;
            && "j" in jobs && WellFormed(SHORT, jobs["j"].positions)
            && var positions := Carried(jobs["j"], []).positions;
               !WellFormed(LONGER, positions) && PositionViews(LONGER.tracks, positions).None?
  {
    BothAreAccepted();
    TwoTracksWithId(TrackOf("t", PositionOf("p", None)), TrackOf("u", PositionOf("p", None)));
    KeptTracks(SHORT, LONGER);
    JobIsOpened(Installing(SHORT), SHORT);
    InitialOfOne(TrackOf("t", PositionOf("p", None)));
    JobLacksTrack(InitialPositions(SHORT));
  }

  // ---- Upgrades that rename a position which is named like a track -----------------------------------------------

  /** A track whose only position gets another name. */
  predicate Renames(was: Track, next: Track, r: Rename) {
    && was.id == next.id == r.track && r.from != r.to
    && |was.positions| == 1 && was.positions[0].id == r.from
    && |next.positions| == 1 && next.positions[0].id == r.to && next.positions[0].renamedFrom == Some(r.from)
  }

  lemma OwedByRenamed(was: Track, next: Track, to: Sop, r: Rename)
    requires Renames(was, next, r) && TrackWithId(to.tracks, next.id) == Some(next)
    ensures CarriesTrack(was, to) && forall s :: OwedBy(was, to, s) <==> s == r
  {
    assert next.positions[..0] == [];
    assert RenamedFrom(next.positions, r.from) == [next.positions[0]];
    assert Ids(next.positions) == {r.to} && Ids(was.positions) == {r.from};
  }

  lemma OneRenamed(previous: Sop, next: Sop, r: Rename)
    requires |previous.tracks| == 1 && |next.tracks| == 1 && previous.events == [] && Renames(previous.tracks[0], next.tracks[0], r)
    ensures Forward(previous, next) && forall s :: Owed(previous, next, s) <==> s == r
  {
    assert next.tracks == [next.tracks[0]];
    OneTrackWithId(next.tracks[0]);
    OwedByRenamed(previous.tracks[0], next.tracks[0], next, r);
    assert previous.tracks[0] in previous.tracks;
  }

  lemma TwoRenamed(previous: Sop, next: Sop, r: Rename, s: Rename)
    requires |previous.tracks| == 2 && |next.tracks| == 2 && previous.events == [] && next.tracks[0].id != next.tracks[1].id
    requires Renames(previous.tracks[0], next.tracks[0], r) && Renames(previous.tracks[1], next.tracks[1], s)
    ensures Forward(previous, next) && forall q :: Owed(previous, next, q) <==> q in {r, s}
  {
    assert next.tracks == [next.tracks[0], next.tracks[1]];
    TwoTracksWithId(next.tracks[0], next.tracks[1]);
    OwedByRenamed(previous.tracks[0], next.tracks[0], next, r);
    OwedByRenamed(previous.tracks[1], next.tracks[1], next, s);
    assert previous.tracks[0] in previous.tracks && previous.tracks[1] in previous.tracks;
  }

  const NAMESAKE := Definition("1", [TrackOf("t", PositionOf("t", None))], [])
  const RENAMED := Definition("2", [TrackOf("t", PositionOf("p", Some("t")))], [])
  const ONE_RENAME := [Rename("t", "t", "p")]

  lemma NamesakesAreAccepted()
    ensures Accepted(NAMESAKE, FILE) && Accepted(RENAMED, FILE)
  {
    TextIsText();
    TrackIsGood("t", "t", None);
    TrackIsGood("t", "p", Some("t"));
    OneTrackIsAccepted("1", TrackOf("t", PositionOf("t", None)));
    OneTrackIsAccepted("2", TrackOf("t", PositionOf("p", Some("t"))));
  }

  lemma OneMovesTime(since: Times)
    requires since == map["t" := 0]
    ensures RenameSinceAll(since, ONE_RENAME) == map["p" := 0]
  {
    assert ONE_RENAME[..0] == [];
    assert RenameSinceAll(since, []) == since;
  }

  /** The time of the job's one track is then kept under the position's new name, where no track
      is. */
  lemma TimeIsLost()
    ensures Accepted(NAMESAKE, FILE) && Accepted(RENAMED, FILE) && Forward(NAMESAKE, RENAMED)
    ensures forall r :: r in ONE_RENAME <==> Owed(NAMESAKE, RENAMED, r)
    ensures var jobs := Run(Installing(NAMESAKE), [OPENING]).jobs;
            "j" in jobs && jobs["j"].since == map["t" := 0] && Carried(jobs["j"], ONE_RENAME).since == map["p" := 0]
  {
    NamesakesAreAccepted();
    OneRenamed(NAMESAKE, RENAMED, Rename("t", "t", "p"));
    JobIsOpened(Installing(NAMESAKE), NAMESAKE);
    InitialOfOne(TrackOf("t", PositionOf("t", None)));
    OneMovesTime(Run(Installing(NAMESAKE), [OPENING]).jobs["j"].since);
  }

  const CROSSED := Definition("1", [TrackOf("a", PositionOf("a", None)), TrackOf("b", PositionOf("p", None))], [])
  const UNCROSSED := Definition("2", [TrackOf("a", PositionOf("p", Some("a"))), TrackOf("b", PositionOf("a", Some("p")))], [])
  const THERE_AND_BACK := [Rename("a", "a", "p"), Rename("b", "p", "a")]

  lemma CrossedAreAccepted()
    ensures Accepted(CROSSED, FILE) && Accepted(UNCROSSED, FILE)
  {
    TextIsText();
    TrackIsGood("a", "a", None);
    TrackIsGood("b", "p", None);
    TrackIsGood("a", "p", Some("a"));
    TrackIsGood("b", "a", Some("p"));
    TwoTracksAreAccepted("1", TrackOf("a", PositionOf("a", None)), TrackOf("b", PositionOf("p", None)));
    TwoTracksAreAccepted("2", TrackOf("a", PositionOf("p", Some("a"))), TrackOf("b", PositionOf("a", Some("p"))));
  }

  /** But a rename that starts from a track's name need not lose a time: another track's rename
      may lead back to it. */
  lemma TimeComesBack(since: Times)
    requires since.Keys == {"a", "b"}
    ensures Accepted(CROSSED, FILE) && Accepted(UNCROSSED, FILE) && Forward(CROSSED, UNCROSSED)
    ensures forall r :: r in THERE_AND_BACK <==> Owed(CROSSED, UNCROSSED, r)
    ensures THERE_AND_BACK[0].from in since && RenameSinceAll(since, THERE_AND_BACK) == since
  {
    CrossedAreAccepted();
    TwoRenamed(CROSSED, UNCROSSED, Rename("a", "a", "p"), Rename("b", "p", "a"));
    assert THERE_AND_BACK[..1] == [Rename("a", "a", "p")] && [Rename("a", "a", "p")][..0] == [];
    assert RenameSinceAll(since, THERE_AND_BACK[..1]) == since["p" := since["a"]] - {"a"};
  }
}
