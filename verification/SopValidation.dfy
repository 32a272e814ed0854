/** validateSop(): the structural faults of a definition, collected in file order. */
module SopValidation {
  import opened Prelude
  import opened Sop

  datatype Fault = Fault(subject: string, problem: string)
  type Declared = map<TrackId, set<PosId>>

  predicate IsIdChar(c: char) {
    'a' <= c <= 'z' || '0' <= c <= '9' || c == '_' || c == '-'
  }

  /** An identifier: one lower-case letter, then letters, digits, underscores and hyphens. */
  predicate IsId(s: string) {
    s != "" && 'a' <= s[0] <= 'z' && forall c <- s :: IsIdChar(c)
  }

  // ---- What an accepted definition is -------------------------------------------------

  predicate GoodPosition(p: Position) {
    && IsId(p.id)
    && HasText(p.name) && HasText(p.means) && HasText(p.doHere) && HasText(p.waitingOn)
    && (p.hasDeadline ==> p.onDeadline.Some? && HasText(p.onDeadline.value))
    && (p.renamedFrom.Some? ==> IsId(p.renamedFrom.value))
  }

  predicate DistinctPositions(positions: seq<Position>) {
    forall i, j :: 0 <= i < j < |positions| ==> positions[i].id != positions[j].id
  }

  predicate GoodPositions(positions: seq<Position>) {
    DistinctPositions(positions) && forall p <- positions :: GoodPosition(p)
  }

  predicate GoodTrack(t: Track) {
    && IsId(t.id) && HasText(t.name)
    && t.positions != [] && t.initial in Ids(t.positions)
    && GoodPositions(t.positions)
  }

  predicate DistinctTracks(tracks: seq<Track>) {
    forall i, j :: 0 <= i < j < |tracks| ==> tracks[i].id != tracks[j].id
  }

  predicate GoodTracks(tracks: seq<Track>) {
    DistinctTracks(tracks) && forall t <- tracks :: GoodTrack(t)
  }

  predicate Knows(declared: Declared, track: TrackId, position: PosId) {
    track in declared && position in declared[track]
  }

  predicate GoodMove(m: Move, declared: Declared) {
    && HasText(m.track)
    && m.from != [] && (forall from <- m.from :: Knows(declared, m.track, from))
    && Knows(declared, m.track, m.to)
  }

  predicate GoodStep(s: Step, channels: set<string>, declared: Declared) {
    && IsId(s.id) && HasText(s.mover)
    && HasText(s.observedVia) && s.observedVia in channels
    && (s.kind == IntentStep ==> s.observedVia == AGENT_ACTION && s.action.Some?)
    && (forall m <- s.moves :: GoodMove(m, declared))
    && (forall need <- s.needs :: Knows(declared, need.0, need.1))
  }

  predicate DistinctSteps(steps: seq<Step>) {
    forall i, j :: 0 <= i < j < |steps| ==> steps[i].id != steps[j].id
  }

  predicate GoodChase(p: Position, steps: seq<Step>) {
    p.onDeadline.Some? && p.onDeadline.value != "" ==>
      && (exists s <- steps :: s.id == p.onDeadline.value)
      && forall s <- steps :: s.id == p.onDeadline.value ==> !s.retired
  }

  /** The positions each track declares; a later track with the same id wins. */
  function DeclaredBy(tracks: seq<Track>): Declared {
    if tracks == [] then map[]
    else var last := tracks[|tracks| - 1]; DeclaredBy(tracks[..|tracks| - 1])[last.id := Ids(last.positions)]
  }

  /** A definition that validateSop accepts. */
  predicate Accepted(sop: Sop, file: string) {
    && sop.sop == file && HasText(sop.version)
    && sop.tracks != [] && AGENT_ACTION in sop.channels
    && GoodTracks(sop.tracks)
    && DistinctSteps(sop.events)
    && (forall s <- sop.events :: GoodStep(s, sop.channels, DeclaredBy(sop.tracks)))
    && (forall t <- sop.tracks, p <- t.positions :: GoodChase(p, sop.events))
  }

  lemma {:induction false} DeclaredKeys(tracks: seq<Track>)
    ensures DeclaredBy(tracks).Keys == set t | t in tracks :: t.id
  {
    if tracks != [] {
      var last := tracks[|tracks| - 1];
      DeclaredKeys(tracks[..|tracks| - 1]);
      assert forall t :: t in tracks <==> t in tracks[..|tracks| - 1] || t == last;
    }
  }

  /** In a well-formed list every track declares exactly its own positions. */
  lemma {:induction false} OwnPositions(tracks: seq<Track>, t: Track)
    requires DistinctTracks(tracks) && t in tracks
    ensures t.id in DeclaredBy(tracks) && DeclaredBy(tracks)[t.id] == Ids(t.positions)
  {
    var last := tracks[|tracks| - 1];
    if t != last {
      assert tracks == tracks[..|tracks| - 1] + [last];
      OwnPositions(tracks[..|tracks| - 1], t);
    }
  }

  // ---- validateSop --------------------------------------------------------------------

  lemma OneMorePosition(positions: seq<Position>, i: nat)
    requires i < |positions|
    ensures GoodPositions(positions[..i + 1]) <==>
              GoodPositions(positions[..i]) && GoodPosition(positions[i]) && positions[i].id !in Ids(positions[..i])
    ensures Ids(positions[..i + 1]) == Ids(positions[..i]) + {positions[i].id}
  {
    var before, after := positions[..i], positions[..i + 1];
    assert after == before + [positions[i]];
    if GoodPositions(after) {
      assert forall j :: 0 <= j < i ==> before[j] == after[j];
      assert after[i] in after;
    }
  }

  lemma OneMoreTrack(tracks: seq<Track>, i: nat)
    requires i < |tracks|
    ensures GoodTracks(tracks[..i + 1]) <==>
              GoodTracks(tracks[..i]) && GoodTrack(tracks[i]) && tracks[i].id !in DeclaredBy(tracks[..i])
    ensures DeclaredBy(tracks[..i + 1]) == DeclaredBy(tracks[..i])[tracks[i].id := Ids(tracks[i].positions)]
  {
    var before, after := tracks[..i], tracks[..i + 1];
    DeclaredKeys(before);
    assert after == before + [tracks[i]];
    assert after[..i] == before;
    if GoodTracks(after) {
      assert forall j :: 0 <= j < i ==> before[j] == after[j];
      assert after[i] in after;
    }
  }

  method PositionFaults(track: Track) returns (faults: seq<Fault>, positions: set<PosId>)
    ensures faults == [] <==> GoodPositions(track.positions)
    ensures faults == [] ==> positions == Ids(track.positions)
  {
    faults, positions := [], {};
    for i := 0 to |track.positions|
      invariant faults == [] <==> GoodPositions(track.positions[..i])
      invariant faults == [] ==> positions == Ids(track.positions[..i])
    {
      var p := track.positions[i];
      OneMorePosition(track.positions, i);
      if !IsId(p.id) {
        faults := faults + [Fault(track.id, "a position has no valid id")];
        continue;
      }
      if p.id in positions {
        faults := faults + [Fault(p.id, "duplicate position")];
      }
      positions := positions + {p.id};
      faults := faults + PositionFieldFaults(p);
    }
    assert track.positions[..|track.positions|] == track.positions;
  }

  function FaultIf(wrong: bool, subject: string, problem: string): seq<Fault> {
    if wrong then [Fault(subject, problem)] else []
  }

  function PositionFieldFaults(p: Position): (faults: seq<Fault>)
    ensures IsId(p.id) ==> (faults == [] <==> GoodPosition(p))
  {
    FaultIf(!HasText(p.name), p.id, "label is missing")
    + FaultIf(!HasText(p.means), p.id, "means is missing")
    + FaultIf(!HasText(p.doHere), p.id, "do_here is missing")
    + FaultIf(!HasText(p.waitingOn), p.id, "waiting_on is missing")
    + FaultIf(p.hasDeadline && !(p.onDeadline.Some? && HasText(p.onDeadline.value)), p.id, "deadline has no chasing step")
    + FaultIf(p.renamedFrom.Some? && !IsId(p.renamedFrom.value), p.id, "renamed_from is not a position id")
  }

  method TrackFaults(tracks: seq<Track>) returns (faults: seq<Fault>, declared: Declared)
    ensures faults == [] <==> GoodTracks(tracks)
    ensures faults == [] ==> declared == DeclaredBy(tracks)
  {
    faults, declared := [], map[];
    for i := 0 to |tracks|
      invariant faults == [] <==> GoodTracks(tracks[..i])
      invariant faults == [] ==> declared == DeclaredBy(tracks[..i])
    {
      var track := tracks[i];
      OneMoreTrack(tracks, i);
      if !IsId(track.id) {
        faults := faults + [Fault("tracks", "a track has no valid id")];
        continue;
      }
      if track.id in declared {
        faults := faults + [Fault(track.id, "duplicate track")];
      }
      if !HasText(track.name) {
        faults := faults + [Fault(track.id, "label is missing")];
      }
      if track.positions == [] {
        faults := faults + [Fault(track.id, "positions must be a nonempty list")];
        continue;
      }
      var more, positions := PositionFaults(track);
      faults := faults + more;
      declared := declared[track.id := positions];
      if track.initial !in positions {
        faults := faults + [Fault(track.id, "initial is not a position")];
      }
    }
    assert tracks[..|tracks|] == tracks;
  }

  function MoveFaults(m: Move, declared: Declared): (faults: seq<Fault>)
    ensures faults == [] <==> GoodMove(m, declared)
  {
    if !HasText(m.track) || m.track !in declared then [Fault(m.track, "unknown track")]
    else
      FaultIf(m.from == [], m.track, "from must name a position")
      + FaultIf(exists from <- m.from :: from !in declared[m.track], m.track, "unknown from position")
      + FaultIf(m.to !in declared[m.track], m.track, "unknown to position")
  }

  method StepFaults(s: Step, channels: set<string>, declared: Declared) returns (faults: seq<Fault>)
    requires IsId(s.id)
    ensures faults == [] <==> GoodStep(s, channels, declared)
  {
    faults :=
      FaultIf(!HasText(s.mover), s.id, "mover is missing")
      + FaultIf(!HasText(s.observedVia) || s.observedVia !in channels, s.id, "observed_via is not a collected channel")
      + FaultIf(s.kind == IntentStep && s.observedVia != AGENT_ACTION, s.id, "intent needs the agent_action channel")
      + FaultIf(s.kind == IntentStep && s.action.None?, s.id, "intent has no action");
    var own := faults == [];
    for i := 0 to |s.moves|
      invariant faults == [] <==> own && forall m <- s.moves[..i] :: GoodMove(m, declared)
    {
      assert s.moves[..i + 1] == s.moves[..i] + [s.moves[i]];
      faults := faults + MoveFaults(s.moves[i], declared);
    }
    assert s.moves[..|s.moves|] == s.moves;
    var moved := faults == [];
    for i := 0 to |s.needs|
      invariant faults == [] <==> moved && forall need <- s.needs[..i] :: Knows(declared, need.0, need.1)
    {
      assert s.needs[..i + 1] == s.needs[..i] + [s.needs[i]];
      faults := faults + FaultIf(!Knows(declared, s.needs[i].0, s.needs[i].1), s.id, "requires names an unknown position");
    }
    assert s.needs[..|s.needs|] == s.needs;
  }

  predicate GoodSteps(steps: seq<Step>, channels: set<string>, declared: Declared) {
    DistinctSteps(steps) && forall s <- steps :: GoodStep(s, channels, declared)
  }

  function StepIds(steps: seq<Step>): set<StepId> {
    set s | s in steps :: s.id
  }

  function RetiredIds(steps: seq<Step>): set<StepId> {
    set s | s in steps && s.retired :: s.id
  }

  lemma OneMoreStep(steps: seq<Step>, i: nat, channels: set<string>, declared: Declared)
    requires i < |steps|
    ensures GoodSteps(steps[..i + 1], channels, declared) <==>
              && GoodSteps(steps[..i], channels, declared)
              && GoodStep(steps[i], channels, declared) && steps[i].id !in StepIds(steps[..i])
    ensures StepIds(steps[..i + 1]) == StepIds(steps[..i]) + {steps[i].id}
    ensures RetiredIds(steps[..i + 1]) == RetiredIds(steps[..i]) + if steps[i].retired then {steps[i].id} else {}
  {
    var before, after := steps[..i], steps[..i + 1];
    assert after == before + [steps[i]];
    if GoodSteps(after, channels, declared) {
      assert forall j :: 0 <= j < i ==> before[j] == after[j];
      assert after[i] in after;
    }
  }

  method AllStepFaults(steps: seq<Step>, channels: set<string>, declared: Declared)
    returns (faults: seq<Fault>, ids: set<StepId>, retired: set<StepId>)
    ensures faults == [] <==> GoodSteps(steps, channels, declared)
    ensures faults == [] ==> ids == StepIds(steps) && retired == RetiredIds(steps)
  {
    faults, ids, retired := [], {}, {};
    for i := 0 to |steps|
      invariant faults == [] <==> GoodSteps(steps[..i], channels, declared)
      invariant faults == [] ==> ids == StepIds(steps[..i]) && retired == RetiredIds(steps[..i])
    {
      var s := steps[i];
      OneMoreStep(steps, i, channels, declared);
      if !IsId(s.id) {
        faults := faults + [Fault("events", "a step has no valid id")];
        continue;
      }
      if s.id in ids {
        faults := faults + [Fault(s.id, "duplicate step")];
      }
      ids := ids + {s.id};
      if s.retired {
        retired := retired + {s.id};
      }
      var more := StepFaults(s, channels, declared);
      faults := faults + more;
    }
    assert steps[..|steps|] == steps;
  }

  predicate Chased(p: Position, ids: set<StepId>, retired: set<StepId>) {
    p.onDeadline.Some? && p.onDeadline.value != "" ==> p.onDeadline.value in ids && p.onDeadline.value !in retired
  }

  /** validateSop(): no fault exactly when the definition is accepted. */
  method ValidateSop(sop: Sop, file: string) returns (faults: seq<Fault>)
    ensures faults == [] <==> Accepted(sop, file)
  {
    faults := FaultIf(sop.sop != file, file, "sop must match filename")
      + FaultIf(!HasText(sop.version), file, "version must be a nonempty string")
      + FaultIf(sop.tracks == [], file, "tracks must be a nonempty list")
      + FaultIf(AGENT_ACTION !in sop.channels, file, "collected_channels must include agent_action");
    if faults != [] {
      return;
    }
    var declared: Declared;
    faults, declared := TrackFaults(sop.tracks);
    var more, ids, retired := AllStepFaults(sop.events, sop.channels, declared);
    faults := faults + more;
    var structural := faults == [];
    for i := 0 to |sop.tracks|
      invariant faults == [] <==> structural && forall t <- sop.tracks[..i], p <- t.positions :: Chased(p, ids, retired)
    {
      var t := sop.tracks[i];
      assert sop.tracks[..i + 1] == sop.tracks[..i] + [t];
      var soFar := faults == [];
      for j := 0 to |t.positions|
        invariant faults == [] <==> soFar && forall p <- t.positions[..j] :: Chased(p, ids, retired)
      {
        assert t.positions[..j + 1] == t.positions[..j] + [t.positions[j]];
        faults := faults + FaultIf(!Chased(t.positions[j], ids, retired), t.id, "chasing step is absent or retired");
      }
      assert t.positions[..|t.positions|] == t.positions;
    }
    assert sop.tracks[..|sop.tracks|] == sop.tracks;
    if structural {
      forall p: Position ensures Chased(p, ids, retired) <==> GoodChase(p, sop.events) {
      }
    }
  }

  // ---- Positions of an accepted definition ----------------------------------------------

  /** Every track of the definition holds one of its own positions. */
  predicate WellPlaced(sop: Sop, positions: Positions) {
    forall t <- sop.tracks :: t.id in positions && positions[t.id] in Ids(t.positions)
  }

  function TrackIds(tracks: seq<Track>): set<TrackId> {
    set t | t in tracks :: t.id
  }

  /** The positions of a job of this definition: its tracks and no others, each well placed. */
  predicate WellFormed(sop: Sop, positions: Positions) {
    positions.Keys == TrackIds(sop.tracks) && WellPlaced(sop, positions)
  }

  predicate Structural(sop: Sop) {
    GoodTracks(sop.tracks) && GoodSteps(sop.events, sop.channels, DeclaredBy(sop.tracks))
  }

  lemma {:induction false} InitialIsWellFormed(sop: Sop)
    requires GoodTracks(sop.tracks)
    ensures WellFormed(sop, InitialPositions(sop))
  {
    forall t | t in sop.tracks ensures t.id in InitialPositions(sop) && InitialPositions(sop)[t.id] == t.initial {
      InitialOfTrack(sop.tracks, t);
    }
    InitialKeys(sop.tracks);
  }

  lemma {:induction false} InitialKeys(tracks: seq<Track>)
    ensures InitialOf(tracks).Keys == TrackIds(tracks)
  {
    if tracks != [] {
      InitialKeys(tracks[..|tracks| - 1]);
      assert forall t :: t in tracks <==> t in tracks[..|tracks| - 1] || t == tracks[|tracks| - 1];
    }
  }

  lemma {:induction false} InitialOfTrack(tracks: seq<Track>, t: Track)
    requires DistinctTracks(tracks) && t in tracks
    ensures t.id in InitialOf(tracks) && InitialOf(tracks)[t.id] == t.initial
  {
    var last := tracks[|tracks| - 1];
    if t != last {
      assert tracks == tracks[..|tracks| - 1] + [last];
      InitialOfTrack(tracks[..|tracks| - 1], t);
    }
  }

  lemma GoodStepTargets(sop: Sop, step: Step, t: Track)
    requires Structural(sop) && step in sop.events && t in sop.tracks
    ensures forall m <- step.moves :: m.track == t.id ==> m.to in Ids(t.positions)
  {
    var declared := DeclaredBy(sop.tracks);
    OwnPositions(sop.tracks, t);
    DeclaredKeys(sop.tracks);
    assert GoodStep(step, sop.channels, declared);
    forall m | m in step.moves ensures m.track in declared && m.to in declared[m.track] {
      assert GoodMove(m, declared);
    }
  }

  lemma ObservedPlace(step: Step, positions: Positions, t: Track)
    requires forall m <- step.moves :: m.track == t.id ==> m.to in Ids(t.positions)
    requires t.id in positions && positions[t.id] in Ids(t.positions)
    ensures t.id in Observed(step, positions) && Observed(step, positions)[t.id] in Ids(t.positions)
  {
    TakenFits(step.moves, t.id, positions);
  }

  lemma ObservedKeys(sop: Sop, step: Step, positions: Positions)
    requires Structural(sop) && step in sop.events
    requires positions.Keys == TrackIds(sop.tracks)
    ensures Observed(step, positions).Keys == TrackIds(sop.tracks)
  {
    if HasPrimary(step) {
      DeclaredKeys(sop.tracks);
      assert GoodStep(step, sop.channels, DeclaredBy(sop.tracks));
      assert GoodMove(step.moves[0], DeclaredBy(sop.tracks));
    }
    assert Observed(step, positions).Keys == Tracked(step, positions);
  }

  /** Observing any step of an accepted definition, on the model or off it, leaves every track
      on one of its own positions and adds no track. */
  lemma ObservationKeepsForm(sop: Sop, step: Step, positions: Positions)
    requires Structural(sop) && step in sop.events && WellFormed(sop, positions)
    ensures WellFormed(sop, Observed(step, positions))
  {
    ObservedKeys(sop, step, positions);
    var next := Observed(step, positions);
    forall t | t in sop.tracks ensures t.id in next && next[t.id] in Ids(t.positions) {
      GoodStepTargets(sop, step, t);
      assert t.id in positions && positions[t.id] in Ids(t.positions);
      ObservedPlace(step, positions, t);
    }
  }

  function FirstPosition(positions: seq<Position>, id: PosId): Option<Position> {
    if positions == [] then None
    else if positions[0].id == id then Some(positions[0])
    else FirstPosition(positions[1..], id)
  }

  /** positionViews(): the position of every track in order, or a refusal when one is unknown. */
  function PositionViews(tracks: seq<Track>, positions: Positions): Option<seq<Position>> {
    if tracks == [] then Some([])
    else
      var t := tracks[0];
      var here := if t.id in positions then FirstPosition(t.positions, positions[t.id]) else None;
      var rest := PositionViews(tracks[1..], positions);
      if here.None? || rest.None? then None else Some([here.value] + rest.value)
  }

  lemma FirstPositionFinds(positions: seq<Position>, id: PosId)
    ensures FirstPosition(positions, id).Some? <==> id in Ids(positions)
    ensures FirstPosition(positions, id).Some? ==> FirstPosition(positions, id).value.id == id
  {
  }

  /** The views exist exactly when every track holds one of its own positions, and then they
      show those positions. */
  lemma {:induction false} ViewsExist(tracks: seq<Track>, positions: Positions)
    ensures var views := PositionViews(tracks, positions);
            && (views.Some? <==> forall t <- tracks :: t.id in positions && positions[t.id] in Ids(t.positions))
            && (views.Some? ==>
                 && |views.value| == |tracks|
                 && forall i :: 0 <= i < |tracks| ==> tracks[i].id in positions && views.value[i].id == positions[tracks[i].id])
  {
    if tracks != [] {
      ViewsExist(tracks[1..], positions);
      if tracks[0].id in positions {
        FirstPositionFinds(tracks[0].positions, positions[tracks[0].id]);
      }
      assert forall t :: t in tracks <==> t == tracks[0] || t in tracks[1..];
    }
  }
}
