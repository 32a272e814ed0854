/** Which version of a definition may follow which, and what it owes to the jobs that are open:
    forwardOnly() of records/migrate.ts, and the renames as they change a job's maps. */
module SopForward {
  import opened Prelude
  import opened Sop
  import opened SopValidation

  datatype Rename = Rename(track: TrackId, from: PosId, to: PosId)

  // ---- What may follow what ---------------------------------------------------------------

  /** The Map of tracks by id: a later track with the same id wins. */
  function TrackWithId(tracks: seq<Track>, id: TrackId): (r: Option<Track>)
    ensures r.Some? ==> r.value in tracks && r.value.id == id
    ensures r.None? <==> id !in TrackIds(tracks)
  {
    if tracks == [] then None
    else
      var last := tracks[|tracks| - 1];
      assert forall t :: t in tracks <==> t in tracks[..|tracks| - 1] || t == last;
      if last.id == id then Some(last) else TrackWithId(tracks[..|tracks| - 1], id)
  }

  function StepWithId(steps: seq<Step>, id: StepId): Option<Step> {
    if steps == [] then None
    else if steps[|steps| - 1].id == id then Some(steps[|steps| - 1])
    else StepWithId(steps[..|steps| - 1], id)
  }

  function RenamedFrom(positions: seq<Position>, id: PosId): seq<Position> {
    if positions == [] then []
    else
      RenamedFrom(positions[..|positions| - 1], id)
      + if positions[|positions| - 1].renamedFrom == Some(id) then [positions[|positions| - 1]] else []
  }

  /** Every old position is kept or has exactly one successor. */
  predicate CarriesPosition(track: Track, was: PosId) {
    was in Ids(track.positions) || |RenamedFrom(track.positions, was)| == 1
  }

  predicate CarriesTrack(was: Track, next: Sop) {
    var track := TrackWithId(next.tracks, was.id);
    track.Some? && forall p <- was.positions :: CarriesPosition(track.value, p.id)
  }

  predicate CarriesStep(was: Step, next: Sop) {
    var step := StepWithId(next.events, was.id);
    step.Some? && (was.retired ==> step.value.retired)
  }

  /** The upgrade removes no track, loses no position, drops no step and reopens none. */
  predicate Forward(previous: Sop, next: Sop) {
    && (forall t <- previous.tracks :: CarriesTrack(t, next))
    && (forall s <- previous.events :: CarriesStep(s, next))
  }

  /** This rename is owed: the old track lost this position, and its one successor is named. */
  predicate OwedBy(was: Track, next: Sop, r: Rename) {
    var track := TrackWithId(next.tracks, was.id);
    && r.track == was.id && r.from in Ids(was.positions)
    && track.Some? && r.from !in Ids(track.value.positions)
    && |RenamedFrom(track.value.positions, r.from)| == 1
    && RenamedFrom(track.value.positions, r.from)[0].id == r.to
  }

  predicate Owed(previous: Sop, next: Sop, r: Rename) {
    exists was <- previous.tracks :: OwedBy(was, next, r)
  }

  /** The renames that one old track owes for these positions of it, in their order. */
  function OwedIn(was: Track, positions: seq<Position>, next: Sop): seq<Rename> {
    if positions == [] then []
    else
      var id := positions[|positions| - 1].id;
      var before := OwedIn(was, positions[..|positions| - 1], next);
      var track := TrackWithId(next.tracks, was.id);
      if track.None? || id in Ids(track.value.positions) || |RenamedFrom(track.value.positions, id)| != 1 then before
      else before + [Rename(was.id, id, RenamedFrom(track.value.positions, id)[0].id)]
  }

  /** All renames that these old tracks owe, track by track. */
  function OwedOf(tracks: seq<Track>, next: Sop): seq<Rename> {
    if tracks == [] then []
    else OwedOf(tracks[..|tracks| - 1], next) + OwedIn(tracks[|tracks| - 1], tracks[|tracks| - 1].positions, next)
  }

  function OwedRenames(previous: Sop, next: Sop): seq<Rename> {
    OwedOf(previous.tracks, next)
  }

  lemma {:induction false} OwedInAre(was: Track, positions: seq<Position>, next: Sop, r: Rename)
    ensures r in OwedIn(was, positions, next) <==>
              r.from in Ids(positions) && OwedBy(was.(positions := positions), next, r)
  {
    if positions != [] {
      var before, last := positions[..|positions| - 1], positions[|positions| - 1];
      assert forall p :: p in positions <==> p in before || p == last;
      OwedInAre(was, before, next, r);
    }
  }

  lemma {:induction false} OwedOfAre(tracks: seq<Track>, next: Sop, r: Rename)
    ensures r in OwedOf(tracks, next) <==> exists was <- tracks :: OwedBy(was, next, r)
  {
    if tracks != [] {
      var before, last := tracks[..|tracks| - 1], tracks[|tracks| - 1];
      assert forall t :: t in tracks <==> t in before || t == last;
      OwedOfAre(before, next, r);
      OwedInAre(last, last.positions, next, r);
      assert last.(positions := last.positions) == last;
    }
  }

  /** What the upgrade lists is exactly what is owed. */
  lemma OwedRenamesAreOwed(previous: Sop, next: Sop)
    ensures forall r :: r in OwedRenames(previous, next) <==> Owed(previous, next, r)
  {
    forall r ensures r in OwedRenames(previous, next) <==> Owed(previous, next, r) {
      OwedOfAre(previous.tracks, next, r);
    }
  }

  method TrackRenames(was: Track, next: Sop) returns (result: Option<seq<Rename>>)
    ensures result == if CarriesTrack(was, next) then Some(OwedIn(was, was.positions, next)) else None
  {
    var track := TrackWithId(next.tracks, was.id);
    if track.None? {
      return None;
    }
    var renames: seq<Rename> := [];
    for i := 0 to |was.positions|
      invariant forall p <- was.positions[..i] :: CarriesPosition(track.value, p.id)
      invariant renames == OwedIn(was, was.positions[..i], next)
    {
      var p := was.positions[i];
      assert was.positions[..i + 1] == was.positions[..i] + [p];
      assert was.positions[..i + 1][..i] == was.positions[..i];
      if p.id in Ids(track.value.positions) {
        continue;
      }
      var renamed := RenamedFrom(track.value.positions, p.id);
      if |renamed| != 1 {
        assert !CarriesPosition(track.value, p.id);
        return None;
      }
      renames := renames + [Rename(was.id, p.id, renamed[0].id)];
    }
    assert was.positions[..|was.positions|] == was.positions;
    return Some(renames);
  }

  /** forwardOnly(): refuses, or lists exactly the renames that are owed. */
  method ForwardOnly(previous: Sop, next: Sop) returns (result: Option<seq<Rename>>)
    ensures result == if Forward(previous, next) then Some(OwedRenames(previous, next)) else None
    ensures result.Some? ==> forall r :: r in result.value <==> Owed(previous, next, r)
  {
    OwedRenamesAreOwed(previous, next);
    var renames: seq<Rename> := [];
    for i := 0 to |previous.tracks|
      invariant forall t <- previous.tracks[..i] :: CarriesTrack(t, next)
      invariant renames == OwedOf(previous.tracks[..i], next)
    {
      var was := previous.tracks[i];
      assert previous.tracks[..i + 1] == previous.tracks[..i] + [was];
      assert previous.tracks[..i + 1][..i] == previous.tracks[..i];
      var more := TrackRenames(was, next);
      if more.None? {
        return None;
      }
      renames := renames + more.value;
    }
    assert previous.tracks[..|previous.tracks|] == previous.tracks;
    for i := 0 to |previous.events|
      invariant forall s <- previous.events[..i] :: CarriesStep(s, next)
    {
      assert previous.events[..i + 1] == previous.events[..i] + [previous.events[i]];
      if !CarriesStep(previous.events[i], next) {
        return None;
      }
    }
    assert previous.events[..|previous.events|] == previous.events;
    return Some(renames);
  }

  // ---- Carrying a job over ------------------------------------------------------------------

  function RenamePosition(positions: Positions, r: Rename): Positions {
    if Holds(positions, r.track, r.from) then positions[r.track := r.to] else positions
  }

  /** since is keyed by track, yet the installer looks for the position's old name in it. */
  function RenameSince<T>(since: map<TrackId, T>, r: Rename): map<TrackId, T> {
    if r.from in since then since[r.to := since[r.from]] - {r.from} else since
  }

  function RenameAll(positions: Positions, renames: seq<Rename>): Positions {
    if renames == [] then positions
    else RenamePosition(RenameAll(positions, renames[..|renames| - 1]), renames[|renames| - 1])
  }

  function RenameSinceAll<T>(since: map<TrackId, T>, renames: seq<Rename>): map<TrackId, T> {
    if renames == [] then since
    else RenameSince(RenameSinceAll(since, renames[..|renames| - 1]), renames[|renames| - 1])
  }
}
