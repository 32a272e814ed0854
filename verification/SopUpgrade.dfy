/** Installing a new version of a definition, as far as it carries the stored jobs over:
    installSops() of records/migrate.ts. */
module SopUpgrade {
  import opened Prelude
  import opened Sop
  import opened SopValidation
  import opened JobEngine
  import opened SopForward

  // ---- Carrying the jobs over ---------------------------------------------------------------

  class JobTable {
    var rows: seq<Job>

    /** The rename loop of installSops, and the version update after it. */
    method Upgrade(sop: string, version: string, renames: seq<Rename>)
      modifies this
      ensures |rows| == |old(rows)|
      ensures forall i :: 0 <= i < |rows| ==>
                rows[i] == var row := Carried(old(rows)[i], renames); if row.sop == sop then row.(version := version) else row
    {
      for k := 0 to |renames|
        invariant |rows| == |old(rows)|
        invariant forall i :: 0 <= i < |rows| ==> rows[i] == Carried(old(rows)[i], renames[..k])
      {
        var r := renames[k];
        assert renames[..k + 1][..k] == renames[..k];
        ghost var stage := rows;
        for i := 0 to |rows|
          invariant |rows| == |stage|
          invariant forall j :: 0 <= j < i ==> rows[j] == Carried(old(rows)[j], renames[..k + 1])
          invariant forall j :: i <= j < |rows| ==> rows[j] == stage[j]
        {
          var row := rows[i];
          rows := rows[i := row.(positions := RenamePosition(row.positions, r), since := RenameSince(row.since, r))];
        }
      }
      assert renames[..|renames|] == renames;
      var carried := rows;
      rows := seq(|carried|, i requires 0 <= i < |carried| =>
        if carried[i].sop == sop then carried[i].(version := version) else carried[i]);
    }
  }

  // ---- What an accepted upgrade keeps ----------------------------------------------------------

  /** The renames applied at once: each track is looked up under the name it had. */
  ghost function Together(positions: Positions, renames: seq<Rename>): Positions {
    map track | track in positions ::
      if exists r <- renames :: r.track == track && r.from == positions[track]
      then (var r :| r in renames && r.track == track && r.from == positions[track]; r.to)
      else positions[track]
  }

  /** No rename of a track leads to a name another rename of that track starts from, and a name
      has one successor. */
  predicate Unchained(renames: seq<Rename>) {
    forall r <- renames, s <- renames :: r.track == s.track ==> r.to != s.from && (r.from == s.from ==> r.to == s.to)
  }

  lemma OwedTargets(previous: Sop, next: Sop, r: Rename)
    requires Owed(previous, next, r)
    ensures var track := TrackWithId(next.tracks, r.track);
            track.Some? && r.to in Ids(track.value.positions) && r.from !in Ids(track.value.positions)
  {
    var was :| was in previous.tracks && OwedBy(was, next, r);
    RenamedAreListed(TrackWithId(next.tracks, was.id).value.positions, r.from);
  }

  lemma RenamedAreListed(positions: seq<Position>, id: PosId)
    ensures forall p <- RenamedFrom(positions, id) :: p in positions
  {
  }

  /** No target of an owed rename is also a source in its track. */
  lemma OwedAreUnchained(previous: Sop, next: Sop, renames: seq<Rename>)
    requires forall r <- renames :: Owed(previous, next, r)
    ensures Unchained(renames)
  {
    forall r, s | r in renames && s in renames && r.track == s.track
      ensures r.to != s.from && (r.from == s.from ==> r.to == s.to)
    {
      OwedTargets(previous, next, r);
      OwedTargets(previous, next, s);
    }
  }

  lemma {:induction false} OneByOne(positions: Positions, renames: seq<Rename>, track: TrackId)
    requires Unchained(renames) && track in positions
    ensures var after := RenameAll(positions, renames);
            && after.Keys == positions.Keys
            && (forall r <- renames :: r.track == track && r.from == positions[track] ==> after[track] == r.to)
            && ((forall r <- renames :: !(r.track == track && r.from == positions[track])) ==> after[track] == positions[track])
  {
    if renames != [] {
      var before, last := renames[..|renames| - 1], renames[|renames| - 1];
      assert renames == before + [last];
      OneByOne(positions, before, track);
    }
  }

  /** Applying unchained renames one by one, in any order and however often, equals applying
      them all at once. */
  lemma OneByOneIsTogether(positions: Positions, renames: seq<Rename>, order: seq<Rename>)
    requires Unchained(renames) && (forall r :: r in order <==> r in renames)
    ensures RenameAll(positions, order) == Together(positions, renames)
  {
    RenameKeys(positions, order);
    forall track | track in positions
      ensures RenameAll(positions, order)[track] == Together(positions, renames)[track]
    {
      OneByOne(positions, order, track);
    }
  }

  lemma {:induction false} RenameKeys(positions: Positions, renames: seq<Rename>)
    ensures RenameAll(positions, renames).Keys == positions.Keys
  {
    if renames != [] {
      RenameKeys(positions, renames[..|renames| - 1]);
    }
  }

  lemma OwnTrack(tracks: seq<Track>, t: Track)
    requires DistinctTracks(tracks) && t in tracks
    ensures TrackWithId(tracks, t.id) == Some(t)
  {
    var found := TrackWithId(tracks, t.id).value;
  }

  lemma CarriedPlace(previous: Sop, next: Sop, positions: Positions, renames: seq<Rename>, t: Track)
    requires Forward(previous, next) && WellFormed(previous, positions)
    requires forall r :: r in renames <==> Owed(previous, next, r)
    requires t in next.tracks && DistinctTracks(next.tracks) && t.id in positions
    ensures RenameAll(positions, renames).Keys == positions.Keys
    ensures RenameAll(positions, renames)[t.id] in Ids(t.positions)
  {
    OwedAreUnchained(previous, next, renames);
    OneByOne(positions, renames, t.id);
    OwnTrack(next.tracks, t);
    var was :| was in previous.tracks && was.id == t.id;
    assert CarriesTrack(was, next);
    var here := positions[t.id];
    if here in Ids(t.positions) {
      forall r | r in renames ensures !(r.track == t.id && r.from == here) {
        OwedTargets(previous, next, r);
      }
    } else {
      var p :| p in was.positions && p.id == here;
      assert CarriesPosition(t, p.id);
      var r := Rename(t.id, here, RenamedFrom(t.positions, here)[0].id);
      assert OwedBy(was, next, r);
      OwedTargets(previous, next, r);
    }
  }

  lemma ForwardKeepsTracks(previous: Sop, next: Sop)
    requires Forward(previous, next)
    ensures TrackIds(previous.tracks) <= TrackIds(next.tracks)
  {
    forall t | t in previous.tracks ensures t.id in TrackIds(next.tracks) {
      assert CarriesTrack(t, next);
    }
  }

  lemma CarriedPlaces(previous: Sop, next: Sop, positions: Positions, order: seq<Rename>)
    requires Forward(previous, next) && GoodTracks(next.tracks) && WellFormed(previous, positions)
    requires forall r :: r in order <==> Owed(previous, next, r)
    requires TrackIds(next.tracks) == TrackIds(previous.tracks)
    ensures WellPlaced(next, RenameAll(positions, order))
  {
    RenameKeys(positions, order);
    var after := RenameAll(positions, order);
    forall t | t in next.tracks ensures t.id in after && after[t.id] in Ids(t.positions) {
      assert t.id in TrackIds(next.tracks);
      CarriedPlace(previous, next, positions, order, t);
    }
  }

  /** An accepted upgrade maps a well-formed job to a well-formed job of the new version, by its
      renames in any order, exactly when it adds no track: a new track is not initialised. */
  lemma UpgradeKeepsFormIff(previous: Sop, next: Sop, positions: Positions, renames: seq<Rename>, order: seq<Rename>)
    requires Forward(previous, next) && GoodTracks(next.tracks) && WellFormed(previous, positions)
    requires forall r :: r in renames <==> Owed(previous, next, r)
    requires forall r :: r in order <==> r in renames
    ensures RenameAll(positions, order) == Together(positions, renames)
    ensures WellFormed(next, RenameAll(positions, order)) <==> TrackIds(next.tracks) <= TrackIds(previous.tracks)
  {
    OwedAreUnchained(previous, next, renames);
    OneByOneIsTogether(positions, renames, order);
    RenameKeys(positions, order);
    ForwardKeepsTracks(previous, next);
    if TrackIds(next.tracks) <= TrackIds(previous.tracks) {
      CarriedPlaces(previous, next, positions, order);
    }
  }
}
