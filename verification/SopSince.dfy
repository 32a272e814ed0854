/** What an upgrade does to the times of a job. since is keyed by track; the installer looks for
    the renamed position's id in it, so a time stays where it is only if the renames send its
    track's name, taken for a position's, back to a track with the same time. */
module SopSince {
  import opened Sop
  import opened SopValidation
  import opened SopForward
  import opened JobEngine
  import opened JobRuns
  import opened JobForms
  import opened SopUpgrade

  type Times = map<TrackId, Time>

  // ---- Every reachable job has a time for each track, and for nothing else -----------------------

  predicate SincePlaced(db: Db) {
    forall job <- db.jobs :: db.jobs[job].since.Keys == db.jobs[job].positions.Keys
  }

  lemma ObservationKeepsPlaces(row: Job, step: Step, source: SourceId, now: Time, trail: Trail)
    requires row.since.Keys == row.positions.Keys
    ensures var next := AfterObservation(row, step, source, now, trail); next.since.Keys == next.positions.Keys
  {
    var next := AfterObservation(row, step, source, now, trail);
    assert row.positions.Keys <= next.positions.Keys;
  }

  lemma ObservingKeepsPlaces(env: Installed, db: Db, c: Command)
    requires SincePlaced(db) && c.Observe?
    ensures SincePlaced(RecordObservation(env, db, c).0)
  {
    var next := RecordObservation(env, db, c).0;
    if next != db {
      var row := db.jobs[c.job];
      var step := StepOf(DefinitionOf(env, row).value, c.step).value;
      var events := next.jobs[c.job].events;
      ObservationKeepsPlaces(row, step, c.source, c.now, events[|events| - 1].trail);
    }
  }

  /** An installation after which every job it carries has times under the names it had them under. */
  predicate KeepsTimeKeys(env: Installed, db: Db, c: Command) {
    c.Install? && Installs(env, c.definition) ==>
      forall job <- db.jobs :: db.jobs[job].sop == c.definition.sop ==>
        RenameSinceAll(db.jobs[job].since, RenamesFor(env, c.definition)).Keys == db.jobs[job].since.Keys
  }

  ghost predicate KeepsTimes(env: Installed, commands: seq<Command>) {
    commands == []
    || var before := commands[..|commands| - 1];
       KeepsTimes(env, before) && KeepsTimeKeys(InstalledAfter(env, before), Run(env, before), commands[|commands| - 1])
  }

  lemma InstallKeepsPlaces(env: Installed, db: Db, c: Command)
    requires SincePlaced(db) && c.Install? && KeepsTimeKeys(env, db, c)
    ensures SincePlaced(InstallSop(env, db, c).0)
  {
    var next := InstallSop(env, db, c).0;
    forall job | job in next.jobs ensures next.jobs[job].since.Keys == next.jobs[job].positions.Keys {
      InstallCarries(env, db, c, job);
      RenameKeys(db.jobs[job].positions, RenamesFor(env, c.definition));
    }
  }

  lemma TransactKeepsPlaces(env: Installed, db: Db, c: Command)
    requires SincePlaced(db) && KeepsTimeKeys(env, db, c)
    ensures SincePlaced(Transact(env, db, c))
  {
    if c.Observe? {
      ObservingKeepsPlaces(env, db, c);
    } else if c.Install? {
      InstallKeepsPlaces(env, db, c);
    }
  }

  lemma {:induction false} RunIsPlaced(env: Installed, commands: seq<Command>)
    requires KeepsTimes(env, commands)
    ensures SincePlaced(Run(env, commands))
  {
    if commands != [] {
      var before := commands[..|commands| - 1];
      RunIsPlaced(env, before);
      TransactKeepsPlaces(InstalledAfter(env, before), Run(env, before), commands[|commands| - 1]);
    }
  }

  /** The times of a job are kept for exactly the tracks of its definition, in every run whose
      installations neither add a track nor move a time. */
  lemma TimesAreOfTracks(env: Installed, commands: seq<Command>, job: JobId)
    requires WellInstalled(env) && KeepsTracks(env, commands) && KeepsTimes(env, commands)
    requires job in Run(env, commands).jobs
    ensures var row := Run(env, commands).jobs[job];
            && DefinitionOf(InstalledAfter(env, commands), row).Some?
            && row.since.Keys == row.positions.Keys == TrackIds(DefinitionOf(InstalledAfter(env, commands), row).value.tracks)
  {
    RunIsPlaced(env, commands);
    RunIsWellFormed(env, commands);
  }

  // ---- Where the renames send a name ---------------------------------------------------------------

  function SentBy(name: string, r: Rename): string {
    if name == r.from then r.to else name
  }

  /** A name after all the renames, one by one. */
  function Sent(name: string, renames: seq<Rename>): string {
    if renames == [] then name else SentBy(Sent(name, renames[..|renames| - 1]), renames[|renames| - 1])
  }

  function Image(names: set<string>, renames: seq<Rename>): set<string> {
    set name | name in names :: Sent(name, renames)
  }

  /** No two tracks' names end up as one. */
  predicate KeepsApart(names: set<string>, renames: seq<Rename>) {
    forall x <- names, y <- names :: Sent(x, renames) == Sent(y, renames) ==> x == y
  }

  /** Each rename changes something, as every owed one does. */
  predicate Proper(renames: seq<Rename>) {
    forall r <- renames :: r.from != r.to
  }

  lemma OneSends(since: Times, r: Rename)
    requires r.from != r.to
    ensures RenameSince(since, r).Keys == set name | name in since :: SentBy(name, r)
  {
    var all := set name | name in since :: SentBy(name, r);
    forall name | name in RenameSince(since, r) ensures name in all {
      if r.from in since && name == r.to {
        assert SentBy(r.from, r) == name;
      } else {
        assert SentBy(name, r) == name;
      }
    }
  }

  lemma {:induction false} KeysAreSent(since: Times, renames: seq<Rename>)
    requires Proper(renames)
    ensures RenameSinceAll(since, renames).Keys == Image(since.Keys, renames)
  {
    if renames != [] {
      var before, last := renames[..|renames| - 1], renames[|renames| - 1];
      assert last in renames;
      KeysAreSent(since, before);
      OneSends(RenameSinceAll(since, before), last);
      forall name | name in Image(since.Keys, before) ensures SentBy(name, last) in Image(since.Keys, renames) {
        var x :| x in since.Keys && Sent(x, before) == name;
        assert Sent(x, renames) == SentBy(name, last);
      }
    }
  }

  lemma ApartBefore(names: set<string>, renames: seq<Rename>)
    requires renames != [] && KeepsApart(names, renames)
    ensures KeepsApart(names, renames[..|renames| - 1])
  {
  }

  /** While no names meet, each time goes where its name is sent. */
  lemma {:induction false} TimesFollow(since: Times, renames: seq<Rename>, x: TrackId)
    requires Proper(renames) && KeepsApart(since.Keys, renames) && x in since
    ensures Sent(x, renames) in RenameSinceAll(since, renames)
    ensures RenameSinceAll(since, renames)[Sent(x, renames)] == since[x]
  {
    if renames != [] {
      var before, last := renames[..|renames| - 1], renames[|renames| - 1];
      assert last in renames;
      ApartBefore(since.Keys, renames);
      TimesFollow(since, before, x);
      var m, y := RenameSinceAll(since, before), Sent(x, before);
      if y == last.to && last.from in m {
        KeysAreSent(since, before);
        var z :| z in since.Keys && Sent(z, before) == last.from;
        assert Sent(z, renames) == Sent(x, renames);
      }
    }
  }

  // ---- Counting names --------------------------------------------------------------------------------

  lemma {:induction false} ImageSize(names: set<string>, renames: seq<Rename>)
    ensures |Image(names, renames)| <= |names|
    ensures KeepsApart(names, renames) ==> |Image(names, renames)| == |names|
    decreases |names|
  {
    if names == {} {
      assert Image(names, renames) == {};
    } else {
      var x :| x in names;
      var rest := names - {x};
      ImageSize(rest, renames);
      assert Image(names, renames) == Image(rest, renames) + {Sent(x, renames)};
    }
  }

  lemma SizeIsApart(names: set<string>, renames: seq<Rename>)
    requires |Image(names, renames)| == |names|
    ensures KeepsApart(names, renames)
  {
    forall x, y | x in names && y in names && Sent(x, renames) == Sent(y, renames) ensures x == y {
      if x != y {
        assert Image(names - {y}, renames) == Image(names, renames);
        ImageSize(names - {y}, renames);
      }
    }
  }

  lemma SameSizeHas<T>(a: set<T>, b: set<T>, y: T)
    requires a <= b && |a| == |b| && y in b
    ensures y in a
  {
    assert b == a + (b - a);
  }

  // ---- When the times stand ------------------------------------------------------------------------------

  /** The track is sent to a track, with the same time. */
  predicate SameTime(since: Times, renames: seq<Rename>, x: TrackId)
    requires x in since
  {
    Sent(x, renames) in since && since[Sent(x, renames)] == since[x]
  }

  /** The renames send the tracks' names, none onto another, to tracks with the same times. */
  predicate SendsToSameTimes(since: Times, renames: seq<Rename>) {
    KeepsApart(since.Keys, renames) && forall x {:trigger SameTime(since, renames, x)} :: x in since ==> SameTime(since, renames, x)
  }

  lemma ImageAsLarge(since: Times, renames: seq<Rename>)
    requires Proper(renames)
    ensures |Image(since.Keys, renames)| == |RenameSinceAll(since, renames)|
  {
    KeysAreSent(since, renames);
    var after := RenameSinceAll(since, renames);
    assert |after.Keys| == |after|;
  }

  lemma KeptMeansSame(since: Times, renames: seq<Rename>)
    requires Proper(renames) && RenameSinceAll(since, renames) == since
    ensures SendsToSameTimes(since, renames)
  {
    ImageAsLarge(since, renames);
    assert |since.Keys| == |since|;
    SizeIsApart(since.Keys, renames);
    forall x | x in since ensures SameTime(since, renames, x) {
      TimesFollow(since, renames, x);
    }
  }

  lemma SentFromSome(since: Times, renames: seq<Rename>, y: TrackId) returns (x: TrackId)
    requires SendsToSameTimes(since, renames) && y in since
    ensures x in since && Sent(x, renames) == y
  {
    var image := Image(since.Keys, renames);
    ImageSize(since.Keys, renames);
    forall n | n in image ensures n in since.Keys {
      var m :| m in since.Keys && Sent(m, renames) == n;
      assert SameTime(since, renames, m);
    }
    SameSizeHas(image, since.Keys, y);
    x :| x in since.Keys && Sent(x, renames) == y;
  }

  lemma SameMeansKept(since: Times, renames: seq<Rename>)
    requires Proper(renames) && SendsToSameTimes(since, renames)
    ensures RenameSinceAll(since, renames) == since
  {
    var after := RenameSinceAll(since, renames);
    forall y | y in since ensures y in after && after[y] == since[y] {
      var x := SentFromSome(since, renames, y);
      assert SameTime(since, renames, x);
      TimesFollow(since, renames, x);
    }
    ImageSize(since.Keys, renames);
    ImageAsLarge(since, renames);
    assert |after.Keys| == |after|;
    forall y | y in after ensures y in since {
      SameSizeHas(since.Keys, after.Keys, y);
    }
  }

  /** All the renames together leave the times as they were exactly then. */
  lemma SinceIsKeptIff(since: Times, renames: seq<Rename>)
    requires Proper(renames)
    ensures RenameSinceAll(since, renames) == since <==> SendsToSameTimes(since, renames)
  {
    if RenameSinceAll(since, renames) == since {
      KeptMeansSame(since, renames);
    }
    if SendsToSameTimes(since, renames) {
      SameMeansKept(since, renames);
    }
  }

  lemma OwedAreProper(env: Installed, next: Sop, renames: seq<Rename>)
    requires forall r :: r in renames ==> r in RenamesFor(env, next)
    ensures Proper(renames)
  {
    forall r | r in renames ensures r.from != r.to {
      if LatestOf(env, next.sop).Some? {
        OwedRenamesAreOwed(LatestOf(env, next.sop).value, next);
        OwedTargets(LatestOf(env, next.sop).value, next, r);
      }
    }
  }

  /** For every job of every run and every accepted installation of its definition, with the renames
      it owes in any order: the job keeps its times if and only if the renames, read as renames of
      tracks, send the tracks to tracks with the same times, no two to one. */
  lemma UpgradeKeepsTimesIff(env: Installed, commands: seq<Command>, job: JobId, next: Sop, renames: seq<Rename>)
    requires job in Run(env, commands).jobs && Run(env, commands).jobs[job].sop == next.sop
    requires Installs(InstalledAfter(env, commands), next)
    requires forall r :: r in renames <==> r in RenamesFor(InstalledAfter(env, commands), next)
    ensures var row := Run(env, commands).jobs[job];
            Carried(row, renames).since == row.since <==> SendsToSameTimes(row.since, renames)
  {
    OwedAreProper(InstalledAfter(env, commands), next, renames);
    SinceIsKeptIff(Run(env, commands).jobs[job].since, renames);
  }

  // ---- Where no rename follows another ----------------------------------------------------------------------

  /** No rename, of whichever track, leads to a name that a rename starts from. */
  predicate NoneFollows(renames: seq<Rename>) {
    forall r <- renames, s <- renames :: r.to != s.from
  }

  lemma {:induction false} RenamedIsGone(since: Times, renames: seq<Rename>, r: Rename)
    requires NoneFollows(renames) && r in renames
    ensures r.from !in RenameSinceAll(since, renames)
  {
    var before, last := renames[..|renames| - 1], renames[|renames| - 1];
    assert last in renames;
    if r in before {
      RenamedIsGone(since, before, r);
    } else {
      assert r == last;
    }
  }

  lemma {:induction false} UntouchedStand(since: Times, renames: seq<Rename>)
    requires forall r <- renames :: r.from !in since
    ensures RenameSinceAll(since, renames) == since
  {
    if renames != [] {
      UntouchedStand(since, renames[..|renames| - 1]);
      assert renames[|renames| - 1] in renames;
    }
  }

  /** Then the times stand exactly when no rename starts from a track's name. */
  lemma UnfollowedKeepTimesIff(since: Times, renames: seq<Rename>)
    requires NoneFollows(renames)
    ensures RenameSinceAll(since, renames) == since <==> forall r <- renames :: r.from !in since
  {
    if forall r <- renames :: r.from !in since {
      UntouchedStand(since, renames);
    } else {
      var r :| r in renames && r.from in since;
      RenamedIsGone(since, renames, r);
    }
  }
}
