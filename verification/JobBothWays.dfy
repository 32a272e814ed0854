/** Whether a claim can come to be both observed and reconciled absent, decided before the next
    installation and at it. */
module JobBothWays {
  import opened Sop
  import opened JobEngine
  import opened JobHistory
  import opened JobRuns
  import opened JobFitting
  import opened JobExclusive

  // ---- Up to the next installation -----------------------------------------------------------------

  /** With nothing installed any more, some claim comes to have gone both ways. */
  ghost predicate ComesBothWays(env: Installed, first: seq<Command>) {
    exists rest :: NoInstalls(rest) && BothWays(env, first + rest)
  }

  ghost predicate ComesToLeave(env: Installed, first: seq<Command>) {
    exists rest :: NoInstalls(rest) && LeavesSome(env, first + rest)
  }

  /** A claim on which an observation rests was dropped, or is pending and can be. */
  lemma RestedComesBothWays(env: Installed, first: seq<Command>)
    requires !AllRestedGone(Run(env, first))
    ensures ComesBothWays(env, first)
  {
    var db := Run(env, first);
    var job :| job in db.jobs && !RestedGone(db.jobs[job]);
    var id :| RestedIn(db.jobs[job].events, id) && (HasClaim(db.jobs[job].pending, id) || Dropped(db.jobs[job].events, id));
    if Dropped(db.jobs[job].events, id) {
      assert first + [] == first;
      assert GoneBothWays(Run(env, first + []), job, id);
      assert NoInstalls([]) && BothWays(env, first + []);
    } else {
      var t := ClaimTrack(db.jobs[job].pending, id);
      RestedIsClaimed(env, first, job, t);
      var c := RestedIsDropped(env, first, job, t);
      assert NoInstalls([c]) && BothWays(env, first + [c]);
    }
  }

  lemma RestedIsClaimed(env: Installed, commands: seq<Command>, job: JobId, t: TrackId)
    requires job in Run(env, commands).jobs && t in Run(env, commands).jobs[job].pending
    requires RestedIn(Run(env, commands).jobs[job].events, Run(env, commands).jobs[job].pending[t].id)
    ensures Run(env, commands).jobs[job].pending[t].state == Claimed
  {
    RunIsSound(env, commands);
    var db := Run(env, commands);
    var row := db.jobs[job];
    var k :| 0 <= k < |row.events| && row.events[k].trail == Rests(row.pending[t].id);
    assert RowSound(job, row, db.receipts, db.issued) && Rested(job, row, db.receipts, k);
    ReceiptIsItsOwn(env, commands, job, t);
  }

  lemma LeavingComesBothWays(env: Installed, first: seq<Command>, rest: seq<Command>)
    requires NoInstalls(rest) && LeavesSome(env, first + rest)
    ensures ComesBothWays(env, first)
  {
    var job, t :| StaysBehind(InstalledAfter(env, first + rest), Run(env, first + rest), job, t);
    var more := StaysBehindGoesBothWays(env, first + rest, job, t);
    assert first + rest + more == first + (rest + more);
    assert NoInstalls(rest + more) && BothWays(env, first + (rest + more));
  }

  /** From any state of any run, as long as nothing is installed: some claim comes to have gone both
      ways if and only if an observed claim is pending still, or was dropped, already, or a claim
      comes to be pending whose observation would leave its track standing. */
  lemma BothWaysIffStaying(env: Installed, first: seq<Command>)
    ensures ComesBothWays(env, first) <==> !AllRestedGone(Run(env, first)) || ComesToLeave(env, first)
  {
    if !AllRestedGone(Run(env, first)) {
      RestedComesBothWays(env, first);
    } else if ComesBothWays(env, first) {
      var rest :| NoInstalls(rest) && BothWays(env, first + rest);
      var n, job, t := BothWaysStayedBehind(env, first, rest);
      assert NoInstalls(rest[..n]) && LeavesSome(env, first + rest[..n]);
    } else if rest :| NoInstalls(rest) && LeavesSome(env, first + rest) {
      LeavingComesBothWays(env, first, rest);
    }
  }

  // ---- By the steps that can be begun -----------------------------------------------------------------

  /** A staying step comes to be begun. */
  ghost predicate ComesToBegin(env: Installed, first: seq<Command>) {
    exists rest, c :: NoInstalls(rest) && BeginsStaying(InstalledAfter(env, first), Run(env, first + rest), c)
  }

  lemma {:induction false} StaysGentle(env: Installed, first: seq<Command>, rest: seq<Command>)
    requires Gentle(env, first) && NoInstalls(rest)
    ensures Gentle(env, first + rest)
  {
    if rest == [] {
      assert first + rest == first;
    } else {
      assert rest[|rest| - 1] in rest;
      StaysGentle(env, first, rest[..|rest| - 1]);
      assert (first + rest)[..|first + rest| - 1] == first + rest[..|rest| - 1];
    }
  }

  lemma ReceiptsAreIssued(env: Installed, db: Db, id: ActionId)
    requires Sound(env, db) && id in db.receipts
    ensures id in db.issued
  {
    assert ReceiptSound(db, id);
    var r := db.receipts[id];
    assert RowSound(r.job, db.jobs[r.job], db.receipts, db.issued);
  }

  lemma BegunIsPut(env: Installed, db: Db, c: Command)
    requires BeginsStaying(env, db, c)
    ensures var next := Transact(env, db, c);
            var t := ClaimKey(Locate(env, db, c.job, c.step).step);
            && c.job in next.jobs && DefinitionOf(env, next.jobs[c.job]).Some? && t in next.jobs[c.job].pending
            && next.jobs[c.job].pending[t].id == c.newId && next.receipts == db.receipts
            && StaysPut(DefinitionOf(env, next.jobs[c.job]).value, next.jobs[c.job], t)
  {
  }

  /** In a run of fitting installations the claim of such a begin is the only one of its step, and
      stays behind. */
  lemma BegunIsBehind(env: Installed, commands: seq<Command>, c: Command)
    requires Gentle(env, commands) && BeginsStaying(InstalledAfter(env, commands), Run(env, commands), c)
    ensures LeavesSome(env, commands + [c])
  {
    var at, db := InstalledAfter(env, commands), Run(env, commands);
    var t := ClaimKey(Locate(at, db, c.job, c.step).step);
    RunIsSound(env, commands);
    RunExtends(env, commands, c);
    BegunIsPut(at, db, c);
    if c.newId in db.receipts {
      ReceiptsAreIssued(at, db, c.newId);
    }
    StaysGentle(env, commands, [c]);
    OnlyIsFirst(env, commands + [c], c.job, t);
    assert StaysBehind(at, Run(env, commands + [c]), c.job, t);
  }

  lemma OnlyIsFirst(env: Installed, commands: seq<Command>, job: JobId, t: TrackId)
    requires Gentle(env, commands) && job in Run(env, commands).jobs && t in Run(env, commands).jobs[job].pending
    ensures IsFirstOf(Run(env, commands).jobs[job].pending, Run(env, commands).jobs[job].pending[t].step, t)
  {
    var pending := Run(env, commands).jobs[job].pending;
    forall u | u in pending && pending[u].step == pending[t].step ensures Precedes(t, u) {
      OneClaimPerStep(env, commands, job, t, u);
      PrecedesIsAnOrder(t, u);
    }
  }

  lemma LeavingNoneStaysNone(env: Installed, commands: seq<Command>)
    requires Gentle(env, commands) && !LeavesSome(env, commands)
    ensures NoneStays(InstalledAfter(env, commands), Run(env, commands))
  {
    RunIsSound(env, commands);
    var at, db := InstalledAfter(env, commands), Run(env, commands);
    forall job, t | job in db.jobs && t in db.jobs[job].pending
      ensures !LeftBehind(DefinitionOf(at, db.jobs[job]).value, db.jobs[job], db.receipts, t)
    {
      OnlyIsFirst(env, commands, job, t);
      assert !StaysBehind(at, db, job, t);
    }
  }

  lemma BothWaysWasBegun(env: Installed, first: seq<Command>, rest: seq<Command>)
    requires Gentle(env, first) && AllRestedGone(Run(env, first)) && !LeavesSome(env, first)
    requires NoInstalls(rest) && BothWays(env, first + rest)
    ensures ComesToBegin(env, first)
  {
    var n, job, t := BothWaysStayedBehind(env, first, rest);
    BehindIsStaying(InstalledAfter(env, first + rest[..n]), Run(env, first + rest[..n]), job, t);
    LeavingNoneStaysNone(env, first);
    var m := StayingComesFrom(env, first, rest[..n]);
    assert rest[..n][..m] == rest[..m] && rest[m] in rest;
    NothingInstalled(env, first, rest[..m]);
    assert NoInstalls(rest[..m]) && BeginsStaying(InstalledAfter(env, first), Run(env, first + rest[..m]), rest[m]);
  }

  lemma BegunComesBothWays(env: Installed, first: seq<Command>, rest: seq<Command>, c: Command)
    requires Gentle(env, first) && NoInstalls(rest) && BeginsStaying(InstalledAfter(env, first), Run(env, first + rest), c)
    ensures ComesBothWays(env, first)
  {
    NothingInstalled(env, first, rest);
    StaysGentle(env, first, rest);
    BegunIsBehind(env, first + rest, c);
    assert first + rest + [c] == first + (rest + [c]) && NoInstalls(rest + [c]);
    LeavingComesBothWays(env, first, rest + [c]);
  }

  /** After a run whose installations left fitting claims, and as long as nothing is installed: some
      claim comes to have gone both ways if and only if an observed claim is pending still, or was
      dropped, already, or one stays behind already, or a staying step can come to be begun. */
  lemma BothWaysIffBegun(env: Installed, first: seq<Command>)
    requires Gentle(env, first)
    ensures ComesBothWays(env, first) <==> !AllRestedGone(Run(env, first)) || LeavesSome(env, first) || ComesToBegin(env, first)
  {
    if !AllRestedGone(Run(env, first)) {
      RestedComesBothWays(env, first);
    } else if LeavesSome(env, first) {
      assert first + [] == first;
      LeavingComesBothWays(env, first, []);
    } else if rest :| NoInstalls(rest) && BothWays(env, first + rest) {
      BothWaysWasBegun(env, first, rest);
    } else if rest, c :| NoInstalls(rest) && BeginsStaying(InstalledAfter(env, first), Run(env, first + rest), c) {
      BegunComesBothWays(env, first, rest, c);
    }
  }

  /** From the beginning, and with nothing installed, that is the begin of a staying step. */
  lemma BothWaysAtFirstIffBegun(env: Installed)
    ensures ComesBothWays(env, []) <==> ComesToBegin(env, [])
  {
    BothWaysIffBegun(env, []);
  }

  // ---- At the next installation --------------------------------------------------------------------------

  /** A run in which no staying step is begun and no installation leaves a claim behind. */
  ghost predicate LetsNoneStay(env: Installed, commands: seq<Command>) {
    forall n :: 0 <= n < |commands| ==> !LetsStay(InstalledAfter(env, commands[..n]), Run(env, commands[..n]), commands[n])
  }

  lemma {:induction false} NoneStayedSoFar(env: Installed, commands: seq<Command>, n: nat)
    requires LetsNoneStay(env, commands) && n <= |commands|
    ensures NoneStays(InstalledAfter(env, commands[..n]), Run(env, commands[..n]))
  {
    if n > 0 {
      NoneStayedSoFar(env, commands, n - 1);
      RunExtends(env, commands[..n - 1], commands[n - 1]);
      assert commands[..n - 1] + [commands[n - 1]] == commands[..n];
      TransactKeepsNoneStaying(InstalledAfter(env, commands[..n - 1]), Run(env, commands[..n - 1]), commands[n - 1]);
    }
  }

  lemma NoneWasBehind(env: Installed, commands: seq<Command>)
    requires LetsNoneStay(env, commands)
    ensures AllRestedGone(Run(env, commands))
  {
    forall n, job, t ensures !BehindAt(env, [], commands, n, job, t) {
      if 0 <= n < |commands| {
        assert [] + commands[..n] == commands[..n];
        NoneStayedSoFar(env, commands, n);
      }
    }
    RunRestsGone(env, [], commands);
    assert [] + commands == commands;
  }

  /** In such a run, if its installations left fitting claims, each step has one pending claim at most
      and none that is pending was observed. */
  lemma EachHasOne(env: Installed, commands: seq<Command>, job: JobId)
    requires Gentle(env, commands) && LetsNoneStay(env, commands) && job in Run(env, commands).jobs
    ensures OneEach(Run(env, commands).jobs[job])
  {
    NoneWasBehind(env, commands);
    var row := Run(env, commands).jobs[job];
    assert RestedGone(row);
    forall a, b | a in row.pending && b in row.pending && row.pending[a].step == row.pending[b].step ensures a == b {
      OneClaimPerStep(env, commands, job, a, b);
    }
    forall t | t in row.pending ensures !RestedIn(row.events, row.pending[t].id) {
      assert HasClaim(row.pending, row.pending[t].id);
    }
  }

  /** After every run whose installations left fitting claims, and in which nothing has let a claim
      stay behind: the next accepted installation lets some claim that it carries go both ways if and
      only if it leaves one behind. */
  lemma NextUpgradeLetsBothWaysIff(env: Installed, commands: seq<Command>, c: Command)
    requires Gentle(env, commands) && LetsNoneStay(env, commands)
    requires c.Install? && Installs(InstalledAfter(env, commands), c.definition)
    ensures var db := Run(env, commands);
            (exists job, t :: job in db.jobs && db.jobs[job].sop == c.definition.sop && t in db.jobs[job].pending
               && CanGoBothWays(env, commands + [c], job, db.jobs[job].pending[t].id))
            <==> InstallsStaying(InstalledAfter(env, commands), db, c)
  {
    forall job | job in Run(env, commands).jobs ensures OneEach(Run(env, commands).jobs[job]) {
      EachHasOne(env, commands, job);
    }
    UpgradeLetsBothWaysIff(env, commands, c);
  }
}
