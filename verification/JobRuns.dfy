/** Whole runs: every transaction of the job tools and of the installer keeps the invariant of
    JobHistory. */
module JobRuns {
  import opened Prelude
  import opened Sop
  import opened JobEngine
  import opened JobHistory

  // ---- One transaction keeps the invariant ------------------------------------------------

  lemma RowOutlivesGrowth(id: JobId, row: Job, receipts: map<ActionId, Receipt>, more: map<ActionId, Receipt>,
                          issued: set<ActionId>, moreIssued: set<ActionId>)
    requires RowSound(id, row, receipts, issued) && issued <= moreIssued
    requires forall a <- receipts :: a in more && more[a] == receipts[a]
    ensures RowSound(id, row, more, moreIssued)
  {
    forall k | 0 <= k < |row.events| && row.events[k].trail.Rests? ensures Rested(id, row, more, k) {
      assert Rested(id, row, receipts, k);
    }
  }

  /** Replacing one row by a sound one with a longer history keeps the database sound. */
  lemma RowReplaced(env: Installed, db: Db, next: Db, id: JobId, row: Job)
    requires Sound(env, db) && id in db.jobs
    requires next.jobs == db.jobs[id := row] && next.receipts == db.receipts && db.issued <= next.issued
    requires row.sop == db.jobs[id].sop && row.version == db.jobs[id].version
    requires |db.jobs[id].events| <= |row.events| && row.events[..|db.jobs[id].events|] == db.jobs[id].events
    requires RowSound(id, row, db.receipts, next.issued)
    ensures Sound(env, next)
  {
    forall other | other in next.jobs
      ensures DefinitionOf(env, next.jobs[other]).Some? && RowSound(other, next.jobs[other], next.receipts, next.issued)
    {
      if other != id {
        RowOutlivesGrowth(other, db.jobs[other], db.receipts, next.receipts, db.issued, next.issued);
      }
    }
    forall a | a in next.receipts ensures ReceiptSound(next, a) {
      assert ReceiptSound(db, a);
      var r := db.receipts[a];
      var m :| Made(db.jobs[r.job].events, m, r.step, a, Claimed);
      if r.job == id {
        assert row.events[m] == db.jobs[id].events[m];
      }
      assert Made(next.jobs[r.job].events, m, r.step, a, Claimed);
    }
  }

  lemma OpenKeepsSound(env: Installed, db: Db, c: Command)
    requires Sound(env, db) && c.Open? && Fresh(db, c)
    ensures Sound(env, OpenJob(env, db, c).0)
  {
    var next := OpenJob(env, db, c).0;
    if next != db {
      forall a | a in next.receipts ensures ReceiptSound(next, a) {
        assert ReceiptSound(db, a);
      }
    }
  }

  lemma ClaimKeepsSound(env: Installed, db: Db, job: JobId, row: Job, step: Step, claim: Claim)
    requires Sound(env, db) && Locate(env, db, job, claim.step) == Found(row, step)
    requires !Recorded(row.events, claim.step, Intent, claim.source) && claim.id !in db.issued
    requires claim.state == Claimed ==> claim.owner.Some?
    ensures Sound(env, WithClaim(db, job, row, step, claim))
  {
    var next := WithClaim(db, job, row, step, claim);
    var after := next.jobs[job];
    ClaimKeepsRow(job, row, after, step, claim, after.events[|row.events|], db.receipts, db.issued);
    RowReplaced(env, db, next, job, after);
  }

  lemma ReceiptAdded(env: Installed, db: Db, next: Db, job: JobId, t: TrackId, id: ActionId, r: Receipt)
    requires Sound(env, db) && job in db.jobs && t in db.jobs[job].pending && id !in db.receipts
    requires var claim := db.jobs[job].pending[t];
             claim.id == id && claim.state == Claimed && r.step == claim.step && r.job == job && r.sop == db.jobs[job].sop
    requires next == db.(receipts := db.receipts[id := r])
    ensures Sound(env, next)
  {
    forall other | other in next.jobs
      ensures DefinitionOf(env, next.jobs[other]).Some? && RowSound(other, next.jobs[other], next.receipts, next.issued)
    {
      RowOutlivesGrowth(other, db.jobs[other], db.receipts, next.receipts, db.issued, next.issued);
    }
    forall a | a in next.receipts ensures ReceiptSound(next, a) {
      if a == id {
        var k :| MadeFor(db.jobs[job], t, k);
      } else {
        assert ReceiptSound(db, a);
      }
    }
  }

  lemma ReceiptKeepsSound(env: Installed, db: Db, c: Command)
    requires Sound(env, db) && c.FinishReceipt?
    ensures Sound(env, WriteReceipt(db, c).0)
  {
    var next := WriteReceipt(db, c).0;
    if next != db {
      var row := db.jobs[c.job];
      ReceiptAdded(env, db, next, c.job, ClaimTrack(row.pending, c.id), c.id, Receipt(c.job, row.sop, c.step, c.source));
    }
  }

  /** An observation that is let through on a receipt has the begin behind it. */
  lemma TrustedWasBegun(env: Installed, db: Db, job: JobId, track: TrackId, source: SourceId)
    requires Sound(env, db) && job in db.jobs && track in db.jobs[job].pending
    requires Trusted(db, db.jobs[job].pending[track], job, db.jobs[job], db.jobs[job].pending[track].step, source)
    ensures var claim := db.jobs[job].pending[track];
            exists m :: Made(db.jobs[job].events, m, claim.step, claim.id, Claimed)
  {
    assert ReceiptSound(db, db.jobs[job].pending[track].id);
  }

  lemma ObservationKeepsSound(env: Installed, db: Db, c: Command)
    requires Sound(env, db) && c.Observe?
    ensures Sound(env, RecordObservation(env, db, c).0)
  {
    var next := RecordObservation(env, db, c).0;
    if next != db {
      var row := db.jobs[c.job];
      var step := StepOf(DefinitionOf(env, row).value, c.step).value;
      var trail := next.jobs[c.job].events[|row.events|].trail;
      if trail.Rests? {
        TrustedWasBegun(env, db, c.job, ClaimTrackOf(row.pending, c.step), c.source);
      }
      ObservationKeepsRow(c.job, row, step, c.source, c.now, trail, db.receipts, db.issued);
      RowReplaced(env, db, next, c.job, next.jobs[c.job]);
    }
  }

  lemma DropKeepsSound(env: Installed, db: Db, next: Db, job: JobId, track: TrackId, e: Event)
    requires Sound(env, db) && job in db.jobs && track in db.jobs[job].pending
    requires e.kind == ReconciledAbsent && e.trail == Drops(db.jobs[job].pending[track].id)
    requires !Recorded(db.jobs[job].events, e.step, ReconciledAbsent, e.source)
    requires var row := db.jobs[job];
             next == db.(jobs := db.jobs[job := row.(pending := row.pending - {track}, events := row.events + [e])])
    ensures Sound(env, next)
  {
    var row := db.jobs[job];
    DropKeepsRow(job, row, next.jobs[job], track, e, db.receipts, db.issued);
    RowReplaced(env, db, next, job, next.jobs[job]);
  }

  lemma ReconcileKeepsSound(env: Installed, db: Db, c: Command)
    requires Sound(env, db) && c.Reconcile?
    ensures Sound(env, ReconcileAbsent(db, c).0)
  {
    var next := ReconcileAbsent(db, c).0;
    if next != db {
      var row := db.jobs[c.job];
      var e := Event(c.step, ReconciledAbsent, c.source, false, c.evidence, Drops(c.id));
      DropKeepsSound(env, db, next, c.job, ClaimTrack(row.pending, c.id), e);
    }
  }

  lemma CollectKeepsSound(env: Installed, db: Db, c: Command)
    requires Sound(env, db) && c.Collect?
    ensures Sound(env, Apply(env, db, c).0)
  {
    var next := Apply(env, db, c).0;
    forall a | a in next.receipts ensures ReceiptSound(next, a) {
      assert ReceiptSound(db, a);
    }
  }

  /** What an installation leaves of a job: all but its positions, its times and its version. */
  lemma InstallCarries(env: Installed, db: Db, c: Command, job: JobId)
    requires c.Install? && job in db.jobs
    ensures var row, next := db.jobs[job], InstallSop(env, db, c).0;
            && next.jobs.Keys == db.jobs.Keys && next.receipts == db.receipts && next.issued == db.issued
            && next.jobs[job].pending == row.pending && next.jobs[job].events == row.events && next.jobs[job].sop == row.sop
            && next.jobs[job] == if Installs(env, c.definition) && row.sop == c.definition.sop
                                 then CarriedTo(row, c.definition, RenamesFor(env, c.definition)) else row
  {
  }

  lemma InstallKeepsSound(env: Installed, db: Db, c: Command)
    requires Sound(env, db) && c.Install?
    ensures Sound(NowInstalled(env, c.definition), InstallSop(env, db, c).0)
  {
    var next := InstallSop(env, db, c).0;
    forall id | id in next.jobs
      ensures DefinitionOf(NowInstalled(env, c.definition), next.jobs[id]).Some? && RowSound(id, next.jobs[id], next.receipts, next.issued)
    {
      InstallCarries(env, db, c, id);
      assert DefinitionOf(env, db.jobs[id]).Some?;
      CarryingKeepsRow(id, db.jobs[id], next.jobs[id], db.receipts, db.issued);
    }
    forall a | a in next.receipts ensures ReceiptSound(next, a) {
      assert ReceiptSound(db, a);
      InstallCarries(env, db, c, db.receipts[a].job);
    }
  }

  /** Every transaction, an installation too, keeps the invariant of runs under what is installed
      after it. */
  lemma TransactKeepsSound(env: Installed, db: Db, c: Command)
    requires Sound(env, db)
    ensures Sound(InstalledBy(env, c), Transact(env, db, c))
  {
    if Fresh(db, c) {
      match c
      case Open(_, _, _, _, _, _, _) => OpenKeepsSound(env, db, c);
      case Collect(_, _, _) => CollectKeepsSound(env, db, c);
      case Begin(job, step, source, _, owner, _, newId, now) =>
        if BeginAction(env, db, c).0 != db {
          var located := Locate(env, db, job, step);
          ClaimKeepsSound(env, db, job, located.row, located.step, Claim(step, newId, source, Claimed, now, Some(owner)));
        }
      case Reserve(job, step, source, newId, now) =>
        if ReserveIntent(env, db, c).0 != db {
          var located := Locate(env, db, job, step);
          ClaimKeepsSound(env, db, job, located.row, located.step, Claim(step, newId, source, Reserved, now, None));
        }
      case FinishReceipt(_, _, _, _) => ReceiptKeepsSound(env, db, c);
      case Observe(_, _, _, _, _) => ObservationKeepsSound(env, db, c);
      case Reconcile(_, _, _, _, _, _) => ReconcileKeepsSound(env, db, c);
      case Install(_) => InstallKeepsSound(env, db, c);
    }
  }

  lemma {:induction false} RunIsSound(env: Installed, commands: seq<Command>)
    ensures Sound(InstalledAfter(env, commands), Run(env, commands))
  {
    if commands != [] {
      var before := commands[..|commands| - 1];
      RunIsSound(env, before);
      TransactKeepsSound(InstalledAfter(env, before), Run(env, before), commands[|commands| - 1]);
    }
  }

  // ---- Runs end to end -------------------------------------------------------------------------

  predicate NoInstalls(commands: seq<Command>) {
    forall c <- commands :: !c.Install?
  }

  lemma RunExtends(env: Installed, commands: seq<Command>, c: Command)
    ensures Run(env, commands + [c]) == Transact(InstalledAfter(env, commands), Run(env, commands), c)
    ensures InstalledAfter(env, commands + [c]) == InstalledBy(InstalledAfter(env, commands), c)
  {
    assert (commands + [c])[..|commands|] == commands;
  }

  /** The last step of a run that is made of two. */
  lemma RunSplits(env: Installed, first: seq<Command>, rest: seq<Command>)
    requires rest != []
    ensures var before := first + rest[..|rest| - 1];
            && Run(env, first + rest) == Transact(InstalledAfter(env, before), Run(env, before), rest[|rest| - 1])
            && InstalledAfter(env, first + rest) == InstalledBy(InstalledAfter(env, before), rest[|rest| - 1])
  {
    assert (first + rest)[..|first + rest| - 1] == first + rest[..|rest| - 1];
  }

  lemma {:induction false} NothingInstalled(env: Installed, first: seq<Command>, rest: seq<Command>)
    requires NoInstalls(rest)
    ensures InstalledAfter(env, first + rest) == InstalledAfter(env, first)
  {
    if rest == [] {
      assert first + rest == first;
    } else {
      assert rest[|rest| - 1] in rest;
      RunSplits(env, first, rest);
      NothingInstalled(env, first, rest[..|rest| - 1]);
    }
  }
}
