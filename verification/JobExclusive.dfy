/** When a claim can be both observed and reconciled absent: only while observing its step, as the
    definition in force has it, would leave the claim's track where it is; and then it really can.
    A claim comes into that by the begin of such a step, or by an installation. */
module JobExclusive {
  import opened Prelude
  import opened Sop
  import opened SopForward
  import opened JobEngine
  import opened JobHistory
  import opened JobRuns
  import opened JobTheorems

  predicate RestedIn(events: seq<Event>, id: ActionId) {
    exists k :: 0 <= k < |events| && events[k].trail == Rests(id)
  }

  predicate Dropped(events: seq<Event>, id: ActionId) {
    exists d :: 0 <= d < |events| && events[d].trail == Drops(id)
  }

  predicate GoneBothWays(db: Db, job: JobId, id: ActionId) {
    job in db.jobs && RestedIn(db.jobs[job].events, id) && Dropped(db.jobs[job].events, id)
  }

  // ---- A claim that is left behind --------------------------------------------------------------

  /** Observing the claim's step by its tool would leave the claim where it is. */
  predicate StaysPut(sop: Sop, row: Job, t: TrackId)
    requires t in row.pending
  {
    var claim := row.pending[t];
    && claim.state == Claimed && StepOf(sop, claim.step).Some?
    && StepOf(sop, claim.step).value.observedVia == AGENT_ACTION
    && StaysOn(StepOf(sop, claim.step).value, t, PlaceOf(row.positions, t))
  }

  /** The receipt that the claim has, if it has one, is of a source not yet observed for its step. */
  predicate Observable(row: Job, receipts: map<ActionId, Receipt>, t: TrackId)
    requires t in row.pending
  {
    var claim := row.pending[t];
    claim.id in receipts ==> !Recorded(row.events, claim.step, Observation, receipts[claim.id].source)
  }

  /** The claim of its step that is met first, still to be observed, and left behind by that. */
  predicate StaysBehind(env: Installed, db: Db, job: JobId, t: TrackId) {
    && job in db.jobs && DefinitionOf(env, db.jobs[job]).Some?
    && t in db.jobs[job].pending && IsFirstOf(db.jobs[job].pending, db.jobs[job].pending[t].step, t)
    && StaysPut(DefinitionOf(env, db.jobs[job]).value, db.jobs[job], t) && Observable(db.jobs[job], db.receipts, t)
  }

  // ---- It can go both ways --------------------------------------------------------------------------

  /** A source id no event carries. */
  lemma UnusedSource(events: seq<Event>) returns (source: SourceId)
    ensures source != "" && forall e <- events :: |e.source| < |source|
  {
    if events == [] {
      source := "x";
    } else {
      var rest := UnusedSource(events[1..]);
      source := rest + events[0].source;
      assert forall e :: e in events <==> e == events[0] || e in events[1..];
    }
  }

  lemma LongerIsUnrecorded(events: seq<Event>, source: SourceId, step: StepId, kind: EventKind)
    requires forall e <- events :: |e.source| < |source|
    ensures !Recorded(events, step, kind, source)
  {
  }

  lemma ReceiptIsItsOwn(env: Installed, commands: seq<Command>, job: JobId, t: TrackId)
    requires job in Run(env, commands).jobs && t in Run(env, commands).jobs[job].pending
    requires Run(env, commands).jobs[job].pending[t].id in Run(env, commands).receipts
    ensures var db := Run(env, commands);
            var claim := db.jobs[job].pending[t];
            claim.state == Claimed && db.receipts[claim.id] == Receipt(job, db.jobs[job].sop, claim.step, db.receipts[claim.id].source)
  {
    RunIsSound(env, commands);
    RunMakesApart(env, commands);
    var db := Run(env, commands);
    OwnReceipt(db, job, t);
  }

  lemma OwnReceipt(db: Db, job: JobId, t: TrackId)
    requires MadeApart(db) && job in db.jobs && t in db.jobs[job].pending
    requires ClaimsMade(db.jobs[job]) && MadeOnce(db.jobs[job].events)
    requires db.jobs[job].pending[t].id in db.receipts && ReceiptSound(db, db.jobs[job].pending[t].id)
    ensures var claim := db.jobs[job].pending[t];
            claim.state == Claimed && db.receipts[claim.id] == Receipt(job, db.jobs[job].sop, claim.step, db.receipts[claim.id].source)
  {
    var claim := db.jobs[job].pending[t];
    var r := db.receipts[claim.id];
    var m :| Made(db.jobs[r.job].events, m, r.step, claim.id, Claimed);
    var k :| MadeFor(db.jobs[job], t, k);
    assert MakesAt(db.jobs[r.job].events, m, claim.id) && MakesAt(db.jobs[job].events, k, claim.id);
    assert r.job == job && m == k;
  }

  lemma ReceiptFollows(db: Db, job: JobId, t: TrackId, source: SourceId)
    requires job in db.jobs && t in db.jobs[job].pending && db.jobs[job].pending[t].state == Claimed
    requires ClaimsMade(db.jobs[job]) && MadeOnce(db.jobs[job].events)
    requires var claim := db.jobs[job].pending[t];
             claim.id in db.receipts ==> db.receipts[claim.id] == Receipt(job, db.jobs[job].sop, claim.step, source)
    ensures var claim := db.jobs[job].pending[t];
            WriteReceipt(db, FinishReceipt(job, claim.step, source, claim.id)).0
            == db.(receipts := db.receipts[claim.id := Receipt(job, db.jobs[job].sop, claim.step, source)])
  {
    var row := db.jobs[job];
    assert HasClaim(row.pending, row.pending[t].id);
    ClaimsDiffer(row, t, ClaimTrack(row.pending, row.pending[t].id));
    if row.pending[t].id in db.receipts {
      assert db.receipts == db.receipts[row.pending[t].id := db.receipts[row.pending[t].id]];
    }
  }

  lemma ObservationFollows(env: Installed, db: Db, job: JobId, t: TrackId, source: SourceId)
    requires StaysBehind(env, db, job, t)
    requires var claim := db.jobs[job].pending[t];
             claim.id in db.receipts && db.receipts[claim.id] == Receipt(job, db.jobs[job].sop, claim.step, source)
    ensures var claim := db.jobs[job].pending[t];
            var step := StepOf(DefinitionOf(env, db.jobs[job]).value, claim.step).value;
            RecordObservation(env, db, Observe(job, claim.step, source, false, 0)).0
            == db.(jobs := db.jobs[job := AfterObservation(db.jobs[job], step, source, 0, Rests(claim.id))])
  {
    var row := db.jobs[job];
    assert HasClaimOf(row.pending, row.pending[t].step);
    OneIsFirst(row.pending, row.pending[t].step, t, ClaimTrackOf(row.pending, row.pending[t].step));
  }

  lemma DropFollows(db: Db, job: JobId, t: TrackId, source: SourceId)
    requires job in db.jobs && t in db.jobs[job].pending && db.jobs[job].pending[t].owner.Some?
    requires ClaimsMade(db.jobs[job]) && MadeOnce(db.jobs[job].events)
    requires !Recorded(db.jobs[job].events, db.jobs[job].pending[t].step, ReconciledAbsent, source)
    ensures var row := db.jobs[job];
            var claim := row.pending[t];
            var next := ReconcileAbsent(db, Reconcile(job, claim.step, source, claim.id, Some("read"), false)).0;
            job in next.jobs && next.jobs[job].events
              == row.events + [Event(claim.step, ReconciledAbsent, source, false, Some("read"), Drops(claim.id))]
  {
    var row := db.jobs[job];
    assert HasClaim(row.pending, row.pending[t].id);
    ClaimsDiffer(row, t, ClaimTrack(row.pending, row.pending[t].id));
  }

  /** The receipt that its completion would leave, whichever source it has. */
  lemma IsProved(env: Installed, commands: seq<Command>, job: JobId, t: TrackId) returns (more: seq<Command>, source: SourceId)
    requires StaysBehind(InstalledAfter(env, commands), Run(env, commands), job, t)
    ensures NoInstalls(more)
    ensures var db := Run(env, commands);
            var claim := db.jobs[job].pending[t];
            && Run(env, commands + more) == db.(receipts := db.receipts[claim.id := Receipt(job, db.jobs[job].sop, claim.step, source)])
            && !Recorded(db.jobs[job].events, claim.step, Observation, source)
  {
    RunOwnsClaims(env, commands, job);
    var db := Run(env, commands);
    var claim := db.jobs[job].pending[t];
    if claim.id in db.receipts {
      source := db.receipts[claim.id].source;
      ReceiptIsItsOwn(env, commands, job, t);
    } else {
      source := UnusedSource(db.jobs[job].events);
      LongerIsUnrecorded(db.jobs[job].events, source, claim.step, Observation);
    }
    ReceiptFollows(db, job, t, source);
    more := [FinishReceipt(job, claim.step, source, claim.id)];
    RunExtends(env, commands, more[0]);
  }

  lemma ProvedIsObserved(env: Installed, commands: seq<Command>, job: JobId, t: TrackId, source: SourceId) returns (c: Command)
    requires StaysBehind(InstalledAfter(env, commands), Run(env, commands), job, t)
    requires var db := Run(env, commands);
             var claim := db.jobs[job].pending[t];
             claim.id in db.receipts && db.receipts[claim.id] == Receipt(job, db.jobs[job].sop, claim.step, source)
    ensures !c.Install?
    ensures var db, next := Run(env, commands), Run(env, commands + [c]);
            var claim := db.jobs[job].pending[t];
            && job in next.jobs && t in next.jobs[job].pending && next.jobs[job].pending[t] == claim
            && RestedIn(next.jobs[job].events, claim.id)
  {
    var at, db := InstalledAfter(env, commands), Run(env, commands);
    var row := db.jobs[job];
    var claim := row.pending[t];
    var step := StepOf(DefinitionOf(at, row).value, claim.step).value;
    c := Observe(job, claim.step, source, false, 0);
    RunExtends(env, commands, c);
    ObservationFollows(at, db, job, t, source);
    ObservationFreesUnlessStays(row, t, step, source, 0, Rests(claim.id));
    var next := Run(env, commands + [c]);
    assert next.jobs[job].events[|row.events|].trail == Rests(claim.id);
  }

  lemma RestedIsDropped(env: Installed, commands: seq<Command>, job: JobId, t: TrackId) returns (c: Command)
    requires var db := Run(env, commands);
             job in db.jobs && t in db.jobs[job].pending && db.jobs[job].pending[t].state == Claimed
             && RestedIn(db.jobs[job].events, db.jobs[job].pending[t].id)
    ensures !c.Install? && GoneBothWays(Run(env, commands + [c]), job, Run(env, commands).jobs[job].pending[t].id)
  {
    RunOwnsClaims(env, commands, job);
    var db := Run(env, commands);
    var row := db.jobs[job];
    var claim := row.pending[t];
    var source := UnusedSource(row.events);
    LongerIsUnrecorded(row.events, source, claim.step, ReconciledAbsent);
    c := Reconcile(job, claim.step, source, claim.id, Some("read"), false);
    RunExtends(env, commands, c);
    DropFollows(db, job, t, source);
    var e := Event(claim.step, ReconciledAbsent, source, false, Some("read"), Drops(claim.id));
    RestedThenDropped(row.events, e, claim.id);
  }

  lemma RestedThenDropped(events: seq<Event>, e: Event, id: ActionId)
    requires RestedIn(events, id) && e.trail == Drops(id)
    ensures RestedIn(events + [e], id) && Dropped(events + [e], id)
  {
    var k :| 0 <= k < |events| && events[k].trail == Rests(id);
    assert (events + [e])[k].trail == Rests(id) && (events + [e])[|events|].trail == Drops(id);
  }

  /** A claim that stays behind can be observed and then reconciled absent, with nothing installed
      meanwhile. */
  lemma StaysBehindGoesBothWays(env: Installed, commands: seq<Command>, job: JobId, t: TrackId) returns (rest: seq<Command>)
    requires StaysBehind(InstalledAfter(env, commands), Run(env, commands), job, t)
    ensures NoInstalls(rest) && GoneBothWays(Run(env, commands + rest), job, Run(env, commands).jobs[job].pending[t].id)
  {
    var more, source := IsProved(env, commands, job, t);
    NothingInstalled(env, commands, more);
    assert StaysBehind(InstalledAfter(env, commands + more), Run(env, commands + more), job, t);
    var observe := ProvedIsObserved(env, commands + more, job, t, source);
    var drop := RestedIsDropped(env, commands + more + [observe], job, t);
    rest := more + [observe] + [drop];
    assert commands + more + [observe] + [drop] == commands + rest;
  }

  // ---- Nothing else can ----------------------------------------------------------------------------------

  /** What an event that rests on a claim, or drops one, says of the claims before and after it. */
  ghost predicate UsesClaim(sop: Sop, db: Db, job: JobId, next: Job, e: Event)
    requires job in db.jobs
  {
    var row := db.jobs[job];
    && (e.trail.Rests? ==>
          && e.kind == Observation && StepOf(sop, e.step).Some? && StepOf(sop, e.step).value.observedVia == AGENT_ACTION
          && !Recorded(row.events, e.step, Observation, e.source)
          && exists u :: IsFirstOf(row.pending, e.step, u) && row.pending[u].id == e.trail.id
               && Trusted(db, row.pending[u], job, row, e.step, e.source))
    && (e.trail.Drops? ==> HasClaim(row.pending, e.trail.id) && !HasClaim(next.pending, e.trail.id))
  }

  ghost predicate JobUses(env: Installed, db: Db, next: Db, job: JobId)
    requires job in db.jobs
  {
    && job in next.jobs && DefinitionOf(env, db.jobs[job]).Some?
    && (next.jobs[job] != db.jobs[job] ==>
          next.jobs[job].events != []
          && UsesClaim(DefinitionOf(env, db.jobs[job]).value, db, job, next.jobs[job], next.jobs[job].events[|next.jobs[job].events| - 1]))
  }

  lemma BeginUsesNone(env: Installed, db: Db, c: Command, job: JobId)
    requires c.Begin? && job in db.jobs && DefinitionOf(env, db.jobs[job]).Some?
    ensures JobUses(env, db, BeginAction(env, db, c).0, job)
  {
  }

  lemma ReserveUsesNone(env: Installed, db: Db, c: Command, job: JobId)
    requires c.Reserve? && job in db.jobs && DefinitionOf(env, db.jobs[job]).Some?
    ensures JobUses(env, db, ReserveIntent(env, db, c).0, job)
  {
  }

  lemma ObserveUses(env: Installed, db: Db, c: Command, job: JobId)
    requires c.Observe? && job in db.jobs && DefinitionOf(env, db.jobs[job]).Some?
    ensures JobUses(env, db, RecordObservation(env, db, c).0, job)
  {
  }

  lemma ReconcileUses(env: Installed, db: Db, c: Command, job: JobId)
    requires c.Reconcile? && job in db.jobs && DefinitionOf(env, db.jobs[job]).Some?
    requires ClaimsMade(db.jobs[job]) && MadeOnce(db.jobs[job].events)
    ensures JobUses(env, db, ReconcileAbsent(db, c).0, job)
  {
    var next := ReconcileAbsent(db, c).0;
    if next.jobs[job] != db.jobs[job] {
      DroppedIsGone(db.jobs[job], next.jobs[job], ClaimTrack(db.jobs[job].pending, c.id));
    }
  }

  lemma TransactUses(env: Installed, db: Db, c: Command, job: JobId)
    requires !c.Install? && job in db.jobs && DefinitionOf(env, db.jobs[job]).Some?
    requires ClaimsMade(db.jobs[job]) && MadeOnce(db.jobs[job].events)
    ensures JobUses(env, db, Transact(env, db, c), job)
  {
    if Fresh(db, c) {
      match c
      case Open(_, _, _, _, _, _, _) => OpenLeaves(env, db, c, job);
      case Begin(_, _, _, _, _, _, _, _) => BeginUsesNone(env, db, c, job);
      case Reserve(_, _, _, _, _) => ReserveUsesNone(env, db, c, job);
      case FinishReceipt(_, _, _, _) =>
      case Observe(_, _, _, _, _) => ObserveUses(env, db, c, job);
      case Reconcile(_, _, _, _, _, _) => ReconcileUses(env, db, c, job);
      case Collect(_, _, _) =>
    }
  }

  // ---- What one transaction keeps -----------------------------------------------------------------------

  lemma OneMoreEvent(events: seq<Event>, e: Event, id: ActionId)
    ensures RestedIn(events + [e], id) <==> RestedIn(events, id) || e.trail == Rests(id)
    ensures Dropped(events + [e], id) <==> Dropped(events, id) || e.trail == Drops(id)
  {
    var next := events + [e];
    if k :| 0 <= k < |events| && events[k].trail == Rests(id) {
      assert next[k].trail == Rests(id);
    }
    if d :| 0 <= d < |events| && events[d].trail == Drops(id) {
      assert next[d].trail == Drops(id);
    }
    assert next[|events|] == e;
  }

  /** A claim that is pending after a step was pending before it, unless its id is new. */
  lemma PendingBefore(sop: Sop, row: Job, next: Job, issued: set<ActionId>, id: ActionId)
    requires RowSteps(sop, row, next, issued) && id in issued && HasClaim(next.pending, id)
    ensures exists u :: u in row.pending && u in next.pending && row.pending[u].id == id && next.pending[u] == row.pending[u]
  {
    var u :| u in next.pending && next.pending[u].id == id;
    if next != row {
      var e := next.events[|next.events| - 1];
      assert Observes(sop, row, next, e) || ChangesClaims(sop, row, next, e, issued);
    }
    assert u in row.pending;
  }

  /** A receipt lets observations through for a claimed step only, never for a reserved one. */
  lemma TrustedIsClaimed(env: Installed, db: Db, job: JobId, u: TrackId, source: SourceId)
    requires Sound(env, db) && job in db.jobs && u in db.jobs[job].pending
    requires Trusted(db, db.jobs[job].pending[u], job, db.jobs[job], db.jobs[job].pending[u].step, source)
    ensures db.jobs[job].pending[u].state == Claimed
  {
    TrustedWasBegun(env, db, job, u, source);
    var claim := db.jobs[job].pending[u];
    var m :| Made(db.jobs[job].events, m, claim.step, claim.id, Claimed);
    var k :| MadeFor(db.jobs[job], u, k);
  }

  /** The observation that rests on a claim leaves it only if the claim stays behind. */
  lemma RestingFreesUnlessBehind(env: Installed, db: Db, job: JobId, next: Job, e: Event)
    requires Sound(env, db) && job in db.jobs && e.trail.Rests?
    requires var sop := DefinitionOf(env, db.jobs[job]).value;
             Grows(db.jobs[job], next, e) && Observes(sop, db.jobs[job], next, e) && UsesClaim(sop, db, job, next, e)
    ensures HasClaim(db.jobs[job].pending, e.trail.id)
    ensures HasClaim(next.pending, e.trail.id) ==>
              exists u :: StaysBehind(env, db, job, u) && db.jobs[job].pending[u].id == e.trail.id
  {
    var row := db.jobs[job];
    var sop := DefinitionOf(env, row).value;
    var u :| IsFirstOf(row.pending, e.step, u) && row.pending[u].id == e.trail.id && Trusted(db, row.pending[u], job, row, e.step, e.source);
    TrustedIsClaimed(env, db, job, u, e.source);
    if w :| w in next.pending && next.pending[w].id == e.trail.id {
      assert RowSound(job, row, db.receipts, db.issued);
      ClaimsDiffer(row, w, u);
      MovesUnlessStays(StepOf(sop, e.step).value, row.positions, u);
      assert StaysBehind(env, db, job, u);
    }
  }

  /** Whatever was observed on a claim is pending no more, and was not dropped. */
  ghost predicate RestedGone(row: Job) {
    forall id :: RestedIn(row.events, id) ==> !HasClaim(row.pending, id) && !Dropped(row.events, id)
  }

  lemma RowKeepsRestedGone(env: Installed, db: Db, job: JobId, next: Job, id: ActionId)
    requires Sound(env, db) && job in db.jobs && RestedGone(db.jobs[job]) && next != db.jobs[job] && next.events != []
    requires var sop := DefinitionOf(env, db.jobs[job]).value;
             RowSteps(sop, db.jobs[job], next, db.issued) && UsesClaim(sop, db, job, next, next.events[|next.events| - 1])
    requires forall t :: !StaysBehind(env, db, job, t)
    requires RestedIn(next.events, id)
    ensures !HasClaim(next.pending, id) && !Dropped(next.events, id)
  {
    var row := db.jobs[job];
    var sop := DefinitionOf(env, row).value;
    var e := next.events[|next.events| - 1];
    OneMoreEvent(row.events, e, id);
    assert RowSound(job, row, db.receipts, db.issued);
    if e.trail == Rests(id) {
      RestingFreesUnlessBehind(env, db, job, next, e);
      DroppedWasPending(row, id);
    } else {
      RestedIsIssued(row, db.issued, id);
      if HasClaim(next.pending, id) {
        PendingBefore(sop, row, next, db.issued, id);
        assert HasClaim(row.pending, id);
      }
    }
  }

  lemma DroppedWasPending(row: Job, id: ActionId)
    requires DroppedGone(row) && HasClaim(row.pending, id)
    ensures !Dropped(row.events, id)
  {
  }

  lemma RestedIsIssued(row: Job, issued: set<ActionId>, id: ActionId)
    requires TrailsIssued(row.events, issued) && RestedIn(row.events, id)
    ensures id in issued
  {
  }

  // ---- Over whole runs -------------------------------------------------------------------------------------

  ghost predicate AllRestedGone(db: Db) {
    forall job <- db.jobs :: RestedGone(db.jobs[job])
  }

  lemma TransactKeepsRestedGone(env: Installed, db: Db, c: Command)
    requires Sound(env, db) && AllRestedGone(db) && forall job, t :: !StaysBehind(env, db, job, t)
    ensures AllRestedGone(Transact(env, db, c))
  {
    var next := Transact(env, db, c);
    forall job | job in next.jobs ensures RestedGone(next.jobs[job]) {
      if c.Install? {
        InstallCarries(env, db, c, job);
      } else if job !in db.jobs {
        OpenedAtStart(env, db, c, job);
      } else {
        assert RowSound(job, db.jobs[job], db.receipts, db.issued);
        TransactSteps(env, db, c, job);
        TransactUses(env, db, c, job);
        if next.jobs[job] != db.jobs[job] {
          forall id | RestedIn(next.jobs[job].events, id)
            ensures !HasClaim(next.jobs[job].pending, id) && !Dropped(next.jobs[job].events, id)
          {
            RowKeepsRestedGone(env, db, job, next.jobs[job], id);
          }
        }
      }
    }
  }

  /** A claim that stays behind at some moment of the second part of a run. */
  ghost predicate BehindAt(env: Installed, first: seq<Command>, rest: seq<Command>, n: int, job: JobId, t: TrackId) {
    0 <= n < |rest| && StaysBehind(InstalledAfter(env, first + rest[..n]), Run(env, first + rest[..n]), job, t)
  }

  lemma {:induction false} RunRestsGone(env: Installed, first: seq<Command>, rest: seq<Command>)
    requires AllRestedGone(Run(env, first)) && forall n, job, t :: !BehindAt(env, first, rest, n, job, t)
    ensures AllRestedGone(Run(env, first + rest))
  {
    if rest == [] {
      assert first + rest == first;
    } else {
      var last := |rest| - 1;
      forall n, job, t ensures !BehindAt(env, first, rest[..last], n, job, t) {
        assert 0 <= n < last ==> rest[..last][..n] == rest[..n];
        assert !BehindAt(env, first, rest, n, job, t);
      }
      RunRestsGone(env, first, rest[..last]);
      RunIsSound(env, first + rest[..last]);
      RunSplits(env, first, rest);
      forall job, t ensures !StaysBehind(InstalledAfter(env, first + rest[..last]), Run(env, first + rest[..last]), job, t) {
        assert !BehindAt(env, first, rest, last, job, t);
      }
      TransactKeepsRestedGone(InstalledAfter(env, first + rest[..last]), Run(env, first + rest[..last]), rest[last]);
    }
  }

  /** Some claim of the run was both observed and reconciled absent. */
  ghost predicate BothWays(env: Installed, commands: seq<Command>) {
    exists job, id :: GoneBothWays(Run(env, commands), job, id)
  }

  lemma NeverBothWays(env: Installed, first: seq<Command>, rest: seq<Command>)
    requires AllRestedGone(Run(env, first)) && forall n, job, t :: !BehindAt(env, first, rest, n, job, t)
    ensures !BothWays(env, first + rest)
  {
    RunRestsGone(env, first, rest);
    forall job, id ensures !GoneBothWays(Run(env, first + rest), job, id) {
      if job in Run(env, first + rest).jobs {
        assert RestedGone(Run(env, first + rest).jobs[job]);
      }
    }
  }

  lemma BothWaysStayedBehind(env: Installed, first: seq<Command>, rest: seq<Command>) returns (n: int, job: JobId, t: TrackId)
    requires AllRestedGone(Run(env, first)) && BothWays(env, first + rest)
    ensures BehindAt(env, first, rest, n, job, t)
  {
    if forall n, job, t :: !BehindAt(env, first, rest, n, job, t) {
      NeverBothWays(env, first, rest);
    }
    n, job, t :| BehindAt(env, first, rest, n, job, t);
  }

  ghost predicate LeavesSome(env: Installed, commands: seq<Command>) {
    exists job, t :: StaysBehind(InstalledAfter(env, commands), Run(env, commands), job, t)
  }

  lemma BehindHasBothWays(env: Installed, commands: seq<Command>, job: JobId, t: TrackId)
    requires NoInstalls(commands) && StaysBehind(InstalledAfter(env, commands), Run(env, commands), job, t)
    ensures exists more :: NoInstalls(more) && BothWays(env, more)
  {
    var rest := StaysBehindGoesBothWays(env, commands, job, t);
    assert NoInstalls(commands + rest) && BothWays(env, commands + rest);
  }

  // ---- Where such a claim comes from -------------------------------------------------------------------------

  predicate LeftBehind(sop: Sop, row: Job, receipts: map<ActionId, Receipt>, t: TrackId)
    requires t in row.pending
  {
    StaysPut(sop, row, t) && Observable(row, receipts, t)
  }

  predicate NoneStays(env: Installed, db: Db) {
    forall job <- db.jobs :: DefinitionOf(env, db.jobs[job]).Some?
      && forall t <- db.jobs[job].pending :: !LeftBehind(DefinitionOf(env, db.jobs[job]).value, db.jobs[job], db.receipts, t)
  }

  /** This accepted begin claims an agent_action step that would stay in place. */
  ghost predicate BeginsStaying(env: Installed, db: Db, c: Command) {
    && c.Begin? && Fresh(db, c) && BeginAction(env, db, c).1 == Done
    && var located := Locate(env, db, c.job, c.step);
    && located.step.observedVia == AGENT_ACTION
    && StaysOn(located.step, ClaimKey(located.step), PlaceOf(located.row.positions, ClaimKey(located.step)))
  }

  /** This accepted installation leaves a claim behind: what an installer can check beforehand, on
      the new definition and the jobs as they will be carried to it. */
  predicate InstallsStaying(env: Installed, db: Db, c: Command) {
    && c.Install? && Installs(env, c.definition)
    && exists job <- db.jobs :: db.jobs[job].sop == c.definition.sop
         && exists t <- db.jobs[job].pending ::
              LeftBehind(c.definition, CarriedTo(db.jobs[job], c.definition, RenamesFor(env, c.definition)), db.receipts, t)
  }

  ghost predicate LetsStay(env: Installed, db: Db, c: Command) {
    BeginsStaying(env, db, c) || InstallsStaying(env, db, c)
  }

  lemma BegunStays(env: Installed, db: Db, c: Command, t: TrackId)
    requires c.Begin? && Fresh(db, c) && BeginAction(env, db, c).1 == Done
    requires var next := BeginAction(env, db, c).0;
             && t in next.jobs[c.job].pending && t !in db.jobs[c.job].pending
             && StaysPut(DefinitionOf(env, db.jobs[c.job]).value, next.jobs[c.job], t)
    ensures BeginsStaying(env, db, c)
  {
  }

  lemma ReservedNeverStays(env: Installed, db: Db, c: Command, job: JobId, t: TrackId)
    requires c.Reserve? && job in db.jobs && t !in db.jobs[job].pending
    requires var next := ReserveIntent(env, db, c).0; job in next.jobs && t in next.jobs[job].pending
    ensures ReserveIntent(env, db, c).0.jobs[job].pending[t].state == Reserved
  {
  }

  /** A claim that a step leaves pending and that did not stay before does not stay after it. */
  lemma RowKeepsUnstaying(sop: Sop, row: Job, next: Job, issued: set<ActionId>, receipts: map<ActionId, Receipt>,
                          more: map<ActionId, Receipt>, t: TrackId)
    requires RowSteps(sop, row, next, issued) && t in row.pending && t in next.pending
    requires !LeftBehind(sop, row, receipts, t) && forall a <- receipts :: a in more && more[a] == receipts[a]
    ensures !LeftBehind(sop, next, more, t)
  {
    if next != row {
      var e := next.events[|next.events| - 1];
      PlaceStays(sop, row, next, e, issued, t);
      if !Observable(row, receipts, t) {
        var claim := row.pending[t];
        var seen :| seen in row.events && SameEvent(seen, claim.step, Observation, receipts[claim.id].source);
        assert seen in next.events;
      }
    }
  }

  lemma TransactKeepsReceipts(env: Installed, db: Db, c: Command)
    ensures forall a <- db.receipts :: a in Transact(env, db, c).receipts && Transact(env, db, c).receipts[a] == db.receipts[a]
  {
    if Fresh(db, c) {
      match c
      case Open(_, _, _, _, _, _, _) =>
      case Begin(_, _, _, _, _, _, _, _) =>
      case Reserve(_, _, _, _, _) =>
      case FinishReceipt(_, _, _, _) =>
      case Observe(_, _, _, _, _) =>
      case Reconcile(_, _, _, _, _, _) =>
      case Collect(_, _, _) =>
      case Install(_) =>
    }
  }

  lemma OnlyClaimingAdds(env: Installed, db: Db, c: Command, job: JobId, t: TrackId)
    requires !c.Install? && job in db.jobs && t !in db.jobs[job].pending
    requires job in Transact(env, db, c).jobs && t in Transact(env, db, c).jobs[job].pending
    ensures (c.Begin? || c.Reserve?) && c.job == job && Fresh(db, c)
    ensures c.Begin? ==> BeginAction(env, db, c).1 == Done
  {
    if Fresh(db, c) {
      match c
      case Open(_, _, _, _, _, _, _) => OpenLeaves(env, db, c, job);
      case Begin(_, _, _, _, _, _, _, _) =>
      case Reserve(_, _, _, _, _) =>
      case FinishReceipt(_, _, _, _) =>
      case Observe(_, _, _, _, _) =>
      case Reconcile(_, _, _, _, _, _) =>
      case Collect(_, _, _) =>
    }
  }

  lemma TransactLeavesBehind(env: Installed, db: Db, c: Command, job: JobId, t: TrackId)
    requires NoneStays(env, db) && !c.Install? && !BeginsStaying(env, db, c)
    requires job in Transact(env, db, c).jobs && t in Transact(env, db, c).jobs[job].pending
    ensures var next := Transact(env, db, c).jobs[job];
            DefinitionOf(env, next).Some? && !LeftBehind(DefinitionOf(env, next).value, next, Transact(env, db, c).receipts, t)
  {
    var next := Transact(env, db, c);
    if job !in db.jobs {
      OpenedAtStart(env, db, c, job);
    } else {
      TransactSteps(env, db, c, job);
      if t in db.jobs[job].pending {
        TransactKeepsReceipts(env, db, c);
        RowKeepsUnstaying(DefinitionOf(env, db.jobs[job]).value, db.jobs[job], next.jobs[job], db.issued, db.receipts, next.receipts, t);
      } else {
        OnlyClaimingAdds(env, db, c, job, t);
        if c.Reserve? {
          ReservedNeverStays(env, db, c, job, t);
        } else if StaysPut(DefinitionOf(env, db.jobs[job]).value, next.jobs[job], t) {
          BegunStays(env, db, c, t);
        }
      }
    }
  }

  lemma InstallLeavesBehind(env: Installed, db: Db, c: Command, job: JobId, t: TrackId)
    requires NoneStays(env, db) && c.Install? && !InstallsStaying(env, db, c)
    requires job in InstallSop(env, db, c).0.jobs && t in InstallSop(env, db, c).0.jobs[job].pending
    ensures var next := InstallSop(env, db, c).0;
            var at := NowInstalled(env, c.definition);
            DefinitionOf(at, next.jobs[job]).Some? && !LeftBehind(DefinitionOf(at, next.jobs[job]).value, next.jobs[job], next.receipts, t)
  {
    InstallCarries(env, db, c, job);
    assert DefinitionOf(env, db.jobs[job]).Some?;
  }

  lemma TransactKeepsNoneStaying(env: Installed, db: Db, c: Command)
    requires NoneStays(env, db) && !BeginsStaying(env, db, c) && !InstallsStaying(env, db, c)
    ensures NoneStays(InstalledBy(env, c), Transact(env, db, c))
  {
    var at, next := InstalledBy(env, c), Transact(env, db, c);
    forall job | job in next.jobs ensures DefinitionOf(at, next.jobs[job]).Some? {
      if c.Install? {
        InstallCarries(env, db, c, job);
        assert DefinitionOf(env, db.jobs[job]).Some?;
      } else if job in db.jobs {
        TransactSteps(env, db, c, job);
      } else {
        OpenedAtStart(env, db, c, job);
      }
    }
    forall job, t | job in next.jobs && t in next.jobs[job].pending
      ensures !LeftBehind(DefinitionOf(at, next.jobs[job]).value, next.jobs[job], next.receipts, t)
    {
      if c.Install? {
        InstallLeavesBehind(env, db, c, job, t);
      } else {
        TransactLeavesBehind(env, db, c, job, t);
      }
    }
  }

  lemma MadeStaying(env: Installed, db: Db, c: Command)
    requires NoneStays(env, db) && !NoneStays(InstalledBy(env, c), Transact(env, db, c))
    ensures LetsStay(env, db, c)
  {
    if !BeginsStaying(env, db, c) && !InstallsStaying(env, db, c) {
      TransactKeepsNoneStaying(env, db, c);
    }
  }

  /** From any state in which no claim stays behind: one that does later comes from the begin of a
      staying step or from an installation that left it behind. */
  lemma {:induction false} StayingComesFrom(env: Installed, first: seq<Command>, rest: seq<Command>) returns (n: int)
    requires NoneStays(InstalledAfter(env, first), Run(env, first))
    requires !NoneStays(InstalledAfter(env, first + rest), Run(env, first + rest))
    ensures 0 <= n < |rest| && LetsStay(InstalledAfter(env, first + rest[..n]), Run(env, first + rest[..n]), rest[n])
  {
    assert rest == [] ==> first + rest == first;
    var before := rest[..|rest| - 1];
    RunSplits(env, first, rest);
    if NoneStays(InstalledAfter(env, first + before), Run(env, first + before)) {
      n := |rest| - 1;
      MadeStaying(InstalledAfter(env, first + before), Run(env, first + before), rest[n]);
    } else {
      n := StayingComesFrom(env, first, before);
      assert before[..n] == rest[..n];
    }
  }

  lemma BehindIsStaying(env: Installed, db: Db, job: JobId, t: TrackId)
    requires StaysBehind(env, db, job, t)
    ensures !NoneStays(env, db)
  {
  }

  /** A run that has both ways contains the begin of a staying step, or an installation that leaves
      a claim behind. */
  lemma BothWaysComesFrom(env: Installed, commands: seq<Command>) returns (n: int)
    requires BothWays(env, commands)
    ensures 0 <= n < |commands| && LetsStay(InstalledAfter(env, commands[..n]), Run(env, commands[..n]), commands[n])
  {
    assert [] + commands == commands;
    var m, job, t := BothWaysStayedBehind(env, [], commands);
    BehindIsStaying(InstalledAfter(env, [] + commands[..m]), Run(env, [] + commands[..m]), job, t);
    n := StayingComesFrom(env, [], commands[..m]);
    assert commands[..m][..n] == commands[..n] && [] + commands[..n] == commands[..n];
  }

  // ---- A condition on definitions and installations ------------------------------------------------------------

  /** Every primary move of the step leaves every place it starts at. */
  predicate Departs(step: Step) {
    HasPrimary(step) && forall move <- step.moves :: move.track == Primary(step) ==> move.to !in move.from
  }

  predicate AllDepart(env: Installed) {
    forall at <- env.definitions :: forall step <- env.definitions[at].events ::
      step.kind == IntentStep && !step.retired ==> Departs(step)
  }

  /** After the installation every pending claim's step, if it is still active, is claimed under the
      key that the claim has and departs from where the carried job stands. */
  predicate KeepsDeparting(env: Installed, db: Db, c: Command) {
    c.Install? && Installs(env, c.definition) ==>
      forall job <- db.jobs :: db.jobs[job].sop == c.definition.sop ==>
        forall t <- db.jobs[job].pending :: StepOf(c.definition, db.jobs[job].pending[t].step).Some? ==>
          var step := StepOf(c.definition, db.jobs[job].pending[t].step).value;
          && ClaimKey(step) == t
          && !StaysOn(step, ClaimKey(step), PlaceOf(RenameAll(db.jobs[job].positions, RenamesFor(env, c.definition)), t))
  }

  ghost predicate Careful(env: Installed, commands: seq<Command>) {
    commands == []
    || var before := commands[..|commands| - 1];
       Careful(env, before) && KeepsDeparting(InstalledAfter(env, before), Run(env, before), commands[|commands| - 1])
  }

  lemma {:induction false} CarefulAt(env: Installed, commands: seq<Command>, n: nat)
    requires Careful(env, commands) && n < |commands|
    ensures KeepsDeparting(InstalledAfter(env, commands[..n]), Run(env, commands[..n]), commands[n])
  {
    var before := commands[..|commands| - 1];
    if n < |before| {
      CarefulAt(env, before, n);
      assert before[..n] == commands[..n];
    }
  }

  lemma {:induction false} DefinitionsLast(env: Installed, first: seq<Command>, rest: seq<Command>)
    ensures forall at <- InstalledAfter(env, first).definitions ::
              at in InstalledAfter(env, first + rest).definitions
              && InstalledAfter(env, first + rest).definitions[at] == InstalledAfter(env, first).definitions[at]
  {
    if rest == [] {
      assert first + rest == first;
    } else {
      RunSplits(env, first, rest);
      DefinitionsLast(env, first, rest[..|rest| - 1]);
    }
  }

  lemma DepartingNeverBegins(env: Installed, db: Db, c: Command)
    requires AllDepart(env)
    ensures !BeginsStaying(env, db, c)
  {
    if BeginsStaying(env, db, c) {
      var located := Locate(env, db, c.job, c.step);
      var step, here := located.step, located.row.positions;
      var at := (located.row.sop, located.row.version);
      assert step in env.definitions[at].events && Departs(step);
      var move :| move in step.moves && move.track == Primary(step) && Fits(move, here);
      assert Fits(move, map[ClaimKey(step) := here[ClaimKey(step)]]);
      TakenFits(step.moves, ClaimKey(step), map[ClaimKey(step) := here[ClaimKey(step)]]);
    }
  }

  lemma CarefulNeverLeaves(env: Installed, db: Db, c: Command)
    requires KeepsDeparting(env, db, c)
    ensures !InstallsStaying(env, db, c)
  {
  }

  /** Where every active intent of every definition ever installed departs, and every installation
      keeps the pending claims departing on their own tracks, no claim is ever both observed and
      reconciled absent. */
  lemma DepartingIsExclusive(env: Installed, commands: seq<Command>)
    requires AllDepart(InstalledAfter(env, commands)) && Careful(env, commands)
    ensures !BothWays(env, commands)
  {
    if BothWays(env, commands) {
      var n := BothWaysComesFrom(env, commands);
      NeverLetsStay(env, commands, n);
    }
  }

  lemma NeverLetsStay(env: Installed, commands: seq<Command>, n: nat)
    requires AllDepart(InstalledAfter(env, commands)) && Careful(env, commands) && n < |commands|
    ensures !LetsStay(InstalledAfter(env, commands[..n]), Run(env, commands[..n]), commands[n])
  {
    DepartedBefore(env, commands, n);
    CarefulAt(env, commands, n);
    DepartingNeverBegins(InstalledAfter(env, commands[..n]), Run(env, commands[..n]), commands[n]);
    CarefulNeverLeaves(InstalledAfter(env, commands[..n]), Run(env, commands[..n]), commands[n]);
  }

  lemma DepartedBefore(env: Installed, commands: seq<Command>, n: nat)
    requires AllDepart(InstalledAfter(env, commands)) && n <= |commands|
    ensures AllDepart(InstalledAfter(env, commands[..n]))
  {
    DefinitionsLast(env, commands[..n], commands[n..]);
    assert commands[..n] + commands[n..] == commands;
  }

  // ---- An installation, exactly -----------------------------------------------------------------------------------

  /** The claim is pending, in the place where it was, not observed, and is not left behind; or it
      is pending no more and did not go both ways. */
  ghost predicate NotBoth(sop: Sop, row: Job, receipts: map<ActionId, Receipt>, t: TrackId, id: ActionId) {
    || (t in row.pending && row.pending[t].id == id && !LeftBehind(sop, row, receipts, t) && !RestedIn(row.events, id))
    || (!HasClaim(row.pending, id) && !(RestedIn(row.events, id) && Dropped(row.events, id)))
  }

  lemma RowKeepsNotBoth(env: Installed, db: Db, job: JobId, next: Job, more: map<ActionId, Receipt>, t: TrackId, id: ActionId)
    requires Sound(env, db) && job in db.jobs && id in db.issued
    requires var sop := DefinitionOf(env, db.jobs[job]).value;
             && RowSteps(sop, db.jobs[job], next, db.issued) && NotBoth(sop, db.jobs[job], db.receipts, t, id)
             && (next != db.jobs[job] ==> next.events != [] && UsesClaim(sop, db, job, next, next.events[|next.events| - 1]))
    requires forall a <- db.receipts :: a in more && more[a] == db.receipts[a]
    ensures NotBoth(DefinitionOf(env, db.jobs[job]).value, next, more, t, id)
  {
    var row := db.jobs[job];
    var sop := DefinitionOf(env, row).value;
    assert RowSound(job, row, db.receipts, db.issued);
    if next == row {
      if t in row.pending && row.pending[t].id == id && !LeftBehind(sop, row, db.receipts, t) {
        RowKeepsUnstaying(sop, row, next, db.issued, db.receipts, more, t);
      }
    } else {
      var e := next.events[|next.events| - 1];
      OneMoreEvent(row.events, e, id);
      if HasClaim(next.pending, id) {
        PendingBefore(sop, row, next, db.issued, id);
        var u :| u in row.pending && u in next.pending && row.pending[u].id == id && next.pending[u] == row.pending[u];
        assert HasClaim(row.pending, id);
        ClaimsDiffer(row, u, t);
        RowKeepsUnstaying(sop, row, next, db.issued, db.receipts, more, t);
        if e.trail == Rests(id) {
          BehindIsLeft(env, db, job, next, e, t);
        }
      } else if HasClaim(row.pending, id) {
        DroppedWasPending(row, id);
      }
    }
  }

  /** Resting on a claim without freeing it shows it to be left behind. */
  lemma BehindIsLeft(env: Installed, db: Db, job: JobId, next: Job, e: Event, t: TrackId)
    requires Sound(env, db) && job in db.jobs && t in db.jobs[job].pending && e.trail == Rests(db.jobs[job].pending[t].id)
    requires var sop := DefinitionOf(env, db.jobs[job]).value;
             Grows(db.jobs[job], next, e) && Observes(sop, db.jobs[job], next, e) && UsesClaim(sop, db, job, next, e)
    requires HasClaim(next.pending, db.jobs[job].pending[t].id)
    ensures LeftBehind(DefinitionOf(env, db.jobs[job]).value, db.jobs[job], db.receipts, t)
  {
    var row := db.jobs[job];
    RestingFreesUnlessBehind(env, db, job, next, e);
    var u :| StaysBehind(env, db, job, u) && row.pending[u].id == row.pending[t].id;
    assert RowSound(job, row, db.receipts, db.issued);
    ClaimsDiffer(row, u, t);
  }

  /** While nothing is installed, a claim that is not left behind does not go both ways. */
  lemma {:induction false} NotLeftNeverBoth(env: Installed, first: seq<Command>, rest: seq<Command>, job: JobId, t: TrackId, id: ActionId)
    requires NoInstalls(rest) && job in Run(env, first).jobs && id in Run(env, first).issued
    requires DefinitionOf(InstalledAfter(env, first), Run(env, first).jobs[job]).Some?
    requires NotBoth(DefinitionOf(InstalledAfter(env, first), Run(env, first).jobs[job]).value, Run(env, first).jobs[job], Run(env, first).receipts, t, id)
    ensures var db := Run(env, first + rest);
            && job in db.jobs && DefinitionOf(InstalledAfter(env, first), db.jobs[job]).Some?
            && NotBoth(DefinitionOf(InstalledAfter(env, first), db.jobs[job]).value, db.jobs[job], db.receipts, t, id)
  {
    if rest == [] {
      assert first + rest == first;
    } else {
      var before, c := first + rest[..|rest| - 1], rest[|rest| - 1];
      assert c in rest;
      RunSplits(env, first, rest);
      NotLeftNeverBoth(env, first, rest[..|rest| - 1], job, t, id);
      NothingInstalled(env, first, rest[..|rest| - 1]);
      JobsLast(env, first, rest[..|rest| - 1]);
      RunIsSound(env, before);
      OneMoreNotBoth(InstalledAfter(env, first), Run(env, before), c, job, t, id);
    }
  }

  lemma OneMoreNotBoth(env: Installed, db: Db, c: Command, job: JobId, t: TrackId, id: ActionId)
    requires Sound(env, db) && !c.Install? && job in db.jobs && id in db.issued
    requires NotBoth(DefinitionOf(env, db.jobs[job]).value, db.jobs[job], db.receipts, t, id)
    ensures var next := Transact(env, db, c);
            && job in next.jobs && DefinitionOf(env, next.jobs[job]).Some?
            && NotBoth(DefinitionOf(env, next.jobs[job]).value, next.jobs[job], next.receipts, t, id)
  {
    assert RowSound(job, db.jobs[job], db.receipts, db.issued);
    TransactSteps(env, db, c, job);
    TransactUses(env, db, c, job);
    TransactKeepsReceipts(env, db, c);
    RowKeepsNotBoth(env, db, job, Transact(env, db, c).jobs[job], Transact(env, db, c).receipts, t, id);
  }

  /** In this state the claim can come to be both observed and reconciled absent, with nothing
      installed meanwhile. */
  ghost predicate CanGoBothWays(env: Installed, commands: seq<Command>, job: JobId, id: ActionId) {
    exists rest :: NoInstalls(rest) && GoneBothWays(Run(env, commands + rest), job, id)
  }

  /** In every state of every run: a pending claim that is not yet observed, and is the one of its
      step that is met first, can go both ways if and only if observing it would leave it. */
  lemma ClaimGoesBothWaysIff(env: Installed, commands: seq<Command>, job: JobId, t: TrackId)
    requires job in Run(env, commands).jobs && t in Run(env, commands).jobs[job].pending
    requires var row := Run(env, commands).jobs[job];
             IsFirstOf(row.pending, row.pending[t].step, t) && !RestedIn(row.events, row.pending[t].id)
    ensures var db := Run(env, commands);
            CanGoBothWays(env, commands, job, db.jobs[job].pending[t].id) <==> StaysBehind(InstalledAfter(env, commands), db, job, t)
  {
    RunIsSound(env, commands);
    var at, db := InstalledAfter(env, commands), Run(env, commands);
    var id := db.jobs[job].pending[t].id;
    if StaysBehind(at, db, job, t) {
      var rest := StaysBehindGoesBothWays(env, commands, job, t);
    } else {
      assert RowSound(job, db.jobs[job], db.receipts, db.issued);
      ClaimsAreIssued(db.jobs[job], db.issued, t);
      forall rest | NoInstalls(rest) ensures !GoneBothWays(Run(env, commands + rest), job, id) {
        NotLeftNeverBoth(env, commands, rest, job, t, id);
        NotBothIsNot(env, commands + rest, DefinitionOf(at, Run(env, commands + rest).jobs[job]).value, job, t, id);
      }
    }
  }

  lemma NotBothIsNot(env: Installed, commands: seq<Command>, sop: Sop, job: JobId, t: TrackId, id: ActionId)
    requires job in Run(env, commands).jobs && NotBoth(sop, Run(env, commands).jobs[job], Run(env, commands).receipts, t, id)
    ensures !GoneBothWays(Run(env, commands), job, id)
  {
  }

  /** Each step has one pending claim at most, and none that is pending was observed. */
  predicate OneEach(row: Job) {
    && (forall a <- row.pending, b <- row.pending :: row.pending[a].step == row.pending[b].step ==> a == b)
    && (forall t <- row.pending :: !RestedIn(row.events, row.pending[t].id))
  }

  /** An accepted installation lets some pending claim of a job it carries go both ways, with
      nothing else installed, if and only if it leaves one behind: the condition speaks of the new
      definition and of the jobs as they will be carried, and so can be checked beforehand. */
  lemma UpgradeLetsBothWaysIff(env: Installed, commands: seq<Command>, c: Command)
    requires c.Install? && Installs(InstalledAfter(env, commands), c.definition)
    requires forall job <- Run(env, commands).jobs :: OneEach(Run(env, commands).jobs[job])
    ensures var db := Run(env, commands);
            (exists job, t :: job in db.jobs && db.jobs[job].sop == c.definition.sop && t in db.jobs[job].pending
               && CanGoBothWays(env, commands + [c], job, db.jobs[job].pending[t].id))
            <==> InstallsStaying(InstalledAfter(env, commands), db, c)
  {
    var at, db := InstalledAfter(env, commands), Run(env, commands);
    forall job, t | job in db.jobs && db.jobs[job].sop == c.definition.sop && t in db.jobs[job].pending
      ensures CanGoBothWays(env, commands + [c], job, db.jobs[job].pending[t].id)
              <==> LeftBehind(c.definition, CarriedTo(db.jobs[job], c.definition, RenamesFor(at, c.definition)), db.receipts, t)
    {
      CarriedGoesBothWaysIff(env, commands, c, job, t);
    }
  }

  lemma CarriedGoesBothWaysIff(env: Installed, commands: seq<Command>, c: Command, job: JobId, t: TrackId)
    requires c.Install? && Installs(InstalledAfter(env, commands), c.definition)
    requires var db := Run(env, commands);
             job in db.jobs && db.jobs[job].sop == c.definition.sop && t in db.jobs[job].pending && OneEach(db.jobs[job])
    ensures var db := Run(env, commands);
            CanGoBothWays(env, commands + [c], job, db.jobs[job].pending[t].id)
            <==> LeftBehind(c.definition, CarriedTo(db.jobs[job], c.definition, RenamesFor(InstalledAfter(env, commands), c.definition)), db.receipts, t)
  {
    var at, db := InstalledAfter(env, commands), Run(env, commands);
    RunExtends(env, commands, c);
    InstallCarries(at, db, c, job);
    PrecedesIsAnOrder(t, t);
    ClaimGoesBothWaysIff(env, commands + [c], job, t);
  }
}
