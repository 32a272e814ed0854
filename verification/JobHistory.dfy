/** What every run keeps about one job row, one transaction at a time, whatever definition is in
    force. */
module JobHistory {
  import opened Prelude
  import opened Sop
  import opened JobEngine

  // ---- The parts of the invariant --------------------------------------------------------

  predicate Distinct(events: seq<Event>) {
    forall i, j :: 0 <= i < j < |events| ==> !SameEvent(events[j], events[i].step, events[i].kind, events[i].source)
  }

  /** Event k is the claiming of this id for this step. */
  predicate Made(events: seq<Event>, k: int, step: StepId, id: ActionId, state: ClaimState) {
    && 0 <= k < |events|
    && events[k].kind == Intent && events[k].step == step
    && events[k].trail.Makes? && events[k].trail.id == id && events[k].trail.state == state
  }

  predicate MadeOnce(events: seq<Event>) {
    forall i, j :: 0 <= i < j < |events| && events[i].trail.Makes? && events[j].trail.Makes? ==>
      events[i].trail.id != events[j].trail.id
  }

  predicate TrailsIssued(events: seq<Event>, issued: set<ActionId>) {
    forall k :: 0 <= k < |events| && events[k].trail != NoClaim ==> events[k].trail.id in issued
  }

  function PlaceOf(positions: Positions, track: TrackId): Option<PosId> {
    if track in positions then Some(positions[track]) else None
  }

  /** Event k made this pending claim, for this track. */
  predicate MadeFor(row: Job, track: TrackId, k: int)
    requires track in row.pending
  {
    var claim := row.pending[track];
    Made(row.events, k, claim.step, claim.id, claim.state) && row.events[k].trail.track == track
  }

  ghost predicate ClaimsMade(row: Job) {
    forall t <- row.pending :: exists k :: MadeFor(row, t, k)
  }

  /** Whoever claimed a step for a tool is known. */
  predicate OwnersKnown(row: Job) {
    forall t <- row.pending :: row.pending[t].state == Claimed ==> row.pending[t].owner.Some?
  }

  /** An observation that rests on a claim has that claim's receipt, and an earlier begin of it. */
  ghost predicate Rested(id: JobId, row: Job, receipts: map<ActionId, Receipt>, k: int)
    requires 0 <= k < |row.events| && row.events[k].trail.Rests?
  {
    var e := row.events[k];
    && e.kind == Observation
    && e.trail.id in receipts && receipts[e.trail.id] == Receipt(id, row.sop, e.step, e.source)
    && exists m :: m < k && Made(row.events, m, e.step, e.trail.id, Claimed)
  }

  ghost predicate AllRested(id: JobId, row: Job, receipts: map<ActionId, Receipt>) {
    forall k :: 0 <= k < |row.events| && row.events[k].trail.Rests? ==> Rested(id, row, receipts, k)
  }

  predicate DroppedGone(row: Job) {
    && (forall k :: 0 <= k < |row.events| && row.events[k].trail.Drops? ==> !HasClaim(row.pending, row.events[k].trail.id))
    && (forall i, j :: 0 <= i < j < |row.events| && row.events[i].trail.Drops? && row.events[j].trail.Drops? ==>
          row.events[i].trail.id != row.events[j].trail.id)
  }

  ghost predicate RowSound(id: JobId, row: Job, receipts: map<ActionId, Receipt>, issued: set<ActionId>) {
    && Distinct(row.events) && MadeOnce(row.events) && TrailsIssued(row.events, issued)
    && ClaimsMade(row) && OwnersKnown(row)
    && AllRested(id, row, receipts)
    && DroppedGone(row)
  }

  /** Every receipt was written for a claim that its own job began. */
  ghost predicate ReceiptSound(db: Db, id: ActionId)
    requires id in db.receipts
  {
    var r := db.receipts[id];
    r.job in db.jobs && r.sop == db.jobs[r.job].sop && exists m :: Made(db.jobs[r.job].events, m, r.step, id, Claimed)
  }

  ghost predicate Sound(env: Installed, db: Db) {
    && (forall id <- db.jobs ::
          DefinitionOf(env, db.jobs[id]).Some? && RowSound(id, db.jobs[id], db.receipts, db.issued))
    && (forall a <- db.receipts :: ReceiptSound(db, a))
  }

  // ---- A claim is made -------------------------------------------------------------------

  lemma AppendKeepsDistinct(events: seq<Event>, e: Event)
    requires Distinct(events) && !Recorded(events, e.step, e.kind, e.source)
    ensures Distinct(events + [e])
  {
    forall i | 0 <= i < |events| ensures !SameEvent(e, events[i].step, events[i].kind, events[i].source) {
      assert events[i] in events;
    }
  }

  lemma MadeLasts(events: seq<Event>, e: Event, k: int, step: StepId, id: ActionId, state: ClaimState)
    requires Made(events, k, step, id, state)
    ensures Made(events + [e], k, step, id, state)
  {
  }

  lemma AppendKeepsRested(id: JobId, row: Job, next: Job, receipts: map<ActionId, Receipt>, e: Event)
    requires AllRested(id, row, receipts)
    requires next.sop == row.sop && next.events == row.events + [e] && !e.trail.Rests?
    ensures AllRested(id, next, receipts)
  {
    forall k | 0 <= k < |next.events| && next.events[k].trail.Rests? ensures Rested(id, next, receipts, k) {
      assert next.events[k] == row.events[k];
      assert Rested(id, row, receipts, k);
      var m :| m < k && Made(row.events, m, row.events[k].step, row.events[k].trail.id, Claimed);
      MadeLasts(row.events, e, m, row.events[k].step, row.events[k].trail.id, Claimed);
    }
  }

  lemma MakingLasts(row: Job, next: Job, e: Event, track: TrackId)
    requires track in row.pending && track in next.pending && next.pending[track] == row.pending[track]
    requires next.events == row.events + [e] && exists k :: MadeFor(row, track, k)
    ensures exists k :: MadeFor(next, track, k)
  {
    var k :| MadeFor(row, track, k);
    var claim := row.pending[track];
    MadeLasts(row.events, e, k, claim.step, claim.id, claim.state);
    assert MadeFor(next, track, k);
  }

  /** A log that grows while no claim is added keeps the makings of all that is pending. */
  lemma AppendKeepsMade(row: Job, next: Job, e: Event)
    requires ClaimsMade(row) && next.events == row.events + [e]
    requires forall t <- next.pending :: t in row.pending && next.pending[t] == row.pending[t]
    ensures ClaimsMade(next)
  {
    forall t | t in next.pending ensures exists k :: MadeFor(next, t, k) {
      MakingLasts(row, next, e, t);
    }
  }

  /** The row and event that WithClaim writes. */
  predicate ClaimMade(row: Job, next: Job, step: Step, claim: Claim, e: Event) {
    && e == Event(step.id, Intent, claim.source, false, None, Makes(claim.id, claim.state, ClaimKey(step), PlaceOf(row.positions, ClaimKey(step))))
    && next == row.(pending := row.pending[ClaimKey(step) := claim], events := row.events + [e])
  }

  lemma ClaimKeepsMade(row: Job, next: Job, step: Step, claim: Claim, e: Event)
    requires ClaimsMade(row) && ClaimMade(row, next, step, claim, e) && claim.step == step.id
    ensures ClaimsMade(next)
  {
    forall t | t in next.pending ensures exists k :: MadeFor(next, t, k) {
      if t == ClaimKey(step) {
        assert MadeFor(next, t, |row.events|);
      } else {
        MakingLasts(row, next, e, t);
      }
    }
  }

  lemma ClaimKeepsTrails(row: Job, next: Job, step: Step, claim: Claim, e: Event, issued: set<ActionId>)
    requires MadeOnce(row.events) && TrailsIssued(row.events, issued) && ClaimMade(row, next, step, claim, e) && claim.id !in issued
    ensures MadeOnce(next.events) && TrailsIssued(next.events, issued + {claim.id})
  {
  }

  lemma ClaimKeepsDropped(row: Job, next: Job, step: Step, claim: Claim, e: Event, issued: set<ActionId>)
    requires DroppedGone(row) && TrailsIssued(row.events, issued) && ClaimMade(row, next, step, claim, e) && claim.id !in issued
    ensures DroppedGone(next)
  {
    forall k | 0 <= k < |next.events| && next.events[k].trail.Drops?
      ensures !HasClaim(next.pending, next.events[k].trail.id)
    {
      assert next.events[k] == row.events[k];
    }
  }

  lemma ClaimKeepsRow(id: JobId, row: Job, next: Job, step: Step, claim: Claim, e: Event,
                      receipts: map<ActionId, Receipt>, issued: set<ActionId>)
    requires RowSound(id, row, receipts, issued) && ClaimMade(row, next, step, claim, e) && claim.step == step.id
    requires claim.id !in issued && (claim.state == Claimed ==> claim.owner.Some?)
    requires !Recorded(row.events, claim.step, Intent, claim.source)
    ensures RowSound(id, next, receipts, issued + {claim.id})
  {
    AppendKeepsDistinct(row.events, e);
    AppendKeepsRested(id, row, next, receipts, e);
    ClaimKeepsMade(row, next, step, claim, e);
    ClaimKeepsTrails(row, next, step, claim, e, issued);
    ClaimKeepsDropped(row, next, step, claim, e, issued);
  }

  // ---- A claim is dropped ------------------------------------------------------------------

  /** Two tracks never carry the same claim. */
  lemma ClaimsDiffer(row: Job, a: TrackId, b: TrackId)
    requires ClaimsMade(row) && MadeOnce(row.events)
    requires a in row.pending && b in row.pending && row.pending[a].id == row.pending[b].id
    ensures a == b
  {
    var i :| MadeFor(row, a, i);
    var j :| MadeFor(row, b, j);
  }

  lemma DropKeepsRow(id: JobId, row: Job, next: Job, track: TrackId, e: Event,
                     receipts: map<ActionId, Receipt>, issued: set<ActionId>)
    requires RowSound(id, row, receipts, issued) && track in row.pending
    requires e.kind == ReconciledAbsent && e.trail == Drops(row.pending[track].id)
    requires next == row.(pending := row.pending - {track}, events := row.events + [e])
    requires !Recorded(row.events, e.step, ReconciledAbsent, e.source)
    ensures RowSound(id, next, receipts, issued)
  {
    AppendKeepsDistinct(row.events, e);
    AppendKeepsRested(id, row, next, receipts, e);
    AppendKeepsMade(row, next, e);
    DroppedIsGone(row, next, track);
    DropKeepsTrails(row, next, track, e, issued);
    assert HasClaim(row.pending, row.pending[track].id);
    DropKeepsDropped(row, next, e);
  }

  lemma DroppedIsGone(row: Job, next: Job, track: TrackId)
    requires ClaimsMade(row) && MadeOnce(row.events) && track in row.pending && next.pending == row.pending - {track}
    ensures !HasClaim(next.pending, row.pending[track].id)
  {
    forall t | t in next.pending ensures next.pending[t].id != row.pending[track].id {
      if next.pending[t].id == row.pending[track].id {
        ClaimsDiffer(row, t, track);
      }
    }
  }

  lemma DropKeepsTrails(row: Job, next: Job, track: TrackId, e: Event, issued: set<ActionId>)
    requires ClaimsMade(row) && MadeOnce(row.events) && TrailsIssued(row.events, issued) && track in row.pending
    requires e.trail == Drops(row.pending[track].id) && next.events == row.events + [e]
    ensures MadeOnce(next.events) && TrailsIssued(next.events, issued)
  {
    var m :| MadeFor(row, track, m);
    assert row.events[m].trail.id == row.pending[track].id;
  }

  lemma DropKeepsDropped(row: Job, next: Job, e: Event)
    requires DroppedGone(row) && next.events == row.events + [e] && e.trail.Drops?
    requires HasClaim(row.pending, e.trail.id) && !HasClaim(next.pending, e.trail.id)
    requires forall t <- next.pending :: t in row.pending && next.pending[t] == row.pending[t]
    ensures DroppedGone(next)
  {
    forall k | 0 <= k < |next.events| && next.events[k].trail.Drops?
      ensures !HasClaim(next.pending, next.events[k].trail.id)
    {
      if k < |row.events| {
        assert !HasClaim(row.pending, row.events[k].trail.id);
      }
    }
  }

  // ---- An observation ------------------------------------------------------------------------

  lemma ObservationKeepsDropped(row: Job, step: Step, source: SourceId, now: Time, trail: Trail)
    requires DroppedGone(row) && !trail.Drops?
    ensures DroppedGone(AfterObservation(row, step, source, now, trail))
  {
    var next := AfterObservation(row, step, source, now, trail);
    forall k | 0 <= k < |next.events| && next.events[k].trail.Drops?
      ensures !HasClaim(next.pending, next.events[k].trail.id)
    {
      assert next.events[k] == row.events[k];
    }
  }

  /** The receipt an observation rests on, and the begin behind it, exist when it is recorded. */
  ghost predicate GoodBasis(id: JobId, row: Job, step: Step, source: SourceId, trail: Trail, receipts: map<ActionId, Receipt>) {
    if step.observedVia == AGENT_ACTION then
      && trail.Rests?
      && trail.id in receipts && receipts[trail.id] == Receipt(id, row.sop, step.id, source)
      && exists m :: Made(row.events, m, step.id, trail.id, Claimed)
    else trail == NoClaim
  }

  lemma ObservationRests(id: JobId, row: Job, step: Step, source: SourceId, now: Time, trail: Trail,
                         receipts: map<ActionId, Receipt>)
    requires AllRested(id, row, receipts) && GoodBasis(id, row, step, source, trail, receipts)
    ensures AllRested(id, AfterObservation(row, step, source, now, trail), receipts)
  {
    var next := AfterObservation(row, step, source, now, trail);
    var e := next.events[|row.events|];
    forall k | 0 <= k < |next.events| && next.events[k].trail.Rests? ensures Rested(id, next, receipts, k) {
      if k < |row.events| {
        assert next.events[k] == row.events[k];
        assert Rested(id, row, receipts, k);
        var m :| m < k && Made(row.events, m, row.events[k].step, row.events[k].trail.id, Claimed);
        MadeLasts(row.events, e, m, row.events[k].step, row.events[k].trail.id, Claimed);
      } else {
        var m :| Made(row.events, m, step.id, trail.id, Claimed);
        MadeLasts(row.events, e, m, step.id, trail.id, Claimed);
      }
    }
  }

  lemma ObservationKeepsRow(id: JobId, row: Job, step: Step, source: SourceId, now: Time, trail: Trail,
                            receipts: map<ActionId, Receipt>, issued: set<ActionId>)
    requires RowSound(id, row, receipts, issued) && GoodBasis(id, row, step, source, trail, receipts)
    requires !Recorded(row.events, step.id, Observation, source)
    ensures RowSound(id, AfterObservation(row, step, source, now, trail), receipts, issued)
  {
    var next := AfterObservation(row, step, source, now, trail);
    AppendKeepsDistinct(row.events, next.events[|row.events|]);
    AppendKeepsMade(row, next, next.events[|row.events|]);
    ObservationKeepsDropped(row, step, source, now, trail);
    ObservationRests(id, row, step, source, now, trail, receipts);
    if trail.Rests? {
      var m :| Made(row.events, m, step.id, trail.id, Claimed);
    }
  }

  // ---- An installation -------------------------------------------------------------------------

  /** Claims and log are carried as they are. */
  lemma CarryingKeepsRow(id: JobId, row: Job, next: Job, receipts: map<ActionId, Receipt>, issued: set<ActionId>)
    requires RowSound(id, row, receipts, issued)
    requires next.pending == row.pending && next.events == row.events && next.sop == row.sop
    ensures RowSound(id, next, receipts, issued)
  {
    forall t | t in next.pending ensures exists k :: MadeFor(next, t, k) {
      var k :| MadeFor(row, t, k);
      assert MadeFor(next, t, k);
    }
    forall k | 0 <= k < |next.events| && next.events[k].trail.Rests? ensures Rested(id, next, receipts, k) {
      assert Rested(id, row, receipts, k);
    }
  }
}
