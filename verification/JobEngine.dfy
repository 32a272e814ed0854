/** The records database as the job tools and the installer change it: one command is one
    transaction of records/job-tools.ts, or the installation of one definition by
    records/migrate.ts. Random ids are supplied by the caller and must be unused; the
    inspection of a writer process is an oracle argument. */
module JobEngine {
  import opened Prelude
  import opened Sop
  import opened SopValidation
  import opened SopForward

  type JobId = string
  type ActionId = string
  type SourceId = string
  type Time = int

  datatype Owner = Owner(pid: int, generation: string)
  datatype ClaimState = Reserved | Claimed
  datatype Claim = Claim(step: StepId, id: ActionId, source: SourceId, state: ClaimState, since: Time, owner: Option<Owner>)

  datatype EventKind = Intent | Observation | ReconciledAbsent
  /** History carried beside an event and not stored with it: which claim it made, rests on
      or dropped. */
  datatype Trail =
    | NoClaim
    | Makes(id: ActionId, state: ClaimState, track: TrackId, at: Option<PosId>)
    | Rests(id: ActionId)
    | Drops(id: ActionId)
  datatype Event = Event(step: StepId, kind: EventKind, source: SourceId, offModel: bool, evidence: Option<string>, trail: Trail)

  datatype Job = Job(
    sop: string, version: string, unit: string, references: seq<string>,
    positions: Positions, since: map<TrackId, Time>, pending: map<TrackId, Claim>, events: seq<Event>)
  datatype Receipt = Receipt(job: JobId, sop: string, step: StepId, source: SourceId)
  datatype Collected = Collected(source: SourceId, channel: string, unit: string)
  datatype Db = Db(jobs: map<JobId, Job>, receipts: map<ActionId, Receipt>, collected: set<Collected>, issued: set<ActionId>)

  /** The installed definitions, and the version that was installed last. */
  datatype Installed = Installed(definitions: map<(string, string), Sop>, latest: map<string, string>)

  datatype TurnContext = TurnContext(sources: set<SourceId>, unit: string)

  datatype Refusal =
    | JobUnitInvalid | JobOpenCauseMismatch | JobOpenUnitMismatch | JobReferencesInvalid
    | SopNotInstalled | JobNotFound | SopVersionNotInstalled | SopStepInvalid
    | JobActionOwnerInvalid | JobOperationInvalid | JobActionUnmapped | JobMoveRefused | JobActionPending
    | JobActionReadAbsent | JobActionClaimAbsent | JobActionOwnerUnknown | JobActionOwnerActive
    | JobStepNotIntent | JobActionReceiptAbsent | JobSourceUnverified
    | EventExists
    | RecordsMigrationRefused
  datatype Outcome = Refused(why: Refusal) | Done | AlreadyDone

  datatype Command =
    | Open(newJob: JobId, sop: string, unit: string, references: seq<string>, cause: SourceId, turn: Option<TurnContext>, now: Time)
    | Collect(source: SourceId, channel: string, unit: string)
    | Begin(job: JobId, step: StepId, source: SourceId, operation: string, owner: Owner, ownerLives: bool, newId: ActionId, now: Time)
    | Reserve(job: JobId, step: StepId, source: SourceId, newId: ActionId, now: Time)
    | FinishReceipt(job: JobId, step: StepId, source: SourceId, id: ActionId)
    | Observe(job: JobId, step: StepId, source: SourceId, verified: bool, now: Time)
    | Reconcile(job: JobId, step: StepId, source: SourceId, id: ActionId, evidence: Option<string>, ownerLives: bool)
    | Install(definition: Sop)

  // ---- Reading -------------------------------------------------------------------------

  predicate Mapped(step: Step, operation: string) {
    match step.action
    case None => false
    case Some(Named(name)) => name == operation
    case Some(Call(tool, op)) => tool == Some(operation) || op == Some(operation)
  }

  /** The key a claim of this step is kept under: its primary track, or the step itself. */
  function ClaimKey(step: Step): TrackId {
    if step.moves == [] then step.id else step.moves[0].track
  }

  function DefinitionOf(env: Installed, job: Job): Option<Sop> {
    if (job.sop, job.version) in env.definitions then Some(env.definitions[(job.sop, job.version)]) else None
  }

  predicate SameEvent(e: Event, step: StepId, kind: EventKind, source: SourceId) {
    e.step == step && e.kind == kind && e.source == source
  }

  predicate Recorded(events: seq<Event>, step: StepId, kind: EventKind, source: SourceId) {
    exists e <- events :: SameEvent(e, step, kind, source)
  }

  predicate HasClaim(pending: map<TrackId, Claim>, id: ActionId) {
    exists t <- pending :: pending[t].id == id
  }

  ghost function ClaimTrack(pending: map<TrackId, Claim>, id: ActionId): (t: TrackId)
    requires HasClaim(pending, id)
    ensures t in pending && pending[t].id == id
  {
    var t :| t in pending && pending[t].id == id; t
  }

  predicate HasClaimOf(pending: map<TrackId, Claim>, step: StepId) {
    exists t <- pending :: pending[t].step == step
  }

  /** The order in which a stored object gives its keys: the shorter first, and then by their
      characters. */
  predicate Precedes(a: TrackId, b: TrackId) {
    |a| < |b| || (|a| == |b| && Below(a, b))
  }

  predicate Below(a: TrackId, b: TrackId)
    requires |a| == |b|
  {
    a == "" || a[0] < b[0] || (a[0] == b[0] && Below(a[1..], b[1..]))
  }

  lemma {:induction false} BelowIsAnOrder(a: TrackId, b: TrackId)
    requires |a| == |b|
    ensures (Below(a, b) || Below(b, a)) && (Below(a, b) && Below(b, a) ==> a == b)
  {
    if a != "" {
      BelowIsAnOrder(a[1..], b[1..]);
      assert a == [a[0]] + a[1..] && b == [b[0]] + b[1..];
    }
  }

  lemma {:induction false} BelowGoesOn(a: TrackId, b: TrackId, c: TrackId)
    requires |a| == |b| == |c| && Below(a, b) && Below(b, c)
    ensures Below(a, c)
  {
    if a != "" && a[0] == b[0] == c[0] {
      BelowGoesOn(a[1..], b[1..], c[1..]);
    }
  }

  lemma PrecedesIsAnOrder(a: TrackId, b: TrackId)
    ensures (Precedes(a, b) || Precedes(b, a)) && (Precedes(a, b) && Precedes(b, a) ==> a == b)
  {
    if |a| == |b| {
      BelowIsAnOrder(a, b);
    }
  }

  lemma PrecedesGoesOn(a: TrackId, b: TrackId, c: TrackId)
    requires Precedes(a, b) && Precedes(b, c)
    ensures Precedes(a, c)
  {
    if |a| == |b| == |c| {
      BelowGoesOn(a, b, c);
    }
  }

  lemma {:induction false} FirstOf(keys: set<TrackId>) returns (first: TrackId)
    requires keys != {}
    ensures first in keys && forall k <- keys :: Precedes(first, k)
    decreases |keys|
  {
    first :| first in keys;
    PrecedesIsAnOrder(first, first);
    if keys != {first} {
      var other := FirstOf(keys - {first});
      PrecedesIsAnOrder(first, other);
      if Precedes(first, other) {
        forall k | k in keys ensures Precedes(first, k) {
          if k != first {
            PrecedesGoesOn(first, other, k);
          }
        }
      } else {
        first := other;
      }
    }
  }

  /** The claim of this step that a search through the pending claims meets first. */
  predicate IsFirstOf(pending: map<TrackId, Claim>, step: StepId, t: TrackId) {
    && t in pending && pending[t].step == step
    && forall u <- pending :: pending[u].step == step ==> Precedes(t, u)
  }

  lemma HasFirst(pending: map<TrackId, Claim>, step: StepId) returns (t: TrackId)
    requires HasClaimOf(pending, step)
    ensures IsFirstOf(pending, step, t)
  {
    var some :| some in pending && pending[some].step == step;
    var keys := set u | u in pending && pending[u].step == step;
    assert some in keys;
    t := FirstOf(keys);
    forall u | u in pending && pending[u].step == step ensures Precedes(t, u) {
      assert u in keys;
    }
  }

  lemma OneIsFirst(pending: map<TrackId, Claim>, step: StepId, t: TrackId, u: TrackId)
    requires IsFirstOf(pending, step, t) && IsFirstOf(pending, step, u)
    ensures t == u
  {
    PrecedesIsAnOrder(t, u);
  }

  lemma FirstExists(pending: map<TrackId, Claim>, step: StepId)
    requires HasClaimOf(pending, step)
    ensures exists t :: IsFirstOf(pending, step, t)
  {
    var t := HasFirst(pending, step);
  }

  ghost function ClaimTrackOf(pending: map<TrackId, Claim>, step: StepId): (t: TrackId)
    requires HasClaimOf(pending, step)
    ensures IsFirstOf(pending, step, t)
  {
    FirstExists(pending, step);
    var t :| IsFirstOf(pending, step, t); t
  }

  /** A receipt that lets an agent_action observation of this job, step and source through. */
  predicate Trusted(db: Db, claim: Claim, job: JobId, row: Job, step: StepId, source: SourceId) {
    claim.id in db.receipts && db.receipts[claim.id] == Receipt(job, row.sop, step, source)
  }

  // ---- The transactions ----------------------------------------------------------------

  /** The row, its definition and the step, or the refusal that readJob, definitionFor or
      stepOf makes. */
  datatype Located = Missing(why: Refusal) | Found(row: Job, step: Step)

  function Locate(env: Installed, db: Db, job: JobId, step: StepId): Located {
    if job !in db.jobs then Missing(JobNotFound)
    else
      var row := db.jobs[job];
      match DefinitionOf(env, row)
      case None => Missing(SopVersionNotInstalled)
      case Some(sop) =>
        match StepOf(sop, step)
        case None => Missing(SopStepInvalid)
        case Some(event) => Found(row, event)
  }

  function WithClaim(db: Db, job: JobId, row: Job, step: Step, claim: Claim): Db {
    var key := ClaimKey(step);
    var at := if key in row.positions then Some(row.positions[key]) else None;
    var event := Event(step.id, Intent, claim.source, false, None, Makes(claim.id, claim.state, key, at));
    db.(jobs := db.jobs[job := row.(pending := row.pending[key := claim], events := row.events + [event])],
        issued := db.issued + {claim.id})
  }

  function OpenJob(env: Installed, db: Db, c: Command): (Db, Outcome)
    requires c.Open?
  {
    if !HasText(c.unit) then (db, Refused(JobUnitInvalid))
    else if c.turn.None? || c.cause !in c.turn.value.sources then (db, Refused(JobOpenCauseMismatch))
    else if c.turn.value.unit != c.unit then (db, Refused(JobOpenUnitMismatch))
    else if exists r <- c.references :: !HasText(r) then (db, Refused(JobReferencesInvalid))
    else if c.sop !in env.latest || (c.sop, env.latest[c.sop]) !in env.definitions then (db, Refused(SopNotInstalled))
    else
      var version := env.latest[c.sop];
      var positions := InitialPositions(env.definitions[(c.sop, version)]);
      var row := Job(c.sop, version, c.unit, c.references, positions, map t | t in positions :: c.now, map[], []);
      (db.(jobs := db.jobs[c.newJob := row]), Done)
  }

  function BeginAction(env: Installed, db: Db, c: Command): (Db, Outcome)
    requires c.Begin?
  {
    if c.owner.pid < 1 || !c.ownerLives then (db, Refused(JobActionOwnerInvalid))
    else if !HasText(c.operation) then (db, Refused(JobOperationInvalid))
    else
      match Locate(env, db, c.job, c.step)
      case Missing(why) => (db, Refused(why))
      case Found(row, step) =>
        if step.kind != IntentStep || !Mapped(step, c.operation) then (db, Refused(JobActionUnmapped))
        else if !Legal(step, row.positions) then (db, Refused(JobMoveRefused))
        else if ClaimKey(step) in row.pending then (db, Refused(JobActionPending))
        else if Recorded(row.events, c.step, Intent, c.source) then (db, Refused(EventExists))
        else (WithClaim(db, c.job, row, step, Claim(c.step, c.newId, c.source, Claimed, c.now, Some(c.owner))), Done)
  }

  /** job_record of an intent: reserves the track for a step no tool has claimed. */
  function ReserveIntent(env: Installed, db: Db, c: Command): (Db, Outcome)
    requires c.Reserve?
  {
    match Locate(env, db, c.job, c.step)
    case Missing(why) => (db, Refused(why))
    case Found(row, step) =>
      if Recorded(row.events, c.step, Intent, c.source) then (db, AlreadyDone)
      else if step.kind != IntentStep then (db, Refused(JobStepNotIntent))
      else if !Legal(step, row.positions) then (db, Refused(JobMoveRefused))
      else if ClaimKey(step) in row.pending then (db, Refused(JobActionPending))
      else (WithClaim(db, c.job, row, step, Claim(c.step, c.newId, c.source, Reserved, c.now, None)), Done)
  }

  /** The first transaction of action_finish: one receipt per claim, ever. */
  ghost function WriteReceipt(db: Db, c: Command): (Db, Outcome)
    requires c.FinishReceipt?
  {
    if c.job !in db.jobs then (db, Refused(JobNotFound))
    else
      var row := db.jobs[c.job];
      var prior := c.id in db.receipts && db.receipts[c.id].job == c.job
        && db.receipts[c.id].step == c.step && db.receipts[c.id].source == c.source;
      if !HasClaim(row.pending, c.id) then (db, if prior then AlreadyDone else Refused(JobActionClaimAbsent))
      else
        var claim := row.pending[ClaimTrack(row.pending, c.id)];
        if claim.step != c.step || claim.state != Claimed then (db, Refused(JobActionClaimAbsent))
        else if c.id in db.receipts then (db, Done)
        else (db.(receipts := db.receipts[c.id := Receipt(c.job, row.sop, c.step, c.source)]), Done)
  }

  /** The tracks an observation moves; each of them loses its claim. */
  predicate Moves(before: Positions, after: Positions, track: TrackId) {
    track in after && (track !in before || before[track] != after[track])
  }

  function AfterObservation(row: Job, step: Step, source: SourceId, now: Time, trail: Trail): Job {
    var next := Observed(step, row.positions);
    row.(positions := next,
         since := map t | t in row.since.Keys + next.Keys && (t in row.since || Moves(row.positions, next, t)) ::
           if Moves(row.positions, next, t) then now else row.since[t],
         pending := map t | t in row.pending && !Moves(row.positions, next, t) :: row.pending[t],
         events := row.events + [Event(step.id, Observation, source, OffModel(step, row.positions), None, trail)])
  }

  /** job_record of an observation, which is also the second transaction of action_finish. */
  ghost function RecordObservation(env: Installed, db: Db, c: Command): (Db, Outcome)
    requires c.Observe?
  {
    match Locate(env, db, c.job, c.step)
    case Missing(why) => (db, Refused(why))
    case Found(row, step) =>
      if Recorded(row.events, c.step, Observation, c.source) then (db, AlreadyDone)
      else if step.observedVia == AGENT_ACTION then
        if HasClaimOf(row.pending, c.step) && Trusted(db, row.pending[ClaimTrackOf(row.pending, c.step)], c.job, row, c.step, c.source)
        then
          var rests := Rests(row.pending[ClaimTrackOf(row.pending, c.step)].id);
          (db.(jobs := db.jobs[c.job := AfterObservation(row, step, c.source, c.now, rests)]), Done)
        else (db, Refused(JobActionReceiptAbsent))
      else if Collected(c.source, step.observedVia, row.unit) in db.collected || c.verified then
        (db.(jobs := db.jobs[c.job := AfterObservation(row, step, c.source, c.now, NoClaim)]), Done)
      else (db, Refused(JobSourceUnverified))
  }

  ghost function ReconcileAbsent(db: Db, c: Command): (Db, Outcome)
    requires c.Reconcile?
  {
    if c.evidence.None? then (db, Refused(JobActionReadAbsent))
    else if c.job !in db.jobs then (db, Refused(JobNotFound))
    else
      var row := db.jobs[c.job];
      if !HasClaim(row.pending, c.id) then (db, Refused(JobActionClaimAbsent))
      else
        var track := ClaimTrack(row.pending, c.id);
        var claim := row.pending[track];
        if claim.step != c.step then (db, Refused(JobActionClaimAbsent))
        else if claim.owner.None? then (db, Refused(JobActionOwnerUnknown))
        else if c.ownerLives then (db, Refused(JobActionOwnerActive))
        else if Recorded(row.events, c.step, ReconciledAbsent, c.source) then (db, Refused(EventExists))
        else
          var event := Event(c.step, ReconciledAbsent, c.source, false, c.evidence, Drops(c.id));
          (db.(jobs := db.jobs[c.job := row.(pending := row.pending - {track}, events := row.events + [event])]), Done)
  }

  /** action_reconcile_ready: may the client's system be read for this claim, now that its writer
      is gone? It changes nothing. */
  ghost function ReconcileReady(db: Db, job: JobId, step: StepId, id: ActionId, ownerLives: bool): Outcome {
    if job !in db.jobs then Refused(JobNotFound)
    else
      var row := db.jobs[job];
      if !HasClaim(row.pending, id) || row.pending[ClaimTrack(row.pending, id)].step != step then Refused(JobActionClaimAbsent)
      else if row.pending[ClaimTrack(row.pending, id)].owner.None? then Refused(JobActionOwnerUnknown)
      else if ownerLives then Refused(JobActionOwnerActive)
      else Done
  }

  // ---- The installer ---------------------------------------------------------------------

  function LatestOf(env: Installed, sop: string): Option<Sop> {
    if sop in env.latest && (sop, env.latest[sop]) in env.definitions then Some(env.definitions[(sop, env.latest[sop])]) else None
  }

  /** The definition is accepted and is not installed, and may follow the one installed last. */
  predicate Installs(env: Installed, d: Sop) {
    && Accepted(d, d.sop) && (d.sop, d.version) !in env.definitions
    && (LatestOf(env, d.sop).Some? ==> Forward(LatestOf(env, d.sop).value, d))
  }

  /** The renames that installing it owes. */
  function RenamesFor(env: Installed, d: Sop): seq<Rename> {
    match LatestOf(env, d.sop)
    case None => []
    case Some(previous) => OwedRenames(previous, d)
  }

  /** A pending entry is an object and never equals a position name, so claims are carried as
      they are. */
  function Carried(row: Job, renames: seq<Rename>): Job {
    row.(positions := RenameAll(row.positions, renames), since := RenameSinceAll(row.since, renames))
  }

  /** A job of the definition's table, after the installation. */
  function CarriedTo(row: Job, d: Sop, renames: seq<Rename>): Job {
    Carried(row, renames).(version := d.version)
  }

  function NowInstalled(env: Installed, d: Sop): Installed {
    if Installs(env, d) then Installed(env.definitions[(d.sop, d.version) := d], env.latest[d.sop := d.version]) else env
  }

  /** installSops() for one definition: its jobs are carried to the new version. */
  function InstallSop(env: Installed, db: Db, c: Command): (Db, Outcome)
    requires c.Install?
  {
    var d := c.definition;
    if !Installs(env, d) then
      var same := Accepted(d, d.sop) && (d.sop, d.version) in env.definitions && env.definitions[(d.sop, d.version)] == d;
      (db, if same then AlreadyDone else Refused(RecordsMigrationRefused))
    else
      (db.(jobs := map j | j in db.jobs ::
             if db.jobs[j].sop == d.sop then CarriedTo(db.jobs[j], d, RenamesFor(env, d)) else db.jobs[j]), Done)
  }

  /** Ids handed out are fresh, as random UUIDs are taken to be. */
  predicate Fresh(db: Db, c: Command) {
    match c
    case Open(newJob, _, _, _, _, _, _) => newJob !in db.jobs
    case Begin(_, _, _, _, _, _, newId, _) => newId !in db.issued
    case Reserve(_, _, _, newId, _) => newId !in db.issued
    case _ => true
  }

  ghost function Apply(env: Installed, db: Db, c: Command): (Db, Outcome)
    requires Fresh(db, c)
  {
    match c
    case Open(_, _, _, _, _, _, _) => OpenJob(env, db, c)
    case Collect(source, channel, unit) =>
      if !HasText(unit) then (db, Refused(JobUnitInvalid))
      else
        var fact := Collected(source, channel, unit);
        (db.(collected := db.collected + {fact}), if fact in db.collected then AlreadyDone else Done)
    case Begin(_, _, _, _, _, _, _, _) => BeginAction(env, db, c)
    case Reserve(_, _, _, _, _) => ReserveIntent(env, db, c)
    case FinishReceipt(_, _, _, _) => WriteReceipt(db, c)
    case Observe(_, _, _, _, _) => RecordObservation(env, db, c)
    case Reconcile(_, _, _, _, _, _) => ReconcileAbsent(db, c)
    case Install(_) => InstallSop(env, db, c)
  }

  const EmptyDb := Db(map[], map[], {}, {})

  /** One transaction of a run; a command with an id already in use is not one and is skipped. */
  ghost function Transact(env: Installed, db: Db, c: Command): Db {
    if Fresh(db, c) then Apply(env, db, c).0 else db
  }

  /** What is installed after a transaction. */
  function InstalledBy(env: Installed, c: Command): Installed {
    if c.Install? then NowInstalled(env, c.definition) else env
  }

  /** What is installed after a run of transactions. */
  function InstalledAfter(env: Installed, commands: seq<Command>): Installed {
    if commands == [] then env
    else InstalledBy(InstalledAfter(env, commands[..|commands| - 1]), commands[|commands| - 1])
  }

  /** The state after a run of transactions, installations among them, on an empty database, from
      these definitions on. */
  ghost function Run(env: Installed, commands: seq<Command>): Db {
    if commands == [] then EmptyDb
    else
      var before := commands[..|commands| - 1];
      Transact(InstalledAfter(env, before), Run(env, before), commands[|commands| - 1])
  }
}
