/** One process over one channel's store: it recovers, takes replies, checks teachings, delivers,
    and may die between any two writes or around any call to the transport or to the records
    service. Models ReleaseLoop.recover, deliver and ensureTeachCheck of runtime/loop.ts, the
    reply tool's writer and the program harness's teach check. */
module Delivery {
  import opened Prelude
  import opened JobEngine
  import opened ReplyStore

  /** What a run takes as given: the room whose replies are held, the kind of harness, the
      procedures installed at first, and the digest that a sent reply's proof is made of. */
  datatype Config = Config(heldIn: Option<Conversation>, program: bool, env: Installed, proof: (Key, seq<string>) -> SourceId)

  datatype Handed = Handed(key: Key, text: string)

  datatype Phase =
    | Down
    | Recovering(todo: seq<Key>)
    | Idle
    | Receipts(todo: seq<Key>)
    | Sending(todo: seq<Key>)
    | InFlight(key: Key, todo: seq<Key>)
    | Finishing(key: Key, claim: ClaimRef, chunks: seq<string>, stage: nat, todo: seq<Key>, sending: bool)

  /** commands are the transactions the records service has run; taught and silent remember
      under which releases a teaching was recorded and a follow-up answered NOTHING_TAUGHT. */
  datatype Sys = Sys(store: Store, phase: Phase, log: seq<Handed>, commands: seq<Command>, taught: set<RequestId>, silent: set<RequestId>)

  datatype SendOutcome = SendConfirmed(chunks: seq<string>) | SendUnknown | SendThrew | SendRefused

  datatype Action =
    | Crash
    | Start(order: seq<Key>)
    | RecoverOne(cut: bool)
    | Write(key: Key, text: string, claim: Option<ClaimRef>, owned: bool, cut: bool)
    | Teach(req: RequestId)
    | EnsureTeach(req: RequestId, recordedAfter: bool, answer: string, cut: bool)
    | BeginDeliver(order: seq<Key>)
    | BeginSending(order: seq<Key>)
    | Advance
    | Confirm(outcome: SendOutcome, cut: bool)
    | FinishProof
    | FinishObservation(now: Time)
    | Annotate
    | Records(command: Command)

  predicate Enumerates(order: seq<Key>, keys: set<Key>) {
    && (forall k <- order :: k in keys) && (forall k <- keys :: k in order)
    && forall i, j :: 0 <= i < j < |order| ==> order[i] != order[j]
  }

  function ClaimedPending(store: Store): set<Key> {
    set k | k in store.replies && store.replies[k].status == Pending && store.replies[k].claim.Some?
  }

  function AllPending(store: Store): set<Key> {
    set k | k in store.replies && store.replies[k].status == Pending
  }

  function SentUnrecorded(store: Store): set<Key> {
    set k | k in store.replies && store.replies[k].status == Sent && store.replies[k].claim.Some? && !store.replies[k].recorded
  }

  // ---- The teach check -------------------------------------------------------------------

  const NOTHING_TAUGHT := "NOTHING_TAUGHT"

  function TrimStart(s: string): string {
    if s != "" && IsSpace(s[0]) then TrimStart(s[1..]) else s
  }

  function TrimEnd(s: string): string {
    if s != "" && IsSpace(s[|s| - 1]) then TrimEnd(s[..|s| - 1]) else s
  }

  predicate SaidNothingTaught(answer: string) {
    TrimEnd(TrimStart(answer)) == NOTHING_TAUGHT
  }

  datatype TeachOutcome = LetGo | Parked

  /** What ensureTeachCheck decides about a held reply; a program harness takes no follow-up. */
  function TeachDecision(recorded: bool, program: bool, recordedAfter: bool, answer: string): TeachOutcome {
    if recorded then LetGo
    else if program then Parked
    else if recordedAfter || SaidNothingTaught(answer) then LetGo
    else Parked
  }

  function WrittenStatus(cfg: Config, key: Key): Status {
    if cfg.heldIn == Some(key.room) then Held else Pending
  }

  // ---- The steps ----------------------------------------------------------------------------

  predicate TakesReplies(phase: Phase) {
    !phase.Down? && !phase.Recovering?
  }

  function WriteStep(cfg: Config, s: Sys, a: Action): Sys
    requires a.Write?
  {
    if !TakesReplies(s.phase) || !a.owned || Gate(s.store, a.key.req) != Written then s
    else
      var reply := Reply(WrittenStatus(cfg, a.key), a.claim, a.text, [], false, false);
      var captured := Capture(s.store, a.key, reply);
      if a.cut then s.(store := captured, phase := Down)
      else s.(store := WriteFence(captured, a.key, reply.status))
  }

  /** settleDelivery inside the loop: an unfenced request throws and ends the process. */
  function SettleStep(s: Sys, req: RequestId, status: Status, chunks: Option<seq<string>>, cut: bool, after: Phase): Sys {
    if req !in s.store.fences || Target(s.store, req) !in s.store.replies then s.(phase := Down)
    else if cut then s.(store := SettleRecord(s.store, req, status, chunks), phase := Down)
    else s.(store := Settle(s.store, req, status, chunks), phase := after)
  }

  function RecoverStep(s: Sys, cut: bool): Sys {
    if !s.phase.Recovering? then s
    else if s.phase.todo == [] then s.(phase := Idle)
    else SettleStep(s, s.phase.todo[0].req, Unknown, None, cut, Recovering(s.phase.todo[1..]))
  }

  function TeachStep(cfg: Config, s: Sys, a: Action): Sys
    requires a.EnsureTeach?
  {
    if s.phase != Idle || cfg.heldIn.None? then s
    else
      var key := Key(cfg.heldIn.value, a.req);
      if key !in s.store.replies || s.store.replies[key].status != Held then s
      else
        var asked := a.req !in s.taught && !cfg.program;
        var after := s.(taught := s.taught + if asked && a.recordedAfter then {a.req} else {},
                        silent := s.silent + if asked && SaidNothingTaught(a.answer) then {a.req} else {});
        match TeachDecision(a.req in s.taught, cfg.program, a.recordedAfter, a.answer)
        case Parked =>
          after.(store := s.store.(replies := s.store.replies[key := s.store.replies[key].(parked := true)]))
        case LetGo =>
          if a.req !in s.store.fences || s.store.fences[a.req].status != Held then after.(phase := Down)
          else SettleStep(after, a.req, Pending, None, a.cut, Idle)
  }

  function OutcomeStatus(outcome: SendOutcome): Status {
    match outcome
    case SendConfirmed(_) => Sent
    case SendUnknown => Unknown
    case SendThrew => Unknown
    case SendRefused => Failed
  }

  function ConfirmStep(s: Sys, outcome: SendOutcome, cut: bool): Sys {
    if !s.phase.InFlight? then s
    else
      var key, todo := s.phase.key, s.phase.todo;
      var chunks := if outcome.SendConfirmed? then Some(outcome.chunks) else None;
      var settled := SettleStep(s, key.req, OutcomeStatus(outcome), chunks, cut, Sending(todo));
      if settled.phase.Down? || !outcome.SendConfirmed? then settled
      else
        var confirmed := Target(s.store, key.req);
        match s.store.replies[confirmed].claim
        case None => settled
        case Some(claim) => settled.(phase := Finishing(confirmed, claim, outcome.chunks, 0, todo, true))
  }

  function AdvanceStep(s: Sys): Sys {
    match s.phase
    case Receipts(todo) =>
      if todo == [] || todo[0] !in s.store.replies || s.store.replies[todo[0]].claim.None? then s
      else
        var reply := s.store.replies[todo[0]];
        s.(phase := Finishing(todo[0], reply.claim.value, reply.chunks, 0, todo[1..], false))
    case Sending(todo) =>
      if todo == [] then s.(phase := Idle)
      else if todo[0] !in s.store.replies then s
      else s.(phase := InFlight(todo[0], todo[1..]), log := s.log + [Handed(todo[0], s.store.replies[todo[0]].text)])
    case _ => s
  }

  ghost function Database(cfg: Config, s: Sys): Db {
    Run(cfg.env, s.commands)
  }

  function InstalledNow(cfg: Config, s: Sys): Installed {
    InstalledAfter(cfg.env, s.commands)
  }

  /** A call to the records service: one transaction, and a refusal ends the process. */
  ghost function CallRecords(cfg: Config, s: Sys, c: Command, after: Phase): Sys
    requires c.FinishReceipt? || c.Observe?
  {
    var outcome := Apply(InstalledNow(cfg, s), Database(cfg, s), c).1;
    s.(commands := s.commands + [c], phase := if outcome.Refused? then Down else after)
  }

  ghost function FinishStep(cfg: Config, s: Sys, a: Action): Sys
    requires a.FinishProof? || a.FinishObservation?
  {
    if !s.phase.Finishing? then s
    else
      var f := s.phase;
      var source := cfg.proof(f.key, f.chunks);
      if a.FinishProof? && f.stage == 0 then
        CallRecords(cfg, s, FinishReceipt(f.claim.job, f.claim.step, source, f.claim.id), f.(stage := 1))
      else if a.FinishObservation? && f.stage == 1 then
        CallRecords(cfg, s, Observe(f.claim.job, f.claim.step, source, false, a.now), f.(stage := 2))
      else s
  }

  function AnnotateStep(s: Sys): Sys {
    if !s.phase.Finishing? || s.phase.stage != 2 || s.phase.key !in s.store.replies then s
    else
      var f := s.phase;
      s.(store := s.store.(replies := s.store.replies[f.key := s.store.replies[f.key].(recorded := true)]),
         phase := if f.sending then Sending(f.todo) else Receipts(f.todo))
  }

  ghost function Next(cfg: Config, s: Sys, a: Action): Sys {
    match a
    case Crash => s.(phase := Down)
    case Start(order) => if s.phase.Down? && Enumerates(order, ClaimedPending(s.store)) then s.(phase := Recovering(order)) else s
    case RecoverOne(cut) => RecoverStep(s, cut)
    case Write(_, _, _, _, _) => WriteStep(cfg, s, a)
    case Teach(req) => if s.phase == Idle then s.(taught := s.taught + {req}) else s
    case EnsureTeach(_, _, _, _) => TeachStep(cfg, s, a)
    case BeginDeliver(order) => if s.phase == Idle && Enumerates(order, SentUnrecorded(s.store)) then s.(phase := Receipts(order)) else s
    case BeginSending(order) =>
      if s.phase == Receipts([]) && Enumerates(order, AllPending(s.store)) then s.(phase := Sending(order)) else s
    case Advance => AdvanceStep(s)
    case Confirm(outcome, cut) => ConfirmStep(s, outcome, cut)
    case FinishProof => FinishStep(cfg, s, a)
    case FinishObservation(_) => FinishStep(cfg, s, a)
    case Annotate => AnnotateStep(s)
    case Records(command) => s.(commands := s.commands + [command])
  }

  const NewSystem := Sys(Store(map[], map[]), Down, [], [], {}, {})

  /** The state after a run of steps; Next leaves the state alone where a step does not apply. */
  ghost function RunFrom(cfg: Config, s: Sys, actions: seq<Action>): Sys {
    if actions == [] then s
    else Next(cfg, RunFrom(cfg, s, actions[..|actions| - 1]), actions[|actions| - 1])
  }

  function Count(log: seq<Handed>, key: Key): nat {
    if log == [] then 0
    else Count(log[..|log| - 1], key) + if log[|log| - 1].key == key then 1 else 0
  }
}
