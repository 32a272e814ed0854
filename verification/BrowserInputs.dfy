/** Ordinary browser inputs of runtime/loop.ts: steered into a running turn, released as a turn of
    their own, or left uncertain. One pass, one delivery chain beside it, a store written one
    record at a time, and a process that may die between any two writes. */
module BrowserInputs {
  import opened Prelude

  type InputId = string
  type ReleaseId = string

  /** The phase of the record's browser_delivery. */
  datatype Phase = Unsent | Dispatching | Delivered | NextTurn | Uncertain | Completed | FailedTurn
  datatype Input = Input(release: Option<ReleaseId>, phase: Phase, done: bool)

  datatype Life = Down | Recovering | Up
  datatype Pass = AtRest | Chosen(id: InputId) | Turning(release: ReleaseId)
  datatype Active = Active(release: ReleaseId, accepted: bool, ended: bool)

  /** Where the delivery chain stands: the intent is written, the call is out, the release or the
      receipt behind it is written. */
  datatype Delivery =
    | NoDelivery
    | Prepared(id: InputId, release: ReleaseId)
    | Steering(id: InputId, release: ReleaseId)
    | Acked(id: InputId, release: ReleaseId)
    | Told(id: InputId, release: ReleaseId)
    | Unsure(id: InputId, release: ReleaseId)

  /** What was done to an input: handed to a running turn, known not to have arrived, given a
      release. */
  datatype Event = Steered(id: InputId, release: ReleaseId) | Rejected(id: InputId) | Released(id: InputId, release: ReleaseId)

  datatype Sys = Sys(inputs: map<InputId, Input>, life: Life, pass: Pass, active: Option<Active>, delivery: Delivery, history: seq<Event>)

  datatype Action =
    | Capture(id: InputId)
    | Crash
    | Start
    | RecoverOne(id: InputId)
    | Recovered
    | Choose(id: InputId)
    | PassOver
    | WriteRelease(release: ReleaseId)
    | TurnBegins
    | TurnAccepted
    | TurnEnds
    | TurnCloses
    | Close(id: InputId)
    | CloseFailed(id: InputId)
    | MarkPhase(id: InputId, failed: bool)
    | Exclude(id: InputId)
    | Begin(id: InputId, canSteer: bool)
    | PreparationFails
    | Decline
    | Steer
    | Acknowledge
    | MarkDelivered
    | Settle(excluded: bool)
    | SteerFails(rejected: bool)
    | MarkUncertain

  // ---- The steps ------------------------------------------------------------------------------------

  /** Neither released nor uncertain, which is what both doors to the model ask of a fresh read. */
  predicate Free(inputs: map<InputId, Input>, id: InputId) {
    id in inputs && inputs[id].release.None? && inputs[id].phase != Uncertain
  }

  function WithPhase(inputs: map<InputId, Input>, id: InputId, phase: Phase): map<InputId, Input>
    requires id in inputs
  {
    inputs[id := inputs[id].(phase := phase)]
  }

  /** store.release(): it does not ask whether there is a release already. */
  function WithRelease(inputs: map<InputId, Input>, id: InputId, release: ReleaseId): map<InputId, Input>
    requires id in inputs
  {
    inputs[id := inputs[id].(release := Some(release))]
  }

  function LifeStep(s: Sys, a: Action): Sys {
    match a
    case Capture(id) => if id in s.inputs then s else s.(inputs := s.inputs[id := Input(None, Unsent, false)])
    case Crash => s.(life := Down, pass := AtRest, active := None, delivery := NoDelivery)
    case Start => if s.life == Down then s.(life := Recovering) else s
    case RecoverOne(id) =>
      if s.life == Recovering && id in s.inputs && s.inputs[id].phase == Dispatching
      then s.(inputs := WithPhase(s.inputs, id, Uncertain)) else s
    case Recovered =>
      if s.life == Recovering && forall id <- s.inputs :: s.inputs[id].phase != Dispatching then s.(life := Up) else s
    case _ => s
  }

  /** The pass: it reads the input again, waits for a thread and other things, and then writes the
      release. The turn, its follow-ups and what is written behind them come under that release. */
  function PassStep(s: Sys, a: Action): Sys {
    match a
    case Choose(id) => if s.life == Up && s.pass == AtRest && Free(s.inputs, id) then s.(pass := Chosen(id)) else s
    case PassOver => if s.active.None? then s.(pass := AtRest) else s
    case WriteRelease(release) =>
      if s.pass.Chosen? && s.pass.id in s.inputs
      then s.(inputs := WithRelease(s.inputs, s.pass.id, release), pass := Turning(release), history := s.history + [Released(s.pass.id, release)])
      else s
    case TurnBegins => if s.pass.Turning? && s.active.None? then s.(active := Some(Active(s.pass.release, false, false))) else s
    case TurnAccepted => if s.active.Some? then s.(active := Some(s.active.value.(accepted := true))) else s
    case TurnEnds => if s.active.Some? then s.(active := Some(s.active.value.(ended := true))) else s
    case TurnCloses => if s.active.Some? && s.active.value.ended && s.delivery == NoDelivery then s.(active := None) else s
    case _ => s
  }

  /** What is written on an input that has its release, behind its turn or its reply; an uncertain
      one is passed over, except that a turn the model refused for good closes all of its own. */
  function CloseStep(s: Sys, a: Action): Sys {
    match a
    case Close(id) =>
      if id in s.inputs && s.inputs[id].release.Some? && s.inputs[id].phase != Uncertain
      then s.(inputs := s.inputs[id := s.inputs[id].(done := true)]) else s
    case CloseFailed(id) =>
      if s.pass.Turning? && s.active.None? && id in s.inputs && s.inputs[id].release == Some(s.pass.release)
      then s.(inputs := s.inputs[id := s.inputs[id].(done := true)]) else s
    case MarkPhase(id, failed) =>
      if s.pass.Turning? && s.active.None? && id in s.inputs && s.inputs[id].release == Some(s.pass.release) && s.inputs[id].phase != Uncertain
      then s.(inputs := WithPhase(s.inputs, id, if failed then FailedTurn else Completed)) else s
    case Exclude(id) =>
      if s.pass.Turning? && s.active.None? && id in s.inputs && s.inputs[id].release == Some(s.pass.release) && s.inputs[id].phase != Uncertain
      then s.(inputs := WithPhase(s.inputs, id, Uncertain)) else s
    case _ => s
  }

  function DeliveryStep(s: Sys, a: Action): Sys {
    match a
    case Begin(id, canSteer) =>
      if s.active.Some? && s.active.value.accepted && s.delivery == NoDelivery && Free(s.inputs, id)
      then
        if canSteer then s.(inputs := WithPhase(s.inputs, id, Dispatching), delivery := Prepared(id, s.active.value.release))
        else s.(inputs := WithPhase(s.inputs, id, NextTurn))
      else s
    case PreparationFails => if s.delivery.Prepared? then s.(delivery := NoDelivery) else s
    case Decline =>
      if s.delivery.Prepared? && s.delivery.id in s.inputs
      then s.(inputs := WithPhase(s.inputs, s.delivery.id, NextTurn), delivery := NoDelivery) else s
    case Steer =>
      if s.delivery.Prepared? && s.active.Some? && !s.active.value.ended
      then s.(delivery := Steering(s.delivery.id, s.delivery.release), history := s.history + [Steered(s.delivery.id, s.delivery.release)])
      else s
    case Acknowledge =>
      if s.delivery.Steering? && s.delivery.id in s.inputs
      then s.(inputs := WithRelease(s.inputs, s.delivery.id, s.delivery.release), delivery := Acked(s.delivery.id, s.delivery.release),
              history := s.history + [Released(s.delivery.id, s.delivery.release)])
      else s
    case MarkDelivered =>
      if s.delivery.Acked? && s.delivery.id in s.inputs
      then s.(inputs := WithPhase(s.inputs, s.delivery.id, Delivered), delivery := Told(s.delivery.id, s.delivery.release)) else s
    case Settle(excluded) =>
      if s.delivery.Told? && s.delivery.id in s.inputs
      then s.(inputs := if excluded then WithPhase(s.inputs, s.delivery.id, Uncertain) else s.inputs, delivery := NoDelivery) else s
    case SteerFails(rejected) => FailStep(s, rejected)
    case MarkUncertain =>
      if s.delivery.Unsure? && s.delivery.id in s.inputs
      then s.(inputs := WithPhase(s.inputs, s.delivery.id, Uncertain), delivery := NoDelivery) else s
    case _ => s
  }

  /** The call threw, or something behind its acknowledgement did. Known not to have arrived: the
      next turn may have it. Otherwise it keeps this turn's release and becomes uncertain. */
  function FailStep(s: Sys, rejected: bool): Sys {
    if !(s.delivery.Steering? || s.delivery.Acked? || s.delivery.Told?) || s.delivery.id !in s.inputs then s
    else if rejected then
      s.(inputs := WithPhase(s.inputs, s.delivery.id, NextTurn), delivery := NoDelivery, history := s.history + [Rejected(s.delivery.id)])
    else
      s.(inputs := WithRelease(s.inputs, s.delivery.id, s.delivery.release), delivery := Unsure(s.delivery.id, s.delivery.release),
         history := s.history + [Released(s.delivery.id, s.delivery.release)])
  }

  function Next(s: Sys, a: Action): Sys {
    match a
    case Capture(_) => LifeStep(s, a)
    case Crash => LifeStep(s, a)
    case Start => LifeStep(s, a)
    case RecoverOne(_) => LifeStep(s, a)
    case Recovered => LifeStep(s, a)
    case Choose(_) => PassStep(s, a)
    case PassOver => PassStep(s, a)
    case WriteRelease(_) => PassStep(s, a)
    case TurnBegins => PassStep(s, a)
    case TurnAccepted => PassStep(s, a)
    case TurnEnds => PassStep(s, a)
    case TurnCloses => PassStep(s, a)
    case Close(_) => CloseStep(s, a)
    case CloseFailed(_) => CloseStep(s, a)
    case MarkPhase(_, _) => CloseStep(s, a)
    case Exclude(_) => CloseStep(s, a)
    case _ => DeliveryStep(s, a)
  }

  const NewSystem := Sys(map[], Down, AtRest, None, NoDelivery, [])

  function RunFrom(s: Sys, actions: seq<Action>): Sys {
    if actions == [] then s else Next(RunFrom(s, actions[..|actions| - 1]), actions[|actions| - 1])
  }

  // ---- What may have reached the model ------------------------------------------------------------------

  /** The turn an input may have reached by a steering call that is not known to have failed. */
  function MayHaveReached(history: seq<Event>, id: InputId): Option<ReleaseId> {
    if history == [] then None
    else
      match history[|history| - 1]
      case Steered(other, release) => if other == id then Some(release) else MayHaveReached(history[..|history| - 1], id)
      case Rejected(other) => if other == id then None else MayHaveReached(history[..|history| - 1], id)
      case Released(_, _) => MayHaveReached(history[..|history| - 1], id)
  }

  predicate HasRelease(history: seq<Event>, id: InputId) {
    exists e <- history :: e.Released? && e.id == id
  }

  /** The event is allowed after what went before: a steering call needs an input that was never
      released and that no earlier call may have delivered; a release is the input's first, or the
      one it has, and never moves it out of the turn it may have reached. */
  predicate Allowed(before: seq<Event>, e: Event) {
    match e
    case Steered(id, _) => MayHaveReached(before, id).None? && !HasRelease(before, id)
    case Released(id, release) =>
      && (forall other <- before :: other.Released? && other.id == id ==> other.release == release)
      && (MayHaveReached(before, id).Some? ==> MayHaveReached(before, id) == Some(release))
    case Rejected(_) => true
  }

  predicate Proper(history: seq<Event>) {
    history == [] || (Proper(history[..|history| - 1]) && Allowed(history[..|history| - 1], history[|history| - 1]))
  }

  // ---- The invariant ---------------------------------------------------------------------------------------

  predicate ControlSound(s: Sys) {
    && (s.active.Some? ==> s.life == Up && s.pass == Turning(s.active.value.release))
    && (s.delivery != NoDelivery ==> s.active.Some? && s.delivery.release == s.active.value.release && s.delivery.id in s.inputs)
    && (s.pass != AtRest ==> s.life == Up)
    && (s.pass.Chosen? ==> Free(s.inputs, s.pass.id))
  }

  predicate DeliverySound(s: Sys) {
    match s.delivery
    case NoDelivery => true
    case Prepared(id, _) => id in s.inputs && s.inputs[id].release.None? && s.inputs[id].phase == Dispatching && MayHaveReached(s.history, id).None?
    case Steering(id, release) =>
      id in s.inputs && s.inputs[id].release.None? && s.inputs[id].phase == Dispatching && MayHaveReached(s.history, id) == Some(release)
    case Acked(id, release) => id in s.inputs && s.inputs[id].release == Some(release) && s.inputs[id].phase == Dispatching
    case Told(id, release) => id in s.inputs && s.inputs[id].release == Some(release) && s.inputs[id].phase == Delivered
    case Unsure(id, release) => id in s.inputs && s.inputs[id].release == Some(release) && s.inputs[id].phase != Uncertain
  }

  /** Every release in the history is the one its input has. */
  predicate ReleasesStand(s: Sys) {
    forall e <- s.history :: e.Released? ==> e.id in s.inputs && s.inputs[e.id].release == Some(e.release)
  }

  /** An input that a call may have delivered is held back: by that call's release, by being
      uncertain, or by an intent that the running delivery or the next start will see to. */
  ghost predicate ReachedHeldBack(s: Sys) {
    forall id :: MayHaveReached(s.history, id).Some? ==>
      && id in s.inputs
      && (s.inputs[id].release.Some? ==> s.inputs[id].release == MayHaveReached(s.history, id))
      && (s.inputs[id].release.None? && s.inputs[id].phase != Uncertain ==>
            s.inputs[id].phase == Dispatching && (s.life != Up || (s.delivery.Steering? && s.delivery.id == id)))
  }

  ghost predicate Safe(s: Sys) {
    ControlSound(s) && DeliverySound(s) && ReleasesStand(s) && ReachedHeldBack(s) && Proper(s.history)
  }
}
