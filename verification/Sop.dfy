/** A standard operating procedure: tracks of positions, and steps that move a job along
    them. Models records/sop-definition.ts over definitions whose JSON has the declared
    shape (strings are strings, lists are lists). */
module Sop {
  import opened Prelude

  type TrackId = string
  type PosId = string
  type StepId = string

  datatype Position = Position(
    id: PosId, name: string, means: string, doHere: string, waitingOn: string,
    terminal: bool, hasDeadline: bool, onDeadline: Option<StepId>, renamedFrom: Option<PosId>)
  datatype Track = Track(id: TrackId, name: string, initial: PosId, positions: seq<Position>)
  datatype Move = Move(track: TrackId, from: seq<PosId>, to: PosId)
  datatype StepKind = IntentStep | ObservationStep
  /** The operation a step maps to: a bare name, or an object naming a tool or an operation. */
  datatype Action = Named(name: string) | Call(tool: Option<string>, operation: Option<string>)
  datatype Step = Step(
    id: StepId, kind: StepKind, mover: string, observedVia: string, moves: seq<Move>,
    needs: seq<(TrackId, PosId)>, action: Option<Action>, retired: bool)
  datatype Sop = Sop(sop: string, version: string, tracks: seq<Track>, events: seq<Step>, channels: set<string>)

  type Positions = map<TrackId, PosId>

  const AGENT_ACTION := "agent_action"

  // ---- Reading a definition ----------------------------------------------------------

  function Ids(positions: seq<Position>): set<PosId> {
    set p | p in positions :: p.id
  }

  function InitialPositions(sop: Sop): Positions {
    InitialOf(sop.tracks)
  }

  /** Object.fromEntries: a later track with the same id wins. */
  function InitialOf(tracks: seq<Track>): Positions {
    if tracks == [] then map[]
    else var last := tracks[|tracks| - 1]; InitialOf(tracks[..|tracks| - 1])[last.id := last.initial]
  }

  function FirstWithId(events: seq<Step>, id: StepId): Option<Step> {
    if events == [] then None
    else if events[0].id == id then Some(events[0])
    else FirstWithId(events[1..], id)
  }

  /** The active step with this id: the first match, unless it is retired. */
  function StepOf(sop: Sop, id: StepId): (r: Option<Step>)
    ensures r.Some? ==> r.value in sop.events && r.value.id == id && !r.value.retired
  {
    FirstWithIdIsIn(sop.events, id);
    match FirstWithId(sop.events, id)
    case Some(step) => if step.retired then None else Some(step)
    case None => None
  }

  lemma FirstWithIdIsIn(events: seq<Step>, id: StepId)
    ensures var r := FirstWithId(events, id); r.Some? ==> r.value in events && r.value.id == id
  {
  }

  // ---- Legality and observation ------------------------------------------------------

  /** A step without moves, or whose first move names the empty track, has no primary track. */
  predicate HasPrimary(step: Step) {
    step.moves != [] && step.moves[0].track != ""
  }

  function Primary(step: Step): TrackId
    requires HasPrimary(step)
  {
    step.moves[0].track
  }

  predicate Holds(positions: Positions, track: TrackId, at: PosId) {
    track in positions && positions[track] == at
  }

  predicate NeedsMet(step: Step, positions: Positions) {
    forall need <- step.needs :: Holds(positions, need.0, need.1)
  }

  predicate Fits(move: Move, positions: Positions) {
    move.track in positions && positions[move.track] in move.from
  }

  /** What legality() promises of a legal step: the required positions hold, and some move on
      the primary track starts where the job is. */
  predicate Legal(step: Step, positions: Positions) {
    && NeedsMet(step, positions)
    && (HasPrimary(step) ==> exists move <- step.moves :: move.track == Primary(step) && Fits(move, positions))
  }

  /** The first listed move on a track that starts where the job is. */
  function Taken(moves: seq<Move>, track: TrackId, positions: Positions): Option<PosId> {
    if moves == [] then None
    else
      var last := moves[|moves| - 1];
      var before := Taken(moves[..|moves| - 1], track, positions);
      if before.Some? then before
      else if last.track == track && Fits(last, positions) then Some(last.to)
      else None
  }

  lemma {:induction false} TakenFits(moves: seq<Move>, track: TrackId, positions: Positions)
    ensures var taken := Taken(moves, track, positions);
            && (taken.Some? <==> exists move <- moves :: move.track == track && Fits(move, positions))
            && (taken.Some? ==> exists move <- moves :: move.track == track && Fits(move, positions) && move.to == taken.value)
  {
    if moves != [] {
      var last := moves[|moves| - 1];
      assert forall m :: m in moves <==> m in moves[..|moves| - 1] || m == last;
      TakenFits(moves[..|moves| - 1], track, positions);
    }
  }

  /** The target of the last listed move on a track. */
  function LastTarget(moves: seq<Move>, track: TrackId): (to: PosId)
    requires exists move <- moves :: move.track == track
    ensures exists move <- moves :: move.track == track && move.to == to
  {
    var last := moves[|moves| - 1];
    if last.track == track then last.to
    else
      assert forall m :: m in moves && m != last ==> m in moves[..|moves| - 1];
      LastTarget(moves[..|moves| - 1], track)
  }

  /** Where a track stands after a step is observed. A track with a fitting move takes it; a
      primary track with none is put at the step's last target; every other track stays. */
  function NextAt(step: Step, positions: Positions, track: TrackId): Option<PosId> {
    var taken := Taken(step.moves, track, positions);
    if taken.Some? then taken
    else if HasPrimary(step) && Primary(step) == track then
      assert step.moves[0] in step.moves;
      Some(LastTarget(step.moves, track))
    else if track in positions then Some(positions[track])
    else None
  }

  function Tracked(step: Step, positions: Positions): set<TrackId> {
    positions.Keys + if HasPrimary(step) then {Primary(step)} else {}
  }

  function Observed(step: Step, positions: Positions): Positions {
    map track | track in Tracked(step, positions) ::
      assert NextAt(step, positions, track).Some?; NextAt(step, positions, track).value
  }

  /** The model does not explain the observation: a requirement is unmet, or no move on the
      primary track starts where the job is. */
  predicate OffModel(step: Step, positions: Positions) {
    || !NeedsMet(step, positions)
    || (HasPrimary(step) && Taken(step.moves, Primary(step), positions).None?)
  }

  /** An observation is off the model exactly when the same step would have been refused as an
      intent, for every step and every positions, declared or not. */
  lemma OffModelIsIllegal(step: Step, positions: Positions)
    ensures OffModel(step, positions) <==> !Legal(step, positions)
  {
    if HasPrimary(step) {
      TakenFits(step.moves, Primary(step), positions);
    }
  }

  /** legality(): collects a reason for every unmet condition. */
  method Legality(step: Step, positions: Positions) returns (legal: bool, why: seq<TrackId>)
    ensures legal <==> Legal(step, positions)
    ensures legal <==> why == []
    ensures forall track <- why ::
              || (exists need <- step.needs :: need.0 == track && !Holds(positions, track, need.1))
              || (HasPrimary(step) && track == Primary(step) && Taken(step.moves, track, positions).None?)
  {
    why := [];
    for i := 0 to |step.needs|
      invariant why == [] <==> forall need <- step.needs[..i] :: Holds(positions, need.0, need.1)
      invariant forall track <- why ::
          exists need <- step.needs :: need.0 == track && !Holds(positions, track, need.1)
    {
      var need := step.needs[i];
      assert step.needs[..i + 1] == step.needs[..i] + [need];
      assert need in step.needs;
      if !Holds(positions, need.0, need.1) {
        why := why + [need.0];
      }
    }
    assert step.needs[..|step.needs|] == step.needs;
    if HasPrimary(step) {
      var fits := false;
      for i := 0 to |step.moves|
        invariant fits <==> exists move <- step.moves[..i] :: move.track == Primary(step) && Fits(move, positions)
      {
        assert step.moves[..i + 1] == step.moves[..i] + [step.moves[i]];
        fits := fits || (step.moves[i].track == Primary(step) && Fits(step.moves[i], positions));
      }
      assert step.moves[..|step.moves|] == step.moves;
      TakenFits(step.moves, Primary(step), positions);
      if !fits {
        why := why + [Primary(step)];
      }
    }
    legal := why == [];
  }

  /** The tracks the first moves have moved, and where: the loop state of applyObservation. */
  ghost predicate MovedSoFar(moves: seq<Move>, positions: Positions, moved: set<TrackId>, next: Positions) {
    && next.Keys == positions.Keys
    && (forall t <- moved :: t in positions)
    && (forall t <- positions :: t in moved <==> Taken(moves, t, positions).Some?)
    && (forall t <- positions :: next[t] == if t in moved then Taken(moves, t, positions).value else positions[t])
  }

  lemma OneMoreMove(moves: seq<Move>, i: nat, positions: Positions, moved: set<TrackId>, next: Positions)
    requires i < |moves| && MovedSoFar(moves[..i], positions, moved, next)
    ensures var move := moves[i];
            if move.track !in moved && Fits(move, positions)
            then MovedSoFar(moves[..i + 1], positions, moved + {move.track}, next[move.track := move.to])
            else MovedSoFar(moves[..i + 1], positions, moved, next)
  {
    assert moves[..i + 1][..i] == moves[..i];
    assert moves[..i + 1][i] == moves[i];
  }

  /** applyObservation(): the first fitting move of each track wins, in listed order. */
  method ApplyObservation(step: Step, positions: Positions) returns (next: Positions, offModel: bool)
    ensures next == Observed(step, positions)
    ensures offModel <==> OffModel(step, positions)
  {
    next := positions;
    var moved: set<TrackId> := {};
    for i := 0 to |step.moves|
      invariant MovedSoFar(step.moves[..i], positions, moved, next)
    {
      OneMoreMove(step.moves, i, positions, moved, next);
      var move := step.moves[i];
      if move.track !in moved && Fits(move, positions) {
        next := next[move.track := move.to];
        moved := moved + {move.track};
      }
    }
    assert step.moves[..|step.moves|] == step.moves;
    offModel := !NeedsMet(step, positions);
    if HasPrimary(step) {
      TakenFits(step.moves, Primary(step), positions);
    }
    if HasPrimary(step) && Primary(step) !in moved {
      offModel := true;
      assert step.moves[0] in step.moves;
      next := next[Primary(step) := LastTarget(step.moves, Primary(step))];
    }
  }
}
