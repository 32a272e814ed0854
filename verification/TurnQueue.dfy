/** The records service's turn contexts, turnContexts() of runtime/records-tool.ts: one active turn,
    the others waiting in line. A promise is a ticket; answers says which tickets were settled,
    in order, and how. */
module TurnQueue {
  import opened Prelude

  datatype Owner = Owner(pid: int, generation: string)
  datatype Context = Context(releaseId: string, unit: string, sources: seq<string>, owner: Owner)
  datatype Turn = Turn(context: Context, ticket: nat)

  datatype Settled = BecameActive | Cancelled | Stopping
  datatype Answer = Answer(ticket: nat, how: Settled)
  datatype Refusal = TurnStopping | ContextInvalid | TurnActive | ContextDuplicate | OwnerInvalid | ContextMismatch

  datatype Service = Service(active: Option<Turn>, waiting: seq<Turn>, accepting: bool, inspectionFailed: bool,
                             arrivals: nat, answers: seq<Answer>)

  // ---- Refusals ----------------------------------------------------------------------------------

  function Others(s: Service): seq<Turn> {
    (if s.active.Some? then [s.active.value] else []) + s.waiting
  }

  predicate Complete(c: Context) {
    HasText(c.releaseId) && HasText(c.unit) && c.sources != [] && forall id <- c.sources :: HasText(id)
  }

  predicate Shares(a: Context, b: Context) {
    exists id <- a.sources :: id in b.sources
  }

  /** Why a start is refused, if it is; ownerLives is what the process table says of the owner. */
  function StartRefusal(s: Service, c: Context, ownerLives: bool): Option<Refusal> {
    if !s.accepting then Some(TurnStopping)
    else if !Complete(c) then Some(ContextInvalid)
    else if exists turn <- Others(s) :: turn.context.releaseId == c.releaseId then Some(TurnActive)
    else if exists turn <- Others(s) :: Shares(c, turn.context) then Some(ContextDuplicate)
    else if c.owner.pid <= 0 || !ownerLives then Some(OwnerInvalid)
    else None
  }

  // ---- The steps -----------------------------------------------------------------------------------

  /** The next in line becomes active, and is told so. */
  function Advanced(s: Service): Service {
    if s.waiting == [] then s.(active := None)
    else s.(active := Some(s.waiting[0]), waiting := s.waiting[1..], answers := s.answers + [Answer(s.waiting[0].ticket, BecameActive)])
  }

  datatype Operation =
    | Start(context: Context, ownerLives: bool, aborted: bool)
    | End(releaseId: string)
    | Abort(ticket: nat)
    | Inspect(generation: Option<string>)
    | Drain

  function Started(s: Service, c: Context, aborted: bool): Service {
    var ticket := s.arrivals;
    var arrived := s.(arrivals := ticket + 1);
    if s.active.None? then arrived.(active := Some(Turn(c, ticket)), answers := s.answers + [Answer(ticket, BecameActive)])
    else if aborted then arrived.(answers := s.answers + [Answer(ticket, Cancelled)])
    else arrived.(waiting := s.waiting + [Turn(c, ticket)])
  }

  predicate HasTicket(turns: seq<Turn>, ticket: nat) {
    exists turn <- turns :: turn.ticket == ticket
  }

  predicate Waits(s: Service, ticket: nat) {
    HasTicket(s.waiting, ticket)
  }

  function Without(turns: seq<Turn>, ticket: nat): seq<Turn> {
    if turns == [] then []
    else if turns[0].ticket == ticket then turns[1..]
    else [turns[0]] + Without(turns[1..], ticket)
  }

  function AllStopped(turns: seq<Turn>): seq<Answer> {
    if turns == [] then [] else AllStopped(turns[..|turns| - 1]) + [Answer(turns[|turns| - 1].ticket, Stopping)]
  }

  /** What an operation leaves, and why it was refused, if it was. The listener of a turn that has
      been answered is gone, so its abort does nothing; the interval of a drained service is
      cleared, so it inspects nothing. */
  function Next(s: Service, op: Operation): (Service, Option<Refusal>) {
    match op
    case Start(c, ownerLives, aborted) =>
      var refusal := StartRefusal(s, c, ownerLives);
      if refusal.Some? then (s, refusal) else (Started(s, c, aborted), None)
    case End(releaseId) =>
      if s.active.None? || s.active.value.context.releaseId != releaseId then (s, Some(ContextMismatch)) else (Advanced(s), None)
    case Abort(ticket) =>
      if Waits(s, ticket) then (s.(waiting := Without(s.waiting, ticket), answers := s.answers + [Answer(ticket, Cancelled)]), None)
      else (s, None)
    case Inspect(generation) =>
      if s.active.None? || !s.accepting then (s, None)
      else if generation.None? then (s.(inspectionFailed := true), None)
      else
        var seen := s.(inspectionFailed := false);
        (if generation.value != s.active.value.context.owner.generation then Advanced(seen) else seen, None)
    case Drain =>
      (s.(accepting := false, waiting := [], answers := s.answers + AllStopped(s.waiting)), None)
  }

  const Fresh := Service(None, [], true, false, 0, [])

  function Run(operations: seq<Operation>): Service {
    if operations == [] then Fresh else Next(Run(operations[..|operations| - 1]), operations[|operations| - 1]).0
  }

  // ---- The object ------------------------------------------------------------------------------------

  class TurnContexts {
    var active: Option<Turn>
    var waiting: seq<Turn>
    var accepting: bool
    var ownerInspectionFailed: bool
    ghost var arrivals: nat
    ghost var answers: seq<Answer>

    ghost function View(): Service
      reads this
    {
      Service(active, waiting, accepting, ownerInspectionFailed, arrivals, answers)
    }

    constructor ()
      ensures View() == Fresh
    {
      active, waiting, accepting, ownerInspectionFailed := None, [], true, false;
      arrivals, answers := 0, [];
    }

    /** advance(). */
    method Advance()
      modifies this
      ensures View() == Advanced(old(View()))
    {
      if waiting == [] {
        active := None;
      } else {
        var next := waiting[0];
        waiting := waiting[1..];
        active := Some(next);
        answers := answers + [Answer(next.ticket, BecameActive)];
      }
    }

    /** validateTurnContext(), against the active and the waiting turns. */
    method Validate(context: Context, ownerLives: bool) returns (refusal: Option<Refusal>)
      requires accepting
      ensures refusal == StartRefusal(View(), context, ownerLives)
    {
      if !Complete(context) {
        return Some(ContextInvalid);
      }
      var others := (if active.Some? then [active.value] else []) + waiting;
      assert others == Others(View());
      if exists turn <- others :: turn.context.releaseId == context.releaseId {
        return Some(TurnActive);
      }
      if exists turn <- others :: Shares(context, turn.context) {
        return Some(ContextDuplicate);
      }
      if context.owner.pid <= 0 || !ownerLives {
        return Some(OwnerInvalid);
      }
      return None;
    }

    /** start(); ticket stands for the promise, whose settling is in answers. */
    method StartTurn(context: Context, ownerLives: bool, aborted: bool, ticket: nat) returns (refusal: Option<Refusal>)
      requires ticket == arrivals
      modifies this
      ensures (View(), refusal) == Next(old(View()), Start(context, ownerLives, aborted))
    {
      if !accepting {
        return Some(TurnStopping);
      }
      refusal := Validate(context, ownerLives);
      if refusal.Some? {
        return;
      }
      arrivals := arrivals + 1;
      if active.Some? {
        if aborted {
          answers := answers + [Answer(ticket, Cancelled)];
          return;
        }
        waiting := waiting + [Turn(context, ticket)];
        return;
      }
      active := Some(Turn(context, ticket));
      answers := answers + [Answer(ticket, BecameActive)];
    }

    method EndTurn(releaseId: string) returns (refusal: Option<Refusal>)
      modifies this
      ensures (View(), refusal) == Next(old(View()), End(releaseId))
    {
      if active.None? || active.value.context.releaseId != releaseId {
        return Some(ContextMismatch);
      }
      Advance();
      return None;
    }

    /** The abort listener of a waiting turn. */
    method AbortTurn(ticket: nat)
      modifies this
      ensures (View(), None) == Next(old(View()), Abort(ticket))
    {
      var index := 0;
      while index < |waiting| && waiting[index].ticket != ticket
        invariant 0 <= index <= |waiting|
        invariant forall k :: 0 <= k < index ==> waiting[k].ticket != ticket
      {
        index := index + 1;
      }
      if index < |waiting| {
        WithoutIs(waiting, ticket, index);
        assert waiting[index] in waiting;
        waiting := waiting[..index] + waiting[index + 1..];
        answers := answers + [Answer(ticket, Cancelled)];
      }
    }

    /** The interval's inspection of the active turn's owner; None when it threw. */
    method InspectOwner(generation: Option<string>)
      modifies this
      ensures (View(), None) == Next(old(View()), Inspect(generation))
    {
      if active.None? || !accepting {
        return;
      }
      if generation.None? {
        ownerInspectionFailed := true;
        return;
      }
      ownerInspectionFailed := false;
      if generation.value != active.value.context.owner.generation {
        Advance();
      }
    }

    method DrainTurns()
      modifies this
      ensures (View(), None) == Next(old(View()), Drain)
    {
      accepting := false;
      var stopped := waiting;
      waiting := [];
      ghost var before := answers;
      for i := 0 to |stopped|
        invariant View() == old(View()).(accepting := false, waiting := [], answers := before + AllStopped(stopped[..i]))
      {
        assert stopped[..i + 1][..i] == stopped[..i];
        answers := answers + [Answer(stopped[i].ticket, Stopping)];
      }
      assert stopped[..|stopped|] == stopped;
    }
  }

  lemma {:induction false} WithoutIs(turns: seq<Turn>, ticket: nat, index: nat)
    requires index < |turns| && turns[index].ticket == ticket && forall k :: 0 <= k < index ==> turns[k].ticket != ticket
    ensures Without(turns, ticket) == turns[..index] + turns[index + 1..]
  {
    if index > 0 {
      WithoutIs(turns[1..], ticket, index - 1);
      assert turns[..index] == [turns[0]] + turns[1..][..index - 1];
    }
  }

  // ---- What every run keeps ----------------------------------------------------------------------------

  /** No two turns in hand share a release or a source. */
  predicate Apart(turns: seq<Turn>) {
    forall i, j :: 0 <= i < j < |turns| ==>
      turns[i].context.releaseId != turns[j].context.releaseId && !Shares(turns[i].context, turns[j].context)
  }

  function Activated(answers: seq<Answer>): seq<nat> {
    if answers == [] then []
    else
      var last := answers[|answers| - 1];
      Activated(answers[..|answers| - 1]) + if last.how.BecameActive? then [last.ticket] else []
  }

  function Tickets(turns: seq<Turn>): seq<nat> {
    seq(|turns|, i requires 0 <= i < |turns| => turns[i].ticket)
  }

  predicate Increasing(s: seq<nat>) {
    forall i, j :: 0 <= i < j < |s| ==> s[i] < s[j]
  }

  predicate Answered(answers: seq<Answer>, ticket: nat) {
    exists a <- answers :: a.ticket == ticket
  }

  predicate AnsweredOnce(answers: seq<Answer>) {
    forall i, j :: 0 <= i < j < |answers| ==> answers[i].ticket != answers[j].ticket
  }

  /** Every start that was not refused waits or has been answered, and not both. */
  ghost predicate Accounted(s: Service) {
    && (forall ticket: nat :: Answered(s.answers, ticket) || Waits(s, ticket) <==> ticket < s.arrivals)
    && forall ticket: nat :: !(Answered(s.answers, ticket) && Waits(s, ticket))
  }

  ghost predicate Sound(s: Service) {
    && Apart(Others(s))
    && (s.waiting != [] ==> s.active.Some? && s.accepting)
    && AnsweredOnce(s.answers) && Accounted(s)
    && Increasing(Activated(s.answers) + Tickets(s.waiting))
  }
}
