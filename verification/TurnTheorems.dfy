/** What every run of the turn contexts keeps. */
module TurnTheorems {
  import opened TurnQueue

  // ---- Turns stay apart ----------------------------------------------------------------------------

  lemma SharesBothWays(a: Context, b: Context)
    ensures Shares(a, b) <==> Shares(b, a)
  {
  }

  /** The turns of one list are those of another, in the same order, some left out. */
  ghost predicate DrawnFrom(few: seq<Turn>, turns: seq<Turn>, place: seq<nat>) {
    && |place| == |few| && (forall i :: 0 <= i < |few| ==> place[i] < |turns| && turns[place[i]] == few[i])
    && forall i, j :: 0 <= i < j < |place| ==> place[i] < place[j]
  }

  lemma FewerStayApart(few: seq<Turn>, turns: seq<Turn>, place: seq<nat>)
    requires Apart(turns) && DrawnFrom(few, turns, place)
    ensures Apart(few)
  {
    forall i, j | 0 <= i < j < |few|
      ensures few[i].context.releaseId != few[j].context.releaseId && !Shares(few[i].context, few[j].context)
    {
      assert turns[place[i]] == few[i] && turns[place[j]] == few[j] && place[i] < place[j];
    }
  }

  lemma AdvancingStaysApart(s: Service)
    requires Apart(Others(s))
    ensures Apart(Others(Advanced(s)))
  {
    var after := Others(Advanced(s));
    if s.waiting == [] {
      assert after == [];
    } else {
      assert after == s.waiting;
      var skip := if s.active.Some? then 1 else 0;
      FewerStayApart(after, Others(s), seq(|after|, i requires 0 <= i < |after| => i + skip));
    }
  }

  lemma StartingStaysApart(s: Service, c: Context, ownerLives: bool, aborted: bool)
    requires Apart(Others(s)) && (s.waiting != [] ==> s.active.Some?) && StartRefusal(s, c, ownerLives).None?
    ensures Apart(Others(Started(s, c, aborted)))
  {
    var others, after := Others(s), Others(Started(s, c, aborted));
    if s.active.Some? && aborted {
      assert after == others;
    } else {
      assert after == others + [Turn(c, s.arrivals)];
      forall i | 0 <= i < |others|
        ensures others[i].context.releaseId != c.releaseId && !Shares(others[i].context, c)
      {
        assert others[i] in others;
        SharesBothWays(c, others[i].context);
      }
    }
  }

  lemma DrawnWithFirst(few: seq<Turn>, turns: seq<Turn>, place: seq<nat>, first: Turn)
    requires DrawnFrom(few, turns, place)
    ensures DrawnFrom([first] + few, [first] + turns, [0] + seq(|place|, i requires 0 <= i < |place| => place[i] + 1))
  {
  }

  lemma {:induction false} WithoutDraws(turns: seq<Turn>, ticket: nat) returns (place: seq<nat>)
    ensures DrawnFrom(Without(turns, ticket), turns, place)
  {
    if turns == [] {
      place := [];
    } else if turns[0].ticket == ticket {
      place := seq(|turns| - 1, i => i + 1);
    } else {
      var later := WithoutDraws(turns[1..], ticket);
      DrawnWithFirst(Without(turns[1..], ticket), turns[1..], later, turns[0]);
      assert turns == [turns[0]] + turns[1..];
      place := [0] + seq(|later|, i requires 0 <= i < |later| => later[i] + 1);
    }
  }

  lemma AbortingStaysApart(s: Service, ticket: nat)
    requires Apart(Others(s))
    ensures Apart(Others(s.(waiting := Without(s.waiting, ticket))))
  {
    var place := WithoutDraws(s.waiting, ticket);
    var after := Others(s.(waiting := Without(s.waiting, ticket)));
    if s.active.Some? {
      FewerStayApart(after, Others(s), [0] + seq(|place|, i requires 0 <= i < |place| => place[i] + 1));
    } else {
      assert after == Without(s.waiting, ticket) && Others(s) == s.waiting;
      FewerStayApart(after, Others(s), place);
    }
  }

  // ---- Every start is answered at most once -------------------------------------------------------------

  lemma AnsweredMore(answers: seq<Answer>, a: Answer, ticket: nat)
    ensures Answered(answers + [a], ticket) <==> Answered(answers, ticket) || a.ticket == ticket
  {
    if a.ticket == ticket {
      assert (answers + [a])[|answers|] == a;
    }
    if Answered(answers, ticket) {
      var b :| b in answers && b.ticket == ticket;
      assert b in answers + [a];
    }
  }

  lemma OneMoreAnswer(answers: seq<Answer>, a: Answer)
    requires AnsweredOnce(answers) && !Answered(answers, a.ticket)
    ensures AnsweredOnce(answers + [a])
  {
    forall i | 0 <= i < |answers| ensures answers[i].ticket != a.ticket {
      assert answers[i] in answers;
    }
  }

  lemma AdvancingAccounts(s: Service)
    requires AnsweredOnce(s.answers) && Accounted(s) && Increasing(Tickets(s.waiting))
    ensures AnsweredOnce(Advanced(s).answers) && Accounted(Advanced(s))
  {
    if s.waiting != [] {
      var first, after := s.waiting[0], Advanced(s);
      assert first in s.waiting;
      OneMoreAnswer(s.answers, Answer(first.ticket, BecameActive));
      forall ticket: nat ensures Waits(s, ticket) <==> Waits(after, ticket) || ticket == first.ticket {
        assert forall turn :: turn in s.waiting <==> turn == first || turn in s.waiting[1..];
      }
      NotTwice(s.waiting);
      forall ticket: nat ensures Answered(after.answers, ticket) <==> Answered(s.answers, ticket) || ticket == first.ticket {
        AnsweredMore(s.answers, Answer(first.ticket, BecameActive), ticket);
      }
    }
  }

  lemma NotTwice(waiting: seq<Turn>)
    requires waiting != [] && Increasing(Tickets(waiting))
    ensures forall turn <- waiting[1..] :: turn.ticket != waiting[0].ticket
  {
    forall turn | turn in waiting[1..] ensures turn.ticket != waiting[0].ticket {
      var i :| 0 <= i < |waiting| - 1 && waiting[1..][i] == turn;
      assert Tickets(waiting)[0] < Tickets(waiting)[i + 1];
    }
  }

  lemma StartingAccounts(s: Service, c: Context, aborted: bool)
    requires AnsweredOnce(s.answers) && Accounted(s)
    ensures AnsweredOnce(Started(s, c, aborted).answers) && Accounted(Started(s, c, aborted))
  {
    var after, t := Started(s, c, aborted), s.arrivals;
    assert !Answered(s.answers, t) && !Waits(s, t);
    if after.waiting == s.waiting {
      var a := after.answers[|s.answers|];
      assert after.answers == s.answers + [a] && a.ticket == t;
      assert forall ticket: nat :: Waits(after, ticket) <==> Waits(s, ticket);
      OneMoreAnswer(s.answers, a);
      forall ticket: nat ensures Answered(after.answers, ticket) <==> Answered(s.answers, ticket) || ticket == t {
        AnsweredMore(s.answers, a, ticket);
      }
    } else {
      forall ticket: nat ensures Waits(after, ticket) <==> Waits(s, ticket) || ticket == t {
        assert forall turn :: turn in after.waiting <==> turn in s.waiting || turn == Turn(c, t);
      }
    }
  }

  lemma HasTicketFirst(first: Turn, rest: seq<Turn>, ticket: nat)
    ensures HasTicket([first] + rest, ticket) <==> first.ticket == ticket || HasTicket(rest, ticket)
  {
    assert forall turn :: turn in [first] + rest <==> turn == first || turn in rest;
  }

  lemma {:induction false} WithoutTakesOne(turns: seq<Turn>, ticket: nat, other: nat)
    requires Increasing(Tickets(turns))
    ensures HasTicket(Without(turns, ticket), other) <==> other != ticket && HasTicket(turns, other)
  {
    if turns != [] {
      TailIncreases(turns);
      NotTwice(turns);
      assert turns == [turns[0]] + turns[1..];
      HasTicketFirst(turns[0], turns[1..], other);
      if turns[0].ticket == ticket {
        assert HasTicket(turns[1..], other) ==> other != ticket;
      } else {
        WithoutTakesOne(turns[1..], ticket, other);
        HasTicketFirst(turns[0], Without(turns[1..], ticket), other);
      }
    }
  }

  lemma TailIncreases(turns: seq<Turn>)
    requires turns != [] && Increasing(Tickets(turns))
    ensures Increasing(Tickets(turns[1..]))
  {
    assert Tickets(turns[1..]) == Tickets(turns)[1..];
  }

  lemma AbortingAccounts(s: Service, ticket: nat)
    requires AnsweredOnce(s.answers) && Accounted(s) && Increasing(Tickets(s.waiting)) && Waits(s, ticket)
    ensures var after := s.(waiting := Without(s.waiting, ticket), answers := s.answers + [Answer(ticket, Cancelled)]);
            AnsweredOnce(after.answers) && Accounted(after)
  {
    var after := s.(waiting := Without(s.waiting, ticket), answers := s.answers + [Answer(ticket, Cancelled)]);
    OneMoreAnswer(s.answers, Answer(ticket, Cancelled));
    forall other: nat ensures Waits(after, other) <==> Waits(s, other) && other != ticket {
      WithoutTakesOne(s.waiting, ticket, other);
    }
    forall other: nat ensures Answered(after.answers, other) <==> Answered(s.answers, other) || other == ticket {
      AnsweredMore(s.answers, Answer(ticket, Cancelled), other);
    }
  }

  /** Draining turn by turn, from the front of the line. */
  lemma {:induction false} DrainingAccounts(s: Service, n: nat)
    requires AnsweredOnce(s.answers) && Accounted(s) && Increasing(Tickets(s.waiting)) && n <= |s.waiting|
    ensures var after := s.(waiting := s.waiting[n..], answers := s.answers + AllStopped(s.waiting[..n]));
            AnsweredOnce(after.answers) && Accounted(after) && Increasing(Tickets(after.waiting))
  {
    if n == 0 {
      assert s.waiting[0..] == s.waiting && s.answers + [] == s.answers;
    } else {
      DrainingAccounts(s, n - 1);
      var before := s.(waiting := s.waiting[n - 1..], answers := s.answers + AllStopped(s.waiting[..n - 1]));
      assert s.waiting[..n][..n - 1] == s.waiting[..n - 1];
      assert before.waiting[1..] == s.waiting[n..];
      StoppingOneAccounts(before);
      assert before.answers + [Answer(before.waiting[0].ticket, Stopping)] == s.answers + AllStopped(s.waiting[..n]);
    }
  }

  lemma StoppingOneAccounts(s: Service)
    requires AnsweredOnce(s.answers) && Accounted(s) && Increasing(Tickets(s.waiting)) && s.waiting != []
    ensures var after := s.(waiting := s.waiting[1..], answers := s.answers + [Answer(s.waiting[0].ticket, Stopping)]);
            AnsweredOnce(after.answers) && Accounted(after) && Increasing(Tickets(after.waiting))
  {
    var first := s.waiting[0];
    var after := s.(waiting := s.waiting[1..], answers := s.answers + [Answer(first.ticket, Stopping)]);
    assert first in s.waiting;
    OneMoreAnswer(s.answers, Answer(first.ticket, Stopping));
    NotTwice(s.waiting);
    TailIncreases(s.waiting);
    assert forall turn :: turn in s.waiting <==> turn == first || turn in s.waiting[1..];
    forall ticket: nat ensures Answered(after.answers, ticket) <==> Answered(s.answers, ticket) || ticket == first.ticket {
      AnsweredMore(s.answers, Answer(first.ticket, Stopping), ticket);
    }
  }

  // ---- First come, first active -----------------------------------------------------------------------------

  lemma {:induction false} ActivatedIs(answers: seq<Answer>, ticket: nat)
    ensures ticket in Activated(answers) <==> Answer(ticket, BecameActive) in answers
  {
    if answers != [] {
      ActivatedIs(answers[..|answers| - 1], ticket);
      assert answers == answers[..|answers| - 1] + [answers[|answers| - 1]];
    }
  }

  lemma ActivatedMore(answers: seq<Answer>, a: Answer)
    ensures Activated(answers + [a]) == if a.how.BecameActive? then Activated(answers) + [a.ticket] else Activated(answers)
  {
    assert Activated(answers) + [] == Activated(answers);
    assert (answers + [a])[..|answers|] == answers;
  }

  lemma WaitingIncreases(s: Service)
    requires Increasing(Activated(s.answers) + Tickets(s.waiting))
    ensures Increasing(Tickets(s.waiting))
  {
    var n := |Activated(s.answers)|;
    forall i, j | 0 <= i < j < |s.waiting| ensures Tickets(s.waiting)[i] < Tickets(s.waiting)[j] {
      assert (Activated(s.answers) + Tickets(s.waiting))[n + i] < (Activated(s.answers) + Tickets(s.waiting))[n + j];
    }
  }

  lemma AdvancingKeepsOrder(s: Service)
    ensures Activated(Advanced(s).answers) + Tickets(Advanced(s).waiting) == Activated(s.answers) + Tickets(s.waiting)
  {
    if s.waiting != [] {
      ActivatedMore(s.answers, Answer(s.waiting[0].ticket, BecameActive));
      assert Tickets(s.waiting) == [s.waiting[0].ticket] + Tickets(s.waiting[1..]);
    }
  }

  lemma BelowArrivals(s: Service)
    requires Accounted(s)
    ensures forall t <- Activated(s.answers) + Tickets(s.waiting) :: t < s.arrivals
  {
    forall t | t in Activated(s.answers) + Tickets(s.waiting) ensures t < s.arrivals {
      if t in Activated(s.answers) {
        ActivatedIs(s.answers, t);
        assert Answered(s.answers, t);
      } else {
        var i :| 0 <= i < |s.waiting| && Tickets(s.waiting)[i] == t;
        assert s.waiting[i] in s.waiting && Waits(s, t);
      }
    }
  }

  lemma StartingKeepsOrder(s: Service, c: Context, aborted: bool)
    requires Accounted(s) && Increasing(Activated(s.answers) + Tickets(s.waiting)) && (s.waiting != [] ==> s.active.Some?)
    ensures var after := Started(s, c, aborted); Increasing(Activated(after.answers) + Tickets(after.waiting))
  {
    var after, line := Started(s, c, aborted), Activated(s.answers) + Tickets(s.waiting);
    BelowArrivals(s);
    if s.active.None? {
      ActivatedMore(s.answers, Answer(s.arrivals, BecameActive));
      assert Activated(after.answers) + Tickets(after.waiting) == line + [s.arrivals];
    } else if aborted {
      ActivatedMore(s.answers, Answer(s.arrivals, Cancelled));
    } else {
      assert Tickets(after.waiting) == Tickets(s.waiting) + [s.arrivals];
      assert Activated(after.answers) + Tickets(after.waiting) == line + [s.arrivals];
    }
    assert forall i :: 0 <= i < |line| ==> line[i] in line;
  }

  lemma FewerIncrease(few: seq<Turn>, turns: seq<Turn>, place: seq<nat>, first: seq<nat>)
    requires DrawnFrom(few, turns, place) && Increasing(first + Tickets(turns))
    ensures Increasing(first + Tickets(few))
  {
    var line, n := first + Tickets(turns), |first|;
    forall i, j | 0 <= i < j < |first + Tickets(few)| ensures (first + Tickets(few))[i] < (first + Tickets(few))[j] {
      var k := if i < n then i else n + place[i - n];
      var l := if j < n then j else n + place[j - n];
      assert line[k] == (first + Tickets(few))[i] && line[l] == (first + Tickets(few))[j] && k < l;
    }
  }

  lemma AbortingKeepsOrder(s: Service, ticket: nat)
    requires Increasing(Activated(s.answers) + Tickets(s.waiting))
    ensures Increasing(Activated(s.answers + [Answer(ticket, Cancelled)]) + Tickets(Without(s.waiting, ticket)))
  {
    ActivatedMore(s.answers, Answer(ticket, Cancelled));
    var place := WithoutDraws(s.waiting, ticket);
    FewerIncrease(Without(s.waiting, ticket), s.waiting, place, Activated(s.answers));
  }

  lemma {:induction false} StoppedAreNotActivated(answers: seq<Answer>, turns: seq<Turn>)
    ensures Activated(answers + AllStopped(turns)) == Activated(answers)
  {
    if turns == [] {
      assert answers + [] == answers;
    } else {
      var init := AllStopped(turns[..|turns| - 1]);
      StoppedAreNotActivated(answers, turns[..|turns| - 1]);
      var last := Answer(turns[|turns| - 1].ticket, Stopping);
      assert answers + AllStopped(turns) == answers + init + [last];
      ActivatedMore(answers + init, last);
    }
  }

  // ---- Every run ---------------------------------------------------------------------------------------------

  lemma AdvancingKeepsSound(s: Service)
    requires Sound(s)
    ensures Sound(Advanced(s))
  {
    WaitingIncreases(s);
    AdvancingStaysApart(s);
    AdvancingAccounts(s);
    AdvancingKeepsOrder(s);
  }

  lemma DrainingKeepsSound(s: Service)
    requires Sound(s)
    ensures Sound(Next(s, Drain).0)
  {
    var after := Next(s, Drain).0;
    WaitingIncreases(s);
    DrainingAccounts(s, |s.waiting|);
    assert s.waiting[|s.waiting|..] == [] && s.waiting[..|s.waiting|] == s.waiting;
    StoppedAreNotActivated(s.answers, s.waiting);
    FewerIncrease([], s.waiting, [], Activated(s.answers));
    assert Others(after) == if s.active.Some? then [s.active.value] else [];
  }

  lemma AbortingKeepsSound(s: Service, ticket: nat)
    requires Sound(s)
    ensures Sound(Next(s, Abort(ticket)).0)
  {
    if Waits(s, ticket) {
      WaitingIncreases(s);
      AbortingStaysApart(s, ticket);
      AbortingAccounts(s, ticket);
      AbortingKeepsOrder(s, ticket);
    }
  }

  lemma StartingKeepsSound(s: Service, c: Context, ownerLives: bool, aborted: bool)
    requires Sound(s) && StartRefusal(s, c, ownerLives).None?
    ensures Sound(Started(s, c, aborted))
  {
    StartingStaysApart(s, c, ownerLives, aborted);
    StartingAccounts(s, c, aborted);
    StartingKeepsOrder(s, c, aborted);
  }

  lemma SeenKeepsSound(s: Service, failed: bool)
    requires Sound(s)
    ensures Sound(s.(inspectionFailed := failed))
  {
    var seen := s.(inspectionFailed := failed);
    assert Others(seen) == Others(s);
    assert forall ticket: nat :: Waits(seen, ticket) <==> Waits(s, ticket);
  }

  lemma NextKeepsSound(s: Service, op: Operation)
    requires Sound(s)
    ensures Sound(Next(s, op).0)
  {
    match op
    case Start(c, ownerLives, aborted) =>
      if StartRefusal(s, c, ownerLives).None? {
        StartingKeepsSound(s, c, ownerLives, aborted);
      }
    case End(_) => AdvancingKeepsSound(s);
    case Abort(ticket) => AbortingKeepsSound(s, ticket);
    case Inspect(_) =>
      SeenKeepsSound(s, true);
      SeenKeepsSound(s, false);
      AdvancingKeepsSound(s.(inspectionFailed := false));
    case Drain => DrainingKeepsSound(s);
  }

  lemma {:induction false} RunIsSound(operations: seq<Operation>)
    ensures Sound(Run(operations))
  {
    if operations != [] {
      RunIsSound(operations[..|operations| - 1]);
      NextKeepsSound(Run(operations[..|operations| - 1]), operations[|operations| - 1]);
    }
  }

  /** In every run: the active and the waiting turns share no release and no source, and nothing
      waits while no turn is active. */
  lemma TurnsAreApart(operations: seq<Operation>)
    ensures Apart(Others(Run(operations))) && (Run(operations).active.None? ==> Run(operations).waiting == [])
  {
    RunIsSound(operations);
  }

  /** Every start that was not refused is answered at most once, and is waiting exactly until it is. */
  lemma AnsweredAtMostOnce(operations: seq<Operation>, ticket: nat)
    ensures AnsweredOnce(Run(operations).answers)
    ensures ticket < Run(operations).arrivals ==> (Answered(Run(operations).answers, ticket) <==> !Waits(Run(operations), ticket))
  {
    RunIsSound(operations);
  }

  /** Turns become active in arrival order: those that have, followed by those that wait, are all
      that arrived and were neither cancelled nor drained, in the order they arrived. */
  lemma ActiveInArrivalOrder(operations: seq<Operation>, ticket: nat)
    requires ticket < Run(operations).arrivals
    ensures var s := Run(operations);
            var line := Activated(s.answers) + Tickets(s.waiting);
            && Increasing(line)
            && (ticket in line <==> Answer(ticket, Cancelled) !in s.answers && Answer(ticket, Stopping) !in s.answers)
  {
    RunIsSound(operations);
    var s := Run(operations);
    ActivatedIs(s.answers, ticket);
    if Waits(s, ticket) {
      var turn :| turn in s.waiting && turn.ticket == ticket;
      var i :| 0 <= i < |s.waiting| && s.waiting[i] == turn;
      assert Tickets(s.waiting)[i] == ticket;
    } else {
      assert forall i :: 0 <= i < |s.waiting| ==> s.waiting[i] in s.waiting && Tickets(s.waiting)[i] != ticket;
      HowAnswered(s.answers, ticket);
    }
  }

  lemma HowAnswered(answers: seq<Answer>, ticket: nat)
    requires AnsweredOnce(answers) && Answered(answers, ticket)
    ensures Answer(ticket, BecameActive) in answers <==> Answer(ticket, Cancelled) !in answers && Answer(ticket, Stopping) !in answers
  {
    var a :| a in answers && a.ticket == ticket;
    var i :| 0 <= i < |answers| && answers[i] == a;
    forall b | b in answers && b.ticket == ticket ensures b == a {
      var k :| 0 <= k < |answers| && answers[k] == b;
    }
    assert a == Answer(ticket, a.how);
    assert forall how :: Answer(ticket, how) in answers ==> how == a.how;
  }
}
