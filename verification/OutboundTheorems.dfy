/** What the join keeps: every mark once, attachments where they belong, counts that add up, no
    mark left alone that could have been joined, and no say for the order of the input. */
module OutboundTheorems {
  import opened Prelude
  import opened OutboundJoin

  // ---- Every mark exactly once ---------------------------------------------------------------------

  function AttachedMarks(a: Option<Attachment>): multiset<Item> {
    if a.Some? then multiset{a.value.item} else multiset{}
  }

  function MarksOf(send: Send): multiset<Item> {
    multiset{send.item} + AttachedMarks(send.turn) + AttachedMarks(send.audit)
  }

  function Total(marks: Send -> multiset<Item>, sends: seq<Send>): multiset<Item> {
    if sends == [] then multiset{} else Total(marks, sends[..|sends| - 1]) + marks(sends[|sends| - 1])
  }

  function Marks(sends: seq<Send>): multiset<Item> {
    Total(MarksOf, sends)
  }

  lemma Regroup(a: multiset<Item>, b: multiset<Item>, c: multiset<Item>)
    ensures a + (b + c) == a + b + c && a + b + c == a + c + b
  {
  }

  lemma AttachMarks(send: Send, kind: Kind, a: Attachment)
    requires (kind == Turn || kind == Audit) && AttachedOf(send, kind).None?
    ensures MarksOf(Attach(send, kind, a)) == MarksOf(send) + multiset{a.item}
  {
    Regroup(multiset{send.item}, AttachedMarks(send.audit), multiset{a.item});
  }

  lemma LastMarks(marks: Send -> multiset<Item>, init: seq<Send>, last: Send)
    ensures Total(marks, init + [last]) == Total(marks, init) + marks(last)
  {
    assert (init + [last])[..|init|] == init;
  }

  lemma {:induction false} ReplacingAddsMark(marks: Send -> multiset<Item>, sends: seq<Send>, at: nat, new_: Send, more: multiset<Item>)
    requires at < |sends| && marks(new_) == marks(sends[at]) + more
    ensures Total(marks, sends[at := new_]) == Total(marks, sends) + more
  {
    var init, last := sends[..|sends| - 1], sends[|sends| - 1];
    if at == |sends| - 1 {
      assert sends[at := new_] == init + [new_];
      LastMarks(marks, init, new_);
      Regroup(Total(marks, init), marks(last), more);
    } else {
      ReplacingAddsMark(marks, init, at, new_, more);
      assert sends[at := new_] == init[at := new_] + [last];
      LastMarks(marks, init[at := new_], last);
      Regroup(Total(marks, init), more, marks(last));
    }
  }

  lemma AttachingAddsMark(sends: seq<Send>, at: nat, kind: Kind, a: Attachment)
    requires at < |sends| && (kind == Turn || kind == Audit) && AttachedOf(sends[at], kind).None?
    ensures Marks(sends[at := Attach(sends[at], kind, a)]) == Marks(sends) + multiset{a.item}
  {
    AttachMarks(sends[at], kind, a);
    ReplacingAddsMark(MarksOf, sends, at, Attach(sends[at], kind, a), multiset{a.item});
  }

  lemma AddingAddsMark(sends: seq<Send>, item: Item)
    ensures Marks(sends + [Send(item, None, None)]) == Marks(sends) + multiset{item}
  {
    assert (sends + [Send(item, None, None)])[..|sends|] == sends;
  }

  lemma JoinOneAddsMark(j: Joined, item: Item, kind: Kind, tolerance: int)
    requires kind == Turn || kind == Audit
    ensures Marks(JoinOne(j, item, kind, tolerance).sends) == Marks(j.sends) + multiset{item}
  {
    match Nearest(j.sends, item, kind, tolerance)
    case None => AddingAddsMark(j.sends, item);
    case Some(f) => AttachingAddsMark(j.sends, f.at, kind, Attachment(item, Link(f.delta, f.candidates)));
  }

  lemma LastItem(items: seq<Item>)
    requires items != []
    ensures multiset(items) == multiset(items[..|items| - 1]) + multiset{items[|items| - 1]}
  {
    assert items == items[..|items| - 1] + [items[|items| - 1]];
  }

  lemma OneMoreMark(start: multiset<Item>, before: multiset<Item>, after: multiset<Item>, items: seq<Item>)
    requires items != [] && before == start + multiset(items[..|items| - 1]) && after == before + multiset{items[|items| - 1]}
    ensures after == start + multiset(items)
  {
    LastItem(items);
    Regroup(start, multiset(items[..|items| - 1]), multiset{items[|items| - 1]});
  }

  lemma {:induction false} JoinKindAddsMarks(j: Joined, items: seq<Item>, kind: Kind, tolerance: int)
    requires kind == Turn || kind == Audit
    ensures Marks(JoinKind(j, items, kind, tolerance).sends) == Marks(j.sends) + multiset(items)
  {
    if items == [] {
      assert multiset(items) == multiset{};
    } else {
      var before := JoinKind(j, items[..|items| - 1], kind, tolerance);
      JoinKindAddsMarks(j, items[..|items| - 1], kind, tolerance);
      JoinOneAddsMark(before, items[|items| - 1], kind, tolerance);
      var after := JoinOne(before, items[|items| - 1], kind, tolerance);
      OneMoreMark(Marks(j.sends), Marks(before.sends), Marks(after.sends), items);
    }
  }

  lemma {:induction false} SpineMarks(items: seq<Item>)
    ensures Marks(Spine(items)) == multiset(items)
  {
    if items != [] {
      SpineMarks(items[..|items| - 1]);
      assert Spine(items)[..|items| - 1] == Spine(items[..|items| - 1]);
      assert items == items[..|items| - 1] + [items[|items| - 1]];
    }
  }

  predicate IsMark(item: Item) {
    !item.kind.Other?
  }

  function MarksIn(items: seq<Item>): multiset<Item> {
    if items == [] then multiset{}
    else MarksIn(items[..|items| - 1]) + if IsMark(items[|items| - 1]) then multiset{items[|items| - 1]} else multiset{}
  }

  lemma {:induction false} KindsAreMarks(items: seq<Item>)
    ensures MarksIn(items) == multiset(OfKind(items, Event)) + multiset(OfKind(items, Turn)) + multiset(OfKind(items, Audit))
  {
    if items != [] {
      KindsAreMarks(items[..|items| - 1]);
    }
  }

  /** Every event, turn and audit row is in exactly one send, as the send or attached to it. */
  lemma MarksAreConserved(before: Collation, items: seq<Item>, tolerance: int)
    requires IsOrder(before)
    ensures Marks(Join(before, items, tolerance).sends) == MarksIn(items)
  {
    OrderedIsSorted(before, OfKind(items, Event));
    OrderedIsSorted(before, OfKind(items, Turn));
    OrderedIsSorted(before, OfKind(items, Audit));
    SpineMarks(Ordered(before, OfKind(items, Event)));
    var started := Started(before, items);
    JoinKindAddsMarks(started, Ordered(before, OfKind(items, Turn)), Turn, tolerance);
    JoinKindAddsMarks(JoinKind(started, Ordered(before, OfKind(items, Turn)), Turn, tolerance),
                      Ordered(before, OfKind(items, Audit)), Audit, tolerance);
    KindsAreMarks(items);
  }

  // ---- What every state of the join keeps -------------------------------------------------------------

  /** A mark fits its send: the same conversation, inside the tolerance, of its own kind, on a send
      of an earlier kind, and the link says how far apart they are. */
  predicate FitsOn(send: Send, kind: Kind, tolerance: int) {
    var a := AttachedOf(send, kind);
    a.Some? ==>
      && a.value.item.kind == kind && a.value.item.conversation == send.item.conversation
      && send.item.time.Some? && a.value.item.time.Some?
      && a.value.link.delta == Delta(send, a.value.item) && a.value.link.delta <= tolerance && a.value.link.candidates > 0
      && (send.item.kind == Event || (kind == Audit && send.item.kind == Turn))
  }

  predicate AllFit(sends: seq<Send>, tolerance: int) {
    forall s <- sends :: FitsOn(s, Turn, tolerance) && FitsOn(s, Audit, tolerance)
  }

  /** The window of a lone mark: sends of an earlier kind that could have taken it. */
  predicate InWindow(send: Send, lone: Item, tolerance: int) {
    && send.item.conversation == lone.conversation && send.item.time.Some? && lone.time.Some? && Delta(send, lone) <= tolerance
    && (send.item.kind == Event || (lone.kind == Audit && send.item.kind == Turn))
  }

  predicate Maximal(sends: seq<Send>, kind: Kind, tolerance: int) {
    forall s <- sends, e <- sends :: s.item.kind == kind && InWindow(e, s.item, tolerance) ==> AttachedOf(e, kind).Some?
  }

  predicate NoneOf(sends: seq<Send>, kind: Kind) {
    forall s <- sends :: s.item.kind != kind
  }

  predicate OnlyMarks(sends: seq<Send>) {
    forall s <- sends :: IsMark(s.item)
  }

  predicate CountsAddUp(j: Joined) {
    && |j.sends| == j.counts.event + j.counts.aloneTurn + j.counts.aloneAudit
    && j.counts.turn == j.counts.joinedTurn + j.counts.aloneTurn && j.counts.audit == j.counts.joinedAudit + j.counts.aloneAudit
    && j.counts.joinedTurn == Carrying(j.sends, Turn) && j.counts.joinedAudit == Carrying(j.sends, Audit)
  }

  function Carrying(sends: seq<Send>, kind: Kind): nat {
    if sends == [] then 0
    else Carrying(sends[..|sends| - 1], kind) + if AttachedOf(sends[|sends| - 1], kind).Some? then 1 else 0
  }

  lemma {:induction false} AttachingCounts(sends: seq<Send>, at: nat, kind: Kind, other: Kind, a: Attachment)
    requires at < |sends| && (kind == Turn || kind == Audit) && (other == Turn || other == Audit) && AttachedOf(sends[at], kind).None?
    ensures Carrying(sends[at := Attach(sends[at], kind, a)], other) == Carrying(sends, other) + if kind == other then 1 else 0
  {
    var next := sends[at := Attach(sends[at], kind, a)];
    if at == |sends| - 1 {
      assert next[..|next| - 1] == sends[..|sends| - 1];
    } else {
      AttachingCounts(sends[..|sends| - 1], at, kind, other, a);
      assert next[..|next| - 1] == sends[..|sends| - 1][at := Attach(sends[at], kind, a)];
    }
  }

  lemma JoinOneAddsUp(j: Joined, item: Item, kind: Kind, tolerance: int)
    requires CountsAddUp(j) && (kind == Turn || kind == Audit)
    ensures CountsAddUp(JoinOne(j, item, kind, tolerance))
    ensures JoinOne(j, item, kind, tolerance).counts.event == j.counts.event
  {
    match Nearest(j.sends, item, kind, tolerance)
    case None => assert (j.sends + [Send(item, None, None)])[..|j.sends|] == j.sends;
    case Some(f) =>
      AttachingCounts(j.sends, f.at, kind, Turn, Attachment(item, Link(f.delta, f.candidates)));
      AttachingCounts(j.sends, f.at, kind, Audit, Attachment(item, Link(f.delta, f.candidates)));
  }

  /** Attaching leaves every send its own mark and every other attachment. */
  predicate Grows(sends: seq<Send>, next: seq<Send>) {
    |sends| == |next| && forall i :: 0 <= i < |sends| ==>
      && next[i].item == sends[i].item
      && (sends[i].turn.Some? ==> next[i].turn == sends[i].turn) && (sends[i].audit.Some? ==> next[i].audit == sends[i].audit)
  }

  lemma GrowingKeepsMaximal(sends: seq<Send>, next: seq<Send>, kind: Kind, tolerance: int)
    requires Grows(sends, next) && Maximal(sends, kind, tolerance) && (kind == Turn || kind == Audit)
    ensures Maximal(next, kind, tolerance)
  {
    forall s, e | s in next && e in next && s.item.kind == kind && InWindow(e, s.item, tolerance)
      ensures AttachedOf(e, kind).Some?
    {
      var i :| 0 <= i < |next| && next[i] == s;
      var k :| 0 <= k < |next| && next[k] == e;
      assert sends[i] in sends && sends[k] in sends;
      assert InWindow(sends[k], sends[i].item, tolerance);
    }
  }

  lemma AttachGrows(sends: seq<Send>, at: nat, kind: Kind, a: Attachment)
    requires at < |sends| && AttachedOf(sends[at], kind).None?
    ensures Grows(sends, sends[at := Attach(sends[at], kind, a)])
  {
  }

  /** A lone mark is added only when no send in its window is free. */
  lemma AddingKeepsMaximal(sends: seq<Send>, item: Item, kind: Kind, other: Kind, tolerance: int)
    requires Maximal(sends, other, tolerance) && item.kind == kind && (kind == Turn || kind == Audit) && (other == Turn || other == Audit)
    requires forall s <- sends :: !Eligible(s, item, kind, tolerance)
    requires kind == Turn ==> NoneOf(sends, Audit)
    ensures Maximal(sends + [Send(item, None, None)], other, tolerance)
  {
    var next := sends + [Send(item, None, None)];
    forall s, e | s in next && e in next && s.item.kind == other && InWindow(e, s.item, tolerance)
      ensures AttachedOf(e, other).Some?
    {
      if e in sends && s in sends {
      } else if e in sends {
        assert !Eligible(e, item, kind, tolerance);
      }
    }
  }

  lemma JoinOneKeepsMaximal(j: Joined, item: Item, kind: Kind, other: Kind, tolerance: int)
    requires Maximal(j.sends, other, tolerance) && item.kind == kind && (kind == Turn || kind == Audit) && (other == Turn || other == Audit)
    requires kind == Turn ==> NoneOf(j.sends, Audit)
    ensures Maximal(JoinOne(j, item, kind, tolerance).sends, other, tolerance)
  {
    NearestIs(j.sends, item, kind, tolerance);
    match Nearest(j.sends, item, kind, tolerance)
    case None => AddingKeepsMaximal(j.sends, item, kind, other, tolerance);
    case Some(f) =>
      var a := Attachment(item, Link(f.delta, f.candidates));
      AttachGrows(j.sends, f.at, kind, a);
      GrowingKeepsMaximal(j.sends, j.sends[f.at := Attach(j.sends[f.at], kind, a)], other, tolerance);
  }

  lemma {:induction false} EligibleCounted(pool: seq<Send>, at: nat, item: Item, kind: Kind, tolerance: int)
    requires at < |pool| && Eligible(pool[at], item, kind, tolerance)
    ensures CountEligible(pool, item, kind, tolerance) > 0
  {
    if at < |pool| - 1 {
      EligibleCounted(pool[..|pool| - 1], at, item, kind, tolerance);
    }
  }

  lemma JoinOneFits(j: Joined, item: Item, kind: Kind, tolerance: int)
    requires AllFit(j.sends, tolerance) && item.kind == kind && (kind == Turn || kind == Audit)
    requires OnlyMarks(j.sends) && (kind == Turn ==> NoneOf(j.sends, Audit))
    ensures AllFit(JoinOne(j, item, kind, tolerance).sends, tolerance) && OnlyMarks(JoinOne(j, item, kind, tolerance).sends)
    ensures kind == Turn ==> NoneOf(JoinOne(j, item, kind, tolerance).sends, Audit)
  {
    NearestIs(j.sends, item, kind, tolerance);
    match Nearest(j.sends, item, kind, tolerance)
    case None =>
    case Some(f) =>
      var send := j.sends[f.at];
      assert send in j.sends;
      EligibleCounted(j.sends, f.at, item, kind, tolerance);
      assert FitsOn(Attach(send, kind, Attachment(item, Link(f.delta, f.candidates))), kind, tolerance);
  }

  predicate Kept(j: Joined, tolerance: int) {
    && AllFit(j.sends, tolerance) && OnlyMarks(j.sends) && CountsAddUp(j)
    && Maximal(j.sends, Turn, tolerance) && Maximal(j.sends, Audit, tolerance)
  }

  lemma {:induction false} JoinKindKeeps(j: Joined, items: seq<Item>, kind: Kind, tolerance: int)
    requires Kept(j, tolerance) && (kind == Turn || kind == Audit) && (kind == Turn ==> NoneOf(j.sends, Audit))
    requires forall item <- items :: item.kind == kind
    ensures var after := JoinKind(j, items, kind, tolerance);
            && Kept(after, tolerance) && after.counts.event == j.counts.event
            && (kind == Turn ==> NoneOf(after.sends, Audit))
  {
    if items != [] {
      var before, last := JoinKind(j, items[..|items| - 1], kind, tolerance), items[|items| - 1];
      JoinKindKeeps(j, items[..|items| - 1], kind, tolerance);
      assert last in items;
      JoinOneFits(before, last, kind, tolerance);
      JoinOneAddsUp(before, last, kind, tolerance);
      JoinOneKeepsMaximal(before, last, kind, Turn, tolerance);
      JoinOneKeepsMaximal(before, last, kind, Audit, tolerance);
    }
  }

  lemma {:induction false} OfKindIsKind(items: seq<Item>, kind: Kind)
    ensures forall item <- OfKind(items, kind) :: item.kind == kind
  {
    if items != [] {
      OfKindIsKind(items[..|items| - 1], kind);
    }
  }

  lemma OrderedIsKind(before: Collation, items: seq<Item>, kind: Kind)
    requires IsOrder(before)
    ensures forall item <- Ordered(before, OfKind(items, kind)) :: item.kind == kind
    ensures |Ordered(before, OfKind(items, kind))| == |OfKind(items, kind)|
  {
    OfKindIsKind(items, kind);
    OrderedIsSorted(before, OfKind(items, kind));
    var sorted := Ordered(before, OfKind(items, kind));
    assert |multiset(sorted)| == |sorted|;
    forall item | item in sorted ensures item.kind == kind {
      assert item in multiset(sorted);
    }
  }

  lemma {:induction false} SpineCarries(items: seq<Item>, kind: Kind)
    requires kind == Turn || kind == Audit
    ensures Carrying(Spine(items), kind) == 0
  {
    if items != [] {
      SpineCarries(items[..|items| - 1], kind);
      assert Spine(items)[..|items| - 1] == Spine(items[..|items| - 1]);
    }
  }

  lemma StartedIsKept(before: Collation, items: seq<Item>, tolerance: int)
    requires IsOrder(before)
    ensures Kept(Started(before, items), tolerance) && NoneOf(Started(before, items).sends, Audit)
  {
    OrderedIsKind(before, items, Event);
    var events := Ordered(before, OfKind(items, Event));
    SpineCarries(events, Turn);
    SpineCarries(events, Audit);
    forall s | s in Spine(events) ensures s.item.kind == Event && s.turn.None? && s.audit.None? {
      var i :| 0 <= i < |events| && s == Send(events[i], None, None);
      assert events[i] in events;
    }
  }

  lemma {:induction false} JoinKindCounts(j: Joined, items: seq<Item>, kind: Kind, tolerance: int)
    requires kind == Turn || kind == Audit
    ensures var after := JoinKind(j, items, kind, tolerance).counts;
            && after.turn == j.counts.turn + (if kind == Turn then |items| else 0)
            && after.audit == j.counts.audit + (if kind == Audit then |items| else 0)
            && after.event == j.counts.event
  {
    if items != [] {
      JoinKindCounts(j, items[..|items| - 1], kind, tolerance);
    }
  }

  /** The attachments of the result fit their sends; its counts are the marks read and add up to
      the sends made; and a timestamped turn or audit row is a send of its own only if every
      timestamped send of an earlier kind in its window already carries a mark of its kind. */
  lemma JoinIsKept(before: Collation, items: seq<Item>, tolerance: int)
    requires IsOrder(before)
    ensures var joined := Join(before, items, tolerance);
            && AllFit(joined.sends, tolerance) && CountsAddUp(joined)
            && joined.counts.event == |OfKind(items, Event)| && joined.counts.turn == |OfKind(items, Turn)|
            && joined.counts.audit == |OfKind(items, Audit)|
            && Maximal(joined.sends, Turn, tolerance) && Maximal(joined.sends, Audit, tolerance)
  {
    OrderedIsKind(before, items, Event);
    OrderedIsKind(before, items, Turn);
    OrderedIsKind(before, items, Audit);
    var started, turns, audits := Started(before, items), Ordered(before, OfKind(items, Turn)), Ordered(before, OfKind(items, Audit));
    StartedIsKept(before, items, tolerance);
    JoinKindKeeps(started, turns, Turn, tolerance);
    JoinKindCounts(started, turns, Turn, tolerance);
    var joined := JoinKind(started, turns, Turn, tolerance);
    JoinKindKeeps(joined, audits, Audit, tolerance);
    JoinKindCounts(joined, audits, Audit, tolerance);
  }

  // ---- The order of the input has no say ---------------------------------------------------------------

  /** Two marks that the order cannot tell apart: one moment and ids that collate alike. */
  predicate Ties(before: Collation, a: Item, b: Item) {
    NoLater(before, a, b) && NoLater(before, b, a)
  }

  ghost predicate NoTies(before: Collation, items: seq<Item>) {
    forall i, j :: 0 <= i < j < |items| && items[i].kind == items[j].kind && IsMark(items[i]) ==> !Ties(before, items[i], items[j])
  }

  ghost predicate Strict(before: Collation, items: seq<Item>) {
    forall i, j :: 0 <= i < j < |items| ==> NoLater(before, items[i], items[j]) && !NoLater(before, items[j], items[i])
  }

  /** Two strictly sorted lists of the same items are the same list. */
  lemma {:induction false} StrictIsUnique(before: Collation, a: seq<Item>, b: seq<Item>)
    requires Strict(before, a) && Strict(before, b) && multiset(a) == multiset(b)
    ensures a == b
  {
    assert |multiset(a)| == |a| && |multiset(b)| == |b|;
    if a != [] {
      SameLast(before, a, b);
      WithoutLast(a, b);
      StrictIsUnique(before, a[..|a| - 1], b[..|b| - 1]);
      assert a == a[..|a| - 1] + [a[|a| - 1]] && b == b[..|b| - 1] + [b[|b| - 1]];
    }
  }

  lemma WithoutLast(a: seq<Item>, b: seq<Item>)
    requires a != [] && b != [] && multiset(a) == multiset(b) && a[|a| - 1] == b[|b| - 1]
    ensures multiset(a[..|a| - 1]) == multiset(b[..|b| - 1])
  {
    LastItem(a);
    LastItem(b);
    assert multiset(a[..|a| - 1]) == multiset(a) - multiset{a[|a| - 1]};
    assert multiset(b[..|b| - 1]) == multiset(b) - multiset{b[|b| - 1]};
  }

  lemma SameLast(before: Collation, a: seq<Item>, b: seq<Item>)
    requires Strict(before, a) && Strict(before, b) && multiset(a) == multiset(b) && a != [] && b != []
    ensures a[|a| - 1] == b[|b| - 1]
  {
    var x, y := a[|a| - 1], b[|b| - 1];
    assert x in multiset(b) && y in multiset(a);
    var i :| 0 <= i < |b| && b[i] == x;
    var j :| 0 <= j < |a| && a[j] == y;
  }

  lemma OrderedIsStrict(before: Collation, items: seq<Item>)
    requires IsOrder(before)
    requires forall i, j :: 0 <= i < j < |items| ==> !Ties(before, items[i], items[j])
    ensures Strict(before, Ordered(before, items))
  {
    OrderedIsSorted(before, items);
    var sorted := Ordered(before, items);
    forall i, j | 0 <= i < j < |sorted| ensures !NoLater(before, sorted[j], sorted[i]) {
      if NoLater(before, sorted[j], sorted[i]) {
        TwoPlaces(before, sorted, i, j, items);
        assert false;
      }
    }
  }

  /** A tie between two places of a list is a tie between two places of any rearrangement. */
  lemma {:induction false} TwoPlaces(before: Collation, sorted: seq<Item>, i: nat, j: nat, items: seq<Item>)
    requires i < j < |sorted| && multiset(sorted) == multiset(items) && Ties(before, sorted[i], sorted[j])
    ensures exists k, l :: 0 <= k < l < |items| && Ties(before, items[k], items[l])
  {
    var k, l := TwoIndices(sorted, i, j, items);
    if k < l {
      assert Ties(before, items[k], items[l]);
    } else {
      assert Ties(before, items[l], items[k]);
    }
  }

  lemma TwoIndices(sorted: seq<Item>, i: nat, j: nat, items: seq<Item>) returns (k: nat, l: nat)
    requires i < j < |sorted| && multiset(sorted) == multiset(items)
    ensures k < |items| && l < |items| && k != l && items[k] == sorted[i] && items[l] == sorted[j]
  {
    assert sorted[i] in multiset(items) && sorted[j] in multiset(items);
    k :| 0 <= k < |items| && items[k] == sorted[i];
    if sorted[i] == sorted[j] {
      AtLeastTwo(sorted, i, j);
      l := SecondPlace(items, k);
    } else {
      l :| 0 <= l < |items| && items[l] == sorted[j];
    }
  }

  lemma AtLeastTwo(s: seq<Item>, i: nat, j: nat)
    requires i < j < |s| && s[i] == s[j]
    ensures multiset(s)[s[i]] >= 2
  {
    var a, b, c := s[..i], s[i + 1..j], s[j + 1..];
    assert s == a + [s[i]] + b + [s[j]] + c;
    assert multiset(s) == multiset(a) + multiset{s[i]} + multiset(b) + multiset{s[j]} + multiset(c);
  }

  lemma SecondPlace(items: seq<Item>, k: nat) returns (l: nat)
    requires k < |items| && multiset(items)[items[k]] >= 2
    ensures l < |items| && l != k && items[l] == items[k]
  {
    var a, b := items[..k], items[k + 1..];
    assert items == a + [items[k]] + b;
    assert multiset(items) == multiset(a) + multiset{items[k]} + multiset(b);
    if items[k] in multiset(a) {
      l :| 0 <= l < |a| && a[l] == items[k];
    } else {
      assert items[k] in multiset(b);
      var m :| 0 <= m < |b| && b[m] == items[k];
      l := k + 1 + m;
    }
  }

  lemma {:induction false} OfKindCounts(items: seq<Item>, kind: Kind, x: Item)
    ensures multiset(OfKind(items, kind))[x] == if x.kind == kind then multiset(items)[x] else 0
  {
    if items != [] {
      OfKindCounts(items[..|items| - 1], kind, x);
      LastItem(items);
    }
  }

  /** Two places of one kind's marks are two places of all the marks, in the same order. */
  lemma {:induction false} KindPlaces(items: seq<Item>, kind: Kind, i: nat, j: nat) returns (k: nat, l: nat)
    requires i < j < |OfKind(items, kind)|
    ensures k < l < |items| && items[k] == OfKind(items, kind)[i] && items[l] == OfKind(items, kind)[j]
    ensures items[k].kind == kind && items[l].kind == kind
  {
    var init := items[..|items| - 1];
    OfKindIsKind(items, kind);
    assert OfKind(items, kind)[i] in OfKind(items, kind) && OfKind(items, kind)[j] in OfKind(items, kind);
    if j < |OfKind(init, kind)| {
      k, l := KindPlaces(init, kind, i, j);
    } else {
      k := KindPlace(init, kind, i);
      l := |items| - 1;
    }
  }

  lemma {:induction false} KindPlace(items: seq<Item>, kind: Kind, i: nat) returns (k: nat)
    requires i < |OfKind(items, kind)|
    ensures k < |items| && items[k] == OfKind(items, kind)[i]
  {
    var init := items[..|items| - 1];
    if i < |OfKind(init, kind)| {
      k := KindPlace(init, kind, i);
    } else {
      k := |items| - 1;
    }
  }

  lemma KindOrderIsUnique(before: Collation, items: seq<Item>, other: seq<Item>, kind: Kind)
    requires IsOrder(before) && NoTies(before, items) && multiset(items) == multiset(other) && kind != Other
    ensures Ordered(before, OfKind(items, kind)) == Ordered(before, OfKind(other, kind))
  {
    var mine, theirs := OfKind(items, kind), OfKind(other, kind);
    forall x ensures multiset(mine)[x] == multiset(theirs)[x] {
      OfKindCounts(items, kind, x);
      OfKindCounts(other, kind, x);
    }
    assert multiset(mine) == multiset(theirs);
    forall i, j | 0 <= i < j < |mine| ensures !Ties(before, mine[i], mine[j]) {
      var k, l := KindPlaces(items, kind, i, j);
    }
    forall i, j | 0 <= i < j < |theirs| ensures !Ties(before, theirs[i], theirs[j]) {
      if Ties(before, theirs[i], theirs[j]) {
        TwoPlaces(before, theirs, i, j, mine);
        assert false;
      }
    }
    OrderedIsStrict(before, mine);
    OrderedIsStrict(before, theirs);
    OrderedIsSorted(before, mine);
    OrderedIsSorted(before, theirs);
    StrictIsUnique(before, Ordered(before, mine), Ordered(before, theirs));
  }

  /** When no two marks of a kind share a moment and an id, the join of the same marks is the same
      in whatever order they come. */
  lemma InputOrderHasNoSay(before: Collation, items: seq<Item>, other: seq<Item>, tolerance: int)
    requires IsOrder(before) && NoTies(before, items) && multiset(items) == multiset(other)
    ensures Join(before, items, tolerance) == Join(before, other, tolerance)
  {
    KindOrderIsUnique(before, items, other, Event);
    KindOrderIsUnique(before, items, other, Turn);
    KindOrderIsUnique(before, items, other, Audit);
  }
}
