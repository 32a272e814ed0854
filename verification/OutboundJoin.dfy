/** The join of import/outbound-link.ts: captures, turns and audit rows of one send brought
    together by conversation and moment. */
module OutboundJoin {
  import opened Prelude

  datatype Kind = Event | Turn | Audit | Other
  datatype Item = Item(kind: Kind, id: string, time: Option<int>, conversation: string)
  datatype Link = Link(delta: nat, candidates: nat)
  datatype Attachment = Attachment(item: Item, link: Link)
  datatype Send = Send(item: Item, turn: Option<Attachment>, audit: Option<Attachment>)
  datatype Counts = Counts(event: nat, turn: nat, audit: nat, joinedTurn: nat, joinedAudit: nat, aloneTurn: nat, aloneAudit: nat)
  datatype Joined = Joined(sends: seq<Send>, counts: Counts)

  // ---- One order for every kind ----------------------------------------------------------------

  /** Whether one id sorts no later than another; the locale's collation, whatever it is. */
  type Collation = (string, string) -> bool

  ghost predicate IsOrder(before: Collation) {
    && (forall a, b :: before(a, b) || before(b, a))
    && forall a, b, c :: before(a, b) && before(b, c) ==> before(a, c)
  }

  function TimeKey(item: Item): int {
    if item.time.Some? then item.time.value else 0
  }

  predicate NoLater(before: Collation, a: Item, b: Item) {
    TimeKey(a) < TimeKey(b) || (TimeKey(a) == TimeKey(b) && before(a.id, b.id))
  }

  /** A stable sort: an item goes behind all those it does not precede. */
  function Insert(before: Collation, sorted: seq<Item>, item: Item): seq<Item> {
    if sorted == [] || NoLater(before, sorted[|sorted| - 1], item) then sorted + [item]
    else Insert(before, sorted[..|sorted| - 1], item) + [sorted[|sorted| - 1]]
  }

  function Ordered(before: Collation, items: seq<Item>): seq<Item> {
    if items == [] then [] else Insert(before, Ordered(before, items[..|items| - 1]), items[|items| - 1])
  }

  function OfKind(items: seq<Item>, kind: Kind): seq<Item> {
    if items == [] then []
    else OfKind(items[..|items| - 1], kind) + if items[|items| - 1].kind == kind then [items[|items| - 1]] else []
  }

  predicate Sorted(before: Collation, items: seq<Item>) {
    forall i, j :: 0 <= i < j < |items| ==> NoLater(before, items[i], items[j])
  }

  lemma {:induction false} InsertAdds(before: Collation, sorted: seq<Item>, item: Item)
    ensures multiset(Insert(before, sorted, item)) == multiset(sorted) + multiset{item}
  {
    if sorted != [] && !NoLater(before, sorted[|sorted| - 1], item) {
      InsertAdds(before, sorted[..|sorted| - 1], item);
      assert sorted == sorted[..|sorted| - 1] + [sorted[|sorted| - 1]];
    }
  }

  lemma NoLaterIsOrder(before: Collation, a: Item, b: Item, c: Item)
    requires IsOrder(before)
    ensures NoLater(before, a, b) || NoLater(before, b, a)
    ensures NoLater(before, a, b) && NoLater(before, b, c) ==> NoLater(before, a, c)
  {
    assert before(a.id, b.id) && before(b.id, c.id) ==> before(a.id, c.id);
  }

  lemma {:induction false} InsertKeepsSorted(before: Collation, sorted: seq<Item>, item: Item)
    requires IsOrder(before) && Sorted(before, sorted)
    ensures Sorted(before, Insert(before, sorted, item))
  {
    if sorted != [] {
      var init, last := sorted[..|sorted| - 1], sorted[|sorted| - 1];
      if NoLater(before, last, item) {
        forall k | 0 <= k < |sorted| ensures NoLater(before, sorted[k], item) {
          NoLaterIsOrder(before, sorted[k], last, item);
        }
      } else {
        InsertKeepsSorted(before, init, item);
        InsertAdds(before, init, item);
        NoLaterIsOrder(before, item, last, item);
        InsertedBefore(before, init, item, last);
      }
    }
  }

  lemma InsertedBefore(before: Collation, init: seq<Item>, item: Item, last: Item)
    requires NoLater(before, item, last) && forall k :: 0 <= k < |init| ==> NoLater(before, init[k], last)
    ensures var inserted := Insert(before, init, item);
            forall k :: 0 <= k < |inserted| ==> NoLater(before, inserted[k], last)
  {
    InsertAdds(before, init, item);
    var inserted := Insert(before, init, item);
    forall k | 0 <= k < |inserted| ensures NoLater(before, inserted[k], last) {
      assert inserted[k] in multiset(inserted);
      assert inserted[k] == item || inserted[k] in init;
    }
  }

  lemma {:induction false} OrderedIsSorted(before: Collation, items: seq<Item>)
    requires IsOrder(before)
    ensures Sorted(before, Ordered(before, items)) && multiset(Ordered(before, items)) == multiset(items)
  {
    if items != [] {
      OrderedIsSorted(before, items[..|items| - 1]);
      InsertKeepsSorted(before, Ordered(before, items[..|items| - 1]), items[|items| - 1]);
      InsertAdds(before, Ordered(before, items[..|items| - 1]), items[|items| - 1]);
      assert items == items[..|items| - 1] + [items[|items| - 1]];
    }
  }

  // ---- The nearest send -------------------------------------------------------------------------

  /** The order of strings by code unit. */
  predicate Less(a: string, b: string) {
    b != "" && (a == "" || a[0] < b[0] || (a[0] == b[0] && Less(a[1..], b[1..])))
  }

  function AttachedOf(send: Send, kind: Kind): Option<Attachment> {
    match kind case Turn => send.turn case Audit => send.audit case _ => None
  }

  function Delta(send: Send, item: Item): nat
    requires send.item.time.Some? && item.time.Some?
  {
    var d := send.item.time.value - item.time.value;
    if d < 0 then -d else d
  }

  /** A send that may take the item as its mark of this kind. */
  predicate Eligible(send: Send, item: Item, kind: Kind, tolerance: int) {
    && send.item.conversation == item.conversation && send.item.kind != kind && AttachedOf(send, kind).None?
    && send.item.time.Some? && item.time.Some? && Delta(send, item) <= tolerance
  }

  /** Nearer in time, or as near and earlier by id. */
  predicate Nearer(a: Send, b: Send, item: Item)
    requires a.item.time.Some? && b.item.time.Some? && item.time.Some?
  {
    Delta(a, item) < Delta(b, item) || (Delta(a, item) == Delta(b, item) && Less(a.item.id, b.item.id))
  }

  datatype Found = Found(at: nat, delta: nat, candidates: nat)

  function CountEligible(pool: seq<Send>, item: Item, kind: Kind, tolerance: int): nat {
    if pool == [] then 0
    else
      var last := pool[|pool| - 1];
      CountEligible(pool[..|pool| - 1], item, kind, tolerance) + if Eligible(last, item, kind, tolerance) then 1 else 0
  }

  /** What nearestSend() promises about its answer. */
  ghost predicate IsNearest(pool: seq<Send>, item: Item, kind: Kind, tolerance: int, found: Option<Found>) {
    match found
    case None => forall s <- pool :: !Eligible(s, item, kind, tolerance)
    case Some(f) =>
      && f.at < |pool| && Eligible(pool[f.at], item, kind, tolerance) && f.delta == Delta(pool[f.at], item)
      && f.candidates == CountEligible(pool, item, kind, tolerance)
      && (forall s <- pool :: Eligible(s, item, kind, tolerance) ==> !Nearer(s, pool[f.at], item))
      && forall j :: 0 <= j < f.at && Eligible(pool[j], item, kind, tolerance) ==> Nearer(pool[f.at], pool[j], item)
  }

  lemma {:induction false} LessIsOrder(a: string, b: string, c: string)
    ensures !Less(a, a)
    ensures Less(a, b) ==> !Less(b, a)
    ensures Less(a, b) && Less(b, c) ==> Less(a, c)
    ensures Less(a, b) || Less(b, a) || a == b
  {
    if a != "" && b != "" && c != "" {
      LessIsOrder(a[1..], b[1..], c[1..]);
      assert a == [a[0]] + a[1..] && b == [b[0]] + b[1..];
    } else if a != "" && b != "" {
      LessIsOrder(a[1..], b[1..], "");
      assert a == [a[0]] + a[1..] && b == [b[0]] + b[1..];
    } else if a != "" {
      LessIsOrder(a[1..], "", "");
    }
  }

  lemma NearerIsOrder(a: Send, b: Send, c: Send, item: Item)
    requires a.item.time.Some? && b.item.time.Some? && c.item.time.Some? && item.time.Some?
    ensures !Nearer(a, a, item) && (Nearer(a, b, item) ==> !Nearer(b, a, item))
    ensures Nearer(a, b, item) && Nearer(b, c, item) ==> Nearer(a, c, item)
    ensures Nearer(a, b, item) && !Nearer(c, b, item) ==> Nearer(a, c, item)
  {
    LessIsOrder(a.item.id, b.item.id, c.item.id);
    LessIsOrder(b.item.id, c.item.id, a.item.id);
    LessIsOrder(c.item.id, a.item.id, b.item.id);
  }

  method NearestSend(pool: seq<Send>, item: Item, kind: Kind, tolerance: int) returns (found: Option<Found>)
    ensures IsNearest(pool, item, kind, tolerance, found)
  {
    if item.time.None? {
      return None;
    }
    var best: Option<(nat, nat)> := None;
    var candidates := 0;
    for i := 0 to |pool|
      invariant candidates == CountEligible(pool[..i], item, kind, tolerance)
      invariant best.None? ==> forall j :: 0 <= j < i ==> !Eligible(pool[j], item, kind, tolerance)
      invariant best.Some? ==> BestSoFar(pool, i, item, kind, tolerance, best.value.0, best.value.1)
    {
      assert pool[..i + 1][..i] == pool[..i];
      var send := pool[i];
      if send.item.conversation != item.conversation || send.item.kind == kind || AttachedOf(send, kind).Some? {
        continue;
      }
      if send.item.time.None? {
        continue;
      }
      var delta := Delta(send, item);
      if delta > tolerance {
        continue;
      }
      candidates := candidates + 1;
      if best.None? || delta < best.value.1 || (delta == best.value.1 && Less(send.item.id, pool[best.value.0].item.id)) {
        if best.Some? {
          BestMoves(pool, i, item, kind, tolerance, best.value.0, best.value.1);
        } else {
          NearerIsOrder(send, send, send, item);
        }
        best := Some((i, delta));
      }
    }
    assert pool[..|pool|] == pool;
    if best.None? {
      return None;
    }
    return Some(Found(best.value.0, best.value.1, candidates));
  }

  ghost predicate BestSoFar(pool: seq<Send>, i: nat, item: Item, kind: Kind, tolerance: int, at: nat, delta: nat)
    requires i <= |pool|
  {
    && at < i && Eligible(pool[at], item, kind, tolerance) && delta == Delta(pool[at], item)
    && (forall j :: 0 <= j < i && Eligible(pool[j], item, kind, tolerance) ==> !Nearer(pool[j], pool[at], item))
    && forall j :: 0 <= j < at && Eligible(pool[j], item, kind, tolerance) ==> Nearer(pool[at], pool[j], item)
  }

  lemma BestMoves(pool: seq<Send>, i: nat, item: Item, kind: Kind, tolerance: int, at: nat, delta: nat)
    requires i < |pool| && BestSoFar(pool, i, item, kind, tolerance, at, delta) && Eligible(pool[i], item, kind, tolerance)
    requires Nearer(pool[i], pool[at], item)
    ensures BestSoFar(pool, i + 1, item, kind, tolerance, i, Delta(pool[i], item))
  {
    NearerIsOrder(pool[i], pool[i], pool[i], item);
    forall j | 0 <= j < i && Eligible(pool[j], item, kind, tolerance) ensures Nearer(pool[i], pool[j], item) && !Nearer(pool[j], pool[i], item) {
      NearerIsOrder(pool[i], pool[at], pool[j], item);
      NearerIsOrder(pool[i], pool[j], pool[j], item);
    }
  }

  /** The answer is the only one that keeps the promise. */
  lemma NearestIsUnique(pool: seq<Send>, item: Item, kind: Kind, tolerance: int, a: Option<Found>, b: Option<Found>)
    requires IsNearest(pool, item, kind, tolerance, a) && IsNearest(pool, item, kind, tolerance, b)
    ensures a == b
  {
    if a.Some? && b.Some? {
      var x, y := pool[a.value.at], pool[b.value.at];
      assert x in pool && y in pool;
      NearerIsOrder(x, y, x, item);
    }
  }

  /** The answer as a function of its question. */
  function Nearest(pool: seq<Send>, item: Item, kind: Kind, tolerance: int): (found: Option<Found>)
    ensures found.Some? ==> found.value.at < |pool| && Eligible(pool[found.value.at], item, kind, tolerance)
  {
    if pool == [] then None
    else
      var last, init := pool[|pool| - 1], pool[..|pool| - 1];
      var found := Nearest(init, item, kind, tolerance);
      if !Eligible(last, item, kind, tolerance) then found
      else
        match found
        case None => Some(Found(|pool| - 1, Delta(last, item), 1))
        case Some(f) =>
          if Nearer(last, pool[f.at], item) then Some(Found(|pool| - 1, Delta(last, item), f.candidates + 1))
          else Some(f.(candidates := f.candidates + 1))
  }

  lemma NoneEligible(pool: seq<Send>, item: Item, kind: Kind, tolerance: int)
    requires forall s <- pool :: !Eligible(s, item, kind, tolerance)
    ensures CountEligible(pool, item, kind, tolerance) == 0
  {
    if pool != [] {
      assert pool[|pool| - 1] in pool;
      NoneEligible(pool[..|pool| - 1], item, kind, tolerance);
    }
  }

  lemma {:induction false} NearestIs(pool: seq<Send>, item: Item, kind: Kind, tolerance: int)
    ensures IsNearest(pool, item, kind, tolerance, Nearest(pool, item, kind, tolerance))
  {
    if pool != [] {
      var last, init := pool[|pool| - 1], pool[..|pool| - 1];
      assert pool == init + [last];
      NearestIs(init, item, kind, tolerance);
      if Eligible(last, item, kind, tolerance) {
        match Nearest(init, item, kind, tolerance)
        case None => NoneEligible(init, item, kind, tolerance); NearerIsOrder(last, last, last, item);
        case Some(f) =>
          assert BestSoFar(pool, |init|, item, kind, tolerance, f.at, f.delta);
          if Nearer(last, pool[f.at], item) {
            BestMoves(pool, |init|, item, kind, tolerance, f.at, f.delta);
          }
      }
    }
  }

  // ---- The join -------------------------------------------------------------------------------------

  function Attach(send: Send, kind: Kind, attachment: Attachment): Send {
    match kind case Turn => send.(turn := Some(attachment)) case Audit => send.(audit := Some(attachment)) case _ => send
  }

  function Counted(counts: Counts, kind: Kind, joined: bool): Counts {
    match kind
    case Turn => counts.(turn := counts.turn + 1, joinedTurn := counts.joinedTurn + (if joined then 1 else 0),
                         aloneTurn := counts.aloneTurn + (if joined then 0 else 1))
    case Audit => counts.(audit := counts.audit + 1, joinedAudit := counts.joinedAudit + (if joined then 1 else 0),
                          aloneAudit := counts.aloneAudit + (if joined then 0 else 1))
    case _ => counts
  }

  function JoinOne(j: Joined, item: Item, kind: Kind, tolerance: int): Joined {
    match Nearest(j.sends, item, kind, tolerance)
    case None => Joined(j.sends + [Send(item, None, None)], Counted(j.counts, kind, false))
    case Some(f) =>
      Joined(j.sends[f.at := Attach(j.sends[f.at], kind, Attachment(item, Link(f.delta, f.candidates)))], Counted(j.counts, kind, true))
  }

  function JoinKind(j: Joined, items: seq<Item>, kind: Kind, tolerance: int): Joined {
    if items == [] then j else JoinOne(JoinKind(j, items[..|items| - 1], kind, tolerance), items[|items| - 1], kind, tolerance)
  }

  function Spine(items: seq<Item>): seq<Send> {
    seq(|items|, i requires 0 <= i < |items| => Send(items[i], None, None))
  }

  function Started(before: Collation, items: seq<Item>): Joined {
    var events := Ordered(before, OfKind(items, Event));
    Joined(Spine(events), Counts(|events|, 0, 0, 0, 0, 0, 0))
  }

  function Join(before: Collation, items: seq<Item>, tolerance: int): Joined {
    var turns := JoinKind(Started(before, items), Ordered(before, OfKind(items, Turn)), Turn, tolerance);
    JoinKind(turns, Ordered(before, OfKind(items, Audit)), Audit, tolerance)
  }

  method JoinItems(before: Collation, items: seq<Item>, kind: Kind, tolerance: int, start: Joined) returns (joined: Joined)
    requires kind == Turn || kind == Audit
    ensures joined == JoinKind(start, items, kind, tolerance)
  {
    var pool, counts := start.sends, start.counts;
    for i := 0 to |items|
      invariant Joined(pool, counts) == JoinKind(start, items[..i], kind, tolerance)
    {
      assert items[..i + 1][..i] == items[..i];
      var item := items[i];
      var found := NearestSend(pool, item, kind, tolerance);
      NearestIs(pool, item, kind, tolerance);
      NearestIsUnique(pool, item, kind, tolerance, found, Nearest(pool, item, kind, tolerance));
      if found.None? {
        counts := Counted(counts, kind, false);
        pool := pool + [Send(item, None, None)];
        continue;
      }
      counts := Counted(counts, kind, true);
      var link := Link(found.value.delta, found.value.candidates);
      pool := pool[found.value.at := Attach(pool[found.value.at], kind, Attachment(item, link))];
    }
    assert items[..|items|] == items;
    joined := Joined(pool, counts);
  }

  /** joinOutbound(): events first, then turns, then audit rows. */
  method JoinOutbound(before: Collation, items: seq<Item>, tolerance: int) returns (joined: Joined)
    ensures joined == Join(before, items, tolerance)
  {
    var events := Ordered(before, OfKind(items, Event));
    joined := Joined(Spine(events), Counts(|events|, 0, 0, 0, 0, 0, 0));
    joined := JoinItems(before, Ordered(before, OfKind(items, Turn)), Turn, tolerance, joined);
    joined := JoinItems(before, Ordered(before, OfKind(items, Audit)), Audit, tolerance, joined);
  }
}
