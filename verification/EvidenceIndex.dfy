/** The evidence of one conversation, as runtime/browser-evidence.ts keeps it: publications that
    add and remove items, and a cached state folded from them. */
module EvidenceIndex {
  import opened Prelude

  type ItemId = string
  datatype Origin = Original | Analysis
  datatype Item = Item(id: ItemId, name: string, origin: Origin, template: string)
  datatype Change = Change(changeId: string, revision: nat, createdAt: int, added: seq<Item>, removed: seq<ItemId>)

  /** current is a Map: it keeps the order in which its items came. */
  datatype Folded = Folded(changes: seq<Change>, details: map<ItemId, Item>, current: seq<Item>, revision: nat)

  // ---- Folding ---------------------------------------------------------------------------------

  /** Map.set: an item that is there keeps its place. */
  function Put(current: seq<Item>, item: Item): seq<Item> {
    if current == [] then [item]
    else if current[0].id == item.id then [item] + current[1..]
    else [current[0]] + Put(current[1..], item)
  }

  /** Map.delete. */
  function Drop(current: seq<Item>, id: ItemId): seq<Item> {
    if current == [] then []
    else if current[0].id == id then current[1..]
    else [current[0]] + Drop(current[1..], id)
  }

  function PutAll(current: seq<Item>, added: seq<Item>): seq<Item> {
    if added == [] then current else Put(PutAll(current, added[..|added| - 1]), added[|added| - 1])
  }

  function DropAll(current: seq<Item>, removed: seq<ItemId>): seq<Item> {
    if removed == [] then current else Drop(DropAll(current, removed[..|removed| - 1]), removed[|removed| - 1])
  }

  function Changed(current: seq<Item>, c: Change): seq<Item> {
    DropAll(PutAll(current, c.added), c.removed)
  }

  function Detailed(details: map<ItemId, Item>, added: seq<Item>): map<ItemId, Item> {
    if added == [] then details
    else Detailed(details, added[..|added| - 1])[added[|added| - 1].id := added[|added| - 1]]
  }

  /** applyRecord(). */
  function Applied(s: Folded, c: Change): Folded {
    Folded(s.changes + [c], Detailed(s.details, c.added), Changed(s.current, c), c.revision)
  }

  const Nothing := Folded([], map[], [], 0)

  /** The state that all changes in order come to. */
  function Replay(changes: seq<Change>): Folded {
    if changes == [] then Nothing else Applied(Replay(changes[..|changes| - 1]), changes[|changes| - 1])
  }

  lemma AppliedKeeps(s: Folded, c: Change)
    ensures Applied(s, c).changes == s.changes + [c] && Applied(s, c).current == Changed(s.current, c)
    ensures Applied(s, c).revision == c.revision
  {
  }

  // ---- Publishing ---------------------------------------------------------------------------------

  /** An addition as it is asked for; faulty says that its file, producer, selector or basis is
      refused, whatever that takes. */
  datatype Addition = Addition(id: ItemId, name: string, origin: Origin, template: Option<string>, faulty: bool)
  datatype Delta = Delta(changeId: string, add: seq<Addition>, remove: seq<ItemId>)

  predicate TemplateShape(t: string) {
    && t != "" && |t| <= 64 && 'a' <= t[0] <= 'z'
    && forall c <- t :: 'a' <= c <= 'z' || '0' <= c <= '9' || c in {'_', '.', '-'}
  }

  /** templateFor(): a received original is always "original", and nothing else is. */
  function TemplateFor(origin: Origin, supplied: Option<string>): Option<string> {
    if supplied.Some? && !TemplateShape(supplied.value) then None
    else if origin == Original then (if supplied.Some? && supplied.value != "original" then None else Some("original"))
    else if supplied == Some("original") then None
    else Some(if supplied.Some? then supplied.value else "analysis")
  }

  predicate Has(current: seq<Item>, id: ItemId) {
    exists item <- current :: item.id == id
  }

  predicate Acceptable(s: Folded, delta: Delta) {
    && (forall i :: 0 <= i < |delta.remove| ==> Has(s.current, delta.remove[i]) && delta.remove[i] !in delta.remove[..i])
    && forall i :: 0 <= i < |delta.add| ==>
         var a := delta.add[i];
         && a.id !in s.details && (forall j :: 0 <= j < i ==> delta.add[j].id != a.id)
         && !a.faulty && TemplateFor(a.origin, a.template).Some?
  }

  function ItemOf(a: Addition): Item {
    var template := TemplateFor(a.origin, a.template);
    Item(a.id, a.name, a.origin, if template.Some? then template.value else "")
  }

  function ItemsOf(add: seq<Addition>): seq<Item> {
    seq(|add|, i requires 0 <= i < |add| => ItemOf(add[i]))
  }

  datatype Problem = RemoveInvalid(id: ItemId) | ItemConflict(id: ItemId) | ItemRefused(id: ItemId)
  datatype Outcome = Duplicate | Conflict | Empty | Refused(problems: seq<Problem>) | Published

  /** What publishing comes to: an identity already used is a duplicate or a conflict. */
  predicate Used(changes: seq<Change>, changeId: string) {
    exists c <- changes :: c.changeId == changeId
  }

  // ---- Reading at an anchor ---------------------------------------------------------------------------

  /** A publication, by its change or its message, or a response by when it was received. */
  datatype Anchor = Publication(changeId: string) | Response(receivedAt: int)

  function Find(changes: seq<Change>, changeId: string): Option<Change> {
    if changes == [] then None
    else if changes[0].changeId == changeId then Some(changes[0])
    else Find(changes[1..], changeId)
  }

  function UpTo(changes: seq<Change>, revision: nat): seq<Change> {
    if changes == [] then []
    else UpTo(changes[..|changes| - 1], revision) + if changes[|changes| - 1].revision <= revision then [changes[|changes| - 1]] else []
  }

  function Until(changes: seq<Change>, time: int): seq<Change> {
    if changes == [] then []
    else Until(changes[..|changes| - 1], time) + if changes[|changes| - 1].createdAt <= time then [changes[|changes| - 1]] else []
  }

  function CurrentAfter(changes: seq<Change>): seq<Item> {
    if changes == [] then [] else Changed(CurrentAfter(changes[..|changes| - 1]), changes[|changes| - 1])
  }

  /** anchoredEvidence(): the changes the anchor saw, folded anew. None when no publication has it. */
  function AnchoredAt(changes: seq<Change>, anchor: Anchor): Option<(seq<Item>, nat)> {
    match anchor
    case Publication(changeId) =>
      (match Find(changes, changeId)
       case None => None
       case Some(c) => Some(View(UpTo(changes, c.revision))))
    case Response(receivedAt) => Some(View(Until(changes, receivedAt)))
  }

  function View(changes: seq<Change>): (seq<Item>, nat) {
    (CurrentAfter(changes), if changes == [] then 0 else changes[|changes| - 1].revision)
  }

  // ---- Histories ----------------------------------------------------------------------------------------

  /** A change that could be published on this state: what it adds is new and distinct, what it
      removes is there, each once. */
  predicate Fits(s: Folded, c: Change) {
    && (forall i :: 0 <= i < |c.added| ==> c.added[i].id !in s.details && forall j :: 0 <= j < i ==> c.added[j].id != c.added[i].id)
    && forall i :: 0 <= i < |c.removed| ==> Has(s.current, c.removed[i]) && c.removed[i] !in c.removed[..i]
  }

  /** Each change was published on what the ones before it came to, under an identity of its own. */
  predicate Admissible(changes: seq<Change>) {
    changes == []
    || (var init, last := changes[..|changes| - 1], changes[|changes| - 1];
        Admissible(init) && Fits(Replay(init), last) && !Used(init, last.changeId))
  }

  lemma AcceptableFits(s: Folded, delta: Delta, c: Change)
    requires Acceptable(s, delta) && c.added == ItemsOf(delta.add) && c.removed == delta.remove
    ensures Fits(s, c)
  {
    forall i | 0 <= i < |c.added| ensures c.added[i].id !in s.details && forall j :: 0 <= j < i ==> c.added[j].id != c.added[i].id {
      assert c.added[i].id == delta.add[i].id;
      forall j | 0 <= j < i ensures c.added[j].id != c.added[i].id {
        assert c.added[j].id == delta.add[j].id;
      }
    }
  }

  lemma AdmissibleAfter(changes: seq<Change>, c: Change)
    requires Admissible(changes) && Fits(Replay(changes), c) && !Used(changes, c.changeId)
    ensures Admissible(changes + [c])
  {
    assert (changes + [c])[..|changes|] == changes;
  }

  // ---- The object: disk, version and cache ---------------------------------------------------------------

  predicate Ascending(changes: seq<Change>) {
    forall i, j :: 0 <= i < j < |changes| ==> changes[i].revision < changes[j].revision
  }

  /** A state is the replay of the first n changes. */
  ghost predicate IsReplay(changes: seq<Change>, n: nat, s: Folded) {
    n <= |changes| && s == Replay(changes[..n])
  }

  lemma AllReplayed(changes: seq<Change>, s: Folded)
    requires IsReplay(changes, |changes|, s)
    ensures s == Replay(changes)
  {
    assert changes[..|changes|] == changes;
  }

  lemma OneMoreReplayed(changes: seq<Change>, n: nat, s: Folded)
    requires n < |changes| && IsReplay(changes, n, s)
    ensures IsReplay(changes, n + 1, Applied(s, changes[n]))
  {
    assert changes[..n + 1][..n] == changes[..n];
  }

  lemma ReplayedStill(changes: seq<Change>, n: nat, s: Folded, c: Change)
    requires IsReplay(changes, n, s)
    ensures IsReplay(changes + [c], n, s)
  {
    assert (changes + [c])[..n] == changes[..n];
  }

  /** What a reading keeps. */
  datatype Cache = Cache(version: nat, state: Folded)

  ghost predicate DiskSound(records: seq<Change>, version: nat, seqNo: nat) {
    version <= |records| && Admissible(records) && Ascending(records) && forall c <- records :: 0 < c.revision <= seqNo
  }

  ghost predicate CacheSound(records: seq<Change>, version: nat, cache: Option<Cache>, seen: nat) {
    cache.Some? ==>
      && cache.value.version <= version && seen + (version - cache.value.version) == |records|
      && IsReplay(records, seen, cache.value.state)
  }

  lemma AppendKeepsDisk(records: seq<Change>, version: nat, seqNo: nat, change: Change, nextNo: nat)
    requires DiskSound(records, version, seqNo) && seqNo < change.revision <= nextNo
    requires Fits(Replay(records), change) && !Used(records, change.changeId)
    ensures DiskSound(records + [change], version + 1, nextNo)
  {
    AdmissibleAfter(records, change);
  }

  lemma AppendKeepsCache(records: seq<Change>, version: nat, cache: Option<Cache>, seen: nat, change: Change)
    requires CacheSound(records, version, cache, seen)
    ensures CacheSound(records + [change], version + 1, cache, seen)
  {
    if cache.Some? {
      ReplayedStill(records, seen, cache.value.state, change);
    }
  }

  lemma FreshCache(records: seq<Change>, version: nat, s: Folded)
    requires IsReplay(records, |records|, s)
    ensures CacheSound(records, version, Some(Cache(version, s)), |records|) && s == Replay(records)
  {
    AllReplayed(records, s);
  }

  lemma CurrentCache(records: seq<Change>, version: nat, cache: Cache, seen: nat)
    requires CacheSound(records, version, Some(cache), seen) && cache.version == version
    ensures cache.state == Replay(records)
  {
    AllReplayed(records, cache.state);
  }

  /** records is what is on disk, in the order it was written; version counts the captures this
      process has seen; cache is the state some earlier reading left, with the version it had, and
      seen says how many changes that state has folded. */
  class Evidence {
    var records: seq<Change>
    var version: nat
    var cache: Option<Cache>
    var seqNo: nat
    ghost var seen: nat

    ghost predicate Valid()
      reads this
    {
      DiskSound(records, version, seqNo) && CacheSound(records, version, cache, seen)
    }

    constructor ()
      ensures Valid() && records == [] && cache.None?
    {
      records, version, cache, seqNo, seen := [], 0, None, 0, 0;
    }

    /** A new process over the same disk. */
    method Restart()
      requires Valid()
      modifies this`version, this`cache
      ensures Valid() && cache.None?
    {
      version, cache := 0, None;
    }

    /** The rebuild branch of state(): every record of the conversation, in whatever order the
        directory gives them, sorted by revision and applied. */
    method Rebuild(listing: seq<Change>) returns (s: Folded)
      requires Valid() && multiset(listing) == multiset(records)
      ensures IsReplay(records, |records|, s)
    {
      var sorted := ByRevision(listing);
      SortedIsRecords(sorted, records);
      s := Nothing;
      for i := 0 to |sorted|
        invariant IsReplay(sorted, i, s)
      {
        OneMoreReplayed(sorted, i, s);
        s := Applied(s, sorted[i]);
      }
    }

    /** state(): the cache if it is current, the cache and one more change if it is one behind, or
        a rebuild. Whichever it is, the answer is the full replay. */
    method State(listing: seq<Change>) returns (s: Folded)
      requires Valid() && multiset(listing) == multiset(records)
      modifies this`cache, this`seen
      ensures Valid() && s == Replay(records)
    {
      if cache.Some? && cache.value.version == version {
        CurrentCache(records, version, cache.value, seen);
        return cache.value.state;
      }
      s := Fold(listing);
      FreshCache(records, version, s);
      cache, seen := Some(Cache(version, s)), |records|;
    }

    /** A cache one capture behind takes in the latest record if it is newer; any other is rebuilt. */
    method Fold(listing: seq<Change>) returns (s: Folded)
      requires Valid() && multiset(listing) == multiset(records)
      ensures IsReplay(records, |records|, s)
    {
      if cache.Some? && version == cache.value.version + 1 && records[|records| - 1].revision > cache.value.state.revision {
        OneMoreReplayed(records, seen, cache.value.state);
        s := Applied(cache.value.state, records[|records| - 1]);
      } else {
        s := Rebuild(listing);
      }
    }

    /** Any other capture in the store, or whatever else takes a number. */
    method TakeNumber() returns (no: nat)
      requires Valid()
      modifies this`seqNo
      ensures Valid() && no == seqNo == old(seqNo) + 1
    {
      seqNo := seqNo + 1;
      return seqNo;
    }

    /** store.capture() of a publication: the record, under a number of its own, and the version
        it bumps. */
    method Append(change: Change)
      requires Valid() && change.revision == seqNo && 0 < seqNo && forall c <- records :: c.revision < seqNo
      requires Fits(Replay(records), change) && !Used(records, change.changeId)
      modifies this`records, this`version, this`seqNo
      ensures Valid() && records == old(records) + [change]
    {
      AppendKeepsDisk(records, version, seqNo - 1, change, seqNo + 1);
      AppendKeepsCache(records, version, cache, seen, change);
      records, version, seqNo := records + [change], version + 1, seqNo + 1;
    }

    /** prepareDelta(): every problem of a publication, none exactly when it is acceptable. */
    method PrepareDelta(delta: Delta, s: Folded) returns (problems: seq<Problem>)
      ensures problems == [] <==> Acceptable(s, delta)
    {
      problems := [];
      var removed: set<ItemId> := {};
      for i := 0 to |delta.remove|
        invariant removed == set id | id in delta.remove[..i]
        invariant problems == [] <==> forall k :: 0 <= k < i ==> Has(s.current, delta.remove[k]) && delta.remove[k] !in delta.remove[..k]
      {
        var id := delta.remove[i];
        if id in removed || !Has(s.current, id) {
          problems := problems + [RemoveInvalid(id)];
        }
        assert delta.remove[..i + 1] == delta.remove[..i] + [id];
        removed := removed + {id};
      }
      var more := CheckAdditions(delta.add, s);
      problems := problems + more;
    }

    method CheckAdditions(add: seq<Addition>, s: Folded) returns (problems: seq<Problem>)
      ensures problems == [] <==>
        forall i :: 0 <= i < |add| ==>
          add[i].id !in s.details && (forall j :: 0 <= j < i ==> add[j].id != add[i].id)
          && !add[i].faulty && TemplateFor(add[i].origin, add[i].template).Some?
    {
      problems := [];
      var added: set<ItemId> := {};
      for i := 0 to |add|
        invariant forall k :: 0 <= k < i ==> add[k].id in added || add[k].id in s.details
        invariant forall id <- added :: exists k :: 0 <= k < i && add[k].id == id
        invariant problems == [] <==>
          forall k :: 0 <= k < i ==>
            add[k].id !in s.details && (forall j :: 0 <= j < k ==> add[j].id != add[k].id)
            && !add[k].faulty && TemplateFor(add[k].origin, add[k].template).Some?
      {
        var a := add[i];
        if a.id in added || a.id in s.details {
          problems := problems + [ItemConflict(a.id)];
          continue;
        }
        added := added + {a.id};
        if a.faulty || TemplateFor(a.origin, a.template).None? {
          problems := problems + [ItemRefused(a.id)];
        }
      }
    }

    /** presentEvidence() inside the turn that may publish; sameDelta says whether a change that
        already has this identity was asked for in the same words. */
    method Present(delta: Delta, sameDelta: bool, now: int, listing: seq<Change>) returns (outcome: Outcome)
      requires Valid() && multiset(listing) == multiset(records)
      modifies this
      ensures Valid()
      ensures outcome == Published <==>
        !Used(old(records), delta.changeId) && (delta.add != [] || delta.remove != []) && Acceptable(Replay(old(records)), delta)
      ensures outcome != Published ==> records == old(records)
      ensures outcome == Published ==>
        exists c :: records == old(records) + [c] && c.changeId == delta.changeId
          && c.added == ItemsOf(delta.add) && c.removed == delta.remove && c.createdAt == now
      ensures forall id :: Find(old(records), id).Some? ==> AnchoredAt(records, Publication(id)) == AnchoredAt(old(records), Publication(id))
      ensures outcome == Published ==>
        forall t :: AnchoredAt(records, Response(t)) == AnchoredAt(old(records), Response(t)) <==> t < now
    {
      if Used(records, delta.changeId) {
        return if sameDelta then Duplicate else Conflict;
      }
      if delta.add == [] && delta.remove == [] {
        return Empty;
      }
      var s := State(listing);
      var problems := PrepareDelta(delta, s);
      if problems != [] {
        return Refused(problems);
      }
      var revision := TakeNumber();
      var change := Change(delta.changeId, revision, now, ItemsOf(delta.add), delta.remove);
      AcceptableFits(s, delta, change);
      EarlierAnchorsStand(records, change);
      Append(change);
      return Published;
    }

    /** readEvidence() at an anchor. */
    method ReadAt(anchor: Anchor, listing: seq<Change>) returns (view: Option<(seq<Item>, nat)>)
      requires Valid() && multiset(listing) == multiset(records)
      modifies this`cache, this`seen
      ensures Valid() && view == AnchoredAt(records, anchor)
    {
      var s := State(listing);
      ReplayKeepsChanges(records);
      view := AnchoredAt(s.changes, anchor);
    }
  }

  lemma {:induction false} ReplayKeepsChanges(changes: seq<Change>)
    ensures Replay(changes).changes == changes
  {
    if changes != [] {
      var init, last := changes[..|changes| - 1], changes[|changes| - 1];
      ReplayKeepsChanges(init);
      AppliedKeeps(Replay(init), last);
      assert Replay(changes) == Applied(Replay(init), last);
      LastChange(changes);
    }
  }

  /** The cached current set is the one an anchored reading folds. */
  lemma {:induction false} ReplayKeepsCurrent(changes: seq<Change>)
    ensures Replay(changes).current == CurrentAfter(changes)
  {
    if changes != [] {
      ReplayKeepsCurrent(changes[..|changes| - 1]);
    }
  }

  // ---- What one publication does to earlier anchors ---------------------------------------------------------

  lemma {:induction false} FindIsFirst(changes: seq<Change>, c: Change, id: string)
    requires Find(changes, id).Some?
    ensures Find(changes + [c], id) == Find(changes, id) && Find(changes, id).value in changes
  {
    assert (changes + [c])[1..] == changes[1..] + [c];
    if changes[0].changeId != id {
      FindIsFirst(changes[1..], c, id);
    }
  }

  lemma UpToNext(changes: seq<Change>, c: Change, revision: nat)
    ensures UpTo(changes + [c], revision) == if c.revision <= revision then UpTo(changes, revision) + [c] else UpTo(changes, revision)
  {
    assert (changes + [c])[..|changes|] == changes;
    assert UpTo(changes, revision) + [] == UpTo(changes, revision);
  }

  lemma UntilNext(changes: seq<Change>, c: Change, time: int)
    ensures Until(changes + [c], time) == if c.createdAt <= time then Until(changes, time) + [c] else Until(changes, time)
  {
    assert (changes + [c])[..|changes|] == changes;
    assert Until(changes, time) + [] == Until(changes, time);
  }

  lemma {:induction false} UntilAreAmong(changes: seq<Change>, time: int)
    ensures forall c <- Until(changes, time) :: c in changes
  {
    if changes != [] {
      UntilAreAmong(changes[..|changes| - 1], time);
    }
  }

  lemma PublicationStands(changes: seq<Change>, c: Change, id: string)
    requires (forall x <- changes :: x.revision < c.revision) && Find(changes, id).Some?
    ensures AnchoredAt(changes + [c], Publication(id)) == AnchoredAt(changes, Publication(id))
  {
    FindIsFirst(changes, c, id);
    UpToNext(changes, c, Find(changes, id).value.revision);
  }

  /** A response's view takes in what was published at the very time it was received. */
  lemma ResponseStandsIff(changes: seq<Change>, c: Change, time: int)
    requires forall x <- changes :: x.revision < c.revision
    requires c.revision > 0
    ensures AnchoredAt(changes + [c], Response(time)) == AnchoredAt(changes, Response(time)) <==> time < c.createdAt
  {
    UntilNext(changes, c, time);
    UntilAreAmong(changes, time);
    if c.createdAt <= time {
      assert View(Until(changes, time) + [c]).1 == c.revision;
      assert View(Until(changes, time)).1 < c.revision;
    }
  }

  /** A publication changes no reading anchored at an earlier one, and changes one anchored at a
      response exactly when it is not dated later than the response. */
  lemma EarlierAnchorsStand(changes: seq<Change>, c: Change)
    requires (forall x <- changes :: x.revision < c.revision) && c.revision > 0
    ensures forall id :: Find(changes, id).Some? ==> AnchoredAt(changes + [c], Publication(id)) == AnchoredAt(changes, Publication(id))
    ensures forall t :: AnchoredAt(changes + [c], Response(t)) == AnchoredAt(changes, Response(t)) <==> t < c.createdAt
  {
    forall id | Find(changes, id).Some? ensures AnchoredAt(changes + [c], Publication(id)) == AnchoredAt(changes, Publication(id)) {
      PublicationStands(changes, c, id);
    }
    forall t ensures AnchoredAt(changes + [c], Response(t)) == AnchoredAt(changes, Response(t)) <==> t < c.createdAt {
      ResponseStandsIff(changes, c, t);
    }
  }

  // ---- Sorting by revision ----------------------------------------------------------------------------------

  function InsertByRevision(sorted: seq<Change>, c: Change): seq<Change> {
    if sorted == [] || sorted[|sorted| - 1].revision <= c.revision then sorted + [c]
    else InsertByRevision(sorted[..|sorted| - 1], c) + [sorted[|sorted| - 1]]
  }

  predicate NotDescending(changes: seq<Change>) {
    forall i, j :: 0 <= i < j < |changes| ==> changes[i].revision <= changes[j].revision
  }

  lemma {:induction false} InsertAdds(sorted: seq<Change>, c: Change)
    ensures multiset(InsertByRevision(sorted, c)) == multiset(sorted) + multiset{c}
  {
    if sorted != [] && sorted[|sorted| - 1].revision > c.revision {
      InsertAdds(sorted[..|sorted| - 1], c);
      assert sorted == sorted[..|sorted| - 1] + [sorted[|sorted| - 1]];
    }
  }

  lemma {:induction false} InsertKeeps(sorted: seq<Change>, c: Change)
    requires NotDescending(sorted)
    ensures NotDescending(InsertByRevision(sorted, c))
  {
    if sorted != [] && sorted[|sorted| - 1].revision > c.revision {
      var init, last := sorted[..|sorted| - 1], sorted[|sorted| - 1];
      InsertKeeps(init, c);
      InsertAdds(init, c);
      var inserted := InsertByRevision(init, c);
      forall k | 0 <= k < |inserted| ensures inserted[k].revision <= last.revision {
        assert inserted[k] in multiset(inserted);
        assert inserted[k] == c || inserted[k] in init;
      }
    }
  }

  method ByRevision(listing: seq<Change>) returns (sorted: seq<Change>)
    ensures NotDescending(sorted) && multiset(sorted) == multiset(listing)
  {
    sorted := [];
    for i := 0 to |listing|
      invariant NotDescending(sorted) && multiset(sorted) == multiset(listing[..i])
    {
      assert listing[..i + 1] == listing[..i] + [listing[i]];
      InsertKeeps(sorted, listing[i]);
      InsertAdds(sorted, listing[i]);
      sorted := InsertByRevision(sorted, listing[i]);
    }
    assert listing[..|listing|] == listing;
  }

  lemma LastChange(changes: seq<Change>)
    requires changes != []
    ensures multiset(changes[..|changes| - 1]) == multiset(changes) - multiset{changes[|changes| - 1]}
    ensures changes == changes[..|changes| - 1] + [changes[|changes| - 1]]
  {
    assert changes == changes[..|changes| - 1] + [changes[|changes| - 1]];
  }

  lemma SameLast(sorted: seq<Change>, records: seq<Change>)
    requires NotDescending(sorted) && Ascending(records) && multiset(sorted) == multiset(records) && sorted != [] && records != []
    ensures sorted[|sorted| - 1] == records[|records| - 1]
  {
    var x, y := sorted[|sorted| - 1], records[|records| - 1];
    assert x in multiset(records) && y in multiset(sorted);
    var i :| 0 <= i < |records| && records[i] == x;
    var j :| 0 <= j < |sorted| && sorted[j] == y;
  }

  /** Sorted by revision, the records of a conversation stand in the order they were published. */
  lemma {:induction false} SortedIsRecords(sorted: seq<Change>, records: seq<Change>)
    requires NotDescending(sorted) && Ascending(records) && multiset(sorted) == multiset(records)
    ensures sorted == records
  {
    assert |multiset(sorted)| == |sorted| && |multiset(records)| == |records|;
    if sorted != [] {
      SameLast(sorted, records);
      LastChange(sorted);
      LastChange(records);
      SortedIsRecords(sorted[..|sorted| - 1], records[..|records| - 1]);
    }
  }
}
