/** What a reader of the evidence can rely on. Every history the publications of a conversation
    make is admissible, which Evidence.Valid keeps. */
module EvidenceTheorems {
  import opened Prelude
  import opened EvidenceIndex

  // ---- The current set -------------------------------------------------------------------------

  predicate DistinctIds(items: seq<Item>) {
    forall i, j :: 0 <= i < j < |items| ==> items[i].id != items[j].id
  }

  lemma {:induction false} PutNew(current: seq<Item>, item: Item)
    requires !Has(current, item.id)
    ensures Put(current, item) == current + [item]
  {
    if current != [] {
      assert current[0] in current;
      forall x | x in current[1..] ensures x.id != item.id {
        assert x in current;
      }
      PutNew(current[1..], item);
    }
  }

  lemma HasAfter(current: seq<Item>, item: Item, id: ItemId)
    ensures Has(current + [item], id) <==> Has(current, id) || item.id == id
  {
    assert forall x :: x in current + [item] <==> x in current || x == item;
  }

  lemma {:induction false} PutAllNew(current: seq<Item>, added: seq<Item>)
    requires DistinctIds(current) && DistinctIds(added) && forall x <- added :: !Has(current, x.id)
    ensures PutAll(current, added) == current + added && DistinctIds(current + added)
  {
    if added == [] {
      assert current + added == current;
    } else {
      var init, last := added[..|added| - 1], added[|added| - 1];
      PutAllNew(current, init);
      assert last in added && !Has(current, last.id);
      assert forall x <- current + init :: x.id != last.id;
      PutNew(current + init, last);
      assert current + init + [last] == current + added;
    }
  }

  lemma {:induction false} DropOne(current: seq<Item>, id: ItemId)
    requires DistinctIds(current) && Has(current, id)
    ensures |Drop(current, id)| == |current| - 1 && DistinctIds(Drop(current, id))
    ensures forall x :: x in Drop(current, id) <==> x in current && x.id != id
  {
    var x :| x in current && x.id == id;
    assert forall y :: y in current <==> y == current[0] || y in current[1..];
    if current[0].id == id {
      forall y | y in current[1..] ensures y.id != id {
        var k :| 0 <= k < |current| - 1 && current[1..][k] == y;
        assert current[k + 1] == y;
      }
    } else {
      assert x in current[1..] && Has(current[1..], id);
      DropOne(current[1..], id);
      forall y | y in Drop(current[1..], id) ensures y.id != current[0].id {
        var k :| 0 <= k < |current| - 1 && current[1..][k] == y;
        assert current[k + 1] == y;
      }
      DistinctWithFirst(current[0], Drop(current[1..], id));
    }
  }

  lemma DistinctWithFirst(first: Item, rest: seq<Item>)
    requires DistinctIds(rest) && forall y <- rest :: y.id != first.id
    ensures DistinctIds([first] + rest)
  {
    var all := [first] + rest;
    forall i, j | 0 <= i < j < |all| ensures all[i].id != all[j].id {
      if i == 0 {
        assert all[j] in rest;
      } else {
        assert all[i] == rest[i - 1] && all[j] == rest[j - 1];
      }
    }
  }

  predicate RemovesOnce(current: seq<Item>, removed: seq<ItemId>) {
    forall i :: 0 <= i < |removed| ==> Has(current, removed[i]) && removed[i] !in removed[..i]
  }

  lemma {:induction false} DropAllOnce(current: seq<Item>, removed: seq<ItemId>)
    requires DistinctIds(current) && RemovesOnce(current, removed)
    ensures |DropAll(current, removed)| == |current| - |removed| && DistinctIds(DropAll(current, removed))
    ensures forall x :: x in DropAll(current, removed) <==> x in current && x.id !in removed
  {
    if removed != [] {
      var init, last := removed[..|removed| - 1], removed[|removed| - 1];
      forall i | 0 <= i < |init| ensures Has(current, init[i]) && init[i] !in init[..i] {
        assert removed[i] !in removed[..i] && init[..i] == removed[..i];
      }
      DropAllOnce(current, init);
      assert Has(current, last) && last !in removed[..|removed| - 1];
      var x :| x in current && x.id == last;
      assert x in DropAll(current, init);
      DropOne(DropAll(current, init), last);
      assert forall id :: id in removed <==> id in init || id == last;
    }
  }

  function AddedIn(changes: seq<Change>): nat {
    if changes == [] then 0 else AddedIn(changes[..|changes| - 1]) + |changes[|changes| - 1].added|
  }

  function RemovedIn(changes: seq<Change>): nat {
    if changes == [] then 0 else RemovedIn(changes[..|changes| - 1]) + |changes[|changes| - 1].removed|
  }

  /** Every current item has its details, under its own identity. */
  predicate CurrentKnown(s: Folded) {
    DistinctIds(s.current) && forall x <- s.current :: x.id in s.details
  }

  lemma {:induction false} DetailedKeys(details: map<ItemId, Item>, added: seq<Item>)
    ensures forall id :: id in Detailed(details, added) <==> id in details || Has(added, id)
  {
    if added != [] {
      var init, last := added[..|added| - 1], added[|added| - 1];
      DetailedKeys(details, init);
      forall id ensures Has(added, id) <==> Has(init, id) || last.id == id {
        HasAfter(init, last, id);
        assert init + [last] == added;
      }
    }
  }

  lemma ChangeCounts(s: Folded, c: Change)
    requires CurrentKnown(s) && Fits(s, c)
    ensures CurrentKnown(Applied(s, c)) && |Applied(s, c).current| == |s.current| + |c.added| - |c.removed|
    ensures forall x :: x in Applied(s, c).current <==> (x in s.current || x in c.added) && x.id !in c.removed
  {
    forall x | x in c.added ensures !Has(s.current, x.id) && x.id !in s.details {
      var i :| 0 <= i < |c.added| && c.added[i] == x;
    }
    AddedDistinct(s, c);
    PutAllNew(s.current, c.added);
    forall i | 0 <= i < |c.removed| ensures Has(s.current + c.added, c.removed[i]) && c.removed[i] !in c.removed[..i] {
      assert Has(s.current, c.removed[i]);
      var x :| x in s.current && x.id == c.removed[i];
      assert x in s.current + c.added;
    }
    DropAllOnce(s.current + c.added, c.removed);
    DetailedKeys(s.details, c.added);
    forall x | x in Applied(s, c).current ensures x.id in Applied(s, c).details {
      if x in c.added {
        assert Has(c.added, x.id);
      }
    }
  }

  lemma AddedDistinct(s: Folded, c: Change)
    requires Fits(s, c)
    ensures DistinctIds(c.added)
  {
  }

  lemma {:induction false} HistoryCounts(changes: seq<Change>)
    requires Admissible(changes)
    ensures CurrentKnown(Replay(changes)) && |Replay(changes).current| == AddedIn(changes) - RemovedIn(changes)
  {
    if changes != [] {
      HistoryCounts(changes[..|changes| - 1]);
      ChangeCounts(Replay(changes[..|changes| - 1]), changes[|changes| - 1]);
    }
  }

  /** The size of the current set is the items added less the items removed, its items are
      distinct, and a reader that pages through it meets each once. */
  lemma CurrentIsAddedLessRemoved(changes: seq<Change>)
    requires Admissible(changes)
    ensures |Replay(changes).current| == AddedIn(changes) - RemovedIn(changes) && DistinctIds(Replay(changes).current)
  {
    HistoryCounts(changes);
  }

  // ---- Anchors --------------------------------------------------------------------------------------------

  lemma {:induction false} AdmissibleBefore(changes: seq<Change>, n: nat)
    requires Admissible(changes) && n <= |changes|
    ensures Admissible(changes[..n])
  {
    if n == |changes| {
      assert changes[..n] == changes;
    } else {
      AdmissibleBefore(changes[..|changes| - 1], n);
      assert changes[..|changes| - 1][..n] == changes[..n];
    }
  }

  lemma LastIsNew(changes: seq<Change>, i: nat)
    requires Admissible(changes) && i < |changes| - 1
    ensures changes[i].changeId != changes[|changes| - 1].changeId
  {
    var init := changes[..|changes| - 1];
    assert !Used(init, changes[|changes| - 1].changeId) && init[i] == changes[i];
    assert init[i] in init;
  }

  lemma IdentitiesDiffer(changes: seq<Change>, i: nat, k: nat)
    requires Admissible(changes) && i < k < |changes|
    ensures changes[i].changeId != changes[k].changeId
  {
    AdmissibleBefore(changes, k + 1);
    LastIsNew(changes[..k + 1], i);
  }

  lemma {:induction false} FindIs(changes: seq<Change>, k: nat)
    requires k < |changes| && forall i :: 0 <= i < k ==> changes[i].changeId != changes[k].changeId
    ensures Find(changes, changes[k].changeId) == Some(changes[k])
  {
    if k > 0 {
      FindIs(changes[1..], k - 1);
    }
  }

  lemma {:induction false} UpToIs(changes: seq<Change>, k: nat)
    requires Ascending(changes) && k < |changes|
    ensures UpTo(changes, changes[k].revision) == changes[..k + 1]
  {
    if k == |changes| - 1 {
      AllUpTo(changes, changes[k].revision);
      assert changes[..k + 1] == changes;
    } else {
      UpToIs(changes[..|changes| - 1], k);
      assert changes[..|changes| - 1][..k + 1] == changes[..k + 1];
    }
  }

  lemma {:induction false} AllUpTo(changes: seq<Change>, revision: nat)
    requires forall c <- changes :: c.revision <= revision
    ensures UpTo(changes, revision) == changes
  {
    if changes != [] {
      assert changes[|changes| - 1] in changes;
      AllUpTo(changes[..|changes| - 1], revision);
      assert changes == changes[..|changes| - 1] + [changes[|changes| - 1]];
    }
  }

  /** A reading anchored at a publication shows the state just after it, whatever came later. */
  lemma AnchorShowsItsMoment(changes: seq<Change>, k: nat)
    requires Admissible(changes) && Ascending(changes) && k < |changes|
    ensures AnchoredAt(changes, Publication(changes[k].changeId)) == Some((Replay(changes[..k + 1]).current, changes[k].revision))
  {
    forall i | 0 <= i < k ensures changes[i].changeId != changes[k].changeId {
      IdentitiesDiffer(changes, i, k);
    }
    FindIs(changes, k);
    AscendingBelow(changes, k);
    UpToIs(changes, k);
    ReplayKeepsCurrent(changes[..k + 1]);
  }

  lemma AscendingBelow(changes: seq<Change>, k: nat)
    requires Ascending(changes) && k < |changes|
    ensures forall c <- changes[..k + 1] :: c.revision <= changes[k].revision
  {
  }

  /** So it is the same before and after any later publications. */
  lemma AnchorIsStable(changes: seq<Change>, more: seq<Change>, k: nat)
    requires Admissible(changes + more) && Ascending(changes + more) && k < |changes|
    ensures AnchoredAt(changes + more, Publication(changes[k].changeId)) == AnchoredAt(changes, Publication(changes[k].changeId))
  {
    var all := changes + more;
    AdmissibleBefore(all, |changes|);
    assert all[..|changes|] == changes && all[..k + 1] == changes[..k + 1] && all[k] == changes[k];
    assert Ascending(changes) by {
      assert forall i :: 0 <= i < |changes| ==> changes[i] == all[i];
    }
    AnchorShowsItsMoment(all, k);
    AnchorShowsItsMoment(changes, k);
  }

  lemma {:induction false} UntilJoins(changes: seq<Change>, more: seq<Change>, time: int)
    ensures Until(changes + more, time) == Until(changes, time) + Until(more, time)
  {
    if more == [] {
      assert changes + more == changes;
    } else {
      var init, last := more[..|more| - 1], more[|more| - 1];
      UntilJoins(changes, init, time);
      assert (changes + more)[..|changes + more| - 1] == changes + init && (changes + more)[|changes + more| - 1] == last;
    }
  }

  lemma {:induction false} UntilHas(changes: seq<Change>, time: int)
    ensures forall c :: c in Until(changes, time) <==> c in changes && c.createdAt <= time
  {
    if changes != [] {
      UntilHas(changes[..|changes| - 1], time);
      assert forall c :: c in changes <==> c in changes[..|changes| - 1] || c == changes[|changes| - 1];
    }
  }

  lemma RevisionOfView(changes: seq<Change>)
    ensures changes == [] ==> View(changes).1 == 0
    ensures changes != [] ==> exists c <- changes :: View(changes).1 == c.revision
  {
    if changes != [] {
      assert changes[|changes| - 1] in changes;
    }
  }

  /** A reading anchored at a response is left alone by the publications made after it was
      received exactly when each of them is dated later: at the same time is not late enough. */
  lemma ResponseIsStableIff(changes: seq<Change>, more: seq<Change>, receivedAt: int)
    requires Ascending(changes + more) && forall c <- more :: c.revision > 0
    ensures AnchoredAt(changes + more, Response(receivedAt)) == AnchoredAt(changes, Response(receivedAt))
            <==> forall c <- more :: c.createdAt > receivedAt
  {
    var before, after := Until(changes, receivedAt), Until(more, receivedAt);
    UntilJoins(changes, more, receivedAt);
    UntilHas(changes, receivedAt);
    UntilHas(more, receivedAt);
    if after == [] {
      assert before + after == before;
      assert AnchoredAt(changes + more, Response(receivedAt)) == AnchoredAt(changes, Response(receivedAt));
      forall c | c in more ensures c.createdAt > receivedAt {
        assert c !in after;
      }
    } else {
      var last := after[|after| - 1];
      assert last in after && last in more && last.createdAt <= receivedAt;
      assert (before + after)[|before + after| - 1] == last && View(before + after).1 == last.revision;
      forall c | c in before ensures c.revision < last.revision {
        EarlierIsLower(changes, more, c, last);
      }
      RevisionOfView(before);
      assert View(before).1 < last.revision;
      assert AnchoredAt(changes + more, Response(receivedAt)) == Some(View(before + after));
      assert AnchoredAt(changes, Response(receivedAt)) == Some(View(before));
    }
  }

  lemma EarlierIsLower(changes: seq<Change>, more: seq<Change>, c: Change, d: Change)
    requires Ascending(changes + more) && c in changes && d in more
    ensures c.revision < d.revision
  {
    var i :| 0 <= i < |changes| && changes[i] == c;
    var j :| 0 <= j < |more| && more[j] == d;
    assert (changes + more)[i] == c && (changes + more)[|changes| + j] == d;
  }
}
