/** When the order in which evidence arrives does not matter; ArrivalOrderExact says exactly when. */
module ArrivalOrder {
  import opened Checked
  import opened Evidence
  import opened Fold
  import opened Ledger
  import opened LedgerRefinement

  function Elements(batch: seq<Observation>): set<Observation> {
    set o | o in batch
  }

  /** Different content presented under one key has different digests. */
  ghost predicate Separates(digest: Observation -> u64, presented: set<Observation>) {
    forall a, b :: a in presented && b in presented && SameKey(a.key, b.key) && digest(a) == digest(b) ==> a == b
  }

  /** One observation per presented key, in order, each of least digest among those under its key. */
  ghost predicate Canonical(h: seq<Observation>, presented: set<Observation>, digest: Observation -> u64) {
    && StrictlySorted(h)
    && (forall x :: x in h ==> x in presented)
    && (forall o :: o in presented ==> Covered(h, o, digest))
  }

  /** The history holds something under the key of `o`, of no larger digest. */
  ghost predicate Covered(h: seq<Observation>, o: Observation, digest: Observation -> u64) {
    exists x :: x in h && SameKey(x.key, o.key) && digest(x) <= digest(o)
  }

  lemma Cover(h: seq<Observation>, o: Observation, digest: Observation -> u64) returns (x: Observation)
    requires Covered(h, o, digest)
    ensures x in h && SameKey(x.key, o.key) && digest(x) <= digest(o)
  {
    x :| x in h && SameKey(x.key, o.key) && digest(x) <= digest(o);
  }

  // ---- a canonical history is unique -----------------------------------------------

  lemma SortedKeysDistinct(h: seq<Observation>, a: Observation, b: Observation)
    requires StrictlySorted(h) && a in h && b in h && SameKey(a.key, b.key)
    ensures a == b
  {
    var i :| 0 <= i < |h| && h[i] == a;
    var j :| 0 <= j < |h| && h[j] == b;
    KeyOrder(a.key, b.key, a.key);
    KeyOrder(b.key, a.key, a.key);
  }

  lemma CanonicalMember(h: seq<Observation>, g: seq<Observation>, presented: set<Observation>,
                        digest: Observation -> u64, x: Observation)
    requires Canonical(h, presented, digest) && Canonical(g, presented, digest) && Separates(digest, presented)
    requires x in h
    ensures x in g
  {
    hide KeyLess, StrictlySorted, Covered;
    var y := Cover(g, x, digest);
    var z := Cover(h, y, digest);
    assert SameKey(x.key, z.key);
    SortedKeysDistinct(h, x, z);
  }

  lemma CanonicalWithin(h: seq<Observation>, g: seq<Observation>, presented: set<Observation>, digest: Observation -> u64)
    requires Canonical(h, presented, digest) && Canonical(g, presented, digest) && Separates(digest, presented)
    ensures forall x :: x in h ==> x in g
  {
    hide Canonical, Separates;
    forall x | x in h ensures x in g {
      CanonicalMember(h, g, presented, digest, x);
    }
  }

  lemma {:induction false} SortedSetUnique(h: seq<Observation>, g: seq<Observation>)
    requires StrictlySorted(h) && StrictlySorted(g)
    requires forall x :: x in h <==> x in g
    ensures h == g
  {
    assert h != [] ==> h[0] in g;
    assert g != [] ==> g[0] in h;
    if h != [] && g != [] {
      SameLast(h, g);
      var h', g', last := h[..|h| - 1], g[..|g| - 1], h[|h| - 1];
      assert h == h' + [last] && g == g' + [last];
      LastNotBefore(h', last);
      LastNotBefore(g', last);
      forall o ensures o in h' <==> o in g' {
        assert o in h <==> o in h' || o == last;
        assert o in g <==> o in g' || o == last;
      }
      SortedSetUnique(h', g');
    }
  }

  lemma SameLast(h: seq<Observation>, g: seq<Observation>)
    requires StrictlySorted(h) && StrictlySorted(g) && h != [] && g != []
    requires forall x :: x in h <==> x in g
    ensures h[|h| - 1] == g[|g| - 1]
  {
    var x, y := h[|h| - 1], g[|g| - 1];
    assert x in g && y in h;
    KeyOrder(x.key, y.key, x.key);
  }

  lemma LastNotBefore(front: seq<Observation>, last: Observation)
    requires StrictlySorted(front + [last])
    ensures last !in front
  {
    var h := front + [last];
    KeyOrder(last.key, last.key, last.key);
    forall i | 0 <= i < |front| ensures front[i] != last {
      assert KeyLess(h[i].key, h[|front|].key);
    }
  }

  lemma CanonicalUnique(h: seq<Observation>, g: seq<Observation>, presented: set<Observation>, digest: Observation -> u64)
    requires Canonical(h, presented, digest) && Canonical(g, presented, digest) && Separates(digest, presented)
    ensures h == g
  {
    CanonicalWithin(h, g, presented, digest);
    CanonicalWithin(g, h, presented, digest);
    SortedSetUnique(h, g);
  }

  // ---- placing evidence keeps the history canonical ----------------------------------

  lemma PlaceKeepsOthers(h: seq<Observation>, o: Observation, digest: Observation -> u64, x: Observation)
    requires x in h
    ensures x in Place(h, o, digest)
         || (SameKey(x.key, o.key) && digest(o) < digest(x) && o in Place(h, o, digest))
  {
    var n :| 0 <= n < |h| && h[n] == x;
    var i := LowerBound(h, o.key);
    var placed := Place(h, o, digest);
    if Holds(h, o.key) {
      if n != i {
        assert placed[n] == x;
      } else if digest(o) < digest(x) {
        assert placed[i] == o;
      }
    } else {
      assert placed[if n < i then n else n + 1] == x;
    }
  }

  lemma PlaceCovers(h: seq<Observation>, o: Observation, digest: Observation -> u64)
    ensures Covered(Place(h, o, digest), o, digest)
  {
    var i := LowerBound(h, o.key);
    var x := Place(h, o, digest)[i];
    assert x in Place(h, o, digest);
  }

  lemma PlaceCanonical(h: seq<Observation>, presented: set<Observation>, o: Observation, digest: Observation -> u64)
    requires Canonical(h, presented, digest)
    ensures Canonical(Place(h, o, digest), presented + {o}, digest)
  {
    hide Place, Covered, StrictlySorted;
    var placed := Place(h, o, digest);
    PlaceSorted(h, o, digest);
    PlaceElements(h, o, digest);
    forall p | p in presented + {o} ensures Covered(placed, p, digest) {
      if p == o {
        PlaceCovers(h, o, digest);
      } else {
        PlaceKeepsCover(h, o, digest, p);
      }
    }
  }

  lemma PlaceKeepsCover(h: seq<Observation>, o: Observation, digest: Observation -> u64, p: Observation)
    requires Covered(h, p, digest)
    ensures Covered(Place(h, o, digest), p, digest)
  {
    hide Place;
    var x := Cover(h, p, digest);
    PlaceKeepsOthers(h, o, digest, x);
    assert x in Place(h, o, digest) || SameKey(o.key, p.key);
  }

  lemma {:induction false} PlaceAllCanonical(batch: seq<Observation>, digest: Observation -> u64)
    ensures Canonical(PlaceAll([], batch, digest), Elements(batch), digest)
  {
    hide Canonical, Place;
    if batch == [] {
      EmptyCanonical(digest);
    } else {
      var front, o := batch[..|batch| - 1], batch[|batch| - 1];
      PlaceAllCanonical(front, digest);
      PlaceCanonical(PlaceAll([], front, digest), Elements(front), o, digest);
      assert Elements(batch) == Elements(front) + {o} by { assert batch == front + [o]; }
    }
  }

  lemma EmptyCanonical(digest: Observation -> u64)
    ensures Canonical([], {}, digest) && Elements([]) == {}
  {
  }

  // ---- ledgers -----------------------------------------------------------------------

  /**
   * No evidence of the run is refused by the fence, other than exact copies of what was folded: the
   * condition under which a bounded ledger keeps everything it is shown.
   */
  ghost predicate NothingLate(l: Ledger, batch: seq<Observation>, digest: Observation -> u64) {
    forall i :: 0 <= i < |batch| ==>
      var before := Run(l, batch[..i], digest);
      Belongs(l, batch[i]) &&
      (InFoldedRegion(before.prefix, batch[i].key) ==> batch[i] in RunFolded(l, batch[..i], digest))
  }

  lemma NothingLateFront(l: Ledger, batch: seq<Observation>, digest: Observation -> u64)
    requires batch != [] && NothingLate(l, batch, digest)
    ensures var front, o := batch[..|batch| - 1], batch[|batch| - 1];
            && NothingLate(l, front, digest) && Belongs(l, o)
            && (InFoldedRegion(Run(l, front, digest).prefix, o.key) ==> o in RunFolded(l, front, digest))
  {
    hide Run, RunFolded, InFoldedRegion;
    var front := batch[..|batch| - 1];
    forall i | 0 <= i < |front|
      ensures Belongs(l, front[i])
      ensures InFoldedRegion(Run(l, front[..i], digest).prefix, front[i].key) ==> front[i] in RunFolded(l, front[..i], digest)
    {
      assert front[..i] == batch[..i] && front[i] == batch[i];
    }
    assert batch[|batch| - 1] == batch[|front|];
  }

  /** When nothing is late, the ledger's history is the canonical history of everything it was shown. */
  lemma {:induction false} RunPlacesAll(l: Ledger, batch: seq<Observation>, digest: Observation -> u64)
    requires Inv(l, EMPTY_PREFIX, []) && l.entries == []
    requires NothingLate(l, batch, digest) && |RunFolded(l, batch, digest)| <= U32_MAX
    ensures Inv(Run(l, batch, digest), EMPTY_PREFIX, RunFolded(l, batch, digest))
    ensures History(Run(l, batch, digest), RunFolded(l, batch, digest)) == PlaceAll([], batch, digest)
  {
    hide Inv, Inserted, Absorbed, Place, InFoldedRegion, NothingLate;
    if batch != [] {
      var front, o := batch[..|batch| - 1], batch[|batch| - 1];
      NothingLateFront(l, batch, digest);
      RunPlacesAll(l, front, digest);
      var before, f := Run(l, front, digest), RunFolded(l, front, digest);
      RunKeepsIdentity(l, front, digest);
      InsertRefinesPlace(before, EMPTY_PREFIX, f, o, digest);
      if InFoldedRegion(before.prefix, o.key) {
        HistorySorted(before, EMPTY_PREFIX, f);
        PlaceExisting(History(before, f), o, digest);
      }
    }
  }

  lemma HistorySorted(l: Ledger, base: Prefix, folded: seq<Observation>)
    requires Inv(l, base, folded)
    ensures StrictlySorted(History(l, folded))
  {
  }

  /**
   * Arrival order, redelivery and capacity do not matter. Two ledgers for the same source and generation,
   * of any two capacities, shown the same evidence in any two orders with any repetition, hold the same
   * history and the same evidence state, provided neither refused evidence as late.
   */
  lemma ArrivalOrderIndependent(a: Ledger, b: Ledger, first: seq<Observation>, second: seq<Observation>,
                                digest: Observation -> u64)
    requires Inv(a, EMPTY_PREFIX, []) && a.entries == [] && Inv(b, EMPTY_PREFIX, []) && b.entries == []
    requires a.policy == b.policy
    requires Elements(first) == Elements(second) && Separates(digest, Elements(first))
    requires NothingLate(a, first, digest) && NothingLate(b, second, digest)
    requires |RunFolded(a, first, digest)| <= U32_MAX && |RunFolded(b, second, digest)| <= U32_MAX
    ensures var m, n := Run(a, first, digest), Run(b, second, digest);
            && History(m, RunFolded(a, first, digest)) == History(n, RunFolded(b, second, digest))
            && FoldedEvidence(m, m.policy) == FoldedEvidence(n, n.policy)
  {
    hide Inv, NothingLate, Canonical, FoldedEvidence, FoldAll, Run, RunFolded, PlaceAll;
    RunPlacesAll(a, first, digest);
    RunPlacesAll(b, second, digest);
    PlaceAllCanonical(first, digest);
    PlaceAllCanonical(second, digest);
    CanonicalUnique(PlaceAll([], first, digest), PlaceAll([], second, digest), Elements(first), digest);
    RunKeepsIdentity(a, first, digest);
    RunKeepsIdentity(b, second, digest);
    ViewIsFullFold(Run(a, first, digest), EMPTY_PREFIX, RunFolded(a, first, digest));
    ViewIsFullFold(Run(b, second, digest), EMPTY_PREFIX, RunFolded(b, second, digest));
  }

  // ---- within capacity nothing is ever late --------------------------------------------

  /** The canonical keys of some evidence, with the source, which the order ignores, left out. */
  function Keys(presented: set<Observation>): set<Key> {
    set o | o in presented :: o.key.(source := 0)
  }

  lemma {:induction false} SortedFitsKeys(h: seq<Observation>, presented: set<Observation>)
    requires StrictlySorted(h) && forall x :: x in h ==> x in presented
    ensures |h| <= |Keys(presented)|
  {
    var keys := set i | 0 <= i < |h| :: h[i].key.(source := 0);
    SortedKeyCount(h);
    assert keys <= Keys(presented) by {
      forall k | k in keys ensures k in Keys(presented) {
        var i :| 0 <= i < |h| && k == h[i].key.(source := 0);
        assert h[i] in presented;
      }
    }
    Subset(keys, Keys(presented));
  }

  lemma Subset<T>(a: set<T>, b: set<T>)
    requires a <= b
    ensures |a| <= |b|
  {
    assert b == a + (b - a);
    assert |b| == |a| + |b - a|;
  }

  lemma {:induction false} SortedKeyCount(h: seq<Observation>)
    requires StrictlySorted(h)
    ensures |set i | 0 <= i < |h| :: h[i].key.(source := 0)| == |h|
  {
    if h != [] {
      var front := h[..|h| - 1];
      SortedKeyCount(front);
      var last := h[|h| - 1].key.(source := 0);
      var keys := set i | 0 <= i < |front| :: front[i].key.(source := 0);
      assert last !in keys by {
        assert forall i :: 0 <= i < |front| ==> front[i] == h[i] && KeyLess(h[i].key, h[|h| - 1].key);
      }
      hide KeyLess;
      assert (set i | 0 <= i < |h| :: h[i].key.(source := 0)) == keys + {last} by {
        assert forall i :: 0 <= i < |front| ==> front[i] == h[i];
      }
    }
  }

  lemma KeysMonotone(a: set<Observation>, b: set<Observation>)
    requires a <= b
    ensures |Keys(a)| <= |Keys(b)|
  {
    assert Keys(a) <= Keys(b);
    Subset(Keys(a), Keys(b));
  }

  lemma NothingLateAppend(l: Ledger, front: seq<Observation>, o: Observation, digest: Observation -> u64)
    requires NothingLate(l, front, digest) && Belongs(l, o)
    requires InFoldedRegion(Run(l, front, digest).prefix, o.key) ==> o in RunFolded(l, front, digest)
    ensures NothingLate(l, front + [o], digest)
  {
    hide Run, RunFolded, InFoldedRegion, Belongs;
    var batch := front + [o];
    forall i | 0 <= i < |batch|
      ensures Belongs(l, batch[i])
      ensures InFoldedRegion(Run(l, batch[..i], digest).prefix, batch[i].key) ==> batch[i] in RunFolded(l, batch[..i], digest)
    {
      assert batch[..i] == front[..i];
      assert i == |front| ==> front[..i] == front;
    }
  }

  /** While there is room for every key presented, an insertion folds nothing away. */
  lemma RoomForOne(l: Ledger, presented: set<Observation>, o: Observation, digest: Observation -> u64)
    requires Canonical(l.entries, presented, digest) && |Keys(presented + {o})| <= l.capacity
    ensures Absorbed(l, o, digest) == []
  {
    hide LowerBound, Keys, Place, Covered, InFoldedRegion, Belongs, WindowContains, KeyLess, StrictlySorted;
    PlaceCanonical(l.entries, presented, o, digest);
    PlaceElements(l.entries, o, digest);
    SortedFitsKeys(Place(l.entries, o, digest), presented + {o});
  }

  lemma {:induction false} WithinCapacityNothingLate(l: Ledger, batch: seq<Observation>, digest: Observation -> u64)
    requires Inv(l, EMPTY_PREFIX, []) && l.entries == []
    requires (forall o :: o in batch ==> Belongs(l, o)) && |Keys(Elements(batch))| <= l.capacity
    ensures NothingLate(l, batch, digest) && RunFolded(l, batch, digest) == []
  {
    hide Inv, Inserted, Keys, PlaceAll, Canonical, Belongs, Absorbed, NothingLate, InFoldedRegion;
    if batch == [] {
      NothingLateEmpty(l, digest);
    } else {
      var front, o := batch[..|batch| - 1], batch[|batch| - 1];
      assert batch == front + [o];
      assert Elements(batch) == Elements(front) + {o};
      KeysMonotone(Elements(front), Elements(batch));
      WithinCapacityNothingLate(l, front, digest);
      RunPlacesAll(l, front, digest);
      var before := Run(l, front, digest);
      RunKeepsIdentity(l, front, digest);
      NothingFoldedNoFence(before);
      NothingLateAppend(l, front, o, digest);
      PlaceAllCanonical(front, digest);
      assert History(before, []) == before.entries;
      RoomForOne(before, Elements(front), o, digest);
    }
  }

  lemma NothingLateEmpty(l: Ledger, digest: Observation -> u64)
    ensures NothingLate(l, [], digest)
  {
  }

  lemma NothingFoldedNoFence(l: Ledger)
    requires Inv(l, EMPTY_PREFIX, [])
    ensures forall k :: !InFoldedRegion(l.prefix, k)
    ensures l.prefix == EMPTY_PREFIX
  {
  }

  /**
   * Within capacity the retained entries themselves are the same for every order and repetition, and a key
   * presented with conflicting content settles on its smallest digest.
   */
  lemma WithinCapacityIdentical(a: Ledger, first: seq<Observation>, second: seq<Observation>, digest: Observation -> u64)
    requires Inv(a, EMPTY_PREFIX, []) && a.entries == []
    requires Elements(first) == Elements(second) && Separates(digest, Elements(first))
    requires (forall o :: o in first ==> Belongs(a, o)) && |Keys(Elements(first))| <= a.capacity
    ensures Run(a, first, digest).entries == Run(a, second, digest).entries
    ensures Canonical(Run(a, first, digest).entries, Elements(first), digest)
    ensures FoldedEvidence(Run(a, first, digest), a.policy) == FoldedEvidence(Run(a, second, digest), a.policy)
  {
    hide Inv, NothingLate, Canonical, FoldedEvidence, Run, Keys, PlaceAll, Separates, Belongs, RunFolded;
    forall o | o in second ensures Belongs(a, o) {
      assert o in Elements(first);
    }
    WithinCapacityNothingLate(a, first, digest);
    WithinCapacityNothingLate(a, second, digest);
    RunPlacesAll(a, first, digest);
    PlaceAllCanonical(first, digest);
    ArrivalOrderIndependent(a, a, first, second, digest);
    assert History(Run(a, first, digest), []) == Run(a, first, digest).entries;
    assert History(Run(a, second, digest), []) == Run(a, second, digest).entries;
    RunKeepsIdentity(a, first, digest);
    RunKeepsIdentity(a, second, digest);
  }
}
