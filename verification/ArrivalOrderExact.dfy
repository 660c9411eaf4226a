/** Exactly when the order in which evidence arrives does not matter. */
module ArrivalOrderExact {
  import opened Checked
  import opened Evidence
  import opened Ledger
  import opened LedgerRefinement
  import opened ArrivalOrder

  // ---- one run ---------------------------------------------------------------------------------

  /** Whatever the fence refuses was already folded, under its key, with no larger digest. */
  ghost predicate RefusalsCovered(l: Ledger, batch: seq<Observation>, digest: Observation -> u64) {
    forall i :: 0 <= i < |batch| && InFoldedRegion(Run(l, batch[..i], digest).prefix, batch[i].key) ==>
      Covered(RunFolded(l, batch[..i], digest), batch[i], digest)
  }

  lemma RefusalsFront(l: Ledger, front: seq<Observation>, o: Observation, digest: Observation -> u64)
    ensures RefusalsCovered(l, front + [o], digest) <==>
      && RefusalsCovered(l, front, digest)
      && (InFoldedRegion(Run(l, front, digest).prefix, o.key) ==> Covered(RunFolded(l, front, digest), o, digest))
  {
    hide Run, RunFolded, InFoldedRegion, Covered;
    var batch := front + [o];
    assert batch[..|front|] == front && batch[|front|] == o;
    forall i | 0 <= i < |front| ensures batch[..i] == front[..i] && batch[i] == front[i] {
    }
  }

  /** Under a fenced key the history holds only what was folded. */
  lemma FencedIsFolded(l: Ledger, folded: seq<Observation>, x: Observation)
    requires Inv(l, EMPTY_PREFIX, folded) && x in History(l, folded) && InFoldedRegion(l.prefix, x.key)
    ensures x in folded
  {
    FenceIsLastFolded(l, folded, x.key);
    hide AbsorbAll, Wrap32, Wrap64, KeyLess, InFoldedRegion;
    var i :| 0 <= i < |folded + l.entries| && (folded + l.entries)[i] == x;
    assert (folded + l.entries)[|folded| - 1] == folded[|folded| - 1];
  }

  lemma FencedAlike(l: Ledger, a: Key, b: Key)
    requires SameKey(a, b)
    ensures InFoldedRegion(l.prefix, a) <==> InFoldedRegion(l.prefix, b)
  {
    KeyOrder(a, b, MarkKey(l.prefix.mark));
  }

  /** The fence never retreats during a run. */
  lemma FenceRises(l: Ledger, folded: seq<Observation>, l': Ledger, folded': seq<Observation>, k: Key)
    requires Inv(l, EMPTY_PREFIX, folded) && Inv(l', EMPTY_PREFIX, folded')
    requires folded <= folded' && InFoldedRegion(l.prefix, k)
    ensures InFoldedRegion(l'.prefix, k)
  {
    FenceIsLastFolded(l, folded, k);
    FenceIsLastFolded(l', folded', k);
    hide AbsorbAll, Wrap32, Wrap64, InFoldedRegion;
    var a, b := folded[|folded| - 1], folded'[|folded'| - 1];
    assert (folded' + l'.entries)[|folded| - 1] == a && (folded' + l'.entries)[|folded'| - 1] == b;
    KeyOrder(a.key, b.key, k);
  }

  /** Evidence that is covered leaves the canonical history alone. */
  lemma PlaceCovered(h: seq<Observation>, o: Observation, digest: Observation -> u64)
    requires StrictlySorted(h) && Covered(h, o, digest)
    ensures Place(h, o, digest) == h
  {
    var x := Cover(h, o, digest);
    var i :| 0 <= i < |h| && h[i] == x;
    forall j | 0 <= j < i ensures KeyLess(h[j].key, o.key) {
      KeyOrder(h[j].key, x.key, o.key);
      KeyOrder(o.key, x.key, h[j].key);
      KeyOrder(x.key, o.key, h[j].key);
    }
    KeyOrder(x.key, o.key, x.key);
    LowerBoundUnique(h, o.key, i);
  }

  /** Evidence that is not covered by a history is placed in it. */
  lemma PlaceUncovered(h: seq<Observation>, o: Observation, digest: Observation -> u64)
    requires !Covered(h, o, digest)
    ensures o in Place(h, o, digest)
  {
    var i := LowerBound(h, o.key);
    if Holds(h, o.key) {
      assert h[i] in h;
      assert Place(h, o, digest)[i] == o;
    } else {
      assert Place(h, o, digest)[i] == o;
    }
  }

  /** Something refused for good is missing: the ledger's history can no longer become the canonical one. */
  ghost predicate Missing(l: Ledger, folded: seq<Observation>, p: seq<Observation>, digest: Observation -> u64) {
    exists z :: z in p && InFoldedRegion(l.prefix, z.key) && !Covered(History(l, folded), z, digest)
  }

  lemma MissingDiffers(l: Ledger, folded: seq<Observation>, p: seq<Observation>, digest: Observation -> u64)
    requires Missing(l, folded, p, digest)
    ensures History(l, folded) != p
  {
    hide InFoldedRegion;
    var z :| z in p && InFoldedRegion(l.prefix, z.key) && !Covered(History(l, folded), z, digest);
    assert z in p && SameKey(z.key, z.key);
  }

  /** An uncovered refusal makes something missing. */
  lemma RefusalMisses(l: Ledger, folded: seq<Observation>, o: Observation, digest: Observation -> u64)
    requires Inv(l, EMPTY_PREFIX, folded) && InFoldedRegion(l.prefix, o.key) && !Covered(folded, o, digest)
    ensures Missing(l, folded, Place(History(l, folded), o, digest), digest)
  {
    hide Inv, InFoldedRegion;
    var h := History(l, folded);
    if Covered(h, o, digest) {
      var x := Cover(h, o, digest);
      FencedAlike(l, x.key, o.key);
      FencedIsFolded(l, folded, x);
    }
    PlaceUncovered(h, o, digest);
    hide History, Covered, Place;
  }

  lemma CoveredDown(h: seq<Observation>, o: Observation, z: Observation, digest: Observation -> u64)
    requires Covered(h, o, digest) && SameKey(o.key, z.key) && digest(o) <= digest(z)
    ensures Covered(h, z, digest)
  {
    var x := Cover(h, o, digest);
  }

  /** What is missing stays missing. */
  lemma MissingStays(l: Ledger, folded: seq<Observation>, p: seq<Observation>, o: Observation, digest: Observation -> u64)
    requires Inv(l, EMPTY_PREFIX, folded) && Missing(l, folded, p, digest) && Belongs(l, o)
    requires |folded| + |Absorbed(l, o, digest)| <= U32_MAX
    ensures Missing(Inserted(l, o, digest), folded + Absorbed(l, o, digest), Place(p, o, digest), digest)
  {
    InsertRefinesPlace(l, EMPTY_PREFIX, folded, o, digest);
    hide Inv, InFoldedRegion, Covered, Place, Inserted, Absorbed, History, Belongs;
    var z :| z in p && InFoldedRegion(l.prefix, z.key) && !Covered(History(l, folded), z, digest);
    var l', folded' := Inserted(l, o, digest), folded + Absorbed(l, o, digest);
    FenceRises(l, folded, l', folded', z.key);
    PlaceKeepsOthers(p, o, digest, z);
    if SameKey(z.key, o.key) {
      FencedAlike(l, z.key, o.key);
      FencedAlike(l', z.key, o.key);
      assert History(l', folded') == History(l, folded);
      if digest(o) < digest(z) && Covered(History(l, folded), o, digest) {
        CoveredDown(History(l, folded), o, z, digest);
      }
    } else if !InFoldedRegion(l.prefix, o.key) {
      OtherKeyCoversNot(History(l, folded), o, z, digest);
    }
  }

  lemma OtherKeyCoversNot(h: seq<Observation>, o: Observation, z: Observation, digest: Observation -> u64)
    requires !SameKey(z.key, o.key) && !Covered(h, z, digest)
    ensures !Covered(Place(h, o, digest), z, digest)
  {
    hide Place;
    if Covered(Place(h, o, digest), z, digest) {
      var x := Cover(Place(h, o, digest), z, digest);
      PlaceElements(h, o, digest);
    }
  }

  /** A run is canonical so far, or something is missing from it for good. */
  lemma {:induction false} CanonicalOrMissing(l: Ledger, batch: seq<Observation>, digest: Observation -> u64)
    requires Inv(l, EMPTY_PREFIX, []) && l.entries == [] && (forall o :: o in batch ==> Belongs(l, o))
    requires |RunFolded(l, batch, digest)| <= U32_MAX
    ensures var m, f, p := Run(l, batch, digest), RunFolded(l, batch, digest), PlaceAll([], batch, digest);
            && Inv(m, EMPTY_PREFIX, f)
            && (RefusalsCovered(l, batch, digest) ==> History(m, f) == p)
            && (!RefusalsCovered(l, batch, digest) ==> Missing(m, f, p, digest))
  {
    hide Inserted, Absorbed, Place, InFoldedRegion, RefusalsCovered, Missing, Covered, Inv, Belongs;
    if batch == [] {
      NothingRefused(l, digest);
    } else {
      var front, o := batch[..|batch| - 1], batch[|batch| - 1];
      assert batch == front + [o];
      CanonicalOrMissing(l, front, digest);
      RefusalsFront(l, front, o, digest);
      RunKeepsIdentity(l, front, digest);
      var before, f := Run(l, front, digest), RunFolded(l, front, digest);
      BelongsAlike(l, before, o);
      InsertRefinesPlace(before, EMPTY_PREFIX, f, o, digest);
      var refused := InFoldedRegion(before.prefix, o.key);
      if !RefusalsCovered(l, front, digest) {
        MissingStays(before, f, PlaceAll([], front, digest), o, digest);
      } else if refused && Covered(f, o, digest) {
        CoveredByFolded(before, f, o, digest);
        HistorySorted(before, EMPTY_PREFIX, f);
        PlaceCovered(History(before, f), o, digest);
      } else if refused {
        RefusalMisses(before, f, o, digest);
        RefusedKeepsMissing(before, f, o, digest);
      }
    }
  }

  lemma NothingRefused(l: Ledger, digest: Observation -> u64)
    ensures RefusalsCovered(l, [], digest)
  {
  }

  lemma CoveredByFolded(l: Ledger, folded: seq<Observation>, o: Observation, digest: Observation -> u64)
    requires Covered(folded, o, digest)
    ensures Covered(History(l, folded), o, digest)
  {
    var x := Cover(folded, o, digest);
    assert x in History(l, folded);
  }

  /** A refusal changes neither the history nor the fence. */
  lemma RefusedKeepsMissing(l: Ledger, folded: seq<Observation>, o: Observation, digest: Observation -> u64)
    requires InFoldedRegion(l.prefix, o.key) && Missing(l, folded, Place(History(l, folded), o, digest), digest)
    ensures Missing(Inserted(l, o, digest), folded + Absorbed(l, o, digest), Place(History(l, folded), o, digest), digest)
  {
    hide Place, Covered, KeyLess, WindowContains;
    assert Absorbed(l, o, digest) == [];
    assert folded + [] == folded;
    assert Inserted(l, o, digest).prefix == l.prefix && Inserted(l, o, digest).entries == l.entries;
  }

  /**
   * A run ends in the canonical history of everything it was shown exactly when each observation the fence
   * refused was, at that moment, covered by what had been folded.
   */
  lemma CanonicalIffRefusalsCovered(l: Ledger, batch: seq<Observation>, digest: Observation -> u64)
    requires Inv(l, EMPTY_PREFIX, []) && l.entries == [] && (forall o :: o in batch ==> Belongs(l, o))
    requires |RunFolded(l, batch, digest)| <= U32_MAX
    ensures History(Run(l, batch, digest), RunFolded(l, batch, digest)) == PlaceAll([], batch, digest)
       <==> RefusalsCovered(l, batch, digest)
  {
    CanonicalOrMissing(l, batch, digest);
    hide RefusalsCovered, Missing, Run, RunFolded, PlaceAll, Inv;
    if !RefusalsCovered(l, batch, digest) {
      MissingDiffers(Run(l, batch, digest), RunFolded(l, batch, digest), PlaceAll([], batch, digest), digest);
    }
  }

  // ---- every run over a set of evidence ----------------------------------------------------

  /** No two observations of the set contradict each other. */
  ghost predicate OnePerKey(presented: set<Observation>) {
    forall a, b :: a in presented && b in presented && SameKey(a.key, b.key) ==> a == b
  }

  /** A sorted history as long as the set has keys holds the whole set. */
  lemma FullHistoryHolds(h: seq<Observation>, presented: set<Observation>, o: Observation)
    requires StrictlySorted(h) && (forall x :: x in h ==> x in presented) && OnePerKey(presented)
    requires |Keys(presented)| <= |h| && o in presented
    ensures o in h
  {
    var keys := set i | 0 <= i < |h| :: h[i].key.(source := 0);
    SortedKeyCount(h);
    assert keys <= Keys(presented) by {
      forall k | k in keys ensures k in Keys(presented) {
        var i :| 0 <= i < |h| && k == h[i].key.(source := 0);
        assert h[i] in presented;
      }
    }
    assert |Keys(presented)| == |keys| + |Keys(presented) - keys| by {
      assert Keys(presented) == keys + (Keys(presented) - keys);
    }
    assert o.key.(source := 0) in keys by { assert o.key.(source := 0) in Keys(presented); }
    var i :| 0 <= i < |h| && o.key.(source := 0) == h[i].key.(source := 0);
    assert h[i] in h && SameKey(h[i].key, o.key);
  }

  /** Evidence the history holds is never folded a second time. */
  lemma HeldFoldsNothing(l: Ledger, folded: seq<Observation>, o: Observation, digest: Observation -> u64)
    requires Inv(l, EMPTY_PREFIX, folded) && o in History(l, folded)
    ensures Absorbed(l, o, digest) == []
    ensures InFoldedRegion(l.prefix, o.key) ==> o in folded
  {
    hide AbsorbAll, Wrap32, Wrap64, KeyLess, InFoldedRegion, Place, LowerBound, WindowContains;
    if InFoldedRegion(l.prefix, o.key) {
      FencedIsFolded(l, folded, o);
    } else {
      if o in folded {
        FoldedIsFenced(l, EMPTY_PREFIX, folded, o, digest);
      }
      EntryIsHeld(l.entries, folded, o);
    }
  }

  lemma EntryIsHeld(entries: seq<Observation>, folded: seq<Observation>, o: Observation)
    requires StrictlySorted(folded + entries) && o in entries
    ensures Holds(entries, o.key)
  {
    var n :| 0 <= n < |entries| && entries[n] == o;
    forall j | 0 <= j < n ensures KeyLess(entries[j].key, o.key) {
      assert (folded + entries)[|folded| + j] == entries[j] && (folded + entries)[|folded| + n] == o;
    }
    KeyOrder(o.key, o.key, o.key);
    LowerBoundUnique(entries, o.key, n);
  }

  /** One insertion into a ledger that has folded nothing folds at most the one entry in excess. */
  lemma FirstFolding(l: Ledger, o: Observation, digest: Observation -> u64)
    requires Inv(l, EMPTY_PREFIX, [])
    ensures |Absorbed(l, o, digest)| <= 1
    ensures Absorbed(l, o, digest) != [] ==> |Inserted(l, o, digest).entries| == l.capacity
  {
    hide AbsorbAll, KeyLess, LowerBound, InFoldedRegion, WindowContains, Belongs;
  }

  /** The state of a run that has one key more than its ledger has room for, at most. */
  ghost predicate NearlyWithin(l: Ledger, batch: seq<Observation>, digest: Observation -> u64) {
    && NothingLate(l, batch, digest)
    && |RunFolded(l, batch, digest)| <= 1
    && (RunFolded(l, batch, digest) != [] ==> |Run(l, batch, digest).entries| == l.capacity)
  }

  /** With one key to spare nothing is refused that was not already folded. */
  lemma {:induction false} OneKeyToSpare(l: Ledger, batch: seq<Observation>, presented: set<Observation>, digest: Observation -> u64)
    requires Inv(l, EMPTY_PREFIX, []) && l.entries == [] && OnePerKey(presented)
    requires (forall o :: o in batch ==> o in presented && Belongs(l, o)) && |Keys(presented)| <= l.capacity + 1
    ensures NearlyWithin(l, batch, digest)
  {
    hide Inv, Inserted, Absorbed, Keys, PlaceAll, Canonical, Belongs, NothingLate, InFoldedRegion, OnePerKey;
    if batch == [] {
      NothingLateEmpty(l, digest);
    } else {
      var front, o := batch[..|batch| - 1], batch[|batch| - 1];
      assert batch == front + [o];
      OneKeyToSpare(l, front, presented, digest);
      RunPlacesAll(l, front, digest);
      RunKeepsIdentity(l, front, digest);
      PlaceAllCanonical(front, digest);
      var before, f := Run(l, front, digest), RunFolded(l, front, digest);
      if f == [] {
        NothingFoldedNoFence(before);
        FirstFolding(before, o, digest);
        NothingLateAppend(l, front, o, digest);
      } else {
        CanonicalWithinSet(History(before, f), front, presented, digest);
        FullHistoryHolds(History(before, f), presented, o);
        HeldFoldsNothing(before, f, o, digest);
        NothingLateAppend(l, front, o, digest);
        NothingFoldedKeepsEntries(before, o, digest);
      }
    }
  }

  lemma CanonicalWithinSet(h: seq<Observation>, batch: seq<Observation>, presented: set<Observation>, digest: Observation -> u64)
    requires Canonical(h, Elements(batch), digest) && (forall o :: o in batch ==> o in presented)
    ensures StrictlySorted(h) && forall x :: x in h ==> x in presented
  {
    hide StrictlySorted, Covered;
  }

  lemma NothingFoldedKeepsEntries(l: Ledger, o: Observation, digest: Observation -> u64)
    requires |l.entries| == l.capacity && Absorbed(l, o, digest) == []
    ensures |Inserted(l, o, digest).entries| == l.capacity
  {
    hide AbsorbAll, KeyLess, LowerBound, InFoldedRegion, WindowContains, Belongs;
  }

  // ---- beyond that, the lowest key comes last ------------------------------------------------

  lemma {:induction false} KeysAtMostLength(batch: seq<Observation>)
    ensures |Keys(Elements(batch))| <= |batch|
  {
    if batch == [] {
      assert Keys(Elements(batch)) == {};
    } else {
      var front, o := batch[..|batch| - 1], batch[|batch| - 1];
      KeysAtMostLength(front);
      assert batch == front + [o];
      assert Elements(batch) == Elements(front) + {o};
      assert Keys(Elements(batch)) == Keys(Elements(front)) + {o.key.(source := 0)};
    }
  }

  /** An insertion brings nothing into the history but what is inserted. */
  lemma InsertedElements(l: Ledger, folded: seq<Observation>, o: Observation, x: Observation, digest: Observation -> u64)
    requires x in History(Inserted(l, o, digest), folded + Absorbed(l, o, digest))
    ensures x in History(l, folded) || x == o
  {
    PlaceElements(l.entries, o, digest);
    hide AbsorbAll, KeyLess, LowerBound, InFoldedRegion, WindowContains, Belongs, Place, Holds;
    var outcome := InsertOutcome(l, o, digest);
    if outcome.Accepted? {
      var placed := Place(l.entries, o, digest);
      var n := |Absorbed(l, o, digest)|;
      assert n == 0 || |placed| - l.capacity == n;
      assert placed == placed[..n] + placed[n..];
    }
  }

  /** What a run has refused stays out unless it is presented again. */
  lemma {:induction false} StaysOut(l: Ledger, batch: seq<Observation>, rest: seq<Observation>, z: Observation, digest: Observation -> u64)
    requires z !in History(Run(l, batch, digest), RunFolded(l, batch, digest)) && z !in rest
    ensures z !in History(Run(l, batch + rest, digest), RunFolded(l, batch + rest, digest))
  {
    hide Inserted, Absorbed;
    if rest == [] {
      assert batch + rest == batch;
    } else {
      var front, o := rest[..|rest| - 1], rest[|rest| - 1];
      StaysOut(l, batch, front, z, digest);
      var all := batch + rest;
      assert all[..|all| - 1] == batch + front && all[|all| - 1] == o;
      var before, f := Run(l, batch + front, digest), RunFolded(l, batch + front, digest);
      if z in History(Inserted(before, o, digest), f + Absorbed(before, o, digest)) {
        InsertedElements(before, f, o, z, digest);
      }
    }
  }

  /** Evidence, lowest key last among the first capacity + 2. */
  function LowestLate(h: seq<Observation>, capacity: nat): seq<Observation>
    requires capacity + 2 <= |h|
  {
    h[1..capacity + 2] + [h[0]] + h[capacity + 2..]
  }

  lemma LowestLateElements(h: seq<Observation>, capacity: nat)
    requires capacity + 2 <= |h|
    ensures Elements(LowestLate(h, capacity)) == Elements(h)
  {
    var b := LowestLate(h, capacity);
    forall o | o in h ensures o in b {
      var i :| 0 <= i < |h| && h[i] == o;
      assert b[if i == 0 then capacity + 1 else if i < capacity + 2 then i - 1 else i] == o;
    }
  }

  /** Presented late, the lowest key is refused and its evidence never enters the history. */
  lemma LowestIsLost(l: Ledger, h: seq<Observation>, digest: Observation -> u64)
    requires Inv(l, EMPTY_PREFIX, []) && l.entries == []
    requires StrictlySorted(h) && l.capacity + 2 <= |h| && (forall o :: o in h ==> Belongs(l, o))
    ensures var b := LowestLate(h, l.capacity);
            h[0] !in History(Run(l, b, digest), RunFolded(l, b, digest))
  {
    var n := l.capacity + 2;
    var first, rest, z := h[1..n], h[n..], h[0];
    SortedSlice(h, 1, n);
    NotAmong(h, z);
    assert z !in first && z !in rest by {
      assert h[1..] == first + rest;
    }
    assert KeyLess(z.key, first[0].key) && |first| == l.capacity + 1;
    assert forall o :: o in first ==> Belongs(l, o) by {
      assert forall o :: o in first ==> o in h;
    }
    assert first + [z] + rest == LowestLate(h, l.capacity);
    hide Inv, Belongs, StrictlySorted, KeyLess, Run, RunFolded, LowestLate, History;
    LowestRefused(l, first, z, digest);
    StaysOut(l, first + [z], rest, z, digest);
  }

  lemma LowestRefused(l: Ledger, first: seq<Observation>, z: Observation, digest: Observation -> u64)
    requires Inv(l, EMPTY_PREFIX, []) && l.entries == []
    requires StrictlySorted(first) && |first| == l.capacity + 1 && (forall o :: o in first ==> Belongs(l, o))
    requires KeyLess(z.key, first[0].key) && z !in first
    ensures z !in History(Run(l, first + [z], digest), RunFolded(l, first + [z], digest))
  {
    InOrderRun(l, first, digest);
    var m, f := Run(l, first, digest), RunFolded(l, first, digest);
    assert f + m.entries == first;
    RunOnce(l, first, z, digest);
    hide Inv, Belongs, StrictlySorted, KeyLess, Run, RunFolded, InFoldedRegion, Inserted, Absorbed;
    FenceIsLastFolded(m, f, z.key);
    KeyOrder(z.key, first[0].key, z.key);
    LateAddsNothing(m, f, z, digest);
  }

  lemma NotAmong(h: seq<Observation>, z: Observation)
    requires StrictlySorted(h) && h != [] && z == h[0]
    ensures z !in h[1..]
  {
    KeyOrder(z.key, z.key, z.key);
    forall i | 1 <= i < |h| ensures h[i] != z {
      assert KeyLess(h[0].key, h[i].key);
    }
  }

  lemma LateAddsNothing(l: Ledger, folded: seq<Observation>, o: Observation, digest: Observation -> u64)
    requires InFoldedRegion(l.prefix, o.key)
    ensures History(Inserted(l, o, digest), folded + Absorbed(l, o, digest)) == History(l, folded)
  {
    hide KeyLess, WindowContains, InFoldedRegion;
    assert folded + [] == folded;
  }

  /** A set in some order. */
  ghost function InSomeOrder(presented: set<Observation>): (batch: seq<Observation>)
    ensures Elements(batch) == presented
  {
    if presented == {} then []
    else
      var o :| o in presented;
      var rest := InSomeOrder(presented - {o});
      assert forall x :: x in [o] + rest <==> x == o || x in Elements(rest);
      [o] + rest
  }

  /** The order in which a set of evidence is lost in part, when it has too many keys. */
  lemma SomeOrderLoses(l: Ledger, presented: set<Observation>, digest: Observation -> u64) returns (batch: seq<Observation>)
    requires Inv(l, EMPTY_PREFIX, []) && l.entries == [] && OnePerKey(presented)
    requires (forall o :: o in presented ==> Belongs(l, o)) && |Keys(presented)| > l.capacity + 1
    ensures Elements(batch) == presented
    ensures !Canonical(History(Run(l, batch, digest), RunFolded(l, batch, digest)), presented, digest)
  {
    var h := PlaceAll([], InSomeOrder(presented), digest);
    PlaceAllCanonical(InSomeOrder(presented), digest);
    hide Inv, Belongs, StrictlySorted, KeyLess, Run, RunFolded, PlaceAll, InSomeOrder;
    CanonicalIsWhole(h, presented, digest);
    KeysAtMostLength(h);
    batch := LowestLate(h, l.capacity);
    LowestLateElements(h, l.capacity);
    LowestIsLost(l, h, digest);
    var kept := History(Run(l, batch, digest), RunFolded(l, batch, digest));
    if Canonical(kept, presented, digest) {
      assert h[0] in presented;
      var x := Cover(kept, h[0], digest);
    }
  }

  lemma CanonicalIsWhole(h: seq<Observation>, presented: set<Observation>, digest: Observation -> u64)
    requires Canonical(h, presented, digest) && OnePerKey(presented)
    ensures Elements(h) == presented
  {
    forall o | o in presented ensures o in h {
      var x := Cover(h, o, digest);
    }
  }

  /**
   * A fresh ledger keeps the canonical history of a set of evidence, whatever the order and the repetition
   * it is presented in, exactly when the set has at most one key more than the ledger has room for.
   */
  lemma EveryOrderCanonicalIff(l: Ledger, presented: set<Observation>, digest: Observation -> u64)
    requires Inv(l, EMPTY_PREFIX, []) && l.entries == [] && OnePerKey(presented)
    requires forall o :: o in presented ==> Belongs(l, o)
    ensures (forall batch | Elements(batch) == presented ::
               Canonical(History(Run(l, batch, digest), RunFolded(l, batch, digest)), presented, digest))
       <==> |Keys(presented)| <= l.capacity + 1
  {
    hide Inv, Belongs, Canonical, Run, RunFolded, OnePerKey, Keys;
    if |Keys(presented)| <= l.capacity + 1 {
      forall batch | Elements(batch) == presented
        ensures Canonical(History(Run(l, batch, digest), RunFolded(l, batch, digest)), presented, digest)
      {
        assert forall o :: o in batch ==> o in Elements(batch);
        OneKeyToSpare(l, batch, presented, digest);
        RunPlacesAll(l, batch, digest);
        PlaceAllCanonical(batch, digest);
      }
    } else {
      var batch := SomeOrderLoses(l, presented, digest);
    }
  }
}
