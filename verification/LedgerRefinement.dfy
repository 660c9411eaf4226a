/** The bounded ledger is the full fold of everything it accepted, at every capacity. */
module LedgerRefinement {
  import opened Checked
  import opened Evidence
  import opened Fold
  import opened Ledger

  // ---- canonical order ---------------------------------------------------------

  lemma KeyOrder(a: Key, b: Key, c: Key)
    ensures !KeyLess(a, a)
    ensures KeyLess(a, b) && KeyLess(b, c) ==> KeyLess(a, c)
    ensures KeyLess(a, b) || KeyLess(b, a) || SameKey(a, b)
    ensures SameKey(a, b) ==> (KeyLess(a, c) <==> KeyLess(b, c)) && (KeyLess(c, a) <==> KeyLess(c, b))
    ensures !(KeyLess(a, b) && SameKey(a, b))
  {
  }

  lemma SortedSlice(obs: seq<Observation>, i: nat, j: nat)
    requires StrictlySorted(obs) && i <= j <= |obs|
    ensures StrictlySorted(obs[i..j])
  {
  }

  lemma PlaceSorted(h: seq<Observation>, o: Observation, digest: Observation -> u64)
    requires StrictlySorted(h)
    ensures StrictlySorted(Place(h, o, digest))
  {
    var i := LowerBound(h, o.key);
    var placed := Place(h, o, digest);
    if Holds(h, o.key) {
      forall a, b | 0 <= a < b < |placed| ensures KeyLess(placed[a].key, placed[b].key) {
        KeyOrder(h[i].key, o.key, if a == i then h[b].key else h[a].key);
      }
    } else {
      forall a, b | 0 <= a < b < |placed| ensures KeyLess(placed[a].key, placed[b].key) {
        if i < |h| {
          KeyOrder(h[i].key, o.key, h[i].key);
          if a == i && b > i + 1 {
            KeyOrder(o.key, h[i].key, h[b - 1].key);
          }
        }
      }
    }
  }

  lemma LowerBoundUnique(h: seq<Observation>, k: Key, i: nat)
    requires i <= |h| && (forall j :: 0 <= j < i ==> KeyLess(h[j].key, k))
    requires i < |h| ==> !KeyLess(h[i].key, k)
    ensures LowerBound(h, k) == i
  {
  }

  /** Below the lower bound nothing changes, so placing above a prefix leaves the prefix alone. */
  lemma PlaceAfterPrefix(a: seq<Observation>, b: seq<Observation>, o: Observation, digest: Observation -> u64)
    requires forall x :: x in a ==> KeyLess(x.key, o.key)
    ensures Place(a + b, o, digest) == a + Place(b, o, digest)
  {
    var i := |a| + LowerBound(b, o.key);
    forall x | 0 <= x < i ensures KeyLess((a + b)[x].key, o.key) {
      if x < |a| {
        assert (a + b)[x] in a;
      } else {
        assert (a + b)[x] == b[x - |a|];
      }
    }
    LowerBoundUnique(a + b, o.key, i);
  }

  /** Exact copies of retained evidence change nothing. */
  lemma PlaceExisting(h: seq<Observation>, o: Observation, digest: Observation -> u64)
    requires StrictlySorted(h) && o in h
    ensures Place(h, o, digest) == h
  {
    var n :| 0 <= n < |h| && h[n] == o;
    KeyOrder(o.key, o.key, o.key);
    LowerBoundUnique(h, o.key, n);
  }

  // ---- the invariant of a ledger over its whole life -----------------------------

  /** Everything accepted so far, in canonical order. */
  function History(l: Ledger, folded: seq<Observation>): seq<Observation> {
    folded + l.entries
  }

  /**
   * `folded` is what has been compacted since the ledger started from `base`. The count of folded
   * observations is a 32-bit counter; the invariant covers every ledger on which it has not wrapped.
   */
  ghost predicate Inv(l: Ledger, base: Prefix, folded: seq<Observation>) {
    && 1 <= l.capacity && |l.entries| <= l.capacity
    && l.prefix == AbsorbAll(base, folded, l.policy)
    && StrictlySorted(folded + l.entries)
    && (base.foldedObservations > 0 ==> forall o :: o in folded + l.entries ==> KeyLess(MarkKey(base.mark), o.key))
    && (forall o :: o in folded + l.entries ==> Belongs(l, o))
    && base.foldedObservations + |folded| <= U32_MAX
    && l.totalAccepted == Wrap64(base.foldedObservations + |folded| + |l.entries|)
  }

  lemma {:induction false} AbsorbAllFacts(base: Prefix, folded: seq<Observation>, policy: CounterPolicy)
    ensures var p := AbsorbAll(base, folded, policy);
            && p.state == FoldAll(base.state, folded, policy)
            && p.foldedObservations == Wrap32(base.foldedObservations + |folded|)
            && (base.foldedObservations + |folded| <= U32_MAX ==> p.foldedObservations == base.foldedObservations + |folded|)
            && (folded != [] ==> SameKey(MarkKey(p.mark), folded[|folded| - 1].key))
  {
    hide Step, FoldMark;
    if folded != [] {
      AbsorbAllFacts(base, folded[..|folded| - 1], policy);
      WrapNext(base.foldedObservations + |folded| - 1);
      FoldMarkIgnoresTail(AbsorbAll(base, folded[..|folded| - 1], policy).mark, folded[|folded| - 1].key, 0, 0);
    }
  }

  lemma {:induction false} AbsorbAllConcat(p: Prefix, a: seq<Observation>, b: seq<Observation>, policy: CounterPolicy)
    ensures AbsorbAll(p, a + b, policy) == AbsorbAll(AbsorbAll(p, a, policy), b, policy)
  {
    hide Absorb;
    if b == [] {
      assert a + b == a;
    } else {
      AbsorbAllConcat(p, a, b[..|b| - 1], policy);
      assert (a + b)[..|a + b| - 1] == a + b[..|b| - 1];
    }
  }

  /** Evidence the fence lets through lies strictly above everything folded. */
  lemma AboveTheFold(l: Ledger, base: Prefix, folded: seq<Observation>, k: Key)
    requires Inv(l, base, folded) && !InFoldedRegion(l.prefix, k)
    ensures forall x :: x in folded ==> KeyLess(x.key, k)
    ensures base.foldedObservations > 0 ==> KeyLess(MarkKey(base.mark), k)
  {
    hide AbsorbAll, Wrap32, Wrap64;
    AbsorbAllFacts(base, folded, l.policy);
    if folded != [] {
      var last := folded[|folded| - 1];
      KeyOrder(MarkKey(l.prefix.mark), last.key, k);
      forall x | x in folded ensures KeyLess(x.key, k) {
        var i :| 0 <= i < |folded| && folded[i] == x;
        assert (folded + l.entries)[i] == x && (folded + l.entries)[|folded| - 1] == last;
        KeyOrder(x.key, last.key, k);
      }
      assert last in folded + l.entries;
      KeyOrder(MarkKey(base.mark), last.key, k);
    } else {
      assert l.prefix == base by { assert AbsorbAll(base, [], l.policy) == base by { AbsorbNothing(base, l.policy); } }
    }
  }

  lemma AbsorbNothing(base: Prefix, policy: CounterPolicy)
    ensures AbsorbAll(base, [], policy) == base
  {
  }

  /** Everything folded is fenced: it can never be applied a second time. */
  lemma FoldedIsFenced(l: Ledger, base: Prefix, folded: seq<Observation>, o: Observation, digest: Observation -> u64)
    requires Inv(l, base, folded) && o in folded
    ensures InFoldedRegion(l.prefix, o.key)
    ensures InsertOutcome(l, o, digest) == Duplicate || InsertOutcome(l, o, digest) == Late
  {
    hide AbsorbAll, Wrap32, Wrap64;
    AbsorbAllFacts(base, folded, l.policy);
    assert o in folded + l.entries;
    var i :| 0 <= i < |folded| && folded[i] == o;
    var last := folded[|folded| - 1];
    assert (folded + l.entries)[i] == o && (folded + l.entries)[|folded| - 1] == last;
    KeyOrder(o.key, last.key, o.key);
    KeyOrder(last.key, MarkKey(l.prefix.mark), o.key);
  }

  lemma CompactKeepsHistory(l: Ledger, base: Prefix, folded: seq<Observation>)
    requires 1 <= l.capacity && |l.entries| <= l.capacity + 1
    requires l.prefix == AbsorbAll(base, folded, l.policy)
    ensures var excess := if |l.entries| > l.capacity then |l.entries| - l.capacity else 0;
            var folded' := folded + l.entries[..excess];
            var m := Compact(l);
            && m.prefix == AbsorbAll(base, folded', l.policy) && |m.entries| <= l.capacity
            && History(m, folded') == History(l, folded)
            && m == l.(prefix := m.prefix, entries := m.entries)
  {
    hide AbsorbAll;
    if |l.entries| > l.capacity {
      AbsorbAllConcat(base, folded, l.entries[..|l.entries| - l.capacity], l.policy);
    } else {
      assert folded + l.entries[..0] == folded;
    }
  }

  /** What is placed is the history and, when the key was free, one more observation. */
  lemma PlaceElements(h: seq<Observation>, o: Observation, digest: Observation -> u64)
    ensures forall x :: x in Place(h, o, digest) ==> x in h || x == o
    ensures |Place(h, o, digest)| == if Holds(h, o.key) then |h| else |h| + 1
  {
  }

  lemma AcceptedStep(l: Ledger, base: Prefix, folded: seq<Observation>, o: Observation, digest: Observation -> u64)
    requires Inv(l, base, folded) && base.foldedObservations + |folded| + |Absorbed(l, o, digest)| <= U32_MAX
    requires InsertOutcome(l, o, digest).Accepted?
    ensures var l' := Inserted(l, o, digest);
            var folded' := folded + Absorbed(l, o, digest);
            Inv(l', base, folded') && History(l', folded') == Place(History(l, folded), o, digest)
  {
    hide AbsorbAll, KeyLess, InFoldedRegion, LowerBound, Place;
    AboveTheFold(l, base, folded, o.key);
    PlaceAfterPrefix(folded, l.entries, o, digest);
    PlaceSorted(History(l, folded), o, digest);
    PlaceElements(History(l, folded), o, digest);
    PlaceElements(l.entries, o, digest);
    var placed := l.(entries := Place(l.entries, o, digest), totalAccepted := Inc64(l.totalAccepted));
    CompactKeepsHistory(placed, base, folded);
    WrapNext(base.foldedObservations + |folded| + |l.entries|);
    assert folded + placed.entries[..0] == folded;
  }

  /** A key that is taken: the retained copy stays, or the smaller digest replaces it in place. */
  lemma TakenStep(l: Ledger, base: Prefix, folded: seq<Observation>, o: Observation, digest: Observation -> u64)
    requires Inv(l, base, folded) && Belongs(l, o)
    requires !InFoldedRegion(l.prefix, o.key) && Holds(l.entries, o.key)
    ensures var l' := Inserted(l, o, digest);
            Inv(l', base, folded) && History(l', folded) == Place(History(l, folded), o, digest)
  {
    hide AbsorbAll, KeyLess, InFoldedRegion, LowerBound;
    AboveTheFold(l, base, folded, o.key);
    PlaceAfterPrefix(folded, l.entries, o, digest);
    PlaceSorted(History(l, folded), o, digest);
    PlaceElements(History(l, folded), o, digest);
    PlaceElements(l.entries, o, digest);
  }

  /**
   * One insertion, at any capacity: the history is the full history with the evidence placed in order,
   * unless the evidence is not this ledger's or lies in the region already folded, when nothing changes.
   */
  lemma InsertRefinesPlace(l: Ledger, base: Prefix, folded: seq<Observation>, o: Observation, digest: Observation -> u64)
    requires Inv(l, base, folded) && base.foldedObservations + |folded| + |Absorbed(l, o, digest)| <= U32_MAX
    ensures var l' := Inserted(l, o, digest);
            var folded' := folded + Absorbed(l, o, digest);
            && Inv(l', base, folded')
            && History(l', folded') ==
                 if Belongs(l, o) && !InFoldedRegion(l.prefix, o.key) then Place(History(l, folded), o, digest)
                 else History(l, folded)
  {
    hide AbsorbAll, KeyLess, InFoldedRegion, LowerBound;
    var outcome := InsertOutcome(l, o, digest);
    if outcome.Accepted? {
      AcceptedStep(l, base, folded, o, digest);
    } else {
      assert folded + [] == folded;
      if Belongs(l, o) && !InFoldedRegion(l.prefix, o.key) {
        TakenStep(l, base, folded, o, digest);
      }
    }
  }

  /** The evidence state of a ledger is the fold of its whole history, whatever the capacity. */
  lemma ViewIsFullFold(l: Ledger, base: Prefix, folded: seq<Observation>)
    requires Inv(l, base, folded)
    ensures FoldedEvidence(l, l.policy) == FoldAll(base.state, History(l, folded), l.policy)
    ensures FoldedState(l) == AbsorbAll(base, History(l, folded), l.policy)
  {
    hide Step, FoldMark;
    AbsorbAllFacts(base, folded, l.policy);
    FoldAllConcat(base.state, folded, l.entries, l.policy);
    AbsorbAllConcat(base, folded, l.entries, l.policy);
  }

  // ---- whole runs ------------------------------------------------------------------

  function Run(l: Ledger, batch: seq<Observation>, digest: Observation -> u64): Ledger {
    if batch == [] then l
    else Inserted(Run(l, batch[..|batch| - 1], digest), batch[|batch| - 1], digest)
  }

  /** Everything compacted during a run, in the order it was folded. */
  function RunFolded(l: Ledger, batch: seq<Observation>, digest: Observation -> u64): seq<Observation> {
    if batch == [] then []
    else
      var front := batch[..|batch| - 1];
      RunFolded(l, front, digest) + Absorbed(Run(l, front, digest), batch[|batch| - 1], digest)
  }

  /** The evidence of a run that is about this ledger and that the fence let through. */
  function Admitted(l: Ledger, batch: seq<Observation>, digest: Observation -> u64): seq<Observation> {
    if batch == [] then []
    else
      var front, o := batch[..|batch| - 1], batch[|batch| - 1];
      var before := Run(l, front, digest);
      Admitted(l, front, digest) +
        (if Belongs(before, o) && !InFoldedRegion(before.prefix, o.key) then [o] else [])
  }

  /** The unbounded reference: every observation placed in one ordered list. */
  function PlaceAll(h: seq<Observation>, batch: seq<Observation>, digest: Observation -> u64): seq<Observation> {
    if batch == [] then h
    else Place(PlaceAll(h, batch[..|batch| - 1], digest), batch[|batch| - 1], digest)
  }

  /**
   * The bounded ledger refines the unbounded one. After any run, at any capacity, folding the prefix and
   * then the retained entries is the left fold of all admitted evidence in canonical order; the retained
   * entries are strictly sorted above everything folded and within capacity; nothing is lost in the count.
   */
  lemma {:induction false} BoundedRefinesFullFold(l: Ledger, base: Prefix, folded: seq<Observation>,
                                                  batch: seq<Observation>, digest: Observation -> u64)
    requires Inv(l, base, folded)
    requires base.foldedObservations + |folded| + |RunFolded(l, batch, digest)| <= U32_MAX
    ensures var l' := Run(l, batch, digest);
            var folded' := folded + RunFolded(l, batch, digest);
            var history := PlaceAll(History(l, folded), Admitted(l, batch, digest), digest);
            && Inv(l', base, folded')
            && History(l', folded') == history
            && FoldedEvidence(l', l'.policy) == FoldAll(base.state, history, l'.policy)
  {
    hide Inv, Inserted, Absorbed, Place, InFoldedRegion, FoldedEvidence, FoldAll;
    if batch == [] {
      assert folded + [] == folded;
    } else {
      var front, o := batch[..|batch| - 1], batch[|batch| - 1];
      BoundedRefinesFullFold(l, base, folded, front, digest);
      var before, f := Run(l, front, digest), folded + RunFolded(l, front, digest);
      InsertRefinesPlace(before, base, f, o, digest);
      assert folded + RunFolded(l, batch, digest) == f + Absorbed(before, o, digest);
      var kept := Admitted(l, front, digest);
      assert (kept + [o])[..|kept|] == kept;
      assert kept + [] == kept;
    }
    ViewIsFullFold(Run(l, batch, digest), base, folded + RunFolded(l, batch, digest));
  }

  /** The parts of a ledger no insertion changes. */
  lemma {:induction false} RunKeepsIdentity(l: Ledger, batch: seq<Observation>, digest: Observation -> u64)
    ensures var m := Run(l, batch, digest);
            m.source == l.source && m.flow == l.flow && m.generation == l.generation &&
            m.policy == l.policy && m.capacity == l.capacity
  {
    hide InsertOutcome, AbsorbAll, Place;
    if batch != [] {
      RunKeepsIdentity(l, batch[..|batch| - 1], digest);
    }
  }

  lemma BelongsAlike(l: Ledger, m: Ledger, o: Observation)
    requires m.source == l.source && m.flow == l.flow && m.generation == l.generation
    ensures Belongs(m, o) == Belongs(l, o)
  {
  }

  lemma RunOnce(l: Ledger, batch: seq<Observation>, o: Observation, digest: Observation -> u64)
    ensures Run(l, batch + [o], digest) == Inserted(Run(l, batch, digest), o, digest)
    ensures RunFolded(l, batch + [o], digest) == RunFolded(l, batch, digest) + Absorbed(Run(l, batch, digest), o, digest)
  {
    hide Inserted, Absorbed;
    assert (batch + [o])[..|batch|] == batch;
  }

  /** The fence stands at the last folded key. */
  lemma FenceIsLastFolded(l: Ledger, folded: seq<Observation>, k: Key)
    requires Inv(l, EMPTY_PREFIX, folded)
    ensures InFoldedRegion(l.prefix, k) <==> folded != [] && !KeyLess(folded[|folded| - 1].key, k)
  {
    AbsorbAllFacts(EMPTY_PREFIX, folded, l.policy);
    hide AbsorbAll, Wrap32, Wrap64;
    if folded != [] {
      KeyOrder(MarkKey(l.prefix.mark), folded[|folded| - 1].key, k);
    }
  }

  lemma RunNothing(l: Ledger, digest: Observation -> u64)
    ensures Run(l, [], digest) == l && RunFolded(l, [], digest) == []
  {
  }

  /** Above everything the ledger started from and holds, nothing is fenced. */
  lemma AboveEverything(l: Ledger, base: Prefix, folded: seq<Observation>, k: Key)
    requires Inv(l, base, folded) && (base.foldedObservations > 0 ==> KeyLess(MarkKey(base.mark), k))
    requires forall x :: x in History(l, folded) ==> KeyLess(x.key, k)
    ensures !InFoldedRegion(l.prefix, k)
  {
    hide AbsorbAll, Wrap32, Wrap64;
    AbsorbAllFacts(base, folded, l.policy);
    if folded == [] {
      AbsorbNothing(base, l.policy);
    } else {
      var last := folded[|folded| - 1];
      assert last in History(l, folded);
      KeyOrder(MarkKey(l.prefix.mark), last.key, k);
    }
  }

  /** A run folds no more than there is. */
  lemma {:induction false} FoldedAtMost(l: Ledger, batch: seq<Observation>, digest: Observation -> u64)
    requires 1 <= l.capacity && |l.entries| <= l.capacity
    ensures |RunFolded(l, batch, digest)| + |Run(l, batch, digest).entries| <= |l.entries| + |batch|
    ensures |Run(l, batch, digest).entries| <= l.capacity
  {
    hide Inserted, Absorbed;
    if batch == [] {
      RunNothing(l, digest);
    } else {
      var front, o := batch[..|batch| - 1], batch[|batch| - 1];
      FoldedAtMost(l, front, digest);
      RunKeepsIdentity(l, front, digest);
      InsertedAtMost(Run(l, front, digest), o, digest);
    }
  }

  lemma InsertedAtMost(l: Ledger, o: Observation, digest: Observation -> u64)
    requires 1 <= l.capacity && |l.entries| <= l.capacity
    ensures |Absorbed(l, o, digest)| + |Inserted(l, o, digest).entries| <= |l.entries| + 1
    ensures |Inserted(l, o, digest).entries| <= l.capacity
  {
    hide AbsorbAll, KeyLess, LowerBound, InFoldedRegion, WindowContains, Belongs;
  }

  /** So far the run has admitted everything, in order, after what the ledger held. */
  ghost predicate AppendsAll(l: Ledger, base: Prefix, folded: seq<Observation>, batch: seq<Observation>, digest: Observation -> u64) {
    && Inv(Run(l, batch, digest), base, folded + RunFolded(l, batch, digest))
    && Admitted(l, batch, digest) == batch
    && History(Run(l, batch, digest), folded + RunFolded(l, batch, digest)) == History(l, folded) + batch
  }

  lemma AppendsNothing(l: Ledger, base: Prefix, folded: seq<Observation>, digest: Observation -> u64)
    requires Inv(l, base, folded)
    ensures AppendsAll(l, base, folded, [], digest)
  {
    hide Inv;
    assert folded + [] == folded && History(l, folded) + [] == History(l, folded);
  }

  lemma AdmittedOnce(l: Ledger, batch: seq<Observation>, o: Observation, digest: Observation -> u64)
    ensures var before := Run(l, batch, digest);
            Admitted(l, batch + [o], digest)
            == Admitted(l, batch, digest) + (if Belongs(before, o) && !InFoldedRegion(before.prefix, o.key) then [o] else [])
  {
    hide InFoldedRegion, Belongs, Run;
    assert (batch + [o])[..|batch|] == batch;
  }

  lemma AppendsOne(l: Ledger, base: Prefix, folded: seq<Observation>, batch: seq<Observation>, o: Observation, digest: Observation -> u64)
    requires AppendsAll(l, base, folded, batch, digest) && Belongs(l, o)
    requires forall x :: x in History(l, folded) + batch ==> KeyLess(x.key, o.key)
    requires base.foldedObservations > 0 ==> KeyLess(MarkKey(base.mark), o.key)
    requires base.foldedObservations + |folded| + |RunFolded(l, batch + [o], digest)| <= U32_MAX
    ensures AppendsAll(l, base, folded, batch + [o], digest)
  {
    hide Inv, Belongs, KeyLess, Run, RunFolded, Admitted, InFoldedRegion, Inserted, Absorbed, Place;
    var before, f := Run(l, batch, digest), folded + RunFolded(l, batch, digest);
    RunKeepsIdentity(l, batch, digest);
    BelongsAlike(l, before, o);
    RunOnce(l, batch, o, digest);
    AdmittedOnce(l, batch, o, digest);
    AboveEverything(before, base, f, o.key);
    assert folded + RunFolded(l, batch + [o], digest) == f + Absorbed(before, o, digest);
    InsertRefinesPlace(before, base, f, o, digest);
    PlaceLast(History(before, f), o, digest);
  }

  /** Evidence in canonical order, above everything the ledger started from and holds, is admitted whole. */
  lemma {:induction false} AdmittedInOrder(l: Ledger, base: Prefix, folded: seq<Observation>,
                                           batch: seq<Observation>, digest: Observation -> u64)
    requires Inv(l, base, folded) && StrictlySorted(batch) && (forall o :: o in batch ==> Belongs(l, o))
    requires forall x, o :: x in History(l, folded) && o in batch ==> KeyLess(x.key, o.key)
    requires base.foldedObservations > 0 ==> forall o :: o in batch ==> KeyLess(MarkKey(base.mark), o.key)
    requires base.foldedObservations + |History(l, folded)| + |batch| <= U32_MAX
    ensures AppendsAll(l, base, folded, batch, digest)
    ensures base.foldedObservations + |folded| + |RunFolded(l, batch, digest)| <= U32_MAX
  {
    assert 1 <= l.capacity && |l.entries| <= l.capacity;
    hide Inv, Belongs, StrictlySorted, KeyLess, Run, RunFolded, Admitted, AppendsAll;
    FoldedAtMost(l, batch, digest);
    if batch == [] {
      AppendsNothing(l, base, folded, digest);
    } else {
      var front, o := batch[..|batch| - 1], batch[|batch| - 1];
      assert batch == front + [o];
      SortedSlice(batch, 0, |batch| - 1);
      AdmittedInOrder(l, base, folded, front, digest);
      LastAbove(batch, front, o);
      AppendsOne(l, base, folded, front, o, digest);
    }
  }

  lemma LastAbove(batch: seq<Observation>, front: seq<Observation>, o: Observation)
    requires StrictlySorted(batch) && batch == front + [o]
    ensures forall x :: x in front ==> KeyLess(x.key, o.key)
  {
    forall x | x in front ensures KeyLess(x.key, o.key) {
      var i :| 0 <= i < |front| && front[i] == x;
      assert batch[i] == x && batch[|front|] == o;
    }
  }

  lemma PlaceLast(h: seq<Observation>, o: Observation, digest: Observation -> u64)
    requires forall x :: x in h ==> KeyLess(x.key, o.key)
    ensures Place(h, o, digest) == h + [o]
  {
    forall j | 0 <= j < |h| ensures KeyLess(h[j].key, o.key) {
      assert h[j] in h;
    }
    LowerBoundUnique(h, o.key, |h|);
  }

  /** Evidence above everything the ledger holds is appended, and folds the lowest entry of a full ledger. */
  lemma AppendOne(l: Ledger, folded: seq<Observation>, o: Observation, digest: Observation -> u64)
    requires Inv(l, EMPTY_PREFIX, folded) && Belongs(l, o) && StrictlySorted(History(l, folded) + [o])
    requires |folded| < U32_MAX || |l.entries| < l.capacity
    ensures var b := l.entries + [o];
            var n := if |l.entries| == l.capacity then 1 else 0;
            && Absorbed(l, o, digest) == b[..n] && Inserted(l, o, digest).entries == b[n..]
            && Inv(Inserted(l, o, digest), EMPTY_PREFIX, folded + b[..n])
  {
    var h := History(l, folded) + [o];
    forall i | 0 <= i < |folded| + |l.entries| ensures KeyLess(h[i].key, o.key) {
      assert h[|folded| + |l.entries|] == o;
    }
    forall j | 0 <= j < |l.entries| ensures KeyLess(l.entries[j].key, o.key) {
      assert h[|folded| + j] == l.entries[j];
    }
    LowerBoundUnique(l.entries, o.key, |l.entries|);
    assert folded != [] ==> h[|folded| - 1] == folded[|folded| - 1];
    FenceIsLastFolded(l, folded, o.key);
    hide KeyLess, InFoldedRegion, StrictlySorted, AbsorbAll, WindowContains, Belongs;
    assert Place(l.entries, o, digest) == l.entries + [o];
    InsertRefinesPlace(l, EMPTY_PREFIX, folded, o, digest);
  }

  /** Evidence in canonical order: the last entries are retained, the rest is folded. */
  lemma {:induction false} InOrderRun(l: Ledger, b: seq<Observation>, digest: Observation -> u64)
    requires Inv(l, EMPTY_PREFIX, []) && l.entries == []
    requires StrictlySorted(b) && |b| <= l.capacity + U32_MAX && (forall o :: o in b ==> Belongs(l, o))
    ensures var n := if |b| <= l.capacity then 0 else |b| - l.capacity;
            && RunFolded(l, b, digest) == b[..n] && Run(l, b, digest).entries == b[n..]
            && Inv(Run(l, b, digest), EMPTY_PREFIX, b[..n])
  {
    hide Inv, Inserted, Absorbed, Belongs, StrictlySorted, Run, RunFolded;
    if b == [] {
      RunNothing(l, digest);
    } else {
      var front, o := b[..|b| - 1], b[|b| - 1];
      assert b == front + [o];
      SortedSlice(b, 0, |b| - 1);
      RunOnce(l, front, o, digest);
      InOrderRun(l, front, digest);
      var before, f := Run(l, front, digest), RunFolded(l, front, digest);
      RunKeepsIdentity(l, front, digest);
      BelongsAlike(l, before, o);
      assert History(before, f) + [o] == b;
      AppendOne(before, f, o, digest);
    }
  }

  lemma FreshInv(source: u64, flow: u64, generation: u64, capacity: nat)
    ensures Inv(Configured(source, flow, generation, capacity), EMPTY_PREFIX, [])
  {
  }
}
