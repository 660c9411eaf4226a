/** Where the ledger's documented promises stop, with the exact condition or the input that shows it. */
module FoldLimits {
  import opened Checked
  import opened Evidence
  import opened Fold
  import opened Ledger
  import opened LedgerRefinement
  import Counters
  import FoldMeaning
  import Restore

  // ---- the fence and its 32-bit count ------------------------------------------------

  /**
   * The fence covers everything folded exactly while the 32-bit count of folded observations is not zero:
   * after 2^32 foldings it opens, because an empty prefix is recognised by that count alone.
   */
  lemma FenceCoversFoldIff(base: Prefix, folded: seq<Observation>, policy: CounterPolicy)
    requires folded != [] && StrictlySorted(folded)
    ensures (forall o :: o in folded ==> InFoldedRegion(AbsorbAll(base, folded, policy), o.key))
       <==> Wrap32(base.foldedObservations + |folded|) != 0
  {
    hide AbsorbAll, Wrap32;
    AbsorbAllFacts(base, folded, policy);
    var p := AbsorbAll(base, folded, policy);
    var last := folded[|folded| - 1];
    assert last in folded;
    if p.foldedObservations != 0 {
      forall o | o in folded ensures InFoldedRegion(p, o.key) {
        var i :| 0 <= i < |folded| && folded[i] == o;
        KeyOrder(o.key, last.key, o.key);
        KeyOrder(last.key, MarkKey(p.mark), o.key);
      }
    } else {
      assert !InFoldedRegion(p, last.key);
    }
  }

  // ---- the duplicate window ----------------------------------------------------------

  function FoldMarks(m: Mark, keys: seq<Key>): Mark {
    if keys == [] then m else FoldMark(FoldMarks(m, keys[..|keys| - 1]), keys[|keys| - 1])
  }

  predicate SameFences(a: Key, b: Key) {
    a.incarnation == b.incarnation && a.epoch == b.epoch
  }

  /**
   * From the first key of a new (incarnation, epoch), and while every sequence number stays within 64 of it,
   * the window knows exactly which sequence numbers were folded.
   */
  lemma {:induction false} WindowExactInside(m: Mark, keys: seq<Key>, k: Key)
    requires keys != [] && (m.incarnation != keys[0].incarnation || m.epoch != keys[0].epoch)
    requires forall i :: 0 <= i < |keys| ==>
               SameFences(keys[0], keys[i]) && keys[0].sequence <= keys[i].sequence < keys[0].sequence + 64 <= U64_MAX
    requires SameFences(keys[0], k)
    ensures var after := FoldMarks(m, keys);
            && after.incarnation == k.incarnation && after.epoch == k.epoch
            && after.low == keys[0].sequence && after.exact
            && (WindowContains(after, k) <==> exists i :: 0 <= i < |keys| && keys[i].sequence == k.sequence)
  {
    hide FoldMark, WindowContains;
    var front, last := keys[..|keys| - 1], keys[|keys| - 1];
    if front == [] {
      assert FoldMarks(m, front) == m;
      assert keys[0] == last;
      WindowStarts(m, last, k);
    } else {
      assert front[0] == keys[0];
      WindowExactInside(m, front, k);
      WindowGrows(FoldMarks(m, front), last, k);
      assert forall i :: 0 <= i < |front| ==> front[i] == keys[i];
      assert (exists i :: 0 <= i < |keys| && keys[i].sequence == k.sequence) <==>
             (exists i :: 0 <= i < |front| && front[i].sequence == k.sequence) || last.sequence == k.sequence;
    }
  }

  lemma WindowStarts(m: Mark, first: Key, k: Key)
    requires m.incarnation != first.incarnation || m.epoch != first.epoch
    requires SameFences(first, k) && first.sequence + 64 <= U64_MAX
    ensures var after := FoldMark(m, first);
            && after.incarnation == k.incarnation && after.epoch == k.epoch
            && after.low == first.sequence && after.exact
            && (WindowContains(after, k) <==> first.sequence == k.sequence)
  {
  }

  lemma WindowGrows(m: Mark, next: Key, k: Key)
    requires m.incarnation == next.incarnation && m.epoch == next.epoch && SameFences(next, k)
    requires m.exact && m.low <= next.sequence < m.low + 64 <= U64_MAX
    ensures var after := FoldMark(m, next);
            && after.incarnation == m.incarnation && after.epoch == m.epoch
            && after.low == m.low && after.exact
            && (WindowContains(after, k) <==> WindowContains(m, k) || next.sequence == k.sequence)
  {
  }

  /**
   * Is a redelivery recognised right after its evidence was folded? Always at a new fence and inside the
   * window (short of the top of the 64-bit range); never below it; and once the window slides, only if the
   * bit that happens to be shifted into the top position was set, since sliding marks the bottom position.
   */
  lemma RedeliveryRecognisedIff(m: Mark, k: Key)
    ensures WindowContains(FoldMark(m, k), k) <==>
      if m.incarnation != k.incarnation || m.epoch != k.epoch then k.sequence + 64 < WORD
      else if m.low <= k.sequence < (m.low + 64) % WORD then m.exact
      else
        && k.sequence >= (m.low + 64) % WORD && m.exact && k.sequence >= 63
        && var shift := (k.sequence - m.low - 63) % WORD;
           k.sequence + 1 < WORD && exists b :: b in m.bits && b + shift == 63
  {
    var n := FoldMark(m, k);
    if m.incarnation == k.incarnation && m.epoch == k.epoch && k.sequence >= (m.low + 64) % WORD {
      if !(m.low <= k.sequence < (m.low + 64) % WORD) {
        SlidTop(m, k);
      }
    }
  }

  /** The top position of a window that has slid to `k`. */
  lemma SlidTop(m: Mark, k: Key)
    requires m.incarnation == k.incarnation && m.epoch == k.epoch && k.sequence >= (m.low + 64) % WORD
    requires !(m.low <= k.sequence < (m.low + 64) % WORD)
    ensures var shift := (k.sequence - m.low - 63) % WORD;
            WindowContains(FoldMark(m, k), k) <==>
              m.exact && k.sequence >= 63 && k.sequence + 1 < WORD && exists b :: b in m.bits && b + shift == 63
  {
    var n := FoldMark(m, k);
    assert k.sequence >= 63 ==> n.low == k.sequence - 63;
    assert k.sequence < 63 ==> n.low > k.sequence;
  }

  /** Sequence 0, then 64: the window forgets 64, and claims 1, which was never folded. */
  lemma SlidingLosesExactness()
    ensures var after := FoldMarks(NO_MARK, [Key(1, 1, 1, 1, 0), Key(1, 1, 1, 2, 64)]);
            && !WindowContains(after, Key(1, 1, 1, 2, 64))
            && WindowContains(after, Key(1, 1, 1, 1, 1))
  {
    var first, second := Key(1, 1, 1, 1, 0), Key(1, 1, 1, 2, 64);
    assert [first, second][..1] == [first];
    assert [first][..0] == [];
    var one := FoldMark(NO_MARK, first);
    assert one.low == 0 && one.bits == {0};
    var two := FoldMark(one, second);
    assert 0 in two.bits && two.low == 1;
  }

  /** Sliding to `k` moves a truthful window to the 64 sequence numbers that end at `k`. */
  ghost predicate SlidesTruthfully(m: Mark, k: Key) {
    forall other: Key :: SameFences(k, other) ==>
      (WindowContains(FoldMark(m, k), other) <==>
         other.sequence == k.sequence || (k.sequence < other.sequence + 64 && WindowContains(m, other)))
  }

  /** Is the bit that sliding puts at position `r` the one that belongs there? */
  predicate LandsRight(bits: Bits, shift: nat, r: nat) {
    (r == 0 || (shift <= r && r - shift in bits)) <==> (r == 63 || r + shift in bits)
  }

  predicate AllLandRight(bits: Bits, shift: nat) {
    forall r :: 0 <= r < 64 ==> LandsRight(bits, shift, r)
  }

  /**
   * Sliding shifts the bits away from where they belong, so a slid window still answers truthfully for what
   * it knew and for the key it slid to only if its bits happen to land where the right ones belong.
   */
  lemma SlidesTruthfullyIff(m: Mark, k: Key)
    requires m.exact && m.incarnation == k.incarnation && m.epoch == k.epoch
    requires m.low + 64 <= k.sequence < U64_MAX
    ensures SlidesTruthfully(m, k) <==> AllLandRight(m.bits, k.sequence - m.low - 63)
  {
    var shift := k.sequence - m.low - 63;
    forall r | 0 <= r < 64
      ensures WindowContains(FoldMark(m, k), At(k, r)) <==> r == 0 || (shift <= r && r - shift in m.bits)
      ensures WindowContains(m, At(k, r)) <==> r + shift in m.bits
    {
      SlidAt(m, k, r);
    }
    hide WindowContains, FoldMark;
    if SlidesTruthfully(m, k) {
      forall r | 0 <= r < 64 ensures LandsRight(m.bits, shift, r) {
        assert SameFences(k, At(k, r));
      }
    }
    if AllLandRight(m.bits, shift) {
      forall other: Key | SameFences(k, other)
        ensures WindowContains(FoldMark(m, k), other) <==>
                  other.sequence == k.sequence || (k.sequence < other.sequence + 64 && WindowContains(m, other))
      {
        SlidElsewhere(m, k, other);
        if k.sequence < other.sequence + 64 && other.sequence <= k.sequence {
          var r := other.sequence + 63 - k.sequence;
          assert LandsRight(m.bits, shift, r);
          SameWindow(FoldMark(m, k), At(k, r), other);
          SameWindow(m, At(k, r), other);
        }
      }
    }
  }

  /** The key at a position of the window that ends at `k`. */
  function At(k: Key, r: nat): Key
    requires r < 64 <= k.sequence
  {
    k.(sequence := k.sequence - 63 + r)
  }

  lemma SlidAt(m: Mark, k: Key, r: nat)
    requires m.exact && m.incarnation == k.incarnation && m.epoch == k.epoch && r < 64
    requires m.low + 64 <= k.sequence < U64_MAX
    ensures var shift := k.sequence - m.low - 63;
            && (WindowContains(FoldMark(m, k), At(k, r)) <==> r == 0 || (shift <= r && r - shift in m.bits))
            && (WindowContains(m, At(k, r)) <==> r + shift in m.bits)
  {
    var shift := k.sequence - m.low - 63;
    var n := FoldMark(m, k);
    assert n.low == k.sequence - 63 && n.bits == ShiftLeft(m.bits, shift) + {0};
    assert r in ShiftLeft(m.bits, shift) <==> shift <= r && r - shift in m.bits by {
      if shift <= r && r - shift in m.bits {
        assert r - shift + shift < 64;
      }
    }
  }

  lemma SlidElsewhere(m: Mark, k: Key, other: Key)
    requires m.exact && m.incarnation == k.incarnation && m.epoch == k.epoch && SameFences(k, other)
    requires m.low + 64 <= k.sequence < U64_MAX
    ensures other.sequence > k.sequence || k.sequence >= other.sequence + 64 ==> !WindowContains(FoldMark(m, k), other)
    ensures other.sequence > k.sequence ==> !WindowContains(m, other)
  {
    assert FoldMark(m, k).low == k.sequence - 63;
  }

  lemma SameWindow(m: Mark, a: Key, b: Key)
    requires SameFences(a, b) && a.sequence == b.sequence
    ensures WindowContains(m, a) == WindowContains(m, b)
  {
  }

  /**
   * A window with every bit set, as contiguous evidence leaves it, slides truthfully by one place, and by the
   * sixty-three that leave two of its bits, and by no other distance.
   */
  lemma FullWindowSlides(m: Mark, k: Key)
    requires m.exact && m.incarnation == k.incarnation && m.epoch == k.epoch
    requires m.low + 64 <= k.sequence < U64_MAX && (forall b: nat :: b < 64 ==> b in m.bits)
    ensures SlidesTruthfully(m, k) <==> k.sequence == m.low + 64 || k.sequence == m.low + 126
  {
    SlidesTruthfullyIff(m, k);
    hide SlidesTruthfully;
    var shift := k.sequence - m.low - 63;
    if 1 < shift < 63 {
      assert !LandsRight(m.bits, shift, 1);
    } else if shift > 63 {
      assert !LandsRight(m.bits, shift, 0);
    }
  }

  /** Under any policy, what was folded stays folded under the ledger's own. */
  lemma ViewUnderPolicy(l: Ledger, base: Prefix, folded: seq<Observation>, viewed: CounterPolicy)
    requires Inv(l, base, folded)
    ensures FoldedEvidence(l, viewed) == FoldAll(FoldAll(base.state, folded, l.policy), l.entries, viewed)
  {
    hide Step, FoldMark;
    AbsorbAllFacts(base, folded, l.policy);
  }

  // ---- beyond capacity, order matters --------------------------------------------------

  /** A sample of one source, at a sequence number that is also its instant. */
  function Sample(n: u64): Observation
    requires 1 <= n <= 3
  {
    Observation(Key(1, 1, 1, 1, n), [], Capabilities(false, false, false, false, true, false),
      Subject(1, 1, 0, 0, None, None, None, None, [], [], [], [], [], [], []),
      n, n, KSample, Forward, Complete, CounterSet(None, None, None), None, None, 1)
  }

  lemma StepTimes(s: State, o: Observation, policy: CounterPolicy)
    ensures Step(s, o, policy).times == TimesStep(s.times, o)
  {
    hide CounterNotes, EvidenceNotes, CorrelationStep, AccountingStep, Counters.Break;
    FoldMeaning.ChargeTouches(Correlated(Describe(Arrive(s, o, policy), o), o.subject), o, policy);
  }

  lemma FoldTwo(s: State, a: Observation, b: Observation, policy: CounterPolicy)
    ensures FoldAll(s, [a, b], policy) == Step(Step(s, a, policy), b, policy)
  {
    hide Step;
    assert [a, b][..1] == [a] && [a][..0] == [];
    assert FoldAll(s, [a], policy) == Step(s, a, policy);
  }

  lemma FoldThree(s: State, a: Observation, b: Observation, c: Observation, policy: CounterPolicy)
    ensures FoldAll(s, [a, b, c], policy) == Step(Step(Step(s, a, policy), b, policy), c, policy)
  {
    hide Step;
    assert [a, b, c][..2] == [a, b];
    FoldTwo(s, a, b, policy);
  }

  /** How much of a run in canonical order is folded. */
  function Excess(n: nat, capacity: nat): (e: nat)
    ensures e <= n
  {
    if n <= capacity then 0 else n - capacity
  }

  /** A fresh ledger shown sorted evidence: the last entries are viewed as they are, the rest as it folded it. */
  lemma InOrderView(l: Ledger, b: seq<Observation>, viewed: CounterPolicy, digest: Observation -> u64)
    requires Inv(l, EMPTY_PREFIX, []) && l.entries == []
    requires StrictlySorted(b) && |b| <= l.capacity + U32_MAX && (forall o :: o in b ==> Belongs(l, o))
    ensures var m := Run(l, b, digest);
            var n := Excess(|b|, l.capacity);
            && Inv(m, EMPTY_PREFIX, b[..n]) && m.policy == l.policy && History(m, b[..n]) == b
            && FoldedEvidence(m, viewed) == FoldAll(FoldAll(INITIAL, b[..n], l.policy), b[n..], viewed)
            && (viewed == l.policy ==> FoldedEvidence(m, viewed) == FoldAll(INITIAL, b, viewed))
            && (forall o :: Belongs(m, o) == Belongs(l, o))
  {
    hide Run, RunFolded, FoldedEvidence, FoldAll, StrictlySorted, Belongs, Inv;
    InOrderRun(l, b, digest);
    RunKeepsIdentity(l, b, digest);
    var m := Run(l, b, digest);
    var n := Excess(|b|, l.capacity);
    forall o ensures Belongs(m, o) == Belongs(l, o) {
      BelongsAlike(l, m, o);
    }
    assert History(m, b[..n]) == b;
    ViewUnderPolicy(m, EMPTY_PREFIX, b[..n], viewed);
    ViewIsFullFold(m, EMPTY_PREFIX, b[..n]);
  }

  lemma SamplesSorted(b: seq<Observation>)
    requires b == [Sample(1), Sample(2), Sample(3)] || b == [Sample(2), Sample(3)]
    ensures StrictlySorted(b) && (forall o :: o in b ==> Belongs(Configured(1, 1, 1, 1), o))
  {
  }

  /** The first instant, folded in order. */
  lemma FirstInstant(policy: CounterPolicy)
    ensures FoldAll(INITIAL, [Sample(1), Sample(2), Sample(3)], policy).times.firstObserved == 1
    ensures FoldAll(INITIAL, [Sample(2), Sample(3)], policy).times.firstObserved == 2
  {
    var a, b, c := Sample(1), Sample(2), Sample(3);
    hide Step;
    FoldThree(INITIAL, a, b, c, policy);
    FoldTwo(INITIAL, b, c, policy);
    StepTimes(INITIAL, a, policy);
    StepTimes(Step(INITIAL, a, policy), b, policy);
    StepTimes(Step(Step(INITIAL, a, policy), b, policy), c, policy);
    StepTimes(INITIAL, b, policy);
    StepTimes(Step(INITIAL, b, policy), c, policy);
  }

  /**
   * The same three observations, one ledger capacity: in canonical order all are accepted; with the earliest
   * last, it is refused and the views differ.
   */
  lemma ArrivalOrderMatters(digest: Observation -> u64)
    ensures var l := Configured(1, 1, 1, 1);
            && FoldedEvidence(Run(l, [Sample(1), Sample(2), Sample(3)], digest), l.policy).times.firstObserved == 1
            && InsertOutcome(Run(l, [Sample(2), Sample(3)], digest), Sample(1), digest) == Late
            && FoldedEvidence(Run(l, [Sample(2), Sample(3), Sample(1)], digest), l.policy).times.firstObserved == 2
  {
    var l := Configured(1, 1, 1, 1);
    var a, b, c := Sample(1), Sample(2), Sample(3);
    assert Belongs(l, a);
    assert [b, c][..1] == [b] && [b, c] + [a] == [b, c, a];
    var early := Run(l, [b, c], digest);
    hide Run, FoldAll, FoldedEvidence, Inv, StrictlySorted, Belongs, Inserted, InsertOutcome, InFoldedRegion;
    SamplesSorted([a, b, c]);
    SamplesSorted([b, c]);
    FreshInv(1, 1, 1, 1);
    InOrderView(l, [a, b, c], l.policy, digest);
    InOrderView(l, [b, c], l.policy, digest);
    FirstInstant(l.policy);
    LowestIsLate(early, b, digest);
    RunOnce(l, [b, c], a, digest);
    LateChangesNothing(early, a, digest);
  }

  lemma LowestIsLate(l: Ledger, b: Observation, digest: Observation -> u64)
    requires Inv(l, EMPTY_PREFIX, [b]) && b == Sample(2) && Belongs(l, Sample(1))
    ensures InFoldedRegion(l.prefix, Sample(1).key) && InsertOutcome(l, Sample(1), digest) == Late
  {
    FenceIsLastFolded(l, [b], Sample(1).key);
    assert [b][..0] == [];
    assert AbsorbAll(EMPTY_PREFIX, [b], l.policy) == Absorb(EMPTY_PREFIX, b, l.policy) by {
      assert AbsorbAll(EMPTY_PREFIX, [], l.policy) == EMPTY_PREFIX;
    }
    hide Step;
  }

  lemma LateChangesNothing(l: Ledger, o: Observation, digest: Observation -> u64)
    requires Belongs(l, o) && InFoldedRegion(l.prefix, o.key)
    ensures Inserted(l, o, digest).entries == l.entries && Inserted(l, o, digest).prefix == l.prefix
  {
  }

  // ---- after 2^32 foldings ----------------------------------------------------------------

  const COUNT: nat := 0x1_0000_0000

  function Numbered(n: u64): Observation {
    Sample(1).(key := Key(1, 1, 1, 1, n))
  }

  /** Sequence numbers 1 to `n`. */
  function NumberedTo(n: nat): (b: seq<Observation>)
    requires n <= U64_MAX
    ensures |b| == n && StrictlySorted(b)
    ensures forall i :: 0 <= i < n ==> b[i] == Numbered(i + 1)
  {
    seq(n, i requires 0 <= i < n => Numbered(i + 1))
  }

  /** One more accepted observation folds the only entry of a ledger of capacity one. */
  lemma FoldOneMore(l: Ledger, x: Observation, o: Observation, digest: Observation -> u64)
    requires l.capacity == 1 && l.entries == [x] && KeyLess(x.key, o.key) && Belongs(l, o) && !InFoldedRegion(l.prefix, o.key)
    ensures Absorbed(l, o, digest) == [x] && Inserted(l, o, digest).entries == [o]
    ensures Inserted(l, o, digest).prefix == Absorb(l.prefix, x, l.policy)
    ensures forall y :: Belongs(Inserted(l, o, digest), y) == Belongs(l, y)
  {
    LowerBoundUnique(l.entries, o.key, 1);
    assert Place(l.entries, o, digest) == [x, o];
    assert [x, o][..1] == [x] && [x, o][1..] == [o];
    AbsorbOne(l.prefix, x, l.policy);
    hide Absorb, KeyLess, InFoldedRegion;
  }

  lemma AbsorbOne(p: Prefix, o: Observation, policy: CounterPolicy)
    ensures AbsorbAll(p, [o], policy) == Absorb(p, o, policy)
  {
    assert [o][..0] == [];
    hide Absorb;
  }

  /** A prefix that counts zero fences nothing: what lies below the entries is accepted. */
  lemma Unfenced(l: Ledger, o: Observation, z: Observation, digest: Observation -> u64)
    requires l.entries == [o] && l.prefix.foldedObservations == 0 && Belongs(l, z) && KeyLess(z.key, o.key)
    ensures InsertOutcome(l, z, digest).Accepted?
  {
    KeyOrder(z.key, o.key, z.key);
  }

  /**
   * A ledger of capacity one, shown the sequence numbers 1 to 2^32 + 1 in order, has folded the first of them and
   * accepts it again.
   */
  lemma FoldedTwice(digest: Observation -> u64)
    ensures var l, b := Configured(1, 1, 1, 1), NumberedTo(COUNT + 1);
            && Numbered(1) in RunFolded(l, b, digest)
            && InsertOutcome(Run(l, b, digest), Numbered(1), digest).Accepted?
  {
    var l, b := Configured(1, 1, 1, 1), NumberedTo(COUNT + 1);
    var front, x, o := b[..COUNT], Numbered(COUNT), Numbered(COUNT + 1);
    assert b == front + [o] && front[COUNT - 1] == x && front[0] == Numbered(1);
    SortedSlice(b, 0, COUNT);
    assert KeyLess(x.key, o.key) && KeyLess(Numbered(1).key, o.key);
    assert forall y :: y in b ==> Belongs(l, y);
    hide NumberedTo, Numbered, KeyLess, Inv, Belongs, StrictlySorted, Run, RunFolded, Inserted, Absorbed, InsertOutcome, FoldedEvidence;
    FreshInv(1, 1, 1, 1);
    InOrderView(l, front, l.policy, digest);
    InOrderRun(l, front, digest);
    RunKeepsIdentity(l, front, digest);
    RunOnce(l, front, o, digest);
    var before := Run(l, front, digest);
    assert before.entries == [x];
    LastOfCount(before, front, x, o, digest);
    Unfenced(Inserted(before, o, digest), o, Numbered(1), digest);
    assert front[..COUNT - 1][0] == Numbered(1);
  }

  lemma LastOfCount(l: Ledger, front: seq<Observation>, x: Observation, o: Observation, digest: Observation -> u64)
    requires |front| == COUNT && front[COUNT - 1] == x && Inv(l, EMPTY_PREFIX, front[..COUNT - 1]) && l.capacity == 1
    requires l.entries == [x] && KeyLess(x.key, o.key) && Belongs(l, o)
    ensures Inserted(l, o, digest).entries == [o] && Inserted(l, o, digest).prefix.foldedObservations == 0
    ensures forall y :: Belongs(Inserted(l, o, digest), y) == Belongs(l, y)
  {
    var folded := front[..COUNT - 1];
    assert (folded + l.entries)[COUNT - 2] == folded[COUNT - 2] && (folded + l.entries)[COUNT - 1] == x;
    FenceIsLastFolded(l, folded, o.key);
    KeyOrder(folded[COUNT - 2].key, x.key, o.key);
    FoldOneMore(l, x, o, digest);
    AbsorbAllFacts(EMPTY_PREFIX, folded, l.policy);
    hide AbsorbAll, Inserted, KeyLess;
  }

  // ---- a restored fence --------------------------------------------------------------------------

  /**
   * Sequence number 9 of one incarnation and 1 of the next: saved and restored, the ledger refuses sequence number 5
   * of the new incarnation, which the ledger that was saved accepts.
   */
  lemma RestoredFenceRefuses(digest: Observation -> u64)
    ensures var l := Run(Configured(1, 1, 1, 2), [Moved(1, 9), Moved(2, 1)], digest);
            && InsertOutcome(l, Moved(2, 5), digest).Accepted?
            && InsertOutcome(Restore.Resumed(Restore.Persist(l), 1, 1, 2), Moved(2, 5), digest) == Late
  {
    var a, b, o := Moved(1, 9), Moved(2, 1), Moved(2, 5);
    var start := Configured(1, 1, 1, 2);
    FreshInv(1, 1, 1, 2);
    MovedFacts();
    assert [a, b][..0] == [] && [a, b][0..] == [a, b];
    hide Run, RunFolded, Inv, Belongs, StrictlySorted, Moved, KeyLess, FoldAll, FoldedEvidence;
    InOrderView(start, [a, b], start.policy, digest);
    InOrderRun(start, [a, b], digest);
    RunKeepsIdentity(start, [a, b], digest);
    var l := Run(start, [a, b], digest);
    NothingFenced(l, o, digest);
    HighestKept(l, o, digest);
  }

  /** A sample at this incarnation and sequence number. */
  function Moved(incarnation: u64, sequence: u64): Observation {
    Sample(1).(key := Key(1, incarnation, 1, 1, sequence))
  }

  lemma MovedFacts()
    ensures StrictlySorted([Moved(1, 9), Moved(2, 1)])
    ensures forall i, n :: Belongs(Configured(1, 1, 1, 2), Moved(i, n))
    ensures !Holds([Moved(1, 9), Moved(2, 1)], Moved(2, 5).key)
  {
    LowerBoundUnique([Moved(1, 9), Moved(2, 1)], Moved(2, 5).key, 2);
  }

  lemma NothingFenced(l: Ledger, o: Observation, digest: Observation -> u64)
    requires Inv(l, EMPTY_PREFIX, []) && Belongs(l, o) && !Holds(l.entries, o.key)
    ensures InsertOutcome(l, o, digest).Accepted?
  {
    FenceIsLastFolded(l, [], o.key);
    hide Inv, Belongs, LowerBound, InFoldedRegion;
  }

  /** The fence a restored ledger starts from. */
  lemma RestoredMark(l: Ledger)
    ensures var p := Restore.RestoredPrefix(Restore.Persist(l));
            var f := FoldedState(l).state.fence;
            && p.foldedObservations == FoldedState(l).foldedObservations
            && MarkKey(p.mark) == Key(0, f.incarnation, f.epoch, f.highRevision, f.highSequence) && p.mark.bits == {}
  {
  }

  lemma HighestKept(l: Ledger, o: Observation, digest: Observation -> u64)
    requires Inv(l, EMPTY_PREFIX, []) && l.entries == [Moved(1, 9), Moved(2, 1)] && o == Moved(2, 5) && l.source == 1
    ensures InsertOutcome(Restore.Resumed(Restore.Persist(l), 1, 1, 2), o, digest) == Late
  {
    var obs := [Moved(1, 9), Moved(2, 1)];
    var p := Restore.RestoredPrefix(Restore.Persist(l));
    RestoredMark(l);
    ResumedIs(l);
    assert History(l, []) == obs;
    hide Restore.RestoredPrefix, Restore.Persist, Restore.Resumed, FoldedState, Inv;
    ViewIsFullFold(l, EMPTY_PREFIX, []);
    MovedFence(l.policy);
    RefusedBelow(p, o, digest);
  }

  lemma MovedFence(policy: CounterPolicy)
    ensures var p := AbsorbAll(EMPTY_PREFIX, [Moved(1, 9), Moved(2, 1)], policy);
            && p.foldedObservations == 2 && p.state.fence.incarnation == 2 && p.state.fence.epoch == 1
            && p.state.fence.highRevision >= 1 && p.state.fence.highSequence >= 9
  {
    var obs := [Moved(1, 9), Moved(2, 1)];
    hide AbsorbAll, FoldAll;
    AbsorbAllFacts(EMPTY_PREFIX, obs, policy);
    Restore.FenceHighWater(INITIAL, obs, policy);
    assert obs[0].key.sequence == 9 && obs[0].key.revision == 1;
  }

  lemma ResumedIs(l: Ledger)
    requires l.source == 1
    ensures var p := Restore.RestoredPrefix(Restore.Persist(l));
            Restore.Resumed(Restore.Persist(l), 1, 1, 2) == Configured(1, 1, 1, 2).(prefix := p, totalAccepted := p.foldedObservations)
  {
    hide FoldedState;
  }

  lemma RefusedBelow(p: Prefix, o: Observation, digest: Observation -> u64)
    requires o == Moved(2, 5) && p.foldedObservations == 2 && p.mark.bits == {}
    requires var k := MarkKey(p.mark); k.incarnation == 2 && k.epoch == 1 && k.revision >= 1 && k.sequence >= 9
    ensures InsertOutcome(Configured(1, 1, 1, 2).(prefix := p, totalAccepted := p.foldedObservations), o, digest) == Late
  {
    assert InFoldedRegion(p, o.key) && !WindowContains(p.mark, o.key);
  }

  // ---- the policy a ledger folds with ----------------------------------------------------

  /** A view is the full fold of the ledger's history under `viewed`, for every ledger that folds with `own`. */
  ghost predicate AlwaysFullFold(own: CounterPolicy, viewed: CounterPolicy) {
    forall l, base, folded | Inv(l, base, folded) && l.policy == own ::
      FoldedEvidence(l, viewed) == FoldAll(base.state, History(l, folded), viewed)
  }

  /** Two readings that fall, and one that stays: a reset under one policy, held under the other. */
  function Descent(): seq<Observation> {
    [Sample(1).(counters := CounterSet(Some(10), None, None)),
     Sample(2).(counters := CounterSet(Some(5), None, None)),
     Sample(3).(counters := CounterSet(Some(5), None, None))]
  }

  /** A counter epoch that changes by an announced restart: expected under one policy, an anomaly under the other. */
  function Restart(): seq<Observation> {
    [Sample(1), Sample(2).(key := Key(1, 1, 2, 1, 2), kind := KCounterReset), Sample(3).(key := Key(1, 1, 2, 1, 3))]
  }

  /** Evidence on which two policies differ, and then evidence on which they agree. */
  function Telling(own: CounterPolicy, viewed: CounterPolicy): (b: seq<Observation>)
    ensures |b| == 3
  {
    if own.regressionAsReset != viewed.regressionAsReset then Descent() else Restart()
  }

  lemma ByteStep(s: State, o: Observation, policy: CounterPolicy)
    requires o in Descent() && !Ended(s)
    requires s.fence.incarnation == 0 || (s.fence.incarnation == 1 && s.fence.epoch == 1)
    ensures var t := Step(s, o, policy);
            && t.forward.bytes == Counters.Observed(s.forward.bytes, o.counters.bytes.value, policy.regressionAsReset)
            && !Ended(t) && t.fence.incarnation == 1 && t.fence.epoch == 1
  {
    hide Step, Counters.Observed;
    FoldMeaning.StepOnFence(s, o, policy);
    FoldMeaning.StepOnCounter(s, o, policy, ForwardSlot, Bytes);
    assert forall st: State :: AccOf(AccountingOf(st, ForwardSlot), Bytes) == st.forward.bytes;
  }

  /** The descent folded under one policy and then another, seen by the counter it is about. */
  lemma DescentFolded(first: CounterPolicy, last: CounterPolicy)
    ensures var b := Descent();
            var bytes := Step(Step(Step(INITIAL, b[0], first), b[1], first), b[2], last).forward.bytes;
            && bytes.unknownIntervals == (if first.regressionAsReset || last.regressionAsReset then 1 else 0)
            && bytes.regressions == (if first.regressionAsReset then 1 else 2)
  {
    hide Step;
    var b := Descent();
    assert b[0] in b && b[1] in b && b[2] in b;
    ByteStep(INITIAL, b[0], first);
    ByteStep(Step(INITIAL, b[0], first), b[1], first);
    ByteStep(Step(Step(INITIAL, b[0], first), b[1], first), b[2], last);
  }

  /** Evidence without counters notes only what its fences say. */
  lemma FencesOnly(s: State, o: Observation, policy: CounterPolicy)
    requires o.counters == CounterSet(None, None, None) && o.direction == Forward && o.claim == Complete
    requires o.kind == KSample || o.kind == KCounterReset
    requires !Ended(s)
    ensures var t := Step(s, o, policy);
            && t.anomalies == FenceAnomalies(s.anomalies, s.fence.incarnation, s.fence.epoch, o, policy)
            && !Ended(t) && t.fence.incarnation == o.key.incarnation && t.fence.epoch == o.key.epoch
  {
    FoldMeaning.StepOnFence(s, o, policy);
    hide FenceAnomalies, Counters.Observed, Counters.Break, CorrelationStep;
  }

  lemma RestartFolded(first: CounterPolicy, last: CounterPolicy)
    ensures var b := Restart();
            Step(Step(Step(INITIAL, b[0], first), b[1], first), b[2], last).anomalies ==
              if first.honorExplicitReset then map[] else map[CounterRegression := 1]
  {
    hide Step;
    var b := Restart();
    FencesOnly(INITIAL, b[0], first);
    FencesOnly(Step(INITIAL, b[0], first), b[1], first);
    FencesOnly(Step(Step(INITIAL, b[0], first), b[1], first), b[2], last);
  }

  lemma TellingRun(own: CounterPolicy, viewed: CounterPolicy, capacity: nat, digest: Observation -> u64)
    requires 1 <= capacity
    ensures var m := Run(Configured(1, 1, 1, capacity).(policy := own), Telling(own, viewed), digest);
            var b := Telling(own, viewed);
            var n := Excess(3, capacity);
            && Inv(m, EMPTY_PREFIX, b[..n]) && m.policy == own && History(m, b[..n]) == b
            && FoldedEvidence(m, viewed) == FoldAll(FoldAll(INITIAL, b[..n], own), b[n..], viewed)
  {
    var l := Configured(1, 1, 1, capacity).(policy := own);
    var b := Telling(own, viewed);
    TellingFits(own, viewed, capacity);
    FreshUnderPolicy(capacity, own);
    hide Telling, StrictlySorted, Belongs, FoldAll, FoldedEvidence, Run, Inv;
    InOrderView(l, b, viewed, digest);
  }

  lemma TellingFits(own: CounterPolicy, viewed: CounterPolicy, capacity: nat)
    ensures StrictlySorted(Telling(own, viewed))
    ensures forall o :: o in Telling(own, viewed) ==> Belongs(Configured(1, 1, 1, capacity).(policy := own), o)
  {
  }

  lemma FreshUnderPolicy(capacity: nat, own: CounterPolicy)
    ensures Inv(Configured(1, 1, 1, capacity).(policy := own), EMPTY_PREFIX, [])
  {
  }

  lemma DescentTells(own: CounterPolicy, viewed: CounterPolicy)
    requires own.regressionAsReset != viewed.regressionAsReset
    ensures var b := Descent();
            (Step(Step(Step(INITIAL, b[0], own), b[1], own), b[2], viewed)
             != Step(Step(Step(INITIAL, b[0], viewed), b[1], viewed), b[2], viewed))
  {
    hide Step;
    DescentFolded(own, viewed);
    DescentFolded(viewed, viewed);
  }

  lemma RestartTells(own: CounterPolicy, viewed: CounterPolicy)
    requires own.honorExplicitReset != viewed.honorExplicitReset
    ensures var b := Restart();
            (Step(Step(Step(INITIAL, b[0], own), b[1], own), b[2], viewed)
             != Step(Step(Step(INITIAL, b[0], viewed), b[1], viewed), b[2], viewed))
  {
    hide Step;
    RestartFolded(own, viewed);
    RestartFolded(viewed, viewed);
    var noted: AnomalyTable := map[CounterRegression := 1];
    assert CounterRegression in noted;
  }

  lemma FoldSplit(b: seq<Observation>, first: CounterPolicy, last: CounterPolicy)
    requires |b| == 3
    ensures FoldAll(FoldAll(INITIAL, b[..2], first), b[2..], last) == Step(Step(Step(INITIAL, b[0], first), b[1], first), b[2], last)
    ensures FoldAll(FoldAll(INITIAL, b[..0], first), b[0..], last) == FoldAll(INITIAL, b, last)
    ensures FoldAll(INITIAL, b, last) == Step(Step(Step(INITIAL, b[0], last), b[1], last), b[2], last)
  {
    hide Step;
    assert b == [b[0], b[1], b[2]] && b[..2] == [b[0], b[1]] && b[2..] == [b[2]] && b[..0] == [] && b[0..] == b;
    FoldTwo(INITIAL, b[0], b[1], first);
    FoldThree(INITIAL, b[0], b[1], b[2], last);
    assert [b[2]][..0] == [];
  }

  /** Folded partly under one policy and partly under another, telling evidence tells. */
  lemma TellingTells(own: CounterPolicy, viewed: CounterPolicy)
    requires own != viewed
    ensures var b := Telling(own, viewed);
            FoldAll(FoldAll(INITIAL, b[..2], own), b[2..], viewed) != FoldAll(INITIAL, b, viewed)
  {
    var b := Telling(own, viewed);
    assert own.regressionAsReset != viewed.regressionAsReset ==> b == Descent();
    assert own.regressionAsReset == viewed.regressionAsReset ==> b == Restart();
    hide Telling, FoldAll, Step, Descent, Restart;
    FoldSplit(b, own, viewed);
    if own.regressionAsReset != viewed.regressionAsReset {
      DescentTells(own, viewed);
    } else {
      RestartTells(own, viewed);
    }
  }

  /** Viewed under another policy than its own, a ledger of capacity one shows what a larger ledger does not. */
  lemma OtherPolicyShowsCapacity(own: CounterPolicy, viewed: CounterPolicy, digest: Observation -> u64)
    requires own != viewed
    ensures var b := Telling(own, viewed);
            var narrow := Run(Configured(1, 1, 1, 1).(policy := own), b, digest);
            var wide := Run(Configured(1, 1, 1, 3).(policy := own), b, digest);
            FoldedEvidence(narrow, viewed) != FoldedEvidence(wide, viewed)
  {
    hide Run, FoldedEvidence, FoldAll, Telling, Inv;
    TellingRun(own, viewed, 1, digest);
    TellingRun(own, viewed, 3, digest);
    FoldSplit(Telling(own, viewed), own, viewed);
    TellingTells(own, viewed);
  }

  /**
   * A ledger keeps its default policy, so with the hold policy configured a descent is a gap for ever once it
   * has been compacted and none while it is retained: the accounting depends on the capacity.
   */
  lemma HoldPolicyDependsOnCapacity(digest: Observation -> u64)
    ensures var hold := CounterPolicy(false, true);
            && FoldedEvidence(Run(Configured(1, 1, 1, 1), Descent(), digest), hold).forward.bytes.unknownIntervals == 1
            && FoldedEvidence(Run(Configured(1, 1, 1, 3), Descent(), digest), hold).forward.bytes.unknownIntervals == 0
  {
    var hold := CounterPolicy(false, true);
    var b := Descent();
    assert Telling(DEFAULT_COUNTER_POLICY, hold) == b;
    hide Run, FoldedEvidence, Step, Telling, Descent, Inv, FoldAll;
    TellingRun(DEFAULT_COUNTER_POLICY, hold, 1, digest);
    TellingRun(DEFAULT_COUNTER_POLICY, hold, 3, digest);
    SamePolicy(1);
    SamePolicy(3);
    FoldSplit(b, DEFAULT_COUNTER_POLICY, hold);
    DescentFolded(DEFAULT_COUNTER_POLICY, hold);
    DescentFolded(hold, hold);
  }

  lemma SamePolicy(capacity: nat)
    ensures Configured(1, 1, 1, capacity).(policy := DEFAULT_COUNTER_POLICY) == Configured(1, 1, 1, capacity)
  {
  }

  /** Views are full folds, at every capacity, exactly under the policy the ledger itself folds with. */
  lemma AlwaysFullFoldIff(own: CounterPolicy, viewed: CounterPolicy)
    ensures AlwaysFullFold(own, viewed) <==> viewed == own
  {
    hide Inv, FoldedEvidence, FoldAll, Telling, Run;
    if viewed == own {
      forall l, base, folded | Inv(l, base, folded) && l.policy == own
        ensures FoldedEvidence(l, viewed) == FoldAll(base.state, History(l, folded), viewed)
      {
        ViewIsFullFold(l, base, folded);
      }
    } else {
      var digest := (o: Observation) => 0 as u64;
      TellingRun(own, viewed, 1, digest);
      TellingTells(own, viewed);
      assert Inv(Run(Configured(1, 1, 1, 1).(policy := own), Telling(own, viewed), digest), EMPTY_PREFIX, Telling(own, viewed)[..2]);
    }
  }
}
