/** The bounded per-source ledger: retained evidence in canonical order, the rest folded into a prefix. */
module Ledger {
  import opened Checked
  import opened Evidence
  import opened Fold
  import FoldMeaning

  // ---- the folded region -------------------------------------------------------


  /** A 64-bit word as the set of its one bits. */
  type Bits = s: set<nat> | forall b :: b in s ==> b < 64

  function ShiftLeft(bits: Bits, n: nat): Bits {
    set b: nat | b in bits && b + n < 64 :: b + n
  }

  /** The highest folded key, and the sliding window over the sequence numbers folded with its fences. */
  datatype Mark = Mark(incarnation: u64, epoch: u64, revision: u64, sequence: u64, exact: bool, low: u64, bits: Bits)

  datatype Prefix = Prefix(foldedObservations: u32, state: State, mark: Mark)

  const NO_MARK: Mark := Mark(0, 0, 0, 0, true, 0, {})
  const EMPTY_PREFIX: Prefix := Prefix(0, INITIAL, NO_MARK)

  function MarkKey(m: Mark): Key {
    Key(0, m.incarnation, m.epoch, m.revision, m.sequence)
  }

  /** The window after one more folded key. All arithmetic is 64-bit arithmetic. */
  function FoldMark(m: Mark, k: Key): Mark {
    var end := (m.low + 64) % WORD;
    if m.incarnation != k.incarnation || m.epoch != k.epoch then
      m.(incarnation := k.incarnation, epoch := k.epoch, low := k.sequence, bits := {0}, exact := true)
    else if m.low <= k.sequence < end then
      m.(bits := m.bits + {k.sequence - m.low})
    else if k.sequence >= end then
      var shift := (k.sequence - m.low - 63) % WORD;
      m.(bits := ShiftLeft(m.bits, shift) + {0}, low := (k.sequence - 63) % WORD)
    else
      m.(exact := false)
  }

  /** Does the window claim that this key was folded? */
  predicate WindowContains(m: Mark, k: Key) {
    && m.exact && m.incarnation == k.incarnation && m.epoch == k.epoch
    && m.low <= k.sequence < (m.low + 64) % WORD
    && k.sequence - m.low in m.bits
  }

  function Absorb(p: Prefix, o: Observation, policy: CounterPolicy): Prefix {
    Prefix(Inc32(p.foldedObservations), Step(p.state, o, policy),
           FoldMark(p.mark, o.key).(revision := o.key.revision, sequence := o.key.sequence))
  }

  function AbsorbAll(p: Prefix, obs: seq<Observation>, policy: CounterPolicy): Prefix {
    if obs == [] then p
    else Absorb(AbsorbAll(p, obs[..|obs| - 1], policy), obs[|obs| - 1], policy)
  }

  // ---- the ledger as a value ---------------------------------------------------

  datatype Ledger = Ledger(
    source: u64, flow: u64, generation: u64, policy: CounterPolicy, capacity: nat,
    entries: seq<Observation>, prefix: Prefix,
    contentConflicts: u64, duplicatesSuppressed: u64, lateRejected: u64, totalAccepted: u64)

  datatype Outcome = Accepted(folded: nat) | Duplicate | ContentConflict | Invalid | Late

  function Configured(source: u64, flow: u64, generation: u64, capacity: nat): Ledger {
    Ledger(source, flow, generation, DEFAULT_COUNTER_POLICY, if capacity == 0 then 1 else capacity,
           [], EMPTY_PREFIX, 0, 0, 0, 0)
  }

  /** Is this evidence about the ledger's source and generation? */
  predicate Belongs(l: Ledger, o: Observation) {
    o.Valid() && o.key.source == l.source && o.subject.flow == l.flow && o.subject.generation == l.generation
  }

  predicate InFoldedRegion(p: Prefix, k: Key) {
    p.foldedObservations > 0 && !KeyLess(MarkKey(p.mark), k)
  }

  /** The first position whose key is not below `k`. */
  function LowerBound(entries: seq<Observation>, k: Key): (i: nat)
    ensures i <= |entries|
    ensures forall j :: 0 <= j < i ==> KeyLess(entries[j].key, k)
    ensures i < |entries| ==> !KeyLess(entries[i].key, k)
  {
    if entries == [] || !KeyLess(entries[0].key, k) then 0
    else
      1 + LowerBound(entries[1..], k)
  }

  /** Evidence already retained under the key of `o`, if any. */
  predicate Holds(entries: seq<Observation>, k: Key) {
    var i := LowerBound(entries, k);
    i < |entries| && SameKey(entries[i].key, k)
  }

  /**
   * The entries after `o`: placed in order, or, when its key is taken by other content, whichever of
   * the two has the smaller digest.
   */
  function Place(entries: seq<Observation>, o: Observation, digest: Observation -> u64): seq<Observation> {
    var i := LowerBound(entries, o.key);
    if Holds(entries, o.key) then
      if digest(o) < digest(entries[i]) then entries[i := o] else entries
    else entries[..i] + [o] + entries[i..]
  }

  /** Everything beyond the capacity is folded into the prefix, lowest first. */
  function Compact(l: Ledger): Ledger {
    if |l.entries| <= l.capacity then l
    else
      var excess := |l.entries| - l.capacity;
      l.(prefix := AbsorbAll(l.prefix, l.entries[..excess], l.policy), entries := l.entries[excess..])
  }

  function InsertOutcome(l: Ledger, o: Observation, digest: Observation -> u64): Outcome {
    if !Belongs(l, o) then Invalid
    else if InFoldedRegion(l.prefix, o.key) then
      if WindowContains(l.prefix.mark, o.key) then Duplicate else Late
    else if Holds(l.entries, o.key) then
      if digest(l.entries[LowerBound(l.entries, o.key)]) == digest(o) then Duplicate else ContentConflict
    else Accepted(if |l.entries| + 1 > l.capacity then |l.entries| + 1 - l.capacity else 0)
  }

  function Inserted(l: Ledger, o: Observation, digest: Observation -> u64): Ledger {
    match InsertOutcome(l, o, digest)
    case Invalid => l
    case Duplicate => l.(duplicatesSuppressed := Inc64(l.duplicatesSuppressed))
    case Late => l.(lateRejected := Inc64(l.lateRejected))
    case ContentConflict =>
      l.(contentConflicts := Inc64(l.contentConflicts), entries := Place(l.entries, o, digest))
    case Accepted(_) =>
      Compact(l.(entries := Place(l.entries, o, digest), totalAccepted := Inc64(l.totalAccepted)))
  }

  /** The entries this insertion folds away. */
  function Absorbed(l: Ledger, o: Observation, digest: Observation -> u64): seq<Observation> {
    var outcome := InsertOutcome(l, o, digest);
    if outcome.Accepted? && |l.entries| + 1 > l.capacity then
      Place(l.entries, o, digest)[..|l.entries| + 1 - l.capacity]
    else []
  }

  /** The complete fold of everything accepted, as a snapshot records it. */
  function FoldedState(l: Ledger): Prefix {
    AbsorbAll(l.prefix, l.entries, l.policy)
  }

  /** The evidence state every view is built from. */
  function FoldedEvidence(l: Ledger, policy: CounterPolicy): State {
    FoldAll(l.prefix.state, l.entries, policy)
  }

  /** A whole fold in progress: the window has moved, its highest revision and sequence are set at the end. */
  ghost predicate PartWay(p: Prefix, obs: seq<Observation>, policy: CounterPolicy, state: State, mark: Mark) {
    var whole := AbsorbAll(p, obs, policy);
    && state == whole.state
    && mark == whole.mark.(revision := mark.revision, sequence := mark.sequence)
    && whole.foldedObservations == Wrap32(p.foldedObservations + |obs|)
    && (obs != [] ==>
          var last := obs[|obs| - 1].key;
          && mark.incarnation == state.fence.incarnation && mark.epoch == state.fence.epoch
          && whole.mark.revision == last.revision && whole.mark.sequence == last.sequence)
  }

  lemma PartWayStart(p: Prefix, policy: CounterPolicy)
    ensures PartWay(p, [], policy, p.state, p.mark)
  {
  }

  lemma PartWayEnd(p: Prefix, obs: seq<Observation>, policy: CounterPolicy, state: State, mark: Mark)
    requires obs != [] && PartWay(p, obs, policy, state, mark)
    ensures AbsorbAll(p, obs, policy) ==
              Prefix(Wrap32(p.foldedObservations + |obs|), state,
                     mark.(incarnation := state.fence.incarnation, epoch := state.fence.epoch,
                           revision := obs[|obs| - 1].key.revision, sequence := obs[|obs| - 1].key.sequence))
  {
    hide AbsorbAll;
  }

  /** The window never looks at the highest revision and sequence, and always moves to the key's fences. */
  lemma FoldMarkIgnoresTail(m: Mark, k: Key, revision: u64, sequence: u64)
    ensures FoldMark(m.(revision := revision, sequence := sequence), k)
         == FoldMark(m, k).(revision := revision, sequence := sequence)
    ensures FoldMark(m, k).incarnation == k.incarnation && FoldMark(m, k).epoch == k.epoch
    ensures FoldMark(m, k).revision == m.revision && FoldMark(m, k).sequence == m.sequence
  {
  }

  lemma PartWayStep(p: Prefix, obs: seq<Observation>, policy: CounterPolicy, state: State, mark: Mark, o: Observation)
    requires PartWay(p, obs, policy, state, mark)
    ensures PartWay(p, obs + [o], policy, Step(state, o, policy), FoldMark(mark, o.key))
  {
    hide Step, FoldMark, Wrap32, Inc32;
    assert (obs + [o])[..|obs|] == obs;
    WrapNext(p.foldedObservations + |obs|);
    FoldMarkIgnoresTail(AbsorbAll(p, obs, policy).mark, o.key, mark.revision, mark.sequence);
    FoldMeaning.StepOnFence(state, o, policy);
  }

  // ---- the ledger in place -------------------------------------------------------

  class SourceLedger {
    var source: u64
    var flow: u64
    var generation: u64
    var policy: CounterPolicy
    var capacity: nat
    var entries: seq<Observation>
    var prefix: Prefix
    var contentConflicts: u64
    var duplicatesSuppressed: u64
    var lateRejected: u64
    var totalAccepted: u64
    /** Everything folded away so far, in canonical order. */
    ghost var folded: seq<Observation>

    function Value(): Ledger
      reads this
    {
      Ledger(source, flow, generation, policy, capacity, entries, prefix,
             contentConflicts, duplicatesSuppressed, lateRejected, totalAccepted)
    }

    constructor (source: u64, flow: u64, generation: u64, capacity: nat)
      ensures Value() == Configured(source, flow, generation, capacity)
      ensures folded == []
    {
      this.source, this.flow, this.generation := source, flow, generation;
      this.capacity := if capacity == 0 then 1 else capacity;
      policy := DEFAULT_COUNTER_POLICY;
      entries, prefix := [], EMPTY_PREFIX;
      contentConflicts, duplicatesSuppressed, lateRejected, totalAccepted := 0, 0, 0, 0;
      folded := [];
    }

    method SetCounterPolicy(policy: CounterPolicy)
      modifies this`policy
      ensures this.policy == policy
    {
      this.policy := policy;
    }

    /** Folds `obs` on top of the prefix by advancing one mutable fold state. */
    method FoldOnto(obs: seq<Observation>) returns (p: Prefix)
      ensures p == AbsorbAll(prefix, obs, policy)
    {
      hide Step, FoldMark;
      var state := new FoldState(prefix.state);
      var mark, count := prefix.mark, prefix.foldedObservations;
      for i := 0 to |obs|
        invariant Prefix(count, state.Value(), mark) == AbsorbAll(prefix, obs[..i], policy)
        invariant fresh(state)
      {
        assert obs[..i + 1][..i] == obs[..i];
        state.ApplyObservation(obs[i], policy);
        mark := FoldMark(mark, obs[i].key);
        mark := mark.(revision := obs[i].key.revision, sequence := obs[i].key.sequence);
        count := Inc32(count);
      }
      assert obs[..|obs|] == obs;
      p := Prefix(count, state.Value(), mark);
    }

    /** The whole fold: the prefix with every retained entry on top. */
    method WholeFold() returns (p: Prefix)
      ensures p == FoldedState(Value())
    {
      if entries == [] {
        return prefix;
      }
      hide Step, FoldMark, PartWay, AbsorbAll, Wrap32;
      var start, obs, counters := prefix, entries, policy;
      var state := new FoldState(start.state);
      var mark := start.mark;
      PartWayStart(start, counters);
      for i := 0 to |obs|
        invariant fresh(state)
        invariant PartWay(start, obs[..i], counters, state.Value(), mark)
      {
        assert obs[..i + 1] == obs[..i] + [obs[i]];
        PartWayStep(start, obs[..i], counters, state.Value(), mark, obs[i]);
        state.ApplyObservation(obs[i], counters);
        mark := FoldMark(mark, obs[i].key);
      }
      assert obs[..|obs|] == obs;
      PartWayEnd(start, obs, counters, state.Value(), mark);
      var last := obs[|obs| - 1].key;
      mark := mark.(incarnation := state.fence.incarnation, epoch := state.fence.epoch,
                    revision := last.revision, sequence := last.sequence);
      p := Prefix(Wrap32(start.foldedObservations + |obs|), state.Value(), mark);
    }

    method Insert(o: Observation, digest: Observation -> u64) returns (outcome: Outcome)
      requires capacity > 0
      modifies this
      ensures outcome == InsertOutcome(old(Value()), o, digest)
      ensures Value() == Inserted(old(Value()), o, digest)
      ensures folded == old(folded) + Absorbed(old(Value()), o, digest)
    {
      hide Compact, KeyLess, WindowContains;
      if !o.Valid() || o.key.source != source || o.subject.flow != flow || o.subject.generation != generation {
        return Invalid;
      }
      if prefix.foldedObservations > 0 && !KeyLess(MarkKey(prefix.mark), o.key) {
        if WindowContains(prefix.mark, o.key) {
          duplicatesSuppressed := Inc64(duplicatesSuppressed);
          return Duplicate;
        }
        lateRejected := Inc64(lateRejected);
        return Late;
      }
      var position := LowerBound(entries, o.key);
      if position < |entries| && SameKey(entries[position].key, o.key) {
        if digest(entries[position]) == digest(o) {
          duplicatesSuppressed := Inc64(duplicatesSuppressed);
          return Duplicate;
        }
        contentConflicts := Inc64(contentConflicts);
        if digest(o) < digest(entries[position]) {
          entries := entries[position := o];
        }
        return ContentConflict;
      }
      entries := entries[..position] + [o] + entries[position..];
      totalAccepted := Inc64(totalAccepted);
      var excess := FoldExcess();
      return Accepted(excess);
    }

    /** Folds the lowest entries into the prefix instead of dropping them. */
    method FoldExcess() returns (excess: nat)
      modifies this`prefix, this`entries, this`folded
      ensures Value() == Compact(old(Value()))
      ensures excess == if |old(entries)| > capacity then |old(entries)| - capacity else 0
      ensures folded == old(folded) + old(entries)[..excess]
    {
      if |entries| <= capacity {
        return 0;
      }
      excess := |entries| - capacity;
      prefix := FoldOnto(entries[..excess]);
      folded := folded + entries[..excess];
      entries := entries[excess..];
    }

    method Clear()
      modifies this
      ensures Value() == old(Value()).(entries := [], prefix := EMPTY_PREFIX, contentConflicts := 0,
                                       duplicatesSuppressed := 0, lateRejected := 0, totalAccepted := 0)
      ensures folded == []
    {
      entries, prefix, folded := [], EMPTY_PREFIX, [];
      contentConflicts, duplicatesSuppressed, lateRejected, totalAccepted := 0, 0, 0, 0;
    }

    method Seed(p: Prefix)
      modifies this
      ensures Value() == old(Value()).(entries := [], prefix := p, contentConflicts := 0,
                                       duplicatesSuppressed := 0, lateRejected := 0,
                                       totalAccepted := p.foldedObservations)
      ensures folded == []
    {
      entries, prefix, folded := [], p, [];
      contentConflicts, duplicatesSuppressed, lateRejected := 0, 0, 0;
      totalAccepted := p.foldedObservations;
    }
  }
}
