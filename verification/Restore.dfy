/** A ledger recorded in a snapshot and restored from it. */
module Restore {
  import opened Checked
  import opened Evidence
  import opened Fold
  import opened Ledger
  import opened LedgerRefinement
  import FoldMeaning

  /** What the durable record of one source keeps of the complete fold. */
  datatype PersistedSource = PersistedSource(
    source: u64, incarnation: u64, epoch: u64, highRevision: u64, highSequence: u64,
    times: Times, lastProgress: i64, coverage: Coverage, hopCapacity: seq<u64>,
    forward: Accounting, reverse: Accounting, aggregate: Accounting,
    lastKind: Kind, lastDirection: Direction, lastClaim: Claim,
    declaredTerminal: Option<FlowState>, declaredCause: StateCause, observedProgress: bool,
    acceptedObservations: u32, historicalIncarnations: u32, afterTerminal: u32)

  function Persist(l: Ledger): PersistedSource {
    var p := FoldedState(l);
    var s := p.state;
    PersistedSource(l.source, s.fence.incarnation, s.fence.epoch, s.fence.highRevision, s.fence.highSequence,
                    s.times, s.lastProgress, s.coverage, s.hopCapacity, s.forward, s.reverse, s.aggregate,
                    s.latest.kind, s.latest.direction, s.latest.claim, s.declaredTerminal, s.declaredCause,
                    s.observedProgress, p.foldedObservations, s.historicalIncarnations, s.afterTerminal)
  }

  /** The fold state and fence a restart resumes from. Correlation, last counters and anomalies start over. */
  function RestoredPrefix(r: PersistedSource): Prefix {
    Prefix(
      r.acceptedObservations,
      State(r.forward, r.reverse, r.aggregate, r.coverage, r.declaredTerminal, r.declaredCause,
            Latest(r.lastKind, r.lastDirection, r.lastClaim, CounterSet(None, None, None)),
            r.times, r.lastProgress, r.observedProgress,
            Fence(r.incarnation, r.epoch, r.highRevision, r.highSequence,
                  if r.historicalIncarnations == 0 then 0 else Inc32(r.historicalIncarnations)),
            map[], r.historicalIncarnations, r.afterTerminal,
            Correlation(0, 0, None, [], [], false), r.hopCapacity),
      Mark(r.incarnation, r.epoch, r.highRevision, r.highSequence, true, 0, {}))
  }

  function Resumed(r: PersistedSource, flow: u64, generation: u64, capacity: nat): Ledger {
    Configured(r.source, flow, generation, capacity).(
      prefix := RestoredPrefix(r), totalAccepted := r.acceptedObservations)
  }

  /** Restoring is configuring a ledger and seeding it with the recorded prefix. */
  method Resume(r: PersistedSource, flow: u64, generation: u64, capacity: nat) returns (ledger: SourceLedger)
    ensures fresh(ledger)
    ensures ledger.Value() == Resumed(r, flow, generation, capacity) && ledger.folded == []
  {
    ledger := new SourceLedger(r.source, flow, generation, capacity);
    ledger.Seed(RestoredPrefix(r));
  }

  // ---- the accounting survives ----------------------------------------------------------

  /** Two fold states that account alike: only correlation, anomaly counts and the last counters may differ. */
  predicate SameAccounting(a: State, b: State) {
    && a.forward == b.forward && a.reverse == b.reverse && a.aggregate == b.aggregate
    && a.coverage == b.coverage && a.declaredTerminal == b.declaredTerminal && a.declaredCause == b.declaredCause
    && a.latest.(counters := b.latest.counters) == b.latest
    && a.times == b.times && a.lastProgress == b.lastProgress && a.observedProgress == b.observedProgress
    && a.fence.(distinctIncarnations := b.fence.distinctIncarnations) == b.fence
    && a.historicalIncarnations == b.historicalIncarnations && a.afterTerminal == b.afterTerminal
    && a.hopCapacity == b.hopCapacity
  }

  lemma AssignSameAccounting(a: State, b: State, slot: Slot, next: Accounting)
    requires SameAccounting(a, b)
    ensures SameAccounting(WithAccounting(a, slot, next), WithAccounting(b, slot, next))
    ensures AccountingOf(a, slot) == AccountingOf(b, slot)
  {
  }

  lemma ChargeSameAccounting(a: State, b: State, o: Observation, policy: CounterPolicy)
    requires SameAccounting(a, b)
    ensures SameAccounting(Charge(a, o, policy), Charge(b, o, policy))
  {
    hide CounterNotes, AccountingStep, MakesProgress, WithAccounting, AccountingOf;
    var slot := SlotOf(o.direction);
    var before := AccountingOf(a, slot);
    AssignSameAccounting(a, b, slot, before);
    var progress := MakesProgress(before, o, policy);
    var moved := if progress && o.observedAt > a.lastProgress then o.observedAt else a.lastProgress;
    AssignSameAccounting(
      a.(anomalies := CounterNotes(a.anomalies, before, o, policy), lastProgress := moved, observedProgress := a.observedProgress || progress),
      b.(anomalies := CounterNotes(b.anomalies, before, o, policy), lastProgress := moved, observedProgress := b.observedProgress || progress),
      slot, AccountingStep(before, o, policy));
  }

  lemma ArriveSameAccounting(a: State, b: State, o: Observation, policy: CounterPolicy)
    requires SameAccounting(a, b)
    ensures SameAccounting(Arrive(a, o, policy), Arrive(b, o, policy))
  {
    hide BreakIf, TimesStep, FenceAnomalies, CrossesBoundary;
  }

  lemma StepSameAccounting(a: State, b: State, o: Observation, policy: CounterPolicy)
    requires SameAccounting(a, b)
    ensures SameAccounting(Step(a, o, policy), Step(b, o, policy))
  {
    hide Arrive, Charge, CoverageStep, EvidenceNotes, CorrelationStep, AnyCounter;
    ArriveSameAccounting(a, b, o, policy);
    ChargeSameAccounting(Correlated(Describe(Arrive(a, o, policy), o), o.subject),
                         Correlated(Describe(Arrive(b, o, policy), o), o.subject), o, policy);
  }

  lemma {:induction false} FoldSameAccounting(a: State, b: State, obs: seq<Observation>, policy: CounterPolicy)
    requires SameAccounting(a, b)
    ensures SameAccounting(FoldAll(a, obs, policy), FoldAll(b, obs, policy))
  {
    hide Step, SameAccounting;
    if obs != [] {
      var front := obs[..|obs| - 1];
      FoldSameAccounting(a, b, front, policy);
      StepSameAccounting(FoldAll(a, front, policy), FoldAll(b, front, policy), obs[|obs| - 1], policy);
    }
  }

  lemma RestoredAccountsAlike(l: Ledger)
    ensures SameAccounting(RestoredPrefix(Persist(l)).state, FoldedState(l).state)
  {
  }

  // ---- nothing is counted twice ------------------------------------------------------------

  /** The restored fence: the last incarnation and epoch, the highest revision and the highest sequence. */
  function FenceKey(f: Fence): Key {
    Key(0, f.incarnation, f.epoch, f.highRevision, f.highSequence)
  }

  lemma {:induction false} FenceHighWater(s: State, obs: seq<Observation>, policy: CounterPolicy)
    requires obs != []
    ensures var f := FoldAll(s, obs, policy).fence;
            && f.incarnation == obs[|obs| - 1].key.incarnation && f.epoch == obs[|obs| - 1].key.epoch
            && (forall i :: 0 <= i < |obs| ==> obs[i].key.revision <= f.highRevision && obs[i].key.sequence <= f.highSequence)
  {
    hide Step;
    var front, last := obs[..|obs| - 1], obs[|obs| - 1];
    StepMovesFence(FoldAll(s, front, policy), last, policy);
    if front != [] {
      FenceHighWater(s, front, policy);
      assert forall i :: 0 <= i < |front| ==> front[i] == obs[i];
    }
  }

  /** After folding canonical evidence the fence is at or above every key folded. */
  lemma FenceAboveAll(s: State, obs: seq<Observation>, policy: CounterPolicy)
    requires obs != [] && StrictlySorted(obs)
    ensures var f := FoldAll(s, obs, policy).fence;
            && f.incarnation == obs[|obs| - 1].key.incarnation && f.epoch == obs[|obs| - 1].key.epoch
            && (forall o :: o in obs ==> o.key.revision <= f.highRevision && o.key.sequence <= f.highSequence)
            && (forall o :: o in obs ==> !KeyLess(FenceKey(f), o.key))
  {
    hide FoldAll, KeyLess;
    FenceHighWater(s, obs, policy);
    var f := FoldAll(s, obs, policy).fence;
    forall o | o in obs ensures !KeyLess(FenceKey(f), o.key) {
      var i :| 0 <= i < |obs| && obs[i] == o;
      BelowFence(f, o.key, obs[|obs| - 1].key);
    }
  }

  lemma BelowFence(f: Fence, k: Key, last: Key)
    requires KeyLess(k, last) || k == last
    requires f.incarnation == last.incarnation && f.epoch == last.epoch
    requires k.revision <= f.highRevision && k.sequence <= f.highSequence
    requires last.revision <= f.highRevision && last.sequence <= f.highSequence
    ensures !KeyLess(FenceKey(f), k)
  {
  }

  lemma StepMovesFence(s: State, o: Observation, policy: CounterPolicy)
    ensures Step(s, o, policy).fence == FenceStep(s.fence, o.key)
  {
    hide BreakIf, TimesStep, FenceAnomalies, CrossesBoundary, Charge, CoverageStep, EvidenceNotes, CorrelationStep;
    FoldMeaning.ChargeTouches(Correlated(Describe(Arrive(s, o, policy), o), o.subject), o, policy);
  }

  /**
   * Everything a ledger ever accepted is inside the restored fence, so no replay or redelivery after a
   * restart is applied a second time. What was already fenced before stays fenced.
   */
  lemma NothingReapplied(l: Ledger, base: Prefix, folded: seq<Observation>, o: Observation,
                         capacity: nat, digest: Observation -> u64)
    requires Inv(l, base, folded) && base.foldedObservations + |History(l, folded)| <= U32_MAX
    requires o in History(l, folded)
    ensures var r := Resumed(Persist(l), l.flow, l.generation, capacity);
            InFoldedRegion(r.prefix, o.key) && InsertOutcome(r, o, digest) == Late
  {
    hide AbsorbAll, Wrap32, Wrap64, KeyLess, FoldAll;
    var h := History(l, folded);
    ViewIsFullFold(l, base, folded);
    AbsorbAllFacts(base, h, l.policy);
    FenceAboveAll(base.state, h, l.policy);
  }

  lemma FenceNeverRetreats(l: Ledger, base: Prefix, folded: seq<Observation>, k: Key)
    requires Inv(l, base, folded) && base.foldedObservations + |History(l, folded)| <= U32_MAX
    requires History(l, folded) != [] && InFoldedRegion(l.prefix, k)
    ensures InFoldedRegion(RestoredPrefix(Persist(l)), k)
  {
    hide AbsorbAll, Wrap32, Wrap64, KeyLess, FoldAll;
    var h := History(l, folded);
    ViewIsFullFold(l, base, folded);
    AbsorbAllFacts(base, h, l.policy);
    AbsorbAllFacts(base, folded, l.policy);
    FenceAboveAll(base.state, h, l.policy);
    var fence := FenceKey(FoldAll(base.state, h, l.policy).fence);
    var mark := if folded != [] then folded[|folded| - 1].key else MarkKey(base.mark);
    var last := h[|h| - 1].key;
    AbsorbNothing(base, l.policy);
    assert h[|h| - 1] in h;
    assert folded != [] ==> h[|folded| - 1] == folded[|folded| - 1];
    KeyOrder(fence, k, last);
    KeyOrder(mark, last, k);
    KeyOrder(MarkKey(l.prefix.mark), mark, k);
    KeyOrder(last, k, fence);
    KeyOrder(mark, k, fence);
  }

  // ---- and nothing later is lost --------------------------------------------------------------

  lemma ResumedInv(l: Ledger, base: Prefix, folded: seq<Observation>, capacity: nat)
    requires Inv(l, base, folded)
    ensures var r := Resumed(Persist(l), l.flow, l.generation, capacity);
            Inv(r, r.prefix, [])
  {
    hide AbsorbAll;
    AbsorbNothing(RestoredPrefix(Persist(l)), DEFAULT_COUNTER_POLICY);
  }

  /** Evidence above a history is placed after it. */
  lemma {:induction false} PlaceAllAbove(h: seq<Observation>, batch: seq<Observation>, digest: Observation -> u64)
    requires forall x, o :: x in h && o in batch ==> KeyLess(x.key, o.key)
    ensures PlaceAll(h, batch, digest) == h + PlaceAll([], batch, digest)
  {
    hide Place, KeyLess;
    if batch == [] {
      assert h + [] == h;
    } else {
      var front, o := batch[..|batch| - 1], batch[|batch| - 1];
      PlaceAllAbove(h, front, digest);
      PlaceAfterPrefix(h, PlaceAll([], front, digest), o, digest);
    }
  }

  /** Evidence a resumed ledger admits lies above its fence. */
  lemma {:induction false} AdmittedAboveFence(r: Ledger, base: Prefix, batch: seq<Observation>, digest: Observation -> u64)
    requires Inv(r, base, []) && r.entries == [] && base.foldedObservations > 0
    requires base.foldedObservations + |RunFolded(r, batch, digest)| <= U32_MAX
    ensures forall o :: o in Admitted(r, batch, digest) ==> KeyLess(MarkKey(base.mark), o.key)
  {
    hide Inv, Inserted, Absorbed, InFoldedRegion, KeyLess, PlaceAll;
    if batch != [] {
      var front, o := batch[..|batch| - 1], batch[|batch| - 1];
      AdmittedAboveFence(r, base, front, digest);
      BoundedRefinesFullFold(r, base, [], front, digest);
      var before := Run(r, front, digest);
      assert [] + RunFolded(r, front, digest) == RunFolded(r, front, digest);
      if !InFoldedRegion(before.prefix, o.key) {
        AboveTheFold(before, base, RunFolded(r, front, digest), o.key);
      }
    }
  }

  /**
   * Restart and carry on, or never stop: for later evidence that both ledgers admit, in any order, the
   * accounting is the same — every accumulator, coverage, terminal declaration, progress, instant, fence
   * and high-water mark.
   */
  lemma RestoreIsHomomorphic(l: Ledger, base: Prefix, folded: seq<Observation>, capacity: nat,
                             batch: seq<Observation>, digest: Observation -> u64)
    requires Inv(l, base, folded) && l.policy == DEFAULT_COUNTER_POLICY && History(l, folded) != []
    requires base.foldedObservations + |History(l, folded)| <= U32_MAX
    requires base.foldedObservations + |folded| + |RunFolded(l, batch, digest)| <= U32_MAX
    requires var r := Resumed(Persist(l), l.flow, l.generation, capacity);
             && r.prefix.foldedObservations + |RunFolded(r, batch, digest)| <= U32_MAX
             && Admitted(l, batch, digest) == Admitted(r, batch, digest)
    ensures var r := Resumed(Persist(l), l.flow, l.generation, capacity);
            SameAccounting(FoldedEvidence(Run(r, batch, digest), DEFAULT_COUNTER_POLICY),
                           FoldedEvidence(Run(l, batch, digest), DEFAULT_COUNTER_POLICY))
  {
    hide Inv, AbsorbAll, Wrap32, KeyLess, FoldAll, FoldedEvidence, RunFolded, Admitted, PlaceAll, SameAccounting, Run;
    var r := Resumed(Persist(l), l.flow, l.generation, capacity);
    var h := History(l, folded);
    var later := Admitted(l, batch, digest);
    var placed := PlaceAll([], later, digest);
    ResumedInv(l, base, folded, capacity);
    BoundedRefinesFullFold(l, base, folded, batch, digest);
    BoundedRefinesFullFold(r, r.prefix, [], batch, digest);
    assert History(r, []) == [];
    ViewIsFullFold(l, base, folded);
    AbsorbAllFacts(base, h, l.policy);
    RestoredFenceAbove(l, base, folded);
    AdmittedAboveFence(r, r.prefix, batch, digest);
    forall x, o | x in h && o in later ensures KeyLess(x.key, o.key) {
      KeyOrder(MarkKey(r.prefix.mark), x.key, o.key);
      KeyOrder(x.key, MarkKey(r.prefix.mark), o.key);
    }
    PlaceAllAbove(h, later, digest);
    FoldAllConcat(base.state, h, placed, l.policy);
    RestoredAccountsAlike(l);
    FoldSameAccounting(r.prefix.state, FoldedState(l).state, placed, l.policy);
    RunPolicy(l, batch, digest);
    RunPolicy(r, batch, digest);
  }

  /** A ledger that appends everything it is shown has folded its history and then the batch. */
  lemma AppendedFold(l: Ledger, base: Prefix, folded: seq<Observation>, batch: seq<Observation>, digest: Observation -> u64)
    requires AppendsAll(l, base, folded, batch, digest)
    ensures FoldedEvidence(Run(l, batch, digest), l.policy) == FoldAll(FoldAll(base.state, History(l, folded), l.policy), batch, l.policy)
  {
    hide Inv, FoldAll, FoldedEvidence;
    RunPolicy(l, batch, digest);
    ViewIsFullFold(Run(l, batch, digest), base, folded + RunFolded(l, batch, digest));
    FoldAllConcat(base.state, History(l, folded), batch, l.policy);
  }

  /** The fence of the restored ledger lies above what the saved one started from and holds. */
  lemma AboveRestoredFence(l: Ledger, base: Prefix, folded: seq<Observation>, k: Key)
    requires Inv(l, base, folded) && History(l, folded) != []
    requires base.foldedObservations + |History(l, folded)| <= U32_MAX
    requires KeyLess(MarkKey(RestoredPrefix(Persist(l)).mark), k)
    ensures forall x :: x in History(l, folded) ==> KeyLess(x.key, k)
    ensures base.foldedObservations > 0 ==> KeyLess(MarkKey(base.mark), k)
  {
    RestoredFenceAbove(l, base, folded);
    var mark, h := MarkKey(RestoredPrefix(Persist(l)).mark), History(l, folded);
    assert h[0] in h;
    assert base.foldedObservations > 0 ==> KeyLess(MarkKey(base.mark), h[0].key);
    hide Inv, KeyLess, RestoredPrefix;
    forall x | x in h ensures KeyLess(x.key, k) {
      KeyOrder(mark, x.key, k);
      KeyOrder(x.key, mark, k);
    }
    KeyOrder(MarkKey(base.mark), h[0].key, k);
  }

  /** A restored ledger and the one that was saved both admit evidence in canonical order above the restored fence. */
  lemma BothAdmit(l: Ledger, base: Prefix, folded: seq<Observation>, capacity: nat, batch: seq<Observation>, digest: Observation -> u64)
    requires Inv(l, base, folded) && History(l, folded) != []
    requires StrictlySorted(batch) && (forall o :: o in batch ==> Belongs(l, o))
    requires forall o :: o in batch ==> KeyLess(MarkKey(RestoredPrefix(Persist(l)).mark), o.key)
    requires base.foldedObservations + |History(l, folded)| + |batch| <= U32_MAX
    ensures AppendsAll(l, base, folded, batch, digest)
    ensures var r := Resumed(Persist(l), l.flow, l.generation, capacity);
            AppendsAll(r, r.prefix, [], batch, digest) && History(r, []) == []
  {
    var r := Resumed(Persist(l), l.flow, l.generation, capacity);
    ResumedInv(l, base, folded, capacity);
    RestoredFenceAbove(l, base, folded);
    assert r.prefix == RestoredPrefix(Persist(l)) && r.entries == [];
    forall o ensures Belongs(r, o) == Belongs(l, o) {
    }
    hide Inv, Belongs, StrictlySorted, KeyLess, RestoredPrefix, AppendsAll, Persist, Resumed;
    forall o | o in batch ensures (forall x :: x in History(l, folded) ==> KeyLess(x.key, o.key))
                               && (base.foldedObservations > 0 ==> KeyLess(MarkKey(base.mark), o.key)) {
      AboveRestoredFence(l, base, folded, o.key);
    }
    AdmittedInOrder(l, base, folded, batch, digest);
    AdmittedInOrder(r, r.prefix, [], batch, digest);
  }

  /**
   * Restart and carry on, or never stop: evidence in canonical order above the restored fence is admitted whole by
   * both ledgers, and the accounting ends the same.
   */
  lemma RestoreContinues(l: Ledger, base: Prefix, folded: seq<Observation>, capacity: nat,
                         batch: seq<Observation>, digest: Observation -> u64)
    requires Inv(l, base, folded) && l.policy == DEFAULT_COUNTER_POLICY && History(l, folded) != []
    requires StrictlySorted(batch) && (forall o :: o in batch ==> Belongs(l, o))
    requires forall o :: o in batch ==> KeyLess(MarkKey(RestoredPrefix(Persist(l)).mark), o.key)
    requires base.foldedObservations + |History(l, folded)| + |batch| <= U32_MAX
    ensures var r := Resumed(Persist(l), l.flow, l.generation, capacity);
            && Admitted(l, batch, digest) == batch && Admitted(r, batch, digest) == batch
            && SameAccounting(FoldedEvidence(Run(r, batch, digest), DEFAULT_COUNTER_POLICY),
                              FoldedEvidence(Run(l, batch, digest), DEFAULT_COUNTER_POLICY))
  {
    var r := Resumed(Persist(l), l.flow, l.generation, capacity);
    BothAdmit(l, base, folded, capacity, batch, digest);
    AppendedFold(l, base, folded, batch, digest);
    AppendedFold(r, r.prefix, [], batch, digest);
    FoldNothing(r.prefix.state);
    ViewIsFullFold(l, base, folded);
    AbsorbAllFacts(base, History(l, folded), l.policy);
    RestoredAccountsAlike(l);
    hide Inv, FoldAll, FoldedEvidence, SameAccounting, Run, RunFolded, Admitted, StrictlySorted, Belongs, KeyLess, AbsorbAll;
    FoldSameAccounting(r.prefix.state, FoldedState(l).state, batch, DEFAULT_COUNTER_POLICY);
  }

  lemma FoldNothing(s: State)
    ensures FoldAll(s, [], DEFAULT_COUNTER_POLICY) == s
  {
  }

  lemma {:induction false} RunPolicy(l: Ledger, batch: seq<Observation>, digest: Observation -> u64)
    ensures Run(l, batch, digest).policy == l.policy
  {
    hide InsertOutcome, AbsorbAll, Place;
    if batch != [] {
      RunPolicy(l, batch[..|batch| - 1], digest);
    }
  }

  lemma RestoredFenceAbove(l: Ledger, base: Prefix, folded: seq<Observation>)
    requires Inv(l, base, folded) && History(l, folded) != []
    requires base.foldedObservations + |History(l, folded)| <= U32_MAX
    ensures var p := RestoredPrefix(Persist(l));
            && p.foldedObservations == base.foldedObservations + |History(l, folded)|
            && forall x :: x in History(l, folded) ==> !KeyLess(MarkKey(p.mark), x.key)
  {
    hide AbsorbAll, Wrap32, Wrap64, KeyLess, FoldAll;
    ViewIsFullFold(l, base, folded);
    AbsorbAllFacts(base, History(l, folded), l.policy);
    FenceAboveAll(base.state, History(l, folded), l.policy);
  }

  /**
   * The restored fence is stricter than the true one exactly when the last key does not carry both the
   * highest revision and the highest sequence: then some later key the ledger would have accepted is refused.
   */
  lemma RestoredFenceExactIff(l: Ledger, base: Prefix, folded: seq<Observation>)
    requires Inv(l, base, folded) && History(l, folded) != []
    requires base.foldedObservations + |History(l, folded)| <= U32_MAX
    ensures var p := RestoredPrefix(Persist(l));
            var last := History(l, folded)[|History(l, folded)| - 1].key;
            (forall k :: KeyLess(last, k) ==> !InFoldedRegion(p, k))
            <==> last.revision == p.state.fence.highRevision && last.sequence == p.state.fence.highSequence
  {
    hide AbsorbAll, Wrap32, Wrap64, FoldAll;
    var h := History(l, folded);
    var p := RestoredPrefix(Persist(l));
    ViewIsFullFold(l, base, folded);
    AbsorbAllFacts(base, h, l.policy);
    FenceAboveAll(base.state, h, l.policy);
    var last := h[|h| - 1].key;
    assert h[|h| - 1] in h;
    if !SameKey(last, MarkKey(p.mark)) {
      KeyOrder(last, MarkKey(p.mark), last);
      KeyOrder(MarkKey(p.mark), MarkKey(p.mark), last);
      assert InFoldedRegion(p, MarkKey(p.mark));
    }
  }
}
