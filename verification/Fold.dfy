/** The left fold of accepted evidence: one state per (flow, generation, source). */
module Fold {
  import opened Checked
  import opened Evidence
  import Counters

  // ---- state -----------------------------------------------------------------

  datatype Accounting = Accounting(
    bytes: Counters.Acc, packets: Counters.Acc, retransmissions: Counters.Acc,
    bytesUnsupported: bool, packetsUnsupported: bool, retransmissionsUnsupported: bool)

  datatype Coverage = Coverage(forwardComplete: bool, forwardPartial: bool, reverseComplete: bool, reversePartial: bool)

  datatype Times = Times(firstObserved: i64, lastObserved: i64, lastReceived: i64)

  /** The fences and the high-water marks of the source's own key. */
  datatype Fence = Fence(incarnation: u64, epoch: u64, highRevision: u64, highSequence: u64,
                         distinctIncarnations: u32)

  datatype Latest = Latest(kind: Kind, direction: Direction, claim: Claim, counters: CounterSet)

  datatype Correlation = Correlation(endpointA: u64, endpointB: u64, path: Option<u64>,
                                     links: seq<u64>, queues: seq<u64>, hasQueue: bool)

  type AnomalyTable = map<AnomalyKind, u32>

  datatype State = State(
    forward: Accounting, reverse: Accounting, aggregate: Accounting,
    coverage: Coverage, declaredTerminal: Option<FlowState>, declaredCause: StateCause,
    latest: Latest, times: Times, lastProgress: i64, observedProgress: bool,
    fence: Fence, anomalies: AnomalyTable,
    historicalIncarnations: u32, afterTerminal: u32,
    correlation: Correlation, hopCapacity: seq<u64>)

  const ZERO_ACCOUNTING: Accounting := Accounting(Counters.ZERO, Counters.ZERO, Counters.ZERO, false, false, false)

  const INITIAL: State := State(
    ZERO_ACCOUNTING, ZERO_ACCOUNTING, ZERO_ACCOUNTING,
    Coverage(false, false, false, false), None, NoCause,
    Latest(KUnknown, Unspecified, ClaimUnknown, CounterSet(None, None, None)),
    Times(0, 0, 0), 0, false, Fence(0, 0, 0, 0, 0), map[], 0, 0,
    Correlation(0, 0, None, [], [], false), [])

  function AnomalyCount(t: AnomalyTable, k: AnomalyKind): u32 {
    if k in t then t[k] else 0
  }

  function Note(t: AnomalyTable, k: AnomalyKind): AnomalyTable {
    t[k := Inc32(AnomalyCount(t, k))]
  }

  // ---- one step, as a function -------------------------------------------------

  function TimesStep(t: Times, o: Observation): Times {
    Times(
      if t.firstObserved == 0 || (o.observedAt != 0 && o.observedAt < t.firstObserved) then o.observedAt else t.firstObserved,
      if o.observedAt > t.lastObserved then o.observedAt else t.lastObserved,
      if o.receivedAt > t.lastReceived then o.receivedAt else t.lastReceived)
  }

  /** Does moving from this fence to this key leave an interval nobody observed? */
  predicate CrossesBoundary(incarnation: u64, epoch: u64, k: Key) {
    if k.incarnation != incarnation then incarnation != 0 else k.epoch != epoch
  }

  function FenceStep(f: Fence, k: Key): Fence {
    Fence(k.incarnation, k.epoch,
          if k.revision > f.highRevision then k.revision else f.highRevision,
          if k.sequence > f.highSequence then k.sequence else f.highSequence,
          if k.incarnation != f.incarnation then Inc32(f.distinctIncarnations) else f.distinctIncarnations)
  }

  function FenceAnomalies(t: AnomalyTable, incarnation: u64, epoch: u64, o: Observation, policy: CounterPolicy): AnomalyTable {
    if o.key.incarnation != incarnation then
      if incarnation != 0 then Note(t, RestartGap) else t
    else if o.key.epoch != epoch && !(policy.honorExplicitReset && AnnouncesCounterRestart(o.kind)) then
      Note(t, CounterRegression)
    else t
  }

  function BreakAccounting(a: Accounting): Accounting {
    a.(bytes := Counters.Break(a.bytes), packets := Counters.Break(a.packets),
       retransmissions := Counters.Break(a.retransmissions))
  }

  function BreakIf(broken: bool, a: Accounting): Accounting {
    if broken then BreakAccounting(a) else a
  }

  /** Everything that happens whether or not the generation has already ended. */
  function Arrive(s: State, o: Observation, policy: CounterPolicy): State {
    var broken := CrossesBoundary(s.fence.incarnation, s.fence.epoch, o.key);
    s.(forward := BreakIf(broken, s.forward), reverse := BreakIf(broken, s.reverse),
       aggregate := BreakIf(broken, s.aggregate),
       times := TimesStep(s.times, o), fence := FenceStep(s.fence, o.key),
       anomalies := FenceAnomalies(s.anomalies, s.fence.incarnation, s.fence.epoch, o, policy))
  }

  predicate Ended(s: State) {
    s.declaredTerminal.Some? && IsTerminal(s.declaredTerminal.value)
  }

  function CoverageStep(c: Coverage, o: Observation): Coverage {
    match o.direction
    case Forward => if o.claim == Complete then c.(forwardComplete := true) else c.(forwardPartial := true)
    case Reverse => if o.claim == Complete then c.(reverseComplete := true) else c.(reversePartial := true)
    case Aggregate => c
    case Unspecified => c
  }

  function AddOnce(s: seq<u64>, x: Option<u64>): seq<u64> {
    if x.Some? && x.value !in s then s + [x.value] else s
  }

  function EndpointsStep(c: Correlation, endpoint: u64, peer: u64): Correlation {
    var c1 :=
      if endpoint == 0 then c
      else if c.endpointA == 0 then c.(endpointA := endpoint)
      else if c.endpointA != endpoint && c.endpointB == 0 then c.(endpointB := endpoint)
      else c;
    if peer != 0 && c1.endpointB == 0 && c1.endpointA != peer then c1.(endpointB := peer) else c1
  }

  function CorrelationStep(c: Correlation, s: Subject): Correlation {
    EndpointsStep(c, s.endpoint, s.peerEndpoint).(
      path := if s.path.Some? && c.path.None? then s.path else c.path,
      links := AddOnce(c.links, s.link),
      queues := AddOnce(c.queues, s.queue),
      hasQueue := c.hasQueue || s.queue.Some?)
  }

  datatype Slot = ForwardSlot | ReverseSlot | AggregateSlot

  datatype Metric = Bytes | Packets | Retransmissions

  function SlotOf(d: Direction): Slot {
    match d
    case Forward => ForwardSlot
    case Reverse => ReverseSlot
    case Aggregate => AggregateSlot
    case Unspecified => AggregateSlot
  }

  function AccountingOf(s: State, slot: Slot): Accounting {
    match slot
    case ForwardSlot => s.forward
    case ReverseSlot => s.reverse
    case AggregateSlot => s.aggregate
  }

  function WithAccounting(s: State, slot: Slot, a: Accounting): State {
    match slot
    case ForwardSlot => s.(forward := a)
    case ReverseSlot => s.(reverse := a)
    case AggregateSlot => s.(aggregate := a)
  }

  function Reading(c: CounterSet, m: Metric): Option<u64> {
    match m
    case Bytes => c.bytes
    case Packets => c.packets
    case Retransmissions => c.retransmissions
  }

  function AccOf(a: Accounting, m: Metric): Counters.Acc {
    match m
    case Bytes => a.bytes
    case Packets => a.packets
    case Retransmissions => a.retransmissions
  }

  function ObservedAcc(a: Counters.Acc, v: Option<u64>, policy: CounterPolicy): Counters.Acc {
    if v.Some? then Counters.Observed(a, v.value, policy.regressionAsReset) else a
  }

  function CounterOutcome(a: Counters.Acc, v: Option<u64>, policy: CounterPolicy): Option<Counters.Outcome> {
    if v.Some? then Some(Counters.ObserveOutcome(a, v.value, policy.regressionAsReset)) else None
  }

  function CounterAnomaly(t: AnomalyTable, claim: Claim, outcome: Option<Counters.Outcome>): AnomalyTable {
    match outcome
    case None => if claim == Unsupported then Note(t, UnsupportedMetric) else t
    case Some(Regressed) => Note(t, CounterRegression)
    case Some(Held) => Note(t, CounterRegression)
    case Some(Saturated) => Note(t, CounterOverflow)
    case Some(_) => t
  }

  function AccountingStep(a: Accounting, o: Observation, policy: CounterPolicy): Accounting {
    Accounting(
      ObservedAcc(a.bytes, o.counters.bytes, policy),
      ObservedAcc(a.packets, o.counters.packets, policy),
      ObservedAcc(a.retransmissions, o.counters.retransmissions, policy),
      a.bytesUnsupported || (o.counters.bytes.None? && o.claim == Unsupported),
      a.packetsUnsupported || (o.counters.packets.None? && o.claim == Unsupported),
      a.retransmissionsUnsupported || (o.counters.retransmissions.None? && o.claim == Unsupported))
  }

  predicate Advances(a: Accounting, c: CounterSet, policy: CounterPolicy) {
    || CounterOutcome(a.bytes, c.bytes, policy) == Some(Counters.Advanced)
    || CounterOutcome(a.packets, c.packets, policy) == Some(Counters.Advanced)
    || CounterOutcome(a.retransmissions, c.retransmissions, policy) == Some(Counters.Advanced)
  }

  function CounterNotes(t: AnomalyTable, a: Accounting, o: Observation, policy: CounterPolicy): AnomalyTable {
    var t1 := CounterAnomaly(t, o.claim, CounterOutcome(a.bytes, o.counters.bytes, policy));
    var t2 := CounterAnomaly(t1, o.claim, CounterOutcome(a.packets, o.counters.packets, policy));
    var t3 := CounterAnomaly(t2, o.claim, CounterOutcome(a.retransmissions, o.counters.retransmissions, policy));
    if AnyCounter(o.counters) && o.direction == Unspecified then Note(t3, IncompleteEvidence) else t3
  }

  function EvidenceNotes(t: AnomalyTable, o: Observation): AnomalyTable {
    var t1 := if o.direction == Aggregate || o.direction == Unspecified then Note(t, IncompleteEvidence) else t;
    if o.kind == KError then Note(t1, MalformedEvidence) else t1
  }

  predicate MakesProgress(a: Accounting, o: Observation, policy: CounterPolicy) {
    Advances(a, o.counters, policy) || o.kind == KProgress || o.kind == KOpen || o.kind == KPathChange
  }

  /** What the observation says apart from its counters. */
  function Describe(s: State, o: Observation): State {
    s.(latest := Latest(o.kind, o.direction, o.claim, if AnyCounter(o.counters) then o.counters else s.latest.counters),
       coverage := CoverageStep(s.coverage, o),
       declaredTerminal := if o.kind == KClose then Some(Completed) else if o.kind == KReset then Some(Reset) else s.declaredTerminal,
       declaredCause := if o.kind == KClose then CompletionObserved else if o.kind == KReset then ResetObserved else s.declaredCause,
       anomalies := EvidenceNotes(s.anomalies, o))
  }

  /** The resources it names; an absent resource never detaches one another observation supplied. */
  function Correlated(s: State, subject: Subject): State {
    s.(correlation := CorrelationStep(s.correlation, subject),
       hopCapacity := if s.hopCapacity == [] then subject.hopCapacity else s.hopCapacity)
  }

  /** What its counters prove, charged to the accounting of its direction. */
  function Charge(s: State, o: Observation, policy: CounterPolicy): State {
    var slot := SlotOf(o.direction);
    var before := AccountingOf(s, slot);
    var progress := MakesProgress(before, o, policy);
    WithAccounting(
      s.(anomalies := CounterNotes(s.anomalies, before, o, policy),
         lastProgress := if progress && o.observedAt > s.lastProgress then o.observedAt else s.lastProgress,
         observedProgress := s.observedProgress || progress),
      slot, AccountingStep(before, o, policy))
  }

  function Step(s: State, o: Observation, policy: CounterPolicy): State {
    var arrived := Arrive(s, o, policy);
    if Ended(arrived) then arrived.(afterTerminal := Inc32(s.afterTerminal))
    else Charge(Correlated(Describe(arrived, o), o.subject), o, policy)
  }

  function FoldAll(s: State, obs: seq<Observation>, policy: CounterPolicy): State {
    if obs == [] then s
    else Step(FoldAll(s, obs[..|obs| - 1], policy), obs[|obs| - 1], policy)
  }

  /** Folding a prefix and then the rest is folding the whole. */
  lemma {:induction false} FoldAllConcat(s: State, a: seq<Observation>, b: seq<Observation>, policy: CounterPolicy)
    ensures FoldAll(s, a + b, policy) == FoldAll(FoldAll(s, a, policy), b, policy)
  {
    if b == [] {
      assert a + b == a;
    } else {
      var front := b[..|b| - 1];
      FoldAllConcat(s, a, front, policy);
      assert (a + b)[..|a + b| - 1] == a + front;
    }
  }

  // ---- the same step, in place -------------------------------------------------

  /** The fold state the runtime advances field by field. */
  class FoldState {
    var forward: Accounting
    var reverse: Accounting
    var aggregate: Accounting
    var coverage: Coverage
    var declaredTerminal: Option<FlowState>
    var declaredCause: StateCause
    var latest: Latest
    var times: Times
    var lastProgress: i64
    var observedProgress: bool
    var fence: Fence
    var anomalies: AnomalyTable
    var historicalIncarnations: u32
    var afterTerminal: u32
    var correlation: Correlation
    var hopCapacity: seq<u64>

    function Value(): State
      reads this
    {
      State(forward, reverse, aggregate, coverage, declaredTerminal, declaredCause, latest, times, lastProgress,
            observedProgress, fence, anomalies, historicalIncarnations, afterTerminal, correlation, hopCapacity)
    }

    constructor (s: State)
      ensures Value() == s
    {
      forward, reverse, aggregate, coverage := s.forward, s.reverse, s.aggregate, s.coverage;
      declaredTerminal, declaredCause, latest := s.declaredTerminal, s.declaredCause, s.latest;
      times, lastProgress, observedProgress := s.times, s.lastProgress, s.observedProgress;
      fence, anomalies := s.fence, s.anomalies;
      historicalIncarnations, afterTerminal := s.historicalIncarnations, s.afterTerminal;
      correlation, hopCapacity := s.correlation, s.hopCapacity;
    }

    method BreakInterval()
      modifies this`forward, this`reverse, this`aggregate
      ensures forward == BreakAccounting(old(forward))
      ensures reverse == BreakAccounting(old(reverse))
      ensures aggregate == BreakAccounting(old(aggregate))
    {
      forward := BreakAccounting(forward);
      reverse := BreakAccounting(reverse);
      aggregate := BreakAccounting(aggregate);
    }

    method AdvanceTimes(o: Observation)
      modifies this`times
      ensures times == TimesStep(old(times), o)
    {
      if times.firstObserved == 0 || (o.observedAt != 0 && o.observedAt < times.firstObserved) {
        times := times.(firstObserved := o.observedAt);
      }
      if o.observedAt > times.lastObserved {
        times := times.(lastObserved := o.observedAt);
      }
      if o.receivedAt > times.lastReceived {
        times := times.(lastReceived := o.receivedAt);
      }
    }

    method AdvanceHighWater(k: Key)
      modifies this`fence
      ensures fence == old(fence).(
        highRevision := if k.revision > old(fence).highRevision then k.revision else old(fence).highRevision,
        highSequence := if k.sequence > old(fence).highSequence then k.sequence else old(fence).highSequence)
    {
      if k.revision > fence.highRevision {
        fence := fence.(highRevision := k.revision);
      }
      if k.sequence > fence.highSequence {
        fence := fence.(highSequence := k.sequence);
      }
    }

    /** The incarnation and epoch fences, once the times and high-water marks have moved. */
    method CrossFences(o: Observation, policy: CounterPolicy)
      modifies this`fence, this`anomalies, this`forward, this`reverse, this`aggregate
      ensures fence == old(fence).(
        incarnation := o.key.incarnation, epoch := o.key.epoch,
        distinctIncarnations := if o.key.incarnation != old(fence).incarnation then Inc32(old(fence).distinctIncarnations)
                                else old(fence).distinctIncarnations)
      ensures anomalies == FenceAnomalies(old(anomalies), old(fence).incarnation, old(fence).epoch, o, policy)
      ensures var broken := CrossesBoundary(old(fence).incarnation, old(fence).epoch, o.key);
              && forward == BreakIf(broken, old(forward))
              && reverse == BreakIf(broken, old(reverse))
              && aggregate == BreakIf(broken, old(aggregate))
    {
      if o.key.incarnation != fence.incarnation {
        if fence.incarnation != 0 {
          BreakInterval();
          anomalies := Note(anomalies, RestartGap);
        }
        fence := fence.(incarnation := o.key.incarnation, epoch := o.key.epoch,
                        distinctIncarnations := Inc32(fence.distinctIncarnations));
      } else if o.key.epoch != fence.epoch {
        BreakInterval();
        if !(policy.honorExplicitReset && AnnouncesCounterRestart(o.kind)) {
          anomalies := Note(anomalies, CounterRegression);
        }
        fence := fence.(epoch := o.key.epoch);
      }
    }

    method CorrelatePath(s: Subject)
      modifies this`correlation
      ensures correlation == old(correlation).(
        path := if s.path.Some? && old(correlation).path.None? then s.path else old(correlation).path,
        links := AddOnce(old(correlation).links, s.link),
        queues := AddOnce(old(correlation).queues, s.queue),
        hasQueue := old(correlation).hasQueue || s.queue.Some?)
    {
      if s.path.Some? && correlation.path.None? {
        correlation := correlation.(path := s.path);
      }
      if s.link.Some? && s.link.value !in correlation.links {
        correlation := correlation.(links := correlation.links + [s.link.value]);
      }
      if s.queue.Some? {
        correlation := correlation.(hasQueue := true);
        if s.queue.value !in correlation.queues {
          correlation := correlation.(queues := correlation.queues + [s.queue.value]);
        }
      }
    }

    method Correlate(s: Subject)
      modifies this`correlation, this`hopCapacity
      ensures Value() == Correlated(old(Value()), s)
    {
      CorrelateEndpoints(s.endpoint, s.peerEndpoint);
      CorrelatePath(s);
      if hopCapacity == [] && s.hopCapacity != [] {
        hopCapacity := s.hopCapacity;
      }
    }

    method CorrelateEndpoints(endpoint: u64, peer: u64)
      modifies this`correlation
      ensures correlation == EndpointsStep(old(correlation), endpoint, peer)
    {
      if endpoint != 0 {
        if correlation.endpointA == 0 {
          correlation := correlation.(endpointA := endpoint);
        } else if correlation.endpointA != endpoint && correlation.endpointB == 0 {
          correlation := correlation.(endpointB := endpoint);
        }
      }
      if peer != 0 && correlation.endpointB == 0 && correlation.endpointA != peer {
        correlation := correlation.(endpointB := peer);
      }
    }

    method ApplyCounter(acc: Counters.Acc, value: Option<u64>, claim: Claim, policy: CounterPolicy)
      returns (next: Counters.Acc, unsupported: bool, advanced: bool)
      modifies this`anomalies
      ensures next == ObservedAcc(acc, value, policy)
      ensures unsupported <==> value.None? && claim == Unsupported
      ensures advanced <==> CounterOutcome(acc, value, policy) == Some(Counters.Advanced)
      ensures anomalies == CounterAnomaly(old(anomalies), claim, CounterOutcome(acc, value, policy))
    {
      hide Counters.Observed, Counters.ObserveOutcome, Note;
      next, unsupported, advanced := acc, false, false;
      if value.None? {
        if claim == Unsupported {
          unsupported := true;
          anomalies := Note(anomalies, UnsupportedMetric);
        }
        return;
      }
      var accumulator := new Counters.CounterAccumulator.Restore(acc);
      var outcome := accumulator.Observe(value.value, policy.regressionAsReset);
      next := accumulator.Value();
      match outcome
      case Advanced => advanced := true;
      case Regressed => anomalies := Note(anomalies, CounterRegression);
      case Saturated => anomalies := Note(anomalies, CounterOverflow);
      case Held => anomalies := Note(anomalies, CounterRegression);
      case BaselineEstablished =>
      case Unchanged =>
    }

    method Cover(o: Observation)
      modifies this`coverage, this`anomalies
      ensures coverage == CoverageStep(old(coverage), o)
      ensures anomalies == if o.direction == Aggregate || o.direction == Unspecified then Note(old(anomalies), IncompleteEvidence)
                           else old(anomalies)
    {
      match o.direction {
        case Forward =>
          coverage := if o.claim == Complete then coverage.(forwardComplete := true) else coverage.(forwardPartial := true);
        case Reverse =>
          coverage := if o.claim == Complete then coverage.(reverseComplete := true) else coverage.(reversePartial := true);
        case Aggregate =>
          anomalies := Note(anomalies, IncompleteEvidence);
        case Unspecified =>
          anomalies := Note(anomalies, IncompleteEvidence);
      }
    }

    method Declare(kind: Kind)
      modifies this`declaredTerminal, this`declaredCause, this`anomalies
      ensures declaredTerminal == if kind == KClose then Some(Completed) else if kind == KReset then Some(Reset) else old(declaredTerminal)
      ensures declaredCause == if kind == KClose then CompletionObserved else if kind == KReset then ResetObserved else old(declaredCause)
      ensures anomalies == if kind == KError then Note(old(anomalies), MalformedEvidence) else old(anomalies)
    {
      if kind == KClose {
        declaredTerminal, declaredCause := Some(Completed), CompletionObserved;
      } else if kind == KReset {
        declaredTerminal, declaredCause := Some(Reset), ResetObserved;
      } else if kind == KError {
        anomalies := Note(anomalies, MalformedEvidence);
      }
    }

    /** Feeds the three counters of one direction; `advanced` reports proven progress. */
    method ApplyCounters(a: Accounting, o: Observation, policy: CounterPolicy) returns (next: Accounting, advanced: bool)
      modifies this`anomalies
      ensures next == AccountingStep(a, o, policy)
      ensures advanced <==> Advances(a, o.counters, policy)
      ensures anomalies == CounterNotes(old(anomalies), a, o, policy)
    {
      var bytes, bytesUnsupported, bytesAdvanced := ApplyCounter(a.bytes, o.counters.bytes, o.claim, policy);
      var packets, packetsUnsupported, packetsAdvanced := ApplyCounter(a.packets, o.counters.packets, o.claim, policy);
      var retx, retxUnsupported, retxAdvanced := ApplyCounter(a.retransmissions, o.counters.retransmissions, o.claim, policy);
      next := Accounting(bytes, packets, retx, a.bytesUnsupported || bytesUnsupported,
                         a.packetsUnsupported || packetsUnsupported,
                         a.retransmissionsUnsupported || retxUnsupported);
      advanced := bytesAdvanced || packetsAdvanced || retxAdvanced;
      if AnyCounter(o.counters) && o.direction == Unspecified {
        anomalies := Note(anomalies, IncompleteEvidence);
      }
    }

    method RecordProgress(advanced: bool, o: Observation)
      modifies this`lastProgress, this`observedProgress
      ensures var progress := advanced || o.kind == KProgress || o.kind == KOpen || o.kind == KPathChange;
              && lastProgress == (if progress && o.observedAt > old(lastProgress) then o.observedAt else old(lastProgress))
              && observedProgress == (old(observedProgress) || progress)
    {
      if advanced || o.kind == KProgress || o.kind == KOpen || o.kind == KPathChange {
        if o.observedAt > lastProgress {
          lastProgress := o.observedAt;
        }
        observedProgress := true;
      }
    }

    method SetAccounting(slot: Slot, a: Accounting)
      modifies this`forward, this`reverse, this`aggregate
      ensures Value() == WithAccounting(old(Value()), slot, a)
    {
      match slot {
        case ForwardSlot => forward := a;
        case ReverseSlot => reverse := a;
        case AggregateSlot => aggregate := a;
      }
    }

    method ChargeCounters(o: Observation, policy: CounterPolicy)
      modifies this
      ensures Value() == Charge(old(Value()), o, policy)
    {
      hide AccountingStep, CounterNotes, Advances, WithAccounting, AccountingOf;
      var slot := SlotOf(o.direction);
      var next, advanced := ApplyCounters(AccountingOf(Value(), slot), o, policy);
      RecordProgress(advanced, o);
      SetAccounting(slot, next);
    }

    method AdvanceTimesAndFences(o: Observation, policy: CounterPolicy)
      modifies this
      ensures Value() == Arrive(old(Value()), o, policy)
    {
      hide TimesStep, CrossesBoundary, BreakIf, FenceAnomalies;
      AdvanceTimes(o);
      AdvanceHighWater(o.key);
      CrossFences(o, policy);
    }

    method DescribeEvidence(o: Observation)
      modifies this
      ensures Value() == Describe(old(Value()), o)
    {
      hide CoverageStep, Note, AnyCounter;
      latest := Latest(o.kind, o.direction, o.claim, if AnyCounter(o.counters) then o.counters else latest.counters);
      Cover(o);
      Declare(o.kind);
    }

    method ApplyObservation(o: Observation, policy: CounterPolicy)
      modifies this
      ensures Value() == Step(old(Value()), o, policy)
    {
      hide TimesStep, FenceStep, BreakIf, FenceAnomalies, Describe, Correlated, Charge;
      AdvanceTimesAndFences(o, policy);
      if declaredTerminal.Some? && IsTerminal(declaredTerminal.value) {
        afterTerminal := Inc32(afterTerminal);
        return;
      }
      DescribeEvidence(o);
      Correlate(o.subject);
      ChargeCounters(o, policy);
    }
  }
}
