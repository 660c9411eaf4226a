/** What the folded state says about the evidence it was folded from. */
module FoldMeaning {
  import opened Checked
  import opened Evidence
  import opened Fold
  import Counters

  // ---- fences and the end of a generation ------------------------------------

  /** The (incarnation, epoch) in force after a sequence; both are zero before any evidence. */
  function FenceAfter(obs: seq<Observation>): (u64, u64) {
    if obs == [] then (0, 0) else (obs[|obs| - 1].key.incarnation, obs[|obs| - 1].key.epoch)
  }

  predicate EndedBy(obs: seq<Observation>) {
    exists i :: 0 <= i < |obs| && DeclaresTerminal(obs[i].kind)
  }

  lemma EndedByAppend(front: seq<Observation>, o: Observation)
    ensures EndedBy(front + [o]) <==> EndedBy(front) || DeclaresTerminal(o.kind)
  {
    var obs := front + [o];
    if EndedBy(front) {
      var i :| 0 <= i < |front| && DeclaresTerminal(front[i].kind);
      assert DeclaresTerminal(obs[i].kind);
    }
    if EndedBy(obs) && !DeclaresTerminal(o.kind) {
      var i :| 0 <= i < |obs| && DeclaresTerminal(obs[i].kind);
      assert DeclaresTerminal(front[i].kind);
    }
    assert obs[|front|] == o;
  }

  /** Charging counters touches the accounting of one direction, the anomaly table and progress, nothing else. */
  lemma ChargeTouches(s: State, o: Observation, policy: CounterPolicy)
    ensures var t := Charge(s, o, policy);
            && t.fence == s.fence && t.times == s.times && t.coverage == s.coverage && t.latest == s.latest
            && t.declaredTerminal == s.declaredTerminal && t.declaredCause == s.declaredCause
            && t.afterTerminal == s.afterTerminal && t.historicalIncarnations == s.historicalIncarnations
            && t.correlation == s.correlation && t.hopCapacity == s.hopCapacity
  {
  }

  /** The fences move to the observation's key; the end is declared once, by the evidence that declares it. */
  lemma StepOnFence(s: State, o: Observation, policy: CounterPolicy)
    ensures var t := Step(s, o, policy);
            && t.fence.incarnation == o.key.incarnation && t.fence.epoch == o.key.epoch
            && (Ended(t) <==> Ended(s) || DeclaresTerminal(o.kind))
            && (!Ended(s) && DeclaresTerminal(o.kind) ==> t.declaredTerminal == Some(DeclaredBy(o.kind)))
            && (!Ended(s) && !DeclaresTerminal(o.kind) ==> t.declaredTerminal == s.declaredTerminal)
            && (!Ended(s) ==> t.afterTerminal == s.afterTerminal)
  {
    hide Charge, Counters.Break, EvidenceNotes, CorrelationStep, CoverageStep;
    ChargeTouches(Correlated(Describe(Arrive(s, o, policy), o), o.subject), o, policy);
  }

  /** Evidence after the end is counted and changes nothing that was concluded. */
  lemma StepAfterEnd(s: State, o: Observation, policy: CounterPolicy)
    requires Ended(s)
    ensures SameOutcome(Step(s, o, policy), s)
    ensures Step(s, o, policy).afterTerminal == Inc32(s.afterTerminal)
  {
  }

  lemma NothingEnds()
    ensures !EndedBy([])
  {
  }

  lemma {:induction false} FoldFence(obs: seq<Observation>, policy: CounterPolicy)
    ensures var s := FoldAll(INITIAL, obs, policy);
            && s.fence.incarnation == FenceAfter(obs).0 && s.fence.epoch == FenceAfter(obs).1
            && (Ended(s) <==> EndedBy(obs))
            && (!EndedBy(obs) ==> s.declaredTerminal == None && s.afterTerminal == 0)
  {
    hide Step, EndedBy;
    if obs == [] {
      NothingEnds();
    } else {
      var front, o := obs[..|obs| - 1], obs[|obs| - 1];
      FoldFence(front, policy);
      StepOnFence(FoldAll(INITIAL, front, policy), o, policy);
      EndedByAppend(front, o);
      assert obs == front + [o];
    }
  }

  // ---- consumption -------------------------------------------------------------

  /**
   * The readings of one counter of one direction, with the breaks between them: a break wherever the
   * source restarted, a reading wherever evidence before the end carried the counter.
   */
  function Events(obs: seq<Observation>, slot: Slot, m: Metric): seq<Counters.Event> {
    if obs == [] then []
    else
      var front, o := obs[..|obs| - 1], obs[|obs| - 1];
      var (incarnation, epoch) := FenceAfter(front);
      Events(front, slot, m)
      + (if CrossesBoundary(incarnation, epoch, o.key) then [Counters.Boundary] else [])
      + (if !EndedBy(front) && SlotOf(o.direction) == slot && Reading(o.counters, m).Some?
         then [Counters.Reading(Reading(o.counters, m).value)] else [])
  }

  lemma RunAppend(events: seq<Counters.Event>, e: Counters.Event, reset: bool)
    ensures Counters.Run(events + [e], reset) == Counters.Feed(Counters.Run(events, reset), e, reset)
  {
    assert (events + [e])[..|events + [e]| - 1] == events;
  }

  /** Feeding the events of one observation: a break, or not, then a reading, or not. */
  lemma StepEvents(events: seq<Counters.Event>, broken: bool, reading: Option<u64>, reset: bool)
    ensures
      var before := Counters.Run(events, reset);
      var moved := if broken then Counters.Break(before) else before;
      Counters.Run(events + (if broken then [Counters.Boundary] else [])
                          + (if reading.Some? then [Counters.Reading(reading.value)] else []), reset)
        == if reading.Some? then Counters.Observed(moved, reading.value, reset) else moved
  {
    var crossed := events + (if broken then [Counters.Boundary] else []);
    if broken {
      RunAppend(events, Counters.Boundary, reset);
    } else {
      assert crossed == events;
    }
    if reading.Some? {
      RunAppend(crossed, Counters.Reading(reading.value), reset);
    } else {
      assert crossed + [] == crossed;
    }
  }

  /** One step of the fold, seen by one counter. */
  lemma StepOnCounter(s: State, o: Observation, policy: CounterPolicy, slot: Slot, m: Metric)
    ensures
      var before := AccOf(AccountingOf(s, slot), m);
      var moved := if CrossesBoundary(s.fence.incarnation, s.fence.epoch, o.key) then Counters.Break(before) else before;
      AccOf(AccountingOf(Step(s, o, policy), slot), m) ==
        if !Ended(s) && SlotOf(o.direction) == slot && Reading(o.counters, m).Some?
        then Counters.Observed(moved, Reading(o.counters, m).value, policy.regressionAsReset)
        else moved
  {
    hide Counters.Break, Counters.Observed, CounterNotes, EvidenceNotes, CorrelationStep;
  }

  lemma {:induction false} FoldOnCounter(obs: seq<Observation>, policy: CounterPolicy, slot: Slot, m: Metric)
    ensures AccOf(AccountingOf(FoldAll(INITIAL, obs, policy), slot), m)
         == Counters.Run(Events(obs, slot, m), policy.regressionAsReset)
  {
    if obs != [] {
      var front, o := obs[..|obs| - 1], obs[|obs| - 1];
      FoldOnCounter(front, policy, slot, m);
      FoldFence(front, policy);
      StepOnCounter(FoldAll(INITIAL, front, policy), o, policy, slot, m);
      StepEvents(Events(front, slot, m), CrossesBoundary(FenceAfter(front).0, FenceAfter(front).1, o.key),
                 if !EndedBy(front) && SlotOf(o.direction) == slot then Reading(o.counters, m) else None,
                 policy.regressionAsReset);
    }
  }

  /**
   * Consumption is conserved by the whole fold: each of the nine totals is what the stretches between
   * source restarts prove, capped at 2^64 - 1 and flagged exactly when capped, and every gap is counted.
   */
  lemma ConsumptionConserved(obs: seq<Observation>, policy: CounterPolicy, slot: Slot, m: Metric)
    ensures Counters.Accounts(AccOf(AccountingOf(FoldAll(INITIAL, obs, policy), slot), m),
                              Counters.Intervals(Events(obs, slot, m)), policy.regressionAsReset)
  {
    FoldOnCounter(obs, policy, slot, m);
    Counters.Conservation(Events(obs, slot, m), policy.regressionAsReset);
  }

  // ---- the first terminal declaration wins ---------------------------------------

  function DeclaredBy(k: Kind): FlowState
    requires DeclaresTerminal(k)
  {
    if k == KClose then Completed else Reset
  }

  /** What later evidence may still change: times, fences, breaks and the count of ignored evidence. */
  predicate SameOutcome(a: State, b: State) {
    && a.declaredTerminal == b.declaredTerminal && a.declaredCause == b.declaredCause
    && a.coverage == b.coverage && a.latest == b.latest
    && a.correlation == b.correlation && a.hopCapacity == b.hopCapacity
    && a.lastProgress == b.lastProgress && a.observedProgress == b.observedProgress
    && SameConsumption(a.forward, b.forward) && SameConsumption(a.reverse, b.reverse)
    && SameConsumption(a.aggregate, b.aggregate)
  }

  predicate SameConsumption(a: Accounting, b: Accounting) {
    && a.bytes.accumulated == b.bytes.accumulated && a.bytes.saturated == b.bytes.saturated
    && a.packets.accumulated == b.packets.accumulated && a.packets.saturated == b.packets.saturated
    && a.retransmissions.accumulated == b.retransmissions.accumulated
    && a.retransmissions.saturated == b.retransmissions.saturated
  }

  /**
   * The first Close or Reset in canonical order decides the outcome. Everything after it is counted and
   * changes neither the declaration nor anything the generation consumed or proved.
   */
  lemma {:induction false} FirstTerminalWins(obs: seq<Observation>, first: nat, policy: CounterPolicy)
    requires first < |obs| && DeclaresTerminal(obs[first].kind) && !EndedBy(obs[..first])
    ensures var s := FoldAll(INITIAL, obs, policy);
            && s.declaredTerminal == Some(DeclaredBy(obs[first].kind))
            && s.afterTerminal == Wrap32(|obs| - 1 - first)
            && SameOutcome(s, FoldAll(INITIAL, obs[..first + 1], policy))
    decreases |obs|
  {
    hide Step;
    var front, o := obs[..|obs| - 1], obs[|obs| - 1];
    if first == |obs| - 1 {
      assert front == obs[..first];
      assert obs[..first + 1] == obs;
      FoldFence(front, policy);
      StepOnFence(FoldAll(INITIAL, front, policy), o, policy);
    } else {
      assert front[..first] == obs[..first];
      assert front[..first + 1] == obs[..first + 1];
      FirstTerminalWins(front, first, policy);
      StepAfterEnd(FoldAll(INITIAL, front, policy), o, policy);
    }
  }
}
