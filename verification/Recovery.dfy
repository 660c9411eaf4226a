/** Recovery joined to the live engine: what a snapshot's records reload, and what a cut log replays onto it. */
module Recovery {
  import opened Checked
  import opened Evidence
  import opened Fold
  import opened LedgerRefinement
  import opened Runtime
  import CrashRecovery
  import Engine
  import EngineSafety
  import FlowSafety
  import History
  import Journal
  import JournalRecovery
  import Ledger
  import ObsCodec
  import QueuedIngest
  import Reconcile
  import Restore
  import Saved = StateCodec
  import Snapshot

  // ---- what reloading makes of a saved flow -------------------------------------------------------

  function TimingOf(t: Saved.Instants): Reconcile.Timing {
    Reconcile.Timing(t.firstObserved, t.lastObserved, t.lastReceived, t.lastProgress)
  }

  /** The part of a saved source its ledger is resumed from. */
  function LedgerPart(s: Saved.Source): Restore.PersistedSource {
    Restore.PersistedSource(
      s.descriptor.id, s.incarnation, s.epoch, s.highRevision, s.highSequence,
      Times(s.instants.firstObserved, s.instants.lastObserved, s.instants.lastReceived), s.instants.lastProgress,
      s.coverage, s.hopCapacity, s.forward, s.reverse, s.aggregate, s.lastKind, s.lastDirection, s.lastClaim,
      s.declaredTerminal, s.declaredCause, s.observedProgress,
      s.tallies.accepted, s.tallies.historicalIncarnations, s.tallies.afterTerminal)
  }

  function LoadedBinding(s: Saved.Source, flow: u64, generation: u64, limits: Limits): Binding {
    Binding(s.descriptor.id, Restore.Resumed(LedgerPart(s), flow, generation, limits.maxObservations), true, false, s.tallies.refused, {})
  }

  /** The first `n` of a sequence. */
  function First<T>(s: seq<T>, n: nat): (r: seq<T>)
    ensures |r| <= n && r <= s
    ensures |s| <= n ==> r == s
  {
    if |s| <= n then s else s[..n]
  }

  function LoadedGeneration(g: Saved.Generation, flow: u64, limits: Limits): Generation {
    var sources := First(g.sources, limits.maxBindings);
    Generation(g.id, g.state, g.cause, TimingOf(g.instants), g.closedAt, g.coverage, g.endpointA, g.endpointB,
               seq(|sources|, i requires 0 <= i < |sources| => LoadedBinding(sources[i], flow, g.id, limits)), g.instants.lastReceived)
  }

  function LoadedEvent(e: Saved.Event): Event {
    Event(e.at, e.observedAt, e.generation, e.from, e.to, e.cause, e.source)
  }

  function LoadedAnomaly(a: Saved.Anomaly): Anomaly {
    Anomaly(a.kind, a.at, a.observedAt, a.generation, a.source)
  }

  /** The runtime flow that opening makes of a saved flow: nothing beyond the limits, nobody heard. */
  function LoadedFlow(f: Saved.Flow, limits: Limits): Flow {
    var generations := First(f.generations, limits.maxGenerations);
    Flow(f.id, f.key, f.collisions, f.current, f.revision, f.state, f.cause, f.coverage, TimingOf(f.instants), f.stateChangedAt,
         seq(|generations|, i requires 0 <= i < |generations| => LoadedGeneration(generations[i], f.id, limits)),
         History.Newest(seq(|f.history|, i requires 0 <= i < |f.history| => LoadedEvent(f.history[i])), limits.maxHistory),
         seq(|f.anomalies|, i requires 0 <= i < |f.anomalies| => LoadedAnomaly(f.anomalies[i])), f.anomaliesDropped,
         true, f.instants.lastReceived)
  }

  // ---- what saving records ---------------------------------------------------------------------------

  /** The saved source records this binding: the complete fold of its ledger, and what it refused. */
  predicate RecordsBinding(s: Saved.Source, b: Binding) {
    LedgerPart(s) == Restore.Persist(b.ledger).(source := b.source) && s.tallies.refused == b.refused
  }

  predicate RecordsGeneration(s: Saved.Generation, g: Generation) {
    && s.id == g.id && s.state == g.state && s.cause == g.cause && TimingOf(s.instants) == g.timing && s.closedAt == g.closedAt
    && s.coverage == g.coverage && s.endpointA == g.endpointA && s.endpointB == g.endpointB
    && |s.sources| == |g.bindings| && forall i :: 0 <= i < |g.bindings| ==> RecordsBinding(s.sources[i], g.bindings[i])
  }

  /** The saved flow records this flow: every field the runtime flow has. */
  predicate RecordsFlow(s: Saved.Flow, f: Flow) {
    && s.id == f.id && s.key == f.key && s.collisions == f.collisions && s.current == f.current && s.revision == f.revision
    && s.state == f.state && s.cause == f.cause && s.coverage == f.coverage && TimingOf(s.instants) == f.timing
    && s.stateChangedAt == f.stateChangedAt && s.anomaliesDropped == f.anomaliesDropped
    && |s.generations| == |f.generations| && (forall i :: 0 <= i < |f.generations| ==> RecordsGeneration(s.generations[i], f.generations[i]))
    && |s.history| == |f.history| && (forall i :: 0 <= i < |f.history| ==> LoadedEvent(s.history[i]) == f.history[i])
    && |s.anomalies| == |f.anomalies| && (forall i :: 0 <= i < |f.anomalies| ==> LoadedAnomaly(s.anomalies[i]) == f.anomalies[i])
  }

  lemma LoadedGenerationIs(s: Saved.Generation, g: Generation, flow: u64, limits: Limits)
    requires RecordsGeneration(s, g) && |g.bindings| <= limits.maxBindings
    ensures LoadedGeneration(s, flow, limits) == Engine.RestoredGeneration(g, flow, limits)
  {
    hide LedgerPart, Restore.Persist, Restore.Resumed;
    var loaded, restored := LoadedGeneration(s, flow, limits), Engine.RestoredGeneration(g, flow, limits);
    forall i | 0 <= i < |g.bindings| ensures loaded.bindings[i] == restored.bindings[i] {
      assert RecordsBinding(s.sources[i], g.bindings[i]);
      LoadedBindingIs(s.sources[i], g.bindings[i], flow, g.id, limits);
    }
  }

  lemma LoadedBindingIs(s: Saved.Source, b: Binding, flow: u64, generation: u64, limits: Limits)
    requires RecordsBinding(s, b)
    ensures LoadedBinding(s, flow, generation, limits) == Engine.RestoredBinding(b, flow, generation, limits)
  {
    hide Restore.Resumed;
  }

  /** Reloading what was saved of a flow gives the flow a restart starts from. */
  lemma LoadedFlowIs(s: Saved.Flow, f: Flow, limits: Limits)
    requires RecordsFlow(s, f) && FlowSafety.FlowOk(f, limits)
    ensures LoadedFlow(s, limits) == Engine.RestoredFlow(f, limits)
  {
    hide RecordsGeneration, LoadedGeneration, Engine.RestoredGeneration, LoadedEvent, LoadedAnomaly;
    var loaded, restored := LoadedFlow(s, limits), Engine.RestoredFlow(f, limits);
    forall i | 0 <= i < |f.generations| ensures loaded.generations[i] == restored.generations[i] {
      assert FlowSafety.GenerationOk(f.generations[i], f.id, limits);
      LoadedGenerationIs(s.generations[i], f.generations[i], f.id, limits);
    }
    assert loaded.history == f.history && loaded.anomalies == f.anomalies;
  }

  // ---- the whole snapshot ------------------------------------------------------------------------------

  function LoadedDescriptor(d: Saved.Descriptor): Descriptor {
    Descriptor(d.authority, d.capabilities, d.advisoryOnly)
  }

  /** Reloading flow by flow; a flow that is there already is not replaced. */
  function LoadedFlows(fs: seq<Saved.Flow>, limits: Limits): map<u64, Flow> {
    if fs == [] then map[]
    else
      var front, last := LoadedFlows(fs[..|fs| - 1], limits), fs[|fs| - 1];
      if last.id in front then front else front[last.id := LoadedFlow(last, limits)]
  }

  function LoadedSources(ds: seq<Saved.Descriptor>): Sources {
    if ds == [] then map[]
    else
      LoadedSources(ds[..|ds| - 1])[ds[|ds| - 1].id := SourceRecord(LoadedDescriptor(ds[|ds| - 1]), false)]
  }

  function LoadedMachine(s: Snapshot.State, config: Config): Engine.Machine {
    Engine.Machine(config, LoadedFlows(s.flows, config.limits), LoadedSources(s.sources), Engine.NO_REGISTRIES, Engine.NO_TALLY, true)
  }

  predicate RecordsFlows(fs: seq<Saved.Flow>, flows: map<u64, Flow>) {
    && (forall i, j :: 0 <= i < j < |fs| ==> fs[i].id != fs[j].id)
    && (forall i :: 0 <= i < |fs| ==> fs[i].id in flows && RecordsFlow(fs[i], flows[fs[i].id]))
    && (forall f :: f in flows ==> exists i :: 0 <= i < |fs| && fs[i].id == f)
  }

  predicate RecordsSources(ds: seq<Saved.Descriptor>, sources: Sources) {
    && (forall i :: 0 <= i < |ds| ==>
          ds[i].id in sources && sources[ds[i].id] == SourceRecord(LoadedDescriptor(ds[i]), false))
    && (forall id :: id in sources && !sources[id].retired ==> exists i :: 0 <= i < |ds| && ds[i].id == id)
  }

  /** The snapshot records this engine: every flow once, and every source that has not been retired. */
  predicate Records(s: Snapshot.State, m: Engine.Machine) {
    RecordsFlows(s.flows, m.flows) && RecordsSources(s.sources, m.sources)
  }

  lemma {:induction false} LoadedFlowsAre(fs: seq<Saved.Flow>, limits: Limits)
    requires forall i, j :: 0 <= i < j < |fs| ==> fs[i].id != fs[j].id
    ensures forall id :: id in LoadedFlows(fs, limits) <==> exists i :: 0 <= i < |fs| && fs[i].id == id
    ensures forall i :: 0 <= i < |fs| ==> fs[i].id in LoadedFlows(fs, limits) && LoadedFlows(fs, limits)[fs[i].id] == LoadedFlow(fs[i], limits)
  {
    hide LoadedFlow;
    if fs != [] {
      var front, last := fs[..|fs| - 1], fs[|fs| - 1];
      LoadedFlowsAre(front, limits);
      assert forall i :: 0 <= i < |front| ==> front[i] == fs[i];
      assert last.id !in LoadedFlows(front, limits);
    }
  }

  lemma {:induction false} LoadedSourcesAre(ds: seq<Saved.Descriptor>)
    ensures forall id :: id in LoadedSources(ds) ==> exists i :: 0 <= i < |ds| && ds[i].id == id
                                                       && LoadedSources(ds)[id] == SourceRecord(LoadedDescriptor(ds[i]), false)
    ensures forall i :: 0 <= i < |ds| ==> ds[i].id in LoadedSources(ds)
  {
    if ds != [] {
      var front := ds[..|ds| - 1];
      LoadedSourcesAre(front);
      assert forall i :: 0 <= i < |front| ==> front[i] == ds[i];
    }
  }

  lemma FlowsReload(fs: seq<Saved.Flow>, m: Engine.Machine)
    requires EngineSafety.MachineOk(m) && RecordsFlows(fs, m.flows)
    ensures LoadedFlows(fs, m.config.limits) == Engine.Restarted(m).flows
  {
    hide RecordsFlow, LoadedFlow, Engine.RestoredFlow, FlowSafety.FlowOk;
    LoadedFlowsAre(fs, m.config.limits);
    var loaded, restarted := LoadedFlows(fs, m.config.limits), Engine.Restarted(m).flows;
    forall f | f in m.flows ensures f in loaded && loaded[f] == restarted[f] {
      var i :| 0 <= i < |fs| && fs[i].id == f;
      LoadedFlowIs(fs[i], m.flows[f], m.config.limits);
    }
    assert loaded.Keys == restarted.Keys;
  }

  lemma SourcesReload(ds: seq<Saved.Descriptor>, m: Engine.Machine)
    requires RecordsSources(ds, m.sources)
    ensures LoadedSources(ds) == Engine.Restarted(m).sources
  {
    hide Engine.RestoredFlow;
    LoadedSourcesAre(ds);
    var loaded, restarted := LoadedSources(ds), Engine.Restarted(m).sources;
    forall id ensures id in loaded <==> id in restarted {
    }
    assert loaded.Keys == restarted.Keys;
  }

  /** Reloading a snapshot that records an engine gives exactly the engine a restart begins with. */
  lemma SnapshotReopens(s: Snapshot.State, m: Engine.Machine)
    requires EngineSafety.MachineOk(m) && Records(s, m)
    ensures LoadedMachine(s, m.config) == Engine.Restarted(m)
  {
    FlowsReload(s.flows, m);
    SourcesReload(s.sources, m);
    hide LoadedFlows, LoadedSources, Engine.RestoredFlow;
  }

  // ---- the evidence after the snapshot ---------------------------------------------------------------------

  /** As the log keeps it: evidence without its source keys. */
  function Stripped(os: seq<Observation>): (r: seq<Observation>)
    ensures |r| == |os| && forall i :: 0 <= i < |os| ==> r[i] == os[i].(sourceKey := [])
  {
    seq(|os|, i requires 0 <= i < |os| => os[i].(sourceKey := []))
  }

  lemma StripArrive(s: Fold.State, o: Observation, policy: CounterPolicy)
    ensures Arrive(s, o.(sourceKey := []), policy) == Arrive(s, o, policy)
  {
    hide BreakIf, FenceStep;
  }

  lemma StripDescribe(s: Fold.State, o: Observation)
    ensures Describe(s, o.(sourceKey := [])) == Describe(s, o)
  {
    hide Note;
  }

  lemma StripCharge(s: Fold.State, o: Observation, policy: CounterPolicy)
    ensures Charge(s, o.(sourceKey := []), policy) == Charge(s, o, policy)
  {
    hide CounterAnomaly, ObservedAcc, CounterOutcome, Note;
  }

  /** The fold does not look at source keys. */
  lemma StripStep(s: Fold.State, o: Observation, policy: CounterPolicy)
    ensures Step(s, o.(sourceKey := []), policy) == Step(s, o, policy)
  {
    hide Arrive, Describe, Correlated, Charge;
    StripArrive(s, o, policy);
    StripDescribe(Arrive(s, o, policy), o);
    StripCharge(Correlated(Describe(Arrive(s, o, policy), o), o.subject), o, policy);
  }

  lemma {:induction false} StripFold(s: Fold.State, os: seq<Observation>, policy: CounterPolicy)
    ensures FoldAll(s, Stripped(os), policy) == FoldAll(s, os, policy)
  {
    hide Step;
    if os != [] {
      var front := os[..|os| - 1];
      StripFold(s, front, policy);
      assert Stripped(os)[..|os| - 1] == Stripped(front);
      StripStep(FoldAll(s, front, policy), os[|os| - 1], policy);
    }
  }

  lemma {:induction false} StripFor(l: Ledger.Ledger, r: Ledger.Ledger, os: seq<Observation>)
    requires r.source == l.source && r.flow == l.flow && r.generation == l.generation
    ensures QueuedIngest.For(r, Stripped(os)) == Stripped(QueuedIngest.For(l, os))
  {
    if os != [] {
      var front, o := os[..|os| - 1], os[|os| - 1];
      StripFor(l, r, front);
      assert Stripped(os)[..|os| - 1] == Stripped(front);
      assert Ledger.Belongs(r, o.(sourceKey := [])) == Ledger.Belongs(l, o);
    } else {
      assert Stripped(os) == [];
    }
  }

  /** The evidence for a ledger stands in canonical order above the fence that restoring it gives. */
  ghost predicate Continues(l: Ledger.Ledger, base: Ledger.Prefix, folded: seq<Observation>, os: seq<Observation>) {
    var mine := QueuedIngest.For(l, os);
    && Inv(l, base, folded) && l.policy == DEFAULT_COUNTER_POLICY && LedgerRefinement.History(l, folded) != []
    && StrictlySorted(mine)
    && (forall o :: o in mine ==> KeyLess(Ledger.MarkKey(Restore.RestoredPrefix(Restore.Persist(l)).mark), o.key))
    && base.foldedObservations + |LedgerRefinement.History(l, folded)| + |mine| <= U32_MAX
  }

  lemma StrippedAlike(l: Ledger.Ledger, mine: seq<Observation>, k: Key)
    requires StrictlySorted(mine) && (forall o :: o in mine ==> Ledger.Belongs(l, o) && KeyLess(k, o.key))
    ensures StrictlySorted(Stripped(mine)) && (forall o :: o in Stripped(mine) ==> Ledger.Belongs(l, o) && KeyLess(k, o.key))
  {
    var r := Stripped(mine);
    forall i | 0 <= i < |r| ensures Ledger.Belongs(l, r[i]) && KeyLess(k, r[i].key) {
      assert mine[i] in mine;
    }
    forall i, j | 0 <= i < j < |r| ensures KeyLess(r[i].key, r[j].key) {
      assert KeyLess(mine[i].key, mine[j].key);
    }
    hide KeyLess, Ledger.Belongs;
  }

  /**
   * A ledger that is saved, reloaded and shown what the log kept accounts for exactly what the ledger that was never
   * stopped accounts for: the log may hold evidence for any other ledgers in between.
   */
  lemma ReplayedLedger(l: Ledger.Ledger, base: Ledger.Prefix, folded: seq<Observation>, capacity: nat,
                       os: seq<Observation>, digest: Observation -> u64)
    requires Continues(l, base, folded, os)
    ensures var r := Restore.Resumed(Restore.Persist(l), l.flow, l.generation, capacity);
            Restore.SameAccounting(Ledger.FoldedEvidence(Run(r, Stripped(os), digest), DEFAULT_COUNTER_POLICY),
                                   Ledger.FoldedEvidence(Run(l, os, digest), DEFAULT_COUNTER_POLICY))
  {
    var mine := QueuedIngest.For(l, os);
    var r := Restore.Resumed(Restore.Persist(l), l.flow, l.generation, capacity);
    QueuedIngest.ForElements(l, os);
    QueuedIngest.OthersPassBy(l, os, digest);
    QueuedIngest.OthersPassBy(r, Stripped(os), digest);
    StripFor(l, r, os);
    StrippedAlike(l, mine, Ledger.MarkKey(Restore.RestoredPrefix(Restore.Persist(l)).mark));
    ReplayedMine(l, base, folded, capacity, mine, digest);
  }

  lemma ReplayedMine(l: Ledger.Ledger, base: Ledger.Prefix, folded: seq<Observation>, capacity: nat,
                     mine: seq<Observation>, digest: Observation -> u64)
    requires Inv(l, base, folded) && l.policy == DEFAULT_COUNTER_POLICY && LedgerRefinement.History(l, folded) != []
    requires forall b | b == mine || b == Stripped(mine) ::
               && StrictlySorted(b) && (forall o :: o in b ==> Ledger.Belongs(l, o))
               && (forall o :: o in b ==> KeyLess(Ledger.MarkKey(Restore.RestoredPrefix(Restore.Persist(l)).mark), o.key))
    requires base.foldedObservations + |LedgerRefinement.History(l, folded)| + |mine| <= U32_MAX
    ensures var r := Restore.Resumed(Restore.Persist(l), l.flow, l.generation, capacity);
            Restore.SameAccounting(Ledger.FoldedEvidence(Run(r, Stripped(mine), digest), DEFAULT_COUNTER_POLICY),
                                   Ledger.FoldedEvidence(Run(l, mine, digest), DEFAULT_COUNTER_POLICY))
  {
    var r := Restore.Resumed(Restore.Persist(l), l.flow, l.generation, capacity);
    hide Inv, Run, Ledger.FoldedEvidence, StrictlySorted, KeyLess, Ledger.Belongs, Restore.Persist, Restore.RestoredPrefix, Restore.SameAccounting;
    Restore.RestoreContinues(l, base, folded, capacity, mine, digest);
    Restore.BothAdmit(l, base, folded, capacity, mine, digest);
    Restore.BothAdmit(l, base, folded, capacity, Stripped(mine), digest);
    assert r.policy == DEFAULT_COUNTER_POLICY;
    hide AppendsAll, Restore.Resumed, FoldAll;
    Restore.AppendedFold(r, r.prefix, [], mine, digest);
    Restore.AppendedFold(r, r.prefix, [], Stripped(mine), digest);
    StripFold(FoldAll(r.prefix.state, LedgerRefinement.History(r, []), r.policy), mine, r.policy);
  }

  // ---- from the bytes a crash leaves to the accounting ---------------------------------------------------------

  lemma {:induction false} ForPrefix(l: Ledger.Ledger, os: seq<Observation>, n: nat)
    requires n <= |os|
    ensures QueuedIngest.For(l, os[..n]) <= QueuedIngest.For(l, os)
  {
    hide Ledger.Belongs;
    if n < |os| {
      ForPrefix(l, os[..|os| - 1], n);
      assert os[..|os| - 1][..n] == os[..n];
    } else {
      assert os[..n] == os;
    }
  }

  lemma ContinuesPrefix(l: Ledger.Ledger, base: Ledger.Prefix, folded: seq<Observation>, os: seq<Observation>, n: nat)
    requires Continues(l, base, folded, os) && n <= |os|
    ensures Continues(l, base, folded, os[..n])
  {
    ForPrefix(l, os, n);
    var mine, less := QueuedIngest.For(l, os), QueuedIngest.For(l, os[..n]);
    assert less == mine[..|less|];
    SortedSlice(mine, 0, |less|);
    hide Inv, QueuedIngest.For, StrictlySorted, KeyLess;
  }

  /** The ledger a restart begins with, in the place of this one. */
  lemma RestartedLedger(m: Engine.Machine, f: u64, i: nat, k: nat)
    requires EngineSafety.MachineOk(m) && f in m.flows && i < |m.flows[f].generations| && k < |m.flows[f].generations[i].bindings|
    ensures var l := m.flows[f].generations[i].bindings[k].ledger;
            var r := Engine.Restarted(m);
            && f in r.flows && i < |r.flows[f].generations| && k < |r.flows[f].generations[i].bindings|
            && r.flows[f].generations[i].bindings[k].ledger
               == Restore.Resumed(Restore.Persist(l), l.flow, l.generation, m.config.limits.maxObservations)
  {
    hide Restore.RestoredPrefix, Reconfirmed;
    var flow := m.flows[f];
    assert FlowSafety.FlowOk(flow, m.config.limits);
    assert FlowSafety.GenerationOk(flow.generations[i], flow.id, m.config.limits);
    assert FlowSafety.BindingOk(flow.generations[i].bindings[k], flow.id, flow.generations[i].id, m.config.limits);
  }

  /** Only one observation, up to its source key, has the values a log gives back for it. */
  lemma ValuesStripped(a: seq<Observation>, b: seq<Observation>)
    requires Snapshot.ObservationValues(a) == Snapshot.ObservationValues(b)
    ensures Stripped(a) == Stripped(b)
  {
    hide ObsCodec.ObservationItems;
    assert |a| == |b| by { assert |Snapshot.ObservationValues(a)| == |Snapshot.ObservationValues(b)|; }
    forall i | 0 <= i < |a| ensures a[i].(sourceKey := []) == b[i].(sourceKey := []) {
      assert Snapshot.ObservationValues(a)[i] == Snapshot.ObservationValues(b)[i];
      ObsCodec.ItemsDetermine(a[i], b[i]);
    }
  }

  /** What a log gives back: this state and this evidence are the only ones with the values that were read. */
  ghost predicate GivesBack(log: seq<Snapshot.Record>, limits: Snapshot.Limits, recovery: Snapshot.Recovery,
                            s: Snapshot.State, os: seq<Observation>) {
    Snapshot.Replay(Snapshot.NOTHING_REPLAYED, log, 0, limits, recovery)
    == Snapshot.Ok(Snapshot.Replayed(Snapshot.ValuesOf(s), true, Snapshot.ObservationValues(os)))
  }

  /**
   * A crash at any byte after the snapshot of an engine: the bytes left are a log, and whatever state and evidence
   * it gives back, loading the state is the restart of the engine, and the evidence is exactly what was recorded
   * wholly before the cut, in order.
   */
  lemma CrashReopens(s: Snapshot.State, m: Engine.Machine, description: Text, os: seq<Observation>, cut: nat,
                     journal: Journal.Limits, limits: Snapshot.Limits, recovery: Snapshot.Recovery)
    returns (n: nat, log: seq<Snapshot.Record>)
    requires EngineSafety.MachineOk(m) && Records(s, m)
    requires limits.Valid() && Snapshot.Writable(s) && |description| <= U32_MAX && |s.sources| <= U32_MAX && |s.flows| <= U32_MAX
    requires Snapshot.Readable(s, description, limits, recovery) && |os| <= limits.maxObservations
    requires forall k :: 0 <= k < |os| ==> ObsCodec.Writable(os[k]) && ObsCodec.KeepsLimits(os[k], limits.bounds.key, limits.maxHops)
    requires JournalRecovery.WellFormed(CrashRecovery.Log(s, description, os), journal)
    requires |Journal.EncodeAll(Snapshot.Group(s, description))| <= cut <= |Journal.EncodeAll(CrashRecovery.Log(s, description, os))|
    ensures n <= |os|
    ensures |Snapshot.Group(s, description)| + n == JournalRecovery.WholeBefore(CrashRecovery.Log(s, description, os), cut)
    ensures Journal.Parse(Journal.EncodeAll(CrashRecovery.Log(s, description, os))[..cut], Journal.TruncateTornTail, journal, 0)
         == Journal.Ok(log)
    ensures GivesBack(log, limits, recovery, s, os[..n])
    ensures forall t, kept | GivesBack(log, limits, recovery, t, kept) ::
              LoadedMachine(t, m.config) == Engine.Restarted(m) && Stripped(kept) == Stripped(os[..n])
  {
    hide Records, EngineSafety.MachineOk, Snapshot.Writable, Snapshot.Readable, Snapshot.ValuesOf, Snapshot.ObservationValues, Snapshot.Replay,
         Snapshot.Group, CrashRecovery.Log, Journal.EncodeAll, Journal.Parse, JournalRecovery.WellFormed, JournalRecovery.WholeBefore,
         LoadedMachine, Engine.Restarted, ObsCodec.Writable, ObsCodec.KeepsLimits;
    n := CrashRecovery.CrashRecovers(s, description, os, cut, journal, limits, recovery);
    log := CrashRecovery.Log(s, description, os[..n]);
    SnapshotReopens(s, m);
    forall t, kept | GivesBack(log, limits, recovery, t, kept)
      ensures LoadedMachine(t, m.config) == Engine.Restarted(m) && Stripped(kept) == Stripped(os[..n])
    {
      Snapshot.ValuesDetermine(s, t);
      ValuesStripped(kept, os[..n]);
    }
  }

  /**
   * The accounting of every ledger survives the crash: the ledger loaded in the place of `l`, shown the evidence the
   * log gives back, accounts for what `l` accounted for when the last whole record had been applied.
   */
  lemma CrashKeepsAccounting(m: Engine.Machine, f: u64, i: nat, k: nat, base: Ledger.Prefix, folded: seq<Observation>,
                             t: Snapshot.State, os: seq<Observation>, n: nat, kept: seq<Observation>, digest: Observation -> u64)
    requires EngineSafety.MachineOk(m) && f in m.flows && i < |m.flows[f].generations| && k < |m.flows[f].generations[i].bindings|
    requires Continues(m.flows[f].generations[i].bindings[k].ledger, base, folded, os) && n <= |os|
    requires LoadedMachine(t, m.config) == Engine.Restarted(m) && Stripped(kept) == Stripped(os[..n])
    ensures var l := m.flows[f].generations[i].bindings[k].ledger;
            var r := LoadedMachine(t, m.config);
            && f in r.flows && i < |r.flows[f].generations| && k < |r.flows[f].generations[i].bindings|
            && Restore.SameAccounting(
                 Ledger.FoldedEvidence(Run(r.flows[f].generations[i].bindings[k].ledger, Stripped(kept), digest), DEFAULT_COUNTER_POLICY),
                 Ledger.FoldedEvidence(Run(l, os[..n], digest), DEFAULT_COUNTER_POLICY))
  {
    hide EngineSafety.MachineOk, Continues, LoadedMachine, Engine.Restarted, Run, Ledger.FoldedEvidence, Restore.SameAccounting,
         Restore.Resumed, Restore.Persist;
    var l := m.flows[f].generations[i].bindings[k].ledger;
    RestartedLedger(m, f, i, k);
    ContinuesPrefix(l, base, folded, os, n);
    ReplayedLedger(l, base, folded, m.config.limits.maxObservations, os[..n], digest);
  }
}
