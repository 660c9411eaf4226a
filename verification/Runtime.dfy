/** The runtime record of a flow, and the recomputation of its state from folded evidence. */
module Runtime {
  import opened Checked
  import opened Evidence
  import opened Freshness
  import opened Reconcile
  import opened Lifecycle
  import Fold
  import History
  import Ledger

  // ---- configuration and state ----------------------------------------------------------

  datatype Limits = Limits(maxFlows: nat, maxSources: nat, maxGenerations: nat, maxBindings: nat, maxObservations: nat,
                           maxHistory: nat, maxAnomalies: nat, maxClockSkew: i64, maxKeyBytes: nat, maxHops: nat)
  {
    predicate Valid() {
      && maxFlows > 0 && maxSources > 0 && maxGenerations > 0 && maxBindings > 0 && maxObservations > 0
      && maxHistory > 0 && maxAnomalies > 0
    }
  }

  datatype Config = Config(limits: Limits, freshness: FreshnessPolicy, clampFuture: bool, expiry: ExpiryPolicy,
                           counters: CounterPolicy, reconciliation: Policy)

  datatype Descriptor = Descriptor(authority: u32, capabilities: Capabilities, advisoryOnly: bool)

  datatype SourceRecord = SourceRecord(descriptor: Descriptor, retired: bool)

  type Sources = map<u64, SourceRecord>

  /** One source's evidence for one generation. */
  datatype Binding = Binding(source: u64, ledger: Ledger.Ledger, restored: bool, reconfirmed: bool, refused: u32,
                             promoted: set<AnomalyKind>)

  datatype Generation = Generation(
    id: u64, state: FlowState, cause: StateCause, timing: Timing, closedAt: i64, coverage: Fold.Coverage,
    endpointA: u64, endpointB: u64, bindings: seq<Binding>, lastTouched: i64)

  datatype Event = Event(at: i64, observedAt: i64, generation: u64, from: FlowState, to: FlowState, cause: StateCause, source: u64)

  datatype Anomaly = Anomaly(kind: AnomalyKind, at: i64, observedAt: i64, generation: u64, source: u64)

  datatype Flow = Flow(
    id: u64, key: Text, collisions: u64, current: u64, revision: u64, state: FlowState, cause: StateCause,
    coverage: Fold.Coverage, timing: Timing, stateChangedAt: i64, generations: seq<Generation>,
    history: seq<Event>, anomalies: seq<Anomaly>, anomaliesDropped: u64, restored: bool, lastTouched: i64)

  /** What a recomputation reads besides the flow. */
  datatype Env = Env(config: Config, sources: Sources, at: i64, now: i64)

  const NO_COVERAGE: Fold.Coverage := Fold.Coverage(false, false, false, false)
  const NO_TIMING: Timing := Timing(0, 0, 0, 0)

  // ---- views ------------------------------------------------------------------------------

  function ViewOf(b: Binding, d: Descriptor, env: Env): SourceView {
    var evidence := Ledger.FoldedEvidence(b.ledger, env.config.counters);
    var freshness := Classify(evidence.times.lastObserved, evidence.times.lastReceived,
                              Context(env.now, env.config.freshness, false));
    SourceView(b.source, d.authority, d.advisoryOnly, d.capabilities, evidence,
               if !b.reconfirmed && env.config.freshness.requireReconfirmation then NotKnown else freshness,
               b.restored, b.reconfirmed)
  }

  /** The views of the bindings whose source is known. */
  function Views(bindings: seq<Binding>, env: Env): seq<SourceView> {
    if bindings == [] then []
    else
      var last := bindings[|bindings| - 1];
      Views(bindings[..|bindings| - 1], env)
      + (if last.source in env.sources then [ViewOf(last, env.sources[last.source].descriptor, env)] else [])
  }

  function FindingsFor(views: seq<SourceView>, policy: Policy): Findings {
    var s := SortViews(views);
    Findings(s, Verdict(Usable(s), policy) == Conflict, TimingOf(s))
  }

  // ---- bounded notes -------------------------------------------------------------------------

  /** The anomaly list keeps the newest entries; what it loses is counted. */
  function Noted(flow: Flow, a: Anomaly, limits: Limits): Flow {
    if limits.maxAnomalies == 0 then flow.(anomaliesDropped := Inc64(flow.anomaliesDropped))
    else if |flow.anomalies| >= limits.maxAnomalies then
      flow.(anomalies := flow.anomalies[1..] + [a],
            anomaliesDropped := Inc64(flow.anomaliesDropped))
    else flow.(anomalies := flow.anomalies + [a])
  }

  function NotedAll(flow: Flow, notes: seq<Anomaly>, limits: Limits): Flow {
    if notes == [] then flow else Noted(NotedAll(flow, notes[..|notes| - 1], limits), notes[|notes| - 1], limits)
  }

  const ALL_ANOMALIES: seq<AnomalyKind> := [
    SequenceConflict, StaleGenerationEvidence, LateEvidenceRejected, CounterRegression, CounterOverflow, ClockSkew,
    CapabilityUnsupported, IdentityCollision, LimitEviction, UnsupportedMetric, IncompleteEvidence, RestartGap,
    MalformedEvidence]

  /** The kinds this view has seen that the binding has not promoted yet. */
  function Unpromoted(kinds: seq<AnomalyKind>, v: SourceView, promoted: set<AnomalyKind>): seq<AnomalyKind> {
    if kinds == [] then []
    else
      var last := kinds[|kinds| - 1];
      Unpromoted(kinds[..|kinds| - 1], v, promoted)
      + (if Fold.AnomalyCount(v.evidence.anomalies, last) != 0 && last !in promoted then [last] else [])
  }

  function PromotedBinding(b: Binding, env: Env): Binding {
    if b.source in env.sources then
      b.(promoted := b.promoted + KindSet(Unpromoted(ALL_ANOMALIES, ViewOf(b, env.sources[b.source].descriptor, env), b.promoted)))
    else b
  }

  function KindSet(kinds: seq<AnomalyKind>): set<AnomalyKind> {
    set k | k in kinds
  }

  function PromotionNote(k: AnomalyKind, v: SourceView, generation: u64, at: i64): Anomaly {
    Anomaly(k, at, v.evidence.times.lastObserved, generation, v.source)
  }

  function PromotionNotes(b: Binding, generation: u64, env: Env): seq<Anomaly> {
    if b.source in env.sources then
      var v := ViewOf(b, env.sources[b.source].descriptor, env);
      NotesFor(Unpromoted(ALL_ANOMALIES, v, b.promoted), v, generation, env.at)
    else []
  }

  function NotesFor(kinds: seq<AnomalyKind>, v: SourceView, generation: u64, at: i64): seq<Anomaly> {
    if kinds == [] then []
    else NotesFor(kinds[..|kinds| - 1], v, generation, at) + [PromotionNote(kinds[|kinds| - 1], v, generation, at)]
  }

  function AllPromotionNotes(bindings: seq<Binding>, generation: u64, env: Env): seq<Anomaly> {
    if bindings == [] then []
    else
      var front := AllPromotionNotes(bindings[..|bindings| - 1], generation, env);
      front + PromotionNotes(bindings[|bindings| - 1], generation, env)
  }

  function PromotedBindings(bindings: seq<Binding>, env: Env): (r: seq<Binding>)
    ensures |r| == |bindings|
    ensures forall i :: 0 <= i < |r| ==> r[i] == PromotedBinding(bindings[i], env)
  {
    if bindings == [] then []
    else PromotedBindings(bindings[..|bindings| - 1], env) + [PromotedBinding(bindings[|bindings| - 1], env)]
  }

  /** A declaration its source, trusted now, is not entitled to make. */
  predicate Refusable(v: SourceView) {
    && v.evidence.declaredTerminal.Some? && IsUsable(v)
    && ((v.evidence.declaredTerminal.value == Completed && !v.capabilities.completion)
        || (v.evidence.declaredTerminal.value == Reset && !v.capabilities.reset))
  }

  function RefusalNotes(s: seq<SourceView>, at: i64): seq<Anomaly> {
    if s == [] then []
    else
      var front := RefusalNotes(s[..|s| - 1], at);
      if Refusable(s[|s| - 1]) then front + [Anomaly(CapabilityUnsupported, at, 0, 0, 0)] else front
  }

  // ---- one generation ------------------------------------------------------------------------------

  function GenerationFindings(g: Generation, env: Env): Findings {
    FindingsFor(Views(g.bindings, env), env.config.reconciliation)
  }

  function DecisionFor(g: Generation, env: Env): Decision {
    var d := Decide(GenerationFindings(g, env), g.state, env.config.expiry, env.now);
    if d.cause == NoCause then d.(cause := g.cause) else d
  }

  predicate Transitions(g: Generation, env: Env) {
    var d := DecisionFor(g, env);
    d.state != g.state || d.cause != g.cause
  }

  /** The generation after its state has been decided again. */
  function Settled(g: Generation, env: Env): Generation {
    var s := SortViews(Views(g.bindings, env));
    var attached := AttachedOf(s, QueueBudget(|s|));
    var d := DecisionFor(g, env);
    g.(bindings := PromotedBindings(g.bindings, env), coverage := CoverageOf(Independent(s)),
       endpointA := attached.endpointA, endpointB := attached.endpointB, timing := TimingOf(s),
       state := d.state, cause := d.cause,
       closedAt := if Transitions(g, env) && IsTerminal(d.state) then env.at else g.closedAt)
  }

  function EventOf(g: Generation, env: Env): Event {
    var d := DecisionFor(g, env);
    Event(env.at, TimingOf(SortViews(Views(g.bindings, env))).lastObserved, g.id, g.state, d.state, d.cause,
          if g.bindings == [] then 0 else g.bindings[0].source)
  }

  function NotesOf(g: Generation, env: Env): seq<Anomaly> {
    AllPromotionNotes(g.bindings, g.id, env) + RefusalNotes(SortViews(Views(g.bindings, env)), env.at)
  }

  /** The flow after its `i`-th generation has been settled. */
  function StepGeneration(flow: Flow, i: nat, env: Env): (r: Flow)
    requires i < |flow.generations|
    ensures |r.generations| == |flow.generations|
  {
    var g := flow.generations[i];
    var noted := NotedAll(flow, NotesOf(g, env), env.config.limits).(generations := flow.generations[i := Settled(g, env)]);
    if Transitions(g, env) then
      noted.(history := History.Newest(flow.history + [EventOf(g, env)], env.config.limits.maxHistory), stateChangedAt := env.at)
    else noted
  }

  function {:induction false} AfterGenerations(flow: Flow, n: nat, env: Env): (r: Flow)
    requires n <= |flow.generations|
    ensures |r.generations| == |flow.generations|
  {
    if n == 0 then flow else StepGeneration(AfterGenerations(flow, n - 1, env), n - 1, env)
  }

  // ---- the whole flow --------------------------------------------------------------------------------

  function CoverageUnion(gs: seq<Generation>): Fold.Coverage {
    if gs == [] then NO_COVERAGE else Merged(CoverageUnion(gs[..|gs| - 1]), gs[|gs| - 1].coverage)
  }

  function JoinTiming(t: Timing, g: Timing): Timing {
    Timing(
      if g.firstObserved != 0 && (t.firstObserved == 0 || g.firstObserved < t.firstObserved) then g.firstObserved else t.firstObserved,
      if g.lastObserved > t.lastObserved then g.lastObserved else t.lastObserved,
      if g.lastReceived > t.lastReceived then g.lastReceived else t.lastReceived,
      if g.lastProgress > t.lastProgress then g.lastProgress else t.lastProgress)
  }

  function TimingUnion(gs: seq<Generation>): Timing {
    if gs == [] then NO_TIMING else JoinTiming(TimingUnion(gs[..|gs| - 1]), gs[|gs| - 1].timing)
  }

  /** The position of the generation with this identity, or the length. */
  function IndexOf(gs: seq<Generation>, id: u64): (i: nat)
    ensures i <= |gs|
    ensures i < |gs| ==> gs[i].id == id
    ensures forall j :: 0 <= j < i ==> gs[j].id != id
  {
    if gs == [] || gs[0].id == id then 0 else 1 + IndexOf(gs[1..], id)
  }

  /** Generations stand in ascending order of identity. */
  predicate SortedGenerations(gs: seq<Generation>) {
    forall i, j :: 0 <= i < j < |gs| ==> gs[i].id < gs[j].id
  }

  predicate Reconfirmed(bindings: seq<Binding>) {
    exists i :: 0 <= i < |bindings| && bindings[i].reconfirmed
  }

  function CurrentIndex(flow: Flow): (i: nat)
    requires flow.generations != []
    ensures i < |flow.generations|
  {
    var i := IndexOf(flow.generations, flow.current);
    if i == |flow.generations| then |flow.generations| - 1 else i
  }

  /** The flow reports its current generation; it counts as restored until a source of that generation is heard again. */
  function Finished(flow: Flow): Flow {
    var rolled := flow.(coverage := CoverageUnion(flow.generations), timing := TimingUnion(flow.generations));
    if flow.generations == [] then rolled.(restored := false)
    else
      var current := flow.generations[CurrentIndex(flow)];
      rolled.(current := current.id, state := current.state, cause := current.cause,
              restored := !exists j :: 0 <= j < |flow.generations| && flow.generations[j].id == current.id
                                       && Reconfirmed(flow.generations[j].bindings))
  }

  function Recomputed(flow: Flow, env: Env): Flow {
    Finished(AfterGenerations(flow, |flow.generations|, env))
  }
}
