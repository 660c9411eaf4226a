/** Programs that see one observation of one source: small enough to follow through ticks, restarts and replays. */
module OneSource {
  import opened Checked
  import opened Evidence
  import opened Freshness
  import opened Reconcile
  import opened Lifecycle
  import opened Runtime
  import opened FlowIngest
  import opened Engine
  import opened EngineSafety
  import opened Restarts
  import FlowSafety
  import Fold
  import Ledger
  import LedgerRefinement
  import Recompute
  import Restore

  /** Evidence is fresh for ten nanoseconds and expires after ten. */
  function ConfigOf(expires: bool): Config {
    Config(Limits(4, 4, 4, 4, 4, 4, 4, 1000, 64, 4), FreshnessPolicy(10, 20, true), true, ExpiryPolicy(expires, 5, 10),
           DEFAULT_COUNTER_POLICY, Policy(PrimaryAuthoritative, 0, 0, true))
  }

  /** Evidence of this kind at instant 1, from source 1, about generation 1 of flow `f`, which goes by the key "a". */
  function Only(kind: Kind, f: u64): Observation {
    var h := Heartbeat("a");
    h.(kind := kind, subject := h.subject.(flow := f))
  }

  // ---- the first evidence of a flow -----------------------------------------------------------------

  function OnlyLedger(o: Observation, capacity: nat): Ledger.Ledger {
    Ledger.Configured(o.key.source, o.subject.flow, o.subject.generation, capacity).(entries := [o], totalAccepted := 1)
  }

  function OnlyBinding(o: Observation, limits: Limits, replaying: bool): Binding {
    Binding(o.key.source, OnlyLedger(o, limits.maxObservations), replaying, !replaying, 0, {})
  }

  /** The flow as its first evidence leaves it, before it is evaluated. */
  function OnlyFlow(o: Observation, at: i64, limits: Limits, replaying: bool): Flow {
    var g := Generation(o.subject.generation, Unknown, NoCause, NO_TIMING, 0, NO_COVERAGE, 0, 0, [OnlyBinding(o, limits, replaying)], at);
    Flow(o.subject.flow, o.subject.flowKey, 0, o.subject.generation, 1, Unknown, NoCause, NO_COVERAGE, NO_TIMING, at, [g], [], [], 0,
         replaying, at)
  }

  lemma FirstInserted(o: Observation, capacity: nat, digest: Observation -> u64)
    requires o.Valid() && 1 <= capacity
    ensures var l := Ledger.Configured(o.key.source, o.subject.flow, o.subject.generation, capacity);
            Ledger.InsertOutcome(l, o, digest) == Ledger.Accepted(0) && Ledger.Inserted(l, o, digest) == OnlyLedger(o, capacity)
  {
    assert Ledger.Place([], o, digest) == [o];
  }

  lemma FirstIngested(o: Observation, env: Env, replaying: bool, digest: Observation -> u64)
    requires o.Valid() && o.observedAt <= o.receivedAt && env.config.limits.Valid() && 0 <= env.config.limits.maxClockSkew < I64_MAX
    ensures Ingested(NewFlow(o.subject.flow, o.subject.flowKey, env.at, replaying), o, env, replaying, digest).0
         == Recomputed(OnlyFlow(o, env.at, env.config.limits, replaying), env)
  {
    var limits := env.config.limits;
    var flow := NewFlow(o.subject.flow, o.subject.flowKey, env.at, replaying);
    FreshnessFacts(o, limits);
    FirstEntered(o, env.at, limits, replaying);
    assert MakeRoom(flow, o.subject.generation, limits) == Some(flow);
    hide Recomputed, Offered, Ingested, Entered, OnlyFlow, NewFlow, Position, GenerationIds, Skewed, MakeRoom;
    var entered := Entered(flow, o, env.at, limits);
    assert entered.generations[0].bindings == [];
    FirstOffered(entered, o, env, replaying, digest);
    PassesThrough(flow, o, env, replaying, digest);
  }

  lemma PassesThrough(flow: Flow, o: Observation, env: Env, replaying: bool, digest: Observation -> u64)
    requires !Skewed(o, env.config.limits) && MakeRoom(flow, o.subject.generation, env.config.limits) == Some(flow)
    requires env.config.limits.maxBindings > 0
    requires Entered(flow, o, env.at, env.config.limits)
               .generations[Position(GenerationIds(flow.generations), o.subject.generation)].bindings == []
    ensures Ingested(flow, o, env, replaying, digest)
         == Offered(Entered(flow, o, env.at, env.config.limits), Position(GenerationIds(flow.generations), o.subject.generation),
                    o, env, replaying, digest)
  {
    hide Offered, Entered, Position, GenerationIds, Skewed, MakeRoom, Noted;
  }

  lemma FirstEntered(o: Observation, at: i64, limits: Limits, replaying: bool)
    requires o.Valid()
    ensures var flow := NewFlow(o.subject.flow, o.subject.flowKey, at, replaying);
            && Position(GenerationIds(flow.generations), o.subject.generation) == 0
            && Entered(flow, o, at, limits)
               == flow.(generations := [NewGeneration(o.subject.generation, at)], current := o.subject.generation)
  {
    var flow := NewFlow(o.subject.flow, o.subject.flowKey, at, replaying);
    assert GenerationIds(flow.generations) == [];
    assert Entered(flow, o, at, limits).generations == [NewGeneration(o.subject.generation, at)];
  }

  lemma FirstOffered(entered: Flow, o: Observation, env: Env, replaying: bool, digest: Observation -> u64)
    requires o.Valid() && env.config.limits.Valid()
    requires entered == NewFlow(o.subject.flow, o.subject.flowKey, env.at, replaying).(
               generations := [NewGeneration(o.subject.generation, env.at)], current := o.subject.generation)
    ensures Offered(entered, 0, o, env, replaying, digest).0
         == Recomputed(OnlyFlow(o, env.at, env.config.limits, replaying), env)
  {
    var limits := env.config.limits;
    var g := entered.generations[0];
    FirstBound(o, limits, replaying, digest);
    var bound := g.(bindings := [OnlyBinding(o, limits, replaying)]);
    var touched := entered.(revision := 1, lastTouched := env.at, generations := [bound]);
    assert touched == OnlyFlow(o, env.at, limits, replaying);
    assert [g][0 := bound] == [bound];
    hide Recomputed, Ledger.InsertOutcome, WithBinding, Position, BindingAfter, OnlyFlow, OnlyBinding;
  }

  lemma FirstBound(o: Observation, limits: Limits, replaying: bool, digest: Observation -> u64)
    requires o.Valid() && limits.Valid()
    ensures var bs := WithBinding([], o.key.source, o.subject.flow, o.subject.generation, limits, replaying);
            && Position(BindingIds([]), o.key.source) == 0 && |bs| == 1
            && Ledger.InsertOutcome(bs[0].ledger, o, digest) == Ledger.Accepted(0)
            && bs[0 := BindingAfter(bs[0], o, replaying, digest)] == [OnlyBinding(o, limits, replaying)]
  {
    assert BindingIds([]) == [];
    FirstInserted(o, limits.maxObservations, digest);
    hide Ledger.InsertOutcome, Ledger.Inserted;
  }

  lemma FreshnessFacts(o: Observation, limits: Limits)
    requires o.observedAt <= o.receivedAt && 0 <= limits.maxClockSkew < I64_MAX
    ensures !Skewed(o, limits)
  {
    SkewIsExact(o.observedAt, o.receivedAt, limits.maxClockSkew);
  }

  function OnlyEnv(expires: bool, at: i64, now: i64): Env {
    Env(ConfigOf(expires), map[1 := UNREGISTERED], at, now)
  }

  /** An engine with one flow, of one source. */
  predicate HasFlow(m: Machine, f: u64, expires: bool, replaying: bool) {
    && m.config == ConfigOf(expires) && m.sources == map[1 := UNREGISTERED] && m.replaying == replaying
    && f in m.flows && m.flows.Keys == {f}
  }

  /** An engine without flows and sources, and its first observation. */
  lemma FirstIngest(kind: Kind, f: u64, expires: bool, replaying: bool, t: i64, ids: Identities, digest: Observation -> u64)
    requires f != 0 && ids.flow("a") == f && (replaying || t == 1)
    ensures var r := Ingest(NewMachine(ConfigOf(expires)).(replaying := replaying), Only(kind, f), Outside(t, t, true), ids, digest);
            && HasFlow(r, f, expires, replaying)
            && r.flows[f] == Recomputed(OnlyFlow(Only(kind, f), 1, ConfigOf(expires).limits, replaying), OnlyEnv(expires, 1, 1))
  {
    var o, outside := Only(kind, f), Outside(t, t, true);
    var m := NewMachine(ConfigOf(expires)).(replaying := replaying);
    assert Validated(o, m.config.limits, ids);
    assert InstantOf(m, o, t) == 1 && Normalised(o, 1, ids) == o;
    hide Ingested, Recomputed, FlowVictim, Validated, Normalised, Enrolled;
    assert AdmitSource(m, 1) == Some(m.(sources := map[1 := UNREGISTERED]));
    FirstEnrolled(kind, f, expires, replaying, digest);
    hide AdmitSource, OnlyFlow, OnlyEnv;
  }

  lemma FirstEnrolled(kind: Kind, f: u64, expires: bool, replaying: bool, digest: Observation -> u64)
    requires f != 0
    ensures var m := NewMachine(ConfigOf(expires)).(replaying := replaying, sources := map[1 := UNREGISTERED]);
            var r := Enrolled(m, Only(kind, f), 1, 1, digest).0;
            && HasFlow(r, f, expires, replaying)
            && r.flows[f] == Recomputed(OnlyFlow(Only(kind, f), 1, ConfigOf(expires).limits, replaying), OnlyEnv(expires, 1, 1))
  {
    var o := Only(kind, f);
    hide Ingested, Recomputed, FlowVictim, OnlyFlow;
    FirstIngested(o, OnlyEnv(expires, 1, 1), replaying, digest);
  }

  // ---- evaluating it ----------------------------------------------------------------------------------

  /** A generation of one source, with this evidence. */
  predicate HasOnly(g: Generation, evidence: Fold.State, restored: bool, heard: bool) {
    && g.id == 1 && |g.bindings| == 1 && g.bindings[0].source == 1 && g.bindings[0].ledger.policy == DEFAULT_COUNTER_POLICY
    && Ledger.FoldedEvidence(g.bindings[0].ledger, DEFAULT_COUNTER_POLICY) == evidence
    && g.bindings[0].restored == restored && g.bindings[0].reconfirmed == heard
  }

  function OnlyView(evidence: Fold.State, restored: bool, heard: bool, env: Env): SourceView {
    var d := UNREGISTERED.descriptor;
    var freshness := Classify(evidence.times.lastObserved, evidence.times.lastReceived, Context(env.now, env.config.freshness, false));
    SourceView(1, d.authority, d.advisoryOnly, d.capabilities, evidence, if heard then freshness else NotKnown, restored, heard)
  }

  lemma OnlyViews(g: Generation, evidence: Fold.State, restored: bool, heard: bool, expires: bool, at: i64, now: i64)
    requires HasOnly(g, evidence, restored, heard)
    ensures var env := OnlyEnv(expires, at, now);
            var v := OnlyView(evidence, restored, heard, env);
            Views(g.bindings, env) == [v] && SortViews(Views(g.bindings, env)) == [v]
  {
    hide Ledger.FoldedEvidence, Classify;
    var env := OnlyEnv(expires, at, now);
    assert g.bindings[..0] == [];
    assert Views([], env) == [];
  }

  /** What one source's view comes to: nobody disagrees with it, and its instants are the generation's. */
  lemma OnlyFindings(v: SourceView, policy: Policy)
    requires v.evidence.times.lastObserved >= 0 && v.evidence.times.lastReceived >= 0 && v.evidence.lastProgress >= 0
    ensures FindingsFor([v], policy)
         == Findings([v], false, Timing(v.evidence.times.firstObserved, v.evidence.times.lastObserved,
                                        v.evidence.times.lastReceived, v.evidence.lastProgress))
  {
    assert [v][..0] == [] && [v][1..] == [];
    assert TimingOf([]) == Timing(0, 0, 0, 0);
    assert SortViews([v]) == [v] by { assert SortViews([]) == []; }
    assert |Usable([v])| <= 1 by { assert Usable([]) == []; }
    hide SortViews, Usable, IsUsable;
  }

  /** The decision about a generation of one source that declares no end. */
  function OnlyDecision(v: SourceView, previous: FlowState, env: Env): Decision {
    var e := env.config.expiry;
    var timing := Timing(v.evidence.times.firstObserved, v.evidence.times.lastObserved, v.evidence.times.lastReceived, v.evidence.lastProgress);
    Decide(Findings([v], false, timing), previous, e, env.now)
  }

  lemma OnlySettled(g: Generation, evidence: Fold.State, restored: bool, heard: bool, expires: bool, at: i64, now: i64)
    requires HasOnly(g, evidence, restored, heard)
    requires evidence.times.lastObserved >= 0 && evidence.times.lastReceived >= 0 && evidence.lastProgress >= 0
    ensures var env := OnlyEnv(expires, at, now);
            var d := OnlyDecision(OnlyView(evidence, restored, heard, env), g.state, env);
            var r := Settled(g, env);
            && HasOnly(r, evidence, restored, heard) && r.state == d.state
            && r.cause == (if d.cause == NoCause then g.cause else d.cause)
            && r.closedAt == (if IsTerminal(d.state) && (r.state != g.state || r.cause != g.cause) then at else g.closedAt)
  {
    var env := OnlyEnv(expires, at, now);
    OnlyViews(g, evidence, restored, heard, expires, at, now);
    OnlyFindings(OnlyView(evidence, restored, heard, env), env.config.reconciliation);
    FlowSafety.PromotionKeeps(g.bindings[0], env);
    hide Views, SortViews, FindingsFor, OnlyView, Decide, TimingOf, AttachedOf, CoverageOf, Independent, PromotedBinding, Ledger.FoldedEvidence;
  }

  /** What the observation comes to when it is folded. */
  function Folded(kind: Kind, f: u64): Fold.State {
    Fold.Step(Fold.INITIAL, Only(kind, f), DEFAULT_COUNTER_POLICY)
  }

  lemma FoldedFacts(kind: Kind, f: u64)
    requires kind == KHeartbeat || kind == KProgress || kind == KClose
    ensures var e := Folded(kind, f);
            && e.times == Fold.Times(1, 1, 1) && e.lastProgress == (if kind == KProgress then 1 else 0)
            && e.observedProgress == (kind == KProgress)
            && e.declaredTerminal == (if kind == KClose then Some(Completed) else None)
  {
  }

  lemma OnlyFlowHasOnly(kind: Kind, f: u64, at: i64, limits: Limits, replaying: bool)
    ensures var flow := OnlyFlow(Only(kind, f), at, limits, replaying);
            && |flow.generations| == 1 && HasOnly(flow.generations[0], Folded(kind, f), replaying, !replaying)
            && flow.generations[0].state == Unknown && flow.generations[0].closedAt == 0
  {
    var o := Only(kind, f);
    assert [o][..0] == [];
    assert Fold.FoldAll(Fold.INITIAL, [o], DEFAULT_COUNTER_POLICY) == Folded(kind, f);
    hide Fold.Step;
  }

  /** A heartbeat ages: observed until ten nanoseconds after it was, expired from then on. */
  lemma HeartbeatAges(f: u64, previous: FlowState, restored: bool, heard: bool, at: i64, now: i64)
    requires now >= 1 && (previous == Unknown || previous == Observed)
    ensures var env := OnlyEnv(true, at, now);
            var d := OnlyDecision(OnlyView(Folded(KHeartbeat, f), restored, heard, env), previous, env);
            d.state == (if now > 11 then Expired else Observed) && (now > 11 ==> d.cause == ExpiryPolicyCause)
  {
    var env := OnlyEnv(true, at, now);
    var v := OnlyView(Folded(KHeartbeat, f), restored, heard, env);
    HeartbeatView(f, restored, heard, at, now);
    hide TimeDifference, OnlyView, Decide, Folded, IsUsable;
    NothingDeclared(v, previous, env);
    assert v in [v] && forall w :: w in [v] ==> w == v;
    assert Older(now, 1, 10) <==> now > 11;
  }

  lemma HeartbeatView(f: u64, restored: bool, heard: bool, at: i64, now: i64)
    requires now >= 1
    ensures var v := OnlyView(Folded(KHeartbeat, f), restored, heard, OnlyEnv(true, at, now));
            && (IsUsable(v) <==> heard && now <= 11) && v.restored == restored
            && v.evidence.times == Fold.Times(1, 1, 1) && v.evidence.lastProgress == 0
            && !v.evidence.observedProgress && v.evidence.declaredTerminal == None
    ensures TimeDifference(now, 1) == now - 1
  {
    FoldedFacts(KHeartbeat, f);
    HeartbeatFresh(now);
    hide Folded, Classify, TimeDifference;
  }

  lemma HeartbeatFresh(now: i64)
    requires now >= 1
    ensures Classify(1, 1, Context(now, ConfigOf(true).freshness, false)) == Fresh <==> now <= 11
  {
    assert TimeDifference(now, 1) == now - 1;
    hide TimeDifference;
  }

  /** One source that declares no end decides by its own evidence alone. */
  lemma NothingDeclared(v: SourceView, previous: FlowState, env: Env)
    requires v.evidence.declaredTerminal == None && !IsTerminal(previous)
    ensures var t := v.evidence.times;
            var f := Findings([v], false, Timing(t.firstObserved, t.lastObserved, t.lastReceived, v.evidence.lastProgress));
            OnlyDecision(v, previous, env)
            == if IsUsable(v) then DecideOnEvidence(f, [v], env.config.expiry, env.now)
               else DecideWithoutEvidence(f, previous, env.config.expiry, env.now)
  {
    assert [v][1..] == [];
    assert Usable([v]) == if IsUsable(v) then [v] else [] by { assert Usable([]) == []; }
    assert FirstEntitled([v]) == None by { assert FirstEntitled([]) == None; }
    hide IsUsable, DecideOnEvidence, DecideWithoutEvidence;
  }

  lemma OneRecomputed(flow: Flow, env: Env)
    requires |flow.generations| == 1
    ensures var r := Recomputed(flow, env);
            && r.generations == [Settled(flow.generations[0], env)] && r.state == r.generations[0].state
            && (r.restored <==> !Reconfirmed(r.generations[0].bindings))
  {
    hide Settled, Finished, AfterGenerations;
    Recompute.LaterUntouched(flow, 1, env);
    OneFinished(AfterGenerations(flow, 1, env));
  }

  lemma OneFinished(flow: Flow)
    requires |flow.generations| == 1
    ensures var r := Finished(flow);
            && r.generations == flow.generations && r.state == r.generations[0].state
            && (r.restored <==> !Reconfirmed(r.generations[0].bindings))
  {
    hide CoverageUnion, TimingUnion, Reconfirmed;
  }

  /** A flow whose one generation has this evidence and stands like this. */
  predicate Stands(flow: Flow, evidence: Fold.State, restored: bool, heard: bool, state: FlowState, closedAt: i64) {
    && |flow.generations| == 1 && HasOnly(flow.generations[0], evidence, restored, heard)
    && flow.generations[0].state == state && flow.generations[0].closedAt == closedAt
    && (state == Expired ==> flow.generations[0].cause == ExpiryPolicyCause)
  }

  lemma HeartbeatEvaluated(flow: Flow, f: u64, previous: FlowState, restored: bool, heard: bool, at: i64, now: i64)
    requires now >= 1 && (previous == Unknown || previous == Observed)
    requires Stands(flow, Folded(KHeartbeat, f), restored, heard, previous, 0)
    ensures Stands(Recomputed(flow, OnlyEnv(true, at, now)), Folded(KHeartbeat, f), restored, heard,
                   if now > 11 then Expired else Observed, if now > 11 then at else 0)
  {
    var env := OnlyEnv(true, at, now);
    hide Folded, Settled, Recomputed, OnlyDecision, OnlyView, HasOnly, OnlyEnv;
    OneRecomputed(flow, env);
    FoldedFacts(KHeartbeat, f);
    HeartbeatAges(f, previous, restored, heard, at, now);
    OnlySettled(flow.generations[0], Folded(KHeartbeat, f), restored, heard, true, at, now);
  }

  // ---- an end that only a tick decided is lost ----------------------------------------------------------

  lemma FirstHeartbeat(f: u64, replaying: bool, t: i64, ids: Identities, digest: Observation -> u64)
    requires f != 0 && ids.flow("a") == f && (replaying || t == 1)
    ensures var r := Ingest(NewMachine(ConfigOf(true)).(replaying := replaying), Only(KHeartbeat, f), Outside(t, t, true), ids, digest);
            && HasFlow(r, f, true, replaying)
            && Stands(r.flows[f], Folded(KHeartbeat, f), replaying, !replaying, Observed, 0)
  {
    hide Ingest, Folded, Recomputed, OnlyFlow, HasOnly, OnlyEnv, Only, ConfigOf, NewMachine;
    FirstIngest(KHeartbeat, f, true, replaying, t, ids, digest);
    var limits := ConfigOf(true).limits;
    OnlyFlowHasOnly(KHeartbeat, f, 1, limits, replaying);
    HeartbeatEvaluated(OnlyFlow(Only(KHeartbeat, f), 1, limits, replaying), f, Unknown, replaying, !replaying, 1, 1);
  }

  lemma HeartbeatTicked(m: Machine, f: u64, t: i64)
    requires HasFlow(m, f, true, false) && Stands(m.flows[f], Folded(KHeartbeat, f), false, true, Observed, 0) && t >= 1
    ensures var r := Ticked(m, t, 0);
            && HasFlow(r, f, true, false)
            && Stands(r.flows[f], Folded(KHeartbeat, f), false, true, if t > 11 then Expired else Observed, if t > 11 then t else 0)
  {
    hide Folded, Recomputed, HasOnly;
    HeartbeatEvaluated(m.flows[f], f, Observed, false, true, t, t);
  }

  lemma HeartbeatSettled(m: Machine, f: u64, t: i64)
    requires HasFlow(m, f, true, true) && Stands(m.flows[f], Folded(KHeartbeat, f), true, false, Observed, 0) && t >= 1
    ensures var r := SettledAll(m, t, t);
            && HasFlow(r, f, true, false)
            && Stands(r.flows[f], Folded(KHeartbeat, f), true, false, if t > 11 then Expired else Observed, if t > 11 then t else 0)
  {
    hide Folded, Recomputed, HasOnly;
    HeartbeatEvaluated(m.flows[f], f, Observed, true, false, t, t);
  }

  /** One heartbeat at instant 1, and a tick at `t`. */
  function HeartbeatAndTick(f: u64, t: i64): seq<Move> {
    [Do(CIngest(Only(KHeartbeat, f), Outside(1, 1, true))), Do(CTick(t, 0))]
  }

  /** A reopening at `t`, with what the log holds. */
  function ReopenAt(t: i64): seq<Move> {
    [Reopen, Replay(Outside(t, t, true)), Serve(t, t)]
  }

  lemma TwoMoves(p: Program, a: Move, b: Move, ids: Identities, digest: Observation -> u64)
    requires Allowed(p, a) && Allowed(Next(p, a, ids, digest), b)
    ensures Runs(p, [a, b], Next(Next(p, a, ids, digest), b, ids, digest), ids, digest)
  {
    hide Next, Allowed;
    assert [a, b][1..] == [b] && [b][1..] == [];
    var q := Next(p, a, ids, digest);
    assert Runs(Next(q, b, ids, digest), [], Next(q, b, ids, digest), ids, digest);
    assert Runs(q, [b], Next(q, b, ids, digest), ids, digest);
  }

  lemma ThreeMoves(p: Program, a: Move, b: Move, c: Move, ids: Identities, digest: Observation -> u64)
    requires Allowed(p, a) && Allowed(Next(p, a, ids, digest), b)
    requires Allowed(Next(Next(p, a, ids, digest), b, ids, digest), c)
    ensures Runs(p, [a, b, c], Next(Next(Next(p, a, ids, digest), b, ids, digest), c, ids, digest), ids, digest)
  {
    hide Next, Allowed;
    assert [a, b, c][1..] == [b, c];
    TwoMoves(Next(p, a, ids, digest), b, c, ids, digest);
  }

  lemma HeartbeatThenTick(f: u64, t: i64, ids: Identities, digest: Observation -> u64) returns (p: Program)
    requires f != 0 && ids.flow("a") == f && t > 11
    ensures Runs(NewProgram(ConfigOf(true)), HeartbeatAndTick(f, t), p, ids, digest)
    ensures p.saved == NewMachine(ConfigOf(true)) && p.log == [Only(KHeartbeat, f)]
    ensures HasFlow(p.live, f, true, false) && Stands(p.live.flows[f], Folded(KHeartbeat, f), false, true, Expired, t)
  {
    var o, outside := Only(KHeartbeat, f), Outside(1, 1, true);
    var p0 := NewProgram(ConfigOf(true));
    assert Validated(o, p0.live.config.limits, ids) && Normalised(o, 1, ids) == o && o.(sourceKey := []) == o;
    assert [] + [o] == [o];
    var p1 := Next(p0, Do(CIngest(o, outside)), ids, digest);
    assert p0.live == NewMachine(ConfigOf(true)).(replaying := false);
    hide Ingest, Folded, Ticked, HasOnly, Validated, Normalised, Only;
    assert p1.live == Ingest(p0.live, o, outside, ids, digest) && p1.saved == p0.saved && p1.log == [o];
    FirstHeartbeat(f, false, 1, ids, digest);
    p := Next(p1, Do(CTick(t, 0)), ids, digest);
    HeartbeatTicked(p1.live, f, t);
    hide NewProgram;
    TwoMoves(p0, Do(CIngest(o, outside)), Do(CTick(t, 0)), ids, digest);
  }

  lemma ReopenedAfterTick(p: Program, f: u64, t: i64, ids: Identities, digest: Observation -> u64) returns (end: Program)
    requires f != 0 && ids.flow("a") == f && t >= 1
    requires p.saved == NewMachine(ConfigOf(true)) && p.log == [Only(KHeartbeat, f)]
    ensures Runs(p, ReopenAt(t), end, ids, digest) && end.saved == p.saved && end.log == p.log
    ensures HasFlow(end.live, f, true, false)
    ensures Stands(end.live.flows[f], Folded(KHeartbeat, f), true, false, if t > 11 then Expired else Observed, if t > 11 then t else 0)
  {
    var o, outside, config := Only(KHeartbeat, f), Outside(t, t, true), ConfigOf(true);
    NothingRestarted(config);
    var m := NewMachine(config).(replaying := true);
    hide Ingest, Folded, SettledAll, HasOnly, Restarted, Only, NewMachine, ConfigOf, Next, Allowed;
    FirstHeartbeat(f, true, t, ids, digest);
    var live := Ingest(m, o, outside, ids, digest);
    HeartbeatSettled(live, f, t);
    end := OpeningRuns(p, o, t, live, ids, digest);
  }

  /** Opening a program whose log holds one observation, move by move. */
  lemma OpeningRuns(p: Program, o: Observation, t: i64, live: Machine, ids: Identities, digest: Observation -> u64) returns (end: Program)
    requires p.log == [o] && live == Ingest(Restarted(p.saved), o, Outside(t, t, true), ids, digest) && live.replaying
    ensures Runs(p, ReopenAt(t), end, ids, digest)
    ensures end == Program(SettledAll(live, t, t), p.saved, [o], [])
  {
    var outside := Outside(t, t, true);
    hide Ingest, SettledAll, Restarted, Next, Allowed, ReopenAt;
    var p1, p2 := Program(Restarted(p.saved), p.saved, [o], [o]), Program(live, p.saved, [o], []);
    end := Program(SettledAll(live, t, t), p.saved, [o], []);
    NextReopen(p, ids, digest);
    NextReplay(p1, outside, ids, digest);
    NextServe(p2, t, ids, digest);
    ThreeMoves(p, Reopen, Replay(outside), Serve(t, t), ids, digest);
    assert ReopenAt(t) == [Reopen, Replay(outside), Serve(t, t)] by { ReopenMoves(t); }
  }

  lemma ReopenMoves(t: i64)
    ensures ReopenAt(t) == [Reopen, Replay(Outside(t, t, true)), Serve(t, t)]
  {
  }

  lemma NextReopen(p: Program, ids: Identities, digest: Observation -> u64)
    ensures Allowed(p, Reopen) && Next(p, Reopen, ids, digest) == Program(Restarted(p.saved), p.saved, p.log, p.log)
    ensures Restarted(p.saved).replaying
  {
    hide RestoredFlow;
  }

  lemma NextReplay(p: Program, outside: Outside, ids: Identities, digest: Observation -> u64)
    requires p.live.replaying && |p.pending| == 1
    ensures Allowed(p, Replay(outside))
    ensures Next(p, Replay(outside), ids, digest) == Program(Ingest(p.live, p.pending[0], outside, ids, digest), p.saved, p.log, [])
  {
    hide Ingest;
  }

  lemma NextServe(p: Program, t: i64, ids: Identities, digest: Observation -> u64)
    requires p.live.replaying && p.pending == []
    ensures Allowed(p, Serve(t, t)) && Next(p, Serve(t, t), ids, digest) == p.(live := SettledAll(p.live, t, t))
  {
    hide SettledAll;
  }

  lemma NothingRestarted(config: Config)
    ensures Restarted(NewMachine(config)) == NewMachine(config).(replaying := true)
  {
  }

  /** A flow of one generation has the one end it stands with, if any. */
  lemma StandsEnded(m: Machine, f: u64, evidence: Fold.State, restored: bool, heard: bool, state: FlowState, closedAt: i64, c: i64)
    requires f in m.flows && Stands(m.flows[f], evidence, restored, heard, state, closedAt)
    ensures EndedAs(m, f, 1, Expired, ExpiryPolicyCause, c) <==> state == Expired && closedAt == c
    ensures Present(m, f, 1) && (AllEnded(m.flows[f]) <==> IsTerminal(state))
  {
    var g := m.flows[f].generations[0];
    assert g.id == 1;
    assert HasEnd(g, 1, Expired, ExpiryPolicyCause, c) <==> state == Expired && closedAt == c;
    hide HasOnly, HasEnd;
  }

  /**
   * A new engine ingests one observation at instant 1 and is told to tick at `t1`, when the flow expires, closed at
   * `t1`. Closed and reopened at `t2`, it has decided again: the flow is closed at `t2` if it is old enough by that
   * clock, and not ended at all otherwise.
   */
  lemma TickedEndIsLost(t1: i64, t2: i64, ids: Identities, digest: Observation -> u64) returns (before: Program, after: Program)
    requires ids.Valid() && t1 > 11 && t2 >= 1
    ensures var f := ids.flow("a");
            && Runs(NewProgram(ConfigOf(true)), HeartbeatAndTick(f, t1), before, ids, digest)
            && Runs(before, ReopenAt(t2), after, ids, digest)
            && EndedAs(before.live, f, 1, Expired, ExpiryPolicyCause, t1)
            && Present(after.live, f, 1)
            && (EndedAs(after.live, f, 1, Expired, ExpiryPolicyCause, t1) <==> t2 == t1)
            && (EndedAs(after.live, f, 1, Expired, ExpiryPolicyCause, t2) <==> t2 > 11)
            && (t2 <= 11 ==> f in after.live.flows && !AllEnded(after.live.flows[f]))
  {
    var f := ids.flow("a");
    hide Stands, Runs, Folded, EndedAs, Present, AllEnded, HasFlow, NewProgram, HeartbeatAndTick, ReopenAt, Only, NewMachine, ConfigOf;
    before := HeartbeatThenTick(f, t1, ids, digest);
    after := ReopenedAfterTick(before, f, t2, ids, digest);
    TickedEnds(before.live, after.live, f, t1, t2);
  }

  lemma TickedEnds(before: Machine, after: Machine, f: u64, t1: i64, t2: i64)
    requires HasFlow(before, f, true, false) && Stands(before.flows[f], Folded(KHeartbeat, f), false, true, Expired, t1)
    requires HasFlow(after, f, true, false)
    requires Stands(after.flows[f], Folded(KHeartbeat, f), true, false, if t2 > 11 then Expired else Observed, if t2 > 11 then t2 else 0)
    requires t1 > 11
    ensures EndedAs(before, f, 1, Expired, ExpiryPolicyCause, t1) && Present(after, f, 1)
    ensures EndedAs(after, f, 1, Expired, ExpiryPolicyCause, t1) <==> t2 == t1
    ensures EndedAs(after, f, 1, Expired, ExpiryPolicyCause, t2) <==> t2 > 11
    ensures t2 <= 11 ==> f in after.flows && !AllEnded(after.flows[f])
  {
    assert f in before.flows && f in after.flows;
    hide HasFlow, Stands, Folded, EndedAs, Present, AllEnded;
    StandsEnded(before, f, Folded(KHeartbeat, f), false, true, Expired, t1, t1);
    var state, closedAt := if t2 > 11 then Expired else Observed, if t2 > 11 then t2 else 0;
    StandsEnded(after, f, Folded(KHeartbeat, f), true, false, state, closedAt, t1);
    StandsEnded(after, f, Folded(KHeartbeat, f), true, false, state, closedAt, t2);
  }

  // ---- a declaration that is refused is refused again and again ------------------------------------------

  lemma CloseRefused(f: u64, at: i64)
    ensures var flow, env := OnlyFlow(Only(KClose, f), at, ConfigOf(true).limits, false), OnlyEnv(true, at, 1);
            RefusesOnce(flow, env)
  {
    var flow, env := OnlyFlow(Only(KClose, f), at, ConfigOf(true).limits, false), OnlyEnv(true, at, 1);
    OnlyFlowHasOnly(KClose, f, at, ConfigOf(true).limits, false);
    FoldedFacts(KClose, f);
    HeartbeatFresh(1);
    OnlyViews(flow.generations[0], Folded(KClose, f), false, true, true, at, 1);
    var v := OnlyView(Folded(KClose, f), false, true, env);
    hide Folded, Classify, Views, SortViews, HasOnly;
    assert Refusable(v);
    assert [v][..0] == [] && RefusalNotes([], at) == [];
  }

  /** A flow of one generation in which one source declares an end it is not entitled to. */
  predicate RefusesOnce(flow: Flow, env: Env) {
    |flow.generations| == 1 && |RefusalNotes(SortViews(Views(flow.generations[0].bindings, env)), env.at)| == 1
  }

  /**
   * An unregistered source sends a Close. Evaluating the flow again at the same instant, as a tick does, is not a
   * no-op: the refusal is noted once more.
   */
  lemma RefusalRepeated(f: u64)
    ensures var flow, env := OnlyFlow(Only(KClose, f), 1, ConfigOf(true).limits, false), OnlyEnv(true, 1, 1);
            Recomputed(Recomputed(flow, env), env) != Recomputed(flow, env)
  {
    var flow, env := OnlyFlow(Only(KClose, f), 1, ConfigOf(true).limits, false), OnlyEnv(true, 1, 1);
    CloseRefused(f, 1);
    hide OnlyFlow, OnlyEnv, Recomputed;
    RefusalsCounted(flow, env);
    Recompute.SecondEvaluationIff(flow, env);
  }

  lemma RefusalsCounted(flow: Flow, env: Env)
    requires RefusesOnce(flow, env)
    ensures SortedGenerations(flow.generations) && Recompute.RefusesSomething(flow, env)
    ensures Recompute.RefusalCount(flow.generations, env) == 1
  {
    hide RefusalNotes, SortViews, Views;
    assert flow.generations[..0] == [];
    assert Recompute.RefusalCount([], env) == 0;
  }

  // ---- active after a restart -------------------------------------------------------------------------------

  /** Progress at instant 1, a compaction, and a reopening at `t`. */
  function ProgressAndReopen(f: u64, t: i64): seq<Move> {
    [Do(CIngest(Only(KProgress, f), Outside(1, 1, true))), Compact] + [Reopen, Serve(t, t)]
  }

  /** One source with progress that declares no end: active while it is trusted, and as before when it is not. */
  lemma ProgressDecision(v: SourceView, previous: FlowState, env: Env)
    requires v.evidence.declaredTerminal == None && v.evidence.observedProgress && !env.config.expiry.enabled
    requires if IsUsable(v) then previous == Unknown else previous == Active
    ensures OnlyDecision(v, previous, env).state == Active
  {
    NothingDeclared(v, previous, env);
    assert v in [v];
    hide OnlyDecision, Decide, IsUsable;
  }

  predicate Progressed(e: Fold.State) {
    && e.times == Fold.Times(1, 1, 1) && e.lastProgress == 1 && e.observedProgress && e.declaredTerminal == None
  }

  lemma ProgressEvaluated(flow: Flow, e: Fold.State, restored: bool, heard: bool, at: i64, now: i64)
    requires Progressed(e) && |flow.generations| == 1 && HasOnly(flow.generations[0], e, restored, heard)
    requires if heard then flow.generations[0].state == Unknown && now == 1 else flow.generations[0].state == Active
    ensures var r := Recomputed(flow, OnlyEnv(false, at, now));
            && |r.generations| == 1 && HasOnly(r.generations[0], e, restored, heard)
            && r.generations[0].state == Active && r.state == Active && (r.restored <==> !heard)
  {
    var env := OnlyEnv(false, at, now);
    HeartbeatFresh(1);
    var v := OnlyView(e, restored, heard, env);
    assert heard ==> v.freshness == Fresh;
    assert IsUsable(v) == heard;
    OneRecomputed(flow, env);
    ProgressDecision(v, flow.generations[0].state, env);
    OnlySettled(flow.generations[0], e, restored, heard, false, at, now);
    OnlyReconfirmed(Recomputed(flow, env).generations[0], e, restored, heard);
    hide OnlyView, OnlyEnv, Settled, Recomputed, OnlyDecision;
  }

  lemma OnlyReconfirmed(g: Generation, e: Fold.State, restored: bool, heard: bool)
    requires HasOnly(g, e, restored, heard)
    ensures Reconfirmed(g.bindings) <==> heard
  {
    hide Ledger.FoldedEvidence;
  }

  /** What a restored generation knows of the progress its source reported. */
  lemma ProgressRestored(g: Generation, f: u64, e: Fold.State, heard: bool, limits: Limits) returns (restored: Fold.State)
    requires Progressed(e) && HasOnly(g, e, false, heard)
    ensures Progressed(restored) && HasOnly(RestoredGeneration(g, f, limits), restored, true, false)
  {
    var l := g.bindings[0].ledger;
    var r := RestoredGeneration(g, f, limits).bindings[0].ledger;
    Restore.RestoredAccountsAlike(l);
    Restore.RestoredAccountsAlike(l.(source := 1));
    restored := Restore.RestoredPrefix(Restore.Persist(l).(source := 1)).state;
    assert Ledger.FoldedState(l).state == e by { LedgerRefinement.AbsorbAllFacts(l.prefix, l.entries, l.policy); }
    assert Ledger.FoldedEvidence(r, DEFAULT_COUNTER_POLICY) == restored;
  }

  lemma FirstProgress(f: u64, ids: Identities, digest: Observation -> u64)
    requires f != 0 && ids.flow("a") == f
    ensures var m := Ingest(NewMachine(ConfigOf(false)), Only(KProgress, f), Outside(1, 1, true), ids, digest);
            && HasFlow(m, f, false, false)
            && |m.flows[f].generations| == 1 && HasOnly(m.flows[f].generations[0], Folded(KProgress, f), false, true)
            && m.flows[f].generations[0].state == Active
  {
    assert NewMachine(ConfigOf(false)).(replaying := false) == NewMachine(ConfigOf(false));
    hide Ingest, Folded, Recomputed, OnlyFlow, HasOnly, OnlyEnv, Only, NewMachine, ConfigOf;
    FirstIngest(KProgress, f, false, false, 1, ids, digest);
    FirstProgressEvaluated(f);
  }

  lemma FirstProgressEvaluated(f: u64)
    ensures var r := Recomputed(OnlyFlow(Only(KProgress, f), 1, ConfigOf(false).limits, false), OnlyEnv(false, 1, 1));
            |r.generations| == 1 && HasOnly(r.generations[0], Folded(KProgress, f), false, true) && r.generations[0].state == Active
  {
    FoldedFacts(KProgress, f);
    hide Folded, Recomputed, OnlyFlow, HasOnly, OnlyEnv, Only, ConfigOf;
    OnlyFlowHasOnly(KProgress, f, 1, ConfigOf(false).limits, false);
    ProgressEvaluated(OnlyFlow(Only(KProgress, f), 1, ConfigOf(false).limits, false), Folded(KProgress, f), false, true, 1, 1);
  }

  lemma ProgressReopened(m: Machine, f: u64, t: i64)
    requires HasFlow(m, f, false, false)
    requires |m.flows[f].generations| == 1 && HasOnly(m.flows[f].generations[0], Folded(KProgress, f), false, true)
    requires m.flows[f].generations[0].state == Active
    ensures var r := SettledAll(Restarted(Snapshotted(m)), t, t);
            f in r.flows && r.flows[f].state == Active && r.flows[f].restored
  {
    var limits := m.config.limits;
    FoldedFacts(KProgress, f);
    hide Folded, Recomputed, HasOnly, RestoredGeneration;
    var e := ProgressRestored(m.flows[f].generations[0], m.flows[f].id, Folded(KProgress, f), true, limits);
    RestoredKeepsState(m.flows[f].generations[0], m.flows[f].id, limits);
    var flow := RestoredFlow(m.flows[f], limits);
    assert flow.generations == [RestoredGeneration(m.flows[f].generations[0], m.flows[f].id, limits)];
    assert Restarted(Snapshotted(m)).sources == map[1 := UNREGISTERED];
    assert Restarted(Snapshotted(m)).flows[f] == flow;
    assert EnvOf(Restarted(Snapshotted(m)), t, t) == OnlyEnv(false, t, t);
    hide OnlyEnv, RestoredFlow;
    ProgressEvaluated(flow, e, true, false, t, t);
  }

  lemma RestoredKeepsState(g: Generation, f: u64, limits: Limits)
    ensures RestoredGeneration(g, f, limits).state == g.state
  {
    hide RestoredBinding;
  }

  /**
   * With expiry switched off, progress that was compacted is still called active after the program was reopened,
   * before any source has been heard again, and at any instant.
   */
  lemma ActiveAfterReopening(t: i64, ids: Identities, digest: Observation -> u64) returns (end: Program)
    requires ids.Valid()
    ensures var f := ids.flow("a");
            && Runs(NewProgram(ConfigOf(false)), ProgressAndReopen(f, t), end, ids, digest)
            && f in end.live.flows && end.live.flows[f].state == Active && end.live.flows[f].restored
  {
    var f := ids.flow("a");
    hide Ingest, Folded, SettledAll, HasOnly, Only, Restarted, Snapshotted, NewProgram, ConfigOf, Runs;
    var m, p := ProgressCompacted(f, ids, digest);
    ProgressReopened(m, f, t);
    end := CompactedReopens(p, t, ids, digest);
    RunsJoin(NewProgram(ConfigOf(false)), [Do(CIngest(Only(KProgress, f), Outside(1, 1, true))), Compact], p,
             [Reopen, Serve(t, t)], end, ids, digest);
  }

  lemma ProgressCompacted(f: u64, ids: Identities, digest: Observation -> u64) returns (m: Machine, p: Program)
    requires f != 0 && ids.flow("a") == f
    ensures Runs(NewProgram(ConfigOf(false)), [Do(CIngest(Only(KProgress, f), Outside(1, 1, true))), Compact], p, ids, digest)
    ensures p.saved == Snapshotted(m) && p.log == []
    ensures HasFlow(m, f, false, false)
    ensures |m.flows[f].generations| == 1 && HasOnly(m.flows[f].generations[0], Folded(KProgress, f), false, true)
    ensures m.flows[f].generations[0].state == Active
  {
    var o, outside := Only(KProgress, f), Outside(1, 1, true);
    var p0 := NewProgram(ConfigOf(false));
    var p1 := Next(p0, Do(CIngest(o, outside)), ids, digest);
    m := p1.live;
    assert m == Ingest(NewMachine(ConfigOf(false)), o, outside, ids, digest);
    hide Ingest, Folded, HasOnly, Only, Snapshotted, NewMachine, ConfigOf;
    FirstProgress(f, ids, digest);
    p := Next(p1, Compact, ids, digest);
    TwoMoves(p0, Do(CIngest(o, outside)), Compact, ids, digest);
  }

  lemma CompactedReopens(p: Program, t: i64, ids: Identities, digest: Observation -> u64) returns (end: Program)
    requires p.log == []
    ensures Runs(p, [Reopen, Serve(t, t)], end, ids, digest) && end.live == SettledAll(Restarted(p.saved), t, t)
  {
    hide SettledAll, Restarted, Next, Allowed;
    NextReopen(p, ids, digest);
    var p1 := Program(Restarted(p.saved), p.saved, [], []);
    NextServe(p1, t, ids, digest);
    end := Next(p1, Serve(t, t), ids, digest);
    TwoMoves(p, Reopen, Serve(t, t), ids, digest);
  }

  lemma {:induction false} RunsJoin(p: Program, a: seq<Move>, m: Program, b: seq<Move>, end: Program, ids: Identities, digest: Observation -> u64)
    requires Runs(p, a, m, ids, digest) && Runs(m, b, end, ids, digest)
    ensures Runs(p, a + b, end, ids, digest)
    decreases |a|
  {
    hide Next, Allowed;
    if a == [] {
      assert a + b == b;
    } else {
      RunsJoin(Next(p, a[0], ids, digest), a[1..], m, b, end, ids, digest);
      assert (a + b)[1..] == a[1..] + b;
    }
  }
}
