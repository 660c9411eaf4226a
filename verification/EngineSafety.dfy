/** What every run of one engine keeps, from its replay on, whatever arrives in whatever order; Restarts joins the runs. */
module EngineSafety {
  import opened Checked
  import opened Evidence
  import opened Runtime
  import opened FlowIngest
  import opened FlowSafety
  import opened Engine
  import Ledger
  import Restore

  // ---- the invariant -----------------------------------------------------------------------

  predicate TallyOk(t: Tally) {
    t.received == Wrap64(t.applied + t.duplicate + t.refused + t.conflicting)
  }

  predicate RegistriesOk(r: Registries, capacity: nat) {
    |r.endpoints| <= capacity && |r.paths| <= capacity && |r.queues| <= capacity && |r.links| <= capacity
  }

  predicate FlowsOk(flows: map<u64, Flow>, limits: Limits) {
    && |flows| <= limits.maxFlows
    && forall id :: id in flows ==> flows[id].id == id && FlowOk(flows[id], limits)
  }

  /** Every bound, every table in order, every flow coherent, every observation counted once. */
  predicate MachineOk(m: Machine) {
    && m.config.limits.Valid() && FlowsOk(m.flows, m.config.limits) && |m.sources| <= m.config.limits.maxSources
    && RegistriesOk(m.registries, m.config.limits.maxFlows) && TallyOk(m.tally)
  }

  /** Flows and generations go only after they have ended, and an end that stays is the end that was. */
  predicate EndsRespected(a: map<u64, Flow>, b: map<u64, Flow>) {
    && (forall f :: f in a && f !in b ==> IsTerminal(a[f].state))
    && (forall f :: f in a && f in b ==>
          EndsKept(a[f].generations, b[f].generations) && OnlyEndedEvicted(a[f].generations, a[f].current, b[f].generations))
  }

  /** No source of generation g of flow f has been heard by this run of the program. */
  predicate Unheard(flows: map<u64, Flow>, f: u64, g: u64) {
    f in flows ==> Quiet(flows[f].generations, g)
  }

  // ---- counting -------------------------------------------------------------------------------

  lemma WrapStep(n: nat, a: u64, b: u64, c: u64, d: u64)
    requires n == Wrap64(a + b + c + d)
    ensures Inc64(n) == Wrap64(Inc64(a) + b + c + d)
  {
    WrapNext(a + b + c + d);
    if a == U64_MAX {
      assert a + b + c + d + 1 == (b + c + d) + (U64_MAX + 1);
      WrapAround(b + c + d);
    }
  }

  lemma WrapAround(n: nat)
    ensures Wrap64(n + (U64_MAX + 1)) == Wrap64(n)
  {
  }

  /** Received is always applied plus duplicate plus refused plus conflicting, in 64-bit arithmetic. */
  lemma CountedOnce(t: Tally, d: Disposition)
    requires TallyOk(t)
    ensures TallyOk(Counted(t.(received := Inc64(t.received)), d))
  {
    hide Wrap64, Inc64;
    WrapStep(t.received, t.applied, t.duplicate, t.refused, t.conflicting);
    WrapStep(t.received, t.duplicate, t.applied, t.refused, t.conflicting);
    WrapStep(t.received, t.refused, t.applied, t.duplicate, t.conflicting);
    WrapStep(t.received, t.conflicting, t.applied, t.duplicate, t.refused);
  }

  // ---- identity registries ------------------------------------------------------------------------

  /** Nothing registered is forgotten or renamed. */
  predicate Extends(a: map<u64, Text>, b: map<u64, Text>) {
    forall k :: k in a ==> k in b && b[k] == a[k]
  }

  /** The identity, if there is one, is registered under this key. */
  predicate Names(entries: map<u64, Text>, id: u64, key: Text) {
    id != 0 && key != [] ==> id in entries && entries[id] == key
  }

  lemma RegistryBounded(entries: map<u64, Text>, id: u64, key: Text, capacity: nat)
    requires |entries| <= capacity
    ensures var after := RegistryAfter(entries, id, key, capacity);
            && |after| <= capacity
            && Extends(entries, after)
            && (!Failed(RegistryOutcome(entries, id, key, capacity)) ==> Names(after, id, key))
  {
  }

  /** Registries stay within bounds and never forget or rename; success means every named key is the registered one. */
  lemma RegisterAllSafe(r: Registries, s: Subject, capacity: nat)
    requires RegistriesOk(r, capacity)
    ensures var (after, outcome) := RegisterAll(r, s, capacity);
            && RegistriesOk(after, capacity)
            && Extends(r.endpoints, after.endpoints) && Extends(r.paths, after.paths)
            && Extends(r.queues, after.queues) && Extends(r.links, after.links)
            && (!Failed(outcome) ==>
                  && Names(after.endpoints, s.endpoint, s.endpointKey) && Names(after.endpoints, s.peerEndpoint, s.peerEndpointKey)
                  && Names(after.paths, IdOf(s.path), s.pathKey) && Names(after.queues, IdOf(s.queue), s.queueKey)
                  && Names(after.links, IdOf(s.link), s.linkKey))
  {
    hide RegistryAfter, RegistryOutcome;
    RegistryBounded(r.endpoints, s.endpoint, s.endpointKey, capacity);
    var e := RegistryAfter(r.endpoints, s.endpoint, s.endpointKey, capacity);
    RegistryBounded(e, s.peerEndpoint, s.peerEndpointKey, capacity);
    RegistryBounded(r.paths, IdOf(s.path), s.pathKey, capacity);
    RegistryBounded(r.queues, IdOf(s.queue), s.queueKey, capacity);
    RegistryBounded(r.links, IdOf(s.link), s.linkKey, capacity);
  }

  // ---- admission -------------------------------------------------------------------------------------

  lemma NewFlowOk(id: u64, key: Text, at: i64, replaying: bool, limits: Limits)
    requires id != 0
    ensures FlowOk(NewFlow(id, key, at, replaying), limits)
  {
  }

  lemma NothingEnded(flows: map<u64, Flow>, limits: Limits)
    requires FlowsOk(flows, limits)
    ensures EndsRespected(flows, flows)
  {
    hide FlowOk, EndsKept, OnlyEndedEvicted;
    forall f | f in flows
      ensures EndsKept(flows[f].generations, flows[f].generations)
      ensures OnlyEndedEvicted(flows[f].generations, flows[f].current, flows[f].generations)
    {
      OrderOf(flows[f], limits);
      NothingEvicted(flows[f].generations, flows[f].current);
    }
  }

  lemma FewerFlows(flows: map<u64, Flow>, id: u64)
    requires id in flows
    ensures |flows - {id}| == |flows| - 1
  {
    assert (flows - {id}).Keys == flows.Keys - {id};
    assert |(flows - {id}).Keys| == |flows.Keys| - 1;
  }

  predicate StaysUnheard(a: map<u64, Flow>, b: map<u64, Flow>) {
    forall f, g :: Unheard(a, f, g) ==> Unheard(b, f, g)
  }

  lemma AddingFits(b: map<u64, Flow>, id: u64, flow: Flow, limits: Limits)
    requires FlowsOk(b, limits) && id !in b && |b| < limits.maxFlows && FlowOk(flow, limits) && flow.id == id
    ensures FlowsOk(b[id := flow], limits)
  {
    hide FlowOk;
    assert b[id := flow].Keys == b.Keys + {id};
    assert |b[id := flow].Keys| == |b.Keys| + 1;
  }

  lemma AddingRespects(a: map<u64, Flow>, b: map<u64, Flow>, id: u64, flow: Flow)
    requires EndsRespected(a, b) && id !in a
    ensures EndsRespected(a, b[id := flow])
  {
    hide EndsKept, OnlyEndedEvicted;
  }

  lemma AddingSilent(a: map<u64, Flow>, b: map<u64, Flow>, id: u64, flow: Flow)
    requires StaysUnheard(a, b) && forall g :: Quiet(flow.generations, g)
    ensures StaysUnheard(a, b[id := flow])
  {
    hide Quiet;
    forall f, g | Unheard(a, f, g) ensures Unheard(b[id := flow], f, g) {
      assert Unheard(b, f, g);
    }
  }

  lemma AddingSafe(a: map<u64, Flow>, b: map<u64, Flow>, id: u64, flow: Flow, limits: Limits)
    requires FlowsOk(b, limits) && EndsRespected(a, b) && StaysUnheard(a, b)
    requires id !in a && id !in b && |b| < limits.maxFlows
    requires FlowOk(flow, limits) && flow.id == id && forall g :: Quiet(flow.generations, g)
    ensures FlowsOk(b[id := flow], limits) && EndsRespected(a, b[id := flow]) && StaysUnheard(a, b[id := flow])
  {
    hide FlowOk, FlowsOk, EndsRespected, StaysUnheard, Quiet;
    AddingFits(b, id, flow, limits);
    AddingRespects(a, b, id, flow);
    AddingSilent(a, b, id, flow);
  }

  lemma EvictingSafe(flows: map<u64, Flow>, id: u64, limits: Limits)
    requires FlowsOk(flows, limits) && id in flows && IsTerminal(flows[id].state)
    ensures var rest := flows - {id};
            FlowsOk(rest, limits) && |rest| == |flows| - 1 && EndsRespected(flows, rest) && StaysUnheard(flows, rest)
  {
    NothingEnded(flows, limits);
    hide FlowOk, EndsKept, OnlyEndedEvicted, Quiet;
    FewerFlows(flows, id);
  }

  /** The flow table never exceeds its limit: a flow that has ended makes room, or the newcomer is refused. */
  lemma AdmitFlowSafe(m: Machine, o: Observation, at: i64)
    requires MachineOk(m) && o.subject.flow != 0
    ensures var (r, ok) := AdmitFlow(m, o, at);
            && MachineOk(r) && r == m.(flows := r.flows) && EndsRespected(m.flows, r.flows) && StaysUnheard(m.flows, r.flows)
            && (!ok ==> r == m && |m.flows| == m.config.limits.maxFlows && forall f :: f in m.flows ==> !IsTerminal(m.flows[f].state))
  {
    var id, limits := o.subject.flow, m.config.limits;
    NothingEnded(m.flows, limits);
    NewFlowOk(id, o.subject.flowKey, at, m.replaying, limits);
    NewFlowQuiet(id, o.subject.flowKey, at, m.replaying);
    hide NewFlow, FlowOk, EndsRespected, StaysUnheard;
    NoChangeUnheard(m.flows);
    var fits := NewFlow(id, o.subject.flowKey, at, m.replaying);
    if id in m.flows {
    } else if |m.flows| < limits.maxFlows {
      AddingSafe(m.flows, m.flows, id, fits, limits);
    } else if FlowVictim(m.flows).Some? {
      var victim := FlowVictim(m.flows).value;
      EvictingSafe(m.flows, victim, limits);
      AddingSafe(m.flows, m.flows - {victim}, id, fits, limits);
    } else {
      NoVictimNoneEnded(m.flows);
    }
  }

  lemma NoChangeUnheard(flows: map<u64, Flow>)
    ensures StaysUnheard(flows, flows)
  {
  }

  lemma NewFlowQuiet(id: u64, key: Text, at: i64, replaying: bool)
    ensures forall g :: Quiet(NewFlow(id, key, at, replaying).generations, g)
    ensures NewFlow(id, key, at, replaying).id == id
  {
  }

  /** When some flow has ended there is one to evict: a finite table has a least recently touched one. */
  lemma NoVictimNoneEnded(flows: map<u64, Flow>)
    requires FlowVictim(flows).None?
    ensures forall f :: f in flows ==> !IsTerminal(flows[f].state)
  {
    var ended := set f | f in flows && IsTerminal(flows[f].state);
    if ended != {} {
      var victim := OldestOf(flows, ended);
      assert IsFlowVictim(flows, victim);
    }
    forall f | f in flows ensures !IsTerminal(flows[f].state) {
      assert f !in ended;
    }
  }

  lemma {:induction false} OldestOf(flows: map<u64, Flow>, ids: set<u64>) returns (oldest: u64)
    requires ids != {} && ids <= flows.Keys
    ensures oldest in ids && forall id :: id in ids ==> GoesFirst(flows, oldest, id)
    decreases ids
  {
    var x :| x in ids;
    if ids == {x} {
      oldest := x;
    } else {
      var y := OldestOf(flows, ids - {x});
      oldest := if GoesFirst(flows, x, y) then x else y;
      forall id | id in ids ensures GoesFirst(flows, oldest, id) {
        assert id != x ==> id in ids - {x};
      }
    }
  }

  // ---- delivery --------------------------------------------------------------------------------------

  /** Was evidence about this generation applied by this run of the program? */
  predicate Hears(m: Machine, o: Observation, d: Disposition, f: u64, g: u64) {
    !m.replaying && d == Applied && o.subject.flow == f && o.subject.generation == g
  }

  lemma ReplacingFits(flows: map<u64, Flow>, id: u64, after: Flow, limits: Limits)
    requires FlowsOk(flows, limits) && id in flows && FlowOk(after, limits) && after.id == id
    ensures FlowsOk(flows[id := after], limits)
  {
    hide FlowOk;
    assert flows[id := after].Keys == flows.Keys;
    assert |flows[id := after].Keys| == |flows.Keys|;
  }

  lemma ReplacingRespects(flows: map<u64, Flow>, id: u64, after: Flow)
    requires id in flows && EndsRespected(flows, flows)
    requires EndsKept(flows[id].generations, after.generations)
    requires OnlyEndedEvicted(flows[id].generations, flows[id].current, after.generations)
    ensures EndsRespected(flows, flows[id := after])
  {
    hide EndsKept, OnlyEndedEvicted;
  }

  /** One flow of the table has changed, and kept what it should. */
  lemma ReplacingSafe(flows: map<u64, Flow>, id: u64, after: Flow, limits: Limits)
    requires FlowsOk(flows, limits) && id in flows
    requires FlowOk(after, limits) && after.id == id
    requires EndsKept(flows[id].generations, after.generations)
    requires OnlyEndedEvicted(flows[id].generations, flows[id].current, after.generations)
    ensures FlowsOk(flows[id := after], limits) && EndsRespected(flows, flows[id := after])
    ensures forall f, g :: Unheard(flows, f, g) && (f == id && Quiet(flows[id].generations, g) ==> Quiet(after.generations, g))
              ==> Unheard(flows[id := after], f, g)
  {
    hide FlowOk, EndsKept, OnlyEndedEvicted, Quiet, EndsRespected, FlowsOk;
    NothingEnded(flows, limits);
    ReplacingFits(flows, id, after, limits);
    ReplacingRespects(flows, id, after);
  }

  lemma CollidedOk(flow: Flow, o: Observation, at: i64, limits: Limits)
    requires FlowOk(flow, limits)
    ensures var f := Collided(flow, o, at, limits);
            FlowOk(f, limits) && f.generations == flow.generations && f.id == flow.id
  {
    var counted := flow.(collisions := Inc64(flow.collisions));
    CoherentNoted(counted, NoteOf(IdentityCollision, o, at), limits);
    hide Noted, GenerationsOk, Reconfirmed;
  }

  lemma UnregisteredOk(flow: Flow, r: Registration, o: Observation, at: i64, limits: Limits)
    requires FlowOk(flow, limits)
    ensures var f := Unregistered(flow, r, o, at, limits);
            FlowOk(f, limits) && f.generations == flow.generations && f.id == flow.id
  {
    hide Noted, GenerationsOk, Reconfirmed;
    CoherentNoted(flow.(collisions := Inc64(flow.collisions)), NoteOf(IdentityCollision, o, at), limits);
    CoherentNoted(flow, NoteOf(LimitEviction, o, at), limits);
  }

  /** What a step may do to the flows when it disposed of an observation like this. */
  predicate Delivers(m: Machine, r: Machine, o: Observation, d: Disposition) {
    && MachineOk(r) && r == m.(flows := r.flows, registries := r.registries) && EndsRespected(m.flows, r.flows)
    && (forall f, g :: Unheard(m.flows, f, g) && !Hears(m, o, d, f, g) ==> Unheard(r.flows, f, g))
  }

  lemma ReplacedDelivers(m: Machine, o: Observation, d: Disposition, registries: Registries, after: Flow)
    requires MachineOk(m) && o.subject.flow in m.flows && RegistriesOk(registries, m.config.limits.maxFlows)
    requires Preserved(m.flows[o.subject.flow], o, m.replaying, after, d, m.config.limits)
    ensures Delivers(m, m.(registries := registries, flows := m.flows[o.subject.flow := after]), o, d)
  {
    hide FlowOk, EndsKept, OnlyEndedEvicted, Quiet, EndsRespected, TallyOk;
    ReplacingSafe(m.flows, o.subject.flow, after, m.config.limits);
  }

  lemma UnchangedPreserved(flow: Flow, o: Observation, replaying: bool, after: Flow, d: Disposition, limits: Limits)
    requires FlowOk(flow, limits) && FlowOk(after, limits)
    requires after.id == flow.id && after.key == flow.key && after.generations == flow.generations
    ensures Preserved(flow, o, replaying, after, d, limits)
  {
    OrderOf(flow, limits);
    NothingEvicted(flow.generations, flow.current);
  }

  lemma DeliveredSafe(m: Machine, o: Observation, env: Env, digest: Observation -> u64)
    requires MachineOk(m) && env.config == m.config && o.Valid() && o.subject.flow in m.flows
    ensures var (r, d) := Delivered(m, o, env, digest);
            Delivers(m, r, o, d)
  {
    var id, limits := o.subject.flow, m.config.limits;
    var flow := m.flows[id];
    hide FlowOk, Preserved, Delivers, Ingested, RegisterAll, Collided, Unregistered, TallyOk;
    var (registries, outcome) := RegisterAll(m.registries, o.subject, limits.maxFlows);
    RegisterAllSafe(m.registries, o.subject, limits.maxFlows);
    if flow.key != o.subject.flowKey {
      var after := Collided(flow, o, env.at, limits);
      CollidedOk(flow, o, env.at, limits);
      UnchangedPreserved(flow, o, m.replaying, after, Disposition.Conflicting, limits);
      ReplacedDelivers(m, o, Disposition.Conflicting, m.registries, after);
    } else if Failed(outcome) {
      var after := Unregistered(flow, outcome, o, env.at, limits);
      UnregisteredOk(flow, outcome, o, env.at, limits);
      UnchangedPreserved(flow, o, m.replaying, after, Refused, limits);
      ReplacedDelivers(m, o, Refused, registries, after);
    } else {
      var (after, d) := Ingested(flow, o, env, m.replaying, digest);
      IngestedSafe(flow, o, env, m.replaying, digest);
      ReplacedDelivers(m, o, d, registries, after);
    }
  }

  // ---- ingest ------------------------------------------------------------------------------------------

  /** The observation a step is about once it has been normalised. */
  function About(m: Machine, incoming: Observation, outside: Outside, ids: Identities): Observation {
    Normalised(incoming, InstantOf(m, incoming, outside.at), ids)
  }

  lemma ValidatedIsValid(o: Observation, at: i64, limits: Limits, ids: Identities)
    requires Validated(o, limits, ids) && ids.Valid()
    ensures Normalised(o, at, ids).Valid()
  {
  }

  lemma EndsRespectedThrough(a: map<u64, Flow>, b: map<u64, Flow>, c: map<u64, Flow>)
    requires EndsRespected(a, b) && EndsRespected(b, c)
    requires forall f :: f in a && f in b ==> b[f] == a[f]
    requires b.Keys == c.Keys
    ensures EndsRespected(a, c)
  {
    hide EndsKept, OnlyEndedEvicted;
    forall f | f in a && f !in c ensures IsTerminal(a[f].state) {
      assert f !in b;
    }
    forall f | f in a && f in c
      ensures EndsKept(a[f].generations, c[f].generations) && OnlyEndedEvicted(a[f].generations, a[f].current, c[f].generations)
    {
      assert f in b;
    }
  }

  lemma AdmittedUnchanged(m: Machine, o: Observation, at: i64)
    ensures var (r, ok) := AdmitFlow(m, o, at);
            forall f :: f in m.flows && f in r.flows ==> r.flows[f] == m.flows[f]
  {
  }

  lemma DeliveredKeys(m: Machine, o: Observation, env: Env, digest: Observation -> u64)
    requires o.subject.flow in m.flows
    ensures Delivered(m, o, env, digest).0.flows.Keys == m.flows.Keys
  {
    hide Ingested, RegisterAll, Collided, Unregistered;
  }

  lemma EnrolledSafe(m: Machine, o: Observation, at: i64, now: i64, digest: Observation -> u64)
    requires MachineOk(m) && o.key.source in m.sources && o.Valid()
    ensures var (r, d) := Enrolled(m, o, at, now, digest);
            Delivers(m, r, o, d)
  {
    hide FlowOk, EndsRespected, TallyOk, Delivered, AdmitFlow, FlowsOk, RegistriesOk, Quiet;
    NothingEnded(m.flows, m.config.limits);
    AdmitFlowSafe(m, o, at);
    AdmittedUnchanged(m, o, at);
    var (ready, admitted) := AdmitFlow(m, o, at);
    if !m.sources[o.key.source].retired && admitted {
      DeliveredSafe(ready, o, EnvOf(ready, at, now), digest);
      DeliveredKeys(ready, o, EnvOf(ready, at, now), digest);
      EndsRespectedThrough(m.flows, ready.flows, Delivered(ready, o, EnvOf(ready, at, now), digest).0.flows);
    }
  }

  /** Ingest keeps the engine's invariant and every end; only applied evidence of this run makes a generation heard. */
  lemma IngestSafe(m: Machine, o: Observation, outside: Outside, ids: Identities, digest: Observation -> u64)
    requires MachineOk(m) && ids.Valid()
    ensures var r := Ingest(m, o, outside, ids, digest);
            && MachineOk(r) && r.config == m.config && r.replaying == m.replaying && EndsRespected(m.flows, r.flows)
            && (forall f, g :: Unheard(m.flows, f, g) && !Hears(m, About(m, o, outside, ids), Taken(m, o, outside, ids, digest).1, f, g)
                  ==> Unheard(r.flows, f, g))
  {
    hide FlowOk, EndsRespected, TallyOk, Enrolled, FlowsOk, RegistriesOk, Quiet, Unheard, Hears;
    NothingEnded(m.flows, m.config.limits);
    var about := About(m, o, outside, ids);
    CountedOnce(m.tally, Taken(m, o, outside, ids, digest).1);
    if Validated(o, m.config.limits, ids) && (m.replaying || outside.journaled) {
      ValidatedIsValid(o, InstantOf(m, o, outside.at), m.config.limits, ids);
      var known := AdmitSource(m, about.key.source);
      if known.Some? {
        SourceAdmitted(m, about.key.source);
        EnrolledSafe(known.value, about, InstantOf(m, o, outside.at), InstantOf(m, o, outside.now), digest);
        HearsAlike(m, known.value, about);
      }
    }
  }

  lemma HearsAlike(a: Machine, b: Machine, o: Observation)
    requires a.replaying == b.replaying
    ensures forall d, f, g :: Hears(a, o, d, f, g) == Hears(b, o, d, f, g)
  {
  }

  lemma SourceAdmitted(m: Machine, source: u64)
    requires MachineOk(m)
    ensures var r := AdmitSource(m, source);
            r.Some? ==> MachineOk(r.value) && r.value.flows == m.flows
  {
  }

  // ---- the other steps -----------------------------------------------------------------------------------

  /** A flow kept what every step keeps. */
  predicate FlowKept(a: Flow, b: Flow, limits: Limits) {
    && FlowOk(b, limits) && b.id == a.id
    && EndsKept(a.generations, b.generations) && OnlyEndedEvicted(a.generations, a.current, b.generations)
    && forall g :: Quiet(a.generations, g) ==> Quiet(b.generations, g)
  }

  lemma MappedSafe(a: map<u64, Flow>, b: map<u64, Flow>, limits: Limits)
    requires FlowsOk(a, limits) && b.Keys == a.Keys && forall f :: f in a ==> FlowKept(a[f], b[f], limits)
    ensures FlowsOk(b, limits) && EndsRespected(a, b) && StaysUnheard(a, b)
  {
    hide FlowOk, EndsKept, OnlyEndedEvicted, Quiet;
    assert |b.Keys| == |a.Keys|;
    forall f, g | Unheard(a, f, g) ensures Unheard(b, f, g) {
      if f in b {
        assert FlowKept(a[f], b[f], limits);
      }
    }
  }

  lemma SameFlowKept(flow: Flow, limits: Limits)
    requires FlowOk(flow, limits)
    ensures FlowKept(flow, flow, limits)
  {
    OrderOf(flow, limits);
    NothingEvicted(flow.generations, flow.current);
  }

  lemma RecomputedKept(flow: Flow, env: Env)
    requires FlowOk(flow, env.config.limits)
    ensures FlowKept(flow, Recomputed(flow, env), env.config.limits)
  {
    OrderOf(flow, env.config.limits);
    NothingEvicted(flow.generations, flow.current);
    hide Quiet, EndsKept, Recomputed, Settled, GenerationsOk;
    RecomputedSafe(flow, env);
    EvictionThrough(flow.generations, flow.current, flow.generations, Recomputed(flow, env).generations);
  }

  lemma TickSafe(m: Machine, at: i64, now: i64)
    requires MachineOk(m)
    ensures var r := Ticked(m, at, now);
            MachineOk(r) && EndsRespected(m.flows, r.flows) && StaysUnheard(m.flows, r.flows)
  {
    hide FlowKept, FlowOk, Recomputed, AllEnded, EndsRespected, StaysUnheard, TallyOk;
    var r := Ticked(m, at, now);
    forall f | f in m.flows ensures FlowKept(m.flows[f], r.flows[f], m.config.limits) {
      SameFlowKept(m.flows[f], m.config.limits);
      RecomputedKept(m.flows[f], EnvOf(m, at, if at != 0 then at else now));
    }
    MappedSafe(m.flows, r.flows, m.config.limits);
  }

  lemma SettleSafe(m: Machine, at: i64, now: i64)
    requires MachineOk(m)
    ensures var r := SettledAll(m, at, now);
            MachineOk(r) && EndsRespected(m.flows, r.flows) && StaysUnheard(m.flows, r.flows)
  {
    hide FlowKept, FlowOk, Recomputed, EndsRespected, StaysUnheard, TallyOk;
    var r := SettledAll(m, at, now);
    forall f | f in m.flows ensures FlowKept(m.flows[f], r.flows[f], m.config.limits) {
      RecomputedKept(m.flows[f], EnvOf(m, at, now));
    }
    MappedSafe(m.flows, r.flows, m.config.limits);
  }

  // ---- retiring a source ------------------------------------------------------------------------------------

  lemma {:induction false} DroppedElements(bs: seq<Binding>, source: u64)
    ensures |DropSource(bs, source)| <= |bs|
    ensures forall b :: b in DropSource(bs, source) <==> b in bs && b.source != source
  {
    if bs != [] {
      var front, last := bs[..|bs| - 1], bs[|bs| - 1];
      DroppedElements(front, source);
      assert bs == front + [last];
    }
  }

  lemma LastIsLargest(bs: seq<Binding>, b: Binding)
    requires bs != [] && SortedIds(BindingIds(bs)) && b in bs[..|bs| - 1]
    ensures b.source < bs[|bs| - 1].source
  {
    var k :| 0 <= k < |bs| - 1 && bs[k] == b;
    assert BindingIds(bs)[k] < BindingIds(bs)[|bs| - 1];
  }

  lemma SortedAppend(bs: seq<Binding>, b: Binding)
    requires SortedIds(BindingIds(bs)) && forall i :: 0 <= i < |bs| ==> bs[i].source < b.source
    ensures SortedIds(BindingIds(bs + [b]))
  {
    assert BindingIds(bs + [b]) == BindingIds(bs) + [b.source];
  }

  lemma {:induction false} DroppedSorted(bs: seq<Binding>, source: u64)
    requires SortedIds(BindingIds(bs))
    ensures SortedIds(BindingIds(DropSource(bs, source)))
  {
    if bs != [] {
      var front, last := bs[..|bs| - 1], bs[|bs| - 1];
      assert BindingIds(front) == BindingIds(bs)[..|bs| - 1];
      DroppedSorted(front, source);
      DroppedElements(front, source);
      var r := DropSource(front, source);
      forall i | 0 <= i < |r| ensures r[i].source < last.source {
        assert r[i] in r;
        LastIsLargest(bs, r[i]);
      }
      SortedAppend(r, last);
    }
  }

  lemma DroppedOk(g: Generation, source: u64, flow: u64, limits: Limits)
    requires GenerationOk(g, flow, limits)
    ensures var r := g.(bindings := DropSource(g.bindings, source));
            GenerationOk(r, flow, limits) && (Reconfirmed(r.bindings) ==> Reconfirmed(g.bindings))
  {
    hide BindingOk;
    DroppedElements(g.bindings, source);
    DroppedSorted(g.bindings, source);
    var r := DropSource(g.bindings, source);
    forall k | 0 <= k < |r| ensures BindingOk(r[k], flow, g.id, limits) {
      assert r[k] in g.bindings;
    }
    if Reconfirmed(r) {
      var k :| 0 <= k < |r| && r[k].reconfirmed;
      assert r[k] in g.bindings;
    }
  }

  /** Generations changed in nothing but their bindings, of which none is heard that was not heard before. */
  predicate FewerHeard(a: seq<Generation>, b: seq<Generation>) {
    && |a| == |b|
    && forall i :: 0 <= i < |a| ==>
         b[i].id == a[i].id && SameEnd(a[i], b[i]) && (Reconfirmed(b[i].bindings) ==> Reconfirmed(a[i].bindings))
  }

  lemma FewerHeardKept(a: seq<Generation>, b: seq<Generation>, current: u64)
    requires SortedGenerations(a) && FewerHeard(a, b)
    ensures SortedGenerations(b) && EndsKept(a, b) && OnlyEndedEvicted(a, current, b)
    ensures forall g :: Knows(b, g) <==> Knows(a, g)
    ensures forall g :: Quiet(a, g) ==> Quiet(b, g)
  {
    hide SameEnd, Reconfirmed;
    forall g ensures Knows(b, g) <==> Knows(a, g) {
      if Knows(a, g) {
        var i :| 0 <= i < |a| && a[i].id == g;
        assert b[i].id == g;
      }
      if Knows(b, g) {
        var i :| 0 <= i < |b| && b[i].id == g;
        assert a[i].id == g;
      }
    }
    forall i | 0 <= i < |a| ensures Knows(b, a[i].id) {
      KnowsItself(a, i);
    }
  }

  lemma WithoutSourceShape(flow: Flow, source: u64, limits: Limits)
    requires FlowOk(flow, limits)
    ensures Shape(WithoutSource(flow, source), limits) && FewerHeard(flow.generations, WithoutSource(flow, source).generations)
  {
    hide GenerationOk, Reconfirmed, DropSource;
    var next := WithoutSource(flow, source).generations;
    forall i | 0 <= i < |next|
      ensures GenerationOk(next[i], flow.id, limits) && (Reconfirmed(next[i].bindings) ==> Reconfirmed(flow.generations[i].bindings))
    {
      DroppedOk(flow.generations[i], source, flow.id, limits);
    }
  }

  lemma RetiredFlowKept(flow: Flow, source: u64, env: Env)
    requires FlowOk(flow, env.config.limits)
    ensures FlowKept(flow, Recomputed(WithoutSource(flow, source), env), env.config.limits)
  {
    var without := WithoutSource(flow, source);
    WithoutSourceShape(flow, source, env.config.limits);
    OrderOf(flow, env.config.limits);
    FewerHeardKept(flow.generations, without.generations, flow.current);
    hide Quiet, EndsKept, Recomputed, Settled, GenerationsOk, WithoutSource, FewerHeard, OnlyEndedEvicted, Knows;
    RecomputedSafe(without, env);
    var after := Recomputed(without, env);
    KnowsSame(flow.generations, without.generations, after.generations);
    EndsTransitive(flow.generations, without.generations, after.generations);
    EvictionThrough(flow.generations, flow.current, without.generations, after.generations);
  }

  lemma RetireSafe(m: Machine, source: u64, at: i64, now: i64)
    requires MachineOk(m)
    ensures var r := RetireSource(m, source, at, now);
            MachineOk(r) && EndsRespected(m.flows, r.flows) && StaysUnheard(m.flows, r.flows)
  {
    hide FlowKept, FlowOk, Recomputed, WithoutSource, EndsRespected, StaysUnheard, TallyOk;
    NothingEnded(m.flows, m.config.limits);
    NoChangeUnheard(m.flows);
    var r := RetireSource(m, source, at, now);
    if source in m.sources {
      var sources := m.sources[source := m.sources[source].(retired := true)];
      assert sources.Keys == m.sources.Keys;
      assert |sources| == |m.sources|;
      forall f | f in m.flows ensures FlowKept(m.flows[f], r.flows[f], m.config.limits) {
        RetiredFlowKept(m.flows[f], source, Env(m.config, sources, at, now));
      }
      MappedSafe(m.flows, r.flows, m.config.limits);
    }
  }

  /** The same evidence of the same source, apart from which anomalies have been promoted. */
  predicate SameEvidence(a: Binding, b: Binding) {
    b == a.(promoted := b.promoted)
  }

  /**
   * After a source is retired, and every flow recomputed, no generation holds evidence of it, and every generation
   * holds exactly the evidence it held of every other source.
   */
  lemma RetiredIsUnbound(m: Machine, source: u64, at: i64, now: i64, f: u64, i: nat)
    requires MachineOk(m) && source in m.sources && f in m.flows && i < |m.flows[f].generations|
    ensures var r := RetireSource(m, source, at, now);
            && f in r.flows && |r.flows[f].generations| == |m.flows[f].generations|
            && var before, after := m.flows[f].generations[i].bindings, r.flows[f].generations[i].bindings;
               && (forall b :: b in after ==> b.source != source && exists a :: a in before && SameEvidence(a, b))
               && (forall a :: a in before && a.source != source ==> exists b :: b in after && SameEvidence(a, b))
  {
    var flow := m.flows[f];
    var env := Env(m.config, m.sources[source := m.sources[source].(retired := true)], at, now);
    assert RetireSource(m, source, at, now).flows[f] == Recomputed(WithoutSource(flow, source), env);
    assert FlowOk(flow, m.config.limits);
    assert flow.generations == [] ==> !IsTerminal(flow.state);
    hide FlowOk, Shape, Recomputed, WithoutSource, MachineOk, RetireSource;
    WithoutSourceShape(flow, source, m.config.limits);
    RetiredGeneration(flow, source, env, i);
    OthersStay(flow.generations[i].bindings, source, env);
  }

  lemma OthersStay(before: seq<Binding>, source: u64, env: Env)
    ensures var after := PromotedBindings(DropSource(before, source), env);
            && (forall b :: b in after ==> b.source != source && exists a :: a in before && SameEvidence(a, b))
            && (forall a :: a in before && a.source != source ==> exists b :: b in after && SameEvidence(a, b))
  {
    hide DropSource, PromotedBinding;
    DroppedElements(before, source);
    var kept := DropSource(before, source);
    var after := PromotedBindings(kept, env);
    forall b | b in after ensures b.source != source && exists a :: a in before && SameEvidence(a, b) {
      var k :| 0 <= k < |after| && after[k] == b;
      PromotionKeeps(kept[k], env);
      assert kept[k] in kept && SameEvidence(kept[k], b);
    }
    forall a | a in kept ensures exists b :: b in after && SameEvidence(a, b) {
      var k :| 0 <= k < |kept| && kept[k] == a;
      PromotionKeeps(a, env);
      assert after[k] in after && SameEvidence(a, after[k]);
    }
  }

  lemma RetiredGeneration(flow: Flow, source: u64, env: Env, i: nat)
    requires Shape(WithoutSource(flow, source), env.config.limits) && i < |flow.generations|
    requires flow.generations == [] ==> !IsTerminal(flow.state)
    ensures var after := Recomputed(WithoutSource(flow, source), env);
            && |after.generations| == |flow.generations|
            && after.generations[i].bindings == PromotedBindings(DropSource(flow.generations[i].bindings, source), env)
  {
    RecomputedSafe(WithoutSource(flow, source), env);
    hide Recomputed, Shape, PromotedBindings, DropSource, Views;
  }

  // ---- restart -----------------------------------------------------------------------------------------------

  lemma RestoredBindingOk(b: Binding, flow: u64, generation: u64, limits: Limits)
    requires limits.Valid()
    ensures BindingOk(RestoredBinding(b, flow, generation, limits), flow, generation, limits)
  {
    hide Restore.Persist, Restore.RestoredPrefix;
  }

  lemma RestoredGenerationOk(g: Generation, flow: u64, limits: Limits)
    requires GenerationOk(g, flow, limits) && limits.Valid()
    ensures var r := RestoredGeneration(g, flow, limits);
            GenerationOk(r, flow, limits) && r.id == g.id && SameEnd(g, r) && !Reconfirmed(r.bindings)
  {
    hide BindingOk, Restore.Resumed, Restore.Persist;
    var r := RestoredGeneration(g, flow, limits);
    assert BindingIds(r.bindings) == BindingIds(g.bindings);
    forall i | 0 <= i < |r.bindings| ensures BindingOk(r.bindings[i], flow, g.id, limits) {
      RestoredBindingOk(g.bindings[i], flow, g.id, limits);
    }
  }

  lemma RestoredFlowShape(flow: Flow, limits: Limits)
    requires FlowOk(flow, limits) && limits.Valid()
    ensures var r := RestoredFlow(flow, limits);
            && Shape(r, limits) && FewerHeard(flow.generations, r.generations)
            && forall i :: 0 <= i < |r.generations| ==> !Reconfirmed(r.generations[i].bindings)
  {
    hide GenerationOk, RestoredGeneration, SameEnd, Reconfirmed;
    var r := RestoredFlow(flow, limits);
    forall i | 0 <= i < |r.generations|
      ensures var a, b := flow.generations[i], r.generations[i];
              GenerationOk(b, flow.id, limits) && b.id == a.id && SameEnd(a, b) && !Reconfirmed(b.bindings)
    {
      RestoredGenerationOk(flow.generations[i], flow.id, limits);
    }
  }

  lemma RestoredFlowKept(flow: Flow, limits: Limits)
    requires FlowOk(flow, limits) && limits.Valid()
    ensures FlowKept(flow, RestoredFlow(flow, limits), limits)
    ensures forall g :: Quiet(RestoredFlow(flow, limits).generations, g)
  {
    OrderOf(flow, limits);
    RestoredFlowShape(flow, limits);
    RestoredStates(flow, limits);
    FewerHeardKept(flow.generations, RestoredFlow(flow, limits).generations, flow.current);
    hide GenerationsOk, RestoredGeneration, FewerHeard, Reconfirmed, EndsKept, OnlyEndedEvicted;
  }

  lemma RestoredStates(flow: Flow, limits: Limits)
    ensures forall i :: 0 <= i < |flow.generations| ==> RestoredFlow(flow, limits).generations[i].state == flow.generations[i].state
  {
    hide RestoredBinding;
  }

  /** After a restart every flow is as it ended, and no source has been heard. */
  lemma RestartSafe(m: Machine)
    requires MachineOk(m)
    ensures var r := Restarted(m);
            && MachineOk(r) && EndsRespected(m.flows, r.flows) && StaysUnheard(m.flows, r.flows)
            && (forall f, g :: Unheard(r.flows, f, g))
  {
    hide FlowKept, FlowOk, RestoredFlow, EndsRespected, StaysUnheard, Quiet;
    var r := Restarted(m);
    forall f | f in m.flows
      ensures FlowKept(m.flows[f], r.flows[f], m.config.limits) && forall g :: Quiet(r.flows[f].generations, g)
    {
      RestoredFlowKept(m.flows[f], m.config.limits);
    }
    MappedSafe(m.flows, r.flows, m.config.limits);
    assert r.sources.Keys <= m.sources.Keys;
    SubsetSmaller(r.sources.Keys, m.sources.Keys);
  }

  lemma SubsetSmaller(a: set<u64>, b: set<u64>)
    requires a <= b
    ensures |a| <= |b|
  {
    assert b == a + (b - a);
  }

  // ---- runs --------------------------------------------------------------------------------------------------------

  /** Does this step make generation g of flow f heard? */
  ghost predicate HeardBy(m: Machine, c: Command, ids: Identities, digest: Observation -> u64, f: u64, g: u64) {
    c.CIngest? && Hears(m, About(m, c.o, c.outside, ids), Taken(m, c.o, c.outside, ids, digest).1, f, g)
  }

  /** Every step keeps the invariant and every end; only evidence applied by this run makes a generation heard. */
  lemma StepSafe(m: Machine, c: Command, ids: Identities, digest: Observation -> u64)
    requires MachineOk(m) && ids.Valid()
    ensures var r := Step(m, c, ids, digest);
            && MachineOk(r) && EndsRespected(m.flows, r.flows)
            && (forall f, g :: Unheard(m.flows, f, g) && !HeardBy(m, c, ids, digest, f, g) ==> Unheard(r.flows, f, g))
  {
    hide EndsRespected, TallyOk, FlowsOk, RegistriesOk, Quiet, Unheard, Hears, Taken, Ingest, Ticked, RetireSource, SettledAll;
    match c
    case CIngest(o, outside) => IngestSafe(m, o, outside, ids, digest);
    case CTick(at, now) => TickSafe(m, at, now);
    case CRegister(id, d, journaled) => RegisterSafe(m, id, d, journaled);
    case CRetire(source, at, now) => RetireSafe(m, source, at, now);
    case CSettle(at, now) => SettleSafe(m, at, now);
  }

  lemma RegisterSafe(m: Machine, id: u64, d: Descriptor, journaled: bool)
    requires MachineOk(m)
    ensures var r := RegisterSource(m, id, d, journaled);
            MachineOk(r) && EndsRespected(m.flows, r.flows) && r.flows == m.flows
  {
    hide EndsRespected, TallyOk, RegistriesOk, FlowOk;
    NothingEnded(m.flows, m.config.limits);
    if id in m.sources {
      assert m.sources[id := SourceRecord(d, false)].Keys == m.sources.Keys;
      assert |m.sources[id := SourceRecord(d, false)]| == |m.sources|;
    }
  }

  /** No run, whatever arrives in it, exceeds a limit, loses the order of a table or miscounts an observation. */
  lemma {:induction false} RunKeepsBounds(m: Machine, cs: seq<Command>, ids: Identities, digest: Observation -> u64)
    requires MachineOk(m) && ids.Valid()
    ensures MachineOk(Run(m, cs, ids, digest))
  {
    hide MachineOk, Step, EndsRespected;
    if cs != [] {
      RunKeepsBounds(m, cs[..|cs| - 1], ids, digest);
      StepSafe(Run(m, cs[..|cs| - 1], ids, digest), cs[|cs| - 1], ids, digest);
    }
  }

  predicate Present(m: Machine, f: u64, g: u64) {
    f in m.flows && Knows(m.flows[f].generations, g)
  }

  /** Generation g of flow f ended like this. */
  predicate EndedAs(m: Machine, f: u64, g: u64, state: FlowState, cause: StateCause, closedAt: i64) {
    f in m.flows && exists i :: 0 <= i < |m.flows[f].generations| && HasEnd(m.flows[f].generations[i], g, state, cause, closedAt)
  }

  predicate HasEnd(g: Generation, id: u64, state: FlowState, cause: StateCause, closedAt: i64) {
    g.id == id && g.state == state && g.cause == cause && g.closedAt == closedAt && IsTerminal(state)
  }

  lemma EndCarried(a: seq<Generation>, b: seq<Generation>, i: nat, g: u64, state: FlowState, cause: StateCause, closedAt: i64)
    requires i < |a| && HasEnd(a[i], g, state, cause, closedAt) && EndsKept(a, b) && Knows(b, g)
    ensures exists j :: 0 <= j < |b| && HasEnd(b[j], g, state, cause, closedAt)
  {
    var j :| 0 <= j < |b| && b[j].id == g;
    assert SameEnd(a[i], b[j]);
    assert HasEnd(b[j], g, state, cause, closedAt);
  }

  lemma StepKeepsEnd(m: Machine, c: Command, ids: Identities, digest: Observation -> u64,
                     f: u64, g: u64, state: FlowState, cause: StateCause, closedAt: i64)
    requires MachineOk(m) && ids.Valid() && EndedAs(m, f, g, state, cause, closedAt)
    ensures Present(Step(m, c, ids, digest), f, g) ==> EndedAs(Step(m, c, ids, digest), f, g, state, cause, closedAt)
  {
    hide MachineOk, Step, HasEnd;
    StepSafe(m, c, ids, digest);
    var r := Step(m, c, ids, digest);
    if Present(r, f, g) {
      var i :| 0 <= i < |m.flows[f].generations| && HasEnd(m.flows[f].generations[i], g, state, cause, closedAt);
      EndCarried(m.flows[f].generations, r.flows[f].generations, i, g, state, cause, closedAt);
    }
  }

  /**
   * Within one run of the program an end is final: until the generation is evicted, no ingest, replayed or new, no
   * tick, registration or retirement changes the state it ended in, the cause, or the instant it was closed.
   */
  lemma {:induction false} EndIsFinal(m: Machine, cs: seq<Command>, ids: Identities, digest: Observation -> u64,
                                      f: u64, g: u64, state: FlowState, cause: StateCause, closedAt: i64)
    requires MachineOk(m) && ids.Valid() && EndedAs(m, f, g, state, cause, closedAt)
    requires forall k :: 0 <= k <= |cs| ==> Present(Run(m, cs[..k], ids, digest), f, g)
    ensures EndedAs(Run(m, cs, ids, digest), f, g, state, cause, closedAt)
  {
    hide MachineOk, Step, EndedAs;
    if cs != [] {
      var front := cs[..|cs| - 1];
      forall k | 0 <= k <= |front| ensures Present(Run(m, front[..k], ids, digest), f, g) {
        assert front[..k] == cs[..k];
      }
      EndIsFinal(m, front, ids, digest, f, g, state, cause, closedAt);
      RunKeepsBounds(m, front, ids, digest);
      StepKeepsEnd(Run(m, front, ids, digest), cs[|cs| - 1], ids, digest, f, g, state, cause, closedAt);
      assert cs[..|cs|] == cs;
    }
  }

  /** What goes has ended: only a flow that has, or an ended generation that is not its flow's current one. */
  lemma OnlyEndsAreEvicted(m: Machine, c: Command, ids: Identities, digest: Observation -> u64, f: u64, i: nat)
    requires MachineOk(m) && ids.Valid() && f in m.flows && i < |m.flows[f].generations|
    ensures var g := m.flows[f].generations[i];
            !Present(Step(m, c, ids, digest), f, g.id) ==>
              if f in Step(m, c, ids, digest).flows then Evictable(g, m.flows[f].current) else IsTerminal(m.flows[f].state)
  {
    hide Step;
    StepSafe(m, c, ids, digest);
  }

  lemma {:induction false} StaysSilent(m: Machine, cs: seq<Command>, ids: Identities, digest: Observation -> u64, f: u64, g: u64)
    requires MachineOk(m) && ids.Valid() && Unheard(m.flows, f, g)
    requires forall k :: 0 <= k < |cs| ==> !HeardBy(Run(m, cs[..k], ids, digest), cs[k], ids, digest, f, g)
    ensures Unheard(Run(m, cs, ids, digest).flows, f, g)
  {
    hide MachineOk, Step, HeardBy, Unheard, EndsRespected;
    if cs != [] {
      var front := cs[..|cs| - 1];
      forall k | 0 <= k < |front| ensures !HeardBy(Run(m, front[..k], ids, digest), front[k], ids, digest, f, g) {
        assert front[..k] == cs[..k];
      }
      StaysSilent(m, front, ids, digest, f, g);
      RunKeepsBounds(m, front, ids, digest);
      StepSafe(Run(m, front, ids, digest), cs[|cs| - 1], ids, digest);
    }
  }

  /**
   * A restart resurrects nothing: whatever state was persisted, whatever is replayed, ticked or refused, a flow
   * is not live until evidence for its current generation is accepted in the new run of the program.
   */
  lemma NotLiveUntilHeard(m: Machine, cs: seq<Command>, ids: Identities, digest: Observation -> u64, f: u64)
    requires MachineOk(m) && ids.Valid()
    requires var r := Run(Restarted(m), cs, ids, digest);
             f in r.flows && forall k :: 0 <= k < |cs| ==>
               !HeardBy(Run(Restarted(m), cs[..k], ids, digest), cs[k], ids, digest, f, r.flows[f].current)
    ensures !Live(Run(Restarted(m), cs, ids, digest).flows[f])
  {
    var r := Run(Restarted(m), cs, ids, digest);
    hide HeardBy, Restarted, Run, Quiet, Live;
    RestartSafe(m);
    StaysSilent(Restarted(m), cs, ids, digest, f, r.flows[f].current);
    RunKeepsBounds(Restarted(m), cs, ids, digest);
    hide FlowOk;
    QuietIsNotLive(r.flows[f], r.config.limits);
  }

  // ---- key collisions ---------------------------------------------------------------------------

  /**
   * A key collision makes a flow read Conflicting. The next tick puts it right, giving it the decided state of its
   * current generation, exactly when some generation has not ended: ticks pass over flows whose generations have
   * all ended, so there the end stays hidden, and the flow cannot be evicted.
   */
  lemma CollisionShieldsEndedFlow(m: Machine, f: u64, o: Observation, at: i64, tickAt: i64, now: i64)
    requires MachineOk(m) && f in m.flows && m.flows[f].generations != []
    ensures var flow := m.flows[f];
            var last := |flow.generations| - 1;
            var collided := Collided(flow, o, at, m.config.limits);
            var next := Ticked(m.(flows := m.flows[f := collided]), tickAt, now).flows[f];
            && |next.generations| == |flow.generations|
            && (next.state == next.generations[last].state <==> !AllEnded(flow))
            && (AllEnded(flow) ==> next == collided && !IsTerminal(next.state))
            && (!AllEnded(flow) ==>
                  next.state == Settled(flow.generations[last], EnvOf(m, tickAt, if tickAt != 0 then tickAt else now)).state)
  {
    hide Recomputed, Settled, GenerationsOk, Reconfirmed;
    var env := EnvOf(m, tickAt, if tickAt != 0 then tickAt else now);
    CollidedOk(m.flows[f], o, at, m.config.limits);
    RecomputedSafe(Collided(m.flows[f], o, at, m.config.limits), env);
  }

  /** What is ingested under a key that shares its identity with another flow's collides with that flow. */
  lemma CollisionReached(m: Machine, o: Observation, outside: Outside, ids: Identities, digest: Observation -> u64)
    requires Validated(o, m.config.limits, ids) && outside.journaled && !m.replaying
    requires o.key.source in m.sources && !m.sources[o.key.source].retired
    requires var n := Normalised(o, outside.at, ids);
             n.subject.flow in m.flows && m.flows[n.subject.flow].key != o.subject.flowKey
    ensures var n := Normalised(o, outside.at, ids);
            var f := n.subject.flow;
            Ingest(m, o, outside, ids, digest).flows == m.flows[f := Collided(m.flows[f], n, outside.at, m.config.limits)]
  {
    hide Validated, Ingested, Collided, RegisterAll, FlowVictim;
  }

  /** Evidence for generation 1 of the flow with this key, from source 1. */
  function Heartbeat(key: Text): Observation {
    Observation(Evidence.Key(1, 1, 1, 1, 1), [], Capabilities(false, false, false, false, true, false),
      Subject(0, 1, 0, 0, None, None, None, None, [], key, [], [], [], [], []),
      1, 1, KHeartbeat, Forward, ClaimUnknown, CounterSet(None, None, None), None, None, SCHEMA_VERSION)
  }

  /** A machine whose one flow, of this key, has one generation, which has completed. */
  function EndedMachine(f: u64, key: Text, config: Config): Machine {
    var binding := Binding(1, Ledger.Configured(1, f, 1, config.limits.maxObservations), false, true, 0, {});
    var ended := Generation(1, Completed, CompletionObserved, NO_TIMING, 1, NO_COVERAGE, 0, 0, [binding], 1);
    var flow := Flow(f, key, 0, 1, 0, Completed, CompletionObserved, NO_COVERAGE, NO_TIMING, 1, [ended], [], [], 0, false, 1);
    var source := SourceRecord(Descriptor(1, Capabilities(true, false, false, false, true, false), false), false);
    Machine(config, map[f := flow], map[1 := source], NO_REGISTRIES, NO_TALLY, false)
  }

  lemma EndedFlowOk(f: u64, key: Text, config: Config)
    requires f != 0 && config.limits.Valid()
    ensures f in EndedMachine(f, key, config).flows
    ensures var flow := EndedMachine(f, key, config).flows[f]; FlowOk(flow, config.limits) && AllEnded(flow) && flow.id == f
  {
    var flow := EndedMachine(f, key, config).flows[f];
    assert BindingOk(flow.generations[0].bindings[0], f, 1, config.limits);
    assert GenerationOk(flow.generations[0], f, config.limits);
    assert Reconfirmed(flow.generations[0].bindings) by { assert flow.generations[0].bindings[0].reconfirmed; }
    hide GenerationOk, Reconfirmed;
  }

  lemma EndedMachineOk(f: u64, key: Text, config: Config)
    requires f != 0 && config.limits.Valid()
    ensures var m := EndedMachine(f, key, config);
            && MachineOk(m) && f in m.flows && AllEnded(m.flows[f])
            && m.config == config && !m.replaying && 1 in m.sources && !m.sources[1].retired
            && m.flows[f].key == key && m.flows[f].state == Completed
  {
    EndedFlowOk(f, key, config);
    var m := EndedMachine(f, key, config);
    hide FlowOk, AllEnded;
    assert TallyOk(m.tally) && RegistriesOk(m.registries, config.limits.maxFlows);
    assert |m.flows| == 1 && |m.sources| == 1;
  }

  /**
   * Wherever two keys share an identity this happens: a machine with a completed flow, in order in every respect,
   * and one valid observation after which the flow reads Conflicting through every tick.
   */
  lemma CollisionHappens(a: Text, b: Text, config: Config, ids: Identities, digest: Observation -> u64, outside: Outside,
                         tickAt: i64, now: i64)
    requires config.limits.Valid() && ids.Valid() && outside.journaled
    requires a != b && b != [] && |b| <= config.limits.maxKeyBytes && ids.flow(a) == ids.flow(b)
    ensures var f := ids.flow(a);
            var m := EndedMachine(f, a, config);
            var after := Ingest(m, Heartbeat(b), outside, ids, digest);
            && MachineOk(m) && m.flows[f].state == Completed
            && f in after.flows && after.flows[f].state == FlowState.Conflicting
            && Ticked(after, tickAt, now).flows[f] == after.flows[f]
  {
    var f := ids.flow(a);
    var m := EndedMachine(f, a, config);
    HeartbeatFor(b, config, ids, outside.at);
    EndedMachineOk(f, a, config);
    hide MachineOk, Collided, Recomputed, Validated, Taken, Heartbeat, EndedMachine, Normalised;
    CollisionReached(m, Heartbeat(b), outside, ids, digest);
    CollidedKeepsGenerations(m.flows[f], Normalised(Heartbeat(b), outside.at, ids), outside.at, config.limits);
  }

  lemma HeartbeatFor(b: Text, config: Config, ids: Identities, at: i64)
    requires config.limits.Valid() && b != [] && |b| <= config.limits.maxKeyBytes
    ensures Validated(Heartbeat(b), config.limits, ids)
    ensures Normalised(Heartbeat(b), at, ids).subject.flow == ids.flow(b)
    ensures Heartbeat(b).key.source == 1 && Heartbeat(b).subject.flowKey == b
  {
  }

  lemma CollidedKeepsGenerations(flow: Flow, o: Observation, at: i64, limits: Limits)
    ensures var c := Collided(flow, o, at, limits);
            c.generations == flow.generations && c.state == FlowState.Conflicting
  {
  }
}
