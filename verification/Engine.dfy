/** The engine: sources, flows and identity registries, and every step that changes them. */
module Engine {
  import opened Checked
  import opened Evidence
  import opened Runtime
  import opened FlowIngest
  import Recompute
  import Ledger
  import Restore

  const SCHEMA_VERSION: u32 := 1

  // ---- state -------------------------------------------------------------------------------

  datatype Registries = Registries(endpoints: map<u64, Text>, paths: map<u64, Text>, queues: map<u64, Text>, links: map<u64, Text>)

  const NO_REGISTRIES: Registries := Registries(map[], map[], map[], map[])

  /** The ingest counters. */
  datatype Tally = Tally(received: u64, applied: u64, duplicate: u64, refused: u64, conflicting: u64)

  const NO_TALLY: Tally := Tally(0, 0, 0, 0, 0)

  datatype Machine = Machine(config: Config, flows: map<u64, Flow>, sources: Sources, registries: Registries,
                             tally: Tally, replaying: bool)

  /** What a step reads from outside: the clock, twice, and whether the journal took the record. */
  datatype Outside = Outside(at: i64, now: i64, journaled: bool)

  /** How canonical keys map to identities; zero is reserved for "no identity". */
  datatype Identities = Identities(flow: Text -> u64, endpoint: Text -> u64, path: Text -> u64, queue: Text -> u64, link: Text -> u64)
  {
    ghost predicate Valid() {
      forall k :: flow(k) != 0
    }
  }

  function EnvOf(m: Machine, at: i64, now: i64): Env {
    Env(m.config, m.sources, at, now)
  }

  // ---- validation and normalisation ----------------------------------------------------------

  predicate KeyMatches(id: u64, key: Text, identity: Text -> u64) {
    id != 0 && key != [] && identity(key) == id
  }

  predicate OptionMatches(id: Option<u64>, key: Text, identity: Text -> u64) {
    id.Some? && key != [] ==> KeyMatches(id.value, key, identity)
  }

  predicate Validated(o: Observation, limits: Limits, ids: Identities) {
    && o.schemaVersion == SCHEMA_VERSION
    && o.key.source != 0 && o.key.incarnation != 0 && o.subject.generation != 0
    && o.subject.flowKey != [] && |o.subject.flowKey| <= limits.maxKeyBytes
    && (o.subject.flow != 0 ==> KeyMatches(o.subject.flow, o.subject.flowKey, ids.flow))
    && (o.subject.endpoint != 0 && o.subject.endpointKey != [] ==>
          KeyMatches(o.subject.endpoint, o.subject.endpointKey, ids.endpoint))
    && OptionMatches(o.subject.path, o.subject.pathKey, ids.path)
    && OptionMatches(o.subject.queue, o.subject.queueKey, ids.queue)
    && OptionMatches(o.subject.link, o.subject.linkKey, ids.link)
    && o.observedAt != 0
    && !(o.claim == Unsupported && AnyCounter(o.counters))
    && |o.subject.hopCapacity| <= limits.maxHops
    && (o.subject.pathGeneration.Some? ==> o.subject.pathGeneration.value == o.subject.generation)
  }

  function Normalised(o: Observation, at: i64, ids: Identities): Observation {
    o.(receivedAt := if o.receivedAt == 0 then at else o.receivedAt,
       subject := if o.subject.flow == 0 then o.subject.(flow := ids.flow(o.subject.flowKey)) else o.subject)
  }

  // ---- identity registries -------------------------------------------------------------------

  datatype Registration = Registered | Known | Collision | Full

  function RegistryOutcome(entries: map<u64, Text>, id: u64, key: Text, capacity: nat): Registration {
    if id == 0 || key == [] then Known
    else if id in entries then (if entries[id] == key then Known else Collision)
    else if |entries| >= capacity then Full
    else Registered
  }

  function RegistryAfter(entries: map<u64, Text>, id: u64, key: Text, capacity: nat): map<u64, Text> {
    if RegistryOutcome(entries, id, key, capacity) == Registered then entries[id := key] else entries
  }

  predicate Failed(r: Registration) {
    r == Collision || r == Full
  }

  function IdOf(id: Option<u64>): u64 {
    if id.Some? then id.value else 0
  }

  /** The identities an observation names, registered one after the other until one of them fails. */
  function RegisterAll(r: Registries, s: Subject, capacity: nat): (Registries, Registration) {
    var a := RegistryOutcome(r.endpoints, s.endpoint, s.endpointKey, capacity);
    var r1 := r.(endpoints := RegistryAfter(r.endpoints, s.endpoint, s.endpointKey, capacity));
    if Failed(a) then (r1, a) else
    var b := RegistryOutcome(r1.endpoints, s.peerEndpoint, s.peerEndpointKey, capacity);
    var r2 := r1.(endpoints := RegistryAfter(r1.endpoints, s.peerEndpoint, s.peerEndpointKey, capacity));
    if Failed(b) then (r2, b) else
    var c := RegistryOutcome(r2.paths, IdOf(s.path), s.pathKey, capacity);
    var r3 := r2.(paths := RegistryAfter(r2.paths, IdOf(s.path), s.pathKey, capacity));
    if Failed(c) then (r3, c) else
    var d := RegistryOutcome(r3.queues, IdOf(s.queue), s.queueKey, capacity);
    var r4 := r3.(queues := RegistryAfter(r3.queues, IdOf(s.queue), s.queueKey, capacity));
    if Failed(d) then (r4, d) else
    var e := RegistryOutcome(r4.links, IdOf(s.link), s.linkKey, capacity);
    (r4.(links := RegistryAfter(r4.links, IdOf(s.link), s.linkKey, capacity)), e)
  }

  // ---- ingest ------------------------------------------------------------------------------------

  function Counted(t: Tally, d: Disposition): Tally {
    match d
    case Applied => t.(applied := Inc64(t.applied))
    case Duplicate => t.(duplicate := Inc64(t.duplicate))
    case Refused => t.(refused := Inc64(t.refused))
    case Conflicting => t.(conflicting := Inc64(t.conflicting))
  }

  const UNREGISTERED: SourceRecord :=
    SourceRecord(Descriptor(0, Capabilities(false, false, false, false, true, false), false), false)

  /** The source is known, or becomes known with no authority and the default capabilities. */
  function AdmitSource(m: Machine, source: u64): (r: Option<Machine>)
    ensures r.Some? ==> source in r.value.sources && r.value == m.(sources := r.value.sources)
  {
    if source in m.sources then Some(m)
    else if |m.sources| >= m.config.limits.maxSources then None
    else Some(m.(sources := m.sources[source := UNREGISTERED]))
  }

  function NewFlow(id: u64, key: Text, at: i64, replaying: bool): Flow {
    Flow(id, key, 0, 0, 0, Unknown, NoCause, NO_COVERAGE, NO_TIMING, at, [], [], [], 0, replaying, at)
  }

  /** Does the first flow go before the second when one has to go? */
  predicate GoesFirst(flows: map<u64, Flow>, a: u64, b: u64)
    requires a in flows && b in flows
  {
    flows[a].lastTouched < flows[b].lastTouched || (flows[a].lastTouched == flows[b].lastTouched && a <= b)
  }

  /** The flow that has ended and was touched the longest ago. */
  ghost predicate IsFlowVictim(flows: map<u64, Flow>, id: u64) {
    && id in flows && IsTerminal(flows[id].state)
    && forall other :: other in flows && IsTerminal(flows[other].state) ==> GoesFirst(flows, id, other)
  }

  ghost function FlowVictim(flows: map<u64, Flow>): Option<u64> {
    if exists id :: IsFlowVictim(flows, id) then
      var id :| IsFlowVictim(flows, id);
      Some(id)
    else None
  }

  /** The flow table with room for this flow, and whether it is there. */
  ghost function AdmitFlow(m: Machine, o: Observation, at: i64): (r: (Machine, bool))
    ensures r.1 ==> o.subject.flow in r.0.flows
  {
    var id := o.subject.flow;
    var fits := NewFlow(id, o.subject.flowKey, at, m.replaying);
    if id in m.flows then (m, true)
    else if |m.flows| < m.config.limits.maxFlows then (m.(flows := m.flows[id := fits]), true)
    else
      var victim := FlowVictim(m.flows);
      if victim.None? then (m, false)
      else
        var evicted := m.(flows := m.flows - {victim.value});
        if |evicted.flows| >= m.config.limits.maxFlows then (evicted, false)
        else (evicted.(flows := evicted.flows[id := fits]), true)
  }

  function Collided(flow: Flow, o: Observation, at: i64, limits: Limits): Flow {
    Noted(flow.(collisions := Inc64(flow.collisions)), NoteOf(IdentityCollision, o, at), limits)
      .(state := FlowState.Conflicting, cause := AuthorityConflict)
  }

  function Unregistered(flow: Flow, r: Registration, o: Observation, at: i64, limits: Limits): Flow {
    if r == Collision then Noted(flow.(collisions := Inc64(flow.collisions)), NoteOf(IdentityCollision, o, at), limits)
    else Noted(flow, NoteOf(LimitEviction, o, at), limits)
  }

  /** What an observation does once its source is admitted and its flow is in the table. */
  function Delivered(m: Machine, o: Observation, env: Env, digest: Observation -> u64): (Machine, Disposition)
    requires o.subject.flow in m.flows
  {
    var id := o.subject.flow;
    var flow := m.flows[id];
    if flow.key != o.subject.flowKey then
      (m.(flows := m.flows[id := Collided(flow, o, env.at, env.config.limits)]), Disposition.Conflicting)
    else
      var (registries, outcome) := RegisterAll(m.registries, o.subject, env.config.limits.maxFlows);
      if Failed(outcome) then
        (m.(registries := registries, flows := m.flows[id := Unregistered(flow, outcome, o, env.at, env.config.limits)]), Refused)
      else
        var (next, d) := Ingested(flow, o, env, m.replaying, digest);
        (m.(registries := registries, flows := m.flows[id := next]), d)
  }

  function InstantOf(m: Machine, o: Observation, clock: i64): i64 {
    if m.replaying && o.receivedAt != 0 then o.receivedAt else clock
  }

  /** Ingest without the counters. */
  ghost function Taken(m: Machine, incoming: Observation, outside: Outside, ids: Identities, digest: Observation -> u64): (Machine, Disposition) {
    var at := InstantOf(m, incoming, outside.at);
    if !Validated(incoming, m.config.limits, ids) then (m, Refused)
    else if !m.replaying && !outside.journaled then (m, Refused)
    else
      var o := Normalised(incoming, at, ids);
      var known := AdmitSource(m, o.key.source);
      if known.None? then (m, Refused)
      else Enrolled(known.value, o, at, InstantOf(m, incoming, outside.now), digest)
  }

  /** The same, once the source is known. */
  ghost function Enrolled(m: Machine, o: Observation, at: i64, now: i64, digest: Observation -> u64): (Machine, Disposition)
    requires o.key.source in m.sources
  {
    if m.sources[o.key.source].retired then (m, Refused)
    else
      var (ready, admitted) := AdmitFlow(m, o, at);
      if !admitted then (ready, Refused)
      else Delivered(ready, o, EnvOf(ready, at, now), digest)
  }

  ghost function Ingest(m: Machine, o: Observation, outside: Outside, ids: Identities, digest: Observation -> u64): Machine {
    var (next, d) := Taken(m, o, outside, ids, digest);
    next.(tally := Counted(m.tally.(received := Inc64(m.tally.received)), d))
  }

  // ---- the other steps ------------------------------------------------------------------------------

  predicate AllEnded(flow: Flow) {
    flow.generations != [] && forall i :: 0 <= i < |flow.generations| ==> IsTerminal(flow.generations[i].state)
  }

  /** An explicit tick recomputes every flow that has not ended altogether. */
  function Ticked(m: Machine, at: i64, now: i64): Machine {
    var env := EnvOf(m, at, if at != 0 then at else now);
    m.(flows := map id | id in m.flows :: if AllEnded(m.flows[id]) then m.flows[id] else Recomputed(m.flows[id], env))
  }

  function RegisterSource(m: Machine, id: u64, d: Descriptor, journaled: bool): Machine {
    if id in m.sources then m.(sources := m.sources[id := SourceRecord(d, false)])
    else if |m.sources| >= m.config.limits.maxSources || !journaled then m
    else m.(sources := m.sources[id := SourceRecord(d, false)])
  }

  function DropSource(bs: seq<Binding>, source: u64): seq<Binding> {
    if bs == [] then []
    else
      var front := DropSource(bs[..|bs| - 1], source);
      if bs[|bs| - 1].source == source then front else front + [bs[|bs| - 1]]
  }

  function WithoutSource(flow: Flow, source: u64): Flow {
    flow.(generations := seq(|flow.generations|, i requires 0 <= i < |flow.generations| =>
            flow.generations[i].(bindings := DropSource(flow.generations[i].bindings, source))))
  }

  /** Retiring a source takes away the evidence it contributed. */
  function RetireSource(m: Machine, source: u64, at: i64, now: i64): Machine {
    if source !in m.sources then m
    else
      var retired := m.(sources := m.sources[source := m.sources[source].(retired := true)]);
      var env := EnvOf(retired, at, now);
      retired.(flows := map id | id in m.flows :: Recomputed(WithoutSource(m.flows[id], source), env))
  }

  function RestoredBinding(b: Binding, flow: u64, generation: u64, limits: Limits): Binding {
    Binding(b.source, Restore.Resumed(Restore.Persist(b.ledger).(source := b.source), flow, generation, limits.maxObservations),
            true, false, b.refused, {})
  }

  function RestoredGeneration(g: Generation, flow: u64, limits: Limits): Generation {
    g.(lastTouched := g.timing.lastReceived,
       bindings := seq(|g.bindings|, i requires 0 <= i < |g.bindings| => RestoredBinding(g.bindings[i], flow, g.id, limits)))
  }

  function RestoredFlow(flow: Flow, limits: Limits): Flow {
    flow.(restored := true, lastTouched := flow.timing.lastReceived,
          generations := seq(|flow.generations|, i requires 0 <= i < |flow.generations| =>
                             RestoredGeneration(flow.generations[i], flow.id, limits)))
  }

  /** A new run of the program, opened on the snapshot of this state; it goes on to replay the log. */
  function Restarted(m: Machine): Machine {
    m.(flows := map id | id in m.flows :: RestoredFlow(m.flows[id], m.config.limits),
       sources := map id | id in m.sources && !m.sources[id].retired :: m.sources[id],
       registries := NO_REGISTRIES, tally := NO_TALLY, replaying := true)
  }

  /** The end of the replay: every flow is evaluated at the present instant. */
  function SettledAll(m: Machine, at: i64, now: i64): Machine {
    var env := EnvOf(m, at, now);
    m.(replaying := false, flows := map id | id in m.flows :: Recomputed(m.flows[id], env))
  }

  /** The steps of one run of the program, its replay included. */
  datatype Command =
    | CIngest(o: Observation, outside: Outside)
    | CTick(at: i64, now: i64)
    | CRegister(id: u64, descriptor: Descriptor, journaled: bool)
    | CRetire(source: u64, at: i64, now: i64)
    | CSettle(at: i64, now: i64)

  ghost function Step(m: Machine, c: Command, ids: Identities, digest: Observation -> u64): Machine {
    match c
    case CIngest(o, outside) => Ingest(m, o, outside, ids, digest)
    case CTick(at, now) => Ticked(m, at, now)
    case CRegister(id, d, journaled) => RegisterSource(m, id, d, journaled)
    case CRetire(source, at, now) => RetireSource(m, source, at, now)
    case CSettle(at, now) => SettledAll(m, at, now)
  }

  ghost function Run(m: Machine, cs: seq<Command>, ids: Identities, digest: Observation -> u64): Machine {
    if cs == [] then m else Step(Run(m, cs[..|cs| - 1], ids, digest), cs[|cs| - 1], ids, digest)
  }

  // ---- the engine in place ------------------------------------------------------------------------------

  lemma VictimUnique(flows: map<u64, Flow>, id: u64)
    requires IsFlowVictim(flows, id)
    ensures FlowVictim(flows) == Some(id)
  {
    forall other | IsFlowVictim(flows, other) ensures other == id {
      assert GoesFirst(flows, id, other) && GoesFirst(flows, other, id);
    }
  }

  class Engine {
    var config: Config
    var flows: map<u64, Flow>
    var sources: Sources
    var registries: Registries
    var tally: Tally
    var replaying: bool

    function Value(): Machine
      reads this
    {
      Machine(config, flows, sources, registries, tally, replaying)
    }

    constructor (config: Config)
      ensures Value() == Machine(config, map[], map[], NO_REGISTRIES, NO_TALLY, false)
    {
      this.config := config;
      flows, sources, registries, tally, replaying := map[], map[], NO_REGISTRIES, NO_TALLY, false;
    }

    /** Evicts the ended flow that was touched the longest ago. */
    method EvictOneFlow() returns (ok: bool)
      modifies this`flows
      ensures ok <==> FlowVictim(old(flows)).Some?
      ensures flows == if ok then old(flows) - {FlowVictim(old(flows)).value} else old(flows)
    {
      var victim: Option<u64> := None;
      var rest := flows.Keys;
      while rest != {}
        invariant rest <= flows.Keys && flows == old(flows)
        invariant victim.None? ==> forall id :: id in flows && id !in rest ==> !IsTerminal(flows[id].state)
        invariant victim.Some? ==> victim.value in flows && IsTerminal(flows[victim.value].state)
        invariant victim.Some? ==> forall id :: id in flows && id !in rest && IsTerminal(flows[id].state) ==> GoesFirst(flows, victim.value, id)
      {
        var id :| id in rest;
        if IsTerminal(flows[id].state) && (victim.None? || GoesFirst(flows, id, victim.value)) {
          victim := Some(id);
        }
        rest := rest - {id};
      }
      if victim.None? {
        return false;
      }
      VictimUnique(flows, victim.value);
      flows := flows - {victim.value};
      return true;
    }

    method AddSource(source: u64) returns (ok: bool)
      modifies this`sources
      ensures ok <==> AdmitSource(old(Value()), source).Some?
      ensures Value() == if ok then AdmitSource(old(Value()), source).value else old(Value())
    {
      if source !in sources {
        if |sources| >= config.limits.maxSources {
          return false;
        }
        sources := sources[source := UNREGISTERED];
      }
      return true;
    }

    method AddFlow(o: Observation, at: i64) returns (ok: bool)
      modifies this`flows
      ensures (Value(), ok) == AdmitFlow(old(Value()), o, at)
      ensures ok ==> o.subject.flow in flows
    {
      if o.subject.flow in flows {
        return true;
      }
      if |flows| >= config.limits.maxFlows {
        var evicted := EvictOneFlow();
        if !evicted || |flows| >= config.limits.maxFlows {
          return false;
        }
      }
      flows := flows[o.subject.flow := NewFlow(o.subject.flow, o.subject.flowKey, at, replaying)];
      return true;
    }

    /** One registry: a new key is added, a known one compared, unless the registry is full. */
    static method Observe(entries: map<u64, Text>, id: u64, key: Text, capacity: nat)
      returns (r: map<u64, Text>, outcome: Registration)
      ensures r == RegistryAfter(entries, id, key, capacity) && outcome == RegistryOutcome(entries, id, key, capacity)
    {
      r, outcome := entries, Known;
      if id == 0 || key == [] {
        return;
      }
      if id in entries {
        outcome := if entries[id] == key then Known else Collision;
        return;
      }
      if |entries| >= capacity {
        outcome := Full;
        return;
      }
      r, outcome := entries[id := key], Registered;
    }

    method RegisterIdentity(s: Subject, capacity: nat) returns (outcome: Registration)
      modifies this`registries
      ensures (registries, outcome) == RegisterAll(old(registries), s, capacity)
    {
      hide RegistryAfter, RegistryOutcome;
      var next;
      next, outcome := Observe(registries.endpoints, s.endpoint, s.endpointKey, capacity);
      registries := registries.(endpoints := next);
      if Failed(outcome) { return; }
      next, outcome := Observe(registries.endpoints, s.peerEndpoint, s.peerEndpointKey, capacity);
      registries := registries.(endpoints := next);
      if Failed(outcome) { return; }
      next, outcome := Observe(registries.paths, IdOf(s.path), s.pathKey, capacity);
      registries := registries.(paths := next);
      if Failed(outcome) { return; }
      next, outcome := Observe(registries.queues, IdOf(s.queue), s.queueKey, capacity);
      registries := registries.(queues := next);
      if Failed(outcome) { return; }
      next, outcome := Observe(registries.links, IdOf(s.link), s.linkKey, capacity);
      registries := registries.(links := next);
    }

    /** The part of ingest that works on one flow. */
    method IngestInto(flow: Flow, incoming: Observation, env: Env, digest: Observation -> u64) returns (f: Flow, d: Disposition)
      ensures (f, d) == Ingested(flow, incoming, env, replaying, digest)
    {
      hide Noted, Skewed, Recomputed, Victim, Position, WithGeneration, Offered;
      var limits := env.config.limits;
      var o := incoming;
      f := flow;
      if Skewed(o, limits) {
        f := Noted(f, NoteOf(ClockSkew, o, env.at), limits);
        if !env.config.clampFuture {
          return f, Refused;
        }
        o := o.(observedAt := o.receivedAt);
      }
      if !Knows(f.generations, o.subject.generation) && |f.generations| >= limits.maxGenerations {
        var victim := FindVictim(f.generations, f.current);
        if victim.None? {
          f := Noted(f, NoteOf(LimitEviction, o, env.at), limits);
          return f, Refused;
        }
        f := f.(generations := f.generations[..victim.value] + f.generations[victim.value + 1..]);
      }
      var gi := Position(GenerationIds(f.generations), o.subject.generation);
      f := Enter(f, o, env.at, limits);
      var bindings := f.generations[gi].bindings;
      if !Bound(bindings, o.key.source) && |bindings| >= limits.maxBindings {
        f := Noted(f, NoteOf(LimitEviction, o, env.at), limits);
        return f, Refused;
      }
      f, d := Offer(f, gi, o, env, digest);
    }

    static method Enter(flow: Flow, o: Observation, at: i64, limits: Limits) returns (f: Flow)
      ensures f == Entered(flow, o, at, limits)
    {
      hide Noted;
      var first, newer := flow.current == 0, o.subject.generation > flow.current;
      f := flow.(generations := WithGeneration(flow.generations, o.subject.generation, at));
      if first || newer {
        f := f.(current := o.subject.generation);
      } else if o.subject.generation < f.current {
        f := Noted(f, NoteOf(StaleGenerationEvidence, o, at), limits);
      }
    }

    /** The ledger of the binding takes or refuses the observation. */
    method OfferToLedger(binding: Binding, o: Observation, digest: Observation -> u64) returns (b: Binding, outcome: Ledger.Outcome)
      ensures outcome == Ledger.InsertOutcome(binding.ledger, o, digest)
      ensures b == BindingAfter(binding, o, replaying, digest)
    {
      hide Ledger.InsertOutcome, Ledger.Inserted;
      outcome := Ledger.InsertOutcome(binding.ledger, o, digest);
      b := binding.(ledger := Ledger.Inserted(binding.ledger, o, digest));
      match outcome {
      case Accepted(_) =>
        if !replaying {
          b := b.(reconfirmed := true);
        }
      case Duplicate =>
      case ContentConflict =>
      case Late =>
        b := b.(refused := Inc32(b.refused));
      case Invalid =>
        b := b.(refused := Inc32(b.refused));
      }
    }

    static method RecordAnswer(flow: Flow, o: Observation, outcome: Ledger.Outcome, at: i64, limits: Limits) returns (f: Flow)
      ensures f == Answered(flow, o, outcome, at, limits)
    {
      hide Noted;
      f := flow;
      match outcome {
      case Accepted(_) =>
        f := f.(revision := Next64(f.revision));
      case Duplicate =>
      case ContentConflict =>
        f := Noted(f, NoteOf(SequenceConflict, o, at), limits);
      case Late =>
        f := Noted(f, NoteOf(LateEvidenceRejected, o, at), limits);
      case Invalid =>
        f := Noted(f, NoteOf(MalformedEvidence, o, at), limits);
      }
    }

    method Offer(flow: Flow, gi: nat, o: Observation, env: Env, digest: Observation -> u64) returns (f: Flow, d: Disposition)
      requires gi < |flow.generations|
      ensures (f, d) == Offered(flow, gi, o, env, replaying, digest)
    {
      hide Recomputed, Position, WithBinding, Ledger.InsertOutcome, BindingAfter, Answered;
      var g := flow.generations[gi];
      var bi := Position(BindingIds(g.bindings), o.key.source);
      g := g.(bindings := WithBinding(g.bindings, o.key.source, flow.id, g.id, env.config.limits, replaying));
      var b, outcome := OfferToLedger(g.bindings[bi], o, digest);
      g := g.(bindings := g.bindings[bi := b]);
      f := RecordAnswer(flow.(generations := flow.generations[gi := g]), o, outcome, env.at, env.config.limits);
      d := DispositionOf(outcome);
      if d != Refused {
        f := f.(lastTouched := env.at, generations := flow.generations[gi := g.(lastTouched := env.at)]);
        var events;
        f, events := Recompute.RecomputeFlow(f, env);
      }
    }

    method Deliver(o: Observation, env: Env, digest: Observation -> u64) returns (d: Disposition)
      requires o.subject.flow in flows
      modifies this`flows, this`registries
      ensures (Value(), d) == Delivered(old(Value()), o, env, digest)
    {
      hide Ingested, Collided, Unregistered, RegisterAll;
      var id := o.subject.flow;
      var flow := flows[id];
      if flow.key != o.subject.flowKey {
        flow := Collide(flow, o, env.at, env.config.limits);
        flows := flows[id := flow];
        return Disposition.Conflicting;
      }
      var outcome := RegisterIdentity(o.subject, env.config.limits.maxFlows);
      if Failed(outcome) {
        flow := FailIdentity(flow, outcome, o, env.at, env.config.limits);
        flows := flows[id := flow];
        return Refused;
      }
      flow, d := IngestInto(flow, o, env, digest);
      flows := flows[id := flow];
    }

    static method Collide(flow: Flow, o: Observation, at: i64, limits: Limits) returns (f: Flow)
      ensures f == Collided(flow, o, at, limits)
    {
      f := flow.(collisions := Inc64(flow.collisions));
      f := Noted(f, NoteOf(IdentityCollision, o, at), limits);
      f := f.(state := FlowState.Conflicting, cause := AuthorityConflict);
    }

    static method FailIdentity(flow: Flow, outcome: Registration, o: Observation, at: i64, limits: Limits) returns (f: Flow)
      ensures f == Unregistered(flow, outcome, o, at, limits)
    {
      f := flow;
      if outcome == Collision {
        f := f.(collisions := Inc64(f.collisions));
        f := Noted(f, NoteOf(IdentityCollision, o, at), limits);
      } else {
        f := Noted(f, NoteOf(LimitEviction, o, at), limits);
      }
    }

    /** Everything ingest does to the engine besides counting. */
    method Take(incoming: Observation, outside: Outside, ids: Identities, digest: Observation -> u64) returns (d: Disposition)
      modifies this`flows, this`sources, this`registries
      ensures (Value(), d) == Taken(old(Value()), incoming, outside, ids, digest)
    {
      hide Delivered, AdmitFlow, AdmitSource, Validated, Normalised;
      var at := InstantOf(Value(), incoming, outside.at);
      var now := InstantOf(Value(), incoming, outside.now);
      if !Validated(incoming, config.limits, ids) {
        return Refused;
      }
      if !replaying && !outside.journaled {
        return Refused;
      }
      var o := Normalised(incoming, at, ids);
      var known := AddSource(o.key.source);
      if !known || sources[o.key.source].retired {
        return Refused;
      }
      var admitted := AddFlow(o, at);
      if !admitted {
        return Refused;
      }
      d := Deliver(o, EnvOf(Value(), at, now), digest);
    }

    /** One observation is received, and counted in exactly one other counter. */
    method ApplyLocked(o: Observation, outside: Outside, ids: Identities, digest: Observation -> u64) returns (d: Disposition)
      modifies this
      ensures Value() == Ingest(old(Value()), o, outside, ids, digest)
      ensures d == Taken(old(Value()), o, outside, ids, digest).1
    {
      hide Taken;
      d := Take(o, outside, ids, digest);
      tally := tally.(received := Inc64(tally.received));
      match d {
      case Applied => tally := tally.(applied := Inc64(tally.applied));
      case Duplicate => tally := tally.(duplicate := Inc64(tally.duplicate));
      case Refused => tally := tally.(refused := Inc64(tally.refused));
      case Conflicting => tally := tally.(conflicting := Inc64(tally.conflicting));
      }
    }
  
    /** Recomputes the flows of a set, one by one. */
    method RecomputeFlows(ids: set<u64>, env: Env)
      requires ids <= flows.Keys
      modifies this`flows
      ensures flows == map id | id in old(flows) :: if id in ids then Recomputed(old(flows)[id], env) else old(flows)[id]
    {
      hide Recomputed, Recompute.EventsOf;
      var rest := ids;
      while rest != {}
        invariant rest <= ids && flows.Keys == old(flows).Keys
        invariant forall id :: id in flows ==>
                    flows[id] == if id in ids && id !in rest then Recomputed(old(flows)[id], env) else old(flows)[id]
      {
        var id :| id in rest;
        var flow, events := Recompute.RecomputeFlow(flows[id], env);
        flows := flows[id := flow];
        rest := rest - {id};
      }
    }

    method Tick(at: i64, now: i64)
      modifies this`flows
      ensures Value() == Ticked(old(Value()), at, now)
    {
      hide Recomputed, AllEnded;
      var env := EnvOf(Value(), at, if at != 0 then at else now);
      var open := set id | id in flows && !AllEnded(flows[id]);
      RecomputeFlows(open, env);
      assert flows == Ticked(old(Value()), at, now).flows;
    }

    method Register(id: u64, d: Descriptor, journaled: bool)
      modifies this`sources
      ensures Value() == RegisterSource(old(Value()), id, d, journaled)
    {
      if id in sources {
        sources := sources[id := SourceRecord(d, false)];
        return;
      }
      if |sources| >= config.limits.maxSources || !journaled {
        return;
      }
      sources := sources[id := SourceRecord(d, false)];
    }

    static method EraseSource(flow: Flow, source: u64) returns (f: Flow)
      ensures f == WithoutSource(flow, source)
    {
      f := flow;
      for i := 0 to |flow.generations|
        invariant f == flow.(generations := f.generations) && |f.generations| == |flow.generations|
        invariant forall j :: 0 <= j < |flow.generations| ==>
                    f.generations[j] == if j < i then flow.generations[j].(bindings := DropSource(flow.generations[j].bindings, source))
                                        else flow.generations[j]
      {
        var kept: seq<Binding> := [];
        var bs := f.generations[i].bindings;
        for k := 0 to |bs|
          invariant kept == DropSource(bs[..k], source)
        {
          assert bs[..k + 1][..k] == bs[..k];
          if bs[k].source != source {
            kept := kept + [bs[k]];
          }
        }
        assert bs[..|bs|] == bs;
        f := f.(generations := f.generations[i := f.generations[i].(bindings := kept)]);
      }
    }

    method Retire(source: u64, at: i64, now: i64)
      modifies this`sources, this`flows
      ensures Value() == RetireSource(old(Value()), source, at, now)
    {
      hide Recomputed, WithoutSource;
      if source !in sources {
        return;
      }
      sources := sources[source := sources[source].(retired := true)];
      var rest := flows.Keys;
      while rest != {}
        invariant rest <= flows.Keys && flows.Keys == old(flows).Keys
        invariant sources == old(sources)[source := old(sources)[source].(retired := true)]
        invariant forall id :: id in flows ==> flows[id] == if id in rest then old(flows)[id] else WithoutSource(old(flows)[id], source)
      {
        var id :| id in rest;
        var flow := EraseSource(flows[id], source);
        flows := flows[id := flow];
        rest := rest - {id};
      }
      RecomputeFlows(flows.Keys, EnvOf(Value(), at, now));
      assert flows == RetireSource(old(Value()), source, at, now).flows;
    }

    /** The end of the replay settles every flow at the present instant. */
    method Settle(at: i64, now: i64)
      modifies this`flows, this`replaying
      ensures Value() == SettledAll(old(Value()), at, now)
    {
      hide Recomputed;
      RecomputeFlows(flows.Keys, EnvOf(Value(), at, now));
      replaying := false;
      assert flows == SettledAll(old(Value()), at, now).flows;
    }
  }

  method RestoreFlow(flow: Flow, limits: Limits) returns (f: Flow)
    ensures f == RestoredFlow(flow, limits)
  {
    hide Restore.Persist, Restore.Resumed;
    var generations: seq<Generation> := [];
    for i := 0 to |flow.generations|
      invariant |generations| == i
      invariant forall j :: 0 <= j < i ==> generations[j] == RestoredGeneration(flow.generations[j], flow.id, limits)
    {
      var g := flow.generations[i];
      var bindings: seq<Binding> := [];
      for k := 0 to |g.bindings|
        invariant |bindings| == k
        invariant forall j :: 0 <= j < k ==> bindings[j] == RestoredBinding(g.bindings[j], flow.id, g.id, limits)
      {
        bindings := bindings + [RestoredBinding(g.bindings[k], flow.id, g.id, limits)];
      }
      generations := generations + [g.(lastTouched := g.timing.lastReceived, bindings := bindings)];
    }
    f := flow.(restored := true, lastTouched := flow.timing.lastReceived, generations := generations);
  }

  /** A new engine opened on the snapshot of another engine's state, ready to replay the log after it. */
  method Reopen(snapshot: Machine) returns (e: Engine)
    ensures e.Value() == Restarted(snapshot)
  {
    hide RestoredFlow;
    e := new Engine(snapshot.config);
    e.replaying := true;
    e.sources := map id | id in snapshot.sources && !snapshot.sources[id].retired :: snapshot.sources[id];
    var rest := snapshot.flows.Keys;
    while rest != {}
      invariant rest <= snapshot.flows.Keys && fresh(e)
      invariant e.Value() == Restarted(snapshot).(flows := e.flows)
      invariant e.flows == map id | id in snapshot.flows && id !in rest :: RestoredFlow(snapshot.flows[id], snapshot.config.limits)
    {
      var id :| id in rest;
      var flow := RestoreFlow(snapshot.flows[id], snapshot.config.limits);
      e.flows := e.flows[id := flow];
      rest := rest - {id};
    }
  }
}
