/** A program that is closed, or crashes, and is opened again: what its snapshots and its log preserve. */
module Restarts {
  import opened Checked
  import opened Evidence
  import opened Runtime
  import opened FlowIngest
  import opened FlowSafety
  import opened Engine
  import opened EngineSafety

  /**
   * The engine in memory, and what is durable: the state of the last compaction, with the sources recorded since,
   * and the observations recorded since. `pending` is what opening has still to replay.
   */
  datatype Program = Program(live: Machine, saved: Machine, log: seq<Observation>, pending: seq<Observation>)

  datatype Move =
    | Do(c: Command)                  // anything an open engine does
    | Compact                         // on request, or because the log is full
    | Reopen                          // after a close or a crash, at any time
    | Replay(outside: Outside)        // opening: the next recorded observation
    | Serve(at: i64, now: i64)        // opening: the replay is over

  function NewMachine(config: Config): Machine {
    Machine(config, map[], map[], NO_REGISTRIES, NO_TALLY, false)
  }

  /** A program with a new log. */
  function NewProgram(config: Config): Program {
    Program(NewMachine(config), NewMachine(config), [], [])
  }

  /** What a snapshot records of the sources: those that have not been retired. */
  function Snapshotted(m: Machine): Machine {
    m.(sources := map id | id in m.sources && !m.sources[id].retired :: m.sources[id])
  }

  /** What ingest appends to the log before it applies anything: the observation, without its source key. */
  function Journaled(m: Machine, o: Observation, outside: Outside, ids: Identities): seq<Observation> {
    if Validated(o, m.config.limits, ids) && outside.journaled then
      [Normalised(o, InstantOf(m, o, outside.at), ids).(sourceKey := [])]
    else []
  }

  /** Registering a new source is recorded as well. Ticks, retirements and changed descriptors are not. */
  function Recorded(p: Program, c: Command, ids: Identities): Program {
    match c
    case CIngest(o, outside) => p.(log := p.log + Journaled(p.live, o, outside, ids))
    case CRegister(id, d, journaled) =>
      if id !in p.live.sources && |p.live.sources| < p.live.config.limits.maxSources && journaled then
        p.(saved := p.saved.(sources := p.saved.sources[id := SourceRecord(d, false)]))
      else p
    case _ => p
  }

  predicate Allowed(p: Program, v: Move) {
    match v
    case Do(c) => !p.live.replaying && !c.CSettle?
    case Compact => !p.live.replaying
    case Reopen => true
    case Replay(_) => p.live.replaying && p.pending != []
    case Serve(_, _) => p.live.replaying && p.pending == []
  }

  ghost function Next(p: Program, v: Move, ids: Identities, digest: Observation -> u64): Program
    requires Allowed(p, v)
  {
    match v
    case Do(c) => Recorded(p, c, ids).(live := Step(p.live, c, ids, digest))
    case Compact => p.(saved := Snapshotted(p.live), log := [])
    case Reopen => p.(live := Restarted(p.saved), pending := p.log)
    case Replay(outside) => p.(live := Ingest(p.live, p.pending[0], outside, ids, digest), pending := p.pending[1..])
    case Serve(at, now) => p.(live := SettledAll(p.live, at, now))
  }

  ghost predicate Runs(p: Program, vs: seq<Move>, end: Program, ids: Identities, digest: Observation -> u64)
    decreases |vs|
  {
    if vs == [] then p == end
    else Allowed(p, vs[0]) && Runs(Next(p, vs[0], ids, digest), vs[1..], end, ids, digest)
  }

  // ---- what every program keeps ----------------------------------------------------------------------

  ghost predicate ProgramOk(p: Program) {
    && MachineOk(p.live) && MachineOk(p.saved) && p.saved.config == p.live.config
    && p.saved.sources.Keys <= p.live.sources.Keys
    && forall id :: id in p.saved.sources ==> !p.saved.sources[id].retired
  }

  lemma NewProgramOk(config: Config)
    requires config.limits.Valid()
    ensures ProgramOk(NewProgram(config))
  {
  }

  /** No step forgets a source or changes the configuration. */
  lemma StepKeepsSources(m: Machine, c: Command, ids: Identities, digest: Observation -> u64)
    ensures Step(m, c, ids, digest).config == m.config
    ensures m.sources.Keys <= Step(m, c, ids, digest).sources.Keys
  {
    hide Taken, Recomputed, WithoutSource, AllEnded;
    if c.CIngest? {
      TakenKeepsSources(m, c.o, c.outside, ids, digest);
    }
  }

  lemma TakenKeepsSources(m: Machine, o: Observation, outside: Outside, ids: Identities, digest: Observation -> u64)
    ensures var r := Taken(m, o, outside, ids, digest).0; r.config == m.config && m.sources.Keys <= r.sources.Keys
  {
    hide Validated, Delivered, AdmitFlow, InstantOf, Normalised;
    var at := InstantOf(m, o, outside.at);
    var n := Normalised(o, at, ids);
    if AdmitSource(m, n.key.source).Some? {
      var known := AdmitSource(m, n.key.source).value;
      AdmitFlowKeepsSources(known, n, at);
      if AdmitFlow(known, n, at).1 {
        DeliveredKeepsSources(AdmitFlow(known, n, at).0, n, EnvOf(AdmitFlow(known, n, at).0, at, InstantOf(m, o, outside.now)), digest);
      }
    }
  }

  lemma AdmitFlowKeepsSources(m: Machine, o: Observation, at: i64)
    ensures var r := AdmitFlow(m, o, at).0; r.config == m.config && r.sources == m.sources
  {
    hide FlowVictim;
  }

  lemma DeliveredKeepsSources(m: Machine, o: Observation, env: Env, digest: Observation -> u64)
    requires o.subject.flow in m.flows
    ensures var r := Delivered(m, o, env, digest).0; r.config == m.config && r.sources == m.sources
  {
    hide Ingested, RegisterAll, Collided, Unregistered;
  }

  lemma RecordedOk(p: Program, c: Command, ids: Identities, digest: Observation -> u64)
    requires ProgramOk(p)
    ensures var r := Recorded(p, c, ids);
            && MachineOk(r.saved) && r.saved.config == p.saved.config && r.saved.flows == p.saved.flows
            && r.saved.sources.Keys <= Step(p.live, c, ids, digest).sources.Keys
            && (forall id :: id in r.saved.sources ==> !r.saved.sources[id].retired)
  {
    hide FlowsOk, RegistriesOk, TallyOk;
    if c.CRegister? {
      var r := Recorded(p, c, ids);
      assert r.saved.sources.Keys <= Step(p.live, c, ids, digest).sources.Keys;
      if r != p {
        assert c.id !in p.saved.sources;
        assert r.saved.sources.Keys == p.saved.sources.Keys + {c.id};
        SubsetSmaller(p.saved.sources.Keys, p.live.sources.Keys);
      }
    } else {
      hide Step;
      StepKeepsSources(p.live, c, ids, digest);
    }
  }

  lemma SnapshottedOk(m: Machine)
    requires MachineOk(m)
    ensures MachineOk(Snapshotted(m)) && Snapshotted(m).sources.Keys <= m.sources.Keys
  {
    hide FlowsOk, RegistriesOk, TallyOk;
    SubsetSmaller(Snapshotted(m).sources.Keys, m.sources.Keys);
  }

  /** Every bound, order, end and count is kept by every move, restarts and crashes during a restart included. */
  lemma MoveKeepsProgram(p: Program, v: Move, ids: Identities, digest: Observation -> u64)
    requires ProgramOk(p) && ids.Valid() && Allowed(p, v)
    ensures ProgramOk(Next(p, v, ids, digest))
  {
    hide MachineOk, Step, Ingest, SettledAll, Restarted, Snapshotted, EndsRespected, Recorded;
    match v {
      case Do(c) =>
        StepSafe(p.live, c, ids, digest);
        StepKeepsSources(p.live, c, ids, digest);
        RecordedOk(p, c, ids, digest);
      case Compact =>
        SnapshottedOk(p.live);
        SnapshottedKept(p.live);
      case Reopen =>
        RestartSafe(p.saved);
        RestartedKept(p.saved);
      case Replay(outside) => ReplayOk(p.live, CIngest(p.pending[0], outside), ids, digest);
      case Serve(at, now) => ReplayOk(p.live, CSettle(at, now), ids, digest);
    }
  }

  lemma SnapshottedKept(m: Machine)
    ensures Snapshotted(m).config == m.config && Snapshotted(m).flows == m.flows
    ensures forall id :: id in Snapshotted(m).sources ==> !Snapshotted(m).sources[id].retired
  {
  }

  lemma RestartedKept(m: Machine)
    ensures Restarted(m).config == m.config
    ensures (forall id :: id in m.sources ==> !m.sources[id].retired) ==> Restarted(m).sources == m.sources
  {
    hide RestoredFlow;
  }

  lemma ReplayOk(m: Machine, c: Command, ids: Identities, digest: Observation -> u64)
    requires MachineOk(m) && ids.Valid() && (c.CIngest? || c.CSettle?)
    ensures var r := if c.CIngest? then Ingest(m, c.o, c.outside, ids, digest) else SettledAll(m, c.at, c.now);
            r == Step(m, c, ids, digest) && MachineOk(r) && r.config == m.config && m.sources.Keys <= r.sources.Keys
  {
    hide MachineOk, Ingest, SettledAll, EndsRespected;
    StepSafe(m, c, ids, digest);
    StepKeepsSources(m, c, ids, digest);
  }

  lemma {:induction false} RunKeepsProgram(p: Program, vs: seq<Move>, end: Program, ids: Identities, digest: Observation -> u64)
    requires ProgramOk(p) && ids.Valid() && Runs(p, vs, end, ids, digest)
    ensures ProgramOk(end)
    decreases |vs|
  {
    hide ProgramOk, Next, Allowed;
    if vs != [] {
      MoveKeepsProgram(p, vs[0], ids, digest);
      RunKeepsProgram(Next(p, vs[0], ids, digest), vs[1..], end, ids, digest);
    }
  }

  /** From a new log on, through every close, crash and reopening, the engine keeps its limits, orders and counts. */
  lemma EveryProgramOk(config: Config, vs: seq<Move>, end: Program, ids: Identities, digest: Observation -> u64)
    requires config.limits.Valid() && ids.Valid() && Runs(NewProgram(config), vs, end, ids, digest)
    ensures MachineOk(end.live)
  {
    NewProgramOk(config);
    hide Runs, NewProgram, MachineOk;
    RunKeepsProgram(NewProgram(config), vs, end, ids, digest);
  }

  // ---- which ends survive -----------------------------------------------------------------------------

  lemma HasEndOnly(a: seq<Generation>, b: seq<Generation>, g: u64, state: FlowState, cause: StateCause, closedAt: i64)
    requires FewerHeard(a, b)
    ensures (exists i :: 0 <= i < |a| && HasEnd(a[i], g, state, cause, closedAt))
       <==> (exists i :: 0 <= i < |b| && HasEnd(b[i], g, state, cause, closedAt))
  {
    hide Reconfirmed;
    if i :| 0 <= i < |a| && HasEnd(a[i], g, state, cause, closedAt) {
      assert HasEnd(b[i], g, state, cause, closedAt);
    }
    if i :| 0 <= i < |b| && HasEnd(b[i], g, state, cause, closedAt) {
      assert HasEnd(a[i], g, state, cause, closedAt);
    }
  }

  /** A program is opened with exactly the ends of its last compaction. */
  lemma ReopenedEndsIff(m: Machine, f: u64, g: u64, state: FlowState, cause: StateCause, closedAt: i64)
    requires MachineOk(m)
    ensures EndedAs(Restarted(m), f, g, state, cause, closedAt) <==> EndedAs(m, f, g, state, cause, closedAt)
  {
    hide RestoredFlow, FlowOk, HasEnd, FewerHeard;
    if f in m.flows {
      assert FlowOk(m.flows[f], m.config.limits);
      RestoredFlowShape(m.flows[f], m.config.limits);
      HasEndOnly(m.flows[f].generations, RestoredFlow(m.flows[f], m.config.limits).generations, g, state, cause, closedAt);
    }
  }

  /**
   * Ticks, retirements and new descriptors of known sources leave nothing behind: without a compaction, a reopened
   * program never had them.
   */
  lemma ReopeningForgets(p: Program, c: Command, ids: Identities, digest: Observation -> u64)
    requires Allowed(p, Do(c)) && (c.CTick? || c.CRetire? || (c.CRegister? && c.id in p.live.sources))
    ensures Next(Next(p, Do(c), ids, digest), Reopen, ids, digest) == Next(p, Reopen, ids, digest)
  {
    hide Ticked, RetireSource, Restarted;
  }

  /** The generation is in memory at every point of the run. */
  ghost predicate StaysPresent(p: Program, vs: seq<Move>, ids: Identities, digest: Observation -> u64, f: u64, g: u64)
    decreases |vs|
  {
    && Present(p.live, f, g)
    && (vs != [] && Allowed(p, vs[0]) ==> StaysPresent(Next(p, vs[0], ids, digest), vs[1..], ids, digest, f, g))
  }

  /** The end is in memory and in the last compaction. */
  ghost predicate EndedForGood(p: Program, f: u64, g: u64, state: FlowState, cause: StateCause, closedAt: i64) {
    EndedAs(p.live, f, g, state, cause, closedAt) && EndedAs(p.saved, f, g, state, cause, closedAt)
  }

  lemma MoveKeepsEnd(p: Program, v: Move, ids: Identities, digest: Observation -> u64,
                     f: u64, g: u64, state: FlowState, cause: StateCause, closedAt: i64)
    requires ProgramOk(p) && ids.Valid() && Allowed(p, v) && EndedForGood(p, f, g, state, cause, closedAt)
    requires Present(Next(p, v, ids, digest).live, f, g)
    ensures EndedForGood(Next(p, v, ids, digest), f, g, state, cause, closedAt)
  {
    hide MachineOk, Step, Ingest, SettledAll, Restarted, Snapshotted, HasEnd, Recorded;
    match v {
      case Do(c) =>
        StepKeepsEnd(p.live, c, ids, digest, f, g, state, cause, closedAt);
        RecordedOk(p, c, ids, digest);
      case Compact => SnapshottedKept(p.live);
      case Reopen => ReopenedEndsIff(p.saved, f, g, state, cause, closedAt);
      case Replay(outside) =>
        ReplayOk(p.live, CIngest(p.pending[0], outside), ids, digest);
        StepKeepsEnd(p.live, CIngest(p.pending[0], outside), ids, digest, f, g, state, cause, closedAt);
      case Serve(at, now) =>
        ReplayOk(p.live, CSettle(at, now), ids, digest);
        StepKeepsEnd(p.live, CSettle(at, now), ids, digest, f, g, state, cause, closedAt);
    }
  }

  /**
   * A compacted end is final across restarts: once the last compaction has it too, no move, and no number of
   * closes, crashes, reopenings and replays, changes the state, the cause or the closing instant, until the
   * generation is evicted.
   */
  lemma {:induction false} CompactedEndIsFinal(p: Program, vs: seq<Move>, end: Program, ids: Identities, digest: Observation -> u64,
                                               f: u64, g: u64, state: FlowState, cause: StateCause, closedAt: i64)
    requires ProgramOk(p) && ids.Valid() && Runs(p, vs, end, ids, digest)
    requires EndedForGood(p, f, g, state, cause, closedAt) && StaysPresent(p, vs, ids, digest, f, g)
    ensures EndedForGood(end, f, g, state, cause, closedAt)
    decreases |vs|
  {
    hide ProgramOk, Next, Allowed, EndedForGood, Present;
    if vs != [] {
      var next := Next(p, vs[0], ids, digest);
      assert StaysPresent(next, vs[1..], ids, digest, f, g);
      assert Present(next.live, f, g);
      MoveKeepsProgram(p, vs[0], ids, digest);
      MoveKeepsEnd(p, vs[0], ids, digest, f, g, state, cause, closedAt);
      CompactedEndIsFinal(next, vs[1..], end, ids, digest, f, g, state, cause, closedAt);
    }
  }
}
