/** What one observation does to the flow it is about. */
module FlowIngest {
  import opened Checked
  import opened Evidence
  import opened Freshness
  import opened Runtime
  import Ledger

  // ---- sorted tables --------------------------------------------------------------------

  predicate SortedIds(ids: seq<u64>) {
    forall i, j :: 0 <= i < j < |ids| ==> ids[i] < ids[j]
  }

  /** The binary search of a sorted table, by halving the part [first, first + count). */
  function LowerBound(ids: seq<u64>, id: u64, first: nat, count: nat): (r: nat)
    requires first + count <= |ids|
    ensures first <= r <= first + count
    decreases count
  {
    if count == 0 then first
    else
      var half := count / 2;
      if ids[first + half] < id then LowerBound(ids, id, first + half + 1, count - half - 1)
      else LowerBound(ids, id, first, half)
  }

  function Position(ids: seq<u64>, id: u64): (r: nat)
    ensures r <= |ids|
  {
    LowerBound(ids, id, 0, |ids|)
  }

  /** The first `n` identities are below `id` and the others are not. */
  predicate SplitsAt(ids: seq<u64>, id: u64, low: nat, high: nat) {
    && (forall j :: 0 <= j < low && j < |ids| ==> ids[j] < id)
    && (forall j :: high <= j < |ids| ==> ids[j] >= id)
  }

  lemma SplitTighter(ids: seq<u64>, id: u64, low: nat, high: nat, middle: nat)
    requires SortedIds(ids) && SplitsAt(ids, id, low, high) && low <= middle < high <= |ids|
    ensures if ids[middle] < id then SplitsAt(ids, id, middle + 1, high) else SplitsAt(ids, id, low, middle)
  {
    if ids[middle] < id {
      forall j | 0 <= j < middle + 1 ensures ids[j] < id {
        assert j < middle ==> ids[j] < ids[middle];
      }
    } else {
      forall j | middle <= j < |ids| ensures ids[j] >= id {
        assert middle < j ==> ids[middle] < ids[j];
      }
    }
  }

  lemma {:induction false} LowerBoundSplits(ids: seq<u64>, id: u64, first: nat, count: nat)
    requires first + count <= |ids| && SortedIds(ids) && SplitsAt(ids, id, first, first + count)
    ensures SplitsAt(ids, id, LowerBound(ids, id, first, count), LowerBound(ids, id, first, count))
    decreases count
  {
    hide SplitsAt, SortedIds;
    if count > 0 {
      var half := count / 2;
      SplitTighter(ids, id, first, first + count, first + half);
      if ids[first + half] < id {
        LowerBoundSplits(ids, id, first + half + 1, count - half - 1);
      } else {
        LowerBoundSplits(ids, id, first, half);
      }
    }
  }

  /** On a sorted table the binary search finds an identity exactly when a linear scan does. */
  lemma BinaryAgreesWithLinear(ids: seq<u64>, id: u64)
    requires SortedIds(ids)
    ensures var p := Position(ids, id);
            && (p < |ids| && ids[p] == id <==> id in ids)
            && SplitsAt(ids, id, p, p)
            && (id !in ids ==> SortedIds(ids[..p] + [id] + ids[p..]))
  {
    LowerBoundSplits(ids, id, 0, |ids|);
  }

  function GenerationIds(gs: seq<Generation>): (ids: seq<u64>)
    ensures |ids| == |gs| && forall i :: 0 <= i < |gs| ==> ids[i] == gs[i].id
  {
    seq(|gs|, i requires 0 <= i < |gs| => gs[i].id)
  }

  function BindingIds(bs: seq<Binding>): (ids: seq<u64>)
    ensures |ids| == |bs| && forall i :: 0 <= i < |bs| ==> ids[i] == bs[i].source
  {
    seq(|bs|, i requires 0 <= i < |bs| => bs[i].source)
  }

  function NewGeneration(id: u64, at: i64): Generation {
    Generation(id, Unknown, NoCause, NO_TIMING, 0, NO_COVERAGE, 0, 0, [], at)
  }

  function WithGeneration(gs: seq<Generation>, id: u64, at: i64): (r: seq<Generation>)
    ensures Position(GenerationIds(gs), id) < |r| && r[Position(GenerationIds(gs), id)].id == id
  {
    var p := Position(GenerationIds(gs), id);
    if p < |gs| && gs[p].id == id then gs else gs[..p] + [NewGeneration(id, at)] + gs[p..]
  }

  function NewBinding(source: u64, flow: u64, generation: u64, limits: Limits, replaying: bool): Binding {
    Binding(source, Ledger.Configured(source, flow, generation, limits.maxObservations), replaying, !replaying, 0, {})
  }

  function WithBinding(bs: seq<Binding>, source: u64, flow: u64, generation: u64, limits: Limits, replaying: bool): (r: seq<Binding>)
    ensures Position(BindingIds(bs), source) < |r| && r[Position(BindingIds(bs), source)].source == source
  {
    var p := Position(BindingIds(bs), source);
    if p < |bs| && bs[p].source == source then bs
    else bs[..p] + [NewBinding(source, flow, generation, limits, replaying)] + bs[p..]
  }

  // ---- eviction ----------------------------------------------------------------------------

  predicate Evictable(g: Generation, current: u64) {
    g.id != current && IsTerminal(g.state)
  }

  /** The evictable generation with the lowest identity, if there is one. */
  ghost predicate IsVictim(gs: seq<Generation>, current: u64, i: int) {
    && 0 <= i < |gs| && Evictable(gs[i], current)
    && forall j :: 0 <= j < |gs| && Evictable(gs[j], current) ==> gs[i].id <= gs[j].id
  }

  function Victim(gs: seq<Generation>, current: u64): (v: Option<nat>)
    ensures v.Some? ==> v.value < |gs|
  {
    if gs == [] then None
    else
      var front := Victim(gs[..|gs| - 1], current);
      var last := gs[|gs| - 1];
      if Evictable(last, current) && (front.None? || last.id < gs[front.value].id) then Some(|gs| - 1) else front
  }

  lemma {:induction false} VictimIsLowest(gs: seq<Generation>, current: u64)
    ensures match Victim(gs, current)
            case Some(i) => IsVictim(gs, current, i)
            case None => forall j :: 0 <= j < |gs| ==> !Evictable(gs[j], current)
  {
    if gs != [] {
      VictimIsLowest(gs[..|gs| - 1], current);
    }
  }

  method FindVictim(gs: seq<Generation>, current: u64) returns (v: Option<nat>)
    ensures v == Victim(gs, current)
  {
    v := None;
    for i := 0 to |gs|
      invariant v == Victim(gs[..i], current)
      invariant v.Some? ==> v.value < i
    {
      assert gs[..i + 1][..i] == gs[..i];
      if gs[i].id == current || !IsTerminal(gs[i].state) {
        continue;
      }
      if v.None? || gs[i].id < gs[v.value].id {
        v := Some(i);
      }
    }
    assert gs[..|gs|] == gs;
  }

  // ---- the observation on its way in --------------------------------------------------------

  /** Which of the four ingest counters an observation ends up in. */
  datatype Disposition = Applied | Duplicate | Refused | Conflicting

  function NoteOf(kind: AnomalyKind, o: Observation, at: i64): Anomaly {
    Anomaly(kind, at, o.observedAt, o.subject.generation, o.key.source)
  }

  predicate Skewed(o: Observation, limits: Limits) {
    ExceedsClockSkew(o.observedAt, o.receivedAt, limits.maxClockSkew)
  }

  predicate Knows(gs: seq<Generation>, id: u64) {
    exists i :: 0 <= i < |gs| && gs[i].id == id
  }

  predicate Bound(bs: seq<Binding>, source: u64) {
    exists i :: 0 <= i < |bs| && bs[i].source == source
  }

  /** Room for the generation of this observation, evicting an ended one if that is what it takes. */
  function MakeRoom(flow: Flow, id: u64, limits: Limits): Option<Flow> {
    if Knows(flow.generations, id) || |flow.generations| < limits.maxGenerations then Some(flow)
    else
      var v := Victim(flow.generations, flow.current);
      if v.None? then None
      else Some(flow.(generations := flow.generations[..v.value] + flow.generations[v.value + 1..]))
  }

  /** The flow with the generation present, and current if it is the newest. */
  function Entered(flow: Flow, o: Observation, at: i64, limits: Limits): (f: Flow)
    ensures f.generations == WithGeneration(flow.generations, o.subject.generation, at)
  {
    var id := o.subject.generation;
    var f := flow.(generations := WithGeneration(flow.generations, id, at));
    if flow.current == 0 || id > flow.current then f.(current := id)
    else if id < flow.current then Noted(f, NoteOf(StaleGenerationEvidence, o, at), limits)
    else f
  }

  function Next64(r: u64): u64 {
    if r == U64_MAX then r else r + 1
  }

  /** The binding after the ledger has taken or refused the observation. */
  function BindingAfter(b: Binding, o: Observation, replaying: bool, digest: Observation -> u64): Binding {
    var outcome := Ledger.InsertOutcome(b.ledger, o, digest);
    b.(ledger := Ledger.Inserted(b.ledger, o, digest),
       reconfirmed := b.reconfirmed || (outcome.Accepted? && !replaying),
       refused := if outcome.Invalid? || outcome.Late? then Inc32(b.refused) else b.refused)
  }

  function DispositionOf(outcome: Ledger.Outcome): Disposition {
    match outcome
    case Accepted(_) => Applied
    case Duplicate => Disposition.Duplicate
    case ContentConflict => Disposition.Conflicting
    case Invalid => Refused
    case Late => Refused
  }

  /** The flow-level record of what the ledger answered. */
  function Answered(flow: Flow, o: Observation, outcome: Ledger.Outcome, at: i64, limits: Limits): Flow {
    match outcome
    case Accepted(_) => flow.(revision := Next64(flow.revision))
    case Duplicate => flow
    case ContentConflict => Noted(flow, NoteOf(SequenceConflict, o, at), limits)
    case Late => Noted(flow, NoteOf(LateEvidenceRejected, o, at), limits)
    case Invalid => Noted(flow, NoteOf(MalformedEvidence, o, at), limits)
  }

  /** The observation reaches the ledger of its source in a generation that is there. */
  function Offered(flow: Flow, gi: nat, o: Observation, env: Env, replaying: bool, digest: Observation -> u64): (Flow, Disposition)
    requires gi < |flow.generations|
  {
    var g := flow.generations[gi];
    var bs := WithBinding(g.bindings, o.key.source, flow.id, g.id, env.config.limits, replaying);
    var bi := Position(BindingIds(g.bindings), o.key.source);
    var outcome := Ledger.InsertOutcome(bs[bi].ledger, o, digest);
    var bound := g.(bindings := bs[bi := BindingAfter(bs[bi], o, replaying, digest)]);
    var answered := Answered(flow.(generations := flow.generations[gi := bound]), o, outcome, env.at, env.config.limits);
    if DispositionOf(outcome) == Refused then (answered, Refused)
    else
      var touched := answered.(lastTouched := env.at, generations := flow.generations[gi := bound.(lastTouched := env.at)]);
      (Recomputed(touched, env), DispositionOf(outcome))
  }

  /** Everything after the flow has been found: clock skew, generation, source table, ledger, recomputation. */
  function Ingested(flow: Flow, o: Observation, env: Env, replaying: bool, digest: Observation -> u64): (Flow, Disposition) {
    var limits := env.config.limits;
    if Skewed(o, limits) && !env.config.clampFuture then (Noted(flow, NoteOf(ClockSkew, o, env.at), limits), Refused)
    else
      var checked := if Skewed(o, limits) then Noted(flow, NoteOf(ClockSkew, o, env.at), limits) else flow;
      var clamped := if Skewed(o, limits) then o.(observedAt := o.receivedAt) else o;
      var room := MakeRoom(checked, clamped.subject.generation, limits);
      if room.None? then (Noted(checked, NoteOf(LimitEviction, clamped, env.at), limits), Refused)
      else
        var entered := Entered(room.value, clamped, env.at, limits);
        var gi := Position(GenerationIds(room.value.generations), clamped.subject.generation);
        var bindings := entered.generations[gi].bindings;
        if !Bound(bindings, clamped.key.source) && |bindings| >= limits.maxBindings then
          (Noted(entered, NoteOf(LimitEviction, clamped, env.at), limits), Refused)
        else Offered(entered, gi, clamped, env, replaying, digest)
  }
}
