/** What every observation keeps of the flow it reaches: bounds, order, ended generations, no false liveness. */
module FlowSafety {
  import opened Checked
  import opened Evidence
  import opened Reconcile
  import opened Runtime
  import opened FlowIngest
  import Recompute
  import Ledger
  import LedgerRefinement

  // ---- the invariant ----------------------------------------------------------------------

  predicate BindingOk(b: Binding, flow: u64, generation: u64, limits: Limits) {
    && b.ledger.source == b.source && b.ledger.flow == flow && b.ledger.generation == generation
    && b.ledger.capacity == limits.maxObservations && |b.ledger.entries| <= limits.maxObservations
  }

  predicate GenerationOk(g: Generation, flow: u64, limits: Limits) {
    && g.id != 0 && |g.bindings| <= limits.maxBindings && SortedIds(BindingIds(g.bindings))
    && forall i :: 0 <= i < |g.bindings| ==> BindingOk(g.bindings[i], flow, g.id, limits)
  }

  predicate GenerationsOk(gs: seq<Generation>, flow: u64, limits: Limits) {
    && |gs| <= limits.maxGenerations && SortedGenerations(gs)
    && forall i :: 0 <= i < |gs| ==> GenerationOk(gs[i], flow, limits)
  }

  /** The newest generation is the current one; before there is any, none is. */
  predicate CurrentIsNewest(gs: seq<Generation>, current: u64) {
    current == if gs == [] then 0 else gs[|gs| - 1].id
  }

  predicate Shape(flow: Flow, limits: Limits) {
    && flow.id != 0 && GenerationsOk(flow.generations, flow.id, limits) && CurrentIsNewest(flow.generations, flow.current)
    && |flow.history| <= limits.maxHistory && |flow.anomalies| <= limits.maxAnomalies
  }

  /** The flow reports its current generation's state, unless two keys were found to share its identity. */
  predicate Coherent(flow: Flow) {
    if flow.generations == [] then !IsTerminal(flow.state)
    else
      var current := flow.generations[|flow.generations| - 1];
      && (flow.state == FlowState.Conflicting || flow.state == current.state)
      && (flow.restored <==> !Reconfirmed(current.bindings))
  }

  predicate FlowOk(flow: Flow, limits: Limits) {
    Shape(flow, limits) && Coherent(flow)
  }

  predicate SameEnd(a: Generation, b: Generation) {
    a.state == b.state && a.cause == b.cause && a.closedAt == b.closedAt
  }

  /** Every generation that has ended and is still there has the end it had. */
  predicate EndsKept(a: seq<Generation>, b: seq<Generation>) {
    forall i, j :: 0 <= i < |a| && 0 <= j < |b| && a[i].id == b[j].id && IsTerminal(a[i].state) ==> SameEnd(a[i], b[j])
  }

  /** Nothing disappears but generations that have ended and are not current. */
  predicate OnlyEndedEvicted(a: seq<Generation>, current: u64, b: seq<Generation>) {
    forall i :: 0 <= i < |a| && !Knows(b, a[i].id) ==> Evictable(a[i], current)
  }

  /** No source of this generation has been heard since the restart. */
  predicate Quiet(gs: seq<Generation>, id: u64) {
    forall i :: 0 <= i < |gs| && gs[i].id == id ==> !Reconfirmed(gs[i].bindings)
  }

  /** What a snapshot of the flow shows as live. */
  predicate Live(flow: Flow) {
    && flow.generations != [] && flow.generations[CurrentIndex(flow)].state == Active && !flow.restored
  }

  lemma QuietIsNotLive(flow: Flow, limits: Limits)
    requires FlowOk(flow, limits) && Quiet(flow.generations, flow.current)
    ensures !Live(flow)
  {
  }

  // ---- recomputation ---------------------------------------------------------------------------

  lemma SettledKeepsEnd(g: Generation, env: Env)
    ensures Settled(g, env).id == g.id
    ensures IsTerminal(g.state) ==> SameEnd(g, Settled(g, env))
    ensures Reconfirmed(Settled(g, env).bindings) <==> Reconfirmed(g.bindings)
  {
    hide Views, SortViews, FindingsFor, TimingOf, AttachedOf, CoverageOf, Independent;
    var bs := Settled(g, env).bindings;
    forall i | 0 <= i < |bs| ensures bs[i].reconfirmed == g.bindings[i].reconfirmed {
      PromotionKeeps(g.bindings[i], env);
    }
  }

  lemma PromotionKeeps(b: Binding, env: Env)
    ensures PromotedBinding(b, env) == b.(promoted := PromotedBinding(b, env).promoted)
  {
  }

  lemma SettledOk(g: Generation, flow: u64, env: Env)
    requires GenerationOk(g, flow, env.config.limits)
    ensures GenerationOk(Settled(g, env), flow, env.config.limits)
  {
    hide Views, SortViews, FindingsFor, TimingOf, AttachedOf, CoverageOf, Independent, DecisionFor, PromotedBinding;
    var bs := Settled(g, env).bindings;
    forall i | 0 <= i < |bs| ensures bs[i] == g.bindings[i].(promoted := bs[i].promoted) {
      PromotionKeeps(g.bindings[i], env);
    }
    assert BindingIds(bs) == BindingIds(g.bindings);
  }

  lemma {:induction false} NotesBounded(flow: Flow, notes: seq<Anomaly>, limits: Limits)
    requires |flow.anomalies| <= limits.maxAnomalies
    ensures |NotedAll(flow, notes, limits).anomalies| <= limits.maxAnomalies
  {
    if notes != [] {
      NotesBounded(flow, notes[..|notes| - 1], limits);
    }
  }

  lemma {:induction false} ListsBounded(flow: Flow, n: nat, env: Env)
    requires n <= |flow.generations|
    requires |flow.anomalies| <= env.config.limits.maxAnomalies && |flow.history| <= env.config.limits.maxHistory
    ensures var f := AfterGenerations(flow, n, env);
            |f.anomalies| <= env.config.limits.maxAnomalies && |f.history| <= env.config.limits.maxHistory
  {
    hide Settled, NotesOf, Transitions, EventOf, NotedAll;
    if n > 0 {
      ListsBounded(flow, n - 1, env);
      var before := AfterGenerations(flow, n - 1, env);
      NotesBounded(before, NotesOf(before.generations[n - 1], env), env.config.limits);
      Recompute.NotedKeeps(before, NotesOf(before.generations[n - 1], env), env.config.limits);
    }
  }

  lemma FinishedCoherent(flow: Flow)
    requires SortedGenerations(flow.generations) && CurrentIsNewest(flow.generations, flow.current)
    requires flow.generations == [] ==> !IsTerminal(flow.state)
    ensures var f := Finished(flow);
            && Coherent(f) && f.generations == flow.generations && f.current == flow.current && f.id == flow.id
            && f.history == flow.history && f.anomalies == flow.anomalies && f.key == flow.key
            && (flow.generations != [] ==> f.state == flow.generations[|flow.generations| - 1].state)
  {
    hide CoverageUnion, TimingUnion, Reconfirmed;
  }

  /** Recomputing keeps every bound, every end, and the record of who has been heard. */
  lemma RecomputedSafe(flow: Flow, env: Env)
    requires Shape(flow, env.config.limits) && (flow.generations == [] ==> !IsTerminal(flow.state))
    ensures var f := Recomputed(flow, env);
            && FlowOk(f, env.config.limits) && f.id == flow.id && f.key == flow.key && f.current == flow.current
            && |f.generations| == |flow.generations|
            && (forall i :: 0 <= i < |flow.generations| ==> f.generations[i] == Settled(flow.generations[i], env))
            && (f.generations != [] ==> f.state == f.generations[|f.generations| - 1].state)
            && EndsKept(flow.generations, f.generations)
            && (forall id :: Knows(f.generations, id) <==> Knows(flow.generations, id))
            && (forall id :: Quiet(f.generations, id) <==> Quiet(flow.generations, id))
  {
    hide Settled, AfterGenerations, Finished, GenerationOk, Reconfirmed, SameEnd;
    var n := |flow.generations|;
    var settled := AfterGenerations(flow, n, env);
    Recompute.LaterUntouched(flow, n, env);
    ListsBounded(flow, n, env);
    forall i | 0 <= i < n
      ensures var g, h := flow.generations[i], settled.generations[i];
              && h.id == g.id && GenerationOk(h, flow.id, env.config.limits) && (IsTerminal(g.state) ==> SameEnd(g, h))
              && (Reconfirmed(h.bindings) <==> Reconfirmed(g.bindings))
    {
      SettledKeepsEnd(flow.generations[i], env);
      SettledOk(flow.generations[i], flow.id, env);
    }
    FinishedCoherent(settled);
    SameIds(flow.generations, settled.generations);
  }

  lemma SameIds(a: seq<Generation>, b: seq<Generation>)
    requires |a| == |b| && forall i :: 0 <= i < |a| ==> a[i].id == b[i].id && (Reconfirmed(a[i].bindings) <==> Reconfirmed(b[i].bindings))
    ensures forall id :: Knows(a, id) <==> Knows(b, id)
    ensures forall id :: Quiet(a, id) <==> Quiet(b, id)
  {
    hide Reconfirmed;
    forall id ensures Knows(a, id) <==> Knows(b, id) {
      if Knows(a, id) {
        var i :| 0 <= i < |a| && a[i].id == id;
        assert b[i].id == id;
      }
      if Knows(b, id) {
        var i :| 0 <= i < |b| && b[i].id == id;
        assert a[i].id == id;
      }
    }
  }

  // ---- the steps before the ledger ----------------------------------------------------------------

  lemma NotedSafe(flow: Flow, a: Anomaly, limits: Limits)
    requires |flow.anomalies| <= limits.maxAnomalies
    ensures var f := Noted(flow, a, limits);
            && f == flow.(anomalies := f.anomalies, anomaliesDropped := f.anomaliesDropped)
            && |f.anomalies| <= limits.maxAnomalies
  {
  }

  /** Where each generation stands once the one at `v` is gone. */
  function Without(gs: seq<Generation>, v: nat): (rest: seq<Generation>)
    requires v < |gs|
    ensures |rest| == |gs| - 1
    ensures forall i :: 0 <= i < |rest| ==> rest[i] == gs[if i < v then i else i + 1]
  {
    gs[..v] + gs[v + 1..]
  }

  lemma RemovalKeepsOrder(gs: seq<Generation>, v: nat, current: u64, flow: u64, limits: Limits)
    requires v < |gs| && GenerationsOk(gs, flow, limits) && CurrentIsNewest(gs, current) && Evictable(gs[v], current)
    ensures var rest := Without(gs, v);
            && GenerationsOk(rest, flow, limits) && rest != [] && rest[|rest| - 1] == gs[|gs| - 1]
  {
    hide GenerationOk, Without;
  }

  lemma RemovalKeepsEnds(gs: seq<Generation>, v: nat)
    requires v < |gs| && SortedGenerations(gs)
    ensures EndsKept(gs, Without(gs, v))
    ensures forall i :: 0 <= i < |gs| && i != v ==> Knows(Without(gs, v), gs[i].id)
    ensures forall id :: Quiet(gs, id) ==> Quiet(Without(gs, v), id)
  {
    hide Without, Reconfirmed;
    SelfEnds(gs);
    hide SameEnd;
    var rest := Without(gs, v);
    forall i | 0 <= i < |gs| && i != v ensures Knows(rest, gs[i].id) {
      assert rest[if i < v then i else i - 1].id == gs[i].id;
    }
  }

  lemma RemovalKeeps(gs: seq<Generation>, v: nat, current: u64, flow: u64, limits: Limits)
    requires v < |gs| && GenerationsOk(gs, flow, limits) && CurrentIsNewest(gs, current) && Evictable(gs[v], current)
    ensures var rest := Without(gs, v);
            && GenerationsOk(rest, flow, limits) && rest != [] && rest[|rest| - 1] == gs[|gs| - 1]
            && EndsKept(gs, rest) && OnlyEndedEvicted(gs, current, rest)
            && (forall id :: Quiet(gs, id) ==> Quiet(rest, id))
  {
    hide GenerationsOk, EndsKept, Knows, Quiet, Evictable;
    assert SortedGenerations(gs) by {
      SortedOf(gs, flow, limits);
    }
    RemovalKeepsOrder(gs, v, current, flow, limits);
    RemovalKeepsEnds(gs, v);
  }

  lemma SortedOf(gs: seq<Generation>, flow: u64, limits: Limits)
    requires GenerationsOk(gs, flow, limits)
    ensures SortedGenerations(gs)
  {
  }

  lemma SelfEnds(gs: seq<Generation>)
    requires SortedGenerations(gs)
    ensures EndsKept(gs, gs)
  {
    forall i, j | 0 <= i < |gs| && 0 <= j < |gs| && gs[i].id == gs[j].id ensures i == j {
    }
  }

  predicate NoRoom(flow: Flow, id: u64, limits: Limits) {
    && !Knows(flow.generations, id) && |flow.generations| >= limits.maxGenerations
    && forall i :: 0 <= i < |flow.generations| ==> !Evictable(flow.generations[i], flow.current)
  }

  /** Making room evicts at most one generation, one that has ended and is not current. */
  lemma MakeRoomSafe(flow: Flow, id: u64, limits: Limits)
    requires FlowOk(flow, limits) && limits.Valid()
    ensures var room := MakeRoom(flow, id, limits);
            && (room.None? <==> NoRoom(flow, id, limits))
            && (room.Some? ==>
                  var f := room.value;
                  && f == flow.(generations := f.generations) && FlowOk(f, limits)
                  && (Knows(f.generations, id) || |f.generations| < limits.maxGenerations)
                  && (Knows(flow.generations, id) ==> f == flow)
                  && EndsKept(flow.generations, f.generations)
                  && OnlyEndedEvicted(flow.generations, flow.current, f.generations)
                  && forall other :: Quiet(flow.generations, other) ==> Quiet(f.generations, other))
  {
    hide GenerationOk, Reconfirmed, Quiet, EndsKept, OnlyEndedEvicted, Knows;
    VictimIsLowest(flow.generations, flow.current);
    var v := Victim(flow.generations, flow.current);
    if Knows(flow.generations, id) || |flow.generations| < limits.maxGenerations {
      NothingEvicted(flow.generations, flow.current);
    } else if v.Some? {
      RemovalKeeps(flow.generations, v.value, flow.current, flow.id, limits);
    }
  }

  lemma NothingEvicted(gs: seq<Generation>, current: u64)
    requires SortedGenerations(gs)
    ensures EndsKept(gs, gs) && OnlyEndedEvicted(gs, current, gs)
  {
    SelfEnds(gs);
    forall i | 0 <= i < |gs| ensures Knows(gs, gs[i].id) {
    }
  }

  lemma IdsSorted(gs: seq<Generation>, id: u64)
    requires SortedGenerations(gs)
    ensures SortedIds(GenerationIds(gs)) && (id in GenerationIds(gs) <==> Knows(gs, id))
  {
    if Knows(gs, id) {
      var i :| 0 <= i < |gs| && gs[i].id == id;
      assert GenerationIds(gs)[i] == id;
    }
  }

  /** A generation that is already known is found where it is; a new one is put where it belongs. */
  lemma WithGenerationSafe(gs: seq<Generation>, id: u64, at: i64, flow: u64, limits: Limits)
    requires GenerationsOk(gs, flow, limits) && id != 0 && (Knows(gs, id) || |gs| < limits.maxGenerations)
    ensures var r := WithGeneration(gs, id, at);
            var p := Position(GenerationIds(gs), id);
            && (Knows(gs, id) ==> r == gs)
            && (!Knows(gs, id) ==> r == gs[..p] + [NewGeneration(id, at)] + gs[p..])
            && GenerationsOk(r, flow, limits)
  {
    hide GenerationOk;
    IdsSorted(gs, id);
    BinaryAgreesWithLinear(GenerationIds(gs), id);
    var p := Position(GenerationIds(gs), id);
    if Knows(gs, id) {
      assert GenerationIds(gs)[p] == id;
    } else {
      var r := gs[..p] + [NewGeneration(id, at)] + gs[p..];
      assert GenerationIds(r) == GenerationIds(gs)[..p] + [id] + GenerationIds(gs)[p..];
      NewGenerationOk(id, at, flow, limits);
      forall i, j | 0 <= i < j < |r| ensures r[i].id < r[j].id {
        assert GenerationIds(r)[i] < GenerationIds(r)[j];
      }
    }
  }

  lemma NewGenerationOk(id: u64, at: i64, flow: u64, limits: Limits)
    requires id != 0
    ensures GenerationOk(NewGeneration(id, at), flow, limits)
  {
  }

  /** Inserting a new generation, which has no end and no source yet, disturbs no other. */
  lemma InsertionKeeps(gs: seq<Generation>, p: nat, g: Generation)
    requires p <= |gs| && !Knows(gs, g.id) && SortedGenerations(gs) && g.bindings == []
    ensures var r := gs[..p] + [g] + gs[p..];
            && EndsKept(gs, r)
            && (forall id :: Knows(r, id) <==> Knows(gs, id) || id == g.id)
            && (forall id :: Quiet(gs, id) ==> Quiet(r, id))
  {
    hide SameEnd;
    var r := gs[..p] + [g] + gs[p..];
    SelfEnds(gs);
    forall id ensures Knows(r, id) <==> Knows(gs, id) || id == g.id {
      if Knows(gs, id) {
        var i :| 0 <= i < |gs| && gs[i].id == id;
        assert r[if i < p then i else i + 1].id == id;
      }
      assert r[p].id == g.id;
    }
    assert forall j :: 0 <= j < |r| && j != p ==> r[j] == gs[if j < p then j else j - 1];
    forall i | 0 <= i < |gs| ensures gs[i].id != g.id {
      assert !Knows(gs, g.id);
    }
  }

  /** Where the current generation stands after a generation has been entered. */
  lemma EnteredCurrent(gs: seq<Generation>, current: u64, id: u64, at: i64, flow: u64, limits: Limits)
    requires GenerationsOk(gs, flow, limits) && id != 0 && (Knows(gs, id) || |gs| < limits.maxGenerations)
    requires CurrentIsNewest(gs, current)
    ensures var next := if current == 0 || id > current then id else current;
            CurrentIsNewest(WithGeneration(gs, id, at), next)
  {
    hide GenerationOk;
    IdsSorted(gs, id);
    BinaryAgreesWithLinear(GenerationIds(gs), id);
    WithGenerationSafe(gs, id, at, flow, limits);
    var r, p := WithGeneration(gs, id, at), Position(GenerationIds(gs), id);
    if Knows(gs, id) {
      assert GenerationIds(gs)[p] == id;
      assert r[|r| - 1].id >= id;
    } else if gs != [] {
      assert p < |gs| ==> GenerationIds(gs)[|gs| - 1] >= id;
      assert p == |gs| ==> GenerationIds(gs)[|gs| - 1] < id;
    }
  }

  lemma EnteredSafe(flow: Flow, o: Observation, at: i64, limits: Limits)
    requires FlowOk(flow, limits) && o.subject.generation != 0
    requires Knows(flow.generations, o.subject.generation) || |flow.generations| < limits.maxGenerations
    ensures var f := Entered(flow, o, at, limits);
            var p := Position(GenerationIds(flow.generations), o.subject.generation);
            && Shape(f, limits) && f.id == flow.id && f.key == flow.key && f.generations[p].id == o.subject.generation
            && EndsKept(flow.generations, f.generations)
            && (forall id :: Knows(f.generations, id) <==> Knows(flow.generations, id) || id == o.subject.generation)
            && (forall id :: Quiet(flow.generations, id) ==> Quiet(f.generations, id))
            && (f.generations[p].bindings != [] ==> Coherent(f))
  {
    hide GenerationOk, EndsKept, Knows, Quiet, Reconfirmed;
    var id := o.subject.generation;
    var p := Position(GenerationIds(flow.generations), id);
    WithGenerationSafe(flow.generations, id, at, flow.id, limits);
    EnteredCurrent(flow.generations, flow.current, id, at, flow.id, limits);
    NotedSafe(flow.(generations := WithGeneration(flow.generations, id, at)), NoteOf(StaleGenerationEvidence, o, at), limits);
    if Knows(flow.generations, id) {
      SelfEnds(flow.generations);
      KnownIsNotNewer(flow.generations, id);
    } else {
      InsertionKeeps(flow.generations, p, NewGeneration(id, at));
    }
  }

  lemma KnownIsNotNewer(gs: seq<Generation>, id: u64)
    requires SortedGenerations(gs) && Knows(gs, id)
    ensures gs != [] && id <= gs[|gs| - 1].id
  {
    var i :| 0 <= i < |gs| && gs[i].id == id;
  }

  // ---- the ledger step ------------------------------------------------------------------------------

  lemma LedgerStaysBounded(l: Ledger.Ledger, o: Observation, digest: Observation -> u64)
    requires 1 <= l.capacity && |l.entries| <= l.capacity
    ensures var r := Ledger.Inserted(l, o, digest);
            && |r.entries| <= r.capacity && r.capacity == l.capacity
            && r.source == l.source && r.flow == l.flow && r.generation == l.generation
  {
    hide Ledger.WindowContains, KeyLess, Ledger.AbsorbAll;
    LedgerRefinement.PlaceElements(l.entries, o, digest);
    hide Ledger.Place;
  }

  /** A ledger that has seen nothing takes any evidence about its source and generation. */
  lemma FreshLedgerAccepts(source: u64, flow: u64, generation: u64, capacity: nat, o: Observation, digest: Observation -> u64)
    requires o.Valid() && o.key.source == source && o.subject.flow == flow && o.subject.generation == generation
    ensures Ledger.InsertOutcome(Ledger.Configured(source, flow, generation, capacity), o, digest).Accepted?
  {
  }

  lemma BindingStaysOk(b: Binding, o: Observation, flow: u64, generation: u64, replaying: bool, digest: Observation -> u64, limits: Limits)
    requires BindingOk(b, flow, generation, limits) && limits.Valid()
    ensures BindingOk(BindingAfter(b, o, replaying, digest), flow, generation, limits)
  {
    hide Ledger.Inserted, Ledger.InsertOutcome;
    LedgerStaysBounded(b.ledger, o, digest);
  }

  lemma BoundIffListed(bs: seq<Binding>, source: u64)
    requires SortedIds(BindingIds(bs))
    ensures Bound(bs, source) <==> source in BindingIds(bs)
  {
    if Bound(bs, source) {
      var i :| 0 <= i < |bs| && bs[i].source == source;
      assert BindingIds(bs)[i] == source;
    }
  }

  /** A source that is already bound is found where it is; a new one is put where it belongs. */
  lemma WithBindingSafe(g: Generation, source: u64, flow: u64, limits: Limits, replaying: bool)
    requires GenerationOk(g, flow, limits) && limits.Valid() && (Bound(g.bindings, source) || |g.bindings| < limits.maxBindings)
    ensures var r := WithBinding(g.bindings, source, flow, g.id, limits, replaying);
            var p := Position(BindingIds(g.bindings), source);
            && (Bound(g.bindings, source) ==> r == g.bindings)
            && (!Bound(g.bindings, source) ==>
                  r == g.bindings[..p] + [NewBinding(source, flow, g.id, limits, replaying)] + g.bindings[p..])
            && GenerationOk(g.(bindings := r), flow, limits)
  {
    hide BindingOk;
    var bs := g.bindings;
    BoundIffListed(bs, source);
    BinaryAgreesWithLinear(BindingIds(bs), source);
    var p := Position(BindingIds(bs), source);
    if Bound(bs, source) {
      assert BindingIds(bs)[p] == source;
    } else {
      var r := bs[..p] + [NewBinding(source, flow, g.id, limits, replaying)] + bs[p..];
      assert BindingIds(r) == BindingIds(bs)[..p] + [source] + BindingIds(bs)[p..];
      NewBindingOk(source, flow, g.id, limits, replaying);
    }
  }

  lemma NewBindingOk(source: u64, flow: u64, generation: u64, limits: Limits, replaying: bool)
    requires limits.Valid()
    ensures BindingOk(NewBinding(source, flow, generation, limits, replaying), flow, generation, limits)
  {
  }

  lemma ReplacedBindingOk(g: Generation, i: nat, b: Binding, flow: u64, limits: Limits)
    requires GenerationOk(g, flow, limits) && i < |g.bindings| && b.source == g.bindings[i].source
    requires BindingOk(b, flow, g.id, limits)
    ensures GenerationOk(g.(bindings := g.bindings[i := b]), flow, limits)
  {
    hide BindingOk;
    assert BindingIds(g.bindings[i := b]) == BindingIds(g.bindings);
  }

  /** The generation after one of its sources offered evidence. */
  function BoundGeneration(g: Generation, flow: u64, o: Observation, limits: Limits, replaying: bool, digest: Observation -> u64): Generation {
    var bs := WithBinding(g.bindings, o.key.source, flow, g.id, limits, replaying);
    var bi := Position(BindingIds(g.bindings), o.key.source);
    g.(bindings := bs[bi := BindingAfter(bs[bi], o, replaying, digest)])
  }

  function OfferOutcome(g: Generation, flow: u64, o: Observation, limits: Limits, replaying: bool, digest: Observation -> u64): Ledger.Outcome {
    var bs := WithBinding(g.bindings, o.key.source, flow, g.id, limits, replaying);
    Ledger.InsertOutcome(bs[Position(BindingIds(g.bindings), o.key.source)].ledger, o, digest)
  }

  /**
   * Only accepted evidence, in this run of the program, makes a generation heard. A source that was not
   * bound yet is never refused.
   */
  lemma BoundGenerationSafe(g: Generation, flow: u64, o: Observation, limits: Limits, replaying: bool, digest: Observation -> u64)
    requires GenerationOk(g, flow, limits) && limits.Valid()
    requires Bound(g.bindings, o.key.source) || |g.bindings| < limits.maxBindings
    requires o.Valid() && o.subject.flow == flow && o.subject.generation == g.id
    ensures var r := BoundGeneration(g, flow, o, limits, replaying, digest);
            var outcome := OfferOutcome(g, flow, o, limits, replaying, digest);
            && GenerationOk(r, flow, limits)
            && (DispositionOf(outcome) == Refused ==> Bound(g.bindings, o.key.source))
            && (replaying || DispositionOf(outcome) != Applied ==> (Reconfirmed(r.bindings) <==> Reconfirmed(g.bindings)))
  {
    hide Ledger.Inserted, Ledger.InsertOutcome, BindingOk, Position;
    WithBindingSafe(g, o.key.source, flow, limits, replaying);
    var bs := WithBinding(g.bindings, o.key.source, flow, g.id, limits, replaying);
    var bi := Position(BindingIds(g.bindings), o.key.source);
    assert BindingOk(bs[bi], flow, g.id, limits);
    BindingStaysOk(bs[bi], o, flow, g.id, replaying, digest, limits);
    ReplacedBindingOk(g.(bindings := bs), bi, BindingAfter(bs[bi], o, replaying, digest), flow, limits);
    HeardOnlyIfApplied(g, flow, o, limits, replaying, digest);
  }

  lemma HeardOnlyIfApplied(g: Generation, flow: u64, o: Observation, limits: Limits, replaying: bool, digest: Observation -> u64)
    requires GenerationOk(g, flow, limits) && limits.Valid()
    requires Bound(g.bindings, o.key.source) || |g.bindings| < limits.maxBindings
    requires o.Valid() && o.subject.flow == flow && o.subject.generation == g.id
    ensures var r := BoundGeneration(g, flow, o, limits, replaying, digest);
            var outcome := OfferOutcome(g, flow, o, limits, replaying, digest);
            && (DispositionOf(outcome) == Refused ==> Bound(g.bindings, o.key.source))
            && (replaying || DispositionOf(outcome) != Applied ==> (Reconfirmed(r.bindings) <==> Reconfirmed(g.bindings)))
  {
    hide Ledger.Inserted, Ledger.InsertOutcome, BindingOk, Position, Ledger.Configured;
    WithBindingSafe(g, o.key.source, flow, limits, replaying);
    var bi := Position(BindingIds(g.bindings), o.key.source);
    var r := BoundGeneration(g, flow, o, limits, replaying, digest).bindings;
    if Bound(g.bindings, o.key.source) {
      HeardAgain(g.bindings, bi, r[bi]);
    } else {
      FreshLedgerAccepts(o.key.source, flow, g.id, limits.maxObservations, o, digest);
      assert r == g.bindings[..bi] + [r[bi]] + g.bindings[bi..];
      HeardNewly(g.bindings, bi, r[bi]);
    }
  }

  lemma HeardAgain(bs: seq<Binding>, i: nat, b: Binding)
    requires i < |bs|
    ensures b.reconfirmed == bs[i].reconfirmed ==> (Reconfirmed(bs[i := b]) <==> Reconfirmed(bs))
  {
    if b.reconfirmed == bs[i].reconfirmed && Reconfirmed(bs) {
      var k :| 0 <= k < |bs| && bs[k].reconfirmed;
      assert bs[i := b][k].reconfirmed;
    }
  }

  lemma HeardNewly(bs: seq<Binding>, p: nat, b: Binding)
    requires p <= |bs|
    ensures !b.reconfirmed ==> (Reconfirmed(bs[..p] + [b] + bs[p..]) <==> Reconfirmed(bs))
  {
    var r := bs[..p] + [b] + bs[p..];
    if Reconfirmed(bs) {
      var k :| 0 <= k < |bs| && bs[k].reconfirmed;
      assert r[if k < p then k else k + 1].reconfirmed;
    }
    if Reconfirmed(r) && !b.reconfirmed {
      var k :| 0 <= k < |r| && r[k].reconfirmed;
      assert bs[if k < p then k else k - 1].reconfirmed;
    }
  }

  // ---- the whole ingest -------------------------------------------------------------------------------

  /** Everything an observation keeps of the flow it reaches. */
  predicate Preserved(flow: Flow, o: Observation, replaying: bool, after: Flow, d: Disposition, limits: Limits) {
    && FlowOk(after, limits) && after.id == flow.id && after.key == flow.key
    && EndsKept(flow.generations, after.generations)
    && OnlyEndedEvicted(flow.generations, flow.current, after.generations)
    && (replaying || d != Applied ==> forall id :: Quiet(flow.generations, id) ==> Quiet(after.generations, id))
    && (forall id :: id != o.subject.generation && Quiet(flow.generations, id) ==> Quiet(after.generations, id))
  }

  lemma EndsTransitive(a: seq<Generation>, b: seq<Generation>, c: seq<Generation>)
    requires EndsKept(a, b) && EndsKept(b, c)
    requires forall i :: 0 <= i < |a| && Knows(c, a[i].id) ==> Knows(b, a[i].id)
    ensures EndsKept(a, c)
  {
    hide SameEnd;
    forall i, k | 0 <= i < |a| && 0 <= k < |c| && a[i].id == c[k].id && IsTerminal(a[i].state)
      ensures SameEnd(a[i], c[k])
    {
      assert Knows(c, a[i].id);
      var j :| 0 <= j < |b| && b[j].id == a[i].id;
      assert SameEnd(a[i], b[j]);
      assert IsTerminal(b[j].state) by { SameEndTerminal(a[i], b[j]); }
      assert SameEnd(b[j], c[k]);
      SameEndTransitive(a[i], b[j], c[k]);
    }
  }

  lemma SameEndTerminal(a: Generation, b: Generation)
    requires SameEnd(a, b)
    ensures IsTerminal(a.state) <==> IsTerminal(b.state)
  {
  }

  lemma SameEndTransitive(a: Generation, b: Generation, c: Generation)
    requires SameEnd(a, b) && SameEnd(b, c)
    ensures SameEnd(a, c)
  {
  }

  /** Replacing one generation by itself with other sources keeps every end, and every other generation quiet. */
  lemma ReplacedKeeps(gs: seq<Generation>, i: nat, g: Generation)
    requires i < |gs| && SortedGenerations(gs) && g.id == gs[i].id && SameEnd(g, gs[i])
    ensures var r := gs[i := g];
            && SortedGenerations(r) && EndsKept(gs, r)
            && (forall id :: Knows(r, id) <==> Knows(gs, id))
            && (forall id :: id != g.id && Quiet(gs, id) ==> Quiet(r, id))
            && ((Reconfirmed(g.bindings) <==> Reconfirmed(gs[i].bindings)) ==> forall id :: Quiet(gs, id) ==> Quiet(r, id))
  {
    hide Reconfirmed;
    SelfEnds(gs);
    var r := gs[i := g];
    forall id ensures Knows(r, id) <==> Knows(gs, id) {
      if Knows(gs, id) {
        var k :| 0 <= k < |gs| && gs[k].id == id;
        assert r[k].id == id;
      }
    }
  }

  lemma OfferedSafe(flow: Flow, gi: nat, o: Observation, env: Env, replaying: bool, digest: Observation -> u64)
    requires Shape(flow, env.config.limits) && env.config.limits.Valid() && gi < |flow.generations|
    requires o.Valid() && o.subject.flow == flow.id && o.subject.generation == flow.generations[gi].id
    requires Bound(flow.generations[gi].bindings, o.key.source) || |flow.generations[gi].bindings| < env.config.limits.maxBindings
    requires Bound(flow.generations[gi].bindings, o.key.source) ==> Coherent(flow)
    ensures var (after, d) := Offered(flow, gi, o, env, replaying, digest);
            && FlowOk(after, env.config.limits) && after.id == flow.id && after.key == flow.key
            && EndsKept(flow.generations, after.generations)
            && (forall id :: Knows(after.generations, id) <==> Knows(flow.generations, id))
            && (replaying || d != Applied ==> forall id :: Quiet(flow.generations, id) ==> Quiet(after.generations, id))
            && (forall id :: id != o.subject.generation && Quiet(flow.generations, id) ==> Quiet(after.generations, id))
  {
    hide GenerationOk, Reconfirmed, Quiet, EndsKept, Knows, BoundGeneration, OfferOutcome, Recomputed, Settled, Noted;
    var limits := env.config.limits;
    var g := flow.generations[gi];
    BoundGenerationSafe(g, flow.id, o, limits, replaying, digest);
    OfferedUnfolds(flow, gi, o, env, replaying, digest);
    hide Offered;
    var bound := BoundGeneration(g, flow.id, o, limits, replaying, digest);
    var outcome := OfferOutcome(g, flow.id, o, limits, replaying, digest);
    var placed := flow.(generations := flow.generations[gi := bound]);
    ReplacedKeeps(flow.generations, gi, bound);
    AnsweredSafe(placed, o, outcome, env.at, limits);
    var answered := Answered(placed, o, outcome, env.at, limits);
    hide Answered;
    if DispositionOf(outcome) == Refused {
      RefusedKeepsCoherence(flow, gi, bound, answered);
    } else {
      TouchedRecomputed(flow, gi, bound, answered, env);
    }
  }

  lemma TouchedRecomputed(flow: Flow, gi: nat, bound: Generation, answered: Flow, env: Env)
    requires Shape(flow, env.config.limits) && gi < |flow.generations|
    requires GenerationOk(bound, flow.id, env.config.limits)
    requires bound == flow.generations[gi].(bindings := bound.bindings)
    requires answered == flow.(generations := answered.generations, anomalies := answered.anomalies,
                               anomaliesDropped := answered.anomaliesDropped, revision := answered.revision)
    requires |answered.anomalies| <= env.config.limits.maxAnomalies
    ensures var after := Recomputed(Touched(flow, gi, bound, answered, env.at), env);
            && FlowOk(after, env.config.limits) && after.id == flow.id && after.key == flow.key
            && EndsKept(flow.generations, after.generations)
            && (forall id :: Knows(after.generations, id) <==> Knows(flow.generations, id))
            && ((Reconfirmed(bound.bindings) <==> Reconfirmed(flow.generations[gi].bindings)) ==>
                  forall id :: Quiet(flow.generations, id) ==> Quiet(after.generations, id))
            && (forall id :: id != bound.id && Quiet(flow.generations, id) ==> Quiet(after.generations, id))
  {
    hide GenerationOk, Reconfirmed, Quiet, EndsKept, Knows, Recomputed, Settled;
    var touched := Touched(flow, gi, bound, answered, env.at);
    ReplacedKeeps(flow.generations, gi, bound.(lastTouched := env.at));
    TouchedOk(bound, flow.id, env.at, env.config.limits);
    RecomputedSafe(touched, env);
    KnowsSame(flow.generations, touched.generations, Recomputed(touched, env).generations);
    EndsTransitive(flow.generations, touched.generations, Recomputed(touched, env).generations);
  }

  lemma KnowsSame(a: seq<Generation>, b: seq<Generation>, c: seq<Generation>)
    requires forall id :: Knows(b, id) <==> Knows(a, id)
    requires forall id :: Knows(c, id) <==> Knows(b, id)
    ensures forall i :: 0 <= i < |a| && Knows(c, a[i].id) ==> Knows(b, a[i].id)
  {
    hide Knows;
  }

  function Touched(flow: Flow, gi: nat, bound: Generation, answered: Flow, at: i64): Flow
    requires gi < |flow.generations|
  {
    answered.(lastTouched := at, generations := flow.generations[gi := bound.(lastTouched := at)])
  }

  lemma TouchedOk(g: Generation, flow: u64, at: i64, limits: Limits)
    requires GenerationOk(g, flow, limits)
    ensures GenerationOk(g.(lastTouched := at), flow, limits)
  {
  }

  lemma OfferedUnfolds(flow: Flow, gi: nat, o: Observation, env: Env, replaying: bool, digest: Observation -> u64)
    requires gi < |flow.generations|
    ensures var g := flow.generations[gi];
            var bound := BoundGeneration(g, flow.id, o, env.config.limits, replaying, digest);
            var outcome := OfferOutcome(g, flow.id, o, env.config.limits, replaying, digest);
            var answered := Answered(flow.(generations := flow.generations[gi := bound]), o, outcome, env.at, env.config.limits);
            var next := if DispositionOf(outcome) == Refused then (answered, Refused)
                        else (Recomputed(Touched(flow, gi, bound, answered, env.at), env), DispositionOf(outcome));
            Offered(flow, gi, o, env, replaying, digest) == next
    ensures var g := flow.generations[gi];
            var bound := BoundGeneration(g, flow.id, o, env.config.limits, replaying, digest);
            bound == g.(bindings := bound.bindings)
  {
    hide Recomputed, Answered, Ledger.InsertOutcome, BindingAfter;
  }

  lemma AnsweredSafe(flow: Flow, o: Observation, outcome: Ledger.Outcome, at: i64, limits: Limits)
    requires |flow.anomalies| <= limits.maxAnomalies
    ensures var f := Answered(flow, o, outcome, at, limits);
            && f == flow.(anomalies := f.anomalies, anomaliesDropped := f.anomaliesDropped, revision := f.revision)
            && |f.anomalies| <= limits.maxAnomalies
  {
  }

  lemma RefusedKeepsCoherence(flow: Flow, gi: nat, bound: Generation, answered: Flow)
    requires Coherent(flow) && gi < |flow.generations|
    requires bound == flow.generations[gi].(bindings := bound.bindings)
    requires Reconfirmed(bound.bindings) <==> Reconfirmed(flow.generations[gi].bindings)
    requires answered.generations == flow.generations[gi := bound] && answered.state == flow.state && answered.restored == flow.restored
    ensures Coherent(answered)
  {
    hide Reconfirmed;
  }

  /** The observation as the ledger gets it: a stamp too far ahead is pulled back to the receive instant. */
  function Clamped(o: Observation, limits: Limits): Observation {
    if Skewed(o, limits) then o.(observedAt := o.receivedAt) else o
  }

  lemma CoherentNoted(flow: Flow, a: Anomaly, limits: Limits)
    requires FlowOk(flow, limits)
    ensures var f := Noted(flow, a, limits);
            FlowOk(f, limits) && f.generations == flow.generations && f.current == flow.current && f.id == flow.id && f.key == flow.key
  {
    NotedSafe(flow, a, limits);
  }

  lemma EvictionThrough(a: seq<Generation>, current: u64, b: seq<Generation>, c: seq<Generation>)
    requires OnlyEndedEvicted(a, current, b) && forall id :: Knows(b, id) ==> Knows(c, id)
    ensures OnlyEndedEvicted(a, current, c)
  {
    hide Knows;
  }

  lemma EnteredAndOffered(flow: Flow, o: Observation, env: Env, replaying: bool, digest: Observation -> u64)
    requires FlowOk(flow, env.config.limits) && env.config.limits.Valid()
    requires o.Valid() && o.subject.flow == flow.id
    requires Knows(flow.generations, o.subject.generation) || |flow.generations| < env.config.limits.maxGenerations
    ensures var limits := env.config.limits;
            var entered := Entered(flow, o, env.at, limits);
            var gi := Position(GenerationIds(flow.generations), o.subject.generation);
            var full := !Bound(entered.generations[gi].bindings, o.key.source) && |entered.generations[gi].bindings| >= limits.maxBindings;
            var (after, d) := if full then (Noted(entered, NoteOf(LimitEviction, o, env.at), limits), Refused)
                              else Offered(entered, gi, o, env, replaying, digest);
            && FlowOk(after, limits) && after.id == flow.id && after.key == flow.key
            && EndsKept(flow.generations, after.generations)
            && (forall id :: Knows(after.generations, id) <==> Knows(flow.generations, id) || id == o.subject.generation)
            && (replaying || d != Applied ==> forall id :: Quiet(flow.generations, id) ==> Quiet(after.generations, id))
            && (forall id :: id != o.subject.generation && Quiet(flow.generations, id) ==> Quiet(after.generations, id))
  {
    hide GenerationOk, Reconfirmed, Quiet, EndsKept, Knows, Offered, Noted, Entered, Coherent;
    var limits := env.config.limits;
    EnteredSafe(flow, o, env.at, limits);
    var entered := Entered(flow, o, env.at, limits);
    var gi := Position(GenerationIds(flow.generations), o.subject.generation);
    var bindings := entered.generations[gi].bindings;
    BoundNotEmpty(bindings, o.key.source);
    if !Bound(bindings, o.key.source) && |bindings| >= limits.maxBindings {
      CoherentNoted(entered, NoteOf(LimitEviction, o, env.at), limits);
    } else {
      OfferedSafe(entered, gi, o, env, replaying, digest);
      var after := Offered(entered, gi, o, env, replaying, digest).0;
      KnowsBetween(flow.generations, entered.generations, after.generations, o.subject.generation);
      EndsTransitive(flow.generations, entered.generations, after.generations);
    }
  }

  lemma BoundNotEmpty(bs: seq<Binding>, source: u64)
    ensures Bound(bs, source) ==> bs != []
  {
  }

  lemma KnowsBetween(a: seq<Generation>, b: seq<Generation>, c: seq<Generation>, entered: u64)
    requires forall id :: Knows(b, id) <==> Knows(a, id) || id == entered
    requires forall id :: Knows(c, id) <==> Knows(b, id)
    ensures forall i :: 0 <= i < |a| && Knows(c, a[i].id) ==> Knows(b, a[i].id)
    ensures forall id :: Knows(c, id) <==> Knows(a, id) || id == entered
  {
    hide Knows;
  }

  /** The generation that entered is not the one that made room for it. */
  lemma EndsThroughRoom(a: seq<Generation>, b: seq<Generation>, c: seq<Generation>, entered: u64)
    requires EndsKept(a, b) && EndsKept(b, c)
    requires Knows(a, entered) ==> a == b
    requires forall id :: Knows(c, id) <==> Knows(b, id) || id == entered
    ensures EndsKept(a, c)
  {
    hide EndsKept;
    if a != b {
      hide Knows;
      forall i | 0 <= i < |a| && Knows(c, a[i].id) ensures Knows(b, a[i].id) {
        KnowsItself(a, i);
      }
      EndsTransitive(a, b, c);
    }
  }

  lemma KnowsItself(gs: seq<Generation>, i: nat)
    requires i < |gs|
    ensures Knows(gs, gs[i].id)
  {
  }

  /** One observation, whatever it says and however it is disposed of, keeps every property of its flow. */
  lemma IngestedSafe(flow: Flow, o: Observation, env: Env, replaying: bool, digest: Observation -> u64)
    requires FlowOk(flow, env.config.limits) && env.config.limits.Valid()
    requires o.Valid() && o.subject.flow == flow.id
    ensures var (after, d) := Ingested(flow, o, env, replaying, digest);
            Preserved(flow, o, replaying, after, d, env.config.limits)
  {
    hide FlowOk, GenerationOk, Reconfirmed, Quiet, EndsKept, Knows, Offered, Noted, Entered, Coherent, MakeRoom, Skewed, OnlyEndedEvicted;
    var limits := env.config.limits;
    OrderOf(flow, limits);
    NothingEvicted(flow.generations, flow.current);
    CoherentNoted(flow, NoteOf(ClockSkew, o, env.at), limits);
    if !(Skewed(o, limits) && !env.config.clampFuture) {
      var checked := if Skewed(o, limits) then Noted(flow, NoteOf(ClockSkew, o, env.at), limits) else flow;
      var clamped := Clamped(o, limits);
      MakeRoomSafe(checked, clamped.subject.generation, limits);
      var room := MakeRoom(checked, clamped.subject.generation, limits);
      CoherentNoted(checked, NoteOf(LimitEviction, clamped, env.at), limits);
      if room.Some? {
        EnteredAndOffered(room.value, clamped, env, replaying, digest);
        var after := Ingested(flow, o, env, replaying, digest).0;
        EvictionThrough(flow.generations, flow.current, room.value.generations, after.generations);
        EndsThroughRoom(flow.generations, room.value.generations, after.generations, clamped.subject.generation);
      }
    }
  }

  lemma OrderOf(flow: Flow, limits: Limits)
    requires FlowOk(flow, limits)
    ensures SortedGenerations(flow.generations)
  {
  }
}
