/** Recomputing a flow in place, and why doing it twice changes nothing. */
module Recompute {
  import opened Checked
  import opened Evidence
  import opened Freshness
  import opened Reconcile
  import opened Lifecycle
  import opened Runtime
  import Fold
  import History
  import Ledger

  // ---- the recomputation, step by step ------------------------------------------------------

  lemma {:induction false} NotedConcat(flow: Flow, a: seq<Anomaly>, b: seq<Anomaly>, limits: Limits)
    ensures NotedAll(flow, a + b, limits) == NotedAll(NotedAll(flow, a, limits), b, limits)
  {
    if b == [] {
      assert a + b == a;
    } else {
      assert (a + b)[..|a + b| - 1] == a + b[..|b| - 1];
      NotedConcat(flow, a, b[..|b| - 1], limits);
    }
  }

  lemma NotedOne(flow: Flow, a: seq<Anomaly>, x: Anomaly, limits: Limits)
    ensures NotedAll(flow, a + [x], limits) == Noted(NotedAll(flow, a, limits), x, limits)
  {
    assert (a + [x])[..|a|] == a;
  }

  lemma {:induction false} UnpromotedElements(kinds: seq<AnomalyKind>, v: SourceView, promoted: set<AnomalyKind>)
    ensures forall k :: k in Unpromoted(kinds, v, promoted)
                   <==> k in kinds && Fold.AnomalyCount(v.evidence.anomalies, k) != 0 && k !in promoted
  {
    if kinds != [] {
      UnpromotedElements(kinds[..|kinds| - 1], v, promoted);
      assert kinds == kinds[..|kinds| - 1] + [kinds[|kinds| - 1]];
    }
  }

  method CollectViews(bindings: seq<Binding>, env: Env) returns (views: seq<SourceView>)
    ensures views == Views(bindings, env)
  {
    hide ViewOf;
    views := [];
    for i := 0 to |bindings|
      invariant views == Views(bindings[..i], env)
    {
      assert bindings[..i + 1][..i] == bindings[..i];
      if bindings[i].source in env.sources {
        views := views + [ViewOf(bindings[i], env.sources[bindings[i].source].descriptor, env)];
      }
    }
    assert bindings[..|bindings|] == bindings;
  }

  lemma PromoteOne(kinds: seq<AnomalyKind>, i: nat, v: SourceView, b: Binding)
    requires i < |kinds| && kinds[i] !in kinds[..i]
    ensures var before := Unpromoted(kinds[..i], v, b.promoted);
            var after := Unpromoted(kinds[..i + 1], v, b.promoted);
            var promote := Fold.AnomalyCount(v.evidence.anomalies, kinds[i]) != 0 && kinds[i] !in b.promoted + KindSet(before);
            && after == (if promote then before + [kinds[i]] else before)
            && KindSet(after) == (if promote then KindSet(before) + {kinds[i]} else KindSet(before))
  {
    assert kinds[..i + 1][..i] == kinds[..i];
    UnpromotedElements(kinds[..i], v, b.promoted);
    assert Unpromoted(kinds[..i], v, b.promoted) + [] == Unpromoted(kinds[..i], v, b.promoted);
  }

  lemma NotesForOne(kinds: seq<AnomalyKind>, k: AnomalyKind, v: SourceView, generation: u64, at: i64)
    ensures NotesFor(kinds + [k], v, generation, at) == NotesFor(kinds, v, generation, at) + [PromotionNote(k, v, generation, at)]
  {
    assert (kinds + [k])[..|kinds|] == kinds;
  }

  /** Each kind is promoted to the flow once per source. */
  method PromoteBinding(flow: Flow, b: Binding, generation: u64, env: Env) returns (f: Flow, p: Binding)
    ensures f == NotedAll(flow, PromotionNotes(b, generation, env), env.config.limits)
    ensures p == PromotedBinding(b, env)
  {
    f, p := flow, b;
    if b.source !in env.sources {
      return;
    }
    var v := ViewOf(b, env.sources[b.source].descriptor, env);
    f, p := PromoteKinds(ALL_ANOMALIES, v, flow, b, generation, env);
  }

  method PromoteKinds(kinds: seq<AnomalyKind>, v: SourceView, flow: Flow, b: Binding, generation: u64, env: Env)
    returns (f: Flow, p: Binding)
    requires forall i :: 0 <= i < |kinds| ==> kinds[i] !in kinds[..i]
    ensures var promoted := Unpromoted(kinds, v, b.promoted);
            && f == NotedAll(flow, NotesFor(promoted, v, generation, env.at), env.config.limits)
            && p == b.(promoted := b.promoted + KindSet(promoted))
  {
    hide Noted, NotedAll, NotesFor, Unpromoted, PromotionNote;
    f, p := flow, b;
    PromoteNone(v, flow, b, generation, env);
    for i := 0 to |kinds|
      invariant f == NotedAll(flow, NotesFor(Unpromoted(kinds[..i], v, b.promoted), v, generation, env.at), env.config.limits)
      invariant p == b.(promoted := b.promoted + KindSet(Unpromoted(kinds[..i], v, b.promoted)))
    {
      var k := kinds[i];
      var before := Unpromoted(kinds[..i], v, b.promoted);
      PromoteOne(kinds, i, v, b);
      if Fold.AnomalyCount(v.evidence.anomalies, k) != 0 && k !in p.promoted {
        NotesForOne(before, k, v, generation, env.at);
        NotedOne(flow, NotesFor(before, v, generation, env.at), PromotionNote(k, v, generation, env.at), env.config.limits);
        p := p.(promoted := p.promoted + {k});
        f := Noted(f, PromotionNote(k, v, generation, env.at), env.config.limits);
      }
    }
    assert kinds[..|kinds|] == kinds;
  }

  lemma PromoteNone(v: SourceView, flow: Flow, b: Binding, generation: u64, env: Env)
    ensures Unpromoted([], v, b.promoted) == [] && KindSet([]) == {} && NotesFor([], v, generation, env.at) == []
    ensures NotedAll(flow, [], env.config.limits) == flow
  {
  }

  method PromoteAll(flow: Flow, g: Generation, env: Env) returns (f: Flow, bindings: seq<Binding>)
    ensures f == NotedAll(flow, AllPromotionNotes(g.bindings, g.id, env), env.config.limits)
    ensures bindings == PromotedBindings(g.bindings, env)
  {
    hide PromotionNotes;
    hide PromotedBinding;
    hide Noted;
    f, bindings := flow, [];
    for i := 0 to |g.bindings|
      invariant f == NotedAll(flow, AllPromotionNotes(g.bindings[..i], g.id, env), env.config.limits)
      invariant bindings == PromotedBindings(g.bindings[..i], env)
    {
      assert g.bindings[..i + 1][..i] == g.bindings[..i];
      NotedConcat(flow, AllPromotionNotes(g.bindings[..i], g.id, env), PromotionNotes(g.bindings[i], g.id, env), env.config.limits);
      var p: Binding;
      f, p := PromoteBinding(f, g.bindings[i], g.id, env);
      bindings := bindings + [p];
    }
    assert g.bindings[..|g.bindings|] == g.bindings;
  }

  method NoteRefusals(flow: Flow, s: seq<SourceView>, env: Env) returns (f: Flow)
    ensures f == NotedAll(flow, RefusalNotes(s, env.at), env.config.limits)
  {
    hide Noted;
    hide Refusable;
    f := flow;
    for i := 0 to |s|
      invariant f == NotedAll(flow, RefusalNotes(s[..i], env.at), env.config.limits)
    {
      assert s[..i + 1][..i] == s[..i];
      if Refusable(s[i]) {
        var note := Anomaly(CapabilityUnsupported, env.at, 0, 0, 0);
        NotedOne(flow, RefusalNotes(s[..i], env.at), note, env.config.limits);
        f := Noted(f, note, env.config.limits);
      }
    }
    assert s[..|s|] == s;
  }

  lemma {:induction false} NotedKeeps(flow: Flow, notes: seq<Anomaly>, limits: Limits)
    ensures var f := NotedAll(flow, notes, limits);
            f == flow.(anomalies := f.anomalies, anomaliesDropped := f.anomaliesDropped)
  {
    if notes != [] {
      NotedKeeps(flow, notes[..|notes| - 1], limits);
    }
  }

  /** Moves a generation to its decided state and records the transition, if there is one. */
  method Transition(flow: Flow, g: Generation, d: Decision, observedAt: i64, env: Env)
    returns (f: Flow, next: Generation, event: Option<Event>)
    ensures event.Some? <==> d.state != g.state || d.cause != g.cause
    ensures next == g.(state := d.state, cause := d.cause, closedAt := if event.Some? && IsTerminal(d.state) then env.at else g.closedAt)
    ensures event.Some? ==> event.value == Event(env.at, observedAt, g.id, g.state, d.state, d.cause,
                                                 if g.bindings == [] then 0 else g.bindings[0].source)
    ensures f == if event.None? then flow
                 else flow.(history := History.Newest(flow.history + [event.value], env.config.limits.maxHistory), stateChangedAt := env.at)
  {
    f, next, event := flow, g, None;
    if d.state == g.state && d.cause == g.cause {
      return;
    }
    var source := if g.bindings == [] then 0 else g.bindings[0].source;
    var e := Event(env.at, observedAt, g.id, g.state, d.state, d.cause, source);
    f := f.(history := History.Newest(f.history + [e], env.config.limits.maxHistory));
    next := next.(state := d.state, cause := d.cause);
    if IsTerminal(d.state) {
      next := next.(closedAt := env.at);
    }
    f := f.(stateChangedAt := env.at);
    event := Some(e);
  }

  method DecideGeneration(g: Generation, env: Env) returns (s: seq<SourceView>, decision: Decision, next: Generation)
    ensures s == SortViews(Views(g.bindings, env)) && decision == DecisionFor(g, env)
    ensures next == g.(coverage := CoverageOf(Independent(s)), timing := TimingOf(s),
                       endpointA := AttachedOf(s, QueueBudget(|s|)).endpointA, endpointB := AttachedOf(s, QueueBudget(|s|)).endpointB)
  {
    hide Views, SortViews, Decide, Verdict, TimingOf, AttachedOf, CoverageOf, Usable, Independent, Judges, TotalsFor, Count, Classified, FirstKnownFreshness;
    var views := CollectViews(g.bindings, env);
    var view := ReconcileGeneration(views, env.config.reconciliation);
    s := view.sources;
    decision := Decide(FindingsOf(view), g.state, env.config.expiry, env.now);
    JudgedVerdict(Usable(s), env.config.reconciliation, view.judgement);
    assert FindingsOf(view) == GenerationFindings(g, env);
    if decision.cause == NoCause {
      decision := decision.(cause := g.cause);
    }
    next := g.(coverage := view.coverage, endpointA := view.attached.endpointA,
               endpointB := view.attached.endpointB, timing := view.timing);
  }

  method SettleGeneration(flow: Flow, i: nat, env: Env) returns (f: Flow, event: Option<Event>)
    requires i < |flow.generations|
    ensures f == StepGeneration(flow, i, env)
    ensures event == if Transitions(flow.generations[i], env) then Some(EventOf(flow.generations[i], env)) else None
  {
    hide NotedAll, Views, SortViews, DecisionFor, TimingOf, AttachedOf, CoverageOf, AllPromotionNotes, RefusalNotes, Independent, History.Newest;
    var g := flow.generations[i];
    var s, decision, next := DecideGeneration(g, env);
    var noted, bindings := PromoteAll(flow, g, env);
    NotedConcat(flow, AllPromotionNotes(g.bindings, g.id, env), RefusalNotes(s, env.at), env.config.limits);
    noted := NoteRefusals(noted, s, env);
    NotedKeeps(flow, NotesOf(g, env), env.config.limits);
    next := next.(bindings := bindings);
    f, next, event := Transition(noted, next, decision, next.timing.lastObserved, env);
    f := f.(generations := f.generations[i := next]);
  }

  lemma JudgedVerdict(usable: seq<SourceView>, policy: Policy, j: Judgement)
    requires Judges(usable, policy, j)
    ensures j.unresolved == (Verdict(usable, policy) == Conflict)
  {
  }

  /** The transitions of one recomputation, generation by generation. */
  function EventsOf(flow: Flow, n: nat, env: Env): seq<Event>
    requires n <= |flow.generations|
  {
    if n == 0 then []
    else
      var g := flow.generations[n - 1];
      EventsOf(flow, n - 1, env) + (if Transitions(g, env) then [EventOf(g, env)] else [])
  }

  method RollUpFlow(gs: seq<Generation>) returns (coverage: Fold.Coverage, timing: Timing)
    ensures coverage == CoverageUnion(gs) && timing == TimingUnion(gs)
  {
    hide Merged, JoinTiming;
    coverage, timing := NO_COVERAGE, NO_TIMING;
    for i := 0 to |gs|
      invariant coverage == CoverageUnion(gs[..i]) && timing == TimingUnion(gs[..i])
    {
      assert gs[..i + 1][..i] == gs[..i];
      coverage := Merged(coverage, gs[i].coverage);
      timing := JoinTiming(timing, gs[i].timing);
    }
    assert gs[..|gs|] == gs;
  }

  method CurrentReconfirmed(gs: seq<Generation>, current: u64) returns (r: bool)
    ensures r <==> exists j :: 0 <= j < |gs| && gs[j].id == current && Reconfirmed(gs[j].bindings)
  {
    r := false;
    for i := 0 to |gs|
      invariant r <==> exists j :: 0 <= j < i && gs[j].id == current && Reconfirmed(gs[j].bindings)
    {
      if gs[i].id == current {
        var heard := AnyReconfirmed(gs[i].bindings);
        r := r || heard;
      }
    }
  }

  method FinishFlow(flow: Flow) returns (f: Flow)
    ensures f == Finished(flow)
  {
    var coverage, timing := RollUpFlow(flow.generations);
    f := flow.(coverage := coverage, timing := timing);
    var index := IndexOf(f.generations, f.current);
    if index == |f.generations| && f.generations != [] {
      index := |f.generations| - 1;
      f := f.(current := f.generations[index].id);
    }
    if index < |f.generations| {
      f := f.(state := f.generations[index].state, cause := f.generations[index].cause);
    }
    var reconfirmed := CurrentReconfirmed(f.generations, f.current);
    f := f.(restored := !reconfirmed && f.generations != []);
  }

  method AnyReconfirmed(bindings: seq<Binding>) returns (r: bool)
    ensures r == Reconfirmed(bindings)
  {
    for i := 0 to |bindings|
      invariant forall j :: 0 <= j < i ==> !bindings[j].reconfirmed
    {
      if bindings[i].reconfirmed {
        return true;
      }
    }
    return false;
  }

  lemma {:induction false} LaterUntouched(flow: Flow, n: nat, env: Env)
    requires n <= |flow.generations|
    ensures var r := AfterGenerations(flow, n, env);
            && (forall i :: n <= i < |flow.generations| ==> r.generations[i] == flow.generations[i])
            && (forall i :: 0 <= i < n ==> r.generations[i] == Settled(flow.generations[i], env))
            && r.id == flow.id && r.key == flow.key && r.current == flow.current && r.restored == flow.restored
            && r.collisions == flow.collisions && r.revision == flow.revision && r.lastTouched == flow.lastTouched
            && r.state == flow.state && r.cause == flow.cause && r.coverage == flow.coverage && r.timing == flow.timing
  {
    hide Settled, NotesOf, Transitions, EventOf, NotedAll;
    if n > 0 {
      LaterUntouched(flow, n - 1, env);
      var before := AfterGenerations(flow, n - 1, env);
      NotedKeeps(before, NotesOf(before.generations[n - 1], env), env.config.limits);
    }
  }

  /** The first `i` generations have been settled. */
  ghost predicate Recomputing(flow: Flow, env: Env, i: nat, f: Flow, events: seq<Event>) {
    && i <= |flow.generations| == |f.generations|
    && f == AfterGenerations(flow, i, env) && events == EventsOf(flow, i, env)
  }

  lemma RecomputingStarts(flow: Flow, env: Env)
    ensures Recomputing(flow, env, 0, flow, [])
  {
  }

  lemma RecomputingStep(flow: Flow, env: Env, i: nat, f: Flow, events: seq<Event>, event: Option<Event>)
    requires Recomputing(flow, env, i, f, events) && i < |flow.generations|
    requires event == if Transitions(f.generations[i], env) then Some(EventOf(f.generations[i], env)) else None
    ensures Recomputing(flow, env, i + 1, StepGeneration(f, i, env), if event.Some? then events + [event.value] else events)
  {
    LaterUntouched(flow, i, env);
    hide StepGeneration, Transitions, EventOf;
  }

  lemma RecomputingEnds(flow: Flow, env: Env, f: Flow, events: seq<Event>)
    requires Recomputing(flow, env, |flow.generations|, f, events)
    ensures Finished(f) == Recomputed(flow, env) && events == EventsOf(flow, |flow.generations|, env)
  {
    hide Finished, AfterGenerations;
  }

  /** Settles one more generation of the flow. */
  method RecomputeNext(flow: Flow, env: Env, i: nat, before: Flow, recorded: seq<Event>) returns (f: Flow, events: seq<Event>)
    requires Recomputing(flow, env, i, before, recorded) && i < |flow.generations|
    ensures Recomputing(flow, env, i + 1, f, events)
  {
    var event;
    f, event := SettleGeneration(before, i, env);
    RecomputingStep(flow, env, i, before, recorded, event);
    events := if event.Some? then recorded + [event.value] else recorded;
  }

  method SettleGenerations(flow: Flow, env: Env) returns (f: Flow, events: seq<Event>)
    ensures Recomputing(flow, env, |flow.generations|, f, events)
  {
    RecomputingStarts(flow, env);
    hide Recomputing;
    f, events := flow, [];
    for i := 0 to |flow.generations|
      invariant Recomputing(flow, env, i, f, events)
    {
      f, events := RecomputeNext(flow, env, i, f, events);
    }
  }

  /** The runtime recomputes every generation of the flow, then the flow's own summary. */
  method RecomputeFlow(flow: Flow, env: Env) returns (f: Flow, events: seq<Event>)
    ensures f == Recomputed(flow, env)
    ensures events == EventsOf(flow, |flow.generations|, env)
  {
    hide Recomputing, Recomputed, Finished, EventsOf;
    f, events := SettleGenerations(flow, env);
    RecomputingEnds(flow, env, f, events);
    f := FinishFlow(f);
  }

  // ---- evaluation is a fixpoint ----------------------------------------------------------------

  /** A view does not depend on what has been promoted. */
  lemma {:induction false} PromotionInvisible(bindings: seq<Binding>, env: Env)
    ensures Views(PromotedBindings(bindings, env), env) == Views(bindings, env)
  {
    hide Fold.AnomalyCount, Ledger.FoldedEvidence, Classify, Unpromoted;
    if bindings != [] {
      var front := bindings[..|bindings| - 1];
      PromotionInvisible(front, env);
      assert PromotedBindings(bindings, env)[..|bindings| - 1] == PromotedBindings(front, env);
    }
  }

  lemma ViewIgnoresPromotion(b: Binding, promoted: set<AnomalyKind>, d: Descriptor, env: Env)
    ensures ViewOf(b.(promoted := promoted), d, env) == ViewOf(b, d, env)
  {
  }

  lemma {:induction false} NothingUnpromoted(kinds: seq<AnomalyKind>, v: SourceView, promoted: set<AnomalyKind>)
    requires forall k :: k in kinds && Fold.AnomalyCount(v.evidence.anomalies, k) != 0 ==> k in promoted
    ensures Unpromoted(kinds, v, promoted) == []
  {
    if kinds != [] {
      NothingUnpromoted(kinds[..|kinds| - 1], v, promoted);
      assert kinds[|kinds| - 1] in kinds;
    }
  }

  lemma PromotedTwice(b: Binding, generation: u64, env: Env)
    ensures PromotedBinding(PromotedBinding(b, env), env) == PromotedBinding(b, env)
    ensures PromotionNotes(PromotedBinding(b, env), generation, env) == []
  {
    if b.source in env.sources {
      var d := env.sources[b.source].descriptor;
      var v := ViewOf(b, d, env);
      var kinds := Unpromoted(ALL_ANOMALIES, v, b.promoted);
      var rest := Unpromoted(ALL_ANOMALIES, v, b.promoted + KindSet(kinds));
      ViewIgnoresPromotion(b, b.promoted + KindSet(kinds), d, env);
      UnpromotedElements(ALL_ANOMALIES, v, b.promoted);
      hide ViewOf;
      NothingUnpromoted(ALL_ANOMALIES, v, b.promoted + KindSet(kinds));
      hide Unpromoted;
      assert KindSet(rest) == {};
    }
  }

  lemma {:induction false} PromotedAllTwice(bindings: seq<Binding>, generation: u64, env: Env)
    ensures PromotedBindings(PromotedBindings(bindings, env), env) == PromotedBindings(bindings, env)
    ensures AllPromotionNotes(PromotedBindings(bindings, env), generation, env) == []
  {
    hide PromotedBinding, PromotionNotes;
    if bindings != [] {
      var front, last := bindings[..|bindings| - 1], bindings[|bindings| - 1];
      PromotedAllTwice(front, generation, env);
      PromotedTwice(last, generation, env);
      assert PromotedBindings(bindings, env)[..|bindings| - 1] == PromotedBindings(front, env);
    }
  }

  /** A settled generation stays as it is: no transition, no new cause, no new promotion. */
  lemma SettledIsStable(g: Generation, env: Env)
    ensures Settled(Settled(g, env), env) == Settled(g, env)
    ensures !Transitions(Settled(g, env), env)
    ensures NotesOf(Settled(g, env), env) == RefusalNotes(SortViews(Views(g.bindings, env)), env.at)
  {
    hide Views, SortViews, FindingsFor, Decide, TimingOf, AttachedOf, CoverageOf, Independent, AllPromotionNotes, RefusalNotes, PromotedBindings;
    PromotionInvisible(g.bindings, env);
    PromotedAllTwice(g.bindings, g.id, env);
    DecisionIsStable(GenerationFindings(g, env), g.state, env.config.expiry, env.now);
    assert [] + RefusalNotes(SortViews(Views(g.bindings, env)), env.at) == RefusalNotes(SortViews(Views(g.bindings, env)), env.at);
  }

  /** Nothing about a flow but its anomaly list and the count of what that list lost. */
  predicate SameButAnomalies(a: Flow, b: Flow) {
    a == b.(anomalies := a.anomalies, anomaliesDropped := a.anomaliesDropped)
  }

  predicate AllSettled(flow: Flow, env: Env) {
    forall i :: 0 <= i < |flow.generations| ==>
      Settled(flow.generations[i], env) == flow.generations[i] && !Transitions(flow.generations[i], env)
  }

  lemma {:induction false} SettledFlowStays(flow: Flow, n: nat, env: Env)
    requires n <= |flow.generations| && AllSettled(flow, env)
    ensures SameButAnomalies(AfterGenerations(flow, n, env), flow)
    ensures (forall i :: 0 <= i < n ==> NotesOf(flow.generations[i], env) == []) ==> AfterGenerations(flow, n, env) == flow
  {
    hide Settled, Transitions, NotesOf, EventOf, NotedAll;
    if n > 0 {
      SettledFlowStays(flow, n - 1, env);
      var before := AfterGenerations(flow, n - 1, env);
      NotedKeeps(before, NotesOf(before.generations[n - 1], env), env.config.limits);
      assert before.generations[n - 1 := before.generations[n - 1]] == before.generations;
      NotedNothing(before, env.config.limits);
    }
  }

  lemma NotedNothing(flow: Flow, limits: Limits)
    ensures NotedAll(flow, [], limits) == flow
  {
  }

  lemma {:induction false} NoEvents(flow: Flow, n: nat, env: Env)
    requires n <= |flow.generations| && AllSettled(flow, env)
    ensures EventsOf(flow, n, env) == []
  {
    hide Settled, Transitions, EventOf;
    if n > 0 {
      NoEvents(flow, n - 1, env);
    }
  }

  lemma FinishedTwice(flow: Flow, again: Flow)
    requires SameButAnomalies(again, Finished(flow)) && SortedGenerations(flow.generations)
    ensures SameButAnomalies(Finished(again), Finished(flow))
    ensures again == Finished(flow) ==> Finished(again) == Finished(flow)
  {
    hide CoverageUnion, TimingUnion, Reconfirmed;
  }

  /** Is some trusted source of this flow declaring an end it is not entitled to declare? */
  predicate RefusesSomething(flow: Flow, env: Env) {
    exists i :: 0 <= i < |flow.generations| && RefusalNotes(SortViews(Views(flow.generations[i].bindings, env)), env.at) != []
  }

  /** Once evaluated, every generation is settled and still sees what it saw. */
  lemma OnceIsSettled(flow: Flow, env: Env)
    requires SortedGenerations(flow.generations)
    ensures var once := Recomputed(flow, env);
            && AllSettled(once, env) && |once.generations| == |flow.generations|
            && forall i :: 0 <= i < |flow.generations| ==>
                 && Views(once.generations[i].bindings, env) == Views(flow.generations[i].bindings, env)
                 && NotesOf(once.generations[i], env) == RefusalNotes(SortViews(Views(once.generations[i].bindings, env)), env.at)
  {
    hide Settled, Transitions, NotesOf, Views, SortViews, RefusalNotes, StepGeneration, Finished;
    LaterUntouched(flow, |flow.generations|, env);
    FinishedKeepsGenerations(AfterGenerations(flow, |flow.generations|, env));
    var once := Recomputed(flow, env);
    forall i | 0 <= i < |flow.generations|
      ensures Settled(once.generations[i], env) == once.generations[i] && !Transitions(once.generations[i], env)
      ensures Views(once.generations[i].bindings, env) == Views(flow.generations[i].bindings, env)
      ensures NotesOf(once.generations[i], env) == RefusalNotes(SortViews(Views(once.generations[i].bindings, env)), env.at)
    {
      SettledIsStable(flow.generations[i], env);
      PromotionKeepsViews(flow.generations[i], env);
    }
  }

  lemma PromotionKeepsViews(g: Generation, env: Env)
    ensures Views(Settled(g, env).bindings, env) == Views(g.bindings, env)
  {
    hide Views, SortViews, TimingOf, AttachedOf, CoverageOf, Independent, DecisionFor, Transitions, PromotedBindings;
    PromotionInvisible(g.bindings, env);
  }

  /**
   * Evaluating again at the same instant, with nothing in between, changes nothing but the list of anomalies:
   * no state, cause, closing time or history entry. The list changes only by repeating refused declarations.
   */
  lemma EvaluationIsFixpoint(flow: Flow, env: Env)
    requires SortedGenerations(flow.generations)
    ensures var once := Recomputed(flow, env);
            && SameButAnomalies(Recomputed(once, env), once)
            && EventsOf(once, |once.generations|, env) == []
            && (!RefusesSomething(flow, env) ==> Recomputed(once, env) == once)
  {
    hide Settled, Transitions, EventOf, NotesOf, Views, SortViews, RefusalNotes, StepGeneration, Finished;
    SettledKeepsOrder(flow, env);
    var settled := AfterGenerations(flow, |flow.generations|, env);
    var once := Recomputed(flow, env);
    OnceIsSettled(flow, env);
    FinishedKeepsGenerations(settled);
    SettledFlowStays(once, |once.generations|, env);
    NoEvents(once, |once.generations|, env);
    FinishedTwice(settled, AfterGenerations(once, |once.generations|, env));
  }

  // ---- exactly when a second evaluation changes the anomalies ------------------------------------------

  /** How many refused declarations one evaluation notes. */
  function RefusalCount(gs: seq<Generation>, env: Env): nat {
    if gs == [] then 0
    else RefusalCount(gs[..|gs| - 1], env) + |RefusalNotes(SortViews(Views(gs[|gs| - 1].bindings, env)), env.at)|
  }

  /** Everything noted so far, kept or lost, modulo the 64-bit count of what was lost. */
  function NotedSoFar(flow: Flow): u64 {
    Wrap64(|flow.anomalies| + flow.anomaliesDropped)
  }

  lemma WrapAdds(n: nat, more: nat)
    ensures Wrap64(Wrap64(n) + more) == Wrap64(n + more)
    ensures 0 < more <= U64_MAX ==> Wrap64(n + more) != Wrap64(n)
  {
  }

  lemma WrapInc(k: nat, d: u64)
    ensures Wrap64(k + Inc64(d)) == Wrap64(k + d + 1)
  {
  }

  lemma NotedCounts(flow: Flow, a: Anomaly, limits: Limits)
    ensures NotedSoFar(Noted(flow, a, limits)) == Wrap64(NotedSoFar(flow) + 1)
  {
    hide Wrap64, Inc64;
    WrapAdds(|flow.anomalies| + flow.anomaliesDropped, 1);
    WrapInc(|flow.anomalies|, flow.anomaliesDropped);
  }

  lemma {:induction false} AllNotedCount(flow: Flow, notes: seq<Anomaly>, limits: Limits)
    ensures NotedSoFar(NotedAll(flow, notes, limits)) == Wrap64(NotedSoFar(flow) + |notes|)
  {
    hide Noted, Wrap64;
    if notes == [] {
      WrapAdds(|flow.anomalies| + flow.anomaliesDropped, 0);
    } else {
      var front := notes[..|notes| - 1];
      AllNotedCount(flow, front, limits);
      NotedCounts(NotedAll(flow, front, limits), notes[|notes| - 1], limits);
      WrapAdds(NotedSoFar(flow) + |front|, 1);
    }
  }

  /** One settled generation, evaluated again. */
  lemma SettledStepNotes(flow: Flow, i: nat, env: Env)
    requires i < |flow.generations| && !Transitions(flow.generations[i], env)
    ensures NotedSoFar(StepGeneration(flow, i, env)) == Wrap64(NotedSoFar(flow) + |NotesOf(flow.generations[i], env)|)
  {
    hide Settled, Transitions, NotesOf, EventOf, NotedAll, Wrap64;
    AllNotedCount(flow, NotesOf(flow.generations[i], env), env.config.limits);
  }

  /** A settled flow evaluated again notes its refusals and nothing else. */
  lemma {:induction false} SettledNotes(flow: Flow, n: nat, env: Env)
    requires n <= |flow.generations| && AllSettled(flow, env)
    requires forall i :: 0 <= i < |flow.generations| ==>
               NotesOf(flow.generations[i], env) == RefusalNotes(SortViews(Views(flow.generations[i].bindings, env)), env.at)
    ensures NotedSoFar(AfterGenerations(flow, n, env)) == Wrap64(NotedSoFar(flow) + RefusalCount(flow.generations[..n], env))
  {
    hide Settled, Transitions, NotesOf, Wrap64, Views, SortViews, RefusalNotes, StepGeneration;
    if n == 0 {
      WrapAdds(|flow.anomalies| + flow.anomaliesDropped, 0);
    } else {
      SettledNotes(flow, n - 1, env);
      SettledFlowStays(flow, n - 1, env);
      SettledStepNotes(AfterGenerations(flow, n - 1, env), n - 1, env);
      assert flow.generations[..n][..n - 1] == flow.generations[..n - 1];
      WrapAdds(NotedSoFar(flow) + RefusalCount(flow.generations[..n - 1], env), |NotesOf(flow.generations[n - 1], env)|);
    }
  }

  lemma {:induction false} RefusalCountIff(gs: seq<Generation>, env: Env)
    ensures RefusalCount(gs, env) > 0
       <==> exists i :: 0 <= i < |gs| && RefusalNotes(SortViews(Views(gs[i].bindings, env)), env.at) != []
  {
    hide RefusalNotes, SortViews, Views;
    if gs != [] {
      var front := gs[..|gs| - 1];
      RefusalCountIff(front, env);
      if i :| 0 <= i < |gs| && RefusalNotes(SortViews(Views(gs[i].bindings, env)), env.at) != [] {
        assert i < |front| ==> front[i] == gs[i];
      }
      if i :| 0 <= i < |front| && RefusalNotes(SortViews(Views(front[i].bindings, env)), env.at) != [] {
        assert front[i] == gs[i];
      }
    }
  }

  lemma {:induction false} SameRefusals(a: seq<Generation>, b: seq<Generation>, env: Env)
    requires |a| == |b|
    requires forall i :: 0 <= i < |a| ==> Views(a[i].bindings, env) == Views(b[i].bindings, env)
    ensures RefusalCount(a, env) == RefusalCount(b, env)
  {
    hide RefusalNotes, SortViews, Views;
    if a != [] {
      SameRefusals(a[..|a| - 1], b[..|b| - 1], env);
    }
  }

  /**
   * A second evaluation at the same instant is a complete no-op exactly when no trusted source declares an end it
   * is not entitled to: each such declaration is noted again by every evaluation.
   */
  lemma SecondEvaluationIff(flow: Flow, env: Env)
    requires SortedGenerations(flow.generations) && RefusalCount(flow.generations, env) <= U64_MAX
    ensures Recomputed(Recomputed(flow, env), env) == Recomputed(flow, env) <==> !RefusesSomething(flow, env)
  {
    hide Recomputed, Wrap64, RefusalCount, SortedGenerations;
    RefusalCountIff(flow.generations, env);
    assert RefusesSomething(flow, env) <==> RefusalCount(flow.generations, env) > 0;
    hide RefusesSomething;
    if RefusesSomething(flow, env) {
      var once := Recomputed(flow, env);
      SecondEvaluationNotes(flow, env);
      WrapAdds(|once.anomalies| + once.anomaliesDropped, RefusalCount(flow.generations, env));
      hide SameButAnomalies;
    } else {
      NothingRefusedFixpoint(flow, env);
    }
  }

  lemma NothingRefusedFixpoint(flow: Flow, env: Env)
    requires SortedGenerations(flow.generations) && !RefusesSomething(flow, env)
    ensures Recomputed(Recomputed(flow, env), env) == Recomputed(flow, env)
  {
    hide Recomputed, RefusesSomething, SameButAnomalies, EventsOf, SortedGenerations;
    EvaluationIsFixpoint(flow, env);
  }

  /** What a second evaluation notes. */
  lemma SecondEvaluationNotes(flow: Flow, env: Env)
    requires SortedGenerations(flow.generations)
    ensures var once := Recomputed(flow, env);
            NotedSoFar(Recomputed(once, env)) == Wrap64(NotedSoFar(once) + RefusalCount(flow.generations, env))
  {
    hide NotesOf, Views, SortViews, RefusalNotes, Wrap64, Recomputed, AfterGenerations, AllSettled, NotedSoFar, RefusalCount;
    hide SortedGenerations;
    var once := Recomputed(flow, env);
    OnceIsSettled(flow, env);
    SameRefusals(once.generations, flow.generations, env);
    assert once.generations[..|once.generations|] == once.generations;
    SettledNotes(once, |once.generations|, env);
    RecomputedNotes(once, env);
  }

  lemma RecomputedNotes(flow: Flow, env: Env)
    ensures NotedSoFar(Recomputed(flow, env)) == NotedSoFar(AfterGenerations(flow, |flow.generations|, env))
  {
    hide Finished, AfterGenerations;
    FinishedKeepsNotes(AfterGenerations(flow, |flow.generations|, env));
  }

  lemma FinishedKeepsNotes(flow: Flow)
    ensures Finished(flow).anomalies == flow.anomalies && Finished(flow).anomaliesDropped == flow.anomaliesDropped
  {
    hide CoverageUnion, TimingUnion, Reconfirmed;
  }

  lemma SettledKeepsOrder(flow: Flow, env: Env)
    requires SortedGenerations(flow.generations)
    ensures SortedGenerations(AfterGenerations(flow, |flow.generations|, env).generations)
  {
    hide AfterGenerations, DecisionFor, Transitions, Views, SortViews;
    LaterUntouched(flow, |flow.generations|, env);
  }

  lemma FinishedKeepsGenerations(flow: Flow)
    ensures Finished(flow).generations == flow.generations
  {
  }
}
