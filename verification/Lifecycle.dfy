/** The state a generation is in, decided from its reconciled view. */
module Lifecycle {
  import opened Checked
  import opened Evidence
  import opened Reconcile
  import Fold
  import FoldMeaning

  datatype ExpiryPolicy = ExpiryPolicy(enabled: bool, idleAfter: i64, expireAfter: i64)

  /** What a decision looks at in a reconciled view. */
  datatype Findings = Findings(sources: seq<SourceView>, unresolved: bool, timing: Timing)

  function FindingsOf(view: GenerationView): Findings {
    Findings(view.sources, view.judgement.unresolved, view.timing)
  }

  /** The decided state; NoCause means that the previous cause still stands. */
  datatype Decision = Decision(state: FlowState, cause: StateCause)

  /** May this source declare the end it declared? */
  predicate Entitled(v: SourceView) {
    && !v.advisoryOnly
    && ((v.evidence.declaredTerminal == Some(Completed) && v.capabilities.completion)
        || (v.evidence.declaredTerminal == Some(Reset) && v.capabilities.reset))
  }

  /** The first declaration, in authority order, by a source entitled to make it. */
  function FirstEntitled(s: seq<SourceView>): Option<FlowState> {
    if s == [] then None
    else if Entitled(s[0]) then s[0].evidence.declaredTerminal
    else FirstEntitled(s[1..])
  }

  predicate Older(now: i64, at: i64, limit: i64) {
    at != 0 && now != 0 && TimeDifference(now, at) > limit
  }

  /** No source is trustworthy now. */
  function DecideWithoutEvidence(f: Findings, previous: FlowState, expiry: ExpiryPolicy, now: i64): Decision {
    var restored := exists v :: v in f.sources && v.restored;
    var aged := Older(now, f.timing.lastObserved, expiry.expireAfter);
    if restored && expiry.enabled then
      if aged then Decision(Expired, ExpiryPolicyCause) else Decision(Observed, RecoveredFromJournal)
    else if expiry.enabled && aged then Decision(Expired, ExpiryPolicyCause)
    else if expiry.enabled && previous == Active && Older(now, f.timing.lastProgress, expiry.idleAfter) then
      Decision(Idle, IdleThresholdReached)
    else if previous == Unknown then Decision(Observed, FirstObservation)
    else Decision(previous, NoCause)
  }

  function LatestProgress(usable: seq<SourceView>, t: i64): i64 {
    if usable == [] then t
    else LatestProgress(usable[1..], if usable[0].evidence.lastProgress > t then usable[0].evidence.lastProgress else t)
  }

  function DecideOnEvidence(f: Findings, usable: seq<SourceView>, expiry: ExpiryPolicy, now: i64): Decision {
    if !(exists v :: v in usable && v.evidence.observedProgress) then Decision(Observed, FirstObservation)
    else if expiry.enabled && Older(now, LatestProgress(usable, f.timing.lastProgress), expiry.idleAfter) then
      Decision(Idle, IdleThresholdReached)
    else Decision(Active, ProgressObserved)
  }

  function Decide(f: Findings, previous: FlowState, expiry: ExpiryPolicy, now: i64): Decision {
    if IsTerminal(previous) then Decision(previous, NoCause)
    else if f.unresolved then Decision(Conflicting, AuthorityConflict)
    else
      var declared := FirstEntitled(f.sources);
      if declared == Some(Completed) then Decision(Completed, CompletionObserved)
      else if declared == Some(Reset) then Decision(Reset, ResetObserved)
      else
        var usable := Usable(f.sources);
        if usable == [] then DecideWithoutEvidence(f, previous, expiry, now)
        else DecideOnEvidence(f, usable, expiry, now)
  }

  // ---- what a decision can be -----------------------------------------------------------

  lemma {:induction false} FirstEntitledMeans(s: seq<SourceView>)
    ensures var d := FirstEntitled(s);
            && (d.None? <==> forall v :: v in s ==> !Entitled(v))
            && (d.Some? ==> exists k: nat :: k < |s| && Entitled(s[k]) && s[k].evidence.declaredTerminal == d
                                             && forall j :: 0 <= j < k ==> !Entitled(s[j]))
            && (d.Some? ==> d.value == Completed || d.value == Reset)
  {
    if s != [] {
      FirstEntitledMeans(s[1..]);
      assert s == [s[0]] + s[1..];
      if Entitled(s[0]) {
        assert s[0] in s;
      } else if FirstEntitled(s).Some? {
        var k: nat :| k < |s[1..]| && Entitled(s[1..][k]) && s[1..][k].evidence.declaredTerminal == FirstEntitled(s)
                      && forall j :: 0 <= j < k ==> !Entitled(s[1..][j]);
        assert Entitled(s[k + 1]);
        forall j | 0 <= j < k + 1 ensures !Entitled(s[j]) {
          assert j > 0 ==> s[j] == s[1..][j - 1];
        }
      }
    }
  }

  /** Every decision about every view, by what it takes to reach it: the end states first. */
  lemma EndIsDecidedIff(f: Findings, previous: FlowState, expiry: ExpiryPolicy, now: i64)
    requires !IsTerminal(previous)
    ensures var d := Decide(f, previous, expiry, now);
            var declared := FirstEntitled(f.sources);
            && (d.state == Completed <==> !f.unresolved && declared == Some(Completed))
            && (d.state == Reset <==> !f.unresolved && declared == Some(Reset))
            && (d.state == Expired <==>
                  && !f.unresolved && declared.None? && Usable(f.sources) == []
                  && expiry.enabled && Older(now, f.timing.lastObserved, expiry.expireAfter))
  {
    FirstEntitledMeans(f.sources);
  }

  /** Nothing but an entitled source's own declaration completes a generation. */
  lemma CompletionNeedsEntitledSource(f: Findings, previous: FlowState, expiry: ExpiryPolicy, now: i64)
    returns (k: nat)
    requires previous != Completed && Decide(f, previous, expiry, now).state == Completed
    ensures k < |f.sources|
    ensures var v := f.sources[k];
            !v.advisoryOnly && v.capabilities.completion && v.evidence.declaredTerminal == Some(Completed)
  {
    FirstEntitledMeans(f.sources);
    k :| k < |f.sources| && Entitled(f.sources[k]) && f.sources[k].evidence.declaredTerminal == Some(Completed);
  }

  /** When some record declares an end, there is a first one. */
  lemma {:induction false} FirstDeclaration(obs: seq<Observation>) returns (first: nat)
    requires FoldMeaning.EndedBy(obs)
    ensures first < |obs| && DeclaresTerminal(obs[first].kind) && !FoldMeaning.EndedBy(obs[..first])
  {
    var front := obs[..|obs| - 1];
    assert obs == front + [obs[|obs| - 1]];
    FoldMeaning.EndedByAppend(front, obs[|obs| - 1]);
    if FoldMeaning.EndedBy(front) {
      first := FirstDeclaration(front);
      assert front[..first] == obs[..first];
    } else {
      first := |obs| - 1;
    }
  }

  lemma EndedOnce(obs: seq<Observation>, a: nat, b: nat)
    requires a < b <= |obs| && DeclaresTerminal(obs[a].kind)
    ensures FoldMeaning.EndedBy(obs[..b])
  {
    assert DeclaresTerminal(obs[..b][a].kind);
  }

  /** Is the first Close or Reset a Close? */
  predicate ClosedFirst(obs: seq<Observation>) {
    exists first: nat :: first < |obs| && obs[first].kind == KClose && !FoldMeaning.EndedBy(obs[..first])
  }

  lemma ClosedFirstIff(obs: seq<Observation>, first: nat)
    requires first < |obs| && DeclaresTerminal(obs[first].kind) && !FoldMeaning.EndedBy(obs[..first])
    ensures ClosedFirst(obs) <==> obs[first].kind == KClose
  {
    if ClosedFirst(obs) {
      var other: nat :| other < |obs| && obs[other].kind == KClose && !FoldMeaning.EndedBy(obs[..other]);
      hide FoldMeaning.EndedBy;
      if first < other {
        EndedOnce(obs, first, other);
      } else if other < first {
        EndedOnce(obs, other, first);
      }
    }
  }

  /**
   * A source's folded evidence declares Completed exactly when the first Close or Reset among everything it
   * was accepted with, in canonical order, is a Close.
   */
  lemma DeclaredCompletedIff(obs: seq<Observation>, policy: CounterPolicy)
    ensures Fold.FoldAll(Fold.INITIAL, obs, policy).declaredTerminal == Some(Completed) <==> ClosedFirst(obs)
  {
    hide Fold.FoldAll;
    FoldMeaning.FoldFence(obs, policy);
    if FoldMeaning.EndedBy(obs) {
      var first := FirstDeclaration(obs);
      FoldMeaning.FirstTerminalWins(obs, first, policy);
      ClosedFirstIff(obs, first);
    }
  }

  /**
   * Without trustworthy evidence nothing becomes active. What was active stays so exactly when nothing ends it
   * and expiry is switched off or finds neither restored evidence nor age: with expiry off, a generation
   * restored as active is still called active.
   */
  lemma StaysActiveIff(f: Findings, previous: FlowState, expiry: ExpiryPolicy, now: i64)
    requires Usable(f.sources) == []
    ensures Decide(f, previous, expiry, now).state == Active
       <==> && previous == Active && !f.unresolved && FirstEntitled(f.sources).None?
            && (expiry.enabled ==>
                  && (forall v :: v in f.sources ==> !v.restored)
                  && !Older(now, f.timing.lastObserved, expiry.expireAfter)
                  && !Older(now, f.timing.lastProgress, expiry.idleAfter))
  {
    FirstEntitledMeans(f.sources);
  }

  /** Exactly when a generation is held to be active on present evidence. */
  lemma ActiveOnEvidenceIff(f: Findings, previous: FlowState, expiry: ExpiryPolicy, now: i64)
    requires Usable(f.sources) != []
    ensures Decide(f, previous, expiry, now).state == Active
       <==> && !IsTerminal(previous) && !f.unresolved && FirstEntitled(f.sources).None?
            && (exists v :: v in f.sources && IsUsable(v) && v.evidence.observedProgress)
            && !(expiry.enabled && Older(now, LatestProgress(Usable(f.sources), f.timing.lastProgress), expiry.idleAfter))
  {
    FirstEntitledMeans(f.sources);
    UsableIsSubsequence(f.sources);
  }

  /** Deciding again on the same view, from the state just decided, decides the same. */
  lemma DecisionIsStable(f: Findings, previous: FlowState, expiry: ExpiryPolicy, now: i64)
    ensures var once := Decide(f, previous, expiry, now);
            var again := Decide(f, once.state, expiry, now);
            again.state == once.state && (again.cause == NoCause || again.cause == once.cause)
  {
    FirstEntitledMeans(f.sources);
  }
}
