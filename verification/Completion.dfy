/** What completing a generation takes, down to the evidence in the ledger. */
module Completion {
  import opened Checked
  import opened Evidence
  import opened Fold
  import opened Ledger
  import opened LedgerRefinement
  import opened Lifecycle
  import FoldMeaning

  /** The end declared after more evidence: the first declaration stays. */
  function DeclaredAfter(declared: Option<FlowState>, obs: seq<Observation>): Option<FlowState> {
    if obs == [] then declared
    else
      var before := DeclaredAfter(declared, obs[..|obs| - 1]);
      var k := obs[|obs| - 1].kind;
      if before.None? && DeclaresTerminal(k) then Some(FoldMeaning.DeclaredBy(k)) else before
  }

  /** Some end is declared, or nothing is. */
  predicate EndOrNothing(declared: Option<FlowState>) {
    declared.Some? ==> IsTerminal(declared.value)
  }

  /** The counter policy decides nothing about the end a source has declared. */
  lemma {:induction false} DeclarationIgnoresPolicy(s: State, obs: seq<Observation>, policy: CounterPolicy)
    requires EndOrNothing(s.declaredTerminal)
    ensures FoldAll(s, obs, policy).declaredTerminal == DeclaredAfter(s.declaredTerminal, obs)
    ensures EndOrNothing(FoldAll(s, obs, policy).declaredTerminal)
  {
    hide Step;
    if obs != [] {
      var front, o := obs[..|obs| - 1], obs[|obs| - 1];
      DeclarationIgnoresPolicy(s, front, policy);
      var before := FoldAll(s, front, policy);
      FoldMeaning.StepOnFence(before, o, policy);
      if Ended(before) {
        FoldMeaning.StepAfterEnd(before, o, policy);
      }
    }
  }

  lemma {:induction false} DeclaredConcat(declared: Option<FlowState>, a: seq<Observation>, b: seq<Observation>)
    ensures DeclaredAfter(declared, a + b) == DeclaredAfter(DeclaredAfter(declared, a), b)
  {
    if b == [] {
      assert a + b == a;
    } else {
      assert (a + b)[..|a + b| - 1] == a + b[..|b| - 1];
      DeclaredConcat(declared, a, b[..|b| - 1]);
    }
  }

  /**
   * Whatever policy a view is folded under and however much of the ledger has been compacted, the source
   * declares Completed exactly when the first Close or Reset of everything it holds or held is a Close.
   */
  lemma CompletedMeansClosedFirst(l: Ledger, folded: seq<Observation>, policy: CounterPolicy)
    requires Inv(l, EMPTY_PREFIX, folded)
    ensures FoldedEvidence(l, policy).declaredTerminal == Some(Completed) <==> ClosedFirst(History(l, folded))
  {
    AbsorbAllFacts(EMPTY_PREFIX, folded, l.policy);
    DeclarationIgnoresPolicy(INITIAL, folded, l.policy);
    DeclarationIgnoresPolicy(l.prefix.state, l.entries, policy);
    DeclaredConcat(None, folded, l.entries);
    DeclarationIgnoresPolicy(INITIAL, History(l, folded), policy);
    DeclaredCompletedIff(History(l, folded), policy);
    hide Inv, FoldAll, DeclaredAfter, ClosedFirst;
  }
}
