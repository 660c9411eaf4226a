/** What a reconciled view means, independently of how it was computed. */
module ReconcileMeaning {
  import opened Checked
  import opened Evidence
  import opened Freshness
  import opened Reconcile
  import Counters
  import Fold

  // ---- input order is irrelevant --------------------------------------------------------

  lemma FirstUnique(usable: seq<SourceView>, policy: Policy, x: int, y: int, v: int, w: int)
    requires FirstDisagreement(usable, policy, x, y) && FirstDisagreement(usable, policy, v, w)
    ensures x == v && y == w
  {
  }

  lemma JudgesUnique(usable: seq<SourceView>, policy: Policy, a: Judgement, b: Judgement)
    requires Judges(usable, policy, a) && Judges(usable, policy, b)
    ensures a == b
  {
    hide Disagree;
    hide Verdict;
    if a.detail.Some? {
      var x, y :| FirstDisagreement(usable, policy, x, y) && a.detail.value == (usable[x], usable[y]);
      var v, w :| FirstDisagreement(usable, policy, v, w) && b.detail.value == (usable[v], usable[w]);
      FirstUnique(usable, policy, x, y, v, w);
    }
  }

  /** The view is a function of the set of source views: the order they are handed over in cannot be seen. */
  lemma InputOrderIsInvisible(a: seq<SourceView>, b: seq<SourceView>, policy: Policy, va: GenerationView, vb: GenerationView)
    requires DistinctSources(a) && multiset(a) == multiset(b)
    requires Reconciles(a, policy, va) && Reconciles(b, policy, vb)
    ensures va == vb
  {
    hide Judges;
    SortForgetsOrder(a, b);
    JudgesUnique(Usable(SortViews(a)), policy, va.judgement, vb.judgement);
  }

  // ---- the verdict ------------------------------------------------------------------------

  lemma UsableOfViews(views: seq<SourceView>)
    ensures var u := Usable(SortViews(views));
            && Ordered(u)
            && (forall v :: v in u <==> v in views && IsUsable(v))
            && (DistinctSources(views) ==> DistinctSources(u))
  {
    SortViewsSorts(views);
    SameElements(views, SortViews(views));
    UsableIsSubsequence(SortViews(views));
    if DistinctSources(views) {
      DistinctCarries(views, SortViews(views));
    }
  }

  /** The closed form of the consistency verdict, over the views as a set. */
  lemma VerdictClosedForm(views: seq<SourceView>, policy: Policy, view: GenerationView)
    requires DistinctSources(views) && Reconciles(views, policy, view)
    ensures view.judgement.consistency == Conflict <==> SomeDeadlock(views, policy)
    ensures view.judgement.consistency == Resolved <==> SomeDisagree(views, policy) && !SomeDeadlock(views, policy)
    ensures view.judgement.consistency == Corroborated <==> TwoUsable(views) && !SomeDisagree(views, policy)
    ensures view.judgement.unresolved <==> SomeDeadlock(views, policy)
  {
    hide Disagree;
    UsableOfViews(views);
    VerdictOfElements(views, Usable(SortViews(views)), policy);
    assert SomeDeadlock(views, policy) ==> SomeDisagree(views, policy);
    assert SomeDisagree(views, policy) ==> TwoUsable(views);
  }

  // ---- advisory sources ---------------------------------------------------------------------

  lemma IndependentElements(s: seq<SourceView>)
    ensures forall v :: v in Independent(s) <==> v in s && !v.advisoryOnly
  {
    if s != [] {
      IndependentElements(s[1..]);
      assert s == [s[0]] + s[1..];
    }
  }

  lemma {:induction false} InsertThenFilter(v: SourceView, s: seq<SourceView>)
    requires Ordered(s)
    ensures Independent(InsertView(v, s))
         == if v.advisoryOnly then Independent(s) else InsertView(v, Independent(s))
  {
    if s == [] {
    } else if !Ahead(s[0], v) {
      var rest := Independent(s);
      IndependentElements(s);
      if rest != [] {
        assert rest[0] in s;
        var k :| 0 <= k < |s| && s[k] == rest[0];
        if k > 0 {
          AheadOrder(v, s[0], rest[0]);
        }
      }
      assert ([v] + s)[1..] == s;
    } else {
      InsertThenFilter(v, s[1..]);
      assert ([s[0]] + InsertView(v, s[1..]))[1..] == InsertView(v, s[1..]);
      if s[0].advisoryOnly {
        assert Independent(s) == Independent(s[1..]);
      } else {
        assert Independent(s)[1..] == Independent(s[1..]);
      }
    }
  }

  lemma {:induction false} SortThenFilter(s: seq<SourceView>)
    ensures SortViews(Independent(s)) == Independent(SortViews(s))
  {
    if s != [] {
      SortThenFilter(s[1..]);
      SortViewsSorts(s[1..]);
      InsertThenFilter(s[0], SortViews(s[1..]));
      if s[0].advisoryOnly {
        assert Independent(s) == Independent(s[1..]);
      } else {
        assert Independent(s)[1..] == Independent(s[1..]);
      }
    }
  }

  lemma {:induction false} FilterTwice(s: seq<SourceView>)
    ensures Independent(Independent(s)) == Independent(s)
    ensures Usable(Independent(s)) == Usable(s)
  {
    if s != [] {
      FilterTwice(s[1..]);
      if s[0].advisoryOnly {
        assert Independent(s) == Independent(s[1..]);
      } else {
        assert Independent(s)[1..] == Independent(s[1..]);
      }
    }
  }

  /** Taking every advisory source away changes no coverage, number, primary or verdict. */
  lemma AdvisorySourcesHaveNoSay(views: seq<SourceView>, policy: Policy, view: GenerationView, without: GenerationView)
    requires Reconciles(views, policy, view) && Reconciles(Independent(views), policy, without)
    ensures view.coverage == without.coverage && view.visibility == without.visibility
    ensures view.primary == without.primary && view.totals == without.totals
    ensures view.judgement == without.judgement
  {
    hide Judges;
    hide CoverageOf;
    SortThenFilter(views);
    FilterTwice(SortViews(views));
    JudgesUnique(Usable(SortViews(views)), policy, view.judgement, without.judgement);
  }

  // ---- totals --------------------------------------------------------------------------------

  lemma {:induction false} LargestBounds(s: seq<SourceView>)
    requires s != []
    ensures forall v :: v in s ==> TotalsOf(v).bytes <= Largest(s).bytes && TotalsOf(v).packets <= Largest(s).packets
    ensures exists v :: v in s && TotalsOf(v).bytes == Largest(s).bytes
    ensures !Largest(s).saturated ==> forall v :: v in s ==> !TotalsOf(v).saturated
  {
    hide TotalsOf;
    if |s| > 1 {
      LargestBounds(s[..|s| - 1]);
      assert s == s[..|s| - 1] + [s[|s| - 1]];
      assert s[|s| - 1] in s && forall v :: v in s[..|s| - 1] ==> v in s;
    } else {
      assert s[0] in s;
    }
  }

  lemma {:induction false} SmallestBounds(s: seq<SourceView>)
    requires s != []
    ensures forall v :: v in s ==> Smallest(s).bytes <= TotalsOf(v).bytes && Smallest(s).packets <= TotalsOf(v).packets
    ensures exists v :: v in s && TotalsOf(v).bytes == Smallest(s).bytes
    ensures forall v :: v in s ==> TotalsOf(v).unknownIntervals <= Smallest(s).unknownIntervals
  {
    hide TotalsOf;
    if |s| > 1 {
      SmallestBounds(s[..|s| - 1]);
      assert s == s[..|s| - 1] + [s[|s| - 1]];
      assert s[|s| - 1] in s && forall v :: v in s[..|s| - 1] ==> v in s;
    } else {
      assert s[0] in s;
    }
  }

  /** The reported total is always what some usable source counted: the best placed one, the upper or the lower bound of all. */
  lemma TotalIsSomebodysCount(views: seq<SourceView>, policy: Policy, view: GenerationView)
    requires Reconciles(views, policy, view) && exists v :: v in views && IsUsable(v)
    ensures exists v :: v in views && IsUsable(v) && view.totals.total.bytes == TotalsOf(v).bytes
    ensures policy.rule == PrimaryAuthoritative ==>
              exists v :: v in views && IsUsable(v) && view.totals.total == TotalsOf(v)
                          && forall w :: w in views && IsUsable(w) ==> !Ahead(w, v)
    ensures policy.rule == MaximumObserved ==>
              forall v :: v in views && IsUsable(v) ==> TotalsOf(v).bytes <= view.totals.total.bytes
    ensures policy.rule == ConservativeMinimum ==>
              forall v :: v in views && IsUsable(v) ==> view.totals.total.bytes <= TotalsOf(v).bytes
  {
    hide TotalsOf;
    hide Judges;
    hide IsUsable;
    hide Ahead;
    UsableOfViews(views);
    var u := Usable(SortViews(views));
    var w :| w in views && IsUsable(w);
    assert w in u;
    assert u[0] in u;
    LargestBounds(u);
    SmallestBounds(u);
    if policy.rule == PrimaryAuthoritative {
      forall w | w in views && IsUsable(w) ensures !Ahead(w, u[0]) {
        assert w in u;
        NothingAheadOfFirst(u, w);
      }
    }
  }

  lemma NothingAheadOfFirst(s: seq<SourceView>, w: SourceView)
    requires Ordered(s) && w in s
    ensures !Ahead(w, s[0])
  {
    var k :| 0 <= k < |s| && s[k] == w;
  }

  // ---- roll-ups --------------------------------------------------------------------------------

  lemma {:induction false} TimingMeaning(s: seq<SourceView>)
    ensures var t := TimingOf(s);
            && (forall v :: v in s ==> v.evidence.times.lastObserved <= t.lastObserved && v.evidence.lastProgress <= t.lastProgress)
            && (t.lastObserved == 0 || exists v :: v in s && v.evidence.times.lastObserved == t.lastObserved)
            && (t.lastProgress == 0 || exists v :: v in s && v.evidence.lastProgress == t.lastProgress)
            && (forall v :: v in s && v.evidence.times.firstObserved != 0 ==>
                  t.firstObserved != 0 && t.firstObserved <= v.evidence.times.firstObserved)
            && (t.firstObserved == 0 || exists v :: v in s && v.evidence.times.firstObserved == t.firstObserved)
  {
    if s != [] {
      var front, last := s[..|s| - 1], s[|s| - 1];
      TimingMeaning(front);
      assert s == front + [last];
      assert last in s && forall v :: v in front ==> v in s;
    }
  }

  predicate NoRepeats(s: seq<u64>) {
    forall i, j :: 0 <= i < j < |s| ==> s[i] != s[j]
  }

  lemma {:induction false} AddAllMeaning(known: seq<u64>, more: seq<u64>, budget: Option<nat>)
    requires NoRepeats(known) && (budget.Some? ==> |known| <= budget.value)
    ensures var r := AddAll(known, more, budget);
            && NoRepeats(r)
            && (budget.Some? ==> |r| <= budget.value)
            && (forall x :: x in known ==> x in r)
            && (forall x :: x in r ==> x in known || x in more)
            && (budget.None? || |r| < budget.value ==> forall x :: x in more ==> x in r)
            && |known| <= |r|
    decreases more
  {
    if more != [] {
      var next := AddOne(known, more[0], budget);
      AddAllMeaning(next, more[1..], budget);
      assert more == [more[0]] + more[1..];
    }
  }

  /** Queues and links of the view: each once, each declared by some source, and none lost below the budget. */
  lemma {:induction false} AttachedMeaning(s: seq<SourceView>, budget: nat)
    ensures var a := AttachedOf(s, budget);
            && NoRepeats(a.queues) && NoRepeats(a.links) && |a.queues| <= budget
            && (forall q :: q in a.queues ==> exists v :: v in s && q in v.evidence.correlation.queues)
            && (forall l :: l in a.links <==> exists v :: v in s && l in v.evidence.correlation.links)
            && (|a.queues| < budget ==> forall v, q :: v in s && q in v.evidence.correlation.queues ==> q in a.queues)
            && (a.path.Some? <==> exists v :: v in s && v.evidence.correlation.path.Some?)
            && (a.path.Some? ==> exists v :: v in s && v.evidence.correlation.path == a.path)
  {
    if s != [] {
      var front, last := s[..|s| - 1], s[|s| - 1];
      AttachedMeaning(front, budget);
      var before := AttachedOf(front, budget);
      AddAllMeaning(before.queues, last.evidence.correlation.queues, Some(budget));
      AddAllMeaning(before.links, last.evidence.correlation.links, None);
      assert s == front + [last];
      assert last in s && forall v :: v in s <==> v in front || v == last;
    }
  }

  // ---- the conflict text ---------------------------------------------------------------------------

  /** The first source, in order, that disagrees with any later one disagrees with a later peer of its own authority. */
  ghost predicate PeersDisagreeFirst(usable: seq<SourceView>, policy: Policy) {
    exists x, q :: 0 <= x < q < |usable| && Disagree(usable[x], usable[q], policy)
                   && usable[x].authority == usable[q].authority && AgreesBefore(usable, x, policy)
  }

  ghost predicate AgreesBefore(usable: seq<SourceView>, x: int, policy: Policy) {
    forall u, v :: 0 <= u < x && u < v < |usable| ==> !Disagree(usable[u], usable[v], policy)
  }

  /** The named pair is the first that disagrees; where authority settles, no source stands above the first of the two. */
  lemma NamedPair(usable: seq<SourceView>, policy: Policy, j: Judgement) returns (x: nat, y: nat, p: nat, q: nat)
    requires Ordered(usable) && Judges(usable, policy, j) && j.unresolved
    ensures FirstDisagreement(usable, policy, x, y) && j.detail.value == (usable[x], usable[y]) && AgreesBefore(usable, x, policy)
    ensures x <= p < q < |usable| && Unsettled(usable, usable[p], usable[q], policy)
    ensures policy.higherAuthorityResolves ==> usable[x].authority == usable[p].authority && !StrictlyAbove(usable, usable[x].authority)
  {
    hide Disagree;
    hide StrictlyAbove;
    x, y :| FirstDisagreement(usable, policy, x, y) && j.detail.value == (usable[x], usable[y]);
    p, q :| 0 <= p < q < |usable| && Unsettled(usable, usable[p], usable[q], policy);
    if policy.higherAuthorityResolves {
      FirstIsTop(usable, p);
      TopIsPrefix(usable, x, p);
    }
  }

  /**
   * The conflict text calls the two sources it names equals. They are the first pair that disagrees; they are of
   * equal authority, and then deadlocked, exactly when the first source that disagrees with any later one
   * disagrees with a peer.
   */
  lemma ConflictNamesDeadlockIff(usable: seq<SourceView>, policy: Policy, j: Judgement)
    requires Ordered(usable) && Judges(usable, policy, j) && j.unresolved
    ensures var (a, b) := j.detail.value;
            && Disagree(a, b, policy)
            && (a.authority == b.authority <==> PeersDisagreeFirst(usable, policy))
            && (a.authority == b.authority <==> Unsettled(usable, a, b, policy))
  {
    hide Disagree, StrictlyAbove, Judges, Ordered;
    var x, y, p, q := NamedPair(usable, policy, j);
    if PeersDisagreeFirst(usable, policy) {
      var v, w :| 0 <= v < w < |usable| && Disagree(usable[v], usable[w], policy)
                  && usable[v].authority == usable[w].authority && AgreesBefore(usable, v, policy);
      assert v == x && y <= w;
      BetweenPeers(usable, x, y, w);
    }
  }

  lemma BetweenPeers(usable: seq<SourceView>, x: nat, y: nat, w: nat)
    requires Ordered(usable) && x < y <= w < |usable| && usable[x].authority == usable[w].authority
    ensures usable[y].authority == usable[x].authority
  {
    assert !Ahead(usable[y], usable[x]);
    assert y < w ==> !Ahead(usable[w], usable[y]);
  }

  /** With no tolerance agreement is transitive, and the text always names a deadlocked pair. */
  lemma ConflictNamesDeadlock(usable: seq<SourceView>, policy: Policy, j: Judgement)
    requires Ordered(usable) && Judges(usable, policy, j) && j.unresolved
    requires policy.higherAuthorityResolves && policy.absoluteTolerance == 0 && policy.relativePpm == 0
    ensures var (a, b) := j.detail.value; Unsettled(usable, a, b, policy)
  {
    hide Disagree, StrictlyAbove, Judges, Ordered;
    ConflictNamesDeadlockIff(usable, policy, j);
    var x, y, p, q := NamedPair(usable, policy, j);
    ExactDisagreement(usable[x], usable[p], usable[q], policy);
    assert PeersDisagreeFirst(usable, policy);
  }

  lemma ExactDisagreement(x: SourceView, p: SourceView, q: SourceView, policy: Policy)
    requires policy.absoluteTolerance == 0 && policy.relativePpm == 0 && Disagree(p, q, policy)
    ensures Disagree(x, q, policy) || (Disagree(x, p, policy) && x != p)
  {
    WithinToleranceIff(TotalsOf(p).bytes, TotalsOf(q).bytes, policy);
    WithinToleranceIff(TotalsOf(x).bytes, TotalsOf(q).bytes, policy);
    WithinToleranceIff(TotalsOf(x).bytes, TotalsOf(p).bytes, policy);
    hide WithinTolerance;
    hide TotalsOf;
  }

  lemma FirstIsTop(usable: seq<SourceView>, p: nat)
    requires Ordered(usable) && p < |usable| && !StrictlyAbove(usable, usable[p].authority)
    ensures forall k :: 0 <= k < |usable| ==> usable[k].authority <= usable[p].authority
  {
    forall k | 0 <= k < |usable| ensures usable[k].authority <= usable[p].authority {
      assert usable[k] in usable;
    }
  }

  lemma TopIsPrefix(usable: seq<SourceView>, x: nat, p: nat)
    requires Ordered(usable) && x <= p < |usable|
    requires forall k :: 0 <= k < |usable| ==> usable[k].authority <= usable[p].authority
    ensures usable[x].authority == usable[p].authority
  {
    assert x < p ==> !Ahead(usable[p], usable[x]);
  }

  /** A usable source whose whole evidence is this many bytes. */
  function Reporting(source: u64, authority: u32, bytes: u64): (v: SourceView)
    ensures v.source == source && v.authority == authority
  {
    var count := Counters.Acc(Some(0), Some(bytes), bytes, 0, 0, false);
    SourceView(source, authority, false, Capabilities(false, false, false, false, false, false),
               Fold.INITIAL.(aggregate := Fold.ZERO_ACCOUNTING.(bytes := count)), Fresh, false, true)
  }

  lemma ReportingTotal(source: u64, authority: u32, bytes: u64)
    ensures TotalsOf(Reporting(source, authority, bytes)).bytes == bytes
  {
    TotalIsCappedSum(Reporting(source, authority, bytes));
  }

  lemma ReportingDisagree(p: u64, m: u32, a: u64, q: u64, n: u32, b: u64, policy: Policy)
    requires policy.relativePpm == 0
    ensures Disagree(Reporting(p, m, a), Reporting(q, n, b), policy) <==> AbsDifference(a, b) > policy.absoluteTolerance
  {
    ReportingTotal(p, m, a);
    ReportingTotal(q, n, b);
    WithinToleranceIff(a, b, policy);
    hide WithinTolerance;
    hide TotalsOf;
    hide Reporting;
  }

  /** With a tolerance, the text can call equals two sources of which one outranks the other. */
  lemma ConflictTextCanMislead() returns (usable: seq<SourceView>, policy: Policy)
    ensures Ordered(usable) && policy.higherAuthorityResolves
    ensures forall j :: Judges(usable, policy, j) ==>
              j.unresolved && j.detail.value.0.authority > j.detail.value.1.authority
  {
    hide Reporting;
    hide Disagree;
    policy := Policy(PrimaryAuthoritative, 10, 0, true);
    usable := [Reporting(1, 5, 100), Reporting(2, 5, 110), Reporting(3, 5, 90), Reporting(4, 1, 50)];
    ReportingDisagree(1, 5, 100, 2, 5, 110, policy);
    ReportingDisagree(1, 5, 100, 3, 5, 90, policy);
    ReportingDisagree(1, 5, 100, 4, 1, 50, policy);
    ReportingDisagree(2, 5, 110, 3, 5, 90, policy);
    FourthRow(usable, policy);
  }

  lemma FourthRow(usable: seq<SourceView>, policy: Policy)
    requires |usable| == 4 && policy.higherAuthorityResolves
    requires usable[0].authority == usable[1].authority == usable[2].authority > usable[3].authority
    requires !Disagree(usable[0], usable[1], policy) && !Disagree(usable[0], usable[2], policy)
    requires Disagree(usable[0], usable[3], policy) && Disagree(usable[1], usable[2], policy)
    ensures forall j :: Judges(usable, policy, j) ==>
              j.unresolved && j.detail.value.0.authority > j.detail.value.1.authority
  {
    hide Disagree;
    assert FirstDisagreement(usable, policy, 0, 3);
    assert !StrictlyAbove(usable, usable[1].authority);
    assert Unsettled(usable, usable[1], usable[2], policy);
    hide Unsettled;
    hide StrictlyAbove;
    assert Verdict(usable, policy) == Conflict;
    hide Verdict;
    forall j | Judges(usable, policy, j)
      ensures j.unresolved && j.detail.value.0.authority > j.detail.value.1.authority
    {
      var x, y :| FirstDisagreement(usable, policy, x, y) && j.detail.value == (usable[x], usable[y]);
      FirstUnique(usable, policy, x, y, 0, 3);
    }
  }
}
