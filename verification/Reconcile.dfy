/** Reconciling what several sources say about one generation into one view. */
module Reconcile {
  import opened Checked
  import opened Evidence
  import opened Freshness
  import Fold

  /** One source's folded evidence with its standing. */
  datatype SourceView = SourceView(
    source: u64, authority: u32, advisoryOnly: bool, capabilities: Capabilities,
    evidence: Fold.State, freshness: Freshness, restored: bool, reconfirmed: bool)

  datatype Consumption = Consumption(
    bytes: u64, packets: u64, retransmissions: u64, unknownIntervals: u64,
    bytesUnsupported: bool, packetsUnsupported: bool, retransmissionsUnsupported: bool, saturated: bool)

  const NOTHING: Consumption := Consumption(0, 0, 0, 0, false, false, false, false)

  datatype Method = PrimaryAuthoritative | MaximumObserved | ConservativeMinimum

  datatype Policy = Policy(rule: Method, absoluteTolerance: u64, relativePpm: u64, higherAuthorityResolves: bool)

  datatype Consistency = ConsistencyUnknown | Corroborated | Conflict | Resolved

  datatype Visibility = VisibilityUnknown | OneSided | TwoSided

  // ---- order -------------------------------------------------------------------

  /** Highest authority first, then the lowest source identity. */
  predicate Ahead(a: SourceView, b: SourceView) {
    if a.authority != b.authority then a.authority > b.authority else a.source < b.source
  }

  function InsertView(v: SourceView, s: seq<SourceView>): seq<SourceView> {
    if s == [] || !Ahead(s[0], v) then [v] + s else [s[0]] + InsertView(v, s[1..])
  }

  /** The stable sort of the views. */
  function SortViews(s: seq<SourceView>): seq<SourceView> {
    if s == [] then [] else InsertView(s[0], SortViews(s[1..]))
  }

  predicate Ordered(s: seq<SourceView>) {
    forall i, j :: 0 <= i < j < |s| ==> !Ahead(s[j], s[i])
  }

  predicate DistinctSources(s: seq<SourceView>) {
    forall i, j :: 0 <= i < j < |s| ==> s[i].source != s[j].source
  }

  lemma AheadOrder(a: SourceView, b: SourceView, c: SourceView)
    requires !Ahead(b, a) && (!Ahead(c, b) || c == b)
    ensures !Ahead(c, a)
  {
  }

  lemma {:induction false} InsertViewSorts(v: SourceView, s: seq<SourceView>)
    requires Ordered(s)
    ensures Ordered(InsertView(v, s))
    ensures multiset(InsertView(v, s)) == multiset{v} + multiset(s)
  {
    if s != [] && Ahead(s[0], v) {
      InsertViewSorts(v, s[1..]);
      var t := InsertView(v, s[1..]);
      assert s == [s[0]] + s[1..];
      assert !Ahead(v, s[0]);
      hide Ahead;
      forall k | 0 <= k < |t| ensures !Ahead(t[k], s[0]) {
        assert t[k] in multiset(t);
        assert t[k] in s[1..] || t[k] == v;
      }
    } else if s != [] {
      forall k | 0 <= k < |s| ensures !Ahead(s[k], v) {
        AheadOrder(v, s[0], s[k]);
      }
    }
  }

  lemma {:induction false} SortViewsSorts(s: seq<SourceView>)
    ensures Ordered(SortViews(s))
    ensures multiset(SortViews(s)) == multiset(s)
  {
    if s != [] {
      SortViewsSorts(s[1..]);
      InsertViewSorts(s[0], SortViews(s[1..]));
      assert s == [s[0]] + s[1..];
    }
  }

  lemma SameElements(a: seq<SourceView>, b: seq<SourceView>)
    requires multiset(a) == multiset(b)
    ensures forall v :: v in a <==> v in b
  {
    forall v ensures v in a <==> v in b {
      assert v in a <==> v in multiset(a);
      assert v in b <==> v in multiset(b);
    }
  }

  lemma SameHead(a: seq<SourceView>, b: seq<SourceView>)
    requires a != [] && b != [] && Ordered(a) && Ordered(b) && DistinctSources(a)
    requires a[0] in b && b[0] in a
    ensures a[0] == b[0]
  {
    var p :| 0 <= p < |a| && a[p] == b[0];
    var q :| 0 <= q < |b| && b[q] == a[0];
    assert q > 0 ==> !Ahead(b[q], b[0]);
    assert p > 0 ==> !Ahead(a[p], a[0]);
  }

  lemma TailElements(a: seq<SourceView>)
    requires a != []
    ensures multiset(a[1..]) == multiset(a) - multiset{a[0]}
  {
    assert a == [a[0]] + a[1..];
  }

  lemma {:induction false} OrderedUnique(a: seq<SourceView>, b: seq<SourceView>)
    requires Ordered(a) && Ordered(b) && DistinctSources(a) && DistinctSources(b)
    requires multiset(a) == multiset(b)
    ensures a == b
  {
    assert |a| == |multiset(a)| && |b| == |multiset(b)|;
    if a != [] {
      hide Ahead;
      SameElements(a, b);
      assert a[0] in b && b[0] in a;
      SameHead(a, b);
      TailElements(a);
      TailElements(b);
      OrderedUnique(a[1..], b[1..]);
      assert a == [a[0]] + a[1..] && b == [b[0]] + b[1..];
    }
  }

  lemma DistinctCarries(a: seq<SourceView>, b: seq<SourceView>)
    requires multiset(a) == multiset(b) && DistinctSources(a)
    ensures DistinctSources(b)
  {
    forall i, j | 0 <= i < j < |b| ensures b[i].source != b[j].source {
      if b[i].source == b[j].source {
        SameElements(a, b);
        assert b[i] in a && b[j] in a;
        var p :| 0 <= p < |a| && a[p] == b[i];
        var q :| 0 <= q < |a| && a[q] == b[j];
        assert p == q;
        OnceOnly(a, p);
        TwiceAtLeast(b, i, j);
        assert false;
      }
    }
  }

  lemma OnceOnly(a: seq<SourceView>, p: nat)
    requires DistinctSources(a) && p < |a|
    ensures multiset(a)[a[p]] == 1
  {
    assert a == a[..p] + [a[p]] + a[p + 1..];
    assert a[p] !in a[..p] && a[p] !in a[p + 1..];
  }

  lemma TwiceAtLeast(b: seq<SourceView>, i: nat, j: nat)
    requires i < j < |b| && b[i] == b[j]
    ensures multiset(b)[b[i]] >= 2
  {
    assert b == b[..i] + [b[i]] + b[i + 1..j] + [b[j]] + b[j + 1..];
  }

  /** With one view per source, sorting forgets the order the views came in. */
  lemma SortForgetsOrder(a: seq<SourceView>, b: seq<SourceView>)
    requires DistinctSources(a) && multiset(a) == multiset(b)
    ensures SortViews(a) == SortViews(b)
  {
    SortViewsSorts(a);
    SortViewsSorts(b);
    DistinctCarries(a, SortViews(a));
    DistinctCarries(a, SortViews(b));
    OrderedUnique(SortViews(a), SortViews(b));
  }

  // ---- tolerance -----------------------------------------------------------------

  function AbsDifference(a: u64, b: u64): u64 {
    if a > b then a - b else b - a
  }

  predicate WithinTolerance(a: u64, b: u64, policy: Policy) {
    var larger := if a > b then a else b;
    var smaller := if a > b then b else a;
    var absolute := larger - smaller;
    if absolute <= policy.absoluteTolerance then true
    else
      var relative := CheckedMulDiv(larger, policy.relativePpm, 1000000);
      if relative.overflow then false else absolute <= relative.value
  }

  lemma QuotientAtLeast(x: nat, n: nat, d: nat)
    requires d > 0
    ensures x <= n / d <==> x * d <= n
  {
    var q := n / d;
    assert n == q * d + n % d;
    if x <= q {
      assert x * d <= q * d;
    } else {
      assert x * d >= (q + 1) * d;
    }
  }

  /** Agreement without division: within the absolute bound, or within the relative one when that is computable. */
  lemma WithinToleranceIff(a: u64, b: u64, policy: Policy)
    ensures WithinTolerance(a, b, policy)
       <==> || AbsDifference(a, b) <= policy.absoluteTolerance
            || (Max(a, b) * policy.relativePpm <= U64_MAX
                && AbsDifference(a, b) * 1000000 <= Max(a, b) * policy.relativePpm)
    ensures WithinTolerance(a, b, policy) == WithinTolerance(b, a, policy)
  {
    QuotientAtLeast(AbsDifference(a, b), Max(a, b) * policy.relativePpm, 1000000);
  }

  // ---- consumption ---------------------------------------------------------------

  function Max(a: u64, b: u64): u64 { if a > b then a else b }
  function Min(a: u64, b: u64): u64 { if a < b then a else b }

  function ToConsumption(a: Fold.Accounting): Consumption {
    Consumption(
      a.bytes.accumulated, a.packets.accumulated, a.retransmissions.accumulated,
      Max(Max(a.bytes.unknownIntervals, a.packets.unknownIntervals), a.retransmissions.unknownIntervals),
      a.bytesUnsupported, a.packetsUnsupported, a.retransmissionsUnsupported,
      a.bytes.saturated || a.packets.saturated || a.retransmissions.saturated)
  }

  function SumConsumption(a: Consumption, b: Consumption): Consumption {
    var bytes := CheckedAdd(a.bytes, b.bytes);
    var packets := CheckedAdd(a.packets, b.packets);
    var retransmissions := CheckedAdd(a.retransmissions, b.retransmissions);
    var gaps := CheckedAdd(a.unknownIntervals, b.unknownIntervals);
    Consumption(
      bytes.value, packets.value, retransmissions.value, gaps.value,
      a.bytesUnsupported && b.bytesUnsupported, a.packetsUnsupported && b.packetsUnsupported,
      a.retransmissionsUnsupported && b.retransmissionsUnsupported,
      a.saturated || b.saturated || bytes.overflow || packets.overflow || retransmissions.overflow || gaps.overflow)
  }

  function MaximumConsumption(a: Consumption, b: Consumption): Consumption {
    Consumption(
      Max(a.bytes, b.bytes), Max(a.packets, b.packets), Max(a.retransmissions, b.retransmissions),
      Min(a.unknownIntervals, b.unknownIntervals),
      a.bytesUnsupported && b.bytesUnsupported, a.packetsUnsupported && b.packetsUnsupported,
      a.retransmissionsUnsupported && b.retransmissionsUnsupported, a.saturated || b.saturated)
  }

  function MinimumConsumption(a: Consumption, b: Consumption): Consumption {
    Consumption(
      Min(a.bytes, b.bytes), Min(a.packets, b.packets), Min(a.retransmissions, b.retransmissions),
      Max(a.unknownIntervals, b.unknownIntervals),
      a.bytesUnsupported || b.bytesUnsupported, a.packetsUnsupported || b.packetsUnsupported,
      a.retransmissionsUnsupported || b.retransmissionsUnsupported, a.saturated || b.saturated)
  }

  function TotalsOf(v: SourceView): Consumption {
    SumConsumption(SumConsumption(ToConsumption(v.evidence.forward), ToConsumption(v.evidence.reverse)),
                   ToConsumption(v.evidence.aggregate))
  }

  /** A total is the capped sum of its three parts, and never looks exact once any part or the sum was capped. */
  lemma TotalIsCappedSum(v: SourceView)
    ensures var f, r, a := v.evidence.forward.bytes, v.evidence.reverse.bytes, v.evidence.aggregate.bytes;
            var sum := f.accumulated + r.accumulated + a.accumulated;
            && TotalsOf(v).bytes == Saturate(sum)
            && (!TotalsOf(v).saturated ==>
                  TotalsOf(v).bytes == sum && !f.saturated && !r.saturated && !a.saturated)
  {
  }

  // ---- usable sources ----------------------------------------------------------------

  predicate IsUsable(v: SourceView) {
    !v.advisoryOnly && v.freshness == Fresh && v.reconfirmed
  }

  function Usable(s: seq<SourceView>): (u: seq<SourceView>) {
    if s == [] then [] else
    (if IsUsable(s[0]) then [s[0]] else []) + Usable(s[1..])
  }

  /** The views that are not advisory. */
  function Independent(s: seq<SourceView>): seq<SourceView> {
    if s == [] then [] else
    (if s[0].advisoryOnly then [] else [s[0]]) + Independent(s[1..])
  }

  lemma {:induction false} UsableAppend(s: seq<SourceView>, v: SourceView)
    ensures Usable(s + [v]) == Usable(s) + (if IsUsable(v) then [v] else [])
  {
    if s == [] {
      assert s + [v] == [v];
    } else {
      UsableAppend(s[1..], v);
      assert (s + [v])[1..] == s[1..] + [v];
    }
  }

  lemma {:induction false} UsableIsSubsequence(s: seq<SourceView>)
    ensures forall v :: v in Usable(s) <==> v in s && IsUsable(v)
    ensures Ordered(s) ==> Ordered(Usable(s))
    ensures DistinctSources(s) ==> DistinctSources(Usable(s))
  {
    if s != [] {
      var rest := Usable(s[1..]);
      UsableIsSubsequence(s[1..]);
      assert s == [s[0]] + s[1..];
      forall k | 0 <= k < |rest| ensures exists i :: 1 <= i < |s| && s[i] == rest[k] {
        assert rest[k] in s[1..];
        var i :| 0 <= i < |s[1..]| && s[1..][i] == rest[k];
        assert s[i + 1] == rest[k];
      }
    }
  }

  // ---- the verdict -----------------------------------------------------------------

  predicate Disagree(a: SourceView, b: SourceView, policy: Policy) {
    !WithinTolerance(TotalsOf(a).bytes, TotalsOf(b).bytes, policy)
  }

  predicate StrictlyAbove(usable: seq<SourceView>, authority: u32) {
    exists v :: v in usable && v.authority > authority
  }

  /** A disagreement nobody can settle: equals, and nobody who may decide above them. */
  predicate Unsettled(usable: seq<SourceView>, a: SourceView, b: SourceView, policy: Policy) {
    && Disagree(a, b, policy)
    && a.authority == b.authority
    && !(policy.higherAuthorityResolves && StrictlyAbove(usable, a.authority))
  }

  predicate AnyDisagreement(usable: seq<SourceView>, policy: Policy) {
    exists i, j :: 0 <= i < j < |usable| && Disagree(usable[i], usable[j], policy)
  }

  predicate AnyUnsettled(usable: seq<SourceView>, policy: Policy) {
    exists i, j :: 0 <= i < j < |usable| && Unsettled(usable, usable[i], usable[j], policy)
  }

  function Verdict(usable: seq<SourceView>, policy: Policy): Consistency {
    if |usable| < 2 then ConsistencyUnknown
    else if !AnyDisagreement(usable, policy) then Corroborated
    else if !AnyUnsettled(usable, policy) then Resolved
    else Conflict
  }

  /** Is (i, j) the first disagreeing pair, row by row? */
  ghost predicate FirstDisagreement(usable: seq<SourceView>, policy: Policy, i: int, j: int) {
    && 0 <= i < j < |usable| && Disagree(usable[i], usable[j], policy)
    && (forall x, y :: 0 <= x < y < |usable| && (x < i || (x == i && y < j)) ==> !Disagree(usable[x], usable[y], policy))
  }

  method IsStrictlyAbove(usable: seq<SourceView>, authority: u32) returns (r: bool)
    ensures r == StrictlyAbove(usable, authority)
  {
    for k := 0 to |usable|
      invariant forall v :: v in usable[..k] ==> v.authority <= authority
    {
      if usable[k].authority > authority {
        return true;
      }
    }
    assert usable[..|usable|] == usable;
    return false;
  }

  /** Pairs (x, y) visited before the inner loop stands at (i, j). */
  ghost predicate Visited(x: int, y: int, i: int, j: int, n: int) {
    0 <= x < y < n && (x < i || (x == i && y < j))
  }

  ghost predicate Scan(usable: seq<SourceView>, policy: Policy, i: int, j: int, any: bool, unresolved: bool, left: int, right: int) {
    && (any <==> exists x, y :: Visited(x, y, i, j, |usable|) && Disagree(usable[x], usable[y], policy))
    && (unresolved <==> exists x, y :: Visited(x, y, i, j, |usable|) && Unsettled(usable, usable[x], usable[y], policy))
    && (any ==> FirstDisagreement(usable, policy, left, right))
  }

  lemma ScanNext(usable: seq<SourceView>, policy: Policy, i: int, j: int, any: bool, unresolved: bool, left: int, right: int)
    requires 0 <= i < j < |usable| && Scan(usable, policy, i, j, any, unresolved, left, right)
    ensures var here := Disagree(usable[i], usable[j], policy);
            var open := Unsettled(usable, usable[i], usable[j], policy);
            Scan(usable, policy, i, j + 1, any || here, unresolved || open,
                 if any || !here then left else i, if any || !here then right else j)
  {
    hide Disagree;
    hide Unsettled;
    assert Unsettled(usable, usable[i], usable[j], policy) ==> Disagree(usable[i], usable[j], policy) by {
      UnsettledDisagree(usable, policy, i, j);
    }
    forall x, y ensures Visited(x, y, i, j + 1, |usable|) <==> Visited(x, y, i, j, |usable|) || (x == i && y == j) {
    }
    if any || unresolved {
      if any {
        var x, y :| Visited(x, y, i, j, |usable|) && Disagree(usable[x], usable[y], policy);
        assert Visited(x, y, i, j + 1, |usable|);
      }
      if unresolved {
        var x, y :| Visited(x, y, i, j, |usable|) && Unsettled(usable, usable[x], usable[y], policy);
        assert Visited(x, y, i, j + 1, |usable|);
      }
    }
    assert Visited(i, j, i, j + 1, |usable|);
    if !any {
      forall x, y | 0 <= x < y < |usable| && (x < i || (x == i && y < j)) ensures !Disagree(usable[x], usable[y], policy) {
        assert Visited(x, y, i, j, |usable|);
      }
    }
  }

  lemma UnsettledDisagree(usable: seq<SourceView>, policy: Policy, i: int, j: int)
    requires 0 <= i < j < |usable|
    ensures Unsettled(usable, usable[i], usable[j], policy) ==> Disagree(usable[i], usable[j], policy)
  {
  }

  lemma ScanNextRow(usable: seq<SourceView>, policy: Policy, i: int, any: bool, unresolved: bool, left: int, right: int)
    requires 0 <= i < |usable| && Scan(usable, policy, i, |usable|, any, unresolved, left, right)
    ensures Scan(usable, policy, i + 1, i + 2, any, unresolved, left, right)
  {
    hide Disagree;
    hide Unsettled;
    forall x, y ensures Visited(x, y, i + 1, i + 2, |usable|) <==> Visited(x, y, i, |usable|, |usable|) {
    }
  }

  /** What the disagreement check reports; `detail` is the pair of sources the conflict text names. */
  datatype Judgement = Judgement(consistency: Consistency, unresolved: bool, detail: Option<(SourceView, SourceView)>)

  ghost predicate Judges(usable: seq<SourceView>, policy: Policy, j: Judgement) {
    && j.consistency == Verdict(usable, policy)
    && (j.unresolved <==> j.consistency == Conflict)
    && (j.detail.Some? <==> j.unresolved)
    && (j.detail.Some? ==> exists x, y :: FirstDisagreement(usable, policy, x, y) && j.detail.value == (usable[x], usable[y]))
  }

  lemma ScanComplete(usable: seq<SourceView>, policy: Policy, any: bool, unresolved: bool, left: int, right: int)
    requires |usable| >= 2 && Scan(usable, policy, |usable|, |usable| + 1, any, unresolved, left, right)
    ensures any <==> AnyDisagreement(usable, policy)
    ensures unresolved <==> AnyUnsettled(usable, policy)
    ensures any ==> FirstDisagreement(usable, policy, left, right)
  {
    hide Disagree;
    hide Unsettled;
    if AnyDisagreement(usable, policy) {
      var x, y :| 0 <= x < y < |usable| && Disagree(usable[x], usable[y], policy);
      assert Visited(x, y, |usable|, |usable| + 1, |usable|);
    }
    if AnyUnsettled(usable, policy) {
      var x, y :| 0 <= x < y < |usable| && Unsettled(usable, usable[x], usable[y], policy);
      assert Visited(x, y, |usable|, |usable| + 1, |usable|);
    }
  }

  lemma ScanStart(usable: seq<SourceView>, policy: Policy)
    ensures Scan(usable, policy, 0, 1, false, false, 0, 0)
  {
    forall x, y ensures !Visited(x, y, 0, 1, |usable|) {
    }
  }

  /** Do two sources disagree, and does authority settle it? The first is never the less authoritative one. */
  method ComparePair(usable: seq<SourceView>, i: nat, j: nat, policy: Policy) returns (disagree: bool, settled: bool)
    requires Ordered(usable) && i < j < |usable|
    ensures disagree == Disagree(usable[i], usable[j], policy)
    ensures disagree && !settled <==> Unsettled(usable, usable[i], usable[j], policy)
  {
    hide WithinTolerance, TotalsOf, StrictlyAbove;
    var a, b := TotalsOf(usable[i]), TotalsOf(usable[j]);
    assert !Ahead(usable[j], usable[i]);
    disagree := !WithinTolerance(a.bytes, b.bytes, policy);
    var above := IsStrictlyAbove(usable, usable[i].authority);
    settled := usable[i].authority > usable[j].authority || (policy.higherAuthorityResolves && above);
  }

  /** The pairwise comparison of the usable sources, most authoritative first. */
  method Judge(usable: seq<SourceView>, policy: Policy) returns (verdict: Judgement)
    requires Ordered(usable)
    ensures Judges(usable, policy, verdict)
  {
    hide Disagree, Unsettled, Scan, Ordered;
    if |usable| < 2 {
      return Judgement(ConsistencyUnknown, false, None);
    }
    var any, unresolved := false, false;
    var left, right := 0, 0;
    ScanStart(usable, policy);
    for i := 0 to |usable|
      invariant Scan(usable, policy, i, i + 1, any, unresolved, left, right)
    {
      for j := i + 1 to |usable|
        invariant Scan(usable, policy, i, j, any, unresolved, left, right)
      {
        ScanNext(usable, policy, i, j, any, unresolved, left, right);
        var disagree, settled := ComparePair(usable, i, j, policy);
        if disagree && !any {
          left, right := i, j;
        }
        any := any || disagree;
        unresolved := unresolved || (disagree && !settled);
      }
      ScanNextRow(usable, policy, i, any, unresolved, left, right);
    }
    ScanComplete(usable, policy, any, unresolved, left, right);
    if !any {
      return Judgement(Corroborated, false, None);
    } else if !unresolved {
      return Judgement(Resolved, false, None);
    } else {
      return Judgement(Conflict, true, Some((usable[left], usable[right])));
    }
  }

  // ---- the verdict without any order --------------------------------------------------

  /** Two different usable sources among these views. */
  predicate UsablePair(views: seq<SourceView>, a: SourceView, b: SourceView) {
    a in views && b in views && IsUsable(a) && IsUsable(b) && a.source != b.source
  }

  predicate TwoUsable(views: seq<SourceView>) {
    exists a, b | a in views && b in views :: UsablePair(views, a, b)
  }

  predicate SomeDisagree(views: seq<SourceView>, policy: Policy) {
    exists a, b | a in views && b in views :: UsablePair(views, a, b) && Disagree(a, b, policy)
  }

  /** No usable source stands above this authority. */
  predicate IsTop(views: seq<SourceView>, authority: u32) {
    forall v :: v in views && IsUsable(v) ==> v.authority <= authority
  }

  predicate SomeDeadlock(views: seq<SourceView>, policy: Policy) {
    exists a, b | a in views && b in views ::
      && UsablePair(views, a, b) && Disagree(a, b, policy) && a.authority == b.authority
      && (policy.higherAuthorityResolves ==> IsTop(views, a.authority))
  }

  lemma DisagreeSymmetric(a: SourceView, b: SourceView, policy: Policy)
    ensures Disagree(a, b, policy) == Disagree(b, a, policy)
  {
    WithinToleranceIff(TotalsOf(a).bytes, TotalsOf(b).bytes, policy);
  }

  /** A pair of different usable sources is a pair of positions among the usable ones, in some order. */
  lemma PairPositions(views: seq<SourceView>, usable: seq<SourceView>, a: SourceView, b: SourceView) returns (i: nat, j: nat)
    requires UsablePair(views, a, b)
    requires forall v :: v in usable <==> v in views && IsUsable(v)
    ensures i < j < |usable| && ((usable[i] == a && usable[j] == b) || (usable[i] == b && usable[j] == a))
  {
    assert a in usable && b in usable;
    var p :| 0 <= p < |usable| && usable[p] == a;
    var q :| 0 <= q < |usable| && usable[q] == b;
    if p < q { i, j := p, q; } else { i, j := q, p; }
  }

  lemma PositionsPair(views: seq<SourceView>, usable: seq<SourceView>, i: nat, j: nat)
    requires i < j < |usable| && DistinctSources(usable)
    requires forall v :: v in usable <==> v in views && IsUsable(v)
    ensures UsablePair(views, usable[i], usable[j])
  {
    assert usable[i] in usable && usable[j] in usable;
  }

  /** The verdict depends only on which usable sources there are: not on their positions. */
  lemma VerdictOfElements(views: seq<SourceView>, usable: seq<SourceView>, policy: Policy)
    requires DistinctSources(usable)
    requires forall v :: v in usable <==> v in views && IsUsable(v)
    ensures |usable| >= 2 <==> TwoUsable(views)
    ensures AnyDisagreement(usable, policy) <==> SomeDisagree(views, policy)
    ensures AnyUnsettled(usable, policy) <==> SomeDeadlock(views, policy)
  {
    hide IsUsable;
    hide Disagree;
    if |usable| >= 2 {
      PositionsPair(views, usable, 0, 1);
    }
    if TwoUsable(views) {
      var a, b :| a in views && b in views && UsablePair(views, a, b);
      var i, j := PairPositions(views, usable, a, b);
    }
    DisagreementOfElements(views, usable, policy);
    UnsettledOfElements(views, usable, policy);
  }

  lemma DisagreementOfElements(views: seq<SourceView>, usable: seq<SourceView>, policy: Policy)
    requires DistinctSources(usable)
    requires forall v :: v in usable <==> v in views && IsUsable(v)
    ensures AnyDisagreement(usable, policy) <==> SomeDisagree(views, policy)
  {
    hide IsUsable;
    hide Disagree;
    if AnyDisagreement(usable, policy) {
      var i, j :| 0 <= i < j < |usable| && Disagree(usable[i], usable[j], policy);
      PositionsPair(views, usable, i, j);
    }
    if SomeDisagree(views, policy) {
      var a, b :| a in views && b in views && UsablePair(views, a, b) && Disagree(a, b, policy);
      var i, j := PairPositions(views, usable, a, b);
      DisagreeSymmetric(a, b, policy);
    }
  }

  lemma TopOfElements(views: seq<SourceView>, usable: seq<SourceView>, authority: u32)
    requires forall v :: v in usable <==> v in views && IsUsable(v)
    ensures StrictlyAbove(usable, authority) <==> !IsTop(views, authority)
  {
  }

  lemma UnsettledOfElements(views: seq<SourceView>, usable: seq<SourceView>, policy: Policy)
    requires DistinctSources(usable)
    requires forall v :: v in usable <==> v in views && IsUsable(v)
    ensures AnyUnsettled(usable, policy) <==> SomeDeadlock(views, policy)
  {
    hide IsUsable;
    hide Disagree;
    hide StrictlyAbove;
    hide IsTop;
    if AnyUnsettled(usable, policy) {
      var i, j :| 0 <= i < j < |usable| && Unsettled(usable, usable[i], usable[j], policy);
      PositionsPair(views, usable, i, j);
      TopOfElements(views, usable, usable[i].authority);
    }
    if SomeDeadlock(views, policy) {
      var a, b :|
        && a in views && b in views && UsablePair(views, a, b) && Disagree(a, b, policy) && a.authority == b.authority
        && (policy.higherAuthorityResolves ==> IsTop(views, a.authority));
      var i, j := PairPositions(views, usable, a, b);
      DisagreeSymmetric(a, b, policy);
      TopOfElements(views, usable, a.authority);
      assert Unsettled(usable, usable[i], usable[j], policy);
    }
  }

  // ---- the whole view ------------------------------------------------------------------

  datatype Timing = Timing(firstObserved: i64, lastObserved: i64, lastReceived: i64, lastProgress: i64)

  /** The resources the generation is known to use. */
  datatype Attached = Attached(endpointA: u64, endpointB: u64, path: Option<u64>, hasQueue: bool,
                               queues: seq<u64>, links: seq<u64>, hopCapacity: seq<u64>)

  datatype Totals = Totals(forward: Consumption, reverse: Consumption, aggregate: Consumption, total: Consumption)

  datatype GenerationView = GenerationView(
    sources: seq<SourceView>, coverage: Fold.Coverage, visibility: Visibility, timing: Timing,
    attached: Attached, primary: Option<u64>, totals: Totals,
    excludedStale: u32, excludedAdvisory: u32, judgement: Judgement, freshness: Freshness)

  function Classified(c: Fold.Coverage): Visibility {
    if c.forwardComplete && c.reverseComplete then TwoSided
    else if !c.forwardComplete && !c.forwardPartial && !c.reverseComplete && !c.reversePartial then VisibilityUnknown
    else OneSided
  }

  function CoverageOf(s: seq<SourceView>): Fold.Coverage {
    Fold.Coverage(
      exists v :: v in s && v.evidence.coverage.forwardComplete,
      exists v :: v in s && v.evidence.coverage.forwardPartial,
      exists v :: v in s && v.evidence.coverage.reverseComplete,
      exists v :: v in s && v.evidence.coverage.reversePartial)
  }

  function Merged(a: Fold.Coverage, b: Fold.Coverage): Fold.Coverage {
    Fold.Coverage(a.forwardComplete || b.forwardComplete, a.forwardPartial || b.forwardPartial,
                  a.reverseComplete || b.reverseComplete, a.reversePartial || b.reversePartial)
  }

  lemma CoverageAppend(s: seq<SourceView>, v: SourceView)
    ensures CoverageOf(s + [v]) == Merged(CoverageOf(s), v.evidence.coverage)
  {
    assert v in s + [v];
    assert forall w :: w in s + [v] <==> w in s || w == v;
  }

  function TimingStep(t: Timing, v: SourceView): Timing {
    var e := v.evidence;
    Timing(
      if t.firstObserved == 0 || (e.times.firstObserved != 0 && e.times.firstObserved < t.firstObserved)
      then e.times.firstObserved else t.firstObserved,
      if e.times.lastObserved > t.lastObserved then e.times.lastObserved else t.lastObserved,
      if e.times.lastReceived > t.lastReceived then e.times.lastReceived else t.lastReceived,
      if e.lastProgress > t.lastProgress then e.lastProgress else t.lastProgress)
  }

  function TimingOf(s: seq<SourceView>): Timing {
    if s == [] then Timing(0, 0, 0, 0) else TimingStep(TimingOf(s[..|s| - 1]), s[|s| - 1])
  }

  /** Append what is not yet listed, one by one, while the budget (if there is one) lasts. */
  function AddAll(known: seq<u64>, more: seq<u64>, budget: Option<nat>): seq<u64>
    decreases more
  {
    if more == [] then known
    else AddAll(AddOne(known, more[0], budget), more[1..], budget)
  }

  function AddOne(known: seq<u64>, x: u64, budget: Option<nat>): seq<u64> {
    if (budget.None? || |known| < budget.value) && x !in known then known + [x] else known
  }

  function QueueBudget(n: nat): nat {
    n * 4 + 4
  }

  function AttachStep(a: Attached, v: SourceView, budget: nat): Attached {
    var c := v.evidence.correlation;
    Attached(
      if a.endpointA == 0 then c.endpointA else a.endpointA,
      if a.endpointB == 0 then c.endpointB else a.endpointB,
      if a.path.None? then c.path else a.path,
      a.hasQueue || c.hasQueue,
      AddAll(a.queues, c.queues, Some(budget)),
      AddAll(a.links, c.links, None),
      if a.hopCapacity == [] then v.evidence.hopCapacity else a.hopCapacity)
  }

  function AttachedOf(s: seq<SourceView>, budget: nat): Attached {
    if s == [] then Attached(0, 0, None, false, [], [], [])
    else AttachStep(AttachedOf(s[..|s| - 1], budget), s[|s| - 1], budget)
  }

  function ChosenTotal(usable: seq<SourceView>, rule: Method): Consumption
    requires usable != []
  {
    match rule
    case PrimaryAuthoritative => TotalsOf(usable[0])
    case MaximumObserved => Largest(usable)
    case ConservativeMinimum => Smallest(usable)
  }

  function Largest(s: seq<SourceView>): Consumption
    requires s != []
  {
    if |s| == 1 then TotalsOf(s[0]) else MaximumConsumption(Largest(s[..|s| - 1]), TotalsOf(s[|s| - 1]))
  }

  function Smallest(s: seq<SourceView>): Consumption
    requires s != []
  {
    if |s| == 1 then TotalsOf(s[0]) else MinimumConsumption(Smallest(s[..|s| - 1]), TotalsOf(s[|s| - 1]))
  }

  /** Totals follow the usable sources; when there is none, the first source that is not advisory. */
  function TotalsFor(s: seq<SourceView>, rule: Method): Totals {
    var usable := Usable(s);
    var independent := Independent(s);
    if usable != [] then PartsOf(usable[0]).(total := ChosenTotal(usable, rule))
    else if independent != [] then PartsOf(independent[0])
    else Totals(NOTHING, NOTHING, NOTHING, NOTHING)
  }

  function PartsOf(v: SourceView): Totals {
    Totals(ToConsumption(v.evidence.forward), ToConsumption(v.evidence.reverse), ToConsumption(v.evidence.aggregate), TotalsOf(v))
  }

  function FirstKnownFreshness(s: seq<SourceView>): Freshness {
    if s == [] then NotKnown
    else if s[0].freshness != NotKnown then s[0].freshness
    else FirstKnownFreshness(s[1..])
  }

  /** Everything the reconciled view says, about the views in their sorted order. */
  ghost predicate Reconciles(views: seq<SourceView>, policy: Policy, view: GenerationView) {
    var s := SortViews(views);
    && view.sources == s
    && view.coverage == CoverageOf(Independent(s))
    && view.visibility == Classified(CoverageOf(Usable(s)))
    && view.timing == TimingOf(s)
    && view.attached == AttachedOf(s, QueueBudget(|s|))
    && view.primary == (if Independent(s) == [] then None else Some(Independent(s)[0].source))
    && view.totals == TotalsFor(s, policy.rule)
    && view.excludedStale == Wrap32(Count(s, false))
    && view.excludedAdvisory == Wrap32(Count(s, true))
    && Judges(Usable(s), policy, view.judgement)
    && view.freshness == (if Usable(s) != [] then Fresh else FirstKnownFreshness(s))
  }

  /** How many views are left out of every number, for being advisory or for not being trustworthy now. */
  function Count(s: seq<SourceView>, advisory: bool): nat {
    if s == [] then 0
    else
      var last := s[|s| - 1];
      Count(s[..|s| - 1], advisory) + (if !IsUsable(last) && last.advisoryOnly == advisory then 1 else 0)
  }

  lemma {:induction false} IndependentAppend(s: seq<SourceView>, v: SourceView)
    ensures Independent(s + [v]) == Independent(s) + (if v.advisoryOnly then [] else [v])
  {
    if s == [] {
      assert s + [v] == [v];
    } else {
      IndependentAppend(s[1..], v);
      assert (s + [v])[1..] == s[1..] + [v];
    }
  }

  method RollUp(s: seq<SourceView>)
    returns (allTime: Fold.Coverage, current: Fold.Coverage, usable: seq<SourceView>, stale: u32, advisory: u32, timing: Timing)
    ensures allTime == CoverageOf(Independent(s)) && current == CoverageOf(Usable(s)) && usable == Usable(s)
    ensures stale == Wrap32(Count(s, false)) && advisory == Wrap32(Count(s, true)) && timing == TimingOf(s)
  {
    hide CoverageOf;
    hide Wrap32;
    hide Inc32;
    CoverageOfNone();
    allTime := Fold.Coverage(false, false, false, false);
    current := allTime;
    usable, stale, advisory, timing := [], 0, 0, Timing(0, 0, 0, 0);
    for i := 0 to |s|
      invariant allTime == CoverageOf(Independent(s[..i])) && current == CoverageOf(Usable(s[..i]))
      invariant usable == Usable(s[..i]) && timing == TimingOf(s[..i])
      invariant stale == Wrap32(Count(s[..i], false)) && advisory == Wrap32(Count(s[..i], true))
    {
      var v := s[i];
      assert s[..i + 1] == s[..i] + [v];
      IndependentAppend(s[..i], v);
      UsableAppend(s[..i], v);
      assert Independent(s[..i]) + [] == Independent(s[..i]) && Usable(s[..i]) + [] == Usable(s[..i]);
      CoverageAppend(Independent(s[..i]), v);
      CoverageAppend(Usable(s[..i]), v);
      WrapNext(Count(s[..i], false));
      WrapNext(Count(s[..i], true));
      if !v.advisoryOnly {
        allTime := Merged(allTime, v.evidence.coverage);
      }
      if IsUsable(v) {
        usable := usable + [v];
        current := Merged(current, v.evidence.coverage);
      } else if v.advisoryOnly {
        advisory := Inc32(advisory);
      } else {
        stale := Inc32(stale);
      }
      timing := TimingStep(timing, v);
    }
    assert s[..|s|] == s;
  }

  lemma CoverageOfNone()
    ensures CoverageOf([]) == Fold.Coverage(false, false, false, false)
    ensures Wrap32(0) == 0
  {
  }

  method AppendDistinct(known: seq<u64>, more: seq<u64>, budget: Option<nat>) returns (r: seq<u64>)
    ensures r == AddAll(known, more, budget)
  {
    r := known;
    for i := 0 to |more|
      invariant AddAll(r, more[i..], budget) == AddAll(known, more, budget)
    {
      if budget.Some? && |r| >= budget.value {
        FullStaysFull(r, more[i..], budget);
        return r;
      }
      if more[i] !in r {
        r := r + [more[i]];
      }
      assert more[i..][1..] == more[i + 1..];
    }
  }

  lemma {:induction false} FullStaysFull(known: seq<u64>, more: seq<u64>, budget: Option<nat>)
    requires budget.Some? && |known| >= budget.value
    ensures AddAll(known, more, budget) == known
    decreases more
  {
    if more != [] {
      FullStaysFull(known, more[1..], budget);
    }
  }

  method Attach(s: seq<SourceView>) returns (a: Attached)
    ensures a == AttachedOf(s, QueueBudget(|s|))
  {
    a := Attached(0, 0, None, false, [], [], []);
    for i := 0 to |s|
      invariant a == AttachedOf(s[..i], QueueBudget(|s|))
    {
      assert s[..i + 1][..i] == s[..i];
      var c := s[i].evidence.correlation;
      var queues := AppendDistinct(a.queues, c.queues, Some(QueueBudget(|s|)));
      var links := AppendDistinct(a.links, c.links, None);
      if c.endpointA != 0 && a.endpointA == 0 {
        a := a.(endpointA := c.endpointA);
      }
      if c.endpointB != 0 && a.endpointB == 0 {
        a := a.(endpointB := c.endpointB);
      }
      if c.path.Some? && a.path.None? {
        a := a.(path := c.path);
      }
      if c.hasQueue && !a.hasQueue {
        a := a.(hasQueue := true);
      }
      if a.hopCapacity == [] && s[i].evidence.hopCapacity != [] {
        a := a.(hopCapacity := s[i].evidence.hopCapacity);
      }
      a := a.(queues := queues, links := links);
    }
    assert s[..|s|] == s;
  }

  method FirstIndependent(s: seq<SourceView>) returns (primary: Option<SourceView>)
    ensures primary == if Independent(s) == [] then None else Some(Independent(s)[0])
  {
    for i := 0 to |s|
      invariant Independent(s) == Independent(s[i..])
    {
      if !s[i].advisoryOnly {
        return Some(s[i]);
      }
    }
    return None;
  }

  method ChooseTotals(usable: seq<SourceView>, primary: Option<SourceView>, rule: Method) returns (t: Totals)
    ensures t == if usable != [] then PartsOf(usable[0]).(total := ChosenTotal(usable, rule))
                 else if primary.Some? then PartsOf(primary.value)
                 else Totals(NOTHING, NOTHING, NOTHING, NOTHING)
  {
    hide TotalsOf;
    if usable != [] {
      var chosen := TotalsOf(usable[0]);
      match rule {
      case PrimaryAuthoritative =>
      case MaximumObserved =>
        for i := 0 to |usable|
          invariant chosen == if i == 0 then TotalsOf(usable[0]) else Largest(usable[..i])
        {
          assert usable[..i + 1][..i] == usable[..i];
          chosen := MaximumConsumption(chosen, TotalsOf(usable[i]));
        }
        assert usable[..|usable|] == usable;
      case ConservativeMinimum =>
        for i := 0 to |usable|
          invariant chosen == if i == 0 then TotalsOf(usable[0]) else Smallest(usable[..i])
        {
          assert usable[..i + 1][..i] == usable[..i];
          chosen := MinimumConsumption(chosen, TotalsOf(usable[i]));
        }
        assert usable[..|usable|] == usable;
      }
      return PartsOf(usable[0]).(total := chosen);
    } else if primary.Some? {
      return PartsOf(primary.value);
    } else {
      return Totals(NOTHING, NOTHING, NOTHING, NOTHING);
    }
  }

  method FreshnessOf(s: seq<SourceView>) returns (f: Freshness)
    ensures f == if Usable(s) != [] then Fresh else FirstKnownFreshness(s)
  {
    for i := 0 to |s|
      invariant Usable(s) == Usable(s[i..])
    {
      if IsUsable(s[i]) {
        return Fresh;
      }
    }
    for i := 0 to |s|
      invariant FirstKnownFreshness(s) == FirstKnownFreshness(s[i..])
    {
      if s[i].freshness != NotKnown {
        return s[i].freshness;
      }
    }
    return NotKnown;
  }

  method ReconcileGeneration(views: seq<SourceView>, policy: Policy) returns (view: GenerationView)
    ensures Reconciles(views, policy, view)
  {
    var s := SortViews(views);
    SortViewsSorts(views);
    UsableIsSubsequence(s);
    var allTime, current, usable, stale, advisory, timing := RollUp(s);
    var attached := Attach(s);
    var primary := FirstIndependent(s);
    var totals := ChooseTotals(usable, primary, policy.rule);
    var judgement := Judge(usable, policy);
    var freshness := FreshnessOf(s);
    view := GenerationView(
      s, allTime, Classified(current), timing, attached,
      if primary.None? then None else Some(primary.value.source), totals,
      stale, advisory, judgement, freshness);
  }
}
