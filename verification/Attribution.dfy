/** Apportioning a total across weights: integers only, nothing lost, nothing invented. */
module Attribution {
  import opened Checked

  function Sum(s: seq<nat>): nat {
    if s == [] then 0 else Sum(s[..|s| - 1]) + s[|s| - 1]
  }

  lemma {:induction false} SumUpdate(s: seq<nat>, i: nat, v: nat)
    requires i < |s|
    ensures Sum(s[i := v]) == Sum(s) - s[i] + v
    decreases |s|
  {
    var t := s[i := v];
    if i == |s| - 1 {
      assert t[..|t| - 1] == s[..|s| - 1];
    } else {
      assert t[..|t| - 1] == s[..|s| - 1][i := v];
      SumUpdate(s[..|s| - 1], i, v);
    }
  }

  lemma {:induction false} SumPrefix(s: seq<nat>, i: nat)
    requires i < |s|
    ensures Sum(s[..i + 1]) == Sum(s[..i]) + s[i]
    ensures Sum(s[..i]) + s[i] <= Sum(s)
    decreases |s|
  {
    assert s[..i + 1][..i] == s[..i];
    if i == |s| - 1 {
      assert s[..i + 1] == s;
    } else {
      SumPrefix(s[..|s| - 1], i);
      assert s[..|s| - 1][..i] == s[..i];
    }
  }

  lemma {:induction false} SumPositive(s: seq<nat>)
    requires Sum(s) > 0
    ensures exists i :: 0 <= i < |s| && s[i] > 0
  {
    if s[|s| - 1] == 0 {
      SumPositive(s[..|s| - 1]);
      var i :| 0 <= i < |s| - 1 && s[..|s| - 1][i] > 0;
      assert s[i] > 0;
    } else {
      assert s[|s| - 1] > 0;
    }
  }

  lemma {:induction false} SumZeros(s: seq<nat>)
    requires forall i :: 0 <= i < |s| ==> s[i] == 0
    ensures Sum(s) == 0
  {
    if s != [] {
      SumZeros(s[..|s| - 1]);
    }
  }

  // ---- what an exact apportionment is --------------------------------------------------------

  /** Neither the weight sum nor any product overflows. */
  predicate Exact(total: u64, weights: seq<u64>) {
    0 < Sum(weights) <= U64_MAX && forall i :: 0 <= i < |weights| ==> total * weights[i] <= U64_MAX
  }

  function Floor(total: u64, w: u64, sum: nat): nat
    requires sum > 0
  {
    total * w / sum
  }

  function Remainder(total: u64, w: u64, sum: nat): nat
    requires sum > 0
  {
    total * w % sum
  }

  /** Does index `i` come before `j` for the next unit left over: larger remainder, then lower index? */
  predicate Before(rem: seq<nat>, i: nat, j: nat)
    requires i < |rem| && j < |rem|
  {
    rem[i] > rem[j] || (rem[i] == rem[j] && i < j)
  }

  /**
   * The largest-remainder split: each share is the floor of its quota or one more, one more only where the
   * quota is not whole, and the extras go to the largest remainders, lowest index first.
   */
  ghost predicate LargestRemainder(floors: seq<nat>, rem: seq<nat>, shares: seq<nat>)
    requires |floors| == |rem|
  {
    && |shares| == |floors|
    && (forall i :: 0 <= i < |shares| ==> shares[i] == floors[i] || (shares[i] == floors[i] + 1 && rem[i] > 0))
    && (forall i, j :: 0 <= i < |shares| && 0 <= j < |shares| && shares[i] == floors[i] + 1 && shares[j] == floors[j]
          ==> Before(rem, i, j))
  }

  function Floors(total: u64, weights: seq<u64>, sum: nat): (f: seq<nat>)
    requires sum > 0
    ensures |f| == |weights|
  {
    seq(|weights|, i requires 0 <= i < |weights| => Floor(total, weights[i], sum))
  }

  function Remainders(total: u64, weights: seq<u64>, sum: nat): (r: seq<nat>)
    requires sum > 0
    ensures |r| == |weights|
  {
    seq(|weights|, i requires 0 <= i < |weights| => Remainder(total, weights[i], sum))
  }

  // ---- nonlinear facts ---------------------------------------------------------------------------

  lemma DivMod(n: nat, d: nat)
    requires d > 0
    ensures n == (n / d) * d + n % d && n % d < d && n / d >= 0
  {
  }

  lemma MulMono(a: nat, b: nat, c: nat)
    requires a <= b
    ensures a * c <= b * c
  {
  }

  lemma MulStrict(a: nat, b: nat, c: nat)
    requires a > b && c > 0
    ensures a * c > b * c
  {
    MulMono(b + 1, a, c);
    assert (b + 1) * c == b * c + c;
  }

  lemma MulCancel(a: nat, b: nat, c: nat)
    requires c > 0 && a * c <= b * c
    ensures a <= b
  {
    if a > b {
      MulStrict(a, b, c);
    }
  }

  lemma Distribute3(a: nat, b: nat, c: nat)
    ensures a * (b + c) == a * b + a * c
  {
  }

  // ---- the algorithm -------------------------------------------------------------------------------

  method WeightSum(weights: seq<u64>) returns (sum: u64)
    ensures sum == Saturate(Sum(weights))
  {
    sum := 0;
    for i := 0 to |weights|
      invariant sum == Sum(weights[..i])
    {
      SumPrefix(weights, i);
      var next := CheckedAdd(sum, weights[i]);
      if next.overflow {
        return U64_MAX;
      }
      sum := next.value;
    }
    assert weights[..|weights|] == weights;
  }

  /** All weights zero: an equal split, the integer remainder to the lowest indices. */
  method EqualSplit(total: u64, n: nat) returns (shares: seq<u64>)
    requires 0 < n <= U64_MAX
    ensures |shares| == n && Sum(shares) == total
    ensures forall i :: 0 <= i < n ==> shares[i] == total / n + (if i < total % n then 1 else 0)
  {
    EqualParts(total, n);
    var base: nat := total / n;
    var extra: nat := total % n;
    var remainder: nat := extra;
    shares := [];
    for i := 0 to n
      invariant |shares| == i && remainder == if i < extra then extra - i else 0
      invariant forall j :: 0 <= j < i ==> shares[j] == base + (if j < extra then 1 else 0)
    {
      shares := shares + [base + (if remainder > 0 then 1 else 0)];
      if remainder > 0 {
        remainder := remainder - 1;
      }
    }
    EqualSum(shares, base, extra);
  }

  lemma EqualParts(total: u64, n: nat)
    requires n > 0
    ensures total == n * (total / n) + total % n && 0 <= total % n < n
    ensures 0 <= total / n && total / n + (if total % n > 0 then 1 else 0) <= total
  {
    DivMod(total, n);
    MulGrows(total / n, n);
  }

  lemma {:induction false} EqualSum(shares: seq<nat>, base: nat, extra: nat)
    requires forall i :: 0 <= i < |shares| ==> shares[i] == base + (if i < extra then 1 else 0)
    ensures Sum(shares) == |shares| * base + (if |shares| < extra then |shares| else extra)
  {
    if shares != [] {
      EqualSum(shares[..|shares| - 1], base, extra);
      assert |shares| * base == (|shares| - 1) * base + base;
    }
  }

  /** One floor and one remainder, or the saturated stand-ins where the product overflows. */
  method ScaleOne(total: u64, w: u64, sum: u64) returns (scaled: u64, rest: u64)
    requires sum > 0
    ensures scaled == if total * w > U64_MAX then U64_MAX / sum else total * w / sum
    ensures total * w <= U64_MAX ==> rest == Remainder(total, w, sum) && sum * scaled + rest == total * w
  {
    var product := CheckedMul(total, w);
    DivMod(product.value, sum);
    QuotientLe(product.value, sum);
    scaled := if product.overflow then U64_MAX / sum else product.value / sum;
    rest := if product.overflow then 0 else product.value % sum;
  }

  /** The floors (saturated where a product overflows) and the remainders. */
  method Scale(total: u64, weights: seq<u64>, sum: u64) returns (shares: seq<u64>, remainders: seq<u64>, placed: u64)
    requires sum > 0 && sum == Saturate(Sum(weights)) && |weights| <= U64_MAX
    ensures |shares| == |weights| == |remainders| && placed == Sum(shares)
    ensures Exact(total, weights) ==>
      && shares == Floors(total, weights, sum) && remainders == Remainders(total, weights, sum)
      && placed * sum + Sum(remainders) == total * sum
  {
    hide Remainder, Floor;
    shares, remainders, placed := [], [], 0;
    for i := 0 to |weights|
      invariant |shares| == |remainders| == i && placed == Sum(shares)
      invariant Sum(weights) <= U64_MAX ==> placed * sum <= total * Sum(weights[..i])
      invariant Sum(weights) > U64_MAX ==> placed <= i
      invariant Exact(total, weights) ==>
        && (forall j :: 0 <= j < i ==> shares[j] == Floor(total, weights[j], sum) && remainders[j] == Remainder(total, weights[j], sum))
        && placed * sum + Sum(remainders) == total * Sum(weights[..i])
    {
      SumPrefix(weights, i);
      var scaled, rest := ScaleOne(total, weights[i], sum);
      ScaledStep(total, Sum(weights[..i]), weights[i], Sum(weights), sum, placed, scaled, i);
      if Exact(total, weights) {
        FloorIs(total, weights[i], sum);
        ExactStep(total, Sum(weights[..i]), weights[i], sum, placed, scaled, Sum(remainders), rest);
      }
      assert (shares + [scaled])[..i] == shares && (remainders + [rest])[..i] == remainders;
      shares, remainders := shares + [scaled], remainders + [rest];
      placed := placed + scaled;
    }
    assert weights[..|weights|] == weights;
  }

  lemma FloorIs(total: u64, w: u64, sum: nat)
    requires sum > 0
    ensures Floor(total, w, sum) == total * w / sum
  {
  }

  lemma ExactStep(total: u64, before: nat, w: u64, sum: nat, placed: nat, scaled: nat, rests: nat, rest: nat)
    requires placed * sum + rests == total * before && sum * scaled + rest == total * w
    ensures (placed + scaled) * sum + (rests + rest) == total * (before + w)
  {
    Distribute3(sum, placed, scaled);
    Distribute3(total, before, w);
  }

  /** One more scaled share keeps the running sum within what the weights so far deserve. */
  lemma ScaledStep(total: u64, before: nat, w: u64, all: nat, sum: u64, placed: nat, scaled: u64, i: nat)
    requires 0 < sum == Saturate(all) && before + w <= all && i < U64_MAX
    requires scaled == if total * w > U64_MAX then U64_MAX / sum else total * w / sum
    requires all <= U64_MAX ==> placed * sum <= total * before
    requires all > U64_MAX ==> placed <= i
    ensures all <= U64_MAX ==> (placed + scaled) * sum <= total * (before + w)
    ensures all > U64_MAX ==> scaled <= 1
    ensures placed + scaled <= U64_MAX
  {
    var n := if total * w > U64_MAX then U64_MAX else total * w;
    DivMod(n, sum);
    Distribute3(total, before, w);
    Distribute3(sum, placed, scaled);
    if all <= U64_MAX {
      MulMono(before + w, all, total);
      MulCancel(placed + scaled, total, sum);
    }
  }

  /** Saturated weights can over-assign; the excess is taken back from the highest indices. */
  method ClampDown(shares: seq<u64>, excess: nat) returns (clamped: seq<u64>)
    requires excess <= Sum(shares)
    ensures |clamped| == |shares| && Sum(clamped) == Sum(shares) - excess
  {
    clamped := shares;
    var left: nat := excess;
    var i := |shares|;
    assert shares[..i] == shares;
    while i > 0 && left > 0
      invariant i <= |shares| == |clamped|
      invariant clamped[..i] == shares[..i]
      invariant Sum(clamped) == Sum(shares) - excess + left
      invariant left <= Sum(clamped[..i])
      decreases i
    {
      i := i - 1;
      SumPrefix(clamped, i);
      var take := if clamped[i] < left then clamped[i] else left;
      SumUpdate(clamped, i, clamped[i] - take);
      var next := clamped[i := clamped[i] - take];
      assert next[..i] == clamped[..i];
      clamped := next;
      left := left - take;
    }
    if i == 0 {
      assert clamped[..i] == [];
    }
  }

  method Largest(remainders: seq<u64>) returns (best: nat)
    requires remainders != []
    ensures best < |remainders|
    ensures forall j :: 0 <= j < |remainders| && j != best ==> Before(remainders, best, j)
  {
    best := 0;
    for i := 0 to |remainders|
      invariant best < |remainders| && best <= i
      invariant forall j :: 0 <= j < i && j != best ==>
        remainders[best] > remainders[j] || (remainders[best] == remainders[j] && best < j)
    {
      if remainders[i] > remainders[best] || (remainders[i] == remainders[best] && i < best) {
        best := i;
      }
    }
  }

  /** The state of the extras part way: who has one, who is still waiting, and who goes first. */
  ghost predicate PartWay(floors: seq<nat>, rem: seq<nat>, shares: seq<nat>, waiting: seq<nat>, sum: nat)
    requires |floors| == |rem|
  {
    && |shares| == |waiting| == |floors|
    && LargestRemainder(floors, rem, shares)
    && (forall i :: 0 <= i < |shares| ==> rem[i] < sum)
    && (forall i :: 0 <= i < |shares| ==> waiting[i] == if shares[i] == floors[i] then rem[i] else 0)
  }

  lemma GiveOne(floors: seq<nat>, rem: seq<nat>, shares: seq<nat>, waiting: seq<nat>, sum: nat, best: nat)
    requires |floors| == |rem| && PartWay(floors, rem, shares, waiting, sum)
    requires best < |waiting| && waiting[best] > 0
    requires forall j :: 0 <= j < |waiting| && j != best ==> Before(waiting, best, j)
    ensures PartWay(floors, rem, shares[best := shares[best] + 1], waiting[best := 0], sum)
  {
    assert shares[best] == floors[best];
    var next := shares[best := shares[best] + 1];
    forall i, j | 0 <= i < |next| && 0 <= j < |next| && next[i] == floors[i] + 1 && next[j] == floors[j]
      ensures Before(rem, i, j)
    {
      if i == best {
        assert Before(waiting, best, j);
      } else {
        assert shares[i] == floors[i] + 1;
      }
    }
  }

  method GiveExtras(floors: seq<u64>, rem: seq<u64>, left: nat, total: u64, sum: nat) returns (shares: seq<u64>)
    requires |floors| == |rem| > 0 && Sum(floors) + left == total
    ensures |shares| == |floors| && Sum(shares) == total
    ensures sum > 0 && (forall i :: 0 <= i < |rem| ==> rem[i] < sum) && Sum(rem) >= left * sum ==>
              LargestRemainder(floors, rem, shares)
  {
    shares := floors;
    var waiting := rem;
    var remainder: nat := left;
    ghost var exact := sum > 0 && (forall i :: 0 <= i < |rem| ==> rem[i] < sum) && Sum(rem) >= left * sum;
    while remainder > 0
      invariant |shares| == |floors| == |waiting| && Sum(shares) + remainder == total
      invariant exact ==> PartWay(floors, rem, shares, waiting, sum) && Sum(waiting) >= remainder * sum
      decreases remainder
    {
      hide LargestRemainder;
      var best := Largest(waiting);
      if exact {
        StillWaiting(waiting, remainder, sum, best);
        GiveOne(floors, rem, shares, waiting, sum, best);
        assert remainder * sum == (remainder - 1) * sum + sum;
      }
      SumAtMost(shares, best);
      SumUpdate(shares, best, shares[best] + 1);
      SumUpdate(waiting, best, 0);
      shares := shares[best := shares[best] + 1];
      waiting := waiting[best := 0];
      remainder := remainder - 1;
    }
  }

  lemma SumAtMost(s: seq<nat>, i: nat)
    requires i < |s|
    ensures s[i] <= Sum(s)
  {
    SumPrefix(s, i);
  }

  lemma StillWaiting(waiting: seq<nat>, remainder: nat, sum: nat, best: nat)
    requires remainder > 0 && sum > 0 && Sum(waiting) >= remainder * sum && best < |waiting|
    requires forall j :: 0 <= j < |waiting| && j != best ==> Before(waiting, best, j)
    ensures waiting[best] > 0
  {
    MulGrows(remainder, sum);
    SumPositive(waiting);
    var i :| 0 <= i < |waiting| && waiting[i] > 0;
    assert i != best ==> Before(waiting, best, i);
  }

  /**
   * Splits `total` over `weights`. The shares always sum to the total, through every overflow and clamp path;
   * where nothing overflows they are the largest-remainder split, and zero weights mean equal weights.
   */
  method Distribute(total: u64, weights: seq<u64>) returns (shares: seq<u64>)
    requires |weights| <= U64_MAX
    ensures |shares| == |weights|
    ensures weights != [] ==> Sum(shares) == total
    ensures Exact(total, weights) ==>
      LargestRemainder(Floors(total, weights, Sum(weights)), Remainders(total, weights, Sum(weights)), shares)
    ensures weights != [] && Sum(weights) == 0 ==>
      forall i :: 0 <= i < |weights| ==> shares[i] == total / |weights| + (if i < total % |weights| then 1 else 0)
  {
    if weights == [] {
      return [];
    }
    hide LargestRemainder;
    var sum := WeightSum(weights);
    if sum == 0 {
      shares := EqualSplit(total, |weights|);
      return;
    }
    var floors, remainders, placed := Scale(total, weights, sum);
    if placed > total {
      ghost var exact := Exact(total, weights);
      assert exact ==> placed * sum <= total * sum;
      if exact {
        MulCancel(placed, total, sum);
      }
      shares := ClampDown(floors, placed - total);
      return;
    }
    if Exact(total, weights) {
      ExtrasFit(total, weights, sum, floors, remainders, placed);
    }
    shares := GiveExtras(floors, remainders, total - placed, total, sum);
  }

  lemma Distributes(a: nat, b: nat, s: nat)
    requires b <= a
    ensures a * s == (a - b) * s + b * s
  {
  }

  lemma RemaindersSmall(total: u64, weights: seq<u64>, sum: u64)
    requires Exact(total, weights) && sum == Sum(weights)
    ensures forall i :: 0 <= i < |Remainders(total, weights, sum)| ==> Remainders(total, weights, sum)[i] < sum
  {
    forall i | 0 <= i < |weights| ensures Remainders(total, weights, sum)[i] < sum {
      DivMod(total * weights[i], sum);
    }
  }

  lemma ExtrasFit(total: u64, weights: seq<u64>, sum: u64, floors: seq<u64>, rem: seq<u64>, placed: u64)
    requires Exact(total, weights) && sum == Sum(weights) && placed <= total
    requires rem == Remainders(total, weights, sum) && placed * sum + Sum(rem) == total * sum
    ensures (forall i :: 0 <= i < |rem| ==> rem[i] < sum) && Sum(rem) >= (total - placed) * sum
  {
    RemaindersSmall(total, weights, sum);
    Distributes(total, placed, sum);
    hide Remainders, Sum, Exact;
  }

  /** Equal weights: extras go to the lowest indices, so the split is the equal one. */
  lemma UniformLowestFirst(total: u64, weights: seq<u64>, shares: seq<nat>, i: nat, j: nat)
    requires Exact(total, weights) && i < j < |weights| && weights[i] == weights[j]
    requires LargestRemainder(Floors(total, weights, Sum(weights)), Remainders(total, weights, Sum(weights)), shares)
    ensures shares[j] <= shares[i] <= shares[j] + 1
  {
    var floors, rem := Floors(total, weights, Sum(weights)), Remainders(total, weights, Sum(weights));
    assert floors[i] == floors[j] && rem[i] == rem[j];
    assert shares[j] == floors[j] + 1 && shares[i] == floors[i] ==> Before(rem, j, i);
  }
}
