/** When evidence is recent enough to say something about the present. */
module Freshness {
  import opened Checked

  datatype Freshness = NotKnown | Fresh | Stale | Aged

  datatype FreshnessPolicy = FreshnessPolicy(freshWindow: i64, expireWindow: i64, requireReconfirmation: bool)

  /** Instants are nanoseconds; zero is the unknown instant. */
  datatype Context = Context(now: i64, policy: FreshnessPolicy, fromPreviousEpoch: bool)

  function Classify(observedAt: i64, receivedAt: i64, ctx: Context): Freshness {
    if ctx.fromPreviousEpoch && ctx.policy.requireReconfirmation then NotKnown
    else if observedAt == 0 then NotKnown
    else
      var effective :=
        if receivedAt != 0 && observedAt > receivedAt && TimeDifference(observedAt, receivedAt) > 0
        then receivedAt else observedAt;
      var reference := if ctx.now != 0 then ctx.now else receivedAt;
      if reference == 0 then NotKnown
      else if effective > reference then NotKnown
      else
        var age := TimeDifference(reference, effective);
        if age <= ctx.policy.freshWindow then Fresh
        else if age <= ctx.policy.expireWindow then Stale
        else Aged
  }

  predicate ExceedsClockSkew(observedAt: i64, receivedAt: i64, maxSkew: i64) {
    observedAt != 0 && receivedAt != 0 && observedAt > receivedAt && TimeDifference(observedAt, receivedAt) > maxSkew
  }

  /** Exceeding the skew is a statement about the true difference, whatever the two instants are. */
  lemma SkewIsExact(observedAt: i64, receivedAt: i64, maxSkew: i64)
    requires 0 <= maxSkew < I64_MAX
    ensures ExceedsClockSkew(observedAt, receivedAt, maxSkew)
       <==> observedAt != 0 && receivedAt != 0 && observedAt - receivedAt > maxSkew
  {
  }

  function Rank(f: Freshness): nat {
    match f
    case NotKnown => 0
    case Fresh => 1
    case Stale => 2
    case Aged => 3
  }

  /** The later the evaluation instant, the worse the class: evidence that has aged never becomes fresh again. */
  lemma FreshnessOnlyAges(observedAt: i64, receivedAt: i64, earlier: Context, later: Context)
    requires earlier.now != 0 && later.now != 0 && earlier.now <= later.now
    requires later == earlier.(now := later.now)
    ensures var before := Classify(observedAt, receivedAt, earlier);
            before != NotKnown ==> Rank(before) <= Rank(Classify(observedAt, receivedAt, later))
  {
  }

  /** A stamp from the future is worth exactly what the receive instant is worth. */
  lemma FutureStampGainsNothing(observedAt: i64, receivedAt: i64, ctx: Context)
    requires receivedAt != 0 && observedAt > receivedAt && observedAt != 0
    ensures Classify(observedAt, receivedAt, ctx) == Classify(receivedAt, receivedAt, ctx)
  {
  }

  /** A source clock ahead of ours never counts beyond the receive instant. */
  function Effective(observedAt: i64, receivedAt: i64): i64 {
    if receivedAt != 0 && receivedAt < observedAt then receivedAt else observedAt
  }

  /** Evidence can be called fresh exactly when its distance to the evaluation instant is inside the window. */
  lemma FreshExactlyInWindow(observedAt: i64, receivedAt: i64, ctx: Context)
    requires ctx.now != 0 && 0 <= ctx.policy.freshWindow < I64_MAX
    ensures Classify(observedAt, receivedAt, ctx) == Fresh
       <==> (&& !(ctx.fromPreviousEpoch && ctx.policy.requireReconfirmation)
             && observedAt != 0
             && 0 <= ctx.now - Effective(observedAt, receivedAt) <= ctx.policy.freshWindow)
  {
  }
}
