/** Accounting for one cumulative counter, and what its total means. */
module Counters {
  import opened Checked

  /** The state of one accumulator: the interval baseline, the last value, and what was counted. */
  datatype Acc = Acc(baseline: Option<u64>, last: Option<u64>, accumulated: u64,
                     unknownIntervals: u64, regressions: u64, saturated: bool)

  const ZERO: Acc := Acc(None, None, 0, 0, 0, false)

  datatype Outcome = BaselineEstablished | Advanced | Unchanged | Regressed | Held | Saturated

  function LastOr0(a: Acc): u64 {
    if a.last.Some? then a.last.value else 0
  }

  function ObserveOutcome(a: Acc, value: u64, regressionAsReset: bool): Outcome {
    if a.baseline.None? then BaselineEstablished
    else if value > LastOr0(a) then
      if CheckedAdd(a.accumulated, value - LastOr0(a)).overflow then Saturated else Advanced
    else if value == LastOr0(a) then Unchanged
    else if regressionAsReset then Regressed else Held
  }

  function Observed(a: Acc, value: u64, regressionAsReset: bool): Acc {
    match ObserveOutcome(a, value, regressionAsReset)
    case BaselineEstablished => a.(baseline := Some(value), last := Some(value))
    case Advanced => a.(last := Some(value), accumulated := a.accumulated + value - LastOr0(a))
    case Saturated => a.(last := Some(value), accumulated := U64_MAX, saturated := true)
    case Unchanged => a
    case Held => a.(regressions := Inc64(a.regressions))
    case Regressed => a.(baseline := Some(value), last := Some(value),
                         regressions := Inc64(a.regressions),
                         unknownIntervals := Inc64(a.unknownIntervals))
  }

  /** A break in observation: nothing is consumed, and a gap is counted if anything was being tracked. */
  function Break(a: Acc): Acc {
    a.(baseline := None, last := None,
       unknownIntervals := if a.last.Some? then Inc64(a.unknownIntervals) else a.unknownIntervals)
  }

  /** The mutable accumulator of the runtime. */
  class CounterAccumulator {
    var baseline: Option<u64>
    var last: Option<u64>
    var accumulated: u64
    var unknownIntervals: u64
    var regressions: u64
    var saturated: bool

    function Value(): Acc
      reads this
    {
      Acc(baseline, last, accumulated, unknownIntervals, regressions, saturated)
    }

    constructor ()
      ensures Value() == ZERO
    {
      baseline, last, accumulated, unknownIntervals, regressions, saturated := None, None, 0, 0, 0, false;
    }

    /** Restores the complete state of a recorded accumulator. */
    constructor Restore(a: Acc)
      ensures Value() == a
    {
      baseline, last, accumulated := a.baseline, a.last, a.accumulated;
      unknownIntervals, regressions, saturated := a.unknownIntervals, a.regressions, a.saturated;
    }

    method Observe(value: u64, treatRegressionAsReset: bool) returns (outcome: Outcome)
      modifies this
      ensures Value() == Observed(old(Value()), value, treatRegressionAsReset)
      ensures outcome == ObserveOutcome(old(Value()), value, treatRegressionAsReset)
    {
      if baseline.None? {
        baseline := Some(value);
        last := Some(value);
        return BaselineEstablished;
      }
      var previous := if last.Some? then last.value else 0;
      if value > previous {
        var sum := CheckedAdd(accumulated, value - previous);
        last := Some(value);
        if sum.overflow {
          saturated := true;
          accumulated := U64_MAX;
          return Saturated;
        }
        accumulated := sum.value;
        return Advanced;
      }
      if value == previous {
        return Unchanged;
      }
      regressions := Inc64(regressions);
      if !treatRegressionAsReset {
        return Held;
      }
      unknownIntervals := Inc64(unknownIntervals);
      baseline := Some(value);
      last := Some(value);
      return Regressed;
    }

    method StartNewInterval(newBaseline: Option<u64>)
      modifies this
      ensures Value() == Break(old(Value())).(baseline := newBaseline, last := newBaseline)
    {
      if last.Some? {
        unknownIntervals := Inc64(unknownIntervals);
      }
      baseline := newBaseline;
      last := newBaseline;
    }

    method ResetAll()
      modifies this
      ensures Value() == ZERO
    {
      baseline, last := None, None;
      accumulated, unknownIntervals, regressions := 0, 0, 0;
      saturated := false;
    }
  }

  // ---- what the total means ------------------------------------------------

  /** What happens to one counter, in canonical order. */
  datatype Event = Reading(value: u64) | Boundary

  function Feed(a: Acc, e: Event, regressionAsReset: bool): Acc {
    match e
    case Reading(v) => Observed(a, v, regressionAsReset)
    case Boundary => Break(a)
  }

  function Run(events: seq<Event>, regressionAsReset: bool): Acc {
    if events == [] then ZERO
    else Feed(Run(events[..|events| - 1], regressionAsReset), events[|events| - 1], regressionAsReset)
  }

  /** The uninterrupted stretches of readings; always at least one, the last still open. */
  function Intervals(events: seq<Event>): (runs: seq<seq<u64>>)
    ensures |runs| > 0
  {
    if events == [] then [[]]
    else
      var runs := Intervals(events[..|events| - 1]);
      match events[|events| - 1]
      case Boundary => runs + [[]]
      case Reading(v) => runs[..|runs| - 1] + [runs[|runs| - 1] + [v]]
  }

  /** Sum of the increases between neighbouring readings. */
  function PositiveDeltas(run: seq<u64>): nat {
    if |run| < 2 then 0
    else PositiveDeltas(run[..|run| - 1]) + (if run[|run| - 1] > run[|run| - 2] then run[|run| - 1] - run[|run| - 2] else 0)
  }

  function Descents(run: seq<u64>): nat {
    if |run| < 2 then 0
    else Descents(run[..|run| - 1]) + (if run[|run| - 1] < run[|run| - 2] then 1 else 0)
  }

  function Maximum(run: seq<u64>): (m: u64)
    requires run != []
    ensures m in run && forall v :: v in run ==> v <= m
  {
    var v := run[|run| - 1];
    if |run| == 1 then v
    else
      var m := Maximum(run[..|run| - 1]);
      assert run == run[..|run| - 1] + [v];
      if v > m then v else m
  }

  /** Readings below what an earlier reading of the stretch had reached. */
  function BelowMaximum(run: seq<u64>): nat {
    if |run| < 2 then 0
    else BelowMaximum(run[..|run| - 1]) + (if run[|run| - 1] < Maximum(run[..|run| - 1]) then 1 else 0)
  }

  /** Consumption proven inside one stretch: increases under the reset policy, max minus first under hold. */
  function IntervalTotal(run: seq<u64>, regressionAsReset: bool): nat {
    if run == [] then 0
    else if regressionAsReset then PositiveDeltas(run)
    else
      assert run[0] in run;
      Maximum(run) - run[0]
  }

  function TrueTotal(runs: seq<seq<u64>>, regressionAsReset: bool): nat {
    if runs == [] then 0
    else TrueTotal(runs[..|runs| - 1], regressionAsReset) + IntervalTotal(runs[|runs| - 1], regressionAsReset)
  }

  /** Regressions: each descent when a descent is a reset, each reading below the maximum when it is held. */
  function Regressions(runs: seq<seq<u64>>, regressionAsReset: bool): nat {
    if runs == [] then 0
    else
      var run := runs[|runs| - 1];
      Regressions(runs[..|runs| - 1], regressionAsReset) + (if regressionAsReset then Descents(run) else BelowMaximum(run))
  }

  /** Gaps nobody observed: descents treated as resets, and every closed stretch that held a reading. */
  function Gaps(runs: seq<seq<u64>>, regressionAsReset: bool): nat
    requires runs != []
  {
    var open := runs[|runs| - 1];
    (if regressionAsReset then Descents(open) else 0) +
    (if |runs| == 1 then 0
     else Gaps(runs[..|runs| - 1], regressionAsReset) + (if runs[|runs| - 2] != [] then 1 else 0))
  }

  /** The value the accumulator compares the next reading against. */
  function Reference(run: seq<u64>, regressionAsReset: bool): Option<u64> {
    if run == [] then None
    else if regressionAsReset then Some(run[|run| - 1])
    else Some(Maximum(run))
  }

  lemma IntervalStep(run: seq<u64>, v: u64, reset: bool)
    requires run != []
    ensures var next := run + [v];
            var reference := Reference(run, reset).value;
            && IntervalTotal(next, reset) == IntervalTotal(run, reset) + (if v > reference then v - reference else 0)
            && Reference(next, reset) == Some(if reset || v > reference then v else reference)
            && Descents(next) == Descents(run) + (if v < run[|run| - 1] then 1 else 0)
            && BelowMaximum(next) == BelowMaximum(run) + (if v < Maximum(run) then 1 else 0)
  {
    var next := run + [v];
    assert next[..|next| - 1] == run;
    assert next[0] == run[0];
  }

  /** `TrueTotal`, `Gaps` and `Regressions` after one more event. */
  lemma IntervalsStep(runs: seq<seq<u64>>, v: u64, reset: bool)
    requires runs != []
    ensures var open := runs[|runs| - 1];
            var next := runs[..|runs| - 1] + [open + [v]];
            && TrueTotal(next, reset) == TrueTotal(runs, reset) - IntervalTotal(open, reset) + IntervalTotal(open + [v], reset)
            && Gaps(next, reset) == Gaps(runs, reset) + (if reset then Descents(open + [v]) - Descents(open) else 0)
            && Regressions(next, reset) == Regressions(runs, reset)
                 + (if reset then Descents(open + [v]) - Descents(open) else BelowMaximum(open + [v]) - BelowMaximum(open))
  {
    var next := runs[..|runs| - 1] + [runs[|runs| - 1] + [v]];
    assert next[..|next| - 1] == runs[..|runs| - 1];
  }

  lemma BoundaryStep(runs: seq<seq<u64>>, reset: bool)
    requires runs != []
    ensures TrueTotal(runs + [[]], reset) == TrueTotal(runs, reset)
    ensures Regressions(runs + [[]], reset) == Regressions(runs, reset)
    ensures Gaps(runs + [[]], reset) == Gaps(runs, reset) + (if runs[|runs| - 1] != [] then 1 else 0)
  {
    var next := runs + [[]];
    assert next[..|next| - 1] == runs;
  }

  /** The accumulator holds this total, capped, these counts, wrapped, and this reference. */
  ghost predicate Holds(a: Acc, total: nat, gaps: nat, regressions: nat, reference: Option<u64>) {
    && a.accumulated == Saturate(total)
    && (a.saturated <==> total > U64_MAX)
    && a.unknownIntervals == Wrap64(gaps)
    && a.regressions == Wrap64(regressions)
    && a.last == reference
    && (a.baseline.Some? <==> a.last.Some?)
  }

  /** `a` is the account of these stretches: the exact total, every gap and every regression. */
  ghost predicate Accounts(a: Acc, runs: seq<seq<u64>>, reset: bool)
    requires runs != []
  {
    Holds(a, TrueTotal(runs, reset), Gaps(runs, reset), Regressions(runs, reset), Reference(runs[|runs| - 1], reset))
  }

  lemma ReadingHolds(a: Acc, total: nat, gaps: nat, regressions: nat, reference: u64, v: u64, reset: bool)
    requires Holds(a, total, gaps, regressions, Some(reference))
    ensures Holds(Observed(a, v, reset), total + (if v > reference then v - reference else 0),
                  gaps + (if reset && v < reference then 1 else 0), regressions + (if v < reference then 1 else 0),
                  Some(if reset || v > reference then v else reference))
  {
    WrapNext(gaps);
    WrapNext(regressions);
    hide Wrap64;
  }

  lemma AccountsBoundary(a: Acc, runs: seq<seq<u64>>, reset: bool)
    requires runs != [] && Accounts(a, runs, reset)
    ensures Accounts(Break(a), runs + [[]], reset)
  {
    WrapNext(Gaps(runs, reset));
    BoundaryStep(runs, reset);
    hide Wrap64, TrueTotal, Gaps, Regressions;
  }

  lemma AccountsFirstReading(a: Acc, runs: seq<seq<u64>>, v: u64, reset: bool)
    requires runs != [] && runs[|runs| - 1] == [] && Accounts(a, runs, reset)
    ensures Accounts(Observed(a, v, reset), runs[..|runs| - 1] + [[v]], reset)
  {
    IntervalsStep(runs, v, reset);
    assert [] + [v] == [v];
  }

  /** The stretches after one more reading of an open stretch that has some. */
  lemma NextReading(runs: seq<seq<u64>>, v: u64, reset: bool)
    requires runs != [] && runs[|runs| - 1] != []
    ensures var next := runs[..|runs| - 1] + [runs[|runs| - 1] + [v]];
            var reference := Reference(runs[|runs| - 1], reset).value;
            && Reference(runs[|runs| - 1], reset).Some?
            && TrueTotal(next, reset) == TrueTotal(runs, reset) + (if v > reference then v - reference else 0)
            && Gaps(next, reset) == Gaps(runs, reset) + (if reset && v < reference then 1 else 0)
            && Regressions(next, reset) == Regressions(runs, reset) + (if v < reference then 1 else 0)
            && Reference(next[|next| - 1], reset) == Some(if reset || v > reference then v else reference)
  {
    var open := runs[|runs| - 1];
    var reference := Reference(open, reset).value;
    assert reference == if reset then open[|open| - 1] else Maximum(open);
    IntervalsStep(runs, v, reset);
    IntervalStep(open, v, reset);
    hide TrueTotal, Gaps, Regressions, Descents, BelowMaximum, IntervalTotal, Maximum, Reference;
  }

  lemma AccountsNextReading(a: Acc, runs: seq<seq<u64>>, v: u64, reset: bool)
    requires runs != [] && runs[|runs| - 1] != [] && Accounts(a, runs, reset)
    ensures Accounts(Observed(a, v, reset), runs[..|runs| - 1] + [runs[|runs| - 1] + [v]], reset)
  {
    hide TrueTotal, Gaps, Regressions, Reference, Holds, Observed;
    NextReading(runs, v, reset);
    ReadingHolds(a, TrueTotal(runs, reset), Gaps(runs, reset), Regressions(runs, reset),
                 Reference(runs[|runs| - 1], reset).value, v, reset);
  }

  lemma NothingAccounted(reset: bool)
    ensures Accounts(ZERO, [[]], reset)
  {
  }

  /**
   * Consumption is conserved. Whatever the readings and the breaks between them, the accumulator
   * holds the sum of what each stretch proves, capped at 2^64 - 1 with `saturated` set exactly
   * when the true sum does not fit, and it has counted every gap and every regression (modulo the 64-bit counters).
   */
  lemma {:induction false} Conservation(events: seq<Event>, reset: bool)
    ensures Accounts(Run(events, reset), Intervals(events), reset)
  {
    hide Accounts;
    if events == [] {
      NothingAccounted(reset);
    } else {
      var before := events[..|events| - 1];
      Conservation(before, reset);
      match events[|events| - 1] {
        case Boundary => AccountsBoundary(Run(before, reset), Intervals(before), reset);
        case Reading(v) =>
          var runs := Intervals(before);
          if runs[|runs| - 1] == [] {
            assert [] + [v] == [v];
            AccountsFirstReading(Run(before, reset), runs, v, reset);
          } else {
            AccountsNextReading(Run(before, reset), runs, v, reset);
          }
      }
    }
  }
}
