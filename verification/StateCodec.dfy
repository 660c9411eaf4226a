/** The durable form of the runtime state: flows, generations, sources, history and anomalies. */
module StateCodec {
  import opened Checked
  import opened Evidence
  import opened Wire
  import opened Binary
  import opened BinaryIO
  import Counters
  import Fold
  import ObsCodec
  import Reconcile

  // ---- what is saved -------------------------------------------------------------------------

  datatype Descriptor = Descriptor(id: u64, key: Text, authority: u32, capabilities: Capabilities, advisoryOnly: bool)

  datatype Tallies = Tallies(accepted: u32, refused: u32, dropped: u32, duplicates: u32, conflicts: u32,
                             historicalIncarnations: u32, afterTerminal: u32)

  datatype Instants = Instants(firstObserved: i64, lastObserved: i64, lastReceived: i64, lastProgress: i64)

  datatype Source = Source(
    descriptor: Descriptor, incarnation: u64, epoch: u64, highRevision: u64, highSequence: u64,
    instants: Instants, coverage: Fold.Coverage, hopCapacity: seq<u64>,
    forward: Fold.Accounting, reverse: Fold.Accounting, aggregate: Fold.Accounting,
    forwardTotals: Reconcile.Consumption, reverseTotals: Reconcile.Consumption, aggregateTotals: Reconcile.Consumption,
    observedProgress: bool, lastKind: Kind, lastDirection: Direction, lastClaim: Claim,
    declaredTerminal: Option<FlowState>, declaredCause: StateCause, tallies: Tallies)

  datatype Generation = Generation(
    id: u64, isCurrent: bool, instants: Instants, closedAt: i64, state: FlowState, cause: StateCause,
    coverage: Fold.Coverage, path: Option<u64>, links: seq<u64>, queues: seq<u64>, endpointA: u64, endpointB: u64,
    forward: Reconcile.Consumption, reverse: Reconcile.Consumption, aggregate: Reconcile.Consumption,
    total: Reconcile.Consumption, unresolvedConflict: bool, conflictDetail: Text, sources: seq<Source>)

  datatype Event = Event(at: i64, observedAt: i64, flow: u64, generation: u64, from: FlowState, to: FlowState,
                         cause: StateCause, source: u64, detail: Text)

  datatype Anomaly = Anomaly(kind: AnomalyKind, at: i64, observedAt: i64, flow: u64, generation: u64, source: u64, detail: Text)

  datatype Flow = Flow(
    id: u64, key: Text, collisions: u64, current: u64, revision: u64, state: FlowState, cause: StateCause,
    coverage: Fold.Coverage, createdAt: i64, stateChangedAt: i64, instants: Instants, endpointA: u64, endpointB: u64,
    generations: seq<Generation>, history: seq<Event>, historyDropped: u64, anomalies: seq<Anomaly>, anomaliesDropped: u64)

  // ---- enumerations -----------------------------------------------------------------------------

  function StateNumber(s: FlowState): (n: nat)
    ensures n < 8
  {
    match s
    case Unknown => 0
    case Observed => 1
    case Active => 2
    case Idle => 3
    case Completed => 4
    case Reset => 5
    case Expired => 6
    case Conflicting => 7
  }

  function CauseNumber(c: StateCause): (n: nat)
    ensures n < 14
  {
    match c
    case NoCause => 0
    case FirstObservation => 1
    case ProgressObserved => 2
    case IdleThresholdReached => 3
    case CompletionObserved => 4
    case TerminalCountersObserved => 5
    case ResetObserved => 6
    case CounterRegressionCause => 7
    case ExpiryPolicyCause => 8
    case AuthorityConflict => 9
    case ConflictResolved => 10
    case RecoveredFromJournal => 11
    case GenerationAdvanced => 12
    case EvidenceFenced => 13
  }

  function AnomalyNumber(k: AnomalyKind): (n: nat)
    ensures n < 20
  {
    match k
    case SequenceConflict => 2
    case StaleGenerationEvidence => 5
    case LateEvidenceRejected => 7
    case CounterRegression => 8
    case CounterOverflow => 9
    case ClockSkew => 10
    case CapabilityUnsupported => 12
    case IdentityCollision => 13
    case LimitEviction => 14
    case UnsupportedMetric => 15
    case IncompleteEvidence => 16
    case RestartGap => 18
    case MalformedEvidence => 19
  }

  // ---- shapes -------------------------------------------------------------------------------------

  /** Every bound a reader puts on a saved flow. */
  datatype Bounds = Bounds(key: nat, generations: nat, hops: nat, queues: nat, history: nat, anomalies: nat, detail: nat,
                           sourceHops: nat, conflictDetail: nat)

  /** Sizes are written in 32 bits; nothing else bounds what is written. */
  const UNBOUNDED: Bounds := Bounds(U32_MAX, U32_MAX, U32_MAX, U32_MAX, U32_MAX, U32_MAX, U32_MAX, U32_MAX, U32_MAX)

  const NUM: Shape := Num(8)
  const STATE: Shape := Enum(1, 8)
  const CAUSE: Shape := Enum(1, 14)
  const INSTANTS: Shape := Record([Signed, Signed, Signed, Signed])
  const COVERAGE: Shape := Record([Flag, Flag, Flag, Flag])
  const ACCUMULATOR: Shape := Record([Optional(NUM), Optional(NUM), NUM, NUM, NUM, Flag])
  const DIRECTIONAL: Shape := Record([ACCUMULATOR, ACCUMULATOR, ACCUMULATOR, ObsCodec.FLAGS])
  const CONSUMPTION: Shape := Record([NUM, NUM, NUM, NUM, ObsCodec.FLAGS, Flag])
  const TALLIES: Shape := Record([Num(4), Num(4), Num(4), Num(4), Num(4), Num(4), Num(4)])
  const FENCE: Shape := Record([NUM, NUM, NUM, NUM])
  const ACCOUNTS: Shape := Record([DIRECTIONAL, DIRECTIONAL, DIRECTIONAL, CONSUMPTION, CONSUMPTION, CONSUMPTION])
  const LAST: Shape := Record([Flag, ObsCodec.KINDS, Optional(Enum(4, 8)), CAUSE])

  function DescriptorShape(max: nat): Shape {
    Record([NUM, Str(max), Num(4), ObsCodec.CAPABILITIES, Flag])
  }

  const PROGRESS: Shape := Record([FENCE, INSTANTS, COVERAGE])
  const REST: Shape := Record([ACCOUNTS, LAST, TALLIES])

  function SourceShape(b: Bounds): (s: Shape)
    ensures s.Record? && |s.fields| == 4
  {
    Record([DescriptorShape(b.key), PROGRESS, List(b.sourceHops, NUM), REST])
  }

  const GENERATION_HEAD: Shape := Record([NUM, Flag, INSTANTS, Signed, STATE, CAUSE, COVERAGE, Optional(NUM)])
  const TOTALS: Shape := Record([NUM, NUM, CONSUMPTION, CONSUMPTION, CONSUMPTION, CONSUMPTION, Flag])

  function GenerationShape(b: Bounds): (s: Shape)
    ensures s.Record? && |s.fields| == 6
  {
    Record([GENERATION_HEAD, List(b.hops, NUM), List(b.queues, NUM), TOTALS, Str(b.conflictDetail), List(U32_MAX, SourceShape(b))])
  }

  function EventShape(b: Bounds): Shape {
    Record([Signed, Signed, NUM, NUM, STATE, STATE, CAUSE, NUM, Str(b.detail)])
  }

  function AnomalyShape(b: Bounds): Shape {
    Record([Enum(1, 20), Signed, Signed, NUM, NUM, NUM, Str(b.detail)])
  }

  const FLOW_HEAD: Shape := Record([NUM, NUM, NUM, STATE, CAUSE, COVERAGE, Signed, Signed, INSTANTS, NUM, NUM])

  function FlowShape(b: Bounds): (s: Shape)
    ensures s.Record? && |s.fields| == 8
  {
    Record([NUM, Str(b.key), FLOW_HEAD, List(b.generations, GenerationShape(b)), List(b.history, EventShape(b)), NUM,
            List(b.anomalies, AnomalyShape(b)), NUM])
  }

  // ---- values ---------------------------------------------------------------------------------------

  function InstantItems(t: Instants): seq<Value> {
    [VSigned(t.firstObserved), VSigned(t.lastObserved), VSigned(t.lastReceived), VSigned(t.lastProgress)]
  }

  function CoverageItems(c: Fold.Coverage): seq<Value> {
    [VFlag(c.forwardComplete), VFlag(c.forwardPartial), VFlag(c.reverseComplete), VFlag(c.reversePartial)]
  }

  function AccumulatorItems(a: Counters.Acc): seq<Value> {
    [OptionalNumber(a.baseline), OptionalNumber(a.last), VNum(a.accumulated), VNum(a.unknownIntervals), VNum(a.regressions),
     VFlag(a.saturated)]
  }

  function DirectionalItems(a: Fold.Accounting): seq<Value> {
    [VSeq(AccumulatorItems(a.bytes)), VSeq(AccumulatorItems(a.packets)), VSeq(AccumulatorItems(a.retransmissions)),
     VSeq(ObsCodec.FlagItems(a.bytesUnsupported, a.packetsUnsupported, a.retransmissionsUnsupported))]
  }

  function ConsumptionItems(c: Reconcile.Consumption): seq<Value> {
    [VNum(c.bytes), VNum(c.packets), VNum(c.retransmissions), VNum(c.unknownIntervals),
     VSeq(ObsCodec.FlagItems(c.bytesUnsupported, c.packetsUnsupported, c.retransmissionsUnsupported)), VFlag(c.saturated)]
  }

  function TallyItems(t: Tallies): seq<Value> {
    [VNum(t.accepted), VNum(t.refused), VNum(t.dropped), VNum(t.duplicates), VNum(t.conflicts),
     VNum(t.historicalIncarnations), VNum(t.afterTerminal)]
  }

  function FenceItems(s: Source): seq<Value> {
    [VNum(s.incarnation), VNum(s.epoch), VNum(s.highRevision), VNum(s.highSequence)]
  }

  function AccountItems(s: Source): seq<Value> {
    [VSeq(DirectionalItems(s.forward)), VSeq(DirectionalItems(s.reverse)), VSeq(DirectionalItems(s.aggregate)),
     VSeq(ConsumptionItems(s.forwardTotals)), VSeq(ConsumptionItems(s.reverseTotals)), VSeq(ConsumptionItems(s.aggregateTotals))]
  }

  function LastItems(s: Source): seq<Value> {
    [VFlag(s.observedProgress),
     VSeq([VNum(ObsCodec.KindNumber(s.lastKind)), VNum(ObsCodec.DirectionNumber(s.lastDirection)), VNum(ObsCodec.ClaimNumber(s.lastClaim))]),
     if s.declaredTerminal.Some? then VSome(VNum(StateNumber(s.declaredTerminal.value))) else VNone,
     VNum(CauseNumber(s.declaredCause))]
  }

  function DescriptorItems(d: Descriptor): seq<Value> {
    [VNum(d.id), VStr(d.key), VNum(d.authority), VSeq(ObsCodec.CapabilityItems(d.capabilities)), VFlag(d.advisoryOnly)]
  }

  function ProgressItems(s: Source): seq<Value> {
    [VSeq(FenceItems(s)), VSeq(InstantItems(s.instants)), VSeq(CoverageItems(s.coverage))]
  }

  function RestItems(s: Source): seq<Value> {
    [VSeq(AccountItems(s)), VSeq(LastItems(s)), VSeq(TallyItems(s.tallies))]
  }

  function SourceItems(s: Source): (items: seq<Value>)
    ensures |items| == 4
  {
    [VSeq(DescriptorItems(s.descriptor)), VSeq(ProgressItems(s)), VSeq(Numbers(s.hopCapacity)), VSeq(RestItems(s))]
  }

  function SourceValues(ss: seq<Source>): (vs: seq<Value>)
    ensures |vs| == |ss| && forall i :: 0 <= i < |ss| ==> vs[i] == VSeq(SourceItems(ss[i]))
  {
    seq(|ss|, i requires 0 <= i < |ss| => VSeq(SourceItems(ss[i])))
  }

  function GenerationHeadItems(g: Generation): seq<Value> {
    [VNum(g.id), VFlag(g.isCurrent), VSeq(InstantItems(g.instants)), VSigned(g.closedAt), VNum(StateNumber(g.state)),
     VNum(CauseNumber(g.cause)), VSeq(CoverageItems(g.coverage)), OptionalNumber(g.path)]
  }

  function TotalItems(g: Generation): seq<Value> {
    [VNum(g.endpointA), VNum(g.endpointB), VSeq(ConsumptionItems(g.forward)), VSeq(ConsumptionItems(g.reverse)),
     VSeq(ConsumptionItems(g.aggregate)), VSeq(ConsumptionItems(g.total)), VFlag(g.unresolvedConflict)]
  }

  function GenerationItems(g: Generation): (items: seq<Value>)
    ensures |items| == 6
  {
    [VSeq(GenerationHeadItems(g)), VSeq(Numbers(g.links)), VSeq(Numbers(g.queues)), VSeq(TotalItems(g)), VStr(g.conflictDetail),
     VSeq(SourceValues(g.sources))]
  }

  function GenerationValues(gs: seq<Generation>): (vs: seq<Value>)
    ensures |vs| == |gs| && forall i :: 0 <= i < |gs| ==> vs[i] == VSeq(GenerationItems(gs[i]))
  {
    seq(|gs|, i requires 0 <= i < |gs| => VSeq(GenerationItems(gs[i])))
  }

  function EventItems(e: Event): seq<Value> {
    [VSigned(e.at), VSigned(e.observedAt), VNum(e.flow), VNum(e.generation), VNum(StateNumber(e.from)), VNum(StateNumber(e.to)),
     VNum(CauseNumber(e.cause)), VNum(e.source), VStr(e.detail)]
  }

  function EventValues(es: seq<Event>): (vs: seq<Value>)
    ensures |vs| == |es| && forall i :: 0 <= i < |es| ==> vs[i] == VSeq(EventItems(es[i]))
  {
    seq(|es|, i requires 0 <= i < |es| => VSeq(EventItems(es[i])))
  }

  function AnomalyItems(a: Anomaly): seq<Value> {
    [VNum(AnomalyNumber(a.kind)), VSigned(a.at), VSigned(a.observedAt), VNum(a.flow), VNum(a.generation), VNum(a.source), VStr(a.detail)]
  }

  function AnomalyValues(xs: seq<Anomaly>): (vs: seq<Value>)
    ensures |vs| == |xs| && forall i :: 0 <= i < |xs| ==> vs[i] == VSeq(AnomalyItems(xs[i]))
  {
    seq(|xs|, i requires 0 <= i < |xs| => VSeq(AnomalyItems(xs[i])))
  }

  function FlowHeadItems(f: Flow): seq<Value> {
    [VNum(f.collisions), VNum(f.current), VNum(f.revision), VNum(StateNumber(f.state)), VNum(CauseNumber(f.cause)),
     VSeq(CoverageItems(f.coverage)), VSigned(f.createdAt), VSigned(f.stateChangedAt), VSeq(InstantItems(f.instants)),
     VNum(f.endpointA), VNum(f.endpointB)]
  }

  function FlowItems(f: Flow): (items: seq<Value>)
    ensures |items| == 8
  {
    [VNum(f.id), VStr(f.key), VSeq(FlowHeadItems(f)), VSeq(GenerationValues(f.generations)), VSeq(EventValues(f.history)),
     VNum(f.historyDropped), VSeq(AnomalyValues(f.anomalies)), VNum(f.anomaliesDropped)]
  }

  // ---- exactly what can be read back -------------------------------------------------------------------

  predicate Sized(n: nat, max: nat) {
    n <= max && n <= U32_MAX
  }

  predicate SourceReadable(s: Source, b: Bounds) {
    ObsCodec.Short(s.descriptor.key, b.key) && Sized(|s.hopCapacity|, b.sourceHops)
  }

  predicate GenerationReadable(g: Generation, b: Bounds) {
    && Sized(|g.links|, b.hops) && Sized(|g.queues|, b.queues) && ObsCodec.Short(g.conflictDetail, b.conflictDetail)
    && |g.sources| <= U32_MAX && forall i :: 0 <= i < |g.sources| ==> SourceReadable(g.sources[i], b)
  }

  predicate EventReadable(e: Event, b: Bounds) {
    ObsCodec.Short(e.detail, b.detail)
  }

  predicate AnomalyReadable(a: Anomaly, b: Bounds) {
    ObsCodec.Short(a.detail, b.detail)
  }

  /** Everything a reader with these bounds asks of a saved flow. */
  predicate FlowReadable(f: Flow, b: Bounds) {
    && ObsCodec.Short(f.key, b.key)
    && Sized(|f.generations|, b.generations) && (forall i :: 0 <= i < |f.generations| ==> GenerationReadable(f.generations[i], b))
    && Sized(|f.history|, b.history) && (forall i :: 0 <= i < |f.history| ==> EventReadable(f.history[i], b))
    && Sized(|f.anomalies|, b.anomalies) && (forall i :: 0 <= i < |f.anomalies| ==> AnomalyReadable(f.anomalies[i], b))
  }

  lemma SmallPartsFit(t: Instants, c: Fold.Coverage, n: u64)
    ensures Fits(INSTANTS, VSeq(InstantItems(t))) && Fits(COVERAGE, VSeq(CoverageItems(c))) && Fits(NUM, VNum(n))
  {
    Widths();
    EachFitsRecord(INSTANTS, InstantItems(t));
    EachFitsRecord(COVERAGE, CoverageItems(c));
  }

  lemma AccumulatorFits(a: Counters.Acc)
    ensures Fits(ACCUMULATOR, VSeq(AccumulatorItems(a)))
  {
    Widths();
    EachFitsRecord(ACCUMULATOR, AccumulatorItems(a));
  }

  lemma DirectionalFits(a: Fold.Accounting)
    ensures Fits(DIRECTIONAL, VSeq(DirectionalItems(a)))
  {
    AccumulatorFits(a.bytes);
    AccumulatorFits(a.packets);
    AccumulatorFits(a.retransmissions);
    ObsCodec.FlagFit(a.bytesUnsupported, a.packetsUnsupported, a.retransmissionsUnsupported);
    hide Fits, AccumulatorItems, ObsCodec.FlagItems;
    EachFitsRecord(DIRECTIONAL, DirectionalItems(a));
  }

  lemma ConsumptionFits(c: Reconcile.Consumption)
    ensures Fits(CONSUMPTION, VSeq(ConsumptionItems(c)))
  {
    Widths();
    ObsCodec.FlagFit(c.bytesUnsupported, c.packetsUnsupported, c.retransmissionsUnsupported);
    EachFitsRecord(CONSUMPTION, ConsumptionItems(c));
  }

  lemma AccountsFit(s: Source)
    ensures Fits(ACCOUNTS, VSeq(AccountItems(s)))
  {
    DirectionalFits(s.forward);
    DirectionalFits(s.reverse);
    DirectionalFits(s.aggregate);
    ConsumptionFits(s.forwardTotals);
    ConsumptionFits(s.reverseTotals);
    ConsumptionFits(s.aggregateTotals);
    hide Fits, DirectionalItems, ConsumptionItems;
    EachFitsRecord(ACCOUNTS, AccountItems(s));
  }

  lemma TalliesFit(t: Tallies)
    ensures Fits(TALLIES, VSeq(TallyItems(t)))
  {
    Widths();
    EachFitsRecord(TALLIES, TallyItems(t));
  }

  lemma FenceFits(s: Source)
    ensures Fits(FENCE, VSeq(FenceItems(s)))
  {
    Widths();
    EachFitsRecord(FENCE, FenceItems(s));
  }

  lemma LastFits(s: Source)
    ensures Fits(LAST, VSeq(LastItems(s)))
  {
    Widths();
    var kinds := [VNum(ObsCodec.KindNumber(s.lastKind)), VNum(ObsCodec.DirectionNumber(s.lastDirection)), VNum(ObsCodec.ClaimNumber(s.lastClaim))];
    EachFitsRecord(ObsCodec.KINDS, kinds);
    EachFitsRecord(LAST, LastItems(s));
  }

  lemma DescriptorFitsIff(d: Descriptor, max: nat)
    ensures Fits(DescriptorShape(max), VSeq(DescriptorItems(d))) <==> ObsCodec.Short(d.key, max)
  {
    Widths();
    ObsCodec.CapabilityFit(d.capabilities);
    var shape, items := DescriptorShape(max), DescriptorItems(d);
    RecordFitsIff(shape, items);
    assert Fits(shape.fields[1], items[1]) <==> ObsCodec.Short(d.key, max);
    assert Fits(shape.fields[0], items[0]) && Fits(shape.fields[2], items[2]);
    assert Fits(shape.fields[3], items[3]) && Fits(shape.fields[4], items[4]);
  }

  lemma ProgressFits(s: Source)
    ensures Fits(PROGRESS, VSeq(ProgressItems(s)))
  {
    FenceFits(s);
    SmallPartsFit(s.instants, s.coverage, 0);
    hide Fits, FenceItems, InstantItems, CoverageItems;
    EachFitsRecord(PROGRESS, ProgressItems(s));
  }

  lemma RestFits(s: Source)
    ensures Fits(REST, VSeq(RestItems(s)))
  {
    AccountsFit(s);
    LastFits(s);
    TalliesFit(s.tallies);
    hide Fits, AccountItems, LastItems, TallyItems;
    EachFitsRecord(REST, RestItems(s));
  }

  lemma SourceFitsIff(s: Source, b: Bounds)
    ensures Fits(SourceShape(b), VSeq(SourceItems(s))) <==> SourceReadable(s, b)
  {
    DescriptorFitsIff(s.descriptor, b.key);
    NumbersFit(b.sourceHops, s.hopCapacity);
    ProgressFits(s);
    RestFits(s);
    hide Fits, DescriptorItems, DescriptorShape, ProgressItems, RestItems, Numbers;
    var shape, items := SourceShape(b), SourceItems(s);
    RecordFitsIff(shape, items);
    if EachFits(shape, items) {
      assert Fits(shape.fields[0], items[0]) && Fits(shape.fields[2], items[2]);
    }
  }

  lemma SourcesFitIff(ss: seq<Source>, b: Bounds)
    ensures Fits(List(U32_MAX, SourceShape(b)), VSeq(SourceValues(ss)))
       <==> |ss| <= U32_MAX && forall i :: 0 <= i < |ss| ==> SourceReadable(ss[i], b)
  {
    var list := List(U32_MAX, SourceShape(b));
    var vs := SourceValues(ss);
    ItemsFitIff(list, vs);
    ListFits(U32_MAX, SourceShape(b), vs);
    forall i | 0 <= i < |ss| ensures Fits(list.of, vs[i]) <==> SourceReadable(ss[i], b) {
      SourceFitsIff(ss[i], b);
    }
    hide Fits, SourceReadable;
  }

  lemma ListFits(max: nat, of: Shape, vs: seq<Value>)
    ensures Fits(List(max, of), VSeq(vs)) <==> Sized(|vs|, max) && ItemsFit(List(max, of), vs)
  {
  }

  lemma GenerationHeadFits(g: Generation)
    ensures Fits(GENERATION_HEAD, VSeq(GenerationHeadItems(g)))
  {
    Widths();
    SmallPartsFit(g.instants, g.coverage, 0);
    EachFitsRecord(GENERATION_HEAD, GenerationHeadItems(g));
  }

  lemma TotalsFit(g: Generation)
    ensures Fits(TOTALS, VSeq(TotalItems(g)))
  {
    ConsumptionFits(g.forward);
    ConsumptionFits(g.reverse);
    ConsumptionFits(g.aggregate);
    ConsumptionFits(g.total);
    Widths();
    hide ConsumptionItems;
    EachFitsRecord(TOTALS, TotalItems(g));
  }

  lemma GenerationFitsIff(g: Generation, b: Bounds)
    ensures Fits(GenerationShape(b), VSeq(GenerationItems(g))) <==> GenerationReadable(g, b)
  {
    GenerationHeadFits(g);
    NumbersFit(b.hops, g.links);
    NumbersFit(b.queues, g.queues);
    TotalsFit(g);
    TextFitsIff(g.conflictDetail, b.conflictDetail);
    SourcesFitIff(g.sources, b);
    hide Fits, GenerationHeadItems, Numbers, TotalItems, SourceValues, SourceShape, SourceReadable;
    var shape, items := GenerationShape(b), GenerationItems(g);
    RecordFitsIff(shape, items);
    if EachFits(shape, items) {
      assert Fits(shape.fields[1], items[1]) && Fits(shape.fields[2], items[2]);
      assert Fits(shape.fields[4], items[4]) && Fits(shape.fields[5], items[5]);
    }
  }

  lemma TextFitsIff(t: Text, max: nat)
    ensures Fits(Str(max), VStr(t)) <==> ObsCodec.Short(t, max)
  {
  }

  lemma EventFitsIff(e: Event, b: Bounds)
    ensures Fits(EventShape(b), VSeq(EventItems(e))) <==> EventReadable(e, b)
  {
    Widths();
    TextFitsIff(e.detail, b.detail);
    var shape, items := EventShape(b), EventItems(e);
    RecordFitsIff(shape, items);
    if EachFits(shape, items) {
      assert Fits(shape.fields[8], items[8]);
    }
  }

  lemma AnomalyFitsIff(a: Anomaly, b: Bounds)
    ensures Fits(AnomalyShape(b), VSeq(AnomalyItems(a))) <==> AnomalyReadable(a, b)
  {
    Widths();
    TextFitsIff(a.detail, b.detail);
    var shape, items := AnomalyShape(b), AnomalyItems(a);
    RecordFitsIff(shape, items);
    if EachFits(shape, items) {
      assert Fits(shape.fields[6], items[6]);
    }
  }

  lemma GenerationsFitIff(gs: seq<Generation>, b: Bounds)
    ensures Fits(List(b.generations, GenerationShape(b)), VSeq(GenerationValues(gs)))
       <==> Sized(|gs|, b.generations) && forall i :: 0 <= i < |gs| ==> GenerationReadable(gs[i], b)
  {
    var list := List(b.generations, GenerationShape(b));
    var vs := GenerationValues(gs);
    ItemsFitIff(list, vs);
    ListFits(b.generations, GenerationShape(b), vs);
    forall i | 0 <= i < |gs| ensures Fits(list.of, vs[i]) <==> GenerationReadable(gs[i], b) {
      GenerationFitsIff(gs[i], b);
    }
    hide Fits, GenerationReadable;
  }

  lemma EventsFitIff(es: seq<Event>, b: Bounds)
    ensures Fits(List(b.history, EventShape(b)), VSeq(EventValues(es)))
       <==> Sized(|es|, b.history) && forall i :: 0 <= i < |es| ==> EventReadable(es[i], b)
  {
    var list := List(b.history, EventShape(b));
    var vs := EventValues(es);
    ItemsFitIff(list, vs);
    ListFits(b.history, EventShape(b), vs);
    forall i | 0 <= i < |es| ensures Fits(list.of, vs[i]) <==> EventReadable(es[i], b) {
      EventFitsIff(es[i], b);
    }
    hide Fits, EventReadable;
  }

  lemma AnomaliesFitIff(xs: seq<Anomaly>, b: Bounds)
    ensures Fits(List(b.anomalies, AnomalyShape(b)), VSeq(AnomalyValues(xs)))
       <==> Sized(|xs|, b.anomalies) && forall i :: 0 <= i < |xs| ==> AnomalyReadable(xs[i], b)
  {
    var list := List(b.anomalies, AnomalyShape(b));
    var vs := AnomalyValues(xs);
    ItemsFitIff(list, vs);
    ListFits(b.anomalies, AnomalyShape(b), vs);
    forall i | 0 <= i < |xs| ensures Fits(list.of, vs[i]) <==> AnomalyReadable(xs[i], b) {
      AnomalyFitsIff(xs[i], b);
    }
    hide Fits, AnomalyReadable;
  }

  lemma FlowHeadFits(f: Flow)
    ensures Fits(FLOW_HEAD, VSeq(FlowHeadItems(f)))
  {
    Widths();
    SmallPartsFit(f.instants, f.coverage, 0);
    hide InstantItems, CoverageItems;
    EachFitsRecord(FLOW_HEAD, FlowHeadItems(f));
  }

  lemma FlowFitsIff(f: Flow, b: Bounds)
    ensures Fits(FlowShape(b), VSeq(FlowItems(f))) <==> FlowReadable(f, b)
  {
    SmallPartsFit(f.instants, f.coverage, f.id);
    SmallPartsFit(f.instants, f.coverage, f.historyDropped);
    SmallPartsFit(f.instants, f.coverage, f.anomaliesDropped);
    TextFitsIff(f.key, b.key);
    FlowHeadFits(f);
    GenerationsFitIff(f.generations, b);
    EventsFitIff(f.history, b);
    AnomaliesFitIff(f.anomalies, b);
    hide Fits, FlowHeadItems, GenerationValues, EventValues, AnomalyValues, GenerationShape, EventShape, AnomalyShape,
         GenerationReadable, EventReadable, AnomalyReadable, InstantItems, CoverageItems;
    var shape, items := FlowShape(b), FlowItems(f);
    RecordFitsIff(shape, items);
    if EachFits(shape, items) {
      assert Fits(shape.fields[1], items[1]) && Fits(shape.fields[3], items[3]);
      assert Fits(shape.fields[4], items[4]) && Fits(shape.fields[6], items[6]);
    }
  }

  // ---- bounds nest --------------------------------------------------------------------------------------

  predicate Within(b: Bounds, w: Bounds) {
    && b.key <= w.key && b.generations <= w.generations && b.hops <= w.hops && b.queues <= w.queues && b.history <= w.history
    && b.anomalies <= w.anomalies && b.detail <= w.detail && b.sourceHops <= w.sourceHops && b.conflictDetail <= w.conflictDetail
  }

  lemma DescriptorNarrower(max: nat, wide: nat)
    requires max <= wide
    ensures Narrower(DescriptorShape(max), DescriptorShape(wide))
  {
    SameNarrower(ObsCodec.CAPABILITIES);
    EachNarrower(DescriptorShape(max), DescriptorShape(wide), 0);
  }

  lemma SourceNarrower(b: Bounds, w: Bounds)
    requires Within(b, w)
    ensures Narrower(SourceShape(b), SourceShape(w))
  {
    DescriptorNarrower(b.key, w.key);
    SameNarrower(PROGRESS);
    SameNarrower(REST);
    assert Narrower(List(b.sourceHops, NUM), List(w.sourceHops, NUM));
    hide Narrower, DescriptorShape;
    EachNarrower(SourceShape(b), SourceShape(w), 0);
  }

  lemma ListNarrower(max: nat, wide: nat, s: Shape, w: Shape)
    requires max <= wide && Narrower(s, w)
    ensures Narrower(List(max, s), List(wide, w))
  {
  }

  lemma GenerationNarrower(b: Bounds, w: Bounds)
    requires Within(b, w)
    ensures Narrower(GenerationShape(b), GenerationShape(w))
  {
    SourceNarrower(b, w);
    ListNarrower(U32_MAX, U32_MAX, SourceShape(b), SourceShape(w));
    SameNarrower(NUM);
    ListNarrower(b.hops, w.hops, NUM, NUM);
    ListNarrower(b.queues, w.queues, NUM, NUM);
    SameNarrower(GENERATION_HEAD);
    SameNarrower(TOTALS);
    assert Narrower(Str(b.conflictDetail), Str(w.conflictDetail));
    hide Narrower, SourceShape;
    EachNarrower(GenerationShape(b), GenerationShape(w), 0);
  }

  lemma EventNarrower(b: Bounds, w: Bounds)
    requires Within(b, w)
    ensures Narrower(EventShape(b), EventShape(w)) && Narrower(AnomalyShape(b), AnomalyShape(w))
  {
    EachNarrower(EventShape(b), EventShape(w), 0);
    EachNarrower(AnomalyShape(b), AnomalyShape(w), 0);
  }

  lemma FlowNarrower(b: Bounds, w: Bounds)
    requires Within(b, w)
    ensures Narrower(FlowShape(b), FlowShape(w))
  {
    GenerationNarrower(b, w);
    EventNarrower(b, w);
    ListNarrower(b.generations, w.generations, GenerationShape(b), GenerationShape(w));
    ListNarrower(b.history, w.history, EventShape(b), EventShape(w));
    ListNarrower(b.anomalies, w.anomalies, AnomalyShape(b), AnomalyShape(w));
    SameNarrower(FLOW_HEAD);
    SameNarrower(NUM);
    assert Narrower(Str(b.key), Str(w.key));
    hide Narrower, GenerationShape, EventShape, AnomalyShape;
    EachNarrower(FlowShape(b), FlowShape(w), 0);
  }

  /** What was saved of a flow can be read back under these bounds exactly when it keeps them, and then unchanged. */
  lemma FlowRoundTrip(f: Flow, b: Bounds, rest: seq<byte>)
    requires FlowReadable(f, UNBOUNDED) && Within(b, UNBOUNDED)
    ensures Fits(FlowShape(UNBOUNDED), VSeq(FlowItems(f)))
    ensures Decode(FlowShape(b), Encode(FlowShape(UNBOUNDED), VSeq(FlowItems(f))) + rest)
         == if FlowReadable(f, b) then Some((VSeq(FlowItems(f)), rest)) else None
  {
    FlowFitsIff(f, UNBOUNDED);
    FlowFitsIff(f, b);
    FlowNarrower(b, UNBOUNDED);
    hide Fits, Encode, Decode, FlowItems, FlowShape, FlowReadable;
    DecodesIffFits(FlowShape(b), FlowShape(UNBOUNDED), VSeq(FlowItems(f)), rest);
  }

  lemma DescriptorRoundTrip(d: Descriptor, max: nat, rest: seq<byte>)
    requires ObsCodec.Short(d.key, U32_MAX) && max <= U32_MAX
    ensures Fits(DescriptorShape(U32_MAX), VSeq(DescriptorItems(d)))
    ensures Decode(DescriptorShape(max), Encode(DescriptorShape(U32_MAX), VSeq(DescriptorItems(d))) + rest)
         == if ObsCodec.Short(d.key, max) then Some((VSeq(DescriptorItems(d)), rest)) else None
  {
    DescriptorFitsIff(d, U32_MAX);
    DescriptorFitsIff(d, max);
    DescriptorNarrower(max, U32_MAX);
    hide Fits, Encode, Decode, DescriptorItems, DescriptorShape;
    DecodesIffFits(DescriptorShape(max), DescriptorShape(U32_MAX), VSeq(DescriptorItems(d)), rest);
  }

  // ---- values determine what was saved ----------------------------------------------------------------------

  lemma InstantsDetermined(a: Instants, b: Instants)
    requires InstantItems(a) == InstantItems(b)
    ensures a == b
  {
    var x, y := InstantItems(a), InstantItems(b);
    assert x[0] == y[0] && x[1] == y[1] && x[2] == y[2] && x[3] == y[3];
  }

  lemma CoverageDetermined(a: Fold.Coverage, b: Fold.Coverage)
    requires CoverageItems(a) == CoverageItems(b)
    ensures a == b
  {
    var x, y := CoverageItems(a), CoverageItems(b);
    assert x[0] == y[0] && x[1] == y[1] && x[2] == y[2] && x[3] == y[3];
  }

  lemma AccumulatorDetermined(a: Counters.Acc, b: Counters.Acc)
    requires AccumulatorItems(a) == AccumulatorItems(b)
    ensures a == b
  {
    var x, y := AccumulatorItems(a), AccumulatorItems(b);
    assert x[0] == y[0] && x[1] == y[1] && x[2] == y[2] && x[3] == y[3] && x[4] == y[4] && x[5] == y[5];
  }

  lemma FlagsDetermined(a: bool, b: bool, c: bool, d: bool, e: bool, f: bool)
    requires ObsCodec.FlagItems(a, b, c) == ObsCodec.FlagItems(d, e, f)
    ensures a == d && b == e && c == f
  {
    var x, y := ObsCodec.FlagItems(a, b, c), ObsCodec.FlagItems(d, e, f);
    assert x[0] == y[0] && x[1] == y[1] && x[2] == y[2];
  }

  lemma DirectionalDetermined(a: Fold.Accounting, b: Fold.Accounting)
    requires DirectionalItems(a) == DirectionalItems(b)
    ensures a == b
  {
    var x, y := DirectionalItems(a), DirectionalItems(b);
    assert x[0] == y[0] && x[1] == y[1] && x[2] == y[2] && x[3] == y[3];
    hide AccumulatorItems, ObsCodec.FlagItems;
    AccumulatorDetermined(a.bytes, b.bytes);
    AccumulatorDetermined(a.packets, b.packets);
    AccumulatorDetermined(a.retransmissions, b.retransmissions);
    FlagsDetermined(a.bytesUnsupported, a.packetsUnsupported, a.retransmissionsUnsupported,
                    b.bytesUnsupported, b.packetsUnsupported, b.retransmissionsUnsupported);
  }

  lemma ConsumptionDetermined(a: Reconcile.Consumption, b: Reconcile.Consumption)
    requires ConsumptionItems(a) == ConsumptionItems(b)
    ensures a == b
  {
    var x, y := ConsumptionItems(a), ConsumptionItems(b);
    assert x[0] == y[0] && x[1] == y[1] && x[2] == y[2] && x[3] == y[3] && x[4] == y[4] && x[5] == y[5];
    FlagsDetermined(a.bytesUnsupported, a.packetsUnsupported, a.retransmissionsUnsupported,
                    b.bytesUnsupported, b.packetsUnsupported, b.retransmissionsUnsupported);
  }

  lemma NumbersOfEnumerations(a: FlowState, b: FlowState, c: StateCause, d: StateCause)
    ensures StateNumber(a) == StateNumber(b) ==> a == b
    ensures CauseNumber(c) == CauseNumber(d) ==> c == d
  {
  }

  lemma DescriptorDetermined(a: Descriptor, b: Descriptor)
    requires DescriptorItems(a) == DescriptorItems(b)
    ensures a == b
  {
    var x, y := DescriptorItems(a), DescriptorItems(b);
    assert x[0] == y[0] && x[1] == y[1] && x[2] == y[2] && x[3] == y[3] && x[4] == y[4];
    var c, d := ObsCodec.CapabilityItems(a.capabilities), ObsCodec.CapabilityItems(b.capabilities);
    assert c[0] == d[0] && c[1] == d[1];
    hide ObsCodec.FlagItems;
    ObsCodec.FlagsDetermined(a.capabilities, b.capabilities);
  }

  lemma LastDetermined(a: Source, b: Source)
    requires LastItems(a) == LastItems(b)
    ensures a.observedProgress == b.observedProgress && a.lastKind == b.lastKind && a.lastDirection == b.lastDirection
    ensures a.lastClaim == b.lastClaim && a.declaredTerminal == b.declaredTerminal && a.declaredCause == b.declaredCause
  {
    var x, y := LastItems(a), LastItems(b);
    assert x[0] == y[0] && x[1] == y[1] && x[2] == y[2] && x[3] == y[3];
    var k, l := x[1].items, y[1].items;
    assert k[0] == l[0] && k[1] == l[1] && k[2] == l[2];
    hide StateNumber, CauseNumber, ObsCodec.KindNumber, ObsCodec.DirectionNumber, ObsCodec.ClaimNumber;
    NumbersOfEnumerations(if a.declaredTerminal.Some? then a.declaredTerminal.value else Unknown,
                          if b.declaredTerminal.Some? then b.declaredTerminal.value else Unknown, a.declaredCause, b.declaredCause);
  }

  lemma TalliesDetermined(a: Tallies, b: Tallies)
    requires TallyItems(a) == TallyItems(b)
    ensures a == b
  {
    var x, y := TallyItems(a), TallyItems(b);
    assert x[0] == y[0] && x[1] == y[1] && x[2] == y[2] && x[3] == y[3] && x[4] == y[4] && x[5] == y[5] && x[6] == y[6];
  }

  lemma AccountsDetermined(a: Source, b: Source)
    requires AccountItems(a) == AccountItems(b)
    ensures a.forward == b.forward && a.reverse == b.reverse && a.aggregate == b.aggregate
    ensures a.forwardTotals == b.forwardTotals && a.reverseTotals == b.reverseTotals && a.aggregateTotals == b.aggregateTotals
  {
    var x, y := AccountItems(a), AccountItems(b);
    assert x[0] == y[0] && x[1] == y[1] && x[2] == y[2] && x[3] == y[3] && x[4] == y[4] && x[5] == y[5];
    hide DirectionalItems, ConsumptionItems;
    DirectionalDetermined(a.forward, b.forward);
    DirectionalDetermined(a.reverse, b.reverse);
    DirectionalDetermined(a.aggregate, b.aggregate);
    ConsumptionDetermined(a.forwardTotals, b.forwardTotals);
    ConsumptionDetermined(a.reverseTotals, b.reverseTotals);
    ConsumptionDetermined(a.aggregateTotals, b.aggregateTotals);
  }

  lemma FenceDetermined(a: Source, b: Source)
    requires FenceItems(a) == FenceItems(b)
    ensures a.incarnation == b.incarnation && a.epoch == b.epoch && a.highRevision == b.highRevision && a.highSequence == b.highSequence
  {
    var x, y := FenceItems(a), FenceItems(b);
    assert x[0] == y[0] && x[1] == y[1] && x[2] == y[2] && x[3] == y[3];
  }

  lemma SourceDetermined(a: Source, b: Source)
    requires SourceItems(a) == SourceItems(b)
    ensures a == b
  {
    var x, y := SourceItems(a), SourceItems(b);
    assert x[0] == y[0] && x[1] == y[1] && x[2] == y[2] && x[3] == y[3];
    var p, q := ProgressItems(a), ProgressItems(b);
    assert p[0] == q[0] && p[1] == q[1] && p[2] == q[2];
    var r, s := RestItems(a), RestItems(b);
    assert r[0] == s[0] && r[1] == s[1] && r[2] == s[2];
    hide DescriptorItems, FenceItems, InstantItems, CoverageItems, AccountItems, LastItems, TallyItems, Numbers;
    DescriptorDetermined(a.descriptor, b.descriptor);
    FenceDetermined(a, b);
    InstantsDetermined(a.instants, b.instants);
    CoverageDetermined(a.coverage, b.coverage);
    NumbersInjective(a.hopCapacity, b.hopCapacity);
    AccountsDetermined(a, b);
    LastDetermined(a, b);
    TalliesDetermined(a.tallies, b.tallies);
  }

  lemma SourcesDetermined(a: seq<Source>, b: seq<Source>)
    requires SourceValues(a) == SourceValues(b)
    ensures a == b
  {
    hide SourceItems;
    forall i | 0 <= i < |a| ensures a[i] == b[i] {
      assert SourceValues(a)[i] == SourceValues(b)[i];
      SourceDetermined(a[i], b[i]);
    }
  }

  lemma GenerationHeadDetermined(a: Generation, b: Generation)
    requires GenerationHeadItems(a) == GenerationHeadItems(b)
    ensures a.id == b.id && a.isCurrent == b.isCurrent && a.instants == b.instants && a.closedAt == b.closedAt
    ensures a.state == b.state && a.cause == b.cause && a.coverage == b.coverage && a.path == b.path
  {
    var x, y := GenerationHeadItems(a), GenerationHeadItems(b);
    assert x[0] == y[0] && x[1] == y[1] && x[2] == y[2] && x[3] == y[3];
    assert x[4] == y[4] && x[5] == y[5] && x[6] == y[6] && x[7] == y[7];
    hide InstantItems, CoverageItems, StateNumber, CauseNumber;
    InstantsDetermined(a.instants, b.instants);
    CoverageDetermined(a.coverage, b.coverage);
    NumbersOfEnumerations(a.state, b.state, a.cause, b.cause);
  }

  lemma TotalsDetermined(a: Generation, b: Generation)
    requires TotalItems(a) == TotalItems(b)
    ensures a.endpointA == b.endpointA && a.endpointB == b.endpointB && a.unresolvedConflict == b.unresolvedConflict
    ensures a.forward == b.forward && a.reverse == b.reverse && a.aggregate == b.aggregate && a.total == b.total
  {
    var x, y := TotalItems(a), TotalItems(b);
    assert x[0] == y[0] && x[1] == y[1] && x[2] == y[2] && x[3] == y[3] && x[4] == y[4] && x[5] == y[5] && x[6] == y[6];
    hide ConsumptionItems;
    ConsumptionDetermined(a.forward, b.forward);
    ConsumptionDetermined(a.reverse, b.reverse);
    ConsumptionDetermined(a.aggregate, b.aggregate);
    ConsumptionDetermined(a.total, b.total);
  }

  lemma GenerationDetermined(a: Generation, b: Generation)
    requires GenerationItems(a) == GenerationItems(b)
    ensures a == b
  {
    var x, y := GenerationItems(a), GenerationItems(b);
    assert x[0] == y[0] && x[1] == y[1] && x[2] == y[2] && x[3] == y[3] && x[4] == y[4] && x[5] == y[5];
    hide GenerationHeadItems, Numbers, TotalItems, SourceValues;
    GenerationHeadDetermined(a, b);
    NumbersInjective(a.links, b.links);
    NumbersInjective(a.queues, b.queues);
    TotalsDetermined(a, b);
    SourcesDetermined(a.sources, b.sources);
  }

  lemma EventDetermined(a: Event, b: Event)
    requires EventItems(a) == EventItems(b)
    ensures a == b
  {
    var x, y := EventItems(a), EventItems(b);
    assert x[0] == y[0] && x[1] == y[1] && x[2] == y[2] && x[3] == y[3] && x[4] == y[4];
    assert x[5] == y[5] && x[6] == y[6] && x[7] == y[7] && x[8] == y[8];
    hide StateNumber, CauseNumber;
    NumbersOfEnumerations(a.from, b.from, a.cause, b.cause);
    NumbersOfEnumerations(a.to, b.to, a.cause, b.cause);
  }

  lemma AnomalyDetermined(a: Anomaly, b: Anomaly)
    requires AnomalyItems(a) == AnomalyItems(b)
    ensures a == b
  {
    var x, y := AnomalyItems(a), AnomalyItems(b);
    assert x[0] == y[0] && x[1] == y[1] && x[2] == y[2] && x[3] == y[3] && x[4] == y[4] && x[5] == y[5] && x[6] == y[6];
  }

  lemma ListsDetermined(a: Flow, b: Flow)
    requires GenerationValues(a.generations) == GenerationValues(b.generations)
    requires EventValues(a.history) == EventValues(b.history) && AnomalyValues(a.anomalies) == AnomalyValues(b.anomalies)
    ensures a.generations == b.generations && a.history == b.history && a.anomalies == b.anomalies
  {
    hide GenerationItems, EventItems, AnomalyItems;
    forall i | 0 <= i < |a.generations| ensures a.generations[i] == b.generations[i] {
      assert GenerationValues(a.generations)[i] == GenerationValues(b.generations)[i];
      GenerationDetermined(a.generations[i], b.generations[i]);
    }
    forall i | 0 <= i < |a.history| ensures a.history[i] == b.history[i] {
      assert EventValues(a.history)[i] == EventValues(b.history)[i];
      EventDetermined(a.history[i], b.history[i]);
    }
    forall i | 0 <= i < |a.anomalies| ensures a.anomalies[i] == b.anomalies[i] {
      assert AnomalyValues(a.anomalies)[i] == AnomalyValues(b.anomalies)[i];
      AnomalyDetermined(a.anomalies[i], b.anomalies[i]);
    }
  }

  lemma FlowHeadDetermined(a: Flow, b: Flow)
    requires FlowHeadItems(a) == FlowHeadItems(b)
    ensures a.collisions == b.collisions && a.current == b.current && a.revision == b.revision && a.state == b.state
    ensures a.cause == b.cause && a.coverage == b.coverage && a.createdAt == b.createdAt && a.stateChangedAt == b.stateChangedAt
    ensures a.instants == b.instants && a.endpointA == b.endpointA && a.endpointB == b.endpointB
  {
    var x, y := FlowHeadItems(a), FlowHeadItems(b);
    assert x[0] == y[0] && x[1] == y[1] && x[2] == y[2] && x[3] == y[3] && x[4] == y[4] && x[5] == y[5];
    assert x[6] == y[6] && x[7] == y[7] && x[8] == y[8] && x[9] == y[9] && x[10] == y[10];
    hide InstantItems, CoverageItems, StateNumber, CauseNumber;
    InstantsDetermined(a.instants, b.instants);
    CoverageDetermined(a.coverage, b.coverage);
    NumbersOfEnumerations(a.state, b.state, a.cause, b.cause);
  }

  /** Two flows with one encoding are one flow. */
  lemma FlowDetermined(a: Flow, b: Flow)
    requires FlowItems(a) == FlowItems(b)
    ensures a == b
  {
    var x, y := FlowItems(a), FlowItems(b);
    assert x[0] == y[0] && x[1] == y[1] && x[2] == y[2] && x[3] == y[3] && x[4] == y[4] && x[5] == y[5] && x[6] == y[6] && x[7] == y[7];
    hide FlowHeadItems, GenerationValues, EventValues, AnomalyValues;
    FlowHeadDetermined(a, b);
    ListsDetermined(a, b);
  }
}
