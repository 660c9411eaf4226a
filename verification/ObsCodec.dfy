/** The binary form of an observation, field by field in both directions. */
module ObsCodec {
  import opened Checked
  import opened Evidence
  import opened Binary
  import opened Wire
  import opened BinaryIO

  // ---- shapes -------------------------------------------------------------------------------

  const KEY: Shape := Record([Num(8), Num(8), Num(8), Num(8), Num(8)])
  const FLAGS: Shape := Record([Flag, Flag, Flag])
  const CAPABILITIES: Shape := Record([FLAGS, FLAGS])
  const IDS: Shape := Record([Num(8), Num(8), Num(8), Num(8)])
  const RESOURCES: Shape := Record([Optional(Num(8)), Optional(Num(8)), Optional(Num(8)), Optional(Num(8))])
  const STAMPS: Shape := Record([Signed, Signed])
  const KINDS: Shape := Record([Enum(1, 11), Enum(1, 4), Enum(1, 4)])
  const COUNTERS: Shape := Record([Optional(Num(8)), Optional(Num(8)), Optional(Num(8))])
  const DURATIONS: Shape := Record([Optional(Signed), Optional(Signed)])

  function Keys(max: nat): Shape {
    Record([Str(max), Str(max), Str(max), Str(max), Str(max), Str(max)])
  }

  /** An observation as a journal with these limits accepts it. */
  function ObservationShape(maxKeyBytes: nat, maxHops: nat): (s: Shape)
    ensures s.Record? && |s.fields| == 11
  {
    Record([Num(4), KEY, CAPABILITIES, IDS, RESOURCES, List(maxHops, Num(8)), Keys(maxKeyBytes), STAMPS, KINDS, COUNTERS, DURATIONS])
  }

  // ---- enumerations ---------------------------------------------------------------------------


  function KindNumber(k: Kind): (n: nat)
    ensures n < |ALL_KINDS| && ALL_KINDS[n] == k
  {
    match k
    case KUnknown => 0
    case KOpen => 1
    case KSample => 2
    case KProgress => 3
    case KIdle => 4
    case KClose => 5
    case KReset => 6
    case KError => 7
    case KPathChange => 8
    case KCounterReset => 9
    case KHeartbeat => 10
  }

  function DirectionNumber(d: Direction): (n: nat)
    ensures n < |ALL_DIRECTIONS| && ALL_DIRECTIONS[n] == d
  {
    match d
    case Unspecified => 0
    case Forward => 1
    case Reverse => 2
    case Aggregate => 3
  }

  function ClaimNumber(c: Claim): (n: nat)
    ensures n < |ALL_CLAIMS| && ALL_CLAIMS[n] == c
  {
    match c
    case ClaimUnknown => 0
    case Complete => 1
    case Incomplete => 2
    case Unsupported => 3
  }

  // ---- an observation as a value ------------------------------------------------------------------

  function KeyItems(k: Key): seq<Value> {
    [VNum(k.source), VNum(k.incarnation), VNum(k.epoch), VNum(k.revision), VNum(k.sequence)]
  }

  function FlagItems(a: bool, b: bool, c: bool): seq<Value> {
    [VFlag(a), VFlag(b), VFlag(c)]
  }

  function CapabilityItems(c: Capabilities): seq<Value> {
    [VSeq(FlagItems(c.completion, c.reset, c.path)), VSeq(FlagItems(c.queue, c.counters, c.identity))]
  }

  function IdItems(s: Subject): seq<Value> {
    [VNum(s.flow), VNum(s.generation), VNum(s.endpoint), VNum(s.peerEndpoint)]
  }

  function ResourceItems(s: Subject): seq<Value> {
    [OptionalNumber(s.path), OptionalNumber(s.queue), OptionalNumber(s.link), OptionalNumber(s.pathGeneration)]
  }

  function KeyTexts(s: Subject): seq<Value> {
    [VStr(s.flowKey), VStr(s.endpointKey), VStr(s.peerEndpointKey), VStr(s.pathKey), VStr(s.queueKey), VStr(s.linkKey)]
  }

  function StampItems(o: Observation): seq<Value> {
    [VSigned(o.observedAt), VSigned(o.receivedAt)]
  }

  function KindItems(o: Observation): seq<Value> {
    [VNum(KindNumber(o.kind)), VNum(DirectionNumber(o.direction)), VNum(ClaimNumber(o.claim))]
  }

  function CounterItems(c: CounterSet): seq<Value> {
    [OptionalNumber(c.bytes), OptionalNumber(c.packets), OptionalNumber(c.retransmissions)]
  }

  function DurationItems(o: Observation): seq<Value> {
    [OptionalSigned(o.coveredDuration), OptionalSigned(o.reportedRtt)]
  }

  function ObservationItems(o: Observation): (items: seq<Value>)
    ensures |items| == 11
  {
    [VNum(o.schemaVersion), VSeq(KeyItems(o.key)), VSeq(CapabilityItems(o.capabilities)), VSeq(IdItems(o.subject)),
     VSeq(ResourceItems(o.subject)), VSeq(Numbers(o.subject.hopCapacity)), VSeq(KeyTexts(o.subject)), VSeq(StampItems(o)),
     VSeq(KindItems(o)), VSeq(CounterItems(o.counters)), VSeq(DurationItems(o))]
  }

  /** The limits under which an observation can be read back. */
  predicate KeepsLimits(o: Observation, maxKeyBytes: nat, maxHops: nat) {
    && |o.subject.hopCapacity| <= maxHops && |o.subject.hopCapacity| <= U32_MAX
    && Short(o.subject.flowKey, maxKeyBytes) && Short(o.subject.endpointKey, maxKeyBytes)
    && Short(o.subject.peerEndpointKey, maxKeyBytes) && Short(o.subject.pathKey, maxKeyBytes)
    && Short(o.subject.queueKey, maxKeyBytes) && Short(o.subject.linkKey, maxKeyBytes)
  }

  predicate Short(t: Text, max: nat) {
    |t| <= max && |t| <= U32_MAX
  }

  /** The value determines the observation, apart from the key its source was declared with. */
  lemma ItemsDetermine(a: Observation, b: Observation)
    requires ObservationItems(a) == ObservationItems(b)
    ensures a.(sourceKey := []) == b.(sourceKey := [])
  {
    var x, y := ObservationItems(a), ObservationItems(b);
    assert x[1] == y[1] && x[2] == y[2] && x[3] == y[3] && x[4] == y[4] && x[5] == y[5];
    assert x[6] == y[6] && x[7] == y[7] && x[8] == y[8] && x[9] == y[9] && x[10] == y[10];
    SubjectDetermined(a.subject, b.subject);
    EnvelopeDetermined(a, b);
  }

  lemma SubjectDetermined(a: Subject, b: Subject)
    requires IdItems(a) == IdItems(b) && ResourceItems(a) == ResourceItems(b)
    requires Numbers(a.hopCapacity) == Numbers(b.hopCapacity) && KeyTexts(a) == KeyTexts(b)
    ensures a == b
  {
    NumbersInjective(a.hopCapacity, b.hopCapacity);
    var x, y := IdItems(a), IdItems(b);
    assert x[0] == y[0] && x[1] == y[1] && x[2] == y[2] && x[3] == y[3];
    var p, q := ResourceItems(a), ResourceItems(b);
    assert p[0] == q[0] && p[1] == q[1] && p[2] == q[2] && p[3] == q[3];
    var t, u := KeyTexts(a), KeyTexts(b);
    assert t[0] == u[0] && t[1] == u[1] && t[2] == u[2] && t[3] == u[3] && t[4] == u[4] && t[5] == u[5];
  }

  lemma FlagsDetermined(a: Capabilities, b: Capabilities)
    requires FlagItems(a.completion, a.reset, a.path) == FlagItems(b.completion, b.reset, b.path)
    requires FlagItems(a.queue, a.counters, a.identity) == FlagItems(b.queue, b.counters, b.identity)
    ensures a == b
  {
    var x, y := FlagItems(a.completion, a.reset, a.path), FlagItems(b.completion, b.reset, b.path);
    assert x[0] == y[0] && x[1] == y[1] && x[2] == y[2];
    var z, w := FlagItems(a.queue, a.counters, a.identity), FlagItems(b.queue, b.counters, b.identity);
    assert z[0] == w[0] && z[1] == w[1] && z[2] == w[2];
  }

  lemma EnvelopeDetermined(a: Observation, b: Observation)
    requires KeyItems(a.key) == KeyItems(b.key) && CapabilityItems(a.capabilities) == CapabilityItems(b.capabilities)
    requires StampItems(a) == StampItems(b) && KindItems(a) == KindItems(b)
    requires CounterItems(a.counters) == CounterItems(b.counters) && DurationItems(a) == DurationItems(b)
    ensures a.key == b.key && a.capabilities == b.capabilities && a.observedAt == b.observedAt && a.receivedAt == b.receivedAt
    ensures a.kind == b.kind && a.direction == b.direction && a.claim == b.claim && a.counters == b.counters
    ensures a.coveredDuration == b.coveredDuration && a.reportedRtt == b.reportedRtt
  {
    var k, l := KeyItems(a.key), KeyItems(b.key);
    assert k[0] == l[0] && k[1] == l[1] && k[2] == l[2] && k[3] == l[3] && k[4] == l[4];
    var c, d := CapabilityItems(a.capabilities), CapabilityItems(b.capabilities);
    assert c[0] == d[0] && c[1] == d[1];
    FlagsDetermined(a.capabilities, b.capabilities);
    assert StampItems(a)[0] == StampItems(b)[0] && StampItems(a)[1] == StampItems(b)[1];
    assert KindItems(a)[0] == KindItems(b)[0] && KindItems(a)[1] == KindItems(b)[1] && KindItems(a)[2] == KindItems(b)[2];
    var m, n := CounterItems(a.counters), CounterItems(b.counters);
    assert m[0] == n[0] && m[1] == n[1] && m[2] == n[2];
    assert DurationItems(a)[0] == DurationItems(b)[0] && DurationItems(a)[1] == DurationItems(b)[1];
  }

  // ---- every part fits ---------------------------------------------------------------------------------

  lemma KeyFit(k: Key)
    ensures EachFits(KEY, KeyItems(k)) && Fits(KEY, VSeq(KeyItems(k)))
  {
    Widths();
    EachFitsRecord(KEY, KeyItems(k));
  }

  lemma FlagFit(a: bool, b: bool, c: bool)
    ensures EachFits(FLAGS, FlagItems(a, b, c)) && Fits(FLAGS, VSeq(FlagItems(a, b, c)))
  {
    EachFitsRecord(FLAGS, FlagItems(a, b, c));
  }

  lemma CapabilityFit(c: Capabilities)
    ensures EachFits(CAPABILITIES, CapabilityItems(c)) && Fits(CAPABILITIES, VSeq(CapabilityItems(c)))
  {
    FlagFit(c.completion, c.reset, c.path);
    FlagFit(c.queue, c.counters, c.identity);
    EachFitsRecord(CAPABILITIES, CapabilityItems(c));
  }

  lemma IdFit(s: Subject)
    ensures EachFits(IDS, IdItems(s)) && Fits(IDS, VSeq(IdItems(s)))
  {
    Widths();
    EachFitsRecord(IDS, IdItems(s));
  }

  lemma ResourceFit(s: Subject)
    ensures EachFits(RESOURCES, ResourceItems(s)) && Fits(RESOURCES, VSeq(ResourceItems(s)))
  {
    Widths();
    EachFitsRecord(RESOURCES, ResourceItems(s));
  }

  lemma KeyTextFit(s: Subject, max: nat)
    requires forall i :: 0 <= i < 6 ==> KeyTexts(s)[i].VStr? && Short(KeyTexts(s)[i].text, max)
    ensures EachFits(Keys(max), KeyTexts(s)) && Fits(Keys(max), VSeq(KeyTexts(s)))
  {
    Widths();
    EachFitsRecord(Keys(max), KeyTexts(s));
  }

  lemma StampFit(o: Observation)
    ensures EachFits(STAMPS, StampItems(o)) && Fits(STAMPS, VSeq(StampItems(o)))
  {
    Widths();
    EachFitsRecord(STAMPS, StampItems(o));
  }

  lemma KindFit(o: Observation)
    ensures EachFits(KINDS, KindItems(o)) && Fits(KINDS, VSeq(KindItems(o)))
  {
    Widths();
    EachFitsRecord(KINDS, KindItems(o));
  }

  lemma CounterFit(c: CounterSet)
    ensures EachFits(COUNTERS, CounterItems(c)) && Fits(COUNTERS, VSeq(CounterItems(c)))
  {
    Widths();
    EachFitsRecord(COUNTERS, CounterItems(c));
  }

  lemma DurationFit(o: Observation)
    ensures EachFits(DURATIONS, DurationItems(o)) && Fits(DURATIONS, VSeq(DurationItems(o)))
  {
    Widths();
    EachFitsRecord(DURATIONS, DurationItems(o));
  }

  /** An observation has a readable encoding exactly when it keeps the limits. */
  lemma ObservationFits(o: Observation, maxKeyBytes: nat, maxHops: nat)
    ensures KeepsLimits(o, maxKeyBytes, maxHops) <==> EachFits(ObservationShape(maxKeyBytes, maxHops), ObservationItems(o))
  {
    hide Fits, KeyItems, CapabilityItems, IdItems, ResourceItems, StampItems, KindItems, CounterItems, DurationItems;
    var s, items := ObservationShape(maxKeyBytes, maxHops), ObservationItems(o);
    SchemaFits(o);
    KeyFit(o.key);
    CapabilityFit(o.capabilities);
    IdFit(o.subject);
    ResourceFit(o.subject);
    StampFit(o);
    KindFit(o);
    CounterFit(o.counters);
    DurationFit(o);
    TextsFitIff(o.subject, maxKeyBytes);
    NumbersFit(maxHops, o.subject.hopCapacity);
    if KeepsLimits(o, maxKeyBytes, maxHops) {
      forall i | 0 <= i < |items| ensures Fits(s.fields[i], items[i]) {
      }
    }
    if EachFits(s, items) {
      assert Fits(s.fields[5], items[5]) && Fits(s.fields[6], items[6]);
    }
  }

  lemma SchemaFits(o: Observation)
    ensures Fits(Num(4), VNum(o.schemaVersion))
  {
    Widths();
  }

  lemma TextsFitIff(s: Subject, max: nat)
    ensures Fits(Keys(max), VSeq(KeyTexts(s)))
       <==> && Short(s.flowKey, max) && Short(s.endpointKey, max) && Short(s.peerEndpointKey, max)
            && Short(s.pathKey, max) && Short(s.queueKey, max) && Short(s.linkKey, max)
  {
    if Fits(Keys(max), VSeq(KeyTexts(s))) {
      forall k | 0 <= k < 6 ensures Fits(Str(max), KeyTexts(s)[k]) {
        FieldsFitEach(Keys(max), 0, KeyTexts(s), k);
      }
      assert Fits(Str(max), KeyTexts(s)[0]) && Fits(Str(max), KeyTexts(s)[1]) && Fits(Str(max), KeyTexts(s)[2]);
      assert Fits(Str(max), KeyTexts(s)[3]) && Fits(Str(max), KeyTexts(s)[4]) && Fits(Str(max), KeyTexts(s)[5]);
    }
    if Short(s.flowKey, max) && Short(s.endpointKey, max) && Short(s.peerEndpointKey, max)
       && Short(s.pathKey, max) && Short(s.queueKey, max) && Short(s.linkKey, max) {
      KeyTextFit(s, max);
    }
  }

  // ---- writing ----------------------------------------------------------------------------------------

  method WriteKey(w: Writer, k: Key)
    modifies w
    ensures Fits(KEY, VSeq(KeyItems(k)))
    ensures w.buf == old(w.buf) + Encode(KEY, VSeq(KeyItems(k)))
  {
    KeyFit(k);
    hide Encode, Fits, Wrote, EachFits;
    ghost var items, start := KeyItems(k), w.buf;
    WroteNothing(KEY, items, start);
    ghost var b0 := w.buf;
    w.U64(k.source);
    WroteNext(KEY, 0, items, start, b0, w.buf);
    ghost var b1 := w.buf;
    w.U64(k.incarnation);
    WroteNext(KEY, 1, items, start, b1, w.buf);
    ghost var b2 := w.buf;
    w.U64(k.epoch);
    WroteNext(KEY, 2, items, start, b2, w.buf);
    ghost var b3 := w.buf;
    w.U64(k.revision);
    WroteNext(KEY, 3, items, start, b3, w.buf);
    ghost var b4 := w.buf;
    w.U64(k.sequence);
    WroteNext(KEY, 4, items, start, b4, w.buf);
    WroteAll(KEY, items, start, w.buf);
  }

  method WriteFlags(w: Writer, a: bool, b: bool, c: bool)
    modifies w
    ensures Fits(FLAGS, VSeq(FlagItems(a, b, c)))
    ensures w.buf == old(w.buf) + Encode(FLAGS, VSeq(FlagItems(a, b, c)))
  {
    FlagFit(a, b, c);
    hide Encode, Fits, Wrote, EachFits;
    ghost var items, start := FlagItems(a, b, c), w.buf;
    WroteNothing(FLAGS, items, start);
    ghost var b0 := w.buf;
    w.Boolean(a);
    WroteNext(FLAGS, 0, items, start, b0, w.buf);
    ghost var b1 := w.buf;
    w.Boolean(b);
    WroteNext(FLAGS, 1, items, start, b1, w.buf);
    ghost var b2 := w.buf;
    w.Boolean(c);
    WroteNext(FLAGS, 2, items, start, b2, w.buf);
    WroteAll(FLAGS, items, start, w.buf);
  }

  method WriteCapabilities(w: Writer, c: Capabilities)
    modifies w
    ensures Fits(CAPABILITIES, VSeq(CapabilityItems(c)))
    ensures w.buf == old(w.buf) + Encode(CAPABILITIES, VSeq(CapabilityItems(c)))
  {
    CapabilityFit(c);
    hide Encode, Fits, Wrote, EachFits;
    ghost var items, start := CapabilityItems(c), w.buf;
    WroteNothing(CAPABILITIES, items, start);
    ghost var b0 := w.buf;
    WriteFlags(w, c.completion, c.reset, c.path);
    WroteNext(CAPABILITIES, 0, items, start, b0, w.buf);
    ghost var b1 := w.buf;
    WriteFlags(w, c.queue, c.counters, c.identity);
    WroteNext(CAPABILITIES, 1, items, start, b1, w.buf);
    WroteAll(CAPABILITIES, items, start, w.buf);
  }

  method WriteIds(w: Writer, s: Subject)
    modifies w
    ensures Fits(IDS, VSeq(IdItems(s)))
    ensures w.buf == old(w.buf) + Encode(IDS, VSeq(IdItems(s)))
  {
    IdFit(s);
    hide Encode, Fits, Wrote, EachFits;
    ghost var items, start := IdItems(s), w.buf;
    WroteNothing(IDS, items, start);
    ghost var b0 := w.buf;
    w.U64(s.flow);
    WroteNext(IDS, 0, items, start, b0, w.buf);
    ghost var b1 := w.buf;
    w.U64(s.generation);
    WroteNext(IDS, 1, items, start, b1, w.buf);
    ghost var b2 := w.buf;
    w.U64(s.endpoint);
    WroteNext(IDS, 2, items, start, b2, w.buf);
    ghost var b3 := w.buf;
    w.U64(s.peerEndpoint);
    WroteNext(IDS, 3, items, start, b3, w.buf);
    WroteAll(IDS, items, start, w.buf);
  }

  method WriteResources(w: Writer, s: Subject)
    modifies w
    ensures Fits(RESOURCES, VSeq(ResourceItems(s)))
    ensures w.buf == old(w.buf) + Encode(RESOURCES, VSeq(ResourceItems(s)))
  {
    ResourceFit(s);
    hide Encode, Fits, Wrote, EachFits;
    ghost var items, start := ResourceItems(s), w.buf;
    WroteNothing(RESOURCES, items, start);
    ghost var b0 := w.buf;
    w.OptionalU64(s.path);
    WroteNext(RESOURCES, 0, items, start, b0, w.buf);
    ghost var b1 := w.buf;
    w.OptionalU64(s.queue);
    WroteNext(RESOURCES, 1, items, start, b1, w.buf);
    ghost var b2 := w.buf;
    w.OptionalU64(s.link);
    WroteNext(RESOURCES, 2, items, start, b2, w.buf);
    ghost var b3 := w.buf;
    w.OptionalU64(s.pathGeneration);
    WroteNext(RESOURCES, 3, items, start, b3, w.buf);
    WroteAll(RESOURCES, items, start, w.buf);
  }

  method WriteStamps(w: Writer, o: Observation)
    modifies w
    ensures Fits(STAMPS, VSeq(StampItems(o)))
    ensures w.buf == old(w.buf) + Encode(STAMPS, VSeq(StampItems(o)))
  {
    StampFit(o);
    hide Encode, Fits, Wrote, EachFits;
    ghost var items, start := StampItems(o), w.buf;
    WroteNothing(STAMPS, items, start);
    ghost var b0 := w.buf;
    w.I64(o.observedAt);
    WroteNext(STAMPS, 0, items, start, b0, w.buf);
    ghost var b1 := w.buf;
    w.I64(o.receivedAt);
    WroteNext(STAMPS, 1, items, start, b1, w.buf);
    WroteAll(STAMPS, items, start, w.buf);
  }

  method WriteKinds(w: Writer, o: Observation)
    modifies w
    ensures Fits(KINDS, VSeq(KindItems(o)))
    ensures w.buf == old(w.buf) + Encode(KINDS, VSeq(KindItems(o)))
  {
    KindFit(o);
    hide Encode, Fits, Wrote, EachFits;
    ghost var items, start := KindItems(o), w.buf;
    WroteNothing(KINDS, items, start);
    ghost var b0 := w.buf;
    w.Tag(KindNumber(o.kind), 11);
    WroteNext(KINDS, 0, items, start, b0, w.buf);
    ghost var b1 := w.buf;
    w.Tag(DirectionNumber(o.direction), 4);
    WroteNext(KINDS, 1, items, start, b1, w.buf);
    ghost var b2 := w.buf;
    w.Tag(ClaimNumber(o.claim), 4);
    WroteNext(KINDS, 2, items, start, b2, w.buf);
    WroteAll(KINDS, items, start, w.buf);
  }

  method WriteCounters(w: Writer, c: CounterSet)
    modifies w
    ensures Fits(COUNTERS, VSeq(CounterItems(c)))
    ensures w.buf == old(w.buf) + Encode(COUNTERS, VSeq(CounterItems(c)))
  {
    CounterFit(c);
    hide Encode, Fits, Wrote, EachFits;
    ghost var items, start := CounterItems(c), w.buf;
    WroteNothing(COUNTERS, items, start);
    ghost var b0 := w.buf;
    w.OptionalU64(c.bytes);
    WroteNext(COUNTERS, 0, items, start, b0, w.buf);
    ghost var b1 := w.buf;
    w.OptionalU64(c.packets);
    WroteNext(COUNTERS, 1, items, start, b1, w.buf);
    ghost var b2 := w.buf;
    w.OptionalU64(c.retransmissions);
    WroteNext(COUNTERS, 2, items, start, b2, w.buf);
    WroteAll(COUNTERS, items, start, w.buf);
  }

  method WriteDurations(w: Writer, o: Observation)
    modifies w
    ensures Fits(DURATIONS, VSeq(DurationItems(o)))
    ensures w.buf == old(w.buf) + Encode(DURATIONS, VSeq(DurationItems(o)))
  {
    DurationFit(o);
    hide Encode, Fits, Wrote, EachFits;
    ghost var items, start := DurationItems(o), w.buf;
    WroteNothing(DURATIONS, items, start);
    ghost var b0 := w.buf;
    w.OptionalI64(o.coveredDuration);
    WroteNext(DURATIONS, 0, items, start, b0, w.buf);
    ghost var b1 := w.buf;
    w.OptionalI64(o.reportedRtt);
    WroteNext(DURATIONS, 1, items, start, b1, w.buf);
    WroteAll(DURATIONS, items, start, w.buf);
  }

  // ---- reading ----------------------------------------------------------------------------------------

  function FourNumbers(t: (u64, u64, u64, u64)): seq<Value> {
    [VNum(t.0), VNum(t.1), VNum(t.2), VNum(t.3)]
  }

  function FourOptions(t: (Option<u64>, Option<u64>, Option<u64>, Option<u64>)): seq<Value> {
    [OptionalNumber(t.0), OptionalNumber(t.1), OptionalNumber(t.2), OptionalNumber(t.3)]
  }

  method ReadKey(r: Reader) returns (v: Option<Key>)
    requires r.Valid()
    modifies r`pos, r`ok
    ensures r.Valid()
    ensures v.Some? ==> old(r.ok) && r.ok && Reader.Gives(KEY, old(r.Rest()), VSeq(KeyItems(v.value)), r.Rest())
    ensures v.None? && old(r.ok) ==> Decode(KEY, old(r.Rest())).None?
  {
    hide Decode, DecodeFields, SoFar;
    ghost var start := r.Rest();
    Begin(KEY, start);
    ghost var items: seq<Value> := [];
    Next(KEY, 0, start, items, r.Rest());
    var source := r.U64();
    if source.None? { return None; }
    items := items + [VNum(source.value)];
    Next(KEY, 1, start, items, r.Rest());
    var incarnation := r.U64();
    if incarnation.None? { return None; }
    items := items + [VNum(incarnation.value)];
    Next(KEY, 2, start, items, r.Rest());
    var epoch := r.U64();
    if epoch.None? { return None; }
    items := items + [VNum(epoch.value)];
    Next(KEY, 3, start, items, r.Rest());
    var revision := r.U64();
    if revision.None? { return None; }
    items := items + [VNum(revision.value)];
    Next(KEY, 4, start, items, r.Rest());
    var sequence := r.U64();
    if sequence.None? { return None; }
    items := items + [VNum(sequence.value)];
    Finished(KEY, start, items, r.Rest());
    assert items == KeyItems(Key(source.value, incarnation.value, epoch.value, revision.value, sequence.value));
    return Some(Key(source.value, incarnation.value, epoch.value, revision.value, sequence.value));
  }

  method ReadFlags(r: Reader) returns (v: Option<(bool, bool, bool)>)
    requires r.Valid()
    modifies r`pos, r`ok
    ensures r.Valid()
    ensures v.Some? ==> old(r.ok) && r.ok && Reader.Gives(FLAGS, old(r.Rest()), VSeq(FlagItems(v.value.0, v.value.1, v.value.2)), r.Rest())
    ensures v.None? && old(r.ok) ==> Decode(FLAGS, old(r.Rest())).None?
  {
    hide Decode, DecodeFields, SoFar;
    ghost var start := r.Rest();
    Begin(FLAGS, start);
    ghost var items: seq<Value> := [];
    Next(FLAGS, 0, start, items, r.Rest());
    var a := r.Boolean();
    if a.None? { return None; }
    items := items + [VFlag(a.value)];
    Next(FLAGS, 1, start, items, r.Rest());
    var b := r.Boolean();
    if b.None? { return None; }
    items := items + [VFlag(b.value)];
    Next(FLAGS, 2, start, items, r.Rest());
    var c := r.Boolean();
    if c.None? { return None; }
    items := items + [VFlag(c.value)];
    Finished(FLAGS, start, items, r.Rest());
    assert items == [VFlag(a.value), VFlag(b.value), VFlag(c.value)];
    return Some((a.value, b.value, c.value));
  }

  method ReadCapabilities(r: Reader) returns (v: Option<Capabilities>)
    requires r.Valid()
    modifies r`pos, r`ok
    ensures r.Valid()
    ensures v.Some? ==> old(r.ok) && r.ok && Reader.Gives(CAPABILITIES, old(r.Rest()), VSeq(CapabilityItems(v.value)), r.Rest())
    ensures v.None? && old(r.ok) ==> Decode(CAPABILITIES, old(r.Rest())).None?
  {
    hide Decode, DecodeFields, SoFar;
    ghost var start := r.Rest();
    Begin(CAPABILITIES, start);
    ghost var items: seq<Value> := [];
    Next(CAPABILITIES, 0, start, items, r.Rest());
    var low := ReadFlags(r);
    if low.None? { return None; }
    items := items + [VSeq(FlagItems(low.value.0, low.value.1, low.value.2))];
    Next(CAPABILITIES, 1, start, items, r.Rest());
    var high := ReadFlags(r);
    if high.None? { return None; }
    items := items + [VSeq(FlagItems(high.value.0, high.value.1, high.value.2))];
    Finished(CAPABILITIES, start, items, r.Rest());
    assert items == CapabilityItems(Capabilities(low.value.0, low.value.1, low.value.2, high.value.0, high.value.1, high.value.2));
    return Some(Capabilities(low.value.0, low.value.1, low.value.2, high.value.0, high.value.1, high.value.2));
  }

  method ReadIds(r: Reader) returns (v: Option<(u64, u64, u64, u64)>)
    requires r.Valid()
    modifies r`pos, r`ok
    ensures r.Valid()
    ensures v.Some? ==> old(r.ok) && r.ok && Reader.Gives(IDS, old(r.Rest()), VSeq(FourNumbers(v.value)), r.Rest())
    ensures v.None? && old(r.ok) ==> Decode(IDS, old(r.Rest())).None?
  {
    hide Decode, DecodeFields, SoFar;
    ghost var start := r.Rest();
    Begin(IDS, start);
    ghost var items: seq<Value> := [];
    Next(IDS, 0, start, items, r.Rest());
    var flow := r.U64();
    if flow.None? { return None; }
    items := items + [VNum(flow.value)];
    Next(IDS, 1, start, items, r.Rest());
    var generation := r.U64();
    if generation.None? { return None; }
    items := items + [VNum(generation.value)];
    Next(IDS, 2, start, items, r.Rest());
    var endpoint := r.U64();
    if endpoint.None? { return None; }
    items := items + [VNum(endpoint.value)];
    Next(IDS, 3, start, items, r.Rest());
    var peer := r.U64();
    if peer.None? { return None; }
    items := items + [VNum(peer.value)];
    Finished(IDS, start, items, r.Rest());
    assert items == [VNum(flow.value), VNum(generation.value), VNum(endpoint.value), VNum(peer.value)];
    return Some((flow.value, generation.value, endpoint.value, peer.value));
  }

  method ReadResources(r: Reader) returns (v: Option<(Option<u64>, Option<u64>, Option<u64>, Option<u64>)>)
    requires r.Valid()
    modifies r`pos, r`ok
    ensures r.Valid()
    ensures v.Some? ==> old(r.ok) && r.ok && Reader.Gives(RESOURCES, old(r.Rest()), VSeq(FourOptions(v.value)), r.Rest())
    ensures v.None? && old(r.ok) ==> Decode(RESOURCES, old(r.Rest())).None?
  {
    hide Decode, DecodeFields, SoFar;
    ghost var start := r.Rest();
    Begin(RESOURCES, start);
    ghost var items: seq<Value> := [];
    Next(RESOURCES, 0, start, items, r.Rest());
    var path := r.OptionalU64();
    if path.None? { return None; }
    items := items + [OptionalNumber(path.value)];
    Next(RESOURCES, 1, start, items, r.Rest());
    var queue := r.OptionalU64();
    if queue.None? { return None; }
    items := items + [OptionalNumber(queue.value)];
    Next(RESOURCES, 2, start, items, r.Rest());
    var link := r.OptionalU64();
    if link.None? { return None; }
    items := items + [OptionalNumber(link.value)];
    Next(RESOURCES, 3, start, items, r.Rest());
    var pathGeneration := r.OptionalU64();
    if pathGeneration.None? { return None; }
    items := items + [OptionalNumber(pathGeneration.value)];
    Finished(RESOURCES, start, items, r.Rest());
    assert items == [OptionalNumber(path.value), OptionalNumber(queue.value), OptionalNumber(link.value), OptionalNumber(pathGeneration.value)];
    return Some((path.value, queue.value, link.value, pathGeneration.value));
  }

  function Texts(t: seq<Text>): seq<Value> {
    seq(|t|, i requires 0 <= i < |t| => VStr(t[i]))
  }

  method ReadKeys(r: Reader, max: nat) returns (v: Option<seq<Text>>)
    requires r.Valid()
    modifies r`pos, r`ok
    ensures r.Valid()
    ensures v.Some? ==> |v.value| == 6
    ensures v.Some? ==> old(r.ok) && r.ok && Reader.Gives(Keys(max), old(r.Rest()), VSeq(Texts(v.value)), r.Rest())
    ensures v.None? && old(r.ok) ==> Decode(Keys(max), old(r.Rest())).None?
  {
    hide Decode, DecodeFields, SoFar;
    ghost var start := r.Rest();
    Begin(Keys(max), start);
    ghost var items: seq<Value> := [];
    Next(Keys(max), 0, start, items, r.Rest());
    var flow := r.Text(max);
    if flow.None? { return None; }
    items := items + [VStr(flow.value)];
    Next(Keys(max), 1, start, items, r.Rest());
    var endpoint := r.Text(max);
    if endpoint.None? { return None; }
    items := items + [VStr(endpoint.value)];
    Next(Keys(max), 2, start, items, r.Rest());
    var peer := r.Text(max);
    if peer.None? { return None; }
    items := items + [VStr(peer.value)];
    Next(Keys(max), 3, start, items, r.Rest());
    var path := r.Text(max);
    if path.None? { return None; }
    items := items + [VStr(path.value)];
    Next(Keys(max), 4, start, items, r.Rest());
    var queue := r.Text(max);
    if queue.None? { return None; }
    items := items + [VStr(queue.value)];
    Next(Keys(max), 5, start, items, r.Rest());
    var link := r.Text(max);
    if link.None? { return None; }
    items := items + [VStr(link.value)];
    Finished(Keys(max), start, items, r.Rest());
    assert items == Texts([flow.value, endpoint.value, peer.value, path.value, queue.value, link.value]);
    return Some([flow.value, endpoint.value, peer.value, path.value, queue.value, link.value]);
  }

  method ReadStamps(r: Reader) returns (v: Option<(i64, i64)>)
    requires r.Valid()
    modifies r`pos, r`ok
    ensures r.Valid()
    ensures v.Some? ==> old(r.ok) && r.ok && Reader.Gives(STAMPS, old(r.Rest()), VSeq([VSigned(v.value.0), VSigned(v.value.1)]), r.Rest())
    ensures v.None? && old(r.ok) ==> Decode(STAMPS, old(r.Rest())).None?
  {
    hide Decode, DecodeFields, SoFar;
    ghost var start := r.Rest();
    Begin(STAMPS, start);
    ghost var items: seq<Value> := [];
    Next(STAMPS, 0, start, items, r.Rest());
    var observed := r.I64();
    if observed.None? { return None; }
    items := items + [VSigned(observed.value)];
    Next(STAMPS, 1, start, items, r.Rest());
    var received := r.I64();
    if received.None? { return None; }
    items := items + [VSigned(received.value)];
    Finished(STAMPS, start, items, r.Rest());
    assert items == [VSigned(observed.value), VSigned(received.value)];
    return Some((observed.value, received.value));
  }

  lemma EnumerationsOnce(kind: nat, direction: nat, claim: nat)
    requires kind < |ALL_KINDS| && direction < |ALL_DIRECTIONS| && claim < |ALL_CLAIMS|
    ensures KindNumber(ALL_KINDS[kind]) == kind && DirectionNumber(ALL_DIRECTIONS[direction]) == direction
    ensures ClaimNumber(ALL_CLAIMS[claim]) == claim
  {
  }

  method ReadKinds(r: Reader) returns (v: Option<(Kind, Direction, Claim)>)
    requires r.Valid()
    modifies r`pos, r`ok
    ensures r.Valid()
    ensures v.Some? ==> old(r.ok) && r.ok && Reader.Gives(KINDS, old(r.Rest()), VSeq([VNum(KindNumber(v.value.0)), VNum(DirectionNumber(v.value.1)), VNum(ClaimNumber(v.value.2))]), r.Rest())
    ensures v.None? && old(r.ok) ==> Decode(KINDS, old(r.Rest())).None?
  {
    hide Decode, DecodeFields, SoFar;
    ghost var start := r.Rest();
    Begin(KINDS, start);
    ghost var items: seq<Value> := [];
    Next(KINDS, 0, start, items, r.Rest());
    var kind := r.Tag(11);
    if kind.None? { return None; }
    items := items + [VNum(kind.value)];
    Next(KINDS, 1, start, items, r.Rest());
    var direction := r.Tag(4);
    if direction.None? { return None; }
    items := items + [VNum(direction.value)];
    Next(KINDS, 2, start, items, r.Rest());
    var claim := r.Tag(4);
    if claim.None? { return None; }
    items := items + [VNum(claim.value)];
    Finished(KINDS, start, items, r.Rest());
    assert items == [VNum(kind.value), VNum(direction.value), VNum(claim.value)];
    EnumerationsOnce(kind.value, direction.value, claim.value);
    return Some((ALL_KINDS[kind.value], ALL_DIRECTIONS[direction.value], ALL_CLAIMS[claim.value]));
  }

  method ReadCounters(r: Reader) returns (v: Option<CounterSet>)
    requires r.Valid()
    modifies r`pos, r`ok
    ensures r.Valid()
    ensures v.Some? ==> old(r.ok) && r.ok && Reader.Gives(COUNTERS, old(r.Rest()), VSeq(CounterItems(v.value)), r.Rest())
    ensures v.None? && old(r.ok) ==> Decode(COUNTERS, old(r.Rest())).None?
  {
    hide Decode, DecodeFields, SoFar;
    ghost var start := r.Rest();
    Begin(COUNTERS, start);
    ghost var items: seq<Value> := [];
    Next(COUNTERS, 0, start, items, r.Rest());
    var bytes := r.OptionalU64();
    if bytes.None? { return None; }
    items := items + [OptionalNumber(bytes.value)];
    Next(COUNTERS, 1, start, items, r.Rest());
    var packets := r.OptionalU64();
    if packets.None? { return None; }
    items := items + [OptionalNumber(packets.value)];
    Next(COUNTERS, 2, start, items, r.Rest());
    var retransmissions := r.OptionalU64();
    if retransmissions.None? { return None; }
    items := items + [OptionalNumber(retransmissions.value)];
    Finished(COUNTERS, start, items, r.Rest());
    assert items == CounterItems(CounterSet(bytes.value, packets.value, retransmissions.value));
    return Some(CounterSet(bytes.value, packets.value, retransmissions.value));
  }

  method ReadDurations(r: Reader) returns (v: Option<(Option<i64>, Option<i64>)>)
    requires r.Valid()
    modifies r`pos, r`ok
    ensures r.Valid()
    ensures v.Some? ==> old(r.ok) && r.ok && Reader.Gives(DURATIONS, old(r.Rest()), VSeq([OptionalSigned(v.value.0), OptionalSigned(v.value.1)]), r.Rest())
    ensures v.None? && old(r.ok) ==> Decode(DURATIONS, old(r.Rest())).None?
  {
    hide Decode, DecodeFields, SoFar;
    ghost var start := r.Rest();
    Begin(DURATIONS, start);
    ghost var items: seq<Value> := [];
    Next(DURATIONS, 0, start, items, r.Rest());
    var duration := r.OptionalI64();
    if duration.None? { return None; }
    items := items + [OptionalSigned(duration.value)];
    Next(DURATIONS, 1, start, items, r.Rest());
    var rtt := r.OptionalI64();
    if rtt.None? { return None; }
    items := items + [OptionalSigned(rtt.value)];
    Finished(DURATIONS, start, items, r.Rest());
    assert items == [OptionalSigned(duration.value), OptionalSigned(rtt.value)];
    return Some((duration.value, rtt.value));
  }

  method WriteKeys(w: Writer, s: Subject, max: nat)
    requires forall i :: 0 <= i < 6 ==> KeyTexts(s)[i].VStr? && Short(KeyTexts(s)[i].text, max)
    modifies w
    ensures Fits(Keys(max), VSeq(KeyTexts(s)))
    ensures w.buf == old(w.buf) + Encode(Keys(max), VSeq(KeyTexts(s)))
  {
    KeyTextFit(s, max);
    hide Encode, Fits, Wrote, EachFits;
    ghost var shape, items, start := Keys(max), KeyTexts(s), w.buf;
    WroteNothing(shape, items, start);
    WriteKeyText(w, s.flowKey, max, s, 0, start);
    WriteKeyText(w, s.endpointKey, max, s, 1, start);
    WriteKeyText(w, s.peerEndpointKey, max, s, 2, start);
    WriteKeyText(w, s.pathKey, max, s, 3, start);
    WriteKeyText(w, s.queueKey, max, s, 4, start);
    WriteKeyText(w, s.linkKey, max, s, 5, start);
    WroteAll(shape, items, start, w.buf);
  }

  lemma TextEncodes(before: seq<byte>, t: Text, max: nat)
    requires Short(t, max)
    ensures Fits(Str(max), VStr(t)) && before + LittleEndian(4, |t|) + BytesOf(t) == before + Encode(Str(max), VStr(t))
  {
  }

  method WriteKeyText(w: Writer, t: Text, max: nat, ghost s: Subject, ghost k: nat, ghost start: seq<byte>)
    requires k < 6 && KeyTexts(s)[k] == VStr(t) && Short(t, max) && Wrote(Keys(max), k, KeyTexts(s), start, w.buf)
    modifies w
    ensures Wrote(Keys(max), k + 1, KeyTexts(s), start, w.buf)
  {
    ghost var before := w.buf;
    w.Text(t);
    TextEncodes(before, t, max);
    hide Encode, Fits, Wrote, LittleEndian, BytesOf, KeyTexts;
    WroteNext(Keys(max), k, KeyTexts(s), start, before, w.buf);
  }

  // ---- whole observations ------------------------------------------------------------------------------

  /** Sizes are written in 32 bits; nothing else limits what is written. */
  const WRITTEN: Shape := ObservationShape(U32_MAX, U32_MAX)

  predicate Writable(o: Observation) {
    KeepsLimits(o, U32_MAX, U32_MAX)
  }

  /** Appends an observation to a buffer. */
  method EncodeObservation(w: Writer, o: Observation)
    requires Writable(o)
    modifies w
    ensures Fits(WRITTEN, VSeq(ObservationItems(o)))
    ensures w.buf == old(w.buf) + Encode(WRITTEN, VSeq(ObservationItems(o)))
  {
    ObservationFits(o, U32_MAX, U32_MAX);
    EachFitsRecord(WRITTEN, ObservationItems(o));
    hide Encode, Fits, Wrote, EachFits, KeyItems, CapabilityItems, IdItems, ResourceItems, StampItems, KindItems, CounterItems, DurationItems;
    ghost var items, start := ObservationItems(o), w.buf;
    WroteNothing(WRITTEN, items, start);
    EncodeHead(w, o, start);
    EncodeTexts(w, o, start);
    EncodeBody(w, o, start);
    WroteAll(WRITTEN, items, start, w.buf);
  }

  /** Who saw it and what it is about. */
  method EncodeHead(w: Writer, o: Observation, ghost start: seq<byte>)
    requires Writable(o) && Wrote(WRITTEN, 0, ObservationItems(o), start, w.buf)
    modifies w
    ensures Wrote(WRITTEN, 6, ObservationItems(o), start, w.buf)
  {
    ghost var items := ObservationItems(o);
    hide Encode, Fits, Wrote, EachFits, KeyItems, CapabilityItems, IdItems, ResourceItems, StampItems, KindItems, CounterItems, DurationItems, KeyTexts, Keys;
    ghost var b0 := w.buf;
    SchemaFits(o);
    w.U32(o.schemaVersion);
    SchemaEncodes(o.schemaVersion);
    WroteNext(WRITTEN, 0, items, start, b0, w.buf);
    ghost var b1 := w.buf;
    WriteKey(w, o.key);
    WroteNext(WRITTEN, 1, items, start, b1, w.buf);
    ghost var b2 := w.buf;
    WriteCapabilities(w, o.capabilities);
    WroteNext(WRITTEN, 2, items, start, b2, w.buf);
    ghost var b3 := w.buf;
    WriteIds(w, o.subject);
    WroteNext(WRITTEN, 3, items, start, b3, w.buf);
    ghost var b4 := w.buf;
    WriteResources(w, o.subject);
    WroteNext(WRITTEN, 4, items, start, b4, w.buf);
    ghost var b5 := w.buf;
    WriteNumbers(w, U32_MAX, o.subject.hopCapacity);
    WroteNext(WRITTEN, 5, items, start, b5, w.buf);
  }

  lemma SchemaEncodes(n: u32)
    ensures Fits(Num(4), VNum(n)) && Encode(Num(4), VNum(n)) == LittleEndian(4, n)
  {
    Widths();
  }

  /** Its keys. */
  method EncodeTexts(w: Writer, o: Observation, ghost start: seq<byte>)
    requires Writable(o) && Wrote(WRITTEN, 6, ObservationItems(o), start, w.buf)
    modifies w
    ensures Wrote(WRITTEN, 7, ObservationItems(o), start, w.buf)
  {
    assert forall i :: 0 <= i < 6 ==> KeyTexts(o.subject)[i].VStr? && Short(KeyTexts(o.subject)[i].text, U32_MAX);
    hide Encode, Fits, Wrote, EachFits, KeyTexts, Keys;
    ghost var before := w.buf;
    WriteKeys(w, o.subject, U32_MAX);
    WroteNext(WRITTEN, 6, ObservationItems(o), start, before, w.buf);
  }

  /** Its instants, and what was measured. */
  method EncodeBody(w: Writer, o: Observation, ghost start: seq<byte>)
    requires Writable(o) && Wrote(WRITTEN, 7, ObservationItems(o), start, w.buf)
    modifies w
    ensures Wrote(WRITTEN, 11, ObservationItems(o), start, w.buf)
  {
    ghost var items := ObservationItems(o);
    hide Encode, Fits, Wrote, EachFits, KeyItems, CapabilityItems, IdItems, ResourceItems, StampItems, KindItems, CounterItems,
         DurationItems, KeyTexts, Keys, KeepsLimits;
    ghost var b7 := w.buf;
    WriteStamps(w, o);
    WroteNext(WRITTEN, 7, items, start, b7, w.buf);
    ghost var b8 := w.buf;
    WriteKinds(w, o);
    WroteNext(WRITTEN, 8, items, start, b8, w.buf);
    ghost var b9 := w.buf;
    WriteCounters(w, o.counters);
    WroteNext(WRITTEN, 9, items, start, b9, w.buf);
    ghost var b10 := w.buf;
    WriteDurations(w, o);
    WroteNext(WRITTEN, 10, items, start, b10, w.buf);
  }

  /** The parts of an observation in the order they are read. */
  datatype Head = Head(schema: u32, key: Key, capabilities: Capabilities, ids: (u64, u64, u64, u64),
                       resources: (Option<u64>, Option<u64>, Option<u64>, Option<u64>), hops: seq<u64>)

  datatype Body = Body(keys: seq<Text>, stamps: (i64, i64), kinds: (Kind, Direction, Claim), counters: CounterSet,
                       durations: (Option<i64>, Option<i64>))

  function HeadItems(h: Head): seq<Value> {
    [VNum(h.schema), VSeq(KeyItems(h.key)), VSeq(CapabilityItems(h.capabilities)),
     VSeq(FourNumbers(h.ids)), VSeq(FourOptions(h.resources)), VSeq(Numbers(h.hops))]
  }

  function BodyItems(b: Body): seq<Value> {
    [VSeq(Texts(b.keys)), VSeq([VSigned(b.stamps.0), VSigned(b.stamps.1)]),
     VSeq([VNum(KindNumber(b.kinds.0)), VNum(DirectionNumber(b.kinds.1)), VNum(ClaimNumber(b.kinds.2))]),
     VSeq(CounterItems(b.counters)), VSeq([OptionalSigned(b.durations.0), OptionalSigned(b.durations.1)])]
  }

  /** Reads one observation; fails on anything malformed or beyond the limits. */
  method DecodeObservation(r: Reader, maxKeyBytes: nat, maxHops: nat) returns (v: Option<Observation>)
    requires r.Valid()
    modifies r`pos, r`ok
    ensures r.Valid()
    ensures v.Some? ==> old(r.ok) && r.ok && v.value.sourceKey == []
    ensures v.Some? ==>
      Reader.Gives(ObservationShape(maxKeyBytes, maxHops), old(r.Rest()), VSeq(ObservationItems(v.value)), r.Rest())
    ensures v.None? && old(r.ok) ==> Decode(ObservationShape(maxKeyBytes, maxHops), old(r.Rest())).None?
  {
    hide Decode, DecodeFields, SoFar, KeyItems, CapabilityItems, KindNumber, DirectionNumber, ClaimNumber, CounterItems;
    ghost var shape, start := ObservationShape(maxKeyBytes, maxHops), r.Rest();
    var head := DecodeHead(r, maxKeyBytes, maxHops);
    if head.None? {
      return None;
    }
    var body := DecodeBody(r, maxKeyBytes, maxHops, start, HeadItems(head.value));
    if body.None? {
      return None;
    }
    Finished(shape, start, HeadItems(head.value) + BodyItems(body.value), r.Rest());
    var o := Assemble(head.value, body.value);
    assert HeadItems(head.value) + BodyItems(body.value) == ObservationItems(o);
    return Some(o);
  }

  method DecodeHead(r: Reader, ghost maxKeyBytes: nat, maxHops: nat) returns (v: Option<Head>)
    requires r.Valid()
    modifies r`pos, r`ok
    ensures r.Valid()
    ensures v.Some? ==> old(r.ok) && r.ok && SoFar(ObservationShape(maxKeyBytes, maxHops), 6, old(r.Rest()), HeadItems(v.value), r.Rest())
    ensures v.None? && old(r.ok) ==> Decode(ObservationShape(maxKeyBytes, maxHops), old(r.Rest())).None?
  {
    hide Decode, DecodeFields, SoFar, Take, Keys, KeyItems, CapabilityItems, Numbers, FourNumbers, FourOptions;
    ghost var shape, start := ObservationShape(maxKeyBytes, maxHops), r.Rest();
    Begin(shape, start);
    ghost var items: seq<Value> := [];
    Next(shape, 0, start, items, r.Rest());
    var schema := r.U32();
    if schema.None? { return None; }
    items := items + [VNum(schema.value)];
    Next(shape, 1, start, items, r.Rest());
    var key := ReadKey(r);
    if key.None? { return None; }
    items := items + [VSeq(KeyItems(key.value))];
    Next(shape, 2, start, items, r.Rest());
    var capabilities := ReadCapabilities(r);
    if capabilities.None? { return None; }
    items := items + [VSeq(CapabilityItems(capabilities.value))];
    assert items == [VNum(schema.value), VSeq(KeyItems(key.value)), VSeq(CapabilityItems(capabilities.value))];
    var h := DecodeSubject(r, maxKeyBytes, maxHops, start, schema.value, key.value, capabilities.value);
    return h;
  }

  /** The identities and resources of the subject. */
  method DecodeSubject(r: Reader, ghost maxKeyBytes: nat, maxHops: nat, ghost start: seq<byte>,
                       schema: u32, key: Key, capabilities: Capabilities) returns (v: Option<Head>)
    requires r.Valid()
    requires SoFar(ObservationShape(maxKeyBytes, maxHops), 3, start,
                   [VNum(schema), VSeq(KeyItems(key)), VSeq(CapabilityItems(capabilities))], r.Rest())
    modifies r`pos, r`ok
    ensures r.Valid()
    ensures v.Some? ==> old(r.ok) && r.ok && SoFar(ObservationShape(maxKeyBytes, maxHops), 6, start, HeadItems(v.value), r.Rest())
    ensures v.None? && old(r.ok) ==> Decode(ObservationShape(maxKeyBytes, maxHops), start).None?
  {
    hide Decode, DecodeFields, SoFar, Take, Keys, KeyItems, CapabilityItems, Numbers, FourNumbers, FourOptions;
    ghost var shape := ObservationShape(maxKeyBytes, maxHops);
    ghost var items := [VNum(schema), VSeq(KeyItems(key)), VSeq(CapabilityItems(capabilities))];
    Next(shape, 3, start, items, r.Rest());
    var ids := ReadIds(r);
    if ids.None? { return None; }
    items := items + [VSeq(FourNumbers(ids.value))];
    Next(shape, 4, start, items, r.Rest());
    var resources := ReadResources(r);
    if resources.None? { return None; }
    items := items + [VSeq(FourOptions(resources.value))];
    Next(shape, 5, start, items, r.Rest());
    var hops := ReadNumbers(r, maxHops);
    if hops.None? { return None; }
    items := items + [VSeq(Numbers(hops.value))];
    var h := Head(schema, key, capabilities, ids.value, resources.value, hops.value);
    assert items == HeadItems(h);
    return Some(h);
  }

  method DecodeBody(r: Reader, maxKeyBytes: nat, ghost maxHops: nat, ghost start: seq<byte>, ghost done: seq<Value>)
    returns (v: Option<Body>)
    requires r.Valid() && SoFar(ObservationShape(maxKeyBytes, maxHops), 6, start, done, r.Rest())
    modifies r`pos, r`ok
    ensures r.Valid()
    ensures v.Some? ==> old(r.ok) && r.ok && |v.value.keys| == 6
    ensures v.Some? ==> SoFar(ObservationShape(maxKeyBytes, maxHops), 11, start, done + BodyItems(v.value), r.Rest())
    ensures v.None? && old(r.ok) ==> Decode(ObservationShape(maxKeyBytes, maxHops), start).None?
  {
    hide Decode, DecodeFields, SoFar, Keys, KindNumber, DirectionNumber, ClaimNumber, CounterItems, Texts;
    ghost var shape := ObservationShape(maxKeyBytes, maxHops);
    ghost var items := done;
    Next(shape, 6, start, items, r.Rest());
    var keys := ReadKeys(r, maxKeyBytes);
    if keys.None? { return None; }
    items := items + [VSeq(Texts(keys.value))];
    Next(shape, 7, start, items, r.Rest());
    var stamps := ReadStamps(r);
    if stamps.None? { return None; }
    items := items + [VSeq([VSigned(stamps.value.0), VSigned(stamps.value.1)])];
    Next(shape, 8, start, items, r.Rest());
    var kinds := ReadKinds(r);
    if kinds.None? { return None; }
    items := items + [VSeq([VNum(KindNumber(kinds.value.0)), VNum(DirectionNumber(kinds.value.1)), VNum(ClaimNumber(kinds.value.2))])];
    Next(shape, 9, start, items, r.Rest());
    var counters := ReadCounters(r);
    if counters.None? { return None; }
    items := items + [VSeq(CounterItems(counters.value))];
    Next(shape, 10, start, items, r.Rest());
    var durations := ReadDurations(r);
    if durations.None? { return None; }
    items := items + [VSeq([OptionalSigned(durations.value.0), OptionalSigned(durations.value.1)])];
    var b := Body(keys.value, stamps.value, kinds.value, counters.value, durations.value);
    assert items == done + BodyItems(b);
    return Some(b);
  }

  /** The observation with these parts. */
  function Assemble(h: Head, b: Body): (o: Observation)
    requires |b.keys| == 6
    ensures KeyTexts(o.subject) == Texts(b.keys)
  {
    Observation(
      h.key, [], h.capabilities,
      Subject(h.ids.0, h.ids.1, h.ids.2, h.ids.3, h.resources.0, h.resources.1, h.resources.2, h.resources.3, h.hops,
              b.keys[0], b.keys[1], b.keys[2], b.keys[3], b.keys[4], b.keys[5]),
      b.stamps.0, b.stamps.1, b.kinds.0, b.kinds.1, b.kinds.2, b.counters, b.durations.0, b.durations.1, h.schema)
  }

  // ---- the codec is inverse -------------------------------------------------------------------------------

  lemma ReadableIsNarrower(maxKeyBytes: nat, maxHops: nat)
    requires maxKeyBytes <= U32_MAX && maxHops <= U32_MAX
    ensures Narrower(ObservationShape(maxKeyBytes, maxHops), WRITTEN)
  {
    var s, w := ObservationShape(maxKeyBytes, maxHops), WRITTEN;
    KeysNarrower(maxKeyBytes);
    assert Narrower(s.fields[5], w.fields[5]);
    SameNarrower(KEY);
    SameNarrower(CAPABILITIES);
    SameNarrower(IDS);
    SameNarrower(RESOURCES);
    SameNarrower(STAMPS);
    SameNarrower(KINDS);
    SameNarrower(COUNTERS);
    SameNarrower(DURATIONS);
    hide Narrower, Keys;
    forall i | 0 <= i < |s.fields| ensures Narrower(s.fields[i], w.fields[i]) {
      SameNarrower(Num(4));
    }
    EachNarrower(s, w, 0);
  }

  lemma KeysNarrower(max: nat)
    requires max <= U32_MAX
    ensures Narrower(Keys(max), Keys(U32_MAX))
  {
    EachNarrower(Keys(max), Keys(U32_MAX), 0);
  }

  /**
   * Reading back what was written, followed by any other bytes: an observation that keeps the limits comes back
   * as it was, up to its source key, leaving exactly the other bytes; one that does not is refused.
   */
  lemma ObservationRoundTrip(o: Observation, maxKeyBytes: nat, maxHops: nat, rest: seq<byte>)
    requires Writable(o) && maxKeyBytes <= U32_MAX && maxHops <= U32_MAX
    ensures Fits(WRITTEN, VSeq(ObservationItems(o)))
    ensures var bytes := Encode(WRITTEN, VSeq(ObservationItems(o))) + rest;
            var decoded := Decode(ObservationShape(maxKeyBytes, maxHops), bytes);
            && (decoded.Some? <==> KeepsLimits(o, maxKeyBytes, maxHops))
            && (decoded.Some? ==> decoded.value.1 == rest && decoded.value.0 == VSeq(ObservationItems(o)))
  {
    hide ObservationItems, Encode, Decode, Narrower;
    var v := VSeq(ObservationItems(o));
    ObservationFits(o, U32_MAX, U32_MAX);
    EachFitsRecord(WRITTEN, ObservationItems(o));
    ReadableIsNarrower(maxKeyBytes, maxHops);
    ObservationFits(o, maxKeyBytes, maxHops);
    RecordFitsIff(ObservationShape(maxKeyBytes, maxHops), ObservationItems(o));
    DecodesIffFits(ObservationShape(maxKeyBytes, maxHops), WRITTEN, v, rest);
  }

  /** The two methods are inverse: whatever a reader gets from written bytes is the observation that was written. */
  method WriteThenRead(o: Observation, rest: seq<byte>, maxKeyBytes: nat, maxHops: nat) returns (back: Option<Observation>, left: seq<byte>)
    requires Writable(o) && maxKeyBytes <= U32_MAX && maxHops <= U32_MAX
    ensures back.Some? <==> KeepsLimits(o, maxKeyBytes, maxHops)
    ensures back.Some? ==> back.value == o.(sourceKey := []) && left == rest
  {
    hide ObservationItems, Encode, Decode, Fits;
    var w := new Writer();
    EncodeObservation(w, o);
    ObservationRoundTrip(o, maxKeyBytes, maxHops, rest);
    var r := new Reader(w.buf + rest);
    assert [] + Encode(WRITTEN, VSeq(ObservationItems(o))) == Encode(WRITTEN, VSeq(ObservationItems(o)));
    back := DecodeObservation(r, maxKeyBytes, maxHops);
    left := r.data[r.pos..];
    if back.Some? {
      ItemsDetermine(back.value, o);
    }
  }
}
