/** Snapshots as bracketed groups of records, and replaying a log of snapshots and observations. */
module Snapshot {
  import opened Checked
  import opened Evidence
  import opened Binary
  import opened Wire
  import opened StateCodec
  import Crc32c
  import Journal
  import Fold
  import ObsCodec
  import Reconcile

  type Record = Journal.Record

  const BEGIN: nat := 1
  const SOURCE: nat := 2
  const FLOW: nat := 3
  const END: nat := 4
  const LIMITS: nat := 5
  const COUNTERS: nat := 6
  const TOMBSTONE: nat := 7
  const OBSERVATION: nat := 8

  const FORMAT_VERSION: nat := 1
  const IDENTITY_SCHEME: u32 := 1

  datatype State = State(formatVersion: nat, identityScheme: u32, schemaVersion: u32, policyDigest: u64, epoch: u64,
                         createdAt: i64, snapshotAt: i64, sequence: u64, sources: seq<Descriptor>, flows: seq<Flow>)

  datatype Limits = Limits(maxFlows: nat, maxSources: nat, maxJournalBytes: nat, maxObservations: nat, maxHops: nat, bounds: Bounds)
  {
    predicate Valid() {
      Within(bounds, UNBOUNDED) && maxHops <= U32_MAX && maxFlows <= U32_MAX && maxSources <= U32_MAX
    }
  }

  datatype Recovery = Recovery(enforceFormat: bool, enforceScheme: bool)

  datatype Failure = FormatMismatch | IntegrityFailure | VersionMismatch | LimitExceeded

  datatype Result<+T> = Ok(value: T) | Err(error: Failure)

  // ---- a snapshot as records -----------------------------------------------------------------

  const HEADER: Shape := Wire.Record([Num(2), Num(4), Num(4), NUM, NUM, Signed, Signed, NUM])
  const TRAILER: Shape := Wire.Record([NUM, Num(4), Num(4)])

  function HeaderItems(s: State): seq<Value> {
    [VNum(s.formatVersion), VNum(s.identityScheme), VNum(s.schemaVersion), VNum(s.policyDigest), VNum(s.epoch),
     VSigned(s.createdAt), VSigned(s.snapshotAt), VNum(s.sequence)]
  }

  lemma HeaderFits(s: State)
    requires s.formatVersion < 0x1_0000
    ensures Fits(HEADER, VSeq(HeaderItems(s)))
  {
    Widths();
    EachFitsRecord(HEADER, HeaderItems(s));
  }

  /** The digest runs over every record before the end, in order. */
  function GroupDigest(records: seq<Record>): bv64 {
    if records == [] then 0
    else
      var last := records[|records| - 1];
      (Crc32c.Checksum(last.payload) as bv64) ^ (GroupDigest(records[..|records| - 1]) * 1099511628211)
  }

  function TrailerItems(records: seq<Record>, sources: nat, flows: nat): seq<Value> {
    [VNum(GroupDigest(records) as nat), VNum(sources), VNum(flows)]
  }

  lemma TrailerFits(records: seq<Record>, sources: nat, flows: nat)
    requires sources <= U32_MAX && flows <= U32_MAX
    ensures Fits(TRAILER, VSeq(TrailerItems(records, sources, flows)))
  {
    hide GroupDigest;
    Widths();
    EachFitsRecord(TRAILER, TrailerItems(records, sources, flows));
  }

  /** What can be written at all: every size fits its 32-bit length. */
  predicate Writable(s: State) {
    && s.formatVersion < 0x1_0000
    && (forall i :: 0 <= i < |s.sources| ==> ObsCodec.Short(s.sources[i].key, U32_MAX))
    && (forall i :: 0 <= i < |s.flows| ==> FlowReadable(s.flows[i], UNBOUNDED))
  }

  function HeaderRecord(s: State): Record
    requires s.formatVersion < 0x1_0000
  {
    HeaderFits(s);
    Journal.Record(BEGIN, Encode(HEADER, VSeq(HeaderItems(s))))
  }

  function LimitsRecord(description: Text): Record
    requires |description| <= U32_MAX
  {
    Journal.Record(LIMITS, Encode(Str(U32_MAX), VStr(description)))
  }

  function SourceRecord(d: Descriptor): Record
    requires ObsCodec.Short(d.key, U32_MAX)
  {
    DescriptorFitsIff(d, U32_MAX);
    Journal.Record(SOURCE, Encode(DescriptorShape(U32_MAX), VSeq(DescriptorItems(d))))
  }

  function FlowRecord(f: Flow): Record
    requires FlowReadable(f, UNBOUNDED)
  {
    FlowFitsIff(f, UNBOUNDED);
    Journal.Record(FLOW, Encode(FlowShape(UNBOUNDED), VSeq(FlowItems(f))))
  }

  function SourceRecords(ds: seq<Descriptor>): (rs: seq<Record>)
    requires forall i :: 0 <= i < |ds| ==> ObsCodec.Short(ds[i].key, U32_MAX)
    ensures |rs| == |ds| && forall i :: 0 <= i < |ds| ==> rs[i] == SourceRecord(ds[i])
  {
    seq(|ds|, i requires 0 <= i < |ds| && ObsCodec.Short(ds[i].key, U32_MAX) => SourceRecord(ds[i]))
  }

  function FlowRecords(fs: seq<Flow>): (rs: seq<Record>)
    requires forall i :: 0 <= i < |fs| ==> FlowReadable(fs[i], UNBOUNDED)
    ensures |rs| == |fs| && forall i :: 0 <= i < |fs| ==> rs[i] == FlowRecord(fs[i])
  {
    seq(|fs|, i requires 0 <= i < |fs| && FlowReadable(fs[i], UNBOUNDED) => FlowRecord(fs[i]))
  }

  function TrailerRecord(before: seq<Record>, sources: nat, flows: nat): Record
    requires sources <= U32_MAX && flows <= U32_MAX
  {
    TrailerFits(before, sources, flows);
    Journal.Record(END, Encode(TRAILER, VSeq(TrailerItems(before, sources, flows))))
  }

  /** Everything of a group before its end. */
  function GroupBody(s: State, description: Text): seq<Record>
    requires Writable(s) && |description| <= U32_MAX
  {
    [HeaderRecord(s), LimitsRecord(description)] + SourceRecords(s.sources) + FlowRecords(s.flows)
  }

  function Group(s: State, description: Text): seq<Record>
    requires Writable(s) && |description| <= U32_MAX && |s.sources| <= U32_MAX && |s.flows| <= U32_MAX
  {
    GroupBody(s, description) + [TrailerRecord(GroupBody(s, description), |s.sources|, |s.flows|)]
  }

  function TotalBytes(records: seq<Record>): nat {
    if records == [] then 0
    else TotalBytes(records[..|records| - 1]) + |records[|records| - 1].payload| + Journal.RECORD_HEADER
  }

  /** The group of a snapshot, unless it breaks a limit. */
  method EncodeState(s: State, limits: Limits, description: Text) returns (r: Result<seq<Record>>)
    requires limits.Valid() && Writable(s) && |description| <= U32_MAX
    ensures r.Ok? <==> |s.flows| <= limits.maxFlows && |s.sources| <= limits.maxSources
                       && TotalBytes(Group(s, description)) <= limits.maxJournalBytes / 2
    ensures r.Ok? ==> r.value == Group(s, description)
    ensures r.Err? ==> r.error == LimitExceeded
  {
    hide HeaderRecord, LimitsRecord, SourceRecord, FlowRecord, TrailerRecord, FlowReadable;
    if |s.flows| > limits.maxFlows || |s.sources| > limits.maxSources {
      return Err(LimitExceeded);
    }
    var records := [HeaderRecord(s), LimitsRecord(description)];
    for i := 0 to |s.sources|
      invariant records == [HeaderRecord(s), LimitsRecord(description)] + SourceRecords(s.sources)[..i]
    {
      records := records + [SourceRecord(s.sources[i])];
    }
    ghost var before := records;
    for i := 0 to |s.flows|
      invariant records == before + FlowRecords(s.flows)[..i]
    {
      records := records + [FlowRecord(s.flows[i])];
    }
    assert records == GroupBody(s, description);
    records := records + [TrailerRecord(records, |s.sources|, |s.flows|)];
    var total := 0;
    for i := 0 to |records|
      invariant total == TotalBytes(records[..i])
    {
      assert records[..i + 1][..i] == records[..i];
      total := total + |records[i].payload| + Journal.RECORD_HEADER;
    }
    assert records[..|records|] == records;
    if total > limits.maxJournalBytes / 2 {
      return Err(LimitExceeded);
    }
    return Ok(records);
  }

  // ---- reading a group back ---------------------------------------------------------------------

  /** What a group decodes to: header, source descriptors and flows, as the values of their shapes. */
  datatype Loaded = Loaded(header: Value, sources: seq<Value>, flows: seq<Value>)

  /** A payload that is one value of this shape and nothing else. */
  function Whole(s: Shape, payload: seq<byte>): Option<Value> {
    var v := Decode(s, payload);
    if v.Some? && v.value.1 == [] then Some(v.value.0) else None
  }

  /** One record between the header and the trailer. */
  function MiddleStep(acc: Loaded, r: Record, limits: Limits): Result<Loaded> {
    if r.kind == LIMITS then
      if Whole(Str(8192), r.payload).None? then Err(FormatMismatch) else Ok(acc)
    else if r.kind == SOURCE then
      var v := Whole(DescriptorShape(limits.bounds.key), r.payload);
      if v.None? then Err(FormatMismatch)
      else if |acc.sources| >= limits.maxSources then Err(LimitExceeded)
      else Ok(acc.(sources := acc.sources + [v.value]))
    else if r.kind == FLOW then
      var v := Whole(FlowShape(limits.bounds), r.payload);
      if v.None? then Err(FormatMismatch)
      else if |acc.flows| >= limits.maxFlows then Err(LimitExceeded)
      else Ok(acc.(flows := acc.flows + [v.value]))
    else Err(FormatMismatch)
  }

  /** The records in order; the first failure is the failure. */
  function Middle(acc: Loaded, rs: seq<Record>, limits: Limits): Result<Loaded> {
    if rs == [] then Ok(acc)
    else
      var front := Middle(acc, rs[..|rs| - 1], limits);
      if front.Err? then front else MiddleStep(front.value, rs[|rs| - 1], limits)
  }

  function VersionOf(header: Value): nat {
    if header.VSeq? && |header.items| == 8 && header.items[0].VNum? then header.items[0].n else 0
  }

  function SchemeOf(header: Value): nat {
    if header.VSeq? && |header.items| == 8 && header.items[1].VNum? then header.items[1].n else 0
  }

  /** The two versions a group is checked for. */
  predicate VersionsAccepted(header: Value, recovery: Recovery) {
    && (recovery.enforceFormat ==> VersionOf(header) == FORMAT_VERSION)
    && (recovery.enforceScheme ==> SchemeOf(header) == IDENTITY_SCHEME)
  }

  /** What a group decodes to, in the order the checks are made. */
  function DecodedGroup(records: seq<Record>, limits: Limits, recovery: Recovery): Result<Loaded> {
    if records == [] then Err(IntegrityFailure)
    else if records[0].kind != BEGIN then Err(FormatMismatch)
    else if records[|records| - 1].kind != END then Err(IntegrityFailure)
    else
      var header := Whole(HEADER, records[0].payload);
      if header.None? then Err(FormatMismatch)
      else if !VersionsAccepted(header.value, recovery) then Err(VersionMismatch)
      else
        var trailer := Whole(TRAILER, records[|records| - 1].payload);
        if trailer.None? then Err(FormatMismatch)
        else if trailer.value != VSeq(TrailerItems(records[..|records| - 1], CountOf(trailer.value, 1), CountOf(trailer.value, 2))) then
          Err(IntegrityFailure)
        else
          var middle := Middle(Loaded(header.value, [], []), records[1..|records| - 1], limits);
          if middle.Err? then middle
          else if |middle.value.sources| != CountOf(trailer.value, 1) || |middle.value.flows| != CountOf(trailer.value, 2) then
            Err(IntegrityFailure)
          else middle
  }

  function CountOf(trailer: Value, i: nat): nat {
    if trailer.VSeq? && i < |trailer.items| && trailer.items[i].VNum? then trailer.items[i].n else 0
  }

  /** The decoder: header, versions, digest, then the records in order, then the counts. */
  method DecodeState(records: seq<Record>, limits: Limits, recovery: Recovery) returns (r: Result<Loaded>)
    ensures r == DecodedGroup(records, limits, recovery)
  {
    hide GroupDigest, Whole, MiddleStep;
    if records == [] {
      return Err(IntegrityFailure);
    }
    var n := |records|;
    if records[0].kind != BEGIN {
      return Err(FormatMismatch);
    }
    if records[n - 1].kind != END {
      return Err(IntegrityFailure);
    }
    var header := Whole(HEADER, records[0].payload);
    if header.None? {
      return Err(FormatMismatch);
    }
    if recovery.enforceFormat && VersionOf(header.value) != FORMAT_VERSION {
      return Err(VersionMismatch);
    }
    if recovery.enforceScheme && SchemeOf(header.value) != IDENTITY_SCHEME {
      return Err(VersionMismatch);
    }
    var trailer := Whole(TRAILER, records[n - 1].payload);
    if trailer.None? {
      return Err(FormatMismatch);
    }
    var sources, flows := CountOf(trailer.value, 1), CountOf(trailer.value, 2);
    if trailer.value != VSeq(TrailerItems(records[..n - 1], sources, flows)) {
      return Err(IntegrityFailure);
    }
    var middle := records[1..n - 1];
    var state := Loaded(header.value, [], []);
    for i := 0 to |middle|
      invariant Middle(Loaded(header.value, [], []), middle[..i], limits) == Ok(state)
    {
      var next := MiddleStep(state, middle[i], limits);
      assert middle[..i + 1][..i] == middle[..i];
      if next.Err? {
        FailureStays(Loaded(header.value, [], []), middle[..i + 1], middle[i + 1..], limits);
        assert middle == middle[..i + 1] + middle[i + 1..];
        return next;
      }
      state := next.value;
    }
    assert middle[..|middle|] == middle;
    if |state.sources| != sources || |state.flows| != flows {
      return Err(IntegrityFailure);
    }
    return Ok(state);
  }

  lemma {:induction false} FailureStays(acc: Loaded, a: seq<Record>, b: seq<Record>, limits: Limits)
    requires Middle(acc, a, limits).Err?
    ensures Middle(acc, a + b, limits) == Middle(acc, a, limits)
    decreases |b|
  {
    if b == [] {
      assert a + b == a;
    } else {
      FailureStays(acc, a, b[..|b| - 1], limits);
      assert (a + b)[..|a + b| - 1] == a + b[..|b| - 1];
    }
  }

  lemma {:induction false} MiddleConcat(acc: Loaded, a: seq<Record>, b: seq<Record>, limits: Limits)
    requires Middle(acc, a, limits).Ok?
    ensures Middle(acc, a + b, limits) == Middle(Middle(acc, a, limits).value, b, limits)
    decreases |b|
  {
    if b == [] {
      assert a + b == a;
    } else {
      MiddleConcat(acc, a, b[..|b| - 1], limits);
      assert (a + b)[..|a + b| - 1] == a + b[..|b| - 1];
    }
  }

  // ---- the snapshot codec is inverse ----------------------------------------------------------------

  function DescriptorValues(ds: seq<Descriptor>): (vs: seq<Value>)
    ensures |vs| == |ds| && forall i :: 0 <= i < |ds| ==> vs[i] == VSeq(DescriptorItems(ds[i]))
  {
    seq(|ds|, i requires 0 <= i < |ds| => VSeq(DescriptorItems(ds[i])))
  }

  function FlowValues(fs: seq<Flow>): (vs: seq<Value>)
    ensures |vs| == |fs| && forall i :: 0 <= i < |fs| ==> vs[i] == VSeq(FlowItems(fs[i]))
  {
    seq(|fs|, i requires 0 <= i < |fs| => VSeq(FlowItems(fs[i])))
  }

  function ValuesOf(s: State): Loaded {
    Loaded(VSeq(HeaderItems(s)), DescriptorValues(s.sources), FlowValues(s.flows))
  }

  /** The state is the only one with its values. */
  lemma ValuesDetermine(a: State, b: State)
    requires ValuesOf(a) == ValuesOf(b)
    ensures a == b
  {
    var x, y := HeaderItems(a), HeaderItems(b);
    assert x[0] == y[0] && x[1] == y[1] && x[2] == y[2] && x[3] == y[3] && x[4] == y[4] && x[5] == y[5] && x[6] == y[6] && x[7] == y[7];
    hide DescriptorItems, FlowItems;
    forall i | 0 <= i < |a.sources| ensures a.sources[i] == b.sources[i] {
      assert DescriptorValues(a.sources)[i] == DescriptorValues(b.sources)[i];
      DescriptorDetermined(a.sources[i], b.sources[i]);
    }
    forall i | 0 <= i < |a.flows| ensures a.flows[i] == b.flows[i] {
      assert FlowValues(a.flows)[i] == FlowValues(b.flows)[i];
      FlowDetermined(a.flows[i], b.flows[i]);
    }
  }

  /** Exactly the snapshots a reader with these limits and this policy accepts. */
  predicate Readable(s: State, description: Text, limits: Limits, recovery: Recovery) {
    && (recovery.enforceFormat ==> s.formatVersion == FORMAT_VERSION)
    && (recovery.enforceScheme ==> s.identityScheme == IDENTITY_SCHEME)
    && |description| <= 8192 && |s.sources| <= limits.maxSources && |s.flows| <= limits.maxFlows
    && (forall i :: 0 <= i < |s.sources| ==> ObsCodec.Short(s.sources[i].key, limits.bounds.key))
    && (forall i :: 0 <= i < |s.flows| ==> FlowReadable(s.flows[i], limits.bounds))
  }

  lemma WholeOf(s: Shape, v: Value)
    requires Fits(s, v)
    ensures Whole(s, Encode(s, v)) == Some(v)
  {
    RoundTrip(s, v, []);
    assert Encode(s, v) + [] == Encode(s, v);
  }

  lemma DescriptionStep(acc: Loaded, description: Text, limits: Limits)
    requires |description| <= U32_MAX
    ensures MiddleStep(acc, LimitsRecord(description), limits)
         == if |description| <= 8192 then Ok(acc) else Err(FormatMismatch)
  {
    assert Narrower(Str(8192), Str(U32_MAX));
    DecodesIffFits(Str(8192), Str(U32_MAX), VStr(description), []);
    assert Encode(Str(U32_MAX), VStr(description)) + [] == Encode(Str(U32_MAX), VStr(description));
    hide Decode, Encode;
  }

  lemma SourceStep(acc: Loaded, d: Descriptor, limits: Limits)
    requires ObsCodec.Short(d.key, U32_MAX) && limits.Valid()
    ensures MiddleStep(acc, SourceRecord(d), limits)
         == if !ObsCodec.Short(d.key, limits.bounds.key) then Err(FormatMismatch)
            else if |acc.sources| >= limits.maxSources then Err(LimitExceeded)
            else Ok(acc.(sources := acc.sources + [VSeq(DescriptorItems(d))]))
  {
    DescriptorRoundTrip(d, limits.bounds.key, []);
    hide Decode, Encode, DescriptorItems, DescriptorShape, Fits;
    assert SourceRecord(d).payload + [] == SourceRecord(d).payload;
  }

  lemma FlowStep(acc: Loaded, f: Flow, limits: Limits)
    requires FlowReadable(f, UNBOUNDED) && limits.Valid()
    ensures MiddleStep(acc, FlowRecord(f), limits)
         == if !FlowReadable(f, limits.bounds) then Err(FormatMismatch)
            else if |acc.flows| >= limits.maxFlows then Err(LimitExceeded)
            else Ok(acc.(flows := acc.flows + [VSeq(FlowItems(f))]))
  {
    FlowRoundTrip(f, limits.bounds, []);
    hide Decode, Encode, FlowItems, FlowShape, FlowReadable, Fits;
    assert FlowRecord(f).payload + [] == FlowRecord(f).payload;
  }

  lemma {:induction false} SourcesMiddle(acc: Loaded, ds: seq<Descriptor>, limits: Limits)
    requires limits.Valid() && forall i :: 0 <= i < |ds| ==> ObsCodec.Short(ds[i].key, U32_MAX)
    ensures var r := Middle(acc, SourceRecords(ds), limits);
            && (r.Ok? <==> (forall i :: 0 <= i < |ds| ==> ObsCodec.Short(ds[i].key, limits.bounds.key))
                           && (ds == [] || |acc.sources| + |ds| <= limits.maxSources))
            && (r.Ok? ==> r.value == acc.(sources := acc.sources + DescriptorValues(ds)))
  {
    hide MiddleStep, SourceRecord, DescriptorItems, ObsCodec.Short;
    if ds != [] {
      var front, last := ds[..|ds| - 1], ds[|ds| - 1];
      SourcesMiddle(acc, front, limits);
      assert SourceRecords(ds)[..|ds| - 1] == SourceRecords(front);
      assert DescriptorValues(ds) == DescriptorValues(front) + [VSeq(DescriptorItems(last))];
      var before := Middle(acc, SourceRecords(front), limits);
      if before.Ok? {
        SourceStep(before.value, last, limits);
      }
      assert forall i :: 0 <= i < |front| ==> front[i] == ds[i];
    } else {
      assert acc.sources + [] == acc.sources;
    }
  }

  lemma {:induction false} FlowsMiddle(acc: Loaded, fs: seq<Flow>, limits: Limits)
    requires limits.Valid() && forall i :: 0 <= i < |fs| ==> FlowReadable(fs[i], UNBOUNDED)
    ensures var r := Middle(acc, FlowRecords(fs), limits);
            && (r.Ok? <==> (forall i :: 0 <= i < |fs| ==> FlowReadable(fs[i], limits.bounds))
                           && (fs == [] || |acc.flows| + |fs| <= limits.maxFlows))
            && (r.Ok? ==> r.value == acc.(flows := acc.flows + FlowValues(fs)))
  {
    hide MiddleStep, FlowRecord, FlowItems, FlowReadable;
    if fs != [] {
      var front, last := fs[..|fs| - 1], fs[|fs| - 1];
      FlowsMiddle(acc, front, limits);
      assert FlowRecords(fs)[..|fs| - 1] == FlowRecords(front);
      assert FlowValues(fs) == FlowValues(front) + [VSeq(FlowItems(last))];
      var before := Middle(acc, FlowRecords(front), limits);
      if before.Ok? {
        FlowStep(before.value, last, limits);
      }
      assert forall i :: 0 <= i < |front| ==> front[i] == fs[i];
    } else {
      assert acc.flows + [] == acc.flows;
    }
  }

  /** One part of a group after another: the first failure is the failure of the whole. */
  lemma MiddleThen(acc: Loaded, a: seq<Record>, b: seq<Record>, limits: Limits)
    ensures Middle(acc, a + b, limits)
         == if Middle(acc, a, limits).Err? then Middle(acc, a, limits) else Middle(Middle(acc, a, limits).value, b, limits)
  {
    hide Middle;
    if Middle(acc, a, limits).Err? {
      FailureStays(acc, a, b, limits);
    } else {
      MiddleConcat(acc, a, b, limits);
    }
  }

  lemma LeadMiddle(acc: Loaded, description: Text, limits: Limits)
    requires |description| <= U32_MAX
    ensures Middle(acc, [LimitsRecord(description)], limits) == if |description| <= 8192 then Ok(acc) else Err(FormatMismatch)
  {
    hide MiddleStep, LimitsRecord;
    var lead := [LimitsRecord(description)];
    DescriptionStep(acc, description, limits);
    assert lead[..0] == [] && lead[0] == LimitsRecord(description);
  }

  lemma BodyParts(s: State, description: Text)
    requires Writable(s) && |description| <= U32_MAX
    ensures GroupBody(s, description)[1..] == ([LimitsRecord(description)] + SourceRecords(s.sources)) + FlowRecords(s.flows)
  {
    hide LimitsRecord, SourceRecord, FlowRecord, HeaderRecord, FlowReadable, ObsCodec.Short;
  }

  lemma GroupMiddle(s: State, description: Text, limits: Limits)
    requires limits.Valid() && Writable(s) && |description| <= U32_MAX
    ensures var acc := Loaded(VSeq(HeaderItems(s)), [], []);
            var r := Middle(acc, GroupBody(s, description)[1..], limits);
            && (r.Ok? <==> && |description| <= 8192 && |s.sources| <= limits.maxSources && |s.flows| <= limits.maxFlows
                           && (forall i :: 0 <= i < |s.sources| ==> ObsCodec.Short(s.sources[i].key, limits.bounds.key))
                           && (forall i :: 0 <= i < |s.flows| ==> FlowReadable(s.flows[i], limits.bounds)))
            && (r.Ok? ==> r.value == ValuesOf(s))
  {
    hide Middle, LimitsRecord, SourceRecords, FlowRecords, GroupBody, HeaderItems, FlowReadable, ObsCodec.Short, DescriptorValues, FlowValues;
    var acc := Loaded(VSeq(HeaderItems(s)), [], []);
    var lead := [LimitsRecord(description)];
    var sources, flows := SourceRecords(s.sources), FlowRecords(s.flows);
    BodyParts(s, description);
    LeadMiddle(acc, description, limits);
    MiddleThen(acc, lead, sources, limits);
    MiddleThen(acc, lead + sources, flows, limits);
    SourcesMiddle(acc, s.sources, limits);
    FlowsMiddle(acc.(sources := DescriptorValues(s.sources)), s.flows, limits);
    assert [] + DescriptorValues(s.sources) == DescriptorValues(s.sources) && [] + FlowValues(s.flows) == FlowValues(s.flows);
  }

  lemma HeaderDecodes(s: State)
    requires s.formatVersion < 0x1_0000
    ensures HeaderRecord(s).kind == BEGIN && Whole(HEADER, HeaderRecord(s).payload) == Some(VSeq(HeaderItems(s)))
    ensures VersionOf(VSeq(HeaderItems(s))) == s.formatVersion && SchemeOf(VSeq(HeaderItems(s))) == s.identityScheme
  {
    HeaderFits(s);
    hide Encode, Whole, Fits;
    WholeOf(HEADER, VSeq(HeaderItems(s)));
  }

  lemma TrailerDecodes(before: seq<Record>, sources: nat, flows: nat)
    requires sources <= U32_MAX && flows <= U32_MAX
    ensures var r, v := TrailerRecord(before, sources, flows), VSeq(TrailerItems(before, sources, flows));
            && r.kind == END && Whole(TRAILER, r.payload) == Some(v)
            && CountOf(v, 1) == sources && CountOf(v, 2) == flows
  {
    TrailerFits(before, sources, flows);
    hide Encode, Whole, Fits, GroupDigest;
    WholeOf(TRAILER, VSeq(TrailerItems(before, sources, flows)));
  }

  /** A snapshot is read back exactly when it keeps the reader's limits and versions; then it is the state that was written. */
  lemma SnapshotRoundTrip(s: State, description: Text, limits: Limits, recovery: Recovery)
    requires limits.Valid() && Writable(s) && |description| <= U32_MAX && |s.sources| <= U32_MAX && |s.flows| <= U32_MAX
    ensures var r := DecodedGroup(Group(s, description), limits, recovery);
            && (r.Ok? <==> Readable(s, description, limits, recovery))
            && (r.Ok? ==> r.value == ValuesOf(s))
  {
    hide HeaderRecord, TrailerRecord, Whole, Middle, GroupBody, GroupDigest, HeaderItems, FlowReadable, ObsCodec.Short;
    var body := GroupBody(s, description);
    var group := Group(s, description);
    BodyStarts(s, description);
    HeaderDecodes(s);
    TrailerDecodes(body, |s.sources|, |s.flows|);
    GroupMiddle(s, description, limits);
    assert group[..|group| - 1] == body && group[1..|group| - 1] == body[1..];
    assert group[0] == body[0];
  }

  lemma BodyStarts(s: State, description: Text)
    requires Writable(s) && |description| <= U32_MAX
    ensures |GroupBody(s, description)| == 2 + |s.sources| + |s.flows| && GroupBody(s, description)[0] == HeaderRecord(s)
    ensures forall i :: 1 <= i < |GroupBody(s, description)| ==> GroupBody(s, description)[i].kind != BEGIN && GroupBody(s, description)[i].kind != END
  {
    hide Encode;
  }

  /** A state of one flow, whose one generation is attached to links 1 to `n`. */
  function LinkedState(n: nat): State
    requires n <= U32_MAX
  {
    var none := Reconcile.Consumption(0, 0, 0, 0, false, false, false, false);
    var at := Instants(0, 0, 0, 0);
    var coverage := Fold.Coverage(false, false, false, false);
    var g := Generation(1, true, at, 0, Observed, FirstObservation, coverage, None, seq(n, i requires 0 <= i < n => i + 1), [], 0, 0,
                        none, none, none, none, false, [], []);
    State(FORMAT_VERSION, IDENTITY_SCHEME, 1, 0, 1, 0, 0, 1, [],
          [Flow(1, "a", 0, 1, 1, Observed, FirstObservation, coverage, 0, 0, at, 0, 0, [g], [], 0, [], 0)])
  }

  /** Whatever the reader's bound on links, one link more is written without complaint and refused when it is read. */
  lemma LinksNotRead(limits: Limits, recovery: Recovery)
    requires limits.Valid() && limits.bounds.hops < U32_MAX
    ensures Writable(LinkedState(limits.bounds.hops + 1))
    ensures DecodedGroup(Group(LinkedState(limits.bounds.hops + 1), []), limits, recovery).Err?
  {
    var s := LinkedState(limits.bounds.hops + 1);
    assert !GenerationReadable(s.flows[0].generations[0], limits.bounds);
    assert GenerationReadable(s.flows[0].generations[0], UNBOUNDED);
    assert FlowReadable(s.flows[0], UNBOUNDED);
    assert !Readable(s, [], limits, recovery);
    hide LinkedState, Readable, DecodedGroup, Group, FlowReadable;
    SnapshotRoundTrip(s, [], limits, recovery);
  }

  // ---- damage to a group ----------------------------------------------------------------------------

  /** How many records of a kind there are. */
  function CountKind(rs: seq<Record>, kind: nat): nat {
    if rs == [] then 0 else CountKind(rs[..|rs| - 1], kind) + (if rs[|rs| - 1].kind == kind then 1 else 0)
  }

  lemma {:induction false} MiddleCounts(acc: Loaded, rs: seq<Record>, limits: Limits)
    ensures var r := Middle(acc, rs, limits);
            r.Ok? ==> |r.value.sources| == |acc.sources| + CountKind(rs, SOURCE) && |r.value.flows| == |acc.flows| + CountKind(rs, FLOW)
  {
    hide Whole;
    if rs != [] {
      MiddleCounts(acc, rs[..|rs| - 1], limits);
    }
  }

  /** A group that is accepted holds as many sources and flows as its end declares, whatever the digest does. */
  lemma AcceptedGroupIsComplete(records: seq<Record>, limits: Limits, recovery: Recovery)
    requires DecodedGroup(records, limits, recovery).Ok?
    ensures var trailer := Whole(TRAILER, records[|records| - 1].payload);
            && trailer.Some?
            && CountKind(records[1..|records| - 1], SOURCE) == CountOf(trailer.value, 1)
            && CountKind(records[1..|records| - 1], FLOW) == CountOf(trailer.value, 2)
            && GroupDigest(records[..|records| - 1]) as nat == CountOf(trailer.value, 0)
  {
    hide Whole, GroupDigest, MiddleStep;
    var header := Whole(HEADER, records[0].payload);
    MiddleCounts(Loaded(header.value, [], []), records[1..|records| - 1], limits);
  }

  // ---- replay -----------------------------------------------------------------------------------------

  /** What a replay has gathered: the last snapshot, changed by later records, and the evidence since. */
  datatype Replayed = Replayed(state: Loaded, sawSnapshot: bool, observations: seq<Value>)

  const NOTHING_REPLAYED: Replayed := Replayed(Loaded(VNone, [], []), false, [])

  datatype GroupEnd = ClosedAt(index: nat) | Nested | Unclosed

  /** The end of the group that begins just before position `i`. */
  function FindEnd(records: seq<Record>, i: nat): (e: GroupEnd)
    requires i <= |records|
    ensures e.ClosedAt? ==> i <= e.index < |records|
    decreases |records| - i
  {
    if i == |records| then Unclosed
    else if records[i].kind == END then ClosedAt(i)
    else if records[i].kind == BEGIN then Nested
    else FindEnd(records, i + 1)
  }

  function IdOf(v: Value): Value {
    if v.VSeq? && v.items != [] then v.items[0] else VNone
  }

  /** The position of the entry with the identity of `v`, or the length. */
  function FindId(entries: seq<Value>, v: Value): (i: nat)
    ensures i <= |entries|
  {
    if entries == [] || IdOf(entries[0]) == IdOf(v) then 0 else 1 + FindId(entries[1..], v)
  }

  /** A later record replaces the entry it names, or is added while there is room. */
  function Upsert(entries: seq<Value>, v: Value, max: nat): Result<seq<Value>> {
    var i := FindId(entries, v);
    if i < |entries| then Ok(entries[i := v])
    else if |entries| >= max then Err(LimitExceeded)
    else Ok(entries + [v])
  }

  /** One record outside any group. */
  function ReplayStep(acc: Replayed, r: Record, limits: Limits): Result<Replayed> {
    if r.kind == SOURCE then
      var v := Whole(DescriptorShape(limits.bounds.key), r.payload);
      if v.None? then Err(IntegrityFailure)
      else
        var next := Upsert(acc.state.sources, v.value, limits.maxSources);
        if next.Err? then Err(next.error) else Ok(acc.(state := acc.state.(sources := next.value)))
    else if r.kind == OBSERVATION then
      var v := Whole(ObsCodec.ObservationShape(limits.bounds.key, limits.maxHops), r.payload);
      if v.None? then Err(IntegrityFailure)
      else if |acc.observations| >= limits.maxObservations then Err(LimitExceeded)
      else Ok(acc.(observations := acc.observations + [v.value]))
    else if r.kind == FLOW then
      var v := Whole(FlowShape(limits.bounds), r.payload);
      if v.None? then Err(IntegrityFailure)
      else
        var next := Upsert(acc.state.flows, v.value, limits.maxFlows);
        if next.Err? then Err(next.error) else Ok(acc.(state := acc.state.(flows := next.value)))
    else if r.kind == LIMITS || r.kind == COUNTERS || r.kind == TOMBSTONE then Ok(acc)
    else Err(FormatMismatch)
  }

  /** Replays the records from position `i` on. */
  function Replay(acc: Replayed, records: seq<Record>, i: nat, limits: Limits, recovery: Recovery): Result<Replayed>
    requires i <= |records|
    decreases |records| - i
  {
    if i == |records| then Ok(acc)
    else if records[i].kind == BEGIN then
      var end := FindEnd(records, i + 1);
      if end.Nested? then Err(FormatMismatch)
      else if end.Unclosed? then Err(IntegrityFailure)
      else
        var group := DecodedGroup(records[i..end.index + 1], limits, recovery);
        if group.Err? then Err(group.error)
        else Replay(Replayed(group.value, true, []), records, end.index + 1, limits, recovery)
    else
      var next := ReplayStep(acc, records[i], limits);
      if next.Err? then next else Replay(next.value, records, i + 1, limits, recovery)
  }

  method ReplayRecords(records: seq<Record>, limits: Limits, recovery: Recovery) returns (r: Result<Replayed>)
    ensures r == Replay(NOTHING_REPLAYED, records, 0, limits, recovery)
  {
    hide DecodedGroup, ReplayStep;
    var acc := NOTHING_REPLAYED;
    var index := 0;
    while index < |records|
      invariant index <= |records|
      invariant Replay(NOTHING_REPLAYED, records, 0, limits, recovery) == Replay(acc, records, index, limits, recovery)
    {
      if records[index].kind == BEGIN {
        var end := index + 1;
        while end < |records| && records[end].kind != END
          invariant index < end <= |records|
          invariant FindEnd(records, index + 1) == FindEnd(records, end)
        {
          if records[end].kind == BEGIN {
            return Err(FormatMismatch);
          }
          end := end + 1;
        }
        if end >= |records| {
          return Err(IntegrityFailure);
        }
        var group := DecodeState(records[index..end + 1], limits, recovery);
        if group.Err? {
          return Err(group.error);
        }
        acc := Replayed(group.value, true, []);
        index := end + 1;
      } else {
        var next := ReplayStep(acc, records[index], limits);
        if next.Err? {
          return next;
        }
        acc := next.value;
        index := index + 1;
      }
    }
    return Ok(acc);
  }

  // ---- the last snapshot and what came after it ------------------------------------------------------------

  lemma {:induction false} FindEndPrefix(a: seq<Record>, b: seq<Record>, i: nat)
    requires i <= |a| && FindEnd(a, i).ClosedAt?
    ensures FindEnd(a + b, i) == FindEnd(a, i)
    decreases |a| - i
  {
    assert (a + b)[i] == a[i];
    if a[i].kind != END && a[i].kind != BEGIN {
      FindEndPrefix(a, b, i + 1);
    }
  }

  /** A log that replays goes on from where it stands: later records see only what the earlier ones gathered. */
  lemma {:induction false} ReplayContinues(acc: Replayed, a: seq<Record>, b: seq<Record>, i: nat, limits: Limits, recovery: Recovery)
    requires i <= |a| && Replay(acc, a, i, limits, recovery).Ok?
    ensures Replay(acc, a + b, i, limits, recovery)
         == Replay(Replay(acc, a, i, limits, recovery).value, a + b, |a|, limits, recovery)
    decreases |a| - i
  {
    hide DecodedGroup, ReplayStep;
    if i < |a| {
      assert (a + b)[i] == a[i];
      if a[i].kind == BEGIN {
        FindEndPrefix(a, b, i + 1);
        var end := FindEnd(a, i + 1);
        assert (a + b)[i..end.index + 1] == a[i..end.index + 1];
        ReplayContinues(Replayed(DecodedGroup(a[i..end.index + 1], limits, recovery).value, true, []), a, b, end.index + 1, limits, recovery);
      } else {
        ReplayContinues(ReplayStep(acc, a[i], limits).value, a, b, i + 1, limits, recovery);
      }
    }
  }

  lemma {:induction false} EndFound(records: seq<Record>, i: nat, end: nat)
    requires i <= end < |records| && records[end].kind == END
    requires forall k :: i <= k < end ==> records[k].kind != BEGIN && records[k].kind != END
    ensures FindEnd(records, i) == ClosedAt(end)
    decreases end - i
  {
    if i < end {
      EndFound(records, i + 1, end);
    }
  }

  function ObservationRecord(o: Observation): Record
    requires ObsCodec.Writable(o)
  {
    ObsCodec.ObservationFits(o, U32_MAX, U32_MAX);
    RecordFitsIff(ObsCodec.WRITTEN, ObsCodec.ObservationItems(o));
    Journal.Record(OBSERVATION, Encode(ObsCodec.WRITTEN, VSeq(ObsCodec.ObservationItems(o))))
  }

  function ObservationRecords(os: seq<Observation>): (rs: seq<Record>)
    requires forall i :: 0 <= i < |os| ==> ObsCodec.Writable(os[i])
    ensures |rs| == |os| && forall i :: 0 <= i < |os| ==> rs[i] == ObservationRecord(os[i])
  {
    seq(|os|, i requires 0 <= i < |os| && ObsCodec.Writable(os[i]) => ObservationRecord(os[i]))
  }

  function ObservationValues(os: seq<Observation>): (vs: seq<Value>)
    ensures |vs| == |os| && forall i :: 0 <= i < |os| ==> vs[i] == VSeq(ObsCodec.ObservationItems(os[i]))
  {
    seq(|os|, i requires 0 <= i < |os| => VSeq(ObsCodec.ObservationItems(os[i])))
  }

  lemma ObservationStep(acc: Replayed, o: Observation, limits: Limits)
    requires ObsCodec.KeepsLimits(o, limits.bounds.key, limits.maxHops) && limits.Valid() && ObsCodec.Writable(o)
    requires |acc.observations| < limits.maxObservations
    ensures ReplayStep(acc, ObservationRecord(o), limits)
         == Ok(acc.(observations := acc.observations + [VSeq(ObsCodec.ObservationItems(o))]))
  {
    ObsCodec.ObservationRoundTrip(o, limits.bounds.key, limits.maxHops, []);
    hide Decode, Encode, Fits, ObsCodec.ObservationItems, ObsCodec.ObservationShape;
    assert ObservationRecord(o).payload + [] == ObservationRecord(o).payload;
  }

  /** A log's observation records replay in the order they were appended. */
  lemma {:induction false} ObservationsReplay(acc: Replayed, before: seq<Record>, os: seq<Observation>, i: nat, limits: Limits, recovery: Recovery)
    requires limits.Valid() && i <= |os| && |acc.observations| + |os| - i <= limits.maxObservations
    requires forall k :: 0 <= k < |os| ==> ObsCodec.Writable(os[k]) && ObsCodec.KeepsLimits(os[k], limits.bounds.key, limits.maxHops)
    ensures Replay(acc, before + ObservationRecords(os), |before| + i, limits, recovery)
         == Ok(acc.(observations := acc.observations + ObservationValues(os)[i..]))
    decreases |os| - i
  {
    hide ReplayStep, ObservationRecord, ObsCodec.ObservationItems, ObsCodec.Writable, ObsCodec.KeepsLimits, DecodedGroup;
    var log := before + ObservationRecords(os);
    if i < |os| {
      assert log[|before| + i] == ObservationRecord(os[i]);
      KindOf(os[i]);
      ObservationStep(acc, os[i], limits);
      var next := acc.(observations := acc.observations + [VSeq(ObsCodec.ObservationItems(os[i]))]);
      ObservationsReplay(next, before, os, i + 1, limits, recovery);
      assert next.observations + ObservationValues(os)[i + 1..] == acc.observations + ObservationValues(os)[i..];
    } else {
      assert acc.observations + ObservationValues(os)[i..] == acc.observations;
    }
  }

  lemma KindOf(o: Observation)
    requires ObsCodec.Writable(o)
    ensures ObservationRecord(o).kind == OBSERVATION
  {
  }

  /**
   * Recovery from a log: whatever replayable records come first, the last snapshot is the state that was
   * written, and the observations after it come back all of them, in order, as they were appended.
   */
  lemma LastSnapshotWins(earlier: seq<Record>, s: State, description: Text, os: seq<Observation>, limits: Limits, recovery: Recovery)
    requires limits.Valid() && Writable(s) && |description| <= U32_MAX && |s.sources| <= U32_MAX && |s.flows| <= U32_MAX
    requires Readable(s, description, limits, recovery) && |os| <= limits.maxObservations
    requires forall k :: 0 <= k < |os| ==> ObsCodec.Writable(os[k]) && ObsCodec.KeepsLimits(os[k], limits.bounds.key, limits.maxHops)
    requires Replay(NOTHING_REPLAYED, earlier, 0, limits, recovery).Ok?
    ensures Replay(NOTHING_REPLAYED, earlier + Group(s, description) + ObservationRecords(os), 0, limits, recovery)
         == Ok(Replayed(ValuesOf(s), true, ObservationValues(os)))
  {
    hide Replay, Group, ObservationRecords, Writable, Readable, FlowReadable, ObsCodec.Writable, ObsCodec.KeepsLimits, ValuesOf, ObservationValues;
    var group, after := Group(s, description), ObservationRecords(os);
    assert earlier + group + after == earlier + (group + after);
    ReplayContinues(NOTHING_REPLAYED, earlier, group + after, 0, limits, recovery);
    GroupReplays(Replay(NOTHING_REPLAYED, earlier, 0, limits, recovery).value, earlier, s, description, after, limits, recovery);
    ObservationsReplay(Replayed(ValuesOf(s), true, []), earlier + group, os, 0, limits, recovery);
    assert ObservationValues(os)[0..] == ObservationValues(os) && [] + ObservationValues(os) == ObservationValues(os);
  }

  lemma GroupReplays(acc: Replayed, earlier: seq<Record>, s: State, description: Text, rest: seq<Record>, limits: Limits, recovery: Recovery)
    requires limits.Valid() && Writable(s) && |description| <= U32_MAX && |s.sources| <= U32_MAX && |s.flows| <= U32_MAX
    requires Readable(s, description, limits, recovery)
    ensures Replay(acc, earlier + Group(s, description) + rest, |earlier|, limits, recovery)
         == Replay(Replayed(ValuesOf(s), true, []), earlier + Group(s, description) + rest,
                   |earlier| + |Group(s, description)|, limits, recovery)
  {
    hide DecodedGroup, ReplayStep, Writable, Readable, ValuesOf, TrailerRecord, GroupBody, HeaderRecord;
    var body, group := GroupBody(s, description), Group(s, description);
    var log := earlier + group + rest;
    BodyStarts(s, description);
    HeaderDecodes(s) by { WritableFormat(s); }
    TrailerDecodes(body, |s.sources|, |s.flows|);
    SnapshotRoundTrip(s, description, limits, recovery);
    var start, end := |earlier|, |earlier| + |group| - 1;
    assert log[start..end + 1] == group;
    assert log[start] == group[0] && log[end] == group[|group| - 1];
    forall k | start + 1 <= k < end ensures log[k].kind != BEGIN && log[k].kind != END {
      assert log[k] == body[k - start];
    }
    EndFound(log, start + 1, end);
  }

  lemma WritableFormat(s: State)
    requires Writable(s)
    ensures s.formatVersion < 0x1_0000
  {
  }
}
