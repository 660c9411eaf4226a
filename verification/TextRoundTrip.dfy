/** Printing an observation, and exactly what reading the printed line back gives. */
module TextRoundTrip {
  import opened Checked
  import opened Evidence
  import opened Tokens
  import opened Commas
  import opened Decimal
  import opened Names
  import opened TextProto

  // ---- printing -----------------------------------------------------------------------------

  /** One field of a printed line. */
  datatype Entry = Entry(f: Field, value: Text, quoted: bool)

  function HexDigit(n: nat): Byte
    requires n < 16
  {
    if n < 10 then ('0' as int + n) as char else ('a' as int + n - 10) as char
  }

  /** The low `width` hexadecimal digits. */
  function Hex(n: nat, width: nat): (t: Text)
    ensures |t| == width
  {
    if width == 0 then [] else Hex(n / 16, width - 1) + [HexDigit(n % 16)]
  }

  /** A key in quotes, or, when there is none, the identity in hexadecimal. */
  function Printed(key: Text, id: u64): Text {
    if key != [] then key else ['@'] + Hex(id, 16)
  }

  function Named(f: Field, key: Text, id: u64): Entry {
    Entry(f, Printed(key, id), key != [])
  }

  function Number(f: Field, n: nat): Entry {
    Entry(f, Digits(n), false)
  }

  function Instant(f: Field, t: i64): Entry {
    Entry(f, SignedDigits(t), false)
  }

  function Only(shown: bool, e: Entry): seq<Entry> {
    if shown then [e] else []
  }

  function Number0(n: Option<u64>): u64 {
    if n.Some? then n.value else 0
  }

  function Instant0(t: Option<i64>): i64 {
    if t.Some? then t.value else 0
  }

  function IdentityEntries(o: Observation): seq<Entry> {
    [Named(FSrc, o.sourceKey, o.key.source), Named(FFlow, o.subject.flowKey, o.subject.flow), Number(FGen, o.subject.generation),
     Number(FInc, o.key.incarnation), Number(FEpoch, o.key.epoch), Number(FRev, o.key.revision), Number(FSeq, o.key.sequence)]
  }

  function EndpointEntries(s: Subject): seq<Entry> {
    Only(s.endpoint != 0, Named(FEp, s.endpointKey, s.endpoint)) + Only(s.peerEndpoint != 0, Named(FPeer, s.peerEndpointKey, s.peerEndpoint))
  }

  function ResourceEntries(s: Subject): seq<Entry> {
    Only(s.path.Some?, Named(FPath, s.pathKey, Number0(s.path))) + Only(s.queue.Some?, Named(FQueue, s.queueKey, Number0(s.queue)))
    + Only(s.link.Some?, Named(FLink, s.linkKey, Number0(s.link)))
  }

  function RouteEntries(s: Subject): seq<Entry> {
    Only(s.pathGeneration.Some?, Number(FPathgen, Number0(s.pathGeneration)))
    + Only(s.hopCapacity != [], Entry(FHopcap, Join(Texts(s.hopCapacity)), false))
  }

  function OccasionEntries(o: Observation): seq<Entry> {
    [Instant(FObs, o.observedAt)] + Only(o.receivedAt != 0, Instant(FRx, o.receivedAt))
    + [Entry(FKind, KindName(o.kind), false), Entry(FDir, DirectionName(o.direction), false), Entry(FEv, ClaimName(o.claim), false)]
  }

  function CounterEntries(c: CounterSet): seq<Entry> {
    [Entry(FBytes, CounterText(c.bytes), false), Entry(FPkts, CounterText(c.packets), false),
     Entry(FRetx, CounterText(c.retransmissions), false)]
  }

  function DurationEntries(o: Observation): seq<Entry> {
    Only(o.coveredDuration.Some?, Instant(FDur, Instant0(o.coveredDuration))) + Only(o.reportedRtt.Some?, Instant(FRtt, Instant0(o.reportedRtt)))
  }

  function LastEntries(o: Observation): seq<Entry> {
    Only(o.capabilities != NO_CAPABILITIES, Entry(FCaps, CapabilitiesText(o.capabilities), false))
    + Only(o.schemaVersion != 1, Number(FSchema, o.schemaVersion))
  }

  function Entries(o: Observation): seq<Entry> {
    IdentityEntries(o) + EndpointEntries(o.subject) + ResourceEntries(o.subject) + RouteEntries(o.subject)
    + OccasionEntries(o) + CounterEntries(o.counters) + DurationEntries(o) + LastEntries(o)
  }

  function TokenOf(e: Entry): Token {
    Token(FieldName(e.f), e.value, e.quoted, true)
  }

  function TokensOf(es: seq<Entry>): (ts: seq<Token>)
    ensures |ts| == |es|
    ensures forall i :: 0 <= i < |es| ==> ts[i] == TokenOf(es[i])
  {
    seq(|es|, i requires 0 <= i < |es| => TokenOf(es[i]))
  }

  const DIRECTIVE: Token := Token("OBS", [], false, false)
  const VERSION: Token := Token("v", "1", false, true)

  /** The printed line. */
  function Line(o: Observation): Text {
    RenderAll([DIRECTIVE, VERSION] + TokensOf(Entries(o)))
  }

  // ---- entries are read field by field ---------------------------------------------------------

  function ApplyEntry(d: Draft, e: Entry, h: Hashes): Option<Draft> {
    var o := Apply(d.o, e.f, e.value, h);
    if o.None? then None else Some(Draft(o.value, d.seen + {e.f}))
  }

  function ApplyEntries(d: Draft, es: seq<Entry>, h: Hashes): Option<Draft> {
    if es == [] then Some(d)
    else
      var front := ApplyEntries(d, es[..|es| - 1], h);
      if front.None? then None else ApplyEntry(front.value, es[|es| - 1], h)
  }

  lemma EntryAsToken(d: Draft, e: Entry, h: Hashes)
    ensures ApplyToken(d, TokenOf(e), h) == ApplyEntry(d, e, h)
  {
    FieldRoundTrip(e.f);
    hide FieldOf, FieldName, Apply;
  }

  lemma {:induction false} EntriesAsTokens(d: Draft, es: seq<Entry>, h: Hashes)
    ensures ApplyTokens(d, TokensOf(es), h) == ApplyEntries(d, es, h)
  {
    hide ApplyToken, ApplyEntry, TokenOf;
    if es != [] {
      var front := es[..|es| - 1];
      EntriesAsTokens(d, front, h);
      assert TokensOf(es)[..|es| - 1] == TokensOf(front);
      var before := ApplyEntries(d, front, h);
      if before.Some? {
        EntryAsToken(before.value, es[|es| - 1], h);
      }
    }
  }

  lemma {:induction false} EntriesConcat(d: Draft, a: seq<Entry>, b: seq<Entry>, h: Hashes)
    requires ApplyEntries(d, a, h).Some?
    ensures ApplyEntries(d, a + b, h) == ApplyEntries(ApplyEntries(d, a, h).value, b, h)
    decreases |b|
  {
    hide ApplyEntry;
    if b == [] {
      assert a + b == a;
    } else {
      EntriesConcat(d, a, b[..|b| - 1], h);
      assert (a + b)[..|a + b| - 1] == a + b[..|b| - 1];
    }
  }

  /** Reading these entries takes a draft from `d` to `next`. */
  predicate Leads(d: Draft, es: seq<Entry>, next: Draft, h: Hashes) {
    ApplyEntries(d, es, h) == Some(next)
  }

  lemma LeadsOn(d: Draft, a: seq<Entry>, mid: Draft, b: seq<Entry>, next: Draft, h: Hashes)
    requires Leads(d, a, mid, h) && Leads(mid, b, next, h)
    ensures Leads(d, a + b, next, h)
  {
    EntriesConcat(d, a, b, h);
  }

  lemma LeadsOne(d: Draft, e: Entry, o: Observation, h: Hashes)
    requires Apply(d.o, e.f, e.value, h) == Some(o)
    ensures Leads(d, [e], Draft(o, d.seen + {e.f}), h)
  {
    hide Apply;
    var es := [e];
    assert es[..|es| - 1] == [];
    assert ApplyEntries(d, [], h) == Some(d);
  }

  lemma LeadsOnly(d: Draft, shown: bool, e: Entry, o: Observation, h: Hashes)
    requires shown ==> Apply(d.o, e.f, e.value, h) == Some(o)
    ensures Leads(d, Only(shown, e), if shown then Draft(o, d.seen + {e.f}) else d, h)
  {
    hide Apply;
    if shown {
      LeadsOne(d, e, o, h);
    }
  }

  lemma LeadsMore(d: Draft, a: seq<Entry>, mid: Draft, e: Entry, o: Observation, h: Hashes)
    requires Leads(d, a, mid, h) && Apply(mid.o, e.f, e.value, h) == Some(o)
    ensures Leads(d, a + [e], Draft(o, mid.seen + {e.f}), h)
  {
    hide Apply;
    LeadsOne(mid, e, o, h);
    LeadsOn(d, a, mid, [e], Draft(o, mid.seen + {e.f}), h);
  }

  // ---- what a printed observation reads as ---------------------------------------------------------

  /** The subject a printed subject reads as: every identity is the hash of what was printed for it. */
  function RereadSubject(s: Subject, h: Hashes): Subject {
    var flow := Printed(s.flowKey, s.flow);
    var ep, peer := Printed(s.endpointKey, s.endpoint), Printed(s.peerEndpointKey, s.peerEndpoint);
    var path, queue, link := Printed(s.pathKey, Number0(s.path)), Printed(s.queueKey, Number0(s.queue)), Printed(s.linkKey, Number0(s.link));
    Subject(
      h.flow(flow), s.generation,
      if s.endpoint != 0 then h.endpoint(ep) else 0, if s.peerEndpoint != 0 then h.endpoint(peer) else 0,
      if s.path.Some? then Some(h.path(path)) else None, if s.queue.Some? then Some(h.queue(queue)) else None,
      if s.link.Some? then Some(h.link(link)) else None, s.pathGeneration, s.hopCapacity,
      flow, if s.endpoint != 0 then ep else [], if s.peerEndpoint != 0 then peer else [],
      if s.path.Some? then path else [], if s.queue.Some? then queue else [], if s.link.Some? then link else [])
  }

  /** The observation a printed observation reads as. */
  function Reread(o: Observation, h: Hashes): Observation {
    o.(key := o.key.(source := h.source(Printed(o.sourceKey, o.key.source))), sourceKey := [],
       capabilities := if o.capabilities == NO_CAPABILITIES then DEFAULT_CAPABILITIES else o.capabilities,
       subject := RereadSubject(o.subject, h))
  }

  function IdentityRead(d: Draft, o: Observation, h: Hashes): Draft {
    var flow := Printed(o.subject.flowKey, o.subject.flow);
    Draft(d.o.(key := o.key.(source := h.source(Printed(o.sourceKey, o.key.source))),
               subject := d.o.subject.(flowKey := flow, flow := h.flow(flow), generation := o.subject.generation)),
          d.seen + {FSrc, FFlow, FGen, FInc, FEpoch, FRev, FSeq})
  }

  lemma IdentityLeads(d: Draft, o: Observation, h: Hashes)
    ensures Leads(d, IdentityEntries(o), IdentityRead(d, o, h), h)
  {
    var es := IdentityEntries(o);
    U64RoundTrip(o.subject.generation);
    U64RoundTrip(o.key.incarnation);
    U64RoundTrip(o.key.epoch);
    U64RoundTrip(o.key.revision);
    U64RoundTrip(o.key.sequence);
    hide ParsedU64, Digits, Printed, Leads;
    var flow := Printed(o.subject.flowKey, o.subject.flow);
    var o0 := d.o.(key := d.o.key.(source := h.source(Printed(o.sourceKey, o.key.source))));
    LeadsOne(d, es[0], o0, h);
    var d0 := Draft(o0, d.seen + {FSrc});
    var o1 := o0.(subject := o0.subject.(flowKey := flow, flow := h.flow(flow)));
    LeadsMore(d, [es[0]], d0, es[1], o1, h);
    var d1 := Draft(o1, d0.seen + {FFlow});
    var o2 := o1.(subject := o1.subject.(generation := o.subject.generation));
    LeadsMore(d, [es[0]] + [es[1]], d1, es[2], o2, h);
    var d2 := Draft(o2, d1.seen + {FGen});
    FencesLead(d2, o, h);
    LeadsOn(d, [es[0]] + [es[1]] + [es[2]], d2, FenceEntries(o), FencesRead(d2, o), h);
    assert es == [es[0]] + [es[1]] + [es[2]] + FenceEntries(o);
    assert FencesRead(d2, o) == IdentityRead(d, o, h);
  }

  function FenceEntries(o: Observation): seq<Entry> {
    [Number(FInc, o.key.incarnation), Number(FEpoch, o.key.epoch), Number(FRev, o.key.revision), Number(FSeq, o.key.sequence)]
  }

  function FencesRead(d: Draft, o: Observation): Draft {
    Draft(d.o.(key := o.key.(source := d.o.key.source)), d.seen + {FInc, FEpoch, FRev, FSeq})
  }

  lemma FencesLead(d: Draft, o: Observation, h: Hashes)
    ensures Leads(d, FenceEntries(o), FencesRead(d, o), h)
  {
    var es := FenceEntries(o);
    U64RoundTrip(o.key.incarnation);
    U64RoundTrip(o.key.epoch);
    U64RoundTrip(o.key.revision);
    U64RoundTrip(o.key.sequence);
    hide ParsedU64, Digits, Leads;
    var o0 := d.o.(key := d.o.key.(incarnation := o.key.incarnation));
    LeadsOne(d, es[0], o0, h);
    var d0 := Draft(o0, d.seen + {FInc});
    var o1 := o0.(key := o0.key.(epoch := o.key.epoch));
    LeadsMore(d, [es[0]], d0, es[1], o1, h);
    var d1 := Draft(o1, d0.seen + {FEpoch});
    var o2 := o1.(key := o1.key.(revision := o.key.revision));
    LeadsMore(d, [es[0]] + [es[1]], d1, es[2], o2, h);
    var d2 := Draft(o2, d1.seen + {FRev});
    var o3 := o2.(key := o2.key.(sequence := o.key.sequence));
    LeadsMore(d, [es[0]] + [es[1]] + [es[2]], d2, es[3], o3, h);
    assert es == [es[0]] + [es[1]] + [es[2]] + [es[3]];
    assert d2.seen + {FSeq} == d.seen + {FInc, FEpoch, FRev, FSeq};
    assert o3 == FencesRead(d, o).o;
  }

  // ---- the subject ---------------------------------------------------------------------------------

  function EndpointsRead(d: Draft, s: Subject, h: Hashes): Draft {
    var r := RereadSubject(s, h);
    var t := if s.endpoint != 0 then d.o.subject.(endpointKey := r.endpointKey, endpoint := r.endpoint) else d.o.subject;
    var u := if s.peerEndpoint != 0 then t.(peerEndpointKey := r.peerEndpointKey, peerEndpoint := r.peerEndpoint) else t;
    Draft(d.o.(subject := u),
          d.seen + (if s.endpoint != 0 then {FEp} else {}) + (if s.peerEndpoint != 0 then {FPeer} else {}))
  }

  lemma EndpointsLead(d: Draft, s: Subject, h: Hashes)
    ensures Leads(d, EndpointEntries(s), EndpointsRead(d, s, h), h)
  {
    hide Leads, Printed;
    var r := RereadSubject(s, h);
    var ep, peer := Named(FEp, s.endpointKey, s.endpoint), Named(FPeer, s.peerEndpointKey, s.peerEndpoint);
    var o0 := d.o.(subject := d.o.subject.(endpointKey := ep.value, endpoint := h.endpoint(ep.value)));
    LeadsOnly(d, s.endpoint != 0, ep, o0, h);
    var d0 := if s.endpoint != 0 then Draft(o0, d.seen + {FEp}) else d;
    var o1 := d0.o.(subject := d0.o.subject.(peerEndpointKey := peer.value, peerEndpoint := h.endpoint(peer.value)));
    LeadsOnly(d0, s.peerEndpoint != 0, peer, o1, h);
    var d1 := if s.peerEndpoint != 0 then Draft(o1, d0.seen + {FPeer}) else d0;
    LeadsOn(d, Only(s.endpoint != 0, ep), d0, Only(s.peerEndpoint != 0, peer), d1, h);
    assert d1.seen == EndpointsRead(d, s, h).seen;
  }

  function ResourcesRead(d: Draft, s: Subject, h: Hashes): Draft {
    var r := RereadSubject(s, h);
    var t := if s.path.Some? then d.o.subject.(pathKey := r.pathKey, path := r.path) else d.o.subject;
    var u := if s.queue.Some? then t.(queueKey := r.queueKey, queue := r.queue) else t;
    var v := if s.link.Some? then u.(linkKey := r.linkKey, link := r.link) else u;
    Draft(d.o.(subject := v),
          d.seen + (if s.path.Some? then {FPath} else {}) + (if s.queue.Some? then {FQueue} else {}) + (if s.link.Some? then {FLink} else {}))
  }

  lemma ResourcesLead(d: Draft, s: Subject, h: Hashes)
    ensures Leads(d, ResourceEntries(s), ResourcesRead(d, s, h), h)
  {
    hide Leads, Printed;
    var path, queue, link := Named(FPath, s.pathKey, Number0(s.path)), Named(FQueue, s.queueKey, Number0(s.queue)), Named(FLink, s.linkKey, Number0(s.link));
    var o0 := d.o.(subject := d.o.subject.(pathKey := path.value, path := Some(h.path(path.value))));
    LeadsOnly(d, s.path.Some?, path, o0, h);
    var d0 := if s.path.Some? then Draft(o0, d.seen + {FPath}) else d;
    var o1 := d0.o.(subject := d0.o.subject.(queueKey := queue.value, queue := Some(h.queue(queue.value))));
    LeadsOnly(d0, s.queue.Some?, queue, o1, h);
    var d1 := if s.queue.Some? then Draft(o1, d0.seen + {FQueue}) else d0;
    var o2 := d1.o.(subject := d1.o.subject.(linkKey := link.value, link := Some(h.link(link.value))));
    LeadsOnly(d1, s.link.Some?, link, o2, h);
    var d2 := if s.link.Some? then Draft(o2, d1.seen + {FLink}) else d1;
    var a, b, c := Only(s.path.Some?, path), Only(s.queue.Some?, queue), Only(s.link.Some?, link);
    hide Only;
    LeadsOn(d, a, d0, b, d1, h);
    LeadsOn(d, a + b, d1, c, d2, h);
    assert d2.seen == ResourcesRead(d, s, h).seen;
  }

  function RouteRead(d: Draft, s: Subject): Draft {
    var t := if s.pathGeneration.Some? then d.o.subject.(pathGeneration := s.pathGeneration) else d.o.subject;
    var u := if s.hopCapacity != [] then t.(hopCapacity := s.hopCapacity) else t;
    Draft(d.o.(subject := u),
          d.seen + (if s.pathGeneration.Some? then {FPathgen} else {}) + (if s.hopCapacity != [] then {FHopcap} else {}))
  }

  lemma RouteLeads(d: Draft, s: Subject, h: Hashes)
    ensures Leads(d, RouteEntries(s), RouteRead(d, s), h)
  {
    U64RoundTrip(Number0(s.pathGeneration));
    NumbersRoundTrip(s.hopCapacity);
    hide Leads, ParsedU64, Digits, ParsedNumbers, Join, Texts;
    var gen, hops := Number(FPathgen, Number0(s.pathGeneration)), Entry(FHopcap, Join(Texts(s.hopCapacity)), false);
    var o0 := d.o.(subject := d.o.subject.(pathGeneration := s.pathGeneration));
    LeadsOnly(d, s.pathGeneration.Some?, gen, o0, h);
    var d0 := if s.pathGeneration.Some? then Draft(o0, d.seen + {FPathgen}) else d;
    var o1 := d0.o.(subject := d0.o.subject.(hopCapacity := s.hopCapacity));
    LeadsOnly(d0, s.hopCapacity != [], hops, o1, h);
    var d1 := if s.hopCapacity != [] then Draft(o1, d0.seen + {FHopcap}) else d0;
    LeadsOn(d, Only(s.pathGeneration.Some?, gen), d0, Only(s.hopCapacity != [], hops), d1, h);
    assert d1.seen == RouteRead(d, s).seen;
  }

  // ---- the occasion and the readings ------------------------------------------------------------------

  function OccasionRead(d: Draft, o: Observation): Draft {
    var t := d.o.(observedAt := o.observedAt, kind := o.kind, direction := o.direction, claim := o.claim);
    Draft(if o.receivedAt != 0 then t.(receivedAt := o.receivedAt) else t,
          d.seen + {FObs, FKind, FDir, FEv} + (if o.receivedAt != 0 then {FRx} else {}))
  }

  lemma OccasionLeads(d: Draft, o: Observation, h: Hashes)
    ensures Leads(d, OccasionEntries(o), OccasionRead(d, o), h)
  {
    I64RoundTrip(o.observedAt);
    I64RoundTrip(o.receivedAt);
    hide Leads, ParsedI64, SignedDigits;
    var obs, rx := Instant(FObs, o.observedAt), Instant(FRx, o.receivedAt);
    var o0 := d.o.(observedAt := o.observedAt);
    LeadsOne(d, obs, o0, h);
    var d0 := Draft(o0, d.seen + {FObs});
    var o1 := o0.(receivedAt := o.receivedAt);
    LeadsOnly(d0, o.receivedAt != 0, rx, o1, h);
    var d1 := if o.receivedAt != 0 then Draft(o1, d0.seen + {FRx}) else d0;
    LeadsOn(d, [obs], d0, Only(o.receivedAt != 0, rx), d1, h);
    ClassesLead(d1, o, h);
    LeadsOn(d, [obs] + Only(o.receivedAt != 0, rx), d1, ClassEntries(o), ClassesRead(d1, o), h);
    assert ClassesRead(d1, o).seen == OccasionRead(d, o).seen;
  }

  function ClassEntries(o: Observation): seq<Entry> {
    [Entry(FKind, KindName(o.kind), false), Entry(FDir, DirectionName(o.direction), false), Entry(FEv, ClaimName(o.claim), false)]
  }

  function ClassesRead(d: Draft, o: Observation): Draft {
    Draft(d.o.(kind := o.kind, direction := o.direction, claim := o.claim), d.seen + {FKind, FDir, FEv})
  }

  lemma ClassesLead(d: Draft, o: Observation, h: Hashes)
    ensures Leads(d, ClassEntries(o), ClassesRead(d, o), h)
  {
    var es := ClassEntries(o);
    KindRoundTrip(o.kind);
    DirectionRoundTrip(o.direction);
    ClaimRoundTrip(o.claim);
    hide KindOf, KindName, DirectionOf, DirectionName, ClaimOf, ClaimName, Leads;
    var o0 := d.o.(kind := o.kind);
    LeadsOne(d, es[0], o0, h);
    var d0 := Draft(o0, d.seen + {FKind});
    var o1 := o0.(direction := o.direction);
    LeadsMore(d, [es[0]], d0, es[1], o1, h);
    var d1 := Draft(o1, d0.seen + {FDir});
    var o2 := o1.(claim := o.claim);
    LeadsMore(d, [es[0]] + [es[1]], d1, es[2], o2, h);
    assert es == [es[0]] + [es[1]] + [es[2]];
    assert d1.seen + {FEv} == ClassesRead(d, o).seen;
  }

  function CountersRead(d: Draft, c: CounterSet): Draft {
    Draft(d.o.(counters := c), d.seen + {FBytes, FPkts, FRetx})
  }

  lemma CountersLead(d: Draft, c: CounterSet, h: Hashes)
    ensures Leads(d, CounterEntries(c), CountersRead(d, c), h)
  {
    var es := CounterEntries(c);
    CounterRoundTrip(c.bytes);
    CounterRoundTrip(c.packets);
    CounterRoundTrip(c.retransmissions);
    hide ParsedCounter, CounterText, Leads;
    var o0 := d.o.(counters := d.o.counters.(bytes := c.bytes));
    LeadsOne(d, es[0], o0, h);
    var d0 := Draft(o0, d.seen + {FBytes});
    var o1 := o0.(counters := o0.counters.(packets := c.packets));
    LeadsMore(d, [es[0]], d0, es[1], o1, h);
    var d1 := Draft(o1, d0.seen + {FPkts});
    var o2 := o1.(counters := o1.counters.(retransmissions := c.retransmissions));
    LeadsMore(d, [es[0]] + [es[1]], d1, es[2], o2, h);
    assert es == [es[0]] + [es[1]] + [es[2]];
    assert d1.seen + {FRetx} == CountersRead(d, c).seen;
  }

  function DurationsRead(d: Draft, o: Observation): Draft {
    var a := if o.coveredDuration.Some? then d.o.(coveredDuration := o.coveredDuration) else d.o;
    Draft(if o.reportedRtt.Some? then a.(reportedRtt := o.reportedRtt) else a,
          d.seen + (if o.coveredDuration.Some? then {FDur} else {}) + (if o.reportedRtt.Some? then {FRtt} else {}))
  }

  lemma DurationsLead(d: Draft, o: Observation, h: Hashes)
    ensures Leads(d, DurationEntries(o), DurationsRead(d, o), h)
  {
    I64RoundTrip(Instant0(o.coveredDuration));
    I64RoundTrip(Instant0(o.reportedRtt));
    hide Leads, ParsedI64, SignedDigits;
    var dur, rtt := Instant(FDur, Instant0(o.coveredDuration)), Instant(FRtt, Instant0(o.reportedRtt));
    var o0 := d.o.(coveredDuration := o.coveredDuration);
    LeadsOnly(d, o.coveredDuration.Some?, dur, o0, h);
    var d0 := if o.coveredDuration.Some? then Draft(o0, d.seen + {FDur}) else d;
    var o1 := d0.o.(reportedRtt := o.reportedRtt);
    LeadsOnly(d0, o.reportedRtt.Some?, rtt, o1, h);
    var d1 := if o.reportedRtt.Some? then Draft(o1, d0.seen + {FRtt}) else d0;
    LeadsOn(d, Only(o.coveredDuration.Some?, dur), d0, Only(o.reportedRtt.Some?, rtt), d1, h);
    assert d1.seen == DurationsRead(d, o).seen;
  }

  function LastRead(d: Draft, o: Observation): Draft {
    var c := if o.capabilities != NO_CAPABILITIES then d.o.(capabilities := o.capabilities) else d.o;
    Draft(if o.schemaVersion != 1 then c.(schemaVersion := o.schemaVersion) else c,
          d.seen + (if o.capabilities != NO_CAPABILITIES then {FCaps} else {}) + (if o.schemaVersion != 1 then {FSchema} else {}))
  }

  lemma SchemaRoundTrip(n: u32)
    ensures ParsedU32(Digits(n)) == Some(n)
  {
    U64RoundTrip(n);
  }

  lemma LastLeads(d: Draft, o: Observation, h: Hashes)
    ensures Leads(d, LastEntries(o), LastRead(d, o), h)
  {
    CapabilitiesRoundTrip(o.capabilities);
    SchemaRoundTrip(o.schemaVersion);
    hide Leads, ParsedCapabilities, CapabilitiesText, ParsedU32, Digits;
    var caps, schema := Entry(FCaps, CapabilitiesText(o.capabilities), false), Number(FSchema, o.schemaVersion);
    var o0 := d.o.(capabilities := o.capabilities);
    LeadsOnly(d, o.capabilities != NO_CAPABILITIES, caps, o0, h);
    var d0 := if o.capabilities != NO_CAPABILITIES then Draft(o0, d.seen + {FCaps}) else d;
    var o1 := d0.o.(schemaVersion := o.schemaVersion);
    LeadsOnly(d0, o.schemaVersion != 1, schema, o1, h);
    var d1 := if o.schemaVersion != 1 then Draft(o1, d0.seen + {FSchema}) else d0;
    LeadsOn(d, Only(o.capabilities != NO_CAPABILITIES, caps), d0, Only(o.schemaVersion != 1, schema), d1, h);
    assert d1.seen == LastRead(d, o).seen;
  }

  // ---- the whole line -----------------------------------------------------------------------------------

  const NOTHING_READ: Draft := Draft(UNSTATED, {})

  /** The drafts after each group of fields. */
  function SubjectRead(d: Draft, o: Observation, h: Hashes): Draft {
    RouteRead(ResourcesRead(EndpointsRead(IdentityRead(d, o, h), o.subject, h), o.subject, h), o.subject)
  }

  function EverythingRead(d: Draft, o: Observation, h: Hashes): Draft {
    LastRead(DurationsRead(CountersRead(OccasionRead(SubjectRead(d, o, h), o), o.counters), o), o)
  }

  lemma SubjectLeads(d: Draft, o: Observation, h: Hashes)
    ensures Leads(d, IdentityEntries(o) + EndpointEntries(o.subject) + ResourceEntries(o.subject) + RouteEntries(o.subject),
                  SubjectRead(d, o, h), h)
  {
    hide Leads, IdentityEntries, EndpointEntries, ResourceEntries, RouteEntries, IdentityRead, EndpointsRead, ResourcesRead, RouteRead;
    var d0 := IdentityRead(d, o, h);
    var d1 := EndpointsRead(d0, o.subject, h);
    var d2 := ResourcesRead(d1, o.subject, h);
    IdentityLeads(d, o, h);
    EndpointsLead(d0, o.subject, h);
    LeadsOn(d, IdentityEntries(o), d0, EndpointEntries(o.subject), d1, h);
    ResourcesLead(d1, o.subject, h);
    LeadsOn(d, IdentityEntries(o) + EndpointEntries(o.subject), d1, ResourceEntries(o.subject), d2, h);
    RouteLeads(d2, o.subject, h);
    LeadsOn(d, IdentityEntries(o) + EndpointEntries(o.subject) + ResourceEntries(o.subject), d2, RouteEntries(o.subject), RouteRead(d2, o.subject), h);
  }

  lemma EntriesLead(d: Draft, o: Observation, h: Hashes)
    ensures Leads(d, Entries(o), EverythingRead(d, o, h), h)
  {
    SubjectLeads(d, o, h);
    hide Leads, IdentityEntries, EndpointEntries, ResourceEntries, RouteEntries, OccasionEntries, CounterEntries, DurationEntries,
         LastEntries, SubjectRead, OccasionRead, CountersRead, DurationsRead, LastRead;
    var s := IdentityEntries(o) + EndpointEntries(o.subject) + ResourceEntries(o.subject) + RouteEntries(o.subject);
    var d0 := SubjectRead(d, o, h);
    var d1 := OccasionRead(d0, o);
    var d2 := CountersRead(d1, o.counters);
    var d3 := DurationsRead(d2, o);
    OccasionLeads(d0, o, h);
    LeadsOn(d, s, d0, OccasionEntries(o), d1, h);
    CountersLead(d1, o.counters, h);
    LeadsOn(d, s + OccasionEntries(o), d1, CounterEntries(o.counters), d2, h);
    DurationsLead(d2, o, h);
    LeadsOn(d, s + OccasionEntries(o) + CounterEntries(o.counters), d2, DurationEntries(o), d3, h);
    LastLeads(d3, o, h);
    LeadsOn(d, s + OccasionEntries(o) + CounterEntries(o.counters) + DurationEntries(o), d3, LastEntries(o), LastRead(d3, o), h);
  }

  lemma SubjectIsReread(o: Observation, h: Hashes)
    ensures var d := SubjectRead(NOTHING_READ, o, h);
            && d.o == UNSTATED.(key := o.key.(source := h.source(Printed(o.sourceKey, o.key.source))), subject := RereadSubject(o.subject, h))
            && {FSrc, FFlow} <= d.seen
  {
    hide Printed;
  }

  lemma EverythingIsReread(o: Observation, h: Hashes)
    ensures var d := EverythingRead(NOTHING_READ, o, h);
            d.o == Reread(o, h) && {FSrc, FFlow, FObs, FKind} <= d.seen
  {
    SubjectIsReread(o, h);
    hide Printed, SubjectRead, RereadSubject;
  }

  // ---- printed tokens are plain -----------------------------------------------------------------------------

  /** An entry that rendering does not confuse. */
  predicate Sound(e: Entry) {
    e.quoted || Bare(e.value)
  }

  predicate AllSound(es: seq<Entry>) {
    forall i :: 0 <= i < |es| ==> Sound(es[i])
  }

  lemma SoundIsPlain(e: Entry)
    requires Sound(e)
    ensures Plain(TokenOf(e))
  {
    FieldBare(e.f);
    hide FieldName;
  }

  lemma {:induction false} HexBare(n: nat, width: nat)
    ensures Visible(Hex(n, width))
  {
    if width > 0 {
      HexBare(n / 16, width - 1);
    }
  }

  lemma NamedSound(f: Field, key: Text, id: u64)
    ensures Sound(Named(f, key, id))
  {
    HexBare(id, 16);
    hide Hex;
  }

  lemma NumberSound(f: Field, n: nat)
    ensures Sound(Number(f, n))
  {
    DigitsBare(n);
  }

  lemma InstantSound(f: Field, t: i64)
    ensures Sound(Instant(f, t))
  {
    SignedBare(t);
  }

  lemma SoundConcat(a: seq<Entry>, b: seq<Entry>)
    requires AllSound(a) && AllSound(b)
    ensures AllSound(a + b)
  {
    hide Sound;
  }

  lemma IdentitySound(o: Observation)
    ensures AllSound(IdentityEntries(o)) && |IdentityEntries(o)| == 7
  {
    NamedSound(FSrc, o.sourceKey, o.key.source);
    NamedSound(FFlow, o.subject.flowKey, o.subject.flow);
    NumberSound(FGen, o.subject.generation);
    NumberSound(FInc, o.key.incarnation);
    NumberSound(FEpoch, o.key.epoch);
    NumberSound(FRev, o.key.revision);
    NumberSound(FSeq, o.key.sequence);
    hide Sound, Named, Number;
  }

  lemma EndpointsSound(s: Subject)
    ensures AllSound(EndpointEntries(s)) && |EndpointEntries(s)| <= 2
  {
    NamedSound(FEp, s.endpointKey, s.endpoint);
    NamedSound(FPeer, s.peerEndpointKey, s.peerEndpoint);
    hide Sound, Named;
    var a, b := Only(s.endpoint != 0, Named(FEp, s.endpointKey, s.endpoint)), Only(s.peerEndpoint != 0, Named(FPeer, s.peerEndpointKey, s.peerEndpoint));
    SoundConcat(a, b);
  }

  lemma ResourcesSound(s: Subject)
    ensures AllSound(ResourceEntries(s)) && |ResourceEntries(s)| <= 3
  {
    NamedSound(FPath, s.pathKey, Number0(s.path));
    NamedSound(FQueue, s.queueKey, Number0(s.queue));
    NamedSound(FLink, s.linkKey, Number0(s.link));
    hide Sound, Named;
    var a, b, c := Only(s.path.Some?, Named(FPath, s.pathKey, Number0(s.path))), Only(s.queue.Some?, Named(FQueue, s.queueKey, Number0(s.queue))),
                   Only(s.link.Some?, Named(FLink, s.linkKey, Number0(s.link)));
    SoundConcat(a, b);
    SoundConcat(a + b, c);
  }

  lemma HopsSound(hops: seq<u64>)
    requires hops != []
    ensures Sound(Entry(FHopcap, Join(Texts(hops)), false))
  {
    forall i | 0 <= i < |hops| ensures Bare(Texts(hops)[i]) {
      DigitsBare(hops[i]);
    }
    hide Bare, Digits;
    JoinBare(Texts(hops));
  }

  lemma RouteSound(s: Subject)
    ensures AllSound(RouteEntries(s)) && |RouteEntries(s)| <= 2
  {
    NumberSound(FPathgen, Number0(s.pathGeneration));
    if s.hopCapacity != [] {
      HopsSound(s.hopCapacity);
    }
    hide Sound, Number, Join, Texts;
    SoundConcat(Only(s.pathGeneration.Some?, Number(FPathgen, Number0(s.pathGeneration))),
                Only(s.hopCapacity != [], Entry(FHopcap, Join(Texts(s.hopCapacity)), false)));
  }

  lemma OccasionSound(o: Observation)
    ensures AllSound(OccasionEntries(o)) && |OccasionEntries(o)| <= 5
  {
    InstantSound(FObs, o.observedAt);
    InstantSound(FRx, o.receivedAt);
    KindBare(o.kind);
    DirectionBare(o.direction);
    ClaimBare(o.claim);
    hide Instant, KindName, DirectionName, ClaimName, Bare;
    var a, b, c := [Instant(FObs, o.observedAt)], Only(o.receivedAt != 0, Instant(FRx, o.receivedAt)), ClassEntries(o);
    assert AllSound(c);
    SoundConcat(a, b);
    SoundConcat(a + b, c);
  }

  lemma CounterSound(f: Field, n: Option<u64>)
    ensures Sound(Entry(f, CounterText(n), false))
  {
    DigitsBare(Number0(n));
    hide Digits;
  }

  lemma CountersSound(c: CounterSet)
    ensures AllSound(CounterEntries(c)) && |CounterEntries(c)| == 3
  {
    CounterSound(FBytes, c.bytes);
    CounterSound(FPkts, c.packets);
    CounterSound(FRetx, c.retransmissions);
    hide Sound, CounterText;
  }

  lemma DurationsSound(o: Observation)
    ensures AllSound(DurationEntries(o)) && |DurationEntries(o)| <= 2
  {
    InstantSound(FDur, Instant0(o.coveredDuration));
    InstantSound(FRtt, Instant0(o.reportedRtt));
    hide Sound, Instant;
    SoundConcat(Only(o.coveredDuration.Some?, Instant(FDur, Instant0(o.coveredDuration))),
                Only(o.reportedRtt.Some?, Instant(FRtt, Instant0(o.reportedRtt))));
  }

  lemma LastSound(o: Observation)
    ensures AllSound(LastEntries(o)) && |LastEntries(o)| <= 2
  {
    if o.capabilities != NO_CAPABILITIES {
      CapabilitiesBare(o.capabilities);
    }
    NumberSound(FSchema, o.schemaVersion);
    hide Bare, CapabilitiesText, Number;
    SoundConcat(Only(o.capabilities != NO_CAPABILITIES, Entry(FCaps, CapabilitiesText(o.capabilities), false)),
                Only(o.schemaVersion != 1, Number(FSchema, o.schemaVersion)));
  }

  lemma EntriesSound(o: Observation)
    ensures AllSound(Entries(o)) && |Entries(o)| <= 26
  {
    IdentitySound(o);
    EndpointsSound(o.subject);
    ResourcesSound(o.subject);
    RouteSound(o.subject);
    OccasionSound(o);
    CountersSound(o.counters);
    DurationsSound(o);
    LastSound(o);
    hide AllSound, IdentityEntries, EndpointEntries, ResourceEntries, RouteEntries, OccasionEntries, CounterEntries, DurationEntries, LastEntries;
    var a, b, c, d := IdentityEntries(o), EndpointEntries(o.subject), ResourceEntries(o.subject), RouteEntries(o.subject);
    var e, f, g, l := OccasionEntries(o), CounterEntries(o.counters), DurationEntries(o), LastEntries(o);
    SoundConcat(a, b);
    SoundConcat(a + b, c);
    SoundConcat(a + b + c, d);
    SoundConcat(a + b + c + d, e);
    SoundConcat(a + b + c + d + e, f);
    SoundConcat(a + b + c + d + e + f, g);
    SoundConcat(a + b + c + d + e + f + g, l);
  }

  lemma {:induction false} SoundTokensPlain(es: seq<Entry>)
    requires AllSound(es)
    ensures AllPlain(TokensOf(es))
    decreases |es|
  {
    if es != [] {
      SoundIsPlain(es[0]);
      SoundTokensPlain(es[1..]);
      hide Sound, Plain, TokenOf;
      assert TokensOf(es)[1..] == TokensOf(es[1..]);
    }
  }

  lemma PlainMore(t: Token, ts: seq<Token>)
    requires Plain(t) && AllPlain(ts)
    ensures AllPlain([t] + ts)
  {
    hide Plain;
    assert ([t] + ts)[1..] == ts;
  }

  lemma FirstTokensPlain()
    ensures Plain(DIRECTIVE) && Plain(VERSION)
  {
  }

  lemma LinePlain(o: Observation)
    ensures AllPlain([DIRECTIVE, VERSION] + TokensOf(Entries(o))) && |TokensOf(Entries(o))| + 2 <= MAX_TOKENS
  {
    EntriesSound(o);
    SoundTokensPlain(Entries(o));
    FirstTokensPlain();
    hide Entries, Plain, AllSound, AllPlain;
    var rest := TokensOf(Entries(o));
    hide TokensOf;
    PlainMore(VERSION, rest);
    PlainMore(DIRECTIVE, [VERSION] + rest);
    assert [DIRECTIVE, VERSION] + rest == [DIRECTIVE] + ([VERSION] + rest);
  }

  // ---- the end of a printed line -----------------------------------------------------------------------------

  /** A text that does not end in a line end, or in nothing. */
  predicate EndsVisibly(t: Text) {
    t != [] && ' ' < t[|t| - 1]
  }

  lemma TrimNothing(t: Text)
    requires EndsVisibly(t)
    ensures TrimEnd(t) == t
  {
  }

  lemma {:induction false} RenderEndsVisibly(ts: seq<Token>)
    requires ts != [] && EndsVisibly(RenderToken(ts[|ts| - 1]))
    ensures EndsVisibly(RenderAll(ts))
    decreases |ts|
  {
    HeadAndTail(ts);
    if |ts| == 1 {
      assert RenderTail(ts[1..]) == [];
      hide RenderToken;
    } else {
      hide RenderToken;
      RenderEndsVisibly(ts[1..]);
      assert RenderTail(ts[1..]) == [' '] + RenderAll(ts[1..]);
      hide RenderAll, RenderTail;
      EndsVisiblyAppend(RenderToken(ts[0]) + [' '], RenderAll(ts[1..]));
      assert RenderToken(ts[0]) + ([' '] + RenderAll(ts[1..])) == RenderToken(ts[0]) + [' '] + RenderAll(ts[1..]);
    }
  }

  lemma EndsVisiblyAppend(a: Text, b: Text)
    requires EndsVisibly(b)
    ensures EndsVisibly(a + b)
  {
  }

  lemma BareTokenEnds(e: Entry)
    requires !e.quoted && Bare(e.value)
    ensures EndsVisibly(RenderToken(TokenOf(e)))
  {
    assert EndsVisibly(e.value);
    EndsVisiblyAppend(FieldName(e.f) + ['='], e.value);
  }

  /** The last entry of a printed observation is never a quoted one. */
  lemma LastEntryBare(o: Observation)
    ensures Entries(o) != [] && var e := Entries(o)[|Entries(o)| - 1]; !e.quoted && Bare(e.value)
  {
    CountersSound(o.counters);
    DurationsSound(o);
    LastSound(o);
    hide Bare, CounterText, CapabilitiesText, SignedDigits, Digits, IdentityEntries, EndpointEntries, ResourceEntries, RouteEntries, OccasionEntries;
    var front := IdentityEntries(o) + EndpointEntries(o.subject) + ResourceEntries(o.subject) + RouteEntries(o.subject) + OccasionEntries(o);
    var tail := CounterEntries(o.counters) + DurationEntries(o) + LastEntries(o);
    assert Entries(o) == front + tail;
    TailBare(o);
    assert Entries(o)[|Entries(o)| - 1] == tail[|tail| - 1];
  }

  lemma TailBare(o: Observation)
    ensures var tail := CounterEntries(o.counters) + DurationEntries(o) + LastEntries(o);
            tail != [] && !tail[|tail| - 1].quoted && Bare(tail[|tail| - 1].value)
  {
    CountersSound(o.counters);
    DurationsSound(o);
    LastSound(o);
    SoundConcat(CounterEntries(o.counters), DurationEntries(o));
    SoundConcat(CounterEntries(o.counters) + DurationEntries(o), LastEntries(o));
    var tail := CounterEntries(o.counters) + DurationEntries(o) + LastEntries(o);
    NoneQuoted(o);
    hide Bare, CounterEntries, DurationEntries, LastEntries;
    assert Sound(tail[|tail| - 1]);
  }

  lemma NoneQuoted(o: Observation)
    ensures forall i :: 0 <= i < |CounterEntries(o.counters)| ==> !CounterEntries(o.counters)[i].quoted
    ensures forall i :: 0 <= i < |DurationEntries(o)| ==> !DurationEntries(o)[i].quoted
    ensures forall i :: 0 <= i < |LastEntries(o)| ==> !LastEntries(o)[i].quoted
  {
    hide CounterText, CapabilitiesText, SignedDigits, Digits;
  }

  lemma LineEnds(o: Observation)
    ensures EndsVisibly(Line(o))
  {
    LastEntryBare(o);
    var es := Entries(o);
    var ts := [DIRECTIVE, VERSION] + TokensOf(es);
    BareTokenEnds(es[|es| - 1]);
    assert ts[|ts| - 1] == TokenOf(es[|es| - 1]);
    hide Entries, TokenOf, Bare, RenderToken, EndsVisibly;
    RenderEndsVisibly(ts);
  }

  lemma LineBegins(o: Observation)
    ensures Line(o) != [] && Line(o)[0] == 'O' && Blanks(Line(o)) == 0
  {
    var ts := [DIRECTIVE, VERSION] + TokensOf(Entries(o));
    HeadAndTail(ts);
    assert RenderToken(DIRECTIVE)[0] == 'O';
    hide RenderAll, RenderTail, Entries, TokensOf;
  }

  lemma LineShape(o: Observation)
    ensures Line(o) != [] && TrimEnd(Line(o)) == Line(o) && Blanks(Line(o)) == 0 && Line(o)[0] == 'O'
  {
    LineEnds(o);
    LineBegins(o);
    hide Line;
    TrimNothing(Line(o));
  }

  // ---- printing and reading ------------------------------------------------------------------------------------

  lemma LineTokens(o: Observation)
    ensures Tokenized(Line(o), MAX_TOKENS) == Lexed([DIRECTIVE, VERSION] + TokensOf(Entries(o)))
  {
    LinePlain(o);
    hide Entries, Tokenized, RenderAll, AllPlain;
    RenderedTokensComeBack([DIRECTIVE, VERSION] + TokensOf(Entries(o)), MAX_TOKENS);
  }

  lemma VersionParses()
    ensures ParsedU32("1") == Some(1)
  {
    SchemaRoundTrip(1);
    assert Digits(1) == ['1'];
    assert "1" == ['1'];
  }

  /**
   * Reading a printed line, for every observation: the line is refused exactly when a fence is zero, and
   * otherwise gives the observation with every identity recomputed from what was printed for it.
   */
  lemma PrintedLineReads(o: Observation, h: Hashes)
    ensures ParsedLine(Line(o), h)
         == if o.key.incarnation == 0 || o.subject.generation == 0 then Malformed else Read(Reread(o, h))
  {
    LineShape(o);
    LineTokens(o);
    EntriesLead(NOTHING_READ, o, h);
    EverythingIsReread(o, h);
    EntriesAsTokens(NOTHING_READ, Entries(o), h);
    VersionParses();
    hide Line, Entries, Tokenized, TrimEnd, Blanks, ApplyTokens, ApplyEntries, EverythingRead, ParsedU32, Reread;
    var ts := [DIRECTIVE, VERSION] + TokensOf(Entries(o));
    assert ts[2..] == TokensOf(Entries(o));
    RereadFences(o, h);
  }

  lemma RereadFences(o: Observation, h: Hashes)
    ensures Reread(o, h).key.incarnation == o.key.incarnation && Reread(o, h).subject.generation == o.subject.generation
  {
    hide Printed;
  }

  /** A key that is there and is the preimage of its identity, or neither key nor identity. */
  predicate Keyed(shown: bool, key: Text, id: u64, hash: Text -> u64) {
    if shown then key != [] && hash(key) == id else key == []
  }

  /** Exactly the observations a printed line gives back. */
  predicate Printable(o: Observation, h: Hashes) {
    && o.key.incarnation != 0 && o.subject.generation != 0
    && h.source(Printed(o.sourceKey, o.key.source)) == o.key.source
    && Keyed(true, o.subject.flowKey, o.subject.flow, h.flow)
    && Keyed(o.subject.endpoint != 0, o.subject.endpointKey, o.subject.endpoint, h.endpoint)
    && Keyed(o.subject.peerEndpoint != 0, o.subject.peerEndpointKey, o.subject.peerEndpoint, h.endpoint)
    && Keyed(o.subject.path.Some?, o.subject.pathKey, Number0(o.subject.path), h.path)
    && Keyed(o.subject.queue.Some?, o.subject.queueKey, Number0(o.subject.queue), h.queue)
    && Keyed(o.subject.link.Some?, o.subject.linkKey, Number0(o.subject.link), h.link)
    && o.capabilities != NO_CAPABILITIES
  }

  lemma RereadSubjectIff(s: Subject, h: Hashes)
    ensures RereadSubject(s, h) == s <==>
      && Keyed(true, s.flowKey, s.flow, h.flow)
      && Keyed(s.endpoint != 0, s.endpointKey, s.endpoint, h.endpoint)
      && Keyed(s.peerEndpoint != 0, s.peerEndpointKey, s.peerEndpoint, h.endpoint)
      && Keyed(s.path.Some?, s.pathKey, Number0(s.path), h.path)
      && Keyed(s.queue.Some?, s.queueKey, Number0(s.queue), h.queue)
      && Keyed(s.link.Some?, s.linkKey, Number0(s.link), h.link)
  {
    PrintedKey(s.flowKey, s.flow);
    PrintedKey(s.endpointKey, s.endpoint);
    PrintedKey(s.peerEndpointKey, s.peerEndpoint);
    PrintedKey(s.pathKey, Number0(s.path));
    PrintedKey(s.queueKey, Number0(s.queue));
    PrintedKey(s.linkKey, Number0(s.link));
    hide Printed;
  }

  /** What is printed is the key itself exactly when there is one. */
  lemma PrintedKey(key: Text, id: u64)
    ensures Printed(key, id) == key <==> key != []
  {
  }

  /** A printed observation is read back as it was, up to its source key, exactly when it is printable. */
  lemma PrintParseInverse(o: Observation, h: Hashes)
    ensures ParsedLine(Line(o), h) == Read(o.(sourceKey := [])) <==> Printable(o, h)
  {
    PrintedLineReads(o, h);
    RereadSubjectIff(o.subject, h);
    hide ParsedLine, Line, RereadSubject, Keyed, Printed;
  }

  // ---- the printer in place ---------------------------------------------------------------------------------------

  /** A blank, the name, '=', and the value. */
  function AppendField(out: Text, e: Entry): Text {
    out + ([' '] + RenderToken(TokenOf(e)))
  }

  function Appended(out: Text, es: seq<Entry>): Text {
    if es == [] then out else AppendField(Appended(out, es[..|es| - 1]), es[|es| - 1])
  }

  lemma AppendedMore(out: Text, es: seq<Entry>, e: Entry)
    ensures Appended(out, es + [e]) == AppendField(Appended(out, es), e)
  {
    hide AppendField;
    assert (es + [e])[..|es|] == es;
  }

  lemma AppendedOnly(out: Text, es: seq<Entry>, shown: bool, e: Entry)
    ensures Appended(out, es + Only(shown, e)) == if shown then AppendField(Appended(out, es), e) else Appended(out, es)
  {
    if shown {
      AppendedMore(out, es, e);
    } else {
      assert es + [] == es;
    }
  }

  lemma {:induction false} AppendedConcat(out: Text, a: seq<Entry>, b: seq<Entry>)
    ensures Appended(Appended(out, a), b) == Appended(out, a + b)
    decreases |b|
  {
    hide AppendField;
    if b == [] {
      assert a + b == a;
    } else {
      AppendedConcat(out, a, b[..|b| - 1]);
      assert (a + b)[..|a + b| - 1] == a + b[..|b| - 1];
    }
  }

  /** One more token at the end of rendered ones. */
  lemma {:induction false} RenderMore(ts: seq<Token>, t: Token)
    requires ts != []
    ensures RenderAll(ts + [t]) == RenderAll(ts) + ([' '] + RenderToken(t))
    decreases |ts|
  {
    HeadAndTail(ts);
    HeadAndTail(ts + [t]);
    HeadAndTail([t]);
    hide RenderToken, RenderAll;
    if |ts| == 1 {
      assert (ts + [t])[1..] == [t];
      assert RenderTail([t]) == [' '] + RenderAll([t]) && RenderTail([t][1..]) == [] && RenderTail(ts[1..]) == [];
      assert RenderAll([t]) == RenderToken(t);
    } else {
      RenderMore(ts[1..], t);
      assert (ts + [t])[1..] == ts[1..] + [t];
      TailOf(ts[1..]);
      TailOf(ts[1..] + [t]);
      hide RenderTail;
      RegroupFive(RenderToken(ts[0]), [' '], RenderAll(ts[1..]), [' '] + RenderToken(t));
    }
  }

  lemma TailOf(ts: seq<Token>)
    requires ts != []
    ensures RenderTail(ts) == [' '] + RenderAll(ts)
  {
    hide RenderAll;
  }

  lemma RegroupFive(a: Text, b: Text, c: Text, d: Text)
    ensures a + (b + (c + d)) == (a + (b + c)) + d
  {
  }

  lemma {:induction false} LineAppends(es: seq<Entry>)
    ensures RenderAll([DIRECTIVE, VERSION] + TokensOf(es)) == Appended(RenderAll([DIRECTIVE, VERSION]), es)
    decreases |es|
  {
    hide RenderAll, TokenOf, RenderToken;
    var head := [DIRECTIVE, VERSION];
    if es == [] {
      assert head + TokensOf(es) == head;
    } else {
      var front, last := es[..|es| - 1], es[|es| - 1];
      LineAppends(front);
      assert head + TokensOf(es) == (head + TokensOf(front)) + [TokenOf(last)];
      RenderMore(head + TokensOf(front), TokenOf(last));
    }
  }

  method FormatIdentity(out: Text, o: Observation) returns (r: Text)
    ensures r == Appended(out, IdentityEntries(o))
  {
    hide AppendField, Appended, Named, Number;
    ghost var es := IdentityEntries(o);
    AppendedNone(out);
    r := AppendField(out, Named(FSrc, o.sourceKey, o.key.source));
    AppendedMore(out, [], es[0]);
    r := AppendField(r, Named(FFlow, o.subject.flowKey, o.subject.flow));
    AppendedMore(out, es[..1], es[1]);
    r := AppendField(r, Number(FGen, o.subject.generation));
    AppendedMore(out, es[..2], es[2]);
    r := AppendField(r, Number(FInc, o.key.incarnation));
    AppendedMore(out, es[..3], es[3]);
    r := AppendField(r, Number(FEpoch, o.key.epoch));
    AppendedMore(out, es[..4], es[4]);
    r := AppendField(r, Number(FRev, o.key.revision));
    AppendedMore(out, es[..5], es[5]);
    r := AppendField(r, Number(FSeq, o.key.sequence));
    AppendedMore(out, es[..6], es[6]);
    Prefixes(es);
  }

  lemma Prefixes(es: seq<Entry>)
    requires |es| == 7
    ensures [] + [es[0]] == es[..1] && es[..1] + [es[1]] == es[..2] && es[..2] + [es[2]] == es[..3] && es[..3] + [es[3]] == es[..4]
    ensures es[..4] + [es[4]] == es[..5] && es[..5] + [es[5]] == es[..6] && es[..6] + [es[6]] == es
  {
  }

  lemma AppendedNone(out: Text)
    ensures Appended(out, []) == out
  {
  }

  /** Appends a field if it is to be shown. */
  method FormatOnly(out: Text, ghost es: seq<Entry>, ghost start: Text, shown: bool, e: Entry) returns (r: Text)
    requires out == Appended(start, es)
    ensures r == Appended(start, es + Only(shown, e))
  {
    AppendedOnly(start, es, shown, e);
    hide AppendField, Appended, Only;
    r := out;
    if shown {
      r := AppendField(r, e);
    }
  }

  method FormatSubject(out: Text, s: Subject) returns (r: Text)
    ensures r == Appended(out, EndpointEntries(s) + ResourceEntries(s) + RouteEntries(s))
  {
    AppendedNone(out);
    hide AppendField, Appended, Only, Named, Number, Join, Texts;
    ghost var es: seq<Entry> := [];
    r := FormatOnly(out, es, out, s.endpoint != 0, Named(FEp, s.endpointKey, s.endpoint));
    es := es + Only(s.endpoint != 0, Named(FEp, s.endpointKey, s.endpoint));
    r := FormatOnly(r, es, out, s.peerEndpoint != 0, Named(FPeer, s.peerEndpointKey, s.peerEndpoint));
    es := es + Only(s.peerEndpoint != 0, Named(FPeer, s.peerEndpointKey, s.peerEndpoint));
    assert es == EndpointEntries(s);
    r := FormatResources(r, es, out, s);
    es := es + ResourceEntries(s);
    ghost var before := es;
    r := FormatOnly(r, es, out, s.pathGeneration.Some?, Number(FPathgen, Number0(s.pathGeneration)));
    es := es + Only(s.pathGeneration.Some?, Number(FPathgen, Number0(s.pathGeneration)));
    r := FormatOnly(r, es, out, s.hopCapacity != [], Entry(FHopcap, Join(Texts(s.hopCapacity)), false));
    es := es + Only(s.hopCapacity != [], Entry(FHopcap, Join(Texts(s.hopCapacity)), false));
    assert es == before + RouteEntries(s);
  }

  method FormatResources(out: Text, ghost done: seq<Entry>, ghost start: Text, s: Subject) returns (r: Text)
    requires out == Appended(start, done)
    ensures r == Appended(start, done + ResourceEntries(s))
  {
    hide AppendField, Appended, Only, Named;
    ghost var es := done;
    r := FormatOnly(out, es, start, s.path.Some?, Named(FPath, s.pathKey, Number0(s.path)));
    es := es + Only(s.path.Some?, Named(FPath, s.pathKey, Number0(s.path)));
    r := FormatOnly(r, es, start, s.queue.Some?, Named(FQueue, s.queueKey, Number0(s.queue)));
    es := es + Only(s.queue.Some?, Named(FQueue, s.queueKey, Number0(s.queue)));
    r := FormatOnly(r, es, start, s.link.Some?, Named(FLink, s.linkKey, Number0(s.link)));
    es := es + Only(s.link.Some?, Named(FLink, s.linkKey, Number0(s.link)));
    assert es == done + ResourceEntries(s);
  }

  method FormatRest(out: Text, o: Observation) returns (r: Text)
    ensures r == Appended(out, OccasionEntries(o) + CounterEntries(o.counters) + DurationEntries(o) + LastEntries(o))
  {
    AppendedNone(out);
    hide AppendField, Appended, Only, Instant, Number, KindName, DirectionName, ClaimName, CounterText, CapabilitiesText;
    ghost var es: seq<Entry> := [];
    r := FormatOne(out, es, out, Instant(FObs, o.observedAt));
    es := es + [Instant(FObs, o.observedAt)];
    r := FormatOnly(r, es, out, o.receivedAt != 0, Instant(FRx, o.receivedAt));
    es := es + Only(o.receivedAt != 0, Instant(FRx, o.receivedAt));
    ghost var before := es;
    r := FormatOne(r, es, out, Entry(FKind, KindName(o.kind), false));
    es := es + [Entry(FKind, KindName(o.kind), false)];
    r := FormatOne(r, es, out, Entry(FDir, DirectionName(o.direction), false));
    es := es + [Entry(FDir, DirectionName(o.direction), false)];
    r := FormatOne(r, es, out, Entry(FEv, ClaimName(o.claim), false));
    es := es + [Entry(FEv, ClaimName(o.claim), false)];
    assert es == before + ClassEntries(o);
    assert es == OccasionEntries(o);
    r := FormatReadings(r, es, out, o);
  }

  method FormatOne(out: Text, ghost es: seq<Entry>, ghost start: Text, e: Entry) returns (r: Text)
    requires out == Appended(start, es)
    ensures r == Appended(start, es + [e])
  {
    AppendedMore(start, es, e);
    r := AppendField(out, e);
  }

  method FormatReadings(out: Text, ghost done: seq<Entry>, ghost start: Text, o: Observation) returns (r: Text)
    requires out == Appended(start, done)
    ensures r == Appended(start, done + CounterEntries(o.counters) + DurationEntries(o) + LastEntries(o))
  {
    hide AppendField, Appended, Only, Instant, Number, CounterText, CapabilitiesText;
    ghost var es := done;
    r := FormatOne(out, es, start, Entry(FBytes, CounterText(o.counters.bytes), false));
    es := es + [Entry(FBytes, CounterText(o.counters.bytes), false)];
    r := FormatOne(r, es, start, Entry(FPkts, CounterText(o.counters.packets), false));
    es := es + [Entry(FPkts, CounterText(o.counters.packets), false)];
    r := FormatOne(r, es, start, Entry(FRetx, CounterText(o.counters.retransmissions), false));
    es := es + [Entry(FRetx, CounterText(o.counters.retransmissions), false)];
    assert es == done + CounterEntries(o.counters);
    ghost var counted := es;
    r := FormatOnly(r, es, start, o.coveredDuration.Some?, Instant(FDur, Instant0(o.coveredDuration)));
    es := es + Only(o.coveredDuration.Some?, Instant(FDur, Instant0(o.coveredDuration)));
    r := FormatOnly(r, es, start, o.reportedRtt.Some?, Instant(FRtt, Instant0(o.reportedRtt)));
    es := es + Only(o.reportedRtt.Some?, Instant(FRtt, Instant0(o.reportedRtt)));
    assert es == counted + DurationEntries(o);
    ghost var timed := es;
    r := FormatOnly(r, es, start, o.capabilities != NO_CAPABILITIES, Entry(FCaps, CapabilitiesText(o.capabilities), false));
    es := es + Only(o.capabilities != NO_CAPABILITIES, Entry(FCaps, CapabilitiesText(o.capabilities), false));
    r := FormatOnly(r, es, start, o.schemaVersion != 1, Number(FSchema, o.schemaVersion));
    es := es + Only(o.schemaVersion != 1, Number(FSchema, o.schemaVersion));
    assert es == timed + LastEntries(o);
  }

  /** Prints an observation, field after field. */
  method FormatObservation(o: Observation) returns (out: Text)
    ensures out == Line(o)
  {
    LineAppends(Entries(o));
    hide Appended, RenderAll, IdentityEntries, EndpointEntries, ResourceEntries, RouteEntries, OccasionEntries, CounterEntries, DurationEntries, LastEntries;
    ghost var start := RenderAll([DIRECTIVE, VERSION]);
    ghost var middle := EndpointEntries(o.subject) + ResourceEntries(o.subject) + RouteEntries(o.subject);
    ghost var rest := OccasionEntries(o) + CounterEntries(o.counters) + DurationEntries(o) + LastEntries(o);
    out := RenderAll([DIRECTIVE, VERSION]);
    out := FormatIdentity(out, o);
    out := FormatSubject(out, o.subject);
    AppendedConcat(start, IdentityEntries(o), middle);
    out := FormatRest(out, o);
    AppendedConcat(start, IdentityEntries(o) + middle, rest);
    assert IdentityEntries(o) + middle + rest == Entries(o);
  }
}
