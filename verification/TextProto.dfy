/** Observation lines of the text protocol: printing, parsing, and what parsing a printed line gives. */
module TextProto {
  import opened Checked
  import opened Evidence
  import opened Tokens
  import opened Commas
  import opened Decimal
  import opened Names

  const MAX_TOKENS: nat := 64

  /** How keys map to identities, domain by domain. */
  datatype Hashes = Hashes(source: Text -> u64, flow: Text -> u64, endpoint: Text -> u64, path: Text -> u64,
                           queue: Text -> u64, link: Text -> u64)

  /** An observation nothing has been said about. */
  const UNSTATED: Observation := Observation(
    Key(0, 0, 0, 0, 0), [], DEFAULT_CAPABILITIES,
    Subject(0, 0, 0, 0, None, None, None, None, [], [], [], [], [], [], []),
    0, 0, KUnknown, Unspecified, ClaimUnknown, CounterSet(None, None, None), None, None, 1)

  // ---- one field -------------------------------------------------------------------------------

  function IfNumber(v: Option<u64>, o: Observation): Option<Observation> {
    if v.None? then None else Some(o)
  }

  /** Identity and fences. */
  function ApplyKey(o: Observation, f: Field, v: Text, h: Hashes): Option<Observation> {
    var n := ParsedU64(v);
    var x := if n.Some? then n.value else 0;
    match f
    case FSrc => Some(o.(key := o.key.(source := h.source(v))))
    case FInc => IfNumber(n, o.(key := o.key.(incarnation := x)))
    case FEpoch => IfNumber(n, o.(key := o.key.(epoch := x)))
    case FRev => IfNumber(n, o.(key := o.key.(revision := x)))
    case FSeq => IfNumber(n, o.(key := o.key.(sequence := x)))
    case _ => None
  }

  /** What it is about. */
  function ApplySubject(o: Observation, f: Field, v: Text, h: Hashes): Option<Observation> {
    var n := ParsedU64(v);
    var x := if n.Some? then n.value else 0;
    match f
    case FFlow => Some(o.(subject := o.subject.(flowKey := v, flow := h.flow(v))))
    case FGen => IfNumber(n, o.(subject := o.subject.(generation := x)))
    case FEp => Some(o.(subject := o.subject.(endpointKey := v, endpoint := h.endpoint(v))))
    case FPeer => Some(o.(subject := o.subject.(peerEndpointKey := v, peerEndpoint := h.endpoint(v))))
    case FPath => Some(o.(subject := o.subject.(pathKey := v, path := Some(h.path(v)))))
    case FQueue => Some(o.(subject := o.subject.(queueKey := v, queue := Some(h.queue(v)))))
    case FLink => Some(o.(subject := o.subject.(linkKey := v, link := Some(h.link(v)))))
    case FPathgen => IfNumber(n, o.(subject := o.subject.(pathGeneration := Some(x))))
    case FHopcap =>
      var hops := ParsedNumbers(v);
      if hops.None? then None else Some(o.(subject := o.subject.(hopCapacity := hops.value)))
    case _ => None
  }

  /** When and how it was seen. */
  function ApplyOccasion(o: Observation, f: Field, v: Text): Option<Observation> {
    match f
    case FObs => var t := ParsedI64(v); if t.None? then None else Some(o.(observedAt := t.value))
    case FRx => var t := ParsedI64(v); if t.None? then None else Some(o.(receivedAt := t.value))
    case FKind => var k := KindOf(v); if k.None? then None else Some(o.(kind := k.value))
    case FDir => var d := DirectionOf(v); if d.None? then None else Some(o.(direction := d.value))
    case FEv => var c := ClaimOf(v); if c.None? then None else Some(o.(claim := c.value))
    case _ => None
  }

  /** What was measured. */
  function ApplyReading(o: Observation, f: Field, v: Text): Option<Observation> {
    match f
    case FBytes => var n := ParsedCounter(v); if n.None? then None else Some(o.(counters := o.counters.(bytes := n.value)))
    case FPkts => var n := ParsedCounter(v); if n.None? then None else Some(o.(counters := o.counters.(packets := n.value)))
    case FRetx => var n := ParsedCounter(v); if n.None? then None else Some(o.(counters := o.counters.(retransmissions := n.value)))
    case FDur => var t := ParsedI64(v); if t.None? then None else Some(o.(coveredDuration := Some(t.value)))
    case FRtt => var t := ParsedI64(v); if t.None? then None else Some(o.(reportedRtt := Some(t.value)))
    case FCaps => var c := ParsedCapabilities(v); if c.None? then None else Some(o.(capabilities := c.value))
    case FSchema => var n := ParsedU32(v); if n.None? then None else Some(o.(schemaVersion := n.value))
    case _ => None
  }

  datatype Part = KeyPart | SubjectPart | OccasionPart | ReadingPart

  function PartOf(f: Field): Part {
    match f
    case FSrc => KeyPart
    case FInc => KeyPart
    case FEpoch => KeyPart
    case FRev => KeyPart
    case FSeq => KeyPart
    case FObs => OccasionPart
    case FRx => OccasionPart
    case FKind => OccasionPart
    case FDir => OccasionPart
    case FEv => OccasionPart
    case FBytes => ReadingPart
    case FPkts => ReadingPart
    case FRetx => ReadingPart
    case FDur => ReadingPart
    case FRtt => ReadingPart
    case FCaps => ReadingPart
    case FSchema => ReadingPart
    case _ => SubjectPart
  }

  function Apply(o: Observation, f: Field, v: Text, h: Hashes): Option<Observation> {
    match PartOf(f)
    case KeyPart => ApplyKey(o, f, v, h)
    case SubjectPart => ApplySubject(o, f, v, h)
    case OccasionPart => ApplyOccasion(o, f, v)
    case ReadingPart => ApplyReading(o, f, v)
  }

  // ---- a line ---------------------------------------------------------------------------------------

  /** What has been read of a line, and which fields it had. */
  datatype Draft = Draft(o: Observation, seen: set<Field>)

  function ApplyToken(d: Draft, t: Token, h: Hashes): Option<Draft> {
    if !t.hasValue then None
    else
      var f := FieldOf(t.key);
      if f.None? then None
      else
        var o := Apply(d.o, f.value, t.value, h);
        if o.None? then None else Some(Draft(o.value, d.seen + {f.value}))
  }

  function ApplyTokens(d: Draft, ts: seq<Token>, h: Hashes): Option<Draft> {
    if ts == [] then Some(d)
    else
      var front := ApplyTokens(d, ts[..|ts| - 1], h);
      if front.None? then None else ApplyToken(front.value, ts[|ts| - 1], h)
  }

  datatype Parsed = Skipped | OtherDirective | Malformed | Read(o: Observation)

  predicate VersionIsOne(ts: seq<Token>) {
    |ts| > 1 && ts[1].key == "v" && ParsedU32(ts[1].value) == Some(1)
  }

  predicate Complete(d: Draft) {
    && {FSrc, FFlow, FObs, FKind} <= d.seen
    && d.o.key.incarnation != 0 && d.o.subject.generation != 0
  }

  function Interpreted(ts: seq<Token>, h: Hashes): Parsed {
    if ts == [] then Skipped
    else if ts[0].key != "OBS" then OtherDirective
    else if !VersionIsOne(ts) then Malformed
    else
      var d := ApplyTokens(Draft(UNSTATED, {}), ts[2..], h);
      if d.None? || !Complete(d.value) then Malformed else Read(d.value.o)
  }

  /** Line ends at the end of a line are dropped. */
  function TrimEnd(s: Text): Text {
    if s != [] && (s[|s| - 1] == '\r' || s[|s| - 1] == '\n') then TrimEnd(s[..|s| - 1]) else s
  }

  function ParsedLine(line: Text, h: Hashes): Parsed {
    var trimmed := TrimEnd(line);
    var first := Blanks(trimmed);
    if first == |trimmed| || trimmed[first] == '#' then Skipped
    else
      match Tokenized(trimmed, MAX_TOKENS)
      case LexFailed(_) => Malformed
      case Lexed(ts) => Interpreted(ts, h)
  }

  method ParseLine(line: Text, h: Hashes) returns (r: Parsed)
    ensures r == ParsedLine(line, h)
  {
    hide Tokenized, ApplyToken, Blanks, FieldOf, ParsedU32;
    var trimmed := line;
    while trimmed != [] && (trimmed[|trimmed| - 1] == '\r' || trimmed[|trimmed| - 1] == '\n')
      invariant TrimEnd(line) == TrimEnd(trimmed)
      decreases |trimmed|
    {
      trimmed := trimmed[..|trimmed| - 1];
    }
    var first := SkipBlanks(trimmed, 0);
    assert trimmed[0..] == trimmed;
    if first == |trimmed| || trimmed[first] == '#' {
      return Skipped;
    }
    var lexed := Tokenize(trimmed, MAX_TOKENS);
    match lexed {
    case LexFailed(_) =>
      return Malformed;
    case Lexed(ts) =>
      r := Interpret(ts, h);
    }
  }

  method Interpret(ts: seq<Token>, h: Hashes) returns (r: Parsed)
    ensures r == Interpreted(ts, h)
  {
    hide ApplyToken, FieldOf, ParsedU32;
    if ts == [] {
      return Skipped;
    }
    if ts[0].key != "OBS" {
      return OtherDirective;
    }
    if !VersionIsOne(ts) {
      return Malformed;
    }
    var fields := ts[2..];
    var d := Draft(UNSTATED, {});
    for i := 0 to |fields|
      invariant ApplyTokens(Draft(UNSTATED, {}), fields[..i], h) == Some(d)
    {
      var next := ApplyToken(d, fields[i], h);
      assert fields[..i + 1][..i] == fields[..i];
      if next.None? {
        FailureStays(Draft(UNSTATED, {}), fields[..i + 1], fields[i + 1..], h);
        assert fields == fields[..i + 1] + fields[i + 1..];
        return Malformed;
      }
      d := next.value;
    }
    assert fields[..|fields|] == fields;
    return if Complete(d) then Read(d.o) else Malformed;
  }

  lemma {:induction false} FailureStays(d: Draft, a: seq<Token>, b: seq<Token>, h: Hashes)
    requires ApplyTokens(d, a, h).None?
    ensures ApplyTokens(d, a + b, h).None?
    decreases |b|
  {
    hide ApplyToken;
    if b == [] {
      assert a + b == a;
    } else {
      FailureStays(d, a, b[..|b| - 1], h);
      assert (a + b)[..|a + b| - 1] == a + b[..|b| - 1];
    }
  }
}
