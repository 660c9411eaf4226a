/** The names the text protocol uses for fields, kinds and capabilities. */
module Names {
  import opened Checked
  import opened Evidence
  import opened Commas
  import opened Decimal

  datatype Field =
    | FSrc | FInc | FEpoch | FRev | FSeq | FFlow | FGen | FEp | FPeer | FPath | FQueue | FLink | FPathgen | FHopcap
    | FObs | FRx | FKind | FDir | FEv | FBytes | FPkts | FRetx | FDur | FRtt | FCaps | FSchema

  function FieldName(f: Field): Text {
    match f
    case FSrc => "src"
    case FInc => "inc"
    case FEpoch => "epoch"
    case FRev => "rev"
    case FSeq => "seq"
    case FFlow => "flow"
    case FGen => "gen"
    case FEp => "ep"
    case FPeer => "peer"
    case FPath => "path"
    case FQueue => "queue"
    case FLink => "link"
    case FPathgen => "pathgen"
    case FHopcap => "hopcap"
    case FObs => "obs"
    case FRx => "rx"
    case FKind => "kind"
    case FDir => "dir"
    case FEv => "ev"
    case FBytes => "bytes"
    case FPkts => "pkts"
    case FRetx => "retx"
    case FDur => "dur"
    case FRtt => "rtt"
    case FCaps => "caps"
    case FSchema => "schema"
  }

  function KindName(k: Kind): Text {
    match k
    case KUnknown => "unknown"
    case KOpen => "open"
    case KSample => "sample"
    case KProgress => "progress"
    case KIdle => "idle"
    case KClose => "close"
    case KReset => "reset"
    case KError => "error"
    case KPathChange => "path-change"
    case KCounterReset => "counter-reset"
    case KHeartbeat => "heartbeat"
  }

  function DirectionName(d: Direction): Text {
    match d
    case Unspecified => "unspecified"
    case Forward => "forward"
    case Reverse => "reverse"
    case Aggregate => "aggregate"
  }

  function ClaimName(c: Claim): Text {
    match c
    case ClaimUnknown => "unknown"
    case Complete => "complete"
    case Incomplete => "incomplete"
    case Unsupported => "unsupported"
  }

  // ---- looking names up ---------------------------------------------------------------------

  const ALL_FIELDS: seq<Field> := [
    FSrc, FInc, FEpoch, FRev, FSeq, FFlow, FGen, FEp, FPeer, FPath, FQueue, FLink, FPathgen, FHopcap,
    FObs, FRx, FKind, FDir, FEv, FBytes, FPkts, FRetx, FDur, FRtt, FCaps, FSchema]

  /** The first entry of a table with this name. */
  function Find<T>(table: seq<T>, name: T -> Text, text: Text): Option<T> {
    if table == [] then None
    else if name(table[0]) == text then Some(table[0])
    else Find(table[1..], name, text)
  }

  function FieldOf(text: Text): Option<Field> {
    Find(ALL_FIELDS, FieldName, text)
  }

  function KindOf(text: Text): Option<Kind> {
    Find(ALL_KINDS, KindName, text)
  }

  function DirectionOf(text: Text): Option<Direction> {
    Find(ALL_DIRECTIONS, DirectionName, text)
  }

  function ClaimOf(text: Text): Option<Claim> {
    Find(ALL_CLAIMS, ClaimName, text)
  }

  lemma {:induction false} FindsOwnName<T>(table: seq<T>, name: T -> Text, x: T)
    requires x in table && forall y, z :: y in table && z in table && name(y) == name(z) ==> y == z
    ensures Find(table, name, name(x)) == Some(x)
  {
    if name(table[0]) != name(x) {
      FindsOwnName(table[1..], name, x);
    }
  }

  /** What tells the names apart: the length, the first two characters and the last. */
  datatype Outline = Outline(length: nat, first: Byte, second: Byte, last: Byte)

  function OutlineOf(t: Text): Outline
    requires |t| >= 2
  {
    Outline(|t|, t[0], t[1], t[|t| - 1])
  }

  function FieldOutline(f: Field): Outline {
    match f
    case FSrc => Outline(3, 's', 'r', 'c')
    case FInc => Outline(3, 'i', 'n', 'c')
    case FEpoch => Outline(5, 'e', 'p', 'h')
    case FRev => Outline(3, 'r', 'e', 'v')
    case FSeq => Outline(3, 's', 'e', 'q')
    case FFlow => Outline(4, 'f', 'l', 'w')
    case FGen => Outline(3, 'g', 'e', 'n')
    case FEp => Outline(2, 'e', 'p', 'p')
    case FPeer => Outline(4, 'p', 'e', 'r')
    case FPath => Outline(4, 'p', 'a', 'h')
    case FQueue => Outline(5, 'q', 'u', 'e')
    case FLink => Outline(4, 'l', 'i', 'k')
    case FPathgen => Outline(7, 'p', 'a', 'n')
    case FHopcap => Outline(6, 'h', 'o', 'p')
    case FObs => Outline(3, 'o', 'b', 's')
    case FRx => Outline(2, 'r', 'x', 'x')
    case FKind => Outline(4, 'k', 'i', 'd')
    case FDir => Outline(3, 'd', 'i', 'r')
    case FEv => Outline(2, 'e', 'v', 'v')
    case FBytes => Outline(5, 'b', 'y', 's')
    case FPkts => Outline(4, 'p', 'k', 's')
    case FRetx => Outline(4, 'r', 'e', 'x')
    case FDur => Outline(3, 'd', 'u', 'r')
    case FRtt => Outline(3, 'r', 't', 't')
    case FCaps => Outline(4, 'c', 'a', 's')
    case FSchema => Outline(6, 's', 'c', 'a')
  }

  lemma FieldOutlined(f: Field)
    ensures |FieldName(f)| >= 2 && OutlineOf(FieldName(f)) == FieldOutline(f)
  {
  }

  lemma FieldsDiffer(f: Field, g: Field)
    requires FieldName(f) == FieldName(g)
    ensures f == g
  {
    FieldOutlined(f);
    FieldOutlined(g);
    hide FieldName, OutlineOf;
  }

  lemma FieldRoundTrip(f: Field)
    ensures FieldOf(FieldName(f)) == Some(f)
  {
    forall y, z | y in ALL_FIELDS && z in ALL_FIELDS && FieldName(y) == FieldName(z) ensures y == z {
      FieldsDiffer(y, z);
    }
    assert f in ALL_FIELDS;
    FindsOwnName(ALL_FIELDS, FieldName, f);
  }

  lemma KindsDiffer(a: Kind, b: Kind)
    requires KindName(a) == KindName(b)
    ensures a == b
  {
    assert |KindName(a)| == |KindName(b)| && KindName(a)[0] == KindName(b)[0];
  }

  lemma KindRoundTrip(k: Kind)
    ensures KindOf(KindName(k)) == Some(k)
  {
    forall y, z | y in ALL_KINDS && z in ALL_KINDS && KindName(y) == KindName(z) ensures y == z {
      KindsDiffer(y, z);
    }
    assert k in ALL_KINDS;
    FindsOwnName(ALL_KINDS, KindName, k);
  }

  lemma DirectionRoundTrip(d: Direction)
    ensures DirectionOf(DirectionName(d)) == Some(d)
  {
    forall y, z | y in ALL_DIRECTIONS && z in ALL_DIRECTIONS && DirectionName(y) == DirectionName(z) ensures y == z {
      assert DirectionName(y)[0] == DirectionName(z)[0];
    }
    assert d in ALL_DIRECTIONS;
    FindsOwnName(ALL_DIRECTIONS, DirectionName, d);
  }

  lemma ClaimRoundTrip(c: Claim)
    ensures ClaimOf(ClaimName(c)) == Some(c)
  {
    forall y, z | y in ALL_CLAIMS && z in ALL_CLAIMS && ClaimName(y) == ClaimName(z) ensures y == z {
      assert |ClaimName(y)| == |ClaimName(z)|;
    }
    assert c in ALL_CLAIMS;
    FindsOwnName(ALL_CLAIMS, ClaimName, c);
  }

  /** Characters beyond the blank: no space, tab or line end among them. */
  predicate Visible(t: Text) {
    forall i :: 0 <= i < |t| ==> ' ' < t[i]
  }

  /** A value that can stand without quotes. */
  predicate Bare(t: Text) {
    Visible(t) && t != [] && t[0] != '"'
  }

  predicate KeyText(t: Text) {
    Visible(t) && forall i :: 0 <= i < |t| ==> t[i] != '='
  }

  lemma FieldBare(f: Field)
    ensures KeyText(FieldName(f))
  {
  }

  lemma KindBare(k: Kind)
    ensures Bare(KindName(k))
  {
  }

  lemma DirectionBare(d: Direction)
    ensures Bare(DirectionName(d))
  {
  }

  lemma ClaimBare(c: Claim)
    ensures Bare(ClaimName(c))
  {
  }

  lemma DigitsBare(n: nat)
    ensures Bare(Digits(n))
  {
    DigitsEvaluate(n);
    hide Digits;
    var t := Digits(n);
    forall i | 0 <= i < |t| ensures ' ' < t[i] {
      assert IsDigit(t[i]);
    }
    assert IsDigit(t[0]);
  }

  lemma SignedBare(n: i64)
    ensures Bare(SignedDigits(n))
  {
    DigitsBare(Magnitude(n));
    hide Digits;
  }

  lemma {:induction false} JoinBare(parts: seq<Text>)
    requires parts != [] && forall i :: 0 <= i < |parts| ==> Bare(parts[i])
    ensures Bare(Join(parts))
    decreases |parts|
  {
    if |parts| > 1 {
      JoinBare(parts[1..]);
    }
  }

  // ---- capabilities -----------------------------------------------------------------------------

  const NO_CAPABILITIES: Capabilities := Capabilities(false, false, false, false, false, false)
  const DEFAULT_CAPABILITIES: Capabilities := Capabilities(false, false, false, false, true, false)

  datatype Capability = CCompletion | CReset | CPath | CQueue | CCounters | CIdentity

  const ALL_CAPABILITIES: seq<Capability> := [CCompletion, CReset, CPath, CQueue, CCounters, CIdentity]

  function CapabilityName(c: Capability): Text {
    match c
    case CCompletion => "completion"
    case CReset => "reset"
    case CPath => "path"
    case CQueue => "queue"
    case CCounters => "counters"
    case CIdentity => "identity"
  }

  predicate Has(c: Capabilities, x: Capability) {
    match x
    case CCompletion => c.completion
    case CReset => c.reset
    case CPath => c.path
    case CQueue => c.queue
    case CCounters => c.counters
    case CIdentity => c.identity
  }

  function With(c: Capabilities, x: Capability): Capabilities {
    match x
    case CCompletion => c.(completion := true)
    case CReset => c.(reset := true)
    case CPath => c.(path := true)
    case CQueue => c.(queue := true)
    case CCounters => c.(counters := true)
    case CIdentity => c.(identity := true)
  }

  /** The names of the capabilities held, in table order. */
  function Held(c: Capabilities, table: seq<Capability>): seq<Text> {
    if table == [] then [] else (if Has(c, table[0]) then [CapabilityName(table[0])] else []) + Held(c, table[1..])
  }

  function CapabilitiesText(c: Capabilities): Text {
    if c == NO_CAPABILITIES then "none" else Join(Held(c, ALL_CAPABILITIES))
  }

  /** Each part names a capability; empty parts are passed over. */
  function Gather(c: Capabilities, parts: seq<Text>): Option<Capabilities>
    decreases |parts|
  {
    if parts == [] then Some(c)
    else if parts[0] == [] then Gather(c, parts[1..])
    else
      var x := Find(ALL_CAPABILITIES, CapabilityName, parts[0]);
      if x.None? then None else Gather(With(c, x.value), parts[1..])
  }

  function ParsedCapabilities(text: Text): Option<Capabilities> {
    if text == [] || text == "none" then Some(NO_CAPABILITIES) else Gather(NO_CAPABILITIES, Split(text))
  }

  lemma CapabilityNames(x: Capability)
    ensures CapabilityName(x) != [] && NoComma(CapabilityName(x)) && CapabilityName(x) != "none"
    ensures Find(ALL_CAPABILITIES, CapabilityName, CapabilityName(x)) == Some(x)
  {
    forall y, z | y in ALL_CAPABILITIES && z in ALL_CAPABILITIES && CapabilityName(y) == CapabilityName(z) ensures y == z {
      CapabilitiesDiffer(y, z);
    }
    assert x in ALL_CAPABILITIES;
    FindsOwnName(ALL_CAPABILITIES, CapabilityName, x);
    assert "none"[1] == 'o' && "none"[3] == 'e';
  }

  lemma CapabilitiesDiffer(a: Capability, b: Capability)
    requires CapabilityName(a) == CapabilityName(b)
    ensures a == b
  {
    assert |CapabilityName(a)| == |CapabilityName(b)| && CapabilityName(a)[0] == CapabilityName(b)[0] && CapabilityName(a)[1] == CapabilityName(b)[1];
  }

  /** The capabilities of `c` that are in the table, added to `acc`. */
  function Added(acc: Capabilities, c: Capabilities, table: seq<Capability>): Capabilities
    decreases |table|
  {
    if table == [] then acc else Added(if Has(c, table[0]) then With(acc, table[0]) else acc, c, table[1..])
  }

  lemma {:induction false} GatherHeld(acc: Capabilities, c: Capabilities, table: seq<Capability>)
    ensures Gather(acc, Held(c, table)) == Some(Added(acc, c, table))
    ensures forall i :: 0 <= i < |Held(c, table)| ==> NoComma(Held(c, table)[i])
    ensures Held(c, table) != [] ==> exists x :: Held(c, table)[0] == CapabilityName(x)
    decreases |table|
  {
    if table != [] {
      CapabilityNames(table[0]);
      hide CapabilityName, With, Has, NoComma;
      var next := if Has(c, table[0]) then With(acc, table[0]) else acc;
      GatherHeld(next, c, table[1..]);
      if Has(c, table[0]) {
        var held := Held(c, table);
        assert held[0] == CapabilityName(table[0]) && held[1..] == Held(c, table[1..]);
      } else {
        assert Held(c, table) == Held(c, table[1..]);
      }
    }
  }

  lemma HasWith(c: Capabilities, y: Capability, x: Capability)
    ensures Has(With(c, y), x) <==> Has(c, x) || x == y
  {
  }

  lemma {:induction false} AddedHas(acc: Capabilities, c: Capabilities, table: seq<Capability>, x: Capability)
    ensures Has(Added(acc, c, table), x) <==> Has(acc, x) || (x in table && Has(c, x))
    decreases |table|
  {
    hide Has, With;
    if table != [] {
      AddedHas(if Has(c, table[0]) then With(acc, table[0]) else acc, c, table[1..], x);
      HasWith(acc, table[0], x);
      assert table == [table[0]] + table[1..];
    }
  }

  lemma AddedAll(c: Capabilities)
    ensures Added(NO_CAPABILITIES, c, ALL_CAPABILITIES) == c
  {
    AddedHas(NO_CAPABILITIES, c, ALL_CAPABILITIES, CCompletion);
    AddedHas(NO_CAPABILITIES, c, ALL_CAPABILITIES, CReset);
    AddedHas(NO_CAPABILITIES, c, ALL_CAPABILITIES, CPath);
    AddedHas(NO_CAPABILITIES, c, ALL_CAPABILITIES, CQueue);
    AddedHas(NO_CAPABILITIES, c, ALL_CAPABILITIES, CCounters);
    AddedHas(NO_CAPABILITIES, c, ALL_CAPABILITIES, CIdentity);
    hide Added;
  }

  lemma {:induction false} HeldIfHas(c: Capabilities, table: seq<Capability>, x: Capability)
    ensures x in table && Has(c, x) ==> Held(c, table) != []
  {
    if table != [] {
      HeldIfHas(c, table[1..], x);
      assert table == [table[0]] + table[1..];
    }
  }

  lemma HoldsSomething(c: Capabilities)
    requires c != NO_CAPABILITIES
    ensures Held(c, ALL_CAPABILITIES) != []
  {
    HeldIfHas(c, ALL_CAPABILITIES, CCompletion);
    HeldIfHas(c, ALL_CAPABILITIES, CReset);
    HeldIfHas(c, ALL_CAPABILITIES, CPath);
    HeldIfHas(c, ALL_CAPABILITIES, CQueue);
    HeldIfHas(c, ALL_CAPABILITIES, CCounters);
    HeldIfHas(c, ALL_CAPABILITIES, CIdentity);
    hide Held;
  }

  /** Every combination of capabilities survives being printed and read. */
  lemma CapabilitiesRoundTrip(c: Capabilities)
    ensures ParsedCapabilities(CapabilitiesText(c)) == Some(c)
  {
    if c != NO_CAPABILITIES {
      var held := Held(c, ALL_CAPABILITIES);
      GatherHeld(NO_CAPABILITIES, c, ALL_CAPABILITIES);
      AddedAll(c);
      HoldsSomething(c);
      hide Held, Gather, Added, CapabilityName;
      SplitJoin(held);
      var x :| held[0] == CapabilityName(x);
      CapabilityNames(x);
      NotNone(held, x);
    }
  }

  /** A joined list of capability names is neither empty nor the word for none. */
  lemma NotNone(held: seq<Text>, x: Capability)
    requires held != [] && held[0] == CapabilityName(x) && Split(Join(held)) == held
    ensures Join(held) != [] && Join(held) != "none"
  {
    CapabilityNames(x);
    SplitFirst("none", []);
    SplitFirst([], []);
    hide Split, Join, CapabilityName;
  }

  lemma CapabilityBare(x: Capability)
    ensures Bare(CapabilityName(x))
  {
  }

  lemma {:induction false} HeldBare(c: Capabilities, table: seq<Capability>)
    ensures forall i :: 0 <= i < |Held(c, table)| ==> Bare(Held(c, table)[i])
    decreases |table|
  {
    hide Bare, CapabilityName, Has;
    if table != [] {
      HeldBare(c, table[1..]);
      CapabilityBare(table[0]);
    }
  }

  lemma CapabilitiesBare(c: Capabilities)
    requires c != NO_CAPABILITIES
    ensures Bare(CapabilitiesText(c))
  {
    HeldBare(c, ALL_CAPABILITIES);
    HoldsSomething(c);
    hide Held, Bare;
    JoinBare(Held(c, ALL_CAPABILITIES));
  }
}
