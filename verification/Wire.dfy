/**
 * The wire format: what every field of a record looks like in bytes. A shape says which values a field may
 * hold and how they are laid out; the writer and the reader below are proved against it.
 */
module Wire {
  import opened Checked
  import opened Evidence
  import opened Binary
  import Bytes

  datatype Shape =
    | Num(width: nat)
    | Signed
    | Flag
    | Enum(width: nat, count: nat)
    | Str(max: nat)
    | Optional(of: Shape)
    | List(max: nat, of: Shape)
    | Record(fields: seq<Shape>)

  datatype Value =
    | VNum(n: nat)
    | VSigned(i: int)
    | VFlag(b: bool)
    | VStr(text: Text)
    | VNone
    | VSome(value: Value)
    | VSeq(items: seq<Value>)


  /** The 64-bit two's complement pattern of a signed integer. */
  function Pattern(i: int): nat
    requires I64_MIN <= i <= I64_MAX
  {
    if i < 0 then i + WORD else i
  }

  function FromPattern(n: nat): int {
    if n > I64_MAX then n - WORD else n
  }

  // ---- which values fit a shape -----------------------------------------------------------

  predicate Fits(s: Shape, v: Value)
    decreases s, 1, 0
  {
    match s
    case Num(width) => v.VNum? && v.n < Pow256(width)
    case Signed => v.VSigned? && I64_MIN <= v.i <= I64_MAX
    case Flag => v.VFlag?
    case Enum(width, count) => v.VNum? && v.n < count && v.n < Pow256(width)
    case Str(max) => v.VStr? && |v.text| <= max && |v.text| <= U32_MAX
    case Optional(of) => v.VNone? || (v.VSome? && Fits(of, v.value))
    case List(max, of) => v.VSeq? && |v.items| <= max && |v.items| <= U32_MAX && ItemsFit(s, v.items)
    case Record(fields) => v.VSeq? && |v.items| == |fields| && FieldsFit(s, 0, v.items)
  }

  predicate ItemsFit(s: Shape, items: seq<Value>)
    requires s.List?
    decreases s, 0, |items|
  {
    items == [] || (Fits(s.of, items[0]) && ItemsFit(s, items[1..]))
  }

  /** Do these values fit the fields from position `i` on? */
  predicate FieldsFit(s: Shape, i: nat, items: seq<Value>)
    requires s.Record? && i + |items| == |s.fields|
    decreases s, 0, |items|
  {
    items == [] || (Fits(s.fields[i], items[0]) && FieldsFit(s, i + 1, items[1..]))
  }

  // ---- encoding -----------------------------------------------------------------------------

  function BytesOf(text: Text): (b: seq<byte>)
    ensures |b| == |text|
  {
    seq(|text|, i requires 0 <= i < |text| => text[i] as int as byte)
  }

  function Chars(b: seq<byte>): (text: Text)
    ensures |text| == |b|
  {
    seq(|b|, i requires 0 <= i < |b| => b[i] as int as char)
  }

  function Encode(s: Shape, v: Value): seq<byte>
    requires Fits(s, v)
    decreases s, 1, 0
  {
    match s
    case Num(width) => LittleEndian(width, v.n)
    case Signed => LittleEndian(8, Pattern(v.i))
    case Flag => [if v.b then 1 else 0]
    case Enum(width, _) => LittleEndian(width, v.n)
    case Str(_) => LittleEndian(4, |v.text|) + BytesOf(v.text)
    case Optional(of) => if v.VNone? then [0] else [1] + Encode(of, v.value)
    case List(_, of) => LittleEndian(4, |v.items|) + EncodeItems(s, v.items)
    case Record(fields) => EncodeFields(s, 0, v.items)
  }

  function EncodeItems(s: Shape, items: seq<Value>): seq<byte>
    requires s.List? && ItemsFit(s, items)
    decreases s, 0, |items|
  {
    if items == [] then [] else Encode(s.of, items[0]) + EncodeItems(s, items[1..])
  }

  function EncodeFields(s: Shape, i: nat, items: seq<Value>): seq<byte>
    requires s.Record? && i + |items| == |s.fields| && FieldsFit(s, i, items)
    decreases s, 0, |items|
  {
    if items == [] then [] else Encode(s.fields[i], items[0]) + EncodeFields(s, i + 1, items[1..])
  }

  // ---- decoding --------------------------------------------------------------------------------

  /** The next `width` bytes as a number, and what follows them. */
  function Take(width: nat, bytes: seq<byte>): Option<(nat, seq<byte>)> {
    if |bytes| < width then None else Some((FromLittleEndian(bytes[..width]), bytes[width..]))
  }

  function Decode(s: Shape, bytes: seq<byte>): Option<(Value, seq<byte>)>
    decreases s, 1, 0
  {
    match s
    case Num(width) =>
      var n := Take(width, bytes);
      if n.None? then None else Some((VNum(n.value.0), n.value.1))
    case Signed =>
      var n := Take(8, bytes);
      if n.None? then None else Some((VSigned(FromPattern(n.value.0)), n.value.1))
    case Flag =>
      var n := Take(1, bytes);
      if n.None? || n.value.0 > 1 then None else Some((VFlag(n.value.0 == 1), n.value.1))
    case Enum(width, count) =>
      var n := Take(width, bytes);
      if n.None? || n.value.0 >= count then None else Some((VNum(n.value.0), n.value.1))
    case Str(max) =>
      var n := Take(4, bytes);
      if n.None? || n.value.0 > max || |n.value.1| < n.value.0 then None
      else Some((VStr(Chars(n.value.1[..n.value.0])), n.value.1[n.value.0..]))
    case Optional(of) =>
      var n := Take(1, bytes);
      if n.None? || n.value.0 > 1 then None
      else if n.value.0 == 0 then Some((VNone, n.value.1))
      else
        var v := Decode(of, n.value.1);
        if v.None? then None else Some((VSome(v.value.0), v.value.1))
    case List(max, of) =>
      var n := Take(4, bytes);
      if n.None? || n.value.0 > max then None
      else
        var vs := DecodeItems(s, n.value.0, n.value.1);
        if vs.None? then None else Some((VSeq(vs.value.0), vs.value.1))
    case Record(fields) =>
      var vs := DecodeFields(s, 0, bytes);
      if vs.None? then None else Some((VSeq(vs.value.0), vs.value.1))
  }

  function DecodeItems(s: Shape, n: nat, bytes: seq<byte>): Option<(seq<Value>, seq<byte>)>
    requires s.List?
    decreases s, 0, n
  {
    if n == 0 then Some(([], bytes))
    else
      var v := Decode(s.of, bytes);
      if v.None? then None
      else
        var vs := DecodeItems(s, n - 1, v.value.1);
        if vs.None? then None else Some(([v.value.0] + vs.value.0, vs.value.1))
  }

  function DecodeFields(s: Shape, i: nat, bytes: seq<byte>): Option<(seq<Value>, seq<byte>)>
    requires s.Record? && i <= |s.fields|
    decreases s, 0, |s.fields| - i
  {
    if i == |s.fields| then Some(([], bytes))
    else
      var v := Decode(s.fields[i], bytes);
      if v.None? then None
      else
        var vs := DecodeFields(s, i + 1, v.value.1);
        if vs.None? then None else Some(([v.value.0] + vs.value.0, vs.value.1))
  }

  // ---- decoding undoes encoding ---------------------------------------------------------------

  lemma TakeWritten(width: nat, n: nat, rest: seq<byte>)
    requires n < Pow256(width)
    ensures Take(width, LittleEndian(width, n) + rest) == Some((n, rest))
  {
    LittleEndianRoundTrip(width, n);
    var bytes := LittleEndian(width, n) + rest;
    assert bytes[..width] == LittleEndian(width, n) && bytes[width..] == rest;
  }

  lemma TextRoundTrip(text: Text)
    ensures Chars(BytesOf(text)) == text
  {
    forall i | 0 <= i < |text| ensures Chars(BytesOf(text))[i] == text[i] {
      Bytes.ByteRoundTrip(text[i] as int);
    }
  }

  lemma TakeByte(b: byte, rest: seq<byte>)
    ensures Take(1, [b] + rest) == Some((b as nat, rest))
  {
    var bytes := [b] + rest;
    assert bytes[..1] == [b] && bytes[1..] == rest;
    assert FromLittleEndian([b][1..]) == 0;
  }

  lemma {:induction false} RoundTripItems(s: Shape, items: seq<Value>, rest: seq<byte>)
    requires s.List? && ItemsFit(s, items)
    ensures DecodeItems(s, |items|, EncodeItems(s, items) + rest) == Some((items, rest))
    decreases s, 0, |items|
  {
    if items == [] {
      assert EncodeItems(s, items) + rest == rest;
    } else {
      var tail := EncodeItems(s, items[1..]) + rest;
      assert EncodeItems(s, items) + rest == Encode(s.of, items[0]) + tail;
      RoundTrip(s.of, items[0], tail);
      RoundTripItems(s, items[1..], rest);
      assert items == [items[0]] + items[1..];
    }
  }

  lemma {:induction false} RoundTripFields(s: Shape, i: nat, items: seq<Value>, rest: seq<byte>)
    requires s.Record? && i + |items| == |s.fields| && FieldsFit(s, i, items)
    ensures DecodeFields(s, i, EncodeFields(s, i, items) + rest) == Some((items, rest))
    decreases s, 0, |items|
  {
    if items == [] {
      assert EncodeFields(s, i, items) + rest == rest;
    } else {
      var tail := EncodeFields(s, i + 1, items[1..]) + rest;
      assert EncodeFields(s, i, items) + rest == Encode(s.fields[i], items[0]) + tail;
      RoundTrip(s.fields[i], items[0], tail);
      RoundTripFields(s, i + 1, items[1..], rest);
      assert items == [items[0]] + items[1..];
    }
  }

  lemma RoundTripText(max: nat, v: Value, rest: seq<byte>)
    requires Fits(Str(max), v)
    ensures Decode(Str(max), Encode(Str(max), v) + rest) == Some((v, rest))
  {
    Widths();
    var body := BytesOf(v.text) + rest;
    assert Encode(Str(max), v) + rest == LittleEndian(4, |v.text|) + body;
    TakeWritten(4, |v.text|, body);
    assert body[..|v.text|] == BytesOf(v.text) && body[|v.text|..] == rest;
    TextRoundTrip(v.text);
  }

  /** Decoding what was encoded, with anything after it, gives the value back and leaves exactly what was after it. */
  lemma {:induction false} RoundTrip(s: Shape, v: Value, rest: seq<byte>)
    requires Fits(s, v)
    ensures Decode(s, Encode(s, v) + rest) == Some((v, rest))
    decreases s, 1, 0
  {
    hide Take, LittleEndian, BytesOf, Chars;
    match s
    case Num(width) => TakeWritten(width, v.n, rest);
    case Signed =>
      Widths();
      TakeWritten(8, Pattern(v.i), rest);
    case Flag => TakeByte(if v.b then 1 else 0, rest);
    case Enum(width, _) => TakeWritten(width, v.n, rest);
    case Str(max) => RoundTripText(max, v, rest);
    case Optional(of) =>
      if v.VNone? {
        TakeByte(0, rest);
      } else {
        TakeByte(1, Encode(of, v.value) + rest);
        assert Encode(s, v) + rest == [1] + (Encode(of, v.value) + rest);
        RoundTrip(of, v.value, rest);
      }
    case List(max, of) =>
      Widths();
      assert Encode(s, v) + rest == LittleEndian(4, |v.items|) + (EncodeItems(s, v.items) + rest);
      TakeWritten(4, |v.items|, EncodeItems(s, v.items) + rest);
      RoundTripItems(s, v.items, rest);
    case Record(fields) => RoundTripFields(s, 0, v.items, rest);
  }

  // ---- encoding undoes decoding ----------------------------------------------------------------

  lemma LowAndHigh(low: nat, high: nat)
    requires low < 256
    ensures (low + 256 * high) % 256 == low && (low + 256 * high) / 256 == high
  {
  }

  lemma {:induction false} LittleEndianOf(bytes: seq<byte>)
    ensures FromLittleEndian(bytes) < Pow256(|bytes|)
    ensures LittleEndian(|bytes|, FromLittleEndian(bytes)) == bytes
  {
    FromLittleEndianBound(bytes);
    if bytes != [] {
      LittleEndianOf(bytes[1..]);
      Bytes.ByteOf(bytes[0]);
      LowAndHigh(bytes[0] as nat, FromLittleEndian(bytes[1..]));
      assert bytes == [bytes[0]] + bytes[1..];
    }
  }

  lemma TakeReads(width: nat, bytes: seq<byte>)
    ensures var n := Take(width, bytes);
            n.Some? ==> n.value.0 < Pow256(width) && bytes == LittleEndian(width, n.value.0) + n.value.1
  {
    if width <= |bytes| {
      LittleEndianOf(bytes[..width]);
      assert bytes == bytes[..width] + bytes[width..];
    }
  }

  lemma BytesOfChars(b: seq<byte>)
    ensures BytesOf(Chars(b)) == b
  {
    forall i | 0 <= i < |b| ensures BytesOf(Chars(b))[i] == b[i] {
      Bytes.ByteOf(b[i]);
    }
  }

  lemma OneByte(n: nat)
    requires n <= 1
    ensures LittleEndian(1, n) == [n as byte]
  {
    assert LittleEndian(0, n / 256) == [];
  }

  lemma {:induction false} CanonicalItems(s: Shape, n: nat, bytes: seq<byte>)
    requires s.List?
    ensures var r := DecodeItems(s, n, bytes);
            r.Some? ==> |r.value.0| == n && ItemsFit(s, r.value.0) && bytes == EncodeItems(s, r.value.0) + r.value.1
    decreases s, 0, n
  {
    if n > 0 {
      var v := Decode(s.of, bytes);
      if v.Some? {
        Canonical(s.of, bytes);
        CanonicalItems(s, n - 1, v.value.1);
        var vs := DecodeItems(s, n - 1, v.value.1);
        if vs.Some? {
          var items := [v.value.0] + vs.value.0;
          assert items[1..] == vs.value.0;
        }
      }
    }
  }

  lemma NoFields(s: Shape)
    requires s.Record?
    ensures FieldsFit(s, |s.fields|, []) && EncodeFields(s, |s.fields|, []) == []
  {
  }

  lemma {:induction false} CanonicalFields(s: Shape, i: nat, bytes: seq<byte>)
    requires s.Record? && i <= |s.fields|
    ensures var r := DecodeFields(s, i, bytes);
            r.Some? ==> i + |r.value.0| == |s.fields| && FieldsFit(s, i, r.value.0)
                        && bytes == EncodeFields(s, i, r.value.0) + r.value.1
    decreases s, 0, |s.fields| - i
  {
    hide Fits, Encode, FieldsFit, EncodeFields, Decode;
    if i == |s.fields| {
      NoFields(s);
      assert [] + bytes == bytes;
    } else {
      var v := Decode(s.fields[i], bytes);
      if v.Some? {
        Canonical(s.fields[i], bytes);
        CanonicalFields(s, i + 1, v.value.1);
        var vs := DecodeFields(s, i + 1, v.value.1);
        if vs.Some? {
          FieldsCons(s, i, v.value.0, vs.value.0, vs.value.1);
        }
      }
    }
  }

  lemma FieldsCons(s: Shape, i: nat, v: Value, items: seq<Value>, rest: seq<byte>)
    requires s.Record? && i + 1 + |items| == |s.fields| && Fits(s.fields[i], v) && FieldsFit(s, i + 1, items)
    ensures FieldsFit(s, i, [v] + items)
    ensures EncodeFields(s, i, [v] + items) + rest == Encode(s.fields[i], v) + (EncodeFields(s, i + 1, items) + rest)
  {
    hide Encode, Fits;
    assert ([v] + items)[1..] == items;
  }

  lemma CanonicalText(max: nat, bytes: seq<byte>)
    ensures var r := Decode(Str(max), bytes);
            r.Some? ==> Fits(Str(max), r.value.0) && bytes == Encode(Str(max), r.value.0) + r.value.1
  {
    Widths();
    TakeReads(4, bytes);
    var n := Take(4, bytes);
    if n.Some? && n.value.0 <= max && n.value.0 <= |n.value.1| {
      var body := n.value.1[..n.value.0];
      BytesOfChars(body);
      assert n.value.1 == body + n.value.1[n.value.0..];
    }
  }

  /** The format is canonical: bytes that decode at all are the encoding of what they decode to, and it fits. */
  lemma {:induction false} Canonical(s: Shape, bytes: seq<byte>)
    ensures var r := Decode(s, bytes);
            r.Some? ==> Fits(s, r.value.0) && bytes == Encode(s, r.value.0) + r.value.1
    decreases s, 1, 0
  {
    hide Take, LittleEndian, BytesOf, Chars;
    Widths();
    match s
    case Num(width) => TakeReads(width, bytes);
    case Signed => TakeReads(8, bytes);
    case Flag => FlagCanonical(bytes);
    case Enum(width, _) => TakeReads(width, bytes);
    case Str(max) => CanonicalText(max, bytes);
    case Optional(of) =>
      FlagCanonical(bytes);
      var n := Take(1, bytes);
      if n.Some? && n.value.0 == 1 {
        Canonical(of, n.value.1);
      }
    case List(max, of) =>
      TakeReads(4, bytes);
      var n := Take(4, bytes);
      if n.Some? && n.value.0 <= max {
        CanonicalItems(s, n.value.0, n.value.1);
      }
    case Record(fields) => CanonicalFields(s, 0, bytes);
  }

  lemma FlagCanonical(bytes: seq<byte>)
    ensures var n := Take(1, bytes);
            n.Some? && n.value.0 <= 1 ==> bytes == [if n.value.0 == 1 then 1 else 0] + n.value.1
  {
    TakeReads(1, bytes);
    var n := Take(1, bytes);
    if n.Some? && n.value.0 <= 1 {
      OneByte(n.value.0);
    }
  }

  // ---- limits ---------------------------------------------------------------------------------------

  /** The same layout with limits that are at most as wide. */
  predicate Narrower(s: Shape, w: Shape)
    decreases s, 1, 0
  {
    match s
    case Str(max) => w.Str? && max <= w.max
    case Optional(of) => w.Optional? && Narrower(of, w.of)
    case List(max, of) => w.List? && max <= w.max && Narrower(of, w.of)
    case Record(fields) => w.Record? && |fields| == |w.fields| && NarrowerFrom(s, w, 0)
    case _ => s == w
  }

  predicate NarrowerFrom(s: Shape, w: Shape, i: nat)
    requires s.Record? && w.Record? && |s.fields| == |w.fields| && i <= |s.fields|
    decreases s, 0, |s.fields| - i
  {
    i == |s.fields| || (Narrower(s.fields[i], w.fields[i]) && NarrowerFrom(s, w, i + 1))
  }

  lemma {:induction false} NarrowerItems(s: Shape, w: Shape, items: seq<Value>)
    requires s.List? && w.List? && Narrower(s.of, w.of) && ItemsFit(s, items)
    ensures ItemsFit(w, items) && EncodeItems(w, items) == EncodeItems(s, items)
    decreases s, 0, |items|
  {
    if items != [] {
      NarrowerEncodesAlike(s.of, w.of, items[0]);
      NarrowerItems(s, w, items[1..]);
    }
  }

  lemma {:induction false} NarrowerFields(s: Shape, w: Shape, i: nat, items: seq<Value>)
    requires s.Record? && w.Record? && |s.fields| == |w.fields| && i + |items| == |s.fields|
    requires NarrowerFrom(s, w, i) && FieldsFit(s, i, items)
    ensures FieldsFit(w, i, items) && EncodeFields(w, i, items) == EncodeFields(s, i, items)
    decreases s, 0, |items|
  {
    if items != [] {
      NarrowerEncodesAlike(s.fields[i], w.fields[i], items[0]);
      NarrowerFields(s, w, i + 1, items[1..]);
    }
  }

  lemma {:induction false} NarrowerEncodesAlike(s: Shape, w: Shape, v: Value)
    requires Narrower(s, w) && Fits(s, v)
    ensures Fits(w, v) && Encode(w, v) == Encode(s, v)
    decreases s, 1, 0
  {
    match s
    case Optional(of) =>
      if v.VSome? {
        NarrowerEncodesAlike(of, w.of, v.value);
      }
    case List(max, of) => NarrowerItems(s, w, v.items);
    case Record(fields) => NarrowerFields(s, w, 0, v.items);
    case _ =>
  }

  lemma {:induction false} EachNarrower(s: Shape, w: Shape, i: nat)
    requires s.Record? && w.Record? && |s.fields| == |w.fields| && i <= |s.fields|
    requires forall j :: i <= j < |s.fields| ==> Narrower(s.fields[j], w.fields[j])
    ensures NarrowerFrom(s, w, i)
    ensures i == 0 ==> Narrower(s, w)
    decreases |s.fields| - i
  {
    if i < |s.fields| {
      EachNarrower(s, w, i + 1);
    }
  }

  lemma {:induction false} SameNarrower(s: Shape)
    ensures Narrower(s, s)
    decreases s
  {
    match s
    case Optional(of) => SameNarrower(of);
    case List(_, of) => SameNarrower(of);
    case Record(fields) =>
      forall j | 0 <= j < |fields| ensures Narrower(fields[j], fields[j]) {
        SameNarrower(fields[j]);
      }
      EachNarrower(s, s, 0);
    case _ =>
  }

  /** What a writer without limits wrote is read back under limits exactly when it keeps them. */
  lemma DecodesIffFits(s: Shape, w: Shape, v: Value, rest: seq<byte>)
    requires Narrower(s, w) && Fits(w, v)
    ensures Fits(s, v) ==> Decode(s, Encode(w, v) + rest) == Some((v, rest))
    ensures !Fits(s, v) ==> Decode(s, Encode(w, v) + rest) == None
  {
    hide Decode, Encode, Fits, Narrower;
    var bytes := Encode(w, v) + rest;
    if Fits(s, v) {
      NarrowerEncodesAlike(s, w, v);
      RoundTrip(s, v, rest);
    } else {
      Canonical(s, bytes);
      var r := Decode(s, bytes);
      if r.Some? {
        NarrowerEncodesAlike(s, w, r.value.0);
        RoundTrip(w, r.value.0, r.value.1);
        RoundTrip(w, v, rest);
      }
    }
  }

  // ---- records, field by field -------------------------------------------------------------------------

  predicate EachFits(s: Shape, items: seq<Value>)
    requires s.Record?
  {
    |items| == |s.fields| && forall i :: 0 <= i < |items| ==> Fits(s.fields[i], items[i])
  }

  lemma {:induction false} EachFitsFrom(s: Shape, i: nat, items: seq<Value>)
    requires s.Record? && i + |items| == |s.fields|
    requires forall j :: 0 <= j < |items| ==> Fits(s.fields[i + j], items[j])
    ensures FieldsFit(s, i, items)
    decreases |items|
  {
    if items != [] {
      assert Fits(s.fields[i + 0], items[0]);
      forall j | 0 <= j < |items[1..]| ensures Fits(s.fields[i + 1 + j], items[1..][j]) {
        assert Fits(s.fields[i + (j + 1)], items[j + 1]);
      }
      EachFitsFrom(s, i + 1, items[1..]);
    }
  }

  lemma EachFitsRecord(s: Shape, items: seq<Value>)
    requires s.Record? && EachFits(s, items)
    ensures Fits(s, VSeq(items))
  {
    EachFitsFrom(s, 0, items);
  }

  lemma {:induction false} FieldsFitEach(s: Shape, i: nat, items: seq<Value>, k: nat)
    requires s.Record? && i + |items| == |s.fields| && FieldsFit(s, i, items) && k < |items|
    ensures Fits(s.fields[i + k], items[k])
    decreases |items|
  {
    if k > 0 {
      FieldsFitEach(s, i + 1, items[1..], k - 1);
    }
  }

  /** A record fits exactly when each field does. */
  lemma RecordFitsIff(s: Shape, items: seq<Value>)
    requires s.Record?
    ensures Fits(s, VSeq(items)) <==> EachFits(s, items)
  {
    if Fits(s, VSeq(items)) {
      forall k | 0 <= k < |items| ensures Fits(s.fields[k], items[k]) {
        FieldsFitEach(s, 0, items, k);
      }
    }
    if EachFits(s, items) {
      EachFitsRecord(s, items);
    }
  }

  /** A list fits exactly when it is short enough and each item fits. */
  lemma {:induction false} ItemsFitIff(s: Shape, items: seq<Value>)
    requires s.List?
    ensures ItemsFit(s, items) <==> forall i :: 0 <= i < |items| ==> Fits(s.of, items[i])
    decreases |items|
  {
    if items != [] {
      ItemsFitIff(s, items[1..]);
      if forall i :: 0 <= i < |items| ==> Fits(s.of, items[i]) {
        forall i | 0 <= i < |items[1..]| ensures Fits(s.of, items[1..][i]) {
          assert items[1..][i] == items[i + 1];
        }
      }
      if ItemsFit(s, items) {
        forall i | 0 <= i < |items| ensures Fits(s.of, items[i]) {
          assert i > 0 ==> items[i] == items[1..][i - 1];
        }
      }
    }
  }

  /** The first `n` fields of a record, encoded. */
  function EncodeUpTo(s: Shape, n: nat, items: seq<Value>): seq<byte>
    requires s.Record? && EachFits(s, items) && n <= |items|
  {
    if n == 0 then [] else EncodeUpTo(s, n - 1, items) + Encode(s.fields[n - 1], items[n - 1])
  }

  lemma {:induction false} EncodeFromUpTo(s: Shape, n: nat, items: seq<Value>)
    requires s.Record? && EachFits(s, items) && n <= |items| && FieldsFit(s, n, items[n..])
    ensures FieldsFit(s, 0, items) && EncodeFields(s, 0, items) == EncodeUpTo(s, n, items) + EncodeFields(s, n, items[n..])
  {
    if n == 0 {
      assert items[0..] == items;
    } else {
      assert items[n - 1..][1..] == items[n..];
      assert FieldsFit(s, n - 1, items[n - 1..]);
      EncodeFromUpTo(s, n - 1, items);
    }
  }

  /** Writing a record is writing its fields one after the other. */
  lemma RecordEncodes(s: Shape, items: seq<Value>)
    requires s.Record? && EachFits(s, items)
    ensures Fits(s, VSeq(items)) && Encode(s, VSeq(items)) == EncodeUpTo(s, |items|, items)
  {
    EachFitsRecord(s, items);
    assert items[|items|..] == [];
    EncodeFromUpTo(s, |items|, items);
  }

  /** The first `k` fields of a record have been written after `start`. */
  ghost predicate Wrote(s: Shape, k: nat, items: seq<Value>, start: seq<byte>, buf: seq<byte>) {
    s.Record? && EachFits(s, items) && k <= |items| && buf == start + EncodeUpTo(s, k, items)
  }

  lemma WroteNothing(s: Shape, items: seq<Value>, start: seq<byte>)
    requires s.Record? && EachFits(s, items)
    ensures Wrote(s, 0, items, start, start)
  {
  }

  lemma WroteNext(s: Shape, k: nat, items: seq<Value>, start: seq<byte>, buf: seq<byte>, next: seq<byte>)
    requires Wrote(s, k, items, start, buf) && k < |items|
    requires next == buf + Encode(s.fields[k], items[k])
    ensures Wrote(s, k + 1, items, start, next)
  {
  }

  lemma WroteAll(s: Shape, items: seq<Value>, start: seq<byte>, buf: seq<byte>)
    requires Wrote(s, |items|, items, start, buf)
    ensures Fits(s, VSeq(items)) && buf == start + Encode(s, VSeq(items))
  {
    RecordEncodes(s, items);
  }

  /** The first `k` fields read from `before` gave `items`; `after` is what is left to read the others from. */
  ghost predicate SoFar(s: Shape, k: nat, before: seq<byte>, items: seq<Value>, after: seq<byte>)
    requires s.Record? && k <= |s.fields|
  {
    var rest := DecodeFields(s, k, after);
    DecodeFields(s, 0, before) == if rest.None? then None else Some((items + rest.value.0, rest.value.1))
  }

  lemma Begin(s: Shape, before: seq<byte>)
    requires s.Record?
    ensures SoFar(s, 0, before, [], before)
  {
    var rest := DecodeFields(s, 0, before);
    assert rest.Some? ==> [] + rest.value.0 == rest.value.0;
  }

  /** One more field: its failure is the record's failure. */
  lemma Next(s: Shape, k: nat, before: seq<byte>, items: seq<Value>, mid: seq<byte>)
    requires s.Record? && k < |s.fields| && SoFar(s, k, before, items, mid)
    ensures var v := Decode(s.fields[k], mid);
            if v.None? then Decode(s, before).None? else SoFar(s, k + 1, before, items + [v.value.0], v.value.1)
  {
    var v := Decode(s.fields[k], mid);
    if v.Some? {
      var rest := DecodeFields(s, k + 1, v.value.1);
      if rest.Some? {
        assert items + ([v.value.0] + rest.value.0) == items + [v.value.0] + rest.value.0;
      }
    }
  }

  lemma Finished(s: Shape, before: seq<byte>, items: seq<Value>, after: seq<byte>)
    requires s.Record? && SoFar(s, |s.fields|, before, items, after)
    ensures Decode(s, before) == Some((VSeq(items), after))
  {
    assert items + [] == items;
  }

  // ---- lists, item by item ------------------------------------------------------------------------------

  lemma {:induction false} ItemsAppend(s: Shape, items: seq<Value>, v: Value)
    requires s.List? && ItemsFit(s, items) && Fits(s.of, v)
    ensures ItemsFit(s, items + [v]) && EncodeItems(s, items + [v]) == EncodeItems(s, items) + Encode(s.of, v)
    decreases |items|
  {
    if items == [] {
      assert items + [v] == [v] && [v][1..] == [];
    } else {
      ItemsAppend(s, items[1..], v);
      assert (items + [v])[1..] == items[1..] + [v];
    }
  }

  /** These items of a list have been written after `start`. */
  ghost predicate WroteItems(s: Shape, items: seq<Value>, start: seq<byte>, buf: seq<byte>) {
    s.List? && ItemsFit(s, items) && buf == start + EncodeItems(s, items)
  }

  lemma WroteItem(s: Shape, items: seq<Value>, v: Value, start: seq<byte>, buf: seq<byte>, next: seq<byte>)
    requires WroteItems(s, items, start, buf) && Fits(s.of, v) && next == buf + Encode(s.of, v)
    ensures WroteItems(s, items + [v], start, next)
  {
    ItemsAppend(s, items, v);
  }

  /** `k` of `n` items read from `before` gave `items`; the others are read from `after`. */
  ghost predicate ItemsSoFar(s: Shape, n: nat, k: nat, before: seq<byte>, items: seq<Value>, after: seq<byte>)
    requires s.List? && k <= n
  {
    var rest := DecodeItems(s, n - k, after);
    DecodeItems(s, n, before) == if rest.None? then None else Some((items + rest.value.0, rest.value.1))
  }

  lemma ItemsBegin(s: Shape, n: nat, before: seq<byte>)
    requires s.List?
    ensures ItemsSoFar(s, n, 0, before, [], before)
  {
    var rest := DecodeItems(s, n, before);
    assert rest.Some? ==> [] + rest.value.0 == rest.value.0;
  }

  lemma NextItem(s: Shape, n: nat, k: nat, before: seq<byte>, items: seq<Value>, mid: seq<byte>)
    requires s.List? && k < n && ItemsSoFar(s, n, k, before, items, mid)
    ensures var v := Decode(s.of, mid);
            if v.None? then DecodeItems(s, n, before).None? else ItemsSoFar(s, n, k + 1, before, items + [v.value.0], v.value.1)
  {
    var v := Decode(s.of, mid);
    if v.Some? {
      var rest := DecodeItems(s, n - k - 1, v.value.1);
      if rest.Some? {
        assert items + ([v.value.0] + rest.value.0) == items + [v.value.0] + rest.value.0;
      }
    }
  }

  lemma ItemsFinished(s: Shape, n: nat, before: seq<byte>, items: seq<Value>, after: seq<byte>)
    requires s.List? && ItemsSoFar(s, n, n, before, items, after)
    ensures DecodeItems(s, n, before) == Some((items, after))
  {
    assert items + [] == items;
  }
}
