/** The growing buffer records are written to and the latching cursor they are read with. */
module BinaryIO {
  import opened Checked
  import opened Evidence
  import opened Binary
  import opened Wire

  lemma {:induction false} LittleEndianSnoc(width: nat, n: nat)
    ensures LittleEndian(width + 1, n) == LittleEndian(width, n) + [(n / Pow256(width) % 256) as byte]
  {
    if width == 0 {
      assert LittleEndian(1, n) == [(n % 256) as byte] + LittleEndian(0, n / 256);
    } else {
      LittleEndianSnoc(width - 1, n / 256);
      DivideTwice(n, Pow256(width - 1));
    }
  }

  lemma TimesMonotone(d: nat, a: int, b: int)
    requires a <= b
    ensures d * a <= d * b
  {
  }

  lemma DivideTwice(n: nat, d: nat)
    requires d > 0
    ensures n / 256 / d == n / (256 * d)
  {
    var q, r := n / 256, n % 256;
    var a, b := q / d, q % d;
    assert n == 256 * q + r && q == d * a + b;
    assert 256 * (d * a) == (256 * d) * a;
    QuotientIs(n, 256 * d, a, 256 * b + r);
  }

  lemma QuotientIs(n: nat, d: nat, q: nat, r: nat)
    requires d > 0 && r < d && n == d * q + r
    ensures n / d == q
  {
    var p := n / d;
    assert n == d * p + n % d;
    if p + 1 <= q {
      TimesMonotone(d, p + 1, q);
    }
    if q + 1 <= p {
      TimesMonotone(d, q + 1, p);
    }
  }

  lemma Reassociate(b: nat, p: nat)
    ensures 256 * (b * p) == b * (256 * p)
  {
  }

  lemma {:induction false} FromLittleEndianSnoc(bytes: seq<byte>, b: byte)
    ensures FromLittleEndian(bytes + [b]) == FromLittleEndian(bytes) + b as nat * Pow256(|bytes|)
  {
    if bytes == [] {
      assert ([] + [b])[1..] == [];
    } else {
      var rest := bytes[1..];
      assert (bytes + [b])[1..] == rest + [b];
      FromLittleEndianSnoc(rest, b);
      var low, high, shifted := bytes[0] as nat, FromLittleEndian(rest), b as nat * Pow256(|rest|);
      Reassociate(b as nat, Pow256(|rest|));
      assert FromLittleEndian(bytes + [b]) == low + 256 * (high + shifted);
      assert FromLittleEndian(bytes) == low + 256 * high;
      assert Pow256(|bytes|) == 256 * Pow256(|rest|);
      hide FromLittleEndian, Pow256;
    }
  }

  class Writer {
    var buf: seq<byte>

    constructor ()
      ensures buf == []
    {
      buf := [];
    }

    /** The low `width` bytes of a number, the least significant first. */
    method Fixed(width: nat, value: nat)
      modifies this
      ensures buf == old(buf) + LittleEndian(width, value)
    {
      for i := 0 to width
        invariant buf == old(buf) + LittleEndian(i, value)
      {
        LittleEndianSnoc(i, value);
        buf := buf + [(value / Pow256(i) % 256) as byte];
      }
    }

    method U8(value: nat)
      modifies this
      ensures buf == old(buf) + LittleEndian(1, value)
    {
      Fixed(1, value);
    }

    method Boolean(value: bool)
      modifies this
      ensures Fits(Flag, VFlag(value)) && buf == old(buf) + Encode(Flag, VFlag(value))
    {
      if value {
        OneByte(1);
        U8(1);
      } else {
        OneByte(0);
        U8(0);
      }
    }

    method U32(value: nat)
      modifies this
      ensures buf == old(buf) + LittleEndian(4, value)
    {
      Fixed(4, value);
    }

    method U64(value: u64)
      modifies this
      ensures Fits(Num(8), VNum(value))
      ensures buf == old(buf) + Encode(Num(8), VNum(value))
    {
      Widths();
      Fixed(8, value);
    }

    /** An enumerator, in one byte. */
    method Tag(value: nat, count: nat)
      requires value < count && value < 256
      modifies this
      ensures Fits(Enum(1, count), VNum(value))
      ensures buf == old(buf) + Encode(Enum(1, count), VNum(value))
    {
      Widths();
      U8(value);
    }

    method I64(value: i64)
      modifies this
      ensures Fits(Signed, VSigned(value)) && buf == old(buf) + Encode(Signed, VSigned(value))
    {
      Fixed(8, Pattern(value));
    }

    /** A length of 32 bits and the bytes of the text. */
    method Text(text: Text)
      modifies this
      ensures buf == old(buf) + LittleEndian(4, |text|) + BytesOf(text)
    {
      U32(|text|);
      buf := buf + BytesOf(text);
    }

    method OptionalU64(value: Option<u64>)
      modifies this
      ensures Fits(Optional(Num(8)), OptionalNumber(value))
      ensures buf == old(buf) + Encode(Optional(Num(8)), OptionalNumber(value))
    {
      hide LittleEndian;
      Widths();
      Boolean(value.Some?);
      if value.Some? {
        U64(value.value);
      }
    }

    method OptionalI64(value: Option<i64>)
      modifies this
      ensures Fits(Optional(Signed), OptionalSigned(value))
      ensures buf == old(buf) + Encode(Optional(Signed), OptionalSigned(value))
    {
      hide LittleEndian, Pattern;
      Boolean(value.Some?);
      if value.Some? {
        I64(value.value);
      }
    }
  }

  function OptionalNumber(v: Option<u64>): Value {
    if v.Some? then VSome(VNum(v.value)) else VNone
  }

  function OptionalSigned(v: Option<i64>): Value {
    if v.Some? then VSome(VSigned(v.value)) else VNone
  }

  /** A bounded cursor. Once a read has failed every later read fails. */
  class Reader {
    const data: seq<byte>
    var pos: nat
    var ok: bool

    predicate Valid()
      reads this
    {
      pos <= |data|
    }

    constructor (data: seq<byte>)
      ensures Valid() && ok && Rest() == data && this.data == data
    {
      this.data := data;
      pos, ok := 0, true;
    }

    function Rest(): seq<byte>
      requires Valid()
      reads this
    {
      data[pos..]
    }

    /** Did reading this shape from `before` give this value and leave `after`? */
    static ghost predicate Gives(s: Shape, before: seq<byte>, v: Value, after: seq<byte>) {
      Decode(s, before) == Some((v, after))
    }

    method U8() returns (r: Option<nat>)
      requires Valid()
      modifies this`pos, this`ok
      ensures Valid()
      ensures r.Some? ==> old(ok) && ok && Take(1, old(Rest())) == Some((r.value, Rest()))
      ensures r.None? ==> !ok && (old(ok) ==> Take(1, old(Rest())).None?)
    {
      if !ok || pos == |data| {
        ok := false;
        return None;
      }
      TakeByte(data[pos], data[pos + 1..]);
      assert data[pos..] == [data[pos]] + data[pos + 1..];
      r := Some(data[pos] as nat);
      pos := pos + 1;
    }

    method Boolean() returns (r: Option<bool>)
      requires Valid()
      modifies this`pos, this`ok
      ensures Valid()
      ensures r.Some? ==> old(ok) && ok && Gives(Flag, old(Rest()), VFlag(r.value), Rest())
      ensures r.None? ==> !ok && (old(ok) ==> Decode(Flag, old(Rest())).None?)
    {
      var raw := U8();
      if raw.None? {
        return None;
      }
      if raw.value > 1 {
        ok := false;
        return None;
      }
      return Some(raw.value == 1);
    }

    /** `width` bytes as a number, the least significant first. */
    method Fixed(width: nat) returns (r: Option<nat>)
      requires Valid()
      modifies this`pos, this`ok
      ensures Valid()
      ensures r.Some? ==> (width > 0 ==> old(ok)) && ok == old(ok) && Take(width, old(Rest())) == Some((r.value, Rest()))
      ensures r.None? ==> !ok && (old(ok) ==> Take(width, old(Rest())).None?)
    {
      var start := pos;
      var value := 0;
      for i := 0 to width
        invariant Valid() && pos == start + i && (i > 0 ==> old(ok)) && ok == old(ok)
        invariant value == FromLittleEndian(data[start..pos])
      {
        if !ok || pos == |data| {
          ok := false;
          return None;
        }
        FromLittleEndianSnoc(data[start..pos], data[pos]);
        assert data[start..pos + 1] == data[start..pos] + [data[pos]];
        value := value + data[pos] as nat * Pow256(i);
        pos := pos + 1;
      }
      assert data[start..][..width] == data[start..pos] && data[start..][width..] == data[pos..];
      r := Some(value);
    }

    method U64() returns (r: Option<u64>)
      requires Valid()
      modifies this`pos, this`ok
      ensures Valid()
      ensures r.Some? ==> old(ok) && ok && Gives(Num(8), old(Rest()), VNum(r.value), Rest())
      ensures r.None? ==> !ok && (old(ok) ==> Decode(Num(8), old(Rest())).None?)
    {
      ghost var before := Rest();
      var n := Fixed(8);
      if n.None? {
        return None;
      }
      Widths();
      TakeReads(8, before);
      return Some(n.value);
    }

    method U32() returns (r: Option<u32>)
      requires Valid()
      modifies this`pos, this`ok
      ensures Valid()
      ensures r.Some? ==> old(ok) && ok && Take(4, old(Rest())) == Some((r.value, Rest()))
      ensures r.None? ==> !ok && (old(ok) ==> Take(4, old(Rest())).None?)
      ensures r.Some? ==> Gives(Num(4), old(Rest()), VNum(r.value), Rest())
      ensures r.None? && old(ok) ==> Decode(Num(4), old(Rest())).None?
    {
      ghost var before := Rest();
      var n := Fixed(4);
      if n.None? {
        return None;
      }
      Widths();
      TakeReads(4, before);
      return Some(n.value);
    }

    method I64() returns (r: Option<i64>)
      requires Valid()
      modifies this`pos, this`ok
      ensures Valid()
      ensures r.Some? ==> old(ok) && ok && Gives(Signed, old(Rest()), VSigned(r.value), Rest())
      ensures r.None? ==> !ok && (old(ok) ==> Decode(Signed, old(Rest())).None?)
    {
      ghost var before := Rest();
      var n := Fixed(8);
      if n.None? {
        return None;
      }
      Widths();
      TakeReads(8, before);
      return Some(FromPattern(n.value));
    }

    /** An enumerator in one byte: one of `count`. */
    method Tag(count: nat) returns (r: Option<nat>)
      requires Valid()
      modifies this`pos, this`ok
      ensures Valid()
      ensures r.Some? ==> old(ok) && ok && Gives(Enum(1, count), old(Rest()), VNum(r.value), Rest()) && r.value < count
      ensures r.None? && old(ok) ==> Decode(Enum(1, count), old(Rest())).None?
    {
      var raw := U8();
      if raw.None? || raw.value >= count {
        return None;
      }
      return raw;
    }

    /** A length-prefixed text; the length is checked before anything is taken. */
    method Text(max: nat) returns (r: Option<Text>)
      requires Valid()
      modifies this`pos, this`ok
      ensures Valid()
      ensures r.Some? ==> old(ok) && ok && Gives(Str(max), old(Rest()), VStr(r.value), Rest())
      ensures r.None? ==> !ok && (old(ok) ==> Decode(Str(max), old(Rest())).None?)
    {
      var length := U32();
      if length.None? {
        return None;
      }
      if length.value > max || |data| - pos < length.value {
        ok := false;
        return None;
      }
      ghost var after := Rest();
      r := Some(Chars(data[pos..pos + length.value]));
      assert after[..length.value] == data[pos..pos + length.value];
      pos := pos + length.value;
      assert Rest() == after[length.value..];
    }

    method OptionalU64() returns (r: Option<Option<u64>>)
      requires Valid()
      modifies this`pos, this`ok
      ensures Valid()
      ensures r.Some? ==> old(ok) && ok && Gives(Optional(Num(8)), old(Rest()), OptionalNumber(r.value), Rest())
      ensures r.None? ==> !ok && (old(ok) ==> Decode(Optional(Num(8)), old(Rest())).None?)
    {
      var present := Boolean();
      if present.None? {
        return None;
      }
      if !present.value {
        return Some(None);
      }
      var v := U64();
      if v.None? {
        return None;
      }
      return Some(Some(v.value));
    }

    method OptionalI64() returns (r: Option<Option<i64>>)
      requires Valid()
      modifies this`pos, this`ok
      ensures Valid()
      ensures r.Some? ==> old(ok) && ok && Gives(Optional(Signed), old(Rest()), OptionalSigned(r.value), Rest())
      ensures r.None? ==> !ok && (old(ok) ==> Decode(Optional(Signed), old(Rest())).None?)
    {
      var present := Boolean();
      if present.None? {
        return None;
      }
      if !present.value {
        return Some(None);
      }
      var v := I64();
      if v.None? {
        return None;
      }
      return Some(Some(v.value));
    }

    /** Nothing may be left over. */
    method Finish() returns (done: bool)
      requires Valid()
      modifies this`ok
      ensures Valid() && done == (old(ok) && Rest() == [])
      ensures !done ==> !ok
    {
      if !ok {
        return false;
      }
      if pos != |data| {
        ok := false;
        return false;
      }
      return true;
    }
  }

  /** A counted list of 64-bit numbers. */
  function Numbers(s: seq<u64>): (items: seq<Value>)
    ensures |items| == |s|
    ensures forall i :: 0 <= i < |s| ==> items[i] == VNum(s[i])
  {
    seq(|s|, i requires 0 <= i < |s| => VNum(s[i]))
  }

  lemma {:induction false} NumbersFit(max: nat, s: seq<u64>)
    ensures ItemsFit(List(max, Num(8)), Numbers(s))
    ensures Fits(List(max, Num(8)), VSeq(Numbers(s))) <==> |s| <= max && |s| <= U32_MAX
  {
    Widths();
    if s != [] {
      NumbersFit(max, s[1..]);
      assert Numbers(s)[1..] == Numbers(s[1..]);
    }
  }

  lemma NumbersInjective(a: seq<u64>, b: seq<u64>)
    requires Numbers(a) == Numbers(b)
    ensures a == b
  {
    forall i | 0 <= i < |a| ensures a[i] == b[i] {
      assert Numbers(a)[i] == Numbers(b)[i];
    }
  }

  method WriteNumbers(w: Writer, max: nat, s: seq<u64>)
    requires |s| <= max && |s| <= U32_MAX
    modifies w
    ensures Fits(List(max, Num(8)), VSeq(Numbers(s)))
    ensures w.buf == old(w.buf) + Encode(List(max, Num(8)), VSeq(Numbers(s)))
  {
    NumbersFit(max, s);
    hide WroteItems, LittleEndian, Fits, Encode, Numbers;
    ghost var base := w.buf;
    w.U32(|s|);
    ghost var start := w.buf;
    WriteEach(w, max, s);
    WroteList(List(max, Num(8)), Numbers(s), base, start, w.buf);
  }

  method WriteEach(w: Writer, max: nat, s: seq<u64>)
    modifies w
    ensures WroteItems(List(max, Num(8)), Numbers(s), old(w.buf), w.buf)
  {
    ghost var start := w.buf;
    assert WroteItems(List(max, Num(8)), Numbers(s[..0]), start, w.buf);
    hide WroteItems, Encode, Fits, LittleEndian;
    for i := 0 to |s|
      invariant WroteItems(List(max, Num(8)), Numbers(s[..i]), start, w.buf)
    {
      ghost var before := w.buf;
      w.U64(s[i]);
      WroteItem(List(max, Num(8)), Numbers(s[..i]), VNum(s[i]), start, before, w.buf);
      assert Numbers(s[..i + 1]) == Numbers(s[..i]) + [VNum(s[i])];
    }
    assert s[..|s|] == s;
  }

  lemma WroteList(s: Shape, items: seq<Value>, base: seq<byte>, start: seq<byte>, buf: seq<byte>)
    requires WroteItems(s, items, start, buf) && Fits(s, VSeq(items)) && start == base + LittleEndian(4, |items|)
    ensures buf == base + Encode(s, VSeq(items))
  {
    assert base + LittleEndian(4, |items|) + EncodeItems(s, items) == base + (LittleEndian(4, |items|) + EncodeItems(s, items));
  }

  method ReadNumbers(r: Reader, max: nat) returns (v: Option<seq<u64>>)
    requires r.Valid()
    modifies r`pos, r`ok
    ensures r.Valid()
    ensures v.Some? ==> old(r.ok) && r.ok && Reader.Gives(List(max, Num(8)), old(r.Rest()), VSeq(Numbers(v.value)), r.Rest())
    ensures v.None? && old(r.ok) ==> Decode(List(max, Num(8)), old(r.Rest())).None?
  {
    var shape := List(max, Num(8));
    var n := r.U32();
    if n.None? || n.value > max {
      return None;
    }
    ghost var start := r.Rest();
    var s: seq<u64> := [];
    ItemsBegin(shape, n.value, start);
    for i := 0 to n.value
      invariant r.Valid() && r.ok && |s| == i && ItemsSoFar(shape, n.value, i, start, Numbers(s), r.Rest())
    {
      NextItem(shape, n.value, i, start, Numbers(s), r.Rest());
      var x := r.U64();
      if x.None? {
        return None;
      }
      assert Numbers(s + [x.value]) == Numbers(s) + [VNum(x.value)];
      s := s + [x.value];
    }
    ItemsFinished(shape, n.value, start, Numbers(s), r.Rest());
    return Some(s);
  }
}
