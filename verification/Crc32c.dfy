/** CRC-32C (Castagnoli), as section 12.1 of RFC 3720 prescribes it, by table and bit by bit. */
module Crc32c {
  import Bytes

  type byte = Bytes.byte

  const POLYNOMIAL: bv32 := 0x82F63B78

  // The word operations have names so that proofs about whole messages need not look inside them.

  function Xor(a: bv32, b: bv32): bv32 {
    a ^ b
  }

  function Widen(b: byte): bv32 {
    b as bv32
  }

  function Low(c: bv32): bv32 {
    c & 0xFF
  }

  function High(c: bv32): bv32 {
    c >> 8
  }

  function Raise(c: bv32): bv32 {
    c << 8
  }

  /** One bit of reflected polynomial division. */
  function BitStep(c: bv32): bv32 {
    if c & 1 != 0 then (c >> 1) ^ POLYNOMIAL else c >> 1
  }

  function BitSteps(n: nat, c: bv32): bv32
    decreases n
  {
    if n == 0 then c else BitSteps(n - 1, BitStep(c))
  }

  /** The reference: a byte enters at the low end and is divided out bit by bit. */
  function Feed(state: bv32, data: seq<byte>): bv32
    decreases |data|
  {
    if data == [] then state
    else Feed(BitSteps(8, Xor(state, Widen(data[0]))), data[1..])
  }

  const INITIAL: bv32 := 0xFFFF_FFFF

  function Checksum(data: seq<byte>): bv32 {
    Xor(Feed(INITIAL, data), 0xFFFF_FFFF)
  }

  // ---- word algebra ----------------------------------------------------------------------

  lemma XorAssoc(a: bv32, b: bv32, c: bv32)
    ensures Xor(Xor(a, b), c) == Xor(a, Xor(b, c))
  {
  }

  lemma XorZero(a: bv32)
    ensures Xor(a, 0) == a
  {
  }

  lemma XorCancel(s: bv32, t: bv32, b: bv32)
    requires Xor(s, b) == Xor(t, b)
    ensures s == t
  {
  }

  lemma XorCancelLeft(s: bv32, v: bv32, w: bv32)
    requires Xor(s, v) == Xor(s, w)
    ensures v == w
  {
  }

  lemma LowBit(x: bv32, y: bv32)
    ensures (x ^ y) & 1 == (x & 1) ^ (y & 1)
    ensures x & 1 == 0 || x & 1 == 1
  {
  }

  function Mask(c: bv32): bv32 {
    if c & 1 != 0 then POLYNOMIAL else 0
  }

  lemma MaskXor(x: bv32, y: bv32)
    ensures Mask(Xor(x, y)) == Xor(Mask(x), Mask(y))
  {
    LowBit(x, y);
    LowBit(y, x);
  }

  lemma StepIsMask(c: bv32)
    ensures BitStep(c) == Xor(Half(c), Mask(c))
  {
  }

  function Half(c: bv32): bv32 {
    c >> 1
  }

  lemma HalfDistributes(x: bv32, y: bv32)
    ensures (x ^ y) >> 1 == (x >> 1) ^ (y >> 1)
  {
  }

  lemma HalfXor(x: bv32, y: bv32)
    ensures Half(Xor(x, y)) == Xor(Half(x), Half(y))
  {
    HalfDistributes(x, y);
  }

  lemma XorComm(a: bv32, b: bv32)
    ensures Xor(a, b) == Xor(b, a)
  {
  }

  lemma XorSwap(a: bv32, b: bv32, p: bv32, q: bv32)
    ensures Xor(Xor(a, b), Xor(p, q)) == Xor(Xor(a, p), Xor(b, q))
  {
    hide Xor;
    XorAssoc(a, b, Xor(p, q));
    XorAssoc(b, p, q);
    XorComm(b, p);
    XorAssoc(p, b, q);
    XorAssoc(a, p, Xor(b, q));
  }

  // ---- the step is linear and loses nothing --------------------------------------------

  lemma BitStepXor(x: bv32, y: bv32)
    ensures BitStep(Xor(x, y)) == Xor(BitStep(x), BitStep(y))
  {
    hide Mask, BitStep, Xor, Half;
    StepIsMask(Xor(x, y));
    StepIsMask(x);
    StepIsMask(y);
    HalfXor(x, y);
    MaskXor(x, y);
    XorSwap(Half(x), Half(y), Mask(x), Mask(y));
  }

  lemma {:induction false} BitStepsXor(n: nat, x: bv32, y: bv32)
    ensures BitSteps(n, Xor(x, y)) == Xor(BitSteps(n, x), BitSteps(n, y))
    decreases n
  {
    hide BitStep, Xor;
    if n > 0 {
      BitStepXor(x, y);
      BitStepsXor(n - 1, BitStep(x), BitStep(y));
    }
  }

  lemma BitStepInjective(x: bv32, y: bv32)
    requires BitStep(x) == BitStep(y)
    ensures x == y
  {
  }

  lemma {:induction false} BitStepsInjective(n: nat, x: bv32, y: bv32)
    requires BitSteps(n, x) == BitSteps(n, y)
    ensures x == y
    decreases n
  {
    hide BitStep;
    if n > 0 {
      BitStepsInjective(n - 1, BitStep(x), BitStep(y));
      BitStepInjective(x, y);
    }
  }

  lemma {:induction false} BitStepsAdd(m: nat, n: nat, c: bv32)
    ensures BitSteps(m + n, c) == BitSteps(n, BitSteps(m, c))
    decreases m
  {
    hide BitStep;
    if m > 0 {
      BitStepsAdd(m - 1, n, BitStep(c));
    }
  }

  function Quarter(c: bv32): bv32 {
    c >> 2
  }

  predicate TwoClear(c: bv32) {
    c & 3 == 0
  }

  /** Two steps over two clear bits only shift. */
  lemma ShiftTwo(c: bv32)
    requires TwoClear(c)
    ensures BitSteps(2, c) == Quarter(c)
  {
    assert BitSteps(1, BitStep(c)) == BitStep(BitStep(c));
  }

  lemma FourPairs(c: bv32)
    requires Low(c) == 0
    ensures TwoClear(c) && TwoClear(Quarter(c)) && TwoClear(Quarter(Quarter(c))) && TwoClear(Quarter(Quarter(Quarter(c))))
    ensures Quarter(Quarter(Quarter(Quarter(c)))) == High(c)
  {
  }

  /** Eight steps over eight clear bits only shift. */
  lemma ShiftByte(c: bv32)
    requires Low(c) == 0
    ensures BitSteps(8, c) == High(c)
  {
    hide Low, High, BitSteps, Quarter, TwoClear;
    FourPairs(c);
    ShiftTwo(c);
    ShiftTwo(Quarter(c));
    ShiftTwo(Quarter(Quarter(c)));
    ShiftTwo(Quarter(Quarter(Quarter(c))));
    BitStepsAdd(2, 6, c);
    BitStepsAdd(2, 4, Quarter(c));
    BitStepsAdd(2, 2, Quarter(Quarter(c)));
  }

  // ---- the table -------------------------------------------------------------------------

  lemma SplitByte(x: bv32) returns (rest: bv32)
    ensures x == Xor(Low(x), rest) && Low(rest) == 0 && High(rest) == High(x)
  {
    rest := x & 0xFFFF_FF00;
  }

  lemma HighIgnoresByte(s: bv32, b: byte)
    ensures High(Xor(s, Widen(b))) == High(s)
  {
  }

  /** Looking the low byte up and shifting the rest is eight bit steps. */
  lemma TableStep(s: bv32, b: byte)
    ensures Xor(BitSteps(8, Low(Xor(s, Widen(b)))), High(s)) == BitSteps(8, Xor(s, Widen(b)))
  {
    hide BitSteps, Xor, Low, High, Widen;
    var x := Xor(s, Widen(b));
    var rest := SplitByte(x);
    HighIgnoresByte(s, b);
    BitStepsXor(8, Low(x), rest);
    ShiftByte(rest);
  }

  lemma {:induction false} LastBitStep(n: nat, c: bv32)
    ensures BitSteps(n + 1, c) == BitStep(BitSteps(n, c))
    decreases n
  {
    hide BitStep;
    if n > 0 {
      LastBitStep(n - 1, BitStep(c));
    }
  }

  /** The table entry of one byte. */
  function Entry(b: byte): bv32 {
    BitSteps(8, Widen(b))
  }

  ghost predicate IsTable(t: seq<bv32>) {
    |t| == 256 && forall i :: 0 <= i < 256 ==> t[i] == Entry(i as byte)
  }

  method BuildTable() returns (entries: seq<bv32>)
    ensures IsTable(entries)
  {
    hide Entry;
    entries := [];
    for i := 0 to 256
      invariant |entries| == i
      invariant forall j :: 0 <= j < i ==> entries[j] == Entry(j as byte)
    {
      var entry := BuildEntry(i as byte);
      entries := entries + [entry];
    }
  }

  method BuildEntry(b: byte) returns (crc: bv32)
    ensures crc == Entry(b)
  {
    var start := Widen(b);
    crc := start;
    for bit := 0 to 8
      invariant crc == BitSteps(bit, start)
    {
      LastBitStep(bit, start);
      crc := if crc & 1 != 0 then (crc >> 1) ^ POLYNOMIAL else crc >> 1;
    }
  }

  function LowByte(c: bv32): byte {
    (c & 0xFF) as byte
  }

  lemma LowByteWidens(c: bv32)
    ensures Widen(LowByte(c)) == Low(c)
  {
  }

  lemma Lookup(t: seq<bv32>, b: byte)
    requires IsTable(t)
    ensures 0 <= b as int < |t| && t[b as int] == Entry(b)
  {
    hide Entry;
    assert (b as int) as byte == b;
  }

  lemma {:induction false} FeedAppend(state: bv32, a: seq<byte>, b: seq<byte>)
    ensures Feed(state, a + b) == Feed(Feed(state, a), b)
    decreases |a|
  {
    hide BitSteps, Xor, Widen;
    if a == [] {
      assert a + b == b;
    } else {
      assert (a + b)[1..] == a[1..] + b;
      FeedAppend(BitSteps(8, Xor(state, Widen(a[0]))), a[1..], b);
    }
  }

  lemma FeedOne(state: bv32, data: seq<byte>, i: nat, start: bv32)
    requires i < |data| && state == Feed(start, data[..i])
    ensures Feed(start, data[..i + 1]) == BitSteps(8, Xor(state, Widen(data[i])))
  {
    hide BitSteps, Xor, Widen;
    assert data[..i + 1] == data[..i] + [data[i]];
    FeedAppend(start, data[..i], [data[i]]);
    assert [data[i]][1..] == [];
    assert Feed(state, [data[i]]) == Feed(BitSteps(8, Xor(state, Widen(data[i]))), []);
  }

  method FeedByTable(t: seq<bv32>, start: bv32, data: seq<byte>) returns (state: bv32)
    requires IsTable(t)
    ensures state == Feed(start, data)
  {
    hide BitSteps, Xor, High, Low, LowByte, Widen, IsTable;
    state := start;
    for i := 0 to |data|
      invariant state == Feed(start, data[..i])
    {
      var index := LowByte(Xor(state, Widen(data[i])));
      Lookup(t, index);
      LowByteWidens(Xor(state, Widen(data[i])));
      TableStep(state, data[i]);
      FeedOne(state, data, i, start);
      state := Xor(t[index as int], High(state));
    }
    assert data[..|data|] == data;
  }

  /** The running checksum of the runtime: however the data is cut up, it ends where the reference ends. */
  class Crc {
    const entries: seq<bv32>
    var state: bv32
    ghost var fed: seq<byte>

    ghost predicate Valid()
      reads this
    {
      && IsTable(entries)
      && state == Feed(INITIAL, fed)
    }

    constructor ()
      ensures Valid() && fed == []
    {
      var table := BuildTable();
      entries := table;
      state := INITIAL;
      fed := [];
    }

    method Update(data: seq<byte>)
      requires Valid()
      modifies this
      ensures Valid() && fed == old(fed) + data
    {
      hide Feed, IsTable;
      var next := FeedByTable(entries, state, data);
      FeedAppend(INITIAL, fed, data);
      state := next;
      fed := fed + data;
    }

    method Value() returns (crc: bv32)
      requires Valid()
      ensures crc == Checksum(fed)
    {
      crc := Xor(state, 0xFFFF_FFFF);
    }
  }

  // ---- what a checksum detects -----------------------------------------------------------

  /** Up to four bytes as one little-endian word. */
  function Word(w: seq<byte>): bv32 {
    if w == [] then 0 else Xor(Widen(w[0]), Raise(Word(w[1..])))
  }

  lemma RaisedHasRoom(y: bv32)
    requires y < 0x100_0000
    ensures Low(Raise(y)) == 0 && High(Raise(y)) == y
  {
  }

  lemma WordGrows(b: byte, y: bv32)
    ensures y < 0x100 ==> Xor(Widen(b), Raise(y)) < 0x1_0000
    ensures y < 0x1_0000 ==> Xor(Widen(b), Raise(y)) < 0x100_0000
    ensures Xor(Widen(b), Raise(0)) < 0x100
  {
  }

  lemma {:induction false} WordBound(w: seq<byte>)
    requires |w| <= 3
    ensures Word(w) < 0x100_0000
    ensures |w| <= 2 ==> Word(w) < 0x1_0000
    ensures |w| <= 1 ==> Word(w) < 0x100
  {
    hide Xor, Widen, Raise;
    if w != [] {
      WordBound(w[1..]);
      WordGrows(w[0], Word(w[1..]));
      assert |w| == 1 ==> w[1..] == [];
    }
  }

  lemma ByteApart(a: byte, b: byte, x: bv32, y: bv32)
    requires Xor(Widen(a), Raise(x)) == Xor(Widen(b), Raise(y))
    ensures a == b && Raise(x) == Raise(y)
  {
    assert Low(Xor(Widen(a), Raise(x))) == Widen(a);
    assert Low(Xor(Widen(b), Raise(y))) == Widen(b);
  }

  lemma {:induction false} WordInjective(v: seq<byte>, w: seq<byte>)
    requires |v| == |w| <= 4 && Word(v) == Word(w)
    ensures v == w
  {
    hide Xor, Widen, Raise, Low, High;
    if v != [] {
      ByteApart(v[0], w[0], Word(v[1..]), Word(w[1..]));
      WordBound(v[1..]);
      WordBound(w[1..]);
      RaisedHasRoom(Word(v[1..]));
      RaisedHasRoom(Word(w[1..]));
      WordInjective(v[1..], w[1..]);
      assert v == [v[0]] + v[1..] && w == [w[0]] + w[1..];
    }
  }

  /** Four bytes or fewer enter as one word. */
  lemma {:induction false} FeedWord(s: bv32, w: seq<byte>)
    requires |w| <= 4
    ensures Feed(s, w) == BitSteps(8 * |w|, Xor(s, Word(w)))
    decreases |w|
  {
    hide BitSteps, Xor, Widen, Raise, Low, High;
    if w == [] {
      XorZero(s);
      assert BitSteps(0, s) == s by { NoSteps(s); }
    } else {
      var rest := Word(w[1..]);
      var x := Xor(s, Widen(w[0]));
      FeedWord(BitSteps(8, x), w[1..]);
      WordBound(w[1..]);
      RaisedHasRoom(rest);
      ShiftByte(Raise(rest));
      BitStepsXor(8, x, Raise(rest));
      BitStepsAdd(8, 8 * |w[1..]|, Xor(x, Raise(rest)));
      XorAssoc(s, Widen(w[0]), Raise(rest));
    }
  }

  lemma NoSteps(s: bv32)
    ensures BitSteps(0, s) == s
  {
  }

  lemma {:induction false} FeedInjective(s: bv32, t: bv32, data: seq<byte>)
    requires Feed(s, data) == Feed(t, data)
    ensures s == t
    decreases |data|
  {
    hide BitSteps, Xor, Widen;
    if data != [] {
      var b := Widen(data[0]);
      FeedInjective(BitSteps(8, Xor(s, b)), BitSteps(8, Xor(t, b)), data[1..]);
      BitStepsInjective(8, Xor(s, b), Xor(t, b));
      XorCancel(s, t, b);
    }
  }

  /** Any change confined to four consecutive bytes changes the checksum. */
  lemma BurstDetected(before: seq<byte>, v: seq<byte>, w: seq<byte>, after: seq<byte>)
    requires |v| == |w| <= 4 && v != w
    ensures Checksum(before + v + after) != Checksum(before + w + after)
  {
    hide BitSteps, Word, Feed, Xor;
    FeedAppend(INITIAL, before + v, after);
    FeedAppend(INITIAL, before + w, after);
    FeedAppend(INITIAL, before, v);
    FeedAppend(INITIAL, before, w);
    var s := Feed(INITIAL, before);
    if Checksum(before + v + after) == Checksum(before + w + after) {
      XorCancel(Feed(Feed(s, v), after), Feed(Feed(s, w), after), 0xFFFF_FFFF);
      FeedInjective(Feed(s, v), Feed(s, w), after);
      FeedWord(s, v);
      FeedWord(s, w);
      BitStepsInjective(8 * |v|, Xor(s, Word(v)), Xor(s, Word(w)));
      XorCancelLeft(s, Word(v), Word(w));
      WordInjective(v, w);
      assert false;
    }
  }
}
