/** Fixed-width integers and the saturating arithmetic every accounting path uses. */
module Checked {
  const U64_MAX: int := 0xFFFF_FFFF_FFFF_FFFF
  const U32_MAX: int := 0xFFFF_FFFF
  const I64_MAX: int := 0x7FFF_FFFF_FFFF_FFFF
  const I64_MIN: int := -0x8000_0000_0000_0000

  /** The number of values of an unsigned 64-bit integer, modulo which its arithmetic wraps. */
  const WORD: nat := 0x1_0000_0000_0000_0000

  type u64 = x: int | 0 <= x <= U64_MAX
  type u32 = x: int | 0 <= x <= U32_MAX
  type i64 = x: int | I64_MIN <= x <= I64_MAX

  datatype Option<+T> = None | Some(value: T)

  /** A value and whether the mathematical result failed to fit. */
  datatype Checked<+T> = Checked(value: T, overflow: bool)

  /** The nearest 64-bit unsigned value to a natural number. */
  function Saturate(n: nat): u64 {
    if n > U64_MAX then U64_MAX else n
  }

  /** The nearest 64-bit signed value to an integer. */
  function Clamp(n: int): i64 {
    if n < I64_MIN then I64_MIN else if n > I64_MAX then I64_MAX else n
  }

  /** The wrap-around `++` of an unsigned 32-bit counter. */
  function Inc32(n: u32): u32 {
    if n == U32_MAX then 0 else n + 1
  }

  /** The low 32 bits of a natural number. */
  function Wrap32(n: nat): u32 {
    n % (U32_MAX + 1)
  }

  /** The low 64 bits of a natural number. */
  function Wrap64(n: nat): u64 {
    n % (U64_MAX + 1)
  }

  lemma WrapNext(n: nat)
    ensures Inc32(Wrap32(n)) == Wrap32(n + 1)
    ensures Inc64(Wrap64(n)) == Wrap64(n + 1)
  {
  }

  /** The wrap-around `++` of an unsigned 64-bit counter. */
  function Inc64(n: u64): u64 {
    if n == U64_MAX then 0 else n + 1
  }

  function CheckedAdd(a: u64, b: u64): (r: Checked<u64>)
    ensures r.value == Saturate(a + b)
    ensures r.overflow <==> a + b > U64_MAX
  {
    if a > U64_MAX - b then Checked(U64_MAX, true) else Checked(a + b, false)
  }

  lemma QuotientBound(a: nat, b: nat, m: nat)
    requires b > 0
    ensures a > m / b <==> a * b > m
  {
    var q := m / b;
    assert m == q * b + m % b;
    if a > q {
      assert a * b >= (q + 1) * b;
    } else {
      assert a * b <= q * b;
    }
  }

  lemma MulGrows(q: nat, d: nat)
    requires d > 0
    ensures q * d >= q
  {
    assert q * d == q * (d - 1) + q;
  }

  lemma QuotientLe(n: nat, d: nat)
    requires d > 0
    ensures 0 <= n / d <= n
  {
    var q := n / d;
    assert n == q * d + n % d;
    assert q * d >= q by { MulGrows(q, d); }
  }

  function CheckedMul(a: u64, b: u64): (r: Checked<u64>)
    ensures r.value == Saturate(a * b)
    ensures r.overflow <==> a * b > U64_MAX
  {
    if a == 0 || b == 0 then Checked(0, false)
    else
      QuotientBound(a, b, U64_MAX);
      if a > U64_MAX / b then Checked(U64_MAX, true) else Checked(a * b, false)
  }

  function CheckedMulDiv(value: u64, num: u64, den: u64): (r: Checked<u64>)
    ensures r.overflow <==> den == 0 || value * num > U64_MAX
    ensures !r.overflow ==> r.value == value * num / den
  {
    if den == 0 then Checked(0, true)
    else
      var product := CheckedMul(value, num);
      if product.overflow then product else
        QuotientLe(product.value, den);
        Checked(product.value / den, false)
  }

  // ---- signed arithmetic on magnitudes -------------------------------------

  /** The integer with this sign and this magnitude. */
  function Signed(negative: bool, magnitude: int): int {
    if negative then 0 - magnitude else magnitude
  }

  function SignedMagnitude(v: i64): (m: u64)
    ensures v == Signed(v < 0, m)
  {
    if v >= 0 then v else -(v + 1) + 1
  }

  function SignedFrom(negative: bool, magnitude: u64): (r: Checked<i64>)
    ensures var exact := Signed(negative, magnitude);
            r.value == Clamp(exact) && (r.overflow <==> exact != Clamp(exact))
  {
    if negative then
      if magnitude > I64_MAX + 1 then Checked(I64_MIN, true)
      else if magnitude == I64_MAX + 1 then Checked(I64_MIN, false)
      else Checked(Signed(true, magnitude), false)
    else if magnitude > I64_MAX then Checked(I64_MAX, true)
    else Checked(magnitude, false)
  }

  /** The common core of the signed sum and difference: two signs and two magnitudes. */
  function AddMagnitudes(aNegative: bool, a: u64, bNegative: bool, b: u64): (r: Checked<i64>)
    ensures var exact := Signed(aNegative, a) + Signed(bNegative, b);
            r.value == Clamp(exact) && (r.overflow <==> exact != Clamp(exact))
  {
    if aNegative == bNegative then
      var sum := CheckedAdd(a, b);
      if sum.overflow then Checked(if aNegative then I64_MIN else I64_MAX, true)
      else SignedFrom(aNegative, sum.value)
    else if a >= b then SignedFrom(aNegative, a - b)
    else SignedFrom(bNegative, b - a)
  }

  function CheckedAddSigned(a: i64, b: i64): (r: Checked<i64>)
    ensures r.value == Clamp(a + b) && (r.overflow <==> a + b != Clamp(a + b))
  {
    AddMagnitudes(a < 0, SignedMagnitude(a), b < 0, SignedMagnitude(b))
  }

  function CheckedSubSigned(a: i64, b: i64): (r: Checked<i64>)
    ensures r.value == Clamp(a - b) && (r.overflow <==> a - b != Clamp(a - b))
  {
    AddMagnitudes(a < 0, SignedMagnitude(a), b >= 0, SignedMagnitude(b))
  }

  /** `later - earlier`, never wrapping: the exact difference clamped to 64 bits. */
  function TimeDifference(later: i64, earlier: i64): (d: i64)
    ensures d == Clamp(later - earlier)
  {
    var difference := CheckedSubSigned(later, earlier);
    if difference.overflow then (if difference.value < 0 then I64_MIN else I64_MAX)
    else difference.value
  }

  /** `base + delta`, never wrapping. */
  function TimeAdd(base: i64, delta: i64): (t: i64)
    ensures t == Clamp(base + delta)
  {
    var sum := CheckedAddSigned(base, delta);
    if sum.overflow then (if sum.value < 0 then I64_MIN else I64_MAX) else sum.value
  }
}
