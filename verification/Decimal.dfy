/** Decimal numbers as the text protocol writes and reads them. */
module Decimal {
  import opened Checked
  import opened Evidence

  predicate IsDigit(c: Byte) {
    '0' <= c <= '9'
  }

  function DigitOf(n: nat): Byte
    requires n < 10
  {
    (n + '0' as int) as char
  }

  function DigitValue(c: Byte): (d: nat)
    requires IsDigit(c)
    ensures d < 10
  {
    c as int - '0' as int
  }

  predicate AllDigits(text: Text) {
    forall i :: 0 <= i < |text| ==> IsDigit(text[i])
  }

  /** The shortest decimal form. */
  function Digits(n: nat): (text: Text)
    ensures text != []
  {
    if n < 10 then [DigitOf(n)] else Digits(n / 10) + [DigitOf(n % 10)]
  }

  /** The number a row of digits stands for. */
  function Evaluate(text: Text): nat
    requires AllDigits(text)
  {
    if text == [] then 0 else Evaluate(text[..|text| - 1]) * 10 + DigitValue(text[|text| - 1])
  }

  function Pow10(n: nat): nat {
    if n == 0 then 1 else 10 * Pow10(n - 1)
  }

  // ---- unsigned -----------------------------------------------------------------------------

  /** Up to twenty digits, leading zeros included, that stand for a 64-bit number. */
  function ParsedU64(text: Text): Option<u64> {
    if text == [] || |text| > 20 || !AllDigits(text) || Evaluate(text) > U64_MAX then None else Some(Evaluate(text))
  }

  lemma {:induction false} EvaluateGrows(a: Text, b: Text)
    requires AllDigits(a + b)
    ensures AllDigits(a) && Evaluate(a + b) >= Evaluate(a)
    decreases |b|
  {
    assert forall i :: 0 <= i < |a| ==> a[i] == (a + b)[i];
    if b == [] {
      assert a + b == a;
    } else {
      assert (a + b)[..|a + b| - 1] == a + b[..|b| - 1];
      EvaluateGrows(a, b[..|b| - 1]);
    }
  }

  /** The parser's loop, with the checked multiplication and addition that make it exact. */
  method ParseU64(text: Text) returns (r: Option<u64>)
    ensures r == ParsedU64(text)
  {
    if text == [] || |text| > 20 {
      return None;
    }
    var value: u64 := 0;
    for i := 0 to |text|
      invariant AllDigits(text[..i]) && value == Evaluate(text[..i])
    {
      var c := text[i];
      if !IsDigit(c) {
        return None;
      }
      assert text[..i + 1][..i] == text[..i];
      assert AllDigits(text[..i + 1]);
      if AllDigits(text) {
        assert text == text[..i + 1] + text[i + 1..];
        EvaluateGrows(text[..i + 1], text[i + 1..]);
      }
      var scaled := CheckedMul(value, 10);
      if scaled.overflow {
        return None;
      }
      var added := CheckedAdd(scaled.value, DigitValue(c));
      if added.overflow {
        return None;
      }
      value := added.value;
    }
    assert text[..|text|] == text;
    return Some(value);
  }

  lemma {:induction false} DigitsEvaluate(n: nat)
    ensures AllDigits(Digits(n)) && Evaluate(Digits(n)) == n
  {
    if n < 10 {
      assert Digits(n)[..0] == [];
    } else {
      DigitsEvaluate(n / 10);
      var text := Digits(n);
      assert text[..|text| - 1] == Digits(n / 10);
    }
  }

  lemma {:induction false} DigitsLength(n: nat, k: nat)
    requires n < Pow10(k) && k > 0
    ensures |Digits(n)| <= k
  {
    if n >= 10 {
      assert k > 1 by {
        assert Pow10(1) == 10 * Pow10(0);
      }
      DigitsLength(n / 10, k - 1);
    }
  }

  lemma TwentyDigits()
    ensures U64_MAX < Pow10(20)
  {
    assert Pow10(5) == 100000 by {
      assert Pow10(1) == 10 && Pow10(2) == 100 && Pow10(3) == 1000 && Pow10(4) == 10000;
    }
    assert Pow10(10) == 10000000000 by {
      assert Pow10(6) == 1000000 && Pow10(7) == 10000000 && Pow10(8) == 100000000 && Pow10(9) == 1000000000;
    }
    assert Pow10(15) == 1000000000000000 by {
      assert Pow10(11) == 100000000000 && Pow10(12) == 1000000000000 && Pow10(13) == 10000000000000 && Pow10(14) == 100000000000000;
    }
    assert Pow10(20) == 100000000000000000000 by {
      assert Pow10(16) == 10000000000000000 && Pow10(17) == 100000000000000000 && Pow10(18) == 1000000000000000000;
      assert Pow10(19) == 10000000000000000000;
    }
  }

  /** Every 64-bit number survives being printed and read. */
  lemma U64RoundTrip(n: u64)
    ensures ParsedU64(Digits(n)) == Some(n)
  {
    DigitsEvaluate(n);
    TwentyDigits();
    DigitsLength(n, 20);
  }

  // ---- signed -----------------------------------------------------------------------------------

  function Magnitude(n: i64): u64 {
    if n < 0 then 0 - (n as int) else n
  }

  function SignedDigits(n: i64): Text {
    if n < 0 then ['-'] + Digits(Magnitude(n)) else Digits(n)
  }

  function ParsedI64(text: Text): Option<i64> {
    if text == [] then None
    else
      var negative := text[0] == '-';
      var magnitude := ParsedU64(if negative then text[1..] else text);
      if magnitude.None? then None
      else if negative then (if magnitude.value > I64_MAX + 1 then None else Some(0 - (magnitude.value as int)))
      else if magnitude.value > I64_MAX then None
      else Some(magnitude.value)
  }

  method ParseI64(text: Text) returns (r: Option<i64>)
    ensures r == ParsedI64(text)
  {
    if text == [] {
      return None;
    }
    var negative, body := false, text;
    if body[0] == '-' {
      negative, body := true, body[1..];
    }
    var magnitude := ParseU64(body);
    if magnitude.None? {
      return None;
    }
    if negative {
      if magnitude.value > I64_MAX + 1 {
        return None;
      }
      return Some(if magnitude.value == I64_MAX + 1 then I64_MIN else 0 - (magnitude.value as int));
    }
    if magnitude.value > I64_MAX {
      return None;
    }
    return Some(magnitude.value);
  }

  /** Every signed 64-bit number survives, the least one included. */
  lemma I64RoundTrip(n: i64)
    ensures ParsedI64(SignedDigits(n)) == Some(n)
  {
    U64RoundTrip(Magnitude(n));
    DigitsEvaluate(Magnitude(n));
  }

  function ParsedU32(text: Text): Option<u32> {
    var n := ParsedU64(text);
    if n.None? || n.value > U32_MAX then None else Some(n.value)
  }

  /** "-" stands for a counter that was not supplied. */
  function ParsedCounter(text: Text): Option<Option<u64>> {
    if text == ['-'] then Some(None)
    else
      var n := ParsedU64(text);
      if n.None? then None else Some(Some(n.value))
  }

  function CounterText(n: Option<u64>): Text {
    if n.None? then ['-'] else Digits(n.value)
  }

  lemma CounterRoundTrip(n: Option<u64>)
    ensures ParsedCounter(CounterText(n)) == Some(n)
  {
    if n.Some? {
      U64RoundTrip(n.value);
      DigitsEvaluate(n.value);
      assert CounterText(n)[0] != '-' by {
        assert IsDigit(Digits(n.value)[0]);
      }
    }
  }
}
