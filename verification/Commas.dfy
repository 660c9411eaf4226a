/** Comma-separated lists inside a text-protocol value. */
module Commas {
  import opened Checked
  import opened Evidence
  import opened Decimal

  /** The length up to the first comma, or the whole length. */
  function UpToComma(s: Text): (n: nat)
    ensures n <= |s|
    ensures n < |s| ==> s[n] == ','
  {
    if s == [] || s[0] == ',' then 0 else 1 + UpToComma(s[1..])
  }

  predicate NoComma(s: Text) {
    forall i :: 0 <= i < |s| ==> s[i] != ','
  }

  /** Parts separated by commas. */
  function Join(parts: seq<Text>): Text {
    if parts == [] then []
    else if |parts| == 1 then parts[0]
    else parts[0] + ([','] + Join(parts[1..]))
  }

  lemma {:induction false} FindsComma(part: Text, rest: Text)
    requires NoComma(part) && (rest == [] || rest[0] == ',')
    ensures UpToComma(part + rest) == |part|
  {
    if part == [] {
      assert part + rest == rest;
    } else {
      assert (part + rest)[0] == part[0] && (part + rest)[1..] == part[1..] + rest;
      FindsComma(part[1..], rest);
    }
  }

  // ---- lists of numbers -------------------------------------------------------------------------

  function Texts(ns: seq<u64>): (parts: seq<Text>)
    ensures |parts| == |ns|
    ensures forall i :: 0 <= i < |ns| ==> parts[i] == Digits(ns[i])
  {
    seq(|ns|, i requires 0 <= i < |ns| => Digits(ns[i]))
  }

  /** The numbers of a list; one comma may trail it. */
  function ParsedNumbers(rest: Text): Option<seq<u64>>
    decreases |rest|
  {
    if rest == [] then Some([])
    else
      var n := UpToComma(rest);
      var first := ParsedU64(rest[..n]);
      if first.None? then None
      else if n == |rest| then Some([first.value])
      else
        var more := ParsedNumbers(rest[n + 1..]);
        if more.None? then None else Some([first.value] + more.value)
  }

  method FindComma(s: Text, start: nat) returns (i: nat)
    requires start <= |s|
    ensures start <= i <= |s| && i == start + UpToComma(s[start..])
  {
    i := start;
    while i < |s| && s[i] != ','
      invariant start <= i <= |s| && start + UpToComma(s[start..]) == i + UpToComma(s[i..])
    {
      assert s[i..] == [s[i]] + s[i + 1..];
      i := i + 1;
    }
  }

  /** The numbers read so far, followed by those of the rest. */
  function Followed(ns: seq<u64>, more: Option<seq<u64>>): Option<seq<u64>> {
    if more.None? then None else Some(ns + more.value)
  }

  lemma NumbersOnce(rest: Text)
    requires rest != []
    ensures var n := UpToComma(rest);
            var first := ParsedU64(rest[..n]);
            ParsedNumbers(rest) == if first.None? then None
                                   else if n == |rest| then Some([first.value])
                                   else Followed([first.value], ParsedNumbers(rest[n + 1..]))
  {
    hide UpToComma, ParsedU64;
  }

  /** What has been read of the list, and what is left to read. */
  ghost predicate ReadSoFar(text: Text, ns: seq<u64>, rest: Text) {
    ParsedNumbers(text) == Followed(ns, ParsedNumbers(rest))
  }

  lemma ReadBegins(text: Text)
    ensures ReadSoFar(text, [], text)
  {
    FollowedNothing(ParsedNumbers(text));
  }

  lemma ReadOne(text: Text, ns: seq<u64>, rest: Text, comma: nat)
    requires ReadSoFar(text, ns, rest) && rest != [] && comma == UpToComma(rest)
    ensures match ParsedU64(rest[..comma])
            case None => ParsedNumbers(text) == None
            case Some(n) => if comma == |rest| then ParsedNumbers(text) == Some(ns + [n]) else ReadSoFar(text, ns + [n], rest[comma + 1..])
  {
    NumbersOnce(rest);
    hide ParsedNumbers, UpToComma, ParsedU64;
    var n := ParsedU64(rest[..comma]);
    if n.Some? && comma < |rest| {
      FollowedStep(ns, n.value, ParsedNumbers(rest[comma + 1..]));
    }
  }

  lemma ReadEnds(text: Text, ns: seq<u64>)
    requires ReadSoFar(text, ns, [])
    ensures ParsedNumbers(text) == Some(ns)
  {
    assert ns + [] == ns;
  }

  method ParseNumbers(text: Text) returns (r: Option<seq<u64>>)
    ensures r == ParsedNumbers(text)
  {
    var rest, ns := text, [];
    ReadBegins(text);
    while rest != []
      invariant ReadSoFar(text, ns, rest)
      decreases |rest|
    {
      hide ParsedNumbers, UpToComma, ParsedU64, ReadSoFar;
      var comma := FindComma(rest, 0);
      assert rest[0..] == rest;
      ReadOne(text, ns, rest, comma);
      var n := ParseU64(rest[..comma]);
      if n.None? {
        return None;
      }
      ns := ns + [n.value];
      if comma == |rest| {
        return Some(ns);
      }
      rest := rest[comma + 1..];
    }
    ReadEnds(text, ns);
    return Some(ns);
  }

  lemma FollowedNothing(more: Option<seq<u64>>)
    ensures Followed([], more) == more
  {
    assert more.Some? ==> [] + more.value == more.value;
  }

  lemma FollowedStep(ns: seq<u64>, n: u64, more: Option<seq<u64>>)
    ensures Followed(ns, Followed([n], more)) == Followed(ns + [n], more)
  {
    if more.Some? {
      assert ns + ([n] + more.value) == ns + [n] + more.value;
    }
  }

  lemma DigitsNoComma(n: u64)
    ensures NoComma(Digits(n))
  {
    DigitsEvaluate(n);
    hide Digits;
    forall i | 0 <= i < |Digits(n)| ensures Digits(n)[i] != ',' {
      assert IsDigit(Digits(n)[i]);
    }
  }

  /** A printed list of numbers is read back as it was. */
  lemma {:induction false} NumbersRoundTrip(ns: seq<u64>)
    ensures ParsedNumbers(Join(Texts(ns))) == Some(ns)
    decreases |ns|
  {
    if ns != [] {
      var parts := Texts(ns);
      DigitsNoComma(ns[0]);
      U64RoundTrip(ns[0]);
      hide ParsedU64, Digits;
      if |ns| == 1 {
        FindsComma(parts[0], []);
        assert parts[0] + [] == parts[0];
        NumbersOnce(parts[0]);
        assert parts[0][..|parts[0]|] == parts[0];
        assert ns == [ns[0]];
      } else {
        NumbersRoundTrip(ns[1..]);
        assert parts[1..] == Texts(ns[1..]);
        var rest := [','] + Join(parts[1..]);
        var s := parts[0] + rest;
        assert Join(parts) == s;
        FindsComma(parts[0], rest);
        NumbersOnce(s);
        assert s[..|parts[0]|] == parts[0] && s[|parts[0]| + 1..] == Join(parts[1..]);
        assert ns == [ns[0]] + ns[1..];
      }
    }
  }

  // ---- lists of names ------------------------------------------------------------------------------

  /** Every part, empty ones included. */
  function Split(s: Text): (parts: seq<Text>)
    ensures parts != []
    decreases |s|
  {
    var n := UpToComma(s);
    if n == |s| then [s] else [s[..n]] + Split(s[n + 1..])
  }

  lemma SplitFirst(part: Text, rest: Text)
    requires NoComma(part)
    ensures Split(part + ([','] + rest)) == [part] + Split(rest)
    ensures Split(part) == [part]
  {
    var tail := [','] + rest;
    var s := part + tail;
    FindsComma(part, tail);
    FindsComma(part, []);
    assert part + [] == part;
    hide UpToComma;
    assert s[..|part|] == part && s[|part| + 1..] == rest;
  }

  lemma {:induction false} SplitJoin(parts: seq<Text>)
    requires parts != [] && forall i :: 0 <= i < |parts| ==> NoComma(parts[i])
    ensures Split(Join(parts)) == parts
    decreases |parts|
  {
    hide Split, NoComma;
    if |parts| == 1 {
      SplitFirst(parts[0], []);
      assert parts == [parts[0]];
    } else {
      SplitFirst(parts[0], Join(parts[1..]));
      SplitJoin(parts[1..]);
      assert parts == [parts[0]] + parts[1..];
    }
  }
}
