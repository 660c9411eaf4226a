/** Splitting a text-protocol line into tokens, and why rendered tokens come back whatever they quote. */
module Tokens {
  import opened Checked
  import opened Evidence

  datatype Token = Token(key: Text, value: Text, quoted: bool, hasValue: bool)

  datatype Failure = TooManyTokens | BadEscape | Unterminated

  datatype Lexed = Lexed(tokens: seq<Token>) | LexFailed(error: Failure)

  datatype First = First(token: Token, rest: Text) | FirstFailed(error: Failure)

  predicate IsBlank(c: Byte) {
    c == ' ' || c == '\t'
  }

  // ---- what a line means ---------------------------------------------------------------------

  /** The number of leading blanks. */
  function Blanks(s: Text): (n: nat)
    ensures n <= |s|
    ensures n < |s| ==> !IsBlank(s[n])
  {
    if s == [] || !IsBlank(s[0]) then 0 else 1 + Blanks(s[1..])
  }

  /** The length of a key: up to '=', a blank, or the end. */
  function KeyLength(s: Text): (n: nat)
    ensures n <= |s|
  {
    if s == [] || s[0] == '=' || IsBlank(s[0]) then 0 else 1 + KeyLength(s[1..])
  }

  /** The length of an unquoted value: up to a blank or the end. */
  function BareLength(s: Text): (n: nat)
    ensures n <= |s|
  {
    if s == [] || IsBlank(s[0]) then 0 else 1 + BareLength(s[1..])
  }

  datatype Quoted = Closed(value: Text, rest: Text) | QuoteFailed(error: Failure)

  /** The value up to the closing quote; a backslash protects a quote or a backslash and nothing else. */
  function ReadQuoted(s: Text): (q: Quoted)
    ensures q.Closed? ==> |q.rest| < |s|
  {
    if s == [] then QuoteFailed(Unterminated)
    else if s[0] == '\\' && |s| > 1 then
      if s[1] == '"' || s[1] == '\\' then Prepend(s[1], ReadQuoted(s[2..])) else QuoteFailed(BadEscape)
    else if s[0] == '"' then Closed([], s[1..])
    else Prepend(s[0], ReadQuoted(s[1..]))
  }

  function Prepend(c: Byte, q: Quoted): Quoted {
    if q.Closed? then Closed([c] + q.value, q.rest) else q
  }

  /** What follows '=': a quoted value or a bare one. */
  function ReadValue(key: Text, after: Text): (r: First)
    ensures r.First? ==> |r.rest| <= |after|
  {
    if after != [] && after[0] == '"' then
      var q := ReadQuoted(after[1..]);
      if q.QuoteFailed? then FirstFailed(q.error) else First(Token(key, q.value, true, true), q.rest)
    else
      var n := BareLength(after);
      First(Token(key, after[..n], false, true), after[n..])
  }

  /** The first token of a line that does not begin with a blank, and what follows it. */
  function ReadToken(s: Text): (r: First)
    requires s != [] && !IsBlank(s[0])
    ensures r.First? ==> |r.rest| < |s|
  {
    var k := KeyLength(s);
    var key, rest := s[..k], s[k..];
    if rest == [] || rest[0] != '=' then First(Token(key, [], false, false), rest)
    else ReadValue(key, rest[1..])
  }

  /** The tokens of a line, at most `room` of them. */
  function Tokenized(s: Text, room: nat): Lexed
    decreases |s|
  {
    var t := s[Blanks(s)..];
    if t == [] then Lexed([])
    else if room == 0 then LexFailed(TooManyTokens)
    else
      var first := ReadToken(t);
      if first.FirstFailed? then LexFailed(first.error)
      else
        var rest := Tokenized(first.rest, room - 1);
        if rest.LexFailed? then rest else Lexed([first.token] + rest.tokens)
  }

  // ---- the tokenizer in place --------------------------------------------------------------------

  lemma SuffixStep(line: Text, i: nat)
    requires i < |line|
    ensures line[i..] == [line[i]] + line[i + 1..]
    ensures line[i..][0] == line[i] && line[i..][1..] == line[i + 1..]
  {
  }

  method SkipBlanks(line: Text, start: nat) returns (i: nat)
    requires start <= |line|
    ensures i == start + Blanks(line[start..])
    ensures start <= i <= |line| && (i < |line| ==> !IsBlank(line[i]))
  {
    i := start;
    while i < |line| && IsBlank(line[i])
      invariant start <= i <= |line| && start + Blanks(line[start..]) == i + Blanks(line[i..])
    {
      SuffixStep(line, i);
      i := i + 1;
    }
  }

  method ScanKey(line: Text, start: nat) returns (i: nat)
    requires start <= |line|
    ensures i == start + KeyLength(line[start..])
  {
    i := start;
    while i < |line| && line[i] != '=' && !IsBlank(line[i])
      invariant start <= i <= |line| && start + KeyLength(line[start..]) == i + KeyLength(line[i..])
    {
      SuffixStep(line, i);
      i := i + 1;
    }
  }

  method ScanBare(line: Text, start: nat) returns (i: nat)
    requires start <= |line|
    ensures i == start + BareLength(line[start..])
  {
    i := start;
    while i < |line| && !IsBlank(line[i])
      invariant start <= i <= |line| && start + BareLength(line[start..]) == i + BareLength(line[i..])
    {
      SuffixStep(line, i);
      i := i + 1;
    }
  }

  /** A value read so far, continued by what the rest of the line gives. */
  function Continue(value: Text, q: Quoted): Quoted {
    if q.Closed? then Closed(value + q.value, q.rest) else q
  }

  lemma ContinueStep(value: Text, c: Byte, q: Quoted)
    ensures Continue(value, Prepend(c, q)) == Continue(value + [c], q)
  {
    if q.Closed? {
      assert value + ([c] + q.value) == value + [c] + q.value;
    }
  }

  lemma QuotedStep(line: Text, i: nat)
    requires i < |line|
    ensures ReadQuoted(line[i..]) ==
              if line[i] == '\\' && i + 1 < |line| then
                if line[i + 1] == '"' || line[i + 1] == '\\' then Prepend(line[i + 1], ReadQuoted(line[i + 2..]))
                else QuoteFailed(BadEscape)
              else if line[i] == '"' then Closed([], line[i + 1..])
              else Prepend(line[i], ReadQuoted(line[i + 1..]))
  {
    SuffixStep(line, i);
    if i + 1 < |line| {
      assert line[i..][2..] == line[i + 2..];
    }
  }

  /** The characters from `start` to `i` gave `value`, and the value goes on at `i`. */
  ghost predicate QuotedSoFar(line: Text, start: nat, value: Text, i: nat) {
    start <= i <= |line| && ReadQuoted(line[start..]) == Continue(value, ReadQuoted(line[i..]))
  }

  lemma QuotedBegins(line: Text, start: nat)
    requires start <= |line|
    ensures QuotedSoFar(line, start, [], start)
  {
    ContinueNothing(ReadQuoted(line[start..]));
  }

  lemma QuotedAdvances(line: Text, start: nat, value: Text, i: nat)
    requires QuotedSoFar(line, start, value, i) && i < |line|
    ensures line[i] == '\\' && i + 1 < |line| && (line[i + 1] == '"' || line[i + 1] == '\\') ==>
              QuotedSoFar(line, start, value + [line[i + 1]], i + 2)
    ensures line[i] != '"' && !(line[i] == '\\' && i + 1 < |line|) ==> QuotedSoFar(line, start, value + [line[i]], i + 1)
  {
    QuotedStep(line, i);
    ContinueStep(value, line[i], ReadQuoted(line[i + 1..]));
    if i + 1 < |line| {
      ContinueStep(value, line[i + 1], ReadQuoted(line[i + 2..]));
    }
    hide ReadQuoted, Continue, Prepend;
  }

  lemma QuotedStops(line: Text, start: nat, value: Text, i: nat)
    requires QuotedSoFar(line, start, value, i)
    ensures i == |line| ==> ReadQuoted(line[start..]) == QuoteFailed(Unterminated)
    ensures i < |line| && line[i] == '"' ==> ReadQuoted(line[start..]) == Closed(value, line[i + 1..])
    ensures i + 1 < |line| && line[i] == '\\' && line[i + 1] != '"' && line[i + 1] != '\\' ==>
              ReadQuoted(line[start..]) == QuoteFailed(BadEscape)
  {
    if i < |line| {
      QuotedStep(line, i);
    } else {
      NothingLeft(line[i..]);
    }
    hide ReadQuoted;
    assert value + [] == value;
  }

  method ScanQuoted(line: Text, start: nat) returns (value: Text, i: nat, failure: Option<Failure>)
    requires start <= |line|
    ensures failure.None? ==> start <= i <= |line| && ReadQuoted(line[start..]) == Closed(value, line[i..])
    ensures failure.Some? ==> ReadQuoted(line[start..]) == QuoteFailed(failure.value)
  {
    value, i, failure := [], start, None;
    QuotedBegins(line, start);
    while i < |line|
      invariant start <= i <= |line| && failure.None?
      invariant QuotedSoFar(line, start, value, i)
    {
      hide ReadQuoted, QuotedSoFar;
      var c := line[i];
      QuotedAdvances(line, start, value, i);
      QuotedStops(line, start, value, i);
      if c == '\\' && i + 1 < |line| {
        var next := line[i + 1];
        if next == '"' || next == '\\' {
          value := value + [next];
          i := i + 2;
          continue;
        }
        failure := Some(BadEscape);
        return;
      }
      if c == '"' {
        i := i + 1;
        return;
      }
      value := value + [c];
      i := i + 1;
    }
    QuotedStops(line, start, value, i);
    failure := Some(Unterminated);
  }

  lemma NothingLeft(s: Text)
    ensures s == [] ==> ReadQuoted(s) == QuoteFailed(Unterminated)
  {
  }

  lemma ContinueNothing(q: Quoted)
    ensures Continue([], q) == q
  {
    if q.Closed? {
      assert [] + q.value == q.value;
    }
  }

  /** Did scanning from `start` end as reading what is there ends? */
  ghost predicate Scanned(line: Text, r: First, token: Token, start: nat, i: nat, failure: Option<Failure>) {
    match r
    case First(t, rest) => failure.None? && token == t && start <= i <= |line| && rest == line[i..]
    case FirstFailed(e) => failure == Some(e)
  }

  lemma QuotedValue(line: Text, start: nat, key: Text)
    requires start < |line| && line[start] == '"'
    ensures ReadValue(key, line[start..]) ==
              match ReadQuoted(line[start + 1..])
              case Closed(v, rest) => First(Token(key, v, true, true), rest)
              case QuoteFailed(e) => FirstFailed(e)
  {
    SuffixStep(line, start);
  }

  lemma BareValue(line: Text, start: nat, key: Text, i: nat)
    requires start <= |line| && i == start + BareLength(line[start..]) && (start < |line| ==> line[start] != '"')
    ensures ReadValue(key, line[start..]) == First(Token(key, line[start..i], false, true), line[i..])
  {
    assert line[start..][..i - start] == line[start..i] && line[start..][i - start..] == line[i..];
  }

  method ScanValue(line: Text, start: nat, key: Text) returns (token: Token, i: nat, failure: Option<Failure>)
    requires start <= |line|
    ensures Scanned(line, ReadValue(key, line[start..]), token, start, i, failure)
  {
    if start < |line| && line[start] == '"' {
      QuotedValue(line, start, key);
      var value;
      value, i, failure := ScanQuoted(line, start + 1);
      token := Token(key, value, true, true);
    } else {
      i := ScanBare(line, start);
      BareValue(line, start, key, i);
      token, failure := Token(key, line[start..i], false, true), None;
    }
  }

  method ScanToken(line: Text, start: nat) returns (token: Token, i: nat, failure: Option<Failure>)
    requires start < |line| && !IsBlank(line[start])
    ensures Scanned(line, ReadToken(line[start..]), token, start + 1, i, failure)
  {
    i := ScanKey(line, start);
    TokenCases(line, start, i);
    hide ReadToken, ReadValue, KeyLength, BareLength, ReadQuoted, Blanks;
    if i < |line| && line[i] == '=' {
      token, i, failure := ScanValue(line, i + 1, line[start..i]);
    } else {
      token, failure := Token(line[start..i], [], false, false), None;
    }
  }

  lemma TokenCases(line: Text, start: nat, k: nat)
    requires start < |line| && !IsBlank(line[start]) && k == start + KeyLength(line[start..])
    ensures ReadToken(line[start..]) == if k == |line| || line[k] != '=' then First(Token(line[start..k], [], false, false), line[k..])
                                        else ReadValue(line[start..k], line[k + 1..])
    ensures k > start || line[start] == '='
  {
    var s := line[start..];
    assert s[..k - start] == line[start..k] && s[k - start..] == line[k..];
    if k < |line| {
      SuffixStep(line, k);
    }
  }

  datatype Step = Finished | Got(token: Token, end: nat) | Failed(error: Failure)

  /** What the next token of a line is, given the room left for tokens. */
  ghost predicate IsStep(line: Text, start: nat, room: nat, step: Step)
    requires start <= |line|
  {
    match step
    case Finished => Tokenized(line[start..], room) == Lexed([])
    case Got(t, end) =>
      && room > 0 && start < end <= |line|
      && Tokenized(line[start..], room) == Joined([t], Tokenized(line[end..], room - 1))
    case Failed(e) => Tokenized(line[start..], room) == LexFailed(e)
  }

  /** The definition of Tokenized, once. */
  lemma TokenizedOnce(s: Text, room: nat)
    ensures Tokenized(s, room) == AfterBlanks(s[Blanks(s)..], room)
  {
    hide ReadToken, Blanks;
  }

  /** The tokens of a line that does not begin with a blank. */
  function AfterBlanks(t: Text, room: nat): Lexed
    requires t == [] || !IsBlank(t[0])
  {
    if t == [] then Lexed([])
    else if room == 0 then LexFailed(TooManyTokens)
    else
      var first := ReadToken(t);
      if first.FirstFailed? then LexFailed(first.error) else Joined([first.token], Tokenized(first.rest, room - 1))
  }

  lemma NothingMore(line: Text, start: nat, room: nat)
    requires start <= |line| && start + Blanks(line[start..]) == |line|
    ensures IsStep(line, start, room, Finished)
  {
    TokenizedOnce(line[start..], room);
    hide ReadToken, Blanks, Tokenized;
  }

  lemma NoRoom(line: Text, start: nat)
    requires start <= |line| && start + Blanks(line[start..]) < |line|
    ensures IsStep(line, start, 0, Failed(TooManyTokens))
  {
    TokenizedOnce(line[start..], 0);
    hide ReadToken, Blanks, Tokenized;
  }

  lemma OneMore(line: Text, start: nat, room: nat, n: nat, token: Token, end: nat, failure: Option<Failure>)
    requires start <= |line| && n == start + Blanks(line[start..]) && n < |line| && room > 0 && !IsBlank(line[n])
    requires Scanned(line, ReadToken(line[n..]), token, n + 1, end, failure)
    ensures IsStep(line, start, room, if failure.Some? then Failed(failure.value) else Got(token, end))
  {
    TokenizedOnce(line[start..], room);
    assert line[start..][n - start..] == line[n..];
    hide ReadToken, Blanks, Tokenized, Joined, IsBlank;
  }

  method NextToken(line: Text, start: nat, room: nat) returns (step: Step)
    requires start <= |line|
    ensures IsStep(line, start, room, step)
  {
    hide IsStep, Scanned, Tokenized, ReadToken, Blanks, IsBlank;
    var i := SkipBlanks(line, start);
    if i >= |line| {
      NothingMore(line, start, room);
      return Finished;
    }
    if room == 0 {
      NoRoom(line, start);
      return Failed(TooManyTokens);
    }
    var token, end, failure := ScanToken(line, i);
    OneMore(line, start, room, i, token, end, failure);
    return if failure.Some? then Failed(failure.value) else Got(token, end);
  }

  lemma StepJoins(line: Text, max: nat, tokens: seq<Token>, start: nat, room: nat, step: Step)
    requires start <= |line| && IsStep(line, start, room, step)
    requires Tokenized(line, max) == Joined(tokens, Tokenized(line[start..], room))
    ensures match step
            case Finished => Tokenized(line, max) == Lexed(tokens)
            case Got(t, end) => room > 0 && end <= |line| && Tokenized(line, max) == Joined(tokens + [t], Tokenized(line[end..], room - 1))
            case Failed(e) => Tokenized(line, max) == LexFailed(e)
  {
    hide Tokenized;
    match step
    case Finished => assert tokens + [] == tokens;
    case Got(t, end) => JoinedStep(tokens, t, Tokenized(line[end..], room - 1));
    case Failed(e) =>
  }

  ghost predicate Progress(line: Text, max: nat, tokens: seq<Token>, i: nat, room: nat) {
    i <= |line| && Tokenized(line, max) == Joined(tokens, Tokenized(line[i..], room))
  }

  lemma ProgressStart(line: Text, max: nat)
    ensures Progress(line, max, [], 0, max)
  {
    assert line[0..] == line;
    JoinedNothing(Tokenized(line, max));
  }

  lemma ProgressStep(line: Text, max: nat, tokens: seq<Token>, i: nat, room: nat, step: Step)
    requires Progress(line, max, tokens, i, room) && IsStep(line, i, room, step)
    ensures match step
            case Finished => Tokenized(line, max) == Lexed(tokens)
            case Got(t, end) => room > 0 && i < end <= |line| && Progress(line, max, tokens + [t], end, room - 1)
            case Failed(e) => Tokenized(line, max) == LexFailed(e)
  {
    StepJoins(line, max, tokens, i, room, step);
  }

  method Tokenize(line: Text, maxTokens: nat) returns (r: Lexed)
    ensures r == Tokenized(line, maxTokens)
  {
    hide Tokenized, Joined, IsStep, Progress;
    var tokens: seq<Token> := [];
    var i, room := 0, maxTokens;
    ProgressStart(line, maxTokens);
    var step := NextToken(line, 0, maxTokens);
    while step.Got?
      invariant i <= |line| && IsStep(line, i, room, step)
      invariant Progress(line, maxTokens, tokens, i, room)
      decreases |line| - i
    {
      ProgressStep(line, maxTokens, tokens, i, room, step);
      tokens, i, room := tokens + [step.token], step.end, room - 1;
      step := NextToken(line, i, room);
    }
    ProgressStep(line, maxTokens, tokens, i, room, step);
    return if step.Failed? then LexFailed(step.error) else Lexed(tokens);
  }

  lemma JoinedNothing(r: Lexed)
    ensures Joined([], r) == r
  {
    assert r.Lexed? ==> [] + r.tokens == r.tokens;
  }

  function Joined(tokens: seq<Token>, r: Lexed): Lexed {
    if r.LexFailed? then r else Lexed(tokens + r.tokens)
  }

  lemma JoinedStep(tokens: seq<Token>, t: Token, r: Lexed)
    ensures Joined(tokens, Joined([t], r)) == Joined(tokens + [t], r)
  {
    if r.Lexed? {
      assert tokens + ([t] + r.tokens) == tokens + [t] + r.tokens;
    }
  }

  // ---- rendering ------------------------------------------------------------------------------------

  function Escape(value: Text): Text {
    if value == [] then []
    else EscapeOne(value[0]) + Escape(value[1..])
  }

  function RenderToken(t: Token): Text {
    if !t.hasValue then t.key
    else if t.quoted then t.key + ['=', '"'] + Escape(t.value) + ['"']
    else t.key + ['='] + t.value
  }

  /** Tokens separated by single spaces. */
  function RenderAll(ts: seq<Token>): Text
    decreases |ts|, 0
  {
    if ts == [] then [] else RenderToken(ts[0]) + RenderTail(ts[1..])
  }

  function RenderTail(ts: seq<Token>): Text
    decreases |ts|, 1
  {
    if ts == [] then [] else [' '] + RenderAll(ts)
  }

  predicate NoBlank(s: Text) {
    forall i :: 0 <= i < |s| ==> !IsBlank(s[i])
  }

  /** Tokens that rendering does not confuse: nothing is asked of a quoted value. */
  predicate Plain(t: Token) {
    && NoBlank(t.key) && (forall i :: 0 <= i < |t.key| ==> t.key[i] != '=')
    && (t.hasValue || (t.key != [] && !t.quoted && t.value == []))
    && (t.hasValue && !t.quoted ==> NoBlank(t.value) && (t.value == [] || t.value[0] != '"'))
  }

  function EscapeOne(c: Byte): Text {
    if c == '"' || c == '\\' then ['\\', c] else [c]
  }

  lemma ByteRead(c: Byte, tail: Text)
    ensures ReadQuoted(EscapeOne(c) + tail) == Prepend(c, ReadQuoted(tail))
  {
    var s := EscapeOne(c) + tail;
    assert s[|EscapeOne(c)|..] == tail;
  }

  lemma QuoteCloses(rest: Text)
    ensures ReadQuoted(['"'] + rest) == Closed([], rest)
  {
    assert (['"'] + rest)[1..] == rest;
  }

  lemma Regroup(a: Text, b: Text, c: Text, d: Text)
    ensures (a + b) + c + d == a + (b + c + d)
  {
  }

  lemma {:induction false} EscapeRead(value: Text, rest: Text)
    ensures ReadQuoted(Escape(value) + ['"'] + rest) == Closed(value, rest)
  {
    if value == [] {
      QuoteCloses(rest);
      assert Escape(value) + ['"'] + rest == ['"'] + rest;
    } else {
      EscapeRead(value[1..], rest);
      ByteRead(value[0], Escape(value[1..]) + ['"'] + rest);
      Regroup(EscapeOne(value[0]), Escape(value[1..]), ['"'], rest);
      hide ReadQuoted, EscapeOne;
      assert Escape(value) == EscapeOne(value[0]) + Escape(value[1..]);
      assert [value[0]] + value[1..] == value;
    }
  }

  /** What may follow a token: nothing, or a blank. */
  predicate Ends(rest: Text) {
    rest == [] || IsBlank(rest[0])
  }

  lemma {:induction false} KeyRead(key: Text, rest: Text)
    requires NoBlank(key) && forall i :: 0 <= i < |key| ==> key[i] != '='
    requires rest == [] || rest[0] == '=' || IsBlank(rest[0])
    ensures KeyLength(key + rest) == |key|
  {
    if key == [] {
      assert key + rest == rest;
    } else {
      assert (key + rest)[0] == key[0] && (key + rest)[1..] == key[1..] + rest;
      KeyRead(key[1..], rest);
    }
  }

  lemma {:induction false} BareRead(value: Text, rest: Text)
    requires NoBlank(value) && Ends(rest)
    ensures BareLength(value + rest) == |value|
  {
    if value == [] {
      assert value + rest == rest;
    } else {
      assert (value + rest)[0] == value[0] && (value + rest)[1..] == value[1..] + rest;
      BareRead(value[1..], rest);
    }
  }

  /** The value part of a rendered token. */
  function RenderValue(t: Token): Text {
    if t.quoted then ['"'] + Escape(t.value) + ['"'] else t.value
  }

  lemma ValueRead(t: Token, rest: Text)
    requires Plain(t) && t.hasValue && Ends(rest)
    ensures ReadValue(t.key, RenderValue(t) + rest) == First(t, rest)
  {
    var after := RenderValue(t) + rest;
    if t.quoted {
      EscapeRead(t.value, rest);
      assert after[1..] == Escape(t.value) + ['"'] + rest;
    } else {
      BareRead(t.value, rest);
      assert after[..|t.value|] == t.value && after[|t.value|..] == rest;
    }
  }

  lemma KeyedRead(key: Text, after: Text)
    requires NoBlank(key) && forall i :: 0 <= i < |key| ==> key[i] != '='
    ensures var s := key + (['='] + after);
            s != [] && !IsBlank(s[0]) && ReadToken(s) == ReadValue(key, after)
  {
    var body := ['='] + after;
    var s := key + body;
    KeyRead(key, body);
    assert s[0] == if key == [] then '=' else key[0];
    hide ReadValue, KeyLength;
    assert s[..|key|] == key;
    assert s[|key|..] == body;
    assert body[1..] == after;
  }

  lemma RenderSplits(t: Token, rest: Text)
    requires t.hasValue
    ensures RenderToken(t) + rest == t.key + (['='] + (RenderValue(t) + rest))
  {
    if t.quoted {
      var e := Escape(t.value);
      hide Escape;
      assert t.key + ['=', '"'] + e + ['"'] + rest == t.key + (['='] + ((['"'] + e + ['"']) + rest));
    }
  }

  lemma ValuedTokenRead(t: Token, rest: Text)
    requires Plain(t) && Ends(rest) && t.hasValue
    ensures RenderToken(t) + rest != [] && !IsBlank((RenderToken(t) + rest)[0])
    ensures ReadToken(RenderToken(t) + rest) == First(t, rest)
  {
    RenderSplits(t, rest);
    KeyedRead(t.key, RenderValue(t) + rest);
    ValueRead(t, rest);
    hide ReadToken, ReadValue, RenderToken, RenderValue;
  }

  lemma TokenRead(t: Token, rest: Text)
    requires Plain(t) && Ends(rest)
    ensures RenderToken(t) != [] && !IsBlank(RenderToken(t)[0])
    ensures ReadToken(RenderToken(t) + rest) == First(t, rest)
  {
    var s := RenderToken(t) + rest;
    if t.hasValue {
      ValuedTokenRead(t, rest);
      hide ReadToken, Plain;
      assert s[0] == RenderToken(t)[0];
    } else {
      KeyRead(t.key, rest);
      hide ReadValue, KeyLength;
      assert s[..|t.key|] == t.key && s[|t.key|..] == rest;
    }
  }

  lemma TokenizedRendered(t: Token, rest: Text, room: nat)
    requires Plain(t) && Ends(rest) && room > 0
    ensures Tokenized(RenderToken(t) + rest, room) == Joined([t], Tokenized(rest, room - 1))
  {
    var s := RenderToken(t) + rest;
    TokenRead(t, rest);
    TokenizedOnce(s, room);
    NoBlanks(s) by {
      assert s[0] == RenderToken(t)[0];
    }
    hide ReadToken, RenderToken, Tokenized, Joined, Blanks;
  }

  lemma NoBlanks(s: Text)
    requires s != [] && !IsBlank(s[0])
    ensures s[Blanks(s)..] == s
  {
  }

  lemma BlankSkipped(rest: Text, room: nat)
    ensures Tokenized([' '] + rest, room) == Tokenized(rest, room)
  {
    TokenizedOnce([' '] + rest, room);
    TokenizedOnce(rest, room);
    OneBlank(rest);
    hide ReadToken, Tokenized, Joined, Blanks;
  }

  lemma OneBlank(rest: Text)
    ensures ([' '] + rest)[Blanks([' '] + rest)..] == rest[Blanks(rest)..]
  {
    var s := [' '] + rest;
    assert s[1..] == rest;
    assert s[1 + Blanks(rest)..] == rest[Blanks(rest)..];
  }

  lemma NothingTokenized(room: nat)
    ensures Tokenized([], room) == Lexed([])
  {
    TokenizedOnce([], room);
    hide Tokenized;
  }

  lemma TailEnds(ts: seq<Token>)
    ensures Ends(RenderTail(ts))
  {
    hide RenderAll;
  }

  lemma TailStep(ts: seq<Token>, room: nat)
    requires ts != []
    ensures Tokenized(RenderTail(ts), room) == Tokenized(RenderAll(ts), room)
  {
    BlankSkipped(RenderAll(ts), room);
    hide Tokenized, RenderAll;
  }

  lemma HeadAndTail(ts: seq<Token>)
    requires ts != []
    ensures RenderAll(ts) == RenderToken(ts[0]) + RenderTail(ts[1..])
  {
    hide RenderToken, RenderTail;
  }

  lemma JoinedOne(t: Token, ts: seq<Token>)
    requires ts != [] && t == ts[0]
    ensures Joined([t], Lexed(ts[1..])) == Lexed(ts)
  {
    assert [t] + ts[1..] == ts;
  }

  predicate AllPlain(ts: seq<Token>) {
    ts == [] || (Plain(ts[0]) && AllPlain(ts[1..]))
  }

  lemma RenderedStep(ts: seq<Token>, room: nat)
    requires ts != [] && Plain(ts[0]) && room > 0 && Tokenized(RenderTail(ts[1..]), room - 1) == Lexed(ts[1..])
    ensures Tokenized(RenderAll(ts), room) == Lexed(ts)
    ensures Tokenized(RenderTail(ts), room) == Lexed(ts)
  {
    hide Tokenized, RenderToken, RenderAll, RenderTail, Joined;
    HeadAndTail(ts);
    TailEnds(ts[1..]);
    TailStep(ts, room);
    TokenizedRendered(ts[0], RenderTail(ts[1..]), room);
    JoinedOne(ts[0], ts);
  }

  lemma NothingRendered()
    ensures RenderAll([]) == [] && RenderTail([]) == []
  {
  }

  /** Tokenizing any rendered tokens gives them back, whatever bytes their quoted values hold. */
  lemma {:induction false} RenderedTokensComeBack(ts: seq<Token>, room: nat)
    requires |ts| <= room && AllPlain(ts)
    ensures Tokenized(RenderAll(ts), room) == Lexed(ts)
    ensures Tokenized(RenderTail(ts), room) == Lexed(ts)
    decreases |ts|
  {
    NothingTokenized(room);
    NothingRendered();
    hide Tokenized, RenderAll, RenderTail;
    if ts != [] {
      RenderedTokensComeBack(ts[1..], room - 1);
      RenderedStep(ts, room);
    }
  }
}
