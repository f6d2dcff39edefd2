/** Strings as the C library and the Java class library take them apart. */
module Text {
  import opened Collections

  // ---------- Prefixes: strncmp ----------

  /** A prefix test on a text that starts with another literal is decided where they differ. */
  lemma NotPrefix(p: string, q: string, rest: string, i: nat)
    requires i < |p| && i < |q| && p[i] != q[i]
    ensures !(p <= q + rest)
  {
    assert (q + rest)[i] == q[i];
  }

  lemma IsPrefix(p: string, rest: string)
    ensures p <= p + rest && (p + rest)[|p|..] == rest
  {
  }

  // ---------- Tokens: strtok and StringTokenizer ----------

  /** The length of the longest prefix without a delimiter. */
  function Span(s: string, delims: set<char>): (k: nat)
    ensures k <= |s|
    ensures forall i :: 0 <= i < k ==> s[i] !in delims
    ensures k < |s| ==> s[k] in delims
  {
    if s == [] || s[0] in delims then 0 else 1 + Span(s[1..], delims)
  }

  /** The maximal stretches without delimiters, in order. */
  function Tokens(s: string, delims: set<char>): seq<string>
    decreases |s|
  {
    if s == [] then []
    else if s[0] in delims then Tokens(s[1..], delims)
    else
      var k := Span(s, delims);
      [s[..k]] + Tokens(s[k..], delims)
  }

  lemma TokensNone(delims: set<char>)
    ensures Tokens([], delims) == []
  {
  }

  predicate Clean(s: string, delims: set<char>) {
    s != [] && forall i :: 0 <= i < |s| ==> s[i] !in delims
  }

  lemma SpanIs(s: string, delims: set<char>, k: nat)
    requires k <= |s| && (forall i :: 0 <= i < k ==> s[i] !in delims) && (k < |s| ==> s[k] in delims)
    ensures Span(s, delims) == k
  {
  }

  /** A clean stretch in front of the end or of a delimiter is the first token. */
  lemma TokenFirst(a: string, rest: string, delims: set<char>)
    requires Clean(a, delims) && (rest == [] || rest[0] in delims)
    ensures Tokens(a + rest, delims) == [a] + Tokens(rest, delims)
  {
    var s := a + rest;
    assert s[0] == a[0];
    SpanIs(s, delims, |a|);
    assert s[..|a|] == a && s[|a|..] == rest;
  }

  lemma TokenSkip(c: char, rest: string, delims: set<char>)
    requires c in delims
    ensures Tokens([c] + rest, delims) == Tokens(rest, delims)
  {
    assert ([c] + rest)[1..] == rest;
  }

  /** A token, its delimiter, and what follows. */
  lemma TokenThen(a: string, c: char, rest: string, delims: set<char>)
    requires Clean(a, delims) && c in delims
    ensures Tokens(a + [c] + rest, delims) == [a] + Tokens(rest, delims)
  {
    assert a + [c] + rest == a + ([c] + rest);
    TokenFirst(a, [c] + rest, delims);
    TokenSkip(c, rest, delims);
  }

  /** Delimiters at the end make no token. */
  lemma {:induction false} TokensEnd(s: string, c: char, delims: set<char>)
    requires c in delims
    ensures Tokens(s + [c], delims) == Tokens(s, delims)
    decreases |s|
  {
    var t := s + [c];
    if s == [] {
      TokenSkip(c, [], delims);
      assert t == [c] + [];
    } else if s[0] in delims {
      assert t[1..] == s[1..] + [c];
      TokensEnd(s[1..], c, delims);
    } else {
      var k := Span(s, delims);
      SpanIs(t, delims, k);
      assert t[..k] == s[..k] && t[k..] == s[k..] + [c];
      TokensEnd(s[k..], c, delims);
    }
  }

  /** A string that hands out its tokens one at a time. */
  class Tokenizer {
    const text: string
    const delims: set<char>
    var pos: nat

    ghost predicate Valid()
      reads this
    {
      pos <= |text|
    }

    ghost function Rest(): seq<string>
      requires Valid()
      reads this
    {
      Tokens(text[pos..], delims)
    }

    constructor (text: string, delims: set<char>)
      ensures Valid() && Rest() == Tokens(text, delims)
    {
      this.text, this.delims, pos := text, delims, 0;
      new;
      assert text[0..] == text;
    }

    /** strtok(NULL, delims), nextToken(): skip delimiters, then take up to the next one. */
    method Next() returns (r: Option<string>)
      requires Valid()
      modifies this
      ensures Valid()
      ensures r.None? ==> old(Rest()) == [] && Rest() == []
      ensures r.Some? ==> old(Rest()) == [r.value] + Rest()
    {
      hide Tokens, Span;
      TokensNone(delims);
      while pos < |text| && text[pos] in delims
        invariant Valid() && Rest() == old(Rest())
      {
        TokenSkip(text[pos], text[pos + 1..], delims);
        assert text[pos..] == [text[pos]] + text[pos + 1..];
        pos := pos + 1;
      }
      if pos == |text| {
        return None;
      }
      var start := pos;
      while pos < |text| && text[pos] !in delims
        invariant start <= pos <= |text|
        invariant forall i :: start <= i < pos ==> text[i] !in delims
      {
        pos := pos + 1;
      }
      TokenFirst(text[start..pos], text[pos..], delims);
      assert text[start..] == text[start..pos] + text[pos..];
      r := Some(text[start..pos]);
    }
  }

  // ---------- Decimal numbers ----------

  /** The value of a character as a digit, up to base 16; 16 when it is none. */
  function Digit(c: char): (d: nat)
    ensures d <= 16
  {
    if '0' <= c <= '9' then c as int - '0' as int
    else if 'a' <= c <= 'f' then c as int - 'a' as int + 10
    else if 'A' <= c <= 'F' then c as int - 'A' as int + 10
    else 16
  }

  function DigitChar(d: nat): (c: char)
    requires d < 10
    ensures '0' <= c <= '9' && Digit(c) == d
  {
    '0' + d as char
  }

  lemma DigitNames(d: nat)
    requires d < 16
    ensures d < 10 ==> DigitChar(d) == "0123456789"[d]
    ensures Digit("0123456789abcdef"[d]) == d && Digit("0123456789ABCDEF"[d]) == d
  {
  }

  /** %d of a natural number. */
  function Dec(n: nat): (s: string)
    ensures s != [] && forall i :: 0 <= i < |s| ==> '0' <= s[i] <= '9'
    ensures s[0] == '0' ==> n == 0
    ensures n == 0 ==> s == "0"
  {
    if n < 10 then [DigitChar(n)] else Dec(n / 10) + [DigitChar(n % 10)]
  }

  /** %d. */
  function DecInt(i: int): string {
    if i < 0 then "-" + Dec(-i) else Dec(i)
  }

  /** The number that a string of digits denotes. */
  function Value(s: string, base: nat): nat {
    if s == [] then 0 else Value(s[..|s| - 1], base) * base + Digit(s[|s| - 1])
  }

  lemma {:induction false} ValueDec(n: nat)
    ensures Value(Dec(n), 10) == n
  {
    var s := Dec(n);
    if n < 10 {
      assert s[..0] == [] && Value([], 10) == 0;
    } else {
      assert s[..|s| - 1] == Dec(n / 10);
      ValueDec(n / 10);
    }
  }

  /** How many digits of the base a string starts with. */
  function DigitSpan(s: string, base: nat): (k: nat)
    ensures k <= |s|
  {
    if s == [] || Digit(s[0]) >= base then 0 else 1 + DigitSpan(s[1..], base)
  }

  lemma {:induction false} DigitSpanDec(s: string, rest: string)
    requires (forall i :: 0 <= i < |s| ==> '0' <= s[i] <= '9') && (rest == [] || Digit(rest[0]) >= 10)
    ensures DigitSpan(s + rest, 10) == |s|
  {
    if s == [] {
      assert s + rest == rest;
    } else {
      assert (s + rest)[1..] == s[1..] + rest;
      DigitSpanDec(s[1..], rest);
    }
  }

  // ---------- strtoul (s, NULL, 0) ----------

  const ULONG_MAX := 0xFFFF_FFFF_FFFF_FFFF
  const ULONG_SIZE := 0x1_0000_0000_0000_0000

  predicate IsSpace(c: char) {
    c == ' ' || '\t' <= c <= '\r'
  }

  function SkipSpaces(s: string): string {
    if s != [] && IsSpace(s[0]) then SkipSpaces(s[1..]) else s
  }

  /** Base 0: a leading 0x means 16, a leading 0 means 8. */
  function Magnitude(u: string): nat {
    var hex := |u| > 2 && u[0] == '0' && (u[1] == 'x' || u[1] == 'X') && Digit(u[2]) < 16;
    var base := if hex then 16 else if u != [] && u[0] == '0' then 8 else 10;
    var v := if hex then u[2..] else u;
    Value(v[..DigitSpan(v, base)], base)
  }

  /** A minus sign negates modulo the size of an unsigned long; numbers that are too large
      saturate. */
  function StrToUl(s: string): (x: nat)
    ensures x <= ULONG_MAX
  {
    var t := SkipSpaces(s);
    var signed := t != [] && (t[0] == '-' || t[0] == '+');
    var x := Magnitude(if signed then t[1..] else t);
    if x > ULONG_MAX then ULONG_MAX
    else if signed && t[0] == '-' && x > 0 then ULONG_SIZE - x
    else x
  }

  lemma MagnitudeDec(n: nat, rest: string)
    requires rest == [] || rest[0] == ' '
    ensures Magnitude(Dec(n) + rest) == n
  {
    var (d, u) := (Dec(n), Dec(n) + rest);
    assert u[0] == d[0];
    if n == 0 {
      assert u[0] == '0' && (|u| > 1 ==> u[1] == ' ');
      assert DigitSpan(u, 8) == 1 by {
        if rest != [] { assert u[1..] == rest && DigitSpan(rest, 8) == 0; } else { assert u[1..] == []; }
      }
      assert u[..1] == "0" && Value("0", 8) == Value("0"[..0], 8) * 8 + 0;
    } else {
      DigitSpanDec(d, rest);
      assert u[..|d|] == d;
      ValueDec(n);
    }
  }

  lemma StrToUlPlain(t: string)
    requires t != [] && '0' <= t[0] <= '9'
    ensures StrToUl(t) == if Magnitude(t) > ULONG_MAX then ULONG_MAX else Magnitude(t)
  {
    hide Magnitude;
  }

  lemma StrToUlNegative(u: string)
    requires 0 < Magnitude(u) <= ULONG_MAX
    ensures StrToUl("-" + u) == ULONG_SIZE - Magnitude(u)
  {
    hide Magnitude;
    var t := "-" + u;
    assert t[1..] == u && SkipSpaces(t) == t;
  }

  /** What %d prints, strtoul reads back, modulo the size of an unsigned long. */
  lemma StrToUlDec(i: int, rest: string)
    requires -ULONG_MAX <= i <= ULONG_MAX && (rest == [] || rest[0] == ' ')
    ensures StrToUl(DecInt(i) + rest) == if i < 0 then ULONG_SIZE + i else i
  {
    hide Magnitude, StrToUl;
    if i < 0 {
      MagnitudeDec(-i, rest);
      StrToUlNegative(Dec(-i) + rest);
      assert "-" + Dec(-i) + rest == "-" + (Dec(-i) + rest);
    } else {
      MagnitudeDec(i, rest);
      StrToUlPlain(Dec(i) + rest);
    }
  }

  lemma {:induction false} DigitSpanAll(s: string, base: nat)
    requires forall i :: 0 <= i < |s| ==> Digit(s[i]) < base
    ensures DigitSpan(s, base) == |s|
  {
    if s != [] {
      DigitSpanAll(s[1..], base);
    }
  }

  lemma MagnitudeHex(d: string)
    requires d != [] && forall i :: 0 <= i < |d| ==> Digit(d[i]) < 16
    ensures Magnitude("0x" + d) == Value(d, 16)
  {
    hide Value, DigitSpan;
    var hex := "0x" + d;
    assert hex[0] == '0' && hex[1] == 'x' && hex[2] == d[0] && hex[2..] == d;
    DigitSpanAll(d, 16);
    assert d[..|d|] == d;
  }

  lemma MagnitudeOctal(d: string)
    requires d != [] && forall i :: 0 <= i < |d| ==> Digit(d[i]) < 8
    ensures Magnitude("0" + d) == Value("0" + d, 8)
  {
    hide Value, DigitSpan;
    var oct := "0" + d;
    assert oct[0] == '0' && oct[1] == d[0];
    DigitSpanAll(oct, 8);
    assert oct[..|oct|] == oct;
  }

  /** Base 16 and base 8, and saturation. */
  lemma StrToUlBases(d: string)
    requires d != []
    ensures (forall i :: 0 <= i < |d| ==> Digit(d[i]) < 16) ==>
      StrToUl("0x" + d) == if Value(d, 16) > ULONG_MAX then 0xFFFF_FFFF_FFFF_FFFF else Value(d, 16)
    ensures (forall i :: 0 <= i < |d| ==> Digit(d[i]) < 8) ==>
      StrToUl("0" + d) == if Value("0" + d, 8) > ULONG_MAX then 0xFFFF_FFFF_FFFF_FFFF else Value("0" + d, 8)
  {
    hide Value, Magnitude, StrToUl;
    if forall i :: 0 <= i < |d| ==> Digit(d[i]) < 16 {
      MagnitudeHex(d);
      StrToUlPlain("0x" + d);
    }
    if forall i :: 0 <= i < |d| ==> Digit(d[i]) < 8 {
      MagnitudeOctal(d);
      StrToUlPlain("0" + d);
    }
  }

  lemma StrToUlSpaces(s: string)
    ensures StrToUl(" " + s) == StrToUl(s) == StrToUl("\t" + s)
  {
    hide Magnitude;
    assert (" " + s)[1..] == s && ("\t" + s)[1..] == s;
  }

  // ---------- Integer.parseInt ----------

  const INT_MIN := -0x8000_0000
  const INT_MAX := 0x7FFF_FFFF

  /** None stands for a NumberFormatException. */
  function ParseInt(s: string): Option<int> {
    var negative := s != [] && s[0] == '-';
    var u := if negative then s[1..] else s;
    if u == [] || DigitSpan(u, 10) < |u| then None
    else
      var v: int := Value(u, 10);
      var x := if negative then -v else v;
      if INT_MIN <= x <= INT_MAX then Some(x) else None
  }

  lemma ParseIntDec(i: int)
    ensures ParseInt(DecInt(i)) == if INT_MIN <= i <= INT_MAX then Some(i) else None
  {
    hide Value, DigitSpan, Dec;
    if i < 0 {
      DigitsDec(-i);
      assert DecInt(i)[1..] == Dec(-i);
    } else {
      DigitsDec(i);
    }
  }

  /** Any character but a digit, or a minus sign in front, makes it throw. */
  lemma ParseIntOther(s: string, i: nat)
    requires i < |s| && !('0' <= s[i] <= '9') && (i == 0 ==> s[i] != '-')
    ensures ParseInt(s) == None
  {
    var negative := s[0] == '-';
    var u := if negative then s[1..] else s;
    SpanStops(u, if negative then i - 1 else i);
  }

  lemma {:induction false} SpanStops(s: string, i: nat)
    requires i < |s| && !('0' <= s[i] <= '9')
    ensures DigitSpan(s, 10) <= i
  {
    if i > 0 {
      SpanStops(s[1..], i - 1);
    }
  }

  lemma DigitsDec(n: nat)
    ensures DigitSpan(Dec(n), 10) == |Dec(n)| && Value(Dec(n), 10) == n
  {
    hide Value, DigitSpan, Dec;
    DigitSpanDec(Dec(n), []);
    assert Dec(n) + [] == Dec(n);
    ValueDec(n);
  }

  /** The conversion of a wider integer to int. */
  function ToInt32(x: int): (r: int)
    ensures INT_MIN <= r <= INT_MAX && (x - r) % 0x1_0000_0000 == 0
    ensures INT_MIN <= x <= INT_MAX ==> r == x
  {
    (x + 0x8000_0000) % 0x1_0000_0000 - 0x8000_0000
  }

  // ---------- String.trim ----------

  function TrimLeft(s: string): string {
    if s != [] && s[0] <= ' ' then TrimLeft(s[1..]) else s
  }

  function TrimRight(s: string): string {
    if s != [] && s[|s| - 1] <= ' ' then TrimRight(s[..|s| - 1]) else s
  }

  function Trim(s: string): string {
    TrimRight(TrimLeft(s))
  }

  predicate AllBlank(s: string) {
    forall i :: 0 <= i < |s| ==> s[i] <= ' '
  }

  /** Trim takes a blank tail off a text that neither starts nor ends with a blank. */
  lemma {:induction false} TrimTail(s: string, tail: string)
    requires s != [] && s[0] > ' ' && s[|s| - 1] > ' ' && AllBlank(tail)
    ensures Trim(s + tail) == s
  {
    var t := s + tail;
    assert t[0] == s[0];
    if tail == [] {
      assert t == s;
    } else {
      assert t[..|t| - 1] == s + tail[..|tail| - 1];
      TrimTail(s, tail[..|tail| - 1]);
      assert (s + tail[..|tail| - 1])[0] == s[0];
    }
  }

  /** And a blank head. */
  lemma {:induction false} TrimBoth(head: string, s: string, tail: string)
    requires s != [] && s[0] > ' ' && s[|s| - 1] > ' ' && AllBlank(head) && AllBlank(tail)
    ensures Trim(head + s + tail) == s
  {
    if head == [] {
      assert head + s + tail == s + tail;
      TrimTail(s, tail);
    } else {
      assert (head + s + tail)[1..] == head[1..] + s + tail;
      TrimBoth(head[1..], s, tail);
    }
  }
}
