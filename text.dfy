/** The few JavaScript string operations the client and its test script rely on:
    rendering a number in a template literal, `String.prototype.trim`, `split` on one
    character and `indexOf` of one character. */
module Text {

  predicate IsDigit(c: char) {
    '0' <= c <= '9'
  }

  predicate AllDigits(s: string) {
    forall i | 0 <= i < |s| :: IsDigit(s[i])
  }

  function DigitChar(d: nat): (c: char)
    requires d < 10
    ensures IsDigit(c) && c as int - '0' as int == d
  {
    ('0' as int + d) as char
  }

  /** Decimal digits of `n` without leading zeros, as `${n}` renders a non-negative
      integral number. */
  function NatToDecimal(n: nat): (s: string)
    ensures |s| >= 1 && AllDigits(s)
    ensures s[0] == '0' ==> n == 0 && |s| == 1
    decreases n
  {
    if n < 10 then [DigitChar(n)] else NatToDecimal(n / 10) + [DigitChar(n % 10)]
  }

  /** The number a string of decimal digits denotes. */
  function DecimalValue(s: string): nat
    requires AllDigits(s)
  {
    if s == [] then 0 else DecimalValue(s[..|s| - 1]) * 10 + (s[|s| - 1] as int - '0' as int)
  }

  lemma {:induction false} DecimalRoundTrip(n: nat)
    ensures DecimalValue(NatToDecimal(n)) == n
    decreases n
  {
    if n >= 10 {
      var s := NatToDecimal(n);
      assert s[..|s| - 1] == NatToDecimal(n / 10);
      DecimalRoundTrip(n / 10);
    }
  }

  /** `${i}` for an integral number: a minus sign in front of the magnitude when negative. */
  function IntToDecimal(i: int): (s: string)
    ensures |s| >= 1
    ensures s[0] == '-' <==> i < 0
    ensures i >= 0 ==> AllDigits(s)
    ensures i < 0 ==> AllDigits(s[1..])
  {
    if i < 0 then
      var s := "-" + NatToDecimal(-i);
      assert s[1..] == NatToDecimal(-i);
      s
    else NatToDecimal(i)
  }

  /** An optional minus sign followed by digits, at least one character. */
  predicate IsDecimal(s: string) {
    |s| >= 1 && (AllDigits(s) || (s[0] == '-' && AllDigits(s[1..])))
  }

  /** Reads back what IntToDecimal writes. */
  function DecimalToInt(s: string): int
    requires IsDecimal(s)
  {
    if s[0] == '-' then 0 - DecimalValue(s[1..]) else DecimalValue(s)
  }

  lemma IntDecimalRoundTrip(i: int)
    ensures var s := IntToDecimal(i);
            (AllDigits(s) || (s[0] == '-' && AllDigits(s[1..]))) && DecimalToInt(s) == i
  {
    var s := IntToDecimal(i);
    if i < 0 {
      var d := NatToDecimal(-i);
      assert s == "-" + d;
      assert s[0] == '-' && s[1..] == d;
      DecimalRoundTrip(-i);
      assert DecimalToInt(s) == 0 - DecimalValue(d);
    } else {
      assert s == NatToDecimal(i);
      assert IsDigit(s[0]);
      DecimalRoundTrip(i);
      assert DecimalToInt(s) == DecimalValue(s);
    }
  }

  /** Distinct numbers render differently. */
  lemma IntToDecimalInjective(a: int, b: int)
    requires IntToDecimal(a) == IntToDecimal(b)
    ensures a == b
  {
    IntDecimalRoundTrip(a);
    IntDecimalRoundTrip(b);
  }

  /** The characters `String.prototype.trim` removes: ECMAScript WhiteSpace (tab, vertical
      tab, form feed, space, no-break space, byte order mark and the Unicode space
      separators) and LineTerminator (line feed, carriage return, U+2028, U+2029). */
  predicate IsWhitespace(c: char) {
    var n := c as int;
    n == 0x09 || n == 0x0A || n == 0x0B || n == 0x0C || n == 0x0D || n == 0x20
    || n == 0xA0 || n == 0x1680 || (0x2000 <= n <= 0x200A) || n == 0x2028 || n == 0x2029
    || n == 0x202F || n == 0x205F || n == 0x3000 || n == 0xFEFF
  }

  predicate AllWhitespace(s: string) {
    forall i | 0 <= i < |s| :: IsWhitespace(s[i])
  }

  /** The position of the first character at or after `k` that is not whitespace, or `|s|`
      when there is none. */
  function SkipWhitespace(s: string, k: nat): (n: nat)
    requires k <= |s|
    ensures k <= n <= |s|
    ensures AllWhitespace(s[k..n])
    ensures n < |s| ==> !IsWhitespace(s[n])
    decreases |s| - k
  {
    if k < |s| && IsWhitespace(s[k]) then
      var n := SkipWhitespace(s, k + 1);
      assert forall i | 0 <= i < n - k :: s[k..n][i] == s[k + i] && (i > 0 ==> s[k + i] == s[k + 1..n][i - 1]);
      n
    else k
  }

  /** The position just after the last character before `e` that is not whitespace, or 0
      when there is none. */
  function SkipWhitespaceBack(s: string, e: nat): (n: nat)
    requires e <= |s|
    ensures n <= e
    ensures AllWhitespace(s[n..e])
    ensures n > 0 ==> !IsWhitespace(s[n - 1])
  {
    if e > 0 && IsWhitespace(s[e - 1]) then
      var n := SkipWhitespaceBack(s, e - 1);
      assert forall i | 0 <= i < e - n :: s[n..e][i] == s[n + i] && (n + i < e - 1 ==> s[n + i] == s[n..e - 1][i]);
      n
    else e
  }

  /** `s` with its leading whitespace removed. */
  function TrimStart(s: string): (r: string)
    ensures |r| <= |s| && r == s[|s| - |r|..]
    ensures AllWhitespace(s[..|s| - |r|])
    ensures r == [] || !IsWhitespace(r[0])
  {
    var n := SkipWhitespace(s, 0);
    assert s[0..n] == s[..n];
    s[n..]
  }

  /** `s` with its trailing whitespace removed. */
  function TrimEnd(s: string): (r: string)
    ensures |r| <= |s| && r == s[..|r|]
    ensures AllWhitespace(s[|r|..])
    ensures r == [] || !IsWhitespace(r[|r| - 1])
  {
    var n := SkipWhitespaceBack(s, |s|);
    assert s[n..|s|] == s[n..];
    s[..n]
  }

  /** `s.trim()`: `s` without its leading and trailing whitespace. */
  function Trim(s: string): (r: string)
    ensures r == [] || (!IsWhitespace(r[0]) && !IsWhitespace(r[|r| - 1]))
  {
    TrimEnd(TrimStart(s))
  }

  /** Only an all-whitespace string trims to nothing. */
  lemma TrimEmpty(s: string)
    ensures Trim(s) == [] <==> AllWhitespace(s)
  {
    var t := TrimStart(s);
    if TrimEnd(t) == [] {
      assert s == s[..|s| - |t|] + t;
      AllWhitespaceConcat(s[..|s| - |t|], t[0..]);
    }
  }

  /** A string cut into whitespace, a middle part and whitespace: the middle is a slice and
      both cut-off ends are whitespace. Stated over plain strings, so that `TrimIsSlice` can
      use it without unfolding the trimming functions. */
  lemma CutTwice(s: string, t: string, r: string)
    requires |t| <= |s| && t == s[|s| - |t|..] && AllWhitespace(s[..|s| - |t|])
    requires |r| <= |t| && r == t[..|r|] && AllWhitespace(t[|r|..])
    ensures var i := |s| - |t|;
            && i + |r| <= |s| && r == s[i..i + |r|]
            && AllWhitespace(s[..i]) && AllWhitespace(s[i + |r|..])
  {
    var i := |s| - |t|;
    assert t[|r|..] == s[i + |r|..];
    assert t[..|r|] == s[i..i + |r|];
  }

  /** The trimmed string is the slice of `s` after its leading whitespace, and everything
      cut off on either side is whitespace. */
  lemma TrimIsSlice(s: string)
    ensures var i := |s| - |TrimStart(s)|;
            var r := Trim(s);
            && i + |r| <= |s| && r == s[i..i + |r|]
            && AllWhitespace(s[..i]) && AllWhitespace(s[i + |r|..])
  {
    var t := TrimStart(s);
    var r := TrimEnd(t);
    CutTwice(s, t, r);
    assert Trim(s) == r;
  }

  /** `TrimStart` keeps a string that does not start with whitespace. */
  lemma TrimStartKeeps(s: string)
    requires s == [] || !IsWhitespace(s[0])
    ensures TrimStart(s) == s
  {
  }

  /** `TrimEnd` keeps a string that does not end with whitespace. */
  lemma TrimEndKeeps(s: string)
    requires s == [] || !IsWhitespace(s[|s| - 1])
    ensures TrimEnd(s) == s
  {
  }

  /** A string that neither starts nor ends with whitespace is its own trim. */
  lemma TrimOfTrimmed(s: string)
    requires s == [] || (!IsWhitespace(s[0]) && !IsWhitespace(s[|s| - 1]))
    ensures Trim(s) == s
  {
    TrimStartKeeps(s);
    TrimEndKeeps(s);
  }

  /** Leading whitespace in front of a string that does not start with whitespace is
      exactly what `TrimStart` removes. */
  lemma TrimStartPadded(pad: string, s: string)
    requires AllWhitespace(pad) && (s == [] || !IsWhitespace(s[0]))
    ensures TrimStart(pad + s) == s
  {
    var p := pad + s;
    var n := SkipWhitespace(p, 0);
    if s != [] {
      assert p[|pad|] == s[0];
    }
    assert forall i | 0 <= i < |pad| :: p[i] == pad[i];
    assert n == |pad|;
    assert p[|pad|..] == s;
  }

  /** Trailing whitespace after a string that does not end with whitespace is exactly what
      `TrimEnd` removes. */
  lemma TrimEndPadded(s: string, pad: string)
    requires AllWhitespace(pad) && (s == [] || !IsWhitespace(s[|s| - 1]))
    ensures TrimEnd(s + pad) == s
  {
    var p := s + pad;
    var n := SkipWhitespaceBack(p, |p|);
    if s != [] {
      assert p[|s| - 1] == s[|s| - 1];
    }
    assert forall i | |s| <= i < |p| :: p[i] == pad[i - |s|];
    assert n == |s|;
    assert p[..|s|] == s;
  }

  lemma AllWhitespaceConcat(a: string, b: string)
    requires AllWhitespace(a) && AllWhitespace(b)
    ensures AllWhitespace(a + b)
  {
    forall i | 0 <= i < |a + b| ensures IsWhitespace((a + b)[i]) {
      if i >= |a| { assert (a + b)[i] == b[i - |a|]; }
    }
  }

  /** `trim` removes exactly the whitespace padding around a trimmed string. */
  lemma TrimPadded(left: string, s: string, right: string)
    requires AllWhitespace(left) && AllWhitespace(right)
    requires s == [] || (!IsWhitespace(s[0]) && !IsWhitespace(s[|s| - 1]))
    ensures Trim(left + s + right) == s
  {
    if s == [] {
      assert left + s + right == left + right;
      AllWhitespaceConcat(left, right);
      TrimEmpty(left + right);
    } else {
      assert left + s + right == left + (s + right);
      TrimStartPadded(left, s + right);
      TrimEndPadded(s, right);
    }
  }

  /** Trimming a second time changes nothing. */
  lemma TrimIdempotent(s: string)
    ensures Trim(Trim(s)) == Trim(s)
  {
    TrimOfTrimmed(Trim(s));
  }

  /** `s.indexOf(c)`: the first position of `c` in `s`, or -1 when there is none. */
  function IndexOf(s: string, c: char): (r: int)
    ensures -1 <= r < |s|
    ensures r == -1 <==> c !in s
    ensures r >= 0 ==> s[r] == c && c !in s[..r]
  {
    if |s| == 0 then -1
    else if s[0] == c then 0
    else
      var k := IndexOf(s[1..], c);
      assert s == [s[0]] + s[1..];
      if k == -1 then -1 else
        assert s[..k + 1] == [s[0]] + s[1..][..k];
        k + 1
  }

  /** The first `c` of `a + [c] + b` is the one after `a`, when `a` has none. */
  lemma IndexOfFirst(a: string, c: char, b: string)
    requires c !in a
    ensures IndexOf(a + [c] + b, c) == |a|
  {
    var s := a + [c] + b;
    var r := IndexOf(s, c);
    assert s[|a|] == c;
  }

  /** The pieces between consecutive separators, joined back by `Join`. */
  function Join(pieces: seq<string>, sep: char): string
    requires |pieces| >= 1
  {
    if |pieces| == 1 then pieces[0] else pieces[0] + [sep] + Join(pieces[1..], sep)
  }

  /** `s.split(sep)` for a one-character separator: at least one piece, no piece holds the
      separator, and the pieces joined by the separator give `s` back. */
  function Split(s: string, sep: char): (pieces: seq<string>)
    ensures |pieces| >= 1
    ensures forall i | 0 <= i < |pieces| :: sep !in pieces[i]
    ensures Join(pieces, sep) == s
    decreases |s|
  {
    var i := IndexOf(s, sep);
    if i < 0 then [s]
    else
      var rest := Split(s[i + 1..], sep);
      assert s == s[..i] + [sep] + s[i + 1..];
      [s[..i]] + rest
  }
}
