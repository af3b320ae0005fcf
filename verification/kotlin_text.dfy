/**
 * The pieces of the Kotlin/Java standard library that the clock's rules lean on:
 * decimal rendering (`Int.toString`, `"%d"`, `"%02d"`), `String.toIntOrNull`,
 * `padStart`, `takeLast`, `isBlank`, `split`, and the truncating `/` and `%` of
 * Kotlin's `Int` and `Long`.
 */
module KotlinText {
  import opened Wrappers

  const IntMin: int := -0x8000_0000
  const IntMax: int := 0x7FFF_FFFF

  // ---------------------------------------------------------------- integers

  /** Kotlin `a / b` for a positive divisor: rounds toward zero. */
  function TDiv(a: int, b: int): (q: int)
    requires b > 0
    ensures a >= 0 ==> q == a / b
    ensures a < 0 ==> q == -((-a) / b)
  {
    if a >= 0 then a / b else -((-a) / b)
  }

  /** Kotlin `a % b` for a positive divisor: takes the sign of `a`. */
  function TRem(a: int, b: int): (r: int)
    requires b > 0
    ensures a == b * TDiv(a, b) + r
    ensures a >= 0 ==> 0 <= r < b
    ensures a < 0 ==> -b < r <= 0
  {
    a - b * TDiv(a, b)
  }

  lemma {:induction false} MulAtLeast(d: int, k: int)
    requires d > 0 && k >= 1
    ensures d * k >= d
    decreases k
  {
    if k > 1 {
      MulAtLeast(d, k - 1);
      assert d * k == d * (k - 1) + d;
    }
  }

  /** Division with remainder is unique. */
  lemma DivModOf(n: int, d: int, q: int, r: int)
    requires d > 0 && 0 <= r < d && n == d * q + r
    ensures n / d == q && n % d == r
  {
    var q', r' := n / d, n % d;
    assert n == d * q' + r' && 0 <= r' < d;
    if q' > q {
      assert r - r' == d * q' - d * q == d * (q' - q);
      MulAtLeast(d, q' - q);
    } else if q' < q {
      assert r' - r == d * q - d * q' == d * (q - q');
      MulAtLeast(d, q - q');
    }
  }

  // ------------------------------------------------------------------ digits

  predicate IsDigit(c: char) { '0' <= c <= '9' }

  predicate AllDigits(s: string) {
    forall i :: 0 <= i < |s| ==> IsDigit(s[i])
  }

  function DigitChar(d: int): (c: char)
    requires 0 <= d < 10
    ensures IsDigit(c) && DigitValue(c) == d
  {
    ('0' as int + d) as char
  }

  function DigitValue(c: char): (d: int)
    requires IsDigit(c)
    ensures 0 <= d < 10
  {
    c as int - '0' as int
  }

  /** `n.toString()` for a non-negative `n`: shortest decimal numeral. */
  function Dec(n: nat): (s: string)
    ensures 1 <= |s| && AllDigits(s)
    ensures s[0] == '0' <==> n == 0
    ensures n < 10 <==> |s| == 1
    decreases n
  {
    if n < 10 then [DigitChar(n)] else Dec(n / 10) + [DigitChar(n % 10)]
  }

  /** The value of a numeral, most significant digit first. */
  function ParseDigits(s: string): nat
    requires AllDigits(s)
  {
    if |s| == 0 then 0 else ParseDigits(s[..|s| - 1]) * 10 + DigitValue(s[|s| - 1])
  }

  /** Reading back a rendered numeral gives the number. */
  lemma {:induction false} ParseDec(n: nat)
    ensures ParseDigits(Dec(n)) == n
    decreases n
  {
    if n >= 10 {
      ParseDec(n / 10);
      var s := Dec(n);
      assert s[..|s| - 1] == Dec(n / 10);
    }
  }

  /** A numeral of two digits is below 100. */
  lemma ParseTwoDigits(s: string)
    requires |s| == 2 && AllDigits(s)
    ensures ParseDigits(s) == 10 * DigitValue(s[0]) + DigitValue(s[1]) < 100
  {
    assert s[..1][..0] == [];
    assert ParseDigits(s[..1]) == DigitValue(s[0]);
  }

  /** `String.format("%d", n)`. */
  function FormatD(n: int): (s: string)
    ensures n >= 0 ==> s == Dec(n)
    ensures n < 0 ==> s == "-" + Dec(-n)
  {
    if n >= 0 then Dec(n) else "-" + Dec(-n)
  }

  /** `String.format("%02d", n)`: zero-padded to width 2, the sign counting toward the width. */
  function Pad2(n: int): (s: string)
    ensures 0 <= n < 100 ==> |s| == 2 && AllDigits(s)
    ensures n >= 100 ==> s == Dec(n)
    ensures n < 0 ==> s == "-" + Dec(-n)
  {
    if n < 0 then "-" + Dec(-n) else if n < 10 then "0" + Dec(n) else Dec(n)
  }

  /** Two-digit fields read back to the number that was padded. */
  lemma {:induction false} ParsePad2(n: int)
    requires 0 <= n < 100
    ensures ParseDigits(Pad2(n)) == n
  {
    ParseDec(n);
    if n < 10 {
      var s := Pad2(n);
      assert s[..1] == "0";
      assert s[..1][..0] == [];
    }
  }

  // ---------------------------------------------------------- toIntOrNull

  /** The value of an optionally signed numeral whose digits start at `start`. */
  function SignedValue(s: string, negative: bool): int
    requires AllDigits(s)
  {
    var v: int := ParseDigits(s);
    if negative then -v else v
  }

  /**
   * `String.toIntOrNull()`: an optional `+`/`-` then at least one digit, and
   * the value must fit a 32-bit `Int`; anything else is `null`.
   */
  function ToIntOrNull(s: string): (r: Option<int>)
    ensures r.Some? ==> IntMin <= r.value <= IntMax
    ensures s == [] ==> r == None
    ensures r.Some? && s[0] != '-' ==> r.value >= 0
  {
    if |s| == 0 then None
    else if s[0] < '0' then
      if |s| == 1 then None
      else if (s[0] == '-' || s[0] == '+') && AllDigits(s[1..]) then
        var v := SignedValue(s[1..], s[0] == '-');
        if IntMin <= v <= IntMax then Some(v) else None
      else None
    else if AllDigits(s) && ParseDigits(s) <= IntMax then Some(ParseDigits(s))
    else None
  }

  /** `Int.toString()` followed by `toIntOrNull()` is the identity on `Int`. */
  lemma ToIntOrNullFormatD(n: int)
    requires IntMin <= n <= IntMax
    ensures ToIntOrNull(FormatD(n)) == Some(n)
  {
    var s := FormatD(n);
    if n >= 0 {
      ParseDec(n);
      assert s == Dec(n) && IsDigit(s[0]);
    } else {
      ParseDec(-n);
      assert s[0] == '-' && |s| >= 2;
      assert s[1..] == Dec(-n);
      assert SignedValue(s[1..], true) == n;
    }
  }

  // ----------------------------------------------------------------- strings

  function Repeat(c: char, n: nat): (s: string)
    ensures |s| == n && forall i :: 0 <= i < n ==> s[i] == c
  {
    if n == 0 then [] else [c] + Repeat(c, n - 1)
  }

  /** `s.padStart(n, c)`. */
  function PadStart(s: string, n: nat, c: char): (r: string)
    ensures |s| >= n ==> r == s
    ensures |s| < n ==> r == Repeat(c, n - |s|) + s
  {
    if |s| >= n then s else Repeat(c, n - |s|) + s
  }

  /** `s.takeLast(n)`. */
  function TakeLast(s: string, n: nat): (r: string)
    ensures |r| == if |s| <= n then |s| else n
    ensures r == s[|s| - |r|..]
  {
    if |s| <= n then s else s[|s| - n..]
  }

  /**
   * `Char.isWhitespace()`: Java's `Character.isWhitespace` or a Unicode space
   * separator.
   */
  predicate IsWhitespace(c: char) {
    ('\U{9}' <= c <= '\U{D}') || ('\U{1C}' <= c <= '\U{20}')
    || c == '\U{A0}' || c == '\U{1680}' || ('\U{2000}' <= c <= '\U{200A}')
    || c == '\U{2028}' || c == '\U{2029}' || c == '\U{202F}' || c == '\U{205F}' || c == '\U{3000}'
  }

  /** `s.isBlank()`: empty or only whitespace. */
  predicate IsBlank(s: string) {
    forall i :: 0 <= i < |s| ==> IsWhitespace(s[i])
  }

  /** `s.split(sep)`: the pieces between separators, empty pieces kept. */
  function Split(s: string, sep: char): (parts: seq<string>)
    ensures |parts| >= 1
    ensures sep !in s ==> parts == [s]
    decreases |s|
  {
    if sep !in s then [s]
    else
      var i := IndexOfChar(s, sep);
      [s[..i]] + Split(s[i + 1..], sep)
  }

  /** The index of the first `c` in `s`. */
  function IndexOfChar(s: string, c: char): (i: nat)
    requires c in s
    ensures i < |s| && s[i] == c && c !in s[..i]
  {
    if s[0] == c then 0 else 1 + IndexOfChar(s[1..], c)
  }

  /** Splitting `a + [sep] + b` with no separator in `a` peels off `a`. */
  lemma SplitJoin(a: string, b: string, sep: char)
    requires sep !in a
    ensures Split(a + [sep] + b, sep) == [a] + Split(b, sep)
  {
    var s := a + [sep] + b;
    assert s[|a|] == sep;
    var i := IndexOfChar(s, sep);
    assert forall j :: 0 <= j < |a| ==> s[j] == a[j];
    assert i <= |a| by {
      assert forall j :: 0 <= j < i ==> s[..i][j] == s[j];
    }
    assert s[..i] == a;
    assert s[i + 1..] == b;
  }
}
