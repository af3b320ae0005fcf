/**
 * How a timer shows its remaining seconds: `H:MM:SS` from one hour up,
 * `M:SS` from one minute up, and the bare seconds below a minute, with
 * Kotlin's truncating `/` and `%` splitting the count into fields.
 */
module TimerText {
  import opened Wrappers
  import opened KotlinText

  /** `(remaining / 3600, (remaining % 3600) / 60, remaining % 60)` with Kotlin's operators. */
  function Fields(remaining: int): (f: (int, int, int))
    ensures remaining >= 0 ==> f.0 >= 0 && 0 <= f.1 < 60 && 0 <= f.2 < 60
    ensures remaining >= 0 ==> f.0 * 3600 + f.1 * 60 + f.2 == remaining
    ensures remaining < 0 ==> f.0 <= 0 && f.1 <= 0 && f.2 <= 0
  {
    (TDiv(remaining, 3600), TDiv(TRem(remaining, 3600), 60), TRem(remaining, 60))
  }

  /** `getTimeString()` of a timer with `remaining` seconds left. */
  function Render(remaining: int): string {
    var f := Fields(remaining);
    if f.0 > 0 then FormatD(f.0) + ":" + Pad2(f.1) + ":" + Pad2(f.2)
    else if f.1 > 0 then FormatD(f.1) + ":" + Pad2(f.2)
    else FormatD(f.2)
  }

  /** A minutes or seconds field: two digits standing for less than 60. */
  predicate TwoDigitField(p: string) {
    |p| == 2 && AllDigits(p) && ParseDigits(p) < 60
  }

  /**
   * The layout of the text for `n` seconds: `H:MM:SS` from an hour up with
   * the hours unpadded, `M:SS` from a minute up with the minutes unpadded,
   * and the bare seconds, with no separator, below a minute.
   */
  predicate Layout(text: string, n: nat) {
    var parts := Split(text, ':');
    if n >= 3600 then
      |parts| == 3 && parts[0] == Dec(n / 3600) && TwoDigitField(parts[1]) && TwoDigitField(parts[2])
    else if n >= 60 then
      |parts| == 2 && parts[0] == Dec(n / 60) && TwoDigitField(parts[1])
    else
      text == Dec(n)
  }

  /** Reads `S`, `M:SS` or `H:MM:SS` back into a count of seconds. */
  function Read(text: string): Option<int> {
    ReadFields(Split(text, ':'))
  }

  /** The count of seconds that one, two or three all-digit fields stand for. */
  function ReadFields(parts: seq<string>): Option<int> {
    if |parts| == 0 || |parts| > 3 then None
    else if !AllDigits(parts[0]) then None
    else if |parts| == 1 then Some(ParseDigits(parts[0]))
    else if !AllDigits(parts[1]) then None
    else if |parts| == 2 then Some(60 * ParseDigits(parts[0]) + ParseDigits(parts[1]))
    else if !AllDigits(parts[2]) then None
    else Some(3600 * ParseDigits(parts[0]) + 60 * ParseDigits(parts[1]) + ParseDigits(parts[2]))
  }

  lemma NoColonInDigits(s: string)
    requires AllDigits(s)
    ensures ':' !in s
  {
  }

  lemma ReadOneField(a: string)
    requires AllDigits(a)
    ensures Read(a) == Some(ParseDigits(a))
  {
    NoColonInDigits(a);
  }

  lemma SplitTwoFields(a: string, b: string)
    requires AllDigits(a) && AllDigits(b)
    ensures Split(a + ":" + b, ':') == [a, b]
  {
    NoColonInDigits(a);
    NoColonInDigits(b);
    SplitJoin(a, b, ':');
    assert a + ":" + b == a + [':'] + b;
  }

  lemma SplitThreeFields(a: string, b: string, c: string)
    requires AllDigits(a) && AllDigits(b) && AllDigits(c)
    ensures Split(a + ":" + b + ":" + c, ':') == [a, b, c]
  {
    NoColonInDigits(a);
    SplitTwoFields(b, c);
    assert a + ":" + b + ":" + c == a + [':'] + (b + ":" + c);
    SplitJoin(a, b + ":" + c, ':');
  }

  lemma ReadFieldsThree(a: string, b: string, c: string, v: int)
    requires AllDigits(a) && AllDigits(b) && AllDigits(c)
    requires 3600 * ParseDigits(a) + 60 * ParseDigits(b) + ParseDigits(c) == v
    ensures ReadFields([a, b, c]) == Some(v)
  {
    var parts := [a, b, c];
    assert |parts| == 3 && parts[0] == a && parts[1] == b && parts[2] == c;
  }

  lemma ReadFieldsTwo(a: string, b: string, v: int)
    requires AllDigits(a) && AllDigits(b)
    requires 60 * ParseDigits(a) + ParseDigits(b) == v
    ensures ReadFields([a, b]) == Some(v)
  {
    var parts := [a, b];
    assert |parts| == 2 && parts[0] == a && parts[1] == b;
  }

  lemma ReadTwoFields(a: string, b: string, v: int)
    requires AllDigits(a) && AllDigits(b)
    requires 60 * ParseDigits(a) + ParseDigits(b) == v
    ensures Read(a + ":" + b) == Some(v)
  {
    SplitTwoFields(a, b);
    ReadFieldsTwo(a, b, v);
  }

  lemma ReadThreeFields(a: string, b: string, c: string, v: int)
    requires AllDigits(a) && AllDigits(b) && AllDigits(c)
    requires 3600 * ParseDigits(a) + 60 * ParseDigits(b) + ParseDigits(c) == v
    ensures Read(a + ":" + b + ":" + c) == Some(v)
  {
    SplitThreeFields(a, b, c);
    ReadFieldsThree(a, b, c, v);
  }

  /** From one hour up the text is three numerals that stand for the count. */
  lemma HoursText(remaining: nat, h: int, m: int, s: int) returns (a: string, b: string, c: string)
    requires Fields(remaining) == (h, m, s) && h > 0
    ensures Render(remaining) == a + ":" + b + ":" + c
    ensures AllDigits(a) && AllDigits(b) && AllDigits(c)
    ensures a == Dec(h) && TwoDigitField(b) && TwoDigitField(c)
    ensures 3600 * ParseDigits(a) + 60 * ParseDigits(b) + ParseDigits(c) == remaining
  {
    a, b, c := Dec(h), Pad2(m), Pad2(s);
    ParseDec(h);
    ParsePad2(m);
    ParsePad2(s);
  }

  /** From one minute up to an hour the text is two numerals that stand for the count. */
  lemma MinutesText(remaining: nat, m: int, s: int) returns (a: string, b: string)
    requires Fields(remaining) == (0, m, s) && m > 0
    ensures Render(remaining) == a + ":" + b
    ensures AllDigits(a) && AllDigits(b)
    ensures a == Dec(m) && TwoDigitField(b)
    ensures 60 * ParseDigits(a) + ParseDigits(b) == remaining
  {
    a, b := Dec(m), Pad2(s);
    ParseDec(m);
    ParsePad2(s);
  }

  /** The shown text reads back as the remaining seconds: nothing is lost in display. */
  lemma {:induction false} ReadRender(remaining: nat)
    ensures Read(Render(remaining)) == Some(remaining)
  {
    var f := Fields(remaining);
    if f.0 > 0 {
      var a, b, c := HoursText(remaining, f.0, f.1, f.2);
      ReadThreeFields(a, b, c, remaining);
    } else if f.1 > 0 {
      var a, b := MinutesText(remaining, f.1, f.2);
      ReadTwoFields(a, b, remaining);
    } else {
      ParsePad2(f.2);
      ParseDec(f.2);
      assert Render(remaining) == Dec(f.2);
      ReadOneField(Dec(f.2));
    }
  }

  /** The shown text has the `H:MM:SS` / `M:SS` / `S` layout. */
  lemma {:induction false} RenderLayout(remaining: nat)
    ensures Layout(Render(remaining), remaining)
  {
    var f := Fields(remaining);
    if f.0 > 0 {
      var a, b, c := HoursText(remaining, f.0, f.1, f.2);
      SplitThreeFields(a, b, c);
      DivModOf(remaining, 3600, f.0, 60 * f.1 + f.2);
    } else if f.1 > 0 {
      var a, b := MinutesText(remaining, f.1, f.2);
      SplitTwoFields(a, b);
      DivModOf(remaining, 60, f.1, f.2);
    } else {
      assert Render(remaining) == Dec(f.2);
    }
  }

  /** Different non-negative counts never show the same text. */
  lemma RenderInjective(a: nat, b: nat)
    requires Render(a) == Render(b)
    ensures a == b
  {
    ReadRender(a);
    ReadRender(b);
  }

  /** Below a minute the text is the bare number of seconds, without padding. */
  lemma {:induction false} RenderUnderMinute(remaining: int)
    requires 0 <= remaining < 60
    ensures Render(remaining) == Dec(remaining)
  {
  }

  /**
   * A negative count never reaches the hours or minutes branch: only the
   * signed remainder modulo 60 is shown, so `-61` shows as `-1`.
   */
  lemma {:induction false} RenderNegative(remaining: int)
    requires remaining < 0
    ensures Render(remaining) == FormatD(TRem(remaining, 60))
  {
  }
}
