/**
 * The timer set-up dialog: a keypad that types up to six digits (read as
 * `HHMMSS`, right-aligned), a display of the padded digits, and a Start
 * button that reports hours, minutes and seconds when their sum is positive.
 */
module Keypad {
  import opened Wrappers
  import opened KotlinText

  /** The keypad, row by row: digits, then `00`, `0` and backspace. */
  const Keys: seq<string> := ["1", "2", "3", "4", "5", "6", "7", "8", "9", "00", "0", "⌫"]

  /** One key press on the typed digits. */
  function ApplyKey(input: string, key: string): (r: string)
    requires key in Keys
    ensures key == "⌫" && input == "" ==> r == ""
    ensures key == "⌫" && input != "" ==> r + [input[|input| - 1]] == input
    ensures key != "⌫" ==> r == input || (r == input + key && |input| < 6)
    ensures key == "00" ==> (r != input <==> input != "" && |input| < 6)
    ensures key != "⌫" && key != "00" ==> (r != input <==> |input| < 6 && !(input == "" && key == "0"))
  {
    if key == "⌫" then
      if input != "" then input[..|input| - 1] else input
    else if key == "00" then
      if input != "" && |input| < 6 then input + "00" else input
    else if |input| < 6 && !(input == "" && key == "0") then input + key
    else input
  }

  /** What the keypad can produce: digits, no leading zero, at most seven of them. */
  predicate WellFormed(s: string) {
    AllDigits(s) && |s| <= 7 && (s != "" ==> s[0] != '0')
  }

  /** Every key keeps the typed text well formed. */
  lemma {:induction false} ApplyKeyWellFormed(s: string, key: string)
    requires WellFormed(s) && key in Keys
    ensures WellFormed(ApplyKey(s, key))
  {
    var r := ApplyKey(s, key);
    if key == "⌫" {
      if s != "" {
        assert r == s[..|s| - 1];
      }
    } else if r != s {
      assert r == s + key;
      assert AllDigits(key);
      assert forall i :: 0 <= i < |r| ==> IsDigit(r[i]) by {
        forall i | 0 <= i < |r| ensures IsDigit(r[i]) {
          if i < |s| { assert r[i] == s[i]; } else { assert r[i] == key[i - |s|]; }
        }
      }
    }
  }

  /** The six characters the dialog shows and reads: left-padded with `0`, last six kept. */
  function Padded(input: string): (p: string)
    ensures |p| == 6
    ensures |input| <= 6 ==> p == Repeat('0', 6 - |input|) + input
    ensures |input| > 6 ==> p == input[|input| - 6..]
    ensures AllDigits(input) ==> AllDigits(p)
  {
    TakeLast(PadStart(input, 6, '0'), 6)
  }

  /** `parseTime()`: hours, minutes and seconds from the three digit pairs, `0` for a pair that is not a number. */
  function ParseTime(input: string): (t: (int, int, int))
    ensures AllDigits(input) ==> 0 <= t.0 < 100 && 0 <= t.1 < 100 && 0 <= t.2 < 100
    ensures AllDigits(input) ==> t.0 * 10000 + t.1 * 100 + t.2 == ParseDigits(Padded(input))
  {
    var p := Padded(input);
    var t := (ToIntOrNull(p[0..2]).GetOr(0), ToIntOrNull(p[2..4]).GetOr(0), ToIntOrNull(p[4..6]).GetOr(0));
    if AllDigits(input) then
      ReadPair(p[0..2]);
      ReadPair(p[2..4]);
      ReadPair(p[4..6]);
      SixDigitsAsPairs(p);
      t
    else t
  }

  lemma ReadPair(s: string)
    requires |s| == 2 && AllDigits(s)
    ensures ToIntOrNull(s) == Some(ParseDigits(s)) && ParseDigits(s) < 100
  {
    ParseTwoDigits(s);
  }

  function Pow10(n: nat): (p: nat)
    ensures p >= 1
  {
    if n == 0 then 1 else 10 * Pow10(n - 1)
  }

  /** The value of a concatenation: the first numeral shifted left by the length of the second. */
  lemma {:induction false} ParseConcat(a: string, b: string)
    requires AllDigits(a) && AllDigits(b)
    ensures ParseDigits(a + b) == ParseDigits(a) * Pow10(|b|) + ParseDigits(b)
    decreases |b|
  {
    if |b| == 0 {
      assert a + b == a;
    } else {
      var b', c := b[..|b| - 1], b[|b| - 1];
      ParseConcat(a, b');
      assert b == b' + [c] && a + b == (a + b') + [c];
      SnocDigit(a + b', c);
      SnocDigit(b', c);
      ShiftStep(ParseDigits(a), Pow10(|b'|), ParseDigits(b'), DigitValue(c),
                ParseDigits(a + b'), ParseDigits(a + b), ParseDigits(b), Pow10(|b|));
    }
  }

  /** Appending a digit multiplies the value by ten and adds the digit. */
  lemma SnocDigit(s: string, c: char)
    requires AllDigits(s) && IsDigit(c)
    ensures AllDigits(s + [c]) && ParseDigits(s + [c]) == ParseDigits(s) * 10 + DigitValue(c)
  {
    var t := s + [c];
    assert t[..|t| - 1] == s && t[|t| - 1] == c;
  }

  /** One more digit: if `xy == x * p + y`, then `xy * 10 + d == x * (p * 10) + (y * 10 + d)`. */
  lemma ShiftStep(x: int, p: int, y: int, d: int, xy: int, xyd: int, yd: int, p10: int)
    requires xy == x * p + y && xyd == xy * 10 + d && yd == y * 10 + d && p10 == p * 10
    ensures xyd == x * p10 + yd
  {
  }

  lemma {:induction false} ParseZeros(n: nat)
    ensures AllDigits(Repeat('0', n)) && ParseDigits(Repeat('0', n)) == 0
  {
    if n > 0 {
      ParseZeros(n - 1);
      var z := Repeat('0', n);
      assert z == Repeat('0', n - 1) + ['0'];
      assert z[..n - 1] == Repeat('0', n - 1);
    }
  }

  lemma SixDigitsAsPairs(p: string)
    requires |p| == 6 && AllDigits(p)
    ensures ParseDigits(p) == ParseDigits(p[0..2]) * 10000 + ParseDigits(p[2..4]) * 100 + ParseDigits(p[4..6])
  {
    assert p == p[0..2] + p[2..4] + p[4..6];
    assert p[0..4] == p[0..2] + p[2..4];
    ParseConcat(p[0..2], p[2..4]);
    ParseConcat(p[0..4], p[4..6]);
    assert p == p[0..4] + p[4..6];
  }

  /**
   * Up to six typed digits are read as the number `HHMMSS` they spell; a
   * seventh digit pushes the first one out.
   */
  lemma ParseTimeReadsTypedDigits(input: string)
    requires AllDigits(input)
    ensures var t := ParseTime(input);
            t.0 * 10000 + t.1 * 100 + t.2 == ParseDigits(if |input| <= 6 then input else input[|input| - 6..])
  {
    var t := ParseTime(input);
    var p := Padded(input);
    assert t.0 * 10000 + t.1 * 100 + t.2 == ParseDigits(p);
    if |input| <= 6 {
      var z := Repeat('0', 6 - |input|);
      ParseZeros(6 - |input|);
      assert p == z + input;
      ParseConcat(z, input);
      var zv, sh := ParseDigits(z), Pow10(|input|);
      assert zv == 0;
      assert zv * sh == 0;
    } else {
      assert p == input[|input| - 6..];
    }
  }

  /** A numeral without a leading zero has a positive value. */
  lemma {:induction false} NoLeadingZeroPositive(s: string)
    requires s != "" && AllDigits(s) && s[0] != '0'
    ensures ParseDigits(s) > 0
    decreases |s|
  {
    if |s| > 1 {
      NoLeadingZeroPositive(s[..|s| - 1]);
    }
  }

  /** The Start button is enabled as soon as anything is typed. */
  predicate StartEnabled(input: string) {
    input != ""
  }

  /** Start: the parsed time when it adds up to more than zero, nothing otherwise. */
  function StartPressed(input: string): (r: Option<(int, int, int)>)
    ensures r.Some? ==> r.value == ParseTime(input) && r.value.0 + r.value.1 + r.value.2 > 0
    ensures r.None? ==> ParseTime(input).0 + ParseTime(input).1 + ParseTime(input).2 <= 0
  {
    var t := ParseTime(input);
    if t.0 + t.1 + t.2 > 0 then Some(t) else None
  }

  /** With one to six typed digits, an enabled Start always starts a timer. */
  lemma StartWorksUpToSixDigits(input: string)
    requires WellFormed(input) && StartEnabled(input) && |input| <= 6
    ensures StartPressed(input).Some?
  {
    NoLeadingZeroPositive(input);
    ParseTimeReadsTypedDigits(input);
  }

  /**
   * `00` is accepted at five digits, so `1`, `00`, `00`, `00` types seven
   * digits, `1000000`: Start is enabled, the display shows `000000`, and
   * pressing Start does nothing.
   */
  lemma SevenDigitsStartDoesNothing()
    ensures ApplyKey(ApplyKey(ApplyKey(ApplyKey("", "1"), "00"), "00"), "00") == "1000000"
    ensures StartEnabled("1000000") && Padded("1000000") == "000000"
    ensures StartPressed("1000000").None?
  {
    assert Padded("1000000") == "000000";
    ParseTimeReadsTypedDigits("1000000");
    assert "1000000"[1..] == "000000";
    ParseZeros(6);
    assert Repeat('0', 6) == "000000";
  }

  /**
   * The display marks digit `i` of the padded text when `i >= 6 - length`
   * of the padded text. That text always has six characters, so every digit,
   * typed or padding, is marked.
   */
  predicate Highlighted(input: string, i: int) {
    i >= 6 - |Padded(input)|
  }

  lemma EveryDigitHighlighted(input: string, i: int)
    requires 0 <= i < 6
    ensures Highlighted(input, i)
  {
  }

  /** The dialog's typed text. */
  class TimerInput {
    var inputText: string

    constructor()
      ensures inputText == ""
    {
      inputText := "";
    }

    method Press(key: string)
      requires key in Keys
      modifies this
      ensures inputText == ApplyKey(old(inputText), key)
    {
      if key == "⌫" {
        if inputText != "" {
          inputText := inputText[..|inputText| - 1];
        }
      } else if key == "00" {
        if inputText != "" && |inputText| < 6 {
          inputText := inputText + "00";
        }
      } else if |inputText| < 6 && !(inputText == "" && key == "0") {
        inputText := inputText + key;
      }
    }

    /** The enabled Start button: reports the time to start, or nothing. */
    method Start() returns (started: Option<(int, int, int)>)
      requires StartEnabled(inputText)
      ensures started.Some? ==> started.value.0 + started.value.1 + started.value.2 > 0
      ensures started == StartPressed(inputText)
    {
      var t := ParseTime(inputText);
      if t.0 + t.1 + t.2 > 0 {
        started := Some(t);
      } else {
        started := None;
      }
    }
  }
}
