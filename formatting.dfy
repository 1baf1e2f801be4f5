/**
 * Clock-style durations. `TimerManager.formatTime` and both notification
 * managers' `formatDuration` print `"%02d:%02d"` of seconds / 60 and
 * seconds % 60; `SessionData.formattedDuration` prints `"%d:%02d"`.
 */
module Formatting {
  import opened Wrappers
  import opened Numbers
  import opened Strings

  /** `String(format: "%02d:%02d", seconds / 60, seconds % 60)` with Swift's truncating `/` and `%`. */
  function ClockText(seconds: int): string {
    Padded2(Quot(seconds, 60)) + ":" + Padded2(Rem(seconds, 60))
  }

  /** `String(format: "%d:%02d", seconds / 60, seconds % 60)`. */
  function MinutesClockText(seconds: int): string {
    IntText(Quot(seconds, 60)) + ":" + Padded2(Rem(seconds, 60))
  }

  /**
   * Reads a clock text back: digits, a colon, and exactly two digits below 60.
   * It is the reference reading of both formats above.
   */
  function ParseClock(text: string): Option<int> {
    var parts := Split(text, ':');
    if |parts| == 2 && |parts[0]| >= 1 && AllDigits(parts[0])
       && |parts[1]| == 2 && AllDigits(parts[1]) && DigitsValue(parts[1]) < 60
    then Some(DigitsValue(parts[0]) * 60 + DigitsValue(parts[1]))
    else None
  }

  /** Splitting `a + ":" + b` at the colon when neither side holds one. */
  lemma SplitAtColon(a: string, b: string)
    requires ':' !in a && ':' !in b
    ensures Split(a + ":" + b, ':') == [a, b]
  {
    SplitConcat(a, b, ':');
    SplitWithoutSeparator(a, ':');
    SplitWithoutSeparator(b, ':');
  }

  /** A digit string holds no colon. */
  lemma DigitsHaveNoColon(s: string)
    requires AllDigits(s)
    ensures ':' !in s
  {
  }

  /** For a non-negative count of seconds, "MM:SS" reads back as that count. */
  lemma ClockTextRoundTrip(seconds: int)
    requires seconds >= 0
    ensures ParseClock(ClockText(seconds)) == Some(seconds)
    ensures |ClockText(seconds)| >= 5
  {
    var q, r := Quot(seconds, 60), Rem(seconds, 60);
    QuotRem(seconds, 60);
    Padded2Value(q);
    Padded2TwoDigits(r);
    DigitsHaveNoColon(Padded2(q));
    DigitsHaveNoColon(Padded2(r));
    SplitAtColon(Padded2(q), Padded2(r));
  }

  /** For a non-negative count of seconds, "m:ss" reads back as that count. */
  lemma MinutesClockTextRoundTrip(seconds: int)
    requires seconds >= 0
    ensures ParseClock(MinutesClockText(seconds)) == Some(seconds)
  {
    var q, r := Quot(seconds, 60), Rem(seconds, 60);
    QuotRem(seconds, 60);
    NonNegativeTextDigits(q);
    NatTextValue(q);
    Padded2TwoDigits(r);
    DigitsHaveNoColon(IntText(q));
    DigitsHaveNoColon(Padded2(r));
    SplitAtColon(IntText(q), Padded2(r));
  }

  /**
   * A negative count of seconds prints a minus sign into one of the two
   * fields, so the text is not a valid clock reading: "MM:SS" is readable
   * exactly when the count is non-negative.
   */
  lemma ClockTextReadableIff(seconds: int)
    ensures ParseClock(ClockText(seconds)).Some? <==> seconds >= 0
  {
    if seconds >= 0 {
      ClockTextRoundTrip(seconds);
    } else {
      var q, r := Quot(seconds, 60), Rem(seconds, 60);
      QuotRem(seconds, 60);
      IntTextValue(q);
      IntTextValue(r);
      if r == 0 {
        assert q < 0;
        Padded2Value(r);
        DigitsHaveNoColon(Padded2(r));
        SplitAtColon(Padded2(q), Padded2(r));
        assert Padded2(q)[0] == '-';
      } else {
        if q == 0 {
          Padded2Value(q);
          DigitsHaveNoColon(Padded2(q));
        }
        SplitAtColon(Padded2(q), Padded2(r));
        assert Padded2(r)[0] == '-';
      }
    }
  }
}
