/**
 * `formatDuration` and the leaderboard's time cell: a millisecond count split into hours,
 * minutes and seconds, each rendered in decimal and padded to two digits, joined by ':'.
 */
module Duration {
  import opened Wrappers
  import opened Text

  /** Hours, minutes and seconds of an elapsed time (the leaderboard's `timeTakenFormatted`). */
  datatype Clock = Clock(hours: nat, minutes: nat, seconds: nat)

  /** The milliseconds a clock reading stands for. */
  function Millis(c: Clock): nat {
    c.hours * 3600000 + c.minutes * 60000 + c.seconds * 1000
  }

  predicate WellFormed(c: Clock) {
    c.minutes < 60 && c.seconds < 60
  }

  /**
   * The three `Math.floor` divisions of `formatDuration`: whole hours, the whole minutes of
   * what is left, the whole seconds of what is left after that. The reading is the longest
   * one not exceeding `ms`, to within a second.
   */
  function Split(ms: nat): (c: Clock)
    ensures WellFormed(c)
    ensures Millis(c) <= ms < Millis(c) + 1000
  {
    var c := Clock(ms / 3600000, (ms % 3600000) / 60000, (ms % 60000) / 1000);
    SplitSound(ms);
    c
  }

  lemma SplitSound(ms: nat)
    ensures var h, m, s := ms / 3600000, (ms % 3600000) / 60000, (ms % 60000) / 1000;
      m < 60 && s < 60 && h * 3600000 + m * 60000 + s * 1000 <= ms < h * 3600000 + m * 60000 + s * 1000 + 1000
  {
    var h, r1 := ms / 3600000, ms % 3600000;
    var m, r2 := r1 / 60000, r1 % 60000;
    assert ms == h * 3600000 + r1;
    assert r1 == m * 60000 + r2;
    assert ms == (60 * h + m) * 60000 + r2;
    assert ms % 60000 == r2;
    var s := r2 / 1000;
    assert r2 == s * 1000 + r2 % 1000;
  }

  /** A well-formed reading is exactly what `Split` recovers from its milliseconds. */
  lemma SplitMillis(c: Clock)
    requires WellFormed(c)
    ensures Split(Millis(c)) == c
  {
    var ms := Millis(c);
    var below := c.minutes * 60000 + c.seconds * 1000;
    DivideOut(c.hours, below, 3600000);
    DivideOut(c.minutes, c.seconds * 1000, 60000);
    DivideOut(60 * c.hours + c.minutes, c.seconds * 1000, 60000);
    DivideOut(c.seconds, 0, 1000);
  }

  /** Dividing `q * d + r` by one of the three unit sizes, with `r` below it, gives back `q` and `r`. */
  lemma DivideOut(q: nat, r: nat, d: nat)
    requires d == 3600000 || d == 60000 || d == 1000
    requires r < d
    ensures (q * d + r) / d == q && (q * d + r) % d == r
  {
    if d == 3600000 {
      assert (q * 3600000 + r) / 3600000 == q;
    } else if d == 60000 {
      assert (q * 60000 + r) / 60000 == q;
    } else {
      assert (q * 1000 + r) / 1000 == q;
    }
  }

  /** `String(n).padStart(2, "0")`. */
  function Pad2(n: nat): (r: string)
    ensures |r| >= 2 && AllDigits(r) && DecimalValue(r) == n
    ensures ':' !in r
  {
    var d := NatToDecimal(n);
    var r := PadStart(d, 2, '0');
    assert r == Repeat('0', |r| - |d|) + d;
    LeadingZeros(|r| - |d|, d);
    r
  }

  /**
   * `hh:mm:ss` with each field padded to at least two digits: `split(":")` of the text gives
   * back exactly the three padded fields.
   */
  function FormatClock(c: Clock): (r: string)
    ensures SplitOn(r, ':') == [Pad2(c.hours), Pad2(c.minutes), Pad2(c.seconds)]
  {
    SplitThree(Pad2(c.hours), Pad2(c.minutes), Pad2(c.seconds), ':');
    Pad2(c.hours) + ":" + Pad2(c.minutes) + ":" + Pad2(c.seconds)
  }

  /**
   * `formatDuration(ms)` for a non-negative whole number of milliseconds. The text loses
   * nothing but the sub-second part: it parses back to a reading with minutes and seconds
   * below 60 that accounts for `ms` to within a second.
   */
  function FormatDuration(ms: nat): (r: string)
    ensures var c := ParseClock(r);
      c.Some? && WellFormed(c.value) && Millis(c.value) <= ms < Millis(c.value) + 1000
  {
    ClockRoundTrip(Split(ms));
    FormatClock(Split(ms))
  }

  /** A formatted clock starts with a digit, so it is never the text "N/A". */
  lemma ClockNotNA(c: Clock)
    ensures FormatClock(c) != "N/A"
  {
    assert FormatClock(c)[0] == Pad2(c.hours)[0];
    assert "N/A"[0] == 'N';
  }

  /**
   * The leaderboard's time cell: "N/A" exactly when the server sent no reading, and
   * otherwise a text that parses back to the reading it was given.
   */
  function LeaderboardTime(t: Option<Clock>): (cell: string)
    ensures cell == "N/A" <==> t.None?
    ensures t.Some? ==> ParseClock(cell) == t
  {
    match t
    case None => "N/A"
    case Some(c) =>
      ClockRoundTrip(c);
      ClockNotNA(c);
      FormatClock(c)
  }

  /** Reads a `hh:mm:ss` text back: three non-empty runs of digits separated by ':'. */
  function ParseClock(s: string): Option<Clock> {
    var parts := SplitOn(s, ':');
    if |parts| == 3 && AllDigits(parts[0]) && AllDigits(parts[1]) && AllDigits(parts[2])
      && parts[0] != [] && parts[1] != [] && parts[2] != []
    then Some(Clock(DecimalValue(parts[0]), DecimalValue(parts[1]), DecimalValue(parts[2])))
    else None
  }

  /** Formatting a clock loses nothing: parsing the text gives the same reading back. */
  lemma ClockRoundTrip(c: Clock)
    ensures ParseClock(FormatClock(c)) == Some(c)
  {
    var f := FormatClock(c);
    assert SplitOn(f, ':') == [Pad2(c.hours), Pad2(c.minutes), Pad2(c.seconds)];
  }

  /** Every field of the formatted text is at least two characters wide. */
  lemma FormatDurationPadded(ms: nat)
    ensures var f := FormatDuration(ms); var p := SplitOn(f, ':');
      |p| == 3 && |p[0]| >= 2 && |p[1]| >= 2 && |p[2]| >= 2
  {
    var c := Split(ms);
    assert FormatDuration(ms) == FormatClock(c);
  }

  /** One hour, two minutes and three seconds. */
  lemma FormatDurationExample()
    ensures FormatDuration(3723000) == "01:02:03"
  {
    assert 3723000 / 3600000 == 1 && 3723000 % 3600000 == 123000 && 123000 / 60000 == 2;
    assert 3723000 % 60000 == 3000 && 3000 / 1000 == 3;
    assert Split(3723000) == Clock(1, 2, 3);
    PadDigit(1);
    PadDigit(2);
    PadDigit(3);
  }

  /** A one-digit field gets one leading zero. */
  lemma PadDigit(d: nat)
    requires d < 10
    ensures Pad2(d) == ['0', DigitChar(d)]
  {
    assert NatToDecimal(d) == [DigitChar(d)];
    assert Repeat('0', 1) == ['0'];
  }

  /**
   * The leaderboard pads its server-supplied fields exactly as `formatDuration` does: for a
   * well-formed reading the cell equals the formatted duration of its milliseconds, and a
   * missing reading gives a text that no formatted duration can be.
   */
  lemma LeaderboardMatchesDuration(t: Option<Clock>)
    requires t.Some? ==> WellFormed(t.value)
    ensures t.Some? ==> LeaderboardTime(t) == FormatDuration(Millis(t.value))
    ensures t.None? ==> forall ms: nat {:trigger FormatDuration(ms)} :: LeaderboardTime(t) != FormatDuration(ms)
  {
    if t.Some? {
      SplitMillis(t.value);
    } else {
      forall ms: nat ensures "N/A" != FormatDuration(ms) {
        ClockNotNA(Split(ms));
      }
    }
  }
}
