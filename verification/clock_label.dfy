/**
  The time labels of the circadian plot: an integer minute offset is added
  to Python's `datetime.min` (0001-01-01 00:00) as a `timedelta`, and the
  resulting datetime is printed with `strftime("%I:%M %p")` in the C locale.

  The date part of the sum is never printed, so a label shows only the
  minute of the day; the sum itself overflows below `datetime.min` and past
  `datetime.max` (9999-12-31 23:59:59.999999).
*/
module ClockLabel {
  import opened Wrappers

  const MinutesPerHour: nat := 60
  const MinutesPerDay: nat := 1440
  /** First minute of the day whose %p conversion is "PM". */
  const Noon: nat := 720

  /** Proleptic Gregorian ordinals of datetime.min's date (0001-01-01) and datetime.max's date (9999-12-31). */
  const MinOrdinal: nat := 1
  const MaxOrdinal: nat := 3652059
  /** The smallest minute offset whose sum with datetime.min is out of range. */
  const MaxOffset: nat := MaxOrdinal * MinutesPerDay

  /** Python's OverflowError, the one error an integer offset can provoke. */
  datatype Error = OverflowError

  /** A naive datetime at minute resolution (seconds are always zero here). */
  datatype DateTime = DateTime(ordinal: nat, hour: nat, minute: nat)

  predicate ValidDateTime(d: DateTime) {
    MinOrdinal <= d.ordinal <= MaxOrdinal && d.hour < 24 && d.minute < MinutesPerHour
  }

  /** Minutes elapsed from datetime.min to d. */
  function MinutesSinceMin(d: DateTime): int {
    (d.ordinal - MinOrdinal) * MinutesPerDay + d.hour * MinutesPerHour + d.minute
  }

  /** Minute of the day shown by d's clock. */
  function MinuteOfDay(d: DateTime): nat {
    d.hour * MinutesPerHour + d.minute
  }

  /**
    `datetime.min + timedelta(minutes=t)`: the day count is carried into the
    ordinal with floor division (Dafny's `/` agrees with Python's `//` for a
    positive divisor), and a result whose ordinal leaves [1, MaxOrdinal]
    raises OverflowError.
  */
  function AddMinutesToMin(t: int): (r: Result<DateTime, Error>)
    ensures r.Success? <==> 0 <= t < MaxOffset
    ensures r.Success? ==> ValidDateTime(r.value) && MinutesSinceMin(r.value) == t
  {
    var ordinal := MinOrdinal + t / MinutesPerDay;
    if 0 < ordinal <= MaxOrdinal then
      var m := t % MinutesPerDay;
      Success(DateTime(ordinal, m / MinutesPerHour, m % MinutesPerHour))
    else
      Failure(OverflowError)
  }

  /** The clock of a valid datetime reads its offset from datetime.min modulo one day. */
  lemma {:induction false} MinuteOfDayIsOffsetModDay(d: DateTime)
    requires ValidDateTime(d)
    ensures MinuteOfDay(d) == MinutesSinceMin(d) % MinutesPerDay
  {
    WholeDaysDropOut(d.ordinal - MinOrdinal, MinuteOfDay(d));
  }

  /** Adding whole days does not move the minute of the day. */
  lemma {:induction false} WholeDaysDropOut(days: nat, m: nat)
    requires m < MinutesPerDay
    ensures (days * MinutesPerDay + m) % MinutesPerDay == m
  {
    if days > 0 {
      WholeDaysDropOut(days - 1, m);
      assert days * MinutesPerDay + m == ((days - 1) * MinutesPerDay + m) + MinutesPerDay;
    }
  }

  // ---------------------------------------------------------------------
  // strftime conversions

  predicate IsDigit(c: char) {
    '0' <= c <= '9'
  }

  function DigitValue(c: char): int {
    c as int - '0' as int
  }

  function DigitChar(d: nat): (c: char)
    requires d < 10
    ensures IsDigit(c) && DigitValue(c) == d
  {
    ('0' as int + d) as char
  }

  /** A zero-padded two-digit decimal, as %I and %M print. */
  function TwoDigits(n: nat): (s: string)
    requires n < 100
    ensures |s| == 2 && IsDigit(s[0]) && IsDigit(s[1])
    ensures 10 * DigitValue(s[0]) + DigitValue(s[1]) == n
  {
    [DigitChar(n / 10), DigitChar(n % 10)]
  }

  /** The hour %I prints: the hour on a 12-hour clock, where 12 stands for 0. */
  function Hour12(hour: nat): (h: nat)
    requires hour < 24
    ensures 1 <= h <= 12 && h % 12 == hour % 12
  {
    if hour % 12 == 0 then 12 else hour % 12
  }

  /** %p in the C locale. */
  function AmPm(hour: nat): (s: string)
    requires hour < 24
    ensures |s| == 2 && s[1] == 'M'
    ensures s[0] == 'A' <==> hour < 12
    ensures s[0] == 'P' <==> 12 <= hour
  {
    if hour < 12 then "AM" else "PM"
  }

  /**
    Digit-level description of a label for minute-of-day m: the shape
    "HH:MM XM", an hour field in 01..12 congruent to m's hour modulo 12,
    a minute field equal to m's minute, and 'A' before noon, 'P' from noon on.
  */
  ghost predicate ShowsMinuteOfDay(s: string, m: nat) {
    && |s| == 8
    && IsDigit(s[0]) && IsDigit(s[1]) && s[2] == ':'
    && IsDigit(s[3]) && IsDigit(s[4]) && s[5] == ' ' && s[7] == 'M'
    && 1 <= 10 * DigitValue(s[0]) + DigitValue(s[1]) <= 12
    && (10 * DigitValue(s[0]) + DigitValue(s[1])) % 12 == (m / MinutesPerHour) % 12
    && 10 * DigitValue(s[3]) + DigitValue(s[4]) == m % MinutesPerHour
    && (s[6] == 'A' <==> m < Noon)
    && (s[6] == 'P' <==> Noon <= m)
  }

  /** `strftime("%I:%M %p")` of a datetime. */
  function Strftime12h(d: DateTime): (s: string)
    requires ValidDateTime(d)
    ensures ShowsMinuteOfDay(s, MinuteOfDay(d))
  {
    TwoDigits(Hour12(d.hour)) + ":" + TwoDigits(d.minute) + " " + AmPm(d.hour)
  }

  /**
    The label of one `time` value: `(datetime.min + timedelta(minutes=t)).strftime("%I:%M %p")`.
    It fails exactly when the sum is out of datetime's range, and otherwise
    shows the minute of the day t falls on.
  */
  function Format12h(t: int): (r: Result<string, Error>)
    ensures r.Success? <==> 0 <= t < MaxOffset
    ensures r.Success? ==> ShowsMinuteOfDay(r.value, t % MinutesPerDay)
  {
    var d :- AddMinutesToMin(t);
    MinuteOfDayIsOffsetModDay(d);
    Success(Strftime12h(d))
  }

  // ---------------------------------------------------------------------
  // Reading a label back

  /** The label language `(0[1-9]|1[0-2]):[0-5][0-9] (AM|PM)`, character by character. */
  predicate MatchesClockPattern(s: string) {
    && |s| == 8
    && ((s[0] == '0' && '1' <= s[1] <= '9') || (s[0] == '1' && '0' <= s[1] <= '2'))
    && s[2] == ':' && '0' <= s[3] <= '5' && IsDigit(s[4]) && s[5] == ' '
    && (s[6] == 'A' || s[6] == 'P') && s[7] == 'M'
  }

  /** How a reader of the chart reads a label: the minute of the day it names. */
  function ParseLabel(s: string): (r: Option<nat>)
    ensures r.Some? <==> MatchesClockPattern(s)
    ensures r.Some? ==> r.value < MinutesPerDay
  {
    if MatchesClockPattern(s) then
      var hh := 10 * DigitValue(s[0]) + DigitValue(s[1]);
      var mm := 10 * DigitValue(s[3]) + DigitValue(s[4]);
      Some((hh % 12) * MinutesPerHour + mm + (if s[6] == 'P' then Noon else 0))
    else
      None
  }

  /** Two decimal digits are determined by the two-digit number they spell. */
  lemma {:induction false} TwoDigitsDetermined(a: char, b: char, c: char, d: char)
    requires IsDigit(a) && IsDigit(b) && IsDigit(c) && IsDigit(d)
    requires 10 * DigitValue(a) + DigitValue(b) == 10 * DigitValue(c) + DigitValue(d)
    ensures a == c && b == d
  {
    assert DigitValue(a) == DigitValue(c);
  }

  /** A label that shows minute-of-day m reads back as m. */
  lemma {:induction false} ShownLabelParses(s: string, m: nat)
    requires m < MinutesPerDay && ShowsMinuteOfDay(s, m)
    ensures ParseLabel(s) == Some(m)
  {
    var hh := 10 * DigitValue(s[0]) + DigitValue(s[1]);
    var mm := 10 * DigitValue(s[3]) + DigitValue(s[4]);
    var h := m / MinutesPerHour;
    assert MatchesClockPattern(s);
    assert m == h * MinutesPerHour + mm;
    if m < Noon {
      assert h < 12 && hh % 12 == h;
    } else {
      assert 12 <= h < 24 && hh % 12 == h - 12;
    }
  }

  /** A label in the clock pattern shows exactly the minute it reads as. */
  lemma {:induction false} ParsedLabelShows(s: string)
    requires MatchesClockPattern(s)
    ensures ParseLabel(s).Some? && ShowsMinuteOfDay(s, ParseLabel(s).value)
  {
    var hh := 10 * DigitValue(s[0]) + DigitValue(s[1]);
    var mm := 10 * DigitValue(s[3]) + DigitValue(s[4]);
    var m := ParseLabel(s).value;
    var pm := if s[6] == 'P' then Noon else 0;
    assert 1 <= hh <= 12 && 0 <= mm < MinutesPerHour;
    assert m == (hh % 12 + pm / MinutesPerHour) * MinutesPerHour + mm;
    assert m / MinutesPerHour == hh % 12 + pm / MinutesPerHour;
    assert m % MinutesPerHour == mm;
  }

  /** Two labels that show the same minute of the day are the same string. */
  lemma {:induction false} ShownLabelUnique(s1: string, s2: string, m: nat)
    requires ShowsMinuteOfDay(s1, m) && ShowsMinuteOfDay(s2, m)
    ensures s1 == s2
  {
    var h1 := 10 * DigitValue(s1[0]) + DigitValue(s1[1]);
    var h2 := 10 * DigitValue(s2[0]) + DigitValue(s2[1]);
    assert h1 == h2 by {
      assert h1 % 12 == h2 % 12;
      if h1 == 12 || h2 == 12 {
        assert h1 % 12 == 0 && h2 % 12 == 0;
      }
    }
    TwoDigitsDetermined(s1[0], s1[1], s2[0], s2[1]);
    TwoDigitsDetermined(s1[3], s1[4], s2[3], s2[4]);
    assert s1[6] == s2[6];
    assert forall i | 0 <= i < 8 :: s1[i] == s2[i];
  }

  /** Reading a label gives back the minute of the day of the offset it was made from. */
  lemma {:induction false} ParseFormat(t: int)
    requires 0 <= t < MaxOffset
    ensures Format12h(t).Success?
    ensures ParseLabel(Format12h(t).value) == Some(t % MinutesPerDay)
  {
    ShownLabelParses(Format12h(t).value, t % MinutesPerDay);
  }

  /** Every label in the clock pattern is the label of the minute of the day it names. */
  lemma {:induction false} FormatParse(s: string)
    requires MatchesClockPattern(s)
    ensures ParseLabel(s).Some? && Format12h(ParseLabel(s).value) == Success(s)
  {
    var m := ParseLabel(s).value;
    ParsedLabelShows(s);
    ShownLabelUnique(s, Format12h(m).value, m);
  }

  /** Every label the conversion produces is in the clock pattern. */
  lemma {:induction false} FormatMatchesPattern(t: int)
    requires 0 <= t < MaxOffset
    ensures Format12h(t).Success? && MatchesClockPattern(Format12h(t).value)
  {
    ParseFormat(t);
  }

  /** Two offsets get the same label exactly when they fall on the same minute of the day. */
  lemma {:induction false} SameLabelIffSameMinuteOfDay(a: int, b: int)
    requires 0 <= a < MaxOffset && 0 <= b < MaxOffset
    ensures Format12h(a) == Format12h(b) <==> a % MinutesPerDay == b % MinutesPerDay
  {
    ParseFormat(a);
    ParseFormat(b);
    if a % MinutesPerDay == b % MinutesPerDay {
      ShownLabelUnique(Format12h(a).value, Format12h(b).value, a % MinutesPerDay);
    }
  }

  /** Offsets past the first day wrap: only the minute of the day is printed. */
  lemma {:induction false} LabelWrapsDaily(t: int)
    requires 0 <= t < MaxOffset
    ensures Format12h(t) == Format12h(t % MinutesPerDay)
  {
    SameLabelIffSameMinuteOfDay(t, t % MinutesPerDay);
  }

  /** A label whose reading is known is the label of that minute. */
  lemma ExampleLabel(s: string, m: nat)
    requires ParseLabel(s) == Some(m)
    ensures Format12h(m) == Success(s)
  {
    FormatParse(s);
  }

  /** Labels around midnight and in the morning. */
  lemma MorningExamples()
    ensures Format12h(0) == Success("12:00 AM")
    ensures Format12h(59) == Success("12:59 AM")
    ensures Format12h(60) == Success("01:00 AM")
    ensures Format12h(719) == Success("11:59 AM")
  {
    ExampleLabel("12:00 AM", 0);
    ExampleLabel("12:59 AM", 59);
    ExampleLabel("01:00 AM", 60);
    ExampleLabel("11:59 AM", 719);
  }

  /** Labels around noon and in the evening. */
  lemma AfternoonExamples()
    ensures Format12h(720) == Success("12:00 PM")
    ensures Format12h(780) == Success("01:00 PM")
    ensures Format12h(1439) == Success("11:59 PM")
  {
    ExampleLabel("12:00 PM", 720);
    ExampleLabel("01:00 PM", 780);
    ExampleLabel("11:59 PM", 1439);
  }

  /** Labels at the edges of datetime's range and past the first day. */
  lemma RangeEdgeExamples()
    ensures Format12h(1440) == Success("12:00 AM")
    ensures Format12h(MaxOffset - 1) == Success("11:59 PM")
    ensures Format12h(MaxOffset) == Failure(OverflowError)
    ensures Format12h(-1) == Failure(OverflowError)
  {
    MorningExamples();
    AfternoonExamples();
    LabelWrapsDaily(1440);
    LabelWrapsDaily(MaxOffset - 1);
  }
}
