/**
 * The clock text of the CLOCK view: `formatTime` gives `HH:MM:SS` and
 * `formatDate` gives `DD.MM.YY` with a two-digit Buddhist-era year, both read
 * off the fields of a Bangkok-time date.  The conversion of the wall clock
 * into Bangkok time is not part of this model: its fields are inputs.
 */
module ClockFormat {
  import opened JsStrings

  /** The Buddhist era runs 543 years ahead of the Gregorian calendar. */
  const BUDDHIST_ERA_OFFSET: int := 543

  /**
   * The fields of a JavaScript `Date` that the clock reads: `getFullYear()`,
   * `getMonth()` (zero-based), `getDate()`, `getHours()`, `getMinutes()`,
   * `getSeconds()` and `getMilliseconds()`.
   */
  datatype BangkokTime = BangkokTime(
    year: int, month: nat, date: nat,
    hours: nat, minutes: nat, seconds: nat, milliseconds: nat)

  /**
   * `String(n).padStart(2, "0")`, spelt out by cases (a single digit gets a
   * leading zero, anything longer is left alone); `TwoDigitsIsPadStart`
   * shows the two agree.
   */
  function TwoDigits(n: nat): (s: string)
    ensures AllDigits(s) && |s| >= 2
    ensures n < 100 ==> |s| == 2
  {
    if n < 10 then ['0', DigitChar(n)] else NatToStringShape(n); NatToString(n)
  }

  lemma TwoDigitsIsPadStart(n: nat)
    ensures TwoDigits(n) == PadStart(NatToString(n), 2, '0')
  {
    if n < 10 {
      assert PadStart(NatToString(n), 2, '0') == ['0'] + [DigitChar(n)];
    }
  }

  /** A number below 100 becomes exactly two digits that read back as the number. */
  lemma TwoDigitsRoundTrip(n: nat)
    requires n < 100
    ensures |TwoDigits(n)| == 2
    ensures AllDigits(TwoDigits(n)) && DigitsValue(TwoDigits(n)) == n
  {
    var s := NatToString(n);
    NatToStringValue(n);
    if n < 10 {
      assert TwoDigits(n) == ['0'] + s;
      assert TwoDigits(n)[..1] == ['0'];
    } else {
      assert TwoDigits(n) == s;
    }
  }

  function FormatTime(t: BangkokTime): (r: string)
    ensures |r| >= 8
    ensures t.hours < 100 && t.minutes < 100 && t.seconds < 100 ==> |r| == 8
  {
    TwoDigits(t.hours) + ":" + TwoDigits(t.minutes) + ":" + TwoDigits(t.seconds)
  }

  /** The year part of the date: the last two characters of `String(year + 543)`. */
  function ShortBuddhistYear(year: int): (y: string)
    ensures 1 <= |y| <= 2
  {
    SliceLastTwo(IntToString(year + BUDDHIST_ERA_OFFSET))
  }

  function FormatDate(t: BangkokTime): (r: string)
    ensures |r| >= 7
    ensures t.date < 100 && t.month + 1 < 100 ==> |r| <= 8
  {
    TwoDigits(t.date) + "." + TwoDigits(t.month + 1) + "." + ShortBuddhistYear(t.year)
  }

  /** The two-line clock message written once a second: time, a comma, date. */
  function ClockMessage(t: BangkokTime): string {
    FormatTime(t) + "," + FormatDate(t)
  }

  /** The clock tick power-cycles the USB bus in the first 20 ms of second 59. */
  predicate ShouldResetUsb(t: BangkokTime) {
    t.seconds == 59 && t.milliseconds < 20
  }

  /**
   * For any time a `Date` can give (each field below 100), `formatTime` is
   * `HH:MM:SS`: eight characters, colons at 2 and 5, and each two-digit field
   * reads back as the hour, minute and second.
   */
  lemma FormatTimeLayout(t: BangkokTime)
    requires t.hours < 100 && t.minutes < 100 && t.seconds < 100
    ensures var r := FormatTime(t);
      && |r| == 8 && r[2] == ':' && r[5] == ':'
      && AllDigits(r[0..2]) && DigitsValue(r[0..2]) == t.hours
      && AllDigits(r[3..5]) && DigitsValue(r[3..5]) == t.minutes
      && AllDigits(r[6..8]) && DigitsValue(r[6..8]) == t.seconds
  {
    TwoDigitsRoundTrip(t.hours);
    TwoDigitsRoundTrip(t.minutes);
    TwoDigitsRoundTrip(t.seconds);
    ThreeFields(TwoDigits(t.hours), ':', TwoDigits(t.minutes), TwoDigits(t.seconds));
  }

  /** Three two-character fields joined by a separator sit at 0, 3 and 6. */
  lemma ThreeFields(a: string, sep: char, b: string, c: string)
    requires |a| == 2 && |b| == 2 && |c| == 2
    ensures var r := a + [sep] + b + [sep] + c;
      && |r| == 8 && r[2] == sep && r[5] == sep
      && r[0..2] == a && r[3..5] == b && r[6..8] == c
  {
  }

  /** From ten on, the last two digits of `String(n)` read back as `n % 100`. */
  lemma {:induction false} LastTwoDigits(n: nat)
    requires n >= 10
    ensures |SliceLastTwo(NatToString(n))| == 2
    ensures AllDigits(SliceLastTwo(NatToString(n)))
    ensures DigitsValue(SliceLastTwo(NatToString(n))) == n % 100
  {
    LastTwoCharacters(n);
    DigitPairValue((n / 10) % 10, n % 10);
    LastTwoArithmetic(n);
  }

  /** The last two characters of `String(n)`, from ten on, are its tens and units digits. */
  lemma LastTwoCharacters(n: nat)
    requires n >= 10
    ensures SliceLastTwo(NatToString(n)) == [DigitChar((n / 10) % 10), DigitChar(n % 10)]
  {
    var prefix := NatToString(n / 10);
    assert NatToString(n) == prefix + [DigitChar(n % 10)];
    NatToStringShape(n / 10);
    LastTwoOfAppend(prefix, DigitChar(n % 10));
  }

  /** The last two characters of a non-empty string with one more character appended. */
  lemma LastTwoOfAppend(prefix: string, c: char)
    requires |prefix| >= 1
    ensures SliceLastTwo(prefix + [c]) == [prefix[|prefix| - 1], c]
  {
    var s := prefix + [c];
    assert s[|s| - 2..] == [s[|s| - 2], s[|s| - 1]];
  }

  lemma DigitPairValue(tens: nat, units: nat)
    requires tens < 10 && units < 10
    ensures AllDigits([DigitChar(tens), DigitChar(units)])
    ensures DigitsValue([DigitChar(tens), DigitChar(units)]) == tens * 10 + units
  {
    var r := [DigitChar(tens), DigitChar(units)];
    var first := [DigitChar(tens)];
    assert r[..1] == first;
    assert first[..0] == [];
    assert DigitsValue(first) == tens;
    assert DigitsValue(r) == DigitsValue(first) * 10 + units;
  }

  lemma LastTwoArithmetic(n: nat)
    ensures ((n / 10) % 10) * 10 + n % 10 == n % 100
  {
  }

  /**
   * `formatDate` is `DD.MM.YY` for every date from the Gregorian year -533
   * on: dots at 2 and 5, the day of the month, `getMonth() + 1`, and the
   * Buddhist year modulo 100.
   */
  lemma FormatDateLayout(t: BangkokTime)
    requires t.date < 100 && t.month + 1 < 100
    requires t.year + BUDDHIST_ERA_OFFSET >= 10
    ensures var r := FormatDate(t);
      && |r| == 8 && r[2] == '.' && r[5] == '.'
      && AllDigits(r[0..2]) && DigitsValue(r[0..2]) == t.date
      && AllDigits(r[3..5]) && DigitsValue(r[3..5]) == t.month + 1
      && AllDigits(r[6..8]) && DigitsValue(r[6..8]) == (t.year + BUDDHIST_ERA_OFFSET) % 100
  {
    var a, b, c := TwoDigits(t.date), TwoDigits(t.month + 1), ShortBuddhistYear(t.year);
    assert FormatDate(t) == a + ['.'] + b + ['.'] + c;
    TwoDigitsRoundTrip(t.date);
    TwoDigitsRoundTrip(t.month + 1);
    ShortBuddhistYearDigits(t.year);
    ThreeFields(a, '.', b, c);
  }

  /** From the Buddhist year 10 on, the short year is two digits reading back as the year modulo 100. */
  lemma ShortBuddhistYearDigits(year: int)
    requires year + BUDDHIST_ERA_OFFSET >= 10
    ensures |ShortBuddhistYear(year)| == 2 && AllDigits(ShortBuddhistYear(year))
    ensures DigitsValue(ShortBuddhistYear(year)) == (year + BUDDHIST_ERA_OFFSET) % 100
  {
    LastTwoDigits(year + BUDDHIST_ERA_OFFSET);
    assert ShortBuddhistYear(year) == SliceLastTwo(NatToString(year + BUDDHIST_ERA_OFFSET));
  }

  /** The clock message is seventeen characters with its comma at 8, so its two lines are the time and the date. */
  lemma ClockMessageLayout(t: BangkokTime)
    requires t.hours < 100 && t.minutes < 100 && t.seconds < 100
    requires t.date < 100 && t.month + 1 < 100
    requires t.year + BUDDHIST_ERA_OFFSET >= 10
    ensures var r := ClockMessage(t);
      && |r| == 17 && r[8] == ','
      && r[..8] == FormatTime(t) && r[9..] == FormatDate(t)
  {
    FormatTimeLayout(t);
    FormatDateLayout(t);
    TwoLines(FormatTime(t), ',', FormatDate(t));
  }

  /** A line of eight characters, a separator and a second line. */
  lemma TwoLines(a: string, sep: char, b: string)
    requires |a| == 8
    ensures var r := a + [sep] + b;
      && |r| == 9 + |b| && r[8] == sep && r[..8] == a && r[9..] == b
  {
  }
}
