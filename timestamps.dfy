/** The two clock renderings the agent writes: `datetime.isoformat()` for the logged
    row and `strftime("%Y-%m-%d_%H-%M-%S")` inside the exported file name. The clock
    itself is not modelled: the caller passes the instant in. */
module Timestamps {
  import opened Wrappers

  /** A `datetime` value, field by field. */
  datatype DateTime = DateTime(year: int, month: int, day: int,
                               hour: int, minute: int, second: int, microsecond: int)

  /** The ranges `datetime` guarantees for each field (day-of-month is bounded by 31
      here; the calendar check is the clock's business). */
  predicate ValidDateTime(t: DateTime) {
    && 1 <= t.year <= 9999 && 1 <= t.month <= 12 && 1 <= t.day <= 31
    && 0 <= t.hour < 24 && 0 <= t.minute < 60 && 0 <= t.second < 60
    && 0 <= t.microsecond < 1000000
  }

  function Pow10(n: nat): (p: nat)
    ensures p >= 1
  {
    if n == 0 then 1 else 10 * Pow10(n - 1)
  }

  predicate IsDigit(c: char) {
    '0' <= c <= '9'
  }

  predicate AllDigits(s: string) {
    forall i :: 0 <= i < |s| ==> IsDigit(s[i])
  }

  /** The decimal digits of `n mod 10^width`, zero-padded to exactly `width` characters
      (`%02d`, `%04d`). */
  function Digits(n: nat, width: nat): (s: string)
    ensures |s| == width && AllDigits(s)
  {
    if width == 0 then ""
    else Digits(n / 10, width - 1) + [('0' as int + n % 10) as char]
  }

  /** The number a string of decimal digits denotes. */
  function DigitsValue(s: string): nat
    requires AllDigits(s)
  {
    if s == "" then 0
    else 10 * DigitsValue(s[..|s| - 1]) + (s[|s| - 1] as int - '0' as int)
  }

  /** Reading back the zero-padded digits of a number that fits the width gives the number. */
  lemma {:induction false} DigitsRoundTrip(n: nat, width: nat)
    requires n < Pow10(width)
    ensures DigitsValue(Digits(n, width)) == n
  {
    if width > 0 {
      var s := Digits(n, width);
      assert s[..|s| - 1] == Digits(n / 10, width - 1);
      assert n / 10 < Pow10(width - 1);
      DigitsRoundTrip(n / 10, width - 1);
    }
  }

  /** Three fields with `sep` between neighbours: `%Y-%m-%d` or `%H:%M:%S`. */
  function Fields3(x: string, sep: char, y: string, z: string): string {
    x + [sep] + y + [sep] + z
  }

  /** `%Y<d>%m<d>%d<m>%H<t>%M<t>%S`: nineteen characters, the date fields separated
      by `dateSep`, date and time by `mid`, the time fields by `timeSep`. */
  function Stamp(t: DateTime, dateSep: char, mid: char, timeSep: char): (s: string)
    requires ValidDateTime(t)
    ensures |s| == 19
  {
    Fields3(Digits(t.year, 4), dateSep, Digits(t.month, 2), Digits(t.day, 2)) + [mid]
    + Fields3(Digits(t.hour, 2), timeSep, Digits(t.minute, 2), Digits(t.second, 2))
  }

  /** Reads the six fields back out of a nineteen-character stamp, whatever its separators;
      the microsecond is zero. */
  function ParseStamp(s: string): Option<DateTime>
  {
    if |s| == 19 && AllDigits(s[0..4]) && AllDigits(s[5..7]) && AllDigits(s[8..10])
       && AllDigits(s[11..13]) && AllDigits(s[14..16]) && AllDigits(s[17..19])
    then Some(DateTime(DigitsValue(s[0..4]), DigitsValue(s[5..7]), DigitsValue(s[8..10]),
                       DigitsValue(s[11..13]), DigitsValue(s[14..16]), DigitsValue(s[17..19]), 0))
    else None
  }

  /** Three fields joined by one separator sit at fixed offsets. */
  lemma ThreeFields(x: string, sep: char, y: string, z: string)
    ensures var w := Fields3(x, sep, y, z);
      && |w| == |x| + |y| + |z| + 2
      && w[..|x|] == x && w[|x|] == sep && w[|x| + 1..|x| + 1 + |y|] == y
      && w[|x| + 1 + |y|] == sep && w[|x| + 2 + |y|..] == z
  {
    var w := x + [sep] + y + [sep] + z;
    assert w == x + ([sep] + y + [sep] + z);
    assert w[|x| + 1..] == y + [sep] + z;
  }

  /** The pieces of a stamp sit at fixed positions. */
  lemma StampSlices(t: DateTime, a: char, b: char, c: char)
    requires ValidDateTime(t)
    ensures var s := Stamp(t, a, b, c);
      && s[0..4] == Digits(t.year, 4) && s[4] == a && s[5..7] == Digits(t.month, 2) && s[7] == a
      && s[8..10] == Digits(t.day, 2) && s[10] == b && s[11..13] == Digits(t.hour, 2)
      && s[13] == c && s[14..16] == Digits(t.minute, 2) && s[16] == c
      && s[17..19] == Digits(t.second, 2)
  {
    var y, mo, d := Digits(t.year, 4), Digits(t.month, 2), Digits(t.day, 2);
    var h, mi, se := Digits(t.hour, 2), Digits(t.minute, 2), Digits(t.second, 2);
    var date := Fields3(y, a, mo, d);
    var time := Fields3(h, c, mi, se);
    var s := Stamp(t, a, b, c);
    ThreeFields(y, a, mo, d);
    ThreeFields(h, c, mi, se);
    assert s[..10] == date && s[10] == b && s[11..] == time;
    assert s[0..4] == date[..4] && s[5..7] == date[5..7] && s[8..10] == date[8..];
    assert s[11..13] == time[..2] && s[14..16] == time[3..5] && s[17..19] == time[6..];
  }

  /** Every stamp of a valid instant reads back to that instant, to the second. */
  lemma StampRoundTrip(t: DateTime, a: char, b: char, c: char)
    requires ValidDateTime(t)
    ensures ParseStamp(Stamp(t, a, b, c)) == Some(t.(microsecond := 0))
  {
    StampSlices(t, a, b, c);
    DigitsRoundTrip(t.year, 4);
    DigitsRoundTrip(t.month, 2);
    DigitsRoundTrip(t.day, 2);
    DigitsRoundTrip(t.hour, 2);
    DigitsRoundTrip(t.minute, 2);
    DigitsRoundTrip(t.second, 2);
  }

  /** `datetime.isoformat()`: `YYYY-MM-DDTHH:MM:SS`, followed by `.ffffff` only when the
      microsecond is not zero. */
  function IsoFormat(t: DateTime): (s: string)
    requires ValidDateTime(t)
    ensures |s| == (if t.microsecond == 0 then 19 else 26)
    ensures t.microsecond != 0 ==> s[19] == '.'
  {
    Stamp(t, '-', 'T', ':') + (if t.microsecond == 0 then "" else "." + Digits(t.microsecond, 6))
  }

  /** Reads an `isoformat()` text of the shape above back into an instant. */
  function ParseIsoFormat(s: string): Option<DateTime>
  {
    if |s| == 19 && s[4] == '-' && s[7] == '-' && s[10] == 'T' && s[13] == ':' && s[16] == ':' then
      ParseStamp(s)
    else if |s| == 26 && s[4] == '-' && s[7] == '-' && s[10] == 'T' && s[13] == ':' && s[16] == ':'
            && s[19] == '.' && AllDigits(s[20..]) then
      match ParseStamp(s[..19])
      case Some(t) => Some(t.(microsecond := DigitsValue(s[20..])))
      case None => None
    else None
  }

  /** Round trip: the logged timestamp determines the instant exactly. */
  lemma IsoFormatRoundTrip(t: DateTime)
    requires ValidDateTime(t)
    ensures ParseIsoFormat(IsoFormat(t)) == Some(t)
  {
    if t.microsecond == 0 {
      IsoFormatWholeRoundTrip(t);
    } else {
      IsoFormatFractionRoundTrip(t);
    }
  }

  /** The round trip when `isoformat()` leaves the `.ffffff` part out. */
  lemma IsoFormatWholeRoundTrip(t: DateTime)
    requires ValidDateTime(t) && t.microsecond == 0
    ensures ParseIsoFormat(IsoFormat(t)) == Some(t)
  {
    var stamp := Stamp(t, '-', 'T', ':');
    assert IsoFormat(t) == stamp + "";
    assert IsoFormat(t) == stamp;
    StampSlices(t, '-', 'T', ':');
    StampRoundTrip(t, '-', 'T', ':');
  }

  /** The round trip when `isoformat()` writes the `.ffffff` part. */
  lemma IsoFormatFractionRoundTrip(t: DateTime)
    requires ValidDateTime(t) && t.microsecond != 0
    ensures ParseIsoFormat(IsoFormat(t)) == Some(t)
  {
    var stamp := Stamp(t, '-', 'T', ':');
    var frac := Digits(t.microsecond, 6);
    var s := IsoFormat(t);
    assert s == stamp + ("." + frac);
    assert s[..19] == stamp && s[19] == '.' && s[20..] == frac;
    StampSlices(t, '-', 'T', ':');
    assert s[4] == stamp[4] && s[7] == stamp[7] && s[10] == stamp[10];
    assert s[13] == stamp[13] && s[16] == stamp[16];
    StampRoundTrip(t, '-', 'T', ':');
    DigitsRoundTrip(t.microsecond, 6);
  }

  const LogPrefix: string := "conversation_log_"
  const LogSuffix: string := ".txt"

  /** `f"conversation_log_{now.strftime('%Y-%m-%d_%H-%M-%S')}.txt"`. */
  function LogFileName(t: DateTime): (name: string)
    requires ValidDateTime(t)
    ensures |name| == 40 && name[..17] == LogPrefix && name[36..] == LogSuffix
  {
    LogPrefix + Stamp(t, '-', '_', '-') + LogSuffix
  }

  /** Reads the instant back out of an export file name. */
  function ParseLogFileName(name: string): Option<DateTime>
  {
    if |name| == 40 && name[..17] == LogPrefix && name[36..] == LogSuffix
       && name[21] == '-' && name[24] == '-' && name[27] == '_' && name[30] == '-' && name[33] == '-'
    then ParseStamp(name[17..36])
    else None
  }

  /** The file name records the export instant to the second: exports in different
      seconds get different names. */
  lemma LogFileNameRoundTrip(t: DateTime)
    requires ValidDateTime(t)
    ensures ParseLogFileName(LogFileName(t)) == Some(t.(microsecond := 0))
  {
    var stamp := Stamp(t, '-', '_', '-');
    var name := LogFileName(t);
    assert name[..17] == LogPrefix && name[17..36] == stamp && name[36..] == LogSuffix;
    StampSlices(t, '-', '_', '-');
    assert name[21] == stamp[4] && name[24] == stamp[7] && name[27] == stamp[10];
    assert name[30] == stamp[13] && name[33] == stamp[16];
    StampRoundTrip(t, '-', '_', '-');
  }

  /** The file name records nothing finer than the second: two exports in the same
      second get the same name, and the later file replaces the earlier one. */
  lemma LogFileNameSameSecond(t: DateTime, t2: DateTime)
    requires ValidDateTime(t) && ValidDateTime(t2)
    requires t2.(microsecond := 0) == t.(microsecond := 0)
    ensures LogFileName(t2) == LogFileName(t)
  {
    assert t2.year == t.year && t2.month == t.month && t2.day == t.day;
    assert t2.hour == t.hour && t2.minute == t.minute && t2.second == t.second;
  }
}
