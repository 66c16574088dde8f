/**
 * The request timestamp: `datetime.now(timezone.utc).isoformat(timespec='milliseconds')`
 * with the `+00:00` offset replaced by `Z`, e.g. `2024-01-15T10:30:00.123Z`.
 * The clock itself is not modelled: the current instant is a parameter.
 */
module Timestamp {
  import opened Wrappers
  import opened Text

  /** The fields of an aware UTC `datetime`. */
  datatype Instant = Instant(year: int, month: int, day: int,
                             hour: int, minute: int, second: int, microsecond: int)

  predicate IsLeapYear(y: int) {
    y % 4 == 0 && (y % 100 != 0 || y % 400 == 0)
  }

  function DaysInMonth(y: int, m: int): int
    requires 1 <= m <= 12
  {
    if m == 2 then (if IsLeapYear(y) then 29 else 28)
    else if m == 4 || m == 6 || m == 9 || m == 11 then 30
    else 31
  }

  /** The range of Python's `datetime`. */
  predicate Valid(t: Instant) {
    && 1 <= t.year <= 9999
    && 1 <= t.month <= 12
    && 1 <= t.day <= DaysInMonth(t.year, t.month)
    && 0 <= t.hour < 24
    && 0 <= t.minute < 60
    && 0 <= t.second < 60
    && 0 <= t.microsecond < 1000000
  }

  /** The instant as far as millisecond precision keeps it. */
  function Truncated(t: Instant): Instant {
    t.(microsecond := t.microsecond / 1000 * 1000)
  }

  /** `YYYY-MM-DD`. */
  function DatePart(t: Instant): string
    requires Valid(t)
  {
    Pad(t.year, 4) + "-" + Pad(t.month, 2) + "-" + Pad(t.day, 2)
  }

  /** `hh:mm:ss.sss`, the microseconds truncated to milliseconds. */
  function TimePart(t: Instant): string
    requires Valid(t)
  {
    Pad(t.hour, 2) + ":" + Pad(t.minute, 2) + ":" + Pad(t.second, 2) + "." + Pad(t.microsecond / 1000, 3)
  }

  /** `YYYY-MM-DDThh:mm:ss.sss`: the date and time part of `isoformat(timespec='milliseconds')`. */
  function DateTimeMillis(t: Instant): string
    requires Valid(t)
  {
    DatePart(t) + "T" + TimePart(t)
  }

  /** `isoformat(timespec='milliseconds')` of an aware UTC datetime (milliseconds are truncated, not rounded). */
  function IsoFormatMillis(t: Instant): string
    requires Valid(t)
  {
    DateTimeMillis(t) + "+00:00"
  }

  /** The wire format: 24 characters, digits and fixed separators, ending in a literal `Z`. */
  predicate WellFormed(s: string) {
    && |s| == 24
    && AllDigits(s[0..4]) && s[4] == '-' && AllDigits(s[5..7]) && s[7] == '-' && AllDigits(s[8..10])
    && s[10] == 'T' && AllDigits(s[11..13]) && s[13] == ':' && AllDigits(s[14..16]) && s[16] == ':'
    && AllDigits(s[17..19]) && s[19] == '.' && AllDigits(s[20..23]) && s[23] == 'Z'
  }

  /** The timestamp every signer in the repository puts in front of the message it signs. */
  function UtcTimestamp(t: Instant): (r: string)
    requires Valid(t)
    ensures WellFormed(r)
    ensures r == DateTimeMillis(t) + "Z"
  {
    DateTimeShape(t);
    ReplaceSuffix(DateTimeMillis(t), "+00:00", "Z");
    Replace(IsoFormatMillis(t), "+00:00", "Z")
  }

  /** Reads a well-formed timestamp back into the instant it denotes. */
  function Parse(s: string): Option<Instant> {
    if !WellFormed(s) then None
    else
      var t := Instant(DigitsValue(s[0..4]), DigitsValue(s[5..7]), DigitsValue(s[8..10]),
                       DigitsValue(s[11..13]), DigitsValue(s[14..16]), DigitsValue(s[17..19]),
                       1000 * DigitsValue(s[20..23]));
      if Valid(t) then Some(t) else None
  }

  lemma DatePartShape(t: Instant)
    requires Valid(t)
    ensures var d := DatePart(t);
      && |d| == 10 && '+' !in d
      && d[0..4] == Pad(t.year, 4) && d[4] == '-' && d[5..7] == Pad(t.month, 2) && d[7] == '-'
      && d[8..10] == Pad(t.day, 2)
  {
    var d := DatePart(t);
    forall i | 0 <= i < 10 ensures d[i] != '+' {
    }
  }

  lemma TimePartShape(t: Instant)
    requires Valid(t)
    ensures var c := TimePart(t);
      && |c| == 12 && '+' !in c
      && c[0..2] == Pad(t.hour, 2) && c[2] == ':' && c[3..5] == Pad(t.minute, 2) && c[5] == ':'
      && c[6..8] == Pad(t.second, 2) && c[8] == '.' && c[9..12] == Pad(t.microsecond / 1000, 3)
  {
    var c := TimePart(t);
    forall i | 0 <= i < 12 ensures c[i] != '+' {
    }
  }

  lemma DateTimeShape(t: Instant)
    requires Valid(t)
    ensures WellFormed(DateTimeMillis(t) + "Z")
    ensures '+' !in DateTimeMillis(t)
    ensures var s := DateTimeMillis(t) + "Z";
      && s[0..4] == Pad(t.year, 4) && s[5..7] == Pad(t.month, 2) && s[8..10] == Pad(t.day, 2)
      && s[11..13] == Pad(t.hour, 2) && s[14..16] == Pad(t.minute, 2) && s[17..19] == Pad(t.second, 2)
      && s[20..23] == Pad(t.microsecond / 1000, 3)
  {
    DatePartShape(t);
    TimePartShape(t);
    var d, c := DatePart(t), TimePart(t);
    var s := DateTimeMillis(t) + "Z";
    assert s == d + "T" + c + "Z";
    assert s[0..10] == d;
    assert s[11..23] == c;
    assert s[0..4] == d[0..4] && s[5..7] == d[5..7] && s[8..10] == d[8..10];
    assert s[11..13] == c[0..2] && s[14..16] == c[3..5] && s[17..19] == c[6..8] && s[20..23] == c[9..12];
  }

  /** Each field of a timestamp reads back as the value it was written from. */
  lemma FieldsReadBack(t: Instant)
    requires Valid(t)
    ensures var s := DateTimeMillis(t) + "Z";
      && WellFormed(s)
      && DigitsValue(s[0..4]) == t.year && DigitsValue(s[5..7]) == t.month && DigitsValue(s[8..10]) == t.day
      && DigitsValue(s[11..13]) == t.hour && DigitsValue(s[14..16]) == t.minute
      && DigitsValue(s[17..19]) == t.second && DigitsValue(s[20..23]) == t.microsecond / 1000
  {
    DateTimeShape(t);
    PadRoundTrip(t.year, 4);
    PadRoundTrip(t.month, 2);
    PadRoundTrip(t.day, 2);
    PadRoundTrip(t.hour, 2);
    PadRoundTrip(t.minute, 2);
    PadRoundTrip(t.second, 2);
    PadRoundTrip(t.microsecond / 1000, 3);
  }

  /** Formatting then parsing gives back the instant, truncated to milliseconds. */
  lemma ParseRoundTrip(t: Instant)
    requires Valid(t)
    ensures Parse(UtcTimestamp(t)) == Some(Truncated(t))
  {
    var s := UtcTimestamp(t);
    assert s == DateTimeMillis(t) + "Z";
    FieldsReadBack(t);
    var u := Instant(DigitsValue(s[0..4]), DigitsValue(s[5..7]), DigitsValue(s[8..10]),
                     DigitsValue(s[11..13]), DigitsValue(s[14..16]), DigitsValue(s[17..19]),
                     1000 * DigitsValue(s[20..23]));
    assert u == Truncated(t);
  }

  /** Two instants give the same timestamp exactly when they agree up to the millisecond. */
  lemma TimestampInjective(t1: Instant, t2: Instant)
    requires Valid(t1) && Valid(t2)
    ensures UtcTimestamp(t1) == UtcTimestamp(t2) <==> Truncated(t1) == Truncated(t2)
  {
    ParseRoundTrip(t1);
    ParseRoundTrip(t2);
    if Truncated(t1) == Truncated(t2) {
      assert t1.microsecond / 1000 == t2.microsecond / 1000;
    }
  }
}
