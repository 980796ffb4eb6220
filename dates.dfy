/** The feed's report time, `YYYY-MM-DD HH:MM:SS` in UTC
    (src/contest_scoreboard_monitor/station_data.py:64-65).

    `datetime.strptime` is modelled as a strict fixed-width parser: every
    field has exactly its full number of digits, the separators are exactly
    `-`, ` ` and `:`, and the calendar is checked (month 1-12, day within the
    month with leap years, hour < 24, minute and second < 60, year 1-9999).
    A parsed time is a count of seconds since 0001-01-01 00:00:00 UTC, so
    `timedelta(minutes=10)` is 600. */
module Dates {
  import opened Wrappers
  import opened Decimal

  datatype DateTime = DateTime(year: int, month: int, day: int, hour: int, minute: int, second: int)

  predicate IsLeap(y: int) {
    y % 4 == 0 && (y % 100 != 0 || y % 400 == 0)
  }

  function DaysInMonth(y: int, m: int): (n: int)
    requires 1 <= m <= 12
    ensures 28 <= n <= 31
  {
    if m == 2 then (if IsLeap(y) then 29 else 28)
    else if m == 4 || m == 6 || m == 9 || m == 11 then 30
    else 31
  }

  /** The calendar check `datetime` applies to the parsed fields. */
  predicate ValidDateTime(dt: DateTime) {
    1 <= dt.year <= 9999 && 1 <= dt.month <= 12 && 1 <= dt.day <= DaysInMonth(dt.year, dt.month) &&
    0 <= dt.hour < 24 && 0 <= dt.minute < 60 && 0 <= dt.second < 60
  }

  /** The text `strftime('%Y-%m-%d %H:%M:%S')` gives for a valid time. */
  function Format(dt: DateTime): (s: string)
    requires ValidDateTime(dt)
    ensures |s| == 19
  {
    Padded(dt.year, 4) + "-" + Padded(dt.month, 2) + "-" + Padded(dt.day, 2) + " " +
    Padded(dt.hour, 2) + ":" + Padded(dt.minute, 2) + ":" + Padded(dt.second, 2)
  }

  predicate DigitsAt(s: string, lo: nat, hi: nat)
    requires lo <= hi <= |s|
  {
    AllDigits(s[lo..hi])
  }

  /** True iff `s` has the shape `DDDD-DD-DD DD:DD:DD`. */
  predicate WellShaped(s: string) {
    |s| == 19 &&
    DigitsAt(s, 0, 4) && s[4] == '-' && DigitsAt(s, 5, 7) && s[7] == '-' && DigitsAt(s, 8, 10) &&
    s[10] == ' ' && DigitsAt(s, 11, 13) && s[13] == ':' && DigitsAt(s, 14, 16) && s[16] == ':' &&
    DigitsAt(s, 17, 19)
  }

  function FieldsOf(s: string): DateTime
    requires WellShaped(s)
  {
    DateTime(DigitsValue(s[0..4]), DigitsValue(s[5..7]), DigitsValue(s[8..10]),
             DigitsValue(s[11..13]), DigitsValue(s[14..16]), DigitsValue(s[17..19]))
  }

  /** The fields of a report time, or None where `strptime` raises ValueError. */
  function ParseFields(s: string): Option<DateTime> {
    if WellShaped(s) && ValidDateTime(FieldsOf(s)) then Some(FieldsOf(s)) else None
  }

  /** Python's `date.toordinal()`: day 1 is 0001-01-01. */
  function Ordinal(y: int, m: int, d: int): int
    requires 1 <= y && 1 <= m <= 12
  {
    DaysBeforeYear(y) + DaysBeforeMonth(y, m) + d
  }

  function DaysBeforeYear(y: int): int
    requires 1 <= y
  {
    var p := y - 1;
    p * 365 + p / 4 - p / 100 + p / 400
  }

  function DaysBeforeMonth(y: int, m: int): (n: int)
    requires 1 <= m <= 12
    ensures 0 <= n <= 31 * (m - 1)
    decreases m
  {
    if m == 1 then 0 else DaysBeforeMonth(y, m - 1) + DaysInMonth(y, m - 1)
  }

  /** Seconds since 0001-01-01 00:00:00 UTC. */
  function ToSeconds(dt: DateTime): int
    requires ValidDateTime(dt)
  {
    (Ordinal(dt.year, dt.month, dt.day) - 1) * 86400 + dt.hour * 3600 + dt.minute * 60 + dt.second
  }

  /** `datetime.strptime(s, '%Y-%m-%d %H:%M:%S').replace(tzinfo=timezone.utc)`,
      as seconds; None where it raises. */
  function ParseDate(s: string): Option<int> {
    match ParseFields(s)
    case Some(dt) => Some(ToSeconds(dt))
    case None => None
  }

  /** Six fields of widths 4, 2, 2, 2, 2, 2 joined by the separators sit at
      fixed positions of the 19-character result. */
  lemma Joined(a: string, b: string, c: string, d: string, e: string, f: string)
    requires |a| == 4 && |b| == 2 && |c| == 2 && |d| == 2 && |e| == 2 && |f| == 2
    ensures var s := a + "-" + b + "-" + c + " " + d + ":" + e + ":" + f;
      |s| == 19 && s[0..4] == a && s[4] == '-' && s[5..7] == b && s[7] == '-' && s[8..10] == c &&
      s[10] == ' ' && s[11..13] == d && s[13] == ':' && s[14..16] == e && s[16] == ':' && s[17..19] == f
  {
    var p1 := a + "-" + b;
    var p2 := p1 + "-" + c;
    var p3 := p2 + " " + d;
    var p4 := p3 + ":" + e;
    var s := p4 + ":" + f;
    assert p1[0..4] == a && p1[5..7] == b;
    assert p2[..7] == p1 && p2[8..10] == c;
    assert p3[..10] == p2 && p3[11..13] == d;
    assert p4[..13] == p3 && p4[14..16] == e;
    assert s[..16] == p4 && s[17..19] == f;
  }

  lemma FormatShape(dt: DateTime)
    requires ValidDateTime(dt)
    ensures WellShaped(Format(dt))
    ensures FieldsOf(Format(dt)) == dt
  {
    PaddedValue(dt.year, 4);
    PaddedValue(dt.month, 2);
    PaddedValue(dt.day, 2);
    PaddedValue(dt.hour, 2);
    PaddedValue(dt.minute, 2);
    PaddedValue(dt.second, 2);
    Joined(Padded(dt.year, 4), Padded(dt.month, 2), Padded(dt.day, 2),
           Padded(dt.hour, 2), Padded(dt.minute, 2), Padded(dt.second, 2));
  }

  /** Every valid time survives printing and parsing. */
  lemma ParseFormat(dt: DateTime)
    requires ValidDateTime(dt)
    ensures ParseFields(Format(dt)) == Some(dt)
    ensures ParseDate(Format(dt)) == Some(ToSeconds(dt))
  {
    FormatShape(dt);
  }

  /** A 19-character text is its six fields joined by the five separators. */
  lemma Reassemble(s: string)
    requires |s| == 19 && s[4] == '-' && s[7] == '-' && s[10] == ' ' && s[13] == ':' && s[16] == ':'
    ensures s == s[0..4] + "-" + s[5..7] + "-" + s[8..10] + " " + s[11..13] + ":" + s[14..16] + ":" + s[17..19]
  {
    var t := s[0..4] + "-" + s[5..7] + "-" + s[8..10] + " " + s[11..13] + ":" + s[14..16] + ":" + s[17..19];
    assert |t| == 19;
    forall i | 0 <= i < 19
      ensures t[i] == s[i]
    {
    }
  }

  /** The parser accepts exactly the printed forms of valid times: what it
      accepts is valid and prints back to the very same text. */
  lemma FormatParse(s: string, dt: DateTime)
    requires ParseFields(s) == Some(dt)
    ensures ValidDateTime(dt) && Format(dt) == s
  {
    assert WellShaped(s) && dt == FieldsOf(s);
    PaddedOfValue(s[0..4]);
    PaddedOfValue(s[5..7]);
    PaddedOfValue(s[8..10]);
    PaddedOfValue(s[11..13]);
    PaddedOfValue(s[14..16]);
    PaddedOfValue(s[17..19]);
    Reassemble(s);
  }

  /** Chronological order of valid times: year, then month, day, hour,
      minute, second. */
  predicate Before(a: DateTime, b: DateTime) {
    a.year < b.year ||
    (a.year == b.year && (a.month < b.month ||
    (a.month == b.month && (a.day < b.day ||
    (a.day == b.day && (a.hour < b.hour ||
    (a.hour == b.hour && (a.minute < b.minute ||
    (a.minute == b.minute && a.second < b.second)))))))))
  }

  lemma {:induction false} DaysBeforeMonthGrows(y: int, m: int, m': int)
    requires 1 <= m < m' <= 12
    ensures DaysBeforeMonth(y, m) + DaysInMonth(y, m) <= DaysBeforeMonth(y, m')
    decreases m'
  {
    if m + 1 < m' {
      DaysBeforeMonthGrows(y, m, m' - 1);
    }
  }

  lemma DaysBeforeDecember(y: int)
    ensures DaysBeforeMonth(y, 12) + 31 == if IsLeap(y) then 366 else 365
  {
    assert DaysBeforeMonth(y, 2) == 31;
    assert DaysBeforeMonth(y, 3) == 31 + DaysInMonth(y, 2);
    assert DaysBeforeMonth(y, 4) == 62 + DaysInMonth(y, 2);
    assert DaysBeforeMonth(y, 5) == 92 + DaysInMonth(y, 2);
    assert DaysBeforeMonth(y, 6) == 123 + DaysInMonth(y, 2);
    assert DaysBeforeMonth(y, 7) == 153 + DaysInMonth(y, 2);
    assert DaysBeforeMonth(y, 8) == 184 + DaysInMonth(y, 2);
    assert DaysBeforeMonth(y, 9) == 215 + DaysInMonth(y, 2);
    assert DaysBeforeMonth(y, 10) == 245 + DaysInMonth(y, 2);
    assert DaysBeforeMonth(y, 11) == 276 + DaysInMonth(y, 2);
    assert DaysBeforeMonth(y, 12) == 306 + DaysInMonth(y, 2);
  }

  lemma DaysBeforeNextYear(y: int)
    requires 1 <= y
    ensures DaysBeforeYear(y + 1) == DaysBeforeYear(y) + if IsLeap(y) then 366 else 365
  {
    var p := y - 1;
    QuotientStep4(p);
    QuotientStep100(p);
    QuotientStep400(p);
    LeapCount(y);
    assert DaysBeforeYear(y + 1) == p * 365 + 365 + (p + 1) / 4 - (p + 1) / 100 + (p + 1) / 400;
  }

  /** Leap years are the multiples of 4, less those of 100, plus those of 400. */
  lemma LeapCount(y: int)
    ensures (if y % 4 == 0 then 1 else 0) - (if y % 100 == 0 then 1 else 0) + (if y % 400 == 0 then 1 else 0)
      == if IsLeap(y) then 1 else 0
  {
    if y % 400 == 0 {
      Multiple400(y);
    }
    if y % 100 == 0 {
      Multiple100(y);
    }
  }

  lemma Multiple100(y: int)
    requires y % 100 == 0
    ensures y % 4 == 0
  {
    var k := y / 100;
    assert y == 4 * (25 * k);
  }

  lemma Multiple400(y: int)
    requires y % 400 == 0
    ensures y % 100 == 0
  {
    var k := y / 400;
    assert y == 100 * (4 * k);
  }

  lemma QuotientStep4(p: nat)
    ensures (p + 1) / 4 == p / 4 + (if (p + 1) % 4 == 0 then 1 else 0)
  {
  }

  lemma QuotientStep100(p: nat)
    ensures (p + 1) / 100 == p / 100 + (if (p + 1) % 100 == 0 then 1 else 0)
  {
  }

  lemma QuotientStep400(p: nat)
    ensures (p + 1) / 400 == p / 400 + (if (p + 1) % 400 == 0 then 1 else 0)
  {
  }

  /** Every day of year `y` comes before the first day of any later year. */
  lemma {:induction false} OrdinalBeforeLaterYear(y: int, m: int, d: int, y': int)
    requires 1 <= y < y' && 1 <= m <= 12 && 1 <= d <= DaysInMonth(y, m)
    ensures Ordinal(y, m, d) <= DaysBeforeYear(y')
    decreases y' - y
  {
    if y + 1 < y' {
      OrdinalBeforeLaterYear(y, m, d, y' - 1);
      DaysBeforeNextYear(y' - 1);
    } else {
      DaysBeforeNextYear(y);
      DaysBeforeDecember(y);
      if m < 12 {
        DaysBeforeMonthGrows(y, m, 12);
      }
    }
  }

  /** Seconds since the epoch follow chronological order. */
  lemma ToSecondsMonotone(a: DateTime, b: DateTime)
    requires ValidDateTime(a) && ValidDateTime(b) && Before(a, b)
    ensures ToSeconds(a) < ToSeconds(b)
  {
    var oa, ob := Ordinal(a.year, a.month, a.day), Ordinal(b.year, b.month, b.day);
    if a.year < b.year {
      OrdinalBeforeLaterYear(a.year, a.month, a.day, b.year);
      assert oa < ob;
    } else if a.month < b.month {
      DaysBeforeMonthGrows(a.year, a.month, b.month);
      assert oa < ob;
    }
    assert oa <= ob;
    if oa < ob {
      assert (oa - 1) * 86400 + 86400 <= (ob - 1) * 86400;
    }
  }

  /** Two valid times are equal exactly when their second counts are, so
      comparing dates compares the calendar times they hold. */
  lemma ToSecondsInjective(a: DateTime, b: DateTime)
    requires ValidDateTime(a) && ValidDateTime(b)
    ensures ToSeconds(a) == ToSeconds(b) <==> a == b
  {
    if Before(a, b) {
      ToSecondsMonotone(a, b);
    } else if Before(b, a) {
      ToSecondsMonotone(b, a);
    }
  }
}
