/**
 * Wall-clock readings (`datetime.now()`) and the two `strftime` formats the
 * builder uses: `'%Y-%d-%m'` for output file names and
 * `"%a %b %d %H:%M:%S %Y"` for the build record.
 */
module Dates {
  import opened Decimal

  /** Python 2's `strftime` refuses years before 1900. */
  type Year = y: int | 1900 <= y <= 9999 witness 1900
  type Month = m: int | 1 <= m <= 12 witness 1
  type Day = d: int | 1 <= d <= 31 witness 1
  type Hour = h: int | 0 <= h < 24
  type Minute = m: int | 0 <= m < 60
  type Second = s: int | 0 <= s < 60
  /** Monday is 0, as `datetime.weekday()` counts. */
  type Weekday = w: int | 0 <= w < 7

  datatype DateTime = DateTime(
    year: Year, month: Month, day: Day,
    hour: Hour, minute: Minute, second: Second,
    weekday: Weekday)

  /** Two-digit, zero-padded rendering (`%d`, `%m`, `%H`, `%M`, `%S`). */
  function Pad2(n: nat): (s: string)
    requires n < 100
    ensures |s| == 2 && AllDigits(s) && ParseDigits(s) == n
  {
    var s := [DigitChar(n / 10), DigitChar(n % 10)];
    assert s[..1] == [DigitChar(n / 10)] && [DigitChar(n / 10)][..0] == [];
    assert ParseDigits(s[..1]) == n / 10;
    assert ParseDigits(s) == (n / 10) * 10 + n % 10;
    s
  }

  /** `strftime('%Y-%d-%m')`: year, then day, then month. */
  function Stamp(d: DateTime): string {
    Digits(d.year) + "-" + Pad2(d.day) + "-" + Pad2(d.month)
  }

  predicate IsStamp(s: string) {
    |s| == 10 && s[4] == '-' && s[7] == '-' &&
    AllDigits(s[..4]) && AllDigits(s[5..7]) && AllDigits(s[8..])
  }

  /** Reads a `'%Y-%d-%m'` stamp back as (year, day, month). */
  function ParseStamp(s: string): (int, int, int)
    requires IsStamp(s)
  {
    (ParseDigits(s[..4]), ParseDigits(s[5..7]), ParseDigits(s[8..]))
  }

  lemma YearDigits(y: Year)
    ensures |Digits(y)| == 4
  {
    var a := y / 10;
    assert 190 <= a < 1000;
    var b := a / 10;
    assert 19 <= b < 100;
    var c := b / 10;
    assert 1 <= c < 10;
    assert |Digits(c)| == 1;
    assert |Digits(b)| == 2;
    assert |Digits(a)| == 3;
  }

  /** The stamp is ten characters and determines the date it was made from. */
  lemma StampRoundTrip(d: DateTime)
    ensures IsStamp(Stamp(d))
    ensures ParseStamp(Stamp(d)) == (d.year as int, d.day as int, d.month as int)
  {
    YearDigits(d.year);
    var s := Stamp(d);
    assert s[..4] == Digits(d.year);
    assert s[5..7] == Pad2(d.day);
    assert s[8..] == Pad2(d.month);
    ParseDigitsOfDigits(d.year);
  }

  /** Two readings give the same stamp exactly when they fall on the same calendar day. */
  lemma StampSameDay(a: DateTime, b: DateTime)
    ensures Stamp(a) == Stamp(b) <==> (a.year == b.year && a.month == b.month && a.day == b.day)
  {
    StampRoundTrip(a);
    StampRoundTrip(b);
  }

  function WeekdayName(w: Weekday): (s: string)
    ensures |s| == 3
  {
    ["Mon", "Tue", "Wed", "Thu", "Fri", "Sat", "Sun"][w]
  }

  function MonthName(m: Month): (s: string)
    ensures |s| == 3
  {
    ["Jan", "Feb", "Mar", "Apr", "May", "Jun", "Jul", "Aug", "Sep", "Oct", "Nov", "Dec"][m - 1]
  }

  /** `strftime("%a %b %d %H:%M:%S %Y")`, the build module's `DATE_FORMAT`. */
  function Format(d: DateTime): (s: string)
    ensures |s| == 24
  {
    YearDigits(d.year);
    WeekdayName(d.weekday) + " " + MonthName(d.month) + " " + Pad2(d.day) + " " +
    Pad2(d.hour) + ":" + Pad2(d.minute) + ":" + Pad2(d.second) + " " + Digits(d.year)
  }

  /** The columns of the `"%a %b %d "` part of the format. */
  lemma DateColumns(w: string, m: string, dd: string)
    requires |w| == 3 && |m| == 3 && |dd| == 2
    ensures var h := w + " " + m + " " + dd + " ";
      |h| == 11 && h[..3] == w && h[3] == ' ' && h[4..7] == m && h[7] == ' ' && h[8..10] == dd && h[10] == ' '
  {
    var h := w + " " + m + " " + dd + " ";
    assert h[4..7] == m by { assert forall k :: 0 <= k < 3 ==> h[4 + k] == m[k]; }
    assert h[8..10] == dd by { assert forall k :: 0 <= k < 2 ==> h[8 + k] == dd[k]; }
  }

  /** The columns of the `"%H:%M:%S "` part of the format. */
  lemma TimeColumns(hh: string, mm: string, ss: string)
    requires |hh| == 2 && |mm| == 2 && |ss| == 2
    ensures var c := hh + ":" + mm + ":" + ss + " ";
      |c| == 9 && c[..2] == hh && c[2] == ':' && c[3..5] == mm && c[5] == ':' && c[6..8] == ss && c[8] == ' '
  {
    var c := hh + ":" + mm + ":" + ss + " ";
    assert c[3..5] == mm by { assert forall k :: 0 <= k < 2 ==> c[3 + k] == mm[k]; }
    assert c[6..8] == ss by { assert forall k :: 0 <= k < 2 ==> c[6 + k] == ss[k]; }
  }

  /**
   * Each field of the date sits at its fixed column of the formatted text,
   * between single spaces and colons, and every numeric field reads back as
   * the value it was made from.
   */
  lemma FormatFields(d: DateTime)
    ensures var s := Format(d);
      && s[..3] == WeekdayName(d.weekday) && s[3] == ' '
      && s[4..7] == MonthName(d.month) && s[7] == ' '
      && s[8..10] == Pad2(d.day) && ParseDigits(s[8..10]) == d.day && s[10] == ' '
      && s[11..13] == Pad2(d.hour) && ParseDigits(s[11..13]) == d.hour && s[13] == ':'
      && s[14..16] == Pad2(d.minute) && ParseDigits(s[14..16]) == d.minute && s[16] == ':'
      && s[17..19] == Pad2(d.second) && ParseDigits(s[17..19]) == d.second && s[19] == ' '
      && s[20..] == Digits(d.year) && ParseDigits(s[20..]) == d.year
  {
    YearDigits(d.year);
    ParseDigitsOfDigits(d.year);
    var s := Format(d);
    var head := WeekdayName(d.weekday) + " " + MonthName(d.month) + " " + Pad2(d.day) + " ";
    var time := Pad2(d.hour) + ":" + Pad2(d.minute) + ":" + Pad2(d.second) + " ";
    DateColumns(WeekdayName(d.weekday), MonthName(d.month), Pad2(d.day));
    TimeColumns(Pad2(d.hour), Pad2(d.minute), Pad2(d.second));
    assert s == head + time + Digits(d.year);
    assert s[..11] == head && s[11..20] == time && s[20..] == Digits(d.year);
    assert s[..3] == head[..3] && s[4..7] == head[4..7] && s[8..10] == head[8..10];
    assert s[11..13] == time[..2] && s[14..16] == time[3..5] && s[17..19] == time[6..8];
  }
}
