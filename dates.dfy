/** `current_date` and `previous_date` of `python/date_converters.py`, with the clock
    reading `datetime.now()` passed in as `now`. Only the calendar date of `now` matters:
    subtracting `timedelta(days=1)` keeps the time of day. */
module Dates {
  import opened Wrappers
  import opened PyValues
  import opened Text

  /** The calendar date of a `datetime`. */
  datatype Date = Date(year: int, month: int, day: int)

  /** `datetime.MINYEAR` and `datetime.MAXYEAR` */
  const MinYear := 1
  const MaxYear := 9999

  /** Gregorian leap years. */
  predicate IsLeap(year: int)
  {
    year % 4 == 0 && (year % 100 != 0 || year % 400 == 0)
  }

  function DaysInMonth(year: int, month: int): (n: int)
    requires 1 <= month <= 12
    ensures 28 <= n <= 31
  {
    if month == 2 then (if IsLeap(year) then 29 else 28)
    else if month == 4 || month == 6 || month == 9 || month == 11 then 30
    else 31
  }

  /** A date `datetime` can represent. */
  predicate Valid(d: Date)
  {
    MinYear <= d.year <= MaxYear && 1 <= d.month <= 12 && 1 <= d.day <= DaysInMonth(d.year, d.month)
  }

  /** `d - timedelta(days=1)`: `None` where `datetime` raises `OverflowError`, below
      0001-01-01. */
  function PreviousDay(d: Date): (r: Option<Date>)
    requires Valid(d)
    ensures r.None? <==> d == Date(MinYear, 1, 1)
    ensures r.Some? ==> Valid(r.value)
  {
    if d.day > 1 then Some(d.(day := d.day - 1))
    else if d.month > 1 then Some(Date(d.year, d.month - 1, DaysInMonth(d.year, d.month - 1)))
    else if d.year > MinYear then Some(Date(d.year - 1, 12, 31))
    else None
  }

  /** `d + timedelta(days=1)`, the partner of `PreviousDay`. */
  function NextDay(d: Date): (r: Option<Date>)
    requires Valid(d)
    ensures r.None? <==> d == Date(MaxYear, 12, 31)
    ensures r.Some? ==> Valid(r.value)
  {
    if d.day < DaysInMonth(d.year, d.month) then Some(d.(day := d.day + 1))
    else if d.month < 12 then Some(Date(d.year, d.month + 1, 1))
    else if d.year < MaxYear then Some(Date(d.year + 1, 1, 1))
    else None
  }

  /** Going back a day and forward again returns to the same date, and so does going
      forward and back: `PreviousDay` steps exactly one calendar day. */
  lemma PreviousDayInvertsNextDay(d: Date)
    requires Valid(d)
    ensures PreviousDay(d).Some? ==> NextDay(PreviousDay(d).value) == Some(d)
    ensures NextDay(d).Some? ==> PreviousDay(NextDay(d).value) == Some(d)
  {
  }

  /** `'%02d'` of a number below 100. */
  function Pad2(n: int): (r: string)
    requires 0 <= n < 100
    ensures |r| == 2
  {
    [DigitChar(n / 10), DigitChar(n % 10)]
  }

  /** `%Y` of a year from 1 to 9999, zero-padded to four digits. */
  function Pad4(n: int): (r: string)
    requires 0 <= n < 10000
    ensures |r| == 4
  {
    Pad2(n / 100) + Pad2(n % 100)
  }

  /** `strftime('%Y-%m-%d')` */
  function Format(d: Date): (r: string)
    requires Valid(d)
  {
    Pad4(d.year) + "-" + Pad2(d.month) + "-" + Pad2(d.day)
  }

  /** `current_date()` */
  function CurrentDate(now: Date): string
    requires Valid(now)
  {
    Format(now)
  }

  /** `previous_date()` */
  function PreviousDate(now: Date): (r: Result<string, Exc>)
    requires Valid(now)
    ensures r.Err? <==> now == Date(MinYear, 1, 1)
    ensures r.Err? ==> r.error == OverflowError
  {
    match PreviousDay(now)
    case None => Err(OverflowError)
    case Some(p) => Ok(Format(p))
  }

  predicate IsDigit(c: char)
  {
    '0' <= c <= '9'
  }

  /** The value of a decimal digit. */
  function DigitValue(c: char): int
  {
    c as int - '0' as int
  }

  lemma DigitCharValue(d: nat)
    requires d < 10
    ensures IsDigit(DigitChar(d)) && DigitValue(DigitChar(d)) == d
  {
  }

  /** The value of a two-digit field. */
  function Field2(s: string, at: nat): int
    requires at + 2 <= |s|
  {
    10 * DigitValue(s[at]) + DigitValue(s[at + 1])
  }

  lemma {:induction false} Pad2Field(s: string, at: nat, n: int)
    requires 0 <= n < 100 && at + 2 <= |s| && s[at..at + 2] == Pad2(n)
    ensures IsDigit(s[at]) && IsDigit(s[at + 1]) && Field2(s, at) == n
  {
    assert s[at] == s[at..at + 2][0] && s[at + 1] == s[at..at + 2][1];
    DigitCharValue(n / 10);
    DigitCharValue(n % 10);
  }

  /** The output is ten characters, `YYYY-MM-DD`: digits with `-` at positions 4 and 7,
      and the year, month and day can be read back from it. */
  lemma FormatLayout(d: Date)
    requires Valid(d)
    ensures var s := Format(d);
      && |s| == 10 && s[4] == '-' && s[7] == '-'
      && (forall k :: 0 <= k < 10 && k != 4 && k != 7 ==> IsDigit(s[k]))
      && 100 * Field2(s, 0) + Field2(s, 2) == d.year
      && Field2(s, 5) == d.month
      && Field2(s, 8) == d.day
  {
    var s := Format(d);
    assert s[0..2] == Pad2(d.year / 100);
    assert s[2..4] == Pad2(d.year % 100);
    assert s[5..7] == Pad2(d.month);
    assert s[8..10] == Pad2(d.day);
    Pad2Field(s, 0, d.year / 100);
    Pad2Field(s, 2, d.year % 100);
    Pad2Field(s, 5, d.month);
    Pad2Field(s, 8, d.day);
  }

  /** Different dates print differently. */
  lemma FormatInjective(a: Date, b: Date)
    requires Valid(a) && Valid(b) && Format(a) == Format(b)
    ensures a == b
  {
    FormatLayout(a);
    FormatLayout(b);
  }

  /** With `now` fixed at 2023-05-15, the test suite expects these two strings. */
  lemma TestSuiteDates()
    ensures CurrentDate(Date(2023, 5, 15)) == "2023-05-15"
    ensures PreviousDate(Date(2023, 5, 15)) == Ok("2023-05-14")
  {
    assert Pad4(2023) == "2023" by {
      assert Pad2(20) == "20" && Pad2(23) == "23";
    }
    assert Pad2(5) == "05" && Pad2(15) == "15" && Pad2(14) == "14";
    assert PreviousDay(Date(2023, 5, 15)) == Some(Date(2023, 5, 14));
    assert Format(Date(2023, 5, 14)) == "2023" + "-" + "05" + "-" + "14" == "2023-05-14";
    assert Format(Date(2023, 5, 15)) == "2023" + "-" + "05" + "-" + "15" == "2023-05-15";
  }

  /** The day before crosses month and year boundaries and honours leap years. */
  lemma PreviousDayBoundaries()
    ensures PreviousDay(Date(2024, 3, 1)) == Some(Date(2024, 2, 29))
    ensures PreviousDay(Date(2023, 3, 1)) == Some(Date(2023, 2, 28))
    ensures PreviousDay(Date(1900, 3, 1)) == Some(Date(1900, 2, 28))
    ensures PreviousDay(Date(2000, 3, 1)) == Some(Date(2000, 2, 29))
    ensures PreviousDay(Date(2023, 1, 1)) == Some(Date(2022, 12, 31))
    ensures PreviousDay(Date(2023, 5, 1)) == Some(Date(2023, 4, 30))
    ensures PreviousDate(Date(1, 1, 1)) == Err(OverflowError)
  {
    assert IsLeap(2024) && !IsLeap(2023) && !IsLeap(1900) && IsLeap(2000);
  }

  /** 1 March of a leap year prints the 29th of February. */
  lemma LeapDayExample()
    ensures PreviousDate(Date(2024, 3, 1)) == Ok("2024-02-29")
  {
    assert IsLeap(2024);
    assert PreviousDay(Date(2024, 3, 1)) == Some(Date(2024, 2, 29));
    assert Pad4(2024) == "2024" by {
      assert Pad2(20) == "20" && Pad2(24) == "24";
    }
    assert Pad2(2) == "02" && Pad2(29) == "29";
    assert Format(Date(2024, 2, 29)) == "2024" + "-" + "02" + "-" + "29" == "2024-02-29";
  }
}
