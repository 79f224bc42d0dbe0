/** Civil dates as JavaScript's Date presents them: advancing by one day
    (`setDate(getDate() + 1)`), formatting as in the ECMAScript Date Time
    String Format (`toISOString`), and taking the part before 'T'. */
module Calendar {

  datatype CivilDate = CivilDate(year: int, month: int, day: int)

  /** The first and last days a Date can hold: ECMAScript time values span
      +-8.64e15 ms around 1970-01-01, that is -271821-04-20 to +275760-09-13. */
  const MinDate: CivilDate := CivilDate(-271821, 4, 20)
  const MaxDate: CivilDate := CivilDate(275760, 9, 13)
  const MinYear: int := MinDate.year
  const MaxYear: int := MaxDate.year

  datatype TimeOfDay = TimeOfDay(hour: int, minute: int, second: int, millisecond: int)

  /** Proleptic Gregorian leap years. */
  predicate IsLeapYear(y: int)
  {
    y % 4 == 0 && (y % 100 != 0 || y % 400 == 0)
  }

  function DaysInMonth(y: int, m: int): (n: int)
    requires 1 <= m <= 12
    ensures 28 <= n <= 31
    ensures m == 2 ==> (n == 29 <==> IsLeapYear(y))
  {
    if m == 2 then (if IsLeapYear(y) then 29 else 28)
    else if m == 4 || m == 6 || m == 9 || m == 11 then 30
    else 31
  }

  /** A calendar day within the range of Date. */
  predicate ValidDate(d: CivilDate)
  {
    1 <= d.month <= 12 && 1 <= d.day <= DaysInMonth(d.year, d.month)
    && !Before(d, MinDate) && !Before(MaxDate, d)
  }

  predicate ValidTime(t: TimeOfDay)
  {
    0 <= t.hour < 24 && 0 <= t.minute < 60 && 0 <= t.second < 60 && 0 <= t.millisecond < 1000
  }

  /** Calendar order. */
  predicate Before(a: CivilDate, b: CivilDate)
  {
    a.year < b.year
    || (a.year == b.year && a.month < b.month)
    || (a.year == b.year && a.month == b.month && a.day < b.day)
  }

  /** The day after `d`, overflowing into the next month and year as Date does. */
  function NextDay(d: CivilDate): (r: CivilDate)
    requires ValidDate(d) && Before(d, MaxDate)
    ensures ValidDate(r) && Before(d, r)
  {
    if d.day < DaysInMonth(d.year, d.month) then d.(day := d.day + 1)
    else if d.month < 12 then CivilDate(d.year, d.month + 1, 1)
    else CivilDate(d.year + 1, 1, 1)
  }

  /** NextDay is the immediate successor: no valid date lies strictly between. */
  lemma NextDayIsSuccessor(d: CivilDate, x: CivilDate)
    requires ValidDate(d) && Before(d, MaxDate) && ValidDate(x)
    ensures Before(d, x) ==> !Before(x, NextDay(d))
  {
  }

  function Pow10(n: nat): (p: nat)
    ensures p >= 1
  {
    if n == 0 then 1 else 10 * Pow10(n - 1)
  }

  predicate IsDigit(c: char)
  {
    '0' <= c <= '9'
  }

  function DigitChar(n: int): (c: char)
    requires 0 <= n < 10
    ensures IsDigit(c) && c as int - '0' as int == n
  {
    ('0' as int + n) as char
  }

  /** `n` written with exactly `width` decimal digits, zero-padded. */
  function Pad(n: nat, width: nat): (s: string)
    requires n < Pow10(width)
    ensures |s| == width
    ensures forall i :: 0 <= i < |s| ==> IsDigit(s[i])
  {
    if width == 0 then "" else Pad(n / 10, width - 1) + [DigitChar(n % 10)]
  }

  /** The number a string of decimal digits denotes. */
  function DigitsValue(s: string): nat
    requires forall i :: 0 <= i < |s| ==> IsDigit(s[i])
  {
    if s == [] then 0 else 10 * DigitsValue(s[..|s| - 1]) + DigitValue(s[|s| - 1])
  }

  function DigitValue(c: char): nat
    requires IsDigit(c)
  {
    c as int - '0' as int
  }

  /** Padding loses nothing: the digits read back as the number. */
  lemma {:induction false} PadRoundTrip(n: nat, width: nat)
    requires n < Pow10(width)
    ensures DigitsValue(Pad(n, width)) == n
  {
    if width > 0 {
      var s := Pad(n, width);
      assert s[..|s| - 1] == Pad(n / 10, width - 1);
      PadRoundTrip(n / 10, width - 1);
    }
  }

  lemma PadInjective(m: nat, n: nat, width: nat)
    requires m < Pow10(width) && n < Pow10(width)
    requires Pad(m, width) == Pad(n, width)
    ensures m == n
  {
    PadRoundTrip(m, width);
    PadRoundTrip(n, width);
  }

  /** Four digits for years 0..9999, otherwise a sign and six digits. */
  function YearText(y: int): (s: string)
    requires MinYear <= y <= MaxYear
    ensures 0 <= y <= 9999 ==> |s| == 4 && s == Pad(y, 4)
    ensures !(0 <= y <= 9999) ==> |s| == 7 && s[0] == (if y < 0 then '-' else '+')
    ensures !(0 <= y <= 9999) ==> s[1..] == Pad(if y < 0 then -y else y, 6)
    ensures forall i :: 0 <= i < |s| ==> s[i] != 'T'
  {
    if 0 <= y <= 9999 then Pad(y, 4)
    else (if y < 0 then "-" else "+") + Pad(if y < 0 then -y else y, 6)
  }

  /** `YYYY-MM-DD` (or `+YYYYYY-MM-DD`, `-YYYYYY-MM-DD`). */
  function DateText(d: CivilDate): (s: string)
    requires ValidDate(d)
    ensures forall i :: 0 <= i < |s| ==> s[i] != 'T'
  {
    YearText(d.year) + "-" + Pad(d.month, 2) + "-" + Pad(d.day, 2)
  }

  /** The fields of `y-mm-dd` can be cut back out of it. */
  lemma SplitDateFields(y: string, m: string, d: string)
    requires |m| == 2 && |d| == 2
    ensures var s := y + "-" + m + "-" + d;
      |s| == |y| + 6 && s[..|y|] == y && s[|y| + 1..|y| + 3] == m && s[|y| + 4..] == d
  {
    var s := y + "-" + m + "-" + d;
    assert s == y + ("-" + m + "-" + d);
  }

  /** Distinct dates have distinct texts. */
  lemma DateTextInjective(a: CivilDate, b: CivilDate)
    requires ValidDate(a) && ValidDate(b) && DateText(a) == DateText(b)
    ensures a == b
  {
    var ya, yb := YearText(a.year), YearText(b.year);
    SplitDateFields(ya, Pad(a.month, 2), Pad(a.day, 2));
    SplitDateFields(yb, Pad(b.month, 2), Pad(b.day, 2));
    assert |ya| == |yb|;
    PadInjective(a.month, b.month, 2);
    PadInjective(a.day, b.day, 2);
    if |ya| == 4 {
      PadInjective(a.year, b.year, 4);
    } else {
      assert ya[1..] == yb[1..];
      PadInjective(if a.year < 0 then -a.year else a.year, if b.year < 0 then -b.year else b.year, 6);
    }
  }

  /** `HH:mm:ss.sssZ`. */
  function TimeText(t: TimeOfDay): string
    requires ValidTime(t)
  {
    Pad(t.hour, 2) + ":" + Pad(t.minute, 2) + ":" + Pad(t.second, 2) + "." + Pad(t.millisecond, 3) + "Z"
  }

  /** `Date.prototype.toISOString` of a UTC date and time. */
  function IsoString(d: CivilDate, t: TimeOfDay): string
    requires ValidDate(d) && ValidTime(t)
  {
    DateText(d) + "T" + TimeText(t)
  }

  /** `s.split('T')[0]`: everything before the first 'T', or all of `s`. */
  function DatePart(s: string): (r: string)
    ensures |r| <= |s| && r == s[..|r|]
    ensures forall i :: 0 <= i < |r| ==> r[i] != 'T'
    ensures |r| < |s| ==> s[|r|] == 'T'
  {
    if s == [] then []
    else if s[0] == 'T' then []
    else [s[0]] + DatePart(s[1..])
  }

  /** The part before 'T' of `a + "T" + b` is `a` when `a` holds no 'T'. */
  lemma {:induction false} DatePartOfJoin(a: string, b: string)
    requires forall i :: 0 <= i < |a| ==> a[i] != 'T'
    ensures DatePart(a + "T" + b) == a
  {
    var s := a + "T" + b;
    if a != [] {
      assert s[0] == a[0] != 'T';
      assert s[1..] == a[1..] + "T" + b;
      DatePartOfJoin(a[1..], b);
    }
  }

  /** The date part of an ISO string is the date's own text. */
  lemma DatePartOfIsoString(d: CivilDate, t: TimeOfDay)
    requires ValidDate(d) && ValidTime(t)
    ensures DatePart(IsoString(d, t)) == DateText(d)
  {
    assert IsoString(d, t) == DateText(d) + "T" + TimeText(t);
    DatePartOfJoin(DateText(d), TimeText(t));
  }
}
