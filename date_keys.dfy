/** Date keys of the scores page: `Y-MM-DD` strings built from a calendar date, and
    day stepping on them. The JavaScript `Date` arithmetic is modelled as the proleptic
    Gregorian calendar. */
module DateKeys {
  import opened Common

  /** A calendar date; month is 1-based. */
  datatype Date = Date(year: int, month: int, day: int)

  predicate IsLeapYear(y: int) {
    y % 4 == 0 && (y % 100 != 0 || y % 400 == 0)
  }

  function DaysInMonth(y: int, m: int): (n: int)
    requires 1 <= m <= 12
    ensures 28 <= n <= 31
  {
    if m == 2 then (if IsLeapYear(y) then 29 else 28)
    else if m == 4 || m == 6 || m == 9 || m == 11 then 30
    else 31
  }

  predicate ValidDate(d: Date) {
    1 <= d.month <= 12 && 1 <= d.day <= DaysInMonth(d.year, d.month)
  }

  /** Calendar order on dates. */
  predicate Before(a: Date, b: Date) {
    a.year < b.year
    || (a.year == b.year && a.month < b.month)
    || (a.year == b.year && a.month == b.month && a.day < b.day)
  }

  // -------------------------------------------------------------- toDateStr

  /** `String(n).padStart(2, '0')` */
  function PadStart2(s: string): (r: string)
    ensures |s| >= 2 ==> r == s
    ensures |s| < 2 ==> |r| == 2 && r[2 - |s|..] == s && forall i :: 0 <= i < 2 - |s| ==> r[i] == '0'
  {
    if |s| >= 2 then s else if |s| == 1 then "0" + s else "00"
  }

  /** Two decimal digits of a month or day number. */
  function TwoDigits(n: int): (r: string)
    requires 1 <= n <= 99
    ensures |r| == 2 && AllDigits(r) && DigitsValue(r) == n
  {
    DigitsValueOfNatToString(n);
    var s := NatToString(n);
    if n < 10 then
      assert DigitsValue("0" + s) == DigitValue(s[0]);
      PadStart2(s)
    else
      assert |s| == 2 by {
        assert NatToString(n) == NatToString(n / 10) + [DigitChar(n % 10)];
      }
      PadStart2(s)
  }

  /** `toDateStr`: year, then month and day zero-padded to two digits. */
  function ToDateStr(d: Date): (r: string)
    requires ValidDate(d)
    ensures |r| == |IntToString(d.year)| + 6
    ensures r[..|r| - 6] == IntToString(d.year)
    ensures r[|r| - 6] == '-' && r[|r| - 3] == '-'
    ensures AllDigits(r[|r| - 5..|r| - 3]) && DigitsValue(r[|r| - 5..|r| - 3]) == d.month
    ensures AllDigits(r[|r| - 2..]) && DigitsValue(r[|r| - 2..]) == d.day
  {
    var r := IntToString(d.year) + "-" + TwoDigits(d.month) + "-" + TwoDigits(d.day);
    assert r[|r| - 5..|r| - 3] == TwoDigits(d.month);
    assert r[|r| - 2..] == TwoDigits(d.day);
    r
  }

  /** Distinct dates have distinct keys. */
  lemma ToDateStrInjective(a: Date, b: Date)
    requires ValidDate(a) && ValidDate(b)
    requires ToDateStr(a) == ToDateStr(b)
    ensures a == b
  {
    SameKeySameYear(a, b);
    SameKeySameMonthDay(a, b);
  }

  lemma SameKeySameYear(a: Date, b: Date)
    requires ValidDate(a) && ValidDate(b)
    requires ToDateStr(a) == ToDateStr(b)
    ensures a.year == b.year
  {
    var s := ToDateStr(a);
    assert |IntToString(a.year)| == |s| - 6 == |IntToString(b.year)|;
    assert IntToString(a.year) == s[..|s| - 6] == IntToString(b.year);
    IntToStringInjective(a.year, b.year);
  }

  /** The month and day fields read back from the end of a key. */
  function MonthDayOfKey(s: string): (int, int) {
    if |s| >= 6 && AllDigits(s[|s| - 5..|s| - 3]) && AllDigits(s[|s| - 2..])
    then (DigitsValue(s[|s| - 5..|s| - 3]), DigitsValue(s[|s| - 2..]))
    else (0, 0)
  }

  lemma MonthDayOfToDateStr(d: Date)
    requires ValidDate(d)
    ensures MonthDayOfKey(ToDateStr(d)) == (d.month, d.day)
  {
  }

  lemma SameKeySameMonthDay(a: Date, b: Date)
    requires ValidDate(a) && ValidDate(b)
    requires ToDateStr(a) == ToDateStr(b)
    ensures a.month == b.month && a.day == b.day
  {
    MonthDayOfToDateStr(a);
    MonthDayOfToDateStr(b);
  }

  /** The key a `new Date(key + 'T12:00:00')` reads as a date: four-digit year, two-digit
      month and day, an existing calendar day; anything else is an Invalid Date. */
  function ParseDateKey(s: string): Option<Date> {
    if |s| == 10 && s[4] == '-' && s[7] == '-'
       && AllDigits(s[..4]) && AllDigits(s[5..7]) && AllDigits(s[8..])
    then
      var d := Date(DigitsValue(s[..4]), DigitsValue(s[5..7]), DigitsValue(s[8..]));
      if ValidDate(d) then Some(d) else None
    else None
  }

  /** Reading a key back gives the date it was built from. */
  lemma ParseToDateStr(d: Date)
    requires ValidDate(d) && 1000 <= d.year <= 9999
    ensures ParseDateKey(ToDateStr(d)) == Some(d)
  {
    var y := NatToString(d.year);
    DigitsValueOfNatToString(d.year);
    NatToStringLength4(d.year);
    var s := ToDateStr(d);
    assert s[..4] == y;
  }

  lemma NatToStringLength4(n: nat)
    requires 1000 <= n <= 9999
    ensures |NatToString(n)| == 4
  {
    var a := n / 10;
    assert 100 <= a <= 999;
    var b := a / 10;
    assert 10 <= b <= 99;
    var c := b / 10;
    assert 1 <= c <= 9;
    assert |NatToString(c)| == 1;
    assert |NatToString(b)| == 2;
    assert |NatToString(a)| == 3;
  }

  /** A key with a year of four significant digits is exactly the key of the date it names. */
  lemma ToDateStrOfParse(s: string)
    requires ParseDateKey(s).Some? && ParseDateKey(s).value.year >= 1000
    ensures ToDateStr(ParseDateKey(s).value) == s
  {
    var d := ParseDateKey(s).value;
    var ys := s[..4];
    assert ys[0] != '0' by {
      if ys[0] == '0' {
        DigitsValueBelow(ys);
      }
    }
    NatToStringOfDigitsValue(ys);
    TwoDigitsOfValue(s[5..7]);
    TwoDigitsOfValue(s[8..]);
    assert s == ys + "-" + s[5..7] + "-" + s[8..];
  }

  lemma DigitsValueBelow(s: string)
    requires |s| == 4 && AllDigits(s) && s[0] == '0'
    ensures DigitsValue(s) < 1000
  {
    var t := s[..3];
    var u := t[..2];
    assert DigitsValue(s) == DigitsValue(t) * 10 + DigitValue(s[3]);
    assert DigitsValue(t) == DigitsValue(u) * 10 + DigitValue(t[2]);
    assert DigitsValue(u) == DigitsValue(u[..1]) * 10 + DigitValue(u[1]);
    assert DigitsValue(u[..1]) == DigitValue(u[0]) == 0;
  }

  lemma TwoDigitsOfValue(s: string)
    requires |s| == 2 && AllDigits(s) && 1 <= DigitsValue(s) <= 99
    ensures TwoDigits(DigitsValue(s)) == s
  {
    assert DigitsValue(s) == DigitValue(s[0]) * 10 + DigitValue(s[1]) by {
      assert s[..1] == [s[0]];
    }
    if s[0] == '0' {
      assert NatToString(DigitsValue(s)) == [s[1]];
    } else {
      NatToStringOfDigitsValue(s);
    }
  }

  // ------------------------------------------------------------ day steps

  /** The day after d, rolling over to the next month and the next year. */
  function NextDay(d: Date): (r: Date)
    requires ValidDate(d)
    ensures ValidDate(r) && Before(d, r)
    ensures d.day == DaysInMonth(d.year, d.month) ==> r.day == 1
    ensures d.month == 12 && d.day == 31 ==> r == Date(d.year + 1, 1, 1)
  {
    if d.day < DaysInMonth(d.year, d.month) then d.(day := d.day + 1)
    else if d.month < 12 then Date(d.year, d.month + 1, 1)
    else Date(d.year + 1, 1, 1)
  }

  /** The day before d, rolling back to the last day of the previous month. */
  function PrevDay(d: Date): (r: Date)
    requires ValidDate(d)
    ensures ValidDate(r) && Before(r, d)
    ensures d.day == 1 ==> r.day == DaysInMonth(r.year, r.month)
    ensures d.month == 1 && d.day == 1 ==> r == Date(d.year - 1, 12, 31)
  {
    if d.day > 1 then d.(day := d.day - 1)
    else if d.month > 1 then Date(d.year, d.month - 1, DaysInMonth(d.year, d.month - 1))
    else Date(d.year - 1, 12, 31)
  }

  /** NextDay is the successor in calendar order: no valid date lies strictly between. */
  lemma NextDayIsSuccessor(d: Date, e: Date)
    requires ValidDate(d) && ValidDate(e)
    requires Before(d, e)
    ensures e == NextDay(d) || Before(NextDay(d), e)
  {
  }

  /** PrevDay is the predecessor in calendar order. */
  lemma PrevDayIsPredecessor(d: Date, e: Date)
    requires ValidDate(d) && ValidDate(e)
    requires Before(e, d)
    ensures e == PrevDay(d) || Before(e, PrevDay(d))
  {
  }

  lemma PrevNextInverse(d: Date)
    requires ValidDate(d)
    ensures PrevDay(NextDay(d)) == d
    ensures NextDay(PrevDay(d)) == d
  {
  }

  /** d.setDate(d.getDate() + n) */
  function Shift(d: Date, n: int): (r: Date)
    requires ValidDate(d)
    ensures ValidDate(r)
    decreases if n < 0 then -n else n
  {
    if n == 0 then d
    else if n > 0 then Shift(NextDay(d), n - 1)
    else Shift(PrevDay(d), n + 1)
  }

  lemma ShiftForward(d: Date, n: int)
    requires ValidDate(d)
    ensures Shift(d, n + 1) == Shift(NextDay(d), n)
  {
    if n < 0 {
      PrevNextInverse(d);
      assert Shift(NextDay(d), n) == Shift(PrevDay(NextDay(d)), n + 1);
    }
  }

  lemma ShiftBackward(d: Date, n: int)
    requires ValidDate(d)
    ensures Shift(d, n - 1) == Shift(PrevDay(d), n)
  {
    if n > 0 {
      PrevNextInverse(d);
      assert Shift(PrevDay(d), n) == Shift(NextDay(PrevDay(d)), n - 1);
    }
  }

  /** Stepping a then b days is stepping a + b days. */
  lemma {:induction false} ShiftAdd(d: Date, a: int, b: int)
    requires ValidDate(d)
    ensures Shift(Shift(d, a), b) == Shift(d, a + b)
    decreases if a < 0 then -a else a
  {
    if a > 0 {
      ShiftAdd(NextDay(d), a - 1, b);
      ShiftForward(d, a - 1 + b);
    } else if a < 0 {
      ShiftAdd(PrevDay(d), a + 1, b);
      ShiftBackward(d, a + 1 + b);
    }
  }

  /** `toDateStr` of an Invalid Date: every field prints as NaN. */
  const InvalidDateStr: string := "NaN-NaN-NaN"

  /** `addDays(dateStr, n)` */
  function AddDays(s: string, n: int): string {
    match ParseDateKey(s)
    case None => InvalidDateStr
    case Some(d) => ToDateStr(Shift(d, n))
  }

  lemma AddDaysZero(s: string)
    requires ParseDateKey(s).Some? && ParseDateKey(s).value.year >= 1000
    ensures AddDays(s, 0) == s
  {
    ToDateStrOfParse(s);
  }

  /** Stepping n days and back returns to the same key, as long as the year in between
      still has four digits. */
  lemma AddDaysRoundTrip(s: string, n: int)
    requires ParseDateKey(s).Some? && ParseDateKey(s).value.year >= 1000
    requires 1000 <= Shift(ParseDateKey(s).value, n).year <= 9999
    ensures AddDays(AddDays(s, n), -n) == s
  {
    var d := ParseDateKey(s).value;
    var e := Shift(d, n);
    assert AddDays(s, n) == ToDateStr(e);
    ParseToDateStr(e);
    assert AddDays(ToDateStr(e), -n) == ToDateStr(Shift(e, -n));
    ShiftAdd(d, n, -n);
    assert Shift(e, -n) == d;
    ToDateStrOfParse(s);
  }

  /** One step forward or back always lands on a different key. */
  lemma AddDaysOneChanges(s: string)
    requires ParseDateKey(s).Some? && ParseDateKey(s).value.year >= 1000
    ensures AddDays(s, 1) != s && AddDays(s, -1) != s && AddDays(s, -1) != AddDays(s, 1)
  {
    var d := ParseDateKey(s).value;
    ToDateStrOfParse(s);
    assert Shift(d, 1) == NextDay(d);
    assert Shift(d, -1) == PrevDay(d);
    if AddDays(s, 1) == s {
      ToDateStrInjective(NextDay(d), d);
    }
    if AddDays(s, -1) == s {
      ToDateStrInjective(PrevDay(d), d);
    }
    if AddDays(s, -1) == AddDays(s, 1) {
      ToDateStrInjective(PrevDay(d), NextDay(d));
    }
  }
}
