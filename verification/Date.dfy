/** muduo/base/Date.cc: Julian day numbers and Gregorian dates, with the truncating
    integer division of C++. */
module Calendar {
  import opened Bytes

  /** C++ division by a positive divisor, which truncates toward zero: how often b can be taken
      away from the magnitude of a, with the sign of a. */
  function Div(a: int, b: int): int
    requires b > 0
    decreases if a < 0 then 1 - a else a
  {
    if a < 0 then -Div(-a, b)
    else if a < b then 0
    else 1 + Div(a - b, b)
  }

  /** The C++ remainder, which has the sign of the dividend. */
  function Mod(a: int, b: int): int
    requires b > 0
  {
    a - b * Div(a, b)
  }

  lemma {:induction false} DivTruncates(a: int, b: int)
    requires b > 0
    ensures a >= 0 ==> Div(a, b) >= 0 && b * Div(a, b) <= a < b * Div(a, b) + b
    ensures a < 0 ==> Div(a, b) <= 0 && b * Div(a, b) - b < a <= b * Div(a, b)
    decreases if a < 0 then 1 - a else a
  {
    if a < 0 {
      DivTruncates(-a, b);
      assert b * -Div(-a, b) == -(b * Div(-a, b));
    } else if a >= b {
      DivTruncates(a - b, b);
      assert b * (1 + Div(a - b, b)) == b + b * Div(a - b, b);
    }
  }

  lemma DivOfNat(a: nat, b: nat)
    requires b > 0
    ensures Div(a, b) == a / b
  {
    DivTruncates(a, b);
    assert a == b * (a / b) + a % b;
    QuotientUnique(b, Div(a, b), a / b, a);
  }

  datatype YearMonthDay = YearMonthDay(year: int, month: int, day: int)

  function JulianDayNumber(d: YearMonthDay): int {
    var a := Div(14 - d.month, 12);
    var y := d.year + 4800 - a;
    var m := d.month + 12 * a - 3;
    d.day + Div(153 * m + 2, 5) + y * 365 + Div(y, 4) - Div(y, 100) + Div(y, 400) - 32045
  }

  /** The last three lines of getYearMonthDay: `y` March years after 1 March -4800, day `e`. */
  function DateInYear(y: int, e: int): YearMonthDay {
    var m := Div(5 * e + 2, 153);
    YearMonthDay(y - 4800 + Div(m, 10), m + 3 - 12 * Div(m, 10), e - Div(153 * m + 2, 5) + 1)
  }

  function DateOf(julianDayNumber: int): YearMonthDay {
    var a := julianDayNumber + 32044;
    var b := Div(4 * a + 3, 146097);
    var c := a - Div(b * 146097, 4);
    var d := Div(4 * c + 3, 1461);
    var e := c - Div(1461 * d, 4);
    DateInYear(b * 100 + d, e)
  }

  /** 0 is Sunday. */
  function WeekDay(julianDayNumber: int): int {
    Mod(julianDayNumber + 1, 7)
  }

  // ---- The Gregorian calendar, by its rules ----

  predicate IsLeap(year: int) {
    year % 4 == 0 && (year % 100 != 0 || year % 400 == 0)
  }

  function DaysInMonth(year: int, month: int): int {
    if month == 2 then if IsLeap(year) then 29 else 28
    else if month == 4 || month == 6 || month == 9 || month == 11 then 30
    else 31
  }

  predicate Valid(d: YearMonthDay) {
    1 <= d.month <= 12 && 1 <= d.day <= DaysInMonth(d.year, d.month)
  }

  function NextDay(d: YearMonthDay): YearMonthDay {
    if d.day < DaysInMonth(d.year, d.month) then d.(day := d.day + 1)
    else if d.month < 12 then YearMonthDay(d.year, d.month + 1, 1)
    else YearMonthDay(d.year + 1, 1, 1)
  }

  /** Day number -32044 is 1 March -4800. */
  const FIRST_DAY: int := -32044

  predicate FromFirstDay(d: YearMonthDay) {
    d.year > -4800 || (d.year == -4800 && d.month >= 3)
  }

  // ---- Years counted from 1 March -4800, months from March ----

  function MarchYear(d: YearMonthDay): int { d.year + 4800 - (if d.month <= 2 then 1 else 0) }

  function MarchMonth(d: YearMonthDay): int { if d.month <= 2 then d.month + 9 else d.month - 3 }

  /** Whether the February at the end of March year y has 29 days. */
  predicate LeapMarchYear(y: int) { IsLeap(y + 1 - 4800) }

  /** Days in the y years after 1 March -4800, counted by the leap-year rule. */
  function DaysBeforeYear(y: nat): nat {
    if y == 0 then 0 else DaysBeforeYear(y - 1) + (if LeapMarchYear(y - 1) then 366 else 365)
  }

  function DaysBeforeMonth(m: nat): nat { (153 * m + 2) / 5 }

  /** Days since 1 March of the March year. */
  function YearDay(d: YearMonthDay): int
    requires 1 <= d.month <= 12
  {
    DaysBeforeMonth(MarchMonth(d)) + d.day - 1
  }

  lemma DivStep(n: nat)
    ensures (n + 1) / 4 == n / 4 + (if (n + 1) % 4 == 0 then 1 else 0)
    ensures (n + 1) / 100 == n / 100 + (if (n + 1) % 100 == 0 then 1 else 0)
    ensures (n + 1) / 400 == n / 400 + (if (n + 1) % 400 == 0 then 1 else 0)
  {
  }

  lemma LeapRuleCounts(n: int)
    ensures IsLeap(n - 4800) <==> IsLeap(n)
    ensures IsLeap(n) <==>
              (if n % 4 == 0 then 1 else 0) - (if n % 100 == 0 then 1 else 0) + (if n % 400 == 0 then 1 else 0) == 1
    ensures !IsLeap(n) <==>
              (if n % 4 == 0 then 1 else 0) - (if n % 100 == 0 then 1 else 0) + (if n % 400 == 0 then 1 else 0) == 0
  {
    assert (n - 4800) % 4 == n % 4;
    assert (n - 4800) % 100 == n % 100;
    assert (n - 4800) % 400 == n % 400;
    assert n % 100 == 0 ==> n % 4 == 0;
    assert n % 400 == 0 ==> n % 100 == 0;
  }

  lemma {:induction false} DaysBeforeYearClosed(y: nat)
    ensures DaysBeforeYear(y) == 365 * y + y / 4 - y / 100 + y / 400
  {
    if y > 0 {
      DaysBeforeYearClosed(y - 1);
      DivStep(y - 1);
      LeapRuleCounts(y);
    }
  }

  lemma JulianDayNumberForm(d: YearMonthDay)
    requires 1 <= d.month <= 12 && FromFirstDay(d)
    ensures MarchYear(d) >= 0
    ensures JulianDayNumber(d) == FIRST_DAY + DaysBeforeYear(MarchYear(d)) + YearDay(d)
  {
    var y := MarchYear(d);
    DaysBeforeYearClosed(y);
    DivOfNat(14 - d.month, 12);
    DivOfNat(153 * MarchMonth(d) + 2, 5);
    DivOfNat(y, 4);
    DivOfNat(y, 100);
    DivOfNat(y, 400);
  }

  lemma CenturyQuotients(b: nat, d: nat)
    requires d < 100
    ensures (100 * b + d) / 100 == b && (100 * b + d) % 100 == d
    ensures (100 * b + d) / 4 == 25 * b + d / 4
    ensures (100 * b + d) % 4 == d % 4
  {
  }

  lemma FourCenturyQuotients(b: nat, d: nat)
    requires d < 100
    ensures (100 * b + d) / 400 == b / 4
    ensures (100 * b + d) % 400 == 100 * (b % 4) + d
  {
    var k, i := b / 4, b % 4;
    assert 100 * b + d == 400 * k + (100 * i + d);
  }

  lemma CycleQuotients(b: nat, d: nat)
    ensures 146097 * b / 4 == 36524 * b + b / 4
    ensures 1461 * d / 4 == 365 * d + d / 4
  {
  }

  /** Centuries and years of the century: the two divisions of the algorithm. */
  lemma DaysBeforeYearSplit(b: nat, d: nat)
    requires d < 100
    ensures DaysBeforeYear(100 * b + d) == 146097 * b / 4 + 1461 * d / 4
  {
    DaysBeforeYearClosed(100 * b + d);
    CenturyQuotients(b, d);
    FourCenturyQuotients(b, d);
    CycleQuotients(b, d);
  }

  lemma LeapMarchYearSplit(b: nat, d: nat)
    requires d < 100
    ensures LeapMarchYear(100 * b + d) <==> if d == 99 then b % 4 == 3 else d % 4 == 3
  {
    var n := 100 * b + d + 1;
    LeapRuleCounts(n);
    if d == 99 {
      CenturyQuotients(b + 1, 0);
      FourCenturyQuotients(b + 1, 0);
    } else {
      CenturyQuotients(b, d + 1);
    }
  }

  /** What the algorithm finds for a day `a` days after the first one, as bounds on each part. */
  lemma CenturyParts(a: nat)
    ensures var b := (4 * a + 3) / 146097;
            var c := a - 146097 * b / 4;
            0 <= c <= 36524 && (c == 36524 ==> b % 4 == 3)
  {
    var b := (4 * a + 3) / 146097;
    assert 146097 * b <= 4 * a + 3 < 146097 * b + 146097;
    assert (146097 * b) % 4 == b % 4;
  }

  lemma YearParts(c: nat)
    requires c <= 36524
    ensures var d := (4 * c + 3) / 1461;
            var e := c - 1461 * d / 4;
            && 0 <= d <= 99 && 0 <= e <= 365
            && (e == 365 ==> d % 4 == 3)
            && (d == 99 && e == 365 ==> c == 36524)
  {
    var d := (4 * c + 3) / 1461;
    assert 1461 * d <= 4 * c + 3 < 1461 * d + 1461;
    assert (1461 * d) % 4 == d % 4;
  }

  lemma MonthParts(e: nat)
    requires e <= 365
    ensures var m := (5 * e + 2) / 153;
            && 0 <= m <= 11
            && DaysBeforeMonth(m) <= e < DaysBeforeMonth(m + 1)
  {
  }

  /** The divisions of getYearMonthDay, none of which is of a negative number. */
  lemma DateOfSteps(j: int, a: nat, b: nat, c: nat, d: nat, y: nat, e: nat)
    requires j == a + FIRST_DAY
    requires b == (4 * a + 3) / 146097 && c == a - 146097 * b / 4 && d == (4 * c + 3) / 1461
    requires y == 100 * b + d && e == c - 1461 * d / 4
    ensures DateOf(j) == DateInYear(y, e)
  {
    DivOfNat(4 * a + 3, 146097);
    DivOfNat(b * 146097, 4);
    DivOfNat(4 * c + 3, 1461);
    DivOfNat(1461 * d, 4);
  }

  lemma DateInYearSteps(y: int, e: nat)
    ensures var m := (5 * e + 2) / 153;
            DateInYear(y, e) == YearMonthDay(y - 4800 + m / 10, m + 3 - 12 * (m / 10), e - DaysBeforeMonth(m) + 1)
  {
    var m := (5 * e + 2) / 153;
    DivOfNat(5 * e + 2, 153);
    DivOfNat(m, 10);
    DivOfNat(153 * m + 2, 5);
  }

  /** The parts the algorithm finds: the March year y and the day e within it. */
  lemma DateParts(a: nat) returns (y: nat, e: nat)
    ensures a == DaysBeforeYear(y) + e && e <= 365 && (e == 365 ==> LeapMarchYear(y))
    ensures DateOf(a + FIRST_DAY) == DateInYear(y, e)
  {
    var b := (4 * a + 3) / 146097;
    CenturyParts(a);
    var c := a - 146097 * b / 4;
    YearParts(c);
    var d := (4 * c + 3) / 1461;
    y, e := 100 * b + d, c - 1461 * d / 4;
    DaysBeforeYearSplit(b, d);
    LeapMarchYearSplit(b, d);
    DateOfSteps(a + FIRST_DAY, a, b, c, d, y, e);
  }

  /** The months from March to February, by the leap-year rule. */
  lemma MonthIsValid(y: nat, m: nat, e: nat, d: YearMonthDay)
    requires m <= 11 && DaysBeforeMonth(m) <= e < DaysBeforeMonth(m + 1)
    requires e <= 365 && (e == 365 ==> IsLeap(y + 1 - 4800))
    requires d.year == (if m < 10 then y - 4800 else y + 1 - 4800)
    requires d.month == (if m < 10 then m + 3 else m - 9)
    requires d.day == e - DaysBeforeMonth(m) + 1
    ensures Valid(d) && FromFirstDay(d) && MarchYear(d) == y && YearDay(d) == e
  {
  }

  lemma DateInYearIsValid(y: nat, e: nat)
    requires e <= 365 && (e == 365 ==> LeapMarchYear(y))
    ensures var d := DateInYear(y, e);
            Valid(d) && FromFirstDay(d) && MarchYear(d) == y && YearDay(d) == e
  {
    MonthParts(e);
    DateInYearSteps(y, e);
    MonthIsValid(y, (5 * e + 2) / 153, e, DateInYear(y, e));
  }

  lemma DateInYearCounts(d: YearMonthDay, y: nat, e: nat)
    requires Valid(d) && FromFirstDay(d) && MarchYear(d) == y && YearDay(d) == e
    ensures JulianDayNumber(d) == FIRST_DAY + DaysBeforeYear(y) + e
  {
    JulianDayNumberForm(d);
  }

  /** From every day number to a valid date and back. */
  lemma DayDateDay(j: int)
    requires j >= FIRST_DAY
    ensures Valid(DateOf(j)) && FromFirstDay(DateOf(j)) && JulianDayNumber(DateOf(j)) == j
  {
    var y, e := DateParts(j - FIRST_DAY);
    DateInYearIsValid(y, e);
    DateInYearCounts(DateOf(j), y, e);
  }

  /** Before 1 March -4800 the truncating divisions produce a day that is not positive. */
  lemma DateOfBeforeFirstDay(j: int)
    requires j < FIRST_DAY
    ensures DateOf(j).day <= 0
  {
    var a := j + 32044;
    var b := Div(4 * a + 3, 146097);
    DivTruncates(4 * a + 3, 146097);
    DivTruncates(b * 146097, 4);
    var c := a - Div(b * 146097, 4);
    assert c < 0;
    var d := Div(4 * c + 3, 1461);
    DivTruncates(4 * c + 3, 1461);
    DivTruncates(1461 * d, 4);
    var e := c - Div(1461 * d, 4);
    assert e < 0;
    DayNotPositive(b * 100 + d, e);
  }

  lemma DayNotPositive(y: int, e: int)
    requires e < 0
    ensures DateInYear(y, e).day <= 0
  {
    var m := Div(5 * e + 2, 153);
    DivTruncates(5 * e + 2, 153);
    DivTruncates(153 * m + 2, 5);
  }

  /** getYearMonthDay yields a date of the Gregorian calendar exactly from day -32044 on. */
  lemma DateOfValidIff(j: int)
    ensures Valid(DateOf(j)) <==> j >= FIRST_DAY
  {
    if j >= FIRST_DAY {
      DayDateDay(j);
    } else {
      DateOfBeforeFirstDay(j);
    }
  }

  /** A March year and a day within it determine the parts the algorithm finds. */
  lemma CenturyUnique(b: nat, c: nat)
    requires c <= 36524 && (c == 36524 ==> b % 4 == 3)
    ensures (4 * (146097 * b / 4 + c) + 3) / 146097 == b
  {
    assert (146097 * b) % 4 == b % 4;
    var n := 4 * (146097 * b / 4 + c) + 3;
    assert n == 146097 * b - b % 4 + 4 * c + 3;
  }

  lemma YearUnique(d: nat, e: nat)
    requires d <= 99 && e <= 365 && (e == 365 ==> d % 4 == 3)
    ensures (4 * (1461 * d / 4 + e) + 3) / 1461 == d
  {
    assert (1461 * d) % 4 == d % 4;
    var n := 4 * (1461 * d / 4 + e) + 3;
    assert n == 1461 * d - d % 4 + 4 * e + 3;
  }

  lemma YearDayBounds(d: YearMonthDay)
    requires Valid(d)
    ensures 0 <= YearDay(d) <= 365
    ensures YearDay(d) == 365 ==> LeapMarchYear(MarchYear(d))
    ensures (5 * YearDay(d) + 2) / 153 == MarchMonth(d)
  {
  }

  lemma RecoverParts(y: nat, e: nat) returns (a: nat, b: nat, c: nat, d: nat)
    requires e <= 365 && (e == 365 ==> LeapMarchYear(y))
    ensures a == DaysBeforeYear(y) + e
    ensures b == (4 * a + 3) / 146097 && c == a - 146097 * b / 4 && d == (4 * c + 3) / 1461
    ensures y == 100 * b + d && e == c - 1461 * d / 4
  {
    b, d := y / 100, y % 100;
    DaysBeforeYearSplit(b, d);
    LeapMarchYearSplit(b, d);
    YearUnique(d, e);
    c := 1461 * d / 4 + e;
    CenturyUnique(b, c);
    a := 146097 * b / 4 + c;
  }

  /** The converse of DateParts. */
  lemma DateOfParts(j: int, y: nat, e: nat)
    requires e <= 365 && (e == 365 ==> LeapMarchYear(y))
    requires j == FIRST_DAY + DaysBeforeYear(y) + e
    ensures DateOf(j) == DateInYear(y, e)
  {
    var a, b, c, d := RecoverParts(y, e);
    DateOfSteps(j, a, b, c, d, y, e);
  }

  lemma DateInYearReadBack(d: YearMonthDay)
    requires Valid(d)
    ensures DateInYear(MarchYear(d), YearDay(d)) == d
  {
    YearDayBounds(d);
    DateInYearSteps(MarchYear(d), YearDay(d));
  }

  lemma DateReadBack(d: YearMonthDay, j: int)
    requires Valid(d) && FromFirstDay(d) && j == FIRST_DAY + DaysBeforeYear(MarchYear(d)) + YearDay(d)
    ensures DateOf(j) == d
  {
    YearDayBounds(d);
    DateOfParts(j, MarchYear(d), YearDay(d));
    DateInYearReadBack(d);
  }

  /** From a valid date to the day number and back: exactly the dates from 1 March -4800 on survive. */
  lemma DateDayDate(d: YearMonthDay)
    requires Valid(d)
    ensures DateOf(JulianDayNumber(d)) == d <==> FromFirstDay(d)
  {
    var j := JulianDayNumber(d);
    if FromFirstDay(d) {
      JulianDayNumberForm(d);
      DateReadBack(d, j);
    } else {
      NoEarlierDate(j);
    }
  }

  lemma NoEarlierDate(j: int)
    ensures Valid(DateOf(j)) ==> FromFirstDay(DateOf(j))
  {
    DateOfValidIff(j);
    if j >= FIRST_DAY {
      DayDateDay(j);
    }
  }

  lemma NextDayInYear(d: YearMonthDay)
    requires Valid(d)
    ensures var n := NextDay(d);
            && Valid(n)
            && (if MarchYear(n) == MarchYear(d) then YearDay(n) == YearDay(d) + 1
                else MarchYear(n) == MarchYear(d) + 1 && YearDay(n) == 0
                     && YearDay(d) == if LeapMarchYear(MarchYear(d)) then 365 else 364)
  {
    assert d.month == 2 ==> MarchYear(d) + 1 - 4800 == d.year;
  }

  lemma NextDayStays(d: YearMonthDay)
    requires Valid(d) && FromFirstDay(d)
    ensures FromFirstDay(NextDay(d))
  {
  }

  lemma NextDayOfYear(y: nat, e: int, y': nat, e': int)
    requires if y' == y then e' == e + 1 else y' == y + 1 && e' == 0 && e == if LeapMarchYear(y) then 365 else 364
    ensures DaysBeforeYear(y') + e' == DaysBeforeYear(y) + e + 1
  {
  }

  lemma NextDayCounts(d: YearMonthDay)
    requires Valid(d) && FromFirstDay(d)
    ensures Valid(NextDay(d)) && FromFirstDay(NextDay(d))
    ensures JulianDayNumber(NextDay(d)) == JulianDayNumber(d) + 1
  {
    var n := NextDay(d);
    NextDayInYear(d);
    JulianDayNumberForm(d);
    NextDayStays(d);
    JulianDayNumberForm(n);
    NextDayOfYear(MarchYear(d), YearDay(d), MarchYear(n), YearDay(n));
  }

  /** Consecutive day numbers are consecutive dates under the leap-year rule. */
  lemma ConsecutiveDays(j: int)
    requires j >= FIRST_DAY
    ensures DateOf(j + 1) == NextDay(DateOf(j))
  {
    DayDateDay(j);
    NextDayCounts(DateOf(j));
    DateDayDate(NextDay(DateOf(j)));
  }

  /** weekDay() names a day of the week for every date from day -1 on; before that it is a
      non-positive remainder, in range only on Sundays. */
  lemma WeekDayRange(j: int)
    ensures 0 <= WeekDay(j) <= 6 <==> j >= -1 || (j + 1) % 7 == 0
  {
    DivTruncates(j + 1, 7);
  }

  lemma WeekDayAdvances(j: int)
    requires j >= -1
    ensures WeekDay(j + 1) == (WeekDay(j) + 1) % 7
  {
    DivOfNat(j + 1, 7);
    DivOfNat(j + 2, 7);
  }
}
