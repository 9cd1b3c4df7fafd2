/** Billing calendar arithmetic on civil dates. Times of day and the Seoul time zone are outside;
    a bill's due date enters as its calendar date in Seoul. Date.UTC reads the years 0 to 99 as
    1900 to 1999, so dates begin in year 101, whose preceding month is not among them. */
module Calendar {
  datatype Date = Date(year: int, month: int, day: int)

  predicate Leap(year: int) {
    year % 4 == 0 && (year % 100 != 0 || year % 400 == 0)
  }

  function DaysInMonth(year: int, month: int): int
    requires 1 <= month <= 12
  {
    if month == 2 then if Leap(year) then 29 else 28
    else if month == 4 || month == 6 || month == 9 || month == 11 then 30
    else 31
  }

  predicate Valid(d: Date) {
    1 <= d.month <= 12 && 1 <= d.day <= DaysInMonth(d.year, d.month)
  }

  predicate Before(a: Date, b: Date) {
    a.year < b.year || (a.year == b.year && (a.month < b.month || (a.month == b.month && a.day < b.day)))
  }

  // ---- day numbers (ECMA-262 section 21.4.1), counted from the first day of year 0

  function DaysBeforeYear(year: nat): nat {
    if year == 0 then 0 else DaysBeforeYear(year - 1) + if Leap(year - 1) then 366 else 365
  }

  function DaysBeforeMonth(year: nat, month: int): nat
    requires 1 <= month <= 13
  {
    if month == 1 then 0 else DaysBeforeMonth(year, month - 1) + DaysInMonth(year, month - 1)
  }

  /** MakeDay: a month index outside 0..11 is carried into the year, and any day is counted from
      the first of the month. */
  function MakeDay(year: int, monthIndex: int, day: int): int
    requires year + monthIndex / 12 >= 0
  {
    var y := year + monthIndex / 12;
    DaysBeforeYear(y) + DaysBeforeMonth(y, monthIndex % 12 + 1) + day - 1
  }

  function DayNumber(d: Date): int
    requires Valid(d) && d.year >= 0
  {
    DaysBeforeYear(d.year) + DaysBeforeMonth(d.year, d.month) + d.day - 1
  }

  /** A month index in range names its month; one below it names a month of the year before. */
  lemma MakeDayCarries(year: int, monthIndex: int, day: int)
    requires -12 <= monthIndex <= 12 && year >= 1
    ensures var y := if monthIndex < 0 then year - 1 else if monthIndex < 12 then year else year + 1;
            var m := if monthIndex < 0 then monthIndex + 13 else if monthIndex < 12 then monthIndex + 1 else 1;
            year + monthIndex / 12 == y && MakeDay(year, monthIndex, day) == DaysBeforeYear(y) + DaysBeforeMonth(y, m) + day - 1
  {
    hide Leap;
    if monthIndex < 0 {
      assert monthIndex / 12 == -1 && monthIndex % 12 == monthIndex + 12;
    } else if monthIndex < 12 {
      assert monthIndex / 12 == 0 && monthIndex % 12 == monthIndex;
    } else {
      assert monthIndex / 12 == 1 && monthIndex % 12 == 0;
    }
  }

  function Next(d: Date): (n: Date)
    requires Valid(d)
    ensures Valid(n) && Before(d, n)
  {
    if d.day < DaysInMonth(d.year, d.month) then Date(d.year, d.month, d.day + 1)
    else if d.month < 12 then Date(d.year, d.month + 1, 1)
    else Date(d.year + 1, 1, 1)
  }

  /** The date of a day number: what the UTC accessors of a Date object read. */
  function DateOf(n: nat): (d: Date)
    ensures Valid(d) && d.year >= 0
  {
    if n == 0 then Date(0, 1, 1) else Next(DateOf(n - 1))
  }

  lemma YearIsTwelveMonths(year: nat)
    ensures DaysBeforeMonth(year, 13) == if Leap(year) then 366 else 365
  {
    assert DaysBeforeMonth(year, 13) == DaysBeforeMonth(year, 7) + 184 by {
      assert DaysBeforeMonth(year, 10) == DaysBeforeMonth(year, 9) + 30 == DaysBeforeMonth(year, 8) + 61 == DaysBeforeMonth(year, 7) + 92;
      assert DaysBeforeMonth(year, 13) == DaysBeforeMonth(year, 12) + 31 == DaysBeforeMonth(year, 11) + 61 == DaysBeforeMonth(year, 10) + 92;
    }
    assert DaysBeforeMonth(year, 7) == DaysBeforeMonth(year, 6) + 30 == DaysBeforeMonth(year, 5) + 61 == DaysBeforeMonth(year, 4) + 91;
    assert DaysBeforeMonth(year, 4) == DaysBeforeMonth(year, 3) + 31 == DaysBeforeMonth(year, 2) + DaysInMonth(year, 2) + 31;
    assert DaysBeforeMonth(year, 2) == 31;
  }

  lemma YearStep(year: nat)
    ensures DaysBeforeYear(year + 1) == DaysBeforeYear(year) + DaysBeforeMonth(year, 13)
  {
    YearIsTwelveMonths(year);
  }

  /** DayFromYear of ECMA-262 section 21.4.1, counted from year 0: the Gregorian leap years in closed form. */
  lemma {:induction false} YearsInDays(year: nat)
    ensures DaysBeforeYear(year) == 365 * year + (year + 3) / 4 - (year + 99) / 100 + (year + 399) / 400
  {
    if year == 0 {
    } else {
      YearsInDays(year - 1);
      CountsMultiples(year - 1);
    }
  }

  /** Each of the three counts grows just after a multiple. */
  lemma CountsMultiples(n: nat)
    ensures (n + 4) / 4 == (n + 3) / 4 + if n % 4 == 0 then 1 else 0
    ensures (n + 100) / 100 == (n + 99) / 100 + if n % 100 == 0 then 1 else 0
    ensures (n + 400) / 400 == (n + 399) / 400 + if n % 400 == 0 then 1 else 0
    ensures n % 400 == 0 ==> n % 100 == 0
    ensures n % 100 == 0 ==> n % 4 == 0
  {
    RoundsUp(n, 4);
    RoundsUp(n, 100);
    RoundsUp(n, 400);
    CenturiesAreFourths(n);
  }

  lemma RoundsUp(n: nat, d: nat)
    requires d > 0
    ensures (n + d) / d == (n + (d - 1)) / d + if n % d == 0 then 1 else 0
  {
    var q, r := n / d, n % d;
    assert n == d * q + r;
    Quotient(n + d, d, q + 1, r);
    if r == 0 {
      Quotient(n + (d - 1), d, q, d - 1);
    } else {
      Quotient(n + (d - 1), d, q + 1, r - 1);
    }
  }

  lemma Quotient(n: nat, d: nat, q: nat, r: nat)
    requires d > 0 && r < d && n == d * q + r
    ensures n / d == q
  {
    var p := n / d;
    assert n == d * p + n % d;
    assert d * (p - q) == r - n % d;
    assert p - q >= 1 ==> d * (p - q) >= d;
    assert q - p >= 1 ==> d * (q - p) >= d;
    assert d * (p - q) == -(d * (q - p));
  }

  lemma CenturiesAreFourths(n: nat)
    ensures n % 400 == 0 ==> n % 100 == 0
    ensures n % 100 == 0 ==> n % 4 == 0
  {
    if n % 400 == 0 {
      assert n == 100 * (4 * (n / 400));
    }
    if n % 100 == 0 {
      assert n == 4 * (25 * (n / 100));
    }
  }

  /** DayWithinYear of the first of each month, as the same section tabulates it. */
  lemma MonthsInDays(year: nat, month: int)
    requires 1 <= month <= 13
    ensures DaysBeforeMonth(year, month)
            == [0, 31, 59, 90, 120, 151, 181, 212, 243, 273, 304, 334, 365][month - 1]
               + if month > 2 && (year % 400 == 0 || (year % 4 == 0 && year % 100 != 0)) then 1 else 0
  {
    if month > 1 {
      MonthsInDays(year, month - 1);
    }
  }

  lemma NextIsOneDayLater(d: Date)
    requires Valid(d) && d.year >= 0
    ensures DayNumber(Next(d)) == DayNumber(d) + 1
  {
    hide Leap, DaysBeforeYear;
    if d.day == DaysInMonth(d.year, d.month) && d.month == 12 {
      YearStep(d.year);
      assert DaysBeforeMonth(d.year, 13) == DaysBeforeMonth(d.year, 12) + 31;
      assert DaysBeforeMonth(d.year + 1, 1) == 0;
    }
  }

  lemma {:induction false} DateOfIsInverse(n: nat)
    ensures DayNumber(DateOf(n)) == n
  {
    if n == 0 {
      assert DaysBeforeYear(0) == 0 && DaysBeforeMonth(0, 1) == 0;
    } else {
      DateOfIsInverse(n - 1);
      NextIsOneDayLater(DateOf(n - 1));
    }
  }

  lemma {:induction false} MonthsGrow(year: nat, a: int, b: int)
    requires 1 <= a <= b <= 12
    ensures a < b ==> DaysBeforeMonth(year, a) + DaysInMonth(year, a) <= DaysBeforeMonth(year, b)
    ensures DaysBeforeMonth(year, b) + DaysInMonth(year, b) <= DaysBeforeMonth(year, 13)
    decreases 13 - a, 13 - b
  {
    if b < 12 {
      MonthsGrow(year, b, b + 1);
    }
    if a + 1 < b {
      MonthsGrow(year, a + 1, b);
    }
  }

  lemma {:induction false} YearsGrow(a: nat, b: nat)
    requires a < b
    ensures DaysBeforeYear(a) + (if Leap(a) then 366 else 365) <= DaysBeforeYear(b)
  {
    if a + 1 < b {
      YearsGrow(a, b - 1);
    }
  }

  /** Day numbers are ordered as dates are, so a day number has one date. */
  lemma DayNumberIsMonotone(a: Date, b: Date)
    requires Valid(a) && Valid(b) && a.year >= 0 && b.year >= 0
    ensures DayNumber(a) < DayNumber(b) <==> Before(a, b)
    ensures DayNumber(a) == DayNumber(b) <==> a == b
  {
    if Before(a, b) {
      EarlierIsSmaller(a, b);
    } else if Before(b, a) {
      EarlierIsSmaller(b, a);
    }
  }

  lemma EarlierIsSmaller(a: Date, b: Date)
    requires Valid(a) && Valid(b) && a.year >= 0 && b.year >= 0 && Before(a, b)
    ensures DayNumber(a) < DayNumber(b)
  {
    hide Leap, DaysBeforeYear, DaysBeforeMonth;
    if a.year < b.year {
      YearsGrow(a.year, b.year);
      YearIsTwelveMonths(a.year);
      MonthsGrow(a.year, a.month, a.month);
    } else if a.month < b.month {
      MonthsGrow(a.year, a.month, b.month);
    }
  }

  // ---- the payable date

  /** billPayableFrom: the same day of the month before, or that month's last day. The last day is
      read back from day 0 of the month after it. */
  function PayableFrom(due: Date): Date
    requires Valid(due) && due.year >= 101
  {
    var target := DateOf(FirstOfTarget(due));
    var lastDay := DateOf(LastOfTarget(target)).day;
    Date(target.year, target.month, if due.day < lastDay then due.day else lastDay)
  }

  function FirstOfTarget(due: Date): (n: nat)
    requires Valid(due) && due.year >= 101
  {
    MakeDay(due.year, due.month - 2, 1)
  }

  function LastOfTarget(target: Date): (n: nat)
    requires Valid(target) && target.year >= 0
  {
    LastDayNumber(target.year, target.month);
    MakeDay(target.year, target.month, 0)
  }

  /** Day 0 of the month after a month is its last day. */
  lemma LastDayNumber(year: nat, month: int)
    requires 1 <= month <= 12
    ensures MakeDay(year, month, 0) == DayNumber(Date(year, month, DaysInMonth(year, month)))
  {
    hide Leap;
    YearIsTwelveMonths(year);
    MakeDayCarries(year + 1, if month == 12 then 0 else month - 12, 0);
    assert month < 12 ==> month / 12 == 0 && month % 12 == month;
    assert month == 12 ==> month / 12 == 1 && month % 12 == 0;
  }

  function PrecedingMonth(due: Date): Date
    requires Valid(due)
  {
    if due.month == 1 then Date(due.year - 1, 12, 1) else Date(due.year, due.month - 1, 1)
  }

  /** The payable date by what it means: the due day in the preceding month, cut to its length. */
  lemma PayableIsClampedMonthEarlier(due: Date)
    requires Valid(due) && due.year >= 101
    ensures var p := PrecedingMonth(due);
            var length := DaysInMonth(p.year, p.month);
            PayableFrom(due) == Date(p.year, p.month, if due.day < length then due.day else length)
  {
    hide Leap, DaysBeforeYear, DaysBeforeMonth, DateOf, MakeDay, DaysInMonth;
    var p := PrecedingMonth(due);
    MakeDayCarries(due.year, due.month - 2, 1);
    PrecedingIsValid(due);
    DateOfDayNumber(p);
    LastDayNumber(p.year, p.month);
    DateOfDayNumber(Date(p.year, p.month, DaysInMonth(p.year, p.month)));
  }

  lemma PrecedingIsValid(due: Date)
    requires Valid(due)
    ensures var p := PrecedingMonth(due); Valid(p) && Valid(Date(p.year, p.month, DaysInMonth(p.year, p.month)))
  {
  }

  lemma DateOfDayNumber(d: Date)
    requires Valid(d) && d.year >= 0
    ensures DayNumber(d) >= 0 && DateOf(DayNumber(d)) == d
  {
    DateOfIsInverse(DayNumber(d));
    DayNumberIsMonotone(DateOf(DayNumber(d)), d);
  }

  /** A valid date 28 to 31 days before the due date. */
  lemma PayableIsAMonthBefore(due: Date)
    requires Valid(due) && due.year >= 101
    ensures var from := PayableFrom(due);
            Valid(from) && from.year >= 0 && 28 <= DayNumber(due) - DayNumber(from) <= 31
  {
    hide Leap, DaysBeforeYear, DateOf, MakeDay, PayableFrom;
    PayableIsClampedMonthEarlier(due);
    var p := PrecedingMonth(due);
    YearIsTwelveMonths(p.year);
    assert due.month == 1 ==> DaysBeforeYear(due.year) == DaysBeforeYear(p.year) + DaysBeforeMonth(p.year, 13) by { YearStep(p.year); }
    assert due.month > 1 ==> DaysBeforeMonth(due.year, due.month) == DaysBeforeMonth(p.year, p.month) + DaysInMonth(p.year, p.month);
    assert due.month == 1 ==> DaysBeforeMonth(p.year, 13) == DaysBeforeMonth(p.year, 12) + 31;
    assert DaysBeforeMonth(due.year, 1) == 0;
  }

  /** A later due date never opens earlier. */
  lemma PayableIsMonotone(a: Date, b: Date)
    requires Valid(a) && Valid(b) && a.year >= 101 && b.year >= 101 && Before(a, b)
    ensures PayableFrom(a) == PayableFrom(b) || Before(PayableFrom(a), PayableFrom(b))
  {
    PayableIsClampedMonthEarlier(a);
    PayableIsClampedMonthEarlier(b);
  }

  /** The text of the payable date has a four-digit year exactly when the preceding month is not
      before the year 1000; January 1000 is the one four-digit due month that fails. */
  lemma PayableYearHasFourDigits(due: Date)
    requires Valid(due) && 1000 <= due.year <= 9999
    ensures 1000 <= PayableFrom(due).year <= 9999 <==> due.year > 1000 || due.month > 1
  {
    PayableIsClampedMonthEarlier(due);
  }

  // ---- payment history

  function InclusiveDays(from: Date, to: Date): int
    requires Valid(from) && Valid(to) && from.year >= 0 && to.year >= 0
  {
    DayNumber(to) - DayNumber(from) + 1
  }

  /** Adjacent ranges add up, and a range has at least one day exactly when it is in order. */
  lemma InclusiveDaysAdd(from: Date, middle: Date, to: Date)
    requires Valid(from) && Valid(middle) && Valid(to) && from.year >= 0 && middle.year >= 0 && to.year >= 0
    ensures InclusiveDays(from, middle) + InclusiveDays(Next(middle), to) == InclusiveDays(from, to)
    ensures InclusiveDays(from, to) >= 1 <==> from == to || Before(from, to)
    ensures InclusiveDays(from, from) == 1
  {
    NextIsOneDayLater(middle);
    DayNumberIsMonotone(from, to);
  }

  /** paymentHistoryPresetRange: from the first of the month that lies preset - 1 months back. */
  function PresetFrom(today: Date, preset: int): Date
    requires Valid(today) && today.year >= 101 && 1 <= preset <= 6
  {
    PresetStart(today, preset);
    DateOf(MakeDay(today.year, today.month - preset, 1))
  }

  function MonthsBack(today: Date, months: int): Date
    requires Valid(today) && 0 <= months < 12
  {
    if today.month > months then Date(today.year, today.month - months, 1) else Date(today.year - 1, today.month - months + 12, 1)
  }

  lemma PresetStart(today: Date, preset: int)
    requires Valid(today) && today.year >= 101 && 1 <= preset <= 6
    ensures MakeDay(today.year, today.month - preset, 1) == DayNumber(MonthsBack(today, preset - 1)) >= 0
  {
    hide Leap, DaysBeforeYear, DaysBeforeMonth;
    MakeDayCarries(today.year, today.month - preset, 1);
  }

  /** From the first of a month to the last of a later one is the sum of the months between. */
  lemma {:induction false} MonthsSpan(today: Date, months: int)
    requires Valid(today) && today.year >= 101 && 0 <= months <= 5
    ensures InclusiveDays(MonthsBack(today, months), today) == today.day + Lengths(today, months)
  {
    hide Leap, DaysBeforeYear;
    if months == 0 {
      assert InclusiveDays(MonthsBack(today, 0), today) == today.day;
    } else {
      MonthsSpan(today, months - 1);
      OneMonthBack(today, months);
    }
  }

  lemma OneMonthBack(today: Date, months: int)
    requires Valid(today) && today.year >= 101 && 1 <= months <= 5
    ensures var m := MonthsBack(today, months);
            DayNumber(MonthsBack(today, months - 1)) == DayNumber(m) + DaysInMonth(m.year, m.month)
  {
    hide Leap, DaysBeforeYear;
    if today.month == months {
      YearStep(today.year - 1);
      assert DaysBeforeMonth(today.year - 1, 13) == DaysBeforeMonth(today.year - 1, 12) + DaysInMonth(today.year - 1, 12);
    }
  }

  function Lengths(today: Date, months: int): int
    requires Valid(today) && 0 <= months <= 5
  {
    if months == 0 then 0
    else var m := MonthsBack(today, months); Lengths(today, months - 1) + DaysInMonth(m.year, m.month)
  }

  /** Every preset range ends today, starts on the first of the month that lies preset - 1 months before
      this one, and has at most 184 days. */
  lemma PresetIsShort(today: Date, preset: int)
    requires Valid(today) && today.year >= 101 && 1 <= preset <= 6
    ensures var from := PresetFrom(today, preset);
            && Valid(from) && from.day == 1
            && 12 * from.year + from.month == 12 * today.year + today.month - (preset - 1)
            && 1 <= InclusiveDays(from, today) <= 184
  {
    hide Leap, DaysBeforeYear, DaysBeforeMonth, DateOf, MakeDay, DaysInMonth, InclusiveDays, Lengths;
    PresetStart(today, preset);
    MonthsBackIsValid(today, preset - 1);
    DateOfDayNumber(MonthsBack(today, preset - 1));
    MonthsSpan(today, preset - 1);
    SixMonths(today, preset - 1);
  }

  lemma MonthsBackIsValid(today: Date, months: int)
    requires Valid(today) && today.year >= 101 && 0 <= months <= 5
    ensures Valid(MonthsBack(today, months)) && MonthsBack(today, months).year >= 0 && 1 <= today.day <= 31
  {
  }

  lemma SixMonths(today: Date, months: int)
    requires Valid(today) && 0 <= months <= 5
    ensures 0 <= Lengths(today, months) <= 31 * months
    ensures months == 5 ==> today.day + Lengths(today, months) <= 184
  {
    hide Leap;
    if months > 0 {
      SixMonths(today, months - 1);
    }
    if months == 5 {
      var a, b, c, d, e := MonthsBack(today, 1), MonthsBack(today, 2), MonthsBack(today, 3), MonthsBack(today, 4), MonthsBack(today, 5);
      assert Lengths(today, 1) == DaysInMonth(a.year, a.month);
      assert Lengths(today, 2) == Lengths(today, 1) + DaysInMonth(b.year, b.month);
      assert Lengths(today, 4) == Lengths(today, 2) + DaysInMonth(c.year, c.month) + DaysInMonth(d.year, d.month);
      assert Lengths(today, 5) == Lengths(today, 4) + DaysInMonth(e.year, e.month);
    }
  }
}
