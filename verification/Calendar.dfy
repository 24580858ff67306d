/** The proleptic Gregorian calendar, to the second. */
module Calendar {

  /** A moment as its name spells it. */
  datatype Stamp = Stamp(year: nat, month: nat, day: nat, hour: nat, minute: nat, second: nat)

  predicate IsLeap(year: nat) { year % 4 == 0 && (year % 100 != 0 || year % 400 == 0) }

  const BEFORE_MONTH: seq<nat> := [0, 31, 59, 90, 120, 151, 181, 212, 243, 273, 304, 334, 365]

  function DaysBeforeMonth(year: nat, month: nat): nat
    requires 1 <= month <= 13
  {
    BEFORE_MONTH[month - 1] + if month > 2 && IsLeap(year) then 1 else 0
  }

  function DaysBeforeYear(year: nat): nat {
    if year == 0 then 0 else DaysBeforeYear(year - 1) + DaysBeforeMonth(year - 1, 13)
  }

  predicate Valid(s: Stamp) {
    && 1 <= s.month <= 12 && 1 <= s.day <= DaysBeforeMonth(s.year, s.month + 1) - DaysBeforeMonth(s.year, s.month)
    && s.hour < 24 && s.minute < 60 && s.second < 60
  }

  /** Thirty days have April, June, September and November, 28 or in a leap year 29 has February, and 31 the others. */
  lemma MonthLengths(year: nat, month: nat)
    requires 1 <= month <= 12
    ensures DaysBeforeMonth(year, 1) == 0
    ensures DaysBeforeMonth(year, month + 1) - DaysBeforeMonth(year, month)
         == if month == 4 || month == 6 || month == 9 || month == 11 then 30
            else if month != 2 then 31
            else if year % 4 == 0 && (year % 100 != 0 || year % 400 == 0) then 29
            else 28
  {
  }

  /** Days since the first of January of the year 0. */
  function DayNumber(s: Stamp): nat
    requires Valid(s)
  {
    DaysBeforeYear(s.year) + DaysBeforeMonth(s.year, s.month) + s.day - 1
  }

  function SecondOfDay(s: Stamp): nat { s.hour * 3600 + s.minute * 60 + s.second }

  /** The day of the Unix epoch. */
  const EPOCH_DAY: int := 719_528

  const DAY_SECONDS: int := 86_400

  lemma {:induction false} DaysBeforeYearIs(year: nat)
    ensures DaysBeforeYear(year) == 365 * year + (year + 3) / 4 - (year + 99) / 100 + (year + 399) / 400
  {
    if year > 0 {
      DaysBeforeYearIs(year - 1);
      OneMoreFour(year - 1);
      OneMoreHundred(year - 1);
      OneMoreFourHundred(year - 1);
      MultiplesOfMultiples(year - 1);
    }
  }

  lemma OneMoreFour(n: nat)
    ensures (n + 4) / 4 == (n + 3) / 4 + if n % 4 == 0 then 1 else 0
  {
  }

  lemma OneMoreHundred(n: nat)
    ensures (n + 100) / 100 == (n + 99) / 100 + if n % 100 == 0 then 1 else 0
  {
  }

  lemma OneMoreFourHundred(n: nat)
    ensures (n + 400) / 400 == (n + 399) / 400 + if n % 400 == 0 then 1 else 0
  {
  }

  lemma MultiplesOfMultiples(n: nat)
    ensures n % 400 == 0 ==> n % 100 == 0
    ensures n % 100 == 0 ==> n % 4 == 0
  {
    if n % 400 == 0 {
      HundredTimes(4 * (n / 400));
    }
    if n % 100 == 0 {
      FourTimes(25 * (n / 100));
    }
  }

  lemma HundredTimes(k: nat)
    ensures 100 * k % 100 == 0
  {
  }

  lemma FourTimes(k: nat)
    ensures 4 * k % 4 == 0
  {
  }

  /** Seconds since the Unix epoch. */
  function SecondsOf(s: Stamp): int
    requires Valid(s)
  {
    (DayNumber(s) - EPOCH_DAY) * DAY_SECONDS + SecondOfDay(s)
  }

  // ---------------------------------------------------------------------------
  // The stamp of a moment
  // ---------------------------------------------------------------------------

  /** Searches from a year that has begun for the year a day lies in. */
  function YearOf(day: nat, year: nat): (y: nat)
    requires DaysBeforeYear(year) <= day
    ensures DaysBeforeYear(y) <= day < DaysBeforeYear(y + 1)
    decreases day - DaysBeforeYear(year)
  {
    if day < DaysBeforeYear(year + 1) then year else YearOf(day, year + 1)
  }

  function MonthOf(year: nat, dayOfYear: nat, month: nat): (m: nat)
    requires 1 <= month <= 12 && DaysBeforeMonth(year, month) <= dayOfYear < DaysBeforeMonth(year, 13)
    ensures 1 <= m <= 12 && DaysBeforeMonth(year, m) <= dayOfYear < DaysBeforeMonth(year, m + 1)
    decreases 12 - month
  {
    if dayOfYear < DaysBeforeMonth(year, month + 1) then month else MonthOf(year, dayOfYear, month + 1)
  }

  lemma YearOfTheEpoch(year: nat)
    requires year == 1970
    ensures DaysBeforeYear(year) == EPOCH_DAY
  {
    DaysBeforeYearIs(year);
  }

  lemma StartOfYear(s: Stamp)
    requires s.month == 1 && s.day == 1 && s.hour == 0 && s.minute == 0 && s.second == 0
    ensures Valid(s) && SecondsOf(s) == (DaysBeforeYear(s.year) - EPOCH_DAY) * DAY_SECONDS
  {
  }

  /** The epoch is the first second of 1970, so a name counts from where an instant does. */
  lemma EpochIsTheFirstOf1970(s: Stamp, year: nat)
    requires s.month == 1 && s.day == 1 && s.hour == 0 && s.minute == 0 && s.second == 0
    requires s.year == year && year == 1970
    ensures Valid(s) && SecondsOf(s) == 0
  {
    hide *;
    StartOfYear(s);
    YearOfTheEpoch(year);
  }

  predicate OnCalendar(seconds: int) { seconds >= -EPOCH_DAY * DAY_SECONDS }

  function StampOf(seconds: int): (s: Stamp)
    requires OnCalendar(seconds)
    ensures Valid(s) && SecondsOf(s) == seconds
  {
    var day := seconds / DAY_SECONDS + EPOCH_DAY;
    var rest := seconds % DAY_SECONDS;
    var year := YearOf(day, 0);
    var dayOfYear := day - DaysBeforeYear(year);
    var month := MonthOf(year, dayOfYear, 1);
    Stamp(year, month, dayOfYear - DaysBeforeMonth(year, month) + 1, rest / 3600, rest % 3600 / 60, rest % 60)
  }

  // ---------------------------------------------------------------------------
  // The order of stamps is the order of time
  // ---------------------------------------------------------------------------

  /** Year first, second last. */
  predicate Before(a: Stamp, b: Stamp) {
    if a.year != b.year then a.year < b.year
    else if a.month != b.month then a.month < b.month
    else if a.day != b.day then a.day < b.day
    else if a.hour != b.hour then a.hour < b.hour
    else if a.minute != b.minute then a.minute < b.minute
    else a.second < b.second
  }

  lemma {:induction false} YearsAreOrdered(y: nat, z: nat)
    requires y < z
    ensures DaysBeforeYear(y) + DaysBeforeMonth(y, 13) <= DaysBeforeYear(z)
  {
    if y + 1 < z {
      YearsAreOrdered(y, z - 1);
    }
  }

  lemma {:induction false} MonthsAreOrdered(year: nat, m: nat, n: nat)
    requires 1 <= m < n <= 13
    ensures DaysBeforeMonth(year, m + 1) <= DaysBeforeMonth(year, n)
  {
    if m + 1 < n {
      MonthsAreOrdered(year, m, n - 1);
    }
  }

  lemma DaysAreOrdered(a: Stamp, b: Stamp)
    requires Valid(a) && Valid(b)
    ensures a.year < b.year || (a.year == b.year && (a.month < b.month || (a.month == b.month && a.day < b.day)))
            ==> DayNumber(a) < DayNumber(b)
  {
    if a.year < b.year {
      YearsAreOrdered(a.year, b.year);
      if a.month < 12 {
        MonthsAreOrdered(a.year, a.month, 13);
      }
    } else if a.year == b.year && a.month < b.month {
      MonthsAreOrdered(a.year, a.month, b.month);
    }
  }

  lemma EarlierIsLess(a: Stamp, b: Stamp)
    requires Valid(a) && Valid(b) && Before(a, b)
    ensures SecondsOf(a) < SecondsOf(b)
  {
    DaysAreOrdered(a, b);
  }

  /** Stamps compare as the moments they name. */
  lemma OrderOfStampsIsOrderOfTime(a: Stamp, b: Stamp)
    requires Valid(a) && Valid(b)
    ensures Before(a, b) <==> SecondsOf(a) < SecondsOf(b)
    ensures a == b <==> SecondsOf(a) == SecondsOf(b)
  {
    if Before(a, b) {
      EarlierIsLess(a, b);
    } else if a != b {
      EarlierIsLess(b, a);
    }
  }
}
