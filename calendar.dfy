/** `getWeekNumber` of server/index.ts over integer civil dates, and the ISO 8601 week
    numbering it implements (ISO 8601:2004, section 4.1.4: weeks run Monday to Sunday and
    week 1 of a year is the week holding that year's first Thursday). Day numbers count
    from 1 January 1970, which was a Thursday, the way ECMAScript time values do. */
module Calendar {

  /** A proleptic Gregorian date: `month` is 1..12 (JavaScript's `getMonth() + 1`). */
  datatype CivilDate = CivilDate(year: int, month: int, day: int)

  predicate IsLeapYear(y: int) {
    y % 4 == 0 && (y % 100 != 0 || y % 400 == 0)
  }

  function DaysInMonth(y: int, m: int): int
    requires 1 <= m <= 12
  {
    if m == 2 then (if IsLeapYear(y) then 29 else 28)
    else if m == 4 || m == 6 || m == 9 || m == 11 then 30
    else 31
  }

  predicate Valid(d: CivilDate) {
    1 <= d.month <= 12 && 1 <= d.day <= DaysInMonth(d.year, d.month)
  }

  function YearLength(y: int): int {
    if IsLeapYear(y) then 366 else 365
  }

  /** Day number of 1 January of `y`, year by year from 1970; `DayFromYearFormula` shows it
      is ECMAScript's closed-form DayFromYear. */
  function YearStart(y: int): int
    decreases if y >= 1970 then y - 1970 else 1970 - y
  {
    if y == 1970 then 0
    else if y > 1970 then YearStart(y - 1) + YearLength(y - 1)
    else YearStart(y + 1) - YearLength(y)
  }

  function DaysBeforeMonth(y: int, m: int): int
    requires 1 <= m <= 12
  {
    var leap := if IsLeapYear(y) then 1 else 0;
    if m == 1 then 0 else if m == 2 then 31
    else if m == 3 then 59 + leap else if m == 4 then 90 + leap
    else if m == 5 then 120 + leap else if m == 6 then 151 + leap
    else if m == 7 then 181 + leap else if m == 8 then 212 + leap
    else if m == 9 then 243 + leap else if m == 10 then 273 + leap
    else if m == 11 then 304 + leap else 334 + leap
  }

  /** `Date.UTC(year, month - 1, day)` in days. */
  function DayNumber(d: CivilDate): int
    requires Valid(d)
  {
    YearStart(d.year) + DaysBeforeMonth(d.year, d.month) + d.day - 1
  }

  /** `getUTCDay()`: 0 is Sunday, 6 is Saturday. */
  function WeekDay(day: int): int {
    (day + 4) % 7
  }

  /** The year whose days include `t`, found from a year `near` that starts or ends at
      most three days away: `getUTCFullYear()` of a date shifted by at most three days. */
  function YearOf(t: int, near: int): (y: int)
    requires YearStart(near) - 3 <= t < YearStart(near + 1) + 3
    ensures YearStart(y) <= t < YearStart(y + 1)
  {
    YearStartStep(near - 1);
    YearStartStep(near);
    YearStartStep(near + 1);
    if t < YearStart(near) then near - 1
    else if t >= YearStart(near + 1) then near + 1
    else near
  }

  /** `getWeekNumber(date)`: `Date.UTC` of the date's year, month and day, then the
      arithmetic of `WeekOfDay`. */
  function GetWeekNumber(date: CivilDate): (r: int)
    requires Valid(date)
    ensures 1 <= r <= 53
    ensures forall y :: InIsoYear(DayNumber(date), y) ==> r == IsoWeekNumber(DayNumber(date), y)
  {
    DayInYear(date);
    WeekOfDayIsIsoAll(DayNumber(date), date.year);
    WeekOfDay(DayNumber(date), date.year)
  }

  /** The arithmetic of `getWeekNumber` on day `day` of year `year`: move to the Thursday of
      the day's Monday-to-Sunday week (`getUTCDay() || 7` gives Monday 1 .. Sunday 7), then
      count `Math.ceil((days since 1 January of that Thursday's year + 1) / 7)`. */
  function WeekOfDay(day: int, year: int): (r: int)
    requires YearStart(year) <= day < YearStart(year + 1)
    ensures 1 <= r <= 53
  {
    ThursdayOfWeek(day);
    YearStartStep(YearOf(day + 4 - IsoWeekDay(day), year));
    var dayNum := if WeekDay(day) == 0 then 7 else WeekDay(day);
    var thursday := day + 4 - dayNum;
    var yearStart := YearStart(YearOf(thursday, year));
    (thursday - yearStart + 1 + 6) / 7
  }

  // ---------- the ISO 8601 definition ----------

  /** ISO weekday: Monday is 1, Sunday is 7. */
  function IsoWeekDay(day: int): int {
    (day + 3) % 7 + 1
  }

  /** The first Thursday on or after `day`. */
  function NextThursday(day: int): int {
    day + (11 - IsoWeekDay(day)) % 7
  }

  /** The first Thursday of year `y`. */
  function FirstThursday(y: int): int {
    NextThursday(YearStart(y))
  }

  /** The Monday that starts week 1 of ISO year `y`. */
  function Week1Monday(y: int): int {
    FirstThursday(y) - 3
  }

  /** `day` falls in ISO week-numbering year `y`. */
  predicate InIsoYear(day: int, y: int) {
    Week1Monday(y) <= day < Week1Monday(y + 1)
  }

  /** Week number of `day` within the ISO year `y` that holds it. */
  function IsoWeekNumber(day: int, y: int): int {
    (day - Week1Monday(y)) / 7 + 1
  }

  /** The Monday of the Monday-to-Sunday week holding `day`. */
  function MondayOf(day: int): int {
    day - IsoWeekDay(day) + 1
  }

  // ---------- facts about the calendar ----------

  lemma YearStartStep(y: int)
    ensures YearStart(y + 1) == YearStart(y) + YearLength(y)
  {
  }

  /** ECMAScript's DayFromYear: `365 * (y - 1970) + floor((y - 1969) / 4)
      - floor((y - 1901) / 100) + floor((y - 1601) / 400)`. */
  function DayFromYear(y: int): int {
    365 * (y - 1970) + (y - 1969) / 4 - (y - 1901) / 100 + (y - 1601) / 400
  }

  lemma DayFromYearStep(y: int)
    ensures DayFromYear(y + 1) == DayFromYear(y) + YearLength(y)
  {
    LeapCountStep(y);
    DivisorChain(y);
    var d4, d100, d400 := (y - 1968) / 4 - (y - 1969) / 4, (y - 1900) / 100 - (y - 1901) / 100,
      (y - 1600) / 400 - (y - 1601) / 400;
    assert DayFromYear(y + 1) == DayFromYear(y) + 365 + d4 - d100 + d400;
  }

  /** A year divisible by 400 is divisible by 100, and one divisible by 100 by 4. */
  lemma DivisorChain(y: int)
    ensures y % 100 == 0 ==> y % 4 == 0
    ensures y % 400 == 0 ==> y % 100 == 0
  {
    if y % 100 == 0 {
      assert y == 4 * (25 * (y / 100));
    }
    if y % 400 == 0 {
      assert y == 100 * (4 * (y / 400));
    }
  }

  /** Each of the three leap-year terms of `DayFromYear` steps by one exactly at a year
      divisible by its period. */
  lemma LeapCountStep(y: int)
    ensures (y - 1968) / 4 - (y - 1969) / 4 == if y % 4 == 0 then 1 else 0
    ensures (y - 1900) / 100 - (y - 1901) / 100 == if y % 100 == 0 then 1 else 0
    ensures (y - 1600) / 400 - (y - 1601) / 400 == if y % 400 == 0 then 1 else 0
  {
    Step4(y);
    Step100(y);
    Step400(y);
  }

  lemma Step4(y: int)
    ensures (y - 1968) / 4 - (y - 1969) / 4 == if y % 4 == 0 then 1 else 0
  {
  }

  lemma Step100(y: int)
    ensures (y - 1900) / 100 - (y - 1901) / 100 == if y % 100 == 0 then 1 else 0
  {
  }

  lemma Step400(y: int)
    ensures (y - 1600) / 400 - (y - 1601) / 400 == if y % 400 == 0 then 1 else 0
  {
  }

  /** The year-by-year count agrees with the closed form `Date.UTC` uses. */
  lemma {:induction false} DayFromYearFormula(y: int)
    ensures YearStart(y) == DayFromYear(y)
    decreases if y >= 1970 then y - 1970 else 1970 - y
  {
    if y > 1970 {
      DayFromYearFormula(y - 1);
      DayFromYearStep(y - 1);
    } else if y < 1970 {
      DayFromYearFormula(y + 1);
      DayFromYearStep(y);
    }
  }

  lemma {:induction false} YearStartMonotone(a: int, b: int)
    requires a <= b
    ensures YearStart(a) <= YearStart(b)
    decreases b - a
  {
    if a < b {
      YearStartStep(a);
      YearStartMonotone(a + 1, b);
    }
  }

  /** At most one calendar year holds a given day. */
  lemma YearUnique(t: int, a: int, b: int)
    requires YearStart(a) <= t < YearStart(a + 1)
    requires YearStart(b) <= t < YearStart(b + 1)
    ensures a == b
  {
    if a < b {
      YearStartMonotone(a + 1, b);
    } else if b < a {
      YearStartMonotone(b + 1, a);
    }
  }

  /** A valid date lies inside its own year. */
  lemma DayInYear(d: CivilDate)
    requires Valid(d)
    ensures YearStart(d.year) <= DayNumber(d) < YearStart(d.year + 1)
  {
    YearStartStep(d.year);
  }

  /** `getUTCDay() || 7` is the ISO weekday, and the shifted day is a Thursday
      (day numbers divisible by 7 are Thursdays) in the same Monday-to-Sunday week. */
  lemma ThursdayOfWeek(day: int)
    ensures (if WeekDay(day) == 0 then 7 else WeekDay(day)) == IsoWeekDay(day)
    ensures 1 <= IsoWeekDay(day) <= 7
    ensures (day + 4 - IsoWeekDay(day)) % 7 == 0
  {
  }

  lemma NextThursdayFacts(day: int)
    ensures NextThursday(day) % 7 == 0
    ensures day <= NextThursday(day) <= day + 6
  {
  }

  /** A Thursday `t` between the starts `s0` and `s1` of two consecutive years lies on or
      after the first Thursday of the first and at least a week before that of the second. */
  lemma ThursdayBetween(t: int, s0: int, s1: int)
    requires t % 7 == 0 && s0 <= t < s1
    ensures NextThursday(s0) <= t <= NextThursday(s1) - 7
  {
    NextThursdayFacts(s0);
    NextThursdayFacts(s1);
  }

  /** Counting weeks from the start `s` of a year or from its first Thursday `f` gives the
      same number for a Thursday `t`, and for any day `day` of that Thursday's week. */
  lemma WeekCount(t: int, s: int, f: int, day: int)
    requires f % 7 == 0 && t % 7 == 0 && s <= f <= s + 6 && f <= t
    requires t - 3 <= day <= t + 3
    ensures (t - s + 1 + 6) / 7 == (t - f) / 7 + 1
    ensures (day - (f - 3)) / 7 + 1 == (t - f) / 7 + 1
  {
    var q := (t - f) / 7;
    assert t - f == 7 * q;
  }

  // ---------- what getWeekNumber promises ----------

  /** Every day lies in some ISO week-numbering year. */
  lemma DayHasIsoYear(day: int, year: int)
    requires YearStart(year) <= day < YearStart(year + 1)
    ensures exists y :: InIsoYear(day, y)
  {
    ThursdayOfWeek(day);
    var t := day + 4 - IsoWeekDay(day);
    var y := YearOf(t, year);
    ThursdayBetween(t, YearStart(y), YearStart(y + 1));
    assert InIsoYear(day, y);
  }

  /** The Thursday of the week of a day in ISO year `isoYear` belongs to calendar year
      `isoYear`, at a whole number of weeks from its first Thursday. */
  lemma ThursdayOfIsoYear(day: int, isoYear: int)
    requires InIsoYear(day, isoYear)
    ensures var t := day + 4 - IsoWeekDay(day);
      YearStart(isoYear) <= FirstThursday(isoYear) <= t < YearStart(isoYear + 1) &&
      t % 7 == 0 && FirstThursday(isoYear) % 7 == 0 &&
      FirstThursday(isoYear) <= YearStart(isoYear) + 6 &&
      t - 3 <= day <= t + 3
  {
    ThursdayOfWeek(day);
    var t := day + 4 - IsoWeekDay(day);
    var s0, s1 := YearStart(isoYear), YearStart(isoYear + 1);
    NextThursdayFacts(s0);
    NextThursdayFacts(s1);
    var f0, f1 := NextThursday(s0), NextThursday(s1);
    WholeWeeksApart(t, f0);
    WholeWeeksApart(f1, t + 7);
  }

  /** Two multiples of 7 less than a week apart in one direction are ordered. */
  lemma WholeWeeksApart(a: int, b: int)
    requires a % 7 == 0 && b % 7 == 0 && a > b - 7
    ensures a >= b
  {
    var qa, qb := a / 7, b / 7;
    assert a == 7 * qa && b == 7 * qb;
  }

  /** The arithmetic of `getWeekNumber` gives the ISO 8601 week number: for the ISO year
      holding the day, it counts the day's week from that year's week 1. */
  lemma WeekOfDayIsIso(day: int, year: int, isoYear: int)
    requires YearStart(year) <= day < YearStart(year + 1)
    requires InIsoYear(day, isoYear)
    ensures WeekOfDay(day, year) == IsoWeekNumber(day, isoYear)
  {
    ThursdayOfWeek(day);
    ThursdayOfIsoYear(day, isoYear);
    var t := day + 4 - IsoWeekDay(day);
    var y := YearOf(t, year);
    YearUnique(t, y, isoYear);
    WeekCount(t, YearStart(isoYear), FirstThursday(isoYear), day);
  }

  /** `WeekOfDayIsIso` for every ISO year that holds the day. */
  lemma WeekOfDayIsIsoAll(day: int, year: int)
    requires YearStart(year) <= day < YearStart(year + 1)
    ensures forall y :: InIsoYear(day, y) ==> WeekOfDay(day, year) == IsoWeekNumber(day, y)
  {
    forall y | InIsoYear(day, y) ensures WeekOfDay(day, year) == IsoWeekNumber(day, y) {
      WeekOfDayIsIso(day, year, y);
    }
  }

  /** Every valid date lies in some ISO week-numbering year. */
  lemma DateHasIsoYear(date: CivilDate)
    requires Valid(date)
    ensures exists y :: InIsoYear(DayNumber(date), y)
  {
    DayInYear(date);
    DayHasIsoYear(DayNumber(date), date.year);
  }

  /** Days with the same Monday get the same week number from `getWeekNumber`'s
      arithmetic. */
  lemma SameWeekOfDay(d1: int, y1: int, d2: int, y2: int)
    requires YearStart(y1) <= d1 < YearStart(y1 + 1)
    requires YearStart(y2) <= d2 < YearStart(y2 + 1)
    requires MondayOf(d1) == MondayOf(d2)
    ensures WeekOfDay(d1, y1) == WeekOfDay(d2, y2)
  {
    ThursdayOfWeek(d1);
    ThursdayOfWeek(d2);
    var t := MondayOf(d1) + 3;
    YearUnique(t, YearOf(t, y1), YearOf(t, y2));
  }

  /** All seven days Monday to Sunday of one week get the same number, across a change
      of calendar year too. */
  lemma SameWeekSameNumber(a: CivilDate, b: CivilDate)
    requires Valid(a) && Valid(b)
    requires MondayOf(DayNumber(a)) == MondayOf(DayNumber(b))
    ensures GetWeekNumber(a) == GetWeekNumber(b)
  {
    DayInYear(a);
    DayInYear(b);
    SameWeekOfDay(DayNumber(a), a.year, DayNumber(b), b.year);
  }
}
