/**
 * Proleptic Gregorian calendar arithmetic as CPython's `datetime` module does it
 * (`_ymd2ord`, `weekday`, `_isoweek1monday`, `isocalendar`), next to the ISO 8601
 * definition of week numbers it is meant to implement: weeks start on Monday and
 * week 01 of a year is the week that holds the year's first Thursday.
 *
 * Python's `//` and `%` floor; with the positive divisors used here that agrees
 * with Dafny's Euclidean `/` and `%`, even for the negative differences that
 * `isocalendar` divides.
 */
module Calendar {

  /** A `datetime` value; `datetime.now()` is an input of the model. */
  datatype DateTime = DateTime(year: int, month: int, day: int,
                               hour: int, minute: int, second: int, microsecond: int)

  const MinYear := 1
  const MaxYear := 9999

  predicate IsLeap(y: int) {
    y % 4 == 0 && (y % 100 != 0 || y % 400 == 0)
  }

  function DaysInYear(y: int): int {
    if IsLeap(y) then 366 else 365
  }

  function DaysInMonth(y: int, m: int): (n: int)
    requires 1 <= m <= 12
    ensures 28 <= n <= 31
  {
    if m == 2 then (if IsLeap(y) then 29 else 28)
    else if m == 4 || m == 6 || m == 9 || m == 11 then 30
    else 31
  }

  predicate ValidDate(y: int, m: int, d: int) {
    MinYear <= y <= MaxYear && 1 <= m <= 12 && 1 <= d <= DaysInMonth(y, m)
  }

  predicate Valid(t: DateTime) {
    && ValidDate(t.year, t.month, t.day)
    && 0 <= t.hour < 24 && 0 <= t.minute < 60 && 0 <= t.second < 60
    && 0 <= t.microsecond < 1000000
  }

  /** Days in the months of year `y` before month `m` (CPython's `_days_before_month`). */
  function DaysBeforeMonth(y: int, m: int): int
    requires 1 <= m <= 12
  {
    var table := [0, 31, 59, 90, 120, 151, 181, 212, 243, 273, 304, 334];
    table[m - 1] + (if m > 2 && IsLeap(y) then 1 else 0)
  }

  /** Days in the years before year `y` (CPython's `_days_before_year`). */
  function DaysBeforeYear(y: int): int {
    var y1 := y - 1;
    y1 * 365 + y1 / 4 - y1 / 100 + y1 / 400
  }

  /** Day number with 0001-01-01 as day 1 (CPython's `_ymd2ord`). */
  function Ordinal(y: int, m: int, d: int): int
    requires 1 <= m <= 12
  {
    DaysBeforeYear(y) + DaysBeforeMonth(y, m) + d
  }

  /** Day of the week, Monday = 0 ... Sunday = 6 (`date.weekday`). */
  function Weekday(ord: int): (w: int)
    ensures 0 <= w < 7
  {
    (ord + 6) % 7
  }

  /** Ordinal of the Monday that starts ISO week 1 of `y`, as CPython's `_isoweek1monday` computes it. */
  function IsoWeek1Monday(y: int): int {
    Week1MondayFromJan1(Ordinal(y, 1, 1))
  }

  /** The body of `_isoweek1monday`, given the ordinal of January 1st: back up to
      the Monday of that week, and one week later when January 1st falls after Thursday. */
  function Week1MondayFromJan1(firstDay: int): int {
    var firstWeekday := Weekday(firstDay);
    var week1Monday := firstDay - firstWeekday;
    if firstWeekday > 3 then week1Monday + 7 else week1Monday
  }

  /** The (ISO year, ISO week, ISO weekday) triple `date.isocalendar()` returns. */
  datatype IsoDate = IsoDate(isoYear: int, week: int, weekday: int)

  /** `date.isocalendar()`. */
  function IsoCalendar(y: int, m: int, d: int): IsoDate
    requires 1 <= m <= 12
  {
    IsoCalendarOf(y, Ordinal(y, m, d),
                  IsoWeek1Monday(y - 1), IsoWeek1Monday(y), IsoWeek1Monday(y + 1))
  }

  /** The branches of `isocalendar` for day `today` of year `y`, given the week-1
      Mondays of years `y - 1`, `y` and `y + 1` (CPython computes the first and last
      only in the branch that needs them; the functions are pure, so that makes no
      difference). */
  function IsoCalendarOf(y: int, today: int, prevMonday: int, monday: int, nextMonday: int): IsoDate {
    var week := (today - monday) / 7;
    var day := (today - monday) % 7;
    if week < 0 then
      IsoDate(y - 1, (today - prevMonday) / 7 + 1, (today - prevMonday) % 7 + 1)
    else if week >= 52 && today >= nextMonday then
      IsoDate(y + 1, 1, day + 1)
    else
      IsoDate(y, week + 1, day + 1)
  }

  // ---------------------------------------------------------------------------
  // ISO 8601 week numbering, defined independently of CPython's computation.

  /** Ordinal of the first Thursday on or after day `jan1`. */
  function ThursdayFrom(jan1: int): int {
    jan1 + (3 - Weekday(jan1)) % 7
  }

  /** Ordinal of the first Thursday of year `y`. */
  function FirstThursday(y: int): (t: int)
    ensures Weekday(t) == 3
    ensures Ordinal(y, 1, 1) <= t < Ordinal(y, 1, 1) + 7
  {
    ThursdayFromFacts(Ordinal(y, 1, 1));
    ThursdayFrom(Ordinal(y, 1, 1))
  }

  /** Ordinal of the Monday of the week that holds the first Thursday of `y`. */
  function Week1Monday(y: int): (mon: int)
    ensures Weekday(mon) == 0
  {
    WeekdayShift(FirstThursday(y), -3);
    FirstThursday(y) - 3
  }

  /** Day `ord` is in the week year that runs from Monday `start` up to Monday `end`, in
      week `r.week` counted from 1 and on ISO weekday `r.weekday` (Monday = 1). */
  predicate InWeekYear(ord: int, r: IsoDate, start: int, end: int) {
    && start <= ord < end
    && r.week == (ord - start) / 7 + 1
    && r.weekday == Weekday(ord) + 1
  }

  /** `(isoYear, week, weekday)` names day `ord` in the ISO 8601 week calendar. */
  predicate IsIsoWeekDate(ord: int, r: IsoDate) {
    InWeekYear(ord, r, Week1Monday(r.isoYear), Week1Monday(r.isoYear + 1))
  }

  // ---------------------------------------------------------------------------
  // Arithmetic on day numbers

  lemma WeekdayShift(o: int, k: int)
    ensures Weekday(o + k) == (Weekday(o) + k) % 7
  {
  }

  lemma ThursdayFromFacts(o: int)
    ensures Weekday(ThursdayFrom(o)) == 3 && o <= ThursdayFrom(o) < o + 7
  {
  }

  lemma Week1MondayFromJan1Facts(o: int)
    ensures Week1MondayFromJan1(o) == ThursdayFrom(o) - 3
    ensures o - 3 <= Week1MondayFromJan1(o) <= o + 3
  {
  }

  /** From one January 1st to the next is 365 or 366 days; the week-1 Mondays are then 52 or 53 weeks apart. */
  lemma Week1MondayGap(o: int, len: int)
    requires len == 365 || len == 366
    ensures var gap := ThursdayFrom(o + len) - ThursdayFrom(o); gap == 364 || gap == 371
  {
  }

  /** The day of the week measured from a Monday. */
  lemma WeekdayFromMonday(today: int, mon: int)
    requires Weekday(mon) == 0
    ensures (today - mon) % 7 == Weekday(today)
  {
  }

  // ---------------------------------------------------------------------------
  // Lemmas

  /** Consecutive January 1st ordinals are a year length apart, 366 days exactly in a leap year. */
  lemma YearLength(y: int)
    ensures DaysBeforeYear(y + 1) == DaysBeforeYear(y) + DaysInYear(y)
  {
    DivStep4(y);
    DivStep100(y);
    DivStep400(y);
  }

  lemma DivStep4(y: int)
    ensures y / 4 == (y - 1) / 4 + (if y % 4 == 0 then 1 else 0)
  {
  }

  lemma DivStep100(y: int)
    ensures y / 100 == (y - 1) / 100 + (if y % 100 == 0 then 1 else 0)
  {
  }

  lemma DivStep400(y: int)
    ensures y / 400 == (y - 1) / 400 + (if y % 400 == 0 then 1 else 0)
  {
  }

  /** CPython's week-1 Monday is the Monday of the week holding the year's first Thursday. */
  lemma IsoWeek1MondayIsIso8601(y: int)
    ensures IsoWeek1Monday(y) == Week1Monday(y)
    ensures Ordinal(y, 1, 1) - 3 <= Week1Monday(y) <= Ordinal(y, 1, 1) + 3
  {
    Week1MondayFromJan1Facts(Ordinal(y, 1, 1));
  }

  /** An ISO year has 52 or 53 weeks. */
  lemma IsoYearLength(y: int)
    ensures Week1Monday(y + 1) - Week1Monday(y) == 364
         || Week1Monday(y + 1) - Week1Monday(y) == 371
  {
    YearLength(y);
    var jan1 := Ordinal(y, 1, 1);
    assert Ordinal(y + 1, 1, 1) == jan1 + DaysInYear(y);
    Week1MondayGap(jan1, DaysInYear(y));
  }

  /** Every valid date lies within its calendar year's ordinals. */
  lemma OrdinalInYear(y: int, m: int, d: int)
    requires ValidDate(y, m, d)
    ensures Ordinal(y, 1, 1) <= Ordinal(y, m, d) < Ordinal(y + 1, 1, 1)
  {
    YearLength(y);
    MonthInYear(y, m);
  }

  /** The months before `m` and month `m` itself fit in the year. */
  lemma MonthInYear(y: int, m: int)
    requires 1 <= m <= 12
    ensures 0 <= DaysBeforeMonth(y, m) && DaysBeforeMonth(y, m) + DaysInMonth(y, m) <= DaysInYear(y)
  {
  }

  /** The branches of `isocalendar` on plain day numbers: given a day of the calendar year
      starting at `jan1`, and the week-1 Mondays of the previous four years around it, the result
      names the day in the week year it belongs to. */
  lemma {:induction false} IsoCalendarOfIsIso8601(y: int, today: int, prev: int, mon: int, next: int,
                                                  after: int, jan1: int, nextJan1: int)
    requires jan1 <= today < nextJan1
    requires jan1 - 3 <= mon <= jan1 + 3 && nextJan1 - 3 <= next <= nextJan1 + 3
    requires mon - prev == 364 || mon - prev == 371
    requires next - mon == 364 || next - mon == 371
    requires after - next == 364 || after - next == 371
    requires Weekday(prev) == 0 && Weekday(mon) == 0 && Weekday(next) == 0
    ensures var r := IsoCalendarOf(y, today, prev, mon, next);
      && y - 1 <= r.isoYear <= y + 1
      && (r.isoYear == y - 1 ==> InWeekYear(today, r, prev, mon))
      && (r.isoYear == y ==> InWeekYear(today, r, mon, next))
      && (r.isoYear == y + 1 ==> InWeekYear(today, r, next, after))
    ensures 1 <= IsoCalendarOf(y, today, prev, mon, next).week <= 53
  {
    WeekdayFromMonday(today, prev);
    WeekdayFromMonday(today, mon);
    WeekdayFromMonday(today, next);
  }

  /** `isocalendar` with the week-1 Mondays of the ISO 8601 definition. */
  lemma IsoCalendarUnfold(y: int, m: int, d: int)
    requires 1 <= m <= 12
    ensures IsoCalendar(y, m, d) == IsoCalendarOf(y, Ordinal(y, m, d), Week1Monday(y - 1), Week1Monday(y), Week1Monday(y + 1))
  {
    IsoWeek1MondayIsIso8601(y - 1);
    IsoWeek1MondayIsIso8601(y);
    IsoWeek1MondayIsIso8601(y + 1);
  }

  /** `isocalendar` on the date unfolds to the branches over the proleptic week-1 Mondays, and
      the date lies in its calendar year. */
  predicate DateFacts(y: int, m: int, d: int)
    requires 1 <= m <= 12
  {
    var today := Ordinal(y, m, d);
    && IsoCalendar(y, m, d) == IsoCalendarOf(y, today, Week1Monday(y - 1), Week1Monday(y), Week1Monday(y + 1))
    && Ordinal(y, 1, 1) <= today < Ordinal(y + 1, 1, 1)
  }

  /** The week-1 Mondays of `y` and `y + 1` are within three days of January 1st, and the ISO
      years from `y - 1` to `y + 1` have 52 or 53 weeks. */
  predicate MondayFacts(y: int) {
    && Ordinal(y, 1, 1) - 3 <= Week1Monday(y) <= Ordinal(y, 1, 1) + 3
    && Ordinal(y + 1, 1, 1) - 3 <= Week1Monday(y + 1) <= Ordinal(y + 1, 1, 1) + 3
    && (Week1Monday(y) - Week1Monday(y - 1) == 364 || Week1Monday(y) - Week1Monday(y - 1) == 371)
    && (Week1Monday(y + 1) - Week1Monday(y) == 364 || Week1Monday(y + 1) - Week1Monday(y) == 371)
    && (Week1Monday(y + 2) - Week1Monday(y + 1) == 364 || Week1Monday(y + 2) - Week1Monday(y + 1) == 371)
  }

  lemma DateFactsHold(y: int, m: int, d: int)
    requires ValidDate(y, m, d)
    ensures DateFacts(y, m, d)
  {
    IsoCalendarUnfold(y, m, d);
    OrdinalInYear(y, m, d);
  }

  lemma MondayFactsHold(y: int)
    ensures MondayFacts(y)
  {
    IsoWeek1MondayIsIso8601(y);
    IsoWeek1MondayIsIso8601(y + 1);
    IsoYearLength(y - 1);
    IsoYearLength(y);
    IsoYearLength(y + 1);
  }

  /** `isocalendar` agrees with the ISO 8601 definition of week dates. */
  lemma IsoCalendarIsIso8601(y: int, m: int, d: int)
    requires ValidDate(y, m, d)
    ensures IsIsoWeekDate(Ordinal(y, m, d), IsoCalendar(y, m, d))
    ensures 1 <= IsoCalendar(y, m, d).week <= 53
    ensures y - 1 <= IsoCalendar(y, m, d).isoYear <= y + 1
  {
    DateFactsHold(y, m, d);
    MondayFactsHold(y);
    WeekDateInYear(y, Ordinal(y, m, d), IsoCalendar(y, m, d));
  }

  /** The three branches of `isocalendar` for a day of calendar year `y`: the result names the
      day in the ISO year before, the same or after, whichever holds it. */
  lemma WeekDateInYear(y: int, today: int, r: IsoDate)
    requires MondayFacts(y) && Ordinal(y, 1, 1) <= today < Ordinal(y + 1, 1, 1)
    requires r == IsoCalendarOf(y, today, Week1Monday(y - 1), Week1Monday(y), Week1Monday(y + 1))
    ensures IsIsoWeekDate(today, r)
    ensures 1 <= r.week <= 53
    ensures y - 1 <= r.isoYear <= y + 1
  {
    IsoCalendarOfIsIso8601(y, today, Week1Monday(y - 1), Week1Monday(y), Week1Monday(y + 1),
                           Week1Monday(y + 2), Ordinal(y, 1, 1), Ordinal(y + 1, 1, 1));
    BranchIsWeekDate(y, today, r);
  }

  /** Whichever of the week years around `y` holds the day, the day is named in it. */
  lemma BranchIsWeekDate(y: int, today: int, r: IsoDate)
    requires y - 1 <= r.isoYear <= y + 1
    requires r.isoYear == y - 1 ==> InWeekYear(today, r, Week1Monday(y - 1), Week1Monday(y))
    requires r.isoYear == y ==> InWeekYear(today, r, Week1Monday(y), Week1Monday(y + 1))
    requires r.isoYear == y + 1 ==> InWeekYear(today, r, Week1Monday(y + 1), Week1Monday(y + 2))
    ensures IsIsoWeekDate(today, r)
  {
    if r.isoYear == y - 1 {
      InWeekYearIsIsoWeekDate(today, r, y - 1, y);
    } else if r.isoYear == y {
      InWeekYearIsIsoWeekDate(today, r, y, y + 1);
    } else {
      InWeekYearIsIsoWeekDate(today, r, y + 1, y + 2);
    }
  }

  lemma InWeekYearIsIsoWeekDate(ord: int, r: IsoDate, k: int, k1: int)
    requires r.isoYear == k && k1 == k + 1
    requires InWeekYear(ord, r, Week1Monday(k), Week1Monday(k1))
    ensures IsIsoWeekDate(ord, r)
  {
  }

  /** The ISO week number of a valid date is between 1 and 53, its weekday between 1 and 7. */
  lemma IsoWeekInRange(y: int, m: int, d: int)
    requires ValidDate(y, m, d)
    ensures 1 <= IsoCalendar(y, m, d).week <= 53
    ensures 1 <= IsoCalendar(y, m, d).weekday <= 7
  {
    IsoCalendarIsIso8601(y, m, d);
  }

  /** The ISO year differs from the calendar year only in the last days of December
      and the first days of January. */
  lemma IsoYearNearCalendarYear(y: int, m: int, d: int)
    requires ValidDate(y, m, d)
    ensures var r := IsoCalendar(y, m, d);
      && (r.isoYear == y + 1 ==> m == 12 && d >= 29)
      && (r.isoYear == y - 1 ==> m == 1 && d <= 3)
  {
    IsoCalendarIsIso8601(y, m, d);
    IsoWeek1MondayIsIso8601(y);
    IsoWeek1MondayIsIso8601(y + 1);
    var r := IsoCalendar(y, m, d);
    if r.isoYear == y + 1 {
      LateInYear(y, m, d);
    } else if r.isoYear == y - 1 {
      EarlyInYear(y, m, d);
    }
  }

  /** Only December 29th to 31st lie within three days of the next January 1st. */
  lemma LateInYear(y: int, m: int, d: int)
    requires ValidDate(y, m, d) && Ordinal(y + 1, 1, 1) - 3 <= Ordinal(y, m, d)
    ensures m == 12 && d >= 29
  {
    YearLength(y);
  }

  /** Only January 1st to 3rd lie less than three days after January 1st. */
  lemma EarlyInYear(y: int, m: int, d: int)
    requires ValidDate(y, m, d) && Ordinal(y, m, d) < Ordinal(y, 1, 1) + 3
    ensures m == 1 && d <= 3
  {
  }

  lemma DaysBeforeYears2023To2025()
    ensures DaysBeforeYear(2023) == 738520
    ensures DaysBeforeYear(2024) == 738885
    ensures DaysBeforeYear(2025) == 739251
  {
  }

  lemma Week1Mondays2023To2025()
    ensures IsoWeek1Monday(2023) == 738522
    ensures IsoWeek1Monday(2024) == 738886
    ensures IsoWeek1Monday(2025) == 739250
  {
    DaysBeforeYears2023To2025();
    assert Ordinal(2023, 1, 1) == 738521 && Weekday(738521) == 6;
    assert Ordinal(2024, 1, 1) == 738886 && Weekday(738886) == 0;
    assert Ordinal(2025, 1, 1) == 739252 && Weekday(739252) == 2;
  }

  /** 2024-12-30 is a Monday in ISO week 1 of 2025. */
  lemma Dec30Of2024IsWeek1Of2025()
    ensures IsoCalendar(2024, 12, 30) == IsoDate(2025, 1, 1)
  {
    DaysBeforeYears2023To2025();
    Week1Mondays2023To2025();
    assert Ordinal(2024, 12, 30) == 739250;
  }
}
