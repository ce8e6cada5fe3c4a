// Civil dates and day numbers: the two conversions between them, and the calendar
// they stand for.
module CivilDates {
  import opened Arithmetic

  // Division as the machine does it, towards zero.
  function TruncDiv(a: int, b: int): int
    requires b > 0
  {
    if a >= 0 then a / b else -(-a / b)
  }

  function TruncRem(a: int, b: int): int
    requires b > 0
  {
    a - b * TruncDiv(a, b)
  }

  datatype Date = Date(year: int, month: int, day: int)

  predicate IsLeapYear(y: int) {
    (TruncRem(y, 4) == 0 && TruncRem(y, 100) != 0) || TruncRem(y, 400) == 0
  }

  function DaysInMonth(y: int, m: int): int {
    if m in {1, 3, 5, 7, 8, 10, 12} then 31
    else if m in {4, 6, 9, 11} then 30
    else if m == 2 then if IsLeapYear(y) then 29 else 28
    else 0
  }

  predicate ValidDate(date: Date) {
    1 <= date.month <= 12 && 1 <= date.day <= DaysInMonth(date.year, date.month)
  }

  function DaysFromCivil(date: Date): int {
    var y := if date.month <= 2 then date.year - 1 else date.year;
    var era := TruncDiv(if y >= 0 then y else y - 399, 400);
    var yoe := y - era * 400;
    var mp := if date.month > 2 then date.month - 3 else date.month + 9;
    var doy := TruncDiv(153 * mp + 2, 5) + date.day - 1;
    var doe := yoe * 365 + TruncDiv(yoe, 4) - TruncDiv(yoe, 100) + doy;
    era * 146097 + doe - 719468
  }

  function CivilFromDays(days: int): Date {
    var z := days + 719468;
    var era := TruncDiv(if z >= 0 then z else z - 146096, 146097);
    DateInEra(era, z - era * 146097)
  }

  function DateInEra(era: int, doe: int): Date {
    var yoe := TruncDiv(doe - TruncDiv(doe, 1460) + TruncDiv(doe, 36524) - TruncDiv(doe, 146096), 365);
    var y := yoe + era * 400;
    var doy := doe - (365 * yoe + TruncDiv(yoe, 4) - TruncDiv(yoe, 100));
    var mp := TruncDiv(5 * doy + 2, 153);
    var d := doy - TruncDiv(153 * mp + 2, 5) + 1;
    var m := if mp < 10 then mp + 3 else mp - 9;
    Date(if m <= 2 then y + 1 else y, m, d)
  }

  // The day after, by the table of month lengths.
  function NextDay(date: Date): Date {
    if date.day < DaysInMonth(date.year, date.month) then date.(day := date.day + 1)
    else if date.month < 12 then Date(date.year, date.month + 1, 1)
    else Date(date.year + 1, 1, 1)
  }

  // ----- both conversions, through years that start in March ---------------------------

  // The rounding that the era computations spell out is a floor.
  lemma ErasAreFloors(a: int)
    ensures TruncDiv(if a >= 0 then a else a - 399, 400) == a / 400
    ensures TruncDiv(if a >= 0 then a else a - 146096, 146097) == a / 146097
  {
  }

  lemma RemaindersVanishTogether(a: int, n: int)
    requires n > 0
    ensures TruncRem(a, n) == 0 <==> a % n == 0
  {
    if a >= 0 {
      assert TruncRem(a, n) == a % n;
    } else {
      assert TruncRem(a, n) == -(-a % n);
      if a % n == 0 {
        Remainder(-a, n, -(a / n), 0);
      } else {
        Remainder(-a, n, -(a / n) - 1, n - a % n);
      }
    }
  }

  lemma LeapByFloor(y: int)
    ensures IsLeapYear(y) <==> (y % 4 == 0 && y % 100 != 0) || y % 400 == 0
  {
    RemaindersVanishTogether(y, 4);
    RemaindersVanishTogether(y, 100);
    RemaindersVanishTogether(y, 400);
    hide TruncRem;
  }

  // The first day of year `yoe` of an era, and of month `mp` of a year.
  function YearStart(yoe: int): int {
    365 * yoe + yoe / 4 - yoe / 100
  }

  function MonthStart(mp: int): int {
    (153 * mp + 2) / 5
  }

  // A day of an era: year, month and day counted from the first of March.
  ghost predicate MarchDay(yoe: int, mp: int, d: int) {
    0 <= yoe < 400 && 0 <= mp <= 11 && 1 <= d <= MarchLength(yoe, mp)
  }

  predicate LeapEnds(yoe: int) {
    yoe % 4 == 3 && (yoe % 100 != 99 || yoe == 399)
  }

  function MarchLength(yoe: int, mp: int): int {
    if mp == 11 then if LeapEnds(yoe) then 29 else 28
    else if mp in {1, 3, 6, 8} then 30
    else 31
  }

  function MarchDate(era: int, yoe: int, mp: int, d: int): Date {
    Date(era * 400 + yoe + (if mp >= 10 then 1 else 0), if mp < 10 then mp + 3 else mp - 9, d)
  }

  function DayOfYear(mp: int, d: int): int {
    MonthStart(mp) + d - 1
  }

  lemma LeapByEra(era: int, yoe: int)
    requires 0 <= yoe < 400
    ensures IsLeapYear(era * 400 + yoe + 1) <==> LeapEnds(yoe)
  {
    var y := era * 400 + yoe + 1;
    LeapByFloor(y);
    Remainder(y, 4, 100 * era + (yoe + 1) / 4, (yoe + 1) % 4);
    Remainder(y, 100, 4 * era + (yoe + 1) / 100, (yoe + 1) % 100);
    Remainder(y, 400, era + (yoe + 1) / 400, (yoe + 1) % 400);
    LastOfCycles(yoe);
  }

  lemma LastOfCycles(yoe: int)
    requires 0 <= yoe < 400
    ensures (yoe + 1) % 4 == 0 <==> yoe % 4 == 3
    ensures (yoe + 1) % 100 == 0 <==> yoe % 100 == 99
    ensures (yoe + 1) % 400 == 0 <==> yoe == 399
  {
  }

  lemma MarchLengthIsTheTables(era: int, yoe: int, mp: int)
    requires 0 <= yoe < 400 && 0 <= mp <= 11
    ensures MarchLength(yoe, mp) == DaysInMonth(MarchDate(era, yoe, mp, 1).year, MarchDate(era, yoe, mp, 1).month)
  {
    if mp == 11 {
      LeapByEra(era, yoe);
    } else {
      ShortMonths(era * 400 + yoe + (if mp >= 10 then 1 else 0), yoe, mp);
    }
  }

  lemma ShortMonths(y: int, yoe: int, mp: int)
    requires 0 <= mp < 11
    ensures MarchLength(yoe, mp) == DaysInMonth(y, if mp < 10 then mp + 3 else mp - 9)
  {
  }

  // Every valid date is a day of an era.
  lemma AsMarchDate(date: Date) returns (era: int, yoe: int, mp: int)
    requires ValidDate(date)
    ensures MarchDay(yoe, mp, date.day) && MarchDate(era, yoe, mp, date.day) == date
  {
    var y := if date.month <= 2 then date.year - 1 else date.year;
    era, yoe := y / 400, y % 400;
    mp := if date.month > 2 then date.month - 3 else date.month + 9;
    MarchLengthIsTheTables(era, yoe, mp);
  }

  lemma MarchDatesAreValid(era: int, yoe: int, mp: int, d: int)
    requires MarchDay(yoe, mp, d)
    ensures ValidDate(MarchDate(era, yoe, mp, d))
  {
    MarchLengthIsTheTables(era, yoe, mp);
  }

  lemma DaysOfMarchDate(era: int, yoe: int, mp: int, d: int)
    requires MarchDay(yoe, mp, d)
    ensures DaysFromCivil(MarchDate(era, yoe, mp, d)) == era * 146097 + YearStart(yoe) + DayOfYear(mp, d) - 719468
  {
    var date := MarchDate(era, yoe, mp, d);
    var y := if date.month <= 2 then date.year - 1 else date.year;
    ErasAreFloors(y);
    Quotient(y, 400, era);
    assert (if date.month > 2 then date.month - 3 else date.month + 9) == mp;
  }

  lemma MonthOfDay(yoe: int, mp: int, d: int)
    requires MarchDay(yoe, mp, d)
    ensures (5 * DayOfYear(mp, d) + 2) / 153 == mp
    ensures 0 <= DayOfYear(mp, d) <= 365 && (DayOfYear(mp, d) == 365 ==> LeapEnds(yoe))
  {
  }

  // The year is read off the day of the era, whose centuries, four-year cycles and
  // years all have one day more or less than the round figure.
  lemma YearOfDay(yoe: int, doy: int)
    requires 0 <= yoe < 400 && 0 <= doy <= 365 && (doy == 365 ==> LeapEnds(yoe))
    ensures
      var doe := YearStart(yoe) + doy;
      0 <= doe < 146097 && (doe - doe / 1460 + doe / 36524 - doe / 146096) / 365 == yoe
  {
    var c, q, r := yoe / 100, yoe % 100 / 4, yoe % 4;
    assert yoe == 100 * c + 4 * q + r;
    CycleStart(c, q, r);
    YearOfCycleDay(c, q, r, doy);
  }

  lemma CycleStart(c: int, q: int, r: int)
    requires 0 <= c <= 3 && 0 <= q <= 24 && 0 <= r <= 3
    ensures YearStart(100 * c + 4 * q + r) == 36524 * c + 1461 * q + 365 * r
  {
    Quotient(100 * c + 4 * q + r, 4, 25 * c + q);
    Quotient(100 * c + 4 * q + r, 100, c);
  }

  lemma YearOfCycleDay(c: int, q: int, r: int, doy: int)
    requires 0 <= c <= 3 && 0 <= q <= 24 && 0 <= r <= 3 && 0 <= doy <= 365
    requires doy == 365 ==> r == 3 && (q != 24 || c == 3)
    ensures
      var doe := 36524 * c + 1461 * q + 365 * r + doy;
      0 <= doe < 146097 && (doe - doe / 1460 + doe / 36524 - doe / 146096) / 365 == 100 * c + 4 * q + r
  {
    var doe := 36524 * c + 1461 * q + 365 * r + doy;
    var e := if 24 * c + q + 365 * r + doy >= 1460 then 1 else 0;
    Quotient(doe, 1460, 25 * c + q + e);
    var last := if doe == 146096 then 1 else 0;
    Quotient(doe, 146096, last);
    Quotient(doe, 36524, c + last);
    Quotient(36500 * c + 1460 * q + 365 * r + (doy - e), 365, 100 * c + 4 * q + r);
  }

  lemma CivilOfMarchDate(days: int, era: int, yoe: int, mp: int, d: int)
    requires MarchDay(yoe, mp, d) && days == era * 146097 + YearStart(yoe) + DayOfYear(mp, d) - 719468
    ensures CivilFromDays(days) == MarchDate(era, yoe, mp, d)
  {
    MonthOfDay(yoe, mp, d);
    YearOfDay(yoe, DayOfYear(mp, d));
    SplitEra(days, era, YearStart(yoe) + DayOfYear(mp, d));
    InEra(era, yoe, mp, YearStart(yoe) + DayOfYear(mp, d), DayOfYear(mp, d), d);
  }

  lemma SplitEra(days: int, era: int, doe: int)
    requires days + 719468 == era * 146097 + doe && 0 <= doe < 146097
    ensures CivilFromDays(days) == DateInEra(era, doe)
  {
    EraOfDay(days + 719468, era, doe);
  }

  lemma EraOfDay(z: int, era: int, doe: int)
    requires z == era * 146097 + doe && 0 <= doe < 146097
    ensures TruncDiv(if z >= 0 then z else z - 146096, 146097) == era
  {
    ErasAreFloors(z);
    Quotient(z, 146097, era);
  }

  lemma InEra(era: int, yoe: int, mp: int, doe: int, doy: int, d: int)
    requires 0 <= doe < 146097 && yoe >= 0 && doy >= 0 && mp >= 0
    requires (doe - doe / 1460 + doe / 36524 - doe / 146096) / 365 == yoe && doe == YearStart(yoe) + doy
    requires (5 * doy + 2) / 153 == mp && doy == DayOfYear(mp, d)
    ensures DateInEra(era, doe) == MarchDate(era, yoe, mp, d)
  {
    hide TruncDiv;
    NonNegative(doe, 1460);
    NonNegative(doe, 36524);
    NonNegative(doe, 146096);
    LeapDaysAreFew(doe);
    NonNegative(doe - doe / 1460 + doe / 36524 - doe / 146096, 365);
    NonNegative(yoe, 4);
    NonNegative(yoe, 100);
    NonNegative(5 * doy + 2, 153);
    NonNegative(153 * mp + 2, 5);
  }

  lemma LeapDaysAreFew(doe: nat)
    ensures doe - doe / 1460 + doe / 36524 - doe / 146096 >= 0
  {
    assert doe / 1460 <= doe / 2 && doe / 146096 <= doe / 2;
  }

  lemma NonNegative(a: int, b: int)
    requires a >= 0 && b > 0
    ensures TruncDiv(a, b) == a / b
  {
  }

  // Every day number is that of a day of an era.
  lemma DayAsMarchDate(days: int) returns (era: int, yoe: int, mp: int, d: int)
    ensures MarchDay(yoe, mp, d)
    ensures days == era * 146097 + YearStart(yoe) + DayOfYear(mp, d) - 719468
  {
    var z := days + 719468;
    era := z / 146097;
    var doy;
    yoe, doy := SplitDayOfEra(z % 146097);
    mp, d := SplitDayOfYear(yoe, doy);
  }

  lemma SplitDayOfEra(doe: int) returns (yoe: int, doy: int)
    requires 0 <= doe < 146097
    ensures 0 <= yoe < 400 && 0 <= doy <= 365 && (doy == 365 ==> LeapEnds(yoe)) && doe == YearStart(yoe) + doy
  {
    var c := if doe == 146096 then 3 else doe / 36524;
    var inCentury := doe - 36524 * c;
    var q := inCentury / 1461;
    var inCycle := inCentury - 1461 * q;
    var r := if inCycle == 1460 then 3 else inCycle / 365;
    doy := inCycle - 365 * r;
    yoe := 100 * c + 4 * q + r;
    assert 0 <= c <= 3 && 0 <= q <= 24 && 0 <= r <= 3;
    assert yoe / 4 == 25 * c + q && yoe / 100 == c;
  }

  lemma SplitDayOfYear(yoe: int, doy: int) returns (mp: int, d: int)
    requires 0 <= yoe < 400 && 0 <= doy <= 365 && (doy == 365 ==> LeapEnds(yoe))
    ensures MarchDay(yoe, mp, d) && doy == DayOfYear(mp, d)
  {
    mp := (5 * doy + 2) / 153;
    d := doy - MonthStart(mp) + 1;
  }

  // ----- the theorems -------------------------------------------------------------------

  // Every valid date comes back from its day number.
  lemma CivilInvertsDays(date: Date)
    requires ValidDate(date)
    ensures CivilFromDays(DaysFromCivil(date)) == date
  {
    var era, yoe, mp := AsMarchDate(date);
    DaysOfMarchDate(era, yoe, mp, date.day);
    CivilOfMarchDate(DaysFromCivil(date), era, yoe, mp, date.day);
  }

  // Every integer is the day number of exactly the valid date it is turned into.
  lemma DaysInvertCivil(days: int)
    ensures ValidDate(CivilFromDays(days)) && DaysFromCivil(CivilFromDays(days)) == days
  {
    var era, yoe, mp, d := DayAsMarchDate(days);
    CivilOfMarchDate(days, era, yoe, mp, d);
    MarchDatesAreValid(era, yoe, mp, d);
    DaysOfMarchDate(era, yoe, mp, d);
  }

  lemma NextDayIsValid(date: Date)
    requires ValidDate(date)
    ensures ValidDate(NextDay(date))
  {
  }

  lemma YearsAreWhole(yoe: int)
    requires 0 <= yoe < 400
    ensures YearStart(yoe) + (if LeapEnds(yoe) then 366 else 365) == if yoe == 399 then 146097 else YearStart(yoe + 1)
  {
  }

  lemma NextInMonth(era: int, yoe: int, mp: int, d: int)
    requires MarchDay(yoe, mp, d) && d < MarchLength(yoe, mp)
    ensures NextDay(MarchDate(era, yoe, mp, d)) == MarchDate(era, yoe, mp, d + 1)
  {
    MarchLengthIsTheTables(era, yoe, mp);
  }

  lemma NextMonth(era: int, yoe: int, mp: int)
    requires 0 <= yoe < 400 && 0 <= mp < 11
    ensures NextDay(MarchDate(era, yoe, mp, MarchLength(yoe, mp))) == MarchDate(era, yoe, mp + 1, 1)
    ensures DayOfYear(mp, MarchLength(yoe, mp)) + 1 == DayOfYear(mp + 1, 1)
  {
    MarchLengthIsTheTables(era, yoe, mp);
  }

  lemma NextYear(era: int, yoe: int) returns (era': int, yoe': int)
    requires 0 <= yoe < 400
    ensures 0 <= yoe' < 400
    ensures NextDay(MarchDate(era, yoe, 11, MarchLength(yoe, 11))) == MarchDate(era', yoe', 0, 1)
    ensures era * 146097 + YearStart(yoe) + DayOfYear(11, MarchLength(yoe, 11)) + 1 ==
      era' * 146097 + YearStart(yoe') + DayOfYear(0, 1)
  {
    era', yoe' := if yoe == 399 then era + 1 else era, if yoe == 399 then 0 else yoe + 1;
    MarchLengthIsTheTables(era, yoe, 11);
    YearsAreWhole(yoe);
  }

  lemma NextMarchDate(era: int, yoe: int, mp: int, d: int)
    requires MarchDay(yoe, mp, d)
    ensures DaysFromCivil(NextDay(MarchDate(era, yoe, mp, d))) == DaysFromCivil(MarchDate(era, yoe, mp, d)) + 1
  {
    DaysOfMarchDate(era, yoe, mp, d);
    if d < MarchLength(yoe, mp) {
      NextInMonth(era, yoe, mp, d);
      DaysOfMarchDate(era, yoe, mp, d + 1);
    } else if mp < 11 {
      NextMonth(era, yoe, mp);
      DaysOfMarchDate(era, yoe, mp + 1, 1);
    } else {
      var era', yoe' := NextYear(era, yoe);
      DaysOfMarchDate(era', yoe', 0, 1);
    }
  }

  // The day after has the next day number.
  lemma NextDayIsNext(date: Date)
    requires ValidDate(date)
    ensures DaysFromCivil(NextDay(date)) == DaysFromCivil(date) + 1
  {
    var era, yoe, mp := AsMarchDate(date);
    NextMarchDate(era, yoe, mp, date.day);
  }

  function DaysLater(date: Date, n: nat): Date {
    if n == 0 then date else NextDay(DaysLater(date, n - 1))
  }

  lemma EpochIsDayZero()
    ensures CivilFromDays(0) == Date(1970, 1, 1)
  {
    assert TruncDiv(719468, 146097) == 4;
    assert TruncDiv(135080, 1460) == 92 && TruncDiv(135080, 36524) == 3 && TruncDiv(135080, 146096) == 0;
    assert TruncDiv(134991, 365) == 369;
  }

  lemma {:induction false} DaysLaterCounts(date: Date, n: nat)
    requires ValidDate(date)
    ensures ValidDate(DaysLater(date, n)) && DaysFromCivil(DaysLater(date, n)) == DaysFromCivil(date) + n
  {
    if n > 0 {
      DaysLaterCounts(date, n - 1);
      NextDayIsValid(DaysLater(date, n - 1));
      NextDayIsNext(DaysLater(date, n - 1));
    }
  }

  // Going from one day number to a later one is stepping through the calendar as many
  // days, before the epoch or after it.
  lemma DaysCountTheCalendar(first: int, last: int)
    requires first <= last
    ensures DaysLater(CivilFromDays(first), last - first) == CivilFromDays(last)
  {
    DaysInvertCivil(first);
    StepFrom(first, last - first, last, CivilFromDays(first));
  }

  lemma StepFrom(days: int, n: nat, last: int, date: Date)
    requires ValidDate(date) && DaysFromCivil(date) == days && last == days + n
    ensures DaysLater(date, n) == CivilFromDays(last)
  {
    DaysLaterCounts(date, n);
    CivilIs(last, DaysLater(date, n));
  }

  lemma CivilIs(days: int, date: Date)
    requires ValidDate(date) && DaysFromCivil(date) == days
    ensures CivilFromDays(days) == date
  {
    CivilInvertsDays(date);
  }
}
