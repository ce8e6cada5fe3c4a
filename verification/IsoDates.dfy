// Instants printed as ISO strings, and the bare dates that are parsed back.
module IsoDates {
  import opened Wrappers
  import opened CivilDates
  import opened Decimals

  const MAX_DATE_MS: int := 8_640_000_000_000_000
  const MS_PER_DAY: int := 86_400_000

  // ----- printing ----------------------------------------------------------------------

  function Clamp(ms: int): int {
    if ms < -MAX_DATE_MS then -MAX_DATE_MS else if ms > MAX_DATE_MS then MAX_DATE_MS else ms
  }

  function Abs(n: int): nat {
    if n < 0 then -n else n
  }

  function YearField(year: int): string {
    if 0 <= year <= 9999 then Padded(year, 4)
    else [if year < 0 then '-' else '+'] + Padded(Abs(year), 6)
  }

  function DateFields(date: Date): string
    requires ValidDate(date)
  {
    YearField(date.year) + "-" + Padded(date.month, 2) + "-" + Padded(date.day, 2)
  }

  function TimeFields(tod: nat): string {
    "T" + Padded(tod / 3_600_000, 2) + ":" + Padded(tod / 60_000 % 60, 2) + ":" + Padded(tod / 1000 % 60, 2)
    + "." + Padded(tod % 1000, 3) + "Z"
  }

  // Day and time of day round down, so that they hold before the epoch too.
  function JsToIsoString(epochMs: int): string {
    var ms := Clamp(epochMs);
    DaysInvertCivil(ms / MS_PER_DAY);
    DateFields(CivilFromDays(ms / MS_PER_DAY)) + TimeFields(ms % MS_PER_DAY)
  }

  function DayOf(epochMs: int): int {
    Clamp(epochMs) / MS_PER_DAY
  }

  function Take10(s: string): string {
    if |s| <= 10 then s else s[..10]
  }

  // The part of a number of milliseconds before the point, towards zero.
  function Truncated(ms: real): int {
    if ms >= 0.0 then ms.Floor else -(-ms).Floor
  }

  // The seconds times 1000, as the machine rounds the product.
  datatype Product = NotANumber | Infinite(neg: bool) | Finite(ms: real)

  // The day bucket of an instant.
  function IsoDateUtc(product: Product): string {
    Take10(JsToIsoString(
      match product
      case NotANumber => 0
      case Infinite(neg) => if neg then -MAX_DATE_MS else MAX_DATE_MS
      case Finite(ms) =>
        if ms >= MAX_DATE_MS as real then MAX_DATE_MS
        else if ms <= -MAX_DATE_MS as real then -MAX_DATE_MS
        else Truncated(ms)))
  }

  // ----- parsing -------------------------------------------------------------------------

  function Number(s: string): Option<nat> {
    if AllDigits(s) then Some(Value(s)) else None
  }

  function ParseBareDate(s: string): Option<int> {
    if |s| != 10 || s[4] != '-' || s[7] != '-' then None
    else
      match (Number(s[0..4]), Number(s[5..7]), Number(s[8..10]))
      case (Some(year), Some(month), Some(day)) =>
        if ValidDate(Date(year, month, day)) then Some(DaysFromCivil(Date(year, month, day))) else None
      case _ => None
  }

  method Digits(s: string, lo: nat, hi: nat) returns (n: Option<nat>)
    requires lo <= hi <= |s|
    ensures n == Number(s[lo..hi])
  {
    var value := 0;
    for i := lo to hi
      invariant AllDigits(s[lo..i]) && value == Value(s[lo..i])
    {
      if !IsDigit(s[i]) {
        assert !IsDigit(s[lo..hi][i - lo]);
        return None;
      }
      assert s[lo..i + 1] == s[lo..i] + [s[i]];
      ValueSnoc(s[lo..i], s[i]);
      value := value * 10 + (s[i] - '0') as int;
    }
    return Some(value);
  }

  method ParseBareDateDays(s: string) returns (days: Option<int>)
    ensures days == ParseBareDate(s)
  {
    if |s| != 10 || s[4] != '-' || s[7] != '-' {
      return None;
    }
    var year := Digits(s, 0, 4);
    if year.None? {
      return None;
    }
    var month := Digits(s, 5, 7);
    if month.None? {
      return None;
    }
    var day := Digits(s, 8, 10);
    if day.None? {
      return None;
    }
    var y, m, d := year.value, month.value, day.value;
    if !(1 <= m <= 12) || d < 1 || d > DaysInMonth(y, m) {
      return None;
    }
    return Some(DaysFromCivil(Date(y, m, d)));
  }

  // ----- round trips -----------------------------------------------------------------------

  lemma DayOfMonthIsShort(date: Date)
    requires ValidDate(date)
    ensures date.month < 100 && date.day < 100
  {
  }

  lemma SmallPowers()
    ensures Pow10(1) == 10 && Pow10(2) == 100 && Pow10(3) == 1000 && Pow10(4) == 10000 && Pow10(6) == 1000000
  {
  }

  // The ten characters that a date in four-digit years prints as, field by field.
  lemma PrintedFields(date: Date, rest: string)
    requires ValidDate(date) && 0 <= date.year <= 9999
    ensures
      var s := DateFields(date);
      && |s| == 10 && Take10(s + rest) == s && s[4] == '-' && s[7] == '-'
      && Number(s[0..4]) == Some(date.year) && Number(s[5..7]) == Some(date.month) && Number(s[8..10]) == Some(date.day)
  {
    var s := DateFields(date);
    DayOfMonthIsShort(date);
    SmallPowers();
    PaddedReadsBack(date.year, 4);
    PaddedReadsBack(date.month, 2);
    PaddedReadsBack(date.day, 2);
    assert s[0..4] == Padded(date.year, 4);
    assert s[5..7] == Padded(date.month, 2);
    assert s[8..10] == Padded(date.day, 2);
  }

  lemma PrintedDateParses(date: Date)
    requires ValidDate(date) && 0 <= date.year <= 9999
    ensures ParseBareDate(DateFields(date)) == Some(DaysFromCivil(date))
  {
    PrintedFields(date, "");
  }

  // The first ten characters of any printed instant parse to its day, rounded down,
  // when its year has four digits; otherwise they do not parse at all.
  lemma PrintedInstantParsesBack(ms: int)
    ensures
      var year := CivilFromDays(DayOf(ms)).year;
      ParseBareDate(Take10(JsToIsoString(ms))) == if 0 <= year <= 9999 then Some(DayOf(ms)) else None
  {
    var date, time := CivilFromDays(DayOf(ms)), TimeFields(Clamp(ms) % MS_PER_DAY);
    DaysInvertCivil(DayOf(ms));
    assert JsToIsoString(ms) == DateFields(date) + time;
    if 0 <= date.year <= 9999 {
      PrintedFields(date, time);
      PrintedDateParses(date);
    } else {
      SignDoesNotParse(date, time);
    }
  }

  lemma SignDoesNotParse(date: Date, rest: string)
    requires ValidDate(date) && !(0 <= date.year <= 9999)
    ensures ParseBareDate(Take10(DateFields(date) + rest)) == None
  {
    var s := Take10(DateFields(date) + rest);
    assert s[0] == YearField(date.year)[0];
    assert |s| == 10 ==> !IsDigit(s[0..4][0]);
  }

  // The parser accepts a string only if it is the printed form of the day it returns.
  lemma ParsedIsPrinted(s: string)
    requires ParseBareDate(s).Some?
    ensures
      var days := ParseBareDate(s).value;
      && DayOf(days * MS_PER_DAY) == days && 0 <= CivilFromDays(days).year <= 9999
      && s == Take10(JsToIsoString(days * MS_PER_DAY))
  {
    var date := Date(Value(s[0..4]), Value(s[5..7]), Value(s[8..10]));
    var days := DaysFromCivil(date);
    ValuePrintsBack(s[0..4]);
    ValuePrintsBack(s[5..7]);
    ValuePrintsBack(s[8..10]);
    SmallPowers();
    assert s == s[0..4] + "-" + s[5..7] + "-" + s[8..10];
    CivilInvertsDays(date);
    DaysAreInRange(date);
    assert days * MS_PER_DAY / MS_PER_DAY == days;
    PrintedFields(date, TimeFields(Clamp(days * MS_PER_DAY) % MS_PER_DAY));
  }

  // Truncation only moves an instant to another day in the last millisecond of a day
  // before the epoch.
  ghost predicate SpillsOver(ms: real) {
    ms < 0.0 && Truncated(ms) as real != ms && Truncated(ms) % MS_PER_DAY == 0
  }

  // Any rounding that never passes a whole number; whole numbers of milliseconds have
  // an exact double throughout the range of dates.
  ghost predicate Rounds(exact: real, ms: real) {
    exact.Floor as real <= ms <= (-(-exact).Floor) as real
  }

  ghost predicate RoundedUpToMidnight(exact: real, ms: real) {
    exact < ms && ms.Floor as real == ms && ms.Floor % MS_PER_DAY == 0
  }

  lemma TruncatedDay(ms: real)
    ensures (ms / MS_PER_DAY as real).Floor == Truncated(ms) / MS_PER_DAY
       <==> !(ms < 0.0 && Truncated(ms) as real != ms && Truncated(ms) % MS_PER_DAY == 0)
  {
    var t := Truncated(ms);
    var q := t / MS_PER_DAY;
    assert q * MS_PER_DAY <= t < q * MS_PER_DAY + MS_PER_DAY;
    FloorOfDays(ms, q);
    FloorOfDays(ms, q - 1);
  }

  lemma FloorOfDays(ms: real, q: int)
    ensures (ms / MS_PER_DAY as real).Floor == q
       <==> q as real * MS_PER_DAY as real <= ms < (q + 1) as real * MS_PER_DAY as real
  {
    var x := ms / MS_PER_DAY as real;
    assert x * MS_PER_DAY as real == ms;
  }

  lemma DayOfProduct(ms: real, day: int)
    requires -MAX_DATE_MS as real <= ms <= MAX_DATE_MS as real && day == DayOf(Truncated(ms))
    ensures (ms / MS_PER_DAY as real).Floor == day <==> !SpillsOver(ms)
  {
    assert -MAX_DATE_MS <= Truncated(ms) <= MAX_DATE_MS;
    TruncatedDay(ms);
  }

  lemma FloorAtLeast(x: real, a: int)
    ensures a <= x.Floor <==> a as real <= x
  {
  }

  // Rounding passes no whole number.
  lemma WholeBounds(exact: real, ms: real, a: int, b: int)
    requires Rounds(exact, ms) && a as real <= exact <= b as real
    ensures a as real <= ms <= b as real
  {
    FloorAtLeast(exact, a);
    FloorAtLeast(-exact, -b);
  }

  lemma WholeFloor(ms: real, b: int)
    requires ms == b as real
    ensures ms.Floor == b
  {
  }

  // A whole multiple of the day, from its bounds.
  lemma NextMidnight(exact: real, ms: real, q: int)
    requires (q * MS_PER_DAY) as real <= exact && ms <= ((q + 1) * MS_PER_DAY) as real
    ensures RoundedUpToMidnight(exact, ms) ==> ms == ((q + 1) * MS_PER_DAY) as real
    ensures exact < ms && ms == ((q + 1) * MS_PER_DAY) as real ==> RoundedUpToMidnight(exact, ms)
  {
    if RoundedUpToMidnight(exact, ms) {
      var k := ms.Floor / MS_PER_DAY;
      assert ms.Floor == k * MS_PER_DAY;
      assert q * MS_PER_DAY < k * MS_PER_DAY <= (q + 1) * MS_PER_DAY;
    }
    if ms == ((q + 1) * MS_PER_DAY) as real {
      WholeFloor(ms, (q + 1) * MS_PER_DAY);
    }
  }

  // Rounding only moves an instant to another day when it ends on midnight.
  lemma RoundedDay(exact: real, ms: real)
    requires Rounds(exact, ms)
    ensures
      var q := (exact / MS_PER_DAY as real).Floor;
      (ms / MS_PER_DAY as real).Floor == if RoundedUpToMidnight(exact, ms) then q + 1 else q
  {
    var q := (exact / MS_PER_DAY as real).Floor;
    var a, b := q * MS_PER_DAY, (q + 1) * MS_PER_DAY;
    DayBounds(exact, q);
    WholeBounds(exact, ms, a, b);
    NextMidnight(exact, ms, q);
    hide Rounds, RoundedUpToMidnight;
    if RoundedUpToMidnight(exact, ms) {
      DayBounds(ms, q + 1);
    } else {
      DayBounds(ms, q);
    }
  }

  lemma DayBounds(ms: real, q: int)
    ensures (ms / MS_PER_DAY as real).Floor == q <==> (q * MS_PER_DAY) as real <= ms < ((q + 1) * MS_PER_DAY) as real
  {
    FloorOfDays(ms, q);
  }

  lemma MidnightIsWhole(exact: real, ms: real)
    requires RoundedUpToMidnight(exact, ms)
    ensures !SpillsOver(ms)
  {
    WholeFloor(-ms, -ms.Floor);
  }

  // The day bucket parses to the day the instant lies in if and only if neither the
  // rounding of the product nor its truncation takes it to midnight.
  lemma BucketIsTheDay(seconds: real, ms: real, day: int)
    requires -MAX_DATE_MS as real <= seconds * 1000.0 <= MAX_DATE_MS as real && Rounds(seconds * 1000.0, ms)
    requires day == DayOf(Truncated(ms)) && 0 <= CivilFromDays(day).year <= 9999
    ensures ParseBareDate(IsoDateUtc(Finite(ms))) == Some(day)
    ensures day == (seconds * 1000.0 / MS_PER_DAY as real).Floor <==>
            !SpillsOver(ms) && !RoundedUpToMidnight(seconds * 1000.0, ms)
  {
    hide Rounds, RoundedUpToMidnight, SpillsOver, JsToIsoString, ParseBareDate;
    var exact := seconds * 1000.0;
    WholeBounds(exact, ms, -MAX_DATE_MS, MAX_DATE_MS);
    BucketOfProduct(ms, day);
    DayOfProduct(ms, day);
    RoundedDay(exact, ms);
    if RoundedUpToMidnight(exact, ms) {
      MidnightIsWhole(exact, ms);
    }
  }

  lemma BucketOfProduct(ms: real, day: int)
    requires -MAX_DATE_MS as real <= ms <= MAX_DATE_MS as real
    requires day == DayOf(Truncated(ms)) && 0 <= CivilFromDays(day).year <= 9999
    ensures ParseBareDate(IsoDateUtc(Finite(ms))) == Some(day)
  {
    hide JsToIsoString, ParseBareDate;
    PrintedInstantParsesBack(Truncated(ms));
    if ms == MAX_DATE_MS as real {
      WholeFloor(ms, MAX_DATE_MS);
    } else if ms == -MAX_DATE_MS as real {
      WholeFloor(-ms, MAX_DATE_MS);
    }
  }

  // Every instant in the last millisecond before the epoch lies in day -1, and is put
  // into day 0, unless the product was rounded down to a whole millisecond.
  lemma JustBeforeTheEpoch(seconds: real, ms: real)
    requires -0.001 < seconds < 0.0 && Rounds(seconds * 1000.0, ms) && ms != -1.0
    ensures (seconds * 1000.0 / MS_PER_DAY as real).Floor == -1
    ensures SpillsOver(ms) || RoundedUpToMidnight(seconds * 1000.0, ms)
    ensures ParseBareDate(IsoDateUtc(Finite(ms))) == Some(0)
  {
    assert Truncated(ms) == 0;
    EpochIsDayZero();
    BucketIsTheDay(seconds, ms, 0);
    FloorOfDays(seconds * 1000.0, -1);
  }

  // What is no number is put into the epoch's day.
  lemma NoNumberIsTheEpoch()
    ensures ParseBareDate(IsoDateUtc(NotANumber)) == Some(0)
  {
    hide JsToIsoString, ParseBareDate, Take10, CivilFromDays;
    EpochIsDayZero();
    PrintedInstantParsesBack(0);
  }

  // An infinite product is put where the finite ones beyond the range of dates are.
  lemma InfinitiesAreTheEnds(ms: real)
    ensures ms <= -MAX_DATE_MS as real ==> IsoDateUtc(Finite(ms)) == IsoDateUtc(Infinite(true))
    ensures ms >= MAX_DATE_MS as real ==> IsoDateUtc(Finite(ms)) == IsoDateUtc(Infinite(false))
  {
    hide JsToIsoString, Take10, Truncated;
  }

  lemma DaysAreInRange(date: Date)
    requires ValidDate(date) && 0 <= date.year <= 9999
    ensures -100_000_000 < DaysFromCivil(date) < 100_000_000
  {
    var era, yoe, mp := AsMarchDate(date);
    DaysOfMarchDate(era, yoe, mp, date.day);
    YearOfDay(yoe, DayOfYear(mp, date.day));
    MonthOfDay(yoe, mp, date.day);
  }

  // ----- the whole text -----------------------------------------------------------------------

  // These fourteen characters are this time of day.
  ghost predicate TellsTime(s: string, h: nat, m: nat, sec: nat, frac: nat) {
    && |s| == 14 && s[0] == 'T' && s[3] == ':' && s[6] == ':' && s[9] == '.' && s[13] == 'Z'
    && Number(s[1..3]) == Some(h) && Number(s[4..6]) == Some(m) && Number(s[7..9]) == Some(sec)
    && Number(s[10..13]) == Some(frac)
    && h < 24 && m < 60 && sec < 60 && frac < 1000
  }

  lemma TimeOfDay(tod: nat)
    requires tod < MS_PER_DAY
    ensures
      var h, m, sec, frac := tod / 3_600_000, tod / 60_000 % 60, tod / 1000 % 60, tod % 1000;
      h < 24 && m < 60 && sec < 60 && frac < 1000 && tod == ((h * 60 + m) * 60 + sec) * 1000 + frac
  {
    var minutes := tod / 1000 / 60;
    assert tod / 60_000 == minutes && tod / 3_600_000 == minutes / 60;
    assert tod / 1000 == minutes * 60 + tod / 1000 % 60;
    assert minutes == minutes / 60 * 60 + minutes % 60;
  }

  lemma ClockText(tod: nat, h: nat, m: nat, sec: nat, frac: nat)
    requires h == tod / 3_600_000 && m == tod / 60_000 % 60 && sec == tod / 1000 % 60 && frac == tod % 1000
    requires h < 24 && m < 60 && sec < 60 && frac < 1000
    ensures TellsTime(TimeFields(tod), h, m, sec, frac)
  {
    var s := TimeFields(tod);
    SmallPowers();
    PaddedReadsBack(h, 2);
    PaddedReadsBack(m, 2);
    PaddedReadsBack(sec, 2);
    PaddedReadsBack(frac, 3);
    hide Padded, Value, Pow10;
    assert s == "T" + Padded(h, 2) + ":" + Padded(m, 2) + ":" + Padded(sec, 2) + "." + Padded(frac, 3) + "Z";
    hide TimeFields;
    assert s[1..3] == Padded(h, 2) && s[4..6] == Padded(m, 2) && s[7..9] == Padded(sec, 2);
    assert s[10..13] == Padded(frac, 3);
  }

  lemma PrintedTime(tod: nat)
    requires tod < MS_PER_DAY
    ensures
      var h, m, sec, frac := tod / 3_600_000, tod / 60_000 % 60, tod / 1000 % 60, tod % 1000;
      TellsTime(TimeFields(tod), h, m, sec, frac) && tod == ((h * 60 + m) * 60 + sec) * 1000 + frac
  {
    hide TellsTime, TimeFields;
    TimeOfDay(tod);
    ClockText(tod, tod / 3_600_000, tod / 60_000 % 60, tod / 1000 % 60, tod % 1000);
  }

  // The date as it is printed outside the years 0 to 9999.
  ghost predicate TellsFarDate(s: string, date: Date) {
    && |s| == 13 && s[0] == (if date.year < 0 then '-' else '+') && s[7] == '-' && s[10] == '-'
    && Number(s[1..7]) == Some(Abs(date.year)) && Number(s[8..10]) == Some(date.month)
    && Number(s[11..13]) == Some(date.day)
  }

  lemma PrintedFarDate(date: Date)
    requires ValidDate(date) && !(0 <= date.year <= 9999) && Abs(date.year) < 1_000_000
    ensures TellsFarDate(DateFields(date), date)
  {
    var s := DateFields(date);
    DayOfMonthIsShort(date);
    SmallPowers();
    PaddedReadsBack(Abs(date.year), 6);
    PaddedReadsBack(date.month, 2);
    PaddedReadsBack(date.day, 2);
    hide Padded, Value, Pow10, ValidDate;
    assert s[1..7] == Padded(Abs(date.year), 6) && s[8..10] == Padded(date.month, 2);
    assert s[11..13] == Padded(date.day, 2);
  }

  lemma YearsAreInRange(days: int)
    requires -100_000_000 <= days <= 100_000_000
    ensures Abs(CivilFromDays(days).year) < 1_000_000
  {
    hide CivilFromDays, DaysFromCivil, ValidDate, IsLeapYear;
    var date := CivilFromDays(days);
    DaysInvertCivil(days);
    var era, yoe, mp := AsMarchDate(date);
    DaysOfMarchDate(era, yoe, mp, date.day);
    YearOfDay(yoe, DayOfYear(mp, date.day));
    MonthOfDay(yoe, mp, date.day);
  }

  // These characters are this instant: the date and the time of day of a year from 0 to
  // 9999, or the same with a sign and six digits for the year.
  ghost predicate TellsInstant(s: string, date: Date, h: nat, m: nat, sec: nat, frac: nat) {
    && |s| == (if 0 <= date.year <= 9999 then 24 else 27)
    && TellsTime(s[|s| - 14..], h, m, sec, frac)
    && if 0 <= date.year <= 9999 then
         && s[4] == '-' && s[7] == '-' && Number(s[0..4]) == Some(date.year)
         && Number(s[5..7]) == Some(date.month) && Number(s[8..10]) == Some(date.day)
       else TellsFarDate(s[..13], date)
  }

  // Every printed instant tells its own date and time of day, before the epoch too, and in
  // every year: they add up to the instant, or to the nearest one in the range of dates.
  lemma PrintedInstantTells(ms: int) returns (date: Date, h: nat, m: nat, sec: nat, frac: nat)
    ensures ValidDate(date) && TellsInstant(JsToIsoString(ms), date, h, m, sec, frac)
    ensures DaysFromCivil(date) * MS_PER_DAY + ((h * 60 + m) * 60 + sec) * 1000 + frac == Clamp(ms)
  {
    var day, tod := DayOf(ms), Clamp(ms) % MS_PER_DAY;
    date := CivilFromDays(day);
    h, m, sec, frac := tod / 3_600_000, tod / 60_000 % 60, tod / 1000 % 60, tod % 1000;
    DaysInvertCivil(day);
    YearsAreInRange(day);
    PrintedTime(tod);
    hide TimeFields, TellsTime, DateFields, TellsFarDate, CivilFromDays, DaysFromCivil, Number;
    var s, time := JsToIsoString(ms), TimeFields(tod);
    assert s == DateFields(date) + time;
    if 0 <= date.year <= 9999 {
      PrintedFields(date, time);
      NearInstant(DateFields(date), time, date, h, m, sec, frac);
    } else {
      PrintedFarDate(date);
      FarInstant(DateFields(date), time, date, h, m, sec, frac);
    }
  }

  lemma NearInstant(s: string, time: string, date: Date, h: nat, m: nat, sec: nat, frac: nat)
    requires 0 <= date.year <= 9999 && TellsTime(time, h, m, sec, frac)
    requires |s| == 10 && s[4] == '-' && s[7] == '-' && Number(s[0..4]) == Some(date.year)
    requires Number(s[5..7]) == Some(date.month) && Number(s[8..10]) == Some(date.day)
    ensures TellsInstant(s + time, date, h, m, sec, frac)
  {
    var all := s + time;
    assert all[10..] == time && all[0..4] == s[0..4] && all[5..7] == s[5..7] && all[8..10] == s[8..10];
    hide Number;
  }

  lemma FarInstant(s: string, time: string, date: Date, h: nat, m: nat, sec: nat, frac: nat)
    requires !(0 <= date.year <= 9999) && TellsTime(time, h, m, sec, frac) && TellsFarDate(s, date)
    ensures TellsInstant(s + time, date, h, m, sec, frac)
  {
    var all := s + time;
    assert all[13..] == time && all[..13] == s;
    hide Number;
  }
}
