/** The Gregorian calendar, walked one day at a time from 1970-01-01, and the closed form
    that the Rust telemetry emitter uses in its place. */
module Calendar {
  import opened Words

  // ---- The calendar itself (RFC 3339 section 5.7 and Appendix C) ----

  datatype Date = Date(year: int, month: int, day: int)

  predicate IsLeapYear(year: int) {
    year % 4 == 0 && (year % 100 != 0 || year % 400 == 0)
  }

  function DaysInMonth(year: int, month: int): int {
    if month == 2 then (if IsLeapYear(year) then 29 else 28)
    else if month in {4, 6, 9, 11} then 30
    else 31
  }

  predicate IsDate(d: Date) {
    1 <= d.month <= 12 && 1 <= d.day <= DaysInMonth(d.year, d.month)
  }

  function NextDay(d: Date): Date {
    if d.day < DaysInMonth(d.year, d.month) then d.(day := d.day + 1)
    else if d.month < 12 then Date(d.year, d.month + 1, 1)
    else Date(d.year + 1, 1, 1)
  }

  const EPOCH: Date := Date(1970, 1, 1)

  /** The date reached after walking `n` days from the epoch. */
  function Walk(n: nat): Date {
    if n == 0 then EPOCH else NextDay(Walk(n - 1))
  }

  // ---- The closed form ----

  const SECONDS_PER_DAY := 86_400
  datatype Components = Components(year: U32, month: U32, day: U32, hour: U32, minute: U32, second: U32)

  /** Reinterprets 64 unsigned bits as a signed number. */
  function AsSigned64(x: U64): int {
    if x < TWO_63 then x else x - TWO_64
  }

  function TruncateToU32(x: int): U32 {
    x % TWO_32
  }

  /** Day `doy` (from 0) of the year that starts on 1 March of `y`. */
  function DateInMarchYear(y: int, doy: int): Date {
    var mp := (5 * doy + 2) / 153;
    var d := doy - (153 * mp + 2) / 5 + 1;
    var m := if mp < 10 then mp + 3 else mp - 9;
    Date(if m <= 2 then y + 1 else y, m, d)
  }

  function YearOfEra(doe: int): int {
    (doe - doe / 1460 + doe / 36_524 - doe / 146_096) / 365
  }

  /** The date part, before the year is cut to 32 bits. The era is a Euclidean quotient in the source
      too; every later operand is non-negative, so Dafny's `/` is Rust's. */
  function CivilFromDays(days: int): Date {
    var z := days + 719_468;
    var era := z / 146_097;
    var doe := z - era * 146_097;
    var yoe := YearOfEra(doe);
    DateInMarchYear(yoe + era * 400, doe - (365 * yoe + yoe / 4 - yoe / 100))
  }

  function UnixToComponents(secs: U64): Components {
    var signed := AsSigned64(secs);
    var days := signed / SECONDS_PER_DAY;
    var rem := signed % SECONDS_PER_DAY;
    var date := CivilFromDays(days);
    Components(TruncateToU32(date.year), TruncateToU32(date.month), TruncateToU32(date.day),
               TruncateToU32(rem / 3600), TruncateToU32(rem % 3600 / 60), TruncateToU32(rem % 60))
  }

  // ---- The closed form as a count of March-based years and of days within them ----

  /** Days before 1 March of year `y`, counted from 1 March of year 0. */
  function MarchYearStart(y: int): int {
    365 * y + y / 4 - y / 100 + y / 400
  }

  function MarchYearLength(y: int): int {
    if IsLeapYear(y + 1) then 366 else 365
  }

  lemma MarchYearsAbut(y: int)
    ensures MarchYearStart(y + 1) == MarchYearStart(y) + MarchYearLength(y)
  {
    assert (y + 1) / 4 == y / 4 + if (y + 1) % 4 == 0 then 1 else 0;
    assert (y + 1) / 100 == y / 100 + if (y + 1) % 100 == 0 then 1 else 0;
    assert (y + 1) / 400 == y / 400 + if (y + 1) % 400 == 0 then 1 else 0;
    assert (y + 1) % 400 == 0 ==> (y + 1) % 100 == 0;
    assert (y + 1) % 100 == 0 ==> (y + 1) % 4 == 0;
  }

  /** The year-of-era formula picks the March-based year that holds the day. Such a year is
      `100*c + 4*q + r` of its era. */
  lemma YearOfEraIsRight(c: int, q: int, r: int, k: int)
    requires 0 <= c < 4 && 0 <= q < 25 && 0 <= r < 4
    requires 0 <= k < (if r == 3 && (q < 24 || c == 3) then 366 else 365)
    ensures var yoe := 100 * c + 4 * q + r;
            var doe := 365 * yoe + 24 * c + q + k;
            YearOfEra(doe) == yoe
  {
    var yoe := 100 * c + 4 * q + r;
    var doe := 365 * yoe + 24 * c + q + k;
    var late := 24 * c + q + 365 * r + k;
    var e := if late >= 1460 then 1 else 0;
    assert doe == 1460 * (25 * c + q) + late;
    assert doe / 1460 == 25 * c + q + e;
    var last := if doe == 146_096 then 1 else 0;
    assert doe == 36_524 * c + (1461 * q + 365 * r + k);
    assert doe / 36_524 == c + last;
    assert doe / 146_096 == last;
    assert doe - doe / 1460 + doe / 36_524 - doe / 146_096 == 365 * yoe + (k - e);
  }

  /** The March-based year `400*era + 100*c + 4*q + r`, opened up: where it starts and how long it is. */
  lemma MarchYearStartOfParts(era: int, c: int, q: int, r: int)
    requires 0 <= c < 4 && 0 <= q < 25 && 0 <= r < 4
    ensures var y := 400 * era + 100 * c + 4 * q + r;
            MarchYearStart(y) == 146_097 * era + 365 * (100 * c + 4 * q + r) + 24 * c + q
  {
    var y := 400 * era + 100 * c + 4 * q + r;
    assert y / 4 == 100 * era + 25 * c + q;
    assert y / 100 == 4 * era + c;
    assert y / 400 == era;
  }

  lemma MarchYearLengthOfParts(era: int, c: int, q: int, r: int)
    requires 0 <= c < 4 && 0 <= q < 25 && 0 <= r < 4
    ensures var y := 400 * era + 100 * c + 4 * q + r;
            MarchYearLength(y) == if r == 3 && (q < 24 || c == 3) then 366 else 365
  {
    var y := 400 * era + 100 * c + 4 * q + r;
    assert (y + 1) % 4 == 0 <==> r == 3;
    assert (y + 1) % 100 == 0 <==> r == 3 && q == 24;
    assert (y + 1) % 400 == 0 <==> r == 3 && q == 24 && c == 3;
  }

  lemma CivilFromParts(era: int, c: int, q: int, r: int, doy: int)
    requires 0 <= c < 4 && 0 <= q < 25 && 0 <= r < 4
    requires 0 <= doy < (if r == 3 && (q < 24 || c == 3) then 366 else 365)
    ensures var y := 400 * era + 100 * c + 4 * q + r;
            CivilFromDays(146_097 * era + 365 * (100 * c + 4 * q + r) + 24 * c + q + doy - 719_468)
            == DateInMarchYear(y, doy)
  {
    var yoe := 100 * c + 4 * q + r;
    var doe := 365 * yoe + 24 * c + q + doy;
    YearOfEraIsRight(c, q, r, doy);
    DaysIntoYear(c, q, r, doy);
    CivilFromEra(era, doe, yoe, doy);
  }

  lemma DaysIntoYear(c: int, q: int, r: int, doy: int)
    requires 0 <= c < 4 && 0 <= q < 25 && 0 <= r < 4
    ensures var yoe := 100 * c + 4 * q + r;
            365 * yoe + 24 * c + q + doy - (365 * yoe + yoe / 4 - yoe / 100) == doy
  {
    var yoe := 100 * c + 4 * q + r;
    assert yoe / 4 == 25 * c + q && yoe / 100 == c;
  }

  lemma CivilFromEra(era: int, doe: int, yoe: int, doy: int)
    requires 0 <= doe < 146_097 && YearOfEra(doe) == yoe
    requires doe - (365 * yoe + yoe / 4 - yoe / 100) == doy
    ensures CivilFromDays(146_097 * era + doe - 719_468) == DateInMarchYear(yoe + 400 * era, doy)
  {
    var z := 146_097 * era + doe;
    assert z / 146_097 == era;
  }

  lemma CivilInMarchYear(y: int, doy: int)
    requires 0 <= doy < MarchYearLength(y)
    ensures CivilFromDays(MarchYearStart(y) + doy - 719_468) == DateInMarchYear(y, doy)
  {
    var era, c, q, r := SplitYear(y);
    MarchYearStartOfParts(era, c, q, r);
    MarchYearLengthOfParts(era, c, q, r);
    CivilFromParts(era, c, q, r, doy);
  }

  lemma SplitYear(y: int) returns (era: int, c: int, q: int, r: int)
    ensures y == 400 * era + 100 * c + 4 * q + r
    ensures 0 <= c < 4 && 0 <= q < 25 && 0 <= r < 4
  {
    era := y / 400;
    c := y % 400 / 100;
    q := y % 400 % 100 / 4;
    r := y % 400 % 100 % 4;
  }

  lemma NextDayInMarchYear(y: int, doy: int)
    requires 0 <= doy < MarchYearLength(y)
    ensures NextDay(DateInMarchYear(y, doy)) ==
            if doy + 1 < MarchYearLength(y) then DateInMarchYear(y, doy + 1) else DateInMarchYear(y + 1, 0)
    ensures IsDate(DateInMarchYear(y, doy))
  {
    var mp := (5 * doy + 2) / 153;
    assert 0 <= mp < 12;
  }

  /** Every day falls in exactly the March-based year this finds. */
  lemma MarchYearOf(n: nat) returns (y: int, doy: int)
    ensures 0 <= doy < MarchYearLength(y) && MarchYearStart(y) + doy == n + 719_468
    ensures Walk(n) == DateInMarchYear(y, doy)
  {
    if n == 0 {
      y, doy := 1969, 306;
    } else {
      var y', doy' := MarchYearOf(n - 1);
      NextDayInMarchYear(y', doy');
      MarchYearsAbut(y');
      var same := doy' + 1 < MarchYearLength(y');
      y, doy := if same then (y') else (y' + 1), if same then doy' + 1 else 0;
    }
  }

  /** The closed form is the day-by-day walk. */
  lemma ClosedFormIsWalk(n: nat)
    ensures CivilFromDays(n) == Walk(n) && IsDate(Walk(n))
  {
    var y, doy := MarchYearOf(n);
    CivilInMarchYear(y, doy);
    NextDayInMarchYear(y, doy);
  }

  // ---- The calendar's own day count ----

  function YearLength(year: int): nat {
    if IsLeapYear(year) then 366 else 365
  }

  function DaysBeforeYear(year: int): nat
    decreases year
  {
    if year <= 1970 then 0 else DaysBeforeYear(year - 1) + YearLength(year - 1)
  }

  function DaysBeforeMonth(year: int, month: int): nat
    decreases month
  {
    if month <= 1 then 0 else DaysBeforeMonth(year, month - 1) + DaysInMonth(year, month - 1)
  }

  /** How many days of the calendar come before `d`, counted from the epoch. */
  function DayCount(d: Date): nat
    requires IsDate(d) && d.year >= 1970
  {
    DaysBeforeYear(d.year) + DaysBeforeMonth(d.year, d.month) + (d.day - 1)
  }

  lemma MonthsFillTheYear(year: int)
    ensures DaysBeforeMonth(year, 13) == YearLength(year)
  {
    assert DaysBeforeMonth(year, 4) == 59 + 31 + YearLength(year) - 365;
    assert DaysBeforeMonth(year, 7) == DaysBeforeMonth(year, 4) + 91;
    assert DaysBeforeMonth(year, 10) == DaysBeforeMonth(year, 7) + 92;
  }

  lemma NextDayCountsOne(d: Date)
    requires IsDate(d) && d.year >= 1970
    ensures IsDate(NextDay(d)) && NextDay(d).year >= 1970 && DayCount(NextDay(d)) == DayCount(d) + 1
  {
    MonthsFillTheYear(d.year);
  }

  function DayBefore(d: Date): Date {
    if d.day > 1 then d.(day := d.day - 1)
    else if d.month > 1 then Date(d.year, d.month - 1, DaysInMonth(d.year, d.month - 1))
    else Date(d.year - 1, 12, 31)
  }

  /** Walking and counting undo each other. */
  lemma {:induction false} CountOfWalk(n: nat)
    ensures IsDate(Walk(n)) && Walk(n).year >= 1970 && DayCount(Walk(n)) == n
  {
    if n != 0 {
      CountOfWalk(n - 1);
      NextDayCountsOne(Walk(n - 1));
    }
  }

  lemma {:induction false} WalkOfCount(d: Date)
    requires IsDate(d) && d.year >= 1970
    ensures Walk(DayCount(d)) == d
    decreases d.year, d.month, d.day
  {
    if d != EPOCH {
      var p := DayBefore(d);
      NextDayCountsOne(p);
      assert NextDay(p) == d;
      WalkOfCount(p);
    }
  }

  /** The closed form inverts the calendar's day count, and is inverted by it. */
  lemma ClosedFormInvertsDayCount(n: nat, d: Date)
    requires IsDate(d) && d.year >= 1970
    ensures CivilFromDays(DayCount(d)) == d
    ensures IsDate(CivilFromDays(n)) && CivilFromDays(n).year >= 1970 && DayCount(CivilFromDays(n)) == n
  {
    ClosedFormIsWalk(DayCount(d));
    WalkOfCount(d);
    ClosedFormIsWalk(n);
    CountOfWalk(n);
  }

  // ---- Exactly when the 32-bit year is right ----

  /** 1 January of the year 2^32, as a day count and as a second count. */
  const FIRST_DAY_PAST_U32_YEARS := 1_568_703_873_082
  const FIRST_SECOND_PAST_U32_YEARS := FIRST_DAY_PAST_U32_YEARS * SECONDS_PER_DAY

  /** `c` is the calendar date and the time of day of `secs`, each field in its range. */
  predicate Describes(c: Components, secs: nat) {
    && Date(c.year, c.month, c.day) == Walk(secs / SECONDS_PER_DAY)
    && c.hour < 24 && c.minute < 60 && c.second < 60
    && 3600 * c.hour + 60 * c.minute + c.second == secs % SECONDS_PER_DAY
  }

  lemma MarchYearStartGrows(a: int, b: int)
    requires a < b
    ensures MarchYearStart(a) + 365 <= MarchYearStart(b)
    decreases b - a
  {
    MarchYearsAbut(b - 1);
    if a < b - 1 {
      MarchYearStartGrows(a, b - 1);
    }
  }

  /** The last of the 306 days from 1 March on is 31 December. */
  lemma YearBelow(n: nat, year: int)
    ensures Walk(n).year < year <==> n + 719_468 < MarchYearStart(year - 1) + 306
  {
    var y, doy := MarchYearOf(n);
    assert Walk(n).year == if doy < 306 then y else y + 1;
    if y < year - 1 {
      MarchYearsAbut(y);
      if y + 1 < year - 1 { MarchYearStartGrows(y + 1, year - 1); }
    } else if y > year - 1 {
      MarchYearStartGrows(year - 1, y);
    }
  }

  lemma YearFitsU32(n: nat)
    ensures 1970 <= Walk(n).year
    ensures Walk(n).year < TWO_32 <==> n < FIRST_DAY_PAST_U32_YEARS
  {
    CountOfWalk(n);
    YearBelow(n, TWO_32);
    LastU32Year();
  }

  lemma LastU32Year()
    ensures MarchYearStart(TWO_32 - 1) + 306 == FIRST_DAY_PAST_U32_YEARS + 719_468
  {
  }

  lemma ClockFields(rem: int)
    requires 0 <= rem < SECONDS_PER_DAY
    ensures 0 <= rem / 3600 < 24 && 0 <= rem % 3600 / 60 < 60 && 0 <= rem % 60 < 60
    ensures 3600 * (rem / 3600) + 60 * (rem % 3600 / 60) + rem % 60 == rem
  {
    var hour, rest := rem / 3600, rem % 3600;
    assert rem % 60 == rest % 60 by { assert rem == 60 * (60 * hour) + rest; }
  }

  lemma ComponentsInRange(secs: U64)
    requires secs < FIRST_SECOND_PAST_U32_YEARS
    ensures Describes(UnixToComponents(secs), secs)
  {
    var days, rem := secs / SECONDS_PER_DAY, secs % SECONDS_PER_DAY;
    assert days < FIRST_DAY_PAST_U32_YEARS;
    YearFitsU32(days);
    ClosedFormIsWalk(days);
    ClockFields(rem);
    var date := Walk(days);
    FitsU32(date.year); FitsU32(date.month); FitsU32(date.day);
    FitsU32(rem / 3600); FitsU32(rem % 3600 / 60); FitsU32(rem % 60);
  }

  lemma FitsU32(x: int)
    requires 0 <= x < TWO_32
    ensures TruncateToU32(x) == x
  {
  }

  /** The components are the calendar's, in range and with nothing lost, for exactly the second counts
      whose year fits 32 bits. */
  lemma ComponentsRightIffYearFits(secs: U64)
    ensures Describes(UnixToComponents(secs), secs) <==> secs < FIRST_SECOND_PAST_U32_YEARS
  {
    if secs < FIRST_SECOND_PAST_U32_YEARS {
      ComponentsInRange(secs);
    } else {
      assert secs / SECONDS_PER_DAY >= FIRST_DAY_PAST_U32_YEARS;
      YearFitsU32(secs / SECONDS_PER_DAY);
    }
  }

  // ---- Every second count, the clock's whole range ----

  /** The March-based year that holds any day, before the epoch too. */
  lemma MarchYearAt(n: int) returns (y: int, doy: int)
    ensures 0 <= doy < MarchYearLength(y) && MarchYearStart(y) + doy == n + 719_468
    decreases if n < 0 then -n else n
  {
    if n == 0 {
      y, doy := 1969, 306;
    } else if n > 0 {
      y, doy := MarchYearAt(n - 1);
      MarchYearsAbut(y);
      if doy + 1 < MarchYearLength(y) { doy := doy + 1; } else { y, doy := y + 1, 0; }
    } else {
      y, doy := MarchYearAt(n + 1);
      MarchYearsAbut(y - 1);
      if doy > 0 { doy := doy - 1; } else { y, doy := y - 1, MarchYearLength(y - 1) - 1; }
    }
  }

  lemma CivilOfDay(n: int, y: int, doy: int)
    requires 0 <= doy < MarchYearLength(y) && MarchYearStart(y) + doy == n + 719_468
    ensures CivilFromDays(n) == DateInMarchYear(y, doy)
  {
    CivilInMarchYear(y, doy);
  }

  lemma NextCivilYear(n: int, y: int, doy: int)
    requires doy + 1 == MarchYearLength(y) && MarchYearStart(y) + doy == n + 719_468
    ensures CivilFromDays(n + 1) == DateInMarchYear(y + 1, 0)
  {
    MarchYearsAbut(y);
    CivilOfDay(n + 1, y + 1, 0);
  }

  /** On every day there is, the closed form moves on as the calendar does. */
  lemma ClosedFormSteps(n: int)
    ensures IsDate(CivilFromDays(n)) && CivilFromDays(n + 1) == NextDay(CivilFromDays(n))
  {
    var y, doy := MarchYearAt(n);
    CivilOfDay(n, y, doy);
    NextDayInMarchYear(y, doy);
    if doy + 1 < MarchYearLength(y) { CivilOfDay(n + 1, y, doy + 1); } else { NextCivilYear(n, y, doy); }
  }

  /** The parts of any second count: read as a signed number, the time of day and the month and day are exact, and the
      year is cut to its low 32 bits. */
  lemma ComponentsEverywhere(secs: U64)
    ensures var c := UnixToComponents(secs);
            var signed := if secs < 0x8000_0000_0000_0000 then secs else secs - 0x1_0000_0000_0000_0000;
            var date := CivilFromDays(signed / 86_400);
            && c.month == date.month && c.day == date.day
            && c.year % 0x1_0000_0000 == c.year && (date.year - c.year) % 0x1_0000_0000 == 0
            && c.hour < 24 && c.minute < 60 && c.second < 60
            && 3600 * c.hour + 60 * c.minute + c.second == signed % 86_400
  {
    var signed := AsSigned64(secs);
    var date, rem := CivilFromDays(signed / SECONDS_PER_DAY), signed % SECONDS_PER_DAY;
    ClosedFormSteps(signed / SECONDS_PER_DAY);
    ClockFields(rem);
    DateFitsButYear(date);
    FitsU32(rem / 3600); FitsU32(rem % 3600 / 60); FitsU32(rem % 60);
  }

  lemma DateFitsButYear(d: Date)
    requires IsDate(d)
    ensures TruncateToU32(d.month) == d.month && TruncateToU32(d.day) == d.day
    ensures TruncateToU32(d.year) % TWO_32 == TruncateToU32(d.year) && (d.year - TruncateToU32(d.year)) % TWO_32 == 0
  {
    FitsU32(d.month);
    FitsU32(d.day);
    CutOff(d.year);
  }

  lemma CutOff(x: int)
    ensures TruncateToU32(x) % TWO_32 == TruncateToU32(x) && (x - TruncateToU32(x)) % TWO_32 == 0
  {
  }
}
