/** The RFC 3339 time stamps that the Rust telemetry emitter prints, and their order as strings. */
module Timestamps {
  import opened Words
  import opened Calendar
  import opened Decimals

  const NANOS_PER_SECOND := 1_000_000_000

  /** Time since the epoch. */
  datatype Instant = Instant(secs: U64, nanos: nat)

  predicate IsInstant(t: Instant) { t.nanos < NANOS_PER_SECOND }

  predicate Earlier(t: Instant, u: Instant) {
    t.secs < u.secs || (t.secs == u.secs && t.nanos < u.nanos)
  }

  function Field(n: nat, width: nat, mark: char): string { Padded(n, width) + [mark] }

  function Format(c: Components, nanos: nat): string {
    Field(c.year, 4, '-') + (Field(c.month, 2, '-') + (Field(c.day, 2, 'T') + (Field(c.hour, 2, ':') +
    (Field(c.minute, 2, ':') + (Field(c.second, 2, '.') + Field(nanos, 9, 'Z'))))))
  }

  /** The stamp of a clock reading; a clock set before the epoch reads as the epoch itself. */
  function Rfc3339(t: Instant): string {
    Format(UnixToComponents(t.secs), t.nanos)
  }

  // ---- Stamps as lists of numbers ----

  datatype Column = Column(value: nat, width: nat, mark: char)

  predicate Fits(col: Column) { col.width >= 1 && col.value < Pow10(col.width) }

  predicate SameShape(c: Column, d: Column) { c.width == d.width && c.mark == d.mark }

  datatype Row = End | Row(head: Column, tail: Row)

  function Print(r: Row): string {
    match r
    case End => []
    case Row(col, End) => Field(col.value, col.width, col.mark)
    case Row(col, tail) => Field(col.value, col.width, col.mark) + Print(tail)
  }

  predicate Comparable(r: Row, s: Row) {
    match (r, s)
    case (End, End) => true
    case (Row(c, t), Row(d, u)) => Fits(c) && Fits(d) && SameShape(c, d) && Comparable(t, u)
    case _ => false
  }

  predicate RowLess(r: Row, s: Row) {
    match (r, s)
    case (Row(c, t), Row(d, u)) => c.value < d.value || (c.value == d.value && RowLess(t, u))
    case _ => false
  }

  /** Rows of numbers compare as the strings they print to. */
  lemma {:induction false} PrintSorts(r: Row, s: Row)
    requires Comparable(r, s) && RowLess(r, s)
    ensures LexLess(Print(r), Print(s))
  {
    var c, d := r.head, s.head;
    PaddedIsFixedWidth(c.value, c.width);
    PaddedIsFixedWidth(d.value, d.width);
    var u, v := LastDigits(c.value, c.width), LastDigits(d.value, d.width);
    var p, q := Print(r.tail), Print(s.tail);
    assert Print(r) == u + ([c.mark] + p) && Print(s) == v + ([c.mark] + q);
    if c.value < d.value {
      FixedWidthSorts(c.value, d.value, c.width);
      LexLessByPrefix(u, v, [c.mark] + p, [c.mark] + q);
    } else {
      PrintSorts(r.tail, s.tail);
      LexLessBySuffix([c.mark], p, q);
      LexLessBySuffix(u, [c.mark] + p, [c.mark] + q);
    }
  }

  /** 1 January of the year 10000. */
  const FIRST_DAY_OF_10000 := 2_932_897
  const FIRST_SECOND_OF_10000 := FIRST_DAY_OF_10000 * SECONDS_PER_DAY

  function ClockRow(c: Components, nanos: nat): Row {
    Row(Column(c.hour, 2, ':'), Row(Column(c.minute, 2, ':'), Row(Column(c.second, 2, '.'),
    Row(Column(nanos, 9, 'Z'), End))))
  }

  function StampRow(c: Components, nanos: nat): Row {
    Row(Column(c.year, 4, '-'), Row(Column(c.month, 2, '-'), Row(Column(c.day, 2, 'T'), ClockRow(c, nanos))))
  }

  lemma SmallPowers()
    ensures Pow10(2) == 100 && Pow10(4) == 10_000 && Pow10(9) == NANOS_PER_SECOND
  {
    assert Pow10(2) == 10 * Pow10(1) && Pow10(4) == 100 * Pow10(2);
    assert Pow10(6) == 100 * Pow10(4) && Pow10(8) == 100 * Pow10(6) && Pow10(9) == 10 * Pow10(8);
  }

  lemma YearHasFourDigits(n: nat)
    ensures Walk(n).year < 10_000 <==> n < FIRST_DAY_OF_10000
  {
    YearBelow(n, 10_000);
    LastFourDigitYear();
  }

  lemma LastFourDigitYear()
    ensures MarchYearStart(9999) + 306 == FIRST_DAY_OF_10000 + 719_468
  {
  }

  /** What the components of a second count before the year 10000 are. */
  lemma Components9999(secs: U64) returns (c: Components)
    requires secs < FIRST_SECOND_OF_10000
    ensures c == UnixToComponents(secs) && Describes(c, secs) && c.year < 10_000 && c.month < 100 && c.day < 100
  {
    c := UnixToComponents(secs);
    ComponentsRightIffYearFits(secs);
    var day := secs / SECONDS_PER_DAY;
    ClosedFormIsWalk(day);
    assert day < FIRST_DAY_OF_10000;
    YearHasFourDigits(day);
  }

  // ---- What a stamp says ----

  /** The characters from `i` up to `j` are the digits of `value`. */
  predicate Says(s: string, i: nat, j: nat, value: nat) {
    i < j <= |s| && AllDigits(s[i..j]) && ValueOf(s[i..j]) == value
  }

  lemma FieldSays(s: string, i: nat, n: nat, width: nat, mark: char, tail: string)
    requires i <= |s| && s[i..] == Field(n, width, mark) + tail && width >= 1 && n < Pow10(width)
    ensures i + width < |s| && Says(s, i, i + width, n) && s[i + width] == mark && s[i + width + 1..] == tail
  {
    PaddedValue(n, width);
    var digits := Padded(n, width);
    assert s[i..] == digits + ([mark] + tail);
    assert s[i..i + width] == s[i..][..width] == digits;
    assert s[i + width] == s[i..][width] && s[i + width + 1..] == s[i..][width + 1..];
  }

  lemma ClockSays(s: string, i: nat, c: Components, nanos: nat)
    requires i <= |s| && s[i..] == Print(ClockRow(c, nanos))
    requires c.hour < 100 && c.minute < 100 && c.second < 100 && nanos < NANOS_PER_SECOND
    ensures |s| == i + 19 && s[i + 2] == ':' && s[i + 5] == ':' && s[i + 8] == '.' && s[i + 18] == 'Z'
    ensures Says(s, i, i + 2, c.hour) && Says(s, i + 3, i + 5, c.minute) && Says(s, i + 6, i + 8, c.second)
    ensures Says(s, i + 9, i + 18, nanos)
  {
    SmallPowers();
    var clock := ClockRow(c, nanos);
    FieldSays(s, i, c.hour, 2, ':', Print(clock.tail));
    FieldSays(s, i + 3, c.minute, 2, ':', Print(clock.tail.tail));
    FieldSays(s, i + 6, c.second, 2, '.', Print(clock.tail.tail.tail));
    assert s[i + 9..] == Field(nanos, 9, 'Z') + [];
    FieldSays(s, i + 9, nanos, 9, 'Z', []);
  }

  /** The places from `i` on: month, day, hour, minute, second and nanoseconds. */
  predicate RestSays(s: string, i: nat, c: Components, nanos: nat) {
    && |s| == i + 25
    && Says(s, i, i + 2, c.month) && Says(s, i + 3, i + 5, c.day) && Says(s, i + 6, i + 8, c.hour)
    && Says(s, i + 9, i + 11, c.minute) && Says(s, i + 12, i + 14, c.second) && Says(s, i + 15, i + 24, nanos)
    && s[i + 2] == '-' && s[i + 5] == 'T' && s[i + 8] == ':' && s[i + 11] == ':' && s[i + 14] == '.' && s[i + 24] == 'Z'
  }

  lemma DateSays(s: string, i: nat, c: Components, nanos: nat)
    requires i <= |s| && s[i..] == Print(StampRow(c, nanos).tail) && c.month < 100 && c.day < 100
    requires c.hour < 100 && c.minute < 100 && c.second < 100 && nanos < NANOS_PER_SECOND
    ensures RestSays(s, i, c, nanos)
  {
    var date, clock := StampRow(c, nanos).tail, ClockRow(c, nanos);
    SmallPowers();
    assert Print(date) == Field(c.month, 2, '-') + Print(date.tail);
    assert Print(date.tail) == Field(c.day, 2, 'T') + Print(clock);
    TwoFields(s, i, c.month, '-', c.day, 'T', Print(clock));
    ClockSays(s, i + 6, c, nanos);
  }

  lemma TwoFields(s: string, i: nat, m: nat, a: char, n: nat, b: char, tail: string)
    requires i <= |s| && s[i..] == Field(m, 2, a) + (Field(n, 2, b) + tail) && m < 100 && n < 100
    ensures i + 6 <= |s| && Says(s, i, i + 2, m) && s[i + 2] == a && Says(s, i + 3, i + 5, n) && s[i + 5] == b
    ensures s[i + 6..] == tail
  {
    SmallPowers();
    FieldSays(s, i, m, 2, a, Field(n, 2, b) + tail);
    FieldSays(s, i + 3, n, 2, b, tail);
  }

  lemma YearSays(s: string, year: nat, tail: string) returns (y: nat)
    requires s == Field(year, 4, '-') + tail
    ensures 4 <= y < |s| && Says(s, 0, y, year) && s[y] == '-' && s[y + 1..] == tail
    ensures (y == 4 <==> year < 10_000) && (y > 4 ==> s[0] != '0')
  {
    SmallPowers();
    PaddedValue(year, 4);
    y := |Padded(year, 4)|;
    Splits(Padded(year, 4), '-', tail);
  }

  lemma Splits(a: string, mark: char, tail: string)
    ensures var s := a + [mark] + tail;
            s[0..|a|] == a && s[|a|] == mark && s[|a| + 1..] == tail && (a != [] ==> s[0] == a[0])
  {
  }

  lemma PrintSays(s: string, c: Components, nanos: nat) returns (y: nat)
    requires s == Print(StampRow(c, nanos))
    requires c.month < 100 && c.day < 100 && c.hour < 100 && c.minute < 100 && c.second < 100
    requires nanos < NANOS_PER_SECOND
    ensures 4 <= y < |s| && (y == 4 <==> c.year < 10_000) && (y > 4 ==> s[0] != '0')
    ensures Says(s, 0, y, c.year) && s[y] == '-' && RestSays(s, y + 1, c, nanos)
  {
    var tail := Print(StampRow(c, nanos).tail);
    assert s == Field(c.year, 4, '-') + tail;
    y := YearSays(s, c.year, tail);
    DateSays(s, y + 1, c, nanos);
  }

  /** The stamp of an instant spells its calendar date and its time of day: four digits or more for the year, two for
      each other field and nine for the nanoseconds, with the marks of RFC 3339 between. */
  lemma StampSays(t: Instant) returns (y: nat)
    requires IsInstant(t) && t.secs < FIRST_SECOND_PAST_U32_YEARS
    ensures var s, d := Rfc3339(t), Walk(t.secs / 86_400);
            && |s| == y + 26 && 4 <= y && (y == 4 <==> d.year < 10_000) && (y > 4 ==> s[0] != '0')
            && d.year >= 0 && Says(s, 0, y, d.year)
            && d.month >= 0 && Says(s, y + 1, y + 3, d.month) && d.day >= 0 && Says(s, y + 4, y + 6, d.day)
    ensures var s, rem := Rfc3339(t), t.secs % 86_400;
            && Says(s, y + 7, y + 9, rem / 3600) && Says(s, y + 10, y + 12, rem % 3600 / 60)
            && Says(s, y + 13, y + 15, rem % 60) && Says(s, y + 16, y + 25, t.nanos)
    ensures var s := Rfc3339(t);
            && s[y] == '-' && s[y + 3] == '-' && s[y + 6] == 'T' && s[y + 9] == ':' && s[y + 12] == ':'
            && s[y + 15] == '.' && s[y + 25] == 'Z'
  {
    var c := UnixToComponents(t.secs);
    ComponentsRightIffYearFits(t.secs);
    ClosedFormIsWalk(t.secs / SECONDS_PER_DAY);
    ClockParts(c.hour, c.minute, c.second, t.secs % 86_400);
    FormatIsPrint(c, t.nanos);
    y := PrintSays(Rfc3339(t), c, t.nanos);
  }

  lemma ClockParts(hour: nat, minute: nat, second: nat, rem: nat)
    requires minute < 60 && second < 60 && 3600 * hour + 60 * minute + second == rem
    ensures hour == rem / 3600 && minute == rem % 3600 / 60 && second == rem % 60
  {
    var rest := 60 * minute + second;
    assert rem == 3600 * hour + rest && rest < 3600;
    assert rem % 3600 == rest && rest / 60 == minute;
    SixtiethsLeft(60 * hour + minute, second);
  }

  lemma SixtiethsLeft(minutes: nat, second: nat)
    requires second < 60
    ensures (60 * minutes + second) % 60 == second
  {
  }

  /** Before the year 10000 the places are those of the fixed form, 30 characters long. */
  lemma StampSaysFixed(t: Instant)
    requires IsInstant(t) && t.secs < FIRST_SECOND_OF_10000
    ensures var s, d, rem := Rfc3339(t), Walk(t.secs / 86_400), t.secs % 86_400;
            && |s| == 30 && s[4] == s[7] == '-' && s[10] == 'T' && s[13] == s[16] == ':' && s[19] == '.' && s[29] == 'Z'
            && d.year >= 0 && Says(s, 0, 4, d.year) && d.month >= 0 && Says(s, 5, 7, d.month)
            && d.day >= 0 && Says(s, 8, 10, d.day) && Says(s, 11, 13, rem / 3600) && Says(s, 14, 16, rem % 3600 / 60)
            && Says(s, 17, 19, rem % 60) && Says(s, 20, 29, t.nanos)
  {
    YearHasFourDigits(t.secs / SECONDS_PER_DAY);
    var y := StampSays(t);
  }

  // ---- Time order is string order ----

  predicate DateLess(a: Date, b: Date) {
    a.year < b.year || (a.year == b.year && (a.month < b.month || (a.month == b.month && a.day < b.day)))
  }

  lemma {:induction false} WalkGoesForward(m: nat, n: nat)
    requires m < n
    ensures DateLess(Walk(m), Walk(n))
    decreases n - m
  {
    ClosedFormIsWalk(n - 1);
    NextDayIsLater(Walk(n - 1));
    if m < n - 1 {
      WalkGoesForward(m, n - 1);
      DateLessTransitive(Walk(m), Walk(n - 1), Walk(n));
    }
  }

  lemma NextDayIsLater(d: Date)
    requires IsDate(d)
    ensures DateLess(d, NextDay(d))
  {
  }

  lemma DateLessTransitive(a: Date, b: Date, c: Date)
    requires DateLess(a, b) && DateLess(b, c)
    ensures DateLess(a, c)
  {
  }

  lemma ClockRowLess(c: Components, d: Components, t: Instant, u: Instant)
    requires IsInstant(t) && IsInstant(u) && Earlier(t, u)
    requires t.secs / SECONDS_PER_DAY == u.secs / SECONDS_PER_DAY
    requires Describes(c, t.secs) && Describes(d, u.secs)
    ensures RowLess(ClockRow(c, t.nanos), ClockRow(d, u.nanos))
  {
    var r, s := ClockRow(c, t.nanos), ClockRow(d, u.nanos);
    assert RowLess(r.tail.tail.tail, s.tail.tail.tail) <==> t.nanos < u.nanos;
    assert RowLess(r.tail.tail, s.tail.tail) <==>
           c.second < d.second || (c.second == d.second && t.nanos < u.nanos);
    var a, b := t.secs % SECONDS_PER_DAY, u.secs % SECONDS_PER_DAY;
    assert a < b || (a == b && t.nanos < u.nanos);
  }

  lemma StampRowLess(c: Components, d: Components, t: Instant, u: Instant)
    requires IsInstant(t) && IsInstant(u) && Earlier(t, u)
    requires Describes(c, t.secs) && Describes(d, u.secs)
    ensures RowLess(StampRow(c, t.nanos), StampRow(d, u.nanos))
  {
    var m, n := t.secs / SECONDS_PER_DAY, u.secs / SECONDS_PER_DAY;
    if m < n {
      WalkGoesForward(m, n);
    } else {
      ClockRowLess(c, d, t, u);
    }
  }

  lemma EarlierPrintsSmaller(t: Instant, u: Instant)
    requires IsInstant(t) && IsInstant(u) && Earlier(t, u) && u.secs < FIRST_SECOND_OF_10000
    ensures LexLess(Rfc3339(t), Rfc3339(u))
  {
    var c := Components9999(t.secs);
    var d := Components9999(u.secs);
    FormattedSmaller(c, d, t, u);
  }

  lemma FormattedSmaller(c: Components, d: Components, t: Instant, u: Instant)
    requires IsInstant(t) && IsInstant(u) && Earlier(t, u)
    requires Describes(c, t.secs) && c.year < 10_000 && c.month < 100 && c.day < 100
    requires Describes(d, u.secs) && d.year < 10_000 && d.month < 100 && d.day < 100
    ensures LexLess(Format(c, t.nanos), Format(d, u.nanos))
  {
    StampRowLess(c, d, t, u);
    SmallPowers();
    assert Comparable(ClockRow(c, t.nanos).tail.tail, ClockRow(d, u.nanos).tail.tail);
    assert Comparable(ClockRow(c, t.nanos), ClockRow(d, u.nanos));
    PrintSorts(StampRow(c, t.nanos), StampRow(d, u.nanos));
    FormatIsPrint(c, t.nanos);
    FormatIsPrint(d, u.nanos);
  }

  lemma FormatIsPrint(c: Components, nanos: nat)
    ensures Format(c, nanos) == Print(StampRow(c, nanos))
  {
    var clock := ClockRow(c, nanos);
    assert Print(clock.tail.tail) == Field(c.second, 2, '.') + Field(nanos, 9, 'Z');
    assert Print(clock) == Field(c.hour, 2, ':') + (Field(c.minute, 2, ':') + Print(clock.tail.tail));
    var days := Row(Column(c.day, 2, 'T'), clock);
    assert Print(days) == Field(c.day, 2, 'T') + Print(clock);
  }

  /** Up to the end of the year 9999, stamps compare as the instants do, and no two instants share one. */
  lemma StampsSortLikeTime(t: Instant, u: Instant)
    requires IsInstant(t) && IsInstant(u)
    requires t.secs < FIRST_SECOND_OF_10000 && u.secs < FIRST_SECOND_OF_10000
    ensures Earlier(t, u) <==> LexLess(Rfc3339(t), Rfc3339(u))
    ensures t == u <==> Rfc3339(t) == Rfc3339(u)
  {
    if Earlier(t, u) {
      EarlierPrintsSmaller(t, u);
      LexLessAsymmetric(Rfc3339(t), Rfc3339(u));
    } else if Earlier(u, t) {
      EarlierPrintsSmaller(u, t);
      LexLessAsymmetric(Rfc3339(u), Rfc3339(t));
    } else {
      LexLessIrreflexive(Rfc3339(t));
    }
  }

  lemma LexLessIrreflexive(s: string)
    ensures !LexLess(s, s)
  {
    if LexLess(s, s) { LexLessAsymmetric(s, s); }
  }

  ghost predicate SortsBelow(limit: nat) {
    forall t: Instant, u: Instant
      | IsInstant(t) && IsInstant(u) && t.secs < limit && u.secs < limit && Earlier(t, u)
      :: LexLess(Rfc3339(t), Rfc3339(u))
  }

  /** The year 10000 is where it stops: its stamps sort before those of 9999. */
  lemma YearTenThousandSortsFirst()
    ensures LexLess(Rfc3339(Instant(FIRST_SECOND_OF_10000, 0)), Rfc3339(Instant(FIRST_SECOND_OF_10000 - 1, 0)))
  {
    var before, after := UnixToComponents(FIRST_SECOND_OF_10000 - 1), UnixToComponents(FIRST_SECOND_OF_10000);
    AroundNewYear10000();
    YearDigits();
    StartsWithYear(before, 0);
    StartsWithYear(after, 0);
  }

  lemma AroundNewYear10000()
    ensures UnixToComponents(FIRST_SECOND_OF_10000 - 1).year == 9999
    ensures UnixToComponents(FIRST_SECOND_OF_10000).year == 10_000
  {
    CivilInMarchYear(9999, 305);
    CivilInMarchYear(9999, 306);
    assert DateInMarchYear(9999, 305) == Date(9999, 12, 31) && DateInMarchYear(9999, 306) == Date(10_000, 1, 1);
    YearOfSeconds(FIRST_SECOND_OF_10000 - 1, FIRST_DAY_OF_10000 - 1);
    YearOfSeconds(FIRST_SECOND_OF_10000, FIRST_DAY_OF_10000);
  }

  lemma YearOfSeconds(secs: U64, day: nat)
    requires secs < TWO_63 && day == secs / SECONDS_PER_DAY
    ensures UnixToComponents(secs).year == CivilFromDays(day).year % TWO_32
  {
  }

  lemma YearDigits()
    ensures Numeral(9999)[0] == '9' && Numeral(10_000)[0] == '1'
  {
    assert Numeral(9999)[0] == Numeral(999)[0] == Numeral(99)[0] == Numeral(9)[0];
    assert Numeral(10_000)[0] == Numeral(1000)[0] == Numeral(100)[0] == Numeral(10)[0] == Numeral(1)[0];
  }

  lemma StartsWithYear(c: Components, nanos: nat)
    requires c.year == 9999 || c.year == 10_000
    ensures Format(c, nanos) != [] && Format(c, nanos)[0] == Numeral(c.year)[0]
  {
    SmallPowers();
    NumeralLength(c.year, 3);
    assert Pow10(3) == 1000 by { assert Pow10(4) == 10 * Pow10(3); }
    assert |Numeral(c.year)| >= 4;
    assert Padded(c.year, 4) == Numeral(c.year);
  }

  /** The stamps below a second count sort like time exactly when that count is not past the year 9999. */
  lemma SortsExactlyThrough9999(limit: nat)
    requires limit <= TWO_64
    ensures SortsBelow(limit) <==> limit <= FIRST_SECOND_OF_10000
  {
    if limit <= FIRST_SECOND_OF_10000 {
      forall t: Instant, u: Instant
        | IsInstant(t) && IsInstant(u) && t.secs < limit && u.secs < limit && Earlier(t, u)
        ensures LexLess(Rfc3339(t), Rfc3339(u))
      {
        EarlierPrintsSmaller(t, u);
      }
    } else {
      var t, u := Instant(FIRST_SECOND_OF_10000 - 1, 0), Instant(FIRST_SECOND_OF_10000, 0);
      YearTenThousandSortsFirst();
      LexLessAsymmetric(Rfc3339(u), Rfc3339(t));
      assert Earlier(t, u);
    }
  }
}
