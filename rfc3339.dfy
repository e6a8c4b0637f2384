/**
 * Instants and their RFC 3339 text form (section 5.6 of RFC 3339), as Go's
 * `time.Time.UTC().Format(time.RFC3339)` writes it and the strict RFC 3339 form of
 * `time.Parse(time.RFC3339, s)` reads it: two-digit hours, a '.' before the fraction and a
 * zone of at most 23:59. An instant is a count of nanoseconds since 1970-01-01T00:00:00Z; dates are
 * proleptic Gregorian, counted in days from 0000-01-01.
 */
module Rfc3339 {
  import opened Wrappers
  import opened Text

  /** Nanoseconds since 1970-01-01T00:00:00Z (negative before it). */
  type Instant = int

  const NanosPerSecond: int := 1_000_000_000
  const NanosPerHour: int := 3_600_000_000_000
  const DaysPer400Years: int := 146_097
  /** Days from 0000-01-01 to 1970-01-01. */
  const UnixEpochDays: int := 719_528
  /** `time.Time{}`: 0001-01-01T00:00:00Z. */
  const ZeroTime: Instant := -62_135_596_800_000_000_000

  predicate IsLeap(y: int) {
    y % 4 == 0 && (y % 100 != 0 || y % 400 == 0)
  }

  function DaysInYear(y: int): int {
    if IsLeap(y) then 366 else 365
  }

  /** Days from 0000-01-01 to the first day of year `y` (leap years are those before `y`). */
  function DaysBeforeYear(y: nat): int {
    365 * y + (y + 3) / 4 - (y + 99) / 100 + (y + 399) / 400
  }

  lemma LeapCount4(y: nat)
    ensures (y + 4) / 4 - (y + 3) / 4 == if y % 4 == 0 then 1 else 0
  {
    var q, r := y / 4, y % 4;
    assert y == 4 * q + r;
    assert (y + 4) / 4 == q + 1;
    assert (y + 3) / 4 == q + (if r == 0 then 0 else 1);
  }

  lemma LeapCount100(y: nat)
    ensures (y + 100) / 100 - (y + 99) / 100 == if y % 100 == 0 then 1 else 0
  {
    var q, r := y / 100, y % 100;
    assert y == 100 * q + r;
    assert (y + 100) / 100 == q + 1;
    assert (y + 99) / 100 == q + (if r == 0 then 0 else 1);
  }

  lemma LeapCount400(y: nat)
    ensures (y + 400) / 400 - (y + 399) / 400 == if y % 400 == 0 then 1 else 0
  {
    var q, r := y / 400, y % 400;
    assert y == 400 * q + r;
    assert (y + 400) / 400 == q + 1;
    assert (y + 399) / 400 == q + (if r == 0 then 0 else 1);
  }

  /** Every year divisible by 100 is divisible by 4, and every year divisible by 400 by 100. */
  lemma CenturyDivides(y: nat)
    ensures y % 100 == 0 ==> y % 4 == 0
    ensures y % 400 == 0 ==> y % 100 == 0
  {
    if y % 100 == 0 {
      assert y == 4 * (25 * (y / 100));
    }
    if y % 400 == 0 {
      assert y == 100 * (4 * (y / 400));
    }
  }

  lemma DaysBeforeYearStep(y: nat)
    ensures DaysBeforeYear(y + 1) == DaysBeforeYear(y) + DaysInYear(y)
  {
    LeapCount4(y);
    LeapCount100(y);
    LeapCount400(y);
    CenturyDivides(y);
    var leap := (if y % 4 == 0 then 1 else 0) - (if y % 100 == 0 then 1 else 0) + (if y % 400 == 0 then 1 else 0);
    assert leap == DaysInYear(y) - 365;
    assert DaysBeforeYear(y + 1) - DaysBeforeYear(y) == 365 + leap;
  }

  lemma EpochDays()
    ensures DaysBeforeYear(1970) == UnixEpochDays
    ensures DaysBeforeYear(1) == 366
  {
  }

  function DaysInMonth(y: int, m: int): int
    requires 1 <= m <= 12
  {
    if m == 2 then (if IsLeap(y) then 29 else 28)
    else if m == 4 || m == 6 || m == 9 || m == 11 then 30
    else 31
  }

  /** Days of year `y` before the first day of month `m` (13 stands for the next year). */
  function DaysBeforeMonth(y: int, m: int): int
    requires 1 <= m <= 13
  {
    [0, 31, 59, 90, 120, 151, 181, 212, 243, 273, 304, 334, 365][m - 1]
      + (if m > 2 && IsLeap(y) then 1 else 0)
  }

  datatype Date = Date(year: int, month: int, day: int)

  predicate ValidDate(d: Date) {
    1 <= d.month <= 12 && 1 <= d.day <= DaysInMonth(d.year, d.month)
  }

  /** Splits `n` days, counted from 1 January of year `y`, into a year and a day of that year. */
  function YearSplit(n: nat, y: nat): (r: (nat, nat))
    ensures r.0 >= y && r.1 < DaysInYear(r.0)
    ensures DaysBeforeYear(r.0) + r.1 == DaysBeforeYear(y) + n
    decreases n
  {
    if n < DaysInYear(y) then (y, n)
    else
      DaysBeforeYearStep(y);
      YearSplit(n - DaysInYear(y), y + 1)
  }

  /** Splits day `r` of year `y`, counted from the first day of month `m`, into a month and a day. */
  function MonthSplit(r: nat, y: int, m: int): (md: (int, nat))
    requires 1 <= m <= 12
    requires DaysBeforeMonth(y, m) + r < DaysInYear(y)
    ensures m <= md.0 <= 12 && md.1 < DaysInMonth(y, md.0)
    ensures DaysBeforeMonth(y, md.0) + md.1 == DaysBeforeMonth(y, m) + r
    decreases 12 - m
  {
    if m == 12 || r < DaysInMonth(y, m) then (m, r)
    else MonthSplit(r - DaysInMonth(y, m), y, m + 1)
  }

  /** Days from 0000-01-01 to `d`. */
  function DaysOfDate(d: Date): int
    requires d.year >= 0 && 1 <= d.month <= 12
  {
    DaysBeforeYear(d.year) + DaysBeforeMonth(d.year, d.month) + d.day - 1
  }

  /** The date `n` days after 0000-01-01; earlier days are moved by whole 400-year cycles. */
  function DateOfDays(n: int): (d: Date)
    ensures 1 <= d.month <= 12 && 1 <= d.day <= 31
    ensures n >= 0 ==> ValidDate(d) && d.year >= 0 && DaysOfDate(d) == n
    decreases if n < 0 then 1 else 0
  {
    if n >= 0 then
      var (y, r) := YearSplit(n, 0);
      var (m, day) := MonthSplit(r, y, 1);
      Date(y, m, day + 1)
    else
      var k := (-n) / 146_097 + 1;
      var d := DateOfDays(n + 146_097 * k);
      Date(d.year - 400 * k, d.month, d.day)
  }

  /** Civil-time fields of an instant in UTC. */
  datatype DateTime = DateTime(date: Date, hour: int, minute: int, second: int, nanos: int)

  /** The civil fields of a whole second counted from the Unix epoch. */
  function CivilSecond(secs: int): (c: DateTime)
    ensures 1 <= c.date.month <= 12 && 1 <= c.date.day <= 31
    ensures 0 <= c.hour < 24 && 0 <= c.minute < 60 && 0 <= c.second < 60
    ensures c.nanos == 0
  {
    var sod := secs % 86_400;
    DateTime(DateOfDays(secs / 86_400 + 719_528), sod / 3600, sod % 3600 / 60, sod % 60, 0)
  }

  function Civil(t: Instant): (c: DateTime)
    ensures 1 <= c.date.month <= 12 && 1 <= c.date.day <= 31
    ensures 0 <= c.hour < 24 && 0 <= c.minute < 60 && 0 <= c.second < 60
    ensures 0 <= c.nanos < NanosPerSecond
    ensures c.(nanos := 0) == CivilSecond(t / NanosPerSecond)
  {
    CivilSecond(t / 1_000_000_000).(nanos := t % 1_000_000_000)
  }

  /** The instant of `c`, read in UTC. */
  function InstantOf(c: DateTime): Instant
    requires c.date.year >= 0 && 1 <= c.date.month <= 12
  {
    ((DaysOfDate(c.date) - 719_528) * 86_400 + c.hour * 3600 + c.minute * 60 + c.second)
      * 1_000_000_000 + c.nanos
  }

  /** A two-digit, zero-padded field. */
  function Two(v: int): (s: string)
    requires 0 <= v < 100
    ensures |s| == 2 && AllDigits(s) && DigitsValue(s) == v
  {
    var s := [DigitChar(v / 10), DigitChar(v % 10)];
    assert s[..1] == [DigitChar(v / 10)];
    assert s[..1][..0] == [];
    assert DigitsValue(s[..1]) == v / 10;
    assert DigitsValue(s) == (v / 10) * 10 + v % 10;
    s
  }

  /** A year: at least four digits, zero-padded, with a leading '-' when negative. */
  function YearText(y: int): (s: string)
    ensures 0 <= y < 10000 ==> |s| == 4 && AllDigits(s) && DigitsValue(s) == y
    decreases if y < 0 then 1 else 0
  {
    if y < 0 then "-" + YearText(-y)
    else if y < 10000 then
      var hi, lo := Two(y / 100), Two(y % 100);
      var s := hi + lo;
      DigitsAppend2(hi, lo);
      s
    else NatToString(y)
  }

  lemma DigitsAppend2(a: string, b: string)
    requires AllDigits(a) && |b| == 2 && AllDigits(b)
    ensures AllDigits(a + b) && DigitsValue(a + b) == DigitsValue(a) * 100 + DigitsValue(b)
  {
    var ab := a + b;
    var a0 := a + [b[0]];
    assert ab[..|ab| - 1] == a0;
    assert a0[..|a0| - 1] == a;
    assert DigitsValue(a0) == DigitsValue(a) * 10 + DigitValue(b[0]);
    assert DigitsValue(ab) == DigitsValue(a0) * 10 + DigitValue(b[1]);
    assert b[..1] == [b[0]];
    assert b[..1][..0] == [];
    assert DigitsValue(b[..1]) == DigitValue(b[0]);
    assert DigitsValue(b) == DigitValue(b[0]) * 10 + DigitValue(b[1]);
  }

  /** The nineteen characters "YYYY-MM-DDTHH:MM:SS" of `c`. */
  function Layout(c: DateTime): string
    requires 1 <= c.date.month <= 12 && 1 <= c.date.day <= 31
    requires 0 <= c.hour < 24 && 0 <= c.minute < 60 && 0 <= c.second < 60
  {
    YearText(c.date.year) + "-" + Two(c.date.month) + "-" + Two(c.date.day) + "T"
      + Two(c.hour) + ":" + Two(c.minute) + ":" + Two(c.second)
  }

  /** `t.UTC().Format(time.RFC3339)`: whole seconds and the "Z" zone. */
  function Format(t: Instant): string {
    Layout(CivilSecond(t / 1_000_000_000)) + "Z"
  }

  predicate AllDigits(s: string) {
    forall i :: 0 <= i < |s| ==> IsDigit(s[i])
  }

  /** A fixed-width decimal field that must lie in [lo, hi]. */
  function Field(s: string, lo: int, hi: int): (r: Option<int>)
    ensures r.Some? ==> lo <= r.value <= hi
  {
    if AllDigits(s) && lo <= DigitsValue(s) <= hi then Some(DigitsValue(s)) else None
  }

  function Pow10(k: nat): nat {
    if k == 0 then 1 else 10 * Pow10(k - 1)
  }

  /** Number of leading decimal digits of `s`. */
  function LeadingDigits(s: string): (n: nat)
    ensures n <= |s| && AllDigits(s[..n])
    ensures n < |s| ==> !IsDigit(s[n])
  {
    if s == [] || !IsDigit(s[0]) then 0
    else
      var k := LeadingDigits(s[1..]);
      assert s[..k + 1] == [s[0]] + s[1..][..k];
      k + 1
  }

  /** A fraction of a second: the first nine digits count, the rest are dropped. */
  function FractionNanos(ds: string): (ns: nat)
    requires AllDigits(ds)
  {
    var k := if |ds| > 9 then 9 else |ds|;
    DigitsValue(ds[..k]) * Pow10(9 - k)
  }

  /** An optional ".digits" after the seconds, giving its nanoseconds and the text after it. */
  function Fraction(rest: string): (r: (nat, string))
    ensures |r.1| <= |rest|
  {
    if |rest| >= 2 && rest[0] == '.' && IsDigit(rest[1]) then
      var n := 1 + LeadingDigits(rest[1..]);
      assert rest[1..n] == rest[1..][..n - 1];
      (FractionNanos(rest[1..n]), rest[n..])
    else (0, rest)
  }

  /** The zone: "Z", or a sign with hours 00-23 and minutes 00-59, as seconds east of UTC. */
  function ZoneOffset(z: string): Option<int> {
    if z == "Z" then Some(0)
    else if |z| != 6 || !(z[0] == '+' || z[0] == '-') || z[3] != ':' then None
    else
      var hh := Field(z[1..3], 0, 23);
      var mm := Field(z[4..6], 0, 59);
      if hh.None? || mm.None? then None
      else
        var offset := (hh.value * 60 + mm.value) * 60;
        Some(if z[0] == '-' then -offset else offset)
  }

  /** The date and time fields of "YYYY-MM-DDTHH:MM:SS", each within its range. */
  function ParseLayout(s: string): (r: Option<DateTime>)
    requires |s| == 19
    ensures r.Some? ==> 0 <= r.value.date.year <= 9999 && ValidDate(r.value.date) && r.value.nanos == 0
  {
    if !(s[4] == '-' && s[7] == '-' && s[10] == 'T' && s[13] == ':' && s[16] == ':') then None
    else
      var year := Field(s[0..4], 0, 9999);
      var month := Field(s[5..7], 1, 12);
      if year.None? || month.None? then None
      else
        var day := Field(s[8..10], 1, DaysInMonth(year.value, month.value));
        var hour := Field(s[11..13], 0, 23);
        var minute := Field(s[14..16], 0, 59);
        var second := Field(s[17..19], 0, 59);
        if day.None? || hour.None? || minute.None? || second.None? then None
        else Some(DateTime(Date(year.value, month.value, day.value), hour.value, minute.value, second.value, 0))
  }

  /**
   * `time.Parse(time.RFC3339, s)` on the strict RFC 3339 form; `None` is a parse error.
   * Go's layout parser, which `time.Parse` falls back to, also takes a one-digit hour,
   * a ',' before the fraction and a zone hour of 24 or minute of 60; those read as `None` here.
   */
  function Parse(s: string): Option<Instant> {
    if |s| < 19 then None
    else
      match ParseLayout(s[..19])
      case None => None
      case Some(c) =>
        var (nanos, zone) := Fraction(s[19..]);
        var offset := ZoneOffset(zone);
        if offset.None? then None
        else Some(InstantOf(c.(nanos := nanos)) - offset.value * 1_000_000_000)
  }

  lemma FieldTwo(v: int, lo: int, hi: int)
    requires 0 <= v < 100 && lo <= v <= hi
    ensures Field(Two(v), lo, hi) == Some(v)
  {
  }

  /** Every in-range layout is read back field for field. */
  lemma ParseLayoutOfLayout(c: DateTime)
    requires ValidDate(c.date) && 0 <= c.date.year <= 9999
    requires 0 <= c.hour < 24 && 0 <= c.minute < 60 && 0 <= c.second < 60
    ensures ParseLayout(Layout(c)) == Some(c.(nanos := 0))
  {
    var s := Layout(c);
    var y, mo, d := YearText(c.date.year), Two(c.date.month), Two(c.date.day);
    var h, mi, se := Two(c.hour), Two(c.minute), Two(c.second);
    assert s == y + "-" + mo + "-" + d + "T" + h + ":" + mi + ":" + se;
    assert s[0..4] == y;
    assert s[5..7] == mo;
    assert s[8..10] == d;
    assert s[11..13] == h;
    assert s[14..16] == mi;
    assert s[17..19] == se;
    FieldTwo(c.date.month, 1, 12);
    FieldTwo(c.date.day, 1, DaysInMonth(c.date.year, c.date.month));
    FieldTwo(c.hour, 0, 23);
    FieldTwo(c.minute, 0, 59);
    FieldTwo(c.second, 0, 59);
  }

  /** The first second and the first instant whose UTC year is 0. */
  const FirstSecondOfYear0: int := -62_167_219_200
  const FirstInstantOfYear0: Instant := -62_167_219_200_000_000_000

  /** Reading the civil fields of a whole second back in UTC gives that second, from year 0 on. */
  lemma CivilSecondRoundTrip(secs: int)
    requires secs >= FirstSecondOfYear0
    ensures CivilSecond(secs).date.year >= 0 && ValidDate(CivilSecond(secs).date)
    ensures InstantOf(CivilSecond(secs)) == secs * 1_000_000_000
  {
    var days := secs / 86_400;
    var sod := secs % 86_400;
    assert secs == days * 86_400 + sod;
    assert sod == sod / 3600 * 3600 + sod % 3600 / 60 * 60 + sod % 60;
    assert days + 719_528 >= 0;
  }

  /** Reading the civil fields back in UTC gives the instant itself, from year 0 on. */
  lemma CivilRoundTrip(t: Instant)
    requires t >= FirstInstantOfYear0
    ensures Civil(t).date.year >= 0
    ensures InstantOf(Civil(t)) == t
  {
    var secs := t / 1_000_000_000;
    assert t == secs * 1_000_000_000 + t % 1_000_000_000;
    CivilSecondRoundTrip(secs);
  }

  /** Nineteen layout characters followed by "Z" read as the instant of their fields in UTC. */
  lemma ParseZulu(s: string, c: DateTime)
    requires |s| == 20 && ParseLayout(s[..19]) == Some(c) && s[19..] == "Z"
    ensures Parse(s) == Some(InstantOf(c))
  {
    assert Fraction(s[19..]) == (0, "Z");
    assert c.(nanos := 0) == c;
    assert Some(InstantOf(c.(nanos := 0)) - 0 * 1_000_000_000) == Some(InstantOf(c));
  }

  /** A layout followed by "Z" parses to the instant of its fields in UTC. */
  lemma ParseLayoutZ(c: DateTime)
    requires ValidDate(c.date) && 0 <= c.date.year <= 9999
    requires 0 <= c.hour < 24 && 0 <= c.minute < 60 && 0 <= c.second < 60
    ensures Parse(Layout(c) + "Z") == Some(InstantOf(c.(nanos := 0)))
  {
    ParseLayoutOfLayout(c);
    var s := Layout(c) + "Z";
    assert s[..19] == Layout(c);
    assert s[19..] == "Z";
    ParseZulu(s, c.(nanos := 0));
  }

  /** The layout of a whole second of years 0 to 9999, with the "Z" zone, reads back as that second. */
  lemma ParseLayoutOfSecond(secs: int)
    requires secs >= FirstSecondOfYear0 && CivilSecond(secs).date.year <= 9999
    ensures Parse(Layout(CivilSecond(secs)) + "Z") == Some(secs * 1_000_000_000)
  {
    var c := CivilSecond(secs);
    CivilSecondRoundTrip(secs);
    assert c.(nanos := 0) == c;
    ParseLayoutZ(c);
  }

  /** The instant at the start of the second holding `t`. */
  function WholeSecond(t: Instant): Instant {
    t - t % 1_000_000_000
  }

  /** The whole second of an instant, and what it keeps of the instant. */
  lemma WholeSecondParts(t: Instant)
    ensures Some((t / 1_000_000_000) * 1_000_000_000) == Some(WholeSecond(t))
    ensures t >= FirstInstantOfYear0 ==> t / 1_000_000_000 >= FirstSecondOfYear0
    ensures CivilSecond(t / 1_000_000_000).date == Civil(t).date
  {
  }

  lemma ParseFormatOfSecond(t: Instant)
    requires t / 1_000_000_000 >= FirstSecondOfYear0 && CivilSecond(t / 1_000_000_000).date.year <= 9999
    ensures Parse(Format(t)) == Some((t / 1_000_000_000) * 1_000_000_000)
  {
    ParseLayoutOfSecond(t / 1_000_000_000);
  }

  /** Instants whose UTC year has the four digits RFC 3339 allows. */
  predicate FourDigitYear(t: Instant) {
    t >= FirstInstantOfYear0 && Civil(t).date.year <= 9999
  }

  /** What Format writes, Parse reads back as the instant truncated to its second, for years 0 to 9999. */
  lemma ParseFormat(t: Instant)
    requires FourDigitYear(t)
    ensures Parse(Format(t)) == Some(WholeSecond(t))
  {
    WholeSecondParts(t);
    ParseFormatOfSecond(t);
  }
}
