/**
 * Calendar dates as Python's proleptic Gregorian ordinals
 * (`date.toordinal()`, 0001-01-01 is day 1), the validity check `strptime`
 * applies to a month/day/year triple, the inverse `date.fromordinal`, and
 * the zero-padded `%Y%m%d` rendering used in standardized file names.
 * Timedelta arithmetic is integer arithmetic on ordinals.
 */
module Dates {
  import opened Wrappers
  import opened Text

  datatype Ymd = Ymd(year: int, month: int, day: int)

  /** `date.max.toordinal()`: 9999-12-31. */
  const MaxOrdinal: int := 3652059

  predicate IsLeap(y: int) {
    y % 4 == 0 && (y % 100 != 0 || y % 400 == 0)
  }

  function DaysInMonth(y: int, m: int): int {
    if m == 2 then (if IsLeap(y) then 29 else 28)
    else if m == 4 || m == 6 || m == 9 || m == 11 then 30
    else 31
  }

  /** What `datetime(year, month, day)` accepts. */
  predicate Valid(d: Ymd) {
    1 <= d.year <= 9999 && 1 <= d.month <= 12 && 1 <= d.day <= DaysInMonth(d.year, d.month)
  }

  /** Days in the years before `y`. */
  function DaysBeforeYear(y: int): int
    requires y >= 1
  {
    var y1 := y - 1;
    365 * y1 + y1 / 4 - y1 / 100 + y1 / 400
  }

  /** Days in the months of year `y` before month `m`; month 13 stands for the whole year. */
  function DaysBeforeMonth(y: int, m: int): int
    requires 1 <= m <= 13
  {
    var base :=
      if m == 1 then 0 else if m == 2 then 31 else if m == 3 then 59
      else if m == 4 then 90 else if m == 5 then 120 else if m == 6 then 151
      else if m == 7 then 181 else if m == 8 then 212 else if m == 9 then 243
      else if m == 10 then 273 else if m == 11 then 304 else if m == 12 then 334
      else 365;
    if m > 2 && IsLeap(y) then base + 1 else base
  }

  /** `date(y, m, d).toordinal()`. */
  function Ordinal(d: Ymd): int
    requires Valid(d)
  {
    DaysBeforeYear(d.year) + DaysBeforeMonth(d.year, d.month) + d.day
  }

  /** `datetime.strptime` of a month/day/year triple: the ordinal, or ValueError. */
  function FromMdy(month: int, day: int, year: int): (r: Result<int>)
    ensures r.Ok? <==> Valid(Ymd(year, month, day))
    ensures r.Ok? ==> r.value == Ordinal(Ymd(year, month, day))
  {
    var d := Ymd(year, month, day);
    if Valid(d) then Ok(Ordinal(d)) else Err(ValueError)
  }

  /** A year has 366 days when it is a leap year and 365 otherwise. */
  lemma DaysBeforeYearStep(y: int)
    requires y >= 1
    ensures DaysBeforeYear(y + 1) == DaysBeforeYear(y) + DaysBeforeMonth(y, 13)
  {
    QuotientStep4(y);
    QuotientStep100(y);
    QuotientStep400(y);
    DivisorChain(y);
    var leap := if IsLeap(y) then 1 else 0;
    assert y / 4 - (y - 1) / 4 - (y / 100 - (y - 1) / 100) + (y / 400 - (y - 1) / 400) == leap;
  }

  /** A multiple of 400 is one of 100, and a multiple of 100 is one of 4. */
  lemma DivisorChain(y: int)
    ensures y % 400 == 0 ==> y % 100 == 0
    ensures y % 100 == 0 ==> y % 4 == 0
  {
    if y % 400 == 0 {
      Multiple100(y, 4 * (y / 400));
    }
    if y % 100 == 0 {
      Multiple4(y, 25 * (y / 100));
    }
  }

  lemma Multiple100(y: int, q: int)
    requires y == 100 * q
    ensures y % 100 == 0
  {
  }

  lemma Multiple4(y: int, q: int)
    requires y == 4 * q
    ensures y % 4 == 0
  {
  }

  /** Counting the multiples of 4, 100 and 400 up to `y` instead of `y - 1`. */
  lemma QuotientStep4(y: int)
    ensures y / 4 == (y - 1) / 4 + (if y % 4 == 0 then 1 else 0)
  {
  }

  lemma QuotientStep100(y: int)
    ensures y / 100 == (y - 1) / 100 + (if y % 100 == 0 then 1 else 0)
  {
  }

  lemma QuotientStep400(y: int)
    ensures y / 400 == (y - 1) / 400 + (if y % 400 == 0 then 1 else 0)
  {
  }

  lemma MonthStep(y: int, m: int)
    requires 1 <= m <= 12
    ensures DaysBeforeMonth(y, m + 1) == DaysBeforeMonth(y, m) + DaysInMonth(y, m)
  {
  }

  lemma {:induction false} DaysBeforeYearMonotone(a: int, b: int)
    requires 1 <= a <= b
    ensures DaysBeforeYear(a) + 365 * (b - a) <= DaysBeforeYear(b)
    decreases b - a
  {
    if a < b {
      DaysBeforeYearStep(a);
      DaysBeforeYearMonotone(a + 1, b);
    }
  }

  /** Every day of a year comes before every day of any later year. */
  lemma EarlierYearEarlierDay(a: Ymd, b: Ymd)
    requires Valid(a) && Valid(b) && a.year < b.year
    ensures Ordinal(a) < Ordinal(b)
  {
    MonthStep(a.year, a.month);
    assert DaysBeforeMonth(a.year, a.month) + a.day <= DaysBeforeMonth(a.year, 13);
    DaysBeforeYearStep(a.year);
    DaysBeforeYearMonotone(a.year + 1, b.year);
  }

  /** The year holding ordinal `n`, searched upward from `y`. */
  function YearFrom(n: int, y: int): (r: int)
    requires y >= 1 && DaysBeforeYear(y) < n
    ensures r >= y && DaysBeforeYear(r) < n <= DaysBeforeYear(r + 1)
    decreases n - DaysBeforeYear(y)
  {
    DaysBeforeYearStep(y);
    if n <= DaysBeforeYear(y + 1) then y else YearFrom(n, y + 1)
  }

  /** The month holding day-of-year `doy`, searched upward from `m`. */
  function MonthFrom(y: int, doy: int, m: int): (r: int)
    requires 1 <= m <= 12 && DaysBeforeMonth(y, m) < doy <= DaysBeforeMonth(y, 13)
    ensures m <= r <= 12 && DaysBeforeMonth(y, r) < doy <= DaysBeforeMonth(y, r + 1)
    decreases 13 - m
  {
    if doy <= DaysBeforeMonth(y, m + 1) then m else MonthFrom(y, doy, m + 1)
  }

  lemma YearBound(n: int, y: int)
    requires y >= 1 && DaysBeforeYear(y) < n <= MaxOrdinal
    ensures y <= 9999
  {
    if y > 9999 {
      DaysBeforeYearMonotone(10000, y);
    }
  }

  /** `date.fromordinal(n)`: a valid date whose ordinal is `n`. */
  function FromOrdinal(n: int): (d: Ymd)
    requires 1 <= n <= MaxOrdinal
    ensures Valid(d) && Ordinal(d) == n
  {
    var y := YearFrom(n, 1);
    DaysBeforeYearStep(y);
    YearBound(n, y);
    var doy := n - DaysBeforeYear(y);
    var m := MonthFrom(y, doy, 1);
    MonthStep(y, m);
    Ymd(y, m, doy - DaysBeforeMonth(y, m))
  }

  // ---------------------------------------------------------------------
  // %Y%m%d
  // ---------------------------------------------------------------------

  function Pow10(w: nat): nat {
    if w == 0 then 1 else 10 * Pow10(w - 1)
  }

  function DigitChar(k: int): char
    requires 0 <= k <= 9
  {
    ('0' as int + k) as char
  }

  /** `n` written with exactly `w` digits, zero-padded on the left (the low `w` digits). */
  function Digits(n: nat, w: nat): (s: string)
    ensures |s| == w
    ensures forall i :: 0 <= i < |s| ==> IsDigit(s[i])
  {
    if w == 0 then [] else Digits(n / 10, w - 1) + [DigitChar(n % 10)]
  }

  /** Reading back a zero-padded number gives the number, when it fits the width. */
  lemma {:induction false} DigitsRoundTrip(n: nat, w: nat)
    requires n < Pow10(w)
    ensures DigitsValue(Digits(n, w)) == n
  {
    if w > 0 {
      var s := Digits(n, w);
      assert s[..|s| - 1] == Digits(n / 10, w - 1);
      DigitsRoundTrip(n / 10, w - 1);
    }
  }

  /** `strftime("%Y%m%d")` of a valid date. */
  function Yyyymmdd(d: Ymd): (s: string)
    requires Valid(d)
    ensures |s| == 8
    ensures forall i :: 0 <= i < 8 ==> IsDigit(s[i])
  {
    Digits(d.year, 4) + Digits(d.month, 2) + Digits(d.day, 2)
  }

  /** Reads a `%Y%m%d` string back into its fields. */
  function ParseYyyymmdd(s: string): Ymd
    requires |s| == 8 && forall i :: 0 <= i < 8 ==> IsDigit(s[i])
  {
    Ymd(DigitsValue(s[..4]), DigitsValue(s[4..6]), DigitsValue(s[6..]))
  }

  /** The eight digits determine the date. */
  lemma YyyymmddRoundTrip(d: Ymd)
    requires Valid(d)
    ensures ParseYyyymmdd(Yyyymmdd(d)) == d
  {
    var y, m, dd := Digits(d.year, 4), Digits(d.month, 2), Digits(d.day, 2);
    var s := Yyyymmdd(d);
    assert s == y + m + dd;
    assert s[..4] == y;
    assert s[4..6] == m;
    assert s[6..] == dd;
    assert Pow10(4) == 10000 && Pow10(2) == 100;
    DigitsRoundTrip(d.year, 4);
    DigitsRoundTrip(d.month, 2);
    DigitsRoundTrip(d.day, 2);
  }

  /** `strptime(s, "%Y%m%d")` on eight digits: the ordinal of the date they spell, if valid. */
  function FromYyyymmdd(s: string): (r: Option<int>)
    ensures r.Some? ==> 1 <= r.value <= MaxOrdinal
  {
    if |s| == 8 && (forall i :: 0 <= i < 8 ==> IsDigit(s[i])) && Valid(ParseYyyymmdd(s)) then
      var d := ParseYyyymmdd(s);
      OrdinalBound(d);
      Some(Ordinal(d))
    else None
  }

  /** Every valid date's ordinal lies in `1..MaxOrdinal`. */
  lemma OrdinalBound(d: Ymd)
    requires Valid(d)
    ensures 1 <= Ordinal(d) <= MaxOrdinal
  {
    if d.year < 9999 {
      EarlierYearEarlierDay(d, Ymd(9999, 12, 31));
    }
  }

  /** The `%Y%m%d` rendering of an ordinal reads back as that ordinal. */
  lemma OrdinalRoundTrip(n: int)
    requires 1 <= n <= MaxOrdinal
    ensures FromYyyymmdd(Yyyymmdd(FromOrdinal(n))) == Some(n)
  {
    YyyymmddRoundTrip(FromOrdinal(n));
  }
}
