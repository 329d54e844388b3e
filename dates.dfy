/**
 * Dates as day ordinals (day 1 is 0001-01-01 of the proleptic Gregorian
 * calendar, as Python's `date.toordinal()` counts them) and `as_date`, the
 * coercion from a date or a (year, month, day) tuple.
 */
module Dates {
  import opened Wrappers

  const MIN_YEAR: int := 1
  const MAX_YEAR: int := 9999
  /** The ordinal of 9999-12-31, the last date Python's `datetime.date` can hold. */
  const MAX_ORDINAL: int := 3652059

  /** A calendar date, held as its ordinal. */
  type Day = n: int | 1 <= n <= MAX_ORDINAL witness 1

  predicate IsLeap(y: int) {
    y % 4 == 0 && (y % 100 != 0 || y % 400 == 0)
  }

  function DaysInMonth(y: int, m: int): int
    requires 1 <= m <= 12
  {
    if m == 2 then (if IsLeap(y) then 29 else 28)
    else if m == 4 || m == 6 || m == 9 || m == 11 then 30
    else 31
  }

  function DaysInYear(y: int): int {
    if IsLeap(y) then 366 else 365
  }

  function DaysBeforeYear(y: int): int {
    var p := y - 1;
    p * 365 + p / 4 - p / 100 + p / 400
  }

  function DaysBeforeMonth(y: int, m: int): (r: int)
    requires 1 <= m <= 12
    ensures 0 <= r && r + DaysInMonth(y, m) <= DaysInYear(y)
  {
    [0, 31, 59, 90, 120, 151, 181, 212, 243, 273, 304, 334][m - 1]
      + (if m > 2 && IsLeap(y) then 1 else 0)
  }

  predicate ValidDate(y: int, m: int, d: int) {
    MIN_YEAR <= y <= MAX_YEAR && 1 <= m <= 12 && 1 <= d <= DaysInMonth(y, m)
  }

  lemma YearStep(y: int)
    requires MIN_YEAR <= y
    ensures DaysBeforeYear(y + 1) == DaysBeforeYear(y) + DaysInYear(y)
  {
    DivStep(y, 4);
    DivStep(y, 100);
    DivStep(y, 400);
    if y % 400 == 0 {
      MultipleOfFactor(y, 100, 4);
    }
    if y % 100 == 0 {
      MultipleOfFactor(y, 4, 25);
    }
  }

  /** Moving from `y - 1` to `y` raises the quotient by `k` exactly when `y` is a multiple of `k`. */
  lemma DivStep(y: int, k: int)
    requires 0 < k
    ensures y / k == (y - 1) / k + (if y % k == 0 then 1 else 0)
  {
    var q, r := y / k, y % k;
    if r == 0 {
      DivUnique(y - 1, k, q - 1, k - 1);
    } else {
      DivUnique(y - 1, k, q, r - 1);
    }
  }

  lemma DivUnique(a: int, k: int, q: int, r: int)
    requires 0 < k && a == k * q + r && 0 <= r < k
    ensures a / k == q && a % k == r
  {
    var q', r' := a / k, a % k;
    assert k * q' + r' == a;
    if q' < q {
      assert k * (q - q') == k * q - k * q';
      MulAtLeast(k, q - q');
    } else if q < q' {
      assert k * (q' - q) == k * q' - k * q;
      MulAtLeast(k, q' - q);
    }
  }

  lemma {:induction false} MulAtLeast(k: int, d: int)
    requires 0 < k && 1 <= d
    ensures k <= k * d
    decreases d
  {
    if d > 1 {
      MulAtLeast(k, d - 1);
      assert k * d == k * (d - 1) + k;
    }
  }

  /** A multiple of `a * b` is a multiple of `a`. */
  lemma MultipleOfFactor(y: int, a: int, b: int)
    requires 0 < a && 0 < b && y % (a * b) == 0
    ensures y % a == 0
  {
    var q := y / (a * b);
    assert y == (a * b) * q;
    assert y == a * (b * q);
    DivUnique(y, a, b * q, 0);
  }

  /** The first day of every year lies inside the representable range. */
  lemma {:induction false} DaysBeforeYearBounds(y: int)
    requires MIN_YEAR <= y <= MAX_YEAR
    ensures 0 <= DaysBeforeYear(y)
    ensures DaysBeforeYear(y) + DaysInYear(y) <= MAX_ORDINAL
    decreases MAX_YEAR - y
  {
    if y < MAX_YEAR {
      DaysBeforeYearBounds(y + 1);
      YearStep(y);
    }
  }

  /** `date(y, m, d).toordinal()`: every valid calendar date has an ordinal in range. */
  function Ordinal(y: int, m: int, d: int): (r: Day)
    requires ValidDate(y, m, d)
    ensures r == DaysBeforeYear(y) + DaysBeforeMonth(y, m) + d
  {
    DaysBeforeYearBounds(y);
    DaysBeforeYear(y) + DaysBeforeMonth(y, m) + d
  }

  /** The Python values the chart accepts where a date is expected. */
  datatype DateInput =
    | DateValue(day: Day)           // a `datetime.date`
    | DateTuple(fields: seq<int>)   // a tuple, unpacked into `datetime.date(*d)`
    | OtherValue                    // anything else

  /** Exceptions the `datetime` library itself raises; none of them is caught by the chart code. */
  datatype DateFault =
    | ArgumentCount   // TypeError: a tuple that is not (year, month, day)
    | NotInCalendar   // ValueError: no such calendar date
    | OutOfRange      // OverflowError: date arithmetic left years 1..9999

  datatype DateError =
    | InvalidDate              // `InvalidDateError` raised by `as_date`
    | Library(fault: DateFault)

  /** `as_date`: a date is kept, a tuple is turned into a date, anything else is refused. */
  function AsDate(d: DateInput): (r: Result<Day, DateError>)
    ensures r == Failure(InvalidDate) <==> d.OtherValue?
    ensures d.DateValue? ==> r == Success(d.day)
    ensures d.DateTuple? && |d.fields| != 3 ==> r == Failure(Library(ArgumentCount))
    ensures d.DateTuple? && |d.fields| == 3 ==>
              if ValidDate(d.fields[0], d.fields[1], d.fields[2])
              then r == Success(Ordinal(d.fields[0], d.fields[1], d.fields[2]))
              else r == Failure(Library(NotInCalendar))
  {
    match d
    case DateValue(day) => Success(day)
    case DateTuple(f) =>
      if |f| != 3 then Failure(Library(ArgumentCount))
      else if ValidDate(f[0], f[1], f[2]) then Success(Ordinal(f[0], f[1], f[2]))
      else Failure(Library(NotInCalendar))
    case OtherValue => Failure(InvalidDate)
  }

  /** `start + timedelta(days=n)`, which overflows outside the calendar's range. */
  function AddDays(start: Day, n: int): (r: Result<Day, DateError>)
    ensures r.Success? <==> 1 <= start + n <= MAX_ORDINAL
    ensures r.Success? ==> r.value - start == n
    ensures r.Failure? ==> r.error == Library(OutOfRange)
  {
    if 1 <= start + n <= MAX_ORDINAL then Success(start + n) else Failure(Library(OutOfRange))
  }

  /** The last representable day is 9999-12-31. */
  lemma MaxOrdinalIsLastDay()
    ensures ValidDate(9999, 12, 31) && Ordinal(9999, 12, 31) == MAX_ORDINAL
  {
  }

  /** Consecutive days of a month have consecutive ordinals, and a month runs into the next. */
  lemma OrdinalNextDay(y: int, m: int, d: int)
    requires ValidDate(y, m, d)
    ensures d < DaysInMonth(y, m) ==> ValidDate(y, m, d + 1) && Ordinal(y, m, d + 1) == Ordinal(y, m, d) + 1
    ensures d == DaysInMonth(y, m) && m < 12 ==> ValidDate(y, m + 1, 1) && Ordinal(y, m + 1, 1) == Ordinal(y, m, d) + 1
    ensures d == 31 && m == 12 && y < MAX_YEAR ==> ValidDate(y + 1, 1, 1) && Ordinal(y + 1, 1, 1) == Ordinal(y, m, d) + 1
  {
    if d == 31 && m == 12 && y < MAX_YEAR {
      YearStep(y);
    }
  }
}
