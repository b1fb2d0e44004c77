/** A range of instants.  Instants are whole milliseconds since the epoch,
    as `Date.getTime()` reports them. */
module DateRanges {
  import opened Wrappers

  datatype DateRange = DateRange(from: int, to: int)

  /** 1000 * 60 * 60 and 1000 * 60 * 60 * 24 milliseconds. */
  const MsPerHour: int := 3600000
  const MsPerDay: int := 86400000

  /** What a `ValueObjectValidationError` lists as its sub-errors on a
      refused range: the `InvalidDateRangeError` class itself, not an
      instance, so that class's own message is never produced. */
  datatype SubError = InvalidDateRangeErrorClass

  /** `ValueObjectValidationError`: its code, its message and its
      sub-errors. */
  datatype ValidationError = ValidationError(code: string, message: string, subErrors: seq<SubError>)

  const ValidationCode: string := "VALUE_OBJECT_VALIDATION_ERROR"
  const ValidationMessage: string := "Value Object validation error"

  /** `DateRange.create`: refused exactly when `from` is after `to`, so an
      empty range (from == to) is accepted; a refusal is the generic
      validation error wrapping the one date-range sub-error. */
  function Create(from: int, to: int): (r: Result<DateRange, ValidationError>)
    ensures r.Success? <==> from <= to
    ensures r.Success? ==> r.value.from == from && r.value.to == to
    ensures r.Failure? ==> r.error.code == ValidationCode
                           && r.error.message == ValidationMessage
                           && r.error.subErrors == [InvalidDateRangeErrorClass]
  {
    if from > to then Failure(ValidationError(ValidationCode, ValidationMessage, [InvalidDateRangeErrorClass]))
    else Success(DateRange(from, to))
  }

  /** `t` lies in `r`, both ends included. */
  predicate InRange(r: DateRange, t: int) {
    r.from <= t <= r.to
  }

  /** `contains`: `other` starts no earlier and ends no later than `r`. */
  predicate Contains(r: DateRange, other: DateRange) {
    r.from <= other.from && r.to >= other.to
  }

  /** `overlaps`: strict on both sides, so ranges that only touch do not
      overlap. */
  predicate Overlaps(r: DateRange, other: DateRange) {
    r.from < other.to && r.to > other.from
  }

  /** For a non-empty `other`, containment is inclusion of the instants. */
  lemma ContainsIsInclusion(r: DateRange, other: DateRange)
    requires other.from <= other.to
    ensures Contains(r, other) <==> forall t :: InRange(other, t) ==> InRange(r, t)
  {
    if forall t :: InRange(other, t) ==> InRange(r, t) {
      assert InRange(other, other.from);
      assert InRange(other, other.to);
    }
  }

  /** Two non-empty ranges overlap exactly when their intersection has
      positive length. */
  lemma OverlapsIffPositiveIntersection(a: DateRange, b: DateRange)
    requires a.from < a.to && b.from < b.to
    ensures Overlaps(a, b) <==> Max(a.from, b.from) < Min(a.to, b.to)
  {
  }

  function Max(x: int, y: int): int { if x < y then y else x }
  function Min(x: int, y: int): int { if x < y then x else y }

  /** Every range contains itself, and containment composes. */
  lemma ContainsReflexiveTransitive(a: DateRange, b: DateRange, c: DateRange)
    ensures Contains(a, a)
    ensures Contains(a, b) && Contains(b, c) ==> Contains(a, c)
  {
  }

  /** Overlapping does not depend on the order of the two ranges. */
  lemma OverlapsSymmetric(a: DateRange, b: DateRange)
    ensures Overlaps(a, b) <==> Overlaps(b, a)
  {
  }

  /** A range ending where the next begins does not overlap it; a range
      ending inside the next one does. */
  lemma AdjacentAndPartialRanges(a: DateRange, b: DateRange)
    requires a.from < a.to && b.from < b.to
    ensures a.to == b.from ==> !Overlaps(a, b)
    ensures a.from < b.from < a.to < b.to ==> Overlaps(a, b)
  {
  }

  /** The unit test scenarios, with dates in UTC milliseconds. */
  lemma UnitTestScenarios()
    // 01-01..01-10 and 01-05..01-15 overlap; 01-01..01-10 and 01-11..01-20 do not.
    ensures Overlaps(DateRange(1672531200000, 1673308800000), DateRange(1672876800000, 1673740800000))
    ensures !Overlaps(DateRange(1672531200000, 1673308800000), DateRange(1673395200000, 1674172800000))
    // 10:00..12:00 overlaps 11:00..13:00 but not 12:00..13:00.
    ensures Overlaps(DateRange(1672567200000, 1672574400000), DateRange(1672570800000, 1672578000000))
    ensures !Overlaps(DateRange(1672567200000, 1672574400000), DateRange(1672574400000, 1672578000000))
    // 01-01..01-10 contains 01-05T10..01-07T11 but not 01-09..01-11.
    ensures Contains(DateRange(1672531200000, 1673308800000), DateRange(1672912800000, 1673089200000))
    ensures !Contains(DateRange(1672531200000, 1673308800000), DateRange(1673222400000, 1673395200000))
    // The same start and an earlier end is contained.
    ensures Contains(DateRange(1672531200000, 1673395199000), DateRange(1672531200000, 1672703999000))
  {
  }

  /** The ceiling of `n / d`, written with Euclidean division. */
  function CeilDiv(n: int, d: int): (q: int)
    requires d > 0
    ensures d * (q - 1) < n <= d * q
  {
    var m := (-n) % d;
    assert -n == d * ((-n) / d) + m && 0 <= m < d;
    var q := -((-n) / d);
    assert d * (q - 1) == d * q - d;
    q
  }

  /** The ceiling is the only integer with that property. */
  lemma CeilDivUnique(n: int, d: int, q: int)
    requires d > 0 && d * (q - 1) < n <= d * q
    ensures q == CeilDiv(n, d)
  {
    var c := CeilDiv(n, d);
    if q < c {
      assert d * q <= d * (c - 1) by { MulMonotone(d, q, c - 1); }
    } else if c < q {
      assert d * c <= d * (q - 1) by { MulMonotone(d, c, q - 1); }
    }
  }

  lemma MulMonotone(d: int, x: int, y: int)
    requires d > 0 && x <= y
    ensures d * x <= d * y
  {
    assert d * y - d * x == d * (y - x);
  }

  /** `durationInHours`: whole hours, rounded up. */
  function DurationInHours(r: DateRange): (h: int)
    ensures 3600000 * (h - 1) < r.to - r.from <= 3600000 * h
  {
    CeilDiv(r.to - r.from, MsPerHour)
  }

  /** `durationInDays`: whole days, rounded up. */
  function DurationInDays(r: DateRange): (days: int)
    ensures 86400000 * (days - 1) < r.to - r.from <= 86400000 * days
  {
    CeilDiv(r.to - r.from, MsPerDay)
  }

  /** A valid range never lasts a negative time; an empty one lasts zero
      hours and zero days, and one millisecond already counts as an hour
      and as a day. */
  lemma DurationBounds(r: DateRange)
    requires r.from <= r.to
    ensures DurationInHours(r) >= 0 && DurationInDays(r) >= 0
    ensures r.from == r.to ==> DurationInHours(r) == 0 && DurationInDays(r) == 0
    ensures r.to == r.from + 1 ==> DurationInHours(r) == 1 && DurationInDays(r) == 1
  {
  }
}
