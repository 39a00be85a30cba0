/** Values shared by every part of the dashboard: an optional value, the
    random-number primitives the generators are built on (their draws are
    inputs here), and calendar dates as day ordinals. */
module Common {

  datatype Option<T> = None | Some(value: T)

  function MinReal(a: real, b: real): real { if a <= b then a else b }

  function MaxReal(a: real, b: real): real { if a >= b then a else b }

  function MinInt(a: int, b: int): int { if a <= b then a else b }

  /** A draw of Python's `random.random()`: a real in [0, 1). */
  predicate IsUnit(u: real) { 0.0 <= u < 1.0 }

  /** Every draw of `us` is a `random.random()` value. */
  predicate AllUnit(us: seq<real>) { forall i :: 0 <= i < |us| ==> IsUnit(us[i]) }

  /** No element occurs twice. */
  predicate Distinct<T(==)>(s: seq<T>)
  {
    forall i, j :: 0 <= i < j < |s| ==> s[i] != s[j]
  }

  /** `sum(1 for x in s if key(x) == k)`: how many elements have key `k`. */
  function CountBy<T, K(==)>(s: seq<T>, key: T -> K, k: K): (n: nat)
    ensures n <= |s|
  {
    if s == [] then 0 else (if key(s[0]) == k then 1 else 0) + CountBy(s[1..], key, k)
  }

  /** Python's `random.uniform(lo, hi)` is `lo + (hi - lo) * random()`;
      `u` is that `random()` draw. */
  function Uniform(lo: real, hi: real, u: real): (r: real)
    requires lo <= hi && IsUnit(u)
    ensures lo <= r <= hi
    ensures lo < hi ==> r < hi
  {
    ScaleBounds(hi - lo, u);
    lo + Scale(hi - lo, u)
  }

  /** A width scaled by a draw, kept as one term so that the solver does
      not distribute the product over the width's own subtraction. */
  function Scale(w: real, u: real): real { w * u }

  /** Scaling a non-negative width by a unit draw stays within the width. */
  lemma ScaleBounds(w: real, u: real)
    requires w >= 0.0 && IsUnit(u)
    ensures 0.0 <= Scale(w, u) <= w
    ensures w > 0.0 ==> Scale(w, u) < w
  {
    MulNonNegative(w, u);
    assert w - w * u == w * (1.0 - u);
    MulNonNegative(w, 1.0 - u);
    if w > 0.0 {
      MulPositive(w, 1.0 - u);
    }
  }

  lemma MulNonNegative(a: real, b: real)
    requires a >= 0.0 && b >= 0.0
    ensures a * b >= 0.0
  {
  }

  lemma MulPositive(a: real, b: real)
    requires a > 0.0 && b > 0.0
    ensures a * b > 0.0
  {
  }

  /** Python's `date.weekday()` for the date whose proleptic Gregorian
      ordinal (`date.toordinal()`) is `ordinal`: 0 is Monday, 6 is Sunday. */
  function Weekday(ordinal: int): (w: int)
    ensures 0 <= w < 7
  {
    (ordinal + 6) % 7
  }

  /** The weekend test both generators use: `weekday() >= 5`. */
  predicate IsWeekend(ordinal: int) { Weekday(ordinal) >= 5 }

  /** `[start + timedelta(days=x) for x in range((end - start).days + 1)]`
      with `start = end - timedelta(days=days)`. */
  function DateRange(end: int, days: int): (r: seq<int>)
    ensures |r| == if days >= 0 then days + 1 else 0
    ensures forall i :: 0 <= i < |r| ==> r[i] == end - days + i
  {
    var start := end - days;
    var n := end - start + 1;
    if n <= 0 then [] else seq(n, i => start + i)
  }

  /** The date range is the consecutive run of dates that ends on `end`. */
  lemma DateRangeConsecutive(end: int, days: int)
    requires days >= 0
    ensures var r := DateRange(end, days);
      && r[0] == end - days && r[|r| - 1] == end
      && forall i :: 0 < i < |r| ==> r[i] == r[i - 1] + 1
  {
  }

  /** `part / total * 100`, the share of `part` as a percentage. */
  function Percent(part: int, total: int): real
    requires total > 0
  {
    part as real / total as real * 100.0
  }

  /** A part of a whole is between 0 and 100 percent of it. */
  lemma PercentBounds(part: int, total: int)
    requires 0 <= part <= total && total > 0
    ensures 0.0 <= Percent(part, total) <= 100.0
  {
    var q := part as real / total as real;
    assert q * total as real == part as real;
    if q < 0.0 {
      MulPositive(-q, total as real);
    }
    if q > 1.0 {
      MulPositive(q - 1.0, total as real);
    }
  }
}
