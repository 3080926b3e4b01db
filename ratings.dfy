/**
 * Average ratings and the grade classification of the ratings report.
 *
 * A rating average is kept as an integer number of hundredths: the value
 * `ROUND(AVG(rating), 2)` is represented by `100 * ROUND(AVG(rating), 2)`,
 * so the grade thresholds 4.1, 3, 2 and 1 become 410, 300, 200 and 100.
 * `ROUND` on an exact `numeric` value is taken to round a half away from
 * zero, as PostgreSQL and MySQL both do.
 */
module Ratings {

  /** The integer nearest to n / d, a half rounded away from zero. */
  function RoundDiv(n: int, d: int): (r: int)
    requires d > 0
    ensures n >= 0 ==> -d <= 2 * (n - r * d) < d
    ensures n < 0 ==> -d < 2 * (n - r * d) <= d
  {
    if n >= 0 then
      var q := (2 * n + d) / (2 * d);
      assert 2 * n + d == q * (2 * d) + (2 * n + d) % (2 * d);
      assert q * (2 * d) == 2 * (q * d);
      q
    else
      var q := (2 * -n + d) / (2 * d);
      assert 2 * -n + d == q * (2 * d) + (2 * -n + d) % (2 * d);
      assert q * (2 * d) == 2 * (q * d);
      assert (-q) * d == -(q * d);
      -q
  }

  /** `ROUND(AVG(x), 2)` of `count` values summing to `sum`, in hundredths. */
  function AverageHundredths(sum: int, count: nat): int
    requires count > 0
  {
    RoundDiv(100 * sum, count)
  }

  /** Rounding cannot leave an interval with integer end points that holds the exact quotient. */
  lemma RoundDivWithin(n: int, d: int, lo: int, hi: int)
    requires d > 0
    requires lo * d <= n <= hi * d
    ensures lo <= RoundDiv(n, d) <= hi
  {
    var r := RoundDiv(n, d);
    assert -d <= 2 * (n - r * d) <= d;
    if r > hi {
      assert (hi + 1) * d == hi * d + d;
      MulMonotone(hi + 1, r, d);
    }
    if r < lo {
      assert (lo - 1) * d == lo * d - d;
      MulMonotone(r, lo - 1, d);
    }
  }

  lemma MulMonotone(a: int, b: int, d: int)
    requires a <= b && d > 0
    ensures a * d <= b * d
  {
    assert b * d - a * d == (b - a) * d;
  }

  /** An average of values that all lie between lo and hi lies between 100 * lo and 100 * hi hundredths. */
  lemma AverageWithin(sum: int, count: nat, lo: int, hi: int)
    requires count > 0
    requires lo * count <= sum <= hi * count
    ensures 100 * lo <= AverageHundredths(sum, count) <= 100 * hi
  {
    assert (100 * lo) * count == 100 * (lo * count);
    assert (100 * hi) * count == 100 * (hi * count);
    RoundDivWithin(100 * sum, count, 100 * lo, 100 * hi);
  }

  datatype Grade = Great | Good | Average | Poor | NoRating

  /** The text the report puts in its `grade` column. */
  function Label(g: Grade): string {
    match g
    case Great => "Great"
    case Good => "Good"
    case Average => "Average"
    case Poor => "Poor"
    case NoRating => "No Rating"
  }

  /**
   * The report's CASE expression on a rating in hundredths, first matching
   * branch wins. The four bands cover 1.00 to 5.00 without a gap, so
   * "No Rating" is exactly what lies outside that interval.
   */
  function GradeOf(rating: int): (g: Grade)
    ensures g == NoRating <==> rating < 100 || rating > 500
  {
    if 410 <= rating <= 500 then Great
    else if 300 <= rating < 410 then Good
    else if 200 <= rating < 300 then Average
    else if 100 <= rating < 200 then Poor
    else NoRating
  }

  /** The position of a grade from worst to best. */
  function Rank(g: Grade): nat {
    match g
    case NoRating => 0
    case Poor => 1
    case Average => 2
    case Good => 3
    case Great => 4
  }

  /** Within the graded interval a higher rating never gets a worse grade. */
  lemma GradeMonotone(a: int, b: int)
    requires 100 <= a <= b <= 500
    ensures Rank(GradeOf(a)) <= Rank(GradeOf(b))
  {
  }

  /** The boundaries of the five bands, written out. */
  lemma GradeBoundaries()
    ensures GradeOf(500) == Great && GradeOf(501) == NoRating
    ensures GradeOf(410) == Great && GradeOf(409) == Good
    ensures GradeOf(300) == Good && GradeOf(299) == Average
    ensures GradeOf(200) == Average && GradeOf(199) == Poor
    ensures GradeOf(100) == Poor && GradeOf(99) == NoRating
    ensures GradeOf(0) == NoRating
  {
  }

  /** An average of ratings on the 1 to 5 scale always earns a real grade. */
  lemma {:induction false} ValidAverageIsGraded(sum: int, count: nat)
    requires count > 0
    requires count <= sum <= 5 * count
    ensures GradeOf(AverageHundredths(sum, count)) != NoRating
  {
    AverageWithin(sum, count, 1, 5);
  }
}
