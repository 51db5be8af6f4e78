/**
 * Rounded quotients. The server computes a grade's percentage as
 * `Math.round((grade / totalMarks) * 100)` and report averages as
 * `Math.round(sum / count)`. Here both are computed exactly on integers:
 * `Math.round(x)` is `floor(x + 1/2)`, the nearest integer with halves
 * rounded up, so `Math.round(a / b)` for `b > 0` is `floor((2a + b) / (2b))`.
 */
module Numbers {

  /** `Math.round(a / b)` for a positive divisor: the integer within one half
      of `a / b`, halves going up. */
  function RoundDiv(a: int, b: int): (r: int)
    requires b > 0
    ensures 2 * a - b < 2 * b * r <= 2 * a + b
  {
    var q := (2 * a + b) / (2 * b);
    assert (2 * a + b) == (2 * b) * q + (2 * a + b) % (2 * b);
    q
  }

  /** A grade's percentage of the assessment's total marks. */
  function Percent(grade: int, totalMarks: int): (p: int)
    requires totalMarks > 0
    ensures 200 * grade - totalMarks < 2 * totalMarks * p <= 200 * grade + totalMarks
  {
    RoundDiv(100 * grade, totalMarks)
  }

  /** A positive multiple of at least one step is at least one step. */
  lemma {:induction false} MulAtLeast(c: nat, k: int)
    requires k >= 1
    ensures c * k >= c
    decreases k
  {
    if k > 1 {
      MulAtLeast(c, k - 1);
      assert c * k == c * (k - 1) + c;
    }
  }

  /** The rounded quotient is the only integer within one half of `a / b`. */
  lemma RoundDivUnique(a: int, b: int, r: int)
    requires b > 0
    requires 2 * a - b < 2 * b * r <= 2 * a + b
    ensures r == RoundDiv(a, b)
  {
    var q := RoundDiv(a, b);
    var w := 2 * b;
    if r < q {
      assert w * (q - r) == w * q - w * r;
      MulAtLeast(w, q - r);
    } else if r > q {
      assert w * (r - q) == w * r - w * q;
      MulAtLeast(w, r - q);
    }
  }

  /** A quotient that lies between two bounds rounds to a value between them. */
  lemma RoundDivBetween(a: int, b: int, lo: int, hi: int)
    requires b > 0
    requires lo * b <= a <= hi * b
    ensures lo <= RoundDiv(a, b) <= hi
  {
    var r := RoundDiv(a, b);
    var w := 2 * b;
    if r < lo {
      assert w * (lo - r) == w * lo - w * r;
      assert w * lo == 2 * (lo * b);
      MulAtLeast(w, lo - r);
    }
    if r > hi {
      assert w * (r - hi) == w * r - w * hi;
      assert w * hi == 2 * (hi * b);
      MulAtLeast(w, r - hi);
    }
  }

  /** A mark between zero and the total is a percentage between 0 and 100. */
  lemma PercentInRange(grade: int, totalMarks: int)
    requires totalMarks > 0
    requires 0 <= grade <= totalMarks
    ensures 0 <= Percent(grade, totalMarks) <= 100
  {
    RoundDivBetween(100 * grade, totalMarks, 0, 100);
  }

  /** Marks out of 100 are their own percentage (85 of 100 is 85%). */
  lemma PercentOfHundred(grade: int)
    ensures Percent(grade, 100) == grade
  {
    RoundDivUnique(100 * grade, 100, grade);
  }
}
