/** `Math.round((count / total) * 100)`, as the results page and the result meter compute it. */
module Percent {

  /**
   * The share count/total as a whole percentage rounded half up, or 0 when there is
   * nothing to divide by. The second ensures says r = floor(100 * count / total + 1/2).
   */
  function RoundedPercent(count: nat, total: nat): (r: nat)
    ensures total == 0 ==> r == 0
    ensures total > 0 ==> 2 * total * r <= 200 * count + total < 2 * total * (r + 1)
    ensures count <= total ==> r <= 100
  {
    if total > 0 then
      var d := 2 * total;
      var q := (200 * count + total) / d;
      assert d * q <= 200 * count + total < d * (q + 1);
      assert count <= total ==> q <= 100 by {
        if count <= total && q > 100 {
          MulMonotone(d, 101, q);
        }
      }
      q
    else 0
  }

  /** The rounding bounds determine the percentage: any r within them is the result. */
  lemma RoundedPercentIs(count: nat, total: nat, r: nat)
    requires total > 0 && 2 * total * r <= 200 * count + total < 2 * total * (r + 1)
    ensures RoundedPercent(count, total) == r
  {
    var q := RoundedPercent(count, total);
    var d := 2 * total;
    if q < r {
      MulMonotone(d, q + 1, r);
    } else if r < q {
      MulMonotone(d, r + 1, q);
    }
  }

  lemma MulMonotone(d: nat, a: nat, b: nat)
    requires a <= b
    ensures d * a <= d * b
  {
  }
}
