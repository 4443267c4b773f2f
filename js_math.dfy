/** The JavaScript number arithmetic the scores use, on integers. */
module JsMath {
  import opened Wrappers

  /** A JavaScript number as far as the scores need one: an integer, or NaN from 0/0. */
  datatype JsNumber = Finite(value: int) | NaN

  function Min(a: int, b: int): (r: int)
    ensures r <= a && r <= b && (r == a || r == b)
  {
    if a <= b then a else b
  }

  /**
   * `Math.round(m / n * 100)` for n > 0, computed exactly: the percentage rounded
   * half up, (200m + n) div 2n.
   */
  function RoundPercent(m: nat, n: nat): (r: nat)
    requires n > 0
    ensures 2 * n * r <= 200 * m + n < 2 * n * r + 2 * n
    ensures m <= n ==> r <= 100
    ensures m == 0 ==> r == 0
    ensures m == n ==> r == 100
  {
    var r := (200 * m + n) / (2 * n);
    RoundPercentFacts(m, n, r);
    r
  }

  lemma MulMonotone(a: nat, b: int, c: int)
    ensures b <= c ==> a * b <= a * c
  {
  }

  lemma RoundPercentFacts(m: nat, n: nat, r: int)
    requires n > 0 && r == (200 * m + n) / (2 * n)
    ensures 2 * n * r <= 200 * m + n < 2 * n * r + 2 * n
    ensures m <= n ==> r <= 100
    ensures m == 0 ==> r == 0
    ensures m == n ==> r == 100
  {
    var d, x := 2 * n, 200 * m + n;
    assert d * r + x % d == x && 0 <= x % d < d;
    MulMonotone(d, 101, r);
    MulMonotone(d, 1, r);
    MulMonotone(d, r, 99);
  }

  /** More matched items never give a smaller rounded percentage. */
  lemma RoundPercentMonotone(m1: nat, m2: nat, n: nat)
    requires n > 0 && m1 <= m2
    ensures RoundPercent(m1, n) <= RoundPercent(m2, n)
  {
    var r1, r2 := RoundPercent(m1, n), RoundPercent(m2, n);
    MulMonotone(2 * n, r2 + 1, r1);
  }

  /** `Math.round(m / n * 100)` including n = 0, where 0/0 is NaN. */
  function Percent(m: nat, n: nat): (r: JsNumber)
    requires m <= n
    ensures n == 0 <==> r == NaN
    ensures r.Finite? ==> 0 <= r.value <= 100 && r.value == RoundPercent(m, n)
  {
    if n == 0 then NaN else Finite(RoundPercent(m, n))
  }

  /** `x || null` on a number: 0 and NaN are falsy and become null. */
  function NumberOrNull(x: JsNumber): (r: Option<int>)
    ensures r.None? <==> x == NaN || x == Finite(0)
    ensures r.Some? ==> x == Finite(r.value)
  {
    match x
    case NaN => None
    case Finite(v) => if v == 0 then None else Some(v)
  }
}
