/** JavaScript's `Math.round` and `Math.min` on exact rationals. */
module JsMath {

  /**
   * `Math.round(n / d)` for d > 0: the nearest integer, a tie going up (towards +infinity).
   * Dafny's `/` floors for a positive divisor, so floor(n/d + 1/2) == (2n + d) / (2d).
   */
  function RoundDiv(n: int, d: int): (r: int)
    requires d > 0
    ensures d * (2 * r - 1) <= 2 * n < d * (2 * r + 1)
  {
    var q := (2 * n + d) / (2 * d);
    var m := (2 * n + d) % (2 * d);
    assert 2 * n + d == 2 * d * q + m && 0 <= m < 2 * d;
    assert d * (2 * q - 1) == 2 * d * q - d;
    assert d * (2 * q + 1) == 2 * d * q + d;
    q
  }

  /** The bracket of RoundDiv has room for one integer only. */
  lemma RoundDivUnique(n: int, d: int, k: int)
    requires d > 0
    requires d * (2 * k - 1) <= 2 * n < d * (2 * k + 1)
    ensures RoundDiv(n, d) == k
  {
    var r := RoundDiv(n, d);
    if r < k {
      MulMono(d, 2 * r + 1, 2 * k - 1);
    } else if r > k {
      MulMono(d, 2 * k + 1, 2 * r - 1);
    }
  }

  lemma MulMono(d: int, a: int, b: int)
    requires d > 0 && a <= b
    ensures d * a <= d * b
  {
    assert d * b - d * a == d * (b - a);
  }

  /** `Math.round(100 * c / t)` for t > 0: a percentage, and it lies in [0, 100] when 0 <= c <= t. */
  function RoundPercent(c: int, t: int): (r: int)
    requires t > 0
    ensures t * (2 * r - 1) <= 200 * c < t * (2 * r + 1)
    ensures 0 <= c <= t ==> 0 <= r <= 100
    ensures c == t ==> r == 100
    ensures c == 0 ==> r == 0
  {
    PercentFacts(c, t);
    RoundDiv(100 * c, t)
  }

  lemma PercentFacts(c: int, t: int)
    requires t > 0
    ensures 0 <= c <= t ==> 0 <= RoundDiv(100 * c, t) <= 100
    ensures c == t ==> RoundDiv(100 * c, t) == 100
    ensures c == 0 ==> RoundDiv(100 * c, t) == 0
  {
    var r := RoundDiv(100 * c, t);
    if 0 <= c <= t {
      if r < 0 { MulMono(t, 2 * r + 1, -1); }
      if r > 100 { MulMono(t, 201, 2 * r - 1); MulMono(t, c, t); }
    }
    if c == t { RoundDivUnique(100 * c, t, 100); }
    if c == 0 { RoundDivUnique(0, t, 0); }
  }

  /** `k` is `Math.round(n / d)` for a divisor of either sign. */
  ghost predicate RoundsTo(n: int, d: int, k: int)
  {
    if d > 0 then d * (2 * k - 1) <= 2 * n < d * (2 * k + 1)
    else if d < 0 then -d * (2 * k - 1) <= -2 * n < -d * (2 * k + 1)
    else false
  }

  /** `Math.round(n / d) >= k` for a divisor of either sign. */
  ghost predicate RoundsAtLeast(n: int, d: int, k: int)
  {
    if d > 0 then 2 * n >= d * (2 * k - 1)
    else if d < 0 then -2 * n >= -d * (2 * k - 1)
    else false
  }

  /** RoundDiv reaches `k` exactly when n/d >= k - 1/2. */
  lemma RoundDivAtLeast(n: int, d: int, k: int)
    requires d > 0
    ensures RoundDiv(n, d) >= k <==> 2 * n >= d * (2 * k - 1)
  {
    var r := RoundDiv(n, d);
    if r >= k {
      MulMono(d, 2 * k - 1, 2 * r - 1);
    } else {
      MulMono(d, 2 * r + 1, 2 * k - 1);
    }
  }

  /** `Math.min(a, b)` */
  function Min(a: int, b: int): (r: int)
    ensures r <= a && r <= b && (r == a || r == b)
  {
    if a <= b then a else b
  }
}
