/** The billing page's usage percentage: used over limit as a whole
    percentage, rounded half up and capped at 100, and 0 for no limit. */
module Billing {

  /** Floor division for any non-zero divisor. */
  function FloorDiv(n: int, d: int): (q: int)
    requires d != 0
    ensures d > 0 ==> d * q <= n < d * q + d
    ensures d < 0 ==> (-d) * q <= -n < (-d) * q - d
  {
    if d > 0 then n / d else (-n) / (-d)
  }

  /** Math.round(used / limit * 100) in exact arithmetic: the floor of
      100·used/limit + 1/2, which is (200·used + limit) / (2·limit). */
  function RoundPct(used: int, limit: int): int
    requires limit != 0
  {
    FloorDiv(200 * used + limit, 2 * limit)
  }

  /** clampPct(used, limit) */
  function ClampPct(used: int, limit: int): (p: int)
    ensures limit == 0 ==> p == 0
    ensures p <= 100
  {
    if limit == 0 then 0
    else
      var r := RoundPct(used, limit);
      if r < 100 then r else 100
  }

  /** For a positive limit the result is the nearest whole percentage, a
      half rounding up; it is 100 exactly when that percentage is 100 or
      more, that is when 100·used/limit is at least 99.5. */
  lemma NearestPercent(used: int, limit: int)
    requires limit > 0
    ensures var p := ClampPct(used, limit);
      p < 100 ==> 2 * limit * p - limit <= 200 * used < 2 * limit * p + limit
    ensures ClampPct(used, limit) == 100 <==> 200 * used >= 199 * limit
  {
    var r := RoundPct(used, limit);
    var d := 2 * limit;
    assert d * r <= 200 * used + limit < d * r + d;
    if r >= 100 {
      MulMonotone(d, 100, r);
    } else {
      assert d * (r + 1) > 200 * used + limit;
      MulMonotone(d, r + 1, 100);
    }
  }

  /** A full or overfull quota shows 100, and nothing used shows 0. */
  lemma FullAndEmpty(used: int, limit: int)
    requires limit > 0
    ensures used >= limit ==> ClampPct(used, limit) == 100
    ensures ClampPct(0, limit) == 0
  {
    if used >= limit {
      var r := RoundPct(used, limit);
      assert 2 * limit * r + 2 * limit > 200 * used + limit >= 200 * limit + limit;
      assert 2 * limit * (r + 1) > 2 * limit * 100;
      MulCancel(2 * limit, r + 1, 100);
    }
    var z := RoundPct(0, limit);
    assert 2 * limit * z <= limit < 2 * limit * z + 2 * limit;
    if z < 0 {
      MulMonotone(2 * limit, z, -1);
    } else if z > 0 {
      MulMonotone(2 * limit, 1, z);
    }
  }

  lemma MulCancel(k: int, a: int, b: int)
    requires k > 0 && k * a > k * b
    ensures a > b
  {
    if a <= b {
      MulMonotone(k, a, b);
    }
  }

  lemma MulMonotone(k: int, a: int, b: int)
    requires k > 0 && a <= b
    ensures k * a <= k * b
  {
    assert k * b - k * a == k * (b - a);
  }

  /** One of eight is 12.5%, which rounds up to 13. */
  lemma OneOfEight()
    ensures ClampPct(1, 8) == 13
  {
    assert RoundPct(1, 8) == 208 / 16 == 13;
  }

  /** More used never shows less. */
  lemma MonotoneInUsed(u1: int, u2: int, limit: int)
    requires limit > 0 && u1 <= u2
    ensures ClampPct(u1, limit) <= ClampPct(u2, limit)
  {
    var r1 := RoundPct(u1, limit);
    var r2 := RoundPct(u2, limit);
    var d := 2 * limit;
    assert d * r1 <= 200 * u1 + limit <= 200 * u2 + limit < d * r2 + d;
    assert d * r1 < d * (r2 + 1);
    MulCancel(d, r2 + 1, r1);
  }
}
