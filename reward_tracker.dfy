/** The maker-reward estimate of one resting order, and the per-market
    rate limit in front of the reward snapshot. */
module RewardTracker {
  import opened Util

  /** The distance score `((v - s) / v) ** 2` as the code computes it. */
  function Score(s: real, v: real): (r: real)
    requires v != 0.0
    ensures r >= 0.0
  {
    var x := (v - s) / v;
    x * x
  }

  /** The size term `Q / (Q + 1000)`. */
  function Saturation(q: real): (r: real)
    requires q + 1000.0 != 0.0
    ensures q >= 0.0 ==> 0.0 <= r < 1.0
  {
    q / (q + 1000.0)
  }

  function Product(a: real, b: real): (r: real)
    ensures a >= 0.0 && b >= 0.0 ==> r >= 0.0
  {
    a * b
  }

  /** Everything after the zero-spread test. A division by zero in
      `Q / (Q + 1000)` lands in the `except` and yields 0. */
  function RewardFromScore(score: real, size: real, daily: real): real {
    var q := Product(score, size);
    if q + 1000.0 == 0.0 then 0.0 else Max(0.0, Product(Saturation(q), daily / 24.0))
  }

  /** `estimate_order_reward(price, size, mid_price, max_spread, daily_rate)`. */
  function EstimateOrderReward(price: real, size: real, mid: real, maxSpread: real, daily: real): (r: real)
    ensures r >= 0.0
  {
    var s := Abs(price - mid);
    var v := maxSpread / 100.0;
    if v == 0.0 then 0.0 else RewardFromScore(Score(s, v), size, daily)
  }

  /** A market without a reward spread earns nothing. */
  lemma ZeroSpreadEarnsNothing(price: real, size: real, mid: real, daily: real)
    ensures EstimateOrderReward(price, size, mid, 0.0, daily) == 0.0
  {
  }

  /** `Q / (Q + 1000) < 1` keeps the estimate under the hourly rate. */
  lemma BelowHourlyRate(price: real, size: real, mid: real, maxSpread: real, daily: real)
    requires size >= 0.0 && daily >= 0.0
    ensures EstimateOrderReward(price, size, mid, maxSpread, daily) <= daily / 24.0
    ensures daily > 0.0 ==> EstimateOrderReward(price, size, mid, maxSpread, daily) < daily / 24.0
  {
    var v := maxSpread / 100.0;
    if v != 0.0 {
      var q := Product(Score(Abs(price - mid), v), size);
      assert q >= 0.0;
      var sat := Saturation(q);
      FractionOf(sat, daily / 24.0);
    }
  }

  lemma FractionOf(f: real, h: real)
    requires 0.0 <= f < 1.0 && h >= 0.0
    ensures Product(f, h) <= h
    ensures h > 0.0 ==> Product(f, h) < h
  {
    assert h - f * h == (1.0 - f) * h;
    if h > 0.0 {
      assert (1.0 - f) * h > 0.0;
    }
  }

  /** At the mid the score is 1, so the estimate is `size / (size + 1000)` of the hourly rate. */
  lemma RewardAtMid(size: real, mid: real, maxSpread: real, daily: real)
    requires maxSpread != 0.0 && size >= 0.0 && daily >= 0.0
    ensures EstimateOrderReward(mid, size, mid, maxSpread, daily) == size / (size + 1000.0) * (daily / 24.0)
  {
    var v := maxSpread / 100.0;
    assert Abs(mid - mid) == 0.0;
    assert (v - 0.0) / v == 1.0;
    assert Score(0.0, v) == 1.0;
    assert Product(1.0, size) == size;
    assert Saturation(size) >= 0.0;
  }

  /** Only the distance from mid matters: prices mirrored about mid earn the same. */
  lemma RewardSymmetric(d: real, size: real, mid: real, maxSpread: real, daily: real)
    ensures EstimateOrderReward(mid + d, size, mid, maxSpread, daily) == EstimateOrderReward(mid - d, size, mid, maxSpread, daily)
  {
    assert Abs(mid + d - mid) == Abs(mid - d - mid);
  }

  /** As written, the score is not clamped at the spread: an order 0.10 from
      mid with a 5% reward spread scores 1, exactly as an order at the mid. */
  lemma BeyondSpreadScoresAsAtMid()
    ensures EstimateOrderReward(0.6, 100.0, 0.5, 5.0, 24.0) == EstimateOrderReward(0.5, 100.0, 0.5, 5.0, 24.0)
    ensures EstimateOrderReward(0.6, 100.0, 0.5, 5.0, 24.0) > 0.0
  {
    assert Abs(0.6 - 0.5) == 0.1;
    assert Score(0.1, 0.05) == 1.0;
    assert Abs(0.5 - 0.5) == 0.0;
    assert Score(0.0, 0.05) == 1.0;
    assert Product(1.0, 100.0) == 100.0;
    assert Saturation(100.0) == 1.0 / 11.0;
    assert Product(1.0 / 11.0, 1.0) > 0.0;
  }

  /** The score with the reward band applied: nothing at or beyond the spread. */
  function BandedScore(s: real, v: real): (r: real)
    requires v > 0.0
    ensures r >= 0.0
  {
    if s >= v then 0.0 else Score(s, v)
  }

  /** The estimate with the band applied. */
  function EstimateOrderRewardBanded(price: real, size: real, mid: real, maxSpread: real, daily: real): (r: real)
    ensures r >= 0.0
  {
    var s := Abs(price - mid);
    var v := maxSpread / 100.0;
    if v <= 0.0 then 0.0 else RewardFromScore(BandedScore(s, v), size, daily)
  }

  /** With the band, an order at or beyond the spread earns nothing, and
      moving an order further from mid never raises its score. */
  lemma BandedScoreFalls(s1: real, s2: real, v: real)
    requires v > 0.0 && 0.0 <= s1 <= s2
    ensures s2 >= v ==> BandedScore(s2, v) == 0.0
    ensures BandedScore(s2, v) <= BandedScore(s1, v)
  {
    if s2 < v {
      var x1 := (v - s1) / v;
      var x2 := (v - s2) / v;
      DivMonotone(v - s2, v - s1, v);
      SquareMonotone(x2, x1);
    }
  }

  lemma DivMonotone(a: real, b: real, v: real)
    requires v > 0.0 && 0.0 < a <= b
    ensures 0.0 < a / v <= b / v
  {
  }

  lemma SquareMonotone(a: real, b: real)
    requires 0.0 <= a <= b
    ensures a * a <= b * b
  {
    assert a * a <= a * b;
    assert a * b <= b * b;
  }

  /** With the band, an order beyond the spread earns nothing. */
  lemma BandedBeyondSpreadEarnsNothing(price: real, size: real, mid: real, maxSpread: real, daily: real)
    requires maxSpread > 0.0 && Abs(price - mid) >= maxSpread / 100.0
    ensures EstimateOrderRewardBanded(price, size, mid, maxSpread, daily) == 0.0
  {
    assert Product(0.0, size) == 0.0;
    assert Saturation(0.0) == 0.0;
    assert Product(0.0, daily / 24.0) == 0.0;
  }

  /** Inside the band the two estimates agree. */
  lemma BandedAgreesInside(price: real, size: real, mid: real, maxSpread: real, daily: real)
    requires maxSpread > 0.0 && Abs(price - mid) < maxSpread / 100.0
    ensures EstimateOrderRewardBanded(price, size, mid, maxSpread, daily) == EstimateOrderReward(price, size, mid, maxSpread, daily)
  {
  }

  // ---------------------------------------------------------------------
  // log_market_snapshot rate limit

  /** How long a market waits between two reward snapshots, in seconds. */
  const SnapshotInterval: real := 300.0

  /** The time of a market's last snapshot, 0 when it has none. */
  function LastSnapshot(last: map<string, real>, market: string): real {
    if market in last then last[market] else 0.0
  }

  /** Whether a call at `now` gets past the gate. */
  predicate Proceeds(last: map<string, real>, market: string, now: real) {
    now - LastSnapshot(last, market) >= SnapshotInterval
  }

  /** The gate at the top of `log_market_snapshot`, holding `_last_snapshot_time`. */
  class SnapshotGate {
    var lastSnapshotTime: map<string, real>

    constructor()
      ensures lastSnapshotTime == map[]
    {
      lastSnapshotTime := map[];
    }

    /** Returns at once when this market's last snapshot was under 300 s
        ago; otherwise records `now` for it, before anything else. */
    method Enter(market: string, now: real) returns (proceed: bool)
      modifies this
      ensures proceed == Proceeds(old(lastSnapshotTime), market, now)
      ensures lastSnapshotTime == if proceed then old(lastSnapshotTime)[market := now] else old(lastSnapshotTime)
    {
      var lastSnapshot := LastSnapshot(lastSnapshotTime, market);
      if now - lastSnapshot < SnapshotInterval {
        return false;
      }
      lastSnapshotTime := lastSnapshotTime[market := now];
      return true;
    }
  }

  /** After the gate lets a call through at `t`, it turns back every call
      for that market before `t + 300` and lets the other markets be. */
  lemma GateSpacesSnapshots(last: map<string, real>, market: string, t: real, t2: real, other: string)
    requires other != market
    ensures t2 < t + SnapshotInterval ==> !Proceeds(last[market := t], market, t2)
    ensures t2 >= t + SnapshotInterval ==> Proceeds(last[market := t], market, t2)
    ensures Proceeds(last[market := t], other, t2) == Proceeds(last, other, t2)
  {
  }
}
