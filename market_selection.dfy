/** The market-selection rule of `update_selected_markets`: which candidate
    markets pass the filters of the chosen mode, in what order they are
    taken, how many are needed, and the trade size, maximum size and
    profile each new config receives. A field that is NaN or missing in
    the markets table is `None`; every comparison on it is false, as in
    pandas. */
module MarketSelection {
  import opened Util

  /** One row of the markets table, with the columns the rule reads. */
  datatype Market = Market(
    conditionId: string,
    dailyRate: Option<real>,
    gmReward: Option<real>,
    volatility: Option<real>,
    spread: Option<real>,
    bestBid: Option<real>,
    minSize: Option<real>)

  predicate AtLeast(x: Option<real>, c: real) { x.Some? && x.value >= c }
  predicate AtMost(x: Option<real>, c: real) { x.Some? && x.value <= c }
  predicate Below(x: Option<real>, c: real) { x.Some? && x.value < c }
  predicate Above(x: Option<real>, c: real) { x.Some? && x.value > c }

  // ---------------------------------------------------------------------
  // Filters

  /** The row filters the script applies, one per mask. */
  datatype Filter =
    | MinReward(min: real)         // rewards_daily_rate >= min and not NaN
    | Quality                      // 0.1 <= best_bid <= 0.9 and spread < 0.15
    | Profitable                   // gm >= 1, volatility < 20, spread < 0.1, 0.1 <= best_bid <= 0.9
    | NotConfigured(ids: set<Option<string>>)  // condition_id not among the current configs'

  predicate Passes(m: Market, f: Filter) {
    match f
    case MinReward(min) => AtLeast(m.dailyRate, min)
    case Quality => AtLeast(m.bestBid, 0.1) && AtMost(m.bestBid, 0.9) && Below(m.spread, 0.15)
    case Profitable =>
      AtLeast(m.gmReward, 1.0) && Below(m.volatility, 20.0) && Below(m.spread, 0.1)
      && AtLeast(m.bestBid, 0.1) && AtMost(m.bestBid, 0.9)
    case NotConfigured(ids) => Some(m.conditionId) !in ids
  }

  /** `df[mask]`: the rows that pass, in their order. */
  function Keep(ms: seq<Market>, f: Filter): (r: seq<Market>)
    ensures |r| <= |ms|
    ensures forall m :: m in r <==> m in ms && Passes(m, f)
  {
    if ms == [] then []
    else (if Passes(ms[0], f) then [ms[0]] else []) + Keep(ms[1..], f)
  }

  // ---------------------------------------------------------------------
  // Ordering

  datatype SortKey = ByDailyReward | ByProfitability

  /** The sort key of a row. A NaN key sorts last in pandas; it is 0 here,
      and no row that reaches a sort has one. The profitability score is
      `gm_reward_per_100 / (volatility_sum + 1)`. */
  function KeyOf(m: Market, k: SortKey): real {
    match k
    case ByDailyReward => m.dailyRate.GetOr(0.0)
    case ByProfitability =>
      var g := m.gmReward.GetOr(0.0);
      var v := m.volatility.GetOr(0.0);
      if v + 1.0 == 0.0 then 0.0 else g / (v + 1.0)
  }

  predicate Descending(ms: seq<Market>, k: SortKey) {
    forall i, j :: 0 <= i < j < |ms| ==> KeyOf(ms[i], k) >= KeyOf(ms[j], k)
  }

  /** Insert `m` after every row with a key at least as large. */
  function Insert(m: Market, ms: seq<Market>, k: SortKey): seq<Market> {
    if ms == [] then [m]
    else if KeyOf(ms[0], k) >= KeyOf(m, k) then [ms[0]] + Insert(m, ms[1..], k)
    else [m] + ms
  }

  /** `sort_values(key, ascending=False)`, as an insertion sort. */
  function SortDesc(ms: seq<Market>, k: SortKey): seq<Market> {
    if ms == [] then [] else Insert(ms[0], SortDesc(ms[1..], k), k)
  }

  /** Inserting adds exactly `m`. */
  lemma {:induction false} InsertPerm(m: Market, ms: seq<Market>, k: SortKey)
    ensures multiset(Insert(m, ms, k)) == multiset(ms) + multiset{m}
  {
    if ms != [] {
      assert ms == [ms[0]] + ms[1..];
      if KeyOf(ms[0], k) >= KeyOf(m, k) {
        InsertPerm(m, ms[1..], k);
      }
    }
  }

  /** A row placed in front of a descending sequence of keys no larger keeps it descending. */
  lemma ConsDescending(h: Market, t: seq<Market>, k: SortKey)
    requires Descending(t, k)
    requires forall x :: x in t ==> KeyOf(x, k) <= KeyOf(h, k)
    ensures Descending([h] + t, k)
  {
    var r := [h] + t;
    forall a, b | 0 <= a < b < |r|
      ensures KeyOf(r[a], k) >= KeyOf(r[b], k)
    {
      assert r[b] == t[b - 1];
      if a > 0 {
        assert r[a] == t[a - 1];
      } else {
        assert r[b] in t;
      }
    }
  }

  /** Inserting into a descending sequence keeps it descending. */
  lemma {:induction false} InsertSorted(m: Market, ms: seq<Market>, k: SortKey)
    requires Descending(ms, k)
    ensures Descending(Insert(m, ms, k), k)
  {
    if ms != [] {
      if KeyOf(ms[0], k) >= KeyOf(m, k) {
        var rest := Insert(m, ms[1..], k);
        InsertSorted(m, ms[1..], k);
        InsertPerm(m, ms[1..], k);
        forall x | x in rest
          ensures KeyOf(x, k) <= KeyOf(ms[0], k)
        {
          assert x in multiset(rest);
          if x != m {
            assert x in multiset(ms[1..]);
            var q :| 0 <= q < |ms[1..]| && ms[1..][q] == x;
            assert ms[q + 1] == x;
          }
        }
        ConsDescending(ms[0], rest, k);
      } else {
        forall x | x in ms
          ensures KeyOf(x, k) <= KeyOf(m, k)
        {
          var q :| 0 <= q < |ms| && ms[q] == x;
          assert q == 0 || KeyOf(ms[0], k) >= KeyOf(ms[q], k);
        }
        ConsDescending(m, ms, k);
      }
    }
  }

  /** The sort orders by descending key and keeps every row. */
  lemma {:induction false} SortDescSorted(ms: seq<Market>, k: SortKey)
    ensures Descending(SortDesc(ms, k), k)
    ensures multiset(SortDesc(ms, k)) == multiset(ms)
  {
    if ms != [] {
      assert ms == [ms[0]] + ms[1..];
      SortDescSorted(ms[1..], k);
      InsertSorted(ms[0], SortDesc(ms[1..], k), k);
      InsertPerm(ms[0], SortDesc(ms[1..], k), k);
    }
  }

  /** A filter keeps the order of what it keeps. */
  lemma {:induction false} KeepDescending(ms: seq<Market>, f: Filter, k: SortKey)
    requires Descending(ms, k)
    ensures Descending(Keep(ms, f), k)
  {
    if ms != [] {
      KeepDescending(ms[1..], f, k);
      var rest := Keep(ms[1..], f);
      if Passes(ms[0], f) {
        var r := [ms[0]] + rest;
        forall a, b | 0 <= a < b < |r|
          ensures KeyOf(r[a], k) >= KeyOf(r[b], k)
        {
          if a == 0 {
            assert r[b] in ms[1..];
            var q :| 0 <= q < |ms[1..]| && ms[1..][q] == r[b];
            assert ms[q + 1] == r[b];
          } else {
            assert r[a] == rest[a - 1] && r[b] == rest[b - 1];
          }
        }
      }
    }
  }

  // ---------------------------------------------------------------------
  // Counts

  /** `max_markets if max_markets else d`, with 10 in high-reward mode and 5 otherwise. */
  function Target(maxMarkets: Option<int>, highReward: bool): int {
    if maxMarkets.Some? && maxMarkets.value != 0 then maxMarkets.value
    else if highReward then 10 else 5
  }

  /** Appending to a non-empty config list asks only for what is missing. */
  function Needed(target: int, replaceExisting: bool, currentCount: nat): (r: int)
    ensures !replaceExisting && currentCount > 0 ==> r >= 0 && r >= target - currentCount
    ensures !replaceExisting && currentCount > 0 && target <= currentCount ==> r == 0
    ensures replaceExisting || currentCount == 0 ==> r == target
  {
    if !replaceExisting && currentCount > 0 then (if target - currentCount > 0 then target - currentCount else 0)
    else target
  }

  /** `df.head(n)`. */
  function Head(ms: seq<Market>, n: int): (r: seq<Market>)
    ensures n >= 0 ==> |r| == if n < |ms| then n else |ms|
    ensures n <= 0 ==> r == []
    ensures r <= ms
  {
    if n <= 0 then [] else if n < |ms| then ms[..n] else ms
  }

  // ---------------------------------------------------------------------
  // Trade-size tiers

  datatype Tier = Tier(tradeSize: real, maxSize: real, paramType: string)

  /** The if/elif chain: the high-reward tiers apply only when the minimum
      daily reward is truthy (not `None`, not 0). */
  function BaseTier(minDailyTruthy: bool, daily: Option<real>, volatility: Option<real>): (t: Tier)
    ensures t.maxSize == 2.0 * t.tradeSize && t.tradeSize > 0.0
  {
    if minDailyTruthy && AtLeast(daily, 200.0) then Tier(100.0, 200.0, "aggressive")
    else if minDailyTruthy && AtLeast(daily, 150.0) then Tier(80.0, 160.0, "aggressive")
    else if Above(volatility, 15.0) then Tier(30.0, 60.0, "aggressive")
    else if Above(volatility, 10.0) then Tier(40.0, 80.0, "default")
    else Tier(50.0, 100.0, "conservative")
  }

  /** The tier raised to the market's minimum size (50 when the column is absent). */
  function AdjustedTier(minDailyTruthy: bool, m: Market): (t: Tier)
    ensures t.tradeSize >= m.minSize.GetOr(50.0)
    ensures t.maxSize >= 2.0 * t.tradeSize
    ensures t.paramType == BaseTier(minDailyTruthy, m.dailyRate, m.volatility).paramType
  {
    var base := BaseTier(minDailyTruthy, m.dailyRate, m.volatility);
    var minSize := m.minSize.GetOr(50.0);
    if base.tradeSize < minSize then Tier(minSize, Max(minSize * 2.0, base.maxSize), base.paramType)
    else base
  }

  /** Python's `int()` on a float: truncation toward zero. */
  function Trunc(x: real): (r: int)
    ensures x >= 0.0 ==> r == x.Floor
    ensures x < 0.0 ==> r == -((-x).Floor)
  {
    if x >= 0.0 then x.Floor else -((-x).Floor)
  }

  /** The fields of a new trading config the rule decides. */
  datatype NewConfig = NewConfig(conditionId: string, tradeSize: int, maxSize: int, paramType: string)

  function ConfigFor(minDailyTruthy: bool, m: Market): NewConfig {
    var t := AdjustedTier(minDailyTruthy, m);
    NewConfig(m.conditionId, Trunc(t.tradeSize), Trunc(t.maxSize), t.paramType)
  }

  function ConfigsFor(minDailyTruthy: bool, ms: seq<Market>): (r: seq<NewConfig>)
    ensures |r| == |ms|
    ensures forall i :: 0 <= i < |ms| ==> r[i] == ConfigFor(minDailyTruthy, ms[i])
  {
    if ms == [] then [] else [ConfigFor(minDailyTruthy, ms[0])] + ConfigsFor(minDailyTruthy, ms[1..])
  }

  /** After truncation to whole shares the maximum is still at least twice the trade size. */
  lemma TruncatedSizesKeepRatio(minDailyTruthy: bool, m: Market)
    ensures ConfigFor(minDailyTruthy, m).maxSize >= 2 * ConfigFor(minDailyTruthy, m).tradeSize
    ensures ConfigFor(minDailyTruthy, m).tradeSize > 0
  {
    var t := AdjustedTier(minDailyTruthy, m);
    var a := t.tradeSize.Floor;
    assert a as real <= t.tradeSize;
    assert (2 * a) as real <= t.maxSize;
    assert t.tradeSize >= 1.0 ==> a >= 1;
    assert t.tradeSize >= 30.0 || t.tradeSize >= m.minSize.GetOr(50.0);
  }

  /** A whole minimum size survives the truncation: the config's trade size is at least it. */
  lemma TruncatedTradeAtLeastMinSize(minDailyTruthy: bool, m: Market)
    requires m.minSize.GetOr(50.0).Floor as real == m.minSize.GetOr(50.0)
    ensures ConfigFor(minDailyTruthy, m).tradeSize as real >= m.minSize.GetOr(50.0)
  {
    var t := AdjustedTier(minDailyTruthy, m);
    assert t.tradeSize > 0.0;
    assert t.tradeSize.Floor >= m.minSize.GetOr(50.0).Floor;
  }

  /** The tiers: 100/200 and 80/160 at daily rewards of 200 and 150 in
      high-reward mode, then 30/60 above volatility 15, 40/80 above 10, and 50/100. */
  lemma TierTable(minDailyTruthy: bool, daily: Option<real>, volatility: Option<real>)
    ensures var t := BaseTier(minDailyTruthy, daily, volatility);
      && (minDailyTruthy && AtLeast(daily, 200.0) ==> t == Tier(100.0, 200.0, "aggressive"))
      && (minDailyTruthy && AtLeast(daily, 150.0) && !AtLeast(daily, 200.0) ==> t == Tier(80.0, 160.0, "aggressive"))
      && (!minDailyTruthy || !AtLeast(daily, 150.0) ==>
            t == if Above(volatility, 15.0) then Tier(30.0, 60.0, "aggressive")
                 else if Above(volatility, 10.0) then Tier(40.0, 80.0, "default")
                 else Tier(50.0, 100.0, "conservative"))
  {
  }

  // ---------------------------------------------------------------------
  // The whole rule

  /** How a run of the script ends. */
  datatype Outcome =
    | NoMarkets                     // the markets table is empty
    | NoneAboveMinimum              // high-reward mode and no market reaches the minimum
    | AlreadyEnough                 // needed <= 0
    | Selected(configs: seq<NewConfig>)

  /** The candidates in the order the script takes them, before exclusion. */
  function Candidates(all: seq<Market>, minDaily: Option<real>): seq<Market> {
    if minDaily.Some? then SortDesc(Keep(Keep(all, MinReward(minDaily.value)), Quality), ByDailyReward)
    else SortDesc(Keep(all, Profitable), ByProfitability)
  }

  /** The candidates left once the current configs are excluded (when appending). */
  function Pool(all: seq<Market>, current: seq<Option<string>>, minDaily: Option<real>, replaceExisting: bool): seq<Market> {
    var appending := !replaceExisting && current != [];
    if appending then Keep(Candidates(all, minDaily), NotConfigured(set c | c in current)) else Candidates(all, minDaily)
  }

  /** `update_selected_markets(min_daily_reward, max_markets, replace_existing)`
      on the markets table and the condition ids of the current configs. */
  function UpdateSelectedMarkets(all: seq<Market>, current: seq<Option<string>>, minDaily: Option<real>,
                                 maxMarkets: Option<int>, replaceExisting: bool): Outcome {
    if all == [] then NoMarkets
    else if minDaily.Some? && Keep(all, MinReward(minDaily.value)) == [] then NoneAboveMinimum
    else
      var needed := Needed(Target(maxMarkets, minDaily.Some?), replaceExisting, |current|);
      if needed <= 0 then AlreadyEnough
      else Selected(ConfigsFor(RewardTruthy(minDaily), Head(Pool(all, current, minDaily, replaceExisting), needed)))
  }

  /** A truthy minimum reward. */
  predicate RewardTruthy(x: Option<real>) { x.Some? && x.value != 0.0 }

  /** The markets a run selects (empty when it ends early). */
  function Chosen(all: seq<Market>, current: seq<Option<string>>, minDaily: Option<real>,
                  maxMarkets: Option<int>, replaceExisting: bool): seq<Market> {
    var needed := Needed(Target(maxMarkets, minDaily.Some?), replaceExisting, |current|);
    if UpdateSelectedMarkets(all, current, minDaily, maxMarkets, replaceExisting).Selected? then
      Head(Pool(all, current, minDaily, replaceExisting), needed)
    else []
  }

  /** The configs written are those of the chosen markets, one each, in order. */
  lemma SelectedAreChosen(all: seq<Market>, current: seq<Option<string>>, minDaily: Option<real>,
                          maxMarkets: Option<int>, replaceExisting: bool)
    ensures var out := UpdateSelectedMarkets(all, current, minDaily, maxMarkets, replaceExisting);
      out.Selected? ==> out.configs == ConfigsFor(RewardTruthy(minDaily), Chosen(all, current, minDaily, maxMarkets, replaceExisting))
  {
  }

  /** Every chosen market passed its mode's filters and, when appending,
      is not configured yet; no more than `needed` are chosen, and they
      come in descending order of the mode's key. */
  lemma SelectionSound(all: seq<Market>, current: seq<Option<string>>, minDaily: Option<real>,
                       maxMarkets: Option<int>, replaceExisting: bool)
    ensures var chosen := Chosen(all, current, minDaily, maxMarkets, replaceExisting);
      && (chosen != [] ==> |chosen| <= Needed(Target(maxMarkets, minDaily.Some?), replaceExisting, |current|))
      && Descending(chosen, if minDaily.Some? then ByDailyReward else ByProfitability)
      && forall m :: m in chosen ==>
           && (minDaily.Some? ==> AtLeast(m.dailyRate, minDaily.value) && Passes(m, Quality))
           && (minDaily.None? ==> Passes(m, Profitable))
           && (!replaceExisting && current != [] ==> Some(m.conditionId) !in current)
  {
    var chosen := Chosen(all, current, minDaily, maxMarkets, replaceExisting);
    var pool := Pool(all, current, minDaily, replaceExisting);
    assert chosen <= pool;
    PoolSorted(all, current, minDaily, replaceExisting);
    forall m | m in chosen
      ensures (minDaily.Some? ==> AtLeast(m.dailyRate, minDaily.value) && Passes(m, Quality))
      ensures (minDaily.None? ==> Passes(m, Profitable))
      ensures (!replaceExisting && current != [] ==> Some(m.conditionId) !in current)
    {
      PoolFilters(all, current, minDaily, replaceExisting, m);
    }
  }

  /** The pool is in descending order of the mode's key. */
  lemma PoolSorted(all: seq<Market>, current: seq<Option<string>>, minDaily: Option<real>, replaceExisting: bool)
    ensures Descending(Pool(all, current, minDaily, replaceExisting), if minDaily.Some? then ByDailyReward else ByProfitability)
  {
    var k := if minDaily.Some? then ByDailyReward else ByProfitability;
    CandidatesSorted(all, minDaily);
    if !replaceExisting && current != [] {
      KeepDescending(Candidates(all, minDaily), NotConfigured(set c | c in current), k);
    }
  }

  /** What a market of the pool satisfies. */
  lemma PoolFilters(all: seq<Market>, current: seq<Option<string>>, minDaily: Option<real>, replaceExisting: bool, m: Market)
    requires m in Pool(all, current, minDaily, replaceExisting)
    ensures minDaily.Some? ==> AtLeast(m.dailyRate, minDaily.value) && Passes(m, Quality)
    ensures minDaily.None? ==> Passes(m, Profitable)
    ensures !replaceExisting && current != [] ==> Some(m.conditionId) !in current
  {
    CandidateFilters(all, minDaily, m);
  }

  /** The candidates are in descending order of the mode's key. */
  lemma CandidatesSorted(all: seq<Market>, minDaily: Option<real>)
    ensures Descending(Candidates(all, minDaily), if minDaily.Some? then ByDailyReward else ByProfitability)
  {
    if minDaily.Some? {
      SortDescSorted(Keep(Keep(all, MinReward(minDaily.value)), Quality), ByDailyReward);
    } else {
      SortDescSorted(Keep(all, Profitable), ByProfitability);
    }
  }

  /** What a candidate satisfies, mode by mode. */
  lemma CandidateFilters(all: seq<Market>, minDaily: Option<real>, m: Market)
    requires m in Candidates(all, minDaily)
    ensures minDaily.Some? ==> AtLeast(m.dailyRate, minDaily.value) && Passes(m, Quality)
    ensures minDaily.None? ==> Passes(m, Profitable)
  {
    if minDaily.Some? {
      var k := Keep(Keep(all, MinReward(minDaily.value)), Quality);
      SortDescSorted(k, ByDailyReward);
      assert m in multiset(SortDesc(k, ByDailyReward));
      assert m in k;
    } else {
      var k := Keep(all, Profitable);
      SortDescSorted(k, ByProfitability);
      assert m in multiset(SortDesc(k, ByProfitability));
      assert m in k;
    }
  }

  /** In profitability mode, with nothing configured yet and no count
      given, the five most profitable qualifying markets are selected, in
      descending order of `gm_reward_per_100 / (volatility_sum + 1)`. */
  lemma ProfitabilityDefaults(all: seq<Market>)
    requires all != []
    ensures var out := UpdateSelectedMarkets(all, [], None, None, false);
      var pool := Candidates(all, None);
      && out == Selected(ConfigsFor(false, Head(pool, 5)))
      && Descending(pool, ByProfitability)
      && |out.configs| == if |pool| < 5 then |pool| else 5
  {
    CandidatesSorted(all, None);
  }

  /** Appending when the current configs already reach the target selects nothing. */
  lemma EnoughAlready(all: seq<Market>, current: seq<Option<string>>, minDaily: Option<real>, maxMarkets: Option<int>)
    requires all != [] && current != []
    requires minDaily.Some? ==> Keep(all, MinReward(minDaily.value)) != []
    requires Target(maxMarkets, minDaily.Some?) <= |current|
    ensures UpdateSelectedMarkets(all, current, minDaily, maxMarkets, false) == AlreadyEnough
  {
  }

  /** A minimum reward of 0 selects by reward as in high-reward mode but
      sizes the markets by volatility alone, since 0 is falsy. */
  lemma ZeroMinimumSkipsRewardTiers(m: Market)
    requires AtLeast(m.dailyRate, 200.0) && !Above(m.volatility, 10.0)
    ensures ConfigFor(RewardTruthy(Some(0.0)), m).paramType == "conservative"
    ensures ConfigFor(RewardTruthy(Some(100.0)), m).paramType == "aggressive"
  {
  }
}
