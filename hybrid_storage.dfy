/** The rules of the hybrid storage layer that decide something: when a
    trade is significant, the 60-second cache in front of the trading
    configs with its fallback when a fetch fails, the per-market
    parameters built from the configs, and what `log_trade` and
    `send_alert` report. The backends themselves are not modelled; what
    they do is passed in as whether each call raised. */
module HybridStorage {
  import opened Util

  // ---------------------------------------------------------------------
  // _is_significant_trade

  /** The trade fields the predicate reads; `None` is a missing key. */
  datatype TradeData = TradeData(size: Option<real>, pnl: Option<real>, notes: Option<string>)

  /** A trade above 500 in size, or beyond 50 in PnL either way, or whose
      notes mention an error in any letter case. Missing fields count as
      0 and as empty notes. */
  function IsSignificantTrade(t: TradeData): (b: bool)
    ensures b <==> t.size.GetOr(0.0) > 500.0 || Abs(t.pnl.GetOr(0.0)) > 50.0
                   || Contains(Lower(t.notes.GetOr("")), "error")
  {
    if t.size.GetOr(0.0) > 500.0 then true
    else if Abs(t.pnl.GetOr(0.0)) > 50.0 then true
    else NotesMentionError(t.notes)
  }

  /** `'error' in str(notes).lower()`. */
  function NotesMentionError(notes: Option<string>): (b: bool)
    ensures b <==> Contains(Lower(notes.GetOr("")), "error")
  {
    var hay := Lower(notes.GetOr(""));
    var found := ContainsFrom(hay, "error", 0);
    assert Contains(hay, "error") ==> found by {
      if Contains(hay, "error") {
        var i :| OccursAt(hay, "error", i);
        assert 0 <= i;
      }
    }
    found
  }

  /** Notes saying "ERROR" in capitals anywhere make any trade significant. */
  lemma UpperCaseErrorIsSignificant(size: Option<real>, pnl: Option<real>, notes: string, i: int)
    requires OccursAt(notes, "ERROR", i)
    ensures IsSignificantTrade(TradeData(size, pnl, Some(notes)))
  {
    var l := Lower(notes);
    assert l[i..i + 5] == "error" by {
      forall k | 0 <= k < 5
        ensures l[i + k] == "error"[k]
      {
        assert notes[i + k] == "ERROR"[k];
      }
    }
    assert OccursAt(l, "error", i);
  }

  /** The same small trade with notes that do not mention an error is not significant. */
  lemma PlainNotesAreNot()
    ensures !IsSignificantTrade(TradeData(Some(10.0), Some(-1.0), Some("ok")))
  {
  }

  /** A loss of more than 50 is as significant as a gain of more than 50. */
  lemma LossesCountLikeGains(size: Option<real>, p: real, notes: Option<string>)
    ensures IsSignificantTrade(TradeData(size, Some(p), notes)) == IsSignificantTrade(TradeData(size, Some(-p), notes))
  {
  }

  // ---------------------------------------------------------------------
  // Trading configs and the cache

  /** The config fields the storage layer reads; `None` is a missing key. */
  datatype TradingConfig = TradingConfig(
    conditionId: Option<string>, tradeSize: Option<real>, maxSize: Option<real>, paramType: Option<string>)

  /** How long cached configs are served without a fetch, in seconds. */
  const ConfigRefreshInterval: real := 60.0

  /** What one call of `get_trading_configs` returns and leaves in the
      cache. `cache` is the `'configs'` entry of `_config_cache`, `None`
      while the dict is empty; `fetched` is what the Airtable fetch
      returned, `None` when it raised. */
  datatype CacheStep = CacheStep(result: seq<TradingConfig>, cache: Option<seq<TradingConfig>>, cacheTime: real)

  function ConfigsStep(cache: Option<seq<TradingConfig>>, cacheTime: real, force: bool, now: real,
                       airtable: bool, fetched: Option<seq<TradingConfig>>): CacheStep {
    if !force && cache.Some? && now - cacheTime < ConfigRefreshInterval then CacheStep(cache.value, cache, cacheTime)
    else if airtable && fetched.Some? then CacheStep(fetched.value, fetched, now)
    else if airtable && cache.Some? && cache.value != [] then CacheStep(cache.value, cache, cacheTime)
    else CacheStep([], cache, cacheTime)
  }

  /** A fresh cache answers without fetching: what the fetch would do does not matter. */
  lemma FreshCacheSkipsFetch(cache: seq<TradingConfig>, cacheTime: real, now: real, airtable: bool,
                             f1: Option<seq<TradingConfig>>, f2: Option<seq<TradingConfig>>)
    requires now - cacheTime < ConfigRefreshInterval
    ensures ConfigsStep(Some(cache), cacheTime, false, now, airtable, f1) == ConfigsStep(Some(cache), cacheTime, false, now, airtable, f2)
    ensures ConfigsStep(Some(cache), cacheTime, false, now, airtable, f1).result == cache
  {
  }

  /** A successful fetch is returned and replaces the cache, stamped now,
      unless a fresh cache answered first. */
  lemma FetchReplacesCache(cache: Option<seq<TradingConfig>>, cacheTime: real, force: bool, now: real, configs: seq<TradingConfig>)
    requires force || cache.None? || now - cacheTime >= ConfigRefreshInterval
    ensures ConfigsStep(cache, cacheTime, force, now, true, Some(configs)) == CacheStep(configs, Some(configs), now)
  {
  }

  /** A failed fetch falls back to the cached configs when there are any, and to `[]` otherwise; the cache is kept. */
  lemma FailedFetchFallsBack(cache: Option<seq<TradingConfig>>, cacheTime: real, force: bool, now: real)
    requires force || cache.None? || now - cacheTime >= ConfigRefreshInterval
    ensures var st := ConfigsStep(cache, cacheTime, force, now, true, None);
      && st.cache == cache && st.cacheTime == cacheTime
      && st.result == if cache.Some? && cache.value != [] then cache.value else []
  {
  }

  /** Within a minute of a successful fetch, the next call serves the same configs without fetching. */
  lemma FetchThenHit(cache: Option<seq<TradingConfig>>, cacheTime: real, t1: real, t2: real, configs: seq<TradingConfig>,
                     later: Option<seq<TradingConfig>>)
    requires cache.None? || t1 - cacheTime >= ConfigRefreshInterval
    requires t2 - t1 < ConfigRefreshInterval
    ensures var s1 := ConfigsStep(cache, cacheTime, false, t1, true, Some(configs));
      ConfigsStep(s1.cache, s1.cacheTime, false, t2, true, later).result == configs
  {
  }

  /** The per-market parameters of a config, with the defaults 50, 100 and `default`. */
  datatype Params = Params(tradeSize: real, maxSize: real, paramType: string)

  function ParamsOf(c: TradingConfig): Params {
    Params(c.tradeSize.GetOr(50.0), c.maxSize.GetOr(100.0), c.paramType.GetOr("default"))
  }

  /** The `params` dict of `get_markets_df`: one entry per truthy condition
      id, a later config overwriting an earlier one. */
  function BuildParams(configs: seq<TradingConfig>): (r: map<string, Params>)
    ensures forall id :: id in r ==> exists i :: 0 <= i < |configs| && configs[i].conditionId == Some(id)
  {
    if configs == [] then map[]
    else
      var prev := BuildParams(configs[..|configs| - 1]);
      var c := configs[|configs| - 1];
      if Truthy(c.conditionId) then prev[c.conditionId.value := ParamsOf(c)] else prev
  }

  /** The index of the last config for `id`, if any. */
  function LastFor(configs: seq<TradingConfig>, id: string): (r: Option<nat>)
    ensures r.Some? ==> r.value < |configs| && configs[r.value].conditionId == Some(id)
                        && forall j :: r.value < j < |configs| ==> configs[j].conditionId != Some(id)
    ensures r.None? ==> forall j :: 0 <= j < |configs| ==> configs[j].conditionId != Some(id)
  {
    if configs == [] then None
    else if configs[|configs| - 1].conditionId == Some(id) then Some(|configs| - 1)
    else LastFor(configs[..|configs| - 1], id)
  }

  /** A non-empty id has parameters exactly when some config carries it,
      and they come from the last such config; the empty id never has any. */
  lemma {:induction false} BuildParamsLast(configs: seq<TradingConfig>, id: string)
    ensures id == "" ==> id !in BuildParams(configs)
    ensures id != "" ==> (id in BuildParams(configs) <==> LastFor(configs, id).Some?)
    ensures id in BuildParams(configs) ==> BuildParams(configs)[id] == ParamsOf(configs[LastFor(configs, id).value])
  {
    if configs != [] {
      BuildParamsLast(configs[..|configs| - 1], id);
    }
  }

  /** `get_markets_df` with no configs: no rows and no parameters. */
  lemma NoConfigsNoParams()
    ensures BuildParams([]) == map[]
  {
  }

  // ---------------------------------------------------------------------
  // The storage object

  datatype LogOutcome = LogOutcome(ok: bool, alertAttempted: bool)

  /** `HybridStorage`: which backends it holds and the config cache. */
  class Storage {
    const sqlite: bool
    const airtable: bool
    var configCache: Option<seq<TradingConfig>>
    var configCacheTime: real

    /** The Airtable client exists only when asked for, when the backend
        is `airtable` or `hybrid`, and when it could be created. */
    constructor(useAirtable: bool, useSqlite: bool, backend: string, airtableCreated: bool)
      ensures sqlite == useSqlite
      ensures airtable == (useAirtable && (backend == "airtable" || backend == "hybrid") && airtableCreated)
      ensures configCache.None? && configCacheTime == 0.0
    {
      sqlite := useSqlite;
      airtable := useAirtable && (backend == "airtable" || backend == "hybrid") && airtableCreated;
      configCache := None;
      configCacheTime := 0.0;
    }

    /** `get_trading_configs(force_refresh)` at time `now`. */
    method GetTradingConfigs(force: bool, now: real, fetched: Option<seq<TradingConfig>>) returns (r: seq<TradingConfig>)
      modifies this
      ensures var st := ConfigsStep(old(configCache), old(configCacheTime), force, now, airtable, fetched);
        r == st.result && configCache == st.cache && configCacheTime == st.cacheTime
    {
      if !force && configCache.Some? {
        if now - configCacheTime < ConfigRefreshInterval {
          return configCache.value;
        }
      }
      if airtable {
        if fetched.Some? {
          configCache := fetched;
          configCacheTime := now;
          return fetched.value;
        }
        if configCache.Some? && configCache.value != [] {
          return configCache.value;
        }
      }
      return [];
    }

    /** `log_trade`: false only when the SQLite write raised; the alert for
        a significant trade is attempted only without `significant_only`. */
    function LogTrade(t: TradeData, significantOnly: bool, sqliteRaises: bool): (r: LogOutcome)
      reads this
      ensures !r.ok <==> sqlite && sqliteRaises
      ensures r.alertAttempted <==> r.ok && airtable && !significantOnly && IsSignificantTrade(t)
    {
      if sqlite && sqliteRaises then LogOutcome(false, false)
      else LogOutcome(true, airtable && !significantOnly && IsSignificantTrade(t))
    }

    /** `send_alert`: true when at least one backend took the alert. */
    function SendAlert(sqliteRaises: bool, airtableRaises: bool): (b: bool)
      reads this
      ensures b <==> (sqlite && !sqliteRaises) || (airtable && !airtableRaises)
      ensures !sqlite && !airtable ==> !b
    {
      var afterSqlite := sqlite && !sqliteRaises;
      var afterAirtable := if airtable && !airtableRaises then true else afterSqlite;
      afterAirtable
    }
  }
}
