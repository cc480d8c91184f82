/** The bookkeeping of the bot's main loops: the sweep that evicts
    in-flight trades older than 15 seconds, the 1..30 cycle counter of the
    periodic updater, and the reconnect backoff of the websocket loop. The
    refreshers and the websocket sessions themselves are outside this
    model; their successes and failures are parameters. */
module Scheduler {
  import opened Util
  import opened DataProcessing

  /** Seconds after which an in-flight trade counts as stale. */
  const StaleAfter: real := 15.0

  // ---------------------------------------------------------------------
  // Stale sweep

  /** The timestamps of a key, none when the key has no timestamp map. */
  function StampsOf(ts: map<string, map<string, real>>, col: string): map<string, real> {
    if col in ts then ts[col] else map[]
  }

  /** An id is stale when its timestamp is recorded and more than 15
      seconds old; an id without a timestamp is read as stamped `now`. */
  predicate StaleIn(stamps: map<string, real>, id: string, now: real) {
    id in stamps && now - stamps[id] > StaleAfter
  }

  /** The ids of a key that survive the sweep. */
  function KeptIds(ids: set<string>, stamps: map<string, real>, now: real): set<string> {
    set id | id in ids && !StaleIn(stamps, id, now)
  }

  /** The timestamps of a key after the sweep: those of swept ids go. */
  function KeptStamps(ids: set<string>, stamps: map<string, real>, now: real): map<string, real> {
    map id | id in stamps && !(id in ids && StaleIn(stamps, id, now)) :: stamps[id]
  }

  /** The in-flight id sets after `remove_from_pending` at `now`. */
  function SweptIds(p: map<string, set<string>>, ts: map<string, map<string, real>>, now: real): map<string, set<string>> {
    map c | c in p :: KeptIds(p[c], StampsOf(ts, c), now)
  }

  /** The timestamps after `remove_from_pending` at `now`. */
  function SweptStamps(p: map<string, set<string>>, ts: map<string, map<string, real>>, now: real): map<string, map<string, real>> {
    map c | c in ts :: if c in p then KeptStamps(p[c], ts[c], now) else ts[c]
  }

  /** The sweep removes exactly the stale in-flight ids, with their
      timestamps, and keeps every key. */
  lemma SweepRemovesExactlyStale(p: map<string, set<string>>, ts: map<string, map<string, real>>, now: real, c: string, id: string)
    requires c in p && id in p[c]
    ensures c in SweptIds(p, ts, now)
    ensures id in SweptIds(p, ts, now)[c] <==> !(c in ts && id in ts[c] && now - ts[c][id] > 15.0)
    ensures c in ts ==> c in SweptStamps(p, ts, now) && (id in SweptStamps(p, ts, now)[c] <==> id in ts[c] && now - ts[c][id] <= 15.0)
  {
  }

  /** An entry stamped at `t` survives a sweep at `t + 15` and is gone after one at `t + 16`. */
  lemma SweepBoundary(p: map<string, set<string>>, ts: map<string, map<string, real>>, c: string, id: string, t: real)
    requires c in p && id in p[c] && c in ts && id in ts[c] && ts[c][id] == t
    ensures id in SweptIds(p, ts, t + 15.0)[c]
    ensures id !in SweptIds(p, ts, t + 16.0)[c]
  {
  }

  /** A second sweep at the same time removes nothing more. */
  lemma SweepIdempotent(p: map<string, set<string>>, ts: map<string, map<string, real>>, now: real)
    ensures SweptIds(SweptIds(p, ts, now), SweptStamps(p, ts, now), now) == SweptIds(p, ts, now)
  {
    var p1 := SweptIds(p, ts, now);
    var t1 := SweptStamps(p, ts, now);
    forall c | c in p1
      ensures KeptIds(p1[c], StampsOf(t1, c), now) == p1[c]
    {
      forall id | id in p1[c]
        ensures !StaleIn(StampsOf(t1, c), id, now)
      {
      }
    }
  }

  /** The ids of a key while its sweep is under way: those still to be
      looked at, and those looked at and not stale. */
  function PartKept(ids: set<string>, rest: set<string>, stamps: map<string, real>, now: real): set<string> {
    set id | id in ids && (id in rest || !StaleIn(stamps, id, now))
  }

  /** The timestamps of a key while its sweep is under way. */
  function PartStamps(ids: set<string>, rest: set<string>, stamps: map<string, real>, now: real): map<string, real> {
    map id | id in stamps && !(id in ids && id !in rest && StaleIn(stamps, id, now)) :: stamps[id]
  }

  lemma PartStart(ids: set<string>, stamps: map<string, real>, now: real)
    ensures PartKept(ids, ids, stamps, now) == ids
    ensures PartStamps(ids, ids, stamps, now) == stamps
  {
  }

  /** Looking at one more id removes it, with its timestamp, exactly when it is stale. */
  lemma PartStep(ids: set<string>, rest: set<string>, stamps: map<string, real>, now: real, x: string)
    requires x in rest && rest <= ids
    ensures PartKept(ids, rest - {x}, stamps, now)
      == if StaleIn(stamps, x, now) then PartKept(ids, rest, stamps, now) - {x} else PartKept(ids, rest, stamps, now)
    ensures PartStamps(ids, rest - {x}, stamps, now)
      == if StaleIn(stamps, x, now) then PartStamps(ids, rest, stamps, now) - {x} else PartStamps(ids, rest, stamps, now)
  {
  }

  /** The inner loop of `remove_from_pending` for one key. */
  method SweepKey(g: GlobalState, col: string, now: real)
    requires col in g.performing
    modifies g`performing, g`performingTimestamps
    ensures g.performing == old(g.performing)[col := KeptIds(old(g.performing[col]), StampsOf(old(g.performingTimestamps), col), now)]
    ensures g.performingTimestamps == if col in old(g.performingTimestamps)
      then old(g.performingTimestamps)[col := KeptStamps(old(g.performing[col]), old(g.performingTimestamps[col]), now)]
      else old(g.performingTimestamps)
  {
    ghost var p0, t0 := g.performing, g.performingTimestamps;
    var ids := g.performing[col];
    ghost var stamps := StampsOf(g.performingTimestamps, col);
    var rest := ids;
    PartStart(ids, stamps, now);
    assert p0[col := PartKept(ids, rest, stamps, now)] == p0;
    assert col in t0 ==> t0[col := PartStamps(ids, rest, stamps, now)] == t0;
    while rest != {}
      invariant rest <= ids
      invariant g.performing == p0[col := PartKept(ids, rest, stamps, now)]
      invariant g.performingTimestamps == if col in t0 then t0[col := PartStamps(ids, rest, stamps, now)] else t0
      decreases rest
    {
      var id :| id in rest;
      PartStep(ids, rest, stamps, now, id);
      if col in g.performingTimestamps {
        var stamp := if id in g.performingTimestamps[col] then g.performingTimestamps[col][id] else now;
        if now - stamp > StaleAfter {
          g.RemoveFromPerforming(col, id);
        }
      }
      rest := rest - {id};
    }
    assert PartKept(ids, {}, stamps, now) == KeptIds(ids, stamps, now);
    assert PartStamps(ids, {}, stamps, now) == KeptStamps(ids, stamps, now);
  }

  /** The in-flight ids while the sweep is under way: the keys in `todo`
      are untouched, the others swept. */
  function PartSweptIds(p: map<string, set<string>>, ts: map<string, map<string, real>>, todo: set<string>, now: real): map<string, set<string>> {
    map c | c in p :: if c in todo then p[c] else KeptIds(p[c], StampsOf(ts, c), now)
  }

  /** The timestamps while the sweep is under way. */
  function PartSweptStamps(p: map<string, set<string>>, ts: map<string, map<string, real>>, todo: set<string>, now: real): map<string, map<string, real>> {
    map c | c in ts :: if c in todo || c !in p then ts[c] else KeptStamps(p[c], ts[c], now)
  }

  lemma PartSweptStart(p: map<string, set<string>>, ts: map<string, map<string, real>>, now: real)
    ensures PartSweptIds(p, ts, p.Keys, now) == p
    ensures PartSweptStamps(p, ts, p.Keys, now) == ts
  {
  }

  lemma PartSweptEnd(p: map<string, set<string>>, ts: map<string, map<string, real>>, now: real)
    ensures PartSweptIds(p, ts, {}, now) == SweptIds(p, ts, now)
    ensures PartSweptStamps(p, ts, {}, now) == SweptStamps(p, ts, now)
  {
  }

  /** Sweeping one more key: it still holds its old ids and timestamps, and
      afterwards holds the swept ones. */
  lemma PartSweptStep(p: map<string, set<string>>, ts: map<string, map<string, real>>, todo: set<string>, now: real, col: string)
    requires col in todo && col in p
    ensures var ps := PartSweptIds(p, ts, todo, now);
      ps[col] == p[col] && StampsOf(PartSweptStamps(p, ts, todo, now), col) == StampsOf(ts, col)
    ensures PartSweptIds(p, ts, todo - {col}, now)
      == PartSweptIds(p, ts, todo, now)[col := KeptIds(p[col], StampsOf(ts, col), now)]
    ensures PartSweptStamps(p, ts, todo - {col}, now)
      == if col in ts then PartSweptStamps(p, ts, todo, now)[col := KeptStamps(p[col], ts[col], now)]
         else PartSweptStamps(p, ts, todo, now)
  {
  }

  /** `remove_from_pending` at `now`. */
  method RemoveFromPending(g: GlobalState, now: real)
    modifies g`performing, g`performingTimestamps
    ensures g.performing == SweptIds(old(g.performing), old(g.performingTimestamps), now)
    ensures g.performingTimestamps == SweptStamps(old(g.performing), old(g.performingTimestamps), now)
  {
    ghost var p0, t0 := g.performing, g.performingTimestamps;
    var todo := g.performing.Keys;
    PartSweptStart(p0, t0, now);
    while todo != {}
      invariant todo <= p0.Keys
      invariant g.performing == PartSweptIds(p0, t0, todo, now)
      invariant g.performingTimestamps == PartSweptStamps(p0, t0, todo, now)
      decreases todo
    {
      var col :| col in todo;
      PartSweptStep(p0, t0, todo, now, col);
      SweepKey(g, col, now);
      todo := todo - {col};
    }
    PartSweptEnd(p0, t0, now);
  }

  // ---------------------------------------------------------------------
  // Periodic cycle counter

  /** The call of a cycle that raises, if any. */
  datatype CycleFault = NoFault | PositionsFail | OrdersFail | MarketsFail | SnapshotFail

  /** The counter after a cycle with the refreshes it carried out. */
  datatype Totals = Totals(counter: int, marketRefreshes: nat, snapshots: nat)

  /** Whether cycle `i` raises: the position and order refreshers run every
      cycle, the market refresher only when `i % 6 == 0`, the snapshot
      only when `i % 30 == 0`. */
  predicate Raises(i: int, fault: CycleFault) {
    || fault == PositionsFail || fault == OrdersFail
    || (fault == MarketsFail && i % 6 == 0)
    || (fault == SnapshotFail && i % 30 == 0)
  }

  /** One cycle of `update_periodically`: a raise anywhere leaves the
      counter where it was; otherwise it moves to the next value in 1..30. */
  function CycleStep(t: Totals, fault: CycleFault): (r: Totals)
    ensures 1 <= t.counter <= 30 ==> 1 <= r.counter <= 30
    ensures Raises(t.counter, fault) ==> r.counter == t.counter
  {
    var i := t.counter;
    var refreshed := i % 6 == 0 && (fault == NoFault || fault == SnapshotFail);
    var snapped := i % 30 == 0 && fault == NoFault;
    var next := if Raises(i, fault) then i else if i + 1 > 30 then 1 else i + 1;
    Totals(next, t.marketRefreshes + (if refreshed then 1 else 0), t.snapshots + (if snapped then 1 else 0))
  }

  /** The cycles in order, from counter 1. */
  function Cycles(faults: seq<CycleFault>): (r: Totals)
    ensures 1 <= r.counter <= 30
  {
    if faults == [] then Totals(1, 0, 0) else CycleStep(Cycles(faults[..|faults| - 1]), faults[|faults| - 1])
  }

  /** `n` cycles without a fault. */
  function Clean(n: nat): (r: seq<CycleFault>)
    ensures |r| == n && forall k :: 0 <= k < n ==> r[k] == NoFault
  {
    if n == 0 then [] else Clean(n - 1) + [NoFault]
  }

  /** What `n` clean cycles from counter 1 leave behind. */
  function CleanTotals(n: nat): Totals {
    Totals(if n == 30 then 1 else n + 1, n / 6, n / 30)
  }

  /** One more clean cycle moves the expected totals on by one step. */
  lemma CleanTotalsStep(n: nat)
    requires 0 < n <= 30
    ensures CleanTotals(n) == CycleStep(CleanTotals(n - 1), NoFault)
  {
    assert (n - 1) / 6 + (if n % 6 == 0 then 1 else 0) == n / 6;
    assert (n - 1) / 30 + (if n % 30 == 0 then 1 else 0) == n / 30;
  }

  /** Over the first 30 clean cycles the markets are refreshed at every
      sixth cycle and the snapshot taken once, at the thirtieth, after
      which the counter is back at 1. */
  lemma {:induction false} CleanCycles(n: nat)
    requires n <= 30
    ensures Cycles(Clean(n)) == CleanTotals(n)
  {
    if n > 0 {
      CleanCycles(n - 1);
      CleanStep(n);
      CleanTotalsStep(n);
    }
  }

  /** One more clean cycle is one more step. */
  lemma CleanStep(n: nat)
    requires n > 0
    ensures Cycles(Clean(n)) == CycleStep(Cycles(Clean(n - 1)), NoFault)
  {
    assert Clean(n)[..n - 1] == Clean(n - 1);
  }

  /** A full period: five market refreshes and one snapshot. */
  lemma FullPeriod()
    ensures Cycles(Clean(30)) == Totals(1, 5, 1)
  {
    CleanCycles(30);
  }

  /** The loop of `update_periodically` over the given cycles. */
  method UpdatePeriodically(faults: seq<CycleFault>) returns (i: int, refreshes: nat, snapshots: nat)
    ensures Totals(i, refreshes, snapshots) == Cycles(faults)
    ensures 1 <= i <= 30
  {
    i, refreshes, snapshots := 1, 0, 0;
    var k := 0;
    while k < |faults|
      invariant 0 <= k <= |faults|
      invariant Totals(i, refreshes, snapshots) == Cycles(faults[..k])
    {
      assert faults[..k + 1][..k] == faults[..k];
      var fault := faults[k];
      if fault != PositionsFail && fault != OrdersFail {
        var ok := true;
        if i % 6 == 0 {
          if fault == MarketsFail {
            ok := false;
          } else {
            refreshes := refreshes + 1;
          }
        }
        if ok && i % 30 == 0 {
          if fault == SnapshotFail {
            ok := false;
          } else {
            snapshots := snapshots + 1;
          }
        }
        if ok {
          i := i + 1;
          if i > 30 {
            i := 1;
          }
        }
      }
      k := k + 1;
    }
    assert faults[..k] == faults;
  }

  // ---------------------------------------------------------------------
  // Reconnect backoff

  const InitialBackoff: int := 5
  const MaxBackoff: int := 60

  /** The sleeps taken so far and the backoff for the next failure. */
  datatype Backoff = Backoff(sleeps: seq<int>, next: int)

  /** The websocket loop over sessions that end normally (`true`) or raise
      (`false`): a raise sleeps the current backoff and doubles it up to
      60 seconds; a normal end resets it to 5. */
  function Reconnects(outcomes: seq<bool>): (r: Backoff)
    ensures InitialBackoff <= r.next <= MaxBackoff
    ensures forall k :: 0 <= k < |r.sleeps| ==> InitialBackoff <= r.sleeps[k] <= MaxBackoff
    ensures outcomes != [] && outcomes[|outcomes| - 1] ==> r.next == InitialBackoff
  {
    if outcomes == [] then Backoff([], InitialBackoff)
    else
      var prev := Reconnects(outcomes[..|outcomes| - 1]);
      if outcomes[|outcomes| - 1] then prev.(next := InitialBackoff)
      else Backoff(prev.sleeps + [prev.next], if 2 * prev.next < MaxBackoff then 2 * prev.next else MaxBackoff)
  }

  function Pow2(n: nat): (r: nat)
    ensures r >= 1
  {
    if n == 0 then 1 else 2 * Pow2(n - 1)
  }

  /** `n` failed sessions in a row. */
  function Failures(n: nat): (r: seq<bool>)
    ensures |r| == n && forall k :: 0 <= k < n ==> !r[k]
  {
    if n == 0 then [] else Failures(n - 1) + [false]
  }

  /** `min(5 * 2^k, 60)`. */
  function Capped(k: nat): int {
    if InitialBackoff * Pow2(k) < MaxBackoff then InitialBackoff * Pow2(k) else MaxBackoff
  }

  /** Doubling the capped backoff and capping again gives the next one. */
  lemma CappedStep(n: nat)
    requires n > 0
    ensures Capped(n) == if 2 * Capped(n - 1) < MaxBackoff then 2 * Capped(n - 1) else MaxBackoff
  {
    assert InitialBackoff * Pow2(n) == 2 * (InitialBackoff * Pow2(n - 1));
  }

  /** Consecutive failures sleep 5, 10, 20, 40, 60, 60, ...: the k-th
      sleep is `min(5 * 2^k, 60)`. */
  lemma {:induction false} FailuresDouble(n: nat)
    ensures |Reconnects(Failures(n)).sleeps| == n
    ensures Reconnects(Failures(n)).next == Capped(n)
    ensures forall k :: 0 <= k < n ==> Reconnects(Failures(n)).sleeps[k] == Capped(k)
  {
    if n > 0 {
      FailuresDouble(n - 1);
      assert Failures(n)[..n - 1] == Failures(n - 1);
      CappedStep(n);
    }
  }

  /** The first five failures sleep 5, 10, 20, 40 and 60 seconds. */
  lemma BackoffScenario()
    ensures Reconnects(Failures(5)).sleeps == [5, 10, 20, 40, 60]
  {
    FailuresDouble(5);
    assert Pow2(4) == 16;
  }

  /** The loop of `main` over the given sessions. */
  method ReconnectLoop(outcomes: seq<bool>) returns (sleeps: seq<int>, backoff: int)
    ensures Backoff(sleeps, backoff) == Reconnects(outcomes)
    ensures InitialBackoff <= backoff <= MaxBackoff
  {
    sleeps, backoff := [], InitialBackoff;
    var k := 0;
    while k < |outcomes|
      invariant 0 <= k <= |outcomes|
      invariant Backoff(sleeps, backoff) == Reconnects(outcomes[..k])
    {
      assert outcomes[..k + 1][..k] == outcomes[..k];
      if outcomes[k] {
        backoff := InitialBackoff;
      } else {
        sleeps := sleeps + [backoff];
        backoff := if backoff * 2 < MaxBackoff then backoff * 2 else MaxBackoff;
      }
      k := k + 1;
    }
    assert outcomes[..k] == outcomes;
  }
}
