/** Quote pricing and sizing: the best-level scan of one side of a book,
    the YES/NO complement for the second token, the reward-optimal
    distance from mid with tick rounding, the bid/ask blend with its
    no-cross and not-below-cost clamps, decimal floor/ceil, and the
    buy/sell amounts. Prices and sizes are exact reals. */
module TradingUtils {
  import opened Util
  import opened SortedBook
  import opened DataProcessing

  // ---------------------------------------------------------------------
  // find_best_price_with_size

  /** The five values the scan returns, with each price and its size kept together. */
  datatype BestPrices = BestPrices(best: Option<Level>, second: Option<Level>, top: Option<real>)

  function Reverse(s: seq<Level>): (r: seq<Level>)
    ensures |r| == |s| && forall i :: 0 <= i < |s| ==> r[i] == s[|s| - 1 - i]
  {
    if s == [] then [] else Reverse(s[1..]) + [s[0]]
  }

  /** `list(price_dict.items())`, reversed for the bid side. */
  function ScanOrder(levels: seq<Level>, reverse: bool): (r: seq<Level>)
    ensures |r| == |levels|
  {
    if reverse then Reverse(levels) else levels
  }

  /** The index of the first level whose size is strictly above `minSize`. */
  function FirstAbove(s: seq<Level>, minSize: real): (r: Option<nat>)
    ensures r.Some? ==> r.value < |s| && s[r.value].size > minSize
                        && forall j :: 0 <= j < r.value ==> s[j].size <= minSize
    ensures r.None? ==> forall j :: 0 <= j < |s| ==> s[j].size <= minSize
  {
    if s == [] then None
    else if s[0].size > minSize then Some(0)
    else match FirstAbove(s[1..], minSize)
      case None => None
      case Some(k) => Some(k + 1)
  }

  /** What a scan of `s` finds: the first price as the touch, the first
      level above the size threshold as best, and the level right after
      best, whatever its size, as second. */
  function ScanBest(s: seq<Level>, minSize: real): BestPrices {
    var top := if s == [] then None else Some(s[0].price);
    match FirstAbove(s, minSize)
    case None => BestPrices(None, None, top)
    case Some(k) => BestPrices(Some(s[k]), if k + 1 < |s| then Some(s[k + 1]) else None, top)
  }

  /** The scan loop of `find_best_price_with_size`, with its `set_best`
      flag and the `break` one level after best. */
  method FindBestPriceWithSize(levels: seq<Level>, minSize: real, reverse: bool) returns (r: BestPrices)
    ensures r == ScanBest(ScanOrder(levels, reverse), minSize)
  {
    var lst := ScanOrder(levels, reverse);
    var best: Option<Level> := None;
    var second: Option<Level> := None;
    var top: Option<real> := None;
    var setBest := false;
    var i := 0;
    while i < |lst|
      invariant 0 <= i <= |lst|
      invariant top == if i == 0 then None else Some(lst[0].price)
      invariant second.None?
      invariant !setBest ==> best.None? && forall j :: 0 <= j < i ==> lst[j].size <= minSize
      invariant setBest ==> 0 < i && FirstAbove(lst, minSize) == Some(i - 1) && best == Some(lst[i - 1])
    {
      if top.None? {
        top := Some(lst[i].price);
      }
      if setBest {
        second := Some(lst[i]);
        break;
      }
      if lst[i].size > minSize {
        if best.None? {
          best := Some(lst[i]);
          setBest := true;
        }
      }
      i := i + 1;
    }
    r := BestPrices(best, second, top);
  }

  /** The touch is the highest bid when the bids are scanned in reverse,
      and the lowest ask otherwise; an empty side finds nothing at all. */
  lemma {:induction false} TopIsTouch(levels: seq<Level>, minSize: real, reverse: bool)
    requires Ascending(levels)
    ensures levels == [] ==> ScanBest(ScanOrder(levels, reverse), minSize) == BestPrices(None, None, None)
    ensures levels != [] && reverse ==>
      var top := ScanBest(ScanOrder(levels, reverse), minSize).top;
      top == Some(levels[|levels| - 1].price) && forall l :: l in levels ==> l.price <= top.value
    ensures levels != [] && !reverse ==>
      var top := ScanBest(ScanOrder(levels, reverse), minSize).top;
      top == Some(levels[0].price) && forall l :: l in levels ==> l.price >= top.value
  {
    if levels != [] {
      var n := |levels|;
      forall l | l in levels
        ensures l.price <= levels[n - 1].price && l.price >= levels[0].price
      {
        var j :| 0 <= j < n && levels[j] == l;
        assert j == n - 1 || levels[j].price < levels[n - 1].price;
        assert j == 0 || levels[0].price < levels[j].price;
      }
    }
  }

  /** Best is found exactly when some level is above the threshold, and
      second exactly when best is not the last level scanned. */
  lemma ScanBestFinds(s: seq<Level>, minSize: real)
    ensures ScanBest(s, minSize).best.Some? <==> exists j :: 0 <= j < |s| && s[j].size > minSize
    ensures ScanBest(s, minSize).second.Some? <==> FirstAbove(s, minSize).Some? && FirstAbove(s, minSize).value + 1 < |s|
  {
    match FirstAbove(s, minSize)
    case None =>
    case Some(k) => assert s[k].size > minSize;
  }

  // ---------------------------------------------------------------------
  // get_best_bid_ask_deets

  /** The twelve fields of the dictionary the function returns. */
  datatype Deets = Deets(
    bestBid: Option<real>, bestBidSize: Option<real>,
    secondBestBid: Option<real>, secondBestBidSize: Option<real>,
    topBid: Option<real>,
    bestAsk: Option<real>, bestAskSize: Option<real>,
    secondBestAsk: Option<real>, secondBestAskSize: Option<real>,
    topAsk: Option<real>,
    bidSumWithin: real, askSumWithin: real)

  function PriceOf(l: Option<Level>): Option<real> {
    if l.Some? then Some(l.value.price) else None
  }

  function SizeOf(l: Option<Level>): Option<real> {
    if l.Some? then Some(l.value.size) else None
  }

  /** The total size of the levels priced within `[lo, hi]`. */
  function SumWithin(levels: seq<Level>, lo: real, hi: real): (r: real)
    ensures (forall j :: 0 <= j < |levels| ==> levels[j].size >= 0.0) ==> r >= 0.0
  {
    if levels == [] then 0.0
    else (if lo <= levels[0].price <= hi then levels[0].size else 0.0) + SumWithin(levels[1..], lo, hi)
  }

  /** `1 - x` on a present price. */
  function Comp(x: Option<real>): Option<real> {
    if x.Some? then Some(1.0 - x.value) else None
  }

  predicate AllSixPresent(d: Deets) {
    d.bestBid.Some? && d.bestAsk.Some? && d.secondBestBid.Some? && d.secondBestAsk.Some?
    && d.topBid.Some? && d.topAsk.Some?
  }

  /** The view of the book as the first token sees it. */
  function RawDeets(book: Book, size: real, deviation: real): Deets {
    var b := ScanBest(ScanOrder(book.bids, true), size);
    var a := ScanBest(ScanOrder(book.asks, false), size);
    var both := b.best.Some? && a.best.Some?;
    var mid := if both then (b.best.value.price + a.best.value.price) / 2.0 else 0.0;
    var bidSum := if both then SumWithin(book.bids, b.best.value.price, mid * (1.0 + deviation)) else 0.0;
    var askSum := if both then SumWithin(book.asks, mid * (1.0 - deviation), a.best.value.price) else 0.0;
    Deets(PriceOf(b.best), SizeOf(b.best), PriceOf(b.second), SizeOf(b.second), b.top,
          PriceOf(a.best), SizeOf(a.best), PriceOf(a.second), SizeOf(a.second), a.top,
          bidSum, askSum)
  }

  /** The second token's view: a bid on one side is an ask of `1 - price`
      on the other. With all six prices present the sides swap whole;
      otherwise best bid and ask swap only when both exist, the other
      prices are complemented in place and the depth sums swap. */
  function Complement(d: Deets): Deets {
    if AllSixPresent(d) then
      Deets(Comp(d.bestAsk), d.bestAskSize, Comp(d.secondBestAsk), d.secondBestAskSize, Comp(d.topAsk),
            Comp(d.bestBid), d.bestBidSize, Comp(d.secondBestBid), d.secondBestBidSize, Comp(d.topBid),
            d.askSumWithin, d.bidSumWithin)
    else
      var both := d.bestBid.Some? && d.bestAsk.Some?;
      Deets(if both then Comp(d.bestAsk) else d.bestBid,
            if both then d.bestAskSize else d.bestBidSize,
            Comp(d.secondBestBid), d.secondBestBidSize, Comp(d.topBid),
            if both then Comp(d.bestBid) else d.bestAsk,
            if both then d.bestBidSize else d.bestAskSize,
            Comp(d.secondBestAsk), d.secondBestAskSize, Comp(d.topAsk),
            d.askSumWithin, d.bidSumWithin)
  }

  /** `get_best_bid_ask_deets(market, name, size, deviation_threshold)` on the market's book. */
  function GetBestBidAskDeets(book: Book, name: string, size: real, deviation: real): Deets {
    var raw := RawDeets(book, size, deviation);
    if name == "token2" then Complement(raw) else raw
  }

  /** Any name other than `token2` sees the book as it is. */
  lemma FirstTokenSeesBook(book: Book, name: string, size: real, deviation: real)
    requires name != "token2"
    ensures var d := GetBestBidAskDeets(book, name, size, deviation);
      && d.topBid == ScanBest(ScanOrder(book.bids, true), size).top
      && d.topAsk == ScanBest(ScanOrder(book.asks, false), size).top
      && d.bestBid == PriceOf(ScanBest(ScanOrder(book.bids, true), size).best)
      && d.bestAsk == PriceOf(ScanBest(ScanOrder(book.asks, false), size).best)
  {
  }

  /** With all six prices present, the second token's bids are one minus
      the first token's asks and the other way round, with sizes and depth
      sums exchanged and the spread between best bid and best ask kept. */
  lemma Token2FullSwap(book: Book, size: real, deviation: real)
    requires AllSixPresent(RawDeets(book, size, deviation))
    ensures var raw := RawDeets(book, size, deviation);
      var d := GetBestBidAskDeets(book, "token2", size, deviation);
      && d.bestBid.value == 1.0 - raw.bestAsk.value && d.bestAsk.value == 1.0 - raw.bestBid.value
      && d.secondBestBid.value == 1.0 - raw.secondBestAsk.value && d.secondBestAsk.value == 1.0 - raw.secondBestBid.value
      && d.topBid.value == 1.0 - raw.topAsk.value && d.topAsk.value == 1.0 - raw.topBid.value
      && d.bestBidSize == raw.bestAskSize && d.bestAskSize == raw.bestBidSize
      && d.secondBestBidSize == raw.secondBestAskSize && d.secondBestAskSize == raw.secondBestBidSize
      && d.bidSumWithin == raw.askSumWithin && d.askSumWithin == raw.bidSumWithin
      && d.bestAsk.value - d.bestBid.value == raw.bestAsk.value - raw.bestBid.value
  {
  }

  /** The full swap undoes itself: complementing twice gives the first token's view back. */
  lemma ComplementInvolution(d: Deets)
    requires AllSixPresent(d)
    ensures AllSixPresent(Complement(d)) && Complement(Complement(d)) == d
  {
  }

  /** Without all six prices the second-level sizes stay on their own side
      even though their prices are complemented. */
  lemma Token2PartialSwap(d: Deets)
    requires !AllSixPresent(d)
    ensures Complement(d).secondBestBidSize == d.secondBestBidSize
    ensures Complement(d).secondBestBid == Comp(d.secondBestBid)
    ensures d.bestBid.Some? && d.bestAsk.Some? ==>
      Complement(d).bestBid == Some(1.0 - d.bestAsk.value) && Complement(d).bestBidSize == d.bestAskSize
    ensures Complement(d).bidSumWithin == d.askSumWithin
  {
  }

  /** Without a best level on either side there is no mid and both depth sums are zero. */
  lemma NoMidNoDepth(book: Book, size: real, deviation: real)
    requires RawDeets(book, size, deviation).bestBid.None? || RawDeets(book, size, deviation).bestAsk.None?
    ensures RawDeets(book, size, deviation).bidSumWithin == 0.0 && RawDeets(book, size, deviation).askSumWithin == 0.0
  {
  }

  // ---------------------------------------------------------------------
  // get_reward_optimized_price

  /** Python's `round(x)`: the nearest integer, ties to the even one. */
  function RoundHalfEven(x: real): (r: int)
    ensures -(1.0 / 2.0) <= r as real - x <= 1.0 / 2.0
    ensures (r as real - x == 1.0 / 2.0 || x - r as real == 1.0 / 2.0) ==> r % 2 == 0
  {
    var f := x.Floor;
    var frac := x - f as real;
    if frac < 1.0 / 2.0 then f
    else if frac > 1.0 / 2.0 then f + 1
    else if f % 2 == 0 then f else f + 1
  }

  /** The price at `0.15 * max_spread / 100` from mid, below it for a buy
      and above it otherwise, rounded to the nearest multiple of `tick`
      when positive. */
  function RewardOptimizedPrice(mid: real, maxSpread: real, tick: real, side: string): (r: real)
    requires tick != 0.0
  {
    var v := maxSpread / 100.0;
    var distance := v * 0.15;
    var p := if side == "buy" then mid - distance else mid + distance;
    if p > 0.0 then RoundHalfEven(p / tick) as real * tick else p
  }

  /** The unrounded target. */
  function RewardTarget(mid: real, maxSpread: real, side: string): real {
    if side == "buy" then mid - maxSpread * 0.0015 else mid + maxSpread * 0.0015
  }

  /** A positive target is rounded to a multiple of the tick no more than
      half a tick away; a non-positive one is returned as it is. */
  lemma RewardPriceRounding(mid: real, maxSpread: real, tick: real, side: string)
    requires tick > 0.0
    ensures var p := RewardTarget(mid, maxSpread, side);
      var r := RewardOptimizedPrice(mid, maxSpread, tick, side);
      && (p <= 0.0 ==> r == p)
      && (p > 0.0 ==> (r / tick).Floor as real == r / tick && -(tick / 2.0) <= r - p <= tick / 2.0)
  {
    var p := RewardTarget(mid, maxSpread, side);
    if p > 0.0 {
      var k := RoundHalfEven(p / tick);
      assert -(1.0 / 2.0) <= k as real - p / tick <= 1.0 / 2.0;
      var r := k as real * tick;
      assert RewardOptimizedPrice(mid, maxSpread, tick, side) == r;
      HalfTick(k as real, p, tick);
      Cancel(k as real, tick);
      assert r / tick == k as real;
      assert (k as real).Floor == k;
    }
  }

  lemma Cancel(k: real, t: real)
    requires t > 0.0
    ensures k * t / t == k
  {
  }

  lemma HalfTick(k: real, p: real, tick: real)
    requires tick > 0.0 && -(1.0 / 2.0) <= k - p / tick <= 1.0 / 2.0
    ensures -(tick / 2.0) <= k * tick - p <= tick / 2.0
  {
    var e := k - p / tick;
    assert e * tick == k * tick - p;
    MulBounds(e, tick);
  }

  lemma MulBounds(e: real, t: real)
    requires t > 0.0 && -(1.0 / 2.0) <= e <= 1.0 / 2.0
    ensures -(t / 2.0) <= e * t <= t / 2.0
  {
    if e >= 0.0 {
      assert e * t <= (1.0 / 2.0) * t;
    } else {
      assert (-e) * t <= (1.0 / 2.0) * t;
    }
  }

  /** Mid 0.50, spread 5 and tick 0.01 give 0.49 to buy and 0.51 to sell. */
  lemma RewardPriceScenario()
    ensures RewardOptimizedPrice(0.5, 5.0, 0.01, "buy") == 0.49
    ensures RewardOptimizedPrice(0.5, 5.0, 0.01, "sell") == 0.51
  {
    assert (0.5 - 5.0 / 100.0 * 0.15) / 0.01 == 49.25;
    assert (49.25).Floor == 49;
    assert (0.5 + 5.0 / 100.0 * 0.15) / 0.01 == 50.75;
    assert (50.75).Floor == 50;
  }

  // ---------------------------------------------------------------------
  // get_order_prices

  /** The market row fields the pricer reads. */
  datatype PriceRow = PriceRow(maxSpread: real, tickSize: real, minSize: real)

  /** Start one tick inside the best levels (or at them when thin), move
      toward the reward-optimal prices, then undo a cross and keep the ask
      at or above the average cost. */
  function GetOrderPrices(bestBid: real, bestBidSize: real, topBid: real, bestAsk: real, bestAskSize: real,
                          topAsk: real, avgPrice: real, row: PriceRow): (r: (real, real))
    requires row.tickSize != 0.0
    ensures avgPrice > 0.0 ==> r.1 >= avgPrice
    ensures topBid < topAsk ==> r.0 < topAsk && r.1 > topBid
    ensures r.0 == topBid || r.0 < topAsk
  {
    var mid := (topBid + topAsk) / 2.0;
    var rewardBid := RewardOptimizedPrice(mid, row.maxSpread, row.tickSize, "buy");
    var rewardAsk := RewardOptimizedPrice(mid, row.maxSpread, row.tickSize, "sell");
    var bid0 := if bestBidSize < row.minSize * 1.5 then bestBid else bestBid + row.tickSize;
    var ask0 := if bestAskSize < 250.0 * 1.5 then bestAsk else bestAsk - row.tickSize;
    var bid1 := if bid0 < rewardBid then Max(bid0, rewardBid - row.tickSize) else bid0;
    var ask1 := if ask0 > rewardAsk then Min(ask0, rewardAsk + row.tickSize) else ask0;
    var bid2 := if bid1 >= topAsk then topBid else bid1;
    var ask2 := if ask1 <= topBid then topAsk else ask1;
    var (bid3, ask3) := if bid2 == ask2 then (topBid, topAsk) else (bid2, ask2);
    var ask4 := if ask3 <= avgPrice && avgPrice > 0.0 then avgPrice else ask3;
    (bid3, ask4)
  }

  // ---------------------------------------------------------------------
  // round_down / round_up

  function Pow10(d: nat): (r: real)
    ensures r >= 1.0
  {
    if d == 0 then 1.0 else 10.0 * Pow10(d - 1)
  }

  /** `math.ceil`. */
  function Ceil(y: real): (c: int)
    ensures c as real - 1.0 < y <= c as real
  {
    -((-y).Floor)
  }

  /** `math.floor(x * f) / f`. */
  function FloorTo(x: real, f: real): real
    requires f >= 1.0
  {
    (x * f).Floor as real / f
  }

  /** `math.ceil(x * f) / f`. */
  function CeilTo(x: real, f: real): real
    requires f >= 1.0
  {
    Ceil(x * f) as real / f
  }

  /** `x` is a whole number of steps of `1 / f`. */
  predicate OnGrid(x: real, f: real) {
    (x * f).Floor as real == x * f
  }

  /** `x` has at most `d` decimals. */
  predicate HasDecimals(x: real, d: nat) {
    OnGrid(x, Pow10(d))
  }

  /** `round_down(number, decimals)`. */
  function RoundDown(x: real, d: nat): real {
    FloorTo(x, Pow10(d))
  }

  /** `round_up(number, decimals)`. */
  function RoundUp(x: real, d: nat): real {
    CeilTo(x, Pow10(d))
  }

  lemma DivBack(a: real, f: real)
    requires f >= 1.0
    ensures a / f * f == a
  {
  }

  lemma MulDiv(x: real, f: real)
    requires f >= 1.0
    ensures x * f / f == x
  {
  }

  lemma Scale(r: real, x: real, f: real, n: real, y: real)
    requires f >= 1.0 && r * f == n && x * f == y && n <= y < n + 1.0
    ensures r <= x < r + 1.0 / f
  {
    assert (r + 1.0 / f) * f == r * f + 1.0;
  }

  lemma ScaleUp(r: real, x: real, f: real, c: real, y: real)
    requires f >= 1.0 && r * f == c && x * f == y && c - 1.0 < y <= c
    ensures r - 1.0 / f < x <= r
  {
    assert (r - 1.0 / f) * f == r * f - 1.0;
  }

  lemma FloorToBounds(x: real, f: real)
    requires f >= 1.0
    ensures FloorTo(x, f) <= x < FloorTo(x, f) + 1.0 / f && OnGrid(FloorTo(x, f), f)
  {
    var y := x * f;
    var n := y.Floor;
    var r := n as real / f;
    DivBack(n as real, f);
    assert (n as real).Floor == n;
    assert FloorTo(x, f) == r;
    assert r * f == n as real;
    assert (r * f).Floor == n;
    assert OnGrid(r, f);
    Scale(r, x, f, n as real, y);
  }

  lemma CeilToBounds(x: real, f: real)
    requires f >= 1.0
    ensures CeilTo(x, f) - 1.0 / f < x <= CeilTo(x, f) && OnGrid(CeilTo(x, f), f)
  {
    var y := x * f;
    var c := Ceil(y);
    var r := c as real / f;
    DivBack(c as real, f);
    assert (c as real).Floor == c;
    assert CeilTo(x, f) == r;
    assert r * f == c as real;
    assert (r * f).Floor == c;
    assert OnGrid(r, f);
    ScaleUp(r, x, f, c as real, y);
  }

  lemma GridFixed(x: real, f: real)
    requires f >= 1.0 && OnGrid(x, f)
    ensures FloorTo(x, f) == x && CeilTo(x, f) == x
  {
    var y := x * f;
    var n := y.Floor;
    assert FloorTo(x, f) == n as real / f;
    assert CeilTo(x, f) == Ceil(y) as real / f;
    assert n as real == y;
    assert Ceil(y) == n;
    MulDiv(x, f);
  }

  /** Rounding down gives the largest value with `d` decimals not above `x`. */
  lemma RoundDownBounds(x: real, d: nat)
    ensures RoundDown(x, d) <= x < RoundDown(x, d) + 1.0 / Pow10(d)
    ensures HasDecimals(RoundDown(x, d), d)
  {
    FloorToBounds(x, Pow10(d));
  }

  /** Rounding up gives the smallest value with `d` decimals not below `x`. */
  lemma RoundUpBounds(x: real, d: nat)
    ensures RoundUp(x, d) - 1.0 / Pow10(d) < x <= RoundUp(x, d)
    ensures HasDecimals(RoundUp(x, d), d)
  {
    CeilToBounds(x, Pow10(d));
  }

  /** A value with `d` decimals already is its own floor and ceiling. */
  lemma RoundExactIsIdentity(x: real, d: nat)
    requires HasDecimals(x, d)
    ensures RoundDown(x, d) == x && RoundUp(x, d) == x
  {
    GridFixed(x, Pow10(d));
  }

  // ---------------------------------------------------------------------
  // get_buy_sell_amount

  /** The market row fields the sizer reads. `maxSize` is `None` when the
      row has no `max_size`; `multiplier` is the value of `int(multiplier)`,
      `None` when the field is missing, empty, `None`, or `int` raises. */
  datatype SizeRow = SizeRow(tradeSize: real, maxSize: Option<real>, minSize: real, multiplier: Option<int>)

  /** Buy and sell before the minimum-size bump and the multiplier. */
  function BaseAmounts(position: real, row: SizeRow, other: real, twoSided: bool): (r: (real, real)) {
    var maxSize := row.maxSize.GetOr(row.tradeSize);
    var trade := row.tradeSize;
    if position < maxSize then
      (Min(trade, maxSize - position),
       if twoSided then trade else if position >= trade then Min(position, trade) else 0.0)
    else
      (if position + other < maxSize * 2.0 then trade else 0.0, Min(position, trade))
  }

  /** `get_buy_sell_amount`: the base amounts, a buy just below the minimum
      size raised to it, and a cheap asset's buy multiplied. */
  function GetBuySellAmount(position: real, bidPrice: real, row: SizeRow, other: real, twoSided: bool): (r: (real, real)) {
    var (buy0, sell) := BaseAmounts(position, row, other, twoSided);
    var buy1 := if buy0 > 0.7 * row.minSize && buy0 < row.minSize then row.minSize else buy0;
    var buy2 := if bidPrice < 0.1 && buy1 > 0.0 && row.multiplier.Some? then buy1 * row.multiplier.value as real else buy1;
    (buy2, sell)
  }

  /** Below the cap, buy up to the cap in trade-size steps; sell a full
      trade size when quoting both sides, else only when at least that
      much is held. */
  lemma BelowCap(position: real, row: SizeRow, other: real, twoSided: bool)
    requires position < row.maxSize.GetOr(row.tradeSize)
    ensures BaseAmounts(position, row, other, twoSided).0 == Min(row.tradeSize, row.maxSize.GetOr(row.tradeSize) - position)
    ensures BaseAmounts(position, row, other, twoSided).1
         == if twoSided then row.tradeSize else if position >= row.tradeSize then row.tradeSize else 0.0
  {
  }

  /** At or above the cap, sell a trade size (or what is held), and keep
      buying a trade size only while both tokens together stay under twice the cap. */
  lemma AtCap(position: real, row: SizeRow, other: real, twoSided: bool)
    requires position >= row.maxSize.GetOr(row.tradeSize)
    ensures BaseAmounts(position, row, other, twoSided).1 == Min(position, row.tradeSize)
    ensures BaseAmounts(position, row, other, twoSided).0 == row.tradeSize
        <==> (position + other < 2.0 * row.maxSize.GetOr(row.tradeSize) || row.tradeSize == 0.0)
  {
  }

  /** Outside two-sided mode the bot never offers more than it holds. */
  lemma SellsOnlyWhatIsHeld(position: real, bidPrice: real, row: SizeRow, other: real)
    ensures var sell := GetBuySellAmount(position, bidPrice, row, other, false).1;
      sell == 0.0 || sell <= position
  {
  }

  /** The bump only raises buys strictly between 70% of the minimum size
      and the minimum size; smaller buys go out unchanged. */
  lemma MinSizeBump(position: real, row: SizeRow, other: real, twoSided: bool)
    ensures var b := BaseAmounts(position, row, other, twoSided).0;
      var buy := GetBuySellAmount(position, 1.0, row, other, twoSided).0;
      && (0.7 * row.minSize < b < row.minSize ==> buy == row.minSize)
      && (b <= 0.7 * row.minSize || b >= row.minSize ==> buy == b)
  {
  }

  /** For an asset bid under 0.1 a positive buy is multiplied by the row's
      multiplier when it has a usable one; the sell side is never touched. */
  lemma CheapAssetMultiplied(position: real, bidPrice: real, row: SizeRow, other: real, twoSided: bool)
    requires bidPrice < 0.1 && row.multiplier.Some?
    ensures var b := GetBuySellAmount(position, 1.0, row, other, twoSided).0;
      var r := GetBuySellAmount(position, bidPrice, row, other, twoSided);
      && r.0 == (if b > 0.0 then b * row.multiplier.value as real else b)
      && r.1 == BaseAmounts(position, row, other, twoSided).1
  {
  }

  /** Away from cheap assets, a buy below the cap never carries the
      position past the cap by more than it takes to reach the minimum size. */
  lemma BuyNearCap(position: real, bidPrice: real, row: SizeRow, other: real, twoSided: bool)
    requires bidPrice >= 0.1 && position < row.maxSize.GetOr(row.tradeSize)
    ensures GetBuySellAmount(position, bidPrice, row, other, twoSided).0
         <= Max(row.maxSize.GetOr(row.tradeSize) - position, row.minSize)
  {
  }
}
