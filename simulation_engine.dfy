/** The dry-run matching engine: virtual orders are matched as a taker at
    the touch of the current market data, fills update the order, the
    token's virtual position and the virtual cash balance, and the engine
    keeps the fill history and the balance history it reports on. */
module SimulationEngine {
  import opened Util
  import opened SimulationModels

  // ---------------------------------------------------------------------
  // Order and fill identifiers: a prefix and the counter, zero-padded to six digits.

  function DigitChar(d: nat): char
    requires d < 10
  {
    ('0' as int + d) as char
  }

  /** The decimal digits of `n`, most significant first, without leading zeros. */
  function Digits(n: nat): (s: string)
    ensures |s| >= 1
    ensures forall i :: 0 <= i < |s| ==> '0' <= s[i] <= '9'
  {
    if n < 10 then [DigitChar(n)] else Digits(n / 10) + [DigitChar(n % 10)]
  }

  function Zeros(k: nat): (s: string)
    ensures |s| == k && forall i :: 0 <= i < k ==> s[i] == '0'
  {
    if k == 0 then [] else ['0'] + Zeros(k - 1)
  }

  /** Python's `f"{n:06d}"`: the digits of `n`, left-padded with zeros to at least six characters. */
  function ZeroPad6(n: nat): (s: string)
    ensures |s| == (if |Digits(n)| >= 6 then |Digits(n)| else 6)
  {
    var d := Digits(n);
    if |d| >= 6 then d else Zeros(6 - |d|) + d
  }

  function OrderIdOf(n: nat): string {
    "SIM-" + ZeroPad6(n)
  }

  function FillIdOf(n: nat): string {
    "FILL-" + ZeroPad6(n)
  }

  /** The value of a string of decimal digits (any non-digit reads as 0). */
  function ParseDecimal(s: string): nat {
    if s == [] then 0
    else
      var c := s[|s| - 1];
      ParseDecimal(s[..|s| - 1]) * 10 + (if '0' <= c <= '9' then c as int - '0' as int else 0)
  }

  lemma {:induction false} ParseDigits(n: nat)
    ensures ParseDecimal(Digits(n)) == n
  {
    if n >= 10 {
      var d := Digits(n / 10) + [DigitChar(n % 10)];
      assert d[..|d| - 1] == Digits(n / 10);
      ParseDigits(n / 10);
    }
  }

  lemma {:induction false} ParseLeadingZeros(k: nat, s: string)
    ensures ParseDecimal(Zeros(k) + s) == ParseDecimal(s)
    decreases k, |s|
  {
    if k > 0 {
      if s == [] {
        assert Zeros(k) + s == Zeros(k);
        ParseAllZeros(k);
      } else {
        var t := Zeros(k) + s;
        assert t[..|t| - 1] == Zeros(k) + s[..|s| - 1];
        assert t[|t| - 1] == s[|s| - 1];
        ParseLeadingZeros(k, s[..|s| - 1]);
      }
    } else {
      assert Zeros(k) + s == s;
    }
  }

  lemma {:induction false} ParseAllZeros(k: nat)
    ensures ParseDecimal(Zeros(k)) == 0
  {
    if k > 0 {
      var z := Zeros(k);
      assert z[..k - 1] == Zeros(k - 1) by {
        ZerosPrefix(k);
      }
      ParseAllZeros(k - 1);
    }
  }

  lemma ZerosPrefix(k: nat)
    requires k > 0
    ensures Zeros(k)[..k - 1] == Zeros(k - 1)
  {
  }

  lemma ParsePadded(n: nat)
    ensures ParseDecimal(ZeroPad6(n)) == n
  {
    var d := Digits(n);
    ParseDigits(n);
    if |d| < 6 {
      ParseLeadingZeros(6 - |d|, d);
    }
  }

  /** Distinct counter values give distinct order ids (and the same for
      fill ids): the zero-padded counter reads back as the counter. */
  lemma OrderIdsDistinct(m: nat, n: nat)
    ensures OrderIdOf(m) == OrderIdOf(n) <==> m == n
    ensures FillIdOf(m) == FillIdOf(n) <==> m == n
  {
    if OrderIdOf(m) == OrderIdOf(n) {
      assert ZeroPad6(m) == OrderIdOf(m)[4..] == OrderIdOf(n)[4..] == ZeroPad6(n);
      ParsePadded(m);
      ParsePadded(n);
    }
    if FillIdOf(m) == FillIdOf(n) {
      assert ZeroPad6(m) == FillIdOf(m)[5..] == FillIdOf(n)[5..] == ZeroPad6(n);
      ParsePadded(m);
      ParsePadded(n);
    }
  }

  lemma IdScenario()
    ensures OrderIdOf(1) == "SIM-000001" && FillIdOf(42) == "FILL-000042"
  {
    assert Digits(42) == Digits(4) + [DigitChar(2)];
  }

  // ---------------------------------------------------------------------
  // Matching

  /** The market-data dictionary handed to the matcher; `None` is an absent key. */
  datatype MarketData = MarketData(
    bestBid: Option<real>,
    bestAsk: Option<real>,
    bidSize: Option<real>,
    bestBidSize: Option<real>,
    askSize: Option<real>,
    bestAskSize: Option<real>)

  /** `market_data.get(k1, 0) or market_data.get(k2, 0)`: the first key unless it is absent or zero. */
  function SizeOr(first: Option<real>, second: Option<real>): real {
    if first.GetOr(0.0) != 0.0 then first.GetOr(0.0) else second.GetOr(0.0)
  }

  function BestBidOf(md: MarketData): real { md.bestBid.GetOr(0.0) }
  function BestAskOf(md: MarketData): real { md.bestAsk.GetOr(1.0) }
  function BidSizeOf(md: MarketData): real { SizeOr(md.bidSize, md.bestBidSize) }
  function AskSizeOf(md: MarketData): real { SizeOr(md.askSize, md.bestAskSize) }

  /** The price and size of the one execution an attempt can produce. */
  datatype Execution = Execution(price: real, size: real)

  /** `try_match_order` without the id it draws: a taker execution at the touch. */
  function Match(o: VirtualOrder, md: MarketData): Option<Execution> {
    match o.side
    case Buy =>
      var ask := BestAskOf(md);
      if o.price >= ask && ask > 0.0 && Min(o.RemainingSize(), AskSizeOf(md)) > 0.0
      then Some(Execution(ask, Min(o.RemainingSize(), AskSizeOf(md))))
      else None
    case Sell =>
      var bid := BestBidOf(md);
      if o.price <= bid && bid > 0.0 && Min(o.RemainingSize(), BidSizeOf(md)) > 0.0
      then Some(Execution(bid, Min(o.RemainingSize(), BidSizeOf(md))))
      else None
  }

  /** A buy executes exactly when it crosses a positive ask with size on both
      sides, at the ask, for the smaller of what remains and what is offered;
      a sell mirrors this against the bid. */
  lemma MatchAtTouch(o: VirtualOrder, md: MarketData)
    ensures o.side == Buy ==>
      (Match(o, md).Some? <==>
        o.price >= BestAskOf(md) && BestAskOf(md) > 0.0 && o.RemainingSize() > 0.0 && AskSizeOf(md) > 0.0)
    ensures o.side == Sell ==>
      (Match(o, md).Some? <==>
        o.price <= BestBidOf(md) && BestBidOf(md) > 0.0 && o.RemainingSize() > 0.0 && BidSizeOf(md) > 0.0)
    ensures Match(o, md).Some? ==>
      && Match(o, md).value.price == (if o.side == Buy then BestAskOf(md) else BestBidOf(md))
      && Match(o, md).value.size == Min(o.RemainingSize(), if o.side == Buy then AskSizeOf(md) else BidSizeOf(md))
  {
  }

  /** An execution is positive and never exceeds what remains of the order. */
  lemma MatchNeverOverfills(o: VirtualOrder, md: MarketData)
    requires Match(o, md).Some?
    ensures 0.0 < Match(o, md).value.size <= o.RemainingSize()
  {
  }

  /** With none of the keys present the defaults (bid 0, ask 1, sizes 0) give no execution. */
  lemma EmptyMarketNeverFills(o: VirtualOrder)
    ensures Match(o, MarketData(None, None, None, None, None, None)).None?
  {
  }

  /** An execution applied to the order: more filled, and FILLED once nothing remains. */
  function FillOrder(o: VirtualOrder, qty: real): (r: VirtualOrder)
    ensures r == o.(filledSize := r.filledSize, status := r.status)
    ensures r.filledSize == o.filledSize + qty
    ensures r.status == (if r.filledSize >= o.size then Filled else PartiallyFilled)
  {
    var filled := o.filledSize + qty;
    o.(filledSize := filled, status := if filled >= o.size then Filled else PartiallyFilled)
  }

  /** The states an order can be in: OPEN has nothing filled, a partial fill
      leaves something, FILLED is exactly the size, and a cancelled order is one
      of the first two. In particular `filledSize` never exceeds a positive size. */
  predicate WellFormed(o: VirtualOrder) {
    && 0.0 <= o.filledSize
    && (o.status == Open ==> o.filledSize == 0.0)
    && (o.status == PartiallyFilled ==> 0.0 < o.filledSize < o.size)
    && (o.status == Filled ==> 0.0 < o.filledSize == o.size)
    && (o.status == Cancelled ==> o.filledSize == 0.0 || 0.0 < o.filledSize < o.size)
  }

  /** Filling an open order with its execution keeps it well formed and
      `filledSize <= size`. */
  lemma FillKeepsWellFormed(o: VirtualOrder, md: MarketData)
    requires WellFormed(o) && o.IsOpen() && Match(o, md).Some?
    ensures var r := FillOrder(o, Match(o, md).value.size);
      WellFormed(r) && r.filledSize <= r.size && (r.status == Filled <==> r.filledSize == r.size)
  {
  }

  /** The order is still open and an update executes against it. */
  predicate Matches(o: VirtualOrder, md: MarketData) {
    o.IsOpen() && Match(o, md).Some?
  }

  /** What one matching attempt does to an order. */
  function AfterMatch(o: VirtualOrder, md: MarketData): VirtualOrder {
    if Matches(o, md) then FillOrder(o, Match(o, md).value.size) else o
  }

  /** FILLED and CANCELLED orders never fill again. */
  lemma ClosedOrdersStay(o: VirtualOrder, md: MarketData)
    requires o.status == Filled || o.status == Cancelled
    ensures AfterMatch(o, md) == o
  {
  }

  /** An OPEN buy at 0.40 is FILLED once the ask comes down to 0.40 with enough size. */
  lemma OpenBuyFillsAtTouch(o: VirtualOrder, askSize: real)
    requires o.side == Buy && o.price == 0.4 && o.status == Open && o.filledSize == 0.0
    requires o.size > 0.0 && askSize >= o.size
    ensures AfterMatch(o, MarketData(Some(0.38), Some(0.4), Some(askSize), None, Some(askSize), None)).status == Filled
  {
  }

  // ---------------------------------------------------------------------
  // Cash

  /** The balance after a fill: cash pays or receives the notional, and a
      nonzero realized PnL is added to the running total. */
  function SettleFill(b: SimulationBalance, side: OrderSide, price: real, qty: real, realized: real): (r: SimulationBalance)
    ensures r.usdcBalance == b.usdcBalance - SignedQty(side, qty) * price
    ensures r.realizedPnl == b.realizedPnl + realized
    ensures r.positionValue == b.positionValue && r.unrealizedPnl == b.unrealizedPnl
  {
    var value := qty * price;
    var cash := if side == Buy then b.usdcBalance - value else b.usdcBalance + value;
    b.(usdcBalance := cash, realizedPnl := if realized != 0.0 then b.realizedPnl + realized else b.realizedPnl)
  }

  /** Buying 100 at 0.50 from 10000 leaves 9950 in cash. */
  lemma BuyHundredAtHalf()
    ensures SettleFill(SimulationBalance(10000.0, 0.0, 0.0, 0.0), Buy, 0.5, 100.0, 0.0).usdcBalance == 9950.0
  {
  }

  // ---------------------------------------------------------------------
  // Drawdown

  /** The running peak after `h`, starting from `init`. */
  function Peak(init: real, h: seq<real>): (r: real)
    ensures r >= init
    ensures forall k :: 0 <= k < |h| ==> r >= h[k]
    ensures r == init || exists k :: 0 <= k < |h| && r == h[k]
  {
    if h == [] then init else Max(Peak(init, h[..|h| - 1]), h[|h| - 1])
  }

  /** The drawdown at step `k`: the running peak so far minus the value. */
  function DrawdownAt(init: real, h: seq<real>, k: nat): real
    requires k < |h|
  {
    Peak(init, h[..k + 1]) - h[k]
  }

  function DrawdownPct(dd: real, peak: real): real {
    if peak > 0.0 then dd / peak * 100.0 else 0.0
  }

  /** The state of `calculate_max_drawdown`'s scan: the running peak and the
      largest drawdown so far with its percentage. */
  datatype DrawdownScan = DrawdownScan(peak: real, maxDd: real, maxPct: real)

  /** The scan after the values `h`, starting from the initial balance: a
      drawdown replaces the maximum only when strictly larger. */
  function ScanDrawdown(init: real, h: seq<real>): (r: DrawdownScan)
    ensures r.peak == Peak(init, h)
  {
    if h == [] then DrawdownScan(init, 0.0, 0.0)
    else DrawdownStep(ScanDrawdown(init, h[..|h| - 1]), h[|h| - 1])
  }

  /** One value of the scan. */
  function DrawdownStep(prev: DrawdownScan, v: real): (r: DrawdownScan)
    ensures r.peak == if v > prev.peak then v else prev.peak
  {
    var peak := if v > prev.peak then v else prev.peak;
    var dd := peak - v;
    if dd > prev.maxDd then DrawdownScan(peak, dd, DrawdownPct(dd, peak)) else prev.(peak := peak)
  }

  /** The scan over the first `k + 1` values is one step after the scan over the first `k`. */
  lemma ScanDrawdownPrefix(init: real, h: seq<real>, k: nat)
    requires k < |h|
    ensures ScanDrawdown(init, h[..k + 1]) == DrawdownStep(ScanDrawdown(init, h[..k]), h[k])
  {
    assert h[..k + 1][..k] == h[..k];
  }

  /** The drawdown at an earlier step does not depend on later values. */
  lemma DrawdownAtPrefix(init: real, h: seq<real>, k: nat)
    requires k < |h| - 1
    ensures DrawdownAt(init, h, k) == DrawdownAt(init, h[..|h| - 1], k)
  {
    assert h[..k + 1] == h[..|h| - 1][..k + 1];
  }

  /** The scan's result is the largest drawdown of the history (0 when none
      is positive); when positive, it is attained at a step whose percentage
      is the one reported. */
  lemma MaxDrawdownIsMax(init: real, h: seq<real>)
    ensures var r := ScanDrawdown(init, h);
      && r.maxDd >= 0.0
      && (forall k :: 0 <= k < |h| ==> r.maxDd >= DrawdownAt(init, h, k))
      && ((r.maxDd == 0.0 && r.maxPct == 0.0) ||
          exists k :: 0 <= k < |h| && r.maxDd == DrawdownAt(init, h, k) && r.maxPct == DrawdownPct(r.maxDd, Peak(init, h[..k + 1])))
  {
    MaxDrawdownBounds(init, h);
    MaxDrawdownAttained(init, h);
  }

  /** The scan's result is at least every drawdown of the history, and never negative. */
  lemma {:induction false} MaxDrawdownBounds(init: real, h: seq<real>)
    ensures ScanDrawdown(init, h).maxDd >= 0.0
    ensures forall k :: 0 <= k < |h| ==> ScanDrawdown(init, h).maxDd >= DrawdownAt(init, h, k)
  {
    if h != [] {
      var h0 := h[..|h| - 1];
      MaxDrawdownBounds(init, h0);
      var r := ScanDrawdown(init, h);
      assert r.maxDd >= ScanDrawdown(init, h0).maxDd;
      forall k | 0 <= k < |h|
        ensures r.maxDd >= DrawdownAt(init, h, k)
      {
        if k < |h| - 1 {
          DrawdownAtPrefix(init, h, k);
        } else {
          assert h[..k + 1] == h;
        }
      }
    }
  }

  /** A positive result is the drawdown of some step, reported with that step's percentage. */
  lemma {:induction false} MaxDrawdownAttained(init: real, h: seq<real>)
    ensures var r := ScanDrawdown(init, h);
      (r.maxDd == 0.0 && r.maxPct == 0.0) ||
      exists k :: 0 <= k < |h| && r.maxDd == DrawdownAt(init, h, k) && r.maxPct == DrawdownPct(r.maxDd, Peak(init, h[..k + 1]))
  {
    if h != [] {
      var h0 := h[..|h| - 1];
      MaxDrawdownAttained(init, h0);
      var prev := ScanDrawdown(init, h0);
      var r := ScanDrawdown(init, h);
      if r.maxDd != prev.maxDd {
        assert h[..|h|] == h;
        assert r.maxDd == DrawdownAt(init, h, |h| - 1);
      } else if !(prev.maxDd == 0.0 && prev.maxPct == 0.0) {
        var k :| 0 <= k < |h0| && prev.maxDd == DrawdownAt(init, h0, k) && prev.maxPct == DrawdownPct(prev.maxDd, Peak(init, h0[..k + 1]));
        DrawdownAtPrefix(init, h, k);
        assert h0[..k + 1] == h[..k + 1];
      }
    }
  }

  /** A history that rises from 100 to 120 and falls to 90 has its maximum
      drawdown 30, a quarter of the peak. */
  lemma DrawdownScenario()
    ensures ScanDrawdown(100.0, [120.0, 90.0, 110.0]) == DrawdownScan(120.0, 30.0, 25.0)
  {
    assert [120.0, 90.0, 110.0][..2] == [120.0, 90.0];
    assert [120.0, 90.0][..1] == [120.0];
    assert [120.0][..0] == [];
  }

  /** A share of trades as a percentage: `w / n * 100`, or 0 without trades. */
  function Percent(w: nat, n: nat): (r: real)
    requires w <= n
    ensures 0.0 <= r <= 100.0
    ensures n > 0 && w == n ==> r == 100.0
    ensures w == 0 ==> r == 0.0
  {
    if n > 0 then
      assert (w as real) / (n as real) <= 1.0;
      (w as real) / (n as real) * 100.0
    else 0.0
  }

  /** The average of `sum` over `n` trades, 0 without trades. */
  function PerTrade(sum: real, n: nat): (r: real)
    ensures n > 0 ==> r * (n as real) == sum
    ensures n == 0 ==> r == 0.0
  {
    if n > 0 then sum / (n as real) else 0.0
  }

  /** `x` as a percentage of a positive base `b`, 0 for any other base. */
  function PercentOf(x: real, b: real): (r: real)
    ensures b > 0.0 ==> r * b == x * 100.0
    ensures b <= 0.0 ==> r == 0.0
    ensures b > 0.0 && x >= 0.0 ==> r >= 0.0
  {
    if b > 0.0 then x / b * 100.0 else 0.0
  }

  /** Counts of the fill history's winners and losers, reading a missing pnl as 0. */
  function CountWinning(fills: seq<Fill>): (n: nat)
    ensures n <= |fills|
  {
    if fills == [] then 0 else CountWinning(fills[..|fills| - 1]) + (if fills[|fills| - 1].pnl.GetOr(0.0) > 0.0 then 1 else 0)
  }

  function CountLosing(fills: seq<Fill>): (n: nat)
    ensures n <= |fills|
  {
    if fills == [] then 0 else CountLosing(fills[..|fills| - 1]) + (if fills[|fills| - 1].pnl.GetOr(0.0) < 0.0 then 1 else 0)
  }

  /** No fill is both a winner and a loser, so together they are at most all fills. */
  lemma {:induction false} WinnersAndLosers(fills: seq<Fill>)
    ensures CountWinning(fills) + CountLosing(fills) <= |fills|
  {
    if fills != [] {
      WinnersAndLosers(fills[..|fills| - 1]);
    }
  }

  /** The counts part of `generate_report`. */
  datatype Report = Report(
    initialBalance: real,
    currentBalance: real,
    totalPnl: real,
    totalPnlPct: real,
    totalTrades: nat,
    winningTrades: nat,
    losingTrades: nat,
    winRate: real,
    avgTradePnl: real,
    maxDrawdown: real,
    maxDrawdownPct: real,
    openPositions: nat)

  /** One line of `get_position_summary`. */
  datatype PositionLine = PositionLine(assetId: string, position: real, avgPrice: real, marketName: string)

  /** What `create_virtual_order` returns (without the dictionaries' timestamps). */
  datatype OrderResult = OrderResult(orderId: string, status: OrderStatus, fills: seq<Fill>, order: VirtualOrder)

  /** The order list with every open order cancelled. */
  function CancelOpen(s: seq<VirtualOrder>): (r: seq<VirtualOrder>)
    ensures |r| == |s|
    ensures forall i :: 0 <= i < |s| ==>
      r[i] == if s[i].IsOpen() then s[i].(status := Cancelled) else s[i]
  {
    if s == [] then [] else CancelOpen(s[..|s| - 1]) + [var o := s[|s| - 1]; if o.IsOpen() then o.(status := Cancelled) else o]
  }

  /** The open orders of `s`, in order. */
  function OpenOnly(s: seq<VirtualOrder>): (r: seq<VirtualOrder>)
  {
    if s == [] then [] else OpenOnly(s[..|s| - 1]) + (if s[|s| - 1].IsOpen() then [s[|s| - 1]] else [])
  }

  /** `OpenOnly` keeps exactly the open orders, each as often as it appears. */
  lemma {:induction false} OpenOnlyMembers(s: seq<VirtualOrder>)
    ensures forall o :: o in OpenOnly(s) <==> o in s && o.IsOpen()
    ensures |OpenOnly(s)| <= |s|
  {
    if s != [] {
      OpenOnlyMembers(s[..|s| - 1]);
      assert s == s[..|s| - 1] + [s[|s| - 1]];
    }
  }

  /** The concatenation of the order lists of `tokens`, in that order. */
  function ConcatOrders(orders: map<string, seq<VirtualOrder>>, tokens: seq<string>): seq<VirtualOrder>
    requires forall t :: t in tokens ==> t in orders
  {
    if tokens == [] then [] else ConcatOrders(orders, tokens[..|tokens| - 1]) + orders[tokens[|tokens| - 1]]
  }

  /** The first position, in key order and then list order, of an order with id `id`. */
  function FindOrder(orders: map<string, seq<VirtualOrder>>, tokens: seq<string>, id: string): (r: Option<(string, nat)>)
    requires forall t :: t in tokens ==> t in orders
    ensures r.Some? ==> r.value.0 in tokens && r.value.1 < |orders[r.value.0]| && orders[r.value.0][r.value.1].orderId == id
    ensures r.None? ==> forall t, i :: t in tokens && 0 <= i < |orders[t]| ==> orders[t][i].orderId != id
  {
    if tokens == [] then None
    else
      var t := tokens[0];
      match FirstIndex(orders[t], id)
      case Some(i) => Some((t, i))
      case None => FindOrder(orders, tokens[1..], id)
  }

  function FirstIndex(s: seq<VirtualOrder>, id: string): (r: Option<nat>)
    ensures r.Some? ==> r.value < |s| && s[r.value].orderId == id && forall j :: 0 <= j < r.value ==> s[j].orderId != id
    ensures r.None? ==> forall j :: 0 <= j < |s| ==> s[j].orderId != id
  {
    if s == [] then None
    else if s[0].orderId == id then Some(0)
    else match FirstIndex(s[1..], id)
      case Some(i) => Some(i + 1)
      case None => None
  }

  /** The scan of one order list for the first order with id `id`. */
  method FindIndex(s: seq<VirtualOrder>, id: string) returns (r: Option<nat>)
    ensures r == FirstIndex(s, id)
  {
    var i := 0;
    while i < |s|
      invariant 0 <= i <= |s|
      invariant forall j :: 0 <= j < i ==> s[j].orderId != id
    {
      if s[i].orderId == id {
        return Some(i);
      }
      i := i + 1;
    }
    return None;
  }

  /** Every order of `s` is a well-formed order of token `t`. */
  ghost predicate ListOf(t: string, s: seq<VirtualOrder>) {
    forall i :: 0 <= i < |s| ==> s[i].tokenId == t && WellFormed(s[i])
  }

  /** Cancelling keeps a token's order list well formed. */
  lemma CancelOpenKeepsList(t: string, s: seq<VirtualOrder>)
    requires ListOf(t, s)
    ensures ListOf(t, CancelOpen(s))
  {
  }

  /** Cancelling is idempotent: a second pass finds nothing open. */
  lemma CancelOpenIdempotent(s: seq<VirtualOrder>)
    ensures CancelOpen(CancelOpen(s)) == CancelOpen(s)
  {
  }

  /** After cancelling, no order of the list is open. */
  lemma CancelOpenLeavesNoneOpen(s: seq<VirtualOrder>)
    ensures forall i :: 0 <= i < |CancelOpen(s)| ==> !CancelOpen(s)[i].IsOpen()
  {
  }

  /** An order of the concatenation belongs to the list of one of the tokens,
      and every order of those lists is in it. */
  lemma {:induction false} ConcatMembers(orders: map<string, seq<VirtualOrder>>, tokens: seq<string>)
    requires forall t :: t in tokens ==> t in orders
    ensures forall o :: o in ConcatOrders(orders, tokens) <==> exists t :: t in tokens && o in orders[t]
  {
    if tokens != [] {
      var init := tokens[..|tokens| - 1];
      ConcatMembers(orders, init);
      forall o | o in ConcatOrders(orders, tokens)
        ensures exists t :: t in tokens && o in orders[t]
      {
        if o !in ConcatOrders(orders, init) {
          assert o in orders[tokens[|tokens| - 1]];
        }
      }
      forall o, t | t in tokens && o in orders[t]
        ensures o in ConcatOrders(orders, tokens)
      {
        if t != tokens[|tokens| - 1] {
          assert t in init;
        }
      }
    }
  }

  /** What `get_virtual_orders` lists: the token's list for a token id (empty
      when the token has none), every list in key order otherwise. */
  function Listed(orders: map<string, seq<VirtualOrder>>, tokens: seq<string>, token: Option<string>): seq<VirtualOrder>
    requires forall t :: t in tokens ==> t in orders
  {
    if Truthy(token) then (if token.value in orders then orders[token.value] else [])
    else ConcatOrders(orders, tokens)
  }

  /** `side.upper() == 'BUY'` picks BUY; every other string is SELL. */
  function SideOf(side: string): OrderSide {
    if Upper(side) == "BUY" then Buy else Sell
  }

  /** `process_market_update` on a token's order list: every order takes its own attempt. */
  function MatchAll(s: seq<VirtualOrder>, md: MarketData): (r: seq<VirtualOrder>)
    ensures |r| == |s| && forall j :: 0 <= j < |s| ==> r[j] == AfterMatch(s[j], md)
  {
    if s == [] then [] else MatchAll(s[..|s| - 1], md) + [AfterMatch(s[|s| - 1], md)]
  }

  /** How many of the orders an update fills. */
  function CountMatches(s: seq<VirtualOrder>, md: MarketData): (n: nat)
    ensures n <= |s|
  {
    if s == [] then 0 else CountMatches(s[..|s| - 1], md) + (if Matches(s[|s| - 1], md) then 1 else 0)
  }

  /** Whether an attempt fills `o` and leaves it FILLED, so that it joins `filled_orders`. */
  predicate FillsUp(o: VirtualOrder, md: MarketData) {
    Matches(o, md) && AfterMatch(o, md).status == Filled
  }

  /** The orders an update appends to `filled_orders`, in list order: those
      its attempt fills completely, as they are after the attempt. */
  function FilledBy(s: seq<VirtualOrder>, md: MarketData): (r: seq<VirtualOrder>)
    ensures |r| <= CountMatches(s, md)
  {
    if s == [] then []
    else FilledBy(s[..|s| - 1], md) + (if FillsUp(s[|s| - 1], md) then [AfterMatch(s[|s| - 1], md)] else [])
  }

  /** Every order an update appends to `filled_orders` is FILLED, and is
      one of the token's orders after an attempt that filled it up. */
  lemma {:induction false} FilledByMembers(s: seq<VirtualOrder>, md: MarketData)
    ensures forall o :: o in FilledBy(s, md) ==> o.status == Filled
    ensures forall o :: o in FilledBy(s, md) ==> exists k :: 0 <= k < |s| && FillsUp(s[k], md) && o == AfterMatch(s[k], md)
  {
    if s != [] {
      var init := s[..|s| - 1];
      FilledByMembers(init, md);
      forall o | o in FilledBy(s, md)
        ensures o.status == Filled
        ensures exists k :: 0 <= k < |s| && FillsUp(s[k], md) && o == AfterMatch(s[k], md)
      {
        if o in FilledBy(init, md) {
          var k :| 0 <= k < |init| && FillsUp(init[k], md) && o == AfterMatch(init[k], md);
          assert init[k] == s[k];
        } else {
          assert FillsUp(s[|s| - 1], md) && o == AfterMatch(s[|s| - 1], md);
        }
      }
    }
  }

  /** Advancing over one more order extends `FilledBy` by that order when it fills up. */
  lemma FilledByStep(s: seq<VirtualOrder>, j: nat, md: MarketData)
    requires j < |s|
    ensures FilledBy(s[..j + 1], md) == FilledBy(s[..j], md) + (if FillsUp(s[j], md) then [AfterMatch(s[j], md)] else [])
  {
    assert s[..j + 1][..j] == s[..j];
  }

  /** Where the lists `process_market_update` appends to stand after the
      first `j` orders of `s`: the orders filled up so far follow `fo0` in
      `filled`, and `tokens` is `pt0`, or `pt0` with the key of a token
      that had no position appended. */
  ghost predicate ListsAt(filled: seq<VirtualOrder>, tokens: seq<string>, t: string, md: MarketData, s: seq<VirtualOrder>, j: nat,
                          hadPosition: bool, fo0: seq<VirtualOrder>, pt0: seq<string>)
    requires j <= |s|
  {
    && filled == fo0 + FilledBy(s[..j], md)
    && (tokens == pt0 || (!hadPosition && tokens == pt0 + [t]))
  }

  /** One more order: a fill-up appends the order, and a first position appends its key. */
  lemma ListsStep(filled: seq<VirtualOrder>, tokens: seq<string>, t: string, md: MarketData, s: seq<VirtualOrder>, j: nat,
                  hadPosition: bool, fo0: seq<VirtualOrder>, pt0: seq<string>, created: bool)
    requires j < |s| && ListsAt(filled, tokens, t, md, s, j, hadPosition, fo0, pt0)
    requires created ==> !hadPosition && t !in tokens
    ensures ListsAt(filled + (if FillsUp(s[j], md) then [AfterMatch(s[j], md)] else []),
                    tokens + (if created then [t] else []), t, md, s, j + 1, hadPosition, fo0, pt0)
  {
    FilledByStep(s, j, md);
    if created {
      assert tokens != pt0 + [t];
    }
  }

  /** The key list after the loop: the token is listed once more exactly
      when it had no position before and has one now. */
  lemma NewTokenListed(tokens: seq<string>, pt0: seq<string>, t: string, had: bool, now: bool)
    requires tokens == pt0 || (!had && tokens == pt0 + [t])
    requires had <==> t in pt0
    requires now <==> t in tokens
    ensures tokens == pt0 + (if now && !had then [t] else [])
  {
  }

  lemma ReplaceLast(m: map<string, seq<VirtualOrder>>, t: string, prev: seq<VirtualOrder>, o: VirtualOrder, o2: VirtualOrder)
    ensures m[t := prev + [o]][t := (prev + [o])[|prev| := o2]] == m[t := prev + [o2]]
  {
    assert (prev + [o])[|prev| := o2] == prev + [o2];
  }

  /** Advancing the update loop by one index: the list and the count both grow by that order's attempt. */
  lemma MatchAllStep(s: seq<VirtualOrder>, j: nat, md: MarketData)
    requires j < |s|
    ensures (MatchAll(s[..j], md) + s[j..])[j] == s[j]
    ensures (MatchAll(s[..j], md) + s[j..])[j := AfterMatch(s[j], md)] == MatchAll(s[..j + 1], md) + s[j + 1..]
    ensures CountMatches(s[..j + 1], md) == CountMatches(s[..j], md) + (if Matches(s[j], md) then 1 else 0)
  {
    assert s[..j + 1][..j] == s[..j];
  }

  lemma UpdateTwice(m: map<string, seq<VirtualOrder>>, t: string, a: seq<VirtualOrder>, b: seq<VirtualOrder>)
    ensures m[t := a][t := b] == m[t := b]
  {
  }

  /** Fills appended in two batches are the first batch followed by the second. */
  lemma AppendTwice(f0: seq<Fill>, added: seq<Fill>, more: seq<Fill>)
    ensures (f0 + added) + more == f0 + (added + more)
  {
  }

  /** A non-empty list of at most one fill is that fill alone. */
  lemma SingleFill(p: seq<Fill>)
    requires p != [] && |p| <= 1
    ensures p == [p[0]]
  {
  }

  /** Appending a fill of token `t` to fills of token `t`. */
  lemma AppendSameToken(fills: seq<Fill>, f: Fill, t: string)
    requires forall k :: 0 <= k < |fills| ==> fills[k].tokenId == t
    requires f.tokenId == t
    ensures forall k :: 0 <= k < |fills + [f]| ==> (fills + [f])[k].tokenId == t
  {
  }

  /** A token's position together with the cash account. */
  datatype Book = Book(position: PositionState, balance: SimulationBalance)

  /** Booking one fill: the position moves as `update_with_fill` moves it
      and the balance is settled with the PnL it realizes. */
  function Step(b: Book, f: Fill): Book {
    var out := ApplyFill(b.position, f.side, f.price, f.size);
    Book(out.position, SettleFill(b.balance, f.side, f.price, f.size, out.realized))
  }

  /** The position and balance after booking `fills` in order. */
  function Replay(start: Book, fills: seq<Fill>): Book {
    if fills == [] then start else Step(Replay(start, fills[..|fills| - 1]), fills[|fills| - 1])
  }

  /** Replaying one more fill books it on top of the replay so far. */
  lemma ReplayStep(start: Book, fills: seq<Fill>, f: Fill)
    ensures Replay(start, fills + [f]) == Step(Replay(start, fills), f)
  {
    assert (fills + [f])[..|fills|] == fills;
  }

  // ---------------------------------------------------------------------
  // The engine

  class SimulationEngine {
    const initialBalance: real
    var balance: SimulationBalance
    /** `virtual_orders`, with its keys in insertion order in `orderTokens`. */
    var orders: map<string, seq<VirtualOrder>>
    var orderTokens: seq<string>
    /** `virtual_positions`, with its keys in insertion order in `positionTokens`. */
    var positions: map<string, VirtualPosition>
    var positionTokens: seq<string>
    var orderCounter: nat
    var fillCounter: nat
    var filledOrders: seq<VirtualOrder>
    var allFills: seq<Fill>
    /** The total values recorded by the balance snapshots, oldest first. */
    var balanceHistory: seq<real>

    /** The orders side of the engine's invariant: each token's list is
        keyed once, in insertion order, and holds well-formed orders of that token. */
    ghost predicate OrdersValid()
      reads this`orders, this`orderTokens
    {
      && (forall i, j :: 0 <= i < j < |orderTokens| ==> orderTokens[i] != orderTokens[j])
      && (forall t :: t in orders <==> t in orderTokens)
      && (forall t, i :: t in orders && 0 <= i < |orders[t]| ==> orders[t][i].tokenId == t && WellFormed(orders[t][i]))
    }

    /** The positions side: each token's position is keyed once, in insertion
        order, under its own token id. */
    ghost predicate PositionsValid()
      reads this`positions, this`positionTokens
    {
      && (forall i, j :: 0 <= i < j < |positionTokens| ==> positionTokens[i] != positionTokens[j])
      && (forall t :: t in positions <==> t in positionTokens)
      && (forall t :: t in positions ==> positions[t].tokenId == t)
    }

    ghost predicate Valid()
      reads this`orders, this`orderTokens, this`positions, this`positionTokens
    {
      OrdersValid() && PositionsValid()
    }

    constructor (initialBalance: real)
      ensures Valid()
      ensures this.initialBalance == initialBalance
      ensures balance == SimulationBalance(initialBalance, 0.0, 0.0, 0.0)
      ensures orders == map[] && orderTokens == [] && positions == map[] && positionTokens == []
      ensures orderCounter == 0 && fillCounter == 0
      ensures filledOrders == [] && allFills == [] && balanceHistory == []
    {
      this.initialBalance := initialBalance;
      balance := SimulationBalance(initialBalance, 0.0, 0.0, 0.0);
      orders := map[];
      orderTokens := [];
      positions := map[];
      positionTokens := [];
      orderCounter := 0;
      fillCounter := 0;
      filledOrders := [];
      allFills := [];
      balanceHistory := [];
    }

    method GenerateOrderId() returns (id: string)
      modifies this`orderCounter
      ensures orderCounter == old(orderCounter) + 1 && id == OrderIdOf(orderCounter)
    {
      orderCounter := orderCounter + 1;
      id := OrderIdOf(orderCounter);
    }

    method GenerateFillId() returns (id: string)
      modifies this`fillCounter
      ensures fillCounter == old(fillCounter) + 1 && id == FillIdOf(fillCounter)
    {
      fillCounter := fillCounter + 1;
      id := FillIdOf(fillCounter);
    }

    /** At most one fill, at the touch; a fill id is drawn only when it executes. */
    method TryMatchOrder(order: VirtualOrder, md: MarketData) returns (fills: seq<Fill>)
      modifies this`fillCounter
      ensures Match(order, md).None? ==> fills == [] && fillCounter == old(fillCounter)
      ensures Match(order, md).Some? ==>
        && fillCounter == old(fillCounter) + 1
        && fills == [Fill(FillIdOf(fillCounter), order.orderId, order.tokenId, order.conditionId, order.side,
                          Match(order, md).value.price, Match(order, md).value.size, None, order.marketName)]
    {
      fills := [];
      var bestBid := BestBidOf(md);
      var bestAsk := BestAskOf(md);
      var bidSize := BidSizeOf(md);
      var askSize := AskSizeOf(md);
      if order.side == Buy {
        if order.price >= bestAsk && bestAsk > 0.0 {
          var fillSize := Min(order.RemainingSize(), askSize);
          if fillSize > 0.0 {
            var id := GenerateFillId();
            fills := [Fill(id, order.orderId, order.tokenId, order.conditionId, order.side, bestAsk, fillSize, None, order.marketName)];
          }
        }
      } else {
        if order.price <= bestBid && bestBid > 0.0 {
          var fillSize := Min(order.RemainingSize(), bidSize);
          if fillSize > 0.0 {
            var id := GenerateFillId();
            fills := [Fill(id, order.orderId, order.tokenId, order.conditionId, order.side, bestBid, fillSize, None, order.marketName)];
          }
        }
      }
    }

    /** The token's position, created flat (and appended to the key order) when absent. */
    method GetOrCreatePosition(tokenId: string, conditionId: string, marketName: string) returns (p: VirtualPosition)
      requires Valid()
      modifies this`positions, this`positionTokens
      ensures Valid()
      ensures tokenId in positions && p == positions[tokenId]
      ensures old(tokenId in positions) ==> positions == old(positions) && positionTokens == old(positionTokens)
      ensures old(tokenId !in positions) ==>
        && fresh(p) && p.State() == PositionState(0.0, 0.0)
        && p.conditionId == conditionId && p.marketName == marketName
        && positions == old(positions)[tokenId := p] && positionTokens == old(positionTokens) + [tokenId]
    {
      if tokenId !in positions {
        p := new VirtualPosition(tokenId, conditionId, marketName);
        positions := positions[tokenId := p];
        positionTokens := positionTokens + [tokenId];
      }
      p := positions[tokenId];
    }

    /** `_process_fill` for the order at index `i` of token `t`'s list: the
        order takes the fill, the token's position and the cash balance are
        updated, and the fill, now carrying its realized PnL, joins the history. */
    method ProcessFill(fill: Fill, t: string, i: nat) returns (done: Fill, ghost was: PositionState)
      requires Valid()
      requires t in orders && i < |orders[t]|
      requires orders[t][i].IsOpen() && fill.tokenId == t && fill.side == orders[t][i].side
      requires 0.0 < fill.size <= orders[t][i].RemainingSize()
      modifies this, positions.Values
      ensures Valid()
      ensures orders == old(orders)[t := old(orders)[t][i := FillOrder(old(orders)[t][i], fill.size)]]
      ensures orderTokens == old(orderTokens)
      ensures filledOrders == old(filledOrders) + (if orders[t][i].status == Filled then [orders[t][i]] else [])
      ensures was == if t in old(positions) then old(positions[t].State()) else PositionState(0.0, 0.0)
      ensures t in positions && positions[t].State() == ApplyFill(was, fill.side, fill.price, fill.size).position
      ensures done == fill.(pnl := Some(ApplyFill(was, fill.side, fill.price, fill.size).realized))
      ensures balance == SettleFill(old(balance), fill.side, fill.price, fill.size, ApplyFill(was, fill.side, fill.price, fill.size).realized)
      ensures t in old(positions) ==> positions == old(positions) && positionTokens == old(positionTokens)
      ensures t !in old(positions) ==>
        && fresh(positions[t]) && positions == old(positions)[t := positions[t]]
        && positionTokens == old(positionTokens) + [t]
      ensures forall u :: u in old(positions) && u != t ==> old(positions[u]).State() == old(positions[u].State())
      ensures forall u :: u in old(positions) && u != t ==> u in positions && positions[u].State() == old(positions[u].State())
      ensures allFills == old(allFills) + [done]
      ensures orderCounter == old(orderCounter) && fillCounter == old(fillCounter)
      ensures balanceHistory == old(balanceHistory)
    {
      RecordOrderFill(t, i, fill.size);
      done, was := BookFill(fill);
    }

    /** The order part of `_process_fill`: more filled, FILLED or PARTIALLY_FILLED,
        and a FILLED order joins `filledOrders`. */
    method RecordOrderFill(t: string, i: nat, qty: real)
      requires Valid()
      requires t in orders && i < |orders[t]|
      requires orders[t][i].IsOpen() && 0.0 < qty <= orders[t][i].RemainingSize()
      modifies this`orders, this`filledOrders
      ensures Valid()
      ensures orders == old(orders)[t := old(orders)[t][i := FillOrder(old(orders)[t][i], qty)]]
      ensures filledOrders == old(filledOrders) + (if orders[t][i].status == Filled then [orders[t][i]] else [])
    {
      var order := FillOrder(orders[t][i], qty);
      assert WellFormed(order) && order.tokenId == t;
      orders := orders[t := orders[t][i := order]];
      if order.status == Filled {
        filledOrders := filledOrders + [order];
      }
    }

    /** The position, cash and history part of `_process_fill`. */
    method BookFill(fill: Fill) returns (done: Fill, ghost was: PositionState)
      requires Valid()
      modifies this`positions, this`positionTokens, this`balance, this`allFills, positions.Values
      ensures Valid()
      ensures var t := fill.tokenId;
        && was == (if t in old(positions) then old(positions[t].State()) else PositionState(0.0, 0.0))
        && t in positions && positions[t].State() == ApplyFill(was, fill.side, fill.price, fill.size).position
        && (t in old(positions) ==> positions == old(positions) && positionTokens == old(positionTokens))
        && (t !in old(positions) ==>
          && fresh(positions[t]) && positions == old(positions)[t := positions[t]]
          && positionTokens == old(positionTokens) + [t])
        && (forall u :: u in old(positions) && u != t ==> old(positions[u]).State() == old(positions[u].State()))
      ensures done == fill.(pnl := Some(ApplyFill(was, fill.side, fill.price, fill.size).realized))
      ensures balance == SettleFill(old(balance), fill.side, fill.price, fill.size, ApplyFill(was, fill.side, fill.price, fill.size).realized)
      ensures allFills == old(allFills) + [done]
    {
      var position := GetOrCreatePosition(fill.tokenId, fill.conditionId, fill.marketName);
      was := position.State();
      var realizedPnl := position.UpdateWithFill(fill);
      done := fill.(pnl := Some(realizedPnl));
      balance := SettleFill(balance, fill.side, fill.price, fill.size, realizedPnl);
      allFills := allFills + [done];
    }

    /** `self.virtual_orders[token_id].append(order)` on the defaultdict: the
        token's list is created (and its key recorded) on first use. */
    method StoreOrder(order: VirtualOrder) returns (i: nat)
      requires Valid() && WellFormed(order)
      modifies this`orders, this`orderTokens
      ensures Valid()
      ensures var prev := if order.tokenId in old(orders) then old(orders[order.tokenId]) else [];
        orders == old(orders)[order.tokenId := prev + [order]] && i == |prev|
      ensures orderTokens == old(orderTokens) + (if order.tokenId in old(orders) then [] else [order.tokenId])
    {
      var t := order.tokenId;
      if t !in orders {
        orders := orders[t := []];
        orderTokens := orderTokens + [t];
      }
      i := |orders[t]|;
      orders := orders[t := orders[t] + [order]];
    }

    /** One pass of `process_market_update`'s loop: the order at index `j`
        of token `t`'s list, when still open, takes a matching attempt and
        the execution, if any, is processed as a fill. */
    method MatchOne(t: string, j: nat, md: MarketData) returns (processed: seq<Fill>, ghost was: PositionState)
      requires Valid()
      requires t in orders && j < |orders[t]|
      modifies this, positions.Values
      ensures Valid()
      ensures orders == old(orders)[t := old(orders[t])[j := AfterMatch(old(orders[t][j]), md)]]
      ensures |processed| == (if Matches(old(orders[t][j]), md) then 1 else 0)
      ensures fillCounter == old(fillCounter) + |processed| && allFills == old(allFills) + processed
      ensures processed == [] ==>
        && balance == old(balance) && positions == old(positions) && positionTokens == old(positionTokens)
        && (t in positions ==> positions[t].State() == old(positions[t].State()))
      ensures processed != [] ==>
        var f := processed[0];
        var out := ApplyFill(was, f.side, f.price, f.size);
        && f.tokenId == t
        && was == (if t in old(positions) then old(positions[t].State()) else PositionState(0.0, 0.0))
        && t in positions && positions[t].State() == out.position
        && balance == SettleFill(old(balance), f.side, f.price, f.size, out.realized)
        && (t in old(positions) ==> positions == old(positions) && positionTokens == old(positionTokens))
        && (t !in old(positions) ==>
          && fresh(positions[t]) && positions == old(positions)[t := positions[t]]
          && positionTokens == old(positionTokens) + [t])
      ensures forall u :: u in old(positions) && u != t ==> old(positions[u]).State() == old(positions[u].State())
      ensures filledOrders == old(filledOrders) + (if FillsUp(old(orders[t][j]), md) then [AfterMatch(old(orders[t][j]), md)] else [])
      ensures orderCounter == old(orderCounter) && orderTokens == old(orderTokens)
      ensures balanceHistory == old(balanceHistory)
    {
      var order := orders[t][j];
      processed := [];
      was := PositionState(0.0, 0.0);
      if order.IsOpen() {
        var fills := TryMatchOrder(order, md);
        if fills != [] {
          MatchNeverOverfills(order, md);
          var done;
          done, was := ProcessFill(fills[0], t, j);
          processed := [done];
        }
      }
      if processed == [] {
        assert orders[t][j := AfterMatch(order, md)] == orders[t];
      }
    }

    /** Where `process_market_update` on token `t` stands after the first `j`
        orders of the token's list `s`: `orders`, `allFills`, `fillCounter`,
        the key order and the history as they were (`o0`, `f0`, `fc0`, `ot0`,
        `bh0`) with those `j` attempts applied, the fills `added` so far, the
        token's position and the balance as recorded in `cur`, and the
        positions `p0` kept, those of other tokens in their states `st0`. */
    ghost predicate UpdateProgress(t: string, md: MarketData, s: seq<VirtualOrder>, j: nat, cur: Book, added: seq<Fill>,
                                   o0: map<string, seq<VirtualOrder>>, f0: seq<Fill>, p0: map<string, VirtualPosition>,
                                   st0: map<string, PositionState>, fc0: nat, oc0: nat, ot0: seq<string>, bh0: seq<real>,
                                   fo0: seq<VirtualOrder>, pt0: seq<string>)
      reads this, positions.Values
    {
      && Valid()
      && t in orders && |orders[t]| == |s| && j <= |s|
      && orders == o0[t := MatchAll(s[..j], md) + s[j..]]
      && allFills == f0 + added && |added| == CountMatches(s[..j], md)
      && fillCounter == fc0 + |added|
      && (forall k :: 0 <= k < |added| ==> added[k].tokenId == t)
      && balance == cur.balance
      && (t in positions ==> positions[t].State() == cur.position)
      && (t !in positions ==> added == [] && positions == p0 && cur.position == PositionState(0.0, 0.0))
      && (forall u :: u in p0 ==> u in positions && positions[u] == p0[u])
      && (forall u :: u in p0 && u != t ==> u in st0 && positions[u].State() == st0[u])
      && positions.Keys <= p0.Keys + {t}
      && orderCounter == oc0 && orderTokens == ot0 && balanceHistory == bh0
      && ListsAt(filledOrders, positionTokens, t, md, s, j, t in p0, fo0, pt0)
    }


    /** One step of `process_market_update`'s loop, with the bookkeeping that
        carries `UpdateProgress` from `j` to `j + 1`: the book `cur` moves by
        the one fill processed, if any. */
    method AdvanceUpdate(t: string, md: MarketData, j: nat, ghost s: seq<VirtualOrder>, ghost cur: Book, ghost added: seq<Fill>,
                         ghost o0: map<string, seq<VirtualOrder>>, ghost f0: seq<Fill>, ghost p0: map<string, VirtualPosition>,
                         ghost st0: map<string, PositionState>, ghost fc0: nat, ghost oc0: nat, ghost ot0: seq<string>, ghost bh0: seq<real>,
                         ghost fo0: seq<VirtualOrder>, ghost pt0: seq<string>)
      returns (processed: seq<Fill>, ghost next: Book, ghost addedNext: seq<Fill>, ghost created: bool)
      requires UpdateProgress(t, md, s, j, cur, added, o0, f0, p0, st0, fc0, oc0, ot0, bh0, fo0, pt0) && j < |s|
      modifies this, positions.Values
      ensures UpdateProgress(t, md, s, j + 1, next, addedNext, o0, f0, p0, st0, fc0, oc0, ot0, bh0, fo0, pt0)
      ensures processed == [] ==> next == cur && addedNext == added
      ensures processed != [] ==> next == Step(cur, processed[0]) && addedNext == added + [processed[0]]
      ensures t in old(positions) ==> t in positions && positions[t] == old(positions[t])
      ensures t in positions && t !in old(positions) ==> fresh(positions[t])
      ensures filledOrders == old(filledOrders) + (if FillsUp(s[j], md) then [AfterMatch(s[j], md)] else [])
      ensures created == (t in positions && t !in old(positions))
      ensures positionTokens == old(positionTokens) + (if created then [t] else [])
    {
      created := t !in positions;
      MatchAllStep(s, j, md);
      assert orders[t][j] == s[j];
      ghost var current := if t in positions then positions[t].State() else PositionState(0.0, 0.0);
      assert current == cur.position;
      ghost var w;
      ghost var listBefore := MatchAll(s[..j], md) + s[j..];
      ghost var keysBefore := positions.Keys;
      ghost var filled, tokens := filledOrders, positionTokens;
      processed, w := MatchOne(t, j, md);
      created := created && t in positions;
      ListsStep(filled, tokens, t, md, s, j, t in p0, fo0, pt0, created);
      assert positions.Keys <= keysBefore + {t};
      UpdateTwice(o0, t, listBefore, listBefore[j := AfterMatch(s[j], md)]);
      AppendTwice(f0, added, processed);
      assert |added + processed| == CountMatches(s[..j + 1], md);
      if processed != [] {
        var f := processed[0];
        assert w == current;
        next := Step(cur, f);
        SingleFill(processed);
        addedNext := added + processed;
        AppendSameToken(added, f, t);
      } else {
        next := cur;
        assert added + processed == added;
        addedNext := added;
      }
    }

    /** The loop of `process_market_update` over the token's list `s`. */
    method MatchEach(t: string, md: MarketData, ghost s: seq<VirtualOrder>, ghost start: Book,
                     ghost o0: map<string, seq<VirtualOrder>>, ghost f0: seq<Fill>, ghost p0: map<string, VirtualPosition>,
                     ghost st0: map<string, PositionState>, ghost fc0: nat, ghost oc0: nat, ghost ot0: seq<string>, ghost bh0: seq<real>,
                     ghost fo0: seq<VirtualOrder>, ghost pt0: seq<string>)
      returns (ghost added: seq<Fill>, ghost final: Book)
      requires UpdateProgress(t, md, s, 0, start, [], o0, f0, p0, st0, fc0, oc0, ot0, bh0, fo0, pt0)
      requires p0 == positions
      modifies this, positions.Values
      ensures UpdateProgress(t, md, s, |s|, final, added, o0, f0, p0, st0, fc0, oc0, ot0, bh0, fo0, pt0)
      ensures final == Replay(start, added)
      ensures t in positions && t !in old(positions) ==> fresh(positions[t])
    {
      added := [];
      final := start;
      var j := 0;
      while j < |orders[t]|
        invariant UpdateProgress(t, md, s, j, final, added, o0, f0, p0, st0, fc0, oc0, ot0, bh0, fo0, pt0)
        invariant final == Replay(start, added)
        invariant t in positions && t !in old(positions) ==> fresh(positions[t])
      {
        var processed;
        ghost var next, addedNext, created;
        processed, next, addedNext, created := AdvanceUpdate(t, md, j, s, final, added, o0, f0, p0, st0, fc0, oc0, ot0, bh0, fo0, pt0);
        if processed != [] {
          ReplayStep(start, added, processed[0]);
        }
        added, final := addedNext, next;
        j := j + 1;
      }
      assert j == |s|;
    }

    /** `process_market_update`: every order of the token still open when
        the update arrives takes one attempt against the same market data,
        in list order, and each execution is booked. The position and the
        balance end where replaying the new fills from the old ones puts them. */
    method ProcessMarketUpdate(t: string, md: MarketData) returns (ghost was: PositionState, ghost added: seq<Fill>)
      requires Valid()
      modifies this, positions.Values
      ensures Valid()
      ensures t in old(orders) ==> orders == old(orders)[t := MatchAll(old(orders[t]), md)]
      ensures t !in old(orders) ==> orders == old(orders)
      ensures allFills == old(allFills) + added
      ensures |added| == (if t in old(orders) then CountMatches(old(orders[t]), md) else 0)
      ensures fillCounter == old(fillCounter) + |added|
      ensures forall k :: 0 <= k < |added| ==> added[k].tokenId == t
      ensures was == (if t in old(positions) then old(positions[t].State()) else PositionState(0.0, 0.0))
      ensures var after := Replay(Book(was, old(balance)), added);
        balance == after.balance && (t in positions ==> positions[t].State() == after.position)
      ensures t !in positions ==> added == [] && positions == old(positions)
      ensures forall u :: u in old(positions) ==> u in positions && positions[u] == old(positions[u])
      ensures forall u :: u in old(positions) && u != t ==> positions[u].State() == old(positions[u].State())
      ensures positions.Keys <= old(positions).Keys + {t}
      ensures positionTokens == old(positionTokens) + (if t in positions && t !in old(positions) then [t] else [])
      ensures filledOrders == old(filledOrders) + (if t in old(orders) then FilledBy(old(orders[t]), md) else [])
      ensures orderCounter == old(orderCounter) && orderTokens == old(orderTokens)
      ensures balanceHistory == old(balanceHistory)
    {
      was := if t in positions then positions[t].State() else PositionState(0.0, 0.0);
      added := [];
      if t !in orders {
        return;
      }
      ghost var s := orders[t];
      ghost var start := Book(was, balance);
      ghost var had := t in positions;
      assert had <==> t in positionTokens;
      assert MatchAll(s[..0], md) + s[0..] == s;
      assert s[..0] == [];
      assert filledOrders + FilledBy(s[..0], md) == filledOrders;
      ghost var final;
      ghost var states := map u | u in positions :: positions[u].State();
      added, final := MatchEach(t, md, s, start, old(orders), old(allFills), old(positions), states,
                         old(fillCounter), old(orderCounter), old(orderTokens), old(balanceHistory),
                         old(filledOrders), old(positionTokens));
      assert s[..|s|] == s && s[|s|..] == [];
      assert ListsAt(filledOrders, positionTokens, t, md, s, |s|, had, old(filledOrders), old(positionTokens));
      NewTokenListed(positionTokens, old(positionTokens), t, had, t in positions);
      assert orders == old(orders)[t := MatchAll(s[..|s|], md) + s[|s|..]] && |added| == CountMatches(s[..|s|], md);
      assert MatchAll(s, md) + [] == MatchAll(s, md);
    }

    /** The order side of `create_virtual_order`: the next id, a fresh OPEN
        order, the matching attempt when market data is given, and the order
        appended to its token's list. */
    method PlaceOrder(tokenId: string, side: string, price: real, size: real, md: Option<MarketData>,
                      conditionId: string, marketName: string, negRisk: bool)
      returns (order: VirtualOrder, fills: seq<Fill>, i: nat)
      requires Valid()
      modifies this`orderCounter, this`fillCounter, this`orders, this`orderTokens
      ensures Valid()
      ensures orderCounter == old(orderCounter) + 1
      ensures order == VirtualOrder(OrderIdOf(orderCounter), tokenId, conditionId, SideOf(side), price, size, 0.0, Open, marketName, negRisk)
      ensures var prev := if tokenId in old(orders) then old(orders[tokenId]) else [];
        orders == old(orders)[tokenId := prev + [order]] && i == |prev|
      ensures orderTokens == old(orderTokens) + (if tokenId in old(orders) then [] else [tokenId])
      ensures forall u :: u in positions ==> positions[u].State() == old(positions[u].State())
      ensures md.None? || Match(order, md.value).None? ==> fills == [] && fillCounter == old(fillCounter)
      ensures md.Some? && Match(order, md.value).Some? ==>
        && fillCounter == old(fillCounter) + 1
        && fills == [Fill(FillIdOf(fillCounter), order.orderId, tokenId, conditionId, order.side,
                          Match(order, md.value).value.price, Match(order, md.value).value.size, None, marketName)]
    {
      var id := GenerateOrderId();
      order := VirtualOrder(id, tokenId, conditionId, SideOf(side), price, size, 0.0, Open, marketName, negRisk);
      fills := [];
      if md.Some? {
        fills := TryMatchOrder(order, md.value);
      }
      i := StoreOrder(order);
    }

    /** `create_virtual_order`: a fresh OPEN order with the next id, appended
        to its token's list after one matching attempt when market data is
        given, and the attempt's fill processed. */
    method CreateVirtualOrder(tokenId: string, side: string, price: real, size: real, md: Option<MarketData>,
                              conditionId: string, marketName: string, negRisk: bool)
      returns (result: OrderResult, ghost was: PositionState)
      requires Valid()
      modifies this, positions.Values
      ensures Valid()
      ensures orderCounter == old(orderCounter) + 1 && result.orderId == OrderIdOf(orderCounter)
      ensures var o := VirtualOrder(result.orderId, tokenId, conditionId, SideOf(side), price, size, 0.0, Open, marketName, negRisk);
        var stored := if md.Some? then AfterMatch(o, md.value) else o;
        && result.order == stored && result.status == stored.status
        && orders == old(orders)[tokenId := (if tokenId in old(orders) then old(orders[tokenId]) else []) + [stored]]
        && (result.fills == [] <==> md.None? || Match(o, md.value).None?)
      ensures orderTokens == old(orderTokens) + (if tokenId in old(orders) then [] else [tokenId])
      ensures |result.fills| <= 1 && fillCounter == old(fillCounter) + |result.fills|
      ensures allFills == old(allFills) + result.fills
      ensures filledOrders == old(filledOrders) + (if result.order.status == Filled then [result.order] else [])
      ensures result.fills == [] ==> balance == old(balance)
      ensures result.fills != [] ==>
        var f := result.fills[0];
        var out := ApplyFill(was, f.side, f.price, f.size);
        && was == (if tokenId in old(positions) then old(positions[tokenId].State()) else PositionState(0.0, 0.0))
        && tokenId in positions && positions[tokenId].State() == out.position
        && f.pnl == Some(out.realized)
        && balance == SettleFill(old(balance), f.side, f.price, f.size, out.realized)
      ensures result.fills == [] || tokenId in old(positions) ==> positions == old(positions) && positionTokens == old(positionTokens)
      ensures result.fills != [] && tokenId !in old(positions) ==>
        && tokenId in positions && fresh(positions[tokenId]) && positions == old(positions)[tokenId := positions[tokenId]]
        && positionTokens == old(positionTokens) + [tokenId]
      ensures forall u :: u in old(positions) && u != tokenId ==> u in positions && positions[u].State() == old(positions[u].State())
      ensures result.fills == [] ==> forall u :: u in old(positions) ==> positions[u].State() == old(positions[u].State())
      ensures balanceHistory == old(balanceHistory)
    {
      ghost var prev := if tokenId in orders then orders[tokenId] else [];
      var order, fills, i := PlaceOrder(tokenId, side, price, size, md, conditionId, marketName, negRisk);
      ghost var stored := if md.Some? then AfterMatch(order, md.value) else order;
      var processed: seq<Fill> := [];
      if fills != [] {
        MatchNeverOverfills(order, md.value);
        var done;
        done, was := ProcessFill(fills[0], tokenId, i);
        processed := [done];
        assert FillOrder(order, fills[0].size) == stored;
        ReplaceLast(old(orders), tokenId, prev, order, stored);
      } else {
        was := PositionState(0.0, 0.0);
        assert order == stored;
      }
      assert orders == old(orders)[tokenId := prev + [stored]];
      result := OrderResult(order.orderId, orders[tokenId][i].status, processed, orders[tokenId][i]);
    }

    /** `cancel_order`: the first order with the id, in key order and then
        list order, is cancelled when still open; the answer says whether it
        was. An unknown id, or a first match already FILLED or CANCELLED,
        changes nothing. */
    method CancelOrder(id: string) returns (ok: bool)
      requires Valid()
      modifies this`orders
      ensures Valid()
      ensures var found := FindOrder(old(orders), orderTokens, id);
        && (found.None? ==> !ok && orders == old(orders))
        && (found.Some? ==>
          var t, i := found.value.0, found.value.1;
          && ok == old(orders[t][i]).IsOpen()
          && orders == if ok then old(orders)[t := old(orders[t])[i := old(orders[t][i]).(status := Cancelled)]] else old(orders))
    {
      var found := LocateOrder(id);
      if found.None? {
        return false;
      }
      var t, i := found.value.0, found.value.1;
      var o := orders[t][i];
      if !o.IsOpen() {
        return false;
      }
      assert ListOf(t, orders[t]);
      orders := orders[t := orders[t][i := o.(status := Cancelled)]];
      assert ListOf(t, orders[t]);
      return true;
    }

    /** The search of `cancel_order`: token lists in key order, each from its start. */
    method LocateOrder(id: string) returns (found: Option<(string, nat)>)
      requires OrdersValid()
      ensures found == FindOrder(orders, orderTokens, id)
    {
      var k := 0;
      while k < |orderTokens|
        invariant 0 <= k <= |orderTokens|
        invariant FindOrder(orders, orderTokens[k..], id) == FindOrder(orders, orderTokens, id)
      {
        var t := orderTokens[k];
        assert orderTokens[k..][0] == t && orderTokens[k..][1..] == orderTokens[k + 1..];
        var i := FindIndex(orders[t], id);
        if i.Some? {
          return Some((t, i.value));
        }
        k := k + 1;
      }
      return None;
    }

    /** Every open order of token `t` becomes CANCELLED. */
    method CancelOpenOf(t: string)
      requires t in orders
      modifies this`orders
      ensures orders == old(orders)[t := CancelOpen(old(orders[t]))]
    {
      var s := orders[t];
      var i := 0;
      while i < |s|
        invariant 0 <= i <= |s| && t in orders && |orders[t]| == |s|
        invariant orders == old(orders)[t := orders[t]]
        invariant forall j :: 0 <= j < |s| ==>
          orders[t][j] == if j < i && s[j].IsOpen() then s[j].(status := Cancelled) else s[j]
      {
        if s[i].IsOpen() {
          orders := orders[t := orders[t][i := s[i].(status := Cancelled)]];
        }
        i := i + 1;
      }
      assert orders[t] == CancelOpen(s);
    }

    /** `cancel_all_orders`: the open orders of the given token (when a
        non-empty id is given) or of every token become CANCELLED. */
    method CancelAllOrders(token: Option<string>)
      requires Valid()
      modifies this`orders
      ensures Valid()
      ensures orders.Keys == old(orders).Keys
      ensures forall t :: t in orders ==>
        orders[t] == if !Truthy(token) || t == token.value then CancelOpen(old(orders[t])) else old(orders[t])
    {
      if Truthy(token) {
        if token.value in orders {
          assert ListOf(token.value, orders[token.value]);
          CancelOpenKeepsList(token.value, orders[token.value]);
          CancelOpenOf(token.value);
        }
        return;
      }
      ghost var o0 := orders;
      CancelEveryToken();
      forall t | t in orders
        ensures ListOf(t, orders[t])
      {
        assert ListOf(t, o0[t]);
        CancelOpenKeepsList(t, o0[t]);
      }
    }

    /** The loop of `cancel_all_orders` over every token, in key order. */
    method CancelEveryToken()
      requires OrdersValid()
      modifies this`orders
      ensures orders.Keys == old(orders).Keys
      ensures forall t :: t in orders ==> orders[t] == CancelOpen(old(orders[t]))
    {
      var k := 0;
      while k < |orderTokens|
        invariant 0 <= k <= |orderTokens|
        invariant orders.Keys == old(orders).Keys
        invariant forall j :: 0 <= j < k ==> orders[orderTokens[j]] == CancelOpen(old(orders[orderTokens[j]]))
        invariant forall j :: k <= j < |orderTokens| ==> orders[orderTokens[j]] == old(orders[orderTokens[j]])
      {
        CancelOpenOf(orderTokens[k]);
        k := k + 1;
      }
      forall t | t in orders
        ensures orders[t] == CancelOpen(old(orders[t]))
      {
        var j :| 0 <= j < |orderTokens| && orderTokens[j] == t;
      }
    }

    /** `get_virtual_orders`: the token's list, or all lists in key order. */
    method GetVirtualOrders(token: Option<string>) returns (r: seq<VirtualOrder>)
      requires Valid()
      ensures r == Listed(orders, orderTokens, token)
      ensures forall o :: o in r ==> o.tokenId in orders && WellFormed(o)
    {
      if Truthy(token) {
        r := if token.value in orders then orders[token.value] else [];
        return;
      }
      r := [];
      var k := 0;
      while k < |orderTokens|
        invariant 0 <= k <= |orderTokens|
        invariant r == ConcatOrders(orders, orderTokens[..k])
      {
        assert orderTokens[..k + 1][..k] == orderTokens[..k];
        r := r + orders[orderTokens[k]];
        k := k + 1;
      }
      assert orderTokens[..k] == orderTokens;
      ConcatMembers(orders, orderTokens);
    }

    /** `get_open_orders`: the listed orders still OPEN or PARTIALLY_FILLED, in order. */
    method GetOpenOrders(token: Option<string>) returns (r: seq<VirtualOrder>)
      requires Valid()
      ensures r == OpenOnly(Listed(orders, orderTokens, token))
      ensures forall o :: o in r <==> o in Listed(orders, orderTokens, token) && o.IsOpen()
    {
      var all := GetVirtualOrders(token);
      r := [];
      var k := 0;
      while k < |all|
        invariant 0 <= k <= |all|
        invariant r == OpenOnly(all[..k])
      {
        assert all[..k + 1][..k] == all[..k];
        if all[k].IsOpen() {
          r := r + [all[k]];
        }
        k := k + 1;
      }
      assert all[..k] == all;
      OpenOnlyMembers(all);
    }

    /** `get_balance_snapshot`: positions are not marked to a price, so the
        position value and unrealized PnL are reset to 0 and the snapshot's
        total, which is then the cash alone, joins the history. */
    method GetBalanceSnapshot() returns (snapshot: SimulationBalance)
      modifies this`balance, this`balanceHistory
      ensures balance == old(balance).(positionValue := 0.0, unrealizedPnl := 0.0)
      ensures snapshot == balance && snapshot.TotalValue() == snapshot.usdcBalance
      ensures balanceHistory == old(balanceHistory) + [snapshot.TotalValue()]
    {
      balance := balance.(positionValue := 0.0, unrealizedPnl := 0.0);
      balanceHistory := balanceHistory + [balance.TotalValue()];
      snapshot := balance;
    }

    /** `calculate_max_drawdown` over the recorded totals, from the initial
        balance as first peak. */
    method CalculateMaxDrawdown() returns (maxDd: real, maxDdPct: real)
      ensures balanceHistory == [] ==> maxDd == 0.0 && maxDdPct == 0.0
      ensures maxDd == ScanDrawdown(initialBalance, balanceHistory).maxDd
      ensures maxDdPct == ScanDrawdown(initialBalance, balanceHistory).maxPct
      ensures maxDd >= 0.0 && forall k :: 0 <= k < |balanceHistory| ==> maxDd >= DrawdownAt(initialBalance, balanceHistory, k)
    {
      var h := balanceHistory;
      if h == [] {
        return 0.0, 0.0;
      }
      var peak := initialBalance;
      maxDd, maxDdPct := 0.0, 0.0;
      var k := 0;
      while k < |h|
        invariant 0 <= k <= |h|
        invariant DrawdownScan(peak, maxDd, maxDdPct) == ScanDrawdown(initialBalance, h[..k])
      {
        ScanDrawdownPrefix(initialBalance, h, k);
        var value := h[k];
        if value > peak {
          peak := value;
        }
        var dd := peak - value;
        var ddPct := DrawdownPct(dd, peak);
        if dd > maxDd {
          maxDd := dd;
          maxDdPct := ddPct;
        }
        k := k + 1;
      }
      assert h[..k] == h;
      MaxDrawdownIsMax(initialBalance, balanceHistory);
    }

    /** The number of positions of `tokens` with a nonzero size. */
    function OpenPositionCount(tokens: seq<string>): (n: nat)
      requires forall t :: t in tokens ==> t in positions
      reads this, positions.Values
      ensures n <= |tokens|
    {
      if tokens == [] then 0
      else OpenPositionCount(tokens[..|tokens| - 1]) + (if positions[tokens[|tokens| - 1]].size != 0.0 then 1 else 0)
    }

    /** The open-position count of `generate_report`. */
    method CountOpenPositions() returns (open: nat)
      requires Valid()
      ensures open == OpenPositionCount(positionTokens)
    {
      open := 0;
      var k := 0;
      while k < |positionTokens|
        invariant 0 <= k <= |positionTokens|
        invariant open == OpenPositionCount(positionTokens[..k])
      {
        assert positionTokens[..k + 1][..k] == positionTokens[..k];
        if positions[positionTokens[k]].size != 0.0 {
          open := open + 1;
        }
        k := k + 1;
      }
      assert positionTokens[..k] == positionTokens;
    }

    /** `generate_report` without its timestamps: trade counts with the win
        rate as a percentage, the average realized PnL per trade, the
        maximum drawdown, the open positions and the total PnL. */
    method GenerateReport() returns (r: Report)
      requires Valid()
      ensures r.initialBalance == initialBalance && r.currentBalance == balance.TotalValue()
      ensures r.totalTrades == |allFills| && r.winningTrades == CountWinning(allFills) && r.losingTrades == CountLosing(allFills)
      ensures r.winningTrades + r.losingTrades <= r.totalTrades
      ensures 0.0 <= r.winRate <= 100.0 && (r.totalTrades == 0 ==> r.winRate == 0.0 && r.avgTradePnl == 0.0)
      ensures r.avgTradePnl == PerTrade(balance.realizedPnl, r.totalTrades)
      ensures r.maxDrawdown == ScanDrawdown(initialBalance, balanceHistory).maxDd && r.maxDrawdown >= 0.0
      ensures r.maxDrawdownPct == ScanDrawdown(initialBalance, balanceHistory).maxPct
      ensures r.openPositions == OpenPositionCount(positionTokens) && r.openPositions <= |positionTokens|
      ensures r.totalPnl == balance.realizedPnl + balance.unrealizedPnl
      ensures r.totalPnlPct == PercentOf(r.totalPnl, initialBalance)
    {
      var winning := CountWinning(allFills);
      var losing := CountLosing(allFills);
      var total := |allFills|;
      WinnersAndLosers(allFills);
      var winRate := Percent(winning, total);
      var avgPnl := PerTrade(balance.realizedPnl, total);
      var maxDd, maxDdPct := CalculateMaxDrawdown();
      var open := CountOpenPositions();
      var totalPnl := balance.realizedPnl + balance.unrealizedPnl;
      var totalPnlPct := PercentOf(totalPnl, initialBalance);
      r := Report(initialBalance, balance.TotalValue(), totalPnl, totalPnlPct, total, winning, losing,
                  winRate, avgPnl, maxDd, maxDdPct, open);
    }

    /** The summary lines of the positions of `tokens` with a nonzero size, in order. */
    function SummaryLines(tokens: seq<string>): seq<PositionLine>
      requires forall t :: t in tokens ==> t in positions
      reads this, positions.Values
    {
      if tokens == [] then []
      else
        var t := tokens[|tokens| - 1];
        var p := positions[t];
        SummaryLines(tokens[..|tokens| - 1]) + (if p.size != 0.0 then [PositionLine(t, p.size, p.avgPrice, p.marketName)] else [])
    }

    /** `get_position_summary`: one line per position with a nonzero size, in
        key order, carrying its size, average price and market name, plus the
        cash and the total value. */
    method GetPositionSummary() returns (lines: seq<PositionLine>, usdcBalance: real, totalValue: real)
      requires Valid()
      ensures lines == SummaryLines(positionTokens)
      ensures forall l :: l in lines ==>
        && l.assetId in positions && l.position != 0.0
        && l.position == positions[l.assetId].size && l.avgPrice == positions[l.assetId].avgPrice
        && l.marketName == positions[l.assetId].marketName
      ensures forall t :: t in positions && positions[t].size != 0.0 ==> exists l :: l in lines && l.assetId == t
      ensures usdcBalance == balance.usdcBalance && totalValue == balance.TotalValue()
    {
      lines := [];
      var k := 0;
      while k < |positionTokens|
        invariant 0 <= k <= |positionTokens|
        invariant lines == SummaryLines(positionTokens[..k])
        invariant forall l :: l in lines ==>
          && l.assetId in positions && l.position != 0.0
          && l.position == positions[l.assetId].size && l.avgPrice == positions[l.assetId].avgPrice
          && l.marketName == positions[l.assetId].marketName
        invariant forall j :: 0 <= j < k && positions[positionTokens[j]].size != 0.0 ==>
          exists l :: l in lines && l.assetId == positionTokens[j]
      {
        assert positionTokens[..k + 1][..k] == positionTokens[..k];
        var t := positionTokens[k];
        var p := positions[t];
        if p.size != 0.0 {
          lines := lines + [PositionLine(t, p.size, p.avgPrice, p.marketName)];
          assert lines[|lines| - 1].assetId == t;
        }
        k := k + 1;
      }
      assert positionTokens[..k] == positionTokens;
      usdcBalance := balance.usdcBalance;
      totalValue := balance.TotalValue();
    }
  }
}
