/** Data structures of the dry-run simulation: virtual orders, fills, the
    signed virtual position with its weighted-average cost basis, and the
    virtual balance. Prices and sizes are exact reals. */
module SimulationModels {
  import opened Util

  datatype OrderStatus = Open | PartiallyFilled | Filled | Cancelled

  datatype OrderSide = Buy | Sell

  /** A resting virtual order. The engine changes `filledSize` and `status`. */
  datatype VirtualOrder = VirtualOrder(
    orderId: string,
    tokenId: string,
    conditionId: string,
    side: OrderSide,
    price: real,
    size: real,
    filledSize: real,
    status: OrderStatus,
    marketName: string,
    negRisk: bool)
  {
    /** Size still to be filled. */
    function RemainingSize(): (r: real)
      ensures filledSize + r == size
    {
      size - filledSize
    }

    /** The order is completely filled. */
    function IsFilled(): (b: bool)
      ensures b <==> RemainingSize() <= 0.0
    {
      filledSize >= size
    }

    /** OPEN or PARTIALLY_FILLED: the statuses the engine still matches and may cancel. */
    predicate IsOpen() {
      status == Open || status == PartiallyFilled
    }
  }

  /** One execution against a virtual order; `pnl` is set once the fill is processed. */
  datatype Fill = Fill(
    fillId: string,
    orderId: string,
    tokenId: string,
    conditionId: string,
    side: OrderSide,
    price: real,
    size: real,
    pnl: Option<real>,
    marketName: string)

  /** The part of a position that fills change: signed size (long > 0) and average price. */
  datatype PositionState = PositionState(size: real, avgPrice: real)

  /** A position after a fill together with the PnL the fill realized. */
  datatype FillOutcome = FillOutcome(position: PositionState, realized: real)

  /** The signed quantity a fill adds to a position. */
  function SignedQty(side: OrderSide, qty: real): real {
    if side == Buy then qty else -qty
  }

  /** The position after a fill and the PnL it realizes, branch for branch as
      `VirtualPosition.update_with_fill` computes them. */
  function ApplyFill(p: PositionState, side: OrderSide, price: real, qty: real): (r: FillOutcome)
    ensures r.position.size == p.size + SignedQty(side, qty)
  {
    match side
    case Buy => if p.size < 0.0 then CloseShort(p, price, qty) else AddLong(p, price, qty)
    case Sell => if p.size > 0.0 then CloseLong(p, price, qty) else AddShort(p, price, qty)
  }

  /** Buying against a short position. */
  function CloseShort(p: PositionState, price: real, qty: real): (r: FillOutcome)
    requires p.size < 0.0
    ensures r.position.size == p.size + qty
  {
    var closeSize := Min(Abs(p.size), qty);
    var pnl := (p.avgPrice - price) * closeSize;
    if qty > Abs(p.size) then FillOutcome(PositionState(qty - Abs(p.size), price), pnl)
    else if qty == Abs(p.size) then FillOutcome(PositionState(0.0, 0.0), pnl)
    else FillOutcome(PositionState(p.size + qty, p.avgPrice), pnl)
  }

  /** Buying into a flat or long position. */
  function AddLong(p: PositionState, price: real, qty: real): (r: FillOutcome)
    requires p.size >= 0.0
    ensures r.position.size == p.size + qty
  {
    var totalValue := p.size * p.avgPrice + qty * price;
    var newSize := p.size + qty;
    FillOutcome(PositionState(newSize, if newSize > 0.0 then totalValue / newSize else 0.0), 0.0)
  }

  /** Selling against a long position. */
  function CloseLong(p: PositionState, price: real, qty: real): (r: FillOutcome)
    requires p.size > 0.0
    ensures r.position.size == p.size - qty
  {
    var closeSize := Min(p.size, qty);
    var pnl := (price - p.avgPrice) * closeSize;
    if qty > p.size then FillOutcome(PositionState(-(qty - p.size), price), pnl)
    else if qty == p.size then FillOutcome(PositionState(0.0, 0.0), pnl)
    else FillOutcome(PositionState(p.size - qty, p.avgPrice), pnl)
  }

  /** Selling into a flat or short position. */
  function AddShort(p: PositionState, price: real, qty: real): (r: FillOutcome)
    requires p.size <= 0.0
    ensures r.position.size == p.size - qty
  {
    var totalValue := Abs(p.size) * p.avgPrice + qty * price;
    var newSize := p.size - qty;
    FillOutcome(PositionState(newSize, if newSize < 0.0 then totalValue / Abs(newSize) else 0.0), 0.0)
  }

  /** Unrealized PnL of a position marked at `currentPrice`. */
  function UnrealizedPnl(p: PositionState, currentPrice: real): (r: real)
    ensures p.size == 0.0 ==> r == 0.0
    ensures r == (currentPrice - p.avgPrice) * p.size
  {
    if p.size == 0.0 then 0.0 else (currentPrice - p.avgPrice) * p.size
  }

  /** A fill in the direction of the position (or from flat) realizes nothing,
      grows the position by the fill's quantity, keeps the signed cost
      `size * avg` equal to the old one plus the fill's signed notional, and
      leaves the average between the old average and the fill price (exactly
      the fill price when starting flat). */
  lemma AddingFillAveragesCost(p: PositionState, side: OrderSide, price: real, qty: real)
    requires qty > 0.0
    requires (side == Buy && p.size >= 0.0) || (side == Sell && p.size <= 0.0)
    ensures var r := ApplyFill(p, side, price, qty);
      && r.realized == 0.0
      && Abs(r.position.size) == Abs(p.size) + qty
      && r.position.size * r.position.avgPrice == p.size * p.avgPrice + SignedQty(side, qty) * price
      && (p.size == 0.0 ==> r.position.avgPrice == price)
      && Min(p.avgPrice, price) <= r.position.avgPrice <= Max(p.avgPrice, price)
  {
    if side == Buy {
      AddLongAverages(p, price, qty);
    } else {
      AddShortAverages(p, price, qty);
    }
  }

  lemma AddLongAverages(p: PositionState, price: real, qty: real)
    requires qty > 0.0 && p.size >= 0.0
    ensures var r := AddLong(p, price, qty);
      && r.position.size * r.position.avgPrice == p.size * p.avgPrice + qty * price
      && (p.size == 0.0 ==> r.position.avgPrice == price)
      && Min(p.avgPrice, price) <= r.position.avgPrice <= Max(p.avgPrice, price)
  {
    var h := p.size;
    var avg := AddLong(p, price, qty).position.avgPrice;
    DivCancels(h * p.avgPrice + qty * price, h + qty);
    AverageBetween(h, p.avgPrice, qty, price, avg);
  }

  lemma AddShortAverages(p: PositionState, price: real, qty: real)
    requires qty > 0.0 && p.size <= 0.0
    ensures var r := AddShort(p, price, qty);
      && r.position.size * r.position.avgPrice == p.size * p.avgPrice - qty * price
      && (p.size == 0.0 ==> r.position.avgPrice == price)
      && Min(p.avgPrice, price) <= r.position.avgPrice <= Max(p.avgPrice, price)
  {
    var h := -p.size;
    var avg := AddShort(p, price, qty).position.avgPrice;
    assert Abs(p.size) == h && Abs(p.size - qty) == h + qty;
    DivCancels(h * p.avgPrice + qty * price, h + qty);
    AverageBetween(h, p.avgPrice, qty, price, avg);
    assert (p.size - qty) * avg == -((h + qty) * avg);
  }

  /** `n * (t / n) == t` for nonzero `n`. */
  lemma DivCancels(t: real, n: real)
    requires n != 0.0
    ensures n * (t / n) == t
  {
  }

  /** A value whose `held + qty` multiple is the weighted sum of `a` (weight
      `held`) and `c` (weight `qty`) lies between `a` and `c`. */
  lemma AverageBetween(held: real, a: real, qty: real, c: real, avg: real)
    requires held >= 0.0 && qty > 0.0
    requires (held + qty) * avg == held * a + qty * c
    ensures Min(a, c) <= avg <= Max(a, c)
    ensures held == 0.0 ==> avg == c
  {
    if a <= c {
      AverageWithin(held, a, qty, c, avg, a, c);
    } else {
      AverageWithin(held, a, qty, c, avg, c, a);
    }
    if held == 0.0 {
      assert qty * avg == qty * c;
    }
  }

  lemma AverageWithin(held: real, a: real, qty: real, c: real, avg: real, lo: real, hi: real)
    requires held >= 0.0 && qty > 0.0
    requires (held + qty) * avg == held * a + qty * c
    requires lo <= a <= hi && lo <= c <= hi
    ensures lo <= avg <= hi
  {
    WeightedAtLeast(held, a, qty, c, lo);
    WeightedAtLeast(held, -a, qty, -c, -hi);
    assert (held + qty) * -hi <= -((held + qty) * avg);
    ProductBounds(avg, held + qty, lo, hi);
  }

  /** A weighted sum of values that are at least `lo` is at least `lo` times the total weight. */
  lemma WeightedAtLeast(held: real, a: real, qty: real, c: real, lo: real)
    requires held >= 0.0 && qty > 0.0 && lo <= a && lo <= c
    ensures (held + qty) * lo <= held * a + qty * c
  {
    MulMono(held, lo, a);
    MulMono(qty, lo, c);
    assert (held + qty) * lo == held * lo + qty * lo;
  }

  /** From `n*lo <= n*x <= n*hi` with positive `n` follows `lo <= x <= hi`. */
  lemma ProductBounds(x: real, n: real, lo: real, hi: real)
    requires n > 0.0 && n * lo <= n * x <= n * hi
    ensures lo <= x <= hi
  {
    if x < lo {
      MulStrict(n, x, lo);
    }
    if x > hi {
      MulStrict(n, hi, x);
    }
  }

  lemma MulMono(k: real, x: real, y: real)
    requires k >= 0.0 && x <= y
    ensures k * x <= k * y
  {
  }

  lemma MulStrict(k: real, x: real, y: real)
    requires k > 0.0 && x < y
    ensures k * x < k * y
  {
  }

  /** A fill against the position realizes `(exit - entry) * closed` on the
      closed part; a partial close keeps the average, an exact close flattens
      the position, an over-close flips it at the fill price. */
  lemma ClosingFillRealizes(p: PositionState, side: OrderSide, price: real, qty: real)
    requires qty > 0.0
    requires (side == Sell && p.size > 0.0) || (side == Buy && p.size < 0.0)
    ensures var r := ApplyFill(p, side, price, qty);
      && (side == Sell ==> r.realized == (price - p.avgPrice) * Min(p.size, qty))
      && (side == Buy ==> r.realized == (p.avgPrice - price) * Min(Abs(p.size), qty))
      && (qty < Abs(p.size) ==> r.position.avgPrice == p.avgPrice && (r.position.size > 0.0 <==> p.size > 0.0))
      && (qty == Abs(p.size) ==> r.position == PositionState(0.0, 0.0))
      && (qty > Abs(p.size) ==> r.position.avgPrice == price && (r.position.size > 0.0 <==> p.size < 0.0))
  {
  }

  /** Accounting identity of a single fill of positive quantity: the realized
      PnL plus the new position's mark-to-market at any price `mark` equals the
      old position's mark-to-market plus the fill's own gain at that mark.
      Marking at the fill price, a fill moves value from unrealized to realized
      PnL and creates none. */
  lemma FillConservesMarkToMarket(p: PositionState, side: OrderSide, price: real, qty: real, mark: real)
    requires qty > 0.0
    ensures var r := ApplyFill(p, side, price, qty);
      r.realized + UnrealizedPnl(r.position, mark) == UnrealizedPnl(p, mark) + SignedQty(side, qty) * (mark - price)
  {
    if (side == Buy && p.size >= 0.0) || (side == Sell && p.size <= 0.0) {
      AddingConservesMark(p, side, price, qty, mark);
    } else if side == Sell {
      CloseLongConservesMark(p, price, qty, mark);
    } else {
      CloseShortConservesMark(p, price, qty, mark);
    }
  }

  lemma AddingConservesMark(p: PositionState, side: OrderSide, price: real, qty: real, mark: real)
    requires qty > 0.0
    requires (side == Buy && p.size >= 0.0) || (side == Sell && p.size <= 0.0)
    ensures var r := ApplyFill(p, side, price, qty);
      r.realized + UnrealizedPnl(r.position, mark) == UnrealizedPnl(p, mark) + SignedQty(side, qty) * (mark - price)
  {
    var r := ApplyFill(p, side, price, qty);
    AddingFillAveragesCost(p, side, price, qty);
    var held := Abs(p.size);
    AddingMarkIdentity(held, p.avgPrice, qty, price, mark, r.position.avgPrice);
    if side == Buy {
      assert r.position.size == held + qty && p.size == held;
    } else {
      assert r.position.size == -(held + qty) && p.size == -held;
    }
  }

  lemma CloseLongConservesMark(p: PositionState, price: real, qty: real, mark: real)
    requires qty > 0.0 && p.size > 0.0
    ensures var r := ApplyFill(p, Sell, price, qty);
      r.realized + UnrealizedPnl(r.position, mark) == UnrealizedPnl(p, mark) + SignedQty(Sell, qty) * (mark - price)
  {
    var r := ApplyFill(p, Sell, price, qty);
    var s, a := p.size, p.avgPrice;
    if qty > s {
      assert r.position == PositionState(-(qty - s), price) && r.realized == (price - a) * s;
      assert (price - a) * s + (mark - price) * (-(qty - s)) == (mark - a) * s + (-qty) * (mark - price);
    } else if qty == s {
      assert r.position == PositionState(0.0, 0.0) && r.realized == (price - a) * qty;
      assert (price - a) * qty == (mark - a) * s + (-qty) * (mark - price);
    } else {
      assert r.position == PositionState(s - qty, a) && r.realized == (price - a) * qty;
      assert (price - a) * qty + (mark - a) * (s - qty) == (mark - a) * s + (-qty) * (mark - price);
    }
  }

  lemma CloseShortConservesMark(p: PositionState, price: real, qty: real, mark: real)
    requires qty > 0.0 && p.size < 0.0
    ensures var r := ApplyFill(p, Buy, price, qty);
      r.realized + UnrealizedPnl(r.position, mark) == UnrealizedPnl(p, mark) + SignedQty(Buy, qty) * (mark - price)
  {
    var r := ApplyFill(p, Buy, price, qty);
    var h, a := -p.size, p.avgPrice;
    assert Abs(p.size) == h;
    if qty > h {
      assert r.position == PositionState(qty - h, price) && r.realized == (a - price) * h;
      assert (a - price) * h + (mark - price) * (qty - h) == (mark - a) * (-h) + qty * (mark - price);
    } else if qty == h {
      assert r.position == PositionState(0.0, 0.0) && r.realized == (a - price) * qty;
      assert (a - price) * qty == (mark - a) * (-h) + qty * (mark - price);
    } else {
      assert r.position == PositionState(-h + qty, a) && r.realized == (a - price) * qty;
      assert (a - price) * qty + (mark - a) * (-h + qty) == (mark - a) * (-h) + qty * (mark - price);
    }
  }

  /** The mark-to-market identity behind a fill that adds to a position. */
  lemma AddingMarkIdentity(held: real, a: real, qty: real, price: real, mark: real, avg: real)
    requires (held + qty) * avg == held * a + qty * price
    ensures (mark - avg) * (held + qty) == (mark - a) * held + qty * (mark - price)
    ensures (mark - avg) * -(held + qty) == (mark - a) * -held + -qty * (mark - price)
  {
  }

  /** Buying `x` from flat and selling the same `x` at the same price returns
      to flat with no realized PnL. */
  lemma BuyThenSellRoundTrip(x: real, price: real)
    requires x > 0.0
    ensures var afterBuy := ApplyFill(PositionState(0.0, 0.0), Buy, price, x);
      var afterSell := ApplyFill(afterBuy.position, Sell, price, x);
      && afterSell.position == PositionState(0.0, 0.0)
      && afterBuy.realized + afterSell.realized == 0.0
  {
    var afterBuy := ApplyFill(PositionState(0.0, 0.0), Buy, price, x);
    assert x * price / x == price;
    assert afterBuy.position == PositionState(x, price);
  }

  /** From 100 long at 0.50, selling 50 filled at 0.60 leaves 50 at 0.50 and realizes 5.00. */
  lemma PartialCloseScenario()
    ensures ApplyFill(PositionState(100.0, 0.5), Sell, 0.6, 50.0) == FillOutcome(PositionState(50.0, 0.5), 5.0)
  {
  }

  /** A virtual position of one token; fills update its size and average price in place. */
  class VirtualPosition {
    const tokenId: string
    const conditionId: string
    const marketName: string
    var size: real
    var avgPrice: real

    constructor (tokenId: string, conditionId: string, marketName: string)
      ensures this.tokenId == tokenId && this.conditionId == conditionId && this.marketName == marketName
      ensures size == 0.0 && avgPrice == 0.0
    {
      this.tokenId := tokenId;
      this.conditionId := conditionId;
      this.marketName := marketName;
      size := 0.0;
      avgPrice := 0.0;
    }

    function State(): PositionState
      reads this
    {
      PositionState(size, avgPrice)
    }

    /** Applies a fill and returns the PnL it realizes. */
    method UpdateWithFill(fill: Fill) returns (realizedPnl: real)
      modifies this
      ensures State() == ApplyFill(old(State()), fill.side, fill.price, fill.size).position
      ensures realizedPnl == ApplyFill(old(State()), fill.side, fill.price, fill.size).realized
    {
      var s, a := size, avgPrice;
      ghost var p0 := PositionState(s, a);
      realizedPnl := 0.0;
      if fill.side == Buy {
        if s < 0.0 {
          // buying to close a short position
          var closeSize := Min(Abs(s), fill.size);
          realizedPnl := (a - fill.price) * closeSize;
          if fill.size > Abs(s) {
            s, a := fill.size - Abs(s), fill.price;
          } else if fill.size == Abs(s) {
            s, a := 0.0, 0.0;
          } else {
            s := s + fill.size;
          }
          assert FillOutcome(PositionState(s, a), realizedPnl) == CloseShort(p0, fill.price, fill.size);
        } else {
          // adding to a long position
          var totalValue := s * a + fill.size * fill.price;
          s := s + fill.size;
          a := if s > 0.0 then totalValue / s else 0.0;
          assert FillOutcome(PositionState(s, a), realizedPnl) == AddLong(p0, fill.price, fill.size);
        }
      } else {
        if s > 0.0 {
          // selling to close a long position
          var closeSize := Min(s, fill.size);
          realizedPnl := (fill.price - a) * closeSize;
          if fill.size > s {
            s, a := -(fill.size - s), fill.price;
          } else if fill.size == s {
            s, a := 0.0, 0.0;
          } else {
            s := s - fill.size;
          }
          assert FillOutcome(PositionState(s, a), realizedPnl) == CloseLong(p0, fill.price, fill.size);
        } else {
          // adding to a short position
          var totalValue := Abs(s) * a + fill.size * fill.price;
          s := s - fill.size;
          a := if s < 0.0 then totalValue / Abs(s) else 0.0;
          assert FillOutcome(PositionState(s, a), realizedPnl) == AddShort(p0, fill.price, fill.size);
        }
      }
      size, avgPrice := s, a;
    }

    /** Unrealized PnL at `currentPrice`. */
    function CalculateUnrealizedPnl(currentPrice: real): (r: real)
      reads this
      ensures size == 0.0 ==> r == 0.0
      ensures r == (currentPrice - avgPrice) * size
    {
      if size == 0.0 then 0.0 else (currentPrice - avgPrice) * size
    }
  }

  /** The virtual cash account and its marks. */
  datatype SimulationBalance = SimulationBalance(
    usdcBalance: real,
    positionValue: real,
    realizedPnl: real,
    unrealizedPnl: real)
  {
    /** Cash plus the value of open positions. */
    function TotalValue(): (r: real)
      ensures r - positionValue == usdcBalance
    {
      usdcBalance + positionValue
    }
  }
}
