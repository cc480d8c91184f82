/** The market-feed and user-feed side of the bot: the order-book mirror
    per asset (`all_data`), the subscription filter and the 30-second
    trade-trigger cooldown of `process_data`, and the in-flight trade
    tracker (`performing` with its timestamps) that user trade events
    update. Calls into the trading module and the position/order
    refreshers are not part of this model; the user-feed step reports them
    as effects. The clock is the parameter `now`. */
module DataProcessing {
  import opened Util
  import opened SortedBook

  /** The two sides of one asset's book. */
  datatype Book = Book(bids: seq<Level>, asks: seq<Level>)

  predicate BookValid(b: Book) {
    Ascending(b.bids) && Ascending(b.asks)
  }

  predicate BooksValid(data: map<string, Book>) {
    forall a :: a in data ==> BookValid(data[a])
  }

  const EmptyBook := Book([], [])

  /** The seconds a price change must wait after the last trigger of its asset. */
  const TradeCooldown: real := 30.0

  // ---------------------------------------------------------------------
  // Book updates

  /** One entry of a `price_change` event. */
  datatype PriceChange = PriceChange(side: string, price: real, size: real)

  /** `process_price_change` on one side: size 0 deletes the level (if
      there is one), any other size sets it. */
  function UpdateLevel(s: seq<Level>, p: real, v: real): (r: seq<Level>)
    requires Ascending(s)
    ensures Ascending(r)
  {
    if v == 0.0 then Delete(s, p) else Set(s, p, v)
  }

  /** One change applied to a book: `BUY` changes the bids, every other side the asks. */
  function ApplyChange(b: Book, c: PriceChange): (r: Book)
    requires BookValid(b)
    ensures BookValid(r)
  {
    if c.side == "BUY" then b.(bids := UpdateLevel(b.bids, c.price, c.size))
    else b.(asks := UpdateLevel(b.asks, c.price, c.size))
  }

  /** The changes applied in order. */
  function ApplyChanges(b: Book, cs: seq<PriceChange>): (r: Book)
    requires BookValid(b)
    ensures BookValid(r)
  {
    if cs == [] then b else ApplyChange(ApplyChanges(b, cs[..|cs| - 1]), cs[|cs| - 1])
  }

  /** A price change touches one level of one side: size 0 leaves nothing
      at the price, any other size leaves exactly that size; every other
      level and the other side are as before. */
  lemma ChangeTouchesOneLevel(b: Book, c: PriceChange, q: real)
    requires BookValid(b)
    ensures var r := ApplyChange(b, c);
      var (before, after, other, otherAfter) :=
        if c.side == "BUY" then (b.bids, r.bids, b.asks, r.asks) else (b.asks, r.asks, b.bids, r.bids);
      && otherAfter == other
      && Get(after, q) == if q != c.price then Get(before, q) else if c.size == 0.0 then None else Some(c.size)
  {
    var side := if c.side == "BUY" then b.bids else b.asks;
    if c.size == 0.0 {
      DeleteGet(side, c.price, q);
    } else {
      SetGet(side, c.price, c.size, q);
    }
  }

  /** Deleting a level that is not there leaves the book as it was. */
  lemma DeleteAbsentIsNoOp(b: Book, c: PriceChange)
    requires BookValid(b) && c.size == 0.0
    requires Get(if c.side == "BUY" then b.bids else b.asks, c.price).None?
    ensures ApplyChange(b, c) == b
  {
  }

  // ---------------------------------------------------------------------
  // Market feed

  /** A market-feed message: its `event_type` and `market` fields, the
      levels of a `book` event and the two change lists of a
      `price_change` event (the current `price_changes` and the legacy
      `changes`). */
  datatype MarketMessage = MarketMessage(
    eventType: Option<string>,
    market: Option<string>,
    bids: seq<Level>,
    asks: seq<Level>,
    priceChanges: Option<seq<PriceChange>>,
    changes: Option<seq<PriceChange>>)

  /** An element of the feed's list: a dictionary or anything else. */
  datatype Incoming = NotADict | Message(m: MarketMessage)

  /** `json_data.get('price_changes') or json_data.get('changes', [])`. */
  function ChangesOf(m: MarketMessage): seq<PriceChange> {
    if m.priceChanges.Some? && m.priceChanges.value != [] then m.priceChanges.value
    else m.changes.GetOr([])
  }

  /** The part of the global state the market feed changes. */
  datatype Feed = Feed(allData: map<string, Book>, lastAction: map<string, real>)

  /** A feed after one message, and whether the message triggered trading
      for its asset. */
  datatype FeedStep = FeedStep(feed: Feed, trigger: bool)

  /** The asset a message is processed for, or None when it is dropped:
      not a dictionary, no `event_type`, no `market`, or a market outside
      the subscription while aggressive mode is off. */
  function AcceptedAsset(msg: Incoming, subscribed: set<string>, aggressive: bool): (r: Option<string>)
    ensures r.Some? ==> msg.Message? && Truthy(msg.m.eventType) && Truthy(msg.m.market) && r.value == msg.m.market.value
    ensures r.Some? ==> r.value in subscribed || aggressive
  {
    if msg.NotADict? || !Truthy(msg.m.eventType) || !Truthy(msg.m.market) then None
    else if msg.m.market.value !in subscribed && !aggressive then None
    else Some(msg.m.market.value)
  }

  /** What `process_data` does with one message. With `dryRun` on, the
      DRY_RUN test after the change loop reads `global_state.simulation_engine`,
      which no module of the bot defines: the AttributeError ends the
      message in the per-message `except`, after the changes and before
      the cooldown test. */
  function StepMessage(f: Feed, msg: Incoming, subscribed: set<string>, trade: bool, aggressive: bool, dryRun: bool, now: real): (r: FeedStep)
    requires BooksValid(f.allData)
    ensures BooksValid(r.feed.allData)
  {
    match AcceptedAsset(msg, subscribed, aggressive)
    case None => FeedStep(f, false)
    case Some(asset) =>
      var m := msg.m;
      if m.eventType.value == "book" then
        FeedStep(f.(allData := f.allData[asset := Book(FromEntries(m.bids), FromEntries(m.asks))]), trade)
      else if m.eventType.value == "price_change" then
        var cs := ChangesOf(m);
        if cs == [] then FeedStep(f, false)
        else
          var b0 := if asset in f.allData then f.allData[asset] else EmptyBook;
          var data := f.allData[asset := ApplyChanges(b0, cs)];
          if dryRun then FeedStep(f.(allData := data), false)
          else if trade && now - (if asset in f.lastAction then f.lastAction[asset] else 0.0) >= TradeCooldown then
            FeedStep(Feed(data, f.lastAction[asset := now]), true)
          else FeedStep(f.(allData := data), false)
      else FeedStep(f, false)
  }

  /** The messages of one `process_data` call in order, with the assets they trigger. */
  datatype FeedRun = FeedRun(feed: Feed, triggers: seq<string>)

  function RunMessages(f: Feed, msgs: seq<Incoming>, subscribed: set<string>, trade: bool, aggressive: bool, dryRun: bool, now: real): (r: FeedRun)
    requires BooksValid(f.allData)
    ensures BooksValid(r.feed.allData)
  {
    if msgs == [] then FeedRun(f, [])
    else
      var prev := RunMessages(f, msgs[..|msgs| - 1], subscribed, trade, aggressive, dryRun, now);
      var msg := msgs[|msgs| - 1];
      var step := StepMessage(prev.feed, msg, subscribed, trade, aggressive, dryRun, now);
      FeedRun(step.feed, prev.triggers + if step.trigger then [msg.m.market.value] else [])
  }

  /** Dropped messages change nothing and trigger nothing. */
  lemma DroppedMessageIsIgnored(f: Feed, msg: Incoming, subscribed: set<string>, trade: bool, aggressive: bool, dryRun: bool, now: real)
    requires BooksValid(f.allData)
    requires || msg.NotADict?
             || (msg.Message? && (!Truthy(msg.m.eventType) || !Truthy(msg.m.market)))
             || (msg.Message? && msg.m.market.Some? && msg.m.market.value !in subscribed && !aggressive)
    ensures StepMessage(f, msg, subscribed, trade, aggressive, dryRun, now) == FeedStep(f, false)
  {
  }

  /** A `book` snapshot replaces both sides of its asset's book (creating
      it when absent), leaves every other asset alone, triggers exactly
      when trading is on and never touches the cooldown clock. */
  lemma BookSnapshotReplaces(f: Feed, m: MarketMessage, subscribed: set<string>, trade: bool, aggressive: bool, dryRun: bool, now: real, q: real)
    requires BooksValid(f.allData)
    requires m.eventType == Some("book") && Truthy(m.market) && (m.market.value in subscribed || aggressive)
    ensures var r := StepMessage(f, Message(m), subscribed, trade, aggressive, dryRun, now);
      var asset := m.market.value;
      && r.trigger == trade
      && r.feed.lastAction == f.lastAction
      && asset in r.feed.allData
      && Get(r.feed.allData[asset].bids, q) == LastAt(m.bids, q)
      && Get(r.feed.allData[asset].asks, q) == LastAt(m.asks, q)
      && forall a :: a != asset ==> (a in r.feed.allData <==> a in f.allData) && (a in f.allData ==> r.feed.allData[a] == f.allData[a])
  {
    FromEntriesGet(m.bids, q);
    FromEntriesGet(m.asks, q);
  }

  /** A `price_change` triggers exactly when trading is on, DRY_RUN is off, it carries
      changes, and 30 seconds have passed since the asset's last trigger
      (0 when it never triggered); only a trigger moves the clock, to `now`. */
  lemma PriceChangeCooldown(f: Feed, m: MarketMessage, subscribed: set<string>, trade: bool, aggressive: bool, dryRun: bool, now: real)
    requires BooksValid(f.allData)
    requires m.eventType == Some("price_change") && Truthy(m.market) && (m.market.value in subscribed || aggressive)
    ensures var r := StepMessage(f, Message(m), subscribed, trade, aggressive, dryRun, now);
      var asset := m.market.value;
      var last := if asset in f.lastAction then f.lastAction[asset] else 0.0;
      && (r.trigger <==> trade && !dryRun && ChangesOf(m) != [] && now - last >= TradeCooldown)
      && r.feed.lastAction == (if r.trigger then f.lastAction[asset := now] else f.lastAction)
  {
  }

  /** With DRY_RUN on, a `price_change` still patches the book exactly as
      with it off, but never triggers trading and never moves the clock. */
  lemma DryRunPatchesWithoutTrigger(f: Feed, m: MarketMessage, subscribed: set<string>, trade: bool, aggressive: bool, now: real)
    requires BooksValid(f.allData)
    requires m.eventType == Some("price_change") && Truthy(m.market) && (m.market.value in subscribed || aggressive)
    ensures var r := StepMessage(f, Message(m), subscribed, trade, aggressive, true, now);
      var live := StepMessage(f, Message(m), subscribed, trade, aggressive, false, now);
      && !r.trigger && r.feed.lastAction == f.lastAction
      && r.feed.allData == live.feed.allData
      && (ChangesOf(m) != [] ==>
            r.feed.allData[m.market.value] == ApplyChanges(if m.market.value in f.allData then f.allData[m.market.value] else EmptyBook, ChangesOf(m)))
  {
  }

  /** Two price changes of one asset ten seconds apart trigger at most once. */
  lemma TwoDeltasTriggerOnce(f: Feed, m1: MarketMessage, m2: MarketMessage, subscribed: set<string>, aggressive: bool, dryRun: bool, now: real)
    requires BooksValid(f.allData)
    requires m1.eventType == Some("price_change") && m2.eventType == Some("price_change")
    requires Truthy(m1.market) && m2.market == m1.market
    ensures var r1 := StepMessage(f, Message(m1), subscribed, true, aggressive, dryRun, now);
      var r2 := StepMessage(r1.feed, Message(m2), subscribed, true, aggressive, dryRun, now + 10.0);
      !(r1.trigger && r2.trigger)
  {
    var r1 := StepMessage(f, Message(m1), subscribed, true, aggressive, dryRun, now);
    if r1.trigger {
      assert r1.feed.lastAction[m1.market.value] == now;
    }
  }

  // ---------------------------------------------------------------------
  // In-flight trades

  /** `add_to_performing` on the id sets. */
  function AddId(p: map<string, set<string>>, col: string, id: string): (r: map<string, set<string>>)
    ensures col in r && id in r[col]
  {
    p[col := (if col in p then p[col] else {}) + {id}]
  }

  /** `add_to_performing` on the timestamps. */
  function AddStamp(ts: map<string, map<string, real>>, col: string, id: string, now: real): (r: map<string, map<string, real>>)
    ensures col in r && id in r[col] && r[col][id] == now
  {
    ts[col := (if col in ts then ts[col] else map[])[id := now]]
  }

  /** `remove_from_performing` on the id sets. */
  function RemoveId(p: map<string, set<string>>, col: string, id: string): (r: map<string, set<string>>)
    ensures r.Keys == p.Keys
    ensures col in r ==> id !in r[col]
  {
    if col in p then p[col := p[col] - {id}] else p
  }

  /** `remove_from_performing` on the timestamps. */
  function RemoveStamp(ts: map<string, map<string, real>>, col: string, id: string): (r: map<string, map<string, real>>)
    ensures r.Keys == ts.Keys
    ensures col in r ==> id !in r[col]
    ensures forall c, x :: c in ts && x in ts[c] && !(c == col && x == id) ==> x in r[c] && r[c][x] == ts[c][x]
  {
    if col in ts then ts[col := ts[col] - {id}] else ts
  }

  /** Adding an id again keeps one copy and refreshes its timestamp. */
  lemma ReAddRefreshes(p: map<string, set<string>>, ts: map<string, map<string, real>>, col: string, id: string, t1: real, t2: real)
    ensures AddId(AddId(p, col, id), col, id) == AddId(p, col, id)
    ensures AddStamp(AddStamp(ts, col, id, t1), col, id, t2) == AddStamp(ts, col, id, t2)
  {
    var q := AddId(p, col, id);
    assert q[col] + {id} == q[col];
    var u := AddStamp(ts, col, id, t1);
    assert u[col][id := t2] == (if col in ts then ts[col] else map[])[id := t2];
  }

  /** Removing is idempotent, and removing something absent changes nothing. */
  lemma RemoveIdempotent(p: map<string, set<string>>, ts: map<string, map<string, real>>, col: string, id: string)
    ensures RemoveId(RemoveId(p, col, id), col, id) == RemoveId(p, col, id)
    ensures RemoveStamp(RemoveStamp(ts, col, id), col, id) == RemoveStamp(ts, col, id)
    ensures (col !in p || id !in p[col]) ==> RemoveId(p, col, id) == p
    ensures (col !in ts || id !in ts[col]) ==> RemoveStamp(ts, col, id) == ts
  {
    if col in p {
      assert p[col] - {id} - {id} == p[col] - {id};
      if id !in p[col] {
        assert p[col] - {id} == p[col];
      }
    }
    if col in ts {
      assert ts[col] - {id} - {id} == ts[col] - {id};
      if id !in ts[col] {
        assert ts[col] - {id} == ts[col];
      }
    }
  }

  /** Removing one id leaves every other id and key as it was. */
  lemma RemoveKeepsOthers(p: map<string, set<string>>, col: string, id: string, c: string, x: string)
    requires c in p && x in p[c] && (c != col || x != id)
    ensures c in RemoveId(p, col, id) && x in RemoveId(p, col, id)[c]
  {
  }

  // ---------------------------------------------------------------------
  // User feed

  /** One maker order of a trade event, with its already converted amounts. */
  datatype MakerOrder = MakerOrder(makerAddress: string, matchedAmount: real, price: real, outcome: string)

  /** A user-feed row, with absent fields at the defaults the code reads
      them with (`''` for the side and the outcome, 0 for the amounts). */
  datatype UserRow = UserRow(
    market: Option<string>,
    side: string,
    assetId: Option<string>,
    eventType: Option<string>,
    status: Option<string>,
    id: string,
    outcome: string,
    makerOrders: seq<MakerOrder>,
    size: real,
    price: real,
    originalSize: real,
    sizeMatched: real)

  /** The calls the user feed makes into code outside this model. */
  datatype Effect =
    | PerformTrade(market: string)
    | SetPosition(token: string, side: string, size: real, price: real)
    | SetOrder(token: string, side: string, size: real, price: real)
    | UpdatePositions

  /** The token, side, size and price a trade is booked with after the
      maker orders are read, and whether the user was a maker. */
  datatype TradeView = TradeView(token: string, side: string, size: real, price: real, isMaker: bool)

  /** One maker order read against the user's wallet: the user's own order
      sets the size and price, and flips the side when its outcome is the
      taker's, the token to its complement otherwise. None when the
      complement is unknown (a KeyError that ends the call). */
  function MakerStep(v: TradeView, mo: MakerOrder, wallet: string, takerOutcome: string, reverse: map<string, string>): Option<TradeView> {
    if Lower(mo.makerAddress) != Lower(wallet) then Some(v)
    else if mo.outcome == takerOutcome then
      Some(TradeView(v.token, if v.side == "sell" then "buy" else "sell", mo.matchedAmount, mo.price, true))
    else if v.token in reverse then
      Some(TradeView(reverse[v.token], v.side, mo.matchedAmount, mo.price, true))
    else None
  }

  /** The view after all maker orders, in order. */
  function MakerView(v: TradeView, makers: seq<MakerOrder>, wallet: string, takerOutcome: string, reverse: map<string, string>): Option<TradeView>
    decreases |makers|
  {
    if makers == [] then Some(v)
    else match MakerStep(v, makers[0], wallet, takerOutcome, reverse)
      case None => None
      case Some(u) => MakerView(u, makers[1..], wallet, takerOutcome, reverse)
  }

  /** The in-flight state the user feed changes. */
  datatype InFlight = InFlight(performing: map<string, set<string>>, stamps: map<string, map<string, real>>)

  /** A row's outcome: the new in-flight state and the calls it makes, or
      None when the row raises and ends the call. */
  datatype UserStep = UserStep(state: InFlight, effects: seq<Effect>)

  /** The in-flight key of a row: token id, `_`, lowercased side. */
  function ColOf(token: string, side: string): string {
    token + "_" + Lower(side)
  }

  /** What `process_user_data` does with one row. */
  function StepUser(s: InFlight, row: UserRow, reverse: map<string, string>, wallet: string, now: real): Option<UserStep> {
    if !Truthy(row.market) || !Truthy(row.assetId) || row.assetId.value !in reverse then Some(UserStep(s, []))
    else
      var market, token, side := row.market.value, row.assetId.value, Lower(row.side);
      var col := ColOf(token, row.side);
      if row.eventType == Some("trade") then
        match MakerView(TradeView(token, side, 0.0, 0.0, false), row.makerOrders, wallet, row.outcome, reverse)
        case None => None
        case Some(v0) =>
          var v := if v0.isMaker then v0 else v0.(size := row.size, price := row.price);
          if row.status == Some("CONFIRMED") then
            Some(UserStep(InFlight(RemoveId(s.performing, col, row.id), RemoveStamp(s.stamps, col, row.id)), [UpdatePositions, PerformTrade(market)]))
          else if row.status == Some("FAILED") then
            Some(UserStep(s, [UpdatePositions]))
          else if row.status == Some("MATCHED") then
            Some(UserStep(InFlight(AddId(s.performing, col, row.id), AddStamp(s.stamps, col, row.id, now)),
                          [SetPosition(v.token, v.side, v.size, v.price), PerformTrade(market)]))
          else if row.status == Some("MINED") then
            Some(UserStep(InFlight(RemoveId(s.performing, col, row.id), RemoveStamp(s.stamps, col, row.id)), []))
          else Some(UserStep(s, []))
      else if row.eventType == Some("order") then
        Some(UserStep(s, [SetOrder(token, side, row.originalSize - row.sizeMatched, row.price), PerformTrade(market)]))
      else Some(UserStep(s, []))
  }

  /** A trade row's in-flight bookkeeping: MATCHED adds the id under the
      key built from the row's own token and side (whatever the maker
      orders flip), CONFIRMED and MINED remove it, FAILED and every other
      status leave the tracker alone. */
  lemma TradeStatusDispatch(s: InFlight, row: UserRow, reverse: map<string, string>, wallet: string, now: real)
    requires Truthy(row.market) && Truthy(row.assetId) && row.assetId.value in reverse
    requires row.eventType == Some("trade")
    requires StepUser(s, row, reverse, wallet, now).Some?
    ensures var r := StepUser(s, row, reverse, wallet, now).value.state;
      var col := ColOf(row.assetId.value, row.side);
      && (row.status == Some("MATCHED") ==> col in r.performing && row.id in r.performing[col] && r.stamps[col][row.id] == now)
      && (row.status == Some("CONFIRMED") || row.status == Some("MINED") ==>
            r == InFlight(RemoveId(s.performing, col, row.id), RemoveStamp(s.stamps, col, row.id)))
      && (row.status !in {Some("MATCHED"), Some("CONFIRMED"), Some("MINED")} ==> r == s)
  {
  }

  /** Rows without a market, or whose token has no complement on record,
      change nothing and call nothing. */
  lemma SkippedRowsChangeNothing(s: InFlight, row: UserRow, reverse: map<string, string>, wallet: string, now: real)
    requires !Truthy(row.market) || !Truthy(row.assetId) || row.assetId.value !in reverse
    ensures StepUser(s, row, reverse, wallet, now) == Some(UserStep(s, []))
  {
  }

  /** When the user's maker order has the other outcome, the position is
      booked on the complementary token while the in-flight key keeps the
      row's token. */
  lemma MakerFlipKeepsKey(s: InFlight, row: UserRow, reverse: map<string, string>, wallet: string, now: real)
    requires Truthy(row.market) && Truthy(row.assetId) && row.assetId.value in reverse
    requires row.eventType == Some("trade") && row.status == Some("MATCHED")
    requires row.makerOrders == [MakerOrder(wallet, 5.0, 0.4, "No")] && row.outcome == "Yes"
    ensures var st := StepUser(s, row, reverse, wallet, now);
      && st.Some?
      && st.value.effects == [SetPosition(reverse[row.assetId.value], Lower(row.side), 5.0, 0.4), PerformTrade(row.market.value)]
      && row.id in st.value.state.performing[ColOf(row.assetId.value, row.side)]
  {
    var token := row.assetId.value;
    var v0 := TradeView(token, Lower(row.side), 0.0, 0.0, false);
    var u := TradeView(reverse[token], Lower(row.side), 5.0, 0.4, true);
    assert "No" != "Yes" by {
      assert "No"[0] != "Yes"[0];
    }
    assert MakerStep(v0, row.makerOrders[0], wallet, row.outcome, reverse) == Some(u);
    assert row.makerOrders[1..] == [];
    assert MakerView(v0, row.makerOrders, wallet, row.outcome, reverse) == Some(u);
  }

  /** The rows of one call in order; a row that raises ends the call with
      the state and calls so far. */
  function RunUser(s: InFlight, rows: seq<UserRow>, reverse: map<string, string>, wallet: string, now: real): UserStep
    decreases |rows|
  {
    if rows == [] then UserStep(s, [])
    else match StepUser(s, rows[0], reverse, wallet, now)
      case None => UserStep(s, [])
      case Some(st) =>
        var rest := RunUser(st.state, rows[1..], reverse, wallet, now);
        UserStep(rest.state, st.effects + rest.effects)
  }

  /** `RunUser` on a non-empty batch: the first row, then the rest unless it raised. */
  lemma RunUserFirst(s: InFlight, rows: seq<UserRow>, reverse: map<string, string>, wallet: string, now: real)
    requires rows != []
    ensures var st := StepUser(s, rows[0], reverse, wallet, now);
      && (st.None? ==> RunUser(s, rows, reverse, wallet, now) == UserStep(s, []))
      && (st.Some? ==>
            var rest := RunUser(st.value.state, rows[1..], reverse, wallet, now);
            RunUser(s, rows, reverse, wallet, now) == UserStep(rest.state, st.value.effects + rest.effects))
  {
  }

  /** Part way through a batch: `cur` and `effects` after the first `k`
      rows, and what is left of the run from there. */
  ghost predicate UserRunAt(s0: InFlight, rows: seq<UserRow>, k: nat, cur: InFlight, effects: seq<Effect>,
                            reverse: map<string, string>, wallet: string, now: real)
    requires k <= |rows|
  {
    var rest := RunUser(cur, rows[k..], reverse, wallet, now);
    RunUser(s0, rows, reverse, wallet, now) == UserStep(rest.state, effects + rest.effects)
  }

  lemma UserRunStep(s0: InFlight, rows: seq<UserRow>, k: nat, cur: InFlight, effects: seq<Effect>,
                    reverse: map<string, string>, wallet: string, now: real)
    requires k < |rows| && UserRunAt(s0, rows, k, cur, effects, reverse, wallet, now)
    requires StepUser(cur, rows[k], reverse, wallet, now).Some?
    ensures var st := StepUser(cur, rows[k], reverse, wallet, now).value;
      UserRunAt(s0, rows, k + 1, st.state, effects + st.effects, reverse, wallet, now)
  {
    RunUserFirst(cur, rows[k..], reverse, wallet, now);
    assert rows[k..][0] == rows[k] && rows[k..][1..] == rows[k + 1..];
    var st := StepUser(cur, rows[k], reverse, wallet, now).value;
    var rest := RunUser(st.state, rows[k + 1..], reverse, wallet, now);
    assert effects + (st.effects + rest.effects) == (effects + st.effects) + rest.effects;
  }

  lemma UserRunStops(s0: InFlight, rows: seq<UserRow>, k: nat, cur: InFlight, effects: seq<Effect>,
                     reverse: map<string, string>, wallet: string, now: real)
    requires k < |rows| && UserRunAt(s0, rows, k, cur, effects, reverse, wallet, now)
    requires StepUser(cur, rows[k], reverse, wallet, now).None?
    ensures RunUser(s0, rows, reverse, wallet, now) == UserStep(cur, effects)
  {
    RunUserFirst(cur, rows[k..], reverse, wallet, now);
    assert rows[k..][0] == rows[k];
    assert effects + [] == effects;
  }

  lemma UserRunEnd(s0: InFlight, rows: seq<UserRow>, cur: InFlight, effects: seq<Effect>,
                   reverse: map<string, string>, wallet: string, now: real)
    requires UserRunAt(s0, rows, |rows|, cur, effects, reverse, wallet, now)
    ensures RunUser(s0, rows, reverse, wallet, now) == UserStep(cur, effects)
  {
    assert rows[|rows|..] == [];
    assert effects + [] == effects;
  }

  // ---------------------------------------------------------------------
  // The global state

  /** The fields of the global state this model reads and writes. */
  class GlobalState {
    var allData: map<string, Book>
    var subscribedAssets: set<string>
    var reverseTokens: map<string, string>
    var performing: map<string, set<string>>
    var performingTimestamps: map<string, map<string, real>>
    var lastTradeActionTime: map<string, real>

    ghost predicate Valid()
      reads this`allData
    {
      BooksValid(allData)
    }

    /** The state at start-up: nothing known yet. */
    constructor(subscribed: set<string>, reverse: map<string, string>)
      ensures Valid()
      ensures allData == map[] && subscribedAssets == subscribed && reverseTokens == reverse
      ensures performing == map[] && performingTimestamps == map[] && lastTradeActionTime == map[]
    {
      allData := map[];
      subscribedAssets := subscribed;
      reverseTokens := reverse;
      performing := map[];
      performingTimestamps := map[];
      lastTradeActionTime := map[];
    }

    /** `initialize_market_data`: an empty book for an unknown asset. */
    method InitializeMarketData(asset: string)
      requires Valid()
      modifies this`allData
      ensures Valid()
      ensures allData == if asset in old(allData) then old(allData) else old(allData)[asset := EmptyBook]
    {
      if asset !in allData {
        allData := allData[asset := EmptyBook];
      }
    }

    /** `process_book_data`: both sides replaced by the snapshot's levels. */
    method ProcessBookData(asset: string, bids: seq<Level>, asks: seq<Level>)
      requires Valid()
      modifies this`allData
      ensures Valid()
      ensures allData == old(allData)[asset := Book(FromEntries(bids), FromEntries(asks))]
    {
      InitializeMarketData(asset);
      allData := allData[asset := Book(FromEntries(bids), FromEntries(asks))];
    }

    /** `process_price_change` on side `bids` or (any other name) `asks`. */
    method ProcessPriceChange(asset: string, side: string, price: real, size: real)
      requires Valid() && asset in allData
      modifies this`allData
      ensures Valid()
      ensures allData == old(allData)[asset := ApplyChange(old(allData[asset]), PriceChange(if side == "bids" then "BUY" else "SELL", price, size))]
    {
      var b := allData[asset];
      if side == "bids" {
        allData := allData[asset := b.(bids := UpdateLevel(b.bids, price, size))];
      } else {
        allData := allData[asset := b.(asks := UpdateLevel(b.asks, price, size))];
      }
    }

    /** The change loop of a `price_change` event. */
    method ApplyPriceChanges(asset: string, cs: seq<PriceChange>)
      requires Valid() && asset in allData
      modifies this`allData
      ensures Valid()
      ensures allData == old(allData)[asset := ApplyChanges(old(allData[asset]), cs)]
    {
      var k := 0;
      while k < |cs|
        invariant 0 <= k <= |cs| && Valid()
        invariant allData == old(allData)[asset := ApplyChanges(old(allData[asset]), cs[..k])]
      {
        assert cs[..k + 1][..k] == cs[..k];
        ProcessPriceChange(asset, if cs[k].side == "BUY" then "bids" else "asks", cs[k].price, cs[k].size);
        k := k + 1;
      }
      assert cs[..k] == cs;
    }

    /** One message of `process_data`. */
    method ProcessMessage(msg: Incoming, trade: bool, aggressive: bool, dryRun: bool, now: real) returns (triggered: bool)
      requires Valid()
      modifies this`allData, this`lastTradeActionTime
      ensures Valid()
      ensures FeedStep(Feed(allData, lastTradeActionTime), triggered)
        == StepMessage(Feed(old(allData), old(lastTradeActionTime)), msg, subscribedAssets, trade, aggressive, dryRun, now)
    {
      var accepted := AcceptedAsset(msg, subscribedAssets, aggressive);
      if accepted.None? {
        return false;
      }
      var asset := accepted.value;
      var m := msg.m;
      if m.eventType.value == "book" {
        ProcessBookData(asset, m.bids, m.asks);
        return trade;
      } else if m.eventType.value == "price_change" {
        var cs := ChangesOf(m);
        if cs == [] {
          return false;
        }
        triggered := ProcessPriceEvent(asset, cs, trade, dryRun, now);
        return;
      }
      return false;
    }

    /** The `price_change` branch of `process_data` for an event with changes. */
    method ProcessPriceEvent(asset: string, cs: seq<PriceChange>, trade: bool, dryRun: bool, now: real) returns (triggered: bool)
      requires Valid()
      modifies this`allData, this`lastTradeActionTime
      ensures Valid()
      ensures allData == old(allData)[asset := ApplyChanges(if asset in old(allData) then old(allData[asset]) else EmptyBook, cs)]
      ensures var last := if asset in old(lastTradeActionTime) then old(lastTradeActionTime[asset]) else 0.0;
        && triggered == (trade && !dryRun && now - last >= TradeCooldown)
        && lastTradeActionTime == if triggered then old(lastTradeActionTime)[asset := now] else old(lastTradeActionTime)
    {
      ghost var d0 := allData;
      InitializeMarketData(asset);
      ghost var d1 := allData;
      ApplyPriceChanges(asset, cs);
      assert d1[asset := ApplyChanges(d1[asset], cs)] == d0[asset := ApplyChanges(if asset in d0 then d0[asset] else EmptyBook, cs)];
      triggered := false;
      if dryRun {
        // the DRY_RUN test raises before the cooldown test is reached
        return;
      }
      if trade {
        triggered := TryTrigger(asset, now);
      }
    }

    /** The cooldown test of a `price_change` event with trading on: the
        trigger fires, and is stamped, when the asset's last one is 30
        seconds old or more (never triggered counts as time 0). */
    method TryTrigger(asset: string, now: real) returns (triggered: bool)
      modifies this`lastTradeActionTime
      ensures var last := if asset in old(lastTradeActionTime) then old(lastTradeActionTime[asset]) else 0.0;
        && triggered == (now - last >= TradeCooldown)
        && lastTradeActionTime == if triggered then old(lastTradeActionTime)[asset := now] else old(lastTradeActionTime)
    {
      var last := if asset in lastTradeActionTime then lastTradeActionTime[asset] else 0.0;
      triggered := false;
      if now - last >= TradeCooldown {
        lastTradeActionTime := lastTradeActionTime[asset := now];
        triggered := true;
      }
    }

    /** `process_data`: the messages in order; the result lists the assets
        trading was triggered for. */
    method ProcessData(msgs: seq<Incoming>, trade: bool, aggressive: bool, dryRun: bool, now: real) returns (triggers: seq<string>)
      requires Valid()
      modifies this`allData, this`lastTradeActionTime
      ensures Valid()
      ensures FeedRun(Feed(allData, lastTradeActionTime), triggers)
        == RunMessages(Feed(old(allData), old(lastTradeActionTime)), msgs, subscribedAssets, trade, aggressive, dryRun, now)
    {
      triggers := [];
      var k := 0;
      while k < |msgs|
        invariant 0 <= k <= |msgs| && Valid()
        invariant FeedRun(Feed(allData, lastTradeActionTime), triggers)
          == RunMessages(Feed(old(allData), old(lastTradeActionTime)), msgs[..k], subscribedAssets, trade, aggressive, dryRun, now)
      {
        assert msgs[..k + 1][..k] == msgs[..k];
        var t := ProcessMessage(msgs[k], trade, aggressive, dryRun, now);
        if t {
          triggers := triggers + [msgs[k].m.market.value];
        }
        k := k + 1;
      }
      assert msgs[..k] == msgs;
    }

    /** `add_to_performing`. */
    method AddToPerforming(col: string, id: string, now: real)
      modifies this`performing, this`performingTimestamps
      ensures performing == AddId(old(performing), col, id)
      ensures performingTimestamps == AddStamp(old(performingTimestamps), col, id, now)
    {
      var ids := if col in performing then performing[col] else {};
      performing := performing[col := ids + {id}];
      var stamps := if col in performingTimestamps then performingTimestamps[col] else map[];
      performingTimestamps := performingTimestamps[col := stamps[id := now]];
    }

    /** `remove_from_performing`. */
    method RemoveFromPerforming(col: string, id: string)
      modifies this`performing, this`performingTimestamps
      ensures performing == RemoveId(old(performing), col, id)
      ensures performingTimestamps == RemoveStamp(old(performingTimestamps), col, id)
    {
      if col in performing {
        performing := performing[col := performing[col] - {id}];
      }
      if col in performingTimestamps {
        performingTimestamps := performingTimestamps[col := performingTimestamps[col] - {id}];
      }
    }

    /** The maker-order loop of a trade row. */
    method ReadMakers(token: string, side: string, makers: seq<MakerOrder>, wallet: string, takerOutcome: string) returns (v: Option<TradeView>)
      ensures v == MakerView(TradeView(token, side, 0.0, 0.0, false), makers, wallet, takerOutcome, reverseTokens)
    {
      var cur := TradeView(token, side, 0.0, 0.0, false);
      var k := 0;
      while k < |makers|
        invariant 0 <= k <= |makers|
        invariant MakerView(TradeView(token, side, 0.0, 0.0, false), makers, wallet, takerOutcome, reverseTokens)
          == MakerView(cur, makers[k..], wallet, takerOutcome, reverseTokens)
      {
        assert makers[k..][0] == makers[k] && makers[k..][1..] == makers[k + 1..];
        var mo := makers[k];
        if Lower(mo.makerAddress) == Lower(wallet) {
          if mo.outcome == takerOutcome {
            cur := TradeView(cur.token, if cur.side == "sell" then "buy" else "sell", mo.matchedAmount, mo.price, true);
          } else if cur.token in reverseTokens {
            cur := TradeView(reverseTokens[cur.token], cur.side, mo.matchedAmount, mo.price, true);
          } else {
            return None;
          }
        }
        k := k + 1;
      }
      return Some(cur);
    }

    /** One row of `process_user_data`; `ok` is false when the row raises. */
    method ProcessUserRow(row: UserRow, wallet: string, now: real) returns (ok: bool, effects: seq<Effect>)
      modifies this`performing, this`performingTimestamps
      ensures var st := StepUser(InFlight(old(performing), old(performingTimestamps)), row, reverseTokens, wallet, now);
        && ok == st.Some?
        && (ok ==> InFlight(performing, performingTimestamps) == st.value.state && effects == st.value.effects)
        && (!ok ==> performing == old(performing) && performingTimestamps == old(performingTimestamps))
    {
      if !Truthy(row.market) || !Truthy(row.assetId) || row.assetId.value !in reverseTokens {
        return true, [];
      }
      var market, token, side := row.market.value, row.assetId.value, Lower(row.side);
      var col := ColOf(token, row.side);
      if row.eventType == Some("trade") {
        var view := ReadMakers(token, side, row.makerOrders, wallet, row.outcome);
        if view.None? {
          return false, [];
        }
        var v := if view.value.isMaker then view.value else view.value.(size := row.size, price := row.price);
        if row.status == Some("CONFIRMED") {
          RemoveFromPerforming(col, row.id);
          return true, [UpdatePositions, PerformTrade(market)];
        } else if row.status == Some("FAILED") {
          return true, [UpdatePositions];
        } else if row.status == Some("MATCHED") {
          AddToPerforming(col, row.id, now);
          return true, [SetPosition(v.token, v.side, v.size, v.price), PerformTrade(market)];
        } else if row.status == Some("MINED") {
          RemoveFromPerforming(col, row.id);
          return true, [];
        }
        return true, [];
      } else if row.eventType == Some("order") {
        return true, [SetOrder(token, side, row.originalSize - row.sizeMatched, row.price), PerformTrade(market)];
      }
      return true, [];
    }

    /** `process_user_data`: the rows in order, stopping at a row that raises. */
    method ProcessUserData(rows: seq<UserRow>, wallet: string, now: real) returns (effects: seq<Effect>)
      modifies this`performing, this`performingTimestamps
      ensures UserStep(InFlight(performing, performingTimestamps), effects)
        == RunUser(InFlight(old(performing), old(performingTimestamps)), rows, reverseTokens, wallet, now)
    {
      effects := [];
      var k := 0;
      while k < |rows|
        invariant 0 <= k <= |rows|
        invariant UserRunAt(InFlight(old(performing), old(performingTimestamps)), rows, k,
                            InFlight(performing, performingTimestamps), effects, reverseTokens, wallet, now)
      {
        ghost var before := InFlight(performing, performingTimestamps);
        var ok, e := ProcessUserRow(rows[k], wallet, now);
        if !ok {
          UserRunStops(InFlight(old(performing), old(performingTimestamps)), rows, k, before, effects, reverseTokens, wallet, now);
          return;
        }
        UserRunStep(InFlight(old(performing), old(performingTimestamps)), rows, k, before, effects, reverseTokens, wallet, now);
        effects := effects + e;
        k := k + 1;
      }
      UserRunEnd(InFlight(old(performing), old(performingTimestamps)), rows, InFlight(performing, performingTimestamps),
                 effects, reverseTokens, wallet, now);
    }
  }
}
