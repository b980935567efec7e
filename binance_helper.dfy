/** The trading bot: client order ids, bracket pricing, the two conditional
    exit orders and the orchestration of one trade against the exchange.
    The exchange is a gateway object that records every call made on it and
    answers with responses supplied by the caller. */
module BinanceHelper {
  import opened Results
  import opened Json
  import opened Rounding

  // ------------------------------------------------------------ client order ids

  /** Fixed prefix of every client order id. */
  const BaseId: string := "x-40PTWbMI"

  /** Number of random characters after the prefix. */
  const SuffixLength: nat := 7

  /** The alphabet of the random part: upper-case ASCII letters and digits. */
  predicate IsIdChar(c: char) {
    'A' <= c <= 'Z' || '0' <= c <= '9'
  }

  /** A possible outcome of drawing the random part. */
  predicate IsSuffix(s: string) {
    |s| == SuffixLength && forall i :: 0 <= i < |s| ==> IsIdChar(s[i])
  }

  /** The shape of every id the bot generates. */
  predicate IsClientId(id: string) {
    |id| == |BaseId| + SuffixLength && id[..|BaseId|] == BaseId && IsSuffix(id[|BaseId|..])
  }

  /** A draw of the random part; None stands for a draw that raised. */
  predicate ValidDraw(draw: Option<string>) {
    draw.Some? ==> IsSuffix(draw.value)
  }

  /** The id built from a drawn suffix: the prefix, then the suffix. */
  function MakeClientId(suffix: string): (id: string)
    requires IsSuffix(suffix)
    ensures IsClientId(id) && |id| == 17
    ensures id[|BaseId|..] == suffix
  {
    BaseId + suffix
  }

  /** Two ids agree exactly when their drawn suffixes do. */
  lemma ClientIdInjective(a: string, b: string)
    requires IsSuffix(a) && IsSuffix(b)
    ensures MakeClientId(a) == MakeClientId(b) <==> a == b
  {
    if MakeClientId(a) == MakeClientId(b) {
      assert a == MakeClientId(a)[|BaseId|..];
    }
  }

  /** Every id of the generated shape is produced by exactly one draw. */
  lemma ClientIdFromSuffix(id: string)
    requires IsClientId(id)
    ensures IsSuffix(id[|BaseId|..]) && MakeClientId(id[|BaseId|..]) == id
  {
    assert id == id[..|BaseId|] + id[|BaseId|..];
  }

  /** What the id generator returns for a draw. */
  function NewClientId(draw: Option<string>): (id: Option<string>)
    requires ValidDraw(draw)
    ensures id.Some? <==> draw.Some?
    ensures id.Some? ==> IsClientId(id.value) && id.value[|BaseId|..] == draw.value
  {
    match draw
    case Some(suffix) => Some(MakeClientId(suffix))
    case None => None
  }

  // ------------------------------------------------------------ sides

  datatype PositionSide = Long | Short

  /** The side of a create_order request. */
  datatype OrderSide = Buy | Sell

  /** The position a trade opens: long for a "Buy" request, short otherwise. */
  function PositionSideOf(side: Value): (p: PositionSide)
    ensures p == Long <==> side == Str("Buy")
  {
    if side == Str("Buy") then Long else Short
  }

  /** The side of the order that closes a position. */
  function ClosingSide(p: PositionSide): (s: OrderSide)
    ensures s == Sell <==> p == Long
  {
    if p == Long then Sell else Buy
  }

  /** The exit orders of a "Buy" request sell and those of any other request buy. */
  lemma ClosingSideOpposesEntry(side: Value)
    ensures ClosingSide(PositionSideOf(side)) == (if side == Str("Buy") then Sell else Buy)
  {
  }

  // ------------------------------------------------------------ bracket pricing

  datatype BracketPrices = BracketPrices(takeProfit: real, stopLoss: real)

  /** Exit prices before rounding, from the entry price and the two offsets
      as fractions (the percentages divided by 100). */
  function ExactBracket(price: real, side: PositionSide, tpFrac: real, slFrac: real): (e: BracketPrices)
    ensures side == Long ==> e.takeProfit - price == price * tpFrac && price - e.stopLoss == price * slFrac
    ensures side == Short ==> price - e.takeProfit == price * tpFrac && e.stopLoss - price == price * slFrac
  {
    match side
    case Long => BracketPrices(price * (1.0 + tpFrac), price * (1.0 - slFrac))
    case Short => BracketPrices(price * (1.0 - tpFrac), price * (1.0 + slFrac))
  }

  /** The exit prices the bot sends: the exact ones rounded to hundredths. */
  function Bracket(price: real, side: PositionSide, tpFrac: real, slFrac: real): (b: BracketPrices)
    ensures IsCents(b.takeProfit) && IsCents(b.stopLoss)
    ensures var e := ExactBracket(price, side, tpFrac, slFrac);
            e.takeProfit - 0.005 <= b.takeProfit <= e.takeProfit + 0.005 &&
            e.stopLoss - 0.005 <= b.stopLoss <= e.stopLoss + 0.005
  {
    var e := ExactBracket(price, side, tpFrac, slFrac);
    BracketPrices(RoundCents(e.takeProfit), RoundCents(e.stopLoss))
  }

  /** For a positive entry price, a long position's stop-loss lies below the
      entry exactly when its offset is positive, and its take-profit above the
      entry exactly when that offset is. */
  lemma LongBracketOrdering(price: real, tpFrac: real, slFrac: real)
    requires price > 0.0
    ensures var e := ExactBracket(price, Long, tpFrac, slFrac);
            (e.stopLoss < price <==> slFrac > 0.0) && (price < e.takeProfit <==> tpFrac > 0.0)
  {
    var e := ExactBracket(price, Long, tpFrac, slFrac);
    assert e.stopLoss == price - price * slFrac;
    assert e.takeProfit == price + price * tpFrac;
    PositiveProduct(price, slFrac);
    PositiveProduct(price, tpFrac);
  }

  /** The mirror image for a short position: take-profit below, stop-loss above. */
  lemma ShortBracketOrdering(price: real, tpFrac: real, slFrac: real)
    requires price > 0.0
    ensures var e := ExactBracket(price, Short, tpFrac, slFrac);
            (e.takeProfit < price <==> tpFrac > 0.0) && (price < e.stopLoss <==> slFrac > 0.0)
  {
    var e := ExactBracket(price, Short, tpFrac, slFrac);
    assert e.takeProfit == price - price * tpFrac;
    assert e.stopLoss == price + price * slFrac;
    PositiveProduct(price, slFrac);
    PositiveProduct(price, tpFrac);
  }

  lemma PositiveProduct(p: real, f: real)
    requires p > 0.0
    ensures p * f > 0.0 <==> f > 0.0
  {
    if f > 0.0 {
      assert p * f > 0.0;
    } else {
      assert p * f <= 0.0;
    }
  }

  /** After rounding, for an entry price in whole hundredths and offsets of at
      least zero, the entry still lies between the two exit prices, on the side
      the position calls for (equality is possible once an offset rounds away). */
  lemma RoundedBracketOrdering(price: real, side: PositionSide, tpFrac: real, slFrac: real)
    requires price > 0.0 && IsCents(price) && tpFrac >= 0.0 && slFrac >= 0.0
    ensures var b := Bracket(price, side, tpFrac, slFrac);
            match side
            case Long => b.stopLoss <= price <= b.takeProfit
            case Short => b.takeProfit <= price <= b.stopLoss
  {
    var e := ExactBracket(price, side, tpFrac, slFrac);
    assert price * tpFrac >= 0.0 && price * slFrac >= 0.0;
    RoundCentsFixesCents(price);
    match side
    case Long =>
      assert e.stopLoss <= price <= e.takeProfit;
      RoundCentsMonotone(e.stopLoss, price);
      RoundCentsMonotone(price, e.takeProfit);
    case Short =>
      assert e.takeProfit <= price <= e.stopLoss;
      RoundCentsMonotone(e.takeProfit, price);
      RoundCentsMonotone(price, e.stopLoss);
  }

  /** When each offset moves the price by at least one hundredth, rounding
      keeps the exits strictly on their sides of the entry. */
  lemma RoundedBracketStrict(price: real, side: PositionSide, tpFrac: real, slFrac: real)
    requires price > 0.0 && IsCents(price)
    requires price * tpFrac >= 0.01 && price * slFrac >= 0.01
    ensures var b := Bracket(price, side, tpFrac, slFrac);
            match side
            case Long => b.stopLoss < price < b.takeProfit
            case Short => b.takeProfit < price < b.stopLoss
  {
    var e := ExactBracket(price, side, tpFrac, slFrac);
    var up, down := price + 0.01, price - 0.01;
    CentsNeighbours(price);
    RoundCentsFixesCents(up);
    RoundCentsFixesCents(down);
    var dtp, dsl := price * tpFrac, price * slFrac;
    match side
    case Long =>
      assert e.stopLoss == price - dsl <= down;
      assert e.takeProfit == price + dtp >= up;
      RoundCentsMonotone(e.stopLoss, down);
      RoundCentsMonotone(up, e.takeProfit);
    case Short =>
      assert e.takeProfit == price - dtp <= down;
      assert e.stopLoss == price + dsl >= up;
      RoundCentsMonotone(e.takeProfit, down);
      RoundCentsMonotone(up, e.stopLoss);
  }

  /** The neighbours of a whole number of hundredths are whole numbers of hundredths. */
  lemma CentsNeighbours(x: real)
    requires IsCents(x)
    ensures IsCents(x + 0.01) && IsCents(x - 0.01)
  {
    var k := (x * 100.0).Floor;
    assert (x + 0.01) * 100.0 == k as real + 1.0;
    assert (x - 0.01) * 100.0 == k as real - 1.0;
    assert ((x + 0.01) * 100.0).Floor == k + 1;
    assert ((x - 0.01) * 100.0).Floor == k - 1;
  }

  /** Two worked examples: a long entry at 50000 with offsets of 5% and 2%,
      and a short entry at 3000 with offsets of 10% and 5%. */
  lemma BracketExamples()
    ensures Bracket(50000.0, Long, 5.0 / 100.0, 2.0 / 100.0) == BracketPrices(52500.0, 49000.0)
    ensures Bracket(3000.0, Short, 10.0 / 100.0, 5.0 / 100.0) == BracketPrices(2700.0, 3150.0)
  {
    assert IsCents(52500.0) && IsCents(49000.0) && IsCents(2700.0) && IsCents(3150.0);
    RoundCentsFixesCents(52500.0);
    RoundCentsFixesCents(49000.0);
    RoundCentsFixesCents(2700.0);
    RoundCentsFixesCents(3150.0);
  }

  // ------------------------------------------------------------ conditional orders

  /** Which exit a placer puts on: the stop-loss or the take-profit. */
  datatype OrderKind = StopLoss | TakeProfit

  datatype OrderType = StopMarket | TakeProfitMarket

  /** One create_order request as the bot sends it. */
  datatype Order = Order(
    symbol: Value,
    side: OrderSide,
    orderType: OrderType,
    amount: Value,
    newClientOrderId: string,
    stopPrice: real,
    closePosition: bool,
    timeInForce: string)

  function TypeOf(kind: OrderKind): OrderType {
    match kind
    case StopLoss => StopMarket
    case TakeProfit => TakeProfitMarket
  }

  /** The close-position order that a placer sends for a trigger price. */
  function ConditionalOrder(kind: OrderKind, symbol: Value, qty: Value, price: real,
                            position: PositionSide, clientId: string): Order
  {
    Order(symbol, ClosingSide(position), TypeOf(kind), qty, clientId, price, true, "GTC")
  }

  /** The result of one placer, as it reports it to the orchestrator. */
  datatype OrderResult = Placed(orderId: string) | Failed(message: string)

  /** str(e) of the ValueError raised when no client id could be generated. */
  const IdFailureMessage: string := "Failed to generate client order ID."

  /** Every call the bot makes on the exchange. */
  datatype Call =
    | LoadMarketsCall
    | MarketCall(symbol: Value)
    | LeverageCall(marketId: string, leverage: Value)
    | TickerCall(symbol: Value)
    | OrderCall(order: Order)
    | OrderStatusCall(orderId: Value, symbol: Value)

  /** The calls that trade or depend on the market: price fetches and orders. */
  predicate IsTradingCall(c: Call) {
    c.TickerCall? || c.OrderCall?
  }

  /** What one placer does: its result, its calls on the exchange and the
      client id it generated, if any. */
  datatype Placement = Placement(result: OrderResult, calls: seq<Call>, clientId: Option<string>)

  function Place(kind: OrderKind, symbol: Value, qty: Value, price: real, position: PositionSide,
                 draw: Option<string>, response: Result<string>): (p: Placement)
    requires ValidDraw(draw)
    ensures |p.calls| <= 1 && (p.calls == [] <==> draw.None?)
    ensures p.result.Placed? <==> draw.Some? && response.Ok?
    ensures draw.None? ==> p.result == Failed(IdFailureMessage) && p.clientId == None
    ensures draw.Some? ==> p.clientId.Some? && IsClientId(p.clientId.value)
  {
    match NewClientId(draw)
    case None => Placement(Failed(IdFailureMessage), [], None)
    case Some(id) =>
      var result := match response
        case Ok(orderId) => Placed(orderId)
        case Err(m) => Failed(m);
      Placement(result, [OrderCall(ConditionalOrder(kind, symbol, qty, price, position, id))], Some(id))
  }

  /** A placer makes no call when no id can be generated, and otherwise sends
      exactly one order: of the type its kind names, on the closing side, with
      the given trigger price and amount, closing the whole position, good till
      cancelled, under the fresh id. Its result is the order id on success and
      the failure's message otherwise; it never raises. */
  lemma PlaceSendsOneOrder(kind: OrderKind, symbol: Value, qty: Value, price: real,
                           position: PositionSide, draw: Option<string>, response: Result<string>)
    requires ValidDraw(draw)
    ensures var p := Place(kind, symbol, qty, price, position, draw, response);
            draw.None? ==> p == Placement(Failed(IdFailureMessage), [], None)
    ensures var p := Place(kind, symbol, qty, price, position, draw, response);
            draw.Some? ==>
              && |p.calls| == 1 && p.calls[0].OrderCall?
              && var o := p.calls[0].order;
              && o.orderType == (if kind == StopLoss then StopMarket else TakeProfitMarket)
              && o.side == (if position == Long then Sell else Buy)
              && o.symbol == symbol && o.amount == qty && o.stopPrice == price
              && o.closePosition && o.timeInForce == "GTC"
              && IsClientId(o.newClientOrderId)
              && o.newClientOrderId[|BaseId|..] == draw.value
              && p.clientId == Some(o.newClientOrderId)
              && (p.result.Placed? <==> response.Ok?)
              && (response.Ok? ==> p.result == Placed(response.value))
              && (response.Err? ==> p.result == Failed(response.message))
  {
  }

  // ------------------------------------------------------------ orchestration

  /** The outcome of one trade request. */
  datatype TradeResult =
    | BothPlaced(stopMarketOrder: OrderResult, takeProfitOrder: OrderResult)
    | Acknowledged(message: string)
    | TradeError(message: string)

  const ExecutedMessage: string := "Trade executed successfully"
  const StopErrorPrefix: string := "Stop Market Error: "
  const TakeProfitErrorPrefix: string := "Take Profit Error: "

  /** Combining the two legs: a stop-loss failure wins over everything, a
      take-profit failure is reported only after a successful stop-loss, and
      success carries both legs. Nothing is undone either way. */
  function Merge(stop: OrderResult, take: OrderResult): (r: TradeResult)
    ensures r.TradeError? <==> stop.Failed? || take.Failed?
    ensures stop.Failed? ==> r == TradeError(StopErrorPrefix + stop.message)
    ensures stop.Placed? && take.Failed? ==> r == TradeError(TakeProfitErrorPrefix + take.message)
    ensures r.BothPlaced? ==> r == BothPlaced(stop, take)
    ensures !r.Acknowledged?
  {
    if stop.Failed? then TradeError(StopErrorPrefix + stop.message)
    else if take.Failed? then TradeError(TakeProfitErrorPrefix + take.message)
    else BothPlaced(stop, take)
  }

  /** The message of a failed trade tells which leg failed. */
  lemma LegErrorsAreDistinct(a: string, b: string)
    ensures StopErrorPrefix + a != TakeProfitErrorPrefix + b
  {
    assert (StopErrorPrefix + a)[0] == 'S';
    assert (TakeProfitErrorPrefix + b)[0] == 'T';
  }

  /** The responses of the exchange and of the id generator for one trade,
      in the order the bot asks for them. */
  datatype Script = Script(
    loadMarkets: Outcome,
    market: Result<string>,
    leverage: Outcome,
    ticker: Result<real>,
    stopLossDraw: Option<string>,
    stopLossOrder: Result<string>,
    takeProfitDraw: Option<string>,
    takeProfitOrder: Result<string>)

  predicate ValidScript(s: Script) {
    ValidDraw(s.stopLossDraw) && ValidDraw(s.takeProfitDraw)
  }

  /** A percentage field of the request as a fraction: float(data[key]) / 100. */
  function Fraction(data: map<string, Value>, key: string): (r: Result<real>)
    ensures r.Ok? <==> key in data && ToFloat(data[key]).Ok?
    ensures r.Ok? ==> r.value * 100.0 == ToFloat(data[key]).value
    ensures key !in data ==> r == Err(KeyErrorMessage(key))
  {
    match Index(data, key)
    case Err(m) => Err(m)
    case Ok(v) =>
      match ToFloat(v)
      case Err(m) => Err(m)
      case Ok(x) => Ok(x / 100.0)
  }

  /** What one run does: its result, its calls on the exchange in order and the
      last client id generated, if any. */
  datatype RunRecord = RunRecord(result: TradeResult, calls: seq<Call>, clientId: Option<string>)

  function Abort(message: string, calls: seq<Call>): RunRecord {
    RunRecord(TradeError(message), calls, None)
  }

  /** The last id among two generations, the later one winning. */
  function Latest(first: Option<string>, second: Option<string>): Option<string> {
    if second.Some? then second else first
  }

  /** The first three calls of every run that gets past the leverage step. */
  function Prelude(data: map<string, Value>, s: Script): seq<Call>
    requires "symbol" in data && "leverage" in data && s.market.Ok?
  {
    [LoadMarketsCall, MarketCall(data["symbol"]), LeverageCall(s.market.value, data["leverage"])]
  }

  /** Every step up to and including setting the leverage succeeded. */
  predicate PreludeOk(data: map<string, Value>, s: Script) {
    "leverage" in data && s.loadMarkets.Pass? && "symbol" in data && s.market.Ok? && s.leverage.Pass?
  }

  /** The run reaches the placement of the two exit orders. */
  predicate ReachesPlacement(data: map<string, Value>, s: Script) {
    && PreludeOk(data, s)
    && "side" in data && "order_mode" in data && data["order_mode"] == Str("Both")
    && Fraction(data, "take_profit_percent").Ok? && Fraction(data, "stop_loss_percent").Ok?
    && s.ticker.Ok? && "qty" in data
  }

  /** The exit prices of a run that reaches the placement. */
  function RunBracket(data: map<string, Value>, s: Script): BracketPrices
    requires ReachesPlacement(data, s)
  {
    Bracket(s.ticker.value, PositionSideOf(data["side"]),
            Fraction(data, "take_profit_percent").value, Fraction(data, "stop_loss_percent").value)
  }

  function StopPlacement(data: map<string, Value>, s: Script): Placement
    requires ReachesPlacement(data, s) && ValidScript(s)
  {
    Place(StopLoss, data["symbol"], data["qty"], RunBracket(data, s).stopLoss,
          PositionSideOf(data["side"]), s.stopLossDraw, s.stopLossOrder)
  }

  function TakeProfitPlacement(data: map<string, Value>, s: Script): Placement
    requires ReachesPlacement(data, s) && ValidScript(s)
  {
    Place(TakeProfit, data["symbol"], data["qty"], RunBracket(data, s).takeProfit,
          PositionSideOf(data["side"]), s.takeProfitDraw, s.takeProfitOrder)
  }

  /** One trade, step by step: read the leverage, load the markets, look up the
      market id, set the leverage, read side and mode; under "Both" convert the
      two percentages, fetch the last price, compute the bracket and place the
      stop-loss, then the take-profit; otherwise acknowledge. Any exception on
      the way ends the run with its message. */
  function RunTrade(data: map<string, Value>, s: Script): (r: RunRecord)
    requires ValidScript(s)
    ensures |r.calls| <= 6
    ensures r.result.Acknowledged? <==>
              PreludeOk(data, s) && "side" in data && "order_mode" in data && data["order_mode"] != Str("Both")
    ensures r.result.BothPlaced? ==> ReachesPlacement(data, s)
  {
    if "leverage" !in data then Abort(KeyErrorMessage("leverage"), [])
    else if s.loadMarkets.Fail? then Abort(s.loadMarkets.message, [LoadMarketsCall])
    else if "symbol" !in data then Abort(KeyErrorMessage("symbol"), [LoadMarketsCall])
    else if s.market.Err? then Abort(s.market.message, [LoadMarketsCall, MarketCall(data["symbol"])])
    else if s.leverage.Fail? then Abort(s.leverage.message, Prelude(data, s))
    else if "side" !in data then Abort(KeyErrorMessage("side"), Prelude(data, s))
    else if "order_mode" !in data then Abort(KeyErrorMessage("order_mode"), Prelude(data, s))
    else if data["order_mode"] != Str("Both") then RunRecord(Acknowledged(ExecutedMessage), Prelude(data, s), None)
    else if Fraction(data, "take_profit_percent").Err? then
      Abort(Fraction(data, "take_profit_percent").message, Prelude(data, s))
    else if Fraction(data, "stop_loss_percent").Err? then
      Abort(Fraction(data, "stop_loss_percent").message, Prelude(data, s))
    else if s.ticker.Err? then Abort(s.ticker.message, Prelude(data, s) + [TickerCall(data["symbol"])])
    else if "qty" !in data then Abort(KeyErrorMessage("qty"), Prelude(data, s) + [TickerCall(data["symbol"])])
    else
      var stop := StopPlacement(data, s);
      var take := TakeProfitPlacement(data, s);
      RunRecord(Merge(stop.result, take.result),
                Prelude(data, s) + [TickerCall(data["symbol"])] + stop.calls + take.calls,
                Latest(stop.clientId, take.clientId))
  }

  /** A failure at or before the leverage step ends the run with that step's
      message; no price is fetched and no order is placed. */
  lemma EarlyFailureAborts(data: map<string, Value>, s: Script)
    requires ValidScript(s)
    ensures var r := RunTrade(data, s);
            "leverage" !in data ==> r == Abort(KeyErrorMessage("leverage"), [])
    ensures var r := RunTrade(data, s);
            "leverage" in data && s.loadMarkets.Fail? ==> r == Abort(s.loadMarkets.message, [LoadMarketsCall])
    ensures var r := RunTrade(data, s);
            "leverage" in data && s.loadMarkets.Pass? && "symbol" !in data ==>
              r == Abort(KeyErrorMessage("symbol"), [LoadMarketsCall])
    ensures var r := RunTrade(data, s);
            "leverage" in data && s.loadMarkets.Pass? && "symbol" in data && s.market.Err? ==>
              r == Abort(s.market.message, [LoadMarketsCall, MarketCall(data["symbol"])])
    ensures var r := RunTrade(data, s);
            "leverage" in data && s.loadMarkets.Pass? && "symbol" in data && s.market.Ok? && s.leverage.Fail? ==>
              r == Abort(s.leverage.message, Prelude(data, s))
    ensures var r := RunTrade(data, s);
            !PreludeOk(data, s) ==> r.result.TradeError? && forall c :: c in r.calls ==> !IsTradingCall(c)
  {
  }

  /** A failure after the leverage is set but before the orders ends the run
      with that failure's message and sends no order: a missing side or mode,
      a percentage that does not convert, a failed price fetch (after which the
      fetch is the last call), or a missing quantity. */
  lemma LateFailureAborts(data: map<string, Value>, s: Script)
    requires ValidScript(s) && PreludeOk(data, s)
    ensures var r := RunTrade(data, s);
            "side" !in data ==> r == Abort(KeyErrorMessage("side"), Prelude(data, s))
    ensures var r := RunTrade(data, s);
            "side" in data && "order_mode" !in data ==> r == Abort(KeyErrorMessage("order_mode"), Prelude(data, s))
    ensures var r := RunTrade(data, s);
            "side" in data && "order_mode" in data && data["order_mode"] == Str("Both") ==>
              && (Fraction(data, "take_profit_percent").Err? ==>
                    r == Abort(Fraction(data, "take_profit_percent").message, Prelude(data, s)))
              && (Fraction(data, "take_profit_percent").Ok? && Fraction(data, "stop_loss_percent").Err? ==>
                    r == Abort(Fraction(data, "stop_loss_percent").message, Prelude(data, s)))
    ensures var r := RunTrade(data, s);
            && "side" in data && "order_mode" in data && data["order_mode"] == Str("Both")
            && Fraction(data, "take_profit_percent").Ok? && Fraction(data, "stop_loss_percent").Ok? ==>
              && (s.ticker.Err? ==> r == Abort(s.ticker.message, Prelude(data, s) + [TickerCall(data["symbol"])]))
              && (s.ticker.Ok? && "qty" !in data ==>
                    r == Abort(KeyErrorMessage("qty"), Prelude(data, s) + [TickerCall(data["symbol"])]))
  {
  }

  /** An order is sent only by a run that gets through every step before the
      placement: leverage set, side and mode read, mode "Both", both
      percentages converted, price fetched and quantity read. */
  lemma {:induction false} OrdersOnlyAtPlacement(data: map<string, Value>, s: Script)
    requires ValidScript(s)
    ensures (exists c :: c in RunTrade(data, s).calls && c.OrderCall?) ==> ReachesPlacement(data, s)
  {
  }

  /** The markets are loaded and the leverage is set before any price fetch or
      order: every trading call comes after the three calls of the prelude. */
  lemma LeverageBeforeTrading(data: map<string, Value>, s: Script)
    requires ValidScript(s)
    ensures var c := RunTrade(data, s).calls;
            forall j :: 0 <= j < |c| && IsTradingCall(c[j]) ==>
              3 <= j && PreludeOk(data, s) && c[..3] == Prelude(data, s)
  {
    var c := RunTrade(data, s).calls;
    if ReachesPlacement(data, s) {
      var stop := StopPlacement(data, s);
      var take := TakeProfitPlacement(data, s);
      assert c == Prelude(data, s) + [TickerCall(data["symbol"])] + stop.calls + take.calls;
      assert c[..3] == Prelude(data, s);
    }
  }

  /** Outside "Both" mode the bot only sets the leverage: no price fetch, no
      order, and a plain acknowledgement once the leverage is set. */
  lemma OtherModePlacesNothing(data: map<string, Value>, s: Script)
    requires ValidScript(s)
    requires "order_mode" in data && data["order_mode"] != Str("Both")
    ensures var r := RunTrade(data, s);
            forall c :: c in r.calls ==> !IsTradingCall(c)
    ensures var r := RunTrade(data, s);
            PreludeOk(data, s) && "side" in data ==>
              r == RunRecord(Acknowledged(ExecutedMessage), Prelude(data, s), None)
  {
  }

  /** Under "Both", once the price is known the stop-loss is placed first and
      the take-profit second, whatever the stop-loss placement returned; the
      orders carry the rounded bracket prices; nothing follows them. */
  lemma StopLossThenTakeProfit(data: map<string, Value>, s: Script)
    requires ValidScript(s) && ReachesPlacement(data, s)
    requires s.stopLossDraw.Some? && s.takeProfitDraw.Some?
    ensures var c := RunTrade(data, s).calls;
            var b := RunBracket(data, s);
            && |c| == 6
            && c[..4] == Prelude(data, s) + [TickerCall(data["symbol"])]
            && c[4].OrderCall? && c[4].order.orderType == StopMarket && c[4].order.stopPrice == b.stopLoss
            && c[5].OrderCall? && c[5].order.orderType == TakeProfitMarket && c[5].order.stopPrice == b.takeProfit
    ensures RunTrade(data, s).clientId == NewClientId(s.takeProfitDraw)
  {
    var stop := StopPlacement(data, s);
    var take := TakeProfitPlacement(data, s);
    PlaceSendsOneOrder(StopLoss, data["symbol"], data["qty"], RunBracket(data, s).stopLoss,
                       PositionSideOf(data["side"]), s.stopLossDraw, s.stopLossOrder);
    PlaceSendsOneOrder(TakeProfit, data["symbol"], data["qty"], RunBracket(data, s).takeProfit,
                       PositionSideOf(data["side"]), s.takeProfitDraw, s.takeProfitOrder);
  }

  /** The take-profit order is still sent when the stop-loss placement failed,
      provided its own id could be drawn; the run then reports the stop-loss
      failure whatever the take-profit outcome. */
  lemma TakeProfitAttemptedAfterStopFailure(data: map<string, Value>, s: Script)
    requires ValidScript(s) && ReachesPlacement(data, s)
    requires StopPlacement(data, s).result.Failed? && s.takeProfitDraw.Some?
    ensures var r := RunTrade(data, s);
            && r.calls[|r.calls| - 1].OrderCall?
            && r.calls[|r.calls| - 1].order.orderType == TakeProfitMarket
            && r.result == TradeError(StopErrorPrefix + StopPlacement(data, s).result.message)
  {
    PlaceSendsOneOrder(TakeProfit, data["symbol"], data["qty"], RunBracket(data, s).takeProfit,
                       PositionSideOf(data["side"]), s.takeProfitDraw, s.takeProfitOrder);
  }

  /** The result of a run that reaches the placement: the stop-loss error when
      that leg failed, else the take-profit error when that leg failed, else
      both order ids. */
  lemma PlacementResult(data: map<string, Value>, s: Script)
    requires ValidScript(s) && ReachesPlacement(data, s)
    ensures var r := RunTrade(data, s).result;
            var stop := StopPlacement(data, s).result;
            var take := TakeProfitPlacement(data, s).result;
            && (stop.Failed? ==> r == TradeError(StopErrorPrefix + stop.message))
            && (stop.Placed? && take.Failed? ==> r == TradeError(TakeProfitErrorPrefix + take.message))
            && (stop.Placed? && take.Placed? ==> r == BothPlaced(stop, take))
    ensures var r := RunTrade(data, s).result;
            r.BothPlaced? <==>
              s.stopLossDraw.Some? && s.stopLossOrder.Ok? && s.takeProfitDraw.Some? && s.takeProfitOrder.Ok?
    ensures var r := RunTrade(data, s).result;
            s.stopLossDraw.Some? && s.stopLossOrder.Ok? && s.takeProfitDraw.Some? && s.takeProfitOrder.Ok? ==>
              r == BothPlaced(Placed(s.stopLossOrder.value), Placed(s.takeProfitOrder.value))
  {
  }

  /** A long request at 10x leverage for 5% take-profit and 2% stop-loss. */
  function ExampleRequest(): map<string, Value> {
    map["symbol" := Str("BTC/USDT"), "type" := Str("MARKET"), "side" := Str("Buy"),
        "qty" := Float(0.01), "leverage" := Int(10), "order_mode" := Str("Both"),
        "take_profit_percent" := Int(5), "stop_loss_percent" := Str("2")]
  }

  /** An exchange that accepts everything, with last price 50000. */
  function ExampleScript(): Script {
    Script(Pass, Ok("BTCUSDT"), Pass, Ok(50000.0), Some("ABC1234"), Ok("111"), Some("XYZ7890"), Ok("222"))
  }

  lemma ExampleReachesPlacement()
    ensures ValidScript(ExampleScript()) && ReachesPlacement(ExampleRequest(), ExampleScript())
    ensures RunBracket(ExampleRequest(), ExampleScript()) == BracketPrices(52500.0, 49000.0)
  {
    var data := ExampleRequest();
    assert IsSuffix("ABC1234") && IsSuffix("XYZ7890");
    ParseDecimalInteger("2");
    assert DigitsValue("2") == 2;
    assert Fraction(data, "take_profit_percent") == Ok(5.0 / 100.0);
    assert Fraction(data, "stop_loss_percent") == Ok(2.0 / 100.0);
    BracketExamples();
  }

  /** An end-to-end example: the long request above, against an exchange that
      accepts both legs, sets the leverage on the market id, places a SELL stop
      at 49000 and a SELL take-profit at 52500 and returns both order ids. */
  lemma RunExample()
    ensures var r := RunTrade(ExampleRequest(), ExampleScript());
            && r.result == BothPlaced(Placed("111"), Placed("222"))
            && |r.calls| == 6
            && r.calls[2] == LeverageCall("BTCUSDT", Int(10))
            && r.calls[4].OrderCall? && r.calls[4].order.side == Sell && r.calls[4].order.stopPrice == 49000.0
            && r.calls[5].OrderCall? && r.calls[5].order.side == Sell && r.calls[5].order.stopPrice == 52500.0
  {
    var data, s := ExampleRequest(), ExampleScript();
    ExampleReachesPlacement();
    StopLossThenTakeProfit(data, s);
    PlacementResult(data, s);
    assert PositionSideOf(data["side"]) == Long;
    PlaceSendsOneOrder(StopLoss, data["symbol"], data["qty"], RunBracket(data, s).stopLoss,
                       Long, s.stopLossDraw, s.stopLossOrder);
    PlaceSendsOneOrder(TakeProfit, data["symbol"], data["qty"], RunBracket(data, s).takeProfit,
                       Long, s.takeProfitDraw, s.takeProfitOrder);
  }

  // ------------------------------------------------------------ the exchange

  /** The exchange as the bot sees it: credentials, the sandbox switch, and the
      log of every call made on it. Each call answers with the response it is
      given. */
  class Gateway {
    const apiKey: Value
    const secret: Value
    var sandbox: bool
    var calls: seq<Call>

    constructor (apiKey: Value, secret: Value)
      ensures this.apiKey == apiKey && this.secret == secret
      ensures !sandbox && calls == []
    {
      this.apiKey := apiKey;
      this.secret := secret;
      sandbox := false;
      calls := [];
    }

    method SetSandboxMode(on: bool)
      modifies this`sandbox
      ensures sandbox == on
    {
      sandbox := on;
    }

    method LoadMarkets(response: Outcome) returns (r: Outcome)
      modifies this`calls
      ensures r == response && calls == old(calls) + [LoadMarketsCall]
    {
      calls := calls + [LoadMarketsCall];
      r := response;
    }

    /** The exchange's id for a symbol, from the loaded markets. */
    method Market(symbol: Value, response: Result<string>) returns (r: Result<string>)
      modifies this`calls
      ensures r == response && calls == old(calls) + [MarketCall(symbol)]
    {
      calls := calls + [MarketCall(symbol)];
      r := response;
    }

    method PostLeverage(marketId: string, leverage: Value, response: Outcome) returns (r: Outcome)
      modifies this`calls
      ensures r == response && calls == old(calls) + [LeverageCall(marketId, leverage)]
    {
      calls := calls + [LeverageCall(marketId, leverage)];
      r := response;
    }

    /** The last traded price of a symbol. */
    method FetchTicker(symbol: Value, response: Result<real>) returns (r: Result<real>)
      modifies this`calls
      ensures r == response && calls == old(calls) + [TickerCall(symbol)]
    {
      calls := calls + [TickerCall(symbol)];
      r := response;
    }

    /** Place an order; the response is the new order's id. */
    method CreateOrder(order: Order, response: Result<string>) returns (r: Result<string>)
      modifies this`calls
      ensures r == response && calls == old(calls) + [OrderCall(order)]
    {
      calls := calls + [OrderCall(order)];
      r := response;
    }

    /** Look an order up; the response is its status field. */
    method FetchOrder(orderId: Value, symbol: Value, response: Result<Value>) returns (r: Result<Value>)
      modifies this`calls
      ensures r == response && calls == old(calls) + [OrderStatusCall(orderId, symbol)]
    {
      calls := calls + [OrderStatusCall(orderId, symbol)];
      r := response;
    }
  }

  // ------------------------------------------------------------ the bot

  datatype OrderStatus = StatusFetched(status: Value) | StatusError(message: string)

  class Bot {
    const exchange: Gateway
    /** The last client id generated, None until one is. */
    var clientId: Option<string>

    constructor (apiKey: Value, apiSecret: Value, testnet: Value)
      ensures fresh(exchange)
      ensures exchange.apiKey == apiKey && exchange.secret == apiSecret
      ensures exchange.sandbox == Truthy(testnet) && exchange.calls == []
      ensures clientId == None
    {
      var gateway := new Gateway(apiKey, apiSecret);
      if Truthy(testnet) {
        gateway.SetSandboxMode(true);
      }
      exchange := gateway;
      clientId := None;
    }

    /** Generate a client id from a draw and remember it. A draw that raised
        yields None and leaves the remembered id alone. */
    method CreateString(draw: Option<string>) returns (id: Option<string>)
      requires ValidDraw(draw)
      modifies this`clientId
      ensures id == NewClientId(draw)
      ensures clientId == (if id.Some? then id else old(clientId))
    {
      match draw {
        case None =>
          id := None;
        case Some(suffix) =>
          clientId := Some(BaseId + suffix);
          id := clientId;
      }
    }

    method FetchOrderStatus(orderId: Value, symbol: Value, response: Result<Value>) returns (r: OrderStatus)
      modifies exchange`calls
      ensures exchange.calls == old(exchange.calls) + [OrderStatusCall(orderId, symbol)]
      ensures r == match response
                   case Ok(status) => StatusFetched(status)
                   case Err(m) => StatusError(m)
    {
      var order := exchange.FetchOrder(orderId, symbol, response);
      match order {
        case Ok(status) => r := StatusFetched(status);
        case Err(m) => r := StatusError(m);
      }
    }

    /** The body shared by the two placers. */
    method PlaceConditional(kind: OrderKind, symbol: Value, qty: Value, price: real, position: PositionSide,
                            draw: Option<string>, response: Result<string>) returns (r: OrderResult)
      requires ValidDraw(draw)
      modifies this`clientId, exchange`calls
      ensures var p := Place(kind, symbol, qty, price, position, draw, response);
              && r == p.result
              && exchange.calls == old(exchange.calls) + p.calls
              && clientId == (if p.clientId.Some? then p.clientId else old(clientId))
    {
      var id := CreateString(draw);
      if id.None? {
        return Failed(IdFailureMessage);
      }
      var order := ConditionalOrder(kind, symbol, qty, price, position, id.value);
      var created := exchange.CreateOrder(order, response);
      match created {
        case Ok(orderId) => r := Placed(orderId);
        case Err(m) => r := Failed(m);
      }
    }

    /** Place the STOP_MARKET order that closes the position at the stop-loss price. */
    method PlaceStopMarket(symbol: Value, qty: Value, stopPrice: real, position: PositionSide,
                           draw: Option<string>, response: Result<string>) returns (r: OrderResult)
      requires ValidDraw(draw)
      modifies this`clientId, exchange`calls
      ensures var p := Place(StopLoss, symbol, qty, stopPrice, position, draw, response);
              && r == p.result
              && exchange.calls == old(exchange.calls) + p.calls
              && clientId == (if p.clientId.Some? then p.clientId else old(clientId))
    {
      r := PlaceConditional(StopLoss, symbol, qty, stopPrice, position, draw, response);
    }

    /** Place the TAKE_PROFIT_MARKET order that closes the position at the take-profit price. */
    method PlaceTakeProfitMarket(symbol: Value, qty: Value, takeProfitPrice: real, position: PositionSide,
                                 draw: Option<string>, response: Result<string>) returns (r: OrderResult)
      requires ValidDraw(draw)
      modifies this`clientId, exchange`calls
      ensures var p := Place(TakeProfit, symbol, qty, takeProfitPrice, position, draw, response);
              && r == p.result
              && exchange.calls == old(exchange.calls) + p.calls
              && clientId == (if p.clientId.Some? then p.clientId else old(clientId))
    {
      r := PlaceConditional(TakeProfit, symbol, qty, takeProfitPrice, position, draw, response);
    }

    /** Execute one trade request against the exchange. */
    method Run(data: map<string, Value>, s: Script) returns (r: TradeResult)
      requires ValidScript(s)
      modifies this`clientId, exchange`calls
      ensures var o := RunTrade(data, s);
              && r == o.result
              && exchange.calls == old(exchange.calls) + o.calls
              && clientId == (if o.clientId.Some? then o.clientId else old(clientId))
    {
      var leverage := Index(data, "leverage");
      if leverage.Err? {
        return TradeError(leverage.message);
      }
      var loaded := exchange.LoadMarkets(s.loadMarkets);
      if loaded.Fail? {
        return TradeError(loaded.message);
      }
      var symbol := Index(data, "symbol");
      if symbol.Err? {
        return TradeError(symbol.message);
      }
      var marketId := exchange.Market(symbol.value, s.market);
      if marketId.Err? {
        return TradeError(marketId.message);
      }
      var leverageSet := exchange.PostLeverage(marketId.value, leverage.value, s.leverage);
      if leverageSet.Fail? {
        return TradeError(leverageSet.message);
      }
      var side := Index(data, "side");
      if side.Err? {
        return TradeError(side.message);
      }
      var position := PositionSideOf(side.value);
      var mode := Index(data, "order_mode");
      if mode.Err? {
        return TradeError(mode.message);
      }
      if mode.value != Str("Both") {
        return Acknowledged(ExecutedMessage);
      }
      var tpFrac := Fraction(data, "take_profit_percent");
      if tpFrac.Err? {
        return TradeError(tpFrac.message);
      }
      var slFrac := Fraction(data, "stop_loss_percent");
      if slFrac.Err? {
        return TradeError(slFrac.message);
      }
      var last := exchange.FetchTicker(symbol.value, s.ticker);
      if last.Err? {
        return TradeError(last.message);
      }
      var prices := Bracket(last.value, position, tpFrac.value, slFrac.value);
      var qty := Index(data, "qty");
      if qty.Err? {
        return TradeError(qty.message);
      }
      var stop := PlaceStopMarket(symbol.value, qty.value, prices.stopLoss, position,
                                  s.stopLossDraw, s.stopLossOrder);
      var take := PlaceTakeProfitMarket(symbol.value, qty.value, prices.takeProfit, position,
                                        s.takeProfitDraw, s.takeProfitOrder);
      r := Merge(stop, take);
    }
  }
}
