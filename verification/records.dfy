/**
  The domain records of the liquidation-heatmap pipeline and their
  fail-fast validation (models/models.go).

  Go's named string types (Exchange, Symbol, Side, ...) are plain strings
  here: the source compares them as strings and accepts any value.
  Prices are `real`, so the NaN that Go's float64 lets through the
  `<= 0` checks is not representable.
 */
module Records {

  import opened Wrappers

  type Exchange = string
  type Symbol = string
  type Side = string
  type OrderType = string

  const ExchangeBinance: Exchange := "binance"
  const ExchangeOKX: Exchange := "okx"
  const ExchangeBybit: Exchange := "bybit"
  const ExchangeCoinbase: Exchange := "coinbase"
  const ExchangeKraken: Exchange := "kraken"
  const ExchangeDeribit: Exchange := "deribit"
  const ExchangeBitfinex: Exchange := "bitfinex"

  const SymbolBTCUSDT: Symbol := "BTCUSDT"
  // The constant's name says ETHUSDT but its value is "ETHUSD"; kept as written.
  const SymbolETHUSDT: Symbol := "ETHUSD"
  const SymbolBTCUSD: Symbol := "BTCUSD"

  const OrderTypeLiquidation: OrderType := "liquidation"
  const OrderTypeADL: OrderType := "adl"
  const OrderTypeBankruptcy: OrderType := "bankruptcy"

  const SideLong: Side := "long"
  const SideShort: Side := "short"

  /** The first rule a record breaks; one constructor per `fmt.Errorf` of the source. */
  datatype ValidationError =
    | ExchangeRequired
    | SymbolRequired
    | InvalidTimestamp
    | InvalidMarkPrice
    | InvalidPrice
    | InvalidQuantity
    | InvalidValue
    | InvalidSide(side: Side)
    | InvalidPriceLevel
  {
    /** The text of the error the source returns. */
    function Message(): (m: string)
      ensures InvalidSide? <==> |m| >= 14 && m[..14] == "invalid side: "
      ensures InvalidSide? ==> m[14..] == side
    {
      // Each fixed text is shorter than the side prefix or differs from it at its first or ninth character.
      match this
      case ExchangeRequired => var m := "exchange is required"; assert m[0] != 'i'; m
      case SymbolRequired => var m := "symbol is required"; assert m[0] != 'i'; m
      case InvalidTimestamp => var m := "invalid timestamp"; assert m[8] != 's'; m
      case InvalidMarkPrice => var m := "invalid mark price"; assert m[8] != 's'; m
      case InvalidPrice => "invalid price"
      case InvalidQuantity => var m := "invalid quantity"; assert m[8] != 's'; m
      case InvalidValue => "invalid value"
      case InvalidSide(s) => "invalid side: " + s
      case InvalidPriceLevel => var m := "invalid price level"; assert m[8] != 's'; m
    }
  }

  /** Each error text names one error: the text alone tells which check failed, and on what side. */
  lemma MessageInjective(x: ValidationError, y: ValidationError)
    requires x.Message() == y.Message()
    ensures x == y
  {
  }

  /** One check of a validation chain: whether it holds, and what is reported if not. */
  datatype Rule = Rule(holds: bool, error: ValidationError)

  /** Rule `i` is the first one that fails. */
  ghost predicate FirstFailureAt(rules: seq<Rule>, i: int) {
    0 <= i < |rules| && !rules[i].holds && forall j :: 0 <= j < i ==> rules[j].holds
  }

  /**
    Reference definition of a fail-fast validation: the error of the first
    rule that fails, or None when every rule holds.
   */
  function FirstViolation(rules: seq<Rule>): (r: Option<ValidationError>)
    ensures r.None? <==> forall i :: 0 <= i < |rules| ==> rules[i].holds
    ensures r.Some? ==> exists i :: FirstFailureAt(rules, i) && rules[i].error == r.value
  {
    if rules == [] then None
    else if !rules[0].holds then
      assert FirstFailureAt(rules, 0);
      Some(rules[0].error)
    else
      var rest := FirstViolation(rules[1..]);
      assert rest.Some? ==> exists i :: FirstFailureAt(rules, i) && rules[i].error == rest.value by {
        if rest.Some? {
          var i :| FirstFailureAt(rules[1..], i) && rules[1..][i].error == rest.value;
          assert FirstFailureAt(rules, i + 1);
        }
      }
      rest
  }

  /** The error FirstViolation reports is the error of THE first failing rule. */
  lemma FirstViolationAt(rules: seq<Rule>, i: int)
    requires FirstFailureAt(rules, i)
    ensures FirstViolation(rules) == Some(rules[i].error)
  {
    var r := FirstViolation(rules);
    var k :| FirstFailureAt(rules, k) && rules[k].error == r.value;
    if k != i {
      assert false;
    }
  }

  /** Point-in-time market state. */
  datatype MarketSnapshot = MarketSnapshot(
    exchange: Exchange,
    symbol: Symbol,
    timestamp: int,
    markPrice: real,
    indexPrice: real,
    fundingRate: real,
    openInterest: real,
    volume24h: real,
    nextFundingTime: int)
  {
    /** The checks of Validate, in the order the source makes them. */
    function Rules(): seq<Rule> {
      [ Rule(exchange != "", ExchangeRequired),
        Rule(symbol != "", SymbolRequired),
        Rule(timestamp > 0, InvalidTimestamp),
        Rule(markPrice > 0.0, InvalidMarkPrice) ]
    }

    /** None plays the part of Go's nil error. */
    function Validate(): (err: Option<ValidationError>)
      ensures err.None? <==> exchange != "" && symbol != "" && timestamp > 0 && markPrice > 0.0
    {
      if exchange == "" then Some(ExchangeRequired)
      else if symbol == "" then Some(SymbolRequired)
      else if timestamp <= 0 then Some(InvalidTimestamp)
      else if markPrice <= 0.0 then Some(InvalidMarkPrice)
      else None
    }
  }

  /** One forced closure reported by an exchange. */
  datatype LiquidationEvent = LiquidationEvent(
    exchange: Exchange,
    symbol: Symbol,
    timestamp: int,
    side: Side,
    price: real,
    quantity: real,
    value: real,
    orderType: OrderType)
  {
    /** The checks of Validate, in the order the source makes them. */
    function Rules(): seq<Rule> {
      [ Rule(exchange != "", ExchangeRequired),
        Rule(symbol != "", SymbolRequired),
        Rule(timestamp > 0, InvalidTimestamp),
        Rule(price > 0.0, InvalidPrice),
        Rule(quantity > 0.0, InvalidQuantity),
        Rule(value > 0.0, InvalidValue),
        Rule(side == SideLong || side == SideShort, InvalidSide(side)) ]
    }

    function Validate(): (err: Option<ValidationError>)
      ensures err.None? <==>
        && exchange != "" && symbol != ""
        && timestamp > 0 && price > 0.0 && quantity > 0.0 && value > 0.0
        && (side == SideLong || side == SideShort)
    {
      if exchange == "" then Some(ExchangeRequired)
      else if symbol == "" then Some(SymbolRequired)
      else if timestamp <= 0 then Some(InvalidTimestamp)
      else if price <= 0.0 then Some(InvalidPrice)
      else if quantity <= 0.0 then Some(InvalidQuantity)
      else if value <= 0.0 then Some(InvalidValue)
      else if side != SideLong && side != SideShort then Some(InvalidSide(side))
      else None
    }
  }

  /** Aggregated positions on one side of a price level. */
  datatype PositionSummary = PositionSummary(count: int, volume: real, avgLeverage: real)

  /** Positions held at one price level. */
  datatype PositionDistribution = PositionDistribution(
    exchange: Exchange,
    symbol: Symbol,
    timestamp: int,
    priceLevel: real,
    longPositions: PositionSummary,
    shortPositions: PositionSummary)
  {
    /** The checks of Validate, in the order the source makes them. */
    function Rules(): seq<Rule> {
      [ Rule(exchange != "", ExchangeRequired),
        Rule(symbol != "", SymbolRequired),
        Rule(timestamp > 0, InvalidTimestamp),
        Rule(priceLevel > 0.0, InvalidPriceLevel) ]
    }

    function Validate(): (err: Option<ValidationError>)
      ensures err.None? <==> exchange != "" && symbol != "" && timestamp > 0 && priceLevel > 0.0
    {
      if exchange == "" then Some(ExchangeRequired)
      else if symbol == "" then Some(SymbolRequired)
      else if timestamp <= 0 then Some(InvalidTimestamp)
      else if priceLevel <= 0.0 then Some(InvalidPriceLevel)
      else None
    }
  }

  /** MarketSnapshot.Validate reports the first of its rules, taken in order, that fails. */
  lemma MarketSnapshotFailFast(m: MarketSnapshot)
    ensures m.Validate() == FirstViolation(m.Rules())
  {
    var rules := m.Rules();
    if m.exchange == "" { FirstViolationAt(rules, 0); }
    else if m.symbol == "" { FirstViolationAt(rules, 1); }
    else if m.timestamp <= 0 { FirstViolationAt(rules, 2); }
    else if m.markPrice <= 0.0 { FirstViolationAt(rules, 3); }
  }

  /** LiquidationEvent.Validate reports the first of its rules, taken in order, that fails. */
  lemma LiquidationEventFailFast(e: LiquidationEvent)
    ensures e.Validate() == FirstViolation(e.Rules())
  {
    var rules := e.Rules();
    if e.exchange == "" { FirstViolationAt(rules, 0); }
    else if e.symbol == "" { FirstViolationAt(rules, 1); }
    else if e.timestamp <= 0 { FirstViolationAt(rules, 2); }
    else if e.price <= 0.0 { FirstViolationAt(rules, 3); }
    else if e.quantity <= 0.0 { FirstViolationAt(rules, 4); }
    else if e.value <= 0.0 { FirstViolationAt(rules, 5); }
    else if e.side != SideLong && e.side != SideShort { FirstViolationAt(rules, 6); }
  }

  /** PositionDistribution.Validate reports the first of its rules, taken in order, that fails. */
  lemma PositionDistributionFailFast(p: PositionDistribution)
    ensures p.Validate() == FirstViolation(p.Rules())
  {
    var rules := p.Rules();
    if p.exchange == "" { FirstViolationAt(rules, 0); }
    else if p.symbol == "" { FirstViolationAt(rules, 1); }
    else if p.timestamp <= 0 { FirstViolationAt(rules, 2); }
    else if p.priceLevel <= 0.0 { FirstViolationAt(rules, 3); }
  }

  /** An event with the fields every test case starts from. */
  function SampleEvent(timestamp: int): LiquidationEvent {
    LiquidationEvent(ExchangeBinance, SymbolBTCUSDT, timestamp, SideLong,
                     45000.0, 1.5, 67500.0, OrderTypeLiquidation)
  }

  /** The accepted event and the five rejected ones of the event tests, each with the error it gets. */
  lemma EventValidationCases(now: int)
    requires now > 0
    ensures SampleEvent(now).Validate() == None
    ensures SampleEvent(now).(exchange := "", value := 0.0).Validate() == Some(ExchangeRequired)
    ensures SampleEvent(now).(symbol := "", value := 0.0).Validate() == Some(SymbolRequired)
    ensures SampleEvent(0).(value := 0.0).Validate() == Some(InvalidTimestamp)
    ensures SampleEvent(now).(price := -1000.0, value := 0.0).Validate() == Some(InvalidPrice)
    ensures SampleEvent(now).(quantity := 0.0, value := 0.0).Validate() == Some(InvalidQuantity)
  {
  }

  /**
    An exchange-native "SELL" side with no value is rejected by the code,
    first for the missing value and, once a value is given, for the side.
   */
  lemma SellSideRejected(now: int)
    requires now > 0
    ensures SampleEvent(now).(side := "SELL", value := 0.0).Validate() == Some(InvalidValue)
    ensures SampleEvent(now).(side := "SELL").Validate() == Some(InvalidSide("SELL"))
    ensures SampleEvent(now).(side := "SELL").Validate().value.Message() == "invalid side: SELL"
  {
  }
}
