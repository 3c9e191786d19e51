/**
  Routing keys of the transport streams (models/models.go): a data kind,
  an exchange and a symbol joined by ':'. Downstream services rebuild the
  same keys, so the lemmas here show what a key determines: read back
  field by field, it gives its parts in order.
 */
module StreamNames {

  import opened Records

  /** Position of the first separator. */
  function FirstColon(s: string): (i: nat)
    requires ':' in s
    ensures i < |s| && s[i] == ':'
    ensures forall j :: 0 <= j < i ==> s[j] != ':'
  {
    if s[0] == ':' then 0 else 1 + FirstColon(s[1..])
  }

  /** The ':'-separated fields of a key (like Go's strings.Split(s, ":")). */
  function Fields(s: string): (fs: seq<string>)
    decreases |s|
  {
    if ':' !in s then [s]
    else
      var i := FirstColon(s);
      [s[..i]] + Fields(s[i + 1..])
  }

  /** A separator-free text followed by ':' is a first field; the fields of the rest follow. */
  lemma FieldsOfJoin(a: string, b: string)
    requires ':' !in a
    ensures Fields(a + ":" + b) == [a] + Fields(b)
  {
    var joined := a + ":" + b;
    assert joined[|a|] == ':';
    assert forall j :: 0 <= j < |a| ==> joined[j] == a[j];
    var i := FirstColon(joined);
    assert i == |a|;
    assert joined[..i] == a;
    assert joined[i + 1..] == b;
    assert Fields(joined) == [joined[..i]] + Fields(joined[i + 1..]);
  }

  /** The key `kind:exchange:symbol`: each part in place, separated by ':'. */
  function GetStreamName(dataType: string, exchange: Exchange, symbol: Symbol): (name: string)
    ensures |name| == |dataType| + |exchange| + |symbol| + 2
    ensures name[..|dataType|] == dataType && name[|dataType|] == ':'
    ensures name[|dataType| + 1..|dataType| + 1 + |exchange|] == exchange
    ensures name[|dataType| + 1 + |exchange|] == ':'
    ensures name[|dataType| + |exchange| + 2..] == symbol
  {
    dataType + ":" + (exchange + ":" + symbol)
  }

  function GetLiquidationStreamName(exchange: Exchange, symbol: Symbol): (name: string)
    ensures |name| > 13 && name[..13] == "liquidations:"
    ensures name[13..] == exchange + ":" + symbol
  {
    GetStreamName("liquidations", exchange, symbol)
  }

  function GetPositionStreamName(exchange: Exchange, symbol: Symbol): (name: string)
    ensures |name| > 10 && name[..10] == "positions:"
    ensures name[10..] == exchange + ":" + symbol
  {
    GetStreamName("positions", exchange, symbol)
  }

  function GetMarketStreamName(exchange: Exchange, symbol: Symbol): (name: string)
    ensures |name| > 7 && name[..7] == "market:"
    ensures name[7..] == exchange + ":" + symbol
  {
    GetStreamName("market", exchange, symbol)
  }

  function GetOrderBookStreamName(exchange: Exchange, symbol: Symbol): (name: string)
    ensures |name| > 10 && name[..10] == "orderbook:"
    ensures name[10..] == exchange + ":" + symbol
  {
    GetStreamName("orderbook", exchange, symbol)
  }

  function GetHeatmapStreamName(symbol: Symbol): (name: string)
    ensures |name| >= 8 && name[..8] == "heatmap:" && name[8..] == symbol
  {
    "heatmap:" + symbol
  }

  /** A stream name reads back as its data kind, then the fields of exchange and symbol. */
  lemma StreamNameFields(dataType: string, exchange: Exchange, symbol: Symbol)
    requires ':' !in dataType
    ensures Fields(GetStreamName(dataType, exchange, symbol)) == [dataType] + Fields(exchange + ":" + symbol)
  {
    FieldsOfJoin(dataType, exchange + ":" + symbol);
  }

  /** With a separator-free exchange, the fields are kind, exchange, then the symbol's fields. */
  lemma StreamNameParts(dataType: string, exchange: Exchange, symbol: Symbol)
    requires ':' !in dataType && ':' !in exchange
    ensures Fields(GetStreamName(dataType, exchange, symbol)) == [dataType, exchange] + Fields(symbol)
  {
    StreamNameFields(dataType, exchange, symbol);
    FieldsOfJoin(exchange, symbol);
  }

  /** A stream of a separator-free data kind has that kind as its first field. */
  lemma KindIsFirstField(kind: string, exchange: Exchange, symbol: Symbol)
    requires ':' !in kind
    ensures Fields(GetStreamName(kind, exchange, symbol))[0] == kind
  {
    StreamNameFields(kind, exchange, symbol);
  }

  /** The heatmap stream reads back as "heatmap", then the symbol's fields. */
  lemma HeatmapStreamFields(symbol: Symbol)
    ensures Fields(GetHeatmapStreamName(symbol)) == ["heatmap"] + Fields(symbol)
  {
    FieldsOfJoin("heatmap", symbol);
    assert GetHeatmapStreamName(symbol) == "heatmap" + ":" + symbol;
  }

  /**
    With separator-free parts a stream name determines its data kind,
    exchange and symbol: two routes share a key only if they agree on all three.
   */
  lemma StreamNameInjective(d1: string, e1: Exchange, s1: Symbol, d2: string, e2: Exchange, s2: Symbol)
    requires ':' !in d1 && ':' !in e1
    requires ':' !in d2 && ':' !in e2
    requires GetStreamName(d1, e1, s1) == GetStreamName(d2, e2, s2)
    ensures d1 == d2 && e1 == e2 && s1 == s2
  {
    StreamNameParts(d1, e1, s1);
    StreamNameParts(d2, e2, s2);
    var f1, f2 := Fields(GetStreamName(d1, e1, s1)), Fields(GetStreamName(d2, e2, s2));
    assert f1[0] == d1 && f1[1] == e1;
    assert f2[0] == d2 && f2[1] == e2;
    var n := |d1| + |e1| + 2;
    assert GetStreamName(d1, e1, s1)[n..] == s1;
    assert GetStreamName(d2, e2, s2)[n..] == s2;
  }

  /** Streams of two different separator-free kinds never share a key. */
  lemma DistinctKindsNeverCollide(k1: string, e1: Exchange, s1: Symbol, k2: string, e2: Exchange, s2: Symbol)
    requires ':' !in k1 && ':' !in k2 && k1 != k2
    ensures GetStreamName(k1, e1, s1) != GetStreamName(k2, e2, s2)
  {
    KindIsFirstField(k1, e1, s1);
    KindIsFirstField(k2, e2, s2);
  }

  /** The heatmap stream never shares a key with a stream of another separator-free kind. */
  lemma HeatmapNeverCollides(heatmapSymbol: Symbol, kind: string, exchange: Exchange, symbol: Symbol)
    requires ':' !in kind && kind != "heatmap"
    ensures GetHeatmapStreamName(heatmapSymbol) != GetStreamName(kind, exchange, symbol)
  {
    HeatmapStreamFields(heatmapSymbol);
    KindIsFirstField(kind, exchange, symbol);
  }

  /** The five named streams never share a key, whatever the exchanges and symbols. */
  lemma KindsNeverCollide(e1: Exchange, s1: Symbol, e2: Exchange, s2: Symbol)
    ensures GetLiquidationStreamName(e1, s1) != GetPositionStreamName(e2, s2)
    ensures GetLiquidationStreamName(e1, s1) != GetMarketStreamName(e2, s2)
    ensures GetLiquidationStreamName(e1, s1) != GetOrderBookStreamName(e2, s2)
    ensures GetPositionStreamName(e1, s1) != GetMarketStreamName(e2, s2)
    ensures GetPositionStreamName(e1, s1) != GetOrderBookStreamName(e2, s2)
    ensures GetMarketStreamName(e1, s1) != GetOrderBookStreamName(e2, s2)
    ensures GetHeatmapStreamName(s1) != GetLiquidationStreamName(e2, s2)
    ensures GetHeatmapStreamName(s1) != GetPositionStreamName(e2, s2)
    ensures GetHeatmapStreamName(s1) != GetMarketStreamName(e2, s2)
    ensures GetHeatmapStreamName(s1) != GetOrderBookStreamName(e2, s2)
  {
    DistinctKindsNeverCollide("liquidations", e1, s1, "positions", e2, s2);
    DistinctKindsNeverCollide("liquidations", e1, s1, "market", e2, s2);
    DistinctKindsNeverCollide("liquidations", e1, s1, "orderbook", e2, s2);
    DistinctKindsNeverCollide("positions", e1, s1, "market", e2, s2);
    DistinctKindsNeverCollide("positions", e1, s1, "orderbook", e2, s2);
    DistinctKindsNeverCollide("market", e1, s1, "orderbook", e2, s2);
    HeatmapNeverCollides(s1, "liquidations", e2, s2);
    HeatmapNeverCollides(s1, "positions", e2, s2);
    HeatmapNeverCollides(s1, "market", e2, s2);
    HeatmapNeverCollides(s1, "orderbook", e2, s2);
  }

  /** The keys the stream-name tests expect, and the one they get wrong. */
  lemma StreamNameExamples()
    ensures GetLiquidationStreamName(ExchangeBinance, SymbolBTCUSDT) == "liquidations:binance:BTCUSDT"
    ensures GetHeatmapStreamName(SymbolBTCUSDT) == "heatmap:BTCUSDT"
    ensures GetMarketStreamName(ExchangeOKX, SymbolETHUSDT) == "market:okx:ETHUSD"
    ensures GetMarketStreamName(ExchangeOKX, SymbolETHUSDT) != "market:okx:ETHUSDT"
  {
    assert GetStreamName("liquidations", "binance", "BTCUSDT") == "liquidations:binance:BTCUSDT";
    assert GetStreamName("market", "okx", "ETHUSD") == "market:okx:ETHUSD";
    assert |"market:okx:ETHUSD"| != |"market:okx:ETHUSDT"|;
  }
}
