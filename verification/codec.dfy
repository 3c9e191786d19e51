/**
  The flat-map transport codec (models/models.go): a record's JSON object
  becomes a map of strings for a stream message, and a stream message's
  map is read back into a JSON tree.

  The text formats belong to Go's libraries and are parameters here (a
  JsonLib): JSON encoding, `%v` float formatting, JSON parsing and
  `Sscanf("%f")`. What is modelled is the codec's own per-key dispatch.
 */
module Codec {

  import opened Wrappers
  import opened Records

  /**
    A value decoded by encoding/json into interface{}: every number is a
    float64, so one number constructor covers the integer cases as well.
   */
  datatype Json =
    | JStr(str: string)
    | JNum(num: real)
    | JBool(b: bool)
    | JNull
    | JArr(items: seq<Json>)
    | JObj(fields: map<string, Json>)

  /** The library routines the codec calls, as uninterpreted total functions. */
  datatype JsonLib = JsonLib(
    marshal: Json -> string,           // json.Marshal of an already decoded value; cannot fail
    formatFloat: real -> string,       // fmt.Sprintf("%v", f) for a float64
    parse: string -> Option<Json>,     // json.Valid followed by json.Unmarshal into interface{}
    scanFloat: string -> Option<real>) // fmt.Sscanf(s, "%f", &num)

  /** A transport message: id left for the transport, stream name, encode time in ms, flat data. */
  datatype StreamMessage = StreamMessage(id: string, stream: string, timestamp: int, data: map<string, Json>)

  /** Unmarshalling a record's JSON into a Go map failed: it was not an object. */
  datatype CodecError = UnmarshalTypeError(found: string)

  /** Values formatted with `%v`; every other value is stored as its JSON text. */
  predicate IsPrimitive(v: Json) {
    v.JStr? || v.JNum? || v.JBool?
  }

  function KindName(v: Json): string {
    match v
    case JStr(_) => "string"
    case JNum(_) => "number"
    case JBool(_) => "bool"
    case JNull => "null"
    case JArr(_) => "array"
    case JObj(_) => "object"
  }

  /** The string one top-level value is stored as. */
  function FlatText(lib: JsonLib, v: Json): (t: string)
    ensures v.JStr? ==> t == v.str
    ensures v.JNum? ==> t == lib.formatFloat(v.num)
    ensures v.JBool? ==> (t == "true" <==> v.b) && (t == "false" <==> !v.b)
    ensures !IsPrimitive(v) ==> t == lib.marshal(v)
  {
    match v
    case JStr(s) => s
    case JNum(n) => lib.formatFloat(n)
    case JBool(b) => if b then "true" else "false"
    case _ => lib.marshal(v)
  }

  /** The flat data map of a record's top-level fields. */
  function Flatten(lib: JsonLib, fields: map<string, Json>): (data: map<string, Json>)
    ensures data.Keys == fields.Keys
    ensures forall k :: k in data ==> data[k].JStr?
    ensures forall k :: k in fields && fields[k].JStr? ==> data[k] == fields[k]
    ensures forall k :: k in fields && fields[k].JNum? ==> data[k] == JStr(lib.formatFloat(fields[k].num))
    ensures forall k :: k in fields && fields[k].JBool? ==> data[k] == JStr(if fields[k].b then "true" else "false")
    ensures forall k :: k in fields && !IsPrimitive(fields[k]) ==> data[k] == JStr(lib.marshal(fields[k]))
  {
    map k | k in fields :: JStr(FlatText(lib, fields[k]))
  }

  /** The top-level fields Go's map receives: an object's own, none for a JSON null. */
  function ObjectFields(record: Json): map<string, Json>
    requires record.JObj? || record.JNull?
  {
    if record.JObj? then record.fields else map[]
  }

  /**
    structToMap: `record` is the JSON the record marshals to. Unmarshalling
    it into a Go map fails unless it is an object; a JSON null leaves the map
    nil, which ranges as empty. Keys are visited in no particular order.
   */
  method StructToMap(lib: JsonLib, record: Json) returns (res: Result<map<string, Json>, CodecError>)
    ensures res.Ok? <==> record.JObj? || record.JNull?
    ensures res.Ok? ==> res.value == Flatten(lib, ObjectFields(record))
    ensures res.Err? ==> res.error == UnmarshalTypeError(KindName(record))
  {
    if !(record.JObj? || record.JNull?) {
      return Err(UnmarshalTypeError(KindName(record)));
    }
    var fields := ObjectFields(record);
    var result: map<string, Json> := map[];
    var todo := fields.Keys;
    while todo != {}
      invariant todo <= fields.Keys
      invariant result.Keys == fields.Keys - todo
      invariant forall k :: k in result ==> result[k] == JStr(FlatText(lib, fields[k]))
      decreases todo
    {
      var k :| k in todo;
      result := result[k := JStr(FlatText(lib, fields[k]))];
      todo := todo - {k};
    }
    return Ok(result);
  }

  /** ToStreamMessage, with the clock reading passed in as `now`. */
  method ToStreamMessage(lib: JsonLib, streamName: string, record: Json, now: int)
    returns (res: Result<StreamMessage, CodecError>)
    ensures res.Ok? <==> record.JObj? || record.JNull?
    ensures res.Ok? ==> res.value == StreamMessage("", streamName, now, Flatten(lib, ObjectFields(record)))
    ensures res.Err? ==> res.error == UnmarshalTypeError(KindName(record))
  {
    var data := StructToMap(lib, record);
    if data.Err? {
      return Err(data.error);
    }
    return Ok(StreamMessage("", streamName, now, data.value));
  }

  /** The source indexes the first character of every string value, so none may be empty. */
  predicate NonEmptyStrings(data: map<string, Json>) {
    forall k :: k in data && data[k].JStr? ==> data[k].str != ""
  }

  /** A stored string read back: JSON container, else number, else the text itself. */
  function ReadText(lib: JsonLib, s: string): (v: Json)
    requires s != ""
    ensures v == JStr(s) || v.JNum? || ((s[0] == '{' || s[0] == '[') && lib.parse(s) == Some(v))
  {
    if (s[0] == '{' || s[0] == '[') && lib.parse(s).Some? then lib.parse(s).value
    else if lib.scanFloat(s).Some? then JNum(lib.scanFloat(s).value)
    else JStr(s)
  }

  /** One value of a message read back; non-strings pass through unchanged. */
  function ReadValue(lib: JsonLib, v: Json): Json
    requires v.JStr? ==> v.str != ""
  {
    if v.JStr? then ReadText(lib, v.str) else v
  }

  /** The tree FromStreamMessage rebuilds from a message's data. */
  function Reconstruct(lib: JsonLib, data: map<string, Json>): (original: map<string, Json>)
    requires NonEmptyStrings(data)
    ensures original.Keys == data.Keys
    ensures forall k :: k in data && !data[k].JStr? ==> original[k] == data[k]
    ensures forall k :: k in data && data[k].JStr? ==> original[k] == ReadText(lib, data[k].str)
  {
    map k | k in data :: ReadValue(lib, data[k])
  }

  /**
    FromStreamMessage up to the tree it rebuilds; the last step, which
    turns that tree into the caller's struct through encoding/json, is not
    part of this model.
   */
  method FromStreamMessage(lib: JsonLib, msg: StreamMessage) returns (original: map<string, Json>)
    requires NonEmptyStrings(msg.data)
    ensures original == Reconstruct(lib, msg.data)
  {
    original := map[];
    var todo := msg.data.Keys;
    while todo != {}
      invariant todo <= msg.data.Keys
      invariant original.Keys == msg.data.Keys - todo
      invariant forall k :: k in original ==> original[k] == ReadValue(lib, msg.data[k])
      decreases todo
    {
      var k :| k in todo;
      var v := msg.data[k];
      if !v.JStr? {
        original := original[k := v];
      } else {
        var s := v.str;
        if (s[0] == '{' || s[0] == '[') && lib.parse(s).Some? {
          original := original[k := lib.parse(s).value];
        } else if lib.scanFloat(s).Some? {
          original := original[k := JNum(lib.scanFloat(s).value)];
        } else {
          original := original[k := JStr(s)];
        }
      }
      todo := todo - {k};
    }
  }

  // ---------------------------------------------------------------------
  // When a value comes back as itself

  /** A string field survives when it is non-empty and reads neither as JSON nor as a number. */
  predicate StringReadsBack(lib: JsonLib, s: string) {
    && s != ""
    && lib.scanFloat(s).None?
    && ((s[0] == '{' || s[0] == '[') ==> lib.parse(s).None?)
  }

  /** A number survives when its `%v` text scans back to it and does not read as JSON. */
  predicate NumberReadsBack(lib: JsonLib, n: real) {
    var t := lib.formatFloat(n);
    && t != ""
    && lib.scanFloat(t) == Some(n)
    && ((t[0] == '{' || t[0] == '[') ==> lib.parse(t).None?)
  }

  /** A nested value survives when its JSON text opens a container and parses back to it. */
  predicate TreeReadsBack(lib: JsonLib, v: Json) {
    var t := lib.marshal(v);
    t != "" && (t[0] == '{' || t[0] == '[') && lib.parse(t) == Some(v)
  }

  predicate ReadsBack(lib: JsonLib, v: Json) {
    match v
    case JStr(s) => StringReadsBack(lib, s)
    case JNum(n) => NumberReadsBack(lib, n)
    case JBool(_) => false
    case _ => TreeReadsBack(lib, v)
  }

  lemma ValueRoundTrip(lib: JsonLib, v: Json)
    requires ReadsBack(lib, v)
    ensures FlatText(lib, v) != "" && ReadText(lib, FlatText(lib, v)) == v
  {
  }

  /** Reading back what was flattened restores every field that reads back. */
  lemma RoundTrip(lib: JsonLib, fields: map<string, Json>)
    requires forall k :: k in fields ==> ReadsBack(lib, fields[k])
    ensures NonEmptyStrings(Flatten(lib, fields))
    ensures Reconstruct(lib, Flatten(lib, fields)) == fields
  {
    var data := Flatten(lib, fields);
    forall k | k in fields
      ensures data[k].str != "" && ReadText(lib, data[k].str) == fields[k]
    {
      ValueRoundTrip(lib, fields[k]);
    }
  }

  /** A boolean never comes back as a boolean: its text is read as a number or kept as a string. */
  lemma BoolNeverReadsBack(lib: JsonLib, b: bool)
    ensures ReadText(lib, FlatText(lib, JBool(b))) != JBool(b)
  {
  }

  /** A string that scans as a number comes back as that number (for instance a numeric prefix). */
  lemma NumericStringMisread(lib: JsonLib, s: string, n: real)
    requires s != "" && lib.scanFloat(s) == Some(n)
    requires (s[0] == '{' || s[0] == '[') ==> lib.parse(s).None?
    ensures ReadText(lib, FlatText(lib, JStr(s))) == JNum(n) != JStr(s)
  {
  }

  /** A string that looks like a JSON container comes back as the parsed tree. */
  lemma JsonLikeStringMisread(lib: JsonLib, s: string, tree: Json)
    requires s != "" && (s[0] == '{' || s[0] == '[') && lib.parse(s) == Some(tree)
    ensures ReadText(lib, FlatText(lib, JStr(s))) == tree
  {
  }

  /** A null field is stored as its JSON text "null" and comes back as that string. */
  lemma NullComesBackAsText(lib: JsonLib)
    requires lib.marshal(JNull) == "null" && lib.scanFloat("null").None?
    ensures ReadText(lib, FlatText(lib, JNull)) == JStr("null")
  {
  }

  // ---------------------------------------------------------------------
  // Records on the wire

  /** The JSON object a LiquidationEvent marshals to, under its wire names. */
  function EventFields(e: LiquidationEvent): (fields: map<string, Json>)
    ensures fields.Keys
         == {"exchange", "symbol", "timestamp", "side", "price", "quantity", "value", "order_type"}
    ensures fields["exchange"].JStr? && fields["symbol"].JStr? && fields["side"].JStr?
    ensures fields["order_type"].JStr?
    ensures fields["timestamp"].JNum? && fields["price"].JNum? && fields["quantity"].JNum?
    ensures fields["value"].JNum?
  {
    map[
      "exchange" := JStr(e.exchange),
      "symbol" := JStr(e.symbol),
      "timestamp" := JNum(e.timestamp as real),
      "side" := JStr(e.side),
      "price" := JNum(e.price),
      "quantity" := JNum(e.quantity),
      "value" := JNum(e.value),
      "order_type" := JStr(e.orderType)]
  }

  /** A PositionSummary as the nested object it marshals to. */
  function SummaryJson(s: PositionSummary): (j: Json)
    ensures j.JObj? && j.fields.Keys == {"count", "volume", "avg_leverage"}
    ensures forall k :: k in j.fields ==> j.fields[k].JNum?
  {
    JObj(map["count" := JNum(s.count as real), "volume" := JNum(s.volume),
             "avg_leverage" := JNum(s.avgLeverage)])
  }

  /** The JSON object a PositionDistribution marshals to, under its wire names. */
  function DistributionFields(p: PositionDistribution): (fields: map<string, Json>)
    ensures fields.Keys
         == {"exchange", "symbol", "timestamp", "price_level", "long_positions", "short_positions"}
    ensures fields["long_positions"] == SummaryJson(p.longPositions)
    ensures fields["short_positions"] == SummaryJson(p.shortPositions)
  {
    map[
      "exchange" := JStr(p.exchange),
      "symbol" := JStr(p.symbol),
      "timestamp" := JNum(p.timestamp as real),
      "price_level" := JNum(p.priceLevel),
      "long_positions" := SummaryJson(p.longPositions),
      "short_positions" := SummaryJson(p.shortPositions)]
  }

  /** An event's message carries exactly its eight wire names, strings verbatim and numbers as text. */
  lemma EventMessageShape(lib: JsonLib, e: LiquidationEvent)
    ensures Flatten(lib, EventFields(e)).Keys
         == {"exchange", "symbol", "timestamp", "side", "price", "quantity", "value", "order_type"}
    ensures Flatten(lib, EventFields(e))["exchange"] == JStr(e.exchange)
    ensures Flatten(lib, EventFields(e))["symbol"] == JStr(e.symbol)
    ensures Flatten(lib, EventFields(e))["side"] == JStr(e.side)
    ensures Flatten(lib, EventFields(e))["order_type"] == JStr(e.orderType)
    ensures Flatten(lib, EventFields(e))["timestamp"] == JStr(lib.formatFloat(e.timestamp as real))
    ensures Flatten(lib, EventFields(e))["price"] == JStr(lib.formatFloat(e.price))
    ensures Flatten(lib, EventFields(e))["quantity"] == JStr(lib.formatFloat(e.quantity))
    ensures Flatten(lib, EventFields(e))["value"] == JStr(lib.formatFloat(e.value))
  {
  }

  /** The nested position summaries travel as their JSON text. */
  lemma DistributionMessageShape(lib: JsonLib, p: PositionDistribution)
    ensures Flatten(lib, DistributionFields(p))["long_positions"]
         == JStr(lib.marshal(SummaryJson(p.longPositions)))
    ensures Flatten(lib, DistributionFields(p))["short_positions"]
         == JStr(lib.marshal(SummaryJson(p.shortPositions)))
  {
  }

  /**
    A valid event comes back field for field when its texts neither scan as
    numbers nor parse as JSON containers and its numbers' texts scan back.
   */
  lemma EventRoundTrip(lib: JsonLib, e: LiquidationEvent)
    requires e.Validate().None?
    requires StringReadsBack(lib, e.exchange) && StringReadsBack(lib, e.symbol)
    requires StringReadsBack(lib, e.orderType) && lib.scanFloat(e.side).None?
    requires NumberReadsBack(lib, e.timestamp as real) && NumberReadsBack(lib, e.price)
    requires NumberReadsBack(lib, e.quantity) && NumberReadsBack(lib, e.value)
    ensures NonEmptyStrings(Flatten(lib, EventFields(e)))
    ensures Reconstruct(lib, Flatten(lib, EventFields(e))) == EventFields(e)
  {
    var fields := EventFields(e);
    assert e.side[0] == 'l' || e.side[0] == 's';
    forall k | k in fields ensures ReadsBack(lib, fields[k]) {
    }
    RoundTrip(lib, fields);
  }

  /**
    Validation accepts an event without an order type, yet its message
    holds an empty string, which reading back does not accept.
   */
  lemma ValidEventWithoutOrderTypeBlocksDecode(lib: JsonLib, now: int)
    requires now > 0
    ensures SampleEvent(now).(orderType := "").Validate().None?
    ensures !NonEmptyStrings(Flatten(lib, EventFields(SampleEvent(now).(orderType := ""))))
  {
    var data := Flatten(lib, EventFields(SampleEvent(now).(orderType := "")));
    assert data["order_type"] == JStr("");
  }
}
