# Liquidation-heatmap models in Dafny

This project models the shared `models` package of a liquidation-heatmap
pipeline (`models/models.go`): the vocabulary that ingestion, aggregation and
serving services share. Four parts of it have behaviour to prove.

- **Validation** (`records.dfy`, module `Records`). `MarketSnapshot`,
  `LiquidationEvent` and `PositionDistribution` are datatypes, and each
  `Validate` is a fail-fast chain that returns the first rule broken, or
  `None` where Go returns a nil error. The rules of each record are also
  written as an ordered list of `Rule`s. `FirstViolation` is a reference
  definition of "the first rule that fails", and each `Validate` is proved
  equal to it. `ValidationError.Message` gives the exact error texts.
- **Stream names** (`stream_names.dfy`, module `StreamNames`). These are the
  routing keys `kind:exchange:symbol` and `heatmap:symbol`. `Fields` splits a
  key on `:`, which makes it the inverse of the key builders whenever the kind
  and exchange contain no `:`. The lemmas show
  that a key reads back as its parts, so it determines them. They also show
  that keys of different kinds never collide.
- **Intervals** (`intervals.dfy`, module `Intervals`). This is the
  interval-to-milliseconds table with its one-minute fallback. It also holds
  `RoundToInterval`. Like Go's `Time.Truncate`, that function measures from
  the zero Time (January 1, year 1, UTC). It is proved equal to
  floor-rounding of Unix milliseconds. The bucket start is the greatest
  multiple of the duration not after the timestamp. Rounding is idempotent
  and monotone.
- **Transport codec** (`codec.dfy`, module `Codec`). `Json` is the tree that
  `encoding/json` decodes into `interface{}`. Go's library routines are the
  fields of a `JsonLib` value and stay uninterpreted: JSON text, `%v` float
  formatting, JSON parsing and `Sscanf("%f")`. `StructToMap` and
  `FromStreamMessage` are loops over the key set. Both are proved equal to
  the map comprehensions `Flatten` and `Reconstruct`. Keys are kept. Strings
  are stored verbatim, booleans as `true`/`false`, numbers as their `%v`
  text, and objects, arrays and `null` as JSON text. Reading back tries a
  JSON container first, then a number, then the raw string. Values that are
  not strings pass through unchanged.

What the codec lemmas establish about the round trip:

- A field comes back as itself when its text is unambiguous (`RoundTrip`,
  `EventRoundTrip`).
- A boolean never comes back as a boolean.
- A string that scans as a number comes back as a number.
- A string that looks like a JSON container comes back parsed.
- `null` comes back as the string `"null"`.

Go's `FromStreamMessage` reads `str[0]` of every string value, so an empty
string makes it index out of range. `FromStreamMessage` and `Reconstruct`
therefore require every string value to be non-empty.
`ValidEventWithoutOrderTypeBlocksDecode` shows that this is reachable from
validated data. `LiquidationEvent.Validate` accepts an event with an empty
order type, and encoding that event produces an empty string value.

Where the tests or the comments and the code disagree, the model follows the code:

- The code sets `SymbolETHUSDT` to `"ETHUSD"`. The stream-name test expects
  `market:okx:ETHUSDT` (`StreamNameExamples`).
- The comment on `RoundToInterval` (models/models.go:367) says it rounds to the nearest interval. `Time.Truncate` rounds down, and so does the model (`RoundToInterval`, `RoundIsEpochFloor`).
- One event test expects a `SELL` side with no value to pass validation. The
  code rejects it for the value, and then for the side (`SellSideRejected`).

## Model

| member | source | states |
|---|---|---|
| `Records.ValidationError.Message` | models/models.go:266-318 | the error texts of the source; a text starts with "invalid side: " exactly for the side error, and the rest of it is the rejected side |
| `Records.MessageInjective` | models/models.go:266-318 | two errors with the same text are the same error: each text identifies its check, and the side error its side |
| `Records.FirstViolation` | models/models.go:264-321 | fail-fast validation: None exactly when every rule holds, otherwise the error of a rule that fails with all earlier rules holding |
| `Records.FirstViolationAt` | models/models.go:264-321 | the reported error is the error of the first failing rule (the first failure is unique) |
| `Records.MarketSnapshot.Validate` | models/models.go:264-278 | accepts exactly when exchange and symbol are non-empty, timestamp > 0 and mark price > 0 |
| `Records.MarketSnapshotFailFast` | models/models.go:264-278 | the error returned is the first failing check in the order exchange, symbol, timestamp, mark price |
| `Records.LiquidationEvent.Validate` | models/models.go:281-304 | accepts exactly when exchange and symbol are non-empty, timestamp, price, quantity and value are > 0 and side is "long" or "short" |
| `Records.LiquidationEventFailFast` | models/models.go:281-304 | the error returned is the first failing check in the source's order, ending with the side check |
| `Records.PositionDistribution.Validate` | models/models.go:307-321 | accepts exactly when exchange and symbol are non-empty, timestamp > 0 and price level > 0 |
| `Records.PositionDistributionFailFast` | models/models.go:307-321 | the error returned is the first failing check in the order exchange, symbol, timestamp, price level |
| `Records.EventValidationCases` | models/models_test.go:14-103 | the sample event is accepted; missing exchange, missing symbol, zero timestamp, negative price and zero quantity are rejected with the matching error |
| `Records.SellSideRejected` | models/models.go:297-302 | an exchange-native "SELL" side is rejected, first for a zero value, then as "invalid side: SELL" |
| `StreamNames.GetStreamName` | models/models.go:236-238 | the key is the data kind, ':', the exchange, ':', the symbol, each part at its own position, and nothing else |
| `StreamNames.GetLiquidationStreamName` | models/models.go:241-243 | the key opens with "liquidations:" followed by exchange:symbol |
| `StreamNames.GetPositionStreamName` | models/models.go:245-247 | the key opens with "positions:" followed by exchange:symbol |
| `StreamNames.GetMarketStreamName` | models/models.go:249-251 | the key opens with "market:" followed by exchange:symbol |
| `StreamNames.GetOrderBookStreamName` | models/models.go:253-255 | the key opens with "orderbook:" followed by exchange:symbol |
| `StreamNames.GetHeatmapStreamName` | models/models.go:257-259 | the key is "heatmap:" followed by the symbol |
| `StreamNames.FieldsOfJoin` | models/models.go:237 | a separator-free text joined with ':' reads back as itself followed by the fields of the rest |
| `StreamNames.StreamNameFields` | models/models.go:236-238 | with a separator-free data kind, a stream name reads back as that kind followed by the fields of exchange:symbol |
| `StreamNames.StreamNameParts` | models/models.go:236-238 | with separator-free kind and exchange, the key reads back as kind, exchange, then the symbol's fields |
| `StreamNames.StreamNameInjective` | models/models.go:236-238 | with separator-free kind and exchange, equal stream names have equal kind, exchange and symbol (the symbol may contain ':') |
| `StreamNames.KindIsFirstField` | models/models.go:241-255 | the data kind fixed by a wrapper is the key's first field |
| `StreamNames.DistinctKindsNeverCollide` | models/models.go:241-255 | streams of two different separator-free kinds never share a key, whatever the exchanges and symbols |
| `StreamNames.HeatmapStreamFields` | models/models.go:257-259 | the heatmap key reads back as "heatmap" followed by the symbol's fields |
| `StreamNames.HeatmapNeverCollides` | models/models.go:257-259 | the heatmap key never equals a key of another separator-free data kind |
| `StreamNames.KindsNeverCollide` | models/models.go:241-259 | the liquidation, position, market, order-book and heatmap keys are pairwise distinct for all inputs |
| `StreamNames.StreamNameExamples` | models/models_test.go:409-426 | "liquidations:binance:BTCUSDT" and "heatmap:BTCUSDT"; the market key for SymbolETHUSDT is "market:okx:ETHUSD", not the expected "market:okx:ETHUSDT" |
| `Intervals.GetIntervalDuration` | models/models.go:348-365 | total; every duration is a positive whole number of minutes that divides a day; unknown intervals give one minute |
| `Intervals.DurationMatchesTable` | models/models.go:348-365 | 1m, 5m, 15m, 1h, 4h, 1d give 60 000, 300 000, 900 000, 3 600 000, 14 400 000, 86 400 000 ms; anything else 60 000 |
| `Intervals.RoundToInterval` | models/models.go:368-373 | the result r is a multiple of the duration d with r <= timestamp < r + d |
| `Intervals.EpochAligned` | models/models.go:370-371 | measuring from Go's zero Time leaves the same remainder as measuring from the Unix epoch |
| `Intervals.RoundIsEpochFloor` | models/models.go:368-373 | rounding equals timestamp - timestamp mod d on Unix milliseconds (UTC-aligned buckets) |
| `Intervals.RoundIsGreatestMultiple` | models/models.go:368-373 | every multiple of d not after the timestamp is at most the result |
| `Intervals.RoundIdempotent` | models/models.go:368-373 | rounding a bucket start gives the same bucket start |
| `Intervals.RoundMonotone` | models/models.go:368-373 | later timestamps never round to earlier buckets |
| `Intervals.UnknownIntervalIsMinute` | models/models.go:362-363 | an interval outside the table rounds exactly as "1m" |
| `Intervals.RoundExamples` | models/models_test.go:498-529 | 2024-01-01T12:34:56.789Z rounds to 12:34:00, 12:30:00, 12:00:00 and 00:00:00 at 1m, 5m, 1h and 1d; "1s" behaves as 1m |
| `Codec.FlatText` | models/models.go:184-191 | the type switch: a string is kept, a number becomes its `%v` text, a boolean "true" or "false", and any other value its JSON text |
| `Codec.Flatten` | models/models.go:182-192 | same key set; every value a string; strings stored verbatim; numbers as their `%v` text; booleans as "true"/"false"; objects, arrays and null as their JSON text |
| `Codec.StructToMap` | models/models.go:170-195 | succeeds exactly for an object or null; the result is the flattened map (empty for null); otherwise the unmarshal type error |
| `Codec.ToStreamMessage` | models/models.go:156-167 | the message has an empty id, the given stream name, the given time and the flattened data; fails exactly when the record is not an object or null |
| `Codec.ReadText` | models/models.go:208-223 | a stored text reads back as itself, as a number, or (opening with '{' or '[') as its parsed JSON |
| `Codec.Reconstruct` | models/models.go:200-224 | same key set; non-string values unchanged; every string value read back by the container, number, string rule |
| `Codec.FromStreamMessage` | models/models.go:198-224 | the rebuilt map equals Reconstruct of the message data |
| `Codec.ValueRoundTrip` | models/models.go:184-191 | an unambiguous value is stored as non-empty text that reads back as the value |
| `Codec.RoundTrip` | models/models.go:198-224 | reading back a flattened map restores it when every field reads back, and the flattened map is decodable |
| `Codec.BoolNeverReadsBack` | models/models.go:185-186 | a boolean field never comes back as a boolean |
| `Codec.NumericStringMisread` | models/models.go:217-220 | a string that scans as a number comes back as that number, not as the string |
| `Codec.JsonLikeStringMisread` | models/models.go:209-213 | a string that opens with '{' or '[' and parses comes back as the parsed tree |
| `Codec.NullComesBackAsText` | models/models.go:187-190 | a null field is stored as "null" and comes back as that string |
| `Codec.EventFields` | models/models.go:75-85 | an event marshals to an object with exactly its eight JSON-tag keys: exchange, symbol, side and order_type are strings; timestamp, price, quantity and value are numbers |
| `Codec.SummaryJson` | models/models.go:98-102 | a position summary marshals to an object with the keys count, volume and avg_leverage, all numbers |
| `Codec.DistributionFields` | models/models.go:88-95 | a distribution marshals to an object with its six JSON-tag keys; long_positions and short_positions are the nested summary objects |
| `Codec.EventMessageShape` | models/models.go:76-85 | an event's message has exactly the eight JSON-tag keys; exchange, symbol, side and order_type are stored verbatim and timestamp, price, quantity and value as their `%v` text |
| `Codec.DistributionMessageShape` | models/models.go:88-102 | the nested long and short position summaries travel as their JSON text |
| `Codec.EventRoundTrip` | models/models.go:198-224 | a valid event comes back field for field when its order type is set, its exchange, symbol and order type neither scan as numbers nor open a container that parses as JSON, its side does not scan as a number, and its numbers' texts scan back |
| `Codec.ValidEventWithoutOrderTypeBlocksDecode` | models/models.go:209 | validation accepts an event with no order type, yet its message holds an empty string, which reading back cannot accept |

## Left out

- `CalculateLiquidationPrice` and `EstimatePriceImpact` (models/models.go:326-345) are float64 arithmetic. Leverage 0 is not guarded in the first. Neither is modelled.
- JSON text, `%v` float formatting, JSON parsing and `Sscanf("%f")` belong to Go's libraries. They are the uninterpreted fields of `JsonLib`. No round trip is claimed without stated conditions on them.
- Marshalling the record itself (models/models.go:171-174) is not modelled. `StructToMap` and `ToStreamMessage` take the JSON tree the record marshals to, so the marshal error is not modelled. That error occurs for values JSON cannot hold, such as NaN.
- The last step of `FromStreamMessage` (models/models.go:226-232) is not modelled. It marshals the rebuilt map and unmarshals it into the caller's struct by reflection. Its errors are not modelled either: a field of the wrong type, and the NaN a string "NaN" scans to.
- FromStreamMessage: requires every string value to be non-empty. The source indexes `str[0]` and panics on an empty string.
- `time.Now()` in `ToStreamMessage` is the parameter `now`.
- JSON numbers are exact `real`s. Go decodes every JSON number into a float64 (models/models.go:177), which rounds an int64 timestamp or an int count beyond 2^53. The model keeps them exact (`EventFields`, `SummaryJson`, `DistributionFields`).
- GetIntervalDuration: returns milliseconds, while Go returns a `time.Duration` in nanoseconds (`time.Minute` is 60 000 000 000). The model works in the milliseconds that `RoundToInterval` takes and returns.
- Prices are `real`, so NaN is not representable. In Go, NaN passes every `<= 0` check.
- Timestamps are unbounded integers. The int64 width is not modelled, nor is `UnixMilli` overflow for timestamps within a day of the int64 minimum.
- Go map iteration order is an arbitrary choice of the next key (`:|`). The results do not depend on it.
- Only the wire maps of `LiquidationEvent` and `PositionDistribution` are written out (`EventFields`, `DistributionFields`). Those of `MarketSnapshot`, `OrderBookSnapshot` and `HeatmapData` are not.
- The Redis transport is not modelled, nor are the declarations of records that nothing above checks.
- EventFields: the model's strings are Unicode text, while Go's strings are bytes. `json.Marshal` replaces invalid UTF-8 with U+FFFD, so such an exchange, symbol, side or order type does not travel verbatim, and the model cannot hold it. `EventMessageShape` and `EventRoundTrip` state only the Unicode case.
- Names that only the test file uses are not modelled, because `models/models.go` does not define them. These are `GetLiquidationType`, `GetEstimatedLeverage`, `CalculateIntensity`, `IsSignificant`, `GetHeatmapCacheKey`, `HeatmapData.Validate`, `SideBuy`/`SideSell`, `Interval1s` and `SymbolBNBUSDT`.
