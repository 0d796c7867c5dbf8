# Hyperliquid client core, modelled in Dafny

This project models the core of a Rust client for the Hyperliquid exchange:

- **The streaming client** (`src/websocket/client.rs`). A `WebSocketConnection` keeps four in-memory stores and updates them in place as frames arrive on the socket:
  - the mid price of every coin (`allMids`);
  - a capped trade history per coin (`trades`);
  - the latest order-book snapshot per coin (`l2Book`);
  - a capped candle series per coin (`candle`).

  It also covers the retrying connect, the `subscribe` message and the ping heartbeat.
- **The two-namespace token manager** (`src/models/market.rs`). It holds separate spot and perpetual tables from symbol to internal code, internal code to symbol, and symbol to index. Spot indices are offset by 10 000.
- **The HTTP models** (`src/models/http.rs`):
  - the single-namespace token manager, where a spot market named `@n` is reached through its pair name "BASE/QUOTE";
  - trade-side codes;
  - the request constructors;
  - the candle record and its serde decoding, which goes through `parse_str_to_f64` (`src/utils/data_conversion.rs`).

The files:

| file | modules | contents |
|---|---|---|
| `wrappers.dfy`, `ints.dfy` | `Wrappers`, `Ints`, `Digits` | Option/Result, the u8/u32/u64 ranges, decimal digit strings |
| `json.dfy` | `Json`, `F64` | serde_json values and their `get`/`as_str`/`as_u64`/`as_array`/`as_object` accessors; which strings `str::parse::<f64>` accepts |
| `tables.dfy` | `Tables` | `HashMap::insert` sequences (last write wins) and `keys().collect()` |
| `http_models.dfy` | `HttpModels` | trade sides, request constructors, candles, spot metadata, the HTTP token manager |
| `market.dfy` | `Market` | the market-typed token manager |
| `client_decode.dfy` | `WsModels`, `ClientDecode` | how the streaming client reads trades, levels and book snapshots out of a frame |
| `client_store.dfy` | `ClientStore` | each store update as a function on values, and the properties of each |
| `client.dfy` | `Client` | the connection class, the retrying connect and the outbound messages |

## Modelling choices

**Value-only code and in-place updates.**
- Code that only computes a value is modelled as functions.
- Objects whose fields the source updates in place are modelled as classes: both token managers and the connection. Their methods carry `modifies` clauses and are proved against the pure functions of `ClientStore`, `Tables` and `Market`.
- The loops of the source become `while`/`for` loops with invariants:
  - `from_api`;
  - copying the mids;
  - the trade loop;
  - the candle search;
  - the subscribe parameter loop;
  - the retry loop.

**JSON values.** A parsed JSON value is a `Json` datatype.
- An object is a map, because serde_json keeps unique keys.
- A number keeps the literal written on the wire.
- `as_u64` succeeds on a non-empty run of decimal digits below 2^64.

**Floating point.** f64 arithmetic is not modelled. An f64 is kept as the text it was read from. `ParseF64` models which strings `str::parse::<f64>` accepts:
- an optional sign;
- then `inf`, `infinity` or `nan` in any case, or a decimal mantissa with an optional `e`/`E` exponent.

**Panics.** A panic is modelled as `None`. This covers:
- index out of range;
- u64 underflow and u32 overflow, which panic in a build with overflow checks;
- `connect_with_retries` giving up.

**Clock and handshakes.** The clock reading used by `CandleSnapshotRequest::new` is a parameter (`now`). So is the outcome of each WebSocket handshake (`handshake(k)` for the attempt after k failures).

**Frames.** The text of a frame is taken as already parsed: `ProcessMessage` receives `None` for text that is not JSON.

**Where the code and its documentation differ, the model follows the code.**
- **Trade and book prices.** The trade and book decoders read `px` and `sz` only from JSON strings. A numeric `px` drops the trade or level. Only candles, through `parse_str_to_f64`, accept both strings and numbers.
- **Candle arrays.** serde's derived visitor also reads a candle from an array of exactly ten elements, so `DecodeCandle` accepts that form.
- **Default start time.** `CandleSnapshotRequest::new` computes the default start `now - 86 400 000` even when a start is given. A clock reading below one day therefore panics.
- **Spot token indices.** `market.rs` maps the token indices of every spot market, not only `@` markets. A market with fewer than two tokens, or a token index out of range, panics.

## Model

| member | source | states |
|---|---|---|
| `HttpModels.FromCode` | src/models/http.rs:372-378 | "B" is a buy and "A" a sell, each iff the code is that letter; every other code is unknown |
| `HttpModels.FromCodeInverse` | src/models/http.rs:371-386 | `from_code` is the inverse of the side's wire code: it returns a side exactly for that side's code |
| `HttpModels.SideName` | src/models/http.rs:380-385 | `as_str` names a side "buy" or "sell", "buy" exactly for a buy |
| `HttpModels.ParseTradeSide` | src/models/http.rs:389-396 | succeeds iff the value is a string with a known code, giving `from_code`'s side; an unknown code fails with "Invalid trade side code: " and the code |
| `HttpModels.NewOrderStatusRequest` | src/models/http.rs:200-210 | fails with "Either oid or cloid must be provided" iff both are absent; otherwise an "orderStatus" request carrying the arguments |
| `HttpModels.NewL2BookRequest` | src/models/http.rs:288-296 | an "l2Book" request carrying coin, significant figures and mantissa unchanged |
| `HttpModels.NewCandleSnapshotRequest` | src/models/http.rs:306-318 | panics iff the clock reads below one day (the eager u64 subtraction); otherwise a "candleSnapshot" request whose start defaults to one day before now and whose end defaults to now |
| `HttpModels.F64Field` | src/utils/data_conversion.rs:5-27 | a JSON number is accepted as is, a JSON string iff it parses as f64, and anything else fails |
| `HttpModels.CandleRoundTrip` | src/models/http.rs:339-361 | a candle sent with prices as f64 strings decodes to the same candle |
| `HttpModels.DecodeCandle` | src/models/http.rs:339-361 | only an object or an array of exactly ten elements decodes; an object decodes iff all ten named fields have the right types, and the candle then carries those values |
| `F64.ParseF64` | src/websocket/client.rs:202-209 | `parse::<f64>().ok()` succeeds exactly on the f64 grammar and keeps the text |
| `F64.ParseF64Accepts` | src/websocket/client.rs:202-209 | "1.5" and "-2E7" parse as f64 |
| `F64.ParseF64Rejects` | src/websocket/client.rs:202-209 | "", ".", "1e" and "x1" do not parse as f64 |
| `F64.DigitsParseAsF64` | src/websocket/client.rs:202-209 | every non-empty digit string, with or without a minus sign, parses as f64 |
| `F64.DecimalTextParsesAsF64` | src/websocket/client.rs:202-209 | the decimal text of every natural number parses as f64 |
| `HttpModels.PairMappingsAt` | src/models/http.rs:22-33 | the construction panics iff one market's pair name does; otherwise it gives one (symbol, code) pair per market, in order |
| `HttpModels.PairName` | src/models/http.rs:24-29 | the pair name exists iff the market has at least two tokens and every token position is in range; it is the first token's name, '/', then the second's |
| `HttpModels.PairMapping` | src/models/http.rs:23-33 | an "@" market maps its pair name to its wire name, and panics iff its pair name does; any other market maps its name to itself |
| `HttpModels.PairMappingsPanics` | src/models/http.rs:24-30 | a market whose pair name panics makes the whole construction panic |
| `HttpModels.PairMappingsStep` | src/models/http.rs:22-33 | each further market extends the pairs and both tables by its own mapping |
| `HttpModels.TokenManager.constructor` | src/models/http.rs:14-16 | both tables start empty |
| `HttpModels.TokenManager.AddMapping` | src/models/http.rs:39-44 | both directions are inserted, overwriting earlier entries, and both lookups then find them |
| `HttpModels.TokenManager.GetInternalCode` | src/models/http.rs:46-48 | finds a code iff the symbol has an entry in the forward table, and it is that entry |
| `HttpModels.TokenManager.GetSymbol` | src/models/http.rs:50-52 | finds a symbol iff the code has an entry in the reverse table, and it is that entry |
| `HttpModels.TokenManager.ListAvailablePairs` | src/models/http.rs:54-56 | lists exactly the symbols of the forward table, each once |
| `HttpModels.FromApi` | src/models/http.rs:18-37 | succeeds iff no pair name panics; the tables are the forward and reverse insertions of every market's mapping, in order |
| `HttpModels.FromApiLookup` | src/models/http.rs:22-33 | after construction, an "@" market is found from its "BASE/QUOTE" pair name and any other market from its own name, unless a later market reuses the symbol |
| `Tables.InsertAllLastWins` | src/models/market.rs:71-82 | after a series of inserts, a key holds the value of its last insert |
| `Tables.InsertAllKeys` | src/models/market.rs:71-82 | the keys after a series of inserts are the old keys plus the inserted ones |
| `Tables.InsertAllUntouched` | src/models/market.rs:71-82 | a key that no insert names keeps its entry, or its absence |
| `Tables.CollectKeys` | src/models/market.rs:108-113 | `keys().cloned().collect()` lists every key once |
| `Market.TokenManager.constructor` | src/models/market.rs:22-24 | all six tables start empty |
| `Market.TokenManager.AddMapping` | src/models/market.rs:62-85 | the market type's three tables get the new entries (last write wins), the other market type's tables are unchanged, and the three lookups find the new entries |
| `Market.TokenManager.GetInternalCode` | src/models/market.rs:87-92 | finds a code iff the symbol has an entry in that market type's forward table, and it is that entry |
| `Market.TokenManager.GetSymbol` | src/models/market.rs:94-99 | finds a symbol iff the code has an entry in that market type's reverse table, and it is that entry |
| `Market.TokenManager.GetTokenIndex` | src/models/market.rs:101-106 | finds an index iff the symbol has an entry in that market type's index table, and it is that entry |
| `Market.TokenManager.GetAvailableSymbols` | src/models/market.rs:108-113 | lists exactly the symbols of the market type's forward table, each once |
| `Market.PerpMappings` | src/models/market.rs:50-57 | each perp market maps its name to itself, with its position (`as u32`) as index |
| `Market.SpotMapping` | src/models/market.rs:35-46 | a spot market maps its pair name to its wire name with index plus 10 000, and panics iff the pair name does or the u32 addition overflows |
| `Market.SpotMappingsAt` | src/models/market.rs:34-46 | spot construction panics iff one market's pair name or index addition does; otherwise one mapping per market, in order |
| `Market.ProjectionsSnoc` | src/models/market.rs:41-46 | one more `add_mapping` call extends each of the three tables by that mapping's entry |
| `Market.FromApi` | src/models/market.rs:27-60 | succeeds iff no spot market panics; the six tables are the insertions of the spot mappings and then the perp mappings |
| `Market.AddSpotMarkets` | src/models/market.rs:33-47 | the spot loop fills the spot tables with every spot mapping, or reports the panic |
| `Market.AddPerpMarkets` | src/models/market.rs:49-57 | the perp loop fills the perp tables and leaves the spot tables unchanged |
| `Market.SpotConstruction` | src/models/market.rs:34-47 | a spot market is found from its pair name, with its wire name and its index plus 10 000; its wire name maps back to the pair name unless a later market reuses it |
| `Market.PerpConstruction` | src/models/market.rs:50-57 | a perp name maps to itself in both directions, with its position as index, unless a later market reuses it |
| `Market.AvailableSymbolsAfterConstruction` | src/models/market.rs:108-113 | the available symbols are exactly the symbols of the mappings added |
| `ClientDecode.StringEntries` | src/websocket/client.rs:169-173 | keeps exactly the string-valued members of the mids object, with their strings |
| `ClientDecode.StrF64` | src/websocket/client.rs:202-209 | px and sz are read exactly when the member is a JSON string that parses as f64, and then keep that text |
| `ClientDecode.MidsObject` | src/websocket/client.rs:165-166 | the mids are found iff `data` is an object whose `mids` member is an object, and are that object |
| `ClientDecode.StringsOf` | src/websocket/client.rs:216-223 | the `users` filter keeps exactly the string elements, never more elements than it was given |
| `ClientDecode.StringsOfStrings` | src/websocket/client.rs:216-223 | the string filter over `users` reads back an array of strings unchanged |
| `ClientDecode.DecodeTrade` | src/websocket/client.rs:186-235 | an element is kept iff all eight members are present with the right types, px and sz parse as f64 and the side code is known; the trade then carries exactly those member values |
| `ClientDecode.DecodeTradeOf` | src/websocket/client.rs:187-235 | an element whose eight members decode to a trade's fields yields that trade |
| `ClientDecode.TradeRoundTrip` | src/websocket/client.rs:186-235 | a trade sent with f64-string prices and a known side decodes to the same trade |
| `ClientDecode.DecodedTradesAppend` | src/websocket/client.rs:185-250 | trade elements decode independently, so decoding a concatenation concatenates the results |
| `ClientDecode.MalformedTradeDropped` | src/websocket/client.rs:185-250 | an element that does not decode is dropped alone; the elements around it are kept |
| `ClientDecode.LevelRoundTrip` | src/websocket/client.rs:298-314 | a level sent with f64-string px and sz and a u64 count decodes to the same level |
| `ClientDecode.DecodeLevel` | src/websocket/client.rs:298-319 | a level is kept iff px and sz are f64 strings and n is a u64; the level then carries exactly those values |
| `ClientDecode.FilterLevelsAppend` | src/websocket/client.rs:293-322 | levels decode independently: a bad level drops only itself |
| `ClientDecode.DecodeBook` | src/websocket/client.rs:264-335 | a book frame is rejected iff `data`, a string `coin`, or a `levels` array of at least two entries is missing; otherwise bids come from `levels[0]`, asks from `levels[1]`, and a missing `time` reads as 0 |
| `ClientStore.PushBounded` | src/websocket/client.rs:240-244 | the vector grows by one until it reaches the cap and then keeps its length; the pushed item is last; on a vector within the cap, the result is the newest cap entries |
| `ClientStore.LastSnoc` | src/websocket/client.rs:240-244 | trimming before a push does not change the newest cap entries after it |
| `ClientStore.InsertTrade` | src/websocket/client.rs:237-244 | one trade creates its coin's entry when absent, becomes the newest entry of that coin (cap above zero), and leaves every other coin unchanged |
| `ClientStore.InsertTrades` | src/websocket/client.rs:185-250 | after a batch, the coins with a history are the old ones plus every coin a trade names |
| `ClientStore.OfCoinNonEmpty` | src/websocket/client.rs:237-240 | a coin has trades in a batch exactly when some trade of the batch names it |
| `ClientStore.ApplyTrades` | src/websocket/client.rs:179-253 | a frame without an array `data` changes nothing; otherwise the coins with a history are the old ones plus every coin of a decoded trade |
| `ClientStore.InsertTradesAt` | src/websocket/client.rs:237-244 | each coin's history becomes the newest 1000 of its old history followed by that coin's new trades, in order |
| `ClientStore.InsertTradesBounded` | src/websocket/client.rs:242-244 | no trade history exceeds the cap |
| `ClientStore.ApplyTradesAt` | src/websocket/client.rs:179-253 | a `trades` frame without an array `data` changes nothing; otherwise each coin gets its own decoded trades appended, capped, and other coins are untouched |
| `ClientStore.TradeFrameReplayed` | src/websocket/client.rs:237-240 | trades are appended, never merged: the same trade frame received twice is recorded twice |
| `ClientStore.ApplyMids` | src/websocket/client.rs:162-177 | a `data.mids` object replaces the whole table by its string-valued members; any other frame changes nothing |
| `ClientStore.ApplyBook` | src/websocket/client.rs:327-338 | an accepted snapshot replaces its coin's book whatever was stored, and no other coin's book; a rejected frame changes nothing |
| `ClientStore.FindOpenTime` | src/websocket/client.rs:355-358 | finds the first candle with the given open time, or reports that none has it |
| `ClientStore.Upsert` | src/websocket/client.rs:355-374 | merging into a series within the cap keeps it within the cap, and (cap above zero) the new candle is in it |
| `ClientStore.ApplyCandle` | src/websocket/client.rs:343-381 | a frame without `data`, or whose `data` does not decode as a candle, changes nothing; otherwise only the candle's coin entry changes (created when absent) and stays within the cap |
| `ClientStore.UpsertReplaces` | src/websocket/client.rs:355-364 | a candle for an open time already present overwrites the first such candle in place |
| `ClientStore.UpsertAppends` | src/websocket/client.rs:365-374 | a candle for a new open time is appended, and the oldest is evicted once past the cap |
| `ClientStore.UpsertContents` | src/websocket/client.rs:350-374 | a series stays within the cap, holds the new candle, and gains nothing else |
| `ClientStore.UpsertDistinct` | src/websocket/client.rs:355-374 | a series never holds two candles with the same open time |
| `ClientStore.UpsertIdempotent` | src/websocket/client.rs:355-374 | receiving the same candle twice stores what receiving it once does |
| `ClientStore.ApplyCandleKeeps` | src/websocket/client.rs:343-381 | a candle frame keeps every series bounded, distinct in open time, and stored under its own coin |
| `ClientStore.ApplyCandleIdempotent` | src/websocket/client.rs:343-381 | a candle frame replayed has no further effect |
| `ClientStore.RouteOf` | src/websocket/client.rs:147-157 | a frame goes to the mids, trades, book, candle or pong handler iff its string channel is "allMids", "trades", "l2Book", "candle" or "pong"; without a string channel it goes nowhere |
| `ClientStore.Dispatch` | src/websocket/client.rs:144-160 | each data channel changes only its own store; pong, unknown channels and frames without a channel change nothing |
| `ClientStore.DispatchKeepsValid` | src/websocket/client.rs:144-160 | every frame keeps the trade and candle caps and the candle-series invariant |
| `ClientStore.DispatchSnapshotIdempotent` | src/websocket/client.rs:144-160 | a mids, book or candle frame received twice has the effect of receiving it once |
| `Client.WebSocketConnection.Connect` | src/websocket/client.rs:27-41 | a new connection has empty stores and caps of 1000 |
| `Client.WebSocketConnection.UpdateAllMids` | src/websocket/client.rs:162-177 | clears and refills the mids table as `ApplyMids` states, and changes no other store |
| `Client.WebSocketConnection.UpdateTrades` | src/websocket/client.rs:179-253 | pushes each decodable element onto its coin's history, removing the front past the cap, as `ApplyTrades` states, and changes no other store |
| `Client.WebSocketConnection.PushTrade` | src/websocket/client.rs:237-244 | adds one trade to its coin's history, creating it when absent, exactly as `InsertTrade` states |
| `Client.WebSocketConnection.UpdateL2Book` | src/websocket/client.rs:255-341 | stores an accepted snapshot as `ApplyBook` states, and changes no other store |
| `Client.WebSocketConnection.UpdateCandles` | src/websocket/client.rs:343-381 | finds, replaces or appends, then evicts as `ApplyCandle` states, and changes no other store |
| `Client.MergeCandle` | src/websocket/client.rs:350-374 | the search, overwrite-or-push and front removal on one coin's vector give exactly `Upsert`'s series |
| `Client.WebSocketConnection.ProcessMessage` | src/websocket/client.rs:144-160 | text that is not JSON is an error and changes nothing; a parsed frame updates the stores as `Dispatch` states, and the store invariant is kept |
| `Client.FirstSuccess` | src/websocket/client.rs:50-69 | the number of failures before the first successful handshake, if one comes within five attempts |
| `Client.EndpointUrl` | src/websocket/client.rs:44-48 | the testnet URL is dialled exactly when `is_test` is set, the mainnet URL otherwise |
| `Client.ConnectWithRetries` | src/websocket/client.rs:43-70 | connects iff one of the first five handshakes succeeds, after exactly the failures before it, to the testnet or mainnet URL; otherwise gives up after five failures |
| `Client.SubscriptionJson` | src/websocket/client.rs:114-131 | a "subscribe" request whose subscription holds `type` and every parameter as a string; a parameter named "type" overrides the subscription type |
| `Client.SubscriptionMessage` | src/websocket/client.rs:109-131 | inserting the parameters one by one builds exactly that message |
| `Client.PingMessage` | src/websocket/client.rs:388 | the heartbeat is an object whose only member is `method` = "ping" |

## Left out

- **Socket I/O, TLS and the `receive_messages` read loop.** Frames are given to `ProcessMessage` already parsed. Reconnecting after a close or a read error is not modelled.
- **JSON text parsing.** The model starts from a parsed `Json` value. A text that does not parse is `None`.
- **The 5-second back-off and 30-second ping timers.** They are not modelled, and neither is the ping task's loop. Only the ping message is.
- **Concurrency.** The `Arc<Mutex<…>>` sharing between the receive loop, the ping task and readers is not modelled. Each method runs alone on the connection.
- **Logging.** The `info!`, `debug!` and `error!` calls have no effect on state and are left out.
- **Network fetches in `from_api`.** The spot and perp metadata are parameters. The perp metadata record is not part of this model beyond each market's `name`.
- **Serialisation of requests.** The request constructors are modelled, but not their JSON serialisation (`skip_serializing_if`, renames).
- **`ParseF64`** keeps the text of an f64, not its value. Rounding, and the equality of different texts for the same number, are not modelled.
- **`F64Field`** accepts every JSON number. This relies on serde_json's default number representation, in which `as_f64` never fails.
- **`AsU64`** reads a number literal as u64 only when it is written as plain digits below 2^64. Any other literal, including a signed zero, gives `None`.
- **Release-build wrap-around.** The model follows a build with overflow checks: `10_000 + index` and `now - 86_400_000` panic rather than wrap. `index as u32` on a perp position is truncated explicitly.
- **`UpdateL2Book`** keeps `order_count` as a u64. This assumes a 64-bit `usize`.
- **`ConnectWithRetries`** models only the count of attempts and the URL. The error values and the `Arc` are left out, and giving up returns `None` where the source panics.
