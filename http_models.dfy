/**
 * The request/response models of the HTTP API (src/models/http.rs): trade
 * side codes, the request constructors, the candle record with its serde
 * decoding, the spot metadata records, and the single-namespace token
 * manager that maps human-readable pair names to the wire coin codes.
 */
module HttpModels {
  import opened Wrappers
  import opened Ints
  import opened Json
  import opened F64
  import opened Tables

  // ---------------------------------------------------------------------
  // Trade side

  datatype TradeSide = Buy | Sell

  /** `TradeSide::from_code`: "B" is a buy, "A" a sell, anything else is unknown. */
  function FromCode(value: string): (r: Option<TradeSide>)
    ensures r == Some(Buy) <==> value == "B"
    ensures r == Some(Sell) <==> value == "A"
    ensures r == None <==> value != "B" && value != "A"
  {
    match value
    case "B" => Some(Buy)
    case "A" => Some(Sell)
    case _ => None
  }

  /** The code the feed uses for a side: the inverse of FromCode. */
  function Code(side: TradeSide): string
  {
    match side
    case Buy => "B"
    case Sell => "A"
  }

  /** FromCode and Code are inverse: each side has exactly one code. */
  lemma FromCodeInverse(value: string, side: TradeSide)
    ensures FromCode(value) == Some(side) <==> value == Code(side)
  {
  }

  /** `TradeSide::as_str`: the lower-case name of the side. */
  function SideName(side: TradeSide): (r: string)
    ensures r == "buy" || r == "sell"
    ensures (r == "buy") == side.Buy?
  {
    match side
    case Buy => "buy"
    case Sell => "sell"
  }

  /**
   * `parse_trade_side`: deserialise a JSON string and map it through
   * `from_code`; a value that is not a string fails in the string
   * deserialiser, an unknown code fails with "Invalid trade side code".
   */
  function ParseTradeSide(v: Json): (r: Result<TradeSide, string>)
    ensures r.Ok? <==> v.JStr? && FromCode(v.str).Some?
    ensures r.Ok? ==> Some(r.value) == FromCode(v.str)
    ensures v.JStr? && FromCode(v.str).None? ==> r == Err("Invalid trade side code: " + v.str)
  {
    if !v.JStr? then Err("invalid type: expected a string")
    else match FromCode(v.str)
      case Some(side) => Ok(side)
      case None => Err("Invalid trade side code: " + v.str)
  }

  // ---------------------------------------------------------------------
  // Request constructors

  /** An Ethereum address (`H160`): 20 bytes. */
  type H160 = b: seq<bv8> | |b| == 20 witness seq(20, _ => 0 as bv8)

  datatype OrderStatusRequest = OrderStatusRequest(
    requestType: string,
    user: H160,
    oid: Option<U64>,
    cloid: Option<string>)

  /** `OrderStatusRequest::new`: an order is named by its oid, its cloid, or both. */
  function NewOrderStatusRequest(user: H160, oid: Option<U64>, cloid: Option<string>)
    : (r: Result<OrderStatusRequest, string>)
    ensures r.Err? <==> oid.None? && cloid.None?
    ensures r.Err? ==> r.error == "Either oid or cloid must be provided"
    ensures r.Ok? ==> r.value == OrderStatusRequest("orderStatus", user, oid, cloid)
  {
    if oid.None? && cloid.None? then Err("Either oid or cloid must be provided")
    else Ok(OrderStatusRequest("orderStatus", user, oid, cloid))
  }

  datatype L2BookRequest = L2BookRequest(
    requestType: string,
    coin: string,
    nSigFigs: Option<U8>,
    mantissa: Option<U8>)

  /** `L2BookRequest::new`: an "l2Book" request carrying its arguments unchanged. */
  function NewL2BookRequest(coin: string, nSigFigs: Option<U8>, mantissa: Option<U8>)
    : (r: L2BookRequest)
    ensures r.requestType == "l2Book"
    ensures r.coin == coin && r.nSigFigs == nSigFigs && r.mantissa == mantissa
  {
    L2BookRequest("l2Book", coin, nSigFigs, mantissa)
  }

  /** One day in milliseconds. */
  const DayMillis: int := 24 * 60 * 60 * 1000

  datatype CandleRequestDetails = CandleRequestDetails(
    coin: string,
    interval: string,
    startTime: U64,
    endTime: U64)

  datatype CandleSnapshotRequest = CandleSnapshotRequest(
    requestType: string,
    req: CandleRequestDetails)

  /**
   * `CandleSnapshotRequest::new`, with the clock reading `now` (epoch
   * milliseconds) passed in. A missing start defaults to one day before
   * `now`, a missing end to `now`. The default start `now - DayMillis` is
   * computed in u64 even when a start is given, so a clock reading below
   * one day underflows; None stands for that panic.
   */
  function NewCandleSnapshotRequest(
    coin: string, interval: string, startTime: Option<U64>, endTime: Option<U64>, now: U64)
    : (r: Option<CandleSnapshotRequest>)
    ensures r.None? <==> now < DayMillis
    ensures r.Some? ==> r.value.requestType == "candleSnapshot"
    ensures r.Some? ==> r.value.req.coin == coin && r.value.req.interval == interval
    ensures r.Some? ==> r.value.req.startTime == (if startTime.Some? then startTime.value else now - DayMillis)
    ensures r.Some? ==> r.value.req.endTime == (if endTime.Some? then endTime.value else now)
  {
    if now < DayMillis then None
    else
      var defaultStart := now - DayMillis;
      Some(CandleSnapshotRequest(
        "candleSnapshot",
        CandleRequestDetails(
          coin,
          interval,
          if startTime.Some? then startTime.value else defaultStart,
          if endTime.Some? then endTime.value else now)))
  }

  // ---------------------------------------------------------------------
  // Candles

  /** A candle (OHLCV bar); on the wire its fields are t, T, s, i, o, h, l, c, v, n. */
  datatype Candle = Candle(
    openTime: U64,
    closeTime: U64,
    coin: string,
    interval: string,
    open: F64,
    high: F64,
    low: F64,
    close: F64,
    volume: F64,
    numberOfTrades: U64)

  /**
   * `parse_str_to_f64`: a JSON string that parses as an f64, or any JSON
   * number; anything else fails.
   */
  function F64Field(v: Option<Json>): (r: Option<F64>)
    ensures v.Some? && v.value.JNum? ==> r == Some(F64(v.value.literal))
    ensures v.Some? && v.value.JStr? ==> r == ParseF64(v.value.str)
    ensures v.None? || !(v.value.JNum? || v.value.JStr?) ==> r.None?
  {
    if v.Some? && v.value.JStr? then ParseF64(v.value.str)
    else if v.Some? && v.value.JNum? then Some(F64(v.value.literal))
    else None
  }

  /** The candle whose ten fields decode from the given values, in declaration order. */
  function CandleFrom(t: Option<Json>, tc: Option<Json>, s: Option<Json>, i: Option<Json>,
                      o: Option<Json>, h: Option<Json>, l: Option<Json>, c: Option<Json>,
                      v: Option<Json>, n: Option<Json>): Option<Candle>
  {
    if AsU64(t).Some? && AsU64(tc).Some? && AsStr(s).Some? && AsStr(i).Some?
       && F64Field(o).Some? && F64Field(h).Some? && F64Field(l).Some? && F64Field(c).Some?
       && F64Field(v).Some? && AsU64(n).Some?
    then Some(Candle(AsU64(t).value, AsU64(tc).value, AsStr(s).value, AsStr(i).value,
                     F64Field(o).value, F64Field(h).value, F64Field(l).value,
                     F64Field(c).value, F64Field(v).value, AsU64(n).value))
    else None
  }

  /**
   * `serde_json::from_value::<Candle>`: from an object holding the ten
   * fields (other members are ignored), or, as serde's derived visitor also
   * allows, from an array of exactly ten elements in declaration order.
   */
  function DecodeCandle(data: Json): (r: Option<Candle>)
    ensures r.Some? ==> data.JObj? || (data.JArr? && |data.elems| == 10)
    ensures data.JObj? ==>
      (r.Some? <==>
        && AsU64(Get(data, "t")).Some? && AsU64(Get(data, "T")).Some?
        && AsStr(Get(data, "s")).Some? && AsStr(Get(data, "i")).Some?
        && F64Field(Get(data, "o")).Some? && F64Field(Get(data, "h")).Some?
        && F64Field(Get(data, "l")).Some? && F64Field(Get(data, "c")).Some?
        && F64Field(Get(data, "v")).Some? && AsU64(Get(data, "n")).Some?)
    ensures r.Some? && data.JObj? ==>
      && Some(r.value.openTime) == AsU64(Get(data, "t"))
      && Some(r.value.closeTime) == AsU64(Get(data, "T"))
      && Some(r.value.coin) == AsStr(Get(data, "s"))
      && Some(r.value.interval) == AsStr(Get(data, "i"))
      && Some(r.value.open) == F64Field(Get(data, "o"))
      && Some(r.value.high) == F64Field(Get(data, "h"))
      && Some(r.value.low) == F64Field(Get(data, "l"))
      && Some(r.value.close) == F64Field(Get(data, "c"))
      && Some(r.value.volume) == F64Field(Get(data, "v"))
      && Some(r.value.numberOfTrades) == AsU64(Get(data, "n"))
    ensures r.Some? && data.JArr? ==>
      && Some(r.value.openTime) == AsU64(Some(data.elems[0]))
      && Some(r.value.coin) == AsStr(Some(data.elems[2]))
      && Some(r.value.numberOfTrades) == AsU64(Some(data.elems[9]))
  {
    match data
    case JObj(_) =>
      CandleFrom(Get(data, "t"), Get(data, "T"), Get(data, "s"), Get(data, "i"), Get(data, "o"),
                 Get(data, "h"), Get(data, "l"), Get(data, "c"), Get(data, "v"), Get(data, "n"))
    case JArr(e) =>
      if |e| == 10
      then CandleFrom(Some(e[0]), Some(e[1]), Some(e[2]), Some(e[3]), Some(e[4]),
                      Some(e[5]), Some(e[6]), Some(e[7]), Some(e[8]), Some(e[9]))
      else None
    case _ => None
  }

  /** A candle whose prices are texts that parse as f64, as decoding produces. */
  predicate WellFormedCandle(c: Candle)
  {
    ParsesAsF64(c.open.literal) && ParsesAsF64(c.high.literal) && ParsesAsF64(c.low.literal)
    && ParsesAsF64(c.close.literal) && ParsesAsF64(c.volume.literal)
  }

  /** The candle as the feed sends it, prices as strings. */
  function EncodeCandle(c: Candle): Json
  {
    JObj(map[
      "t" := U64Json(c.openTime), "T" := U64Json(c.closeTime),
      "s" := JStr(c.coin), "i" := JStr(c.interval),
      "o" := JStr(c.open.literal), "h" := JStr(c.high.literal),
      "l" := JStr(c.low.literal), "c" := JStr(c.close.literal),
      "v" := JStr(c.volume.literal), "n" := U64Json(c.numberOfTrades)])
  }

  /** The members of an encoded candle. */
  lemma EncodeCandleMembers(c: Candle)
    ensures var j := EncodeCandle(c);
      && Get(j, "t") == Some(U64Json(c.openTime)) && Get(j, "T") == Some(U64Json(c.closeTime))
      && Get(j, "s") == Some(JStr(c.coin)) && Get(j, "i") == Some(JStr(c.interval))
      && Get(j, "o") == Some(JStr(c.open.literal)) && Get(j, "h") == Some(JStr(c.high.literal))
      && Get(j, "l") == Some(JStr(c.low.literal)) && Get(j, "c") == Some(JStr(c.close.literal))
      && Get(j, "v") == Some(JStr(c.volume.literal)) && Get(j, "n") == Some(U64Json(c.numberOfTrades))
  {
  }

  /** Decoding reads back every well-formed candle the feed sends. */
  lemma CandleRoundTrip(c: Candle)
    requires WellFormedCandle(c)
    ensures DecodeCandle(EncodeCandle(c)) == Some(c)
  {
    var j := EncodeCandle(c);
    EncodeCandleMembers(c);
    AsU64OfU64Json(c.openTime);
    AsU64OfU64Json(c.closeTime);
    AsU64OfU64Json(c.numberOfTrades);
    assert DecodeCandle(j) == CandleFrom(Get(j, "t"), Get(j, "T"), Get(j, "s"), Get(j, "i"), Get(j, "o"),
                                         Get(j, "h"), Get(j, "l"), Get(j, "c"), Get(j, "v"), Get(j, "n"));
  }

  // ---------------------------------------------------------------------
  // Spot metadata and the pair-name table

  /** A spot token; only its name is used here. */
  datatype Token = Token(name: string)

  /** A spot market: its wire name, the positions of its tokens in the token list, its index. */
  datatype Universe = Universe(name: string, tokens: seq<U32>, index: U32)

  /** `SpotMetaResponse`: the spot tokens and markets. */
  datatype SpotMeta = SpotMeta(tokens: seq<Token>, universe: seq<Universe>)

  /**
   * The pair name "BASE/QUOTE" of a spot market, from the names of its first
   * two tokens. Every token position is looked up, so None (a panic in the
   * source) when any position is outside the token list or there are fewer
   * than two.
   */
  function PairName(tokens: seq<Token>, u: Universe): (r: Option<string>)
    ensures r.Some? <==> |u.tokens| >= 2 && forall k | 0 <= k < |u.tokens| :: u.tokens[k] < |tokens|
    ensures r.Some? ==>
      var base := tokens[u.tokens[0]].name;
      var quote := tokens[u.tokens[1]].name;
      && |r.value| == |base| + 1 + |quote|
      && r.value[..|base|] == base
      && r.value[|base|] == '/'
      && r.value[|base| + 1..] == quote
  {
    if |u.tokens| >= 2 && forall k | 0 <= k < |u.tokens| :: u.tokens[k] < |tokens|
    then Some(tokens[u.tokens[0]].name + "/" + tokens[u.tokens[1]].name)
    else None
  }

  predicate StartsWithAt(name: string)
  {
    |name| > 0 && name[0] == '@'
  }

  /**
   * The (symbol, internal code) pair `from_api` adds for one market: a name
   * starting with "@" is reached through its pair name, any other name
   * through itself. None when the pair name panics.
   */
  function PairMapping(tokens: seq<Token>, u: Universe): (r: Option<(string, string)>)
    ensures r.Some? <==> !StartsWithAt(u.name) || PairName(tokens, u).Some?
    ensures r.Some? ==> r.value.1 == u.name
    ensures r.Some? && StartsWithAt(u.name) ==> Some(r.value.0) == PairName(tokens, u)
    ensures r.Some? && !StartsWithAt(u.name) ==> r.value.0 == u.name
  {
    if StartsWithAt(u.name) then
      match PairName(tokens, u)
      case Some(pair) => Some((pair, u.name))
      case None => None
    else Some((u.name, u.name))
  }

  /** The pairs `from_api` adds for a list of markets, in order; None if any panics. */
  function PairMappings(tokens: seq<Token>, universe: seq<Universe>): Option<seq<(string, string)>>
  {
    if universe == [] then Some([])
    else
      match PairMappings(tokens, universe[..|universe| - 1])
      case None => None
      case Some(init) =>
        match PairMapping(tokens, universe[|universe| - 1])
        case None => None
        case Some(p) => Some(init + [p])
  }

  /** The construction panics exactly when one market's mapping does. */
  lemma {:induction false} PairMappingsAt(tokens: seq<Token>, universe: seq<Universe>)
    ensures PairMappings(tokens, universe).Some?
        <==> forall i | 0 <= i < |universe| :: PairMapping(tokens, universe[i]).Some?
    ensures PairMappings(tokens, universe).Some? ==>
      |PairMappings(tokens, universe).value| == |universe| &&
      forall i | 0 <= i < |universe| ::
        PairMappings(tokens, universe).value[i] == PairMapping(tokens, universe[i]).value
  {
    if universe != [] {
      var init := universe[..|universe| - 1];
      PairMappingsAt(tokens, init);
      assert forall i | 0 <= i < |init| :: init[i] == universe[i];
    }
  }

  /** The pairs with symbol and code swapped, for the reverse table. */
  function Swapped(pairs: seq<(string, string)>): (r: seq<(string, string)>)
    ensures |r| == |pairs|
    ensures forall i | 0 <= i < |pairs| :: r[i] == (pairs[i].1, pairs[i].0)
  {
    seq(|pairs|, i requires 0 <= i < |pairs| => (pairs[i].1, pairs[i].0))
  }

  /** The single-namespace token manager of the HTTP models. */
  class TokenManager {
    var symbolToInternal: map<string, string>
    var internalToSymbol: map<string, string>

    /** `TokenManager::new`: both tables empty. */
    constructor ()
      ensures symbolToInternal == map[] && internalToSymbol == map[]
    {
      symbolToInternal := map[];
      internalToSymbol := map[];
    }

    /** `get_internal_code` */
    function GetInternalCode(symbol: string): (r: Option<string>)
      reads this
      ensures r.Some? <==> symbol in symbolToInternal
      ensures r.Some? ==> r.value == symbolToInternal[symbol]
    {
      if symbol in symbolToInternal then Some(symbolToInternal[symbol]) else None
    }

    /** `get_symbol` */
    function GetSymbol(internalCode: string): (r: Option<string>)
      reads this
      ensures r.Some? <==> internalCode in internalToSymbol
      ensures r.Some? ==> r.value == internalToSymbol[internalCode]
    {
      if internalCode in internalToSymbol then Some(internalToSymbol[internalCode]) else None
    }

    /**
     * `add_mapping`: both directions are inserted, overwriting any earlier
     * entry for the same symbol or code; nothing else changes.
     */
    method AddMapping(symbol: string, internalCode: string)
      modifies this
      ensures symbolToInternal == old(symbolToInternal)[symbol := internalCode]
      ensures internalToSymbol == old(internalToSymbol)[internalCode := symbol]
      ensures GetInternalCode(symbol) == Some(internalCode)
      ensures GetSymbol(internalCode) == Some(symbol)
    {
      symbolToInternal := symbolToInternal[symbol := internalCode];
      internalToSymbol := internalToSymbol[internalCode := symbol];
    }

    /** `list_available_pairs`: every symbol of the forward table, once each. */
    method ListAvailablePairs() returns (r: seq<string>)
      ensures forall s :: s in r <==> s in symbolToInternal
      ensures forall i, j | 0 <= i < j < |r| :: r[i] != r[j]
    {
      r := CollectKeys(symbolToInternal);
    }
  }

  /**
   * `TokenManager::from_api` on already-fetched spot metadata: one mapping
   * per market, in order. None when a pair name panics.
   */
  method FromApi(spotMeta: SpotMeta) returns (r: Option<TokenManager>)
    ensures r.Some? <==> PairMappings(spotMeta.tokens, spotMeta.universe).Some?
    ensures r.Some? ==> fresh(r.value)
    ensures r.Some? ==>
      var pairs := PairMappings(spotMeta.tokens, spotMeta.universe).value;
      r.value.symbolToInternal == InsertAll(map[], pairs) &&
      r.value.internalToSymbol == InsertAll(map[], Swapped(pairs))
  {
    var mapper := new TokenManager();
    var universe := spotMeta.universe;
    ghost var done: seq<(string, string)> := [];
    var i := 0;
    while i < |universe|
      invariant 0 <= i <= |universe|
      invariant PairMappings(spotMeta.tokens, universe[..i]) == Some(done)
      invariant mapper.symbolToInternal == InsertAll(map[], done)
      invariant mapper.internalToSymbol == InsertAll(map[], Swapped(done))
      invariant fresh(mapper)
    {
      var u := universe[i];
      ghost var p: (string, string);
      if StartsWithAt(u.name) {
        var pair := PairName(spotMeta.tokens, u);
        if pair.None? {
          PairMappingsPanics(spotMeta.tokens, universe, i);
          return None;
        }
        mapper.AddMapping(pair.value, u.name);
        p := (pair.value, u.name);
      } else {
        mapper.AddMapping(u.name, u.name);
        p := (u.name, u.name);
      }
      PairMappingsStep(spotMeta.tokens, universe, i, done, p);
      done := done + [p];
      i := i + 1;
    }
    assert universe[..i] == universe;
    r := Some(mapper);
  }

  /** One more market extends the pairs and both tables by its mapping. */
  lemma PairMappingsStep(tokens: seq<Token>, universe: seq<Universe>, i: nat, done: seq<(string, string)>, p: (string, string))
    requires i < |universe|
    requires PairMappings(tokens, universe[..i]) == Some(done)
    requires PairMapping(tokens, universe[i]) == Some(p)
    ensures PairMappings(tokens, universe[..i + 1]) == Some(done + [p])
    ensures InsertAll(map[], done + [p]) == InsertAll(map[], done)[p.0 := p.1]
    ensures InsertAll(map[], Swapped(done + [p])) == InsertAll(map[], Swapped(done))[p.1 := p.0]
  {
    assert universe[..i + 1][..i] == universe[..i];
    assert (done + [p])[..|done|] == done;
    assert Swapped(done + [p])[..|done|] == Swapped(done);
  }

  /** A market whose mapping panics makes the whole construction panic. */
  lemma PairMappingsPanics(tokens: seq<Token>, universe: seq<Universe>, i: nat)
    requires i < |universe| && PairMapping(tokens, universe[i]).None?
    ensures PairMappings(tokens, universe).None?
  {
    PairMappingsAt(tokens, universe);
  }

  /**
   * After `from_api`, a market whose symbol no later market repeats is
   * reached from its symbol: a name starting with "@" from its pair name,
   * any other name from itself.
   */
  lemma FromApiLookup(spotMeta: SpotMeta, i: nat)
    requires PairMappings(spotMeta.tokens, spotMeta.universe).Some?
    requires i < |spotMeta.universe|
    requires var pairs := PairMappings(spotMeta.tokens, spotMeta.universe).value;
      forall j | i < j < |pairs| :: pairs[j].0 != pairs[i].0
    ensures var u := spotMeta.universe[i];
      var m := PairMapping(spotMeta.tokens, u);
      var table := InsertAll(map[], PairMappings(spotMeta.tokens, spotMeta.universe).value);
      && m.Some?
      && (StartsWithAt(u.name) ==> PairName(spotMeta.tokens, u).Some? && m.value.0 == PairName(spotMeta.tokens, u).value)
      && (!StartsWithAt(u.name) ==> m.value.0 == u.name)
      && m.value.0 in table && table[m.value.0] == u.name
  {
    PairMappingsAt(spotMeta.tokens, spotMeta.universe);
    InsertAllLastWins(map[], PairMappings(spotMeta.tokens, spotMeta.universe).value, i);
  }
}
