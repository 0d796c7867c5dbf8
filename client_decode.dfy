/** The records the streaming client stores (src/models/websocket.rs). */
module WsModels {
  import opened Ints
  import opened F64
  import opened HttpModels

  /** One trade on the `trades` channel. */
  datatype TradeData = TradeData(
    coin: string,
    side: TradeSide,
    price: F64,
    size: F64,
    tradeHash: string,
    timestamp: U64,
    tradeId: U64,
    users: seq<string>)

  /** One price level of an order book. */
  datatype WsLevel = WsLevel(price: F64, size: F64, orderCount: U64)

  /** An order-book snapshot: bids and asks as the feed lists them. */
  datatype WsBook = WsBook(coin: string, bidLevels: seq<WsLevel>, askLevels: seq<WsLevel>, timestamp: U64)
}

/**
 * How the client reads the payloads of inbound frames
 * (src/websocket/client.rs): which members it probes, which types it
 * accepts, and which elements it drops. Each decoder has a partner encoder
 * giving the form the feed sends, and a round-trip lemma.
 */
module ClientDecode {
  import opened Wrappers
  import opened Ints
  import opened Json
  import opened F64
  import opened HttpModels
  import opened WsModels

  // ---------------------------------------------------------------------
  // allMids

  /** `parsed.get("data").and_then(|v| v.get("mids"))` as an object. */
  function MidsObject(msg: Json): (r: Option<map<string, Json>>)
    ensures r.Some? <==>
      && Get(msg, "data").Some?
      && Get(msg, "data").value.JObj?
      && "mids" in Get(msg, "data").value.fields
      && Get(msg, "data").value.fields["mids"].JObj?
    ensures r.Some? ==> JObj(r.value) == Get(msg, "data").value.fields["mids"]
  {
    AsObject(GetIn(Get(msg, "data"), "mids"))
  }

  /** The members of a mids object whose value is a string. */
  function StringEntries(mids: map<string, Json>): (r: map<string, string>)
    ensures forall k :: k in r <==> k in mids && mids[k].JStr?
    ensures forall k | k in r :: r[k] == mids[k].str
  {
    map k | k in mids && mids[k].JStr? :: mids[k].str
  }

  // ---------------------------------------------------------------------
  // trades

  /** `.and_then(|v| v.as_str()).and_then(|v| v.parse::<f64>().ok())`: only a string that parses. */
  function StrF64(v: Option<Json>): (r: Option<F64>)
    ensures r.Some? ==> v.Some? && v.value.JStr? && ParsesAsF64(v.value.str)
    ensures v.Some? && v.value.JStr? && ParsesAsF64(v.value.str) ==> r == Some(F64(v.value.str))
  {
    match AsStr(v)
    case None => None
    case Some(s) => ParseF64(s)
  }

  /** `filter_map(|v| v.as_str())`: the string elements of an array, in order. */
  function StringsOf(elems: seq<Json>): (r: seq<string>)
    ensures |r| <= |elems|
    ensures forall x :: x in r <==> JStr(x) in elems
  {
    if elems == [] then []
    else
      var init := StringsOf(elems[..|elems| - 1]);
      var last := elems[|elems| - 1];
      if last.JStr? then init + [last.str] else init
  }

  /** The members every trade element must carry. */
  const TradeFields: seq<string> := ["coin", "side", "px", "sz", "hash", "time", "tid", "users"]

  /**
   * One element of a `trades` array: the trade it carries, or None when it
   * is dropped (a missing or mistyped member, a price or size that does not
   * parse, or a side code other than "B" and "A").
   */
  function DecodeTrade(t: Json): (r: Option<TradeData>)
    ensures r.Some? <==>
      && (forall i | 0 <= i < |TradeFields| :: Get(t, TradeFields[i]).Some?)
      && AsStr(Get(t, "coin")).Some? && AsStr(Get(t, "hash")).Some?
      && AsStr(Get(t, "side")).Some? && FromCode(AsStr(Get(t, "side")).value).Some?
      && StrF64(Get(t, "px")).Some? && StrF64(Get(t, "sz")).Some?
      && AsU64(Get(t, "time")).Some? && AsU64(Get(t, "tid")).Some?
      && AsArray(Get(t, "users")).Some?
    ensures r.Some? ==>
      && WellFormedTrade(r.value)
      && Some(r.value.coin) == AsStr(Get(t, "coin"))
      && Some(Code(r.value.side)) == AsStr(Get(t, "side"))
      && Some(r.value.price) == StrF64(Get(t, "px"))
      && Some(r.value.size) == StrF64(Get(t, "sz"))
      && Some(r.value.tradeHash) == AsStr(Get(t, "hash"))
      && Some(r.value.timestamp) == AsU64(Get(t, "time"))
      && Some(r.value.tradeId) == AsU64(Get(t, "tid"))
      && r.value.users == StringsOf(AsArray(Get(t, "users")).value)
  {
    var coin := AsStr(Get(t, "coin"));
    var sideCode := AsStr(Get(t, "side"));
    var px := StrF64(Get(t, "px"));
    var sz := StrF64(Get(t, "sz"));
    var hash := AsStr(Get(t, "hash"));
    var time := AsU64(Get(t, "time"));
    var tid := AsU64(Get(t, "tid"));
    var users := AsArray(Get(t, "users"));
    if coin.Some? && sideCode.Some? && px.Some? && sz.Some? && hash.Some?
       && time.Some? && tid.Some? && users.Some?
    then
      match FromCode(sideCode.value)
      case Some(side) =>
        Some(TradeData(coin.value, side, px.value, sz.value, hash.value,
                       time.value, tid.value, StringsOf(users.value)))
      case None => None
    else None
  }

  /** A trade whose prices are texts that parse as f64, as decoding produces. */
  predicate WellFormedTrade(td: TradeData)
  {
    ParsesAsF64(td.price.literal) && ParsesAsF64(td.size.literal)
  }

  /** The trade as the feed sends it. */
  function EncodeTrade(td: TradeData): Json
  {
    JObj(map[
      "coin" := JStr(td.coin), "side" := JStr(Code(td.side)),
      "px" := JStr(td.price.literal), "sz" := JStr(td.size.literal),
      "hash" := JStr(td.tradeHash), "time" := U64Json(td.timestamp),
      "tid" := U64Json(td.tradeId),
      "users" := JArr(JStrings(td.users))])
  }

  /** The strings as JSON string elements. */
  function JStrings(users: seq<string>): (r: seq<Json>)
    ensures |r| == |users|
    ensures forall i | 0 <= i < |users| :: r[i] == JStr(users[i])
  {
    if users == [] then [] else JStrings(users[..|users| - 1]) + [JStr(users[|users| - 1])]
  }

  /** An array of strings reads back as those strings. */
  lemma {:induction false} StringsOfStrings(users: seq<string>)
    ensures StringsOf(JStrings(users)) == users
  {
    if users != [] {
      var init := users[..|users| - 1];
      StringsOfStrings(init);
      assert JStrings(users)[..|users| - 1] == JStrings(init);
    }
  }

  /** The members of an encoded trade. */
  lemma EncodeTradeMembers(td: TradeData)
    ensures var j := EncodeTrade(td);
      && Get(j, "coin") == Some(JStr(td.coin)) && Get(j, "side") == Some(JStr(Code(td.side)))
      && Get(j, "px") == Some(JStr(td.price.literal)) && Get(j, "sz") == Some(JStr(td.size.literal))
      && Get(j, "hash") == Some(JStr(td.tradeHash)) && Get(j, "time") == Some(U64Json(td.timestamp))
      && Get(j, "tid") == Some(U64Json(td.tradeId))
      && Get(j, "users") == Some(JArr(JStrings(td.users)))
  {
  }

  /** An element whose eight members decode to the fields of td decodes to td. */
  lemma DecodeTradeOf(t: Json, td: TradeData)
    requires AsStr(Get(t, "coin")) == Some(td.coin)
    requires AsStr(Get(t, "side")) == Some(Code(td.side))
    requires StrF64(Get(t, "px")) == Some(td.price) && StrF64(Get(t, "sz")) == Some(td.size)
    requires AsStr(Get(t, "hash")) == Some(td.tradeHash)
    requires AsU64(Get(t, "time")) == Some(td.timestamp) && AsU64(Get(t, "tid")) == Some(td.tradeId)
    requires AsArray(Get(t, "users")).Some? && StringsOf(AsArray(Get(t, "users")).value) == td.users
    ensures DecodeTrade(t) == Some(td)
  {
    FromCodeInverse(Code(td.side), td.side);
  }

  /** The members of the form the feed sends decode to the trade's fields. */
  lemma DecodeTradeFromMembers(t: Json, td: TradeData)
    requires WellFormedTrade(td)
    requires Get(t, "coin") == Some(JStr(td.coin)) && Get(t, "side") == Some(JStr(Code(td.side)))
    requires Get(t, "px") == Some(JStr(td.price.literal)) && Get(t, "sz") == Some(JStr(td.size.literal))
    requires Get(t, "hash") == Some(JStr(td.tradeHash)) && Get(t, "time") == Some(U64Json(td.timestamp))
    requires Get(t, "tid") == Some(U64Json(td.tradeId))
    requires Get(t, "users") == Some(JArr(JStrings(td.users)))
    ensures DecodeTrade(t) == Some(td)
  {
    AsU64OfU64Json(td.timestamp);
    AsU64OfU64Json(td.tradeId);
    StringsOfStrings(td.users);
    DecodeTradeOf(t, td);
  }

  /** Every well-formed trade the feed sends is kept as sent. */
  lemma TradeRoundTrip(td: TradeData)
    requires WellFormedTrade(td)
    ensures DecodeTrade(EncodeTrade(td)) == Some(td)
  {
    EncodeTradeMembers(td);
    DecodeTradeFromMembers(EncodeTrade(td), td);
  }

  /** `filter_map` over a trades array: the trades of the elements that decode, in order. */
  function DecodedTrades(elems: seq<Json>): (r: seq<TradeData>)
    ensures |r| <= |elems|
  {
    if elems == [] then []
    else
      var init := DecodedTrades(elems[..|elems| - 1]);
      match DecodeTrade(elems[|elems| - 1])
      case Some(t) => init + [t]
      case None => init
  }

  /** Decoding one more element of an array. */
  lemma DecodedTradesStep(elems: seq<Json>, i: nat)
    requires i < |elems|
    ensures DecodedTrades(elems[..i + 1]) ==
      match DecodeTrade(elems[i])
      case Some(t) => DecodedTrades(elems[..i]) + [t]
      case None => DecodedTrades(elems[..i])
  {
    assert elems[..i + 1][..i] == elems[..i];
  }

  /** Decoding an array decodes its parts independently. */
  lemma {:induction false} DecodedTradesAppend(a: seq<Json>, b: seq<Json>)
    ensures DecodedTrades(a + b) == DecodedTrades(a) + DecodedTrades(b)
  {
    if b != [] {
      var init := b[..|b| - 1];
      DecodedTradesAppend(a, init);
      assert (a + b)[..|a + b| - 1] == a + init;
      assert (a + b)[|a + b| - 1] == b[|b| - 1];
    } else {
      assert a + b == a;
    }
  }

  /** A malformed element is dropped alone: the elements around it still decode. */
  lemma MalformedTradeDropped(a: seq<Json>, bad: Json, b: seq<Json>)
    requires DecodeTrade(bad).None?
    ensures DecodedTrades(a + [bad] + b) == DecodedTrades(a) + DecodedTrades(b)
  {
    DecodedTradesAppend(a + [bad], b);
    DecodedTradesAppend(a, [bad]);
    assert [bad][..0] == [];
  }

  // ---------------------------------------------------------------------
  // l2Book

  /** One level: px and sz strings that parse, and a u64 order count n. */
  function DecodeLevel(l: Json): (r: Option<WsLevel>)
    ensures r.Some? <==> StrF64(Get(l, "px")).Some? && StrF64(Get(l, "sz")).Some? && AsU64(Get(l, "n")).Some?
    ensures r.Some? ==>
      && ParsesAsF64(r.value.price.literal) && ParsesAsF64(r.value.size.literal)
      && Some(r.value.price) == StrF64(Get(l, "px"))
      && Some(r.value.size) == StrF64(Get(l, "sz"))
      && Some(r.value.orderCount) == AsU64(Get(l, "n"))
  {
    var px := StrF64(Get(l, "px"));
    var sz := StrF64(Get(l, "sz"));
    var n := AsU64(Get(l, "n"));
    if px.Some? && sz.Some? && n.Some? then Some(WsLevel(px.value, sz.value, n.value)) else None
  }

  /** The level as the feed sends it. */
  function EncodeLevel(lv: WsLevel): Json
  {
    JObj(map["px" := JStr(lv.price.literal), "sz" := JStr(lv.size.literal), "n" := U64Json(lv.orderCount)])
  }

  /** Every level with f64 texts is read back as sent. */
  lemma LevelRoundTrip(lv: WsLevel)
    requires ParsesAsF64(lv.price.literal) && ParsesAsF64(lv.size.literal)
    ensures DecodeLevel(EncodeLevel(lv)) == Some(lv)
  {
    AsU64OfU64Json(lv.orderCount);
  }

  /** `filter_map` over one side's levels: the levels that decode, in order. */
  function FilterLevels(ls: seq<Json>): (r: seq<WsLevel>)
    ensures |r| <= |ls|
  {
    if ls == [] then []
    else
      var init := FilterLevels(ls[..|ls| - 1]);
      match DecodeLevel(ls[|ls| - 1])
      case Some(lv) => init + [lv]
      case None => init
  }

  /** Levels are decoded one at a time: a bad level drops only itself. */
  lemma {:induction false} FilterLevelsAppend(a: seq<Json>, b: seq<Json>)
    ensures FilterLevels(a + b) == FilterLevels(a) + FilterLevels(b)
  {
    if b != [] {
      var init := b[..|b| - 1];
      FilterLevelsAppend(a, init);
      assert (a + b)[..|a + b| - 1] == a + init;
      assert (a + b)[|a + b| - 1] == b[|b| - 1];
    } else {
      assert a + b == a;
    }
  }

  /** `as_array().unwrap_or(&vec![])` then the filter: a side that is not an array has no levels. */
  function ParseLevels(side: Json): seq<WsLevel>
  {
    match side
    case JArr(ls) => FilterLevels(ls)
    case _ => []
  }

  /**
   * The snapshot an `l2Book` frame carries, or None when the frame is
   * rejected whole: no `data`, no string `coin`, `levels` not an array, or
   * fewer than two entries in `levels`. Bids come from `levels[0]`, asks
   * from `levels[1]`; a missing or non-u64 `time` gives 0.
   */
  function DecodeBook(msg: Json): (r: Option<WsBook>)
    ensures r.None? <==>
      || Get(msg, "data").None?
      || AsStr(GetIn(Get(msg, "data"), "coin")).None?
      || AsArray(GetIn(Get(msg, "data"), "levels")).None?
      || |AsArray(GetIn(Get(msg, "data"), "levels")).value| < 2
    ensures r.Some? ==>
      var data := Get(msg, "data").value;
      var levels := AsArray(Get(data, "levels")).value;
      var b := r.value;
      && b.coin == AsStr(Get(data, "coin")).value
      && b.bidLevels == ParseLevels(levels[0])
      && b.askLevels == ParseLevels(levels[1])
      && b.timestamp == (if AsU64(Get(data, "time")).Some? then AsU64(Get(data, "time")).value else 0)
  {
    match Get(msg, "data")
    case None => None
    case Some(data) =>
      match AsStr(Get(data, "coin"))
      case None => None
      case Some(coin) =>
        match AsArray(Get(data, "levels"))
        case None => None
        case Some(levels) =>
          if |levels| < 2 then None
          else
            var time := AsU64(Get(data, "time"));
            Some(WsBook(coin, ParseLevels(levels[0]), ParseLevels(levels[1]),
                        if time.Some? then time.value else 0))
  }
}
