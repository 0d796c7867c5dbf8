/**
 * The streaming client of src/websocket/client.rs: a connection object that
 * owns four stores and updates them in place as frames arrive, the retrying
 * connect, and the outbound subscription and ping messages. The socket
 * itself is not modelled: a frame arrives already read and parsed, and
 * whether a handshake succeeds is given as a parameter.
 */
module Client {
  import opened Wrappers
  import opened Json
  import opened HttpModels
  import opened WsModels
  import opened ClientDecode
  import opened ClientStore

  const MainnetUrl: string := "wss://api.hyperliquid.xyz/ws"
  const TestnetUrl: string := "wss://api.hyperliquid-testnet.xyz/ws"

  /** Failed handshakes after which the retrying connect gives up. */
  const MaxAttempts: nat := 5

  class WebSocketConnection {
    const url: string
    var allMids: map<string, string>
    var trades: map<string, seq<TradeData>>
    var l2Books: map<string, WsBook>
    var candles: map<string, seq<Candle>>
    const maxTrades: nat
    const maxCandles: nat

    /** The four stores as one value. */
    function Snapshot(): Stores
      reads this
    {
      Stores(allMids, trades, l2Books, candles)
    }

    /** The caps are the client's, and the stores keep the invariant of ClientStore. */
    ghost predicate Valid()
      reads this
    {
      maxTrades == MaxTrades && maxCandles == MaxCandles && StoresValid(Snapshot(), maxTrades, maxCandles)
    }

    /** `connect` after a successful handshake: empty stores, caps of 1000. */
    constructor Connect(url: string)
      ensures Valid() && this.url == url
      ensures Snapshot() == Stores(map[], map[], map[], map[])
    {
      this.url := url;
      allMids := map[];
      trades := map[];
      l2Books := map[];
      candles := map[];
      maxTrades := MaxTrades;
      maxCandles := MaxCandles;
    }

    /** `update_all_mids`: clear, then insert every string-valued member of `data.mids`. */
    method UpdateAllMids(msg: Json)
      modifies this`allMids
      ensures allMids == ApplyMids(old(allMids), msg)
    {
      match MidsObject(msg)
      case None =>
      case Some(obj) =>
        allMids := map[];
        var rest := obj.Keys;
        while rest != {}
          invariant rest <= obj.Keys
          invariant allMids == map k | k in obj.Keys - rest && obj[k].JStr? :: obj[k].str
          decreases rest
        {
          var key :| key in rest;
          if obj[key].JStr? {
            allMids := allMids[key := obj[key].str];
          }
          rest := rest - {key};
        }
        assert obj.Keys - rest == obj.Keys;
    }

    /** `update_trades`: each element that decodes is pushed onto its coin's history, capped. */
    method UpdateTrades(msg: Json)
      modifies this`trades
      ensures trades == ApplyTrades(old(trades), msg, maxTrades)
    {
      match AsArray(Get(msg, "data"))
      case None =>
      case Some(elems) =>
        for i := 0 to |elems|
          invariant trades == InsertTrades(old(trades), DecodedTrades(elems[..i]), maxTrades)
        {
          DecodedTradesStep(elems, i);
          match DecodeTrade(elems[i]) {
            case None =>
            case Some(t) =>
              InsertTradesSnoc(old(trades), DecodedTrades(elems[..i]), t, maxTrades);
              PushTrade(t);
          }
        }
        assert elems[..|elems|] == elems;
    }

    /** The body of `update_trades` for one decoded trade: push onto its coin's history, then remove the front past the cap. */
    method PushTrade(t: TradeData)
      modifies this`trades
      ensures trades == InsertTrade(old(trades), t, maxTrades)
    {
      var coinTrades := if t.coin in trades then trades[t.coin] else [];
      coinTrades := coinTrades + [t];
      if |coinTrades| > maxTrades {
        coinTrades := coinTrades[1..];
      }
      trades := trades[t.coin := coinTrades];
    }

    /** `update_l2_book`: an accepted snapshot replaces its coin's book. */
    method UpdateL2Book(msg: Json)
      modifies this`l2Books
      ensures l2Books == ApplyBook(old(l2Books), msg)
    {
      match DecodeBook(msg)
      case None =>
      case Some(book) =>
        l2Books := l2Books[book.coin := book];
    }

    /** `update_candles`: overwrite the candle with the same open time, or append; then evict the oldest past the cap. */
    method UpdateCandles(msg: Json)
      modifies this`candles
      ensures candles == ApplyCandle(old(candles), msg, maxCandles)
    {
      match Get(msg, "data")
      case None =>
      case Some(data) =>
        match DecodeCandle(data)
        case None =>
        case Some(c) =>
          var coinCandles := MergeCandle(Lookup(candles, c.coin), c, maxCandles);
          candles := candles[c.coin := coinCandles];
    }

    /**
     * `process_message`: a frame that is not JSON is an error and changes
     * nothing; a parsed frame is routed by its channel.
     */
    method ProcessMessage(frame: Option<Json>) returns (ok: bool)
      requires Valid()
      modifies this`allMids, this`trades, this`l2Books, this`candles
      ensures Valid()
      ensures ok == frame.Some?
      ensures frame.None? ==> Snapshot() == old(Snapshot())
      ensures frame.Some? ==> Snapshot() == Dispatch(old(Snapshot()), frame.value, maxTrades, maxCandles)
    {
      if frame.None? {
        return false;
      }
      var msg := frame.value;
      ghost var before := Snapshot();
      match RouteOf(msg) {
        case RouteMids => UpdateAllMids(msg);
        case RouteTrades => UpdateTrades(msg);
        case RouteBook => UpdateL2Book(msg);
        case RouteCandle => UpdateCandles(msg);
        case _ =>
      }
      DispatchKeepsValid(before, msg, maxTrades, maxCandles);
      return true;
    }
  }

  /**
   * The vector work of `update_candles` for one coin: search for the candle
   * with the same open time, overwrite it or push, then remove the front
   * once past the cap.
   */
  method MergeCandle(coinCandles: seq<Candle>, c: Candle, cap: nat) returns (r: seq<Candle>)
    ensures r == Upsert(coinCandles, c, cap)
  {
    var i := 0;
    while i < |coinCandles| && coinCandles[i].openTime != c.openTime
      invariant i <= |coinCandles|
      invariant forall j | 0 <= j < i :: coinCandles[j].openTime != c.openTime
    {
      i := i + 1;
    }
    ghost var found := FindOpenTime(coinCandles, c.openTime);
    r := coinCandles;
    if i < |coinCandles| {
      assert found == Some(i) by {
        if found.None? {
          assert false;
        } else if found.value != i {
          assert false;
        }
      }
      r := r[i := c];
    } else {
      assert found.None? by {
        if found.Some? {
          assert false;
        }
      }
      r := r + [c];
    }
    if |r| > cap {
      r := r[1..];
    }
  }

  /** The endpoint `connect_with_retries` dials. */
  function EndpointUrl(isTest: bool): (r: string)
    ensures r == TestnetUrl <==> isTest
    ensures r == MainnetUrl <==> !isTest
  {
    if isTest then TestnetUrl else MainnetUrl
  }

  /** The number of failed handshakes before the first success, if one comes within the attempt budget. */
  function FirstSuccess(handshake: nat -> bool, from: nat): (r: Option<nat>)
    requires from <= MaxAttempts
    ensures r.Some? ==> from <= r.value < MaxAttempts && handshake(r.value)
    ensures r.Some? ==> forall k | from <= k < r.value :: !handshake(k)
    ensures r.None? ==> forall k | from <= k < MaxAttempts :: !handshake(k)
    decreases MaxAttempts - from
  {
    if from == MaxAttempts then None
    else if handshake(from) then Some(from)
    else FirstSuccess(handshake, from + 1)
  }

  /**
   * `connect_with_retries`: dial until a handshake succeeds, giving up
   * (the panic, here None) after the fifth failure. `handshake(k)` is the
   * outcome of the attempt made after k failures.
   */
  method ConnectWithRetries(isTest: bool, handshake: nat -> bool) returns (conn: Option<WebSocketConnection>, failures: nat)
    ensures FirstSuccess(handshake, 0).Some? <==> conn.Some?
    ensures conn.Some? ==> failures == FirstSuccess(handshake, 0).value
    ensures conn.Some? ==> fresh(conn.value) && conn.value.Valid()
    ensures conn.Some? ==> conn.value.url == if isTest then TestnetUrl else MainnetUrl
    ensures conn.Some? ==> conn.value.Snapshot() == Stores(map[], map[], map[], map[])
    ensures conn.None? ==> failures == MaxAttempts
  {
    var url := EndpointUrl(isTest);
    failures := 0;
    while true
      invariant failures < MaxAttempts
      invariant FirstSuccess(handshake, 0) == FirstSuccess(handshake, failures)
      decreases MaxAttempts - failures
    {
      if handshake(failures) {
        var c := new WebSocketConnection.Connect(url);
        return Some(c), failures;
      }
      failures := failures + 1;
      if failures >= MaxAttempts {
        return None, failures;
      }
    }
  }

  /**
   * The text of a `subscribe` request: `method` is "subscribe" and
   * `subscription` holds `type` and every parameter as a string; a
   * parameter named "type" overrides the subscription type.
   */
  function SubscriptionJson(subscriptionType: string, params: map<string, string>): (r: Json)
    ensures Get(r, "method") == Some(JStr("subscribe"))
    ensures AsObject(Get(r, "subscription")).Some?
    ensures var sub := AsObject(Get(r, "subscription")).value;
      && sub.Keys == params.Keys + {"type"}
      && sub["type"] == JStr(if "type" in params then params["type"] else subscriptionType)
      && forall k | k in params :: sub[k] == JStr(params[k])
  {
    var sub := map["type" := JStr(subscriptionType)] + map k | k in params :: JStr(params[k]);
    JObj(map["method" := JStr("subscribe"), "subscription" := JObj(sub)])
  }

  /** `subscribe`'s message building: the type first, then each parameter inserted in turn. */
  method SubscriptionMessage(subscriptionType: string, params: map<string, string>) returns (msg: Json)
    ensures msg == SubscriptionJson(subscriptionType, params)
  {
    var sub := map["type" := JStr(subscriptionType)];
    var rest := params.Keys;
    while rest != {}
      invariant rest <= params.Keys
      invariant sub == map["type" := JStr(subscriptionType)] + map k | k in params.Keys - rest :: JStr(params[k])
      decreases rest
    {
      var key :| key in rest;
      sub := sub[key := JStr(params[key])];
      rest := rest - {key};
    }
    assert params.Keys - rest == params.Keys;
    msg := JObj(map["method" := JStr("subscribe"), "subscription" := JObj(sub)]);
  }

  /** The heartbeat `start_ping_task` sends: `{"method": "ping"}`. */
  function PingMessage(): (r: Json)
    ensures Get(r, "method") == Some(JStr("ping"))
    ensures AsObject(Some(r)).Some? && AsObject(Some(r)).value.Keys == {"method"}
  {
    JObj(map["method" := JStr("ping")])
  }
}
