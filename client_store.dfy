/**
 * What one inbound frame does to the four in-memory stores of the streaming
 * client (src/websocket/client.rs): the mids table, the per-coin trade
 * histories, the latest book per coin and the per-coin candle series. The
 * class in module Client performs these updates in place; the functions here
 * state their effect on values, and the lemmas state what the client
 * promises about them.
 */
module ClientStore {
  import opened Wrappers
  import opened Ints
  import opened Json
  import opened HttpModels
  import opened WsModels
  import opened ClientDecode

  /** Both histories are capped at this many entries per coin. */
  const MaxTrades: nat := 1000
  const MaxCandles: nat := 1000

  /** The entry for k, an empty vector when k has none (`or_insert_with(Vec::new)`). */
  function Lookup<T>(m: map<string, seq<T>>, k: string): (r: seq<T>)
    ensures k in m ==> r == m[k]
    ensures k !in m ==> r == []
  {
    if k in m then m[k] else []
  }

  /** The last n elements of s, or all of s when it has fewer. */
  function Last<T>(s: seq<T>, n: nat): (r: seq<T>)
    ensures |r| == if |s| < n then |s| else n
    ensures forall i | 0 <= i < |r| :: r[i] == s[|s| - |r| + i]
  {
    if |s| <= n then s else s[|s| - n..]
  }

  /** Every vector of the table holds at most cap entries. */
  predicate Bounded<T>(m: map<string, seq<T>>, cap: nat)
  {
    forall k | k in m :: |m[k]| <= cap
  }

  /** `push(x)` then, once the length exceeds cap, `remove(0)`. */
  function PushBounded<T>(s: seq<T>, x: T, cap: nat): (r: seq<T>)
    ensures |r| == if |s| < cap then |s| + 1 else |s|
    ensures r != [] ==> r[|r| - 1] == x
    ensures |s| <= cap ==> r == Last(s + [x], cap)
  {
    var t := s + [x];
    if |t| > cap then t[1..] else t
  }

  /** Trimming to the newest cap entries before a push changes nothing after it. */
  lemma LastSnoc<T>(a: seq<T>, x: T, cap: nat)
    ensures Last(Last(a, cap) + [x], cap) == Last(a + [x], cap)
  {
    if |a| > cap && cap > 0 {
      var t := a[|a| - cap..];
      assert Last(t + [x], cap) == a[|a| - cap + 1..] + [x];
      assert Last(a + [x], cap) == a[|a| - cap + 1..] + [x];
    }
  }

  // ---------------------------------------------------------------------
  // trades

  /** The trades of one coin, in order. */
  function OfCoin(ts: seq<TradeData>, c: string): (r: seq<TradeData>)
    ensures forall t | t in r :: t in ts && t.coin == c
  {
    if ts == [] then []
    else
      var init := OfCoin(ts[..|ts| - 1], c);
      var last := ts[|ts| - 1];
      if last.coin == c then init + [last] else init
  }

  /** One decoded trade added to the history of its coin. */
  function InsertTrade(trades: map<string, seq<TradeData>>, t: TradeData, cap: nat): (r: map<string, seq<TradeData>>)
    ensures r.Keys == trades.Keys + {t.coin}
    ensures forall c | c in trades && c != t.coin :: r[c] == trades[c]
    ensures cap > 0 ==> r[t.coin] != [] && r[t.coin][|r[t.coin]| - 1] == t
  {
    trades[t.coin := PushBounded(Lookup(trades, t.coin), t, cap)]
  }

  /** The decoded trades of a frame added in order. */
  function InsertTrades(trades: map<string, seq<TradeData>>, ts: seq<TradeData>, cap: nat): (r: map<string, seq<TradeData>>)
    ensures r.Keys == trades.Keys + Coins(ts)
  {
    if ts == [] then trades
    else
      assert Coins(ts) == Coins(ts[..|ts| - 1]) + {ts[|ts| - 1].coin} by {
        assert ts == ts[..|ts| - 1] + [ts[|ts| - 1]];
      }
      InsertTrade(InsertTrades(trades, ts[..|ts| - 1], cap), ts[|ts| - 1], cap)
  }

  /** The coins some trade of ts names. */
  function Coins(ts: seq<TradeData>): set<string>
  {
    set t | t in ts :: t.coin
  }

  /** Adding one more trade after a batch. */
  lemma InsertTradesSnoc(trades: map<string, seq<TradeData>>, ts: seq<TradeData>, t: TradeData, cap: nat)
    ensures InsertTrades(trades, ts + [t], cap) == InsertTrade(InsertTrades(trades, ts, cap), t, cap)
  {
    assert (ts + [t])[..|ts|] == ts;
  }

  /** A `trades` frame: the decodable elements of an array `data`; anything else changes nothing. */
  function ApplyTrades(trades: map<string, seq<TradeData>>, msg: Json, cap: nat): (r: map<string, seq<TradeData>>)
    ensures AsArray(Get(msg, "data")).None? ==> r == trades
    ensures AsArray(Get(msg, "data")).Some? ==>
      r.Keys == trades.Keys + Coins(DecodedTrades(AsArray(Get(msg, "data")).value))
  {
    match AsArray(Get(msg, "data"))
    case Some(elems) => InsertTrades(trades, DecodedTrades(elems), cap)
    case None => trades
  }

  /**
   * Each coin's history becomes the newest cap entries of its old history
   * followed by the new trades of that coin; a coin no trade names is
   * untouched.
   */
  lemma {:induction false} InsertTradesAt(trades: map<string, seq<TradeData>>, ts: seq<TradeData>, cap: nat, c: string)
    requires Bounded(trades, cap)
    ensures Lookup(InsertTrades(trades, ts, cap), c) == Last(Lookup(trades, c) + OfCoin(ts, c), cap)
  {
    if ts == [] {
      assert Lookup(trades, c) + [] == Lookup(trades, c);
    } else {
      InsertTradesAt(trades, ts[..|ts| - 1], cap, c);
      InsertTradesAtStep(trades, ts, cap, c);
    }
  }

  /** The inductive step of InsertTradesAt: one more trade after a batch. */
  lemma InsertTradesAtStep(trades: map<string, seq<TradeData>>, ts: seq<TradeData>, cap: nat, c: string)
    requires ts != []
    requires Lookup(InsertTrades(trades, ts[..|ts| - 1], cap), c) == Last(Lookup(trades, c) + OfCoin(ts[..|ts| - 1], c), cap)
    ensures Lookup(InsertTrades(trades, ts, cap), c) == Last(Lookup(trades, c) + OfCoin(ts, c), cap)
  {
    var init := ts[..|ts| - 1];
    var t := ts[|ts| - 1];
    var m := InsertTrades(trades, init, cap);
    assert InsertTrades(trades, ts, cap) == InsertTrade(m, t, cap);
    if t.coin == c {
      var before := Lookup(trades, c) + OfCoin(init, c);
      assert before + [t] == Lookup(trades, c) + OfCoin(ts, c);
      InsertTradeSame(m, t, cap, before);
    } else {
      InsertTradeOther(m, t, cap, c);
    }
  }

  /** A coin has trades in ts exactly when some trade of ts names it. */
  lemma {:induction false} OfCoinNonEmpty(ts: seq<TradeData>, c: string)
    ensures OfCoin(ts, c) != [] <==> c in Coins(ts)
  {
    if ts != [] {
      var init := ts[..|ts| - 1];
      OfCoinNonEmpty(init, c);
      assert ts == init + [ts[|ts| - 1]];
    }
  }

  /** The step for a trade of the coin: its history was the newest cap of `before`. */
  lemma InsertTradeSame(m: map<string, seq<TradeData>>, t: TradeData, cap: nat, before: seq<TradeData>)
    requires Lookup(m, t.coin) == Last(before, cap)
    ensures Lookup(InsertTrade(m, t, cap), t.coin) == Last(before + [t], cap)
    ensures t.coin in InsertTrade(m, t, cap)
  {
    LastSnoc(before, t, cap);
  }

  /** The step for a trade of another coin: the history of c is untouched. */
  lemma InsertTradeOther(m: map<string, seq<TradeData>>, t: TradeData, cap: nat, c: string)
    requires t.coin != c
    ensures Lookup(InsertTrade(m, t, cap), c) == Lookup(m, c)
    ensures c in InsertTrade(m, t, cap) <==> c in m
  {
  }

  /** No history ever exceeds the cap. */
  lemma InsertTradesBounded(trades: map<string, seq<TradeData>>, ts: seq<TradeData>, cap: nat)
    requires Bounded(trades, cap)
    ensures Bounded(InsertTrades(trades, ts, cap), cap)
  {
    var r := InsertTrades(trades, ts, cap);
    forall c | c in r ensures |r[c]| <= cap {
      InsertTradesAt(trades, ts, cap, c);
    }
  }

  /** A frame's trades are recorded per coin, in arrival order, capped; other coins are untouched. */
  lemma ApplyTradesAt(trades: map<string, seq<TradeData>>, msg: Json, cap: nat, c: string)
    requires Bounded(trades, cap)
    ensures AsArray(Get(msg, "data")).None? ==> ApplyTrades(trades, msg, cap) == trades
    ensures AsArray(Get(msg, "data")).Some? ==>
      var added := OfCoin(DecodedTrades(AsArray(Get(msg, "data")).value), c);
      && Lookup(ApplyTrades(trades, msg, cap), c) == Last(Lookup(trades, c) + added, cap)
      && (c in ApplyTrades(trades, msg, cap) <==> c in trades || added != [])
    ensures Bounded(ApplyTrades(trades, msg, cap), cap)
  {
    if AsArray(Get(msg, "data")).Some? {
      var ts := DecodedTrades(AsArray(Get(msg, "data")).value);
      InsertTradesAt(trades, ts, cap, c);
      OfCoinNonEmpty(ts, c);
      InsertTradesBounded(trades, ts, cap);
    }
  }

  // ---------------------------------------------------------------------
  // allMids

  /**
   * An `allMids` frame whose `data.mids` is an object replaces the whole
   * table by its string-valued members; any other frame changes nothing.
   */
  function ApplyMids(mids: map<string, string>, msg: Json): (r: map<string, string>)
    ensures MidsObject(msg).None? ==> r == mids
    ensures MidsObject(msg).Some? ==>
      var obj := MidsObject(msg).value;
      && (forall k :: k in r <==> k in obj && obj[k].JStr?)
      && (forall k | k in r :: obj[k] == JStr(r[k]))
  {
    match MidsObject(msg)
    case Some(obj) => StringEntries(obj)
    case None => mids
  }

  // ---------------------------------------------------------------------
  // l2Book

  /**
   * An accepted `l2Book` frame replaces the book of its coin, whatever was
   * stored before, and no other; a rejected frame changes nothing.
   */
  function ApplyBook(books: map<string, WsBook>, msg: Json): (r: map<string, WsBook>)
    ensures DecodeBook(msg).None? ==> r == books
    ensures DecodeBook(msg).Some? ==>
      var b := DecodeBook(msg).value;
      && r.Keys == books.Keys + {b.coin}
      && r[b.coin] == b
      && (forall k | k in books && k != b.coin :: r[k] == books[k])
  {
    match DecodeBook(msg)
    case Some(b) => books[b.coin := b]
    case None => books
  }

  // ---------------------------------------------------------------------
  // candle

  /** `iter().find(|c| c.open_time == t)`: the first candle opened at t. */
  function FindOpenTime(cs: seq<Candle>, t: U64): (r: Option<nat>)
    ensures r.Some? ==> r.value < |cs| && cs[r.value].openTime == t
    ensures r.Some? ==> forall j | 0 <= j < r.value :: cs[j].openTime != t
    ensures r.None? ==> forall j | 0 <= j < |cs| :: cs[j].openTime != t
  {
    if cs == [] then None
    else if cs[0].openTime == t then Some(0)
    else
      match FindOpenTime(cs[1..], t)
      case Some(i) => Some(i + 1)
      case None => None
  }

  /**
   * A candle merged into its coin's series: it overwrites the first candle
   * with the same open time (an update of the open bar) or is appended;
   * then, once the series exceeds cap, the oldest is dropped.
   */
  function Upsert(cs: seq<Candle>, c: Candle, cap: nat): (r: seq<Candle>)
    ensures |cs| <= cap ==> |r| <= cap
    ensures cap > 0 && |cs| <= cap ==> c in r
  {
    var s := match FindOpenTime(cs, c.openTime)
             case Some(i) => assert cs[i := c][i] == c; cs[i := c]
             case None => assert (cs + [c])[|cs|] == c; cs + [c];
    if |s| > cap then
      assert cap > 0 && |cs| <= cap ==> s[1..][|s| - 2] == c;
      s[1..]
    else s
  }

  /** A `candle` frame: a `data` that decodes as a candle is merged into its coin's series. */
  function ApplyCandle(candles: map<string, seq<Candle>>, msg: Json, cap: nat): (r: map<string, seq<Candle>>)
    ensures Get(msg, "data").None? || DecodeCandle(Get(msg, "data").value).None? ==> r == candles
    ensures Get(msg, "data").Some? && DecodeCandle(Get(msg, "data").value).Some? ==>
      var c := DecodeCandle(Get(msg, "data").value).value;
      && r.Keys == candles.Keys + {c.coin}
      && (forall k | k in candles && k != c.coin :: r[k] == candles[k])
      && (|Lookup(candles, c.coin)| <= cap ==> |r[c.coin]| <= cap)
  {
    match Get(msg, "data")
    case None => candles
    case Some(data) =>
      match DecodeCandle(data)
      case None => candles
      case Some(c) => candles[c.coin := Upsert(Lookup(candles, c.coin), c, cap)]
  }

  /** No two candles of a series share an open time. */
  predicate DistinctOpenTimes(cs: seq<Candle>)
  {
    forall i, j | 0 <= i < j < |cs| :: cs[i].openTime != cs[j].openTime
  }

  /** Every candle is stored under its own coin, in a series of distinct open times. */
  predicate WellKeyed(candles: map<string, seq<Candle>>)
  {
    forall k | k in candles :: DistinctOpenTimes(candles[k]) && forall x | x in candles[k] :: x.coin == k
  }

  /** A candle for an open time already present overwrites the first such candle in place. */
  lemma UpsertReplaces(cs: seq<Candle>, c: Candle, cap: nat, i: nat)
    requires |cs| <= cap
    requires i < |cs| && cs[i].openTime == c.openTime
    requires forall j | 0 <= j < i :: cs[j].openTime != c.openTime
    ensures Upsert(cs, c, cap) == cs[i := c]
  {
    var r := FindOpenTime(cs, c.openTime);
    if r.None? {
      assert false;
    } else if r.value != i {
      assert false;
    }
  }

  /** A candle for a new open time is appended, evicting the oldest once the cap is passed. */
  lemma UpsertAppends(cs: seq<Candle>, c: Candle, cap: nat)
    requires |cs| <= cap
    requires forall j | 0 <= j < |cs| :: cs[j].openTime != c.openTime
    ensures Upsert(cs, c, cap) == Last(cs + [c], cap)
  {
    var r := FindOpenTime(cs, c.openTime);
    if r.Some? {
      assert false;
    }
  }

  /** The series stays within the cap, holds the new candle, and holds nothing else new. */
  lemma UpsertContents(cs: seq<Candle>, c: Candle, cap: nat)
    requires |cs| <= cap
    ensures |Upsert(cs, c, cap)| <= cap
    ensures cap > 0 ==> c in Upsert(cs, c, cap)
    ensures forall x | x in Upsert(cs, c, cap) :: x in cs || x == c
  {
    var r := Upsert(cs, c, cap);
    match FindOpenTime(cs, c.openTime)
    case Some(i) =>
      assert r == cs[i := c];
      forall x | x in r ensures x in cs || x == c {
        var k :| 0 <= k < |r| && r[k] == x;
        if k != i { assert x == cs[k]; }
      }
    case None =>
      var s := cs + [c];
      forall x | x in r ensures x in cs || x == c {
        var k :| 0 <= k < |r| && r[k] == x;
        assert x in s by {
          if |s| > cap { assert x == s[k + 1]; } else { assert x == s[k]; }
        }
      }
  }

  /** Merging a candle keeps the open times of a series distinct. */
  lemma UpsertDistinct(cs: seq<Candle>, c: Candle, cap: nat)
    requires DistinctOpenTimes(cs)
    ensures DistinctOpenTimes(Upsert(cs, c, cap))
  {
    var s := match FindOpenTime(cs, c.openTime)
             case Some(i) => cs[i := c]
             case None => cs + [c];
    assert DistinctOpenTimes(s) by {
      match FindOpenTime(cs, c.openTime)
      case Some(i) =>
        assert forall j | 0 <= j < |s| :: s[j].openTime == cs[j].openTime;
      case None =>
        assert forall j | 0 <= j < |cs| :: s[j] == cs[j];
    }
    if |s| > cap {
      assert forall j | 0 <= j < |s| - 1 :: s[1..][j] == s[j + 1];
    }
  }

  /** Receiving the same candle twice stores what receiving it once does. */
  lemma UpsertIdempotent(cs: seq<Candle>, c: Candle, cap: nat)
    requires |cs| <= cap
    ensures Upsert(Upsert(cs, c, cap), c, cap) == Upsert(cs, c, cap)
  {
    var r := Upsert(cs, c, cap);
    match FindOpenTime(cs, c.openTime)
    case Some(i) =>
      assert r == cs[i := c];
      UpsertReplaces(r, c, cap, i);
      assert r[i := c] == r;
    case None =>
      UpsertAppends(cs, c, cap);
      if cap > 0 {
        var k := |r| - 1;
        assert r[k] == c;
        forall j | 0 <= j < k ensures r[j].openTime != c.openTime {
          assert r[j] == (cs + [c])[|cs| + 1 - |r| + j];
        }
        UpsertReplaces(r, c, cap, k);
        assert r[k := c] == r;
      }
  }

  /** A candle frame keeps every series bounded, distinct in open time, and under its own coin. */
  lemma ApplyCandleKeeps(candles: map<string, seq<Candle>>, msg: Json, cap: nat)
    requires Bounded(candles, cap) && WellKeyed(candles)
    ensures Bounded(ApplyCandle(candles, msg, cap), cap) && WellKeyed(ApplyCandle(candles, msg, cap))
  {
    if Get(msg, "data").Some? && DecodeCandle(Get(msg, "data").value).Some? {
      var c := DecodeCandle(Get(msg, "data").value).value;
      var cs := Lookup(candles, c.coin);
      UpsertContents(cs, c, cap);
      UpsertDistinct(cs, c, cap);
    }
  }

  /** Receiving the same candle frame twice stores what receiving it once does. */
  lemma ApplyCandleIdempotent(candles: map<string, seq<Candle>>, msg: Json, cap: nat)
    requires Bounded(candles, cap)
    ensures ApplyCandle(ApplyCandle(candles, msg, cap), msg, cap) == ApplyCandle(candles, msg, cap)
  {
    if Get(msg, "data").Some? && DecodeCandle(Get(msg, "data").value).Some? {
      var c := DecodeCandle(Get(msg, "data").value).value;
      UpsertIdempotent(Lookup(candles, c.coin), c, cap);
    }
  }

  // ---------------------------------------------------------------------
  // Dispatch

  /** The four stores. */
  datatype Stores = Stores(
    mids: map<string, string>,
    trades: map<string, seq<TradeData>>,
    books: map<string, WsBook>,
    candles: map<string, seq<Candle>>)

  /** Where a parsed frame goes, by its string `channel`. */
  datatype Route = RouteMids | RouteTrades | RouteBook | RouteCandle | RoutePong | RouteUnknown(channel: string) | RouteNone

  function RouteOf(msg: Json): (r: Route)
    ensures AsStr(Get(msg, "channel")).None? <==> r == RouteNone
    ensures r == RouteMids <==> AsStr(Get(msg, "channel")) == Some("allMids")
    ensures r == RouteTrades <==> AsStr(Get(msg, "channel")) == Some("trades")
    ensures r == RouteBook <==> AsStr(Get(msg, "channel")) == Some("l2Book")
    ensures r == RouteCandle <==> AsStr(Get(msg, "channel")) == Some("candle")
    ensures r == RoutePong <==> AsStr(Get(msg, "channel")) == Some("pong")
  {
    match AsStr(Get(msg, "channel"))
    case None => RouteNone
    case Some(ch) =>
      if ch == "allMids" then RouteMids
      else if ch == "trades" then RouteTrades
      else if ch == "l2Book" then RouteBook
      else if ch == "candle" then RouteCandle
      else if ch == "pong" then RoutePong
      else RouteUnknown(ch)
  }

  /**
   * The stores after one parsed frame: each of the four data channels
   * updates its own store and leaves the other three as they were; a pong,
   * an unknown channel or a frame without a string channel changes nothing.
   */
  function Dispatch(s: Stores, msg: Json, maxTrades: nat, maxCandles: nat): (r: Stores)
    ensures RouteOf(msg) != RouteMids ==> r.mids == s.mids
    ensures RouteOf(msg) != RouteTrades ==> r.trades == s.trades
    ensures RouteOf(msg) != RouteBook ==> r.books == s.books
    ensures RouteOf(msg) != RouteCandle ==> r.candles == s.candles
  {
    match RouteOf(msg)
    case RouteMids => s.(mids := ApplyMids(s.mids, msg))
    case RouteTrades => s.(trades := ApplyTrades(s.trades, msg, maxTrades))
    case RouteBook => s.(books := ApplyBook(s.books, msg))
    case RouteCandle => s.(candles := ApplyCandle(s.candles, msg, maxCandles))
    case _ => s
  }

  /** The client's invariant on its stores. */
  predicate StoresValid(s: Stores, maxTrades: nat, maxCandles: nat)
  {
    Bounded(s.trades, maxTrades) && Bounded(s.candles, maxCandles) && WellKeyed(s.candles)
  }

  /** Every frame keeps the invariant. */
  lemma DispatchKeepsValid(s: Stores, msg: Json, maxTrades: nat, maxCandles: nat)
    requires StoresValid(s, maxTrades, maxCandles)
    ensures StoresValid(Dispatch(s, msg, maxTrades, maxCandles), maxTrades, maxCandles)
  {
    match RouteOf(msg)
    case RouteTrades => ApplyTradesAt(s.trades, msg, maxTrades, "");
    case RouteCandle => ApplyCandleKeeps(s.candles, msg, maxCandles);
    case _ =>
  }

  /**
   * Snapshot frames (mids, books, candles) can be replayed without effect:
   * receiving one twice leaves the stores as receiving it once.
   */
  lemma DispatchSnapshotIdempotent(s: Stores, msg: Json, maxTrades: nat, maxCandles: nat)
    requires StoresValid(s, maxTrades, maxCandles)
    requires RouteOf(msg) != RouteTrades
    ensures Dispatch(Dispatch(s, msg, maxTrades, maxCandles), msg, maxTrades, maxCandles)
         == Dispatch(s, msg, maxTrades, maxCandles)
  {
    if RouteOf(msg) == RouteCandle {
      ApplyCandleIdempotent(s.candles, msg, maxCandles);
    }
  }

  /** A `trades` frame carrying one element. */
  function TradeFrame(e: Json): Json
  {
    JObj(map["channel" := JStr("trades"), "data" := JArr([e])])
  }

  /** The trades of a one-element array. */
  lemma DecodedSingle(e: Json)
    ensures DecodedTrades([e]) == if DecodeTrade(e).Some? then [DecodeTrade(e).value] else []
  {
    assert [e][..0] == [];
  }

  /** A trade frame records its one trade. */
  lemma TradeFrameInserts(s: Stores, e: Json, t: TradeData)
    requires DecodeTrade(e) == Some(t)
    ensures Dispatch(s, TradeFrame(e), MaxTrades, MaxCandles).trades == InsertTrade(s.trades, t, MaxTrades)
  {
    DecodedSingle(e);
    TradeFrameApplies(s, e);
    InsertTradesSingle(s.trades, t, MaxTrades);
  }

  /** A trade frame applies its array to the trades store. */
  lemma TradeFrameApplies(s: Stores, e: Json)
    ensures Dispatch(s, TradeFrame(e), MaxTrades, MaxCandles).trades == InsertTrades(s.trades, DecodedTrades([e]), MaxTrades)
  {
    TradeFrameShape(e);
  }

  /** A batch of one trade. */
  lemma InsertTradesSingle(trades: map<string, seq<TradeData>>, t: TradeData, cap: nat)
    ensures InsertTrades(trades, [t], cap) == InsertTrade(trades, t, cap)
  {
    assert [t][..0] == [];
  }

  /** A trade frame goes to the trades store and carries the one element. */
  lemma TradeFrameShape(e: Json)
    ensures RouteOf(TradeFrame(e)) == RouteTrades
    ensures AsArray(Get(TradeFrame(e), "data")) == Some([e])
  {
    assert Get(TradeFrame(e), "channel") == Some(JStr("trades"));
  }

  /** Trades are appended, never merged: the same trade frame received twice is recorded twice. */
  lemma TradeFrameReplayed(s: Stores, t: TradeData)
    requires WellFormedTrade(t) && t.coin !in s.trades
    ensures var msg := TradeFrame(EncodeTrade(t));
            var once := Dispatch(s, msg, MaxTrades, MaxCandles);
            Lookup(Dispatch(once, msg, MaxTrades, MaxCandles).trades, t.coin) == [t, t]
  {
    var e := EncodeTrade(t);
    TradeRoundTrip(t);
    var once := Dispatch(s, TradeFrame(e), MaxTrades, MaxCandles);
    TradeFrameInserts(s, e, t);
    TradeFrameInserts(once, e, t);
    assert Lookup(once.trades, t.coin) == [t];
  }
}
