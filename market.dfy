/**
 * The two-namespace token manager (src/models/market.rs): spot and
 * perpetual markets each have their own symbol-to-code, code-to-symbol and
 * symbol-to-index tables. Spot indices are offset by 10 000 so that they
 * never collide with perpetual indices.
 */
module Market {
  import opened Wrappers
  import opened Ints
  import opened Tables
  import opened HttpModels

  datatype MarketType = Spot | Perp

  /** The offset added to a spot market's index. */
  const SpotIndexOffset: int := 10_000

  /** A perpetual market from the perp metadata; only its name is used. */
  datatype PerpAsset = PerpAsset(name: string)

  /** One `add_mapping` call: symbol, internal code and index. */
  datatype Mapping = Mapping(symbol: string, code: string, index: U32)

  class TokenManager {
    var spotSymbolToInternal: map<string, string>
    var perpSymbolToInternal: map<string, string>
    var spotInternalToSymbol: map<string, string>
    var perpInternalToSymbol: map<string, string>
    var spotSymbolToIndex: map<string, U32>
    var perpSymbolToIndex: map<string, U32>

    /** `TokenManager::new`: all six tables empty. */
    constructor ()
      ensures SymbolToInternal(Spot) == map[] && SymbolToInternal(Perp) == map[]
      ensures InternalToSymbol(Spot) == map[] && InternalToSymbol(Perp) == map[]
      ensures SymbolToIndex(Spot) == map[] && SymbolToIndex(Perp) == map[]
    {
      spotSymbolToInternal, perpSymbolToInternal := map[], map[];
      spotInternalToSymbol, perpInternalToSymbol := map[], map[];
      spotSymbolToIndex, perpSymbolToIndex := map[], map[];
    }

    /** The symbol-to-code table of a market type. */
    function SymbolToInternal(mt: MarketType): map<string, string>
      reads this
    {
      match mt
      case Spot => spotSymbolToInternal
      case Perp => perpSymbolToInternal
    }

    /** The code-to-symbol table of a market type. */
    function InternalToSymbol(mt: MarketType): map<string, string>
      reads this
    {
      match mt
      case Spot => spotInternalToSymbol
      case Perp => perpInternalToSymbol
    }

    /** The symbol-to-index table of a market type. */
    function SymbolToIndex(mt: MarketType): map<string, U32>
      reads this
    {
      match mt
      case Spot => spotSymbolToIndex
      case Perp => perpSymbolToIndex
    }

    /** `get_internal_code` */
    function GetInternalCode(mt: MarketType, symbol: string): (r: Option<string>)
      reads this
      ensures r.Some? <==> symbol in SymbolToInternal(mt)
      ensures r.Some? ==> r.value == SymbolToInternal(mt)[symbol]
    {
      if symbol in SymbolToInternal(mt) then Some(SymbolToInternal(mt)[symbol]) else None
    }

    /** `get_symbol` */
    function GetSymbol(mt: MarketType, internalCode: string): (r: Option<string>)
      reads this
      ensures r.Some? <==> internalCode in InternalToSymbol(mt)
      ensures r.Some? ==> r.value == InternalToSymbol(mt)[internalCode]
    {
      if internalCode in InternalToSymbol(mt) then Some(InternalToSymbol(mt)[internalCode]) else None
    }

    /** `get_token_index` */
    function GetTokenIndex(mt: MarketType, symbol: string): (r: Option<U32>)
      reads this
      ensures r.Some? <==> symbol in SymbolToIndex(mt)
      ensures r.Some? ==> r.value == SymbolToIndex(mt)[symbol]
    {
      if symbol in SymbolToIndex(mt) then Some(SymbolToIndex(mt)[symbol]) else None
    }

    /**
     * `add_mapping`: the three tables of `mt` get the new entries,
     * overwriting earlier entries for the same symbol or code (last write
     * wins); the other market type's tables are left alone.
     */
    method AddMapping(mt: MarketType, symbol: string, internalCode: string, index: U32)
      modifies this
      ensures SymbolToInternal(mt) == old(SymbolToInternal(mt))[symbol := internalCode]
      ensures InternalToSymbol(mt) == old(InternalToSymbol(mt))[internalCode := symbol]
      ensures SymbolToIndex(mt) == old(SymbolToIndex(mt))[symbol := index]
      ensures var other := if mt.Spot? then Perp else Spot;
        && SymbolToInternal(other) == old(SymbolToInternal(other))
        && InternalToSymbol(other) == old(InternalToSymbol(other))
        && SymbolToIndex(other) == old(SymbolToIndex(other))
      ensures GetInternalCode(mt, symbol) == Some(internalCode)
      ensures GetSymbol(mt, internalCode) == Some(symbol)
      ensures GetTokenIndex(mt, symbol) == Some(index)
    {
      match mt
      case Spot =>
        spotSymbolToInternal := spotSymbolToInternal[symbol := internalCode];
        spotInternalToSymbol := spotInternalToSymbol[internalCode := symbol];
        spotSymbolToIndex := spotSymbolToIndex[symbol := index];
      case Perp =>
        perpSymbolToInternal := perpSymbolToInternal[symbol := internalCode];
        perpInternalToSymbol := perpInternalToSymbol[internalCode := symbol];
        perpSymbolToIndex := perpSymbolToIndex[symbol := index];
    }

    /** `get_available_symbols`: the symbols of one market type, each once. */
    method GetAvailableSymbols(mt: MarketType) returns (r: seq<string>)
      ensures forall s :: s in r <==> s in SymbolToInternal(mt)
      ensures forall i, j | 0 <= i < j < |r| :: r[i] != r[j]
    {
      match mt
      case Spot => r := CollectKeys(spotSymbolToInternal);
      case Perp => r := CollectKeys(perpSymbolToInternal);
    }

    /** The six tables hold exactly what inserting the given mappings produces. */
    ghost predicate Holds(spot: seq<Mapping>, perp: seq<Mapping>)
      reads this
    {
      && SymbolToInternal(Spot) == InsertAll(map[], Forward(spot))
      && InternalToSymbol(Spot) == InsertAll(map[], Backward(spot))
      && SymbolToIndex(Spot) == InsertAll(map[], Indexes(spot))
      && SymbolToInternal(Perp) == InsertAll(map[], Forward(perp))
      && InternalToSymbol(Perp) == InsertAll(map[], Backward(perp))
      && SymbolToIndex(Perp) == InsertAll(map[], Indexes(perp))
    }
  }

  function Forward(ms: seq<Mapping>): (r: seq<(string, string)>)
    ensures |r| == |ms| && forall i | 0 <= i < |ms| :: r[i] == (ms[i].symbol, ms[i].code)
  {
    seq(|ms|, i requires 0 <= i < |ms| => (ms[i].symbol, ms[i].code))
  }

  function Backward(ms: seq<Mapping>): (r: seq<(string, string)>)
    ensures |r| == |ms| && forall i | 0 <= i < |ms| :: r[i] == (ms[i].code, ms[i].symbol)
  {
    seq(|ms|, i requires 0 <= i < |ms| => (ms[i].code, ms[i].symbol))
  }

  function Indexes(ms: seq<Mapping>): (r: seq<(string, U32)>)
    ensures |r| == |ms| && forall i | 0 <= i < |ms| :: r[i] == (ms[i].symbol, ms[i].index)
  {
    seq(|ms|, i requires 0 <= i < |ms| => (ms[i].symbol, ms[i].index))
  }

  /** One more `add_mapping` call extends each of the three tables by m's entry. */
  lemma ProjectionsSnoc(ms: seq<Mapping>, m: Mapping)
    ensures InsertAll(map[], Forward(ms + [m])) == InsertAll(map[], Forward(ms))[m.symbol := m.code]
    ensures InsertAll(map[], Backward(ms + [m])) == InsertAll(map[], Backward(ms))[m.code := m.symbol]
    ensures InsertAll(map[], Indexes(ms + [m])) == InsertAll(map[], Indexes(ms))[m.symbol := m.index]
  {
    assert Forward(ms + [m])[..|ms|] == Forward(ms);
    assert Backward(ms + [m])[..|ms|] == Backward(ms);
    assert Indexes(ms + [m])[..|ms|] == Indexes(ms);
  }

  /** The perp mappings of one more market. */
  lemma PerpMappingsSnoc(perp: seq<PerpAsset>, k: nat)
    requires k < |perp|
    ensures PerpMappings(perp[..k + 1]) == PerpMappings(perp[..k]) + [Mapping(perp[k].name, perp[k].name, TruncateU32(k))]
  {
  }

  /**
   * The mapping `from_api` adds for a spot market: its pair name to its
   * wire name, with the index offset by 10 000. None when the pair name
   * panics or the u32 addition overflows (a panic with overflow checks on).
   */
  function SpotMapping(tokens: seq<Token>, u: Universe): (r: Option<Mapping>)
    ensures r.Some? <==> PairName(tokens, u).Some? && u.index < U32Limit - SpotIndexOffset
    ensures r.Some? ==>
      && Some(r.value.symbol) == PairName(tokens, u)
      && r.value.code == u.name
      && r.value.index == u.index + SpotIndexOffset
  {
    match PairName(tokens, u)
    case None => None
    case Some(pair) =>
      if SpotIndexOffset + u.index < U32Limit
      then Some(Mapping(pair, u.name, SpotIndexOffset + u.index))
      else None
  }

  /** The spot mappings, in universe order; None if any market panics. */
  function SpotMappings(tokens: seq<Token>, universe: seq<Universe>): Option<seq<Mapping>>
  {
    if universe == [] then Some([])
    else
      match SpotMappings(tokens, universe[..|universe| - 1])
      case None => None
      case Some(init) =>
        match SpotMapping(tokens, universe[|universe| - 1])
        case None => None
        case Some(m) => Some(init + [m])
  }

  /** The perpetual mappings: each name to itself, indexed by its position (`as u32`). */
  function PerpMappings(perp: seq<PerpAsset>): (r: seq<Mapping>)
    ensures |r| == |perp|
    ensures forall i | 0 <= i < |perp| :: r[i] == Mapping(perp[i].name, perp[i].name, TruncateU32(i))
  {
    seq(|perp|, i requires 0 <= i < |perp| => Mapping(perp[i].name, perp[i].name, TruncateU32(i)))
  }

  /** Spot construction panics exactly when one market does; otherwise one mapping per market. */
  lemma {:induction false} SpotMappingsAt(tokens: seq<Token>, universe: seq<Universe>)
    ensures SpotMappings(tokens, universe).Some?
        <==> forall i | 0 <= i < |universe| :: SpotMapping(tokens, universe[i]).Some?
    ensures SpotMappings(tokens, universe).Some? ==>
      |SpotMappings(tokens, universe).value| == |universe| &&
      forall i | 0 <= i < |universe| ::
        SpotMappings(tokens, universe).value[i] == SpotMapping(tokens, universe[i]).value
  {
    if universe != [] {
      var init := universe[..|universe| - 1];
      SpotMappingsAt(tokens, init);
      assert forall i | 0 <= i < |init| :: init[i] == universe[i];
    }
  }

  /**
   * `TokenManager::from_api` on already-fetched spot and perp metadata: the
   * spot loop, then the perp loop, each calling `add_mapping`. None when
   * the spot loop panics.
   */
  method FromApi(spotMeta: SpotMeta, perp: seq<PerpAsset>) returns (r: Option<TokenManager>)
    ensures r.Some? <==> SpotMappings(spotMeta.tokens, spotMeta.universe).Some?
    ensures r.Some? ==> fresh(r.value)
    ensures r.Some? ==> r.value.Holds(SpotMappings(spotMeta.tokens, spotMeta.universe).value, PerpMappings(perp))
  {
    var manager := new TokenManager();
    var ok := AddSpotMarkets(manager, spotMeta);
    if !ok {
      return None;
    }
    AddPerpMarkets(manager, perp, SpotMappings(spotMeta.tokens, spotMeta.universe).value);
    r := Some(manager);
  }

  /** The spot loop of `from_api`, on a manager with empty tables. */
  method AddSpotMarkets(manager: TokenManager, spotMeta: SpotMeta) returns (ok: bool)
    requires manager.Holds([], [])
    modifies manager
    ensures ok <==> SpotMappings(spotMeta.tokens, spotMeta.universe).Some?
    ensures ok ==> manager.Holds(SpotMappings(spotMeta.tokens, spotMeta.universe).value, [])
  {
    var universe := spotMeta.universe;
    ghost var spot: seq<Mapping> := [];
    var i := 0;
    while i < |universe|
      invariant 0 <= i <= |universe|
      invariant |spot| == i
      invariant SpotMappings(spotMeta.tokens, universe[..i]) == Some(spot)
      invariant manager.Holds(spot, [])
    {
      var u := universe[i];
      SpotMappingsStep(spotMeta.tokens, universe, i, spot);
      var pair := PairName(spotMeta.tokens, u);
      if pair.None? || SpotIndexOffset + u.index >= U32Limit {
        return false;
      }
      var m := Mapping(pair.value, u.name, SpotIndexOffset + u.index);
      AddSpotMapping(manager, spot, m);
      spot := spot + [m];
      i := i + 1;
    }
    assert universe[..i] == universe;
    ok := true;
  }

  /** One `add_mapping` call of the spot loop, on a manager holding `spot` and no perp markets. */
  method AddSpotMapping(manager: TokenManager, ghost spot: seq<Mapping>, m: Mapping)
    requires manager.Holds(spot, [])
    modifies manager
    ensures manager.Holds(spot + [m], [])
  {
    manager.AddMapping(Spot, m.symbol, m.code, m.index);
    ProjectionsSnoc(spot, m);
  }

  /** The spot loop's step: market i either panics, which makes the whole construction panic, or extends the mappings by one. */
  lemma SpotMappingsStep(tokens: seq<Token>, universe: seq<Universe>, i: nat, spot: seq<Mapping>)
    requires i < |universe| && SpotMappings(tokens, universe[..i]) == Some(spot)
    ensures SpotMapping(tokens, universe[i]).None? ==> SpotMappings(tokens, universe).None?
    ensures SpotMapping(tokens, universe[i]).Some? ==>
      SpotMappings(tokens, universe[..i + 1]) == Some(spot + [SpotMapping(tokens, universe[i]).value])
  {
    assert universe[..i + 1][..i] == universe[..i];
    if SpotMapping(tokens, universe[i]).None? {
      SpotMappingsAt(tokens, universe);
    }
  }

  /** The perp loop of `from_api`. */
  method AddPerpMarkets(manager: TokenManager, perp: seq<PerpAsset>, ghost spot: seq<Mapping>)
    requires manager.Holds(spot, [])
    modifies manager
    ensures manager.Holds(spot, PerpMappings(perp))
  {
    ghost var perpDone: seq<Mapping> := [];
    var k := 0;
    while k < |perp|
      invariant 0 <= k <= |perp|
      invariant perpDone == PerpMappings(perp[..k])
      invariant manager.Holds(spot, perpDone)
    {
      var m := Mapping(perp[k].name, perp[k].name, TruncateU32(k));
      manager.AddMapping(Perp, m.symbol, m.code, m.index);
      ProjectionsSnoc(perpDone, m);
      PerpMappingsSnoc(perp, k);
      perpDone := perpDone + [m];
      k := k + 1;
    }
    assert perp[..k] == perp;
  }

  /**
   * After spot construction, a market whose pair name no later market
   * repeats is found from its pair name: its wire name, its index plus
   * 10 000, and the pair name back from the wire name when no later market
   * reuses that wire name.
   */
  lemma SpotConstruction(spotMeta: SpotMeta, i: nat)
    requires SpotMappings(spotMeta.tokens, spotMeta.universe).Some?
    requires i < |spotMeta.universe|
    requires var ms := SpotMappings(spotMeta.tokens, spotMeta.universe).value;
      forall j | i < j < |ms| :: ms[j].symbol != ms[i].symbol
    ensures var u := spotMeta.universe[i];
      var ms := SpotMappings(spotMeta.tokens, spotMeta.universe).value;
      var forward := InsertAll(map[], Forward(ms));
      var indexes := InsertAll(map[], Indexes(ms));
      && PairName(spotMeta.tokens, u).Some?
      && var pair := PairName(spotMeta.tokens, u).value;
      && pair in forward && forward[pair] == u.name
      && pair in indexes && indexes[pair] == SpotIndexOffset + u.index
    ensures var u := spotMeta.universe[i];
      var ms := SpotMappings(spotMeta.tokens, spotMeta.universe).value;
      var backward := InsertAll(map[], Backward(ms));
      (forall j | i < j < |ms| :: ms[j].code != u.name) ==>
        u.name in backward && backward[u.name] == PairName(spotMeta.tokens, u).value
  {
    var ms := SpotMappings(spotMeta.tokens, spotMeta.universe).value;
    SpotMappingsAt(spotMeta.tokens, spotMeta.universe);
    InsertAllLastWins(map[], Forward(ms), i);
    InsertAllLastWins(map[], Indexes(ms), i);
    if forall j | i < j < |ms| :: ms[j].code != spotMeta.universe[i].name {
      InsertAllLastWins(map[], Backward(ms), i);
    }
  }

  /**
   * After perp construction, a name no later market repeats maps to itself
   * in both directions, with its position as index.
   */
  lemma PerpConstruction(perp: seq<PerpAsset>, i: nat)
    requires i < |perp|
    requires forall j | i < j < |perp| :: perp[j].name != perp[i].name
    ensures var ms := PerpMappings(perp);
      var forward := InsertAll(map[], Forward(ms));
      var backward := InsertAll(map[], Backward(ms));
      var indexes := InsertAll(map[], Indexes(ms));
      && perp[i].name in forward && forward[perp[i].name] == perp[i].name
      && perp[i].name in backward && backward[perp[i].name] == perp[i].name
      && perp[i].name in indexes && indexes[perp[i].name] == TruncateU32(i)
  {
    var ms := PerpMappings(perp);
    InsertAllLastWins(map[], Forward(ms), i);
    InsertAllLastWins(map[], Backward(ms), i);
    InsertAllLastWins(map[], Indexes(ms), i);
  }

  /** The available symbols of a market type are exactly the symbols of its mappings. */
  lemma AvailableSymbolsAfterConstruction(ms: seq<Mapping>)
    ensures InsertAll(map[], Forward(ms)).Keys == set i | 0 <= i < |ms| :: ms[i].symbol
  {
    InsertAllKeys(map[], Forward(ms));
    assert KeysOf(Forward(ms)) == set i | 0 <= i < |ms| :: ms[i].symbol;
  }
}
