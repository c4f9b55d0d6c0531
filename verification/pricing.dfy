/** Price derivation and tracking attribution of the DEX indexer: WOKT's USD
    price from a basket of stablecoin pairs, a token's WOKT price from the first
    liquid whitelisted anchor, and the share of a swap's volume or a pool's
    liquidity that counts toward the tracked USD figures. */
module Pricing {
  import opened Schema
  import opened Weights

  const WOKT_ADDRESS: string := "0x70c1c53e991f31981d592c2d865383ac0d212225"

  const USDC_WOKT_PAIR: string := "0x4a8123ac977380198241e9edc64a986e483ba75d"
  const USDK_WOKT_PAIR: string := "0xc3a9967c7ab0a4312e225feef19103168995643d"
  const USDT_WOKT_PAIR: string := "0x695ef962b4ee88ed193148e486208d58d184d203"

  /** The factory's answer when no pair exists for two tokens. */
  const ADDRESS_ZERO: string := "0x0000000000000000000000000000000000000000"

  /** Anchor tokens in priority order: WOKT, USDK, USDC, USDT, BTCK, ETHK, DOTK,
      FILK, LTCK, KKT, NAS. */
  const WHITELIST: seq<string> := [
    "0x70c1c53e991f31981d592c2d865383ac0d212225",
    "0x533367b864d9b9aa59d0dcb6554df0c89feef1ff",
    "0x3e33590013b24bf21d4ccca3a965ea10e570d5b2",
    "0xe579156f9decc4134b5e3a30a24ac46bb8b01281",
    "0x09973e7e3914eb5ba69c7c025f30ab9446e3e4e0",
    "0xdf950cecf33e64176ada5dd733e170a56d11478e",
    "0x72f8fa5da80dc6e20e00d02724cf05ebd302c35f",
    "0xf6a0dc1fd1d2c0122ab075d7ef93ad79f02ccb93",
    "0xd616388f6533b6f1c31968a305fbee1727f55850",
    "0x4888097d1b29b439c55c6d3e44031ee658237de3",
    "0x6fd9db63dbc6be452ae7b0fe9995c81d967870bb"
  ]

  /** Minimum USD reserve for a pair with few liquidity providers to count toward volume. */
  const MINIMUM_USD_THRESHOLD_NEW_PAIRS: real := 1.0

  /** Minimum WOKT value of a pair for its spot price to be trusted as an anchor. */
  const MINIMUM_LIQUIDITY_THRESHOLD_ETH: real := 1.0

  /** Pairs with fewer liquidity providers than this are subject to the new-pair guard. */
  const MINIMUM_LIQUIDITY_PROVIDERS: int := 1

  predicate Whitelisted(id: string)
  {
    id in WHITELIST
  }

  // ---------------------------------------------------------------------------
  // WOKT price in USD from the stablecoin basket
  // ---------------------------------------------------------------------------

  /** The quotes the cascade averages once both the USDK and the USDT pair exist.
      WOKT is token1 of the USDK and USDC pairs and token0 of the USDT pair, so the
      WOKT-side reserve and the USD price of WOKT sit on opposite sides per pair. */
  function StableBasket(store: Store): seq<Quote>
    requires USDK_WOKT_PAIR in store.pairs && USDT_WOKT_PAIR in store.pairs
  {
    var usdk := store.pairs[USDK_WOKT_PAIR];
    var usdt := store.pairs[USDT_WOKT_PAIR];
    if USDC_WOKT_PAIR in store.pairs then
      var usdc := store.pairs[USDC_WOKT_PAIR];
      [Quote(usdk.reserve1, usdk.token0Price), Quote(usdc.reserve1, usdc.token0Price),
       Quote(usdt.reserve0, usdt.token1Price)]
    else
      [Quote(usdk.reserve1, usdk.token0Price), Quote(usdt.reserve0, usdt.token1Price)]
  }

  /** The basket's total reserve and weighted price, written out per branch. */
  lemma StableBasketExpanded(store: Store)
    ensures USDK_WOKT_PAIR in store.pairs && USDT_WOKT_PAIR in store.pairs ==>
      var usdk, usdt := store.pairs[USDK_WOKT_PAIR], store.pairs[USDT_WOKT_PAIR];
      var qs := StableBasket(store);
      if USDC_WOKT_PAIR in store.pairs then
        var usdc := store.pairs[USDC_WOKT_PAIR];
        var total := usdk.reserve1 + usdc.reserve1 + usdt.reserve0;
        && TotalReserve(qs) == total
        && (total != 0.0 ==>
              WeightedPrice(qs) == usdk.token0Price * (usdk.reserve1 / total)
                + usdc.token0Price * (usdc.reserve1 / total) + usdt.token1Price * (usdt.reserve0 / total))
      else
        var total := usdk.reserve1 + usdt.reserve0;
        && TotalReserve(qs) == total
        && (total != 0.0 ==>
              WeightedPrice(qs) == usdk.token0Price * (usdk.reserve1 / total)
                + usdt.token1Price * (usdt.reserve0 / total))
  {
    if USDK_WOKT_PAIR in store.pairs && USDT_WOKT_PAIR in store.pairs {
      var usdk, usdt := store.pairs[USDK_WOKT_PAIR], store.pairs[USDT_WOKT_PAIR];
      var k, t := Quote(usdk.reserve1, usdk.token0Price), Quote(usdt.reserve0, usdt.token1Price);
      if USDC_WOKT_PAIR in store.pairs {
        var usdc := store.pairs[USDC_WOKT_PAIR];
        var c := Quote(usdc.reserve1, usdc.token0Price);
        var total := usdk.reserve1 + usdc.reserve1 + usdt.reserve0;
        TripleOfQuotes(k, c, t, if total != 0.0 then total else 1.0);
      } else {
        var total := usdk.reserve1 + usdt.reserve0;
        PairOfQuotes(k, t, if total != 0.0 then total else 1.0);
      }
    }
  }

  /** The averaging branches divide by the basket's total WOKT reserve, which must not be zero. */
  predicate BasketDivisible(store: Store)
  {
    USDK_WOKT_PAIR in store.pairs && USDT_WOKT_PAIR in store.pairs ==>
      TotalReserve(StableBasket(store)) != 0.0
  }

  /** WOKT's USD price: the reserve-weighted average of the basket when the USDK and
      USDT pairs exist (with or without USDC), USDT's price alone when USDK is missing,
      and zero while the USDT pair does not exist, whatever else exists. */
  function EthPriceInUSD(store: Store): (price: real)
    requires BasketDivisible(store)
    ensures USDT_WOKT_PAIR !in store.pairs ==> price == 0.0
    ensures USDT_WOKT_PAIR in store.pairs && USDK_WOKT_PAIR !in store.pairs ==>
      price == store.pairs[USDT_WOKT_PAIR].token1Price
    ensures USDT_WOKT_PAIR in store.pairs && USDK_WOKT_PAIR in store.pairs ==>
      price == WeightedPrice(StableBasket(store))
  {
    StableBasketExpanded(store);
    if USDK_WOKT_PAIR in store.pairs && USDC_WOKT_PAIR in store.pairs && USDT_WOKT_PAIR in store.pairs then
      var usdkPair, usdcPair, usdtPair :=
        store.pairs[USDK_WOKT_PAIR], store.pairs[USDC_WOKT_PAIR], store.pairs[USDT_WOKT_PAIR];
      var totalLiquidityETH := usdkPair.reserve1 + usdcPair.reserve1 + usdtPair.reserve0;
      var usdkWeight := usdkPair.reserve1 / totalLiquidityETH;
      var usdcWeight := usdcPair.reserve1 / totalLiquidityETH;
      var usdtWeight := usdtPair.reserve0 / totalLiquidityETH;
      usdkPair.token0Price * usdkWeight + usdcPair.token0Price * usdcWeight + usdtPair.token1Price * usdtWeight
    else if USDK_WOKT_PAIR in store.pairs && USDT_WOKT_PAIR in store.pairs then
      var usdkPair, usdtPair := store.pairs[USDK_WOKT_PAIR], store.pairs[USDT_WOKT_PAIR];
      var totalLiquidityETH := usdkPair.reserve1 + usdtPair.reserve0;
      var usdkWeight := usdkPair.reserve1 / totalLiquidityETH;
      var usdtWeight := usdtPair.reserve0 / totalLiquidityETH;
      usdkPair.token0Price * usdkWeight + usdtPair.token1Price * usdtWeight
    else if USDT_WOKT_PAIR in store.pairs then
      store.pairs[USDT_WOKT_PAIR].token1Price
    else
      0.0
  }

  /** In each averaging branch the weights sum to exactly one: three weights when the
      USDC pair exists, two otherwise. */
  lemma BasketWeightsSumToOne(store: Store)
    requires USDK_WOKT_PAIR in store.pairs && USDT_WOKT_PAIR in store.pairs
    requires BasketDivisible(store)
    ensures |StableBasket(store)| == if USDC_WOKT_PAIR in store.pairs then 3 else 2
    ensures WeightSum(StableBasket(store), TotalReserve(StableBasket(store))) == 1.0
  {
    WeightsSumToOne(StableBasket(store));
  }

  /** With nonnegative WOKT-side reserves, the derived WOKT price lies between the
      lowest and highest USD price quoted by the pairs that were averaged. */
  lemma EthPriceWithinBasket(store: Store, lo: real, hi: real)
    requires USDK_WOKT_PAIR in store.pairs && USDT_WOKT_PAIR in store.pairs
    requires TotalReserve(StableBasket(store)) > 0.0
    requires forall i | 0 <= i < |StableBasket(store)| ::
      StableBasket(store)[i].reserve >= 0.0 && lo <= StableBasket(store)[i].price <= hi
    ensures lo <= EthPriceInUSD(store) <= hi
  {
    WeightedPriceBetween(StableBasket(store), lo, hi);
  }

  // ---------------------------------------------------------------------------
  // A token's WOKT price from the first liquid whitelisted anchor
  // ---------------------------------------------------------------------------

  predicate HasDerivedETH(store: Store, id: string)
  {
    id in store.tokens && store.tokens[id].derivedETH.Some?
  }

  /** The anchor at whitelist index `i` is usable: the factory knows a pair of the
      token with it, that pair holds the token and is worth more than the threshold. */
  predicate Qualifies(store: Store, getPair: (string, string) -> string, tokenId: string, i: int)
    requires 0 <= i < |WHITELIST|
  {
    var address := getPair(tokenId, WHITELIST[i]);
    && address != ADDRESS_ZERO
    && address in store.pairs
    && (store.pairs[address].token0 == tokenId || store.pairs[address].token1 == tokenId)
    && store.pairs[address].reserveETH > MINIMUM_LIQUIDITY_THRESHOLD_ETH
  }

  /** Index `i` is the first anchor in whitelist order that qualifies. */
  predicate FirstQualifying(store: Store, getPair: (string, string) -> string, tokenId: string, i: int)
    requires 0 <= i < |WHITELIST|
  {
    Qualifies(store, getPair, tokenId, i) &&
    forall j | 0 <= j < i :: !Qualifies(store, getPair, tokenId, j)
  }

  /** The loads made while examining anchor `i` succeed: the pair the factory names is
      in the store and, when it qualifies, so is the opposite token with its WOKT price. */
  predicate AnchorLoads(store: Store, getPair: (string, string) -> string, tokenId: string, i: int)
    requires 0 <= i < |WHITELIST|
  {
    var address := getPair(tokenId, WHITELIST[i]);
    address != ADDRESS_ZERO ==>
      && address in store.pairs
      && (store.pairs[address].token0 == tokenId && store.pairs[address].reserveETH > MINIMUM_LIQUIDITY_THRESHOLD_ETH
          ==> HasDerivedETH(store, store.pairs[address].token1))
      && (store.pairs[address].token0 != tokenId && store.pairs[address].token1 == tokenId
          && store.pairs[address].reserveETH > MINIMUM_LIQUIDITY_THRESHOLD_ETH
          ==> HasDerivedETH(store, store.pairs[address].token0))
  }

  /** Every anchor the scan reaches (up to and including the first qualifying one) loads. */
  predicate ScanLoads(store: Store, getPair: (string, string) -> string, tokenId: string)
  {
    forall i | 0 <= i < |WHITELIST| ::
      (forall j | 0 <= j < i :: !Qualifies(store, getPair, tokenId, j)) ==> AnchorLoads(store, getPair, tokenId, i)
  }

  /** The token's WOKT price through the pair with anchor `i`: the opposite side's spot
      price times the opposite token's own WOKT price. */
  function AnchorPrice(store: Store, getPair: (string, string) -> string, tokenId: string, i: int): real
    requires 0 <= i < |WHITELIST|
    requires Qualifies(store, getPair, tokenId, i) && AnchorLoads(store, getPair, tokenId, i)
  {
    var pair := store.pairs[getPair(tokenId, WHITELIST[i])];
    if pair.token0 == tokenId then pair.token1Price * store.tokens[pair.token1].derivedETH.value
    else pair.token0Price * store.tokens[pair.token0].derivedETH.value
  }

  /** The first qualifying anchor is unique: no other index is first. */
  lemma FirstQualifyingUnique(store: Store, getPair: (string, string) -> string, tokenId: string, i: int)
    requires 0 <= i < |WHITELIST| && FirstQualifying(store, getPair, tokenId, i)
    ensures forall k | 0 <= k < |WHITELIST| && FirstQualifying(store, getPair, tokenId, k) :: k == i
  {
  }

  /** Whenever some anchor qualifies, a first qualifying one exists, so the
      postconditions of FindEthPerToken determine its result on every input. */
  lemma {:induction false} FirstQualifyingExists(store: Store, getPair: (string, string) -> string, tokenId: string, j: int)
    requires 0 <= j < |WHITELIST| && Qualifies(store, getPair, tokenId, j)
    ensures exists k | 0 <= k <= j :: FirstQualifying(store, getPair, tokenId, k)
    decreases j
  {
    if !FirstQualifying(store, getPair, tokenId, j) {
      var earlier :| 0 <= earlier < j && Qualifies(store, getPair, tokenId, earlier);
      FirstQualifyingExists(store, getPair, tokenId, earlier);
    }
  }

  /** A token's price in WOKT: exactly one for WOKT itself whatever the store holds;
      otherwise the price through the FIRST qualifying anchor in whitelist order (not
      the most liquid one), skipping absent pairs and pairs at or below the threshold;
      zero when no anchor qualifies. */
  method FindEthPerToken(token: Token, store: Store, getPair: (string, string) -> string) returns (price: real)
    requires token.id == WOKT_ADDRESS || ScanLoads(store, getPair, token.id)
    ensures token.id == WOKT_ADDRESS ==> price == 1.0
    ensures token.id != WOKT_ADDRESS && (forall j | 0 <= j < |WHITELIST| :: !Qualifies(store, getPair, token.id, j))
      ==> price == 0.0
    ensures forall k | 0 <= k < |WHITELIST| ::
      token.id != WOKT_ADDRESS && FirstQualifying(store, getPair, token.id, k)
      ==> AnchorLoads(store, getPair, token.id, k) && price == AnchorPrice(store, getPair, token.id, k)
  {
    if token.id == WOKT_ADDRESS {
      return 1.0;
    }
    var i := 0;
    while i < |WHITELIST|
      invariant 0 <= i <= |WHITELIST|
      invariant forall j | 0 <= j < i :: !Qualifies(store, getPair, token.id, j)
    {
      var pairAddress := getPair(token.id, WHITELIST[i]);
      assert AnchorLoads(store, getPair, token.id, i);
      if pairAddress != ADDRESS_ZERO {
        var pair := store.pairs[pairAddress];
        if pair.token0 == token.id && pair.reserveETH > MINIMUM_LIQUIDITY_THRESHOLD_ETH {
          assert FirstQualifying(store, getPair, token.id, i);
          FirstQualifyingUnique(store, getPair, token.id, i);
          var token1 := store.tokens[pair.token1];
          price := pair.token1Price * token1.derivedETH.value;
          assert price == AnchorPrice(store, getPair, token.id, i);
          return;
        }
        if pair.token1 == token.id && pair.reserveETH > MINIMUM_LIQUIDITY_THRESHOLD_ETH {
          assert FirstQualifying(store, getPair, token.id, i);
          FirstQualifyingUnique(store, getPair, token.id, i);
          var token0 := store.tokens[pair.token0];
          price := pair.token0Price * token0.derivedETH.value;
          assert price == AnchorPrice(store, getPair, token.id, i);
          return;
        }
      }
      i := i + 1;
    }
    return 0.0;
  }

  // ---------------------------------------------------------------------------
  // Tracked volume and tracked liquidity
  // ---------------------------------------------------------------------------

  /** The loads the attribution engines perform succeed: the bundle exists and the
      token has a WOKT price. */
  predicate Priced(token: Token, store: Store)
  {
    BUNDLE_ID in store.bundles && token.derivedETH.Some?
  }

  /** A token's price in USD. */
  function UsdPrice(token: Token, store: Store): real
    requires Priced(token, store)
  {
    token.derivedETH.value * store.bundles[BUNDLE_ID].ethPrice
  }

  function Sum(s: seq<real>): real
  {
    if |s| == 0 then 0.0 else s[0] + Sum(s[1..])
  }

  /** The mean of the values, or zero when there are none. */
  function Average(s: seq<real>): real
  {
    if |s| == 0 then 0.0 else Sum(s) / (|s| as real)
  }

  /** The USD values of the whitelisted sides only, token0's first. */
  function WhitelistedValues(value0: real, id0: string, value1: real, id1: string): (vs: seq<real>)
  {
    (if Whitelisted(id0) then [value0] else []) + (if Whitelisted(id1) then [value1] else [])
  }

  /** The mean over the whitelisted sides, case by case. */
  lemma WhitelistedAverage(value0: real, id0: string, value1: real, id1: string)
    ensures Whitelisted(id0) && Whitelisted(id1) ==>
      Average(WhitelistedValues(value0, id0, value1, id1)) == (value0 + value1) / 2.0 &&
      2.0 * Average(WhitelistedValues(value0, id0, value1, id1)) == value0 + value1
    ensures Whitelisted(id0) && !Whitelisted(id1) ==> Average(WhitelistedValues(value0, id0, value1, id1)) == value0
    ensures !Whitelisted(id0) && Whitelisted(id1) ==> Average(WhitelistedValues(value0, id0, value1, id1)) == value1
    ensures !Whitelisted(id0) && !Whitelisted(id1) ==> Average(WhitelistedValues(value0, id0, value1, id1)) == 0.0
  {
    var vs := WhitelistedValues(value0, id0, value1, id1);
    if Whitelisted(id0) && Whitelisted(id1) {
      assert vs == [value0, value1] && vs[1..] == [value1];
      assert Sum(vs) == value0 + value1 by {
        assert Sum([value1]) == value1;
      }
    } else if Whitelisted(id0) {
      assert vs == [value0];
      assert Sum(vs) == value0;
    } else if Whitelisted(id1) {
      assert vs == [value1];
      assert Sum(vs) == value1;
    } else {
      assert vs == [];
    }
  }

  /** Tracked liquidity: twice the mean USD value of the whitelisted sides, that is the
      sum when both sides are whitelisted, double the one whitelisted side otherwise,
      and zero when neither side is whitelisted. */
  function TrackedLiquidityUSD(tokenAmount0: real, token0: Token, tokenAmount1: real, token1: Token, store: Store)
    : (liquidity: real)
    requires Priced(token0, store) && Priced(token1, store)
    ensures liquidity == 2.0 * Average(WhitelistedValues(
      tokenAmount0 * UsdPrice(token0, store), token0.id, tokenAmount1 * UsdPrice(token1, store), token1.id))
  {
    var price0 := UsdPrice(token0, store);
    var price1 := UsdPrice(token1, store);
    WhitelistedAverage(tokenAmount0 * UsdPrice(token0, store), token0.id, tokenAmount1 * UsdPrice(token1, store), token1.id);
    if Whitelisted(token0.id) && Whitelisted(token1.id) then
      tokenAmount0 * price0 + tokenAmount1 * price1
    else if Whitelisted(token0.id) && !Whitelisted(token1.id) then
      tokenAmount0 * price0 * 2.0
    else if !Whitelisted(token0.id) && Whitelisted(token1.id) then
      tokenAmount1 * price1 * 2.0
    else
      0.0
  }

  /** The new-pair guard: a pair with too few liquidity providers, at least one
      whitelisted token, and whose own reserves are tracked as less than the minimum
      USD liquidity. */
  predicate NewPairGuard(token0: Token, token1: Token, pair: Pair, store: Store)
    requires Priced(token0, store) && Priced(token1, store)
  {
    && pair.liquidityProviderCount < MINIMUM_LIQUIDITY_PROVIDERS
    && (Whitelisted(token0.id) || Whitelisted(token1.id))
    && TrackedLiquidityUSD(pair.reserve0, token0, pair.reserve1, token1, store) < MINIMUM_USD_THRESHOLD_NEW_PAIRS
  }

  /** Tracked volume: zero when the new-pair guard fires, otherwise the mean USD value
      of the whitelisted sides of the swap (zero when neither side is whitelisted). */
  function TrackedVolumeUSD(tokenAmount0: real, token0: Token, tokenAmount1: real, token1: Token, pair: Pair, store: Store)
    : (volume: real)
    requires Priced(token0, store) && Priced(token1, store)
    ensures NewPairGuard(token0, token1, pair, store) ==> volume == 0.0
    ensures !NewPairGuard(token0, token1, pair, store) ==> volume == Average(WhitelistedValues(
      tokenAmount0 * UsdPrice(token0, store), token0.id, tokenAmount1 * UsdPrice(token1, store), token1.id))
  {
    var price0 := UsdPrice(token0, store);
    var price1 := UsdPrice(token1, store);
    var reserve0USD := pair.reserve0 * price0;
    var reserve1USD := pair.reserve1 * price1;
    WhitelistedAverage(tokenAmount0 * UsdPrice(token0, store), token0.id, tokenAmount1 * UsdPrice(token1, store), token1.id);
    if pair.liquidityProviderCount < MINIMUM_LIQUIDITY_PROVIDERS
       && ((Whitelisted(token0.id) && Whitelisted(token1.id)
            && reserve0USD + reserve1USD < MINIMUM_USD_THRESHOLD_NEW_PAIRS)
        || (Whitelisted(token0.id) && !Whitelisted(token1.id)
            && reserve0USD * 2.0 < MINIMUM_USD_THRESHOLD_NEW_PAIRS)
        || (!Whitelisted(token0.id) && Whitelisted(token1.id)
            && reserve1USD * 2.0 < MINIMUM_USD_THRESHOLD_NEW_PAIRS))
    then
      0.0
    else if Whitelisted(token0.id) && Whitelisted(token1.id) then
      (tokenAmount0 * price0 + tokenAmount1 * price1) / 2.0
    else if Whitelisted(token0.id) && !Whitelisted(token1.id) then
      tokenAmount0 * price0
    else if !Whitelisted(token0.id) && Whitelisted(token1.id) then
      tokenAmount1 * price1
    else
      0.0
  }

  /** The new-pair guard in the terms the indexer writes it: fewer than one liquidity
      provider and, by whitelist case, the summed reserve USD (both sides) or twice the
      one side's reserve USD below the threshold; equality with the threshold passes. */
  lemma NewPairGuardCases(token0: Token, token1: Token, pair: Pair, store: Store)
    requires Priced(token0, store) && Priced(token1, store)
    ensures var reserve0USD, reserve1USD := pair.reserve0 * UsdPrice(token0, store), pair.reserve1 * UsdPrice(token1, store);
      NewPairGuard(token0, token1, pair, store) <==>
        && pair.liquidityProviderCount < 1
        && (|| (Whitelisted(token0.id) && Whitelisted(token1.id) && reserve0USD + reserve1USD < 1.0)
            || (Whitelisted(token0.id) && !Whitelisted(token1.id) && 2.0 * reserve0USD < 1.0)
            || (!Whitelisted(token0.id) && Whitelisted(token1.id) && 2.0 * reserve1USD < 1.0))
  {
    var reserve0USD, reserve1USD := pair.reserve0 * UsdPrice(token0, store), pair.reserve1 * UsdPrice(token1, store);
    var tracked := TrackedLiquidityUSD(pair.reserve0, token0, pair.reserve1, token1, store);
    WhitelistedAverage(reserve0USD, token0.id, reserve1USD, token1.id);
    assert tracked == 2.0 * Average(WhitelistedValues(reserve0USD, token0.id, reserve1USD, token1.id));
    if Whitelisted(token0.id) && Whitelisted(token1.id) {
      assert tracked == reserve0USD + reserve1USD;
    } else if Whitelisted(token0.id) {
      assert tracked == 2.0 * reserve0USD;
    } else if Whitelisted(token1.id) {
      assert tracked == 2.0 * reserve1USD;
    }
  }

  /** Tracked volume when the guard does not fire, by whitelist case: the average of the two
      USD values, the one whitelisted side's USD value, or zero. */
  lemma TrackedVolumeByWhitelist(tokenAmount0: real, token0: Token, tokenAmount1: real, token1: Token, pair: Pair, store: Store)
    requires Priced(token0, store) && Priced(token1, store)
    requires !NewPairGuard(token0, token1, pair, store)
    ensures Whitelisted(token0.id) && Whitelisted(token1.id) ==>
      TrackedVolumeUSD(tokenAmount0, token0, tokenAmount1, token1, pair, store)
        == (tokenAmount0 * UsdPrice(token0, store) + tokenAmount1 * UsdPrice(token1, store)) / 2.0
    ensures Whitelisted(token0.id) && !Whitelisted(token1.id) ==>
      TrackedVolumeUSD(tokenAmount0, token0, tokenAmount1, token1, pair, store) == tokenAmount0 * UsdPrice(token0, store)
    ensures !Whitelisted(token0.id) && Whitelisted(token1.id) ==>
      TrackedVolumeUSD(tokenAmount0, token0, tokenAmount1, token1, pair, store) == tokenAmount1 * UsdPrice(token1, store)
    ensures !Whitelisted(token0.id) && !Whitelisted(token1.id) ==>
      TrackedVolumeUSD(tokenAmount0, token0, tokenAmount1, token1, pair, store) == 0.0
  {
    var value0, value1 := tokenAmount0 * UsdPrice(token0, store), tokenAmount1 * UsdPrice(token1, store);
    var volume := TrackedVolumeUSD(tokenAmount0, token0, tokenAmount1, token1, pair, store);
    WhitelistedAverage(value0, token0.id, value1, token1.id);
    assert volume == Average(WhitelistedValues(value0, token0.id, value1, token1.id));
  }

  /** Tracked liquidity by whitelist case: the sum of both USD values (never halved),
      twice the one whitelisted side's USD value, or zero. */
  lemma TrackedLiquidityByWhitelist(tokenAmount0: real, token0: Token, tokenAmount1: real, token1: Token, store: Store)
    requires Priced(token0, store) && Priced(token1, store)
    ensures var value0, value1 := tokenAmount0 * UsdPrice(token0, store), tokenAmount1 * UsdPrice(token1, store);
      var liquidity := TrackedLiquidityUSD(tokenAmount0, token0, tokenAmount1, token1, store);
      && (Whitelisted(token0.id) && Whitelisted(token1.id) ==> liquidity == value0 + value1)
      && (Whitelisted(token0.id) && !Whitelisted(token1.id) ==> liquidity == 2.0 * value0)
      && (!Whitelisted(token0.id) && Whitelisted(token1.id) ==> liquidity == 2.0 * value1)
      && (!Whitelisted(token0.id) && !Whitelisted(token1.id) ==> liquidity == 0.0)
  {
    WhitelistedAverage(tokenAmount0 * UsdPrice(token0, store), token0.id, tokenAmount1 * UsdPrice(token1, store), token1.id);
  }

  /** Whenever the guard lets a swap through, the same amounts count twice as much toward
      tracked liquidity as toward tracked volume, in every whitelist case. */
  lemma TrackedLiquidityIsTwiceVolume(tokenAmount0: real, token0: Token, tokenAmount1: real, token1: Token, pair: Pair, store: Store)
    requires Priced(token0, store) && Priced(token1, store)
    requires !NewPairGuard(token0, token1, pair, store)
    ensures TrackedLiquidityUSD(tokenAmount0, token0, tokenAmount1, token1, store)
         == 2.0 * TrackedVolumeUSD(tokenAmount0, token0, tokenAmount1, token1, pair, store)
  {
  }

  /** The pair seen from the other side: tokens, reserves and spot prices exchanged. */
  function Flipped(pair: Pair): Pair
  {
    pair.(token0 := pair.token1, token1 := pair.token0, reserve0 := pair.reserve1, reserve1 := pair.reserve0,
          token0Price := pair.token1Price, token1Price := pair.token0Price)
  }

  /** Attribution does not depend on which token the pair lists first. */
  lemma TrackedVolumeSymmetric(tokenAmount0: real, token0: Token, tokenAmount1: real, token1: Token, pair: Pair, store: Store)
    requires Priced(token0, store) && Priced(token1, store)
    ensures TrackedVolumeUSD(tokenAmount1, token1, tokenAmount0, token0, Flipped(pair), store)
         == TrackedVolumeUSD(tokenAmount0, token0, tokenAmount1, token1, pair, store)
    ensures TrackedLiquidityUSD(tokenAmount1, token1, tokenAmount0, token0, store)
         == TrackedLiquidityUSD(tokenAmount0, token0, tokenAmount1, token1, store)
  {
    WhitelistedAverage(tokenAmount0 * UsdPrice(token0, store), token0.id, tokenAmount1 * UsdPrice(token1, store), token1.id);
    WhitelistedAverage(tokenAmount1 * UsdPrice(token1, store), token1.id, tokenAmount0 * UsdPrice(token0, store), token0.id);
    NewPairGuardCases(token0, token1, pair, store);
    NewPairGuardCases(token1, token0, Flipped(pair), store);
  }

  /** With nonnegative USD values, tracked volume is never negative and never exceeds the
      swap's full USD value. */
  lemma TrackedVolumeWithinSwapValue(tokenAmount0: real, token0: Token, tokenAmount1: real, token1: Token, pair: Pair, store: Store)
    requires Priced(token0, store) && Priced(token1, store)
    requires tokenAmount0 * UsdPrice(token0, store) >= 0.0 && tokenAmount1 * UsdPrice(token1, store) >= 0.0
    ensures 0.0 <= TrackedVolumeUSD(tokenAmount0, token0, tokenAmount1, token1, pair, store)
              <= tokenAmount0 * UsdPrice(token0, store) + tokenAmount1 * UsdPrice(token1, store)
  {
    WhitelistedAverage(tokenAmount0 * UsdPrice(token0, store), token0.id, tokenAmount1 * UsdPrice(token1, store), token1.id);
  }
}
