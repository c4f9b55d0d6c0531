/** Read-only snapshots of the indexer's entities, as the pricing logic sees them. */
module Schema {

  /** A value that may be absent, in place of a nullable field or a failed load. */
  datatype Option<T> = None | Some(value: T)

  /** A token: its address and, once derived, its price in WOKT. */
  datatype Token = Token(id: string, derivedETH: Option<real>)

  /** An AMM pair: its two tokens, their reserves, the pool's value in WOKT,
      the two spot prices and the number of liquidity providers. */
  datatype Pair = Pair(
    id: string,
    token0: string,
    token1: string,
    reserve0: real,
    reserve1: real,
    reserveETH: real,
    token0Price: real,
    token1Price: real,
    liquidityProviderCount: int)

  /** The singleton record holding WOKT's price in USD. */
  datatype Bundle = Bundle(ethPrice: real)

  /** The entity store: `Pair.load`, `Token.load` and `Bundle.load` become map lookups. */
  datatype Store = Store(
    pairs: map<string, Pair>,
    tokens: map<string, Token>,
    bundles: map<string, Bundle>)

  /** The id under which the singleton bundle is stored. */
  const BUNDLE_ID: string := "1"
}
