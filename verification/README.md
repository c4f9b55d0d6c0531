# Price derivation and tracking attribution of a DEX analytics indexer

This project models the pricing core of an indexer for an AMM exchange on OKExChain, which is
`src/mappings/pricing.ts`. The core has four side-effect-free computations over read-only snapshots
of the indexer's entities:

- **`getEthPriceInUSD`** gives the price of the native asset, WOKT, in USD. It uses a priority
  cascade over three hard-coded stablecoin pairs (USDK, USDC and USDT against WOKT):
  - all three pairs exist: a reserve-weighted average of the three;
  - USDK and USDT exist: a weighted average of those two;
  - only USDT exists, or USDT and USDC without USDK: USDT's price alone;
  - otherwise: zero.
- **`findEthPerToken`** gives a token's price in WOKT. It returns exactly one for WOKT itself.
  Otherwise it scans the ordered `WHITELIST` of anchor tokens and uses the FIRST anchor that has a
  pair with the token and whose `reserveETH` is strictly above 1. It returns zero when no anchor
  qualifies.
- **`getTrackedVolumeUSD`** gives the share of a swap that counts as tracked USD volume. A
  new-pair guard comes first. After it, the result is the average of the two sides' USD values,
  the one whitelisted side's USD value, or zero.
- **`getTrackedLiquidityUSD`** gives the share of an amount pair that counts as tracked USD
  liquidity: the sum of the two sides, double the one whitelisted side, or zero.

## Structure

- `schema.dfy` (module `Schema`) holds the entity snapshots as datatypes:
  - `Token`, `Pair` and `Bundle`;
  - `Store`, whose three maps replace `Token.load`, `Pair.load` and `Bundle.load`;
  - an `Option` type for nullable fields.
- `weights.dfy` (module `Weights`) is a reference definition of a reserve-weighted average over a
  basket of quotes. It proves that the weights sum to one and that the average lies between the
  lowest and highest quoted price.
- `pricing.dfy` (module `Pricing`) holds the constants of `pricing.ts`:
  - the WOKT address, the three pair ids and the whitelist, in its order;
  - the two thresholds, both `1.0`;
  - the liquidity-provider bound `1`.

  It also holds the four operations and the lemmas about them.
  - `EthPriceInUSD`, `TrackedVolumeUSD` and `TrackedLiquidityUSD` are functions: the source
    computes them as branching expressions over single-assignment bindings.
  - `FindEthPerToken` is a method with a `while` loop and an early return, as in the source. Its
    postconditions characterise the result completely: one for WOKT, the first qualifying anchor's
    price, or zero.

`BigDecimal` arithmetic is modelled by Dafny's exact `real`. The factory's `getPair` call is a
total function parameter `(string, string) -> string`; it answers `ADDRESS_ZERO` when no pair
exists.

Where the code's unchecked loads would abort, the model has a precondition that the loads succeed:
- `Pair.load` at line 80 and `Token.load(...).derivedETH as BigDecimal` at lines 83 and 87 become
  `ScanLoads`. It demands this only for the anchors the scan actually reaches.
- `Bundle.load('1')` and a non-null `derivedETH` at lines 107-109 and 166-168 become `Priced`.

The divisions by `totalLiquidityETH` at lines 26-28 and 36-37 abort on a zero total.
`EthPriceInUSD` therefore requires a nonzero total in the averaging branches (`BasketDivisible`).

The new-pair guard is modelled as the code writes it: `liquidityProviderCount < 1` (line 112). The
comment on line 111 speaks of five providers. The model follows the code, so the guard fires only
for pairs with no liquidity providers.

One result of the model concerns that guard. Across all three whitelist cases, it is exactly this
condition: "the pair's own reserves, valued by `getTrackedLiquidityUSD`, are below the new-pair
threshold". Tracked volume is the mean USD value of the whitelisted sides, and tracked liquidity is
twice that mean. So whenever the guard lets a swap through, liquidity = 2 × volume, in every case.

## Model

| member | source | states |
|---|---|---|
| `Pricing.EthPriceInUSD` | src/mappings/pricing.ts:17-45 | With no USDT pair the price is 0, even if USDK or USDC pairs exist. With USDT but no USDK pair it is USDT's `token1Price`, and a USDC pair is ignored. With USDK and USDT it is the reserve-weighted average of the stable basket (three quotes with USDC, two without), read from token1's reserve for USDK/USDC and token0's reserve for USDT. |
| `Pricing.BasketWeightsSumToOne` | src/mappings/pricing.ts:24-38 | In each averaging branch the basket has 3 quotes (with USDC) or 2 (without), and their weights `reserve / totalLiquidityETH` sum to exactly 1. |
| `Pricing.EthPriceWithinBasket` | src/mappings/pricing.ts:24-38 | With nonnegative WOKT-side reserves and a positive total, the derived WOKT price lies between the lowest and highest stablecoin price averaged. |
| `Pricing.StableBasketExpanded` | src/mappings/pricing.ts:25-38 | The basket's total reserve is the source's `totalLiquidityETH` of each branch, and its weighted price is the source's sum of `price * weight`. |
| `Weights.WeightSumIsShare` | src/mappings/pricing.ts:25-28 | The sum of the weights `reserve / total` equals the basket's total reserve divided by `total`. |
| `Weights.WeightsSumToOne` | src/mappings/pricing.ts:25-28 | The weights of any basket with a nonzero total reserve sum to exactly 1. |
| `Weights.WeightedSumBounds` | src/mappings/pricing.ts:29-32 | With a positive total and nonnegative reserves, every quote's price in [lo, hi] bounds the weighted sum between lo and hi times the weight sum. |
| `Weights.WeightedPriceBetween` | src/mappings/pricing.ts:29-32 | A reserve-weighted price with nonnegative reserves is a convex combination: it lies between the lowest and highest quoted price. |
| `Weights.PairOfQuotes` | src/mappings/pricing.ts:35-38 | A two-quote basket's total reserve and weighted sum written out term by term. |
| `Weights.TripleOfQuotes` | src/mappings/pricing.ts:25-32 | A three-quote basket's total reserve and weighted sum written out term by term. |
| `Pricing.FindEthPerToken` | src/mappings/pricing.ts:72-92 | For WOKT the result is exactly 1 whatever the store and factory hold, and no load is required. Otherwise: if the anchor at index k is the first in whitelist order whose pair exists, contains the token and has `reserveETH > 1`, the result is that pair's opposite spot price times the opposite token's `derivedETH`. Earlier absent or thin pairs are skipped, and a later, more liquid anchor never wins. If no anchor qualifies, the result is 0. |
| `Pricing.FirstQualifyingExists` | src/mappings/pricing.ts:77-91 | If any anchor qualifies, a first qualifying anchor exists, at or before it. So the postconditions of `FindEthPerToken` determine its result on every input. |
| `Pricing.FirstQualifyingUnique` | src/mappings/pricing.ts:77-91 | At most one anchor is the first qualifying one. |
| `Pricing.TrackedLiquidityUSD` | src/mappings/pricing.ts:160-187 | Tracked liquidity is twice the mean USD value (`amount * derivedETH * ethPrice`) of the whitelisted sides. |
| `Pricing.TrackedLiquidityByWhitelist` | src/mappings/pricing.ts:170-186 | Both tokens whitelisted: the sum of the two USD values, never halved. Exactly one whitelisted: twice that side's USD value. Neither: 0. |
| `Pricing.TrackedVolumeUSD` | src/mappings/pricing.ts:100-152 | Tracked volume is 0 when the new-pair guard fires. Otherwise it is the mean USD value of the whitelisted sides, which is 0 when neither side is whitelisted. |
| `Pricing.NewPairGuardCases` | src/mappings/pricing.ts:111-130 | The guard fires iff `liquidityProviderCount < 1` and one of these holds: both tokens are whitelisted and `reserve0USD + reserve1USD < 1`; only token0 is whitelisted and `2 * reserve0USD < 1`; only token1 is whitelisted and `2 * reserve1USD < 1`. A value equal to the threshold does not fire it. |
| `Pricing.TrackedVolumeByWhitelist` | src/mappings/pricing.ts:132-151 | When the guard does not fire: both tokens whitelisted gives `(amount0*price0 + amount1*price1) / 2`; only token0 gives `amount0*price0`; only token1 gives `amount1*price1`; neither gives 0. |
| `Pricing.WhitelistedAverage` | src/mappings/pricing.ts:132-151 | The mean over the whitelisted sides is the average of both values, the one whitelisted value, or 0. |
| `Pricing.TrackedLiquidityIsTwiceVolume` | src/mappings/pricing.ts:100-187 | Whenever the guard lets a swap through, its amounts count exactly twice as much toward tracked liquidity as toward tracked volume, in every whitelist case. |
| `Pricing.TrackedVolumeSymmetric` | src/mappings/pricing.ts:100-187 | Exchanging the two sides (amounts, tokens, and the pair's reserves and prices) changes neither tracked volume nor tracked liquidity. |
| `Pricing.TrackedVolumeWithinSwapValue` | src/mappings/pricing.ts:132-151 | With nonnegative USD values, tracked volume is between 0 and the swap's full USD value. |

## Left out

- Entity-store persistence and the graph-ts runtime: `Pair.load`, `Token.load` and `Bundle.load`
  are lookups in the maps of a `Store` value.
- The factory contract call `factoryContract.getPair` and the `Address.fromString` /
  `toHexString` conversions: `getPair` is an arbitrary total function on string ids. Address
  conversion is taken to be the identity on lower-case hex ids.
- `./helpers` is not part of this model. `ADDRESS_ZERO` is taken to be the 40-zero hex address,
  and `ONE_BD` and `ZERO_BD` are `1.0` and `0.0`.
- `BigDecimal` precision and rounding: the model computes with exact reals.
- Runtime aborts from null loads and from division by zero are not modelled as outcomes. They are
  preconditions (`ScanLoads`, `Priced`, `BasketDivisible`), so callers must rule them out.
