/**
 * The liquidity totals the reserve syncs of src/mappings/core.ts maintain.
 *
 * A sync never recomputes a total from scratch: it subtracts the synced
 * pool's (or pair's) old contribution and adds its new one. Stated over the
 * whole store, that keeps each total equal to the sum of the contributions.
 */
module Liquidity {
  import opened Schema
  import opened Sums

  /** A pool's contribution to the factory's tracked ETH liquidity. */
  function TrackedReserve(p: Pool): real { p.trackedReserveETH }

  /** A pool's contribution to `token`'s total liquidity: its reserve when it holds that token. */
  function ReserveOf(token: Address): Pool -> real {
    (p: Pool) => if p.token == token then p.reserve else 0.0
  }

  /** A pair's contribution to the Uniswap factory's tracked ETH liquidity. */
  function PairTrackedReserve(p: Pair): real { p.trackedReserveETH }

  /** Every pool's token is stored, and the factory exists once a pool does. */
  ghost predicate PoolsRegistered(factory: Option<FlashLoanFactory>, tokens: map<Address, Token>, pools: map<Address, Pool>) {
    forall p :: p in pools ==> factory.Some? && pools[p].token in tokens
  }

  /** The factory's tracked ETH liquidity is the sum over pools; a token's liquidity is the sum of its pools' reserves. */
  ghost predicate LiquidityMatches(factory: Option<FlashLoanFactory>, tokens: map<Address, Token>, pools: map<Address, Pool>) {
    && (factory.Some? ==> factory.value.totalLiquidityETH == Sum(pools, TrackedReserve))
    && (forall t :: t in tokens ==> tokens[t].totalLiquidity == Sum(pools, ReserveOf(t)))
  }

  /** The Uniswap factory's tracked ETH liquidity is the sum over pairs. */
  ghost predicate PairLiquidityMatches(uniswapFactory: Option<UniswapFactory>, pairs: map<Address, Pair>) {
    uniswapFactory.Some? ==> uniswapFactory.value.totalLiquidityETH == Sum(pairs, PairTrackedReserve)
  }

  /** Two pool maps with the same pools, each holding the same token with the same reserve and tracked reserve. */
  ghost predicate SameContributions(pools: map<Address, Pool>, pools': map<Address, Pool>) {
    && pools'.Keys == pools.Keys
    && forall p :: p in pools ==>
         && pools'[p].token == pools[p].token
         && pools'[p].reserve == pools[p].reserve
         && pools'[p].trackedReserveETH == pools[p].trackedReserveETH
  }

  /**
   * Rewriting fields of pools, tokens and the factory other than their
   * liquidity fields (counters, volumes, supply, prices) keeps the sums and
   * the registration of every pool's token.
   */
  lemma CountersKeepLiquidity(factory: Option<FlashLoanFactory>, factory': Option<FlashLoanFactory>,
                              tokens: map<Address, Token>, tokens': map<Address, Token>,
                              pools: map<Address, Pool>, pools': map<Address, Pool>)
    requires SameContributions(pools, pools')
    requires factory'.Some? == factory.Some?
    requires factory.Some? ==> factory'.value.totalLiquidityETH == factory.value.totalLiquidityETH
    requires tokens'.Keys == tokens.Keys
    requires forall t :: t in tokens ==> tokens'[t].totalLiquidity == tokens[t].totalLiquidity
    ensures LiquidityMatches(factory, tokens, pools) ==> LiquidityMatches(factory', tokens', pools')
    ensures PoolsRegistered(factory, tokens, pools) ==> PoolsRegistered(factory', tokens', pools')
  {
    SumKeysAgree(pools, pools', pools.Keys, TrackedReserve);
    forall t | t in tokens
      ensures Sum(pools', ReserveOf(t)) == Sum(pools, ReserveOf(t))
    {
      SumKeysAgree(pools, pools', pools.Keys, ReserveOf(t));
    }
  }
}
