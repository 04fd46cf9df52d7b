/**
 * The pool registry of src/mappings/flashLoanFactory.ts: the factory's
 * PoolCreated event registers a pool and, the first time they are needed,
 * the factory singleton, the ETH price bundle and the pool's token.
 *
 * The token metadata calls (symbol, name, total supply, decimals) are
 * contract reads; the model receives their results as a TokenMetadata
 * value, with the decimals read as an Option because that read can fail.
 */
module Registry {
  import opened Schema
  import opened Sums
  import opened Liquidity

  /** What the token's contract answers: decimals are None when the call fails. */
  datatype TokenMetadata = TokenMetadata(symbol: string, name: string, totalSupply: nat, decimals: Option<nat>)

  /** The factory as the first PoolCreated event creates it, before counting the pool. */
  const NEW_FACTORY: FlashLoanFactory := FlashLoanFactory(0, 0, 0.0, 0.0, 0.0, 0.0, 0.0)

  /** A token seen for the first time: its metadata, no price, no volume, no liquidity. */
  function NewToken(meta: TokenMetadata, decimals: nat): (t: Token)
    ensures t.decimals == decimals && t.symbol == meta.symbol && t.name == meta.name && t.totalSupply == meta.totalSupply
    ensures t.derivedETH == 0.0 && t.totalLiquidity == 0.0 && t.txCount == 0
    ensures t.tradeVolume == 0.0 && t.tradeVolumeUSD == 0.0 && t.untrackedVolumeUSD == 0.0
  {
    Token(meta.symbol, meta.name, meta.totalSupply, decimals, 0.0, 0.0, 0.0, 0.0, 0.0, 0)
  }

  /** A pool as its creation event registers it: its token, its creation block, every amount zero. */
  function NewPool(tokenId: Address, block: Block): (p: Pool)
    ensures p.token == tokenId && p.createdAtTimestamp == block.timestamp && p.createdAtBlockNumber == block.number
    ensures p.liquidityProviderCount == 0 && p.txCount == 0
    ensures p.reserve == 0.0 && p.trackedReserveETH == 0.0 && p.reserveETH == 0.0 && p.reserveUSD == 0.0
    ensures p.totalSupply == 0.0 && p.tokenPrice == 0.0
    ensures p.volumeToken == 0.0 && p.volumeUSD == 0.0 && p.untrackedVolumeUSD == 0.0
  {
    Pool(tokenId, 0, block.timestamp, block.number, 0, 0.0, 0.0, 0.0, 0.0, 0.0, 0.0, 0.0, 0.0, 0.0)
  }

  /**
   * The first save of handleNewPool: the factory, created with zero
   * counters together with a zero-price bundle when it is absent, counts
   * one more pool.
   */
  function FactoryCounted(st: Store): Store {
    var factory := if st.factory.Some? then st.factory.value else NEW_FACTORY;
    var bundle := if st.factory.Some? then st.bundle else Some(Bundle(0.0));
    st.(factory := Some(factory.(poolCount := factory.poolCount + 1)), bundle := bundle)
  }

  /**
   * The store after a PoolCreated event. The counted factory is saved
   * first; a stored token is reused, a new one is created from its
   * metadata, unless its decimals are unknown, in which case nothing else
   * is saved; then the pool is saved, replacing any pool stored under its
   * address.
   */
  function NewPoolResult(st: Store, ev: PoolCreatedLog, meta: TokenMetadata): Store {
    var known := ev.token in st.tokens;
    var bails := !known && meta.decimals.None?;
    var tokens := if known || bails then st.tokens else st.tokens[ev.token := NewToken(meta, meta.decimals.value)];
    var pools := if bails then st.pools else st.pools[ev.pool := NewPool(ev.token, ev.block)];
    FactoryCounted(st).(tokens := tokens, pools := pools)
  }

  /** The factory block of handleNewPool: load or create the factory (and then the bundle), count the pool, save. */
  method CountPool(st: Store) returns (st': Store, factory: FlashLoanFactory)
    ensures st' == FactoryCounted(st) && st'.factory == Some(factory)
  {
    st' := st;
    // flashLoanFactory.ts:17-27: the first pool creates the factory with zero totals
    if st'.factory.None? {
      factory := NEW_FACTORY;
      // flashLoanFactory.ts:29-31: ... and a bundle whose ETH price is zero
      st' := st'.(bundle := Some(Bundle(0.0)));
    } else {
      factory := st'.factory.value;
    }
    factory := factory.(poolCount := factory.poolCount + 1);
    st' := st'.(factory := Some(factory));
  }

  /** `handleNewPool`, with its saves folded into the returned store. */
  method HandleNewPool(st: Store, ev: PoolCreatedLog, meta: TokenMetadata) returns (st': Store)
    ensures st' == NewPoolResult(st, ev, meta)
  {
    var factory;
    st', factory := CountPool(st);

    // flashLoanFactory.ts:37-61: a stored token is reused; an unknown one is built from its metadata
    var token: Token;
    if ev.token !in st'.tokens {
      // flashLoanFactory.ts:47-51: unknown decimals end the handler, after the factory was saved
      if meta.decimals.None? {
        NewPoolBailsOut(st, ev, meta);
        return;
      }
      token := NewToken(meta, meta.decimals.value);
    } else {
      token := st'.tokens[ev.token];
    }

    var pool := NewPool(ev.token, ev.block);

    // flashLoanFactory.ts:82-85: token, pool and factory are written back
    st' := st'.(tokens := st'.tokens[ev.token := token], pools := st'.pools[ev.pool := pool], factory := Some(factory));
  }

  // ------------------------------------------------------------------ lemmas

  /**
   * The first PoolCreated event creates the factory with one pool and zero
   * totals and the bundle with a zero price; later events leave the bundle
   * alone and change only the factory's pool count.
   */
  lemma NewPoolSingletons(st: Store, ev: PoolCreatedLog, meta: TokenMetadata)
    ensures var r := NewPoolResult(st, ev, meta);
      && r.factory.Some?
      && (st.factory.None? ==> r.factory.value == NEW_FACTORY.(poolCount := 1) && r.bundle == Some(Bundle(0.0)))
      && (st.factory.Some? ==> r.bundle == st.bundle && r.factory.value == st.factory.value.(poolCount := r.factory.value.poolCount))
  {
  }

  /** Every PoolCreated event counts one pool, including one that bails out on unknown decimals. */
  lemma NewPoolCountsOne(st: Store, ev: PoolCreatedLog, meta: TokenMetadata)
    ensures var r := NewPoolResult(st, ev, meta);
      r.factory.Some? && r.factory.value.poolCount == (if st.factory.Some? then st.factory.value.poolCount else 0) + 1
  {
  }

  /** A new token whose decimals cannot be read saves neither the token nor the pool. */
  lemma NewPoolBailsOut(st: Store, ev: PoolCreatedLog, meta: TokenMetadata)
    requires ev.token !in st.tokens && meta.decimals.None?
    ensures var r := NewPoolResult(st, ev, meta);
      r == FactoryCounted(st) && r.tokens == st.tokens && r.pools == st.pools
  {
  }

  /** A stored token is reused unchanged: the event's outcome does not depend on the token's metadata. */
  lemma NewPoolReusesToken(st: Store, ev: PoolCreatedLog, meta1: TokenMetadata, meta2: TokenMetadata)
    requires ev.token in st.tokens
    ensures NewPoolResult(st, ev, meta1).tokens == st.tokens
    ensures NewPoolResult(st, ev, meta1) == NewPoolResult(st, ev, meta2)
  {
  }

  /** A new token with known decimals is saved from its metadata with zero price, volumes and liquidity. */
  lemma NewPoolCreatesToken(st: Store, ev: PoolCreatedLog, meta: TokenMetadata)
    requires ev.token !in st.tokens && meta.decimals.Some?
    ensures var r := NewPoolResult(st, ev, meta);
      && r.tokens.Keys == st.tokens.Keys + {ev.token}
      && r.tokens[ev.token] == NewToken(meta, meta.decimals.value)
      && (forall t :: t in st.tokens ==> r.tokens[t] == st.tokens[t])
  {
  }

  /**
   * Unless it bails out, the event saves a zeroed pool under its address,
   * referencing the event's token and created at the event's block; no
   * other pool changes and the token is stored.
   */
  lemma NewPoolRegistersPool(st: Store, ev: PoolCreatedLog, meta: TokenMetadata)
    requires ev.token in st.tokens || meta.decimals.Some?
    ensures var r := NewPoolResult(st, ev, meta);
      && r.pools.Keys == st.pools.Keys + {ev.pool}
      && r.pools[ev.pool] == NewPool(ev.token, ev.block)
      && ev.token in r.tokens
      && (forall p :: p in st.pools && p != ev.pool ==> r.pools[p] == st.pools[p])
  {
  }

  /** A PoolCreated event touches only the factory, the bundle, the tokens and the pools. */
  lemma NewPoolFrame(st: Store, ev: PoolCreatedLog, meta: TokenMetadata)
    ensures var r := NewPoolResult(st, ev, meta);
      r == st.(factory := r.factory, bundle := r.bundle, tokens := r.tokens, pools := r.pools)
  {
  }

  /** Under registered pools, a token that is not stored holds no pool, so its pools' reserves sum to zero. */
  lemma UnknownTokenHoldsNothing(factory: Option<FlashLoanFactory>, tokens: map<Address, Token>,
                                 pools: map<Address, Pool>, t: Address)
    requires PoolsRegistered(factory, tokens, pools) && t !in tokens
    ensures Sum(pools, ReserveOf(t)) == 0.0
  {
    SumKeysZero(pools, pools.Keys, ReserveOf(t));
  }

  /**
   * Registering a pool that is not yet stored keeps the liquidity sums: the
   * new pool contributes nothing, and a new token has no liquidity because
   * no stored pool holds it.
   */
  lemma NewPoolKeepsLiquidity(st: Store, ev: PoolCreatedLog, meta: TokenMetadata)
    requires ev.pool !in st.pools
    requires PoolsRegistered(st.factory, st.tokens, st.pools)
    requires LiquidityMatches(st.factory, st.tokens, st.pools)
    ensures var r := NewPoolResult(st, ev, meta);
      PoolsRegistered(r.factory, r.tokens, r.pools) && LiquidityMatches(r.factory, r.tokens, r.pools)
  {
    var r := NewPoolResult(st, ev, meta);
    if r.pools != st.pools {
      var pool := NewPool(ev.token, ev.block);
      assert r.pools == st.pools[ev.pool := pool];
      SumInsert(st.pools, TrackedReserve, ev.pool, pool);
      if st.factory.None? {
        SumKeysZero(st.pools, st.pools.Keys, TrackedReserve);
      }
      forall t | t in r.tokens
        ensures r.tokens[t].totalLiquidity == Sum(r.pools, ReserveOf(t))
      {
        SumInsert(st.pools, ReserveOf(t), ev.pool, pool);
        if t !in st.tokens {
          UnknownTokenHoldsNothing(st.factory, st.tokens, st.pools, t);
        }
      }
    } else if st.factory.None? {
      SumKeysZero(st.pools, st.pools.Keys, TrackedReserve);
    }
  }
}
