/**
 * The reserve syncs and the flash-loan handler of src/mappings/core.ts.
 *
 * A sync rewrites a pool's (or pair's) reserves, re-prices its token(s)
 * and moves the factory's tracked liquidity from the old contribution to
 * the new one. A flash loan adds its volume to the token, the pool, the
 * factory and the four time buckets, and appends a FlashLoan record to its
 * transaction.
 *
 * The price oracle (getEthPriceInUSD, findEthPerToken and the tracked
 * liquidity functions) is not part of this model: its results for the event
 * are parameters of the handlers.
 */
module Accounting {
  import opened Schema
  import opened Sums
  import opened Records
  import opened Liquidity
  import opened DayUpdates

  /** Division guarded against a zero divisor, which yields zero instead. */
  function GuardedDiv(numerator: real, divisor: real): (q: real)
    ensures divisor == 0.0 ==> q == 0.0
    ensures divisor != 0.0 ==> q * divisor == numerator
  {
    if divisor == 0.0 then 0.0 else numerator / divisor
  }

  // ---------------------------------------------------------- handlePoolSync

  /**
   * The store after a pool's Sync event, given the oracle's ETH price, the
   * token's new ETH price and the pool's tracked liquidity in USD: the pool
   * takes the new reserve, a zero token price, its tracked reserve in ETH
   * and its reserve in ETH and USD; the token's liquidity moves from the old
   * reserve to the new one; the factory's tracked ETH liquidity moves from
   * the pool's old tracked reserve to the new one and is revalued in USD;
   * the bundle takes the new ETH price.
   */
  function PoolSyncResult(st: Store, ev: PoolSyncLog, convert: (nat, nat) -> real,
                          ethPrice: real, derivedETH: real, trackedLiquidityUSD: real): Store
    requires PoolLoadable(st, ev.address)
  {
    var pool := st.pools[ev.address];
    var token := st.tokens[pool.token];
    var factory := st.factory.value;
    var reserve := convert(ev.reserve, token.decimals);
    var tracked := GuardedDiv(trackedLiquidityUSD, ethPrice);
    var liquidityETH := factory.totalLiquidityETH - pool.trackedReserveETH + tracked;
    st.(pools := st.pools[ev.address := pool.(reserve := reserve, tokenPrice := 0.0, trackedReserveETH := tracked,
                                              reserveETH := reserve * derivedETH,
                                              reserveUSD := reserve * derivedETH * ethPrice)],
        tokens := st.tokens[pool.token := token.(totalLiquidity := token.totalLiquidity - pool.reserve + reserve,
                                                 derivedETH := derivedETH)],
        factory := Some(factory.(totalLiquidityETH := liquidityETH, totalLiquidityUSD := liquidityETH * ethPrice)),
        bundle := Some(Bundle(ethPrice)))
  }

  /** `handlePoolSync`, with the saves folded into the returned store. */
  method HandlePoolSync(st: Store, ev: PoolSyncLog, convert: (nat, nat) -> real,
                        ethPrice: real, derivedETH: real, trackedLiquidityUSD: real) returns (st': Store)
    requires PoolLoadable(st, ev.address)
    ensures st' == PoolSyncResult(st, ev, convert, ethPrice, derivedETH, trackedLiquidityUSD)
  {
    var pool := st.pools[ev.address];
    var token := st.tokens[pool.token];
    var factory := st.factory.value;

    // core.ts:279-280: the pool's old tracked reserve leaves the factory's ETH total
    factory := factory.(totalLiquidityETH := factory.totalLiquidityETH - pool.trackedReserveETH);

    // core.ts:282-283: the pool's old reserve leaves the token's liquidity
    token := token.(totalLiquidity := token.totalLiquidity - pool.reserve);

    pool := pool.(reserve := convert(ev.reserve, token.decimals));
    pool := pool.(tokenPrice := 0.0);

    // core.ts:291-294: the bundle takes the oracle's ETH price
    var bundle := st.bundle.value.(ethPrice := ethPrice);

    token := token.(derivedETH := derivedETH);

    // core.ts:299-307: the oracle's tracked USD value in ETH, zero at a zero ETH price
    var trackedLiquidityETH: real;
    if bundle.ethPrice != 0.0 {
      trackedLiquidityETH := trackedLiquidityUSD / bundle.ethPrice;
    } else {
      trackedLiquidityETH := 0.0;
    }

    // core.ts:309-313: the pool's own values come from the new reserve at the token's derived price
    pool := pool.(trackedReserveETH := trackedLiquidityETH);
    pool := pool.(reserveETH := pool.reserve * token.derivedETH);
    pool := pool.(reserveUSD := pool.reserveETH * bundle.ethPrice);

    // core.ts:315-317: the factory's totals take only the tracked value
    factory := factory.(totalLiquidityETH := factory.totalLiquidityETH + trackedLiquidityETH);
    factory := factory.(totalLiquidityUSD := factory.totalLiquidityETH * bundle.ethPrice);

    // core.ts:319-320: the pool's new reserve joins the token's liquidity
    token := token.(totalLiquidity := token.totalLiquidity + pool.reserve);

    // core.ts:322-325: pool, factory, token and bundle are written back
    st' := st.(pools := st.pools[ev.address := pool], factory := Some(factory),
               tokens := st.tokens[pool.token := token], bundle := Some(bundle));
    ghost var r := PoolSyncResult(st, ev, convert, ethPrice, derivedETH, trackedLiquidityUSD);
    assert factory == r.factory.value;
    assert pool == r.pools[ev.address];
  }

  /**
   * A pool sync sets the new reserve and prices consistently: the reserve
   * in ETH is the reserve at the token's ETH price, the USD values are the
   * ETH values at the ETH price, the tracked reserve converts the tracked
   * USD liquidity to ETH (zero while the ETH price is zero), and only the
   * synced pool, its token, the factory and the bundle change.
   */
  lemma PoolSyncPrices(st: Store, ev: PoolSyncLog, convert: (nat, nat) -> real,
                       ethPrice: real, derivedETH: real, trackedLiquidityUSD: real)
    requires PoolLoadable(st, ev.address)
    ensures var tokenId := st.pools[ev.address].token;
      var r := PoolSyncResult(st, ev, convert, ethPrice, derivedETH, trackedLiquidityUSD);
      var pool := r.pools[ev.address];
      && r == st.(pools := r.pools, tokens := r.tokens, factory := r.factory, bundle := r.bundle)
      && pool.reserve == convert(ev.reserve, st.tokens[tokenId].decimals) && pool.tokenPrice == 0.0
      && pool.reserveETH == pool.reserve * derivedETH && pool.reserveUSD == pool.reserveETH * ethPrice
      && (ethPrice == 0.0 ==> pool.trackedReserveETH == 0.0)
      && (ethPrice != 0.0 ==> pool.trackedReserveETH * ethPrice == trackedLiquidityUSD)
      && r.tokens[tokenId].derivedETH == derivedETH
      && r.factory.Some? && r.factory.value.totalLiquidityUSD == r.factory.value.totalLiquidityETH * ethPrice
      && r.bundle == Some(Bundle(ethPrice))
      && r.pools.Keys == st.pools.Keys && r.tokens.Keys == st.tokens.Keys
      && (forall p :: p in st.pools && p != ev.address ==> r.pools[p] == st.pools[p])
      && (forall t :: t in st.tokens && t != tokenId ==> r.tokens[t] == st.tokens[t])
  {
  }

  /**
   * Subtracting the pool's old contributions and adding its new ones keeps
   * the factory's tracked liquidity the sum of the pools' tracked reserves
   * and every token's liquidity the sum of its pools' reserves.
   */
  lemma PoolSyncKeepsLiquidity(st: Store, ev: PoolSyncLog, convert: (nat, nat) -> real,
                               ethPrice: real, derivedETH: real, trackedLiquidityUSD: real)
    requires PoolLoadable(st, ev.address)
    ensures var r := PoolSyncResult(st, ev, convert, ethPrice, derivedETH, trackedLiquidityUSD);
      && (LiquidityMatches(st.factory, st.tokens, st.pools) ==> LiquidityMatches(r.factory, r.tokens, r.pools))
      && (PoolsRegistered(st.factory, st.tokens, st.pools) ==> PoolsRegistered(r.factory, r.tokens, r.pools))
  {
    var r := PoolSyncResult(st, ev, convert, ethPrice, derivedETH, trackedLiquidityUSD);
    var pool' := r.pools[ev.address];
    assert r.pools == st.pools[ev.address := pool'];
    if LiquidityMatches(st.factory, st.tokens, st.pools) {
      SumUpdate(st.pools, TrackedReserve, ev.address, pool');
      forall t | t in r.tokens
        ensures r.tokens[t].totalLiquidity == Sum(r.pools, ReserveOf(t))
      {
        SumUpdate(st.pools, ReserveOf(t), ev.address, pool');
      }
    }
  }

  // ---------------------------------------------------------- handlePairSync

  /** What handlePairSync loads without a null check: the pair, its two tokens, the Uniswap factory and the bundle. */
  predicate PairLoadable(st: Store, address: Address) {
    && address in st.pairs
    && st.pairs[address].token0 in st.tokens && st.pairs[address].token1 in st.tokens
    && st.uniswapFactory.Some? && st.bundle.Some?
  }

  /**
   * The store after a Uniswap pair's Sync event, given the oracle's ETH
   * price, the two tokens' new ETH prices and the pair's tracked liquidity
   * in USD: the pair takes the new reserves, each token's price in the
   * other (zero against an empty reserve) and its ETH and USD values; the
   * Uniswap factory's tracked liquidity moves from the pair's old tracked
   * reserve to the new one; both tokens are re-priced, the second saved
   * last; the bundle takes the new ETH price.
   */
  function PairSyncResult(st: Store, ev: PairSyncLog, convert: (nat, nat) -> real, ethPrice: real,
                          derivedETH0: real, derivedETH1: real, trackedLiquidityUSD: real): Store
    requires PairLoadable(st, ev.address)
  {
    var pair := st.pairs[ev.address];
    var token0 := st.tokens[pair.token0];
    var token1 := st.tokens[pair.token1];
    var factory := st.uniswapFactory.value;
    var reserve0 := convert(ev.reserve0, token0.decimals);
    var reserve1 := convert(ev.reserve1, token1.decimals);
    var tracked := GuardedDiv(trackedLiquidityUSD, ethPrice);
    var reserveETH := reserve0 * derivedETH0 + reserve1 * derivedETH1;
    var liquidityETH := factory.totalLiquidityETH - pair.trackedReserveETH + tracked;
    st.(pairs := st.pairs[ev.address := pair.(reserve0 := reserve0, reserve1 := reserve1,
                                              token0Price := GuardedDiv(reserve0, reserve1),
                                              token1Price := GuardedDiv(reserve1, reserve0),
                                              trackedReserveETH := tracked, reserveETH := reserveETH,
                                              reserveUSD := reserveETH * ethPrice)],
        bundle := Some(Bundle(ethPrice)),
        tokens := st.tokens[pair.token0 := token0.(derivedETH := derivedETH0)][pair.token1 := token1.(derivedETH := derivedETH1)],
        uniswapFactory := Some(factory.(totalLiquidityETH := liquidityETH, totalLiquidityUSD := liquidityETH * ethPrice)))
  }

  /** `handlePairSync`, with the saves folded into the returned store. */
  method HandlePairSync(st: Store, ev: PairSyncLog, convert: (nat, nat) -> real, ethPrice: real,
                        derivedETH0: real, derivedETH1: real, trackedLiquidityUSD: real) returns (st': Store)
    requires PairLoadable(st, ev.address)
    ensures st' == PairSyncResult(st, ev, convert, ethPrice, derivedETH0, derivedETH1, trackedLiquidityUSD)
  {
    var pair := st.pairs[ev.address];
    var token0 := st.tokens[pair.token0];
    var token1 := st.tokens[pair.token1];
    var factory := st.uniswapFactory.value;

    // core.ts:223-224: the pair's old tracked reserve leaves the Uniswap factory's ETH total
    factory := factory.(totalLiquidityETH := factory.totalLiquidityETH - pair.trackedReserveETH);

    pair := pair.(reserve0 := convert(ev.reserve0, token0.decimals));
    pair := pair.(reserve1 := convert(ev.reserve1, token1.decimals));

    if pair.reserve1 != 0.0 {
      pair := pair.(token0Price := pair.reserve0 / pair.reserve1);
    } else {
      pair := pair.(token0Price := 0.0);
    }
    if pair.reserve0 != 0.0 {
      pair := pair.(token1Price := pair.reserve1 / pair.reserve0);
    } else {
      pair := pair.(token1Price := 0.0);
    }

    // core.ts:236-239: the bundle takes the oracle's ETH price
    var bundle := st.bundle.value.(ethPrice := ethPrice);

    token0 := token0.(derivedETH := derivedETH0);
    token1 := token1.(derivedETH := derivedETH1);

    // core.ts:246-254: the oracle's tracked value, zero at a zero ETH price
    var trackedLiquidityETH: real;
    if bundle.ethPrice != 0.0 {
      trackedLiquidityETH := trackedLiquidityUSD / bundle.ethPrice;
    } else {
      trackedLiquidityETH := 0.0;
    }

    // core.ts:256-261: the pair's own values come from both reserves at the tokens' derived prices
    pair := pair.(trackedReserveETH := trackedLiquidityETH);
    pair := pair.(reserveETH := pair.reserve0 * token0.derivedETH + pair.reserve1 * token1.derivedETH);
    pair := pair.(reserveUSD := pair.reserveETH * bundle.ethPrice);

    // core.ts:263-265: the Uniswap factory's totals take only the tracked value
    factory := factory.(totalLiquidityETH := factory.totalLiquidityETH + trackedLiquidityETH);
    factory := factory.(totalLiquidityUSD := factory.totalLiquidityETH * bundle.ethPrice);

    // core.ts:267-271: pair, bundle, factory and both tokens are written back
    st' := st.(pairs := st.pairs[ev.address := pair], bundle := Some(bundle), uniswapFactory := Some(factory),
               tokens := st.tokens[pair.token0 := token0][pair.token1 := token1]);
    ghost var r := PairSyncResult(st, ev, convert, ethPrice, derivedETH0, derivedETH1, trackedLiquidityUSD);
    assert factory == r.uniswapFactory.value;
    assert pair == r.pairs[ev.address];
  }

  /**
   * A pair sync prices each token in the other by the reserves' ratio (zero
   * against an empty reserve), values the reserves in ETH at the tokens'
   * new ETH prices and in USD at the ETH price, and changes nothing outside
   * the pair, its two tokens' ETH prices, the Uniswap factory and the bundle.
   */
  lemma PairSyncPrices(st: Store, ev: PairSyncLog, convert: (nat, nat) -> real, ethPrice: real,
                       derivedETH0: real, derivedETH1: real, trackedLiquidityUSD: real)
    requires PairLoadable(st, ev.address)
    ensures var r := PairSyncResult(st, ev, convert, ethPrice, derivedETH0, derivedETH1, trackedLiquidityUSD);
      var pair := r.pairs[ev.address];
      && r == st.(pairs := r.pairs, tokens := r.tokens, uniswapFactory := r.uniswapFactory, bundle := r.bundle)
      && (pair.reserve1 != 0.0 ==> pair.token0Price * pair.reserve1 == pair.reserve0)
      && (pair.reserve1 == 0.0 ==> pair.token0Price == 0.0)
      && (pair.reserve0 != 0.0 ==> pair.token1Price * pair.reserve0 == pair.reserve1)
      && (pair.reserve0 == 0.0 ==> pair.token1Price == 0.0)
      && pair.reserveETH == pair.reserve0 * derivedETH0 + pair.reserve1 * derivedETH1
      && pair.reserveUSD == pair.reserveETH * ethPrice
      && r.uniswapFactory.Some?
      && r.uniswapFactory.value.totalLiquidityUSD == r.uniswapFactory.value.totalLiquidityETH * ethPrice
      && r.tokens[st.pairs[ev.address].token1].derivedETH == derivedETH1
      && (st.pairs[ev.address].token0 != st.pairs[ev.address].token1 ==>
            r.tokens[st.pairs[ev.address].token0].derivedETH == derivedETH0)
      && r.tokens.Keys == st.tokens.Keys
      && (forall t :: t in st.tokens ==> r.tokens[t] == st.tokens[t].(derivedETH := r.tokens[t].derivedETH))
  {
  }

  /**
   * A pair sync keeps the Uniswap factory's tracked liquidity the sum of
   * the pairs' tracked reserves, and leaves the flash-loan pools' liquidity
   * sums alone.
   */
  lemma PairSyncKeepsLiquidity(st: Store, ev: PairSyncLog, convert: (nat, nat) -> real, ethPrice: real,
                               derivedETH0: real, derivedETH1: real, trackedLiquidityUSD: real)
    requires PairLoadable(st, ev.address)
    ensures var r := PairSyncResult(st, ev, convert, ethPrice, derivedETH0, derivedETH1, trackedLiquidityUSD);
      && (PairLiquidityMatches(st.uniswapFactory, st.pairs) ==> PairLiquidityMatches(r.uniswapFactory, r.pairs))
      && (LiquidityMatches(st.factory, st.tokens, st.pools) ==> LiquidityMatches(r.factory, r.tokens, r.pools))
      && (PoolsRegistered(st.factory, st.tokens, st.pools) ==> PoolsRegistered(r.factory, r.tokens, r.pools))
  {
    var r := PairSyncResult(st, ev, convert, ethPrice, derivedETH0, derivedETH1, trackedLiquidityUSD);
    SumUpdate(st.pairs, PairTrackedReserve, ev.address, r.pairs[ev.address]);
    assert SameContributions(st.pools, r.pools);
    PairSyncPrices(st, ev, convert, ethPrice, derivedETH0, derivedETH1, trackedLiquidityUSD);
    CountersKeepLiquidity(st.factory, r.factory, st.tokens, r.tokens, st.pools, r.pools);
  }

  // --------------------------------------------------------- handleFlashLoan

  /** The amounts a flash loan adds to the volume counters. */
  datatype LoanAmounts = LoanAmounts(
    amountTotal: real,
    derivedAmountETH: real,
    derivedAmountUSD: real,
    trackedAmountUSD: real,
    trackedAmountETH: real)

  /**
   * The volume a flash loan of `amount` with `premium` contributes, valued
   * at the token's ETH price and the ETH/USD price. Tracked USD volume is
   * the derived one; tracked ETH volume is the USD volume converted back,
   * or zero when the ETH/USD price is zero.
   */
  function LoanAmountsOf(amount: real, premium: real, derivedETH: real, ethPrice: real): (a: LoanAmounts)
    ensures a.amountTotal == amount + premium
    ensures a.derivedAmountUSD == derivedETH * a.amountTotal * ethPrice
    ensures a.trackedAmountUSD == a.derivedAmountUSD
    ensures ethPrice == 0.0 ==> a.trackedAmountETH == 0.0 && a.trackedAmountUSD == 0.0
    ensures ethPrice != 0.0 ==> a.trackedAmountETH == derivedETH * a.amountTotal
    ensures 0.0 <= amount && 0.0 <= premium && 0.0 <= derivedETH && 0.0 <= ethPrice ==>
      0.0 <= a.amountTotal && 0.0 <= a.trackedAmountUSD && 0.0 <= a.derivedAmountUSD && 0.0 <= a.trackedAmountETH
  {
    var amountTotal := amount + premium;
    var derivedAmountETH := derivedETH * amountTotal;
    var derivedAmountUSD := derivedAmountETH * ethPrice;
    var trackedAmountUSD := derivedAmountUSD;
    var trackedAmountETH := if ethPrice == 0.0 then 0.0 else trackedAmountUSD / ethPrice;
    LoanAmounts(amountTotal, derivedAmountETH, derivedAmountUSD, trackedAmountUSD, trackedAmountETH)
  }

  /** The token, the pool and the factory count the loan's volume and one more transaction. */
  function LoanCounted(st: Store, address: Address, a: LoanAmounts): (st': Store)
    requires PoolLoadable(st, address)
    ensures PoolLoadable(st', address)
  {
    var pool := st.pools[address];
    var token := st.tokens[pool.token];
    var factory := st.factory.value;
    st.(tokens := st.tokens[pool.token := token.(tradeVolume := token.tradeVolume + a.amountTotal,
                                                 tradeVolumeUSD := token.tradeVolumeUSD + a.trackedAmountUSD,
                                                 untrackedVolumeUSD := token.untrackedVolumeUSD + a.derivedAmountUSD,
                                                 txCount := token.txCount + 1)],
        pools := st.pools[address := pool.(volumeUSD := pool.volumeUSD + a.trackedAmountUSD,
                                           volumeToken := pool.volumeToken + a.amountTotal,
                                           untrackedVolumeUSD := pool.untrackedVolumeUSD + a.derivedAmountUSD,
                                           txCount := pool.txCount + 1)],
        factory := Some(factory.(totalVolumeUSD := factory.totalVolumeUSD + a.trackedAmountUSD,
                                 totalVolumeETH := factory.totalVolumeETH + a.trackedAmountETH,
                                 untrackedVolumeUSD := factory.untrackedVolumeUSD + a.derivedAmountUSD,
                                 txCount := factory.txCount + 1)))
  }

  /** The FlashLoan record `<hash>-n` appended to the event's transaction, created when absent. */
  function LoanRecorded(st: Store, ev: FlashLoanLog, amount: real, premium: real, amountUSD: real): Store {
    var tx := TxOrNew(st.transactions, ev.hash, ev.block);
    var id := EventId(ev.hash, |tx.flashLoans|);
    st.(flashLoans := st.flashLoans[id := FlashLoan(ev.hash, ev.address, tx.timestamp, ev.target, ev.initiator, ev.asset,
                                                    amount, premium, ev.txFrom, ev.logIndex, amountUSD)],
        transactions := st.transactions[ev.hash := tx.(flashLoans := tx.flashLoans + [id])])
  }

  function FlashLoanDayWithLoan(d: FlashLoanDayData, a: LoanAmounts): FlashLoanDayData {
    d.(dailyVolumeUSD := d.dailyVolumeUSD + a.trackedAmountUSD,
       dailyVolumeETH := d.dailyVolumeETH + a.trackedAmountETH,
       dailyVolumeUntracked := d.dailyVolumeUntracked + a.derivedAmountUSD)
  }

  function PoolDayWithLoan(d: PoolDayData, a: LoanAmounts): PoolDayData {
    d.(dailyVolumeToken := d.dailyVolumeToken + a.amountTotal,
       dailyVolumeUSD := d.dailyVolumeUSD + a.trackedAmountUSD)
  }

  function PoolHourWithLoan(d: PoolHourData, a: LoanAmounts): PoolHourData {
    d.(hourlyVolumeToken := d.hourlyVolumeToken + a.amountTotal,
       hourlyVolumeUSD := d.hourlyVolumeUSD + a.trackedAmountUSD)
  }

  /** An amount valued at a price. */
  function Priced(amount: real, price: real): real {
    amount * price
  }

  function TokenDayWithLoan(d: TokenDayData, a: LoanAmounts, derivedETH: real, ethPrice: real): TokenDayData {
    d.(dailyVolumeToken := d.dailyVolumeToken + a.amountTotal,
       dailyVolumeETH := d.dailyVolumeETH + Priced(a.amountTotal, derivedETH),
       dailyVolumeUSD := d.dailyVolumeUSD + Priced(Priced(a.amountTotal, derivedETH), ethPrice))
  }

  /** The four buckets of the event's pool, token and time after the loan's volume is added to them. */
  function LoanBuckets(st: Store, address: Address, tokenId: Address, timestamp: nat, a: LoanAmounts,
                       derivedETH: real, ethPrice: real): Store
    requires BucketsPresent(st, address, tokenId, timestamp)
  {
    var day := BucketIndex(timestamp, DAY_SECONDS);
    var poolDay := BucketKey(address, day);
    var poolHour := BucketKey(address, BucketIndex(timestamp, HOUR_SECONDS));
    var tokenDay := BucketKey(tokenId, day);
    st.(flashLoanDayData := st.flashLoanDayData[day := FlashLoanDayWithLoan(st.flashLoanDayData[day], a)],
        poolDayData := st.poolDayData[poolDay := PoolDayWithLoan(st.poolDayData[poolDay], a)],
        poolHourData := st.poolHourData[poolHour := PoolHourWithLoan(st.poolHourData[poolHour], a)],
        tokenDayData := st.tokenDayData[tokenDay := TokenDayWithLoan(st.tokenDayData[tokenDay], a, derivedETH, ethPrice)])
  }

  /** The loan's amounts, from its raw amount and premium at the token's decimals and the stored prices. */
  function LoanAmountsOfEvent(st: Store, ev: FlashLoanLog, convert: (nat, nat) -> real): LoanAmounts
    requires PoolLoadable(st, ev.address)
  {
    var token := st.tokens[st.pools[ev.address].token];
    LoanAmountsOf(convert(ev.amount, token.decimals), convert(ev.premium, token.decimals), token.derivedETH,
                  st.bundle.value.ethPrice)
  }

  /** The entities a FlashLoan event saves before its buckets: token, pool, factory, the record and its transaction. */
  function LoanSaved(st: Store, ev: FlashLoanLog, convert: (nat, nat) -> real): (st': Store)
    requires PoolLoadable(st, ev.address)
    ensures PoolLoadable(st', ev.address) && st'.pools[ev.address].token == st.pools[ev.address].token
  {
    var token := st.tokens[st.pools[ev.address].token];
    var a := LoanAmountsOfEvent(st, ev, convert);
    var amountUSD := if a.trackedAmountUSD == 0.0 then a.derivedAmountUSD else a.trackedAmountUSD;
    LoanRecorded(LoanCounted(st, ev.address, a), ev, convert(ev.amount, token.decimals),
                 convert(ev.premium, token.decimals), amountUSD)
  }

  /**
   * The store after a pool's FlashLoan event: the loan's amount plus
   * premium, valued at the stored prices, is counted on token, pool and
   * factory; a FlashLoan record is appended to the transaction; the four
   * buckets are touched and take the loan's volume.
   */
  function FlashLoanResult(st: Store, ev: FlashLoanLog, convert: (nat, nat) -> real): Store
    requires PoolLoadable(st, ev.address)
  {
    var tokenId := st.pools[ev.address].token;
    var saved := LoanSaved(st, ev, convert);
    var touched := TouchBuckets(saved, ev.address, tokenId, saved.tokens[tokenId], ev.block.timestamp);
    LoanBuckets(touched, ev.address, tokenId, ev.block.timestamp, LoanAmountsOfEvent(st, ev, convert),
                st.tokens[tokenId].derivedETH, st.bundle.value.ethPrice)
  }

  /** The amounts block of handleFlashLoan: the loan's volume and its derived and tracked values. */
  method ComputeLoanAmounts(amount: real, premium: real, derivedETH: real, ethPrice: real) returns (a: LoanAmounts)
    ensures a == LoanAmountsOf(amount, premium, derivedETH, ethPrice)
  {
    // core.ts:435-436: the volume is the amount plus the premium
    var amountTotal := amount + premium;

    // core.ts:441-443: that volume in ETH at the token's derived price, then in USD
    var derivedAmountETH := derivedETH * amountTotal;
    var derivedAmountUSD := derivedAmountETH * ethPrice;

    // core.ts:445-453: the tracked USD is the derived USD; its ETH value is guarded against a zero price
    var trackedAmountUSD := derivedAmountUSD;

    var trackedAmountETH: real;
    if ethPrice == 0.0 {
      trackedAmountETH := 0.0;
    } else {
      trackedAmountETH := trackedAmountUSD / ethPrice;
    }
    a := LoanAmounts(amountTotal, derivedAmountETH, derivedAmountUSD, trackedAmountUSD, trackedAmountETH);
  }

  /** The counting block of handleFlashLoan: token, pool and factory take the loan's volume and one more transaction. */
  method CountLoan(st: Store, address: Address, a: LoanAmounts) returns (st': Store)
    requires PoolLoadable(st, address)
    ensures st' == LoanCounted(st, address, a)
  {
    var pool := st.pools[address];
    var token := st.tokens[pool.token];

    // core.ts:455-458: the token's three volume totals grow by the loan
    token := token.(tradeVolume := token.tradeVolume + a.amountTotal,
                    tradeVolumeUSD := token.tradeVolumeUSD + a.trackedAmountUSD,
                    untrackedVolumeUSD := token.untrackedVolumeUSD + a.derivedAmountUSD);

    // core.ts:460-461: one more token transaction
    token := token.(txCount := token.txCount + 1);

    // core.ts:463-467: the pool's volumes grow by the loan, and it counts one more transaction
    pool := pool.(volumeUSD := pool.volumeUSD + a.trackedAmountUSD,
                  volumeToken := pool.volumeToken + a.amountTotal,
                  untrackedVolumeUSD := pool.untrackedVolumeUSD + a.derivedAmountUSD,
                  txCount := pool.txCount + 1);

    // core.ts:470-475: the factory's tracked and untracked volumes grow, and it counts one more transaction
    var factory := st.factory.value;
    factory := factory.(totalVolumeUSD := factory.totalVolumeUSD + a.trackedAmountUSD,
                        totalVolumeETH := factory.totalVolumeETH + a.trackedAmountETH,
                        untrackedVolumeUSD := factory.untrackedVolumeUSD + a.derivedAmountUSD,
                        txCount := factory.txCount + 1);

    // core.ts:477-480: pool, token and factory are written back
    st' := st.(pools := st.pools[address := pool], tokens := st.tokens[pool.token := token], factory := Some(factory));
  }

  /** The record block of handleFlashLoan: get or create the transaction and append the FlashLoan record to it. */
  method RecordLoan(st: Store, ev: FlashLoanLog, amount: real, premium: real, amountUSD: real) returns (st': Store)
    ensures st' == LoanRecorded(st, ev, amount, premium, amountUSD)
  {
    var transaction: Transaction;
    if ev.hash in st.transactions {
      transaction := st.transactions[ev.hash];
    } else {
      transaction := Transaction(ev.block.number, ev.block.timestamp, [], [], []);
    }
    var flashLoans := transaction.flashLoans;
    var flashLoanId := EventId(ev.hash, |flashLoans|);
    var flashLoan := FlashLoan(ev.hash, ev.address, transaction.timestamp, ev.target, ev.initiator, ev.asset,
                               amount, premium, ev.txFrom, ev.logIndex, amountUSD);
    st' := st.(flashLoans := st.flashLoans[flashLoanId := flashLoan]);

    // core.ts:515-521: the new id is appended to the transaction's list, which is written back
    flashLoans := flashLoans + [flashLoanId];
    transaction := transaction.(flashLoans := flashLoans);
    st' := st'.(transactions := st'.transactions[ev.hash := transaction]);
  }

  /** The bucket block of handleFlashLoan: the touched buckets take the loan's volume and are saved. */
  method AddLoanVolumes(st: Store, address: Address, tokenId: Address, timestamp: nat, a: LoanAmounts,
                        derivedETH: real, ethPrice: real, poolDayData: PoolDayData, poolHourData: PoolHourData,
                        flashLoanDayData: FlashLoanDayData, tokenDayData: TokenDayData) returns (st': Store)
    requires BucketsRead(st, address, tokenId, timestamp, poolDayData, poolHourData, flashLoanDayData, tokenDayData)
    ensures st' == LoanBuckets(st, address, tokenId, timestamp, a, derivedETH, ethPrice)
  {
    var dayID := timestamp / DAY_SECONDS;
    var hourIndex := timestamp / HOUR_SECONDS;
    assert dayID == BucketIndex(timestamp, DAY_SECONDS) && hourIndex == BucketIndex(timestamp, HOUR_SECONDS);

    // core.ts:529-533: the factory's day bucket takes the tracked USD and ETH and the untracked USD
    var flashLoanDay := flashLoanDayData.(dailyVolumeUSD := flashLoanDayData.dailyVolumeUSD + a.trackedAmountUSD,
                                          dailyVolumeETH := flashLoanDayData.dailyVolumeETH + a.trackedAmountETH,
                                          dailyVolumeUntracked := flashLoanDayData.dailyVolumeUntracked + a.derivedAmountUSD);
    st' := st.(flashLoanDayData := st.flashLoanDayData[dayID := flashLoanDay]);

    // core.ts:535-538: the pool's day bucket takes the loan in tokens and in tracked USD
    var poolDay := poolDayData.(dailyVolumeToken := poolDayData.dailyVolumeToken + a.amountTotal,
                                dailyVolumeUSD := poolDayData.dailyVolumeUSD + a.trackedAmountUSD);
    st' := st'.(poolDayData := st'.poolDayData[BucketKey(address, dayID) := poolDay]);

    // core.ts:540-543: the pool's hour bucket takes the same two amounts
    var poolHour := poolHourData.(hourlyVolumeToken := poolHourData.hourlyVolumeToken + a.amountTotal,
                                  hourlyVolumeUSD := poolHourData.hourlyVolumeUSD + a.trackedAmountUSD);
    st' := st'.(poolHourData := st'.poolHourData[BucketKey(address, hourIndex) := poolHour]);

    // core.ts:545-550: the token's day bucket takes the loan in tokens, ETH and USD
    var tokenDay := AddTokenDayVolume(tokenDayData, a, derivedETH, ethPrice);
    st' := st'.(tokenDayData := st'.tokenDayData[BucketKey(tokenId, dayID) := tokenDay]);
  }

  /** The token bucket's share of the bucket block: the loan's volume in tokens, in ETH and in USD. */
  method AddTokenDayVolume(tokenDayData: TokenDayData, a: LoanAmounts, derivedETH: real, ethPrice: real)
    returns (tokenDay: TokenDayData)
    ensures tokenDay == TokenDayWithLoan(tokenDayData, a, derivedETH, ethPrice)
  {
    tokenDay := tokenDayData.(dailyVolumeToken := tokenDayData.dailyVolumeToken + a.amountTotal,
                              dailyVolumeETH := tokenDayData.dailyVolumeETH + Priced(a.amountTotal, derivedETH),
                              dailyVolumeUSD := tokenDayData.dailyVolumeUSD + Priced(Priced(a.amountTotal, derivedETH), ethPrice));
  }

  /** The first half of handleFlashLoan: the loan's amounts, counted on token, pool and factory, and its record. */
  method SaveLoan(st: Store, ev: FlashLoanLog, convert: (nat, nat) -> real) returns (saved: Store, a: LoanAmounts)
    requires PoolLoadable(st, ev.address)
    ensures saved == LoanSaved(st, ev, convert) && a == LoanAmountsOfEvent(st, ev, convert)
  {
    var pool := st.pools[ev.address];
    var token := st.tokens[pool.token];
    var amount := convert(ev.amount, token.decimals);
    var premium := convert(ev.premium, token.decimals);

    // core.ts:438: the stored ETH price values the loan
    var bundle := st.bundle.value;
    a := ComputeLoanAmounts(amount, premium, token.derivedETH, bundle.ethPrice);

    saved := CountLoan(st, ev.address, a);

    // core.ts:511-512: the record's USD value is the tracked one, or the derived one when that is zero
    saved := RecordLoan(saved, ev, amount, premium,
                        if a.trackedAmountUSD == 0.0 then a.derivedAmountUSD else a.trackedAmountUSD);
  }

  /** `handleFlashLoan`: its blocks in the source's order, with the saves folded into the returned store. */
  method HandleFlashLoan(st: Store, ev: FlashLoanLog, convert: (nat, nat) -> real) returns (st': Store)
    requires PoolLoadable(st, ev.address)
    ensures st' == FlashLoanResult(st, ev, convert)
  {
    var tokenId := st.pools[ev.address].token;
    var derivedETH := st.tokens[tokenId].derivedETH;
    var saved, a := SaveLoan(st, ev, convert);

    // core.ts:523-527: the four buckets are touched before the loan's volume is added to them
    var poolDayData, poolHourData, flashLoanDayData, tokenDayData;
    st', poolDayData, poolHourData, flashLoanDayData, tokenDayData :=
      UpdateBuckets(saved, ev.address, tokenId, saved.tokens[tokenId], ev.block.timestamp);

    st' := AddLoanVolumes(st', ev.address, tokenId, ev.block.timestamp, a, derivedETH, st.bundle.value.ethPrice,
                          poolDayData, poolHourData, flashLoanDayData, tokenDayData);
  }

  // ------------------------------------------------------ flash-loan lemmas

  /** The store a FlashLoan event produces differs from the saved one only in its four buckets. */
  lemma FlashLoanOnlyTouchesBuckets(st: Store, ev: FlashLoanLog, convert: (nat, nat) -> real)
    requires PoolLoadable(st, ev.address)
    ensures var r := FlashLoanResult(st, ev, convert);
      var saved := LoanSaved(st, ev, convert);
      && r.tokens == saved.tokens && r.pools == saved.pools && r.factory == saved.factory && r.bundle == st.bundle
      && r.transactions == saved.transactions && r.flashLoans == saved.flashLoans
      && r.mints == st.mints && r.burns == st.burns
  {
    var tokenId := st.pools[ev.address].token;
    var saved := LoanSaved(st, ev, convert);
    var touched := TouchBuckets(saved, ev.address, tokenId, saved.tokens[tokenId], ev.block.timestamp);
    assert touched.tokens == saved.tokens && touched.transactions == saved.transactions;
  }

  /** Counting a loan rewrites only the volumes and txn counts of one token, one pool and the factory. */
  lemma LoanCountedFrame(st: Store, address: Address, a: LoanAmounts)
    requires PoolLoadable(st, address)
    ensures var c := LoanCounted(st, address, a);
      var tokenId := st.pools[address].token;
      && SameContributions(st.pools, c.pools)
      && c.tokens.Keys == st.tokens.Keys
      && (forall t :: t in st.tokens ==> c.tokens[t].totalLiquidity == st.tokens[t].totalLiquidity)
      && (forall t :: t in st.tokens && t != tokenId ==> c.tokens[t] == st.tokens[t])
      && (forall p :: p in st.pools && p != address ==> c.pools[p] == st.pools[p])
      && c.factory.Some?
      && c.factory.value.totalLiquidityETH == st.factory.value.totalLiquidityETH
      && c.factory.value.poolCount == st.factory.value.poolCount
  {
  }

  /**
   * A flash loan is counted once on its token: one more transaction and the
   * loan's amount plus premium, valued at the stored prices, added to its
   * volumes; no other token changes.
   */
  lemma FlashLoanCountsToken(st: Store, ev: FlashLoanLog, convert: (nat, nat) -> real)
    requires PoolLoadable(st, ev.address)
    ensures var r := FlashLoanResult(st, ev, convert);
      var tokenId := st.pools[ev.address].token;
      var token := st.tokens[tokenId];
      var amount := convert(ev.amount, token.decimals) + convert(ev.premium, token.decimals);
      var usd := token.derivedETH * amount * st.bundle.value.ethPrice;
      && r.tokens.Keys == st.tokens.Keys
      && r.tokens[tokenId].txCount == token.txCount + 1
      && r.tokens[tokenId].tradeVolume == token.tradeVolume + amount
      && r.tokens[tokenId].tradeVolumeUSD == token.tradeVolumeUSD + usd
      && r.tokens[tokenId].untrackedVolumeUSD == token.untrackedVolumeUSD + usd
      && r.tokens[tokenId].totalLiquidity == token.totalLiquidity
      && (forall t :: t in st.tokens && t != tokenId ==> r.tokens[t] == st.tokens[t])
  {
    FlashLoanOnlyTouchesBuckets(st, ev, convert);
    var a := LoanAmountsOfEvent(st, ev, convert);
    LoanCountedFrame(st, ev.address, a);
    assert LoanSaved(st, ev, convert).tokens == LoanCounted(st, ev.address, a).tokens;
  }

  /** A flash loan is counted once on its pool; no other pool changes. */
  lemma FlashLoanCountsPool(st: Store, ev: FlashLoanLog, convert: (nat, nat) -> real)
    requires PoolLoadable(st, ev.address)
    ensures var r := FlashLoanResult(st, ev, convert);
      var token := st.tokens[st.pools[ev.address].token];
      var amount := convert(ev.amount, token.decimals) + convert(ev.premium, token.decimals);
      var usd := token.derivedETH * amount * st.bundle.value.ethPrice;
      var pool := st.pools[ev.address];
      && r.pools.Keys == st.pools.Keys
      && r.pools[ev.address].txCount == pool.txCount + 1
      && r.pools[ev.address].volumeToken == pool.volumeToken + amount
      && r.pools[ev.address].volumeUSD == pool.volumeUSD + usd
      && r.pools[ev.address].untrackedVolumeUSD == pool.untrackedVolumeUSD + usd
      && r.pools[ev.address].reserve == pool.reserve && r.pools[ev.address].token == pool.token
      && (forall p :: p in st.pools && p != ev.address ==> r.pools[p] == st.pools[p])
  {
    FlashLoanOnlyTouchesBuckets(st, ev, convert);
    var a := LoanAmountsOfEvent(st, ev, convert);
    LoanCountedFrame(st, ev.address, a);
    assert LoanSaved(st, ev, convert).pools == LoanCounted(st, ev.address, a).pools;
  }

  /**
   * A flash loan is counted once on the factory: one more transaction and
   * the loan's tracked and untracked values (see LoanAmountsOf: the tracked
   * ETH value is zero when the ETH/USD price is zero) added to its volumes.
   */
  lemma FlashLoanCountsFactory(st: Store, ev: FlashLoanLog, convert: (nat, nat) -> real)
    requires PoolLoadable(st, ev.address)
    ensures var r := FlashLoanResult(st, ev, convert);
      var a := LoanAmountsOfEvent(st, ev, convert);
      var f := st.factory.value;
      && r.factory.Some?
      && r.factory.value.txCount == f.txCount + 1
      && r.factory.value.totalVolumeUSD == f.totalVolumeUSD + a.trackedAmountUSD
      && r.factory.value.totalVolumeETH == f.totalVolumeETH + a.trackedAmountETH
      && r.factory.value.untrackedVolumeUSD == f.untrackedVolumeUSD + a.derivedAmountUSD
      && r.factory.value.poolCount == f.poolCount && r.factory.value.totalLiquidityETH == f.totalLiquidityETH
  {
    FlashLoanOnlyTouchesBuckets(st, ev, convert);
    var a := LoanAmountsOfEvent(st, ev, convert);
    assert LoanSaved(st, ev, convert).factory == LoanCounted(st, ev.address, a).factory;
  }

  /**
   * With a non-negative amount, premium and prices, a flash loan never
   * lowers a volume of the token, the pool or the factory.
   */
  lemma FlashLoanVolumesGrow(st: Store, ev: FlashLoanLog, convert: (nat, nat) -> real)
    requires PoolLoadable(st, ev.address)
    requires var token := st.tokens[st.pools[ev.address].token];
      && 0.0 <= convert(ev.amount, token.decimals) && 0.0 <= convert(ev.premium, token.decimals)
      && 0.0 <= token.derivedETH && 0.0 <= st.bundle.value.ethPrice
    ensures var r := FlashLoanResult(st, ev, convert);
      var tokenId := st.pools[ev.address].token;
      var token, token' := st.tokens[tokenId], r.tokens[tokenId];
      var pool, pool' := st.pools[ev.address], r.pools[ev.address];
      var f, f' := st.factory.value, r.factory.value;
      && token.tradeVolume <= token'.tradeVolume && token.tradeVolumeUSD <= token'.tradeVolumeUSD
      && token.untrackedVolumeUSD <= token'.untrackedVolumeUSD
      && pool.volumeToken <= pool'.volumeToken && pool.volumeUSD <= pool'.volumeUSD
      && pool.untrackedVolumeUSD <= pool'.untrackedVolumeUSD
      && f.totalVolumeUSD <= f'.totalVolumeUSD && f.totalVolumeETH <= f'.totalVolumeETH
      && f.untrackedVolumeUSD <= f'.untrackedVolumeUSD
  {
    FlashLoanOnlyTouchesBuckets(st, ev, convert);
    var a := LoanAmountsOfEvent(st, ev, convert);
    assert 0.0 <= a.amountTotal && 0.0 <= a.trackedAmountUSD && 0.0 <= a.derivedAmountUSD && 0.0 <= a.trackedAmountETH;
  }

  /** Recording a loan stores exactly one new record and extends exactly one transaction's flashLoans list. */
  lemma LoanRecordedShape(st: Store, ev: FlashLoanLog, amount: real, premium: real, amountUSD: real)
    ensures var r := LoanRecorded(st, ev, amount, premium, amountUSD);
      var tx0 := TxOrNew(st.transactions, ev.hash, ev.block);
      var id := EventId(ev.hash, |tx0.flashLoans|);
      && ev.hash in r.transactions
      && r.transactions[ev.hash] == tx0.(flashLoans := tx0.flashLoans + [id])
      && r.transactions.Keys == st.transactions.Keys + {ev.hash}
      && (forall h :: h in st.transactions && h != ev.hash ==> r.transactions[h] == st.transactions[h])
      && r.flashLoans.Keys == st.flashLoans.Keys + {id}
      && (forall x :: x in st.flashLoans && x != id ==> r.flashLoans[x] == st.flashLoans[x])
      && r.flashLoans[id] == FlashLoan(ev.hash, ev.address, tx0.timestamp, ev.target, ev.initiator, ev.asset,
                                       amount, premium, ev.txFrom, ev.logIndex, amountUSD)
      && r.mints == st.mints && r.burns == st.burns
  {
  }

  /** The saved store's records are the recording of the loan over the unchanged transactions and records. */
  lemma RecordedInSaved(st: Store, ev: FlashLoanLog, convert: (nat, nat) -> real)
    requires PoolLoadable(st, ev.address)
    ensures var token := st.tokens[st.pools[ev.address].token];
      var a := LoanAmountsOfEvent(st, ev, convert);
      var r := LoanRecorded(st, ev, convert(ev.amount, token.decimals), convert(ev.premium, token.decimals),
                            a.derivedAmountUSD);
      var saved := LoanSaved(st, ev, convert);
      && saved.transactions == r.transactions && saved.flashLoans == r.flashLoans
      && saved.mints == st.mints && saved.burns == st.burns
  {
  }

  /**
   * A flash loan appends exactly one id, `<hash>-n` with n the length of the
   * transaction's flashLoans list (a fresh transaction when none is stored),
   * and leaves the transaction's mint and burn lists and every other
   * transaction alone.
   */
  lemma FlashLoanAppendsOneId(st: Store, ev: FlashLoanLog, convert: (nat, nat) -> real)
    requires PoolLoadable(st, ev.address)
    ensures var r := FlashLoanResult(st, ev, convert);
      var tx0 := TxOrNew(st.transactions, ev.hash, ev.block);
      && ev.hash in r.transactions
      && r.transactions[ev.hash].flashLoans == tx0.flashLoans + [EventId(ev.hash, |tx0.flashLoans|)]
      && r.transactions[ev.hash].mints == tx0.mints && r.transactions[ev.hash].burns == tx0.burns
      && r.transactions.Keys == st.transactions.Keys + {ev.hash}
      && (forall h :: h in st.transactions && h != ev.hash ==> r.transactions[h] == st.transactions[h])
  {
    FlashLoanOnlyTouchesBuckets(st, ev, convert);
    RecordedInSaved(st, ev, convert);
    var token := st.tokens[st.pools[ev.address].token];
    LoanRecordedShape(st, ev, convert(ev.amount, token.decimals), convert(ev.premium, token.decimals),
                      LoanAmountsOfEvent(st, ev, convert).derivedAmountUSD);
  }

  /**
   * The FlashLoan record stored under the appended id holds the event's
   * pool, amount, premium, log index and sender, valued at the derived USD
   * amount; no other record changes.
   */
  lemma FlashLoanStoresRecord(st: Store, ev: FlashLoanLog, convert: (nat, nat) -> real)
    requires PoolLoadable(st, ev.address)
    ensures var r := FlashLoanResult(st, ev, convert);
      var id := EventId(ev.hash, |TxOrNew(st.transactions, ev.hash, ev.block).flashLoans|);
      var token := st.tokens[st.pools[ev.address].token];
      var amount, premium := convert(ev.amount, token.decimals), convert(ev.premium, token.decimals);
      && r.flashLoans.Keys == st.flashLoans.Keys + {id}
      && (forall x :: x in st.flashLoans && x != id ==> r.flashLoans[x] == st.flashLoans[x])
      && r.flashLoans[id].transaction == ev.hash && r.flashLoans[id].pool == ev.address
      && r.flashLoans[id].amount == amount && r.flashLoans[id].premium == premium
      && r.flashLoans[id].logIndex == ev.logIndex && r.flashLoans[id].from == ev.txFrom
      && r.flashLoans[id].amountUSD == LoanAmountsOfEvent(st, ev, convert).derivedAmountUSD
      && r.mints == st.mints && r.burns == st.burns
  {
    FlashLoanOnlyTouchesBuckets(st, ev, convert);
    RecordedInSaved(st, ev, convert);
    var token := st.tokens[st.pools[ev.address].token];
    LoanRecordedShape(st, ev, convert(ev.amount, token.decimals), convert(ev.premium, token.decimals),
                      LoanAmountsOfEvent(st, ev, convert).derivedAmountUSD);
  }

  /** A FlashLoan event keeps the mint, burn and flash-loan records consistent with their transactions. */
  lemma FlashLoanKeepsRecords(st: Store, ev: FlashLoanLog, convert: (nat, nat) -> real)
    requires PoolLoadable(st, ev.address)
    requires RecordsValid(st.transactions, st.mints, st.burns, st.flashLoans)
    ensures var r := FlashLoanResult(st, ev, convert);
      RecordsValid(r.transactions, r.mints, r.burns, r.flashLoans)
  {
    FlashLoanOnlyTouchesBuckets(st, ev, convert);
    var a := LoanAmountsOfEvent(st, ev, convert);
    var counted := LoanCounted(st, ev.address, a);
    var saved := LoanSaved(st, ev, convert);
    var tx0 := TxOrNew(st.transactions, ev.hash, ev.block);
    var id := EventId(ev.hash, |tx0.flashLoans|);
    TxOrNewValid(st.transactions, st.mints, st.burns, st.flashLoans, ev.hash, ev.block);
    AppendLoanValid(st.transactions, st.mints, st.burns, st.flashLoans, ev.hash, tx0, saved.flashLoans[id]);
    assert saved.transactions == st.transactions[ev.hash := tx0.(flashLoans := tx0.flashLoans + [id])];
    assert saved.flashLoans == st.flashLoans[id := saved.flashLoans[id]];
  }

  /** A FlashLoan event keeps the liquidity sums and the registration of every pool's token. */
  lemma FlashLoanKeepsLiquidity(st: Store, ev: FlashLoanLog, convert: (nat, nat) -> real)
    requires PoolLoadable(st, ev.address)
    ensures var r := FlashLoanResult(st, ev, convert);
      && (LiquidityMatches(st.factory, st.tokens, st.pools) ==> LiquidityMatches(r.factory, r.tokens, r.pools))
      && (PoolsRegistered(st.factory, st.tokens, st.pools) ==> PoolsRegistered(r.factory, r.tokens, r.pools))
  {
    var r := FlashLoanResult(st, ev, convert);
    var a := LoanAmountsOfEvent(st, ev, convert);
    var c := LoanCounted(st, ev.address, a);
    FlashLoanOnlyTouchesBuckets(st, ev, convert);
    LoanCountedFrame(st, ev.address, a);
    assert r.pools == c.pools && r.tokens == c.tokens && r.factory == c.factory;
    CountersKeepLiquidity(st.factory, r.factory, st.tokens, r.tokens, st.pools, r.pools);
  }

  /** Adding a loan's volume to the four buckets keeps every bucket under its own key. */
  lemma LoanBucketsAligned(st: Store, address: Address, tokenId: Address, timestamp: nat, a: LoanAmounts,
                           derivedETH: real, ethPrice: real)
    requires BucketsPresent(st, address, tokenId, timestamp) && BucketsAligned(st)
    ensures BucketsAligned(LoanBuckets(st, address, tokenId, timestamp, a, derivedETH, ethPrice))
  {
  }

  /** A FlashLoan event keeps every bucket under its own key. */
  lemma FlashLoanKeepsBuckets(st: Store, ev: FlashLoanLog, convert: (nat, nat) -> real)
    requires PoolLoadable(st, ev.address) && BucketsAligned(st)
    ensures BucketsAligned(FlashLoanResult(st, ev, convert))
  {
    var tokenId := st.pools[ev.address].token;
    var saved := LoanSaved(st, ev, convert);
    assert BucketsAligned(saved);
    TouchBucketsAligned(saved, ev.address, tokenId, saved.tokens[tokenId], ev.block.timestamp);
    var touched := TouchBuckets(saved, ev.address, tokenId, saved.tokens[tokenId], ev.block.timestamp);
    LoanBucketsAligned(touched, ev.address, tokenId, ev.block.timestamp, LoanAmountsOfEvent(st, ev, convert),
                       st.tokens[tokenId].derivedETH, st.bundle.value.ethPrice);
  }

  /**
   * The pool's day bucket for the event's day accumulates the loan: its
   * volumes are the earlier ones (zero for a fresh bucket) plus the loan's,
   * and its txn count is one more (one for a fresh bucket).
   */
  lemma FlashLoanPoolDayVolume(st: Store, ev: FlashLoanLog, convert: (nat, nat) -> real)
    requires PoolLoadable(st, ev.address)
    ensures var r := FlashLoanResult(st, ev, convert);
      var key := BucketKey(ev.address, BucketIndex(ev.block.timestamp, DAY_SECONDS));
      var a := LoanAmountsOfEvent(st, ev, convert);
      && key in r.poolDayData
      && r.poolDayData[key].dailyVolumeUSD ==
           (if key in st.poolDayData then st.poolDayData[key].dailyVolumeUSD else 0.0) + a.trackedAmountUSD
      && r.poolDayData[key].dailyVolumeToken ==
           (if key in st.poolDayData then st.poolDayData[key].dailyVolumeToken else 0.0) + a.amountTotal
      && r.poolDayData[key].dailyTxns == (if key in st.poolDayData then st.poolDayData[key].dailyTxns + 1 else 1)
  {
    var saved := LoanSaved(st, ev, convert);
    assert saved.poolDayData == st.poolDayData;
  }

  /** The factory's day bucket for the event's day adds the loan's tracked USD and ETH volume and its untracked volume. */
  lemma FlashLoanFactoryDayVolume(st: Store, ev: FlashLoanLog, convert: (nat, nat) -> real)
    requires PoolLoadable(st, ev.address)
    ensures var r := FlashLoanResult(st, ev, convert);
      var day := BucketIndex(ev.block.timestamp, DAY_SECONDS);
      var a := LoanAmountsOfEvent(st, ev, convert);
      && day in r.flashLoanDayData
      && r.flashLoanDayData[day].dailyVolumeUSD ==
           (if day in st.flashLoanDayData then st.flashLoanDayData[day].dailyVolumeUSD else 0.0) + a.trackedAmountUSD
      && r.flashLoanDayData[day].dailyVolumeETH ==
           (if day in st.flashLoanDayData then st.flashLoanDayData[day].dailyVolumeETH else 0.0) + a.trackedAmountETH
      && r.flashLoanDayData[day].dailyVolumeUntracked ==
           (if day in st.flashLoanDayData then st.flashLoanDayData[day].dailyVolumeUntracked else 0.0) + a.derivedAmountUSD
      && r.flashLoanDayData[day].txCount == r.factory.value.txCount
  {
    var saved := LoanSaved(st, ev, convert);
    assert saved.flashLoanDayData == st.flashLoanDayData;
  }

  /**
   * The pool's hour bucket for the event's hour accumulates the loan: its
   * volumes are the earlier ones (zero for a fresh bucket) plus the loan's,
   * and its txn count is one more (one for a fresh bucket).
   */
  lemma FlashLoanPoolHourVolume(st: Store, ev: FlashLoanLog, convert: (nat, nat) -> real)
    requires PoolLoadable(st, ev.address)
    ensures var r := FlashLoanResult(st, ev, convert);
      var key := BucketKey(ev.address, BucketIndex(ev.block.timestamp, HOUR_SECONDS));
      var a := LoanAmountsOfEvent(st, ev, convert);
      && key in r.poolHourData
      && r.poolHourData[key].hourlyVolumeUSD ==
           (if key in st.poolHourData then st.poolHourData[key].hourlyVolumeUSD else 0.0) + a.trackedAmountUSD
      && r.poolHourData[key].hourlyVolumeToken ==
           (if key in st.poolHourData then st.poolHourData[key].hourlyVolumeToken else 0.0) + a.amountTotal
      && r.poolHourData[key].hourlyTxns == (if key in st.poolHourData then st.poolHourData[key].hourlyTxns + 1 else 1)
  {
    var saved := LoanSaved(st, ev, convert);
    assert saved.poolHourData == st.poolHourData;
  }

  /**
   * The token's day bucket for the event's day accumulates the loan: its
   * volume in tokens, in ETH at the token's stored derived price and in USD
   * at the stored ETH price are the earlier ones (zero for a fresh bucket)
   * plus the loan's, and its txn count is one more (one for a fresh bucket).
   */
  lemma FlashLoanTokenDayVolume(st: Store, ev: FlashLoanLog, convert: (nat, nat) -> real)
    requires PoolLoadable(st, ev.address)
    ensures var r := FlashLoanResult(st, ev, convert);
      var tokenId := st.pools[ev.address].token;
      var key := BucketKey(tokenId, BucketIndex(ev.block.timestamp, DAY_SECONDS));
      var a := LoanAmountsOfEvent(st, ev, convert);
      var volumeETH := Priced(a.amountTotal, st.tokens[tokenId].derivedETH);
      && key in r.tokenDayData
      && r.tokenDayData[key].dailyVolumeToken ==
           (if key in st.tokenDayData then st.tokenDayData[key].dailyVolumeToken else 0.0) + a.amountTotal
      && r.tokenDayData[key].dailyVolumeETH ==
           (if key in st.tokenDayData then st.tokenDayData[key].dailyVolumeETH else 0.0) + volumeETH
      && r.tokenDayData[key].dailyVolumeUSD ==
           (if key in st.tokenDayData then st.tokenDayData[key].dailyVolumeUSD else 0.0)
             + Priced(volumeETH, st.bundle.value.ethPrice)
      && r.tokenDayData[key].dailyTxns == (if key in st.tokenDayData then st.tokenDayData[key].dailyTxns + 1 else 1)
  {
    var saved := LoanSaved(st, ev, convert);
    assert saved.tokenDayData == st.tokenDayData;
  }

  /** Two flash loans of one pool within one hour share an hour bucket that holds both loans' volume and two txns. */
  lemma TwoLoansOneHour(address: Address, pool1: Pool, pool2: Pool, t1: nat, t2: nat, a1: LoanAmounts, a2: LoanAmounts)
    requires t1 <= t2 < BucketStart(t1, HOUR_SECONDS) + HOUR_SECONDS
    ensures BucketIndex(t2, HOUR_SECONDS) == BucketIndex(t1, HOUR_SECONDS)
    ensures var h1 := PoolHourWithLoan(PoolHourTouched(None, address, pool1, t1), a1);
      var h2 := PoolHourWithLoan(PoolHourTouched(Some(h1), address, pool2, t2), a2);
      && h2.hourlyVolumeUSD == a1.trackedAmountUSD + a2.trackedAmountUSD
      && h2.hourlyVolumeToken == a1.amountTotal + a2.amountTotal
      && h2.hourlyTxns == 2
      && h2.hourStartUnix == BucketStart(t2, HOUR_SECONDS)
  {
    SameBucket(t1, t2, HOUR_SECONDS);
  }

  /** Two flash loans of one pool within one day share a day bucket that holds both loans' volume and two txns. */
  lemma TwoLoansOneDay(address: Address, pool1: Pool, pool2: Pool, t1: nat, t2: nat, a1: LoanAmounts, a2: LoanAmounts)
    requires t1 <= t2 < BucketStart(t1, DAY_SECONDS) + DAY_SECONDS
    ensures BucketIndex(t2, DAY_SECONDS) == BucketIndex(t1, DAY_SECONDS)
    ensures var d1 := PoolDayWithLoan(PoolDayTouched(None, address, pool1, t1), a1);
      var d2 := PoolDayWithLoan(PoolDayTouched(Some(d1), address, pool2, t2), a2);
      && d2.dailyVolumeUSD == a1.trackedAmountUSD + a2.trackedAmountUSD
      && d2.dailyVolumeToken == a1.amountTotal + a2.amountTotal
      && d2.dailyTxns == 2
      && d2.date == BucketStart(t2, DAY_SECONDS) && d2.token == pool1.token
  {
    SameBucket(t1, t2, DAY_SECONDS);
  }
}
