/**
 * Time-bucket aggregates (src/mappings/dayUpdates.ts).
 *
 * Each update loads the bucket for the event's day or hour, creates it with
 * zero deltas when absent, refreshes its snapshot fields from the live
 * subject, increments its transaction counter (except the factory bucket,
 * which copies the factory's counter) and saves it. The handlers then add
 * their volume deltas to the returned record and save it again.
 */
module DayUpdates {
  import opened Schema

  const DAY_SECONDS: nat := 86400
  const HOUR_SECONDS: nat := 3600

  // ------------------------------------------------------- bucket arithmetic

  /** The index of the bucket of width `period` holding `timestamp`: floor division. */
  function BucketIndex(timestamp: nat, period: nat): (i: nat)
    requires period > 0
    ensures i * period <= timestamp < (i + 1) * period
  {
    timestamp / period
  }

  /** The first second of the bucket of width `period` holding `timestamp`. */
  function BucketStart(timestamp: nat, period: nat): (start: nat)
    requires period > 0
    ensures start <= timestamp < start + period
  {
    BucketIndex(timestamp, period) * period
  }

  /** A bucket index is determined by the bounds of BucketIndex: no other index satisfies them. */
  lemma BucketIndexUnique(timestamp: nat, period: nat, i: nat)
    requires period > 0
    requires i * period <= timestamp < (i + 1) * period
    ensures BucketIndex(timestamp, period) == i
  {
    var j := BucketIndex(timestamp, period);
    MulStep(j, i, period);
    MulStep(i, j, period);
  }

  /** Between two distinct bucket indices lies at least one whole bucket. */
  lemma MulStep(a: nat, b: nat, p: nat)
    ensures a < b ==> (a + 1) * p <= b * p
  {
    if a < b {
      var k := b - (a + 1);
      assert b * p == (a + 1) * p + k * p;
    }
  }

  /** Two touches no further apart than the rest of the first one's bucket land in the same bucket. */
  lemma SameBucket(t1: nat, t2: nat, period: nat)
    requires period > 0
    requires t1 <= t2 < BucketStart(t1, period) + period
    ensures BucketIndex(t2, period) == BucketIndex(t1, period)
    ensures BucketStart(t2, period) == BucketStart(t1, period)
  {
    var i := BucketIndex(t1, period);
    assert BucketStart(t1, period) + period == (i + 1) * period;
    BucketIndexUnique(t2, period, i);
  }

  // ----------------------------------------- the timestamp as the code reads it

  const I32_MODULUS: int := 0x1_0000_0000
  const I32_LIMIT: int := 0x8000_0000

  /** `BigInt.toI32()`: the low 32 bits of the timestamp read as a signed integer. */
  function ToI32(x: nat): (r: int)
    ensures -I32_LIMIT <= r < I32_LIMIT
    ensures (x - r) % I32_MODULUS == 0
    ensures x < I32_LIMIT ==> r == x
  {
    var w := x % I32_MODULUS;
    if w < I32_LIMIT then w else w - I32_MODULUS
  }

  /** Integer division of the indexer's runtime, which truncates toward zero. */
  function DivTrunc(a: int, b: nat): (q: int)
    requires b > 0
    ensures a >= 0 ==> q == a / b
    ensures a < 0 ==> q == -((-a) / b)
  {
    if a >= 0 then a / b else -((-a) / b)
  }

  /** The bucket index exactly as the update functions compute it: `timestamp.toI32() / period`. */
  function BucketIndexAsWritten(timestamp: nat, period: nat): int
    requires period > 0
  {
    DivTrunc(ToI32(timestamp), period)
  }

  /** Before 2^31 seconds (January 2038) the code's bucket index is the floor index. */
  lemma AsWrittenAgreesBefore2038(timestamp: nat, period: nat)
    requires period > 0 && timestamp < I32_LIMIT
    ensures BucketIndexAsWritten(timestamp, period) == BucketIndex(timestamp, period)
  {
  }

  /** At 2^31 seconds the code's day index is negative: its bucket lies entirely before the timestamp. */
  lemma AsWrittenMisplaces2038()
    ensures var i := BucketIndexAsWritten(I32_LIMIT, DAY_SECONDS);
      && i < 0 && !(i * DAY_SECONDS <= I32_LIMIT < (i + 1) * DAY_SECONDS)
      && (i + 1) * DAY_SECONDS <= I32_LIMIT
  {
    assert ToI32(I32_LIMIT) == -I32_LIMIT;
    assert DivTrunc(-I32_LIMIT, DAY_SECONDS) == -24855;
  }

  // ---------------------------------------------------------- bucket records

  /**
   * The factory's day bucket after a touch: created with zero volumes when
   * absent; liquidity totals and `txCount` copied from the factory.
   */
  function FlashLoanDayTouched(prior: Option<FlashLoanDayData>, factory: FlashLoanFactory, timestamp: nat): (d: FlashLoanDayData)
    ensures prior.Some? ==> d.date == prior.value.date
    ensures prior.Some? ==> d.dailyVolumeUSD == prior.value.dailyVolumeUSD && d.dailyVolumeETH == prior.value.dailyVolumeETH
    ensures prior.Some? ==> d.dailyVolumeUntracked == prior.value.dailyVolumeUntracked
    ensures prior.Some? ==> d.totalVolumeUSD == prior.value.totalVolumeUSD && d.totalVolumeETH == prior.value.totalVolumeETH
    ensures prior.None? ==> d.date == BucketStart(timestamp, DAY_SECONDS)
    ensures prior.None? ==> d.dailyVolumeUSD == 0.0 && d.dailyVolumeETH == 0.0 && d.dailyVolumeUntracked == 0.0
    ensures prior.None? ==> d.totalVolumeUSD == 0.0 && d.totalVolumeETH == 0.0
    ensures d.totalLiquidityUSD == factory.totalLiquidityUSD && d.totalLiquidityETH == factory.totalLiquidityETH
    ensures d.txCount == factory.txCount
  {
    var base := match prior
      case Some(b) => b
      case None => FlashLoanDayData(BucketStart(timestamp, DAY_SECONDS), 0.0, 0.0, 0.0, 0.0, 0.0, 0.0, 0.0, 0);
    base.(totalLiquidityUSD := factory.totalLiquidityUSD,
          totalLiquidityETH := factory.totalLiquidityETH,
          txCount := factory.txCount)
  }

  /**
   * A pool's day bucket after a touch: `date`, `token`, `poolAddress` set only
   * at creation, volumes kept, snapshot refreshed from the pool, one more txn.
   */
  function PoolDayTouched(prior: Option<PoolDayData>, address: Address, pool: Pool, timestamp: nat): (d: PoolDayData)
    ensures prior.Some? ==> d.date == prior.value.date && d.token == prior.value.token && d.poolAddress == prior.value.poolAddress
    ensures prior.Some? ==> d.dailyVolumeToken == prior.value.dailyVolumeToken && d.dailyVolumeUSD == prior.value.dailyVolumeUSD
    ensures prior.Some? ==> d.dailyTxns == prior.value.dailyTxns + 1
    ensures prior.None? ==> d.date == BucketStart(timestamp, DAY_SECONDS) && d.token == pool.token && d.poolAddress == address
    ensures prior.None? ==> d.dailyVolumeToken == 0.0 && d.dailyVolumeUSD == 0.0 && d.dailyTxns == 1
    ensures d.totalSupply == pool.totalSupply && d.reserve == pool.reserve && d.reserveUSD == pool.reserveUSD
  {
    var base := match prior
      case Some(b) => b
      case None => PoolDayData(BucketStart(timestamp, DAY_SECONDS), pool.token, address, 0.0, 0.0, 0, 0.0, 0.0, 0.0);
    base.(totalSupply := pool.totalSupply,
          reserve := pool.reserve,
          reserveUSD := pool.reserveUSD,
          dailyTxns := base.dailyTxns + 1)
  }

  /** A pool's hour bucket after a touch; same shape as the day bucket, without the supply snapshot. */
  function PoolHourTouched(prior: Option<PoolHourData>, address: Address, pool: Pool, timestamp: nat): (d: PoolHourData)
    ensures prior.Some? ==> d.hourStartUnix == prior.value.hourStartUnix && d.pool == prior.value.pool
    ensures prior.Some? ==> d.hourlyVolumeToken == prior.value.hourlyVolumeToken && d.hourlyVolumeUSD == prior.value.hourlyVolumeUSD
    ensures prior.Some? ==> d.hourlyTxns == prior.value.hourlyTxns + 1
    ensures prior.None? ==> d.hourStartUnix == BucketStart(timestamp, HOUR_SECONDS) && d.pool == address
    ensures prior.None? ==> d.hourlyVolumeToken == 0.0 && d.hourlyVolumeUSD == 0.0 && d.hourlyTxns == 1
    ensures d.reserve == pool.reserve && d.reserveUSD == pool.reserveUSD
  {
    var base := match prior
      case Some(b) => b
      case None => PoolHourData(BucketStart(timestamp, HOUR_SECONDS), address, 0.0, 0.0, 0, 0.0, 0.0);
    base.(reserve := pool.reserve,
          reserveUSD := pool.reserveUSD,
          hourlyTxns := base.hourlyTxns + 1)
  }

  /** A token's day bucket after a touch: prices and liquidity valued at the token's ETH price and the bundle's ETH/USD price. */
  function TokenDayTouched(prior: Option<TokenDayData>, tokenId: Address, token: Token, ethPrice: real, timestamp: nat): (d: TokenDayData)
    ensures prior.Some? ==> d.date == prior.value.date && d.token == prior.value.token
    ensures prior.Some? ==> d.dailyVolumeToken == prior.value.dailyVolumeToken && d.dailyVolumeETH == prior.value.dailyVolumeETH
    ensures prior.Some? ==> d.dailyVolumeUSD == prior.value.dailyVolumeUSD
    ensures prior.Some? ==> d.dailyTxns == prior.value.dailyTxns + 1
    ensures prior.None? ==> d.date == BucketStart(timestamp, DAY_SECONDS) && d.token == tokenId
    ensures prior.None? ==> d.dailyVolumeToken == 0.0 && d.dailyVolumeETH == 0.0 && d.dailyVolumeUSD == 0.0 && d.dailyTxns == 1
    ensures d.priceUSD == token.derivedETH * ethPrice
    ensures d.totalLiquidityToken == token.totalLiquidity
    ensures d.totalLiquidityETH == token.totalLiquidity * token.derivedETH
    ensures d.totalLiquidityUSD == d.totalLiquidityETH * ethPrice
  {
    var base := match prior
      case Some(b) => b
      case None => TokenDayData(BucketStart(timestamp, DAY_SECONDS), tokenId, token.derivedETH * ethPrice, 0.0, 0.0, 0.0, 0, 0.0, 0.0, 0.0);
    var liquidityETH := token.totalLiquidity * token.derivedETH;
    base.(priceUSD := token.derivedETH * ethPrice,
          totalLiquidityToken := token.totalLiquidity,
          totalLiquidityETH := liquidityETH,
          totalLiquidityUSD := liquidityETH * ethPrice,
          dailyTxns := base.dailyTxns + 1)
  }

  // ----------------------------------------------- the store's bucket shape

  /** Every factory day bucket sits under the index of its own start time. */
  ghost predicate FlashLoanDaysAligned(m: map<nat, FlashLoanDayData>) {
    forall i :: i in m ==> m[i].date == i * DAY_SECONDS
  }

  /** Every pool day bucket sits under its own pool and the index of its own start time. */
  ghost predicate PoolDaysAligned(m: map<BucketKey, PoolDayData>) {
    forall k :: k in m ==> m[k].date == k.index * DAY_SECONDS && m[k].poolAddress == k.subject
  }

  /** Every pool hour bucket sits under its own pool and the index of its own start time. */
  ghost predicate PoolHoursAligned(m: map<BucketKey, PoolHourData>) {
    forall k :: k in m ==> m[k].hourStartUnix == k.index * HOUR_SECONDS && m[k].pool == k.subject
  }

  /** Every token day bucket sits under its own token and the index of its own start time. */
  ghost predicate TokenDaysAligned(m: map<BucketKey, TokenDayData>) {
    forall k :: k in m ==> m[k].date == k.index * DAY_SECONDS && m[k].token == k.subject
  }

  /** Every stored bucket sits under the key computed from its own start time and subject. */
  ghost predicate BucketsAligned(st: Store) {
    && FlashLoanDaysAligned(st.flashLoanDayData)
    && PoolDaysAligned(st.poolDayData)
    && PoolHoursAligned(st.poolHourData)
    && TokenDaysAligned(st.tokenDayData)
  }

  /** Touching two events of one day gives one bucket whose creation fields are the first touch's and whose txn count is two. */
  lemma PoolDayTouchedTwice(address: Address, pool1: Pool, pool2: Pool, t1: nat, t2: nat)
    requires t1 <= t2 < BucketStart(t1, DAY_SECONDS) + DAY_SECONDS
    ensures var d1 := PoolDayTouched(None, address, pool1, t1);
      var d2 := PoolDayTouched(Some(d1), address, pool2, t2);
      && d2.date == BucketStart(t2, DAY_SECONDS) && d2.token == pool1.token && d2.poolAddress == address
      && d2.dailyTxns == 2
      && d2.totalSupply == pool2.totalSupply && d2.reserve == pool2.reserve && d2.reserveUSD == pool2.reserveUSD
  {
    SameBucket(t1, t2, DAY_SECONDS);
  }

  /** Touching the factory's day bucket keeps every bucket under its own key; the touched bucket holds the timestamp. */
  lemma FlashLoanDayTouchAligned(m: map<nat, FlashLoanDayData>, factory: FlashLoanFactory, timestamp: nat)
    requires FlashLoanDaysAligned(m)
    ensures var day := BucketIndex(timestamp, DAY_SECONDS);
      var d := FlashLoanDayTouched(Get(m, day), factory, timestamp);
      FlashLoanDaysAligned(m[day := d]) && d.date <= timestamp < d.date + DAY_SECONDS
  {
  }

  /** Touching a pool's day bucket keeps every bucket under its own key; the touched bucket holds the timestamp. */
  lemma PoolDayTouchAligned(m: map<BucketKey, PoolDayData>, address: Address, pool: Pool, timestamp: nat)
    requires PoolDaysAligned(m)
    ensures var key := BucketKey(address, BucketIndex(timestamp, DAY_SECONDS));
      var d := PoolDayTouched(Get(m, key), address, pool, timestamp);
      PoolDaysAligned(m[key := d]) && d.date <= timestamp < d.date + DAY_SECONDS
  {
  }

  /** Touching a pool's hour bucket keeps every bucket under its own key; the touched bucket holds the timestamp. */
  lemma PoolHourTouchAligned(m: map<BucketKey, PoolHourData>, address: Address, pool: Pool, timestamp: nat)
    requires PoolHoursAligned(m)
    ensures var key := BucketKey(address, BucketIndex(timestamp, HOUR_SECONDS));
      var d := PoolHourTouched(Get(m, key), address, pool, timestamp);
      PoolHoursAligned(m[key := d]) && d.hourStartUnix <= timestamp < d.hourStartUnix + HOUR_SECONDS
  {
  }

  /** Touching a token's day bucket keeps every bucket under its own key; the touched bucket holds the timestamp. */
  lemma TokenDayTouchAligned(m: map<BucketKey, TokenDayData>, tokenId: Address, token: Token, ethPrice: real, timestamp: nat)
    requires TokenDaysAligned(m)
    ensures var key := BucketKey(tokenId, BucketIndex(timestamp, DAY_SECONDS));
      var d := TokenDayTouched(Get(m, key), tokenId, token, ethPrice, timestamp);
      TokenDaysAligned(m[key := d]) && d.date <= timestamp < d.date + DAY_SECONDS
  {
  }

  /** The four buckets of a pool, its token and a time are stored. */
  predicate BucketsPresent(st: Store, address: Address, tokenId: Address, timestamp: nat) {
    && BucketIndex(timestamp, DAY_SECONDS) in st.flashLoanDayData
    && BucketKey(address, BucketIndex(timestamp, DAY_SECONDS)) in st.poolDayData
    && BucketKey(address, BucketIndex(timestamp, HOUR_SECONDS)) in st.poolHourData
    && BucketKey(tokenId, BucketIndex(timestamp, DAY_SECONDS)) in st.tokenDayData
  }

  /** The four buckets of a pool, its token and a time are stored and hold the given values. */
  predicate BucketsRead(st: Store, address: Address, tokenId: Address, timestamp: nat, poolDay: PoolDayData,
                        poolHour: PoolHourData, flashLoanDay: FlashLoanDayData, tokenDay: TokenDayData)
  {
    var day := BucketIndex(timestamp, DAY_SECONDS);
    && BucketsPresent(st, address, tokenId, timestamp)
    && poolDay == st.poolDayData[BucketKey(address, day)]
    && poolHour == st.poolHourData[BucketKey(address, BucketIndex(timestamp, HOUR_SECONDS))]
    && flashLoanDay == st.flashLoanDayData[day]
    && tokenDay == st.tokenDayData[BucketKey(tokenId, day)]
  }

  /**
   * The four touches a Mint, Burn or FlashLoan event makes, in the handlers'
   * order: the pool's day and hour buckets (snapshotting the stored pool),
   * the factory's day bucket and the token's day bucket. Only these four
   * entries change.
   */
  function TouchBuckets(st: Store, address: Address, tokenId: Address, token: Token, timestamp: nat): (st': Store)
    requires PoolLoadable(st, address)
    ensures st' == st.(flashLoanDayData := st'.flashLoanDayData, poolDayData := st'.poolDayData,
                       poolHourData := st'.poolHourData, tokenDayData := st'.tokenDayData)
    ensures BucketsPresent(st', address, tokenId, timestamp)
  {
    var day := BucketIndex(timestamp, DAY_SECONDS);
    var poolDay := BucketKey(address, day);
    var poolHour := BucketKey(address, BucketIndex(timestamp, HOUR_SECONDS));
    var tokenDay := BucketKey(tokenId, day);
    st.(poolDayData := st.poolDayData[poolDay := PoolDayTouched(Get(st.poolDayData, poolDay), address, st.pools[address], timestamp)],
        poolHourData := st.poolHourData[poolHour := PoolHourTouched(Get(st.poolHourData, poolHour), address, st.pools[address], timestamp)],
        flashLoanDayData := st.flashLoanDayData[day := FlashLoanDayTouched(Get(st.flashLoanDayData, day), st.factory.value, timestamp)],
        tokenDayData := st.tokenDayData[tokenDay := TokenDayTouched(Get(st.tokenDayData, tokenDay), tokenId, token, st.bundle.value.ethPrice, timestamp)])
  }

  /** The four touches keep every bucket under its own key. */
  lemma TouchBucketsAligned(st: Store, address: Address, tokenId: Address, token: Token, timestamp: nat)
    requires PoolLoadable(st, address)
    requires BucketsAligned(st)
    ensures BucketsAligned(TouchBuckets(st, address, tokenId, token, timestamp))
  {
    FlashLoanDayTouchAligned(st.flashLoanDayData, st.factory.value, timestamp);
    PoolDayTouchAligned(st.poolDayData, address, st.pools[address], timestamp);
    PoolHourTouchAligned(st.poolHourData, address, st.pools[address], timestamp);
    TokenDayTouchAligned(st.tokenDayData, tokenId, token, st.bundle.value.ethPrice, timestamp);
  }

  // ----------------------------------------------------------------- updates

  /**
   * updateFlashLoanDayData: touch the factory's bucket for the event's day
   * and save it; the returned store differs from `st` in that one entry.
   */
  method UpdateFlashLoanDayData(st: Store, timestamp: nat) returns (st': Store, d: FlashLoanDayData)
    requires st.factory.Some?
    ensures var day := BucketIndex(timestamp, DAY_SECONDS);
      && d == FlashLoanDayTouched(Get(st.flashLoanDayData, day), st.factory.value, timestamp)
      && st' == st.(flashLoanDayData := st.flashLoanDayData[day := d])
  {
    var factory := st.factory.value;
    var dayId := timestamp / DAY_SECONDS;
    var dayStartTimestamp := dayId * DAY_SECONDS;
    var flashLoanDayData: FlashLoanDayData;
    if dayId in st.flashLoanDayData {
      flashLoanDayData := st.flashLoanDayData[dayId];
    } else {
      flashLoanDayData := FlashLoanDayData(dayStartTimestamp, 0.0, 0.0, 0.0, 0.0, 0.0, 0.0, 0.0, 0);
    }
    flashLoanDayData := flashLoanDayData.(
      totalLiquidityUSD := factory.totalLiquidityUSD,
      totalLiquidityETH := factory.totalLiquidityETH,
      txCount := factory.txCount);
    st' := st.(flashLoanDayData := st.flashLoanDayData[dayId := flashLoanDayData]);
    d := flashLoanDayData;
  }

  /** updatePoolDayData: touch the pool's bucket for the event's day, snapshotting the stored pool. */
  method UpdatePoolDayData(st: Store, address: Address, timestamp: nat) returns (st': Store, d: PoolDayData)
    requires address in st.pools
    ensures var key := BucketKey(address, BucketIndex(timestamp, DAY_SECONDS));
      && d == PoolDayTouched(Get(st.poolDayData, key), address, st.pools[address], timestamp)
      && st' == st.(poolDayData := st.poolDayData[key := d])
  {
    var dayId := timestamp / DAY_SECONDS;
    var dayStartTimestamp := dayId * DAY_SECONDS;
    var dayPoolId := BucketKey(address, dayId);
    var pool := st.pools[address];
    var poolDayData: PoolDayData;
    if dayPoolId in st.poolDayData {
      poolDayData := st.poolDayData[dayPoolId];
    } else {
      poolDayData := PoolDayData(dayStartTimestamp, pool.token, address, 0.0, 0.0, 0, 0.0, 0.0, 0.0);
    }
    poolDayData := poolDayData.(
      totalSupply := pool.totalSupply,
      reserve := pool.reserve,
      reserveUSD := pool.reserveUSD,
      dailyTxns := poolDayData.dailyTxns + 1);
    st' := st.(poolDayData := st.poolDayData[dayPoolId := poolDayData]);
    d := poolDayData;
  }

  /** updatePoolHourData: touch the pool's bucket for the event's hour, snapshotting the stored pool. */
  method UpdatePoolHourData(st: Store, address: Address, timestamp: nat) returns (st': Store, d: PoolHourData)
    requires address in st.pools
    ensures var key := BucketKey(address, BucketIndex(timestamp, HOUR_SECONDS));
      && d == PoolHourTouched(Get(st.poolHourData, key), address, st.pools[address], timestamp)
      && st' == st.(poolHourData := st.poolHourData[key := d])
  {
    var hourIndex := timestamp / HOUR_SECONDS;
    var hourStartUnix := hourIndex * HOUR_SECONDS;
    var hourPoolId := BucketKey(address, hourIndex);
    var pool := st.pools[address];
    var poolHourData: PoolHourData;
    if hourPoolId in st.poolHourData {
      poolHourData := st.poolHourData[hourPoolId];
    } else {
      poolHourData := PoolHourData(hourStartUnix, address, 0.0, 0.0, 0, 0.0, 0.0);
    }
    poolHourData := poolHourData.(
      reserve := pool.reserve,
      reserveUSD := pool.reserveUSD,
      hourlyTxns := poolHourData.hourlyTxns + 1);
    st' := st.(poolHourData := st.poolHourData[hourPoolId := poolHourData]);
    d := poolHourData;
  }

  /**
   * updateTokenDayData: touch the token's bucket for the event's day. The
   * token is the handler's in-memory copy, valued at the stored bundle's price.
   */
  method UpdateTokenDayData(st: Store, tokenId: Address, token: Token, timestamp: nat) returns (st': Store, d: TokenDayData)
    requires st.bundle.Some?
    ensures var key := BucketKey(tokenId, BucketIndex(timestamp, DAY_SECONDS));
      && d == TokenDayTouched(Get(st.tokenDayData, key), tokenId, token, st.bundle.value.ethPrice, timestamp)
      && st' == st.(tokenDayData := st.tokenDayData[key := d])
  {
    var bundle := st.bundle.value;
    var dayId := timestamp / DAY_SECONDS;
    var dayStartTimestamp := dayId * DAY_SECONDS;
    var tokenDayId := BucketKey(tokenId, dayId);
    var tokenDayData: TokenDayData;
    if tokenDayId in st.tokenDayData {
      tokenDayData := st.tokenDayData[tokenDayId];
    } else {
      tokenDayData := TokenDayData(dayStartTimestamp, tokenId, token.derivedETH * bundle.ethPrice, 0.0, 0.0, 0.0, 0, 0.0, 0.0, 0.0);
    }
    tokenDayData := tokenDayData.(priceUSD := token.derivedETH * bundle.ethPrice);
    tokenDayData := tokenDayData.(totalLiquidityToken := token.totalLiquidity);
    tokenDayData := tokenDayData.(totalLiquidityETH := token.totalLiquidity * token.derivedETH);
    tokenDayData := tokenDayData.(totalLiquidityUSD := tokenDayData.totalLiquidityETH * bundle.ethPrice);
    tokenDayData := tokenDayData.(dailyTxns := tokenDayData.dailyTxns + 1);
    st' := st.(tokenDayData := st.tokenDayData[tokenDayId := tokenDayData]);
    d := tokenDayData;
  }

  /**
   * The four update calls that end handleMint, handleBurn and
   * handleFlashLoan, in their order, returning the store and the four
   * touched buckets.
   */
  method UpdateBuckets(st: Store, address: Address, tokenId: Address, token: Token, timestamp: nat)
    returns (st': Store, poolDay: PoolDayData, poolHour: PoolHourData, flashLoanDay: FlashLoanDayData, tokenDay: TokenDayData)
    requires PoolLoadable(st, address)
    ensures st' == TouchBuckets(st, address, tokenId, token, timestamp)
    ensures BucketsRead(st', address, tokenId, timestamp, poolDay, poolHour, flashLoanDay, tokenDay)
  {
    st', poolDay := UpdatePoolDayData(st, address, timestamp);
    st', poolHour := UpdatePoolHourData(st', address, timestamp);
    st', flashLoanDay := UpdateFlashLoanDayData(st', timestamp);
    st', tokenDay := UpdateTokenDayData(st', tokenId, token, timestamp);
  }
}
