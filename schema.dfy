/**
 * Entities of the flash-loan subgraph and the entity store that the event
 * handlers read, modify and write back.
 *
 * Every entity is a value (a datatype); the store keeps one map per entity
 * type, keyed by the entity id; a handler takes the store and returns it with
 * its saves applied.
 * Monetary amounts (BigDecimal in the indexer) are exact reals; counters and
 * raw on-chain amounts are naturals.
 */
module Schema {

  datatype Option<+T> = None | Some(value: T)

  /** A hex-encoded account or contract address; entity ids of pools and tokens. */
  type Address = string

  /** A hex-encoded transaction hash; the id of a Transaction entity. */
  type Hash = string

  const ADDRESS_ZERO: Address := "0x0000000000000000000000000000000000000000"

  /** The id `<hash>-<index>` of a Mint, Burn or FlashLoan record. */
  datatype EventId = EventId(hash: Hash, index: nat)

  /** The id `<subject>-<bucketIndex>` of a pool or token time bucket. */
  datatype BucketKey = BucketKey(subject: Address, index: nat)

  datatype Block = Block(number: nat, timestamp: nat)

  function Get<K, V>(m: map<K, V>, k: K): (r: Option<V>)
    ensures r.Some? <==> k in m
    ensures r.Some? ==> r.value == m[k]
  {
    if k in m then Some(m[k]) else None
  }

  // ---------------------------------------------------------------- entities

  datatype FlashLoanFactory = FlashLoanFactory(
    poolCount: int,
    txCount: nat,
    totalVolumeUSD: real,
    totalVolumeETH: real,
    untrackedVolumeUSD: real,
    totalLiquidityUSD: real,
    totalLiquidityETH: real)

  /** The two fields of the Uniswap factory that a pair's reserve sync rewrites. */
  datatype UniswapFactory = UniswapFactory(totalLiquidityETH: real, totalLiquidityUSD: real)

  /** The singleton with id "1" that holds the current ETH/USD price. */
  datatype Bundle = Bundle(ethPrice: real)

  datatype Token = Token(
    symbol: string,
    name: string,
    totalSupply: nat,
    decimals: nat,
    derivedETH: real,
    tradeVolume: real,
    tradeVolumeUSD: real,
    untrackedVolumeUSD: real,
    totalLiquidity: real,
    txCount: nat)

  datatype Pool = Pool(
    token: Address,
    liquidityProviderCount: nat,
    createdAtTimestamp: nat,
    createdAtBlockNumber: nat,
    txCount: nat,
    reserve: real,
    trackedReserveETH: real,
    reserveETH: real,
    reserveUSD: real,
    totalSupply: real,
    volumeToken: real,
    volumeUSD: real,
    untrackedVolumeUSD: real,
    tokenPrice: real)

  datatype Pair = Pair(
    token0: Address,
    token1: Address,
    reserve0: real,
    reserve1: real,
    token0Price: real,
    token1Price: real,
    trackedReserveETH: real,
    reserveETH: real,
    reserveUSD: real)

  /** The ids of the logical records that happened inside one chain transaction, in order. */
  datatype Transaction = Transaction(
    blockNumber: nat,
    timestamp: nat,
    mints: seq<EventId>,
    burns: seq<EventId>,
    flashLoans: seq<EventId>)

  /**
   * A logical mint. It is created by a liquidity-token transfer from the zero
   * address and completed later by the pool's Mint event, which fills in
   * `sender`, `amount`, `logIndex` and `amountUSD`.
   */
  datatype Mint = Mint(
    transaction: Hash,
    pool: Address,
    to: Address,
    liquidity: real,
    timestamp: nat,
    sender: Option<Address>,
    amount: Option<real>,
    logIndex: Option<nat>,
    amountUSD: Option<real>)

  datatype Burn = Burn(
    transaction: Hash,
    pool: Address,
    liquidity: real,
    timestamp: nat,
    to: Option<Address>,
    sender: Option<Address>,
    needsComplete: bool,
    feeTo: Option<Address>,
    feeLiquidity: Option<real>,
    amount: Option<real>,
    logIndex: Option<nat>,
    amountUSD: Option<real>)

  datatype FlashLoan = FlashLoan(
    transaction: Hash,
    pool: Address,
    timestamp: nat,
    target: Address,
    initiator: Address,
    asset: Address,
    amount: real,
    premium: real,
    from: Address,
    logIndex: nat,
    amountUSD: real)

  datatype FlashLoanDayData = FlashLoanDayData(
    date: nat,
    dailyVolumeUSD: real,
    dailyVolumeETH: real,
    totalVolumeUSD: real,
    totalVolumeETH: real,
    dailyVolumeUntracked: real,
    totalLiquidityUSD: real,
    totalLiquidityETH: real,
    txCount: nat)

  datatype PoolDayData = PoolDayData(
    date: nat,
    token: Address,
    poolAddress: Address,
    dailyVolumeToken: real,
    dailyVolumeUSD: real,
    dailyTxns: nat,
    totalSupply: real,
    reserve: real,
    reserveUSD: real)

  datatype PoolHourData = PoolHourData(
    hourStartUnix: nat,
    pool: Address,
    hourlyVolumeToken: real,
    hourlyVolumeUSD: real,
    hourlyTxns: nat,
    reserve: real,
    reserveUSD: real)

  datatype TokenDayData = TokenDayData(
    date: nat,
    token: Address,
    priceUSD: real,
    dailyVolumeToken: real,
    dailyVolumeETH: real,
    dailyVolumeUSD: real,
    dailyTxns: nat,
    totalLiquidityToken: real,
    totalLiquidityETH: real,
    totalLiquidityUSD: real)

  // ------------------------------------------------------------------ events

  datatype TransferLog = TransferLog(address: Address, hash: Hash, block: Block, from: Address, to: Address, value: nat)

  datatype MintLog = MintLog(address: Address, hash: Hash, block: Block, logIndex: nat, sender: Address, amount: nat)

  /** The pool's Burn event; its sender and recipient parameters are not read by the handler. */
  datatype BurnLog = BurnLog(address: Address, hash: Hash, block: Block, logIndex: nat, amount: nat)

  datatype FlashLoanLog = FlashLoanLog(
    address: Address,
    hash: Hash,
    block: Block,
    logIndex: nat,
    txFrom: Address,
    target: Address,
    initiator: Address,
    asset: Address,
    amount: nat,
    premium: nat)

  datatype PoolSyncLog = PoolSyncLog(address: Address, reserve: nat)

  datatype PairSyncLog = PairSyncLog(address: Address, reserve0: nat, reserve1: nat)

  datatype PoolCreatedLog = PoolCreatedLog(block: Block, token: Address, pool: Address)

  // ------------------------------------------------------------------- store

  /**
   * The entity store: one map per entity type, keyed by entity id. Loading
   * by id is lookup, saving is update, removing is map subtraction. A handler
   * receives the store and returns it with its saves applied.
   */
  datatype Store = Store(
    factory: Option<FlashLoanFactory>,
    uniswapFactory: Option<UniswapFactory>,
    bundle: Option<Bundle>,
    tokens: map<Address, Token>,
    pools: map<Address, Pool>,
    pairs: map<Address, Pair>,
    transactions: map<Hash, Transaction>,
    mints: map<EventId, Mint>,
    burns: map<EventId, Burn>,
    flashLoans: map<EventId, FlashLoan>,
    flashLoanDayData: map<nat, FlashLoanDayData>,
    poolDayData: map<BucketKey, PoolDayData>,
    poolHourData: map<BucketKey, PoolHourData>,
    tokenDayData: map<BucketKey, TokenDayData>)

  /** The store before the first event. */
  const EMPTY_STORE: Store :=
    Store(None, None, None, map[], map[], map[], map[], map[], map[], map[], map[], map[], map[], map[])

  /**
   * The entities a pool event's handler loads and dereferences without a
   * null check: the pool, its token, the factory and the ETH price bundle.
   */
  predicate PoolLoadable(st: Store, address: Address) {
    address in st.pools && st.pools[address].token in st.tokens && st.factory.Some? && st.bundle.Some?
  }
}
