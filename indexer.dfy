/**
 * The store invariant that every handler of src/mappings/core.ts and
 * src/mappings/flashLoanFactory.ts keeps, and the lemma that a store which
 * satisfies it gives each pool event's handler the entities it loads
 * without a null check.
 */
module Indexer {
  import opened Schema
  import opened Records
  import opened Liquidity
  import opened DayUpdates
  import opened Transfer
  import opened Accounting
  import opened Registry

  /**
   * A consistent store: the bundle exists with the factory, every pool's
   * token is stored, the liquidity totals are the sums of their pools' (and
   * pairs') contributions, every listed record is stored under its
   * `<hash>-<index>` id with all but the last mint complete, and every
   * bucket sits under the key of its own start time.
   */
  ghost predicate Valid(st: Store) {
    && (st.factory.Some? ==> st.bundle.Some?)
    && PoolsRegistered(st.factory, st.tokens, st.pools)
    && LiquidityMatches(st.factory, st.tokens, st.pools)
    && PairLiquidityMatches(st.uniswapFactory, st.pairs)
    && RecordsValid(st.transactions, st.mints, st.burns, st.flashLoans)
    && BucketsAligned(st)
  }

  lemma EmptyStoreValid()
    ensures Valid(EMPTY_STORE)
  {
  }

  // ------------------------------------------------ what handlers may load

  /** In a consistent store, a registered pool's token, the factory and the bundle exist. */
  lemma ValidPoolLoadable(st: Store, address: Address)
    requires Valid(st) && address in st.pools
    ensures PoolLoadable(st, address)
  {
  }

  /** In a consistent store, a transfer of a registered pool's tokens finds what handleTransfer loads. */
  lemma ValidTransferReady(st: Store, ev: TransferLog)
    requires Valid(st) && ev.address in st.pools
    ensures LastRecordsStored(st.mints, st.burns, TxOrNew(st.transactions, ev.hash, ev.block)) && st.factory.Some?
  {
    ValidLastStored(st.transactions, st.mints, st.burns, st.flashLoans, ev.hash, ev.block);
  }

  /** In a consistent store, a Mint event whose transaction lists a mint finds what handleMint loads. */
  lemma ValidMintReady(st: Store, ev: MintLog)
    requires Valid(st) && ev.address in st.pools
    requires ev.hash in st.transactions && |st.transactions[ev.hash].mints| > 0
    ensures MintLoadable(st, ev)
  {
    ValidLastStored(st.transactions, st.mints, st.burns, st.flashLoans, ev.hash, ev.block);
    assert TxOrNew(st.transactions, ev.hash, ev.block) == st.transactions[ev.hash];
  }

  /** In a consistent store, a Burn event whose transaction lists a burn finds what handleBurn loads. */
  lemma ValidBurnReady(st: Store, ev: BurnLog)
    requires Valid(st) && ev.address in st.pools
    requires ev.hash in st.transactions && |st.transactions[ev.hash].burns| > 0
    ensures BurnLoadable(st, ev)
  {
    ValidLastStored(st.transactions, st.mints, st.burns, st.flashLoans, ev.hash, ev.block);
    assert TxOrNew(st.transactions, ev.hash, ev.block) == st.transactions[ev.hash];
  }

  // ------------------------------------------------------ handlers keep it

  lemma TransferKeepsValid(st: Store, ev: TransferLog, value: real)
    requires Valid(st) && ev.address in st.pools
    ensures Valid(TransferResult(st, ev, value))
  {
    TransferFrame(st, ev, value);
    TransferKeepsRecords(st, ev, value);
    TransferKeepsLiquidity(st, ev, value);
  }

  lemma MintKeepsValid(st: Store, ev: MintLog, convert: (nat, nat) -> real)
    requires Valid(st) && MintLoadable(st, ev)
    ensures Valid(MintResult(st, ev, convert))
  {
    MintKeepsRecords(st, ev, convert);
    MintKeepsLiquidity(st, ev, convert);
    MintKeepsBuckets(st, ev, convert);
  }

  lemma BurnKeepsValid(st: Store, ev: BurnLog, convert: (nat, nat) -> real)
    requires Valid(st) && (ev.hash in st.transactions ==> BurnLoadable(st, ev))
    ensures Valid(BurnResult(st, ev, convert))
  {
    BurnKeepsRecords(st, ev, convert);
    BurnKeepsBuckets(st, ev, convert);
  }

  lemma PoolSyncKeepsValid(st: Store, ev: PoolSyncLog, convert: (nat, nat) -> real,
                           ethPrice: real, derivedETH: real, trackedLiquidityUSD: real)
    requires Valid(st) && PoolLoadable(st, ev.address)
    ensures Valid(PoolSyncResult(st, ev, convert, ethPrice, derivedETH, trackedLiquidityUSD))
  {
    PoolSyncKeepsLiquidity(st, ev, convert, ethPrice, derivedETH, trackedLiquidityUSD);
  }

  lemma PairSyncKeepsValid(st: Store, ev: PairSyncLog, convert: (nat, nat) -> real, ethPrice: real,
                           derivedETH0: real, derivedETH1: real, trackedLiquidityUSD: real)
    requires Valid(st) && PairLoadable(st, ev.address)
    ensures Valid(PairSyncResult(st, ev, convert, ethPrice, derivedETH0, derivedETH1, trackedLiquidityUSD))
  {
    PairSyncKeepsLiquidity(st, ev, convert, ethPrice, derivedETH0, derivedETH1, trackedLiquidityUSD);
  }

  lemma FlashLoanKeepsValid(st: Store, ev: FlashLoanLog, convert: (nat, nat) -> real)
    requires Valid(st) && PoolLoadable(st, ev.address)
    ensures Valid(FlashLoanResult(st, ev, convert))
  {
    FlashLoanOnlyTouchesBuckets(st, ev, convert);
    FlashLoanKeepsRecords(st, ev, convert);
    FlashLoanKeepsLiquidity(st, ev, convert);
    FlashLoanKeepsBuckets(st, ev, convert);
  }

  /** Registering a pool that is not yet stored keeps the store consistent. */
  lemma NewPoolKeepsValid(st: Store, ev: PoolCreatedLog, meta: TokenMetadata)
    requires Valid(st) && ev.pool !in st.pools
    ensures Valid(NewPoolResult(st, ev, meta))
  {
    NewPoolFrame(st, ev, meta);
    NewPoolSingletons(st, ev, meta);
    NewPoolKeepsLiquidity(st, ev, meta);
  }
}
