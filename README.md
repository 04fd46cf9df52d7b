# Flash-loan subgraph indexer: event handlers over the entity store

This project models the event handlers of the flash-loan subgraph, as Dafny methods and functions with proofs. The handlers fold decoded pool events into an entity store. Each handler loads entities, changes some fields and saves them back. The model covers six handlers and two groups of helpers:

- the liquidity-token transfer reconciler `handleTransfer`;
- its completion handlers `handleMint` and `handleBurn`;
- the reserve syncs `handlePoolSync` and `handlePairSync`;
- the flash-loan handler `handleFlashLoan`;
- the time-bucket upserts of `dayUpdates.ts`;
- the pool registry `handleNewPool`.

The store (`Schema.Store`) holds one map per entity type:

- mints, burns and flash loans are keyed by `EventId(hash, index)`, the id `<hash>-<index>`;
- time buckets are keyed by `BucketKey(subject, index)`;
- the factory, the Uniswap factory and the ETH price bundle are `Option` singletons.

Each handler is a `method` that takes the store and returns it with its saves applied. The method's body follows the source statement by statement. Its `ensures` ties the returned store to a reference function:

- `HandleTransfer` returns `TransferResult` of the store;
- `HandleMint` returns `MintResult` of the store;
- `HandleBurn` returns `BurnResult` of the store;
- `HandlePoolSync` returns `PoolSyncResult` of the store;
- `HandlePairSync` returns `PairSyncResult` of the store;
- `HandleFlashLoan` returns `FlashLoanResult` of the store;
- `HandleNewPool` returns `NewPoolResult` of the store.

Lemmas then state what each reference function does to the store. They also prove that every handler keeps the store invariant `Indexer.Valid`. That invariant has four parts:

- **Records.** Every transaction's `mints`, `burns` and `flashLoans` lists hold `<hash>-0`, `<hash>-1`, ... in order. A record is stored exactly when its transaction lists it. Every mint except possibly a transaction's last is complete.
- **Liquidity.** The factory's tracked ETH liquidity is the sum of its pools' tracked reserves. Each token's total liquidity is the sum of the reserves of the pools that hold it. The Uniswap factory's tracked liquidity is the sum over its pairs.
- **Registration.** Every pool's token is stored, and the bundle exists with the factory.
- **Buckets.** Every time bucket is stored under the key computed from its own start time and subject.

Modules:

- `Schema`: entities and the store.
- `Sums`: sums over maps.
- `Records`: logical records and their invariant.
- `Liquidity`: liquidity sums.
- `DayUpdates` (`src/mappings/dayUpdates.ts`).
- `Transfer`: `handleTransfer`, `handleMint`, `handleBurn`.
- `Accounting`: the syncs and `handleFlashLoan`.
- `Registry` (`src/mappings/flashLoanFactory.ts`).
- `Indexer`: the store invariant across all handlers.

The handlers also depend on code outside this model. These dependencies are modelled as parameters:

- `convertTokenToDecimal` is the function parameter `convert(raw, decimals)`.
- The price oracle's answers for the event are real parameters: `getEthPriceInUSD`, `findEthPerToken`, `getTrackedPoolLiquidityUSD` and `getTrackedPairLiquidityUSD`.
- The token metadata reads are a `TokenMetadata` value. Its decimals are an `Option`, because that read can fail.

Amounts are exact `real`s. Counters and raw on-chain amounts are `nat`s.

Where the code departs from the subgraph's documented behaviour, the model follows the code:

- **`needsComplete` is never reset.** A burn of pool tokens that reuses a pending burn keeps it marked as needing completion, and so does `handleBurn` (`src/mappings/core.ts:137-138`, `185-188`, `410-416`). `Transfer.TransferFinalizesBurn` and `Transfer.BurnCompletes` state it.
- **No Token is saved when decimals are unknown.** A new token whose decimals cannot be read is not saved at all (`src/mappings/flashLoanFactory.ts:48-51`, before `token.save()` at 83). The factory's pool count has already been saved by then (34-35). See `Registry.NewPoolBailsOut` and `Registry.NewPoolCountsOne`.
- **`handleMint` has no missing-record check.** It loads the transaction and its last mint without a null check (`src/mappings/core.ts:329-331`). `Transfer.HandleMint` therefore requires them (`Transfer.MintLoadable`). `handleBurn` does return on a missing transaction (379-381), and the model does too.
- **Transfers are not ignored except in one case.** The only ignored transfer is one of exactly 1000 raw units to the zero address (38-40). A pool-to-pool transfer takes the burn-setup branch.

## Model

| member | source | states |
|---|---|---|
| `Schema.Get` | src/mappings/dayUpdates.ts:12-13 | a load returns the stored entity exactly when one is stored under the id |
| `DayUpdates.BucketIndex` | src/mappings/dayUpdates.ts:9-10 | the day (hour) index `i` of a timestamp satisfies `i*period <= ts < (i+1)*period` |
| `DayUpdates.BucketStart` | src/mappings/dayUpdates.ts:11 | the bucket's start time satisfies `start <= ts < start + period` |
| `DayUpdates.BucketIndexUnique` | src/mappings/dayUpdates.ts:9-10 | the floor index is the only index whose bucket contains the timestamp |
| `DayUpdates.SameBucket` | src/mappings/dayUpdates.ts:9-12 | a later timestamp inside the first one's bucket gets the same index and start |
| `DayUpdates.ToI32` | src/mappings/dayUpdates.ts:9 | `toI32` keeps the low 32 bits as a signed value: in range, congruent mod 2^32, the identity below 2^31 |
| `DayUpdates.DivTrunc` | src/mappings/dayUpdates.ts:10 | the runtime's integer division truncates toward zero for negative dividends |
| `DayUpdates.AsWrittenAgreesBefore2038` | src/mappings/dayUpdates.ts:9-10 | below 2^31 seconds the index as the code computes it equals the floor index |
| `DayUpdates.AsWrittenMisplaces2038` | src/mappings/dayUpdates.ts:9-11 | at 2^31 seconds the code's day index is negative and its bucket does not contain the timestamp |
| `DayUpdates.FlashLoanDayTouched` | src/mappings/dayUpdates.ts:12-25 | a fresh factory bucket gets the day start and zero volumes; an existing one keeps date and volumes; liquidity totals and `txCount` are copied from the factory, not incremented |
| `DayUpdates.PoolDayTouched` | src/mappings/dayUpdates.ts:40-54 | date, token and pool address are set only at creation; volumes start at zero and are kept; `dailyTxns` is 1 when fresh and one more otherwise; supply and reserves are the pool's |
| `DayUpdates.PoolHourTouched` | src/mappings/dayUpdates.ts:69-81 | hour start and pool are set only at creation; volumes start at zero and are kept; `hourlyTxns` rises by one; reserves are the pool's |
| `DayUpdates.TokenDayTouched` | src/mappings/dayUpdates.ts:97-113 | date and token are set only at creation; volumes are kept; `dailyTxns` rises by one; `priceUSD = derivedETH*ethPrice`, `totalLiquidityETH = totalLiquidity*derivedETH`, `totalLiquidityUSD = totalLiquidityETH*ethPrice` |
| `DayUpdates.PoolDayTouchedTwice` | src/mappings/dayUpdates.ts:31-58 | two touches in one day give one bucket with the first touch's creation fields, the second's snapshot and two txns |
| `DayUpdates.FlashLoanDayTouchAligned` | src/mappings/dayUpdates.ts:10-26 | writing the touched factory bucket keeps every bucket under the index of its own date, and the bucket holds the timestamp |
| `DayUpdates.PoolDayTouchAligned` | src/mappings/dayUpdates.ts:33-55 | the same for pool day buckets, keyed by pool and day |
| `DayUpdates.PoolHourTouchAligned` | src/mappings/dayUpdates.ts:62-82 | the same for pool hour buckets, keyed by pool and hour |
| `DayUpdates.TokenDayTouchAligned` | src/mappings/dayUpdates.ts:90-114 | the same for token day buckets, keyed by token and day |
| `DayUpdates.TouchBuckets` | src/mappings/core.ts:369-372 | the four bucket updates change only the four bucket maps, and afterwards the four buckets of the event are stored |
| `DayUpdates.TouchBucketsAligned` | src/mappings/core.ts:369-372 | the four updates keep every bucket under its own key |
| `DayUpdates.UpdateFlashLoanDayData` | src/mappings/dayUpdates.ts:7-29 | returns the touched factory bucket and a store that differs only in that bucket, under the day's index |
| `DayUpdates.UpdatePoolDayData` | src/mappings/dayUpdates.ts:31-58 | returns the touched pool day bucket and a store that differs only in that entry |
| `DayUpdates.UpdatePoolHourData` | src/mappings/dayUpdates.ts:60-85 | returns the touched pool hour bucket and a store that differs only in that entry |
| `DayUpdates.UpdateTokenDayData` | src/mappings/dayUpdates.ts:87-123 | returns the touched token day bucket, valued at the stored bundle's price, and a store that differs only in that entry |
| `DayUpdates.UpdateBuckets` | src/mappings/core.ts:523-527 | the four updates in the handlers' order give the touched store, and the returned records are the stored buckets |
| `Records.IsCompleteMint` | src/mappings/core.ts:32-34 | a stored mint is complete exactly when its sender is set; the mint must be stored, because the source reads the sender of the loaded record without a null check |
| `Records.TxOrNewValid` | src/mappings/core.ts:59-67 | the stored transaction, or a new one with empty lists, keeps the records consistent |
| `Records.AppendMintValid` | src/mappings/core.ts:77-93 | appending mint `<hash>-n` to a transaction whose last mint is complete keeps every mint but the last complete |
| `Records.DropMintValid` | src/mappings/core.ts:169-180 | removing the last mint from store and list keeps the records consistent |
| `Records.AppendBurnValid` | src/mappings/core.ts:102-123 | appending burn `<hash>-n` keeps the records consistent |
| `Records.AppendLoanValid` | src/mappings/core.ts:491-520 | appending flash loan `<hash>-n` keeps the records consistent |
| `Records.SetBurnValid` | src/mappings/core.ts:183-188 | overwriting a stored burn keeps the records consistent |
| `Records.CompleteMintValid` | src/mappings/core.ts:358-362 | completing a stored mint keeps the records consistent |
| `Records.ValidLastStored` | src/mappings/core.ts:329-331 | in consistent records the last mint and last burn the handlers load are stored |
| `Liquidity.CountersKeepLiquidity` | src/mappings/core.ts:280-320 | rewriting fields other than reserves and liquidity keeps the sums and every pool's token registered |
| `Sums.SumUpdate` | src/mappings/core.ts:280-320 | overwriting one entry changes the sum by the new contribution minus the old one |
| `Sums.SumInsert` | src/mappings/flashLoanFactory.ts:63-84 | adding an entry adds its contribution to the sum |
| `Transfer.MintBlock` | src/mappings/core.ts:70-99 | the mint block raises the supply and opens mint `<hash>-n` unless the last mint is incomplete |
| `Transfer.SendToPoolBlock` | src/mappings/core.ts:102-125 | the send-to-pool block appends a burn needing completion |
| `Transfer.BurnBlock` | src/mappings/core.ts:128-198 | the burn block lowers the supply, reuses or appends the burn and folds a fee mint into it |
| `Transfer.TransferBlocks` | src/mappings/core.ts:69-198 | the three blocks in order compute the supply, mints and burns of `TransferResult` |
| `Transfer.HandleTransfer` | src/mappings/core.ts:36-215 | the handler returns `TransferResult` of the store, with the raw value scaled to 18 decimals; it needs the last mint stored only on a transfer from the zero address, and the last mint and burn only on a burn of pool tokens |
| `Transfer.SupplyAfterFrame` | src/mappings/core.ts:71-130 | the supply update changes only the event's pool, and only its supply |
| `Transfer.TransferFrame` | src/mappings/core.ts:36-215 | a transfer writes only pools, transactions, mints and burns; other pools and transactions are unchanged |
| `Transfer.TransferSupply` | src/mappings/core.ts:38-130 | the ignored transfer changes nothing; supply rises by `value` from the zero address, falls by `value` on a burn of pool tokens, and is otherwise unchanged |
| `Transfer.TransferOpensMint` | src/mappings/core.ts:77-98 | with no incomplete last mint, exactly one incomplete mint `<hash>-|mints|` with `to` and `liquidity = value` is appended; unless the recipient is the pool, the burns and the burn list are unchanged |
| `Transfer.TransferReusesPendingMint` | src/mappings/core.ts:77 | with an incomplete last mint, the mints and the list are unchanged |
| `Transfer.TransferSetsUpBurn` | src/mappings/core.ts:102-124 | a transfer to the pool appends exactly one burn `<hash>-|burns|` with `needsComplete`, `sender = from`, `liquidity = value`; unless the sender is the zero address, the mints and the mint list are unchanged |
| `Transfer.TransferFinalizesBurn` | src/mappings/core.ts:133-197 | a pending last burn is reused in place (list unchanged, still `needsComplete`); otherwise a burn with `needsComplete = false` and `liquidity = value` is appended; without an incomplete last mint, the mints and the mint list are unchanged |
| `Transfer.TransferPlain` | src/mappings/core.ts:59-214 | a transfer that neither mints, nor goes to the pool, nor burns pool tokens only saves its transaction (created with empty lists when absent); pools, mints and burns are unchanged |
| `Transfer.TransferFoldsFeeMint` | src/mappings/core.ts:169-182 | an incomplete last mint is removed from store and list, and its `to` and `liquidity` become the burn's `feeTo` and `feeLiquidity` |
| `Transfer.MintStepValid` | src/mappings/core.ts:70-182 | the transfer's change to the mints keeps the records consistent |
| `Transfer.BurnStepValid` | src/mappings/core.ts:102-197 | the transfer's change to the burns keeps the records consistent |
| `Transfer.TransferKeepsRecords` | src/mappings/core.ts:36-215 | a transfer keeps every mint but the last complete, and lists and records in agreement |
| `Transfer.TransferKeepsLiquidity` | src/mappings/core.ts:71-130 | a transfer keeps the liquidity sums and pool registration |
| `Transfer.Counted` | src/mappings/core.ts:342-351 | counting a transaction keeps the pool, its token, the factory and the bundle loadable |
| `Transfer.HandleMint` | src/mappings/core.ts:328-373 | the handler returns `MintResult` of the store |
| `Transfer.HandleBurn` | src/mappings/core.ts:375-427 | the handler returns `BurnResult` of the store |
| `Transfer.CountedKeepsLiquidity` | src/mappings/core.ts:342-351 | a transaction count changes no liquidity sum |
| `Transfer.MintCompletes` | src/mappings/core.ts:339-362 | the last mint gets `sender`, `amount`, `logIndex` and `amountUSD = derivedETH*amount*ethPrice`, keeps pool, `to` and liquidity; nothing else among records and transactions changes |
| `Transfer.MintCounts` | src/mappings/core.ts:342-356 | token, pool and factory `txCount` rise by exactly one and nothing else about them changes |
| `Transfer.BurnCompletes` | src/mappings/core.ts:376-416 | with no transaction nothing changes; otherwise the last burn gets `amount`, `logIndex`, `amountUSD` and keeps every other field, `needsComplete` included |
| `Transfer.BurnCounts` | src/mappings/core.ts:394-408 | token, pool and factory `txCount` rise by exactly one and nothing else about them changes |
| `Transfer.MintKeepsRecords` | src/mappings/core.ts:358-362 | a Mint event keeps the records consistent |
| `Transfer.MintRewritesLastMint` | src/mappings/core.ts:358-362 | the only record a Mint event rewrites is the last mint, which it completes |
| `Transfer.MintKeepsLiquidity` | src/mappings/core.ts:342-356 | a Mint event keeps the liquidity sums |
| `Transfer.MintKeepsBuckets` | src/mappings/core.ts:369-372 | a Mint event keeps every bucket under its own key |
| `Transfer.BurnKeepsRecords` | src/mappings/core.ts:375-416 | a Burn event keeps the records consistent and the liquidity sums |
| `Transfer.BurnKeepsBuckets` | src/mappings/core.ts:423-426 | a Burn event keeps every bucket under its own key |
| `Transfer.TransferThenMint` | src/mappings/core.ts:328-362 | after a zero-origin transfer opens a mint, the same transaction's Mint event finds it last and completes it with the transfer's `to` and liquidity |
| `Accounting.GuardedDiv` | src/mappings/core.ts:301-307 | a zero divisor yields zero; otherwise the quotient times the divisor is the numerator |
| `Accounting.HandlePoolSync` | src/mappings/core.ts:274-326 | the handler returns `PoolSyncResult` of the store |
| `Accounting.PoolSyncPrices` | src/mappings/core.ts:285-317 | new reserve, `reserveETH = reserve*derivedETH`, `reserveUSD = reserveETH*ethPrice`; tracked reserve is 0 when `ethPrice` is 0; `totalLiquidityUSD = totalLiquidityETH*ethPrice`; only the pool, its token, the factory and the bundle change |
| `Accounting.PoolSyncKeepsLiquidity` | src/mappings/core.ts:280-320 | the factory's tracked ETH liquidity stays the sum of tracked reserves, and each token's liquidity the sum of its pools' reserves |
| `Accounting.HandlePairSync` | src/mappings/core.ts:217-272 | the handler returns `PairSyncResult` of the store |
| `Accounting.PairSyncPrices` | src/mappings/core.ts:226-265 | token prices are the reserves' ratio, or 0 against an empty reserve; ETH and USD values follow the new prices; tokens change only in `derivedETH` |
| `Accounting.PairSyncKeepsLiquidity` | src/mappings/core.ts:224-264 | the Uniswap factory's tracked liquidity stays the sum over pairs |
| `Accounting.LoanAmountsOf` | src/mappings/core.ts:436-453 | `amountTotal = amount + premium`; tracked USD is derived USD; tracked ETH is 0 when `ethPrice` is 0; amounts are non-negative for non-negative inputs |
| `Accounting.LoanCounted` | src/mappings/core.ts:456-480 | counting the loan keeps the pool, its token, the factory and the bundle loadable |
| `Accounting.LoanSaved` | src/mappings/core.ts:456-521 | the saved store keeps the pool loadable and its token |
| `Accounting.ComputeLoanAmounts` | src/mappings/core.ts:436-453 | the amounts block computes `LoanAmountsOf` |
| `Accounting.CountLoan` | src/mappings/core.ts:455-480 | the counting block computes `LoanCounted` |
| `Accounting.RecordLoan` | src/mappings/core.ts:482-521 | the record block computes `LoanRecorded` |
| `Accounting.AddLoanVolumes` | src/mappings/core.ts:529-551 | the bucket block computes `LoanBuckets`, whose four buckets `FlashLoanFactoryDayVolume`, `FlashLoanPoolDayVolume`, `FlashLoanPoolHourVolume` and `FlashLoanTokenDayVolume` describe |
| `Accounting.AddTokenDayVolume` | src/mappings/core.ts:546-550 | the token bucket's update computes `TokenDayWithLoan`, whose effect `FlashLoanTokenDayVolume` states: the loan in tokens, in ETH and in USD added |
| `Accounting.SaveLoan` | src/mappings/core.ts:430-521 | the first half of the handler computes `LoanSaved` and the loan's amounts |
| `Accounting.HandleFlashLoan` | src/mappings/core.ts:429-552 | the handler returns `FlashLoanResult` of the store, whose counts, record and four bucket volumes the lemmas below state |
| `Accounting.FlashLoanOnlyTouchesBuckets` | src/mappings/core.ts:523-551 | after the saves, only the four buckets change |
| `Accounting.LoanCountedFrame` | src/mappings/core.ts:455-480 | counting changes only one token, one pool and the factory, and none of their liquidity fields |
| `Accounting.FlashLoanCountsToken` | src/mappings/core.ts:456-461 | token `txCount` +1, `tradeVolume` + amount + premium, USD volumes + derived USD; no other token changes |
| `Accounting.FlashLoanCountsPool` | src/mappings/core.ts:464-467 | pool `txCount` +1, volumes + the loan's; no other pool changes |
| `Accounting.FlashLoanCountsFactory` | src/mappings/core.ts:471-475 | factory `txCount` +1 and volumes + the loan's tracked and untracked values |
| `Accounting.FlashLoanVolumesGrow` | src/mappings/core.ts:456-475 | with non-negative amounts and prices, no volume of token, pool or factory decreases |
| `Accounting.LoanRecordedShape` | src/mappings/core.ts:482-521 | recording stores one new record and extends one transaction's list |
| `Accounting.FlashLoanAppendsOneId` | src/mappings/core.ts:482-521 | exactly one id `<hash>-|flashLoans|` is appended, to a new transaction with empty lists if absent; mint and burn lists and other transactions are unchanged |
| `Accounting.FlashLoanStoresRecord` | src/mappings/core.ts:492-513 | the record holds the pool, amount, premium, log index and sender, with `amountUSD` the derived USD value |
| `Accounting.FlashLoanKeepsRecords` | src/mappings/core.ts:491-521 | a FlashLoan event keeps the records consistent |
| `Accounting.FlashLoanKeepsLiquidity` | src/mappings/core.ts:455-480 | a FlashLoan event keeps the liquidity sums |
| `Accounting.LoanBucketsAligned` | src/mappings/core.ts:529-551 | adding volumes keeps every bucket under its key |
| `Accounting.FlashLoanKeepsBuckets` | src/mappings/core.ts:523-551 | a FlashLoan event keeps every bucket under its key |
| `Accounting.FlashLoanPoolDayVolume` | src/mappings/core.ts:524-538 | the pool day bucket's volumes are the earlier ones (or 0) plus the loan's, and its txns are one more (or 1) |
| `Accounting.FlashLoanFactoryDayVolume` | src/mappings/core.ts:526-533 | the factory day bucket adds the loan's tracked USD, tracked ETH and untracked USD to the earlier values (or 0), and its `txCount` is the factory's |
| `Accounting.FlashLoanPoolHourVolume` | src/mappings/core.ts:525-543 | the pool hour bucket's volumes are the earlier ones (or 0) plus the loan's tokens and tracked USD, and its txns are one more (or 1) |
| `Accounting.FlashLoanTokenDayVolume` | src/mappings/core.ts:527-550 | the token day bucket's volumes are the earlier ones (or 0) plus the loan in tokens, in ETH at the token's derived price and in USD at the ETH price, and its txns are one more (or 1) |
| `Accounting.TwoLoansOneDay` | src/mappings/dayUpdates.ts:31-58 | two loans of one pool in one day share a bucket holding both volumes and two txns |
| `Accounting.TwoLoansOneHour` | src/mappings/dayUpdates.ts:60-85 | two loans of one pool in one hour share a bucket holding both volumes and two txns, starting at the hour's start |
| `Registry.NewToken` | src/mappings/flashLoanFactory.ts:42-60 | a new token has the fetched metadata and decimals, and zero price, volumes, liquidity and `txCount` |
| `Registry.NewPool` | src/mappings/flashLoanFactory.ts:63-77 | a new pool references the token, takes the event block, and has zero reserves, volumes, supply and counts |
| `Registry.CountPool` | src/mappings/flashLoanFactory.ts:18-35 | the factory block creates factory and bundle if absent and counts one pool |
| `Registry.HandleNewPool` | src/mappings/flashLoanFactory.ts:16-86 | the handler returns `NewPoolResult` of the store |
| `Registry.NewPoolSingletons` | src/mappings/flashLoanFactory.ts:18-33 | an absent factory is created with zero counters and a zero-price bundle; an existing one keeps the bundle |
| `Registry.NewPoolCountsOne` | src/mappings/flashLoanFactory.ts:34-51 | `poolCount` rises by exactly one per event, bail-out included |
| `Registry.NewPoolBailsOut` | src/mappings/flashLoanFactory.ts:46-51 | a new token with unknown decimals saves neither token nor pool |
| `Registry.NewPoolReusesToken` | src/mappings/flashLoanFactory.ts:38-41 | a stored token is reused unchanged, whatever the metadata |
| `Registry.NewPoolCreatesToken` | src/mappings/flashLoanFactory.ts:41-83 | a new token with known decimals is saved from its metadata; other tokens are unchanged |
| `Registry.NewPoolRegistersPool` | src/mappings/flashLoanFactory.ts:63-84 | unless it bails out, the new pool is saved under its address; other pools are unchanged |
| `Registry.NewPoolFrame` | src/mappings/flashLoanFactory.ts:16-86 | only the factory, bundle, tokens and pools change |
| `Registry.UnknownTokenHoldsNothing` | src/mappings/flashLoanFactory.ts:64 | a token not stored holds no registered pool's reserve |
| `Registry.NewPoolKeepsLiquidity` | src/mappings/flashLoanFactory.ts:63-85 | registering a new pool keeps the liquidity sums and registration |
| `Indexer.EmptyStoreValid` | src/mappings/flashLoanFactory.ts:18-19 | the empty store is consistent |
| `Indexer.ValidPoolLoadable` | src/mappings/core.ts:430-439 | in a consistent store a registered pool's token, the factory and the bundle exist |
| `Indexer.ValidTransferReady` | src/mappings/core.ts:42-170 | in a consistent store a transfer finds the records and the factory it loads |
| `Indexer.ValidMintReady` | src/mappings/core.ts:329-345 | in a consistent store a Mint event whose transaction lists a mint finds everything it loads |
| `Indexer.ValidBurnReady` | src/mappings/core.ts:376-397 | the same for a Burn event |
| `Indexer.TransferKeepsValid` | src/mappings/core.ts:36-215 | `handleTransfer` keeps the store consistent |
| `Indexer.MintKeepsValid` | src/mappings/core.ts:328-373 | `handleMint` keeps the store consistent |
| `Indexer.BurnKeepsValid` | src/mappings/core.ts:375-427 | `handleBurn` keeps the store consistent |
| `Indexer.PoolSyncKeepsValid` | src/mappings/core.ts:274-326 | `handlePoolSync` keeps the store consistent |
| `Indexer.PairSyncKeepsValid` | src/mappings/core.ts:217-272 | `handlePairSync` keeps the store consistent |
| `Indexer.FlashLoanKeepsValid` | src/mappings/core.ts:429-552 | `handleFlashLoan` keeps the store consistent |
| `Indexer.NewPoolKeepsValid` | src/mappings/flashLoanFactory.ts:16-86 | `handleNewPool` for a pool not yet stored keeps the store consistent |

## Left out

- `createUser`, `createLiquidityPosition`, `createLiquiditySnapshot` and the `balanceOf` reads (`src/mappings/core.ts:47-49`, `200-212`, `365-366`, `419-420`): their code is not part of this model, and they write only user and position entities that no modelled handler reads.
- The price oracle (`getEthPriceInUSD`, `findEthPerToken`, `getTrackedPoolLiquidityUSD`, `getTrackedPairLiquidityUSD`) is not part of this model. Its answers are parameters of the sync handlers.
- `convertTokenToDecimal` is not part of this model. It is the parameter `convert`, with nothing assumed about it.
- The token metadata calls (`src/mappings/flashLoanFactory.ts:43-46`) are a `TokenMetadata` argument. Decimals are `None` when the read fails.
- `PoolTemplate.create` and `log.debug` (`src/mappings/flashLoanFactory.ts:80`, `49`) are indexer plumbing with no effect on the store.
- Ids are `(hash, index)` pairs rather than hex strings with a `-` separator.
- `flashLoan.amountUSD` (`src/mappings/core.ts:512`) is chosen by value, not by the runtime's reference identity. Both branches give the derived USD amount, because the tracked amount is the derived amount (446).
- BigDecimal rounding is not modelled. Amounts are exact reals, and only the zero guards on division are modelled.
- The factory's `poolCount` is an unbounded `int`, not a 32-bit integer.
- The store is a value: each handler returns the store with all its saves applied. Intermediate saves of the same entity collapse into the last one. The in-place array mutations (`push`, `pop`, index assignment) are modelled as new lists assigned to the transaction, and the model does not capture their aliasing.
- Handlers that dereference a loaded entity without a null check require it to be stored: `PoolLoadable`, `MintLoadable`, `BurnLoadable` and `PairLoadable`. `handleTransfer` requires the transaction's last mint to be stored only on a transfer from the zero address (`src/mappings/core.ts:77`), its last mint and last burn only on a burn of pool tokens (`136`, `169-170`), and the factory whenever it opens a mint (`97`). `Indexer.Valid*Ready` shows that a consistent store meets these requirements.
- Registry.NewPoolKeepsLiquidity: requires the pool address to be new, for the reason given for `Indexer.NewPoolKeepsValid` below.
- Indexer.NewPoolKeepsValid: requires the pool address to be new. The source would overwrite an existing pool with a zeroed one, dropping its contributions from the liquidity sums.
- The bucket functions are modelled with floor division on the full timestamp. The source's 32-bit truncation is modelled separately (see Findings).

## Findings

| source | as written | input that shows it | evidently intended | confidence | as-written member | corrected member |
|---|---|---|---|---|---|---|
| src/mappings/dayUpdates.ts:9-11 | the bucket index is `timestamp.toI32() / 86400` (or `/ 3600`) | block timestamp 2^31 (19 January 2038; the same index arithmetic is at lines 32-34, 61-63 and 89-91): `toI32` gives -2^31, the day index is -24855, and that bucket lies entirely before the timestamp (it starts in December 1901) | `floor(timestamp / period)` over the full timestamp, so that `date <= timestamp < date + period` | not executed | `DayUpdates.AsWrittenMisplaces2038` | `DayUpdates.BucketStart` |
