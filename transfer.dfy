/**
 * The liquidity-token transfer reconciler of src/mappings/core.ts and its
 * two completion handlers.
 *
 * A pool emits a Transfer of its liquidity token before its own Mint or
 * Burn event. `handleTransfer` turns those transfers into logical Mint and
 * Burn records listed in the chain transaction; `handleMint` and
 * `handleBurn` then fill in the amounts of the transaction's last record.
 *
 * Each handler is a method over the store value, proved equal to a
 * reference function; the lemmas below state what the reference functions
 * do and which invariants they keep.
 */
module Transfer {
  import opened Schema
  import opened Records
  import opened Liquidity
  import opened DayUpdates

  /** The decimals of every pool's liquidity token. */
  const LIQUIDITY_DECIMALS: nat := 18

  /** The minimum liquidity a new pool locks by a transfer to the zero address. */
  const MINIMUM_LIQUIDITY: nat := 1000

  /** The only transfer the reconciler skips: a transfer of exactly the minimum liquidity to the zero address. */
  predicate IsIgnoredTransfer(ev: TransferLog) {
    ev.to == ADDRESS_ZERO && ev.value == MINIMUM_LIQUIDITY
  }

  /** A transfer from the pool to the zero address burns liquidity tokens and finalizes a logical burn. */
  predicate IsBurnOfPoolTokens(ev: TransferLog) {
    ev.to == ADDRESS_ZERO && ev.from == ev.address
  }

  /** One kind of a transaction's records: the transaction's id list and the store's records of that kind. */
  datatype Ledger<R> = Ledger(ids: seq<EventId>, records: map<EventId, R>)

  // --------------------------------------------------- the transfer, by concern

  /** Minting from the zero address raises the pool's supply; burning the pool's own tokens lowers it. */
  function SupplyAfter(pools: map<Address, Pool>, ev: TransferLog, value: real): map<Address, Pool>
    requires ev.address in pools
  {
    var pool := pools[ev.address];
    if ev.from == ADDRESS_ZERO then pools[ev.address := pool.(totalSupply := pool.totalSupply + value)]
    else if IsBurnOfPoolTokens(ev) then pools[ev.address := pool.(totalSupply := pool.totalSupply - value)]
    else pools
  }

  /**
   * The transaction's mints after a transfer, from `tx0` before it: a
   * transfer from the zero address opens mint `<hash>-|mints|` unless the
   * last mint is still incomplete; a burn of pool tokens removes an
   * incomplete last mint (the protocol fee) from store and list.
   */
  function MintsAfter(tx0: Transaction, mints: map<EventId, Mint>, ev: TransferLog, value: real): Ledger<Mint> {
    if ev.from == ADDRESS_ZERO && PendingMint(mints, tx0).None? then
      var id := EventId(ev.hash, |tx0.mints|);
      Ledger(tx0.mints + [id], mints[id := Mint(ev.hash, ev.address, ev.to, value, tx0.timestamp, None, None, None, None)])
    else if IsBurnOfPoolTokens(ev) && PendingMint(mints, tx0).Some? then
      Ledger(tx0.mints[..|tx0.mints| - 1], mints - {tx0.mints[|tx0.mints| - 1]})
    else
      Ledger(tx0.mints, mints)
  }

  /** A burn of pool tokens that no transfer to the pool set up. */
  function FreshBurn(tx0: Transaction, ev: TransferLog, value: real): Burn {
    Burn(ev.hash, ev.address, value, tx0.timestamp, None, None, false, None, None, None, None, None)
  }

  /** A transfer to the pool appends burn `<hash>-|burns|`, which needs completion. */
  function SentToPool(tx0: Transaction, burns: map<EventId, Burn>, ev: TransferLog, value: real): Ledger<Burn> {
    var id := EventId(ev.hash, |tx0.burns|);
    Ledger(tx0.burns + [id], burns[id := Burn(ev.hash, ev.address, value, tx0.timestamp,
                                              Some(ev.to), Some(ev.from), true, None, None, None, None, None)])
  }

  /**
   * The transaction's burns after a transfer, from `tx0` before it: a
   * transfer to the pool appends burn `<hash>-|burns|` that needs
   * completion; a burn of pool tokens finalizes the last burn when that one
   * needs completion, and appends a fresh burn otherwise, in both cases
   * carrying the fee of an incomplete last mint.
   */
  function BurnsAfter(tx0: Transaction, mints: map<EventId, Mint>, burns: map<EventId, Burn>,
                      ev: TransferLog, value: real): Ledger<Burn>
  {
    if ev.to == ev.address then SentToPool(tx0, burns, ev, value)
    else if IsBurnOfPoolTokens(ev) && AwaitingBurn(burns, tx0) then
      var id := tx0.burns[|tx0.burns| - 1];
      Ledger(tx0.burns, burns[id := WithFee(burns[id], PendingMint(mints, tx0))])
    else if IsBurnOfPoolTokens(ev) then
      var id := EventId(ev.hash, |tx0.burns|);
      Ledger(tx0.burns + [id], burns[id := WithFee(FreshBurn(tx0, ev, value), PendingMint(mints, tx0))])
    else
      Ledger(tx0.burns, burns)
  }

  /**
   * The store after a liquidity-token transfer of `value` (the raw amount
   * scaled to 18 decimals): the ignored transfer changes nothing; any other
   * saves its transaction, created with empty lists when absent, with the
   * mints and burns above, and the pool's new supply.
   */
  function TransferResult(st: Store, ev: TransferLog, value: real): Store
    requires ev.address in st.pools
  {
    if IsIgnoredTransfer(ev) then st
    else
      var tx0 := TxOrNew(st.transactions, ev.hash, ev.block);
      var m := MintsAfter(tx0, st.mints, ev, value);
      var b := BurnsAfter(tx0, st.mints, st.burns, ev, value);
      st.(pools := SupplyAfter(st.pools, ev, value),
          transactions := st.transactions[ev.hash := tx0.(mints := m.ids, burns := b.ids)],
          mints := m.records,
          burns := b.records)
  }

  // ----------------------------------------------------------- handleTransfer

  /**
   * The mint block: the pool's supply rises by `value`, and a new logical
   * mint is opened, and the factory saved (so it must have been loaded),
   * unless the transaction's last mint is incomplete.
   */
  method MintBlock(factory: Option<FlashLoanFactory>, pools: map<Address, Pool>, mintRecords: map<EventId, Mint>,
                   ev: TransferLog, value: real, transaction: Transaction)
    returns (factory': Option<FlashLoanFactory>, pools': map<Address, Pool>, mintRecords': map<EventId, Mint>,
             transaction': Transaction)
    requires ev.from == ADDRESS_ZERO && ev.address != ADDRESS_ZERO && ev.address in pools
    requires LastMintStored(mintRecords, transaction)
    requires PendingMint(mintRecords, transaction).None? ==> factory.Some?
    ensures factory' == factory && pools' == SupplyAfter(pools, ev, value)
    ensures var m := MintsAfter(transaction, mintRecords, ev, value);
      mintRecords' == m.records && transaction' == transaction.(mints := m.ids)
  {
    factory', pools', mintRecords', transaction' := factory, pools, mintRecords, transaction;
    var mints := transaction.mints;
    // core.ts:72-74: the pool's supply grows by the minted liquidity
    var pool := pools[ev.address];
    pool := pool.(totalSupply := pool.totalSupply + value);
    pools' := pools'[ev.address := pool];

    // core.ts:76-90: a mint is opened unless the last one still awaits its Mint event
    if |mints| == 0 || IsCompleteMint(mintRecords, mints[|mints| - 1]) {
      var mintId := EventId(ev.hash, |mints|);
      mintRecords' := mintRecords'[mintId := Mint(ev.hash, ev.address, ev.to, value, transaction.timestamp, None, None, None, None)];
      // core.ts:92-96: its id joins the transaction's list, and the factory is saved
      transaction' := transaction'.(mints := mints + [mintId]);
      factory' := Some(factory.value);
    }
  }

  /** The send-to-pool block: a burn that needs completion is appended to the transaction. */
  method SendToPoolBlock(burnRecords: map<EventId, Burn>, ev: TransferLog, value: real, transaction: Transaction)
    returns (burnRecords': map<EventId, Burn>, transaction': Transaction)
    requires ev.to == ev.address
    ensures var b := SentToPool(transaction, burnRecords, ev, value);
      burnRecords' == b.records && transaction' == transaction.(burns := b.ids)
  {
    var burns := transaction.burns;
    var burnId := EventId(ev.hash, |burns|);
    burnRecords' := burnRecords[burnId := Burn(ev.hash, ev.address, value, transaction.timestamp,
                                               Some(ev.to), Some(ev.from), true, None, None, None, None, None)];
    burns := burns + [burnId];
    transaction' := transaction.(burns := burns);
  }

  /**
   * The burn block: the pool's supply falls by `value`; the last burn is
   * reused when it needs completion and a fresh one appended otherwise; an
   * incomplete last mint (the protocol fee) is folded into the burn and
   * removed from store and list.
   */
  method BurnBlock(pools: map<Address, Pool>, mintRecords: map<EventId, Mint>, burnRecords: map<EventId, Burn>,
                   ev: TransferLog, value: real, transaction: Transaction)
    returns (pools': map<Address, Pool>, mintRecords': map<EventId, Mint>, burnRecords': map<EventId, Burn>,
             transaction': Transaction)
    requires IsBurnOfPoolTokens(ev) && ev.address != ADDRESS_ZERO && ev.address in pools
    requires LastRecordsStored(mintRecords, burnRecords, transaction)
    ensures pools' == SupplyAfter(pools, ev, value)
    ensures var m := MintsAfter(transaction, mintRecords, ev, value);
      var b := BurnsAfter(transaction, mintRecords, burnRecords, ev, value);
      mintRecords' == m.records && burnRecords' == b.records && transaction' == transaction.(mints := m.ids, burns := b.ids)
  {
    mintRecords', transaction' := mintRecords, transaction;
    var pool := pools[ev.address];
    pool := pool.(totalSupply := pool.totalSupply - value);
    pools' := pools[ev.address := pool];

    // core.ts:132-166: reuse a last burn that awaits completion, or start a fresh one
    var mints := transaction.mints;
    var burns := transaction.burns;
    var burnId := EventId(ev.hash, |burns|);
    var burn := FreshBurn(transaction, ev, value);
    if |burns| > 0 {
      var currentBurn := burnRecords[burns[|burns| - 1]];
      if currentBurn.needsComplete {
        burnId, burn := burns[|burns| - 1], currentBurn;
      }
    }

    // core.ts:168-172: an incomplete last mint is the protocol fee: it moves onto the burn
    if |mints| != 0 && !IsCompleteMint(mintRecords, mints[|mints| - 1]) {
      var mint := mintRecords[mints[|mints| - 1]];
      burn := burn.(feeTo := Some(mint.to), feeLiquidity := Some(mint.liquidity));
      // core.ts:173-181: ... and leaves the store and the transaction's list
      mintRecords' := mintRecords - {mints[|mints| - 1]};
      mints := mints[..|mints| - 1];
      transaction' := transaction'.(mints := mints);
    }
    burnRecords' := burnRecords[burnId := burn];
    // core.ts:184-197: a reused burn keeps its place in the list; a fresh one is appended
    if burn.needsComplete {
      burns := burns[|burns| - 1 := burnId];
    } else {
      burns := burns + [burnId];
    }
    transaction' := transaction'.(burns := burns);
  }

  /**
   * The three blocks of handleTransfer in the source's order, each run only
   * when its condition holds, on local copies of the pools, the records and
   * the transaction.
   */
  method TransferBlocks(factory: Option<FlashLoanFactory>, pools: map<Address, Pool>, mintRecords: map<EventId, Mint>,
                        burnRecords: map<EventId, Burn>, ev: TransferLog, value: real, tx0: Transaction)
    returns (factory': Option<FlashLoanFactory>, pools': map<Address, Pool>, mintRecords': map<EventId, Mint>,
             burnRecords': map<EventId, Burn>, transaction: Transaction)
    requires ev.address in pools && ev.address != ADDRESS_ZERO
    requires ev.from == ADDRESS_ZERO ==> LastMintStored(mintRecords, tx0)
    requires IsBurnOfPoolTokens(ev) ==> LastRecordsStored(mintRecords, burnRecords, tx0)
    requires (ev.from == ADDRESS_ZERO && PendingMint(mintRecords, tx0).None?) ==> factory.Some?
    ensures factory' == factory && pools' == SupplyAfter(pools, ev, value)
    ensures var m := MintsAfter(tx0, mintRecords, ev, value);
      var b := BurnsAfter(tx0, mintRecords, burnRecords, ev, value);
      mintRecords' == m.records && burnRecords' == b.records && transaction == tx0.(mints := m.ids, burns := b.ids)
  {
    factory', pools', mintRecords', burnRecords', transaction := factory, pools, mintRecords, burnRecords, tx0;
    if ev.from == ADDRESS_ZERO {
      factory', pools', mintRecords', transaction := MintBlock(factory', pools', mintRecords', ev, value, transaction);
    }
    if ev.to == ev.address {
      burnRecords', transaction := SendToPoolBlock(burnRecords', ev, value, transaction);
    }
    if ev.to == ADDRESS_ZERO && ev.from == ev.address {
      pools', mintRecords', burnRecords', transaction := BurnBlock(pools', mintRecords', burnRecords', ev, value, transaction);
    }
  }

  /**
   * `handleTransfer`: the ignore rule, get-or-create of the transaction,
   * then the mint block, the send-to-pool block and the burn block in the
   * source's order, on local copies that are saved at the end.
   */
  method HandleTransfer(st: Store, ev: TransferLog, convert: (nat, nat) -> real) returns (st': Store)
    requires ev.address in st.pools && ev.address != ADDRESS_ZERO
    requires (!IsIgnoredTransfer(ev) && ev.from == ADDRESS_ZERO) ==>
               LastMintStored(st.mints, TxOrNew(st.transactions, ev.hash, ev.block))
    requires (!IsIgnoredTransfer(ev) && IsBurnOfPoolTokens(ev)) ==>
               LastRecordsStored(st.mints, st.burns, TxOrNew(st.transactions, ev.hash, ev.block))
    requires (!IsIgnoredTransfer(ev) && ev.from == ADDRESS_ZERO &&
              PendingMint(st.mints, TxOrNew(st.transactions, ev.hash, ev.block)).None?) ==> st.factory.Some?
    ensures st' == TransferResult(st, ev, convert(ev.value, LIQUIDITY_DECIMALS))
  {
    // core.ts:37-40: the initial lock of the minimum liquidity is skipped
    if ev.to == ADDRESS_ZERO && ev.value == MINIMUM_LIQUIDITY {
      return st;
    }

    var value := convert(ev.value, LIQUIDITY_DECIMALS);

    // core.ts:58-67: the stored transaction, or a new one with empty lists
    var transaction: Transaction;
    if ev.hash in st.transactions {
      transaction := st.transactions[ev.hash];
    } else {
      transaction := Transaction(ev.block.number, ev.block.timestamp, [], [], []);
    }

    var factory, pools, mintRecords, burnRecords;
    factory, pools, mintRecords, burnRecords, transaction :=
      TransferBlocks(st.factory, st.pools, st.mints, st.burns, ev, value, transaction);

    st' := st.(factory := factory, pools := pools, transactions := st.transactions[ev.hash := transaction],
               mints := mintRecords, burns := burnRecords);
  }

  // ------------------------------------------------------ transfer properties

  /** The supply update changes only the transfer's own pool, and of it only the supply. */
  lemma SupplyAfterFrame(pools: map<Address, Pool>, ev: TransferLog, value: real)
    requires ev.address in pools
    ensures var pools' := SupplyAfter(pools, ev, value);
      && pools'.Keys == pools.Keys
      && (forall p :: p in pools && p != ev.address ==> pools'[p] == pools[p])
      && pools'[ev.address] == pools[ev.address].(totalSupply := pools'[ev.address].totalSupply)
      && SameContributions(pools, pools')
  {
  }

  /**
   * A transfer writes only the pools, the transaction and the mint and burn
   * records; only the transfer's own pool changes, in its supply alone, and
   * only the transfer's own transaction changes.
   */
  lemma TransferFrame(st: Store, ev: TransferLog, value: real)
    requires ev.address in st.pools
    ensures var r := TransferResult(st, ev, value);
      && r == st.(pools := r.pools, transactions := r.transactions, mints := r.mints, burns := r.burns)
      && r.pools.Keys == st.pools.Keys
      && (forall p :: p in st.pools && p != ev.address ==> r.pools[p] == st.pools[p])
      && r.pools[ev.address] == st.pools[ev.address].(totalSupply := r.pools[ev.address].totalSupply)
      && (forall h :: h in st.transactions && h != ev.hash ==> h in r.transactions && r.transactions[h] == st.transactions[h])
  {
    if !IsIgnoredTransfer(ev) {
      SupplyAfterFrame(st.pools, ev, value);
    }
  }

  /**
   * The pool's supply: unchanged by the ignored transfer, raised by a
   * transfer from the zero address, lowered by a burn of the pool's own
   * tokens, unchanged by any other transfer.
   */
  lemma TransferSupply(st: Store, ev: TransferLog, value: real)
    requires ev.address in st.pools && ev.address != ADDRESS_ZERO
    ensures var before := st.pools[ev.address].totalSupply;
      var after := TransferResult(st, ev, value).pools[ev.address].totalSupply;
      && (IsIgnoredTransfer(ev) ==> TransferResult(st, ev, value) == st)
      && (!IsIgnoredTransfer(ev) && ev.from == ADDRESS_ZERO ==> after == before + value)
      && (!IsIgnoredTransfer(ev) && IsBurnOfPoolTokens(ev) ==> after == before - value)
      && (ev.from != ADDRESS_ZERO && !IsBurnOfPoolTokens(ev) ==> after == before)
  {
  }

  /**
   * A transfer from the zero address when the transaction's last mint is
   * complete (or it has none) appends an incomplete mint `<hash>-n` of the
   * transferred liquidity to the recipient, and keeps every other mint.
   */
  lemma TransferOpensMint(st: Store, ev: TransferLog, value: real)
    requires ev.address in st.pools && ev.address != ADDRESS_ZERO
    requires ev.from == ADDRESS_ZERO && !IsIgnoredTransfer(ev)
    requires PendingMint(st.mints, TxOrNew(st.transactions, ev.hash, ev.block)).None?
    ensures var tx0 := TxOrNew(st.transactions, ev.hash, ev.block);
      var r := TransferResult(st, ev, value);
      var id := EventId(ev.hash, |tx0.mints|);
      && r.transactions[ev.hash].mints == tx0.mints + [id]
      && id in r.mints && !IsCompleteMint(r.mints, id)
      && r.mints[id].pool == ev.address && r.mints[id].to == ev.to && r.mints[id].liquidity == value
      && (forall x :: x in st.mints && x != id ==> x in r.mints && r.mints[x] == st.mints[x])
      && (ev.to != ev.address ==> r.burns == st.burns && r.transactions[ev.hash].burns == tx0.burns)
  {
  }

  /**
   * A transfer from the zero address while the transaction's last mint is
   * still incomplete opens no second mint: that mint is reused by the next
   * Mint event.
   */
  lemma TransferReusesPendingMint(st: Store, ev: TransferLog, value: real)
    requires ev.address in st.pools && ev.address != ADDRESS_ZERO
    requires ev.from == ADDRESS_ZERO && !IsIgnoredTransfer(ev)
    requires PendingMint(st.mints, TxOrNew(st.transactions, ev.hash, ev.block)).Some?
    ensures var r := TransferResult(st, ev, value);
      r.transactions[ev.hash].mints == TxOrNew(st.transactions, ev.hash, ev.block).mints && r.mints == st.mints
  {
  }

  /**
   * A transfer of liquidity tokens to the pool appends burn `<hash>-n`, from
   * the sender, of the transferred liquidity, marked as needing completion.
   */
  lemma TransferSetsUpBurn(st: Store, ev: TransferLog, value: real)
    requires ev.address in st.pools && ev.address != ADDRESS_ZERO
    requires ev.to == ev.address
    ensures var tx0 := TxOrNew(st.transactions, ev.hash, ev.block);
      var r := TransferResult(st, ev, value);
      var id := EventId(ev.hash, |tx0.burns|);
      && r.transactions[ev.hash].burns == tx0.burns + [id]
      && id in r.burns && r.burns[id].needsComplete
      && r.burns[id].sender == Some(ev.from) && r.burns[id].to == Some(ev.to) && r.burns[id].liquidity == value
      && (forall x :: x in st.burns && x != id ==> x in r.burns && r.burns[x] == st.burns[x])
      && (ev.from != ADDRESS_ZERO ==> r.mints == st.mints && r.transactions[ev.hash].mints == tx0.mints)
  {
  }

  /**
   * A burn of the pool's own tokens completes the liquidity removal: the
   * last burn is kept in place when it awaits completion, and otherwise a
   * burn `<hash>-n` of the burnt liquidity is appended; the transaction's
   * burn list is never empty afterwards.
   */
  lemma TransferFinalizesBurn(st: Store, ev: TransferLog, value: real)
    requires ev.address in st.pools && ev.address != ADDRESS_ZERO
    requires IsBurnOfPoolTokens(ev) && !IsIgnoredTransfer(ev)
    ensures var tx0 := TxOrNew(st.transactions, ev.hash, ev.block);
      var r := TransferResult(st, ev, value);
      var burns := r.transactions[ev.hash].burns;
      && |burns| > 0 && burns[|burns| - 1] in r.burns
      && (AwaitingBurn(st.burns, tx0) ==>
            && burns == tx0.burns
            && r.burns[burns[|burns| - 1]].liquidity == st.burns[burns[|burns| - 1]].liquidity
            && r.burns[burns[|burns| - 1]].needsComplete)
      && (!AwaitingBurn(st.burns, tx0) ==>
            && burns == tx0.burns + [EventId(ev.hash, |tx0.burns|)]
            && r.burns[burns[|burns| - 1]].liquidity == value
            && !r.burns[burns[|burns| - 1]].needsComplete)
      && (PendingMint(st.mints, tx0).None? ==> r.mints == st.mints && r.transactions[ev.hash].mints == tx0.mints)
  {
  }

  /**
   * A transfer that neither mints, nor goes to the pool, nor burns the
   * pool's tokens touches no record: it only saves its transaction, created
   * with empty lists when absent.
   */
  lemma TransferPlain(st: Store, ev: TransferLog, value: real)
    requires ev.address in st.pools && ev.address != ADDRESS_ZERO
    requires !IsIgnoredTransfer(ev) && ev.from != ADDRESS_ZERO && ev.to != ev.address && !IsBurnOfPoolTokens(ev)
    ensures var r := TransferResult(st, ev, value);
      && r.mints == st.mints && r.burns == st.burns && r.pools == st.pools
      && r.transactions == st.transactions[ev.hash := TxOrNew(st.transactions, ev.hash, ev.block)]
  {
  }

  /**
   * When a burn of pool tokens finds the transaction's last mint
   * incomplete, that mint was the protocol fee: it is removed from store and
   * list, and its recipient and liquidity are recorded on the burn.
   */
  lemma TransferFoldsFeeMint(st: Store, ev: TransferLog, value: real)
    requires ev.address in st.pools && ev.address != ADDRESS_ZERO
    requires IsBurnOfPoolTokens(ev) && !IsIgnoredTransfer(ev)
    requires PendingMint(st.mints, TxOrNew(st.transactions, ev.hash, ev.block)).Some?
    ensures var tx0 := TxOrNew(st.transactions, ev.hash, ev.block);
      var fee := PendingMint(st.mints, tx0).value;
      var r := TransferResult(st, ev, value);
      var burns := r.transactions[ev.hash].burns;
      && r.transactions[ev.hash].mints == tx0.mints[..|tx0.mints| - 1]
      && tx0.mints[|tx0.mints| - 1] !in r.mints
      && |burns| > 0 && burns[|burns| - 1] in r.burns
      && r.burns[burns[|burns| - 1]].feeTo == Some(fee.to)
      && r.burns[burns[|burns| - 1]].feeLiquidity == Some(fee.liquidity)
  {
  }

  /** The mint step of a transfer keeps the records consistent. */
  lemma MintStepValid(st: Store, ev: TransferLog, value: real, tx0: Transaction)
    requires RecordsValid(st.transactions[ev.hash := tx0], st.mints, st.burns, st.flashLoans)
    ensures var m := MintsAfter(tx0, st.mints, ev, value);
      RecordsValid(st.transactions[ev.hash := tx0.(mints := m.ids)], m.records, st.burns, st.flashLoans)
  {
    var m := MintsAfter(tx0, st.mints, ev, value);
    if ev.from == ADDRESS_ZERO && PendingMint(st.mints, tx0).None? {
      AppendMintValid(st.transactions, st.mints, st.burns, st.flashLoans, ev.hash, tx0,
                      m.records[EventId(ev.hash, |tx0.mints|)]);
    } else if IsBurnOfPoolTokens(ev) && PendingMint(st.mints, tx0).Some? {
      DropMintValid(st.transactions, st.mints, st.burns, st.flashLoans, ev.hash, tx0);
    } else {
      assert tx0.(mints := m.ids) == tx0;
    }
  }

  /** The burn step of a transfer, after its mint step turned `tx0` into `tx1`, keeps the records consistent. */
  lemma BurnStepValid(st: Store, mints': map<EventId, Mint>, ev: TransferLog, value: real, tx0: Transaction, tx1: Transaction)
    requires tx1.burns == tx0.burns
    requires RecordsValid(st.transactions[ev.hash := tx1], mints', st.burns, st.flashLoans)
    ensures var b := BurnsAfter(tx0, st.mints, st.burns, ev, value);
      RecordsValid(st.transactions[ev.hash := tx1.(burns := b.ids)], mints', b.records, st.flashLoans)
  {
    var b := BurnsAfter(tx0, st.mints, st.burns, ev, value);
    var id := EventId(ev.hash, |tx1.burns|);
    if ev.to == ev.address || (IsBurnOfPoolTokens(ev) && !AwaitingBurn(st.burns, tx0)) {
      AppendBurnValid(st.transactions, mints', st.burns, st.flashLoans, ev.hash, tx1, b.records[id]);
    } else if IsBurnOfPoolTokens(ev) {
      var last := tx0.burns[|tx0.burns| - 1];
      SetBurnValid(st.transactions[ev.hash := tx1], mints', st.burns, st.flashLoans, last, b.records[last]);
      assert tx1.(burns := b.ids) == tx1;
    } else {
      assert tx1.(burns := b.ids) == tx1;
    }
  }

  /** A transfer keeps the mint, burn and flash-loan records consistent with their transactions. */
  lemma TransferKeepsRecords(st: Store, ev: TransferLog, value: real)
    requires ev.address in st.pools
    requires RecordsValid(st.transactions, st.mints, st.burns, st.flashLoans)
    ensures var r := TransferResult(st, ev, value);
      RecordsValid(r.transactions, r.mints, r.burns, r.flashLoans)
  {
    if !IsIgnoredTransfer(ev) {
      var tx0 := TxOrNew(st.transactions, ev.hash, ev.block);
      var m := MintsAfter(tx0, st.mints, ev, value);
      TxOrNewValid(st.transactions, st.mints, st.burns, st.flashLoans, ev.hash, ev.block);
      MintStepValid(st, ev, value, tx0);
      BurnStepValid(st, m.records, ev, value, tx0, tx0.(mints := m.ids));
    }
  }

  /** A transfer touches only pool supplies, so the liquidity totals stay the sums of the pools' contributions. */
  lemma TransferKeepsLiquidity(st: Store, ev: TransferLog, value: real)
    requires ev.address in st.pools
    ensures var r := TransferResult(st, ev, value);
      && (LiquidityMatches(st.factory, st.tokens, st.pools) ==> LiquidityMatches(r.factory, r.tokens, r.pools))
      && (PoolsRegistered(st.factory, st.tokens, st.pools) ==> PoolsRegistered(r.factory, r.tokens, r.pools))
  {
    var r := TransferResult(st, ev, value);
    if !IsIgnoredTransfer(ev) {
      SupplyAfterFrame(st.pools, ev, value);
    }
    CountersKeepLiquidity(st.factory, r.factory, st.tokens, r.tokens, st.pools, r.pools);
  }

  // -------------------------------------------------- handleMint, handleBurn

  /** Token, pool and factory of a pool event each count one more transaction. */
  function Counted(st: Store, address: Address): (st': Store)
    requires PoolLoadable(st, address)
    ensures PoolLoadable(st', address)
  {
    var pool := st.pools[address];
    var token := st.tokens[pool.token];
    var factory := st.factory.value;
    st.(tokens := st.tokens[pool.token := token.(txCount := token.txCount + 1)],
        pools := st.pools[address := pool.(txCount := pool.txCount + 1)],
        factory := Some(factory.(txCount := factory.txCount + 1)))
  }

  /** What handleMint loads without a null check: the transaction, its last mint, the pool, its token, factory and bundle. */
  predicate MintLoadable(st: Store, ev: MintLog) {
    && ev.hash in st.transactions
    && |st.transactions[ev.hash].mints| > 0
    && st.transactions[ev.hash].mints[|st.transactions[ev.hash].mints| - 1] in st.mints
    && PoolLoadable(st, ev.address)
  }

  /** The value in USD of `amount` of a token: the token's ETH price times the ETH price. */
  function AmountUSD(token: Token, amount: real, ethPrice: real): real {
    token.derivedETH * amount * ethPrice
  }

  /**
   * The store after a pool's Mint event: the transaction's last mint is
   * completed with the sender, the token amount, the log index and its USD
   * value; token, pool and factory count one more transaction; the buckets
   * are touched with the counted token.
   */
  function MintResult(st: Store, ev: MintLog, convert: (nat, nat) -> real): Store
    requires MintLoadable(st, ev)
  {
    var mints := st.transactions[ev.hash].mints;
    var mintId := mints[|mints| - 1];
    var tokenId := st.pools[ev.address].token;
    var token := st.tokens[tokenId];
    var amount := convert(ev.amount, token.decimals);
    var counted := Counted(st, ev.address);
    var mint := st.mints[mintId].(sender := Some(ev.sender), amount := Some(amount), logIndex := Some(ev.logIndex),
                                  amountUSD := Some(AmountUSD(token, amount, st.bundle.value.ethPrice)));
    TouchBuckets(counted.(mints := counted.mints[mintId := mint]), ev.address, tokenId, counted.tokens[tokenId],
                 ev.block.timestamp)
  }

  /** `handleMint`, with the saves of token, pool, factory and mint folded into the returned store. */
  method HandleMint(st: Store, ev: MintLog, convert: (nat, nat) -> real) returns (st': Store)
    requires MintLoadable(st, ev)
    ensures st' == MintResult(st, ev, convert)
  {
    var transaction := st.transactions[ev.hash];
    var mints := transaction.mints;
    var mint := st.mints[mints[|mints| - 1]];

    var pool := st.pools[ev.address];
    var factory := st.factory.value;
    var token := st.tokens[pool.token];

    // core.ts:338-339: the Mint event's amount at the token's decimals
    var tokenAmount := convert(ev.amount, token.decimals);

    // core.ts:341-342: one more token transaction
    token := token.(txCount := token.txCount + 1);

    // core.ts:344-347: the amount valued in USD at the stored prices
    var bundle := st.bundle.value;
    var amountTotalUSD := token.derivedETH * tokenAmount * bundle.ethPrice;

    // core.ts:349-351: one more transaction on pool and factory
    pool := pool.(txCount := pool.txCount + 1);
    factory := factory.(txCount := factory.txCount + 1);

    // core.ts:353-356: token, pool and factory are written back; core.ts:358-362 then completes the mint
    var saved := st.(tokens := st.tokens[pool.token := token], pools := st.pools[ev.address := pool],
                     factory := Some(factory));

    mint := mint.(sender := Some(ev.sender), amount := Some(tokenAmount), logIndex := Some(ev.logIndex),
                  amountUSD := Some(amountTotalUSD));
    saved := saved.(mints := saved.mints[mints[|mints| - 1] := mint]);
    assert amountTotalUSD == AmountUSD(st.tokens[st.pools[ev.address].token], tokenAmount, st.bundle.value.ethPrice);

    // core.ts:368-372: the four buckets are touched
    var poolDayData, poolHourData, flashLoanDayData, tokenDayData;
    st', poolDayData, poolHourData, flashLoanDayData, tokenDayData := UpdateBuckets(saved, ev.address, pool.token, token, ev.block.timestamp);
  }

  /** What handleBurn loads without a null check once its transaction exists. */
  predicate BurnLoadable(st: Store, ev: BurnLog) {
    && ev.hash in st.transactions
    && |st.transactions[ev.hash].burns| > 0
    && st.transactions[ev.hash].burns[|st.transactions[ev.hash].burns| - 1] in st.burns
    && PoolLoadable(st, ev.address)
  }

  /**
   * The store after a pool's Burn event: nothing when no transfer created
   * its transaction; otherwise the transaction's last burn gets the token
   * amount, the log index and its USD value, token, pool and factory count
   * one more transaction and the buckets are touched.
   */
  function BurnResult(st: Store, ev: BurnLog, convert: (nat, nat) -> real): Store
    requires ev.hash in st.transactions ==> BurnLoadable(st, ev)
  {
    if ev.hash !in st.transactions then st
    else
      var burns := st.transactions[ev.hash].burns;
      var burnId := burns[|burns| - 1];
      var tokenId := st.pools[ev.address].token;
      var token := st.tokens[tokenId];
      var amount := convert(ev.amount, token.decimals);
      var counted := Counted(st, ev.address);
      var burn := st.burns[burnId].(amount := Some(amount), logIndex := Some(ev.logIndex),
                                    amountUSD := Some(AmountUSD(token, amount, st.bundle.value.ethPrice)));
      TouchBuckets(counted.(burns := counted.burns[burnId := burn]), ev.address, tokenId, counted.tokens[tokenId],
                   ev.block.timestamp)
  }

  /** `handleBurn`, with the saves of token, pool, factory and burn folded into the returned store. */
  method HandleBurn(st: Store, ev: BurnLog, convert: (nat, nat) -> real) returns (st': Store)
    requires ev.hash in st.transactions ==> BurnLoadable(st, ev)
    ensures st' == BurnResult(st, ev, convert)
  {
    // core.ts:378-381: a Burn event whose transaction no transfer created changes nothing
    if ev.hash !in st.transactions {
      return st;
    }
    var transaction := st.transactions[ev.hash];

    var burns := transaction.burns;
    var burn := st.burns[burns[|burns| - 1]];

    var pool := st.pools[ev.address];
    var factory := st.factory.value;

    // core.ts:389-391: the Burn event's amount at the token's decimals
    var token := st.tokens[pool.token];
    var tokenAmount := convert(ev.amount, token.decimals);

    // core.ts:393-394: one more token transaction
    token := token.(txCount := token.txCount + 1);

    // core.ts:396-399: the amount valued in USD at the stored prices
    var bundle := st.bundle.value;
    var amountTotalUSD := token.derivedETH * tokenAmount * bundle.ethPrice;

    // core.ts:401-403: one more transaction on factory and pool
    factory := factory.(txCount := factory.txCount + 1);
    pool := pool.(txCount := pool.txCount + 1);

    // core.ts:405-408: token, pool and factory are written back
    var saved := st.(tokens := st.tokens[pool.token := token], pools := st.pools[ev.address := pool],
                     factory := Some(factory));

    // core.ts:410-416: the last burn takes the amount, the log index and the USD value
    burn := burn.(amount := Some(tokenAmount), logIndex := Some(ev.logIndex), amountUSD := Some(amountTotalUSD));
    saved := saved.(burns := saved.burns[burns[|burns| - 1] := burn]);
    assert amountTotalUSD == AmountUSD(st.tokens[st.pools[ev.address].token], tokenAmount, st.bundle.value.ethPrice);

    // core.ts:422-426: the four buckets are touched
    var poolDayData, poolHourData, flashLoanDayData, tokenDayData;
    st', poolDayData, poolHourData, flashLoanDayData, tokenDayData := UpdateBuckets(saved, ev.address, pool.token, token, ev.block.timestamp);
  }

  // ------------------------------------------------ mint and burn properties

  /**
   * `st'` is `st` with the pool at `address`, its token and the factory
   * each counting exactly one more transaction, and no other pool, token
   * or field of them changed.
   */
  ghost predicate CountedOnce(st: Store, st': Store, address: Address)
    requires PoolLoadable(st, address)
  {
    var tokenId := st.pools[address].token;
    && st'.pools.Keys == st.pools.Keys && st'.tokens.Keys == st.tokens.Keys && st'.factory.Some?
    && st'.pools[address] == st.pools[address].(txCount := st.pools[address].txCount + 1)
    && st'.tokens[tokenId] == st.tokens[tokenId].(txCount := st.tokens[tokenId].txCount + 1)
    && st'.factory.value == st.factory.value.(txCount := st.factory.value.txCount + 1)
    && (forall p :: p in st.pools && p != address ==> st'.pools[p] == st.pools[p])
    && (forall t :: t in st.tokens && t != tokenId ==> st'.tokens[t] == st.tokens[t])
  }

  /** Counting a transaction changes no liquidity and keeps every pool's token registered. */
  lemma CountedKeepsLiquidity(st: Store, st': Store, address: Address)
    requires PoolLoadable(st, address) && CountedOnce(st, st', address)
    ensures LiquidityMatches(st.factory, st.tokens, st.pools) ==> LiquidityMatches(st'.factory, st'.tokens, st'.pools)
    ensures PoolsRegistered(st.factory, st.tokens, st.pools) ==> PoolsRegistered(st'.factory, st'.tokens, st'.pools)
  {
    assert SameContributions(st.pools, st'.pools);
    CountersKeepLiquidity(st.factory, st'.factory, st.tokens, st'.tokens, st.pools, st'.pools);
  }

  /**
   * A Mint event completes its transaction's last mint with the sender,
   * the token amount, the log index and the USD value, keeps that mint's
   * pool, recipient and liquidity, and changes no other record or
   * transaction.
   */
  lemma MintCompletes(st: Store, ev: MintLog, convert: (nat, nat) -> real)
    requires MintLoadable(st, ev)
    ensures var mints := st.transactions[ev.hash].mints;
      var id := mints[|mints| - 1];
      var token := st.tokens[st.pools[ev.address].token];
      var amount := convert(ev.amount, token.decimals);
      var r := MintResult(st, ev, convert);
      && r.mints.Keys == st.mints.Keys && IsCompleteMint(r.mints, id)
      && r.mints[id].sender == Some(ev.sender) && r.mints[id].amount == Some(amount)
      && r.mints[id].logIndex == Some(ev.logIndex)
      && r.mints[id].amountUSD == Some(token.derivedETH * amount * st.bundle.value.ethPrice)
      && r.mints[id].pool == st.mints[id].pool && r.mints[id].to == st.mints[id].to
      && r.mints[id].liquidity == st.mints[id].liquidity
      && (forall x :: x in st.mints && x != id ==> r.mints[x] == st.mints[x])
      && r.transactions == st.transactions && r.burns == st.burns && r.flashLoans == st.flashLoans
  {
    var mints := st.transactions[ev.hash].mints;
    var id := mints[|mints| - 1];
    var tokenId := st.pools[ev.address].token;
    var amount := convert(ev.amount, st.tokens[tokenId].decimals);
    var counted := Counted(st, ev.address);
    var mint := st.mints[id].(sender := Some(ev.sender), amount := Some(amount), logIndex := Some(ev.logIndex),
                              amountUSD := Some(AmountUSD(st.tokens[tokenId], amount, st.bundle.value.ethPrice)));
    assert MintResult(st, ev, convert) ==
      TouchBuckets(counted.(mints := counted.mints[id := mint]), ev.address, tokenId, counted.tokens[tokenId], ev.block.timestamp);
  }

  /** A Mint event counts one transaction on its pool, the pool's token and the factory. */
  lemma MintCounts(st: Store, ev: MintLog, convert: (nat, nat) -> real)
    requires MintLoadable(st, ev)
    ensures CountedOnce(st, MintResult(st, ev, convert), ev.address)
  {
  }

  /**
   * A Burn event without a transaction changes nothing; otherwise it sets
   * the token amount, the log index and the USD value of the transaction's
   * last burn, keeps all its other fields (whether it needs completion
   * among them), and changes no other record or transaction.
   */
  lemma BurnCompletes(st: Store, ev: BurnLog, convert: (nat, nat) -> real)
    requires ev.hash in st.transactions ==> BurnLoadable(st, ev)
    ensures ev.hash !in st.transactions ==> BurnResult(st, ev, convert) == st
    ensures ev.hash in st.transactions ==>
      var burns := st.transactions[ev.hash].burns;
      var id := burns[|burns| - 1];
      var token := st.tokens[st.pools[ev.address].token];
      var amount := convert(ev.amount, token.decimals);
      var r := BurnResult(st, ev, convert);
      && r.burns.Keys == st.burns.Keys
      && r.burns[id] == st.burns[id].(amount := Some(amount), logIndex := Some(ev.logIndex),
                                      amountUSD := Some(token.derivedETH * amount * st.bundle.value.ethPrice))
      && (forall x :: x in st.burns && x != id ==> r.burns[x] == st.burns[x])
      && r.transactions == st.transactions && r.mints == st.mints && r.flashLoans == st.flashLoans
  {
    if ev.hash in st.transactions {
      var burns := st.transactions[ev.hash].burns;
      var id := burns[|burns| - 1];
      var tokenId := st.pools[ev.address].token;
      var amount := convert(ev.amount, st.tokens[tokenId].decimals);
      var counted := Counted(st, ev.address);
      var burn := st.burns[id].(amount := Some(amount), logIndex := Some(ev.logIndex),
                                amountUSD := Some(AmountUSD(st.tokens[tokenId], amount, st.bundle.value.ethPrice)));
      assert BurnResult(st, ev, convert) ==
        TouchBuckets(counted.(burns := counted.burns[id := burn]), ev.address, tokenId, counted.tokens[tokenId], ev.block.timestamp);
    }
  }

  /** A Burn event with a transaction counts one transaction on its pool, the pool's token and the factory. */
  lemma BurnCounts(st: Store, ev: BurnLog, convert: (nat, nat) -> real)
    requires BurnLoadable(st, ev)
    ensures CountedOnce(st, BurnResult(st, ev, convert), ev.address)
  {
  }

  /** A Mint event keeps the records consistent with their transactions. */
  lemma MintKeepsRecords(st: Store, ev: MintLog, convert: (nat, nat) -> real)
    requires MintLoadable(st, ev)
    requires RecordsValid(st.transactions, st.mints, st.burns, st.flashLoans)
    ensures var r := MintResult(st, ev, convert);
      RecordsValid(r.transactions, r.mints, r.burns, r.flashLoans)
  {
    var mints := st.transactions[ev.hash].mints;
    var id := mints[|mints| - 1];
    var r := MintResult(st, ev, convert);
    MintRewritesLastMint(st, ev, convert);
    CompleteMintValid(st.transactions, st.mints, st.burns, st.flashLoans, id, r.mints[id]);
  }

  /** The only record a Mint event rewrites is its transaction's last mint, which it completes. */
  lemma MintRewritesLastMint(st: Store, ev: MintLog, convert: (nat, nat) -> real)
    requires MintLoadable(st, ev)
    ensures var mints := st.transactions[ev.hash].mints;
      var id := mints[|mints| - 1];
      var r := MintResult(st, ev, convert);
      && r.mints == st.mints[id := r.mints[id]] && r.mints[id].sender.Some?
      && r.transactions == st.transactions && r.burns == st.burns && r.flashLoans == st.flashLoans
  {
    var mints := st.transactions[ev.hash].mints;
    var id := mints[|mints| - 1];
    var r := MintResult(st, ev, convert);
    var counted := Counted(st, ev.address);
    assert r.mints == counted.mints[id := r.mints[id]];
  }

  /** A Mint event keeps the liquidity sums and every pool's token registered. */
  lemma MintKeepsLiquidity(st: Store, ev: MintLog, convert: (nat, nat) -> real)
    requires MintLoadable(st, ev)
    ensures var r := MintResult(st, ev, convert);
      && (LiquidityMatches(st.factory, st.tokens, st.pools) ==> LiquidityMatches(r.factory, r.tokens, r.pools))
      && (PoolsRegistered(st.factory, st.tokens, st.pools) ==> PoolsRegistered(r.factory, r.tokens, r.pools))
  {
    MintCounts(st, ev, convert);
    CountedKeepsLiquidity(st, MintResult(st, ev, convert), ev.address);
  }

  /** A Mint event keeps every bucket under its own key. */
  lemma MintKeepsBuckets(st: Store, ev: MintLog, convert: (nat, nat) -> real)
    requires MintLoadable(st, ev) && BucketsAligned(st)
    ensures BucketsAligned(MintResult(st, ev, convert))
  {
    var mints := st.transactions[ev.hash].mints;
    var id := mints[|mints| - 1];
    var tokenId := st.pools[ev.address].token;
    var counted := Counted(st, ev.address);
    var saved := counted.(mints := MintResult(st, ev, convert).mints);
    assert MintResult(st, ev, convert) == TouchBuckets(saved, ev.address, tokenId, counted.tokens[tokenId], ev.block.timestamp);
    assert BucketsAligned(saved);
    TouchBucketsAligned(saved, ev.address, tokenId, counted.tokens[tokenId], ev.block.timestamp);
  }

  /** A Burn event keeps the records consistent and the liquidity sums. */
  lemma BurnKeepsRecords(st: Store, ev: BurnLog, convert: (nat, nat) -> real)
    requires ev.hash in st.transactions ==> BurnLoadable(st, ev)
    ensures var r := BurnResult(st, ev, convert);
      && (RecordsValid(st.transactions, st.mints, st.burns, st.flashLoans) ==>
            RecordsValid(r.transactions, r.mints, r.burns, r.flashLoans))
      && (LiquidityMatches(st.factory, st.tokens, st.pools) ==> LiquidityMatches(r.factory, r.tokens, r.pools))
      && (PoolsRegistered(st.factory, st.tokens, st.pools) ==> PoolsRegistered(r.factory, r.tokens, r.pools))
  {
    if ev.hash in st.transactions {
      var burns := st.transactions[ev.hash].burns;
      var id := burns[|burns| - 1];
      var r := BurnResult(st, ev, convert);
      BurnCompletes(st, ev, convert);
      if RecordsValid(st.transactions, st.mints, st.burns, st.flashLoans) {
        SetBurnValid(st.transactions, st.mints, st.burns, st.flashLoans, id, r.burns[id]);
        assert r.burns == st.burns[id := r.burns[id]];
      }
      BurnCounts(st, ev, convert);
      CountedKeepsLiquidity(st, r, ev.address);
    }
  }

  /** A Burn event keeps every bucket under its own key. */
  lemma BurnKeepsBuckets(st: Store, ev: BurnLog, convert: (nat, nat) -> real)
    requires ev.hash in st.transactions ==> BurnLoadable(st, ev)
    requires BucketsAligned(st)
    ensures BucketsAligned(BurnResult(st, ev, convert))
  {
    if ev.hash in st.transactions {
      var tokenId := st.pools[ev.address].token;
      var counted := Counted(st, ev.address);
      var saved := counted.(burns := BurnResult(st, ev, convert).burns);
      assert BurnResult(st, ev, convert) == TouchBuckets(saved, ev.address, tokenId, counted.tokens[tokenId], ev.block.timestamp);
      assert BucketsAligned(saved);
      TouchBucketsAligned(saved, ev.address, tokenId, counted.tokens[tokenId], ev.block.timestamp);
    }
  }

  /**
   * The two halves of a liquidity addition meet: after a transfer from the
   * zero address opens mint `<hash>-n`, the pool's Mint event in the same
   * transaction finds that mint last and completes it, keeping the
   * recipient and liquidity the transfer recorded.
   */
  lemma TransferThenMint(st: Store, transfer: TransferLog, value: real, ev: MintLog, convert: (nat, nat) -> real)
    requires transfer.address in st.pools && transfer.address != ADDRESS_ZERO
    requires transfer.from == ADDRESS_ZERO && !IsIgnoredTransfer(transfer)
    requires PendingMint(st.mints, TxOrNew(st.transactions, transfer.hash, transfer.block)).None?
    requires ev.hash == transfer.hash && PoolLoadable(st, ev.address)
    ensures var st1 := TransferResult(st, transfer, value);
      MintLoadable(st1, ev) &&
      var id := EventId(transfer.hash, |TxOrNew(st.transactions, transfer.hash, transfer.block).mints|);
      var st2 := MintResult(st1, ev, convert);
      && id in st2.mints && IsCompleteMint(st2.mints, id) && st2.mints[id].sender == Some(ev.sender)
      && st2.mints[id].to == transfer.to && st2.mints[id].liquidity == value
  {
    var st1 := TransferResult(st, transfer, value);
    TransferOpensMint(st, transfer, value);
    TransferFrame(st, transfer, value);
    assert PoolLoadable(st1, ev.address);
    MintCompletes(st1, ev, convert);
  }
}
