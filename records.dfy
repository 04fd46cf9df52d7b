/**
 * The logical Mint, Burn and FlashLoan records of src/mappings/core.ts and
 * the invariant that ties them to their transactions.
 *
 * Each Transaction keeps the ids of its records in three ordered lists; the
 * i-th id of a list is `<hash>-i`. A mint is opened by a liquidity-token
 * transfer and completed later by the pool's Mint event; a mint left
 * incomplete when the transaction burns is the protocol fee and is folded
 * into the burn.
 */
module Records {
  import opened Schema

  /**
   * `isCompleteMint`: a mint is complete once the pool's Mint event has
   * filled in its sender. The mint must be stored: the source reads the
   * sender of the loaded record without a null check.
   */
  predicate IsCompleteMint(mints: map<EventId, Mint>, mintId: EventId): (complete: bool)
    requires mintId in mints
    ensures complete <==> mints[mintId].sender.Some?
  {
    mints[mintId].sender.Some?
  }

  // ------------------------------------------------------- store invariant

  /** The i-th id of a transaction's list is `<h>-i`. */
  ghost predicate Indexed(h: Hash, ids: seq<EventId>) {
    forall i :: 0 <= i < |ids| ==> ids[i] == EventId(h, i)
  }

  ghost predicate ListsIndexed(transactions: map<Hash, Transaction>) {
    forall h :: h in transactions ==>
      Indexed(h, transactions[h].mints) && Indexed(h, transactions[h].burns) && Indexed(h, transactions[h].flashLoans)
  }

  /** A mint is stored exactly when its transaction lists it. */
  ghost predicate MintsListed(transactions: map<Hash, Transaction>, mints: map<EventId, Mint>) {
    forall id :: id in mints <==> id.hash in transactions && id.index < |transactions[id.hash].mints|
  }

  ghost predicate BurnsListed(transactions: map<Hash, Transaction>, burns: map<EventId, Burn>) {
    forall id :: id in burns <==> id.hash in transactions && id.index < |transactions[id.hash].burns|
  }

  ghost predicate LoansListed(transactions: map<Hash, Transaction>, flashLoans: map<EventId, FlashLoan>) {
    forall id :: id in flashLoans <==> id.hash in transactions && id.index < |transactions[id.hash].flashLoans|
  }

  /** Every mint but its transaction's last is complete. */
  ghost predicate MintsSettled(transactions: map<Hash, Transaction>, mints: map<EventId, Mint>) {
    forall id :: id in mints && id.hash in transactions && id.index + 1 < |transactions[id.hash].mints| ==> IsCompleteMint(mints, id)
  }

  /**
   * The logical records agree with their transactions: every list holds
   * `<h>-0`, `<h>-1`, ... in order, a record is stored exactly when its
   * transaction lists it, and every mint but a transaction's last is
   * complete.
   */
  ghost predicate RecordsValid(transactions: map<Hash, Transaction>, mints: map<EventId, Mint>,
                               burns: map<EventId, Burn>, flashLoans: map<EventId, FlashLoan>)
  {
    && ListsIndexed(transactions)
    && MintsListed(transactions, mints)
    && BurnsListed(transactions, burns)
    && LoansListed(transactions, flashLoans)
    && MintsSettled(transactions, mints)
  }

  /** The transaction the handler works on: the stored one, or a fresh one with empty lists. */
  function TxOrNew(transactions: map<Hash, Transaction>, hash: Hash, block: Block): Transaction {
    if hash in transactions then transactions[hash] else Transaction(block.number, block.timestamp, [], [], [])
  }

  /** A transaction taken from a consistent store, or a fresh one, keeps the records consistent. */
  lemma TxOrNewValid(transactions: map<Hash, Transaction>, mints: map<EventId, Mint>, burns: map<EventId, Burn>,
                     flashLoans: map<EventId, FlashLoan>, hash: Hash, block: Block)
    requires RecordsValid(transactions, mints, burns, flashLoans)
    ensures RecordsValid(transactions[hash := TxOrNew(transactions, hash, block)], mints, burns, flashLoans)
  {
    if hash in transactions {
      assert transactions[hash := TxOrNew(transactions, hash, block)] == transactions;
    }
  }

  /** The transaction's last mint when it is stored and still incomplete, that is, a fee mint awaiting its burn. */
  function PendingMint(mints: map<EventId, Mint>, tx: Transaction): Option<Mint> {
    if |tx.mints| > 0 && tx.mints[|tx.mints| - 1] in mints && !IsCompleteMint(mints, tx.mints[|tx.mints| - 1])
    then Some(mints[tx.mints[|tx.mints| - 1]])
    else None
  }

  /** The transaction's last burn was set up by a transfer to the pool and still awaits its completion. */
  predicate AwaitingBurn(burns: map<EventId, Burn>, tx: Transaction) {
    |tx.burns| > 0 && tx.burns[|tx.burns| - 1] in burns && burns[tx.burns[|tx.burns| - 1]].needsComplete
  }

  lemma IndexedAppend(h: Hash, ids: seq<EventId>)
    requires Indexed(h, ids)
    ensures Indexed(h, ids + [EventId(h, |ids|)])
  {
  }

  lemma IndexedPrefix(h: Hash, ids: seq<EventId>)
    requires Indexed(h, ids) && |ids| > 0
    ensures Indexed(h, ids[..|ids| - 1])
  {
  }

  /** Replacing transaction `h` by one with indexed lists keeps every list indexed. */
  lemma ListsIndexedKept(transactions: map<Hash, Transaction>, h: Hash, tx: Transaction, tx': Transaction)
    requires ListsIndexed(transactions[h := tx])
    requires Indexed(h, tx'.mints) && Indexed(h, tx'.burns) && Indexed(h, tx'.flashLoans)
    ensures ListsIndexed(transactions[h := tx'])
  {
    var t, t' := transactions[h := tx], transactions[h := tx'];
    forall h' | h' in t'
      ensures Indexed(h', t'[h'].mints) && Indexed(h', t'[h'].burns) && Indexed(h', t'[h'].flashLoans)
    {
      if h' != h {
        assert t'[h'] == t[h'];
      }
    }
  }

  /** A listing, a store and a settlement that do not look at transaction `h`'s changed lists are kept. */
  lemma OthersKept(transactions: map<Hash, Transaction>, mints: map<EventId, Mint>, burns: map<EventId, Burn>,
                   flashLoans: map<EventId, FlashLoan>, h: Hash, tx: Transaction, tx': Transaction)
    requires tx'.mints == tx.mints ==> MintsListed(transactions[h := tx], mints) && MintsSettled(transactions[h := tx], mints)
    requires tx'.burns == tx.burns ==> BurnsListed(transactions[h := tx], burns)
    requires tx'.flashLoans == tx.flashLoans ==> LoansListed(transactions[h := tx], flashLoans)
    ensures tx'.mints == tx.mints ==> MintsListed(transactions[h := tx'], mints) && MintsSettled(transactions[h := tx'], mints)
    ensures tx'.burns == tx.burns ==> BurnsListed(transactions[h := tx'], burns)
    ensures tx'.flashLoans == tx.flashLoans ==> LoansListed(transactions[h := tx'], flashLoans)
  {
    var t, t' := transactions[h := tx], transactions[h := tx'];
    assert forall h' :: h' in t' <==> h' in t;
    assert forall h' :: h' in t' && h' != h ==> t'[h'] == t[h'];
  }

  /** Appending a mint to transaction `h` whose last mint is complete keeps the mints listed and settled. */
  lemma AppendMintListed(transactions: map<Hash, Transaction>, mints: map<EventId, Mint>, h: Hash, tx: Transaction, m: Mint)
    requires MintsListed(transactions[h := tx], mints) && MintsSettled(transactions[h := tx], mints)
    requires Indexed(h, tx.mints)
    requires PendingMint(mints, tx).None?
    ensures var t' := transactions[h := tx.(mints := tx.mints + [EventId(h, |tx.mints|)])];
      var mints' := mints[EventId(h, |tx.mints|) := m];
      MintsListed(t', mints') && MintsSettled(t', mints')
  {
    var id := EventId(h, |tx.mints|);
    var t, t' := transactions[h := tx], transactions[h := tx.(mints := tx.mints + [id])];
    var mints' := mints[id := m];
    forall x | x in mints' && x.hash in t' && x.index + 1 < |t'[x.hash].mints|
      ensures IsCompleteMint(mints', x)
    {
      if x.hash == h && x.index + 1 == |tx.mints| {
        assert x == tx.mints[|tx.mints| - 1];
      } else if x.hash == h {
        assert x in mints && x.index + 1 < |t[x.hash].mints|;
      } else {
        assert t'[x.hash] == t[x.hash];
      }
    }
  }

  /** Dropping transaction `h`'s last mint keeps the mints listed and settled. */
  lemma DropMintListed(transactions: map<Hash, Transaction>, mints: map<EventId, Mint>, h: Hash, tx: Transaction)
    requires MintsListed(transactions[h := tx], mints) && MintsSettled(transactions[h := tx], mints)
    requires Indexed(h, tx.mints) && |tx.mints| > 0
    ensures var t' := transactions[h := tx.(mints := tx.mints[..|tx.mints| - 1])];
      var mints' := mints - {tx.mints[|tx.mints| - 1]};
      MintsListed(t', mints') && MintsSettled(t', mints')
  {
    var id := tx.mints[|tx.mints| - 1];
    assert id == EventId(h, |tx.mints| - 1);
    var t, t' := transactions[h := tx], transactions[h := tx.(mints := tx.mints[..|tx.mints| - 1])];
    assert forall h' :: h' in t' && h' != h ==> t'[h'] == t[h'];
  }

  /** Appending a burn to transaction `h` keeps the burns listed. */
  lemma AppendBurnListed(transactions: map<Hash, Transaction>, burns: map<EventId, Burn>, h: Hash, tx: Transaction, b: Burn)
    requires BurnsListed(transactions[h := tx], burns)
    ensures BurnsListed(transactions[h := tx.(burns := tx.burns + [EventId(h, |tx.burns|)])], burns[EventId(h, |tx.burns|) := b])
  {
    var t, t' := transactions[h := tx], transactions[h := tx.(burns := tx.burns + [EventId(h, |tx.burns|)])];
    assert forall h' :: h' in t' && h' != h ==> t'[h'] == t[h'];
  }

  /** Appending a flash loan to transaction `h` keeps the flash loans listed. */
  lemma AppendLoanListed(transactions: map<Hash, Transaction>, flashLoans: map<EventId, FlashLoan>, h: Hash, tx: Transaction, l: FlashLoan)
    requires LoansListed(transactions[h := tx], flashLoans)
    ensures LoansListed(transactions[h := tx.(flashLoans := tx.flashLoans + [EventId(h, |tx.flashLoans|)])],
                        flashLoans[EventId(h, |tx.flashLoans|) := l])
  {
    var t, t' := transactions[h := tx], transactions[h := tx.(flashLoans := tx.flashLoans + [EventId(h, |tx.flashLoans|)])];
    assert forall h' :: h' in t' && h' != h ==> t'[h'] == t[h'];
  }

  /** The lists of a transaction in a consistent store are indexed and name stored records. */
  lemma TxListsStored(transactions: map<Hash, Transaction>, mints: map<EventId, Mint>, burns: map<EventId, Burn>,
                      flashLoans: map<EventId, FlashLoan>, h: Hash, tx: Transaction)
    requires RecordsValid(transactions[h := tx], mints, burns, flashLoans)
    ensures Indexed(h, tx.mints) && Indexed(h, tx.burns) && Indexed(h, tx.flashLoans)
    ensures forall i :: 0 <= i < |tx.mints| ==> tx.mints[i] in mints
    ensures forall i :: 0 <= i < |tx.burns| ==> tx.burns[i] in burns
    ensures forall i :: 0 <= i < |tx.flashLoans| ==> tx.flashLoans[i] in flashLoans
  {
    assert h in transactions[h := tx];
  }

  lemma AppendMintValid(transactions: map<Hash, Transaction>, mints: map<EventId, Mint>, burns: map<EventId, Burn>,
                        flashLoans: map<EventId, FlashLoan>, h: Hash, tx: Transaction, m: Mint)
    requires RecordsValid(transactions[h := tx], mints, burns, flashLoans)
    requires PendingMint(mints, tx).None?
    ensures RecordsValid(transactions[h := tx.(mints := tx.mints + [EventId(h, |tx.mints|)])],
                         mints[EventId(h, |tx.mints|) := m], burns, flashLoans)
  {
    var tx' := tx.(mints := tx.mints + [EventId(h, |tx.mints|)]);
    TxListsStored(transactions, mints, burns, flashLoans, h, tx);
    AppendMintListed(transactions, mints, h, tx, m);
    IndexedAppend(h, tx.mints);
    ListsIndexedKept(transactions, h, tx, tx');
    OthersKept(transactions, mints, burns, flashLoans, h, tx, tx');
  }

  lemma DropMintValid(transactions: map<Hash, Transaction>, mints: map<EventId, Mint>, burns: map<EventId, Burn>,
                      flashLoans: map<EventId, FlashLoan>, h: Hash, tx: Transaction)
    requires RecordsValid(transactions[h := tx], mints, burns, flashLoans)
    requires |tx.mints| > 0
    ensures RecordsValid(transactions[h := tx.(mints := tx.mints[..|tx.mints| - 1])],
                         mints - {tx.mints[|tx.mints| - 1]}, burns, flashLoans)
  {
    var tx' := tx.(mints := tx.mints[..|tx.mints| - 1]);
    TxListsStored(transactions, mints, burns, flashLoans, h, tx);
    DropMintListed(transactions, mints, h, tx);
    IndexedPrefix(h, tx.mints);
    ListsIndexedKept(transactions, h, tx, tx');
    OthersKept(transactions, mints, burns, flashLoans, h, tx, tx');
  }

  lemma AppendBurnValid(transactions: map<Hash, Transaction>, mints: map<EventId, Mint>, burns: map<EventId, Burn>,
                        flashLoans: map<EventId, FlashLoan>, h: Hash, tx: Transaction, b: Burn)
    requires RecordsValid(transactions[h := tx], mints, burns, flashLoans)
    ensures RecordsValid(transactions[h := tx.(burns := tx.burns + [EventId(h, |tx.burns|)])],
                         mints, burns[EventId(h, |tx.burns|) := b], flashLoans)
  {
    var tx' := tx.(burns := tx.burns + [EventId(h, |tx.burns|)]);
    TxListsStored(transactions, mints, burns, flashLoans, h, tx);
    AppendBurnListed(transactions, burns, h, tx, b);
    IndexedAppend(h, tx.burns);
    ListsIndexedKept(transactions, h, tx, tx');
    OthersKept(transactions, mints, burns, flashLoans, h, tx, tx');
  }

  lemma AppendLoanValid(transactions: map<Hash, Transaction>, mints: map<EventId, Mint>, burns: map<EventId, Burn>,
                        flashLoans: map<EventId, FlashLoan>, h: Hash, tx: Transaction, l: FlashLoan)
    requires RecordsValid(transactions[h := tx], mints, burns, flashLoans)
    ensures RecordsValid(transactions[h := tx.(flashLoans := tx.flashLoans + [EventId(h, |tx.flashLoans|)])],
                         mints, burns, flashLoans[EventId(h, |tx.flashLoans|) := l])
  {
    var tx' := tx.(flashLoans := tx.flashLoans + [EventId(h, |tx.flashLoans|)]);
    TxListsStored(transactions, mints, burns, flashLoans, h, tx);
    AppendLoanListed(transactions, flashLoans, h, tx, l);
    IndexedAppend(h, tx.flashLoans);
    ListsIndexedKept(transactions, h, tx, tx');
    OthersKept(transactions, mints, burns, flashLoans, h, tx, tx');
  }

  /** Overwriting a stored burn keeps the records consistent. */
  lemma SetBurnValid(transactions: map<Hash, Transaction>, mints: map<EventId, Mint>, burns: map<EventId, Burn>,
                     flashLoans: map<EventId, FlashLoan>, id: EventId, b: Burn)
    requires RecordsValid(transactions, mints, burns, flashLoans)
    requires id in burns
    ensures RecordsValid(transactions, mints, burns[id := b], flashLoans)
  {
  }

  /** Overwriting a stored mint with a complete one keeps the records consistent. */
  lemma CompleteMintValid(transactions: map<Hash, Transaction>, mints: map<EventId, Mint>, burns: map<EventId, Burn>,
                          flashLoans: map<EventId, FlashLoan>, id: EventId, m: Mint)
    requires RecordsValid(transactions, mints, burns, flashLoans)
    requires id in mints && m.sender.Some?
    ensures RecordsValid(transactions, mints[id := m], burns, flashLoans)
  {
  }

  /** The burn with a folded fee mint's recipient and liquidity, when there is one. */
  function WithFee(burn: Burn, feeMint: Option<Mint>): Burn {
    match feeMint
    case None => burn
    case Some(m) => burn.(feeTo := Some(m.to), feeLiquidity := Some(m.liquidity))
  }

  /** The transaction's last mint, which a transfer from the zero address loads, is stored. */
  predicate LastMintStored(mints: map<EventId, Mint>, tx: Transaction) {
    |tx.mints| > 0 ==> tx.mints[|tx.mints| - 1] in mints
  }

  /** The records a handler loads through a transaction's lists, its last mint and its last burn, are stored. */
  predicate LastRecordsStored(mints: map<EventId, Mint>, burns: map<EventId, Burn>, tx: Transaction) {
    && LastMintStored(mints, tx)
    && (|tx.burns| > 0 ==> tx.burns[|tx.burns| - 1] in burns)
  }

  /** In consistent records, every transaction the handlers work on can load its last mint and burn. */
  lemma ValidLastStored(transactions: map<Hash, Transaction>, mints: map<EventId, Mint>, burns: map<EventId, Burn>,
                        flashLoans: map<EventId, FlashLoan>, hash: Hash, block: Block)
    requires RecordsValid(transactions, mints, burns, flashLoans)
    ensures LastRecordsStored(mints, burns, TxOrNew(transactions, hash, block))
  {
    TxOrNewValid(transactions, mints, burns, flashLoans, hash, block);
    TxListsStored(transactions, mints, burns, flashLoans, hash, TxOrNew(transactions, hash, block));
  }
}
