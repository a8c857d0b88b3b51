/** What a consistent ledger satisfies, map by map. */
module LedgerInv {
  import opened TxTypes
  import opened Ledgers

  /** Mined records sit under their own block index, in a block with amounts. */
  ghost predicate MinedOk(m: Mined, heights: set<int>) {
    forall k :: k in m ==>
      && 0 <= k.height && 0 <= k.index && m[k].index == k.index
      && k.height in heights
      && |m[k].credits| <= |m[k].tx.outputs|
      && (k.index == 0 ==> m[k].debits.None?)
  }

  /** Unconfirmed records sit under their own hash and list no spends. */
  ghost predicate PoolOk(txs: Pool) {
    forall h :: h in txs ==>
      && txs[h].tx.hash == h && txs[h].index == INDEX_UNKNOWN
      && |txs[h].credits| <= |txs[h].tx.outputs|
      && (txs[h].debits.Some? ==> txs[h].debits.value.spends == [])
  }

  /** One record per transaction. */
  ghost predicate HashesOk(m: Mined, txs: Pool) {
    && (forall j, k :: j in m && k in m && m[j].tx.hash == m[k].tx.hash ==> j == k)
    && (forall k :: k in m ==> m[k].tx.hash !in txs)
  }

  /** The unspent map lists only mined credits that nothing spends. */
  ghost predicate UnspentSound(m: Mined, unspent: map<OutPoint, BlockTxKey>) {
    forall op :: op in unspent ==> UnspentAt(m, BlockOutputKey(unspent[op], op.index), op)
  }

  ghost predicate UnspentAt(m: Mined, p: BlockOutputKey, op: OutPoint) {
    IsCredit(m, p) && OpOf(m, p) == op && SpentBy(m, p) == None
  }

  /** The unspent map lists every mined credit that nothing spends. */
  ghost predicate UnspentComplete(m: Mined, unspent: map<OutPoint, BlockTxKey>) {
    forall p :: IsCredit(m, p) && SpentBy(m, p) == None ==> OpOf(m, p) in unspent
  }

  ghost predicate Lists(m: Mined, k: BlockTxKey, p: BlockOutputKey) {
    k in m && m[k].debits.Some? && p in m[k].debits.value.spends
  }

  /** A mined credit's spender points back at it. */
  ghost predicate SpentByOk(m: Mined, outs: map<BlockOutputKey, Hash>) {
    forall p :: IsCredit(m, p) && SpentBy(m, p).Some? ==>
      if SpentBy(m, p).value == UNMINED then p in outs else Lists(m, SpentBy(m, p).value, p)
  }

  /** The mined transaction k has the credit p among its inputs, and the
      credit names k as its spender and is no younger than k. */
  ghost predicate SpendAt(m: Mined, k: BlockTxKey, p: BlockOutputKey) {
    && k in m && IsCredit(m, p) && SpentBy(m, p) == Some(k)
    && p.tx.height <= k.height && OpOf(m, p) in m[k].tx.inputs
  }

  /** A mined debit lists each credit it spends once, and nothing else. */
  ghost predicate SpendsOk(m: Mined) {
    && (forall k :: k in m && m[k].debits.Some? ==> NoDup(m[k].debits.value.spends))
    && (forall k, p :: Lists(m, k, p) ==> SpendAt(m, k, p))
  }

  ghost predicate Spender(txs: Pool, h: Hash, op: OutPoint) {
    h in txs && op in txs[h].tx.inputs && txs[h].debits.Some?
  }

  /** Mined credits spent by the pool, and the index from their outpoints. */
  ghost predicate SpentOutsOk(m: Mined, outs: map<BlockOutputKey, Hash>, keys: map<OutPoint, BlockOutputKey>) {
    forall p :: p in outs ==>
      && IsCredit(m, p) && SpentBy(m, p) == Some(UNMINED)
      && OpOf(m, p) in keys && keys[OpOf(m, p)] == p
  }

  ghost predicate SpentKeysOk(m: Mined, outs: map<BlockOutputKey, Hash>, keys: map<OutPoint, BlockOutputKey>) {
    forall op :: op in keys ==> keys[op] in outs && keys[op].tx in m && OpOf(m, keys[op]) == op
  }

  /** Their spenders are live unconfirmed records with that input. */
  ghost predicate SpendersOk(m: Mined, txs: Pool, outs: map<BlockOutputKey, Hash>) {
    forall p :: p in outs ==> p.tx in m && Spender(txs, outs[p], OpOf(m, p))
  }

  /** Unconfirmed credits spent by the pool. */
  ghost predicate SpentUnconfOk(txs: Pool, su: map<OutPoint, Hash>) {
    forall op :: op in su ==>
      op.hash in txs && HasCredit(txs[op.hash], op.index) && Spender(txs, su[op], op)
  }

  /** An unconfirmed credit marked spent has an unconfirmed spender. */
  ghost predicate MarksOk(txs: Pool, su: map<OutPoint, Hash>) {
    forall h, i: nat :: h in txs && HasCredit(txs[h], i) && txs[h].credits[i].value.spentBy.Some? ==>
      txs[h].credits[i].value.spentBy == Some(UNMINED) && OutPoint(h, i) in su
  }

  /** The input index is exactly the inputs of the pool. */
  ghost predicate PrevOutsOk(txs: Pool, prev: map<OutPoint, Hash>) {
    && (forall op :: op in prev ==> prev[op] in txs && op in txs[prev[op]].tx.inputs)
    && (forall h, op :: h in txs && op in txs[h].tx.inputs ==> op in prev && prev[op] == h)
  }

  /** Two-way spend tracking: everything but the completeness of unspent. */
  ghost predicate Linked(l: Ledger) {
    && MinedOk(l.mined, l.deltas.Keys) && PoolOk(l.txs) && HashesOk(l.mined, l.txs)
    && UnspentSound(l.mined, l.unspent)
    && SpentByOk(l.mined, l.spentOuts) && SpendsOk(l.mined)
    && SpentOutsOk(l.mined, l.spentOuts, l.spentKeys) && SpentKeysOk(l.mined, l.spentOuts, l.spentKeys)
    && SpendersOk(l.mined, l.txs, l.spentOuts)
    && SpentUnconfOk(l.txs, l.spentUnconf) && MarksOk(l.txs, l.spentUnconf)
    && PrevOutsOk(l.txs, l.prevOuts)
  }

  ghost predicate Consistent(l: Ledger) {
    Linked(l) && UnspentComplete(l.mined, l.unspent)
  }

  // ------------------------------------------- changing the pool as a whole

  lemma RemoveFromPrevOuts(txs: Pool, prev: map<OutPoint, Hash>, h: Hash)
    requires PrevOutsOk(txs, prev) && h in txs
    ensures PrevOutsOk(txs - {h}, prev - Inputs(txs[h]))
  {
  }

  lemma AddToPrevOuts(txs: Pool, prev: map<OutPoint, Hash>, h: Hash, r: TxRecord)
    requires PrevOutsOk(txs, prev) && h !in txs
    requires forall op :: op in r.tx.inputs ==> op !in prev
    ensures PrevOutsOk(txs[h := r], prev + (map op | op in Inputs(r) :: h))
  {
  }

  /** The mined outputs recorded for the inputs of h are the ones it spends. */
  lemma OutsOwned(m: Mined, txs: Pool, outs: map<BlockOutputKey, Hash>, keys: map<OutPoint, BlockOutputKey>,
                  prev: map<OutPoint, Hash>, h: Hash)
    requires SpentOutsOk(m, outs, keys) && SpentKeysOk(m, outs, keys) && SpendersOk(m, txs, outs)
    requires PrevOutsOk(txs, prev)
    requires h in txs
    ensures forall p :: p in InputOuts(txs[h].tx.inputs, keys) <==> p in outs && outs[p] == h
  {
    var ins := txs[h].tx.inputs;
    forall p ensures p in InputOuts(ins, keys) <==> p in outs && outs[p] == h {
      if p in InputOuts(ins, keys) {
        var op :| op in ins && op in keys && keys[op] == p;
        assert prev[op] == h;
        assert Spender(txs, outs[p], op);
      }
      if p in outs && outs[p] == h {
        assert OpOf(m, p) in ins && OpOf(m, p) in keys;
      }
    }
  }
}
