/** Inserting transactions and recording credits keep the ledger consistent. */
module InsertProof {
  import opened TxTypes
  import opened Ledgers
  import opened LedgerInv
  import opened LedgerOps

  ghost predicate KnownHash(l: Ledger, h: Hash) {
    h in l.txs || exists k :: k in l.mined && l.mined[k].tx.hash == h
  }

  /** A new unconfirmed transaction is unknown and double spends nothing in the pool. */
  ghost predicate CanInsertUnmined(l: Ledger, tx: Tx) {
    tx.hash in l.txs ||
    (!KnownHash(l, tx.hash) && forall op :: op in tx.inputs ==> op !in l.prevOuts)
  }

  lemma TouchPool(txs: Pool, su: map<OutPoint, Hash>, prev: map<OutPoint, Hash>, h: Hash, r: TxRecord)
    requires PoolOk(txs) && SpentUnconfOk(txs, su) && MarksOk(txs, su) && PrevOutsOk(txs, prev)
    requires h in txs && r.tx == txs[h].tx && r.index == INDEX_UNKNOWN && r.debits == txs[h].debits
    requires r.credits == txs[h].credits
    ensures PoolOk(txs[h := r]) && SpentUnconfOk(txs[h := r], su) && MarksOk(txs[h := r], su)
    ensures PrevOutsOk(txs[h := r], prev)
  {
    forall op | op in su ensures Spender(txs[h := r], su[op], op) { assert Spender(txs, su[op], op); }
  }

  lemma AddPool(m: Mined, txs: Pool, outs: map<BlockOutputKey, Hash>, su: map<OutPoint, Hash>, h: Hash, r: TxRecord)
    requires PoolOk(txs) && HashesOk(m, txs) && SpentUnconfOk(txs, su) && MarksOk(txs, su) && SpendersOk(m, txs, outs)
    requires h !in txs && r.tx.hash == h && r.index == INDEX_UNKNOWN && r.debits.None? && r.credits == []
    requires forall k :: k in m ==> m[k].tx.hash != h
    ensures PoolOk(txs[h := r]) && HashesOk(m, txs[h := r]) && SpentUnconfOk(txs[h := r], su)
    ensures MarksOk(txs[h := r], su)
    ensures SpendersOk(m, txs[h := r], outs)
  {
    forall op | op in su ensures Spender(txs[h := r], su[op], op) { assert Spender(txs, su[op], op); }
    forall p | p in outs
      ensures p.tx in m && Spender(txs[h := r], outs[p], OpOf(m, p))
    {
      assert Spender(txs, outs[p], OpOf(m, p));
    }
  }

  lemma PoolIndex(txs: Pool, h: Hash)
    requires PoolOk(txs) && h in txs
    ensures txs[h].index == INDEX_UNKNOWN
  {
  }

  lemma StillApart(m: Mined, txs: Pool, h: Hash, r: TxRecord)
    requires HashesOk(m, txs) && h in txs
    ensures HashesOk(m, txs[h := r])
  {
  }

  lemma InsertUnminedKeepsLinks(l: Ledger, tx: Tx, now: int)
    requires Linked(l) && CanInsertUnmined(l, tx)
    ensures Linked(InsertUnmined(l, tx, now))
  {
    hide MinedOk, PoolOk, HashesOk, UnspentSound, SpentByOk, SpendsOk, SpentOutsOk, SpentKeysOk, SpendersOk;
    hide SpentUnconfOk, MarksOk, PrevOutsOk;
    var h := tx.hash;
    if h in l.txs {
      var r := l.txs[h].(received := now);
      PoolIndex(l.txs, h);
      TouchPool(l.txs, l.spentUnconf, l.prevOuts, h, r);
      SpendersKept(l.mined, l.txs, l.txs[h := r], l.spentOuts);
      StillApart(l.mined, l.txs, h, r);
    } else {
      var r := FreshRecord(tx, INDEX_UNKNOWN, now);
      AddPool(l.mined, l.txs, l.spentOuts, l.spentUnconf, h, r);
      AddToPrevOuts(l.txs, l.prevOuts, h, r);
    }
  }

  /** An unconfirmed insert checks nothing, so it keeps every link exactly when
      the transaction is already in the pool, or is not mined and shares no
      input with the pool. */
  lemma InsertUnminedKeepsLinksIff(l: Ledger, tx: Tx, now: int)
    requires Linked(l)
    ensures Linked(InsertUnmined(l, tx, now)) <==> CanInsertUnmined(l, tx)
  {
    hide MinedOk, PoolOk, UnspentSound, SpentByOk, SpendsOk, SpentOutsOk, SpentKeysOk, SpendersOk, SpentUnconfOk;
    hide MarksOk;
    var l' := InsertUnmined(l, tx, now);
    if CanInsertUnmined(l, tx) {
      InsertUnminedKeepsLinks(l, tx, now);
    } else if op :| op in tx.inputs && op in l.prevOuts {
      var h := l.prevOuts[op];
      assert h in l'.txs && op in l'.txs[h].tx.inputs && l'.prevOuts[op] == tx.hash;
    } else {
      assert tx.hash in l'.txs;
    }
  }

  // ---------------------------------------------- a transaction new in a block

  ghost predicate CanAppend(l: Ledger, tx: Tx, key: BlockTxKey) {
    key !in l.mined && 0 <= key.height && 0 <= key.index && !KnownHash(l, tx.hash)
  }

  lemma AppendKeepsMined(m: Mined, heights: set<int>, txs: Pool, key: BlockTxKey, r: TxRecord)
    requires MinedOk(m, heights) && HashesOk(m, txs)
    requires key !in m && 0 <= key.height && 0 <= key.index && r.index == key.index
    requires r.debits.None? && r.credits == [] && r.tx.hash !in txs && forall k :: k in m ==> m[k].tx.hash != r.tx.hash
    ensures MinedOk(m[key := r], heights + {key.height}) && HashesOk(m[key := r], txs)
    ensures Relinks(m, m[key := r], {}, None)
  {
  }

  /** A record without credits or debits changes no link. */
  lemma GrowKeepsLinks(m: Mined, n: Mined, key: BlockTxKey, outs: map<BlockOutputKey, Hash>,
      keys: map<OutPoint, BlockOutputKey>)
    requires SpentByOk(m, outs) && SpendsOk(m) && SpentOutsOk(m, outs, keys) && SpentKeysOk(m, outs, keys)
    requires Relinks(m, n, {}, None) && n.Keys == m.Keys + {key} && key !in m && n[key].debits.None?
    requires n[key].credits == []
    ensures SpentByOk(n, outs) && SpendsOk(n) && SpentOutsOk(n, outs, keys) && SpentKeysOk(n, outs, keys)
  {
    forall p | IsCredit(n, p) ensures IsCredit(m, p) {}
    forall p | IsCredit(n, p) && SpentBy(n, p).Some?
      ensures if SpentBy(n, p).value == UNMINED then p in outs else Lists(n, SpentBy(n, p).value, p)
    {
      if SpentBy(n, p).value != UNMINED { assert Lists(m, SpentBy(m, p).value, p); }
    }
    forall k, p | Lists(n, k, p) ensures SpendAt(n, k, p) {
      assert Lists(m, k, p) && SpendAt(m, k, p);
    }
  }

  lemma GrowKeepsUnspent(m: Mined, n: Mined, key: BlockTxKey, txs: Pool, outs: map<BlockOutputKey, Hash>,
      unspent: map<OutPoint, BlockTxKey>)
    requires UnspentSound(m, unspent) && SpendersOk(m, txs, outs)
    requires Relinks(m, n, {}, None) && n.Keys == m.Keys + {key} && key !in m && n[key].credits == []
    ensures UnspentSound(n, unspent) && SpendersOk(n, txs, outs)
    ensures UnspentComplete(m, unspent) ==> UnspentComplete(n, unspent)
  {
    forall op | op in unspent ensures UnspentAt(n, BlockOutputKey(unspent[op], op.index), op) {
      assert UnspentAt(m, BlockOutputKey(unspent[op], op.index), op);
    }
    forall p | p in outs ensures p.tx in n && Spender(txs, outs[p], OpOf(n, p)) {
      assert Spender(txs, outs[p], OpOf(m, p));
    }
    forall p | IsCredit(n, p) ensures IsCredit(m, p) {}
  }

  lemma AppendKeepsLinks(l: Ledger, tx: Tx, key: BlockTxKey, received: int)
    requires Linked(l) && CanAppend(l, tx, key)
    ensures Linked(AppendMined(l, tx, key, received))
    ensures UnspentComplete(l.mined, l.unspent) ==> UnspentComplete(AppendMined(l, tx, key, received).mined, l.unspent)
  {
    var r := FreshRecord(tx, key.index, received);
    AppendKeepsMined(l.mined, l.deltas.Keys, l.txs, key, r);
    GrowKeepsLinks(l.mined, l.mined[key := r], key, l.spentOuts, l.spentKeys);
    GrowKeepsUnspent(l.mined, l.mined[key := r], key, l.txs, l.spentOuts, l.unspent);
    assert AppendMined(l, tx, key, received).deltas.Keys == l.deltas.Keys + {key.height};
  }

  /** An insert into a block does not look for the transaction in other blocks:
      with a free place, every link is kept exactly when it is nowhere else. */
  lemma AppendKeepsLinksIff(l: Ledger, tx: Tx, key: BlockTxKey, received: int)
    requires Linked(l) && key !in l.mined
    ensures Linked(AppendMined(l, tx, key, received)) <==> CanAppend(l, tx, key)
  {
    hide PoolOk, UnspentSound, SpentByOk, SpendsOk, SpentOutsOk, SpentKeysOk, SpendersOk, SpentUnconfOk, MarksOk;
    hide PrevOutsOk;
    var l' := AppendMined(l, tx, key, received);
    if CanAppend(l, tx, key) {
      AppendKeepsLinks(l, tx, key, received);
    } else {
      assert key in l'.mined && l'.mined[key].tx.hash == tx.hash;
    }
  }

  // ------------------------------------------------------------------ credits

  /** n is m with the unspent credit p added. */
  ghost predicate AddsCredit(m: Mined, n: Mined, p: BlockOutputKey) {
    && n.Keys == m.Keys && p.tx in m && !IsCredit(m, p)
    && (forall k :: k in m ==>
          n[k].tx == m[k].tx && n[k].index == m[k].index && n[k].debits == m[k].debits)
    && (forall q :: IsCredit(n, q) <==> IsCredit(m, q) || q == p)
    && (forall q :: IsCredit(m, q) ==> IsCredit(n, q) && SpentBy(n, q) == SpentBy(m, q))
    && IsCredit(n, p) && SpentBy(n, p) == None
  }

  lemma WithCreditCredits(m: Mined, k: BlockTxKey, i: nat, change: bool)
    requires k in m && !HasCredit(m[k], i)
    ensures AddsCredit(m, m[k := WithCredit(m[k], i, change)], BlockOutputKey(k, i))
  {
    var n := m[k := WithCredit(m[k], i, change)];
    forall j: nat ensures HasCredit(n[k], j) <==> HasCredit(m[k], j) || j == i
      ensures HasCredit(m[k], j) ==> n[k].credits[j] == m[k].credits[j]
    {
      var g := GrownCredits(m[k].credits, i);
      assert n[k].credits == g[i := Some(Credit(change, None))];
    }
  }

  lemma CreditKeepsLinks(m: Mined, n: Mined, p: BlockOutputKey, outs: map<BlockOutputKey, Hash>,
      keys: map<OutPoint, BlockOutputKey>)
    requires SpentByOk(m, outs) && SpendsOk(m) && SpentOutsOk(m, outs, keys) && SpentKeysOk(m, outs, keys)
    requires AddsCredit(m, n, p)
    ensures SpentByOk(n, outs) && SpendsOk(n) && SpentOutsOk(n, outs, keys) && SpentKeysOk(n, outs, keys)
  {
    forall q | IsCredit(n, q) && SpentBy(n, q).Some?
      ensures if SpentBy(n, q).value == UNMINED then q in outs else Lists(n, SpentBy(n, q).value, q)
    {
      if SpentBy(n, q).value != UNMINED { assert Lists(m, SpentBy(m, q).value, q); }
    }
    forall k, q | Lists(n, k, q) ensures SpendAt(n, k, q) {
      assert Lists(m, k, q) && SpendAt(m, k, q);
    }
  }

  lemma CreditKeepsUnspent(m: Mined, n: Mined, p: BlockOutputKey, txs: Pool, outs: map<BlockOutputKey, Hash>,
      unspent: map<OutPoint, BlockTxKey>)
    requires UnspentSound(m, unspent) && SpendersOk(m, txs, outs) && HashesOk(m, txs) && AddsCredit(m, n, p)
    ensures UnspentSound(n, unspent[OpOf(m, p) := p.tx]) && SpendersOk(n, txs, outs) && HashesOk(n, txs)
    ensures UnspentComplete(m, unspent) ==> UnspentComplete(n, unspent[OpOf(m, p) := p.tx])
  {
    var u := unspent[OpOf(m, p) := p.tx];
    forall op | op in u ensures UnspentAt(n, BlockOutputKey(u[op], op.index), op) {
      if op == OpOf(m, p) {
        assert BlockOutputKey(u[op], op.index) == p;
      } else {
        assert UnspentAt(m, BlockOutputKey(unspent[op], op.index), op);
      }
    }
    forall q | q in outs ensures q.tx in n && Spender(txs, outs[q], OpOf(n, q)) {
      assert Spender(txs, outs[q], OpOf(m, q));
    }
  }

  lemma PoolCreditKeeps(txs: Pool, su: map<OutPoint, Hash>, prev: map<OutPoint, Hash>, h: Hash, i: nat, change: bool)
    requires PoolOk(txs) && SpentUnconfOk(txs, su) && MarksOk(txs, su) && PrevOutsOk(txs, prev)
    requires h in txs && i < |txs[h].tx.outputs| && !HasCredit(txs[h], i)
    ensures var n := txs[h := WithCredit(txs[h], i, change)];
            PoolOk(n) && SpentUnconfOk(n, su) && MarksOk(n, su) && PrevOutsOk(n, prev)
  {
    var n := txs[h := WithCredit(txs[h], i, change)];
    var g := GrownCredits(txs[h].credits, i);
    assert n[h].credits == g[i := Some(Credit(change, None))];
    assert forall j: nat :: HasCredit(txs[h], j) ==> HasCredit(n[h], j);
    forall op | op in su ensures Spender(n, su[op], op) { assert Spender(txs, su[op], op); }
  }

  lemma SpendersKept(m: Mined, txs: Pool, n: Pool, outs: map<BlockOutputKey, Hash>)
    requires SpendersOk(m, txs, outs)
    requires forall h :: h in txs ==> h in n && n[h].tx == txs[h].tx && (txs[h].debits.Some? ==> n[h].debits.Some?)
    ensures SpendersOk(m, n, outs)
  {
    forall p | p in outs ensures Spender(n, outs[p], OpOf(m, p)) { assert Spender(txs, outs[p], OpOf(m, p)); }
  }

  lemma MinedCreditOk(m: Mined, deltas: map<int, Amounts>, k: BlockTxKey, i: nat, change: bool)
    requires MinedOk(m, deltas.Keys) && k in m && !HasCredit(m[k], i) && i < |m[k].tx.outputs|
    ensures MinedOk(m[k := WithCredit(m[k], i, change)], deltas.Keys) && k.height in deltas
  {
  }

  lemma AddMinedCreditKeepsLinks(l: Ledger, t: TxRef, i: nat, change: bool)
    requires Linked(l) && LiveTx(l, t) && t.key != UNMINED && AddCredit(l, t, i, change).Ok?
    ensures Linked(AddCredit(l, t, i, change).value)
    ensures var l' := AddCredit(l, t, i, change).value;
            UnspentComplete(l.mined, l.unspent) ==> UnspentComplete(l'.mined, l'.unspent)
  {
    hide MinedOk, PoolOk, HashesOk, UnspentSound, UnspentComplete, SpentByOk, SpendsOk, SpentOutsOk, SpentKeysOk;
    hide SpendersOk, SpentUnconfOk, MarksOk, PrevOutsOk;
    if !HasCredit(l.mined[t.key], i) {
      var p := BlockOutputKey(t.key, i);
      var n := l.mined[t.key := WithCredit(l.mined[t.key], i, change)];
      WithCreditCredits(l.mined, t.key, i, change);
      MinedCreditOk(l.mined, l.deltas, t.key, i, change);
      CreditKeepsLinks(l.mined, n, p, l.spentOuts, l.spentKeys);
      CreditKeepsUnspent(l.mined, n, p, l.txs, l.spentOuts, l.unspent);
      assert AddCredit(l, t, i, change).value.deltas.Keys == l.deltas.Keys;
    }
  }

  lemma AddPoolCreditKeepsLinks(l: Ledger, t: TxRef, i: nat, change: bool)
    requires Linked(l) && LiveTx(l, t) && t.key == UNMINED && AddCredit(l, t, i, change).Ok?
    ensures Linked(AddCredit(l, t, i, change).value)
  {
    if !HasCredit(l.txs[t.hash], i) {
      PoolCreditKeeps(l.txs, l.spentUnconf, l.prevOuts, t.hash, i, change);
      SpendersKept(l.mined, l.txs, l.txs[t.hash := WithCredit(l.txs[t.hash], i, change)], l.spentOuts);
    }
  }

  /** Recording a credit always keeps every link, and the unspent scan exact. */
  lemma AddCreditKeepsLinks(l: Ledger, t: TxRef, i: nat, change: bool)
    requires Linked(l) && LiveTx(l, t) && AddCredit(l, t, i, change).Ok?
    ensures var l' := AddCredit(l, t, i, change).value;
            Linked(l') && (UnspentComplete(l.mined, l.unspent) ==> UnspentComplete(l'.mined, l'.unspent))
  {
    if t.key == UNMINED { AddPoolCreditKeepsLinks(l, t, i, change); }
    else { AddMinedCreditKeepsLinks(l, t, i, change); }
  }
}
