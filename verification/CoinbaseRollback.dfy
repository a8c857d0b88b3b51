/** What a rollback that succeeds leaves behind: it skips the coinbases of the
    blocks it detaches, and returns double spends to the pool. */
module CoinbaseRollback {
  import opened TxTypes
  import opened Ledgers
  import opened LedgerInv
  import opened Rollbacks
  import opened ReturnProof
  import opened RollbackProof

  /** The record at c is gone from t, but not what l records of its credits. */
  ghost predicate Abandoned(l: Ledger, c: BlockTxKey, r: TxRecord, t: Ledger) {
    c !in t.mined && forall i: nat :: HasCredit(r, i) ==>
      && (OutPoint(r.tx.hash, i) in l.unspent && l.unspent[OutPoint(r.tx.hash, i)] == c ==>
            OutPoint(r.tx.hash, i) in t.unspent && t.unspent[OutPoint(r.tx.hash, i)] == c)
      && (BlockOutputKey(c, i) in l.spentOuts ==> BlockOutputKey(c, i) in t.spentOuts)
  }

  lemma ReturnedAbandons(l: Ledger, t: Ledger, c: BlockTxKey, r: TxRecord, k: BlockTxKey, s: TxRecord)
    requires Abandoned(l, c, r, t) && k != c && s.tx.hash != r.tx.hash && AllCredits(t.mined, Spends(s))
    ensures Abandoned(l, c, r, Returned(t, k, s))
  {
    hide SpentTo, KeysOf, SpendersOf;
    assert Returned(t, k, s).mined.Keys == t.mined.Keys;
  }

  lemma {:induction false} ReturnAllAbandons(l: Ledger, height: int, order: seq<BlockTxKey>, c: BlockTxKey)
    requires Linked(l) && NoInnerSpend(l.mined, height)
    requires NoDup(order) && forall k :: k in order ==> k in l.mined && height <= k.height
    requires c in l.mined && c.index == 0 && height <= c.height
    ensures var t := ReturnAll(Truncate(l, height), l.mined, order);
            t.Ok? && Abandoned(l, c, l.mined[c], t.value)
  {
    if order != [] {
      hide NoInnerSpend, ReturnTx, Abandoned, Ready;
      hide MinedOk, PoolOk, UnspentSound, SpentByOk, SpendsOk, SpentOutsOk, SpentKeysOk, SpendersOk, SpentUnconfOk;
      hide MarksOk, PrevOutsOk;
      var n := |order| - 1;
      var k := order[n];
      assert order == order[..n] + [k];
      ReturnAllAbandons(l, height, order[..n], c);
      ReturnAllSucceeds(l, height, order[..n]);
      var t := ReturnAll(Truncate(l, height), l.mined, order[..n]).value;
      if k.index != 0 {
        assert DetachedTx(l.mined, height, k);
        ReadyNext(l.mined, height, order[..n], t, k);
        ReturnTxIs(t, k, l.mined[k]);
        ReturnedAbandons(l, t, c, l.mined[c], k, l.mined[k]);
      }
    }
  }

  /** A detached credit is unspent, or spent by the pool. */
  lemma DetachedCredit(l: Ledger, height: int, p: BlockOutputKey)
    requires Linked(l) && UnspentComplete(l.mined, l.unspent) && NoInnerSpend(l.mined, height)
    requires IsCredit(l.mined, p) && height <= p.tx.height
    ensures p in l.spentOuts || (OpOf(l.mined, p) in l.unspent && l.unspent[OpOf(l.mined, p)] == p.tx)
  {
    hide PoolOk, SpentOutsOk, SpentKeysOk, SpendersOk, SpentUnconfOk, MarksOk, PrevOutsOk;
    var op := OpOf(l.mined, p);
    if SpentBy(l.mined, p).None? {
      assert UnspentAt(l.mined, BlockOutputKey(l.unspent[op], op.index), op);
    } else {
      var j := SpentBy(l.mined, p).value;
      assert j != UNMINED ==> Lists(l.mined, j, p) && SpendAt(l.mined, j, p) && p in Spends(l.mined[j]);
    }
  }

  lemma AbandonedBreaks(l: Ledger, t: Ledger, p: BlockOutputKey)
    requires IsCredit(l.mined, p) && Abandoned(l, p.tx, l.mined[p.tx], t)
    requires p in l.spentOuts || (OpOf(l.mined, p) in l.unspent && l.unspent[OpOf(l.mined, p)] == p.tx)
    ensures !(UnspentSound(t.mined, t.unspent) && SpentOutsOk(t.mined, t.spentOuts, t.spentKeys))
  {
    var op := OpOf(l.mined, p);
    assert p == BlockOutputKey(p.tx, p.out);
    assert op in t.unspent && t.unspent[op] == p.tx && UnspentSound(t.mined, t.unspent) ==>
      UnspentAt(t.mined, BlockOutputKey(t.unspent[op], op.index), op);
  }

  // ---------------------------------------------------------- shared inputs

  /** The pool has the transactions it had, and those of order. */
  ghost predicate Pooled(l: Ledger, order: seq<BlockTxKey>, txs: Pool) {
    && (forall h :: h in l.txs ==> h in txs && txs[h].tx == l.txs[h].tx)
    && (forall k :: k in order && k in l.mined && k.index != 0 ==>
          l.mined[k].tx.hash in txs && txs[l.mined[k].tx.hash].tx == l.mined[k].tx)
  }

  lemma ReturnedPools(l: Ledger, order: seq<BlockTxKey>, t: Ledger, k: BlockTxKey)
    requires HashesOk(l.mined, l.txs) && Pooled(l, order, t.txs) && k in l.mined
    requires AllCredits(t.mined, Spends(l.mined[k]))
    ensures Pooled(l, order + [k], Returned(t, k, l.mined[k]).txs)
  {
    hide Relink, KeySet, OwnOps, OutKeys, PoolSpent, SpentTo, KeysOf, SpendersOf, AllCredits;
  }

  lemma {:induction false} ReturnAllPools(l: Ledger, height: int, order: seq<BlockTxKey>)
    requires Linked(l) && NoInnerSpend(l.mined, height)
    requires NoDup(order) && forall k :: k in order ==> k in l.mined && height <= k.height
    ensures var t := ReturnAll(Truncate(l, height), l.mined, order); t.Ok? && Pooled(l, order, t.value.txs)
  {
    if order != [] {
      hide NoInnerSpend, ReturnTx, Pooled, Ready;
      hide MinedOk, PoolOk, UnspentSound, SpentByOk, SpendsOk, SpentOutsOk, SpentKeysOk, SpendersOk, SpentUnconfOk;
      hide MarksOk, PrevOutsOk;
      var n := |order| - 1;
      var k := order[n];
      assert order == order[..n] + [k];
      ReturnAllPools(l, height, order[..n]);
      ReturnAllSucceeds(l, height, order[..n]);
      var t := ReturnAll(Truncate(l, height), l.mined, order[..n]).value;
      if k.index == 0 {
        PooledCoinbase(l, order[..n], k, t.txs);
      } else {
        assert DetachedTx(l.mined, height, k);
        ReadyNext(l.mined, height, order[..n], t, k);
        ReturnTxIs(t, k, l.mined[k]);
        ReturnedPools(l, order[..n], t, k);
      }
    }
  }

  lemma PooledCoinbase(l: Ledger, order: seq<BlockTxKey>, k: BlockTxKey, txs: Pool)
    requires Pooled(l, order, txs) && k.index == 0
    ensures Pooled(l, order + [k], txs)
  {
  }

  /** Inputs that returned transactions share leave the input index wrong. */
  lemma SharedInputsBreak(l: Ledger, height: int, order: seq<BlockTxKey>, txs: Pool, prev: map<OutPoint, Hash>)
    requires HashesOk(l.mined, l.txs) && PrevOutsOk(l.txs, l.prevOuts)
    requires Detached(l.mined, height, order) && Pooled(l, order, txs) && PrevOutsOk(txs, prev)
    ensures InputsApart(l, height)
  {
    forall k, op | DetachedTx(l.mined, height, k) && op in l.mined[k].tx.inputs ensures op !in l.prevOuts {
      assert k in order && prev[op] == l.mined[k].tx.hash;
    }
    forall j, k, op |
      DetachedTx(l.mined, height, j) && DetachedTx(l.mined, height, k) && j != k && op in l.mined[j].tx.inputs
      ensures op !in l.mined[k].tx.inputs
    {
      assert j in order && k in order && prev[op] == l.mined[j].tx.hash;
    }
  }

  /** A rollback that succeeds leaves the store consistent exactly when no
      detached coinbase has a credit and the transactions that return share no
      input with each other or with the pool. */
  lemma RollbackKeepsLinksIff(l: Ledger, height: int, order: seq<BlockTxKey>)
    requires Linked(l) && UnspentComplete(l.mined, l.unspent) && Detached(l.mined, height, order)
    requires NoInnerSpend(l.mined, height)
    ensures Rollback(l, height, order).Ok?
    ensures Linked(Rollback(l, height, order).value) <==> NoCoinbaseCredit(l.mined, height) && InputsApart(l, height)
  {
    hide UnspentComplete, NoInnerSpend, InputsApart, ReturnAll, MinedOk, PoolOk, HashesOk, UnspentSound, SpentByOk;
    hide SpendsOk;
    hide SpentOutsOk, SpentKeysOk, SpendersOk, SpentUnconfOk, MarksOk, PrevOutsOk, Abandoned, Pooled;
    ReturnAllSucceeds(l, height, order);
    var t := Rollback(l, height, order).value;
    if NoCoinbaseCredit(l.mined, height) && InputsApart(l, height) { RollbackKeepsLinks(l, height, order); }
    if !NoCoinbaseCredit(l.mined, height) { CoinbaseBreaks(l, height, order, t); }
    if PrevOutsOk(t.txs, t.prevOuts) {
      ReturnAllPools(l, height, order);
      SharedInputsBreak(l, height, order, t.txs, t.prevOuts);
    }
  }

  lemma CoinbaseBreaks(l: Ledger, height: int, order: seq<BlockTxKey>, t: Ledger)
    requires Linked(l) && UnspentComplete(l.mined, l.unspent) && Detached(l.mined, height, order)
    requires NoInnerSpend(l.mined, height) && !NoCoinbaseCredit(l.mined, height) && Rollback(l, height, order) == Ok(t)
    ensures !(UnspentSound(t.mined, t.unspent) && SpentOutsOk(t.mined, t.spentOuts, t.spentKeys))
  {
    hide Linked, UnspentComplete, NoInnerSpend, ReturnAll, UnspentSound, SpentOutsOk, Abandoned;
    var k, i: nat :| k in l.mined && height <= k.height && k.index == 0 && HasCredit(l.mined[k], i);
    var p := BlockOutputKey(k, i);
    DetachedCredit(l, height, p);
    ReturnAllAbandons(l, height, order, k);
    AbandonedBreaks(l, t, p);
  }
}
