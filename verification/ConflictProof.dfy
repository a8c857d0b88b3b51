/** Removing unconfirmed records as a set, and one at a time. */
module ConflictProof {
  import opened TxTypes
  import opened Ledgers
  import opened LedgerInv
  import opened Conflicts

  // -------------------------------------------------- removing a set at once

  function OutsOf(outs: map<BlockOutputKey, Hash>, ds: set<Hash>): set<BlockOutputKey> {
    set p | p in outs && outs[p] in ds
  }

  /** The entries of m whose value is not in vs. */
  function Without<K, V>(m: map<K, V>, vs: set<V>): map<K, V> {
    map k | k in m && m[k] !in vs :: m[k]
  }

  lemma WithoutTwice<K, V>(m: map<K, V>, a: set<V>, b: set<V>)
    ensures Without(Without(m, a), b) == Without(m, a + b)
  {
  }

  function RemoveSet(l: Ledger, ds: set<Hash>): Ledger {
    var ps := OutsOf(l.spentOuts, ds);
    Ledger(
      Relink(l.mined, ps, None), l.deltas, l.unspent, l.txs - ds,
      Without(l.spentOuts, ds), Without(l.spentKeys, ps), Without(l.spentUnconf, ds), Without(l.prevOuts, ds))
  }

  ghost predicate PoolLinked(l: Ledger) {
    && PoolOk(l.txs) && SpentOutsOk(l.mined, l.spentOuts, l.spentKeys) && SpentKeysOk(l.mined, l.spentOuts, l.spentKeys)
    && SpendersOk(l.mined, l.txs, l.spentOuts) && PrevOutsOk(l.txs, l.prevOuts) && Sound(l)
  }

  lemma RelinkTwice(m: Mined, a: set<BlockOutputKey>, b: set<BlockOutputKey>, who: Option<BlockTxKey>)
    ensures Relink(Relink(m, a, who), b, who) == Relink(m, a + b, who)
  {
    var x, y := Relink(Relink(m, a, who), b, who), Relink(m, a + b, who);
    forall k | k in m ensures x[k] == y[k] {
      assert x[k].credits == y[k].credits;
    }
  }

  lemma RelinkNone(m: Mined, who: Option<BlockTxKey>)
    ensures Relink(m, {}, who) == m
  {
    forall k | k in m ensures Relink(m, {}, who)[k] == m[k] {
      assert Relink(m, {}, who)[k].credits == m[k].credits;
    }
  }

  lemma RemoveTwice(l: Ledger, a: set<Hash>, b: set<Hash>)
    ensures RemoveSet(RemoveSet(l, a), b) == RemoveSet(l, a + b)
  {
    var pa, pb := OutsOf(l.spentOuts, a), OutsOf(Without(l.spentOuts, a), b);
    assert OutsOf(l.spentOuts, a + b) == pa + pb;
    RelinkTwice(l.mined, pa, pb, None);
    WithoutTwice(l.spentOuts, a, b);
    WithoutTwice(l.spentKeys, pa, pb);
    WithoutTwice(l.spentUnconf, a, b);
    WithoutTwice(l.prevOuts, a, b);
    assert l.txs - a - b == l.txs - (a + b);
    hide Relink, Without, OutsOf;
  }

  lemma RemoveNone(l: Ledger)
    ensures RemoveSet(l, {}) == l
  {
    RelinkNone(l.mined, None);
    assert OutsOf(l.spentOuts, {}) == {};
  }

  // ---------------------------------------- removing one is removing {it}

  lemma OwnPrevOuts(txs: Pool, prev: map<OutPoint, Hash>, h: Hash)
    requires PrevOutsOk(txs, prev) && h in txs
    ensures prev - Inputs(txs[h]) == Without(prev, {h})
  {
    assert forall op :: op in prev ==> (op in Inputs(txs[h]) <==> prev[op] == h);
  }

  lemma OwnSpentUnconf(txs: Pool, su: Spent, keys: map<OutPoint, BlockOutputKey>, prev: map<OutPoint, Hash>, h: Hash)
    requires PrevOutsOk(txs, prev) && SpendersLive(txs, su) && h in txs && forall op :: op in keys ==> op !in su
    ensures su - (Inputs(txs[h]) - keys.Keys) == Without(su, {h})
  {
    forall op | op in su ensures op in Inputs(txs[h]) - keys.Keys <==> su[op] == h {
      assert op in prev && prev[op] == su[op];
    }
  }

  lemma OwnOuts(m: Mined, txs: Pool, outs: map<BlockOutputKey, Hash>, keys: map<OutPoint, BlockOutputKey>,
                prev: map<OutPoint, Hash>, h: Hash)
    requires SpentOutsOk(m, outs, keys) && SpentKeysOk(m, outs, keys) && SpendersOk(m, txs, outs)
    requires PrevOutsOk(txs, prev)
    requires h in txs
    ensures InputOuts(txs[h].tx.inputs, keys) == OutsOf(outs, {h})
    ensures outs - InputOuts(txs[h].tx.inputs, keys) == Without(outs, {h})
    ensures keys - Inputs(txs[h]) == Without(keys, OutsOf(outs, {h}))
  {
    OutsOwned(m, txs, outs, keys, prev, h);
    assert InputOuts(txs[h].tx.inputs, keys) == OutsOf(outs, {h});
    forall op | op in keys ensures op in Inputs(txs[h]) <==> keys[op] in OutsOf(outs, {h}) {
      if keys[op] in OutsOf(outs, {h}) { assert Spender(txs, h, OpOf(m, keys[op])); }
    }
  }

  lemma RemoveOneIs(l: Ledger, h: Hash)
    requires PoolLinked(l) && h in l.txs
    ensures RemoveOne(l, h) == RemoveSet(l, {h})
  {
    OwnPrevOuts(l.txs, l.prevOuts, h);
    OwnSpentUnconf(l.txs, l.spentUnconf, l.spentKeys, l.prevOuts, h);
    OwnOuts(l.mined, l.txs, l.spentOuts, l.spentKeys, l.prevOuts, h);
    hide PoolLinked, Relink, Without, OutsOf, InputOuts;
  }

  lemma RemoveSetKeepsOuts(m: Mined, n: Mined, txs: Pool, outs: map<BlockOutputKey, Hash>,
      keys: map<OutPoint, BlockOutputKey>, ds: set<Hash>)
    requires SpentOutsOk(m, outs, keys) && SpentKeysOk(m, outs, keys) && SpendersOk(m, txs, outs)
    requires Relinks(m, n, OutsOf(outs, ds), None) && n.Keys == m.Keys
    ensures var outs', keys' := Without(outs, ds), Without(keys, OutsOf(outs, ds));
            SpentOutsOk(n, outs', keys') && SpentKeysOk(n, outs', keys') && SpendersOk(n, txs - ds, outs')
  {
    var outs' := Without(outs, ds);
    forall p | p in outs' ensures p.tx in n && Spender(txs - ds, outs'[p], OpOf(n, p)) {
      assert Spender(txs, outs[p], OpOf(m, p));
    }
  }

  lemma RemoveSetKeepsPrev(txs: Pool, prev: map<OutPoint, Hash>, ds: set<Hash>)
    requires PrevOutsOk(txs, prev)
    ensures PrevOutsOk(txs - ds, Without(prev, ds))
  {
  }

  lemma RemoveSetKeepsPool(l: Ledger, ds: set<Hash>)
    requires PoolLinked(l)
    ensures PoolLinked(RemoveSet(l, ds))
  {
    RelinkRelinks(l.mined, OutsOf(l.spentOuts, ds), None);
    RemoveSetKeepsOuts(l.mined, Relink(l.mined, OutsOf(l.spentOuts, ds), None), l.txs, l.spentOuts, l.spentKeys, ds);
    RemoveSetKeepsPrev(l.txs, l.prevOuts, ds);
  }

  lemma NoneRemoved(l: Ledger, r: TxRecord, bound: nat)
    requires r.tx.hash < bound && Below(l.txs, bound) && Sound(l)
    ensures RemoveSpenders(l, r, 0, bound) == Ok(l)
  {
  }
}
