/** Returning one mined transaction to the pool keeps every link two-way. */
module ReturnLinks {
  import opened TxTypes
  import opened Ledgers
  import opened LedgerInv
  import opened Rollbacks
  import opened ReturnProof

  /** The record at key leaves the chain and returns to the pool. */
  function Unmine(l: Ledger, key: BlockTxKey): Ledger
    requires key in l.mined && AllCredits(l.mined - {key}, Spends(l.mined[key]))
  {
    Returned(l.(mined := l.mined - {key}), key, l.mined[key])
  }

  /** n is m without key, the outputs ps now spent by the pool. */
  ghost predicate Unmines(m: Mined, n: Mined, ps: set<BlockOutputKey>, key: BlockTxKey) {
    && key in m && n.Keys == m.Keys - {key}
    && (forall k :: k in n ==>
          n[k].tx == m[k].tx && n[k].index == m[k].index && n[k].debits == m[k].debits && |n[k].credits|
              == |m[k].credits|)
    && (forall p :: IsCredit(n, p) <==> IsCredit(m, p) && p.tx != key)
    && (forall p :: IsCredit(n, p) ==> SpentBy(n, p) == if p in ps then Some(UNMINED) else SpentBy(m, p))
  }

  lemma UnmineUnmines(m: Mined, ps: set<BlockOutputKey>, key: BlockTxKey)
    requires key in m
    ensures Unmines(m, Relink(m - {key}, ps, Some(UNMINED)), ps, key)
  {
    RelinkRelinks(m - {key}, ps, Some(UNMINED));
  }

  lemma RecordsAfter(m: Mined, n: Mined, ps: set<BlockOutputKey>, key: BlockTxKey, heights: set<int>, txs: Pool)
    requires MinedOk(m, heights) && PoolOk(txs) && HashesOk(m, txs) && Unmines(m, n, ps, key)
    ensures var txs' := txs[m[key].tx.hash := ReturnedRecord(m[key])];
            MinedOk(n, heights) && PoolOk(txs') && HashesOk(n, txs')
  {
  }

  lemma UnspentAfter(m: Mined, n: Mined, ps: set<BlockOutputKey>, key: BlockTxKey, txs: Pool,
      unspent: map<OutPoint, BlockTxKey>)
    requires UnspentSound(m, unspent) && HashesOk(m, txs) && Unmines(m, n, ps, key)
    requires forall p :: p in ps && IsCredit(m, p) ==> SpentBy(m, p).Some?
    ensures UnspentSound(n, unspent - OwnOps(m[key]))
    ensures UnspentComplete(m, unspent) ==> UnspentComplete(n, unspent - OwnOps(m[key]))
  {
    var u := unspent - OwnOps(m[key]);
    forall op | op in u ensures UnspentAt(n, BlockOutputKey(u[op], op.index), op) {
      assert UnspentAt(m, BlockOutputKey(unspent[op], op.index), op);
    }
    if UnspentComplete(m, unspent) {
      forall p | IsCredit(n, p) && SpentBy(n, p) == None ensures OpOf(n, p) in u {
        assert IsCredit(m, p) && OpOf(m, p) in unspent;
      }
    }
  }

  /** No credit of key is spent by a mined transaction. */
  ghost predicate FreeOfMined(m: Mined, key: BlockTxKey) {
    forall p: BlockOutputKey :: p.tx == key && IsCredit(m, p) && SpentBy(m, p).Some? ==> SpentBy(m, p).value == UNMINED
  }

  lemma SpendsAfter(m: Mined, n: Mined, ps: set<BlockOutputKey>, key: BlockTxKey, outs: map<BlockOutputKey, Hash>,
      outs': map<BlockOutputKey, Hash>)
    requires SpentByOk(m, outs) && SpendsOk(m) && Unmines(m, n, ps, key) && FreeOfMined(m, key)
    requires key != UNMINED && UNMINED !in m && forall p :: p in ps <==> Lists(m, key, p)
    requires forall p :: p in outs && p.tx != key ==> p in outs'
    requires forall p :: p in ps ==> p in outs'
    ensures SpentByOk(n, outs') && SpendsOk(n)
  {
    forall p | IsCredit(n, p) && SpentBy(n, p).Some?
      ensures if SpentBy(n, p).value == UNMINED then p in outs' else Lists(n, SpentBy(n, p).value, p)
    {
      if p !in ps && SpentBy(m, p).value != UNMINED { assert Lists(m, SpentBy(m, p).value, p); }
    }
    forall k, p | Lists(n, k, p) ensures SpendAt(n, k, p) {
      assert Lists(m, k, p) && SpendAt(m, k, p);
    }
  }

  lemma {:induction false} KeysOfAre(m: Mined, ps: seq<BlockOutputKey>)
    requires AllCredits(m, ps)
    ensures forall op :: op in KeysOf(m, ps) ==>
              KeysOf(m, ps)[op] in ps && KeysOf(m, ps)[op].tx in m && OpOf(m, KeysOf(m, ps)[op]) == op
    ensures forall p :: p in ps ==> p.tx in m && OpOf(m, p) in KeysOf(m, ps)
  {
    if ps != [] {
      var n := |ps| - 1;
      assert ps == ps[..n] + [ps[n]];
      assert IsCredit(m, ps[n]);
      KeysOfAre(m, ps[..n]);
    }
  }

  lemma OutsAfter(m: Mined, n: Mined, key: BlockTxKey, ps: seq<BlockOutputKey>, txs: Pool,
      outs: map<BlockOutputKey, Hash>,
                  keys: map<OutPoint, BlockOutputKey>, own: set<OutPoint>, kn: map<OutPoint, BlockOutputKey>)
    requires SpentOutsOk(m, outs, keys) && SpentKeysOk(m, outs, keys) && HashesOk(m, txs)
    requires Unmines(m, n, KeySet(ps), key)
    requires forall p :: p in ps ==> IsCredit(m, p) && p.tx != key
    requires forall op :: op in kn ==> kn[op] in ps && OpOf(m, kn[op]) == op
    requires forall p :: p in ps ==> OpOf(m, p) in kn
    requires forall p: BlockOutputKey :: p in outs && p.tx == key ==> OutPoint(m[key].tx.hash, p.out) in own
    requires forall op :: op in own ==> op.hash == m[key].tx.hash
    ensures var outs', keys' := (outs - OutKeys(key, own)) + SpentTo(ps, m[key].tx.hash), (keys - own) + kn;
            SpentOutsOk(n, outs', keys') && SpentKeysOk(n, outs', keys')
  {
    var outs', keys' := (outs - OutKeys(key, own)) + SpentTo(ps, m[key].tx.hash), (keys - own) + kn;
    forall p | p in outs'
      ensures p.tx in n && IsCredit(n, p) && SpentBy(n, p) == Some(UNMINED) && OpOf(n, p) in keys'
      ensures keys'[OpOf(n, p)] == p
    {
      if p !in ps {
        assert p in outs && p !in OutKeys(key, own);
        assert p == BlockOutputKey(p.tx, OutPoint(m[key].tx.hash, p.out).index);
        assert p.tx != key && OpOf(m, p) !in own;
      }
      if OpOf(m, p) in kn { assert OpOf(m, kn[OpOf(m, p)]) == OpOf(m, p); }
    }
    forall op | op in keys' ensures keys'[op] in outs' && keys'[op].tx in n && OpOf(n, keys'[op]) == op {
      if op !in kn {
        assert op in keys && op !in own && keys[op] in outs;
        assert keys[op].tx != key;
      }
    }
  }

  lemma SpendersAfter(m: Mined, n: Mined, key: BlockTxKey, ps: seq<BlockOutputKey>, txs: Pool,
      outs: map<BlockOutputKey, Hash>, own: set<OutPoint>)
    requires SpendersOk(m, txs, outs) && SpendsOk(m) && Unmines(m, n, KeySet(ps), key) && m[key].tx.hash !in txs
    requires forall p :: p in ps ==> Lists(m, key, p) && p.tx != key
    requires forall p: BlockOutputKey :: p in outs && p.tx == key ==> OutPoint(m[key].tx.hash, p.out) in own
    ensures var h := m[key].tx.hash;
            SpendersOk(n, txs[h := ReturnedRecord(m[key])], (outs - OutKeys(key, own)) + SpentTo(ps, h))
  {
    var h := m[key].tx.hash;
    var txs' := txs[h := ReturnedRecord(m[key])];
    var outs' := (outs - OutKeys(key, own)) + SpentTo(ps, h);
    forall p | p in outs' ensures p.tx in n && Spender(txs', outs'[p], OpOf(n, p)) {
      if p in ps {
        assert SpendAt(m, key, p);
      } else {
        assert Spender(txs, outs[p], OpOf(m, p));
        assert p == BlockOutputKey(p.tx, OutPoint(h, p.out).index);
      }
    }
  }

  lemma PoolSpendsAfter(m: Mined, key: BlockTxKey, txs: Pool, outs: map<BlockOutputKey, Hash>, su: map<OutPoint, Hash>)
    requires SpentUnconfOk(txs, su) && SpendersOk(m, txs, outs) && key in m && m[key].tx.hash !in txs
    ensures SpentUnconfOk(txs[m[key].tx.hash := ReturnedRecord(m[key])], su + SpendersOf(outs, key, PoolSpent(m[key])))
  {
    var h := m[key].tx.hash;
    var add := SpendersOf(outs, key, PoolSpent(m[key]));
    var txs', su' := txs[h := ReturnedRecord(m[key])], su + add;
    forall op | op in su' ensures op.hash in txs' && HasCredit(txs'[op.hash], op.index) && Spender(txs', su'[op], op) {
      if op in add {
        var p := BlockOutputKey(key, op.index);
        assert Spender(txs, outs[p], OpOf(m, p));
      } else {
        assert Spender(txs, su[op], op);
      }
    }
  }

  lemma PoolMarksAfter(m: Mined, key: BlockTxKey, txs: Pool, outs: map<BlockOutputKey, Hash>, su: map<OutPoint, Hash>)
    requires MarksOk(txs, su) && key in m && SpentByPool(outs, key, m[key])
    ensures MarksOk(txs[m[key].tx.hash := ReturnedRecord(m[key])], su + SpendersOf(outs, key, PoolSpent(m[key])))
  {
    var h := m[key].tx.hash;
    var txs', su' := txs[h := ReturnedRecord(m[key])], su + SpendersOf(outs, key, PoolSpent(m[key]));
    forall x, i: nat | x in txs' && HasCredit(txs'[x], i) && txs'[x].credits[i].value.spentBy.Some?
      ensures txs'[x].credits[i].value.spentBy == Some(UNMINED) && OutPoint(x, i) in su'
    {
      if x == h { assert OutPoint(h, i) in PoolSpent(m[key]); }
    }
  }

  // --------------------------------------------------------------- assembled

  /** The record at key can leave the chain: it is no coinbase, nothing mined
      spends it, it spends no output of its own, and no pool transaction
      shares an input with it. */
  ghost predicate CanUnmine(l: Ledger, key: BlockTxKey) {
    && key in l.mined && key.index != 0 && FreeOfMined(l.mined, key)
    && (forall p :: p in Spends(l.mined[key]) ==> p.tx != key)
    && (forall op :: op in l.mined[key].tx.inputs ==> op !in l.prevOuts)
  }

  lemma UnmineDefined(l: Ledger, key: BlockTxKey)
    requires Linked(l) && CanUnmine(l, key)
    ensures AllCredits(l.mined - {key}, Spends(l.mined[key])) && SpentByPool(l.spentOuts, key, l.mined[key])
    ensures forall p :: p in KeySet(Spends(l.mined[key])) <==> Lists(l.mined, key, p)
  {
    var r := l.mined[key];
    hide SpentOutsOk, SpentKeysOk, SpendersOk, SpentUnconfOk, MarksOk, PrevOutsOk, UnspentSound, PoolOk;
    forall p | p in Spends(r) ensures IsCredit(l.mined - {key}, p) {
      assert Lists(l.mined, key, p);
    }
    forall i: nat | HasCredit(r, i) && r.credits[i].value.spentBy.Some?
      ensures r.credits[i].value.spentBy == Some(UNMINED) && BlockOutputKey(key, i) in l.spentOuts
    {
      assert IsCredit(l.mined, BlockOutputKey(key, i));
    }
  }

  lemma UnmineKeepsMined(l: Ledger, key: BlockTxKey)
    requires Linked(l) && CanUnmine(l, key)
    ensures AllCredits(l.mined - {key}, Spends(l.mined[key]))
    ensures var l' := Unmine(l, key);
            && MinedOk(l'.mined, l'.deltas.Keys) && PoolOk(l'.txs) && HashesOk(l'.mined, l'.txs)
            && UnspentSound(l'.mined, l'.unspent)
            && (UnspentComplete(l.mined, l.unspent) ==> UnspentComplete(l'.mined, l'.unspent))
  {
    UnmineDefined(l, key);
    var ps := KeySet(Spends(l.mined[key]));
    UnmineUnmines(l.mined, ps, key);
    var n := Relink(l.mined - {key}, ps, Some(UNMINED));
    RecordsAfter(l.mined, n, ps, key, l.deltas.Keys, l.txs);
    UnspentAfter(l.mined, n, ps, key, l.txs, l.unspent);
    hide MinedOk, PoolOk, HashesOk, UnspentSound, UnspentComplete;
  }

  lemma UnmineKeepsSpends(l: Ledger, key: BlockTxKey)
    requires Linked(l) && CanUnmine(l, key)
    ensures AllCredits(l.mined - {key}, Spends(l.mined[key]))
    ensures var l' := Unmine(l, key);
            && SpentByOk(l'.mined, l'.spentOuts) && SpendsOk(l'.mined)
            && SpendersOk(l'.mined, l'.txs, l'.spentOuts)
            && SpentUnconfOk(l'.txs, l'.spentUnconf) && MarksOk(l'.txs, l'.spentUnconf)
            && PrevOutsOk(l'.txs, l'.prevOuts)
  {
    hide SpentUnconfOk, MarksOk, PrevOutsOk, UnspentSound, PoolOk;
    UnmineDefined(l, key);
    var r := l.mined[key];
    var ps, own := Spends(r), PoolSpent(r);
    UnmineUnmines(l.mined, KeySet(ps), key);
    var n := Relink(l.mined - {key}, KeySet(ps), Some(UNMINED));
    var outs' := (l.spentOuts - OutKeys(key, own)) + SpentTo(ps, r.tx.hash);
    SpendsAfter(l.mined, n, KeySet(ps), key, l.spentOuts, outs');
    OwnPoolSpent(l, key);
    SpendersAfter(l.mined, n, key, ps, l.txs, l.spentOuts, own);
    PoolSpendsAfter(l.mined, key, l.txs, l.spentOuts, l.spentUnconf);
    PoolMarksAfter(l.mined, key, l.txs, l.spentOuts, l.spentUnconf);
    AddToPrevOuts(l.txs, l.prevOuts, r.tx.hash, ReturnedRecord(r));
  }

  lemma OwnPoolSpent(l: Ledger, key: BlockTxKey)
    requires SpentOutsOk(l.mined, l.spentOuts, l.spentKeys) && key in l.mined
    ensures forall p: BlockOutputKey :: p in l.spentOuts && p.tx == key ==>
              OutPoint(l.mined[key].tx.hash, p.out) in PoolSpent(l.mined[key])
  {
  }

  lemma UnmineKeepsIndex(l: Ledger, key: BlockTxKey)
    requires Linked(l) && CanUnmine(l, key)
    ensures AllCredits(l.mined - {key}, Spends(l.mined[key]))
    ensures var l' := Unmine(l, key);
            SpentOutsOk(l'.mined, l'.spentOuts, l'.spentKeys) && SpentKeysOk(l'.mined, l'.spentOuts, l'.spentKeys)
  {
    hide SpentUnconfOk, MarksOk, PrevOutsOk, UnspentSound, PoolOk;
    UnmineDefined(l, key);
    var ps := Spends(l.mined[key]);
    UnmineUnmines(l.mined, KeySet(ps), key);
    OwnPoolSpent(l, key);
    var m := l.mined - {key};
    KeysOfAre(m, ps);
    forall p | p in ps ensures IsCredit(l.mined, p) { assert Lists(l.mined, key, p); }
    OutsAfter(l.mined, Relink(m, KeySet(ps), Some(UNMINED)), key, ps, l.txs, l.spentOuts, l.spentKeys,
      PoolSpent(l.mined[key]), KeysOf(m, ps));
  }

  /** Returning a transaction to the pool keeps every link, and the unspent
      map an exact scan. */
  lemma UnmineKeepsLinks(l: Ledger, key: BlockTxKey)
    requires Linked(l) && CanUnmine(l, key)
    ensures AllCredits(l.mined - {key}, Spends(l.mined[key]))
    ensures Linked(Unmine(l, key))
    ensures UnspentComplete(l.mined, l.unspent) ==> UnspentComplete(Unmine(l, key).mined, Unmine(l, key).unspent)
  {
    UnmineKeepsMined(l, key);
    UnmineKeepsSpends(l, key);
    UnmineKeepsIndex(l, key);
  }
}
