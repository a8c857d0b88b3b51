/** Mining a known unconfirmed transaction keeps the ledger consistent. */
module MoveProof {
  import opened TxTypes
  import opened Ledgers
  import opened LedgerInv

  /** The parents of h are mined no later than key, and key is free. */
  ghost predicate CanMove(l: Ledger, h: Hash, key: BlockTxKey) {
    && h in l.txs
    && key !in l.mined && 0 < key.index && 0 <= key.height
    && (forall op :: op in l.txs[h].tx.inputs ==> op !in l.spentUnconf)
    && (forall op :: op in l.txs[h].tx.inputs && op in l.spentKeys ==> l.spentKeys[op].tx.height <= key.height)
  }

  lemma {:induction false} InputSpendsAre(ins: seq<OutPoint>, keys: map<OutPoint, BlockOutputKey>)
    ensures forall p :: p in InputSpends(ins, keys) <==> p in InputOuts(ins, keys)
  {
    if ins != [] {
      var n := |ins| - 1;
      InputSpendsAre(ins[..n], keys);
      assert ins == ins[..n] + [ins[n]];
      forall p ensures p in InputSpends(ins, keys) <==> p in InputOuts(ins, keys) {
        if p in InputOuts(ins, keys) {
          var op :| op in ins && op in keys && keys[op] == p;
          if op in ins[..n] { assert p in InputOuts(ins[..n], keys); }
        }
        if p in InputOuts(ins[..n], keys) {
          var op :| op in ins[..n] && op in keys && keys[op] == p;
          assert op in ins;
        }
      }
    }
  }

  lemma {:induction false} InputSpendsOnce(ins: seq<OutPoint>, keys: map<OutPoint, BlockOutputKey>)
    requires forall a, b :: a in keys && b in keys && keys[a] == keys[b] ==> a == b
    ensures NoDup(InputSpends(ins, keys))
  {
    if ins != [] {
      var n := |ins| - 1;
      InputSpendsOnce(ins[..n], keys);
      InputSpendsAre(ins[..n], keys);
      if ins[n] in keys && ins[n] !in ins[..n] {
        assert keys[ins[n]] !in InputSpends(ins[..n], keys);
      }
    }
  }

  // --------------------------------------- the maps after a move, one by one

  /** n is m with the record r added under key, the outputs ps now spent by it. */
  ghost predicate Mines(m: Mined, n: Mined, ps: set<BlockOutputKey>, key: BlockTxKey, r: TxRecord) {
    && n.Keys == m.Keys + {key} && key !in m && n[key] == r
    && Relinks(m, n, ps, Some(key))
  }

  lemma MoveMines(m: Mined, ps: set<BlockOutputKey>, key: BlockTxKey, r: TxRecord)
    requires key !in m
    ensures Mines(m, Relink(m, ps, Some(key))[key := r], ps, key, r)
  {
    var a := Relink(m, ps, Some(key));
    RelinkRelinks(m, ps, Some(key));
    forall p: BlockOutputKey | p.tx in m ensures IsCredit(a[key := r], p) <==> IsCredit(a, p) {
      assert a[key := r][p.tx] == a[p.tx];
    }
  }

  lemma RecordsAfter(m: Mined, n: Mined, heights: set<int>, txs: Pool, h: Hash, ps: set<BlockOutputKey>,
      key: BlockTxKey, r: TxRecord)
    requires MinedOk(m, heights) && PoolOk(txs) && HashesOk(m, txs) && Mines(m, n, ps, key, r)
    requires h in txs && r.tx == txs[h].tx && r.index == key.index && 0 < key.index && 0 <= key.height
    requires |r.credits| == |txs[h].credits|
    ensures MinedOk(n, heights + {key.height}) && PoolOk(txs - {h}) && HashesOk(n, txs - {h})
  {
  }

  lemma SpentByAfter(m: Mined, n: Mined, outs: map<BlockOutputKey, Hash>, outs': map<BlockOutputKey, Hash>,
                     ps: set<BlockOutputKey>, key: BlockTxKey, r: TxRecord)
    requires SpentByOk(m, outs) && Mines(m, n, ps, key, r) && key != UNMINED
    requires ps != {} ==> r.debits.Some?
    requires forall p :: p in ps ==> p in r.debits.value.spends
    requires forall p :: p in outs && p !in ps ==> p in outs'
    requires forall p: BlockOutputKey :: p.tx == key && IsCredit(n, p) && SpentBy(n, p).Some? ==>
               SpentBy(n, p).value == UNMINED && p in outs'
    ensures SpentByOk(n, outs')
  {
    forall p | IsCredit(n, p) && SpentBy(n, p).Some?
      ensures if SpentBy(n, p).value == UNMINED then p in outs' else Lists(n, SpentBy(n, p).value, p)
    {
      if p.tx != key {
        assert IsCredit(m, p);
        if p !in ps && SpentBy(m, p).value != UNMINED { assert Lists(m, SpentBy(m, p).value, p); }
      }
    }
  }

  lemma SpendsAfter(m: Mined, n: Mined, ps: set<BlockOutputKey>, key: BlockTxKey, r: TxRecord)
    requires SpendsOk(m) && Mines(m, n, ps, key, r)
    requires forall p :: p in ps ==>
      IsCredit(m, p) && SpentBy(m, p) == Some(UNMINED) && p.tx.height <= key.height && OpOf(m, p) in r.tx.inputs
    requires UNMINED !in m
    requires r.debits.Some? ==> NoDup(r.debits.value.spends) && forall p :: p in r.debits.value.spends ==> p in ps
    ensures SpendsOk(n)
  {
    forall k, p | Lists(n, k, p) ensures SpendAt(n, k, p) {
      if k != key { assert Lists(m, k, p) && SpendAt(m, k, p); }
    }
  }

  lemma UnspentAfter(m: Mined, n: Mined, unspent: map<OutPoint, BlockTxKey>, su: map<OutPoint, Hash>,
                     ps: set<BlockOutputKey>, key: BlockTxKey, r: TxRecord, r': TxRecord)
    requires UnspentSound(m, unspent) && Mines(m, n, ps, key, r')
    requires r'.tx == r.tx && r'.credits == MarkOwnSpent(r, su)
    requires forall k :: k in m ==> m[k].tx.hash != r.tx.hash
    requires forall p :: p in ps && IsCredit(m, p) ==> SpentBy(m, p).Some?
    ensures UnspentSound(n, unspent + MovedUnspent(r, su, key))
    ensures UnspentComplete(m, unspent) ==> UnspentComplete(n, unspent + MovedUnspent(r, su, key))
  {
    var add := MovedUnspent(r, su, key);
    var unspent' := unspent + add;
    forall op | op in unspent' ensures UnspentAt(n, BlockOutputKey(unspent'[op], op.index), op) {
      if op !in add {
        assert UnspentAt(m, BlockOutputKey(unspent[op], op.index), op);
      }
    }
    if UnspentComplete(m, unspent) {
      forall p | IsCredit(n, p) && SpentBy(n, p) == None ensures OpOf(n, p) in unspent' {
        if p.tx == key {
          assert OpOf(n, p) in OwnOps(r);
        } else {
          assert IsCredit(m, p) && OpOf(m, p) in unspent;
        }
      }
    }
  }

  lemma MovedIndex(r: TxRecord, su: map<OutPoint, Hash>, key: BlockTxKey)
    ensures forall p :: p in MovedOuts(r, su, key) ==>
              var op := OutPoint(r.tx.hash, p.out);
              && p.tx == key && op in OwnSpent(r, su)
              && op in MovedKeys(r, su, key) && MovedKeys(r, su, key)[op] == p && MovedOuts(r, su, key)[p] == su[op]
    ensures forall op :: op in MovedKeys(r, su, key) ==>
              && op in OwnSpent(r, su)
              && MovedKeys(r, su, key)[op] == BlockOutputKey(key, op.index)
              && MovedKeys(r, su, key)[op] in MovedOuts(r, su, key)
  {
    forall p | p in MovedOuts(r, su, key)
      ensures OutPoint(r.tx.hash, p.out) in OwnSpent(r, su) && p == BlockOutputKey(key, p.out)
    {
    }
  }

  lemma PoolSpendsAfter(m: Mined, n: Mined, outs: map<BlockOutputKey, Hash>, keys: map<OutPoint, BlockOutputKey>,
                        su: map<OutPoint, Hash>, key: BlockTxKey, r: TxRecord, r': TxRecord)
    requires SpentOutsOk(m, outs, keys) && SpentKeysOk(m, outs, keys)
    requires r'.tx == r.tx && r'.credits == MarkOwnSpent(r, su)
    requires forall k :: k in m ==> m[k].tx.hash != r.tx.hash
    requires Mines(m, n, InputOuts(r.tx.inputs, keys), key, r')
    ensures SpentOutsOk(n, (outs - InputOuts(r.tx.inputs, keys)) + MovedOuts(r, su, key),
        (keys - Inputs(r)) + MovedKeys(r, su, key))
    ensures SpentKeysOk(n, (outs - InputOuts(r.tx.inputs, keys)) + MovedOuts(r, su, key),
        (keys - Inputs(r)) + MovedKeys(r, su, key))
  {
    var ps := InputOuts(r.tx.inputs, keys);
    var outs' := (outs - ps) + MovedOuts(r, su, key);
    var keys' := (keys - Inputs(r)) + MovedKeys(r, su, key);
    MovedIndex(r, su, key);
    forall p | p in outs'
      ensures IsCredit(n, p) && SpentBy(n, p) == Some(UNMINED) && OpOf(n, p) in keys' && keys'[OpOf(n, p)] == p
    {
      if p !in MovedOuts(r, su, key) {
        assert p in outs && p !in ps;
        assert OpOf(m, p) !in Inputs(r);
      }
    }
    forall op | op in keys' ensures keys'[op] in outs' && keys'[op].tx in n && OpOf(n, keys'[op]) == op {
      if op !in MovedKeys(r, su, key) {
        assert op in keys && op !in Inputs(r);
      }
    }
  }

  lemma SpendersAfter(m: Mined, n: Mined, txs: Pool, outs: map<BlockOutputKey, Hash>, su: map<OutPoint, Hash>,
                      h: Hash, ps: set<BlockOutputKey>, key: BlockTxKey, r': TxRecord)
    requires SpendersOk(m, txs, outs) && SpentUnconfOk(txs, su)
    requires h in txs && txs[h].tx.hash == h && r'.tx == txs[h].tx && Mines(m, n, ps, key, r')
    requires forall p :: p in outs && outs[p] == h ==> p in ps
    requires forall op :: op in txs[h].tx.inputs ==> op !in su
    ensures SpendersOk(n, txs - {h}, (outs - ps) + MovedOuts(txs[h], su, key))
  {
    var r := txs[h];
    var outs' := (outs - ps) + MovedOuts(r, su, key);
    MovedIndex(r, su, key);
    forall p | p in outs' ensures p.tx in n && Spender(txs - {h}, outs'[p], OpOf(n, p)) {
      if p in MovedOuts(r, su, key) {
        assert Spender(txs, su[OutPoint(h, p.out)], OutPoint(h, p.out));
      } else {
        assert Spender(txs, outs[p], OpOf(m, p));
      }
    }
  }

  lemma PoolAfter(txs: Pool, su: map<OutPoint, Hash>, h: Hash)
    requires PoolOk(txs) && SpentUnconfOk(txs, su) && MarksOk(txs, su)
    requires h in txs
    requires forall op :: op in txs[h].tx.inputs ==> op !in su
    ensures SpentUnconfOk(txs - {h}, su - OwnSpent(txs[h], su)) && MarksOk(txs - {h}, su - OwnSpent(txs[h], su))
  {
  }

  // ------------------------------------------------------------- assembled

  lemma MovedOutsSpent(m: Mined, outs: map<BlockOutputKey, Hash>, keys: map<OutPoint, BlockOutputKey>,
      ins: seq<OutPoint>)
    requires SpentOutsOk(m, outs, keys) && SpentKeysOk(m, outs, keys)
    ensures forall p :: p in InputOuts(ins, keys) ==> p in outs && IsCredit(m, p) && SpentBy(m, p) == Some(UNMINED)
  {
  }

  lemma MoveKeepsPoolMaps(l: Ledger, h: Hash, key: BlockTxKey)
    requires Linked(l) && CanMove(l, h, key)
    ensures var l' := MoveMined(l, h, key);
            && SpentOutsOk(l'.mined, l'.spentOuts, l'.spentKeys) && SpentKeysOk(l'.mined, l'.spentOuts, l'.spentKeys)
            && SpendersOk(l'.mined, l'.txs, l'.spentOuts)
            && SpentUnconfOk(l'.txs, l'.spentUnconf) && MarksOk(l'.txs, l'.spentUnconf)
            && PrevOutsOk(l'.txs, l'.prevOuts)
  {
    var r := l.txs[h];
    var ps := InputOuts(r.tx.inputs, l.spentKeys);
    var r' := MovedRecord(r, l.spentKeys, l.spentUnconf, key);
    MoveMines(l.mined, ps, key, r');
    var n := Relink(l.mined, ps, Some(key))[key := r'];
    OutsOwned(l.mined, l.txs, l.spentOuts, l.spentKeys, l.prevOuts, h);
    PoolSpendsAfter(l.mined, n, l.spentOuts, l.spentKeys, l.spentUnconf, key, r, r');
    SpendersAfter(l.mined, n, l.txs, l.spentOuts, l.spentUnconf, h, ps, key, r');
    PoolAfter(l.txs, l.spentUnconf, h);
    RemoveFromPrevOuts(l.txs, l.prevOuts, h);
  }

  lemma PoolTx(txs: Pool, h: Hash)
    requires PoolOk(txs) && h in txs
    ensures txs[h].tx.hash == h && |txs[h].credits| <= |txs[h].tx.outputs|
  {
  }

  lemma MoveKeepsRecords(l: Ledger, h: Hash, key: BlockTxKey)
    requires Linked(l) && CanMove(l, h, key)
    ensures var l' := MoveMined(l, h, key);
            && MinedOk(l'.mined, l'.deltas.Keys) && PoolOk(l'.txs) && HashesOk(l'.mined, l'.txs)
  {
    hide MinedOk, PoolOk, HashesOk, UnspentSound, SpentByOk, SpendsOk, SpentOutsOk, SpentKeysOk, SpendersOk;
    hide SpentUnconfOk, MarksOk, PrevOutsOk;
    hide Relink, InputOuts, InputSpends, Mines;
    var r := l.txs[h];
    var ps := InputOuts(r.tx.inputs, l.spentKeys);
    var r' := MovedRecord(r, l.spentKeys, l.spentUnconf, key);
    MoveMines(l.mined, ps, key, r');
    PoolTx(l.txs, h);
    RecordsAfter(l.mined, Relink(l.mined, ps, Some(key))[key := r'], l.deltas.Keys, l.txs, h, ps, key, r');
    assert MoveMined(l, h, key).deltas.Keys == l.deltas.Keys + {key.height};
  }

  lemma MoveKeepsUnspent(l: Ledger, h: Hash, key: BlockTxKey)
    requires Linked(l) && CanMove(l, h, key)
    ensures var l' := MoveMined(l, h, key);
            && UnspentSound(l'.mined, l'.unspent)
            && (UnspentComplete(l.mined, l.unspent) ==> UnspentComplete(l'.mined, l'.unspent))
  {
    var r := l.txs[h];
    var ps := InputOuts(r.tx.inputs, l.spentKeys);
    var r' := MovedRecord(r, l.spentKeys, l.spentUnconf, key);
    MoveMines(l.mined, ps, key, r');
    MovedOutsSpent(l.mined, l.spentOuts, l.spentKeys, r.tx.inputs);
    UnspentAfter(l.mined, Relink(l.mined, ps, Some(key))[key := r'], l.unspent, l.spentUnconf, ps, key, r, r');
  }

  lemma SpendsMoved(m: Mined, heights: set<int>, outs: map<BlockOutputKey, Hash>, keys: map<OutPoint, BlockOutputKey>,
                    su: map<OutPoint, Hash>, key: BlockTxKey, r: TxRecord)
    requires MinedOk(m, heights) && SpendsOk(m) && SpentOutsOk(m, outs, keys) && SpentKeysOk(m, outs, keys)
    requires key !in m && (r.debits.Some? ==> r.debits.value.spends == [])
    requires forall op :: op in r.tx.inputs && op in keys ==> keys[op].tx.height <= key.height
    ensures SpendsOk(Relink(m, InputOuts(r.tx.inputs, keys), Some(key))[key := MovedRecord(r, keys, su, key)])
  {
    var ps := InputOuts(r.tx.inputs, keys);
    var r' := MovedRecord(r, keys, su, key);
    MoveMines(m, ps, key, r');
    MovedOutsSpent(m, outs, keys, r.tx.inputs);
    InputSpendsAre(r.tx.inputs, keys);
    InputSpendsOnce(r.tx.inputs, keys);
    assert r'.debits.Some? ==> r'.debits.value.spends == InputSpends(r.tx.inputs, keys);
    SpendsAfter(m, Relink(m, ps, Some(key))[key := r'], ps, key, r');
  }

  lemma SpentByMoved(m: Mined, outs: map<BlockOutputKey, Hash>, keys: map<OutPoint, BlockOutputKey>,
                     su: map<OutPoint, Hash>, key: BlockTxKey, r: TxRecord)
    requires SpentByOk(m, outs)
    requires key !in m && key != UNMINED && (r.debits.Some? ==> r.debits.value.spends == [])
    requires InputOuts(r.tx.inputs, keys) != {} ==> r.debits.Some?
    requires forall i: nat :: HasCredit(r, i) && r.credits[i].value.spentBy.Some? ==> OutPoint(r.tx.hash, i) in su
    ensures SpentByOk(Relink(m, InputOuts(r.tx.inputs, keys), Some(key))[key := MovedRecord(r, keys, su, key)],
                      (outs - InputOuts(r.tx.inputs, keys)) + MovedOuts(r, su, key))
  {
    var ps := InputOuts(r.tx.inputs, keys);
    var r' := MovedRecord(r, keys, su, key);
    var outs' := (outs - ps) + MovedOuts(r, su, key);
    var n := Relink(m, ps, Some(key))[key := r'];
    MoveMines(m, ps, key, r');
    InputSpendsAre(r.tx.inputs, keys);
    forall p: BlockOutputKey | p.tx == key && IsCredit(n, p) && SpentBy(n, p).Some?
      ensures SpentBy(n, p).value == UNMINED && p in outs'
    {
      assert HasCredit(r, p.out);
      assert OutPoint(r.tx.hash, p.out) in OwnSpent(r, su);
      assert p == BlockOutputKey(key, OutPoint(r.tx.hash, p.out).index);
    }
    SpentByAfter(m, n, outs, outs', ps, key, r');
  }

  lemma MoveKeepsSpends(l: Ledger, h: Hash, key: BlockTxKey)
    requires Linked(l) && CanMove(l, h, key)
    ensures var l' := MoveMined(l, h, key); SpentByOk(l'.mined, l'.spentOuts) && SpendsOk(l'.mined)
  {
    OutsOwned(l.mined, l.txs, l.spentOuts, l.spentKeys, l.prevOuts, h);
    if p :| p in InputOuts(l.txs[h].tx.inputs, l.spentKeys) { assert Spender(l.txs, h, OpOf(l.mined, p)); }
    SpentByMoved(l.mined, l.spentOuts, l.spentKeys, l.spentUnconf, key, l.txs[h]);
    SpendsMoved(l.mined, l.deltas.Keys, l.spentOuts, l.spentKeys, l.spentUnconf, key, l.txs[h]);
  }

  /** Mining an unconfirmed transaction whose parents are mined keeps every
      link two-way, and keeps the unspent map an exact scan. */
  lemma MoveKeepsLinks(l: Ledger, h: Hash, key: BlockTxKey)
    requires Linked(l) && CanMove(l, h, key)
    ensures Linked(MoveMined(l, h, key))
    ensures UnspentComplete(l.mined, l.unspent) ==>
              UnspentComplete(MoveMined(l, h, key).mined, MoveMined(l, h, key).unspent)
  {
    MoveKeepsRecords(l, h, key);
    MoveKeepsUnspent(l, h, key);
    MoveKeepsSpends(l, h, key);
    MoveKeepsPoolMaps(l, h, key);
  }

  lemma MoveNeedsParents(l: Ledger, h: Hash, key: BlockTxKey, op: OutPoint)
    requires PoolOk(l.txs) && PrevOutsOk(l.txs, l.prevOuts) && SpentUnconfOk(l.txs, l.spentUnconf) && h in l.txs
    requires op in l.txs[h].tx.inputs && op in l.spentUnconf
    ensures var l' := MoveMined(l, h, key); !SpentUnconfOk(l'.txs, l'.spentUnconf)
  {
    hide Relink, MovedUnspent, MovedOuts, MovedKeys, InputOuts, MovedRecord;
    var l' := MoveMined(l, h, key);
    assert Spender(l.txs, l.spentUnconf[op], op) && l.prevOuts[op] == h;
    assert op.hash < h && op in l'.spentUnconf && l'.spentUnconf[op] == h;
    assert SpentUnconfOk(l'.txs, l'.spentUnconf) ==> Spender(l'.txs, h, op);
  }

  lemma SpenderDebits(l: Ledger, h: Hash, op: OutPoint)
    requires Linked(l) && h in l.txs && op in l.txs[h].tx.inputs && op in l.spentKeys
    ensures l.txs[h].debits.Some? && l.spentKeys[op] in InputOuts(l.txs[h].tx.inputs, l.spentKeys)
  {
    hide MinedOk, HashesOk, UnspentSound, SpentByOk, SpendsOk, SpentUnconfOk, MarksOk, SpentOutsOk, PoolOk;
    assert Spender(l.txs, l.spentOuts[l.spentKeys[op]], op) && l.prevOuts[op] == h;
  }

  lemma MoveNeedsOrder(l: Ledger, h: Hash, key: BlockTxKey, op: OutPoint)
    requires Linked(l) && h in l.txs && op in l.txs[h].tx.inputs && op in l.spentKeys
    requires |l.txs[h].credits| <= |l.txs[h].tx.outputs| && SpendsOk(MoveMined(l, h, key).mined)
    ensures l.spentKeys[op].tx.height <= key.height
  {
    hide Linked, Relink, MovedUnspent, MovedOuts, MovedKeys, CreditGain, BlockDelta, InputOuts, InputSpends;
    hide MarkOwnSpent;
    SpenderDebits(l, h, op);
    InputSpendsAre(l.txs[h].tx.inputs, l.spentKeys);
    var p, m' := l.spentKeys[op], MoveMined(l, h, key).mined;
    assert m'[key] == MovedRecord(l.txs[h], l.spentKeys, l.spentUnconf, key);
    hide MoveMined;
    assert Lists(m', key, p) && SpendAt(m', key, p);
  }

  /** Moving a transaction to a free place of a block keeps every link exactly
      when none of its inputs is still unconfirmed and none is mined higher. */
  lemma MoveKeepsLinksIff(l: Ledger, h: Hash, key: BlockTxKey)
    requires Linked(l) && h in l.txs && key !in l.mined && 0 < key.index && 0 <= key.height
    ensures |l.txs[h].credits| <= |l.txs[h].tx.outputs|
    ensures Linked(MoveMined(l, h, key)) <==> CanMove(l, h, key)
  {
    hide MinedOk, HashesOk, UnspentSound, SpentByOk, SpendsOk, SpentOutsOk, SpentKeysOk, SpendersOk, MarksOk, MoveMined;
    if CanMove(l, h, key) { MoveKeepsLinks(l, h, key); }
    if Linked(MoveMined(l, h, key)) {
      forall op | op in l.txs[h].tx.inputs
        ensures op !in l.spentUnconf
      {
        if op in l.spentUnconf { MoveNeedsParents(l, h, key, op); }
      }
      forall op | op in l.txs[h].tx.inputs && op in l.spentKeys
        ensures l.spentKeys[op].tx.height <= key.height
      {
        MoveNeedsOrder(l, h, key, op);
      }
    }
  }
}
