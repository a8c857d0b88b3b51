/** Conflict removal and rollback keep the amounts in order. */
module PoolAccounts {
  import opened TxTypes
  import opened Ledgers
  import opened LedgerInv
  import opened Conflicts
  import opened ConflictProof
  import opened ConflictLinks
  import opened Rollbacks
  import opened ReturnProof
  import opened ReturnLinks
  import opened RollbackProof
  import opened Sums
  import opened Balances
  import opened Accounting

  // ---------------------------------------------------------------- conflicts

  lemma OneSpender(txs: Pool, su: Spent, prev: map<OutPoint, Hash>, x: Hash, op: OutPoint)
    requires SpendersLive(txs, su) && PrevOutsOk(txs, prev) && x in txs && op in txs[x].tx.inputs && op in su
    ensures su[op] == x
  {
    assert prev[op] == x;
  }

  lemma RemovedPoolAdds(m: Mined, n: Mined, txs: Pool, outs: map<BlockOutputKey, Hash>, su: Spent,
      prev: map<OutPoint, Hash>, ds: set<Hash>)
    requires PoolAdds(m, txs, outs, su) && SpendersLive(txs, su) && PrevOutsOk(txs, prev)
    requires forall p :: p in outs ==> p.tx in m && p.tx in n && n[p.tx].tx == m[p.tx].tx
    ensures PoolAdds(n, txs - ds, Without(outs, ds), Without(su, ds))
  {
    var txs', outs', su' := txs - ds, Without(outs, ds), Without(su, ds);
    forall x | x in txs' && txs'[x].debits.Some? && (forall op :: op in txs'[x].tx.inputs ==> op !in su')
      ensures txs'[x].debits.value.amount == Sum(OutsSpentBy(outs', x), ValueIn(n))
    {
      forall op | op in txs[x].tx.inputs ensures op !in su {
        if op in su { OneSpender(txs, su, prev, x, op); assert false; }
      }
      assert OutsSpentBy(outs', x) == OutsSpentBy(outs, x);
      SameValues(m, n, OutsSpentBy(outs, x));
    }
  }

  /** Removing unconfirmed transactions keeps the amounts in order. */
  lemma RemoveAccounts(l: Ledger, ds: set<Hash>)
    requires Linked(l) && Accounted(l)
    ensures Accounted(RemoveSet(l, ds))
  {
    LinkedIsPoolLinked(l);
    hide BlocksAdd, DebitsAdd, PoolAdds, PoolOk, HashesOk, UnspentSound, SpentByOk, SpendsOk, SpentOutsOk, SpentKeysOk;
    hide SpentUnconfOk, MarksOk, PrevOutsOk, MinedOk, SpendersLive;
    var ps := OutsOf(l.spentOuts, ds);
    var n := Relink(l.mined, ps, None);
    RelinkRelinks(l.mined, ps, None);
    RelinkAccounts(l.mined, n, ps, None, l.deltas);
    RemovedPoolAdds(l.mined, n, l.txs, l.spentOuts, l.spentUnconf, l.prevOuts, ds);
  }

  // ----------------------------------------------------------------- rollback

  lemma UnmineDebits(m: Mined, n: Mined, ps: set<BlockOutputKey>, key: BlockTxKey)
    requires DebitsAdd(m) && SpendsOk(m) && Unmines(m, n, ps, key) && FreeOfMined(m, key) && UNMINED !in m
    ensures DebitsAdd(n)
  {
    forall k | k in n ensures DebitAmount(n[k]) == Sum(KeySet(Spends(n[k])), ValueIn(n)) {
      forall p | p in KeySet(Spends(m[k])) ensures p.tx in m && p.tx in n {
        assert Lists(m, k, p) && SpendAt(m, k, p);
      }
      SameValues(m, n, KeySet(Spends(m[k])));
    }
  }

  lemma UnminePoolAt(m: Mined, n: Mined, key: BlockTxKey, txs: Pool, outs: map<BlockOutputKey, Hash>,
      su: map<OutPoint, Hash>, x: Hash)
    requires PoolAdds(m, txs, outs, su) && SpendersOk(m, txs, outs) && key in m
    requires Unmines(m, n, KeySet(Spends(m[key])), key)
    requires (forall p :: p in Spends(m[key]) ==> p !in outs) && x in txs && x != m[key].tx.hash && txs[x].debits.Some?
    requires forall p: BlockOutputKey :: p in outs && p.tx == key ==>
               OutPoint(m[key].tx.hash, p.out) in PoolSpent(m[key])
    requires forall op :: op in txs[x].tx.inputs ==> op !in su + SpendersOf(outs, key, PoolSpent(m[key]))
    ensures txs[x].debits.value.amount ==
            Sum(OutsSpentBy((outs - OutKeys(key, PoolSpent(m[key]))) + SpentTo(Spends(m[key]), m[key].tx.hash), x),
                ValueIn(n))
  {
    StayingOuts(m, n, key, txs, outs, su, PoolSpent(m[key]), Spends(m[key]), x);
    SameValues(m, n, OutsSpentBy(outs, x));
  }

  lemma UnminePool(m: Mined, n: Mined, key: BlockTxKey, txs: Pool, outs: map<BlockOutputKey, Hash>,
      su: map<OutPoint, Hash>)
    requires PoolAdds(m, txs, outs, su) && DebitsAdd(m) && SpendsOk(m) && SpendersOk(m, txs, outs) && key in m
    requires m[key].tx.hash !in txs
    requires Unmines(m, n, KeySet(Spends(m[key])), key) && forall p :: p in Spends(m[key]) ==> p.tx != key && p !in outs
    requires forall p: BlockOutputKey :: p in outs && p.tx == key ==>
               OutPoint(m[key].tx.hash, p.out) in PoolSpent(m[key])
    ensures var h, own := m[key].tx.hash, PoolSpent(m[key]);
            PoolAdds(n, txs[h := ReturnedRecord(m[key])], (outs - OutKeys(key, own)) + SpentTo(Spends(m[key]), h),
                su + SpendersOf(outs, key, own))
  {
    var h, own, ps := m[key].tx.hash, PoolSpent(m[key]), Spends(m[key]);
    var txs', outs', su' := txs[h := ReturnedRecord(m[key])], (outs - OutKeys(key, own)) + SpentTo(ps, h),
        su + SpendersOf(outs, key, own);
    ReturnedOuts(m, key, txs, outs, own);
    forall p | p in KeySet(ps) ensures p.tx in m && p.tx in n { assert Lists(m, key, p) && SpendAt(m, key, p); }
    SameValues(m, n, KeySet(ps));
    hide OutKeys, SpentTo, SpendersOf, PoolSpent, OutsSpentBy, KeySet, Sum, ValueIn, SpendsOk, SpendersOk, Unmines;
    forall x | x in txs' && txs'[x].debits.Some? && (forall op :: op in txs'[x].tx.inputs ==> op !in su')
      ensures txs'[x].debits.value.amount == Sum(OutsSpentBy(outs', x), ValueIn(n))
    {
      if x != h { UnminePoolAt(m, n, key, txs, outs, su, x); }
    }
  }

  lemma ReturnedOuts(m: Mined, key: BlockTxKey, txs: Pool, outs: map<BlockOutputKey, Hash>, own: set<OutPoint>)
    requires key in m && SpendersOk(m, txs, outs) && m[key].tx.hash !in txs
    ensures OutsSpentBy((outs - OutKeys(key, own)) + SpentTo(Spends(m[key]), m[key].tx.hash), m[key].tx.hash)
              == KeySet(Spends(m[key]))
  {
  }

  lemma StayingOuts(m: Mined, n: Mined, key: BlockTxKey, txs: Pool, outs: map<BlockOutputKey, Hash>,
      su: map<OutPoint, Hash>, own: set<OutPoint>, ps: seq<BlockOutputKey>, x: Hash)
    requires Unmines(m, n, KeySet(ps), key) && SpendersOk(m, txs, outs) && x in txs && x != m[key].tx.hash
    requires forall p :: p in ps ==> p !in outs || outs[p] != x
    requires forall p: BlockOutputKey :: p in outs && p.tx == key ==> OutPoint(m[key].tx.hash, p.out) in own
    requires forall op :: op in txs[x].tx.inputs ==> op !in su + SpendersOf(outs, key, own)
    ensures OutsSpentBy((outs - OutKeys(key, own)) + SpentTo(ps, m[key].tx.hash), x) == OutsSpentBy(outs, x)
    ensures forall p :: p in OutsSpentBy(outs, x) ==> p.tx in m && p.tx in n
    ensures forall op :: op in txs[x].tx.inputs ==> op !in su
  {
    forall p | p in outs && outs[p] == x ensures p.tx in m && p.tx != key {
      assert Spender(txs, x, OpOf(m, p));
      var op := OutPoint(m[key].tx.hash, p.out);
      assert p == BlockOutputKey(p.tx, op.index);
      assert p.tx == key ==> op in SpendersOf(outs, key, own);
    }
    forall p | p in OutKeys(key, own) ensures p !in OutsSpentBy(outs, x) {}
  }

  ghost predicate Adds(l: Ledger) {
    DebitsAdd(l.mined) && PoolAdds(l.mined, l.txs, l.spentOuts, l.spentUnconf)
  }

  lemma UnmineAdds(l: Ledger, key: BlockTxKey)
    requires Linked(l) && CanUnmine(l, key) && Adds(l)
    ensures AllCredits(l.mined - {key}, Spends(l.mined[key])) && Adds(Unmine(l, key))
  {
    hide UnspentSound, PoolOk, SpentByOk, SpentKeysOk, SpentUnconfOk, MarksOk, PrevOutsOk, DebitsAdd, PoolAdds;
    UnmineDefined(l, key);
    OwnPoolSpent(l, key);
    var ps := KeySet(Spends(l.mined[key]));
    UnmineUnmines(l.mined, ps, key);
    var n := Relink(l.mined - {key}, ps, Some(UNMINED));
    forall p | p in Spends(l.mined[key]) ensures p.tx != key && p !in l.spentOuts { assert SpendAt(l.mined, key, p); }
    assert l.mined[key].tx.hash !in l.txs && UNMINED !in l.mined;
    hide MinedOk, HashesOk, SpentOutsOk;
    UnmineDebits(l.mined, n, ps, key);
    UnminePool(l.mined, n, key, l.txs, l.spentOuts, l.spentUnconf);
  }

  lemma BareAdds(m: Mined, k: BlockTxKey, txs: Pool, outs: map<BlockOutputKey, Hash>,
      keys: map<OutPoint, BlockOutputKey>, su: map<OutPoint, Hash>)
    requires DebitsAdd(m) && PoolAdds(m, txs, outs, su) && SpendsOk(m) && SpentOutsOk(m, outs, keys)
    requires k in m && forall i: nat :: !HasCredit(m[k], i)
    ensures DebitsAdd(m - {k}) && PoolAdds(m - {k}, txs, outs, su)
  {
    var n := m - {k};
    forall j | j in n ensures DebitAmount(n[j]) == Sum(KeySet(Spends(n[j])), ValueIn(n)) {
      forall p | p in KeySet(Spends(m[j])) ensures p.tx in m && p.tx in n { assert Lists(m, j, p) && SpendAt(m, j, p); }
      SameValues(m, n, KeySet(Spends(m[j])));
    }
    SamePool(m, n, txs, outs, su);
  }

  /** Below the cut, t has the records of m with the same credits and debits. */
  ghost predicate SameBelow(m: Mined, t: Mined, height: int) {
    && (forall k: BlockTxKey :: k.height < height ==> (k in t <==> k in m))
    && (forall k: BlockTxKey :: k in t && k in m && k.height < height ==>
          t[k].tx == m[k].tx && t[k].debits == m[k].debits)
    && (forall p: BlockOutputKey :: p.tx.height < height ==> (IsCredit(t, p) <==> IsCredit(m, p)))
  }

  lemma SameBelowStart(m: Mined, height: int)
    ensures SameBelow(m, CutMined(m, height), height)
  {
  }

  lemma SameBelowNext(m: Mined, t: Ledger, height: int, k: BlockTxKey, r: TxRecord)
    requires SameBelow(m, t.mined, height) && AllCredits(t.mined, Spends(r))
    ensures SameBelow(m, Returned(t, k, r).mined, height)
  {
    RelinkRelinks(t.mined, KeySet(Spends(r)), Some(UNMINED));
    assert Relink(t.mined, KeySet(Spends(r)), Some(UNMINED)).Keys == t.mined.Keys;
    hide SameBelow, Relink, KeySet, KeysOf, SpentTo, PoolSpent, OwnOps, OutKeys, SpendersOf, AllCredits, ReturnedRecord;
    SameBelowRelink(m, t.mined, Returned(t, k, r).mined, KeySet(Spends(r)), height);
  }

  lemma SameBelowRelink(m: Mined, t: Mined, n: Mined, ps: set<BlockOutputKey>, height: int)
    requires SameBelow(m, t, height) && Relinks(t, n, ps, Some(UNMINED)) && n.Keys == t.Keys
    ensures SameBelow(m, n, height)
  {
  }

  lemma SameBelowBlocks(m: Mined, t: Mined, deltas: map<int, Amounts>, height: int)
    requires BlocksAdd(m, deltas) && SameBelow(m, t, height)
    ensures BlocksAdd(t, CutDeltas(deltas, height))
  {
    var d := CutDeltas(deltas, height);
    assert BlocksAdd(m, d);
    hide BlocksAdd;
    forall h | h in d ensures SameAt(m, t, h) {}
    SameBlocks(m, t, d);
  }

  lemma HalfwayAddsCoinbase(l: Ledger, height: int, order: seq<BlockTxKey>, t: Ledger, k: BlockTxKey)
    requires Halfway(l, height, order, t) && k in Pending(l.mined, height, order) && forall i: nat ::
               !HasCredit(l.mined[k], i)
    requires Adds(Joined(t, Pending(l.mined, height, order), l.deltas))
    ensures Adds(Joined(t, Pending(l.mined, height, order + [k]), l.deltas))
  {
    hide DebitsAdd, PoolAdds, UnspentSound, UnspentComplete, PoolOk, HashesOk, MinedOk, SpentByOk, SpentKeysOk;
    hide SpentUnconfOk, MarksOk, PrevOutsOk, SpendersOk, SpendsOk, SpentOutsOk;
    var pending := Pending(l.mined, height, order);
    var v := Joined(t, pending, l.deltas);
    assert k in v.mined && v.mined[k] == l.mined[k] && height <= k.height;
    PendingNext(l.mined, height, order, k);
    hide Pending;
    assert v.mined - {k} == t.mined + (pending - {k});
    BareAdds(v.mined, k, v.txs, v.spentOuts, v.spentKeys, v.spentUnconf);
  }

  lemma HalfwayAddsTx(l: Ledger, height: int, order: seq<BlockTxKey>, t: Ledger, k: BlockTxKey)
    requires Halfway(l, height, order, t) && k in Pending(l.mined, height, order) && k.index != 0
    requires NoInnerSpend(l.mined, height)
    requires Adds(Joined(t, Pending(l.mined, height, order), l.deltas)) && SameBelow(l.mined, t.mined, height)
    ensures var t' := ReturnTx(t, k, l.mined[k]);
            t'.Ok? && Adds(Joined(t'.value, Pending(l.mined, height, order + [k]), l.deltas))
            && SameBelow(l.mined, t'.value.mined, height)
  {
    hide Linked, UnspentComplete, ReturnTx, NoInnerSpend, Adds, SameBelow;
    var pending := Pending(l.mined, height, order);
    PendingReady(l, height, order, t, k);
    ReturnTxIs(t, k, l.mined[k]);
    PendingNext(l.mined, height, order, k);
    SameBelowNext(l.mined, t, height, k, l.mined[k]);
    assert pending[k] == l.mined[k] && forall j :: j in pending ==> height <= j.height;
    hide Pending, SpentByPool, CanUnmine;
    UnmineAdds(Joined(t, pending, l.deltas), k);
    ReturnIsUnmine(t, pending, l.deltas, k, height);
  }

  lemma {:induction false} ReturnAllAdds(l: Ledger, height: int, order: seq<BlockTxKey>)
    requires Linked(l) && Adds(l) && NoInnerSpend(l.mined, height) && NoCoinbaseCredit(l.mined, height)
    requires InputsApart(l, height)
    requires NoDup(order) && forall k :: k in order ==> k in l.mined && height <= k.height
    ensures var t := ReturnAll(Truncate(l, height), l.mined, order);
            t.Ok? && Adds(Joined(t.value, Pending(l.mined, height, order), l.deltas))
            && SameBelow(l.mined, t.value.mined, height)
  {
    hide Linked, Adds, NoInnerSpend, InputsApart, ReturnTx, SameBelow;
    if order == [] {
      SameBelowStart(l.mined, height);
      assert CutMined(l.mined, height) + Pending(l.mined, height, []) == l.mined;
      assert Joined(Truncate(l, height), Pending(l.mined, height, []), l.deltas) == l;
    } else {
      var n := |order| - 1;
      var k := order[n];
      assert order == order[..n] + [k];
      ReturnAllAdds(l, height, order[..n]);
      ReturnAllKeeps(l, height, order[..n]);
      var t := ReturnAll(Truncate(l, height), l.mined, order[..n]).value;
      assert k in Pending(l.mined, height, order[..n]);
      hide Halfway;
      if k.index == 0 {
        HalfwayAddsCoinbase(l, height, order[..n], t, k);
      } else {
        HalfwayAddsTx(l, height, order[..n], t, k);
      }
    }
  }

  /** A rollback keeps the amounts of the remaining blocks and of all debits
      in order. */
  lemma RollbackAccounts(l: Ledger, height: int, order: seq<BlockTxKey>)
    requires Linked(l) && Accounted(l) && Detached(l.mined, height, order)
    requires NoInnerSpend(l.mined, height) && NoCoinbaseCredit(l.mined, height) && InputsApart(l, height)
    ensures Rollback(l, height, order).Ok? && Accounted(Rollback(l, height, order).value)
  {
    hide Linked, NoInnerSpend, NoCoinbaseCredit, InputsApart, ReturnAll, BlocksAdd, DebitsAdd, PoolAdds, SameBelow;
    ReturnAllAdds(l, height, order);
    ReturnAllKeeps(l, height, order);
    var t := Rollback(l, height, order).value;
    SameBelowBlocks(l.mined, t.mined, l.deltas, height);
    assert Pending(l.mined, height, order) == map[];
    assert t.mined + map[] == t.mined;
  }
}
