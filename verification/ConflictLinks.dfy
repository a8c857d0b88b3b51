/** Conflict removal keeps the links two-way, but loses unspent outputs. */
module ConflictLinks {
  import opened TxTypes
  import opened Ledgers
  import opened LedgerInv
  import opened Conflicts
  import opened ConflictProof

  /** ds contains the spenders of its own outputs, and spends no other
      unconfirmed output that is marked spent. */
  ghost predicate Closed(l: Ledger, ds: set<Hash>) {
    && (forall op :: op in l.spentUnconf && op.hash in ds ==> l.spentUnconf[op] in ds)
    && (forall op :: op in l.spentUnconf && op.hash !in ds && l.spentUnconf[op] in ds ==>
          op.hash in l.txs && HasCredit(l.txs[op.hash], op.index) &&
          l.txs[op.hash].credits[op.index].value.spentBy.None?)
  }

  lemma LinkedIsPoolLinked(l: Ledger)
    requires Linked(l)
    ensures PoolLinked(l)
  {
    forall op | op in l.spentUnconf
      ensures l.spentUnconf[op] in l.txs && l.txs[l.spentUnconf[op]].tx.hash == l.spentUnconf[op]
      ensures op in l.txs[l.spentUnconf[op]].tx.inputs
    {
      assert Spender(l.txs, l.spentUnconf[op], op);
    }
  }

  lemma UnlinkKeepsSpends(m: Mined, n: Mined, outs: map<BlockOutputKey, Hash>, keys: map<OutPoint, BlockOutputKey>,
                          ds: set<Hash>, heights: set<int>)
    requires MinedOk(m, heights) && SpentByOk(m, outs) && SpendsOk(m) && SpentOutsOk(m, outs, keys)
    requires Relinks(m, n, OutsOf(outs, ds), None) && n.Keys == m.Keys
    ensures SpentByOk(n, Without(outs, ds)) && SpendsOk(n)
  {
    forall p | IsCredit(n, p) && SpentBy(n, p).Some?
      ensures if SpentBy(n, p).value == UNMINED then p in Without(outs, ds) else Lists(n, SpentBy(n, p).value, p)
    {
      if SpentBy(m, p).value != UNMINED { assert Lists(m, SpentBy(m, p).value, p); }
    }
    forall k, p | Lists(n, k, p) ensures SpendAt(n, k, p) {
      assert Lists(m, k, p) && SpendAt(m, k, p);
    }
  }

  lemma UnlinkKeepsRecords(m: Mined, n: Mined, ps: set<BlockOutputKey>, txs: Pool, ds: set<Hash>, heights: set<int>,
                           unspent: map<OutPoint, BlockTxKey>)
    requires MinedOk(m, heights) && HashesOk(m, txs) && UnspentSound(m, unspent)
    requires Relinks(m, n, ps, None) && n.Keys == m.Keys
    ensures MinedOk(n, heights) && HashesOk(n, txs - ds) && UnspentSound(n, unspent)
  {
    forall op | op in unspent ensures UnspentAt(n, BlockOutputKey(unspent[op], op.index), op) {
      assert UnspentAt(m, BlockOutputKey(unspent[op], op.index), op);
    }
  }

  lemma RemoveKeepsPoolSpends(txs: Pool, su: Spent, ds: set<Hash>, l: Ledger)
    requires l.txs == txs && l.spentUnconf == su && Closed(l, ds)
    requires SpentUnconfOk(txs, su) && MarksOk(txs, su)
    ensures SpentUnconfOk(txs - ds, Without(su, ds)) && MarksOk(txs - ds, Without(su, ds))
  {
    var su' := Without(su, ds);
    forall op | op in su' ensures Spender(txs - ds, su'[op], op) { assert Spender(txs, su[op], op); }
  }

  /** Removing a closed set of unconfirmed transactions keeps every link. */
  lemma RemoveKeepsLinks(l: Ledger, ds: set<Hash>)
    requires Linked(l) && Closed(l, ds)
    ensures Linked(RemoveSet(l, ds))
  {
    LinkedIsPoolLinked(l);
    RemoveSetKeepsPool(l, ds);
    var ps := OutsOf(l.spentOuts, ds);
    var n := Relink(l.mined, ps, None);
    RelinkRelinks(l.mined, ps, None);
    UnlinkKeepsSpends(l.mined, n, l.spentOuts, l.spentKeys, ds, l.deltas.Keys);
    UnlinkKeepsRecords(l.mined, n, ps, l.txs, ds, l.deltas.Keys, l.unspent);
    RemoveKeepsPoolSpends(l.txs, l.spentUnconf, ds, l);
    hide Relinks, MinedOk, HashesOk, UnspentSound, SpentByOk, SpendsOk, SpentOutsOk, SpentKeysOk, SpendersOk;
    hide SpentUnconfOk, MarksOk, PrevOutsOk;
  }

  lemma ClosedNeeded(l: Ledger, ds: set<Hash>)
    requires SpentUnconfOk(l.txs, l.spentUnconf) && MarksOk(l.txs, l.spentUnconf)
    requires SpentUnconfOk(l.txs - ds, Without(l.spentUnconf, ds)) && MarksOk(l.txs - ds, Without(l.spentUnconf, ds))
    ensures Closed(l, ds)
  {
    var su, su' := l.spentUnconf, Without(l.spentUnconf, ds);
    forall op | op in su && op.hash in ds ensures su[op] in ds {
      assert op in su' ==> op.hash in l.txs - ds;
    }
    forall op | op in su && op.hash !in ds && su[op] in ds
      ensures op.hash in l.txs && HasCredit(l.txs[op.hash], op.index)
      ensures l.txs[op.hash].credits[op.index].value.spentBy.None?
    {
      assert op == OutPoint(op.hash, op.index) && op !in su';
    }
  }

  /** Removing unconfirmed transactions keeps every link exactly when none that
      stays spends an output of a removed one, and none that stays is marked
      spent by a removed one. */
  lemma RemoveKeepsLinksIff(l: Ledger, ds: set<Hash>)
    requires Linked(l)
    ensures Linked(RemoveSet(l, ds)) <==> Closed(l, ds)
  {
    if Closed(l, ds) { RemoveKeepsLinks(l, ds); }
    if Linked(RemoveSet(l, ds)) { ClosedNeeded(l, ds); }
    hide MinedOk, PoolOk, HashesOk, UnspentSound, SpentByOk, SpendsOk, SpentOutsOk, SpentKeysOk, SpendersOk;
    hide SpentUnconfOk, MarksOk, PrevOutsOk, Closed;
  }

  /** Spending an unconfirmed output does not mark it, so removing a record
      none of whose credits is marked removes that record alone; every link
      survives exactly when nothing spends its outputs and it spends no
      marked one. */
  lemma RemoveUnmarkedIff(l: Ledger, h: Hash, bound: nat)
    requires Linked(l) && h in l.txs && Below(l.txs, bound) && Sound(l)
    requires forall i: nat :: HasCredit(l.txs[h], i) ==> l.txs[h].credits[i].value.spentBy.None?
    ensures l.txs[h].tx.hash == h && RemoveConflict(l, h, bound) == Ok(RemoveSet(l, {h}))
    ensures Linked(RemoveSet(l, {h})) <==> Closed(l, {h})
  {
    RemoveKeepsLinksIff(l, {h});
    LinkedIsPoolLinked(l);
    RemoveOneIs(l, h);
    hide MinedOk, HashesOk, UnspentSound, SpentByOk, SpendsOk, SpentOutsOk, SpentKeysOk, SpendersOk, SpentUnconfOk;
    hide MarksOk, PrevOutsOk, Closed, Relink;
    NoSpenders(l, l.txs[h], |l.txs[h].credits|, bound);
  }

  lemma {:induction false} NoSpenders(l: Ledger, r: TxRecord, n: nat, bound: nat)
    requires r.tx.hash < bound && n <= |r.credits| && Below(l.txs, bound) && Sound(l)
    requires forall i: nat :: HasCredit(r, i) ==> r.credits[i].value.spentBy.None?
    ensures RemoveSpenders(l, r, n, bound) == Ok(l)
  {
    if n > 0 {
      NoSpenders(l, r, n - 1, bound);
      assert r.credits[n-1].Some? ==> HasCredit(r, n - 1);
    }
  }

  lemma UnspentLost(m: Mined, txs: Pool, unspent: map<OutPoint, BlockTxKey>, p: BlockOutputKey)
    requires HashesOk(m, txs) && UnspentSound(m, unspent) && IsCredit(m, p) && SpentBy(m, p).Some?
    ensures OpOf(m, p) !in unspent
  {
    var op := OpOf(m, p);
    if op in unspent {
      assert false;
    }
  }

  lemma UnlinkUnspentIff(m: Mined, n: Mined, txs: Pool, ps: set<BlockOutputKey>, unspent: map<OutPoint, BlockTxKey>)
    requires HashesOk(m, txs) && UnspentSound(m, unspent) && UnspentComplete(m, unspent)
    requires Relinks(m, n, ps, None) && n.Keys == m.Keys
    requires forall p :: p in ps ==> IsCredit(m, p) && SpentBy(m, p).Some?
    ensures UnspentComplete(n, unspent) <==> ps == {}
  {
    if p :| p in ps {
      UnspentLost(m, txs, unspent, p);
      assert IsCredit(n, p) && SpentBy(n, p) == None && OpOf(n, p) !in unspent;
    }
  }

  /** Conflict removal frees mined credits without listing them as unspent:
      the unspent map stays a complete scan exactly when no mined credit was
      spent by a removed transaction. */
  lemma RemoveKeepsUnspentIff(l: Ledger, ds: set<Hash>)
    requires Linked(l) && UnspentComplete(l.mined, l.unspent)
    ensures var l' := RemoveSet(l, ds); UnspentComplete(l'.mined, l'.unspent) <==> OutsOf(l.spentOuts, ds) == {}
  {
    var ps := OutsOf(l.spentOuts, ds);
    RelinkRelinks(l.mined, ps, None);
    UnlinkUnspentIff(l.mined, Relink(l.mined, ps, None), l.txs, ps, l.unspent);
    hide UnspentComplete;
  }
}
