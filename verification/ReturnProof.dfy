/** Returning one mined transaction to the pool: the loops compute the change
    as a whole, and the change keeps every link. */
module ReturnProof {
  import opened TxTypes
  import opened Ledgers
  import opened LedgerInv
  import opened Rollbacks

  /** Every spent credit of r is spent by the pool. */
  ghost predicate SpentByPool(outs: map<BlockOutputKey, Hash>, key: BlockTxKey, r: TxRecord) {
    forall i: nat :: HasCredit(r, i) && r.credits[i].value.spentBy.Some? ==>
      r.credits[i].value.spentBy == Some(UNMINED) && BlockOutputKey(key, i) in outs
  }

  function UpTo(ops: set<OutPoint>, n: nat): (s: set<OutPoint>)
    ensures forall op :: op in s <==> op in ops && op.index < n
  {
    set op | op in ops && op.index < n
  }

  /** The ledger once the credits ops have left, own of them spent. */
  function CreditsGone(l: Ledger, key: BlockTxKey, ops: set<OutPoint>, own: set<OutPoint>): Ledger {
    l.(unspent := l.unspent - ops,
       spentOuts := l.spentOuts - OutKeys(key, own),
       spentKeys := l.spentKeys - own,
       spentUnconf := l.spentUnconf + SpendersOf(l.spentOuts, key, own))
  }

  lemma MinusTwice<K, V>(m: map<K, V>, a: set<K>, b: set<K>)
    ensures m - a - b == m - (a + b)
  {
  }

  lemma UpToNext(ops: set<OutPoint>, h: Hash, n: nat)
    requires forall op :: op in ops ==> op.hash == h
    ensures UpTo(ops, n + 1) == UpTo(ops, n) + if OutPoint(h, n) in ops then {OutPoint(h, n)} else {}
  {
  }

  lemma OneMoreSpender(outs: map<BlockOutputKey, Hash>, su: map<OutPoint, Hash>, key: BlockTxKey, own: set<OutPoint>,
      op: OutPoint)
    requires BlockOutputKey(key, op.index) in outs && op !in own && forall o :: o in own ==> o.hash == op.hash
    ensures OutKeys(key, own + {op}) == OutKeys(key, own) + {BlockOutputKey(key, op.index)}
    ensures BlockOutputKey(key, op.index) in outs - OutKeys(key, own)
    ensures (su + SpendersOf(outs, key, own))[op := outs[BlockOutputKey(key, op.index)]]
              == su + SpendersOf(outs, key, own + {op})
  {
  }

  lemma SpentCreditGone(l: Ledger, key: BlockTxKey, r: TxRecord, n: nat, ops: set<OutPoint>, own: set<OutPoint>)
    requires HasCredit(r, n) && r.credits[n].value.spentBy == Some(UNMINED) && BlockOutputKey(key, n) in l.spentOuts
    requires OutPoint(r.tx.hash, n) !in own && forall o :: o in own ==> o.hash == r.tx.hash
    ensures ReturnCredit(CreditsGone(l, key, ops, own), key, r, n)
         == Ok(CreditsGone(l, key, ops + {OutPoint(r.tx.hash, n)}, own + {OutPoint(r.tx.hash, n)}))
  {
    var op, p := OutPoint(r.tx.hash, n), BlockOutputKey(key, n);
    OneMoreSpender(l.spentOuts, l.spentUnconf, key, own, op);
    MinusTwice(l.unspent, ops, {op});
    MinusTwice(l.spentOuts, OutKeys(key, own), {p});
    MinusTwice(l.spentKeys, own, {op});
    hide OutKeys, SpendersOf;
  }

  lemma OneCreditGone(l: Ledger, key: BlockTxKey, r: TxRecord, n: nat)
    requires n < |r.credits| && SpentByPool(l.spentOuts, key, r)
    ensures ReturnCredit(CreditsGone(l, key, UpTo(OwnOps(r), n), UpTo(PoolSpent(r), n)), key, r, n)
         == Ok(CreditsGone(l, key, UpTo(OwnOps(r), n + 1), UpTo(PoolSpent(r), n + 1)))
  {
    var op := OutPoint(r.tx.hash, n);
    var a, b := UpTo(OwnOps(r), n), UpTo(PoolSpent(r), n);
    UpToNext(OwnOps(r), r.tx.hash, n);
    UpToNext(PoolSpent(r), r.tx.hash, n);
    if op in PoolSpent(r) {
      SpentCreditGone(l, key, r, n, a, b);
      hide CreditsGone, ReturnCredit, UpTo;
    } else {
      assert UpTo(PoolSpent(r), n + 1) == b;
      MinusTwice(l.unspent, a, {op});
      assert op !in OwnOps(r) ==> UpTo(OwnOps(r), n + 1) == a;
      hide UpTo, OutKeys, SpendersOf;
    }
  }

  lemma NoCreditGone(l: Ledger, key: BlockTxKey)
    ensures CreditsGone(l, key, {}, {}) == l
  {
    assert l.spentUnconf + SpendersOf(l.spentOuts, key, {}) == l.spentUnconf;
    assert OutKeys(key, {}) == {};
  }

  lemma {:induction false} CreditsAllGone(l: Ledger, key: BlockTxKey, r: TxRecord, n: nat)
    requires n <= |r.credits| && SpentByPool(l.spentOuts, key, r)
    ensures ReturnCredits(l, key, r, n) == Ok(CreditsGone(l, key, UpTo(OwnOps(r), n), UpTo(PoolSpent(r), n)))
  {
    hide ReturnCredit, CreditsGone, SpentByPool;
    if n == 0 {
      assert UpTo(OwnOps(r), 0) == {} && UpTo(PoolSpent(r), 0) == {};
      NoCreditGone(l, key);
    } else {
      CreditsAllGone(l, key, r, n - 1);
      OneCreditGone(l, key, r, n - 1);
    }
  }

  /** The ledger once the spends ps belong to the unconfirmed h. */
  function DebitsBack(l: Ledger, h: Hash, ps: seq<BlockOutputKey>): Ledger
    requires AllCredits(l.mined, ps)
  {
    l.(mined := Relink(l.mined, KeySet(ps), Some(UNMINED)),
       spentOuts := l.spentOuts + SpentTo(ps, h),
       spentKeys := l.spentKeys + KeysOf(l.mined, ps))
  }

  lemma RelinkMore(m: Mined, a: set<BlockOutputKey>, p: BlockOutputKey, who: Option<BlockTxKey>)
    ensures Relink(Relink(m, a, who), {p}, who) == Relink(m, a + {p}, who)
  {
    var x, y := Relink(Relink(m, a, who), {p}, who), Relink(m, a + {p}, who);
    forall k | k in m ensures x[k] == y[k] {
      assert x[k].credits == y[k].credits;
    }
  }

  lemma SpentToMore(outs: map<BlockOutputKey, Hash>, h: Hash, ps: seq<BlockOutputKey>, q: BlockOutputKey)
    ensures (outs + SpentTo(ps, h))[q := h] == outs + SpentTo(ps + [q], h)
  {
  }

  lemma KeysOfMore(m: Mined, keys: map<OutPoint, BlockOutputKey>, ps: seq<BlockOutputKey>, q: BlockOutputKey)
    requires AllCredits(m, ps) && IsCredit(m, q)
    ensures AllCredits(m, ps + [q])
    ensures (keys + KeysOf(m, ps))[OpOf(m, q) := q] == keys + KeysOf(m, ps + [q])
  {
    assert (ps + [q])[..|ps|] == ps;
  }

  lemma OneDebitBack(l: Ledger, h: Hash, ps: seq<BlockOutputKey>, q: BlockOutputKey)
    requires AllCredits(l.mined, ps) && IsCredit(l.mined, q)
    ensures AllCredits(l.mined, ps + [q])
    ensures ReturnDebit(DebitsBack(l, h, ps), h, q) == Ok(DebitsBack(l, h, ps + [q]))
  {
    var a := KeySet(ps);
    assert KeySet(ps + [q]) == a + {q};
    RelinkMore(l.mined, a, q, Some(UNMINED));
    RelinkRelinks(l.mined, a, Some(UNMINED));
    SpentToMore(l.spentOuts, h, ps, q);
    KeysOfMore(l.mined, l.spentKeys, ps, q);
    hide Relink, KeysOf, SpentTo, KeySet, AllCredits;
  }

  lemma {:induction false} AllDebitsBack(l: Ledger, h: Hash, ps: seq<BlockOutputKey>)
    requires AllCredits(l.mined, ps)
    ensures ReturnDebits(l, h, ps) == Ok(DebitsBack(l, h, ps))
  {
    if ps == [] {
      assert KeySet(ps) == {};
      NoRelink(l.mined);
      assert DebitsBack(l, h, []) == l;
    } else {
      var n := |ps| - 1;
      AllDebitsBack(l, h, ps[..n]);
      assert IsCredit(l.mined, ps[n]);
      OneDebitBack(l, h, ps[..n], ps[n]);
      assert ps == ps[..n] + [ps[n]];
      hide DebitsBack, ReturnDebit;
    }
  }

  lemma NoRelink(m: Mined)
    ensures Relink(m, {}, Some(UNMINED)) == m
  {
    forall k | k in m ensures Relink(m, {}, Some(UNMINED))[k] == m[k] {
      assert Relink(m, {}, Some(UNMINED))[k].credits == m[k].credits;
    }
  }

  /** The loops over credits and spends return r exactly as described. */
  lemma ReturnTxIs(l: Ledger, key: BlockTxKey, r: TxRecord)
    requires SpentByPool(l.spentOuts, key, r) && AllCredits(l.mined, Spends(r))
    ensures ReturnTx(l, key, r) == Ok(Returned(l, key, r))
  {
    hide ReturnCredits, ReturnDebits, SpentByPool, Parked, CreditsGone, DebitsBack, Returned, OwnOps, PoolSpent;
    hide AllCredits;
    ReturnAssembled(l, key, r);
    AllCreditsGone(Parked(l, r), key, r);
    AllDebitsBack(CreditsGone(Parked(l, r), key, OwnOps(r), PoolSpent(r)), r.tx.hash, Spends(r));
  }

  lemma ReturnAssembled(l: Ledger, key: BlockTxKey, r: TxRecord)
    requires AllCredits(l.mined, Spends(r))
    ensures Parked(l, r).spentOuts == l.spentOuts
    ensures var l1 := CreditsGone(Parked(l, r), key, OwnOps(r), PoolSpent(r));
            AllCredits(l1.mined, Spends(r)) &&
            var l2 := DebitsBack(l1, r.tx.hash, Spends(r));
                l2.(txs := l2.txs[r.tx.hash := ReturnedRecord(r)]) == Returned(l, key, r)
  {
    hide Relink, KeysOf, OwnOps, PoolSpent, OutKeys, SpendersOf, KeySet, SpentTo, Spends, ReturnedRecord;
    var h := r.tx.hash;
    assert l.txs[h := r.(index := INDEX_UNKNOWN)][h := ReturnedRecord(r)] == l.txs[h := ReturnedRecord(r)];
  }

  lemma AllCreditsGone(l: Ledger, key: BlockTxKey, r: TxRecord)
    requires SpentByPool(l.spentOuts, key, r)
    ensures ReturnCredits(l, key, r, |r.credits|) == Ok(CreditsGone(l, key, OwnOps(r), PoolSpent(r)))
  {
    hide ReturnCredits, CreditsGone, SpentByPool;
    CreditsAllGone(l, key, r, |r.credits|);
    assert UpTo(OwnOps(r), |r.credits|) == OwnOps(r) && UpTo(PoolSpent(r), |r.credits|) == PoolSpent(r);
  }
}
