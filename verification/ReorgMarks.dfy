/** Mining then rolling back transactions whose spent credits the pool has not
    marked: they come back marked, and nothing else changes. */
module ReorgMarks {
  import opened TxTypes
  import opened Ledgers
  import opened LedgerInv
  import opened Rollbacks
  import opened Reorgs
  import opened ReorgTheorem

  /** r with its credits that the pool spends marked. */
  function Marked(r: TxRecord, su: Spent): TxRecord {
    r.(credits := MarkOwnSpent(r, su))
  }

  /** The pool with the transactions of mv so marked. */
  function MarkPool(txs: Pool, su: Spent, mv: Moves): Pool {
    map h | h in txs :: if h in mv then Marked(txs[h], su) else txs[h]
  }

  function MarkAll(l: Ledger, mv: Moves): Ledger {
    l.(txs := MarkPool(l.txs, l.spentUnconf, mv))
  }

  /** Every credit of mv that the pool spends is marked spent. */
  ghost predicate AllMarked(l: Ledger, mv: Moves) {
    forall op :: op in l.spentUnconf && op.hash in mv && op.hash in l.txs && HasCredit(l.txs[op.hash], op.index) ==>
      l.txs[op.hash].credits[op.index].value.spentBy.Some?
  }

  // ------------------------------------------------- marking before or after

  lemma MarkTwice(r: TxRecord, su0: Spent, su: Spent)
    requires forall i: nat :: HasCredit(r, i) ==> (OutPoint(r.tx.hash, i) in su0 <==> OutPoint(r.tx.hash, i) in su)
    ensures MarkOwnSpent(Marked(r, su0), su) == MarkOwnSpent(r, su)
  {
    var a, b := MarkOwnSpent(Marked(r, su0), su), MarkOwnSpent(r, su);
    forall i | 0 <= i < |r.credits| ensures a[i] == b[i] {
      if r.credits[i].Some? { assert HasCredit(r, i); }
    }
  }

  lemma {:induction false} GainMarked(r: TxRecord, su0: Spent, su: Spent, n: nat)
    requires n <= |r.credits| <= |r.tx.outputs|
    requires forall i: nat :: HasCredit(r, i) ==> (OutPoint(r.tx.hash, i) in su0 <==> OutPoint(r.tx.hash, i) in su)
    ensures CreditGain(Marked(r, su0), su, n) == CreditGain(r, su, n)
  {
    if n > 0 {
      GainMarked(r, su0, su, n - 1);
      assert r.credits[n-1].Some? ==> HasCredit(r, n - 1);
    }
  }

  lemma MovesMarked(r: TxRecord, su0: Spent, su: Spent, key: BlockTxKey)
    requires forall i: nat :: HasCredit(r, i) ==> (OutPoint(r.tx.hash, i) in su0 <==> OutPoint(r.tx.hash, i) in su)
    ensures var r' := Marked(r, su0);
            && OwnSpent(r', su) == OwnSpent(r, su) && MovedUnspent(r', su, key) == MovedUnspent(r, su, key)
            && MovedOuts(r', su, key) == MovedOuts(r, su, key) && MovedKeys(r', su, key) == MovedKeys(r, su, key)
  {
    var r' := Marked(r, su0);
    assert forall i: nat :: HasCredit(r', i) <==> HasCredit(r, i);
    assert OwnOps(r') == OwnOps(r) && OwnSpent(r', su) == OwnSpent(r, su);
    forall op | op in OwnOps(r) && op !in su ensures r'.credits[op.index] == r.credits[op.index] {
      assert op == OutPoint(r.tx.hash, op.index);
    }
  }

  /** Mining a marked record does what mining it unmarked does. */
  lemma MoveMarked(n: Ledger, txs: Pool, su0: Spent, h: Hash, key: BlockTxKey)
    requires h in n.txs && |n.txs[h].credits| <= |n.txs[h].tx.outputs| && h in txs && txs[h] == Marked(n.txs[h], su0)
    requires forall i: nat :: HasCredit(n.txs[h], i) ==>
               (OutPoint(n.txs[h].tx.hash, i) in su0 <==> OutPoint(n.txs[h].tx.hash, i) in n.spentUnconf)
    ensures MoveMined(n.(txs := txs), h, key) == MoveMined(n, h, key).(txs := txs - {h})
  {
    hide Marked, Relink, MovedRecord, CreditGain, MovedUnspent, MovedOuts, MovedKeys, OwnSpent, InputOuts, Inputs;
    hide MarkOwnSpent, BlockDelta, DebitAmount;
    PartsMarked(n.txs[h], su0, n.spentUnconf, n.spentKeys, key);
  }

  lemma PartsMarked(r: TxRecord, su0: Spent, su: Spent, keys: map<OutPoint, BlockOutputKey>, key: BlockTxKey)
    requires |r.credits| <= |r.tx.outputs|
    requires forall i: nat :: HasCredit(r, i) ==> (OutPoint(r.tx.hash, i) in su0 <==> OutPoint(r.tx.hash, i) in su)
    ensures var r' := Marked(r, su0);
            && r'.tx == r.tx && |r'.credits| == |r.credits| && Inputs(r') == Inputs(r)
            && DebitAmount(r') == DebitAmount(r)
            && MovedRecord(r', keys, su, key) == MovedRecord(r, keys, su, key)
            && CreditGain(r', su, |r.credits|) == CreditGain(r, su, |r.credits|)
            && OwnSpent(r', su) == OwnSpent(r, su) && MovedUnspent(r', su, key) == MovedUnspent(r, su, key)
            && MovedOuts(r', su, key) == MovedOuts(r, su, key) && MovedKeys(r', su, key) == MovedKeys(r, su, key)
  {
    hide CreditGain, OwnSpent, MovedUnspent, MovedOuts, MovedKeys, MarkOwnSpent;
    MarkTwice(r, su0, su);
    GainMarked(r, su0, su, |r.credits|);
    MovesMarked(r, su0, su, key);
    assert Inputs(Marked(r, su0)) == Inputs(r);
  }

  lemma MarkPoolLess(txs: Pool, su: Spent, mv: Moves, h: Hash)
    ensures MarkPool(txs - {h}, su, mv) == MarkPool(txs, su, mv) - {h}
  {
  }

  lemma MarkPoolAt(txs: Pool, su: Spent, mv: Moves, h: Hash)
    requires h in txs && h in mv
    ensures h in MarkPool(txs, su, mv) && MarkPool(txs, su, mv)[h] == Marked(txs[h], su)
  {
  }

  /** The moves made so far do the same on the marked ledger. */
  lemma {:induction false} MoveAllMarked(l: Ledger, moves: seq<Move>, base: int, all: Moves)
    requires Linked(l) && DistinctHashes(moves) && Separable(l, AsMap(moves), base)
    requires forall h :: h in AsMap(moves) ==> h in all
    ensures MoveAll(MarkAll(l, all), moves)
              == MoveAll(l, moves).(txs := MarkPool(MoveAll(l, moves).txs, l.spentUnconf, all))
  {
    if moves != [] {
      var m := |moves| - 1;
      AsMapNext(moves);
      FewerSeparable(l, AsMap(moves[..m]), AsMap(moves), base);
      hide Separable, MarkPool, MoveMined, Moved;
      MovesAll(l, moves[..m], base);
      MoveAllMarked(l, moves[..m], base, all);
      NextMarked(l, moves, base, all);
    }
  }

  lemma NextMarked(l: Ledger, moves: seq<Move>, base: int, all: Moves)
    requires Linked(l) && moves != [] && DistinctHashes(moves) && Separable(l, AsMap(moves), base)
    requires forall h :: h in AsMap(moves) ==> h in all
    requires var before := moves[..|moves|-1];
             && Moved(l, AsMap(before), base, MoveAll(l, before))
             && MoveAll(MarkAll(l, all), before)
                 == MoveAll(l, before).(txs := MarkPool(MoveAll(l, before).txs, l.spentUnconf, all))
    ensures MoveAll(MarkAll(l, all), moves)
              == MoveAll(l, moves).(txs := MarkPool(MoveAll(l, moves).txs, l.spentUnconf, all))
  {
    hide Linked, Separable, Moved, MoveMined, MarkPool, MarkOwnSpent;
    var i := |moves| - 1;
    var n, h, key := MoveAll(l, moves[..i]), moves[i].hash, moves[i].key;
    AsMapNext(moves);
    Unmoved(l, moves, base);
    assert h in AsMap(moves) && h in all;
    MovesOne(l, AsMap(moves[..i]), base, n, h, key);
    StillSpent(l, AsMap(moves[..i]), base, n, h);
    MarkPoolAt(n.txs, l.spentUnconf, all, h);
    MoveMarked(n, MarkPool(n.txs, l.spentUnconf, all), l.spentUnconf, h, key);
    MarkPoolLess(n.txs, l.spentUnconf, all, h);
    MoveShrinks(n, h, key);
  }

  lemma Unmoved(l: Ledger, moves: seq<Move>, base: int)
    requires moves != [] && DistinctHashes(moves) && Separable(l, AsMap(moves), base)
    ensures moves[|moves|-1].hash in l.txs
  {
    AsMapNext(moves);
    assert moves[|moves|-1].hash in AsMap(moves);
  }

  lemma MoveShrinks(n: Ledger, h: Hash, key: BlockTxKey)
    requires h in n.txs && |n.txs[h].credits| <= |n.txs[h].tx.outputs|
    ensures MoveMined(n, h, key).txs == n.txs - {h}
  {
  }

  /** What the pool spends of a transaction not moved yet. */
  lemma StillSpent(l: Ledger, mv: Moves, base: int, n: Ledger, h: Hash)
    requires Linked(l) && Moved(l, mv, base, n) && h in l.txs && h !in mv
    ensures h in n.txs && n.txs[h] == l.txs[h] && n.txs[h].tx.hash == h
    ensures forall i: nat :: OutPoint(h, i) in l.spentUnconf <==> OutPoint(h, i) in n.spentUnconf
  {
    hide GoneMined, GoneUnspent, GoneOuts, GoneKeys, StayValues, CutMined, CutDeltas, Placed;
  }

  // --------------------------------------------------------- the whole circle

  lemma MarkAllLinked(l: Ledger, mv: Moves, base: int)
    requires Linked(l) && Separable(l, mv, base)
    ensures Linked(MarkAll(l, mv)) && Independent(MarkAll(l, mv), mv, base)
  {
    MarkedRecords(l, mv);
    MarkedMarks(l, mv);
    MarkedSpends(l, mv);
    MarkedApart(l, mv, base);
    hide MarkPool, MinedOk, PoolOk, HashesOk, PrevOutsOk, SpentUnconfOk, MarksOk, SpendersOk, UnspentSound, SpentByOk;
    hide SpendsOk, SpentOutsOk, SpentKeysOk, Separable;
  }

  lemma MarkedRecords(l: Ledger, mv: Moves)
    requires PoolOk(l.txs) && HashesOk(l.mined, l.txs) && PrevOutsOk(l.txs, l.prevOuts)
    ensures var txs := MarkAll(l, mv).txs;
            txs.Keys == l.txs.Keys && PoolOk(txs) && HashesOk(l.mined, txs) && PrevOutsOk(txs, l.prevOuts)
  {
    hide MarkOwnSpent;
  }

  lemma MarkedApart(l: Ledger, mv: Moves, base: int)
    requires Separable(l, mv, base)
    ensures Separable(MarkAll(l, mv), mv, base)
  {
    hide MarkOwnSpent;
  }

  lemma MarkedMarks(l: Ledger, mv: Moves)
    requires PoolOk(l.txs) && MarksOk(l.txs, l.spentUnconf)
    ensures MarksOk(MarkAll(l, mv).txs, l.spentUnconf)
    ensures forall h, i: nat :: h in mv && h in l.txs && HasCredit(MarkAll(l, mv).txs[h], i) ==>
              (MarkAll(l, mv).txs[h].credits[i].value.spentBy.Some? <==> OutPoint(h, i) in l.spentUnconf)
  {
    forall h, i: nat | h in l.txs && HasCredit(MarkAll(l, mv).txs[h], i)
      ensures MarkAll(l, mv).txs[h].credits[i].value.spentBy.Some? ==>
                MarkAll(l, mv).txs[h].credits[i].value.spentBy == Some(UNMINED) && OutPoint(h, i) in l.spentUnconf
      ensures h in mv && OutPoint(h, i) in l.spentUnconf ==> MarkAll(l, mv).txs[h].credits[i].value.spentBy.Some?
    {
      assert HasCredit(l.txs[h], i);
    }
  }

  lemma MarkedSpends(l: Ledger, mv: Moves)
    requires SpentUnconfOk(l.txs, l.spentUnconf) && SpendersOk(l.mined, l.txs, l.spentOuts)
    ensures SpentUnconfOk(MarkAll(l, mv).txs, l.spentUnconf) && SpendersOk(l.mined, MarkAll(l, mv).txs, l.spentOuts)
  {
    var txs' := MarkAll(l, mv).txs;
    forall op | op in l.spentUnconf
      ensures op.hash in txs' && HasCredit(txs'[op.hash], op.index) && Spender(txs', l.spentUnconf[op], op)
    {
      assert Spender(l.txs, l.spentUnconf[op], op);
    }
    forall p | p in l.spentOuts ensures Spender(txs', l.spentOuts[p], OpOf(l.mined, p)) {
      assert Spender(l.txs, l.spentOuts[p], OpOf(l.mined, p));
    }
  }

  lemma MarkAllIs(l: Ledger, mv: Moves)
    requires PoolOk(l.txs) && MarksOk(l.txs, l.spentUnconf)
    ensures MarkAll(l, mv) == l <==> AllMarked(l, mv)
  {
    if AllMarked(l, mv) {
      forall h | h in l.txs && h in mv ensures Marked(l.txs[h], l.spentUnconf) == l.txs[h] {
        MarkedAlready(l, mv, h);
      }
      assert MarkAll(l, mv).txs == l.txs;
    } else {
      var op :| op in l.spentUnconf && op.hash in mv && op.hash in l.txs && HasCredit(l.txs[op.hash], op.index)
                && l.txs[op.hash].credits[op.index].value.spentBy.None?;
      assert OutPoint(op.hash, op.index) == op;
      assert MarkAll(l, mv).txs[op.hash].credits[op.index].value.spentBy.Some?;
    }
  }

  lemma MarkedAlready(l: Ledger, mv: Moves, h: Hash)
    requires PoolOk(l.txs) && MarksOk(l.txs, l.spentUnconf) && AllMarked(l, mv) && h in mv && h in l.txs
    ensures Marked(l.txs[h], l.spentUnconf) == l.txs[h]
  {
    var cs, cs' := l.txs[h].credits, MarkOwnSpent(l.txs[h], l.spentUnconf);
    forall i | 0 <= i < |cs| ensures cs'[i] == cs[i] {
      if cs[i].Some? && OutPoint(h, i) in l.spentUnconf {
        var op := OutPoint(h, i);
        assert HasCredit(l.txs[op.hash], op.index);
      }
    }
    assert cs' == cs;
  }

  lemma NoneLeft(l: Ledger, moves: seq<Move>, base: int)
    requires Linked(l) && DistinctHashes(moves) && Separable(l, AsMap(moves), base)
    ensures MoveAll(MarkAll(l, AsMap(moves)), moves) == MoveAll(l, moves)
  {
    var mv, n := AsMap(moves), MoveAll(l, moves);
    MovesAll(l, moves, base);
    assert n.txs == l.txs - mv.Keys by { hide GoneMined, GoneUnspent, GoneOuts, GoneKeys, StayValues, StayUnconf,
        CutMined, CutDeltas, Placed; }
    hide Linked, Separable, Moved, MoveAll;
    MoveAllMarked(l, moves, base, mv);
    assert MarkPool(n.txs, l.spentUnconf, mv) == n.txs;
  }

  /** Mining any set of unconfirmed transactions that do not spend each other
      into blocks above the chain, and rolling back to the height below them,
      changes nothing but that their credits which the pool spends are marked;
      so it restores the ledger exactly when they all were marked before. */
  lemma MineThenRollback(l: Ledger, moves: seq<Move>, base: int, order: seq<BlockTxKey>)
    requires Linked(l) && DistinctHashes(moves) && Separable(l, AsMap(moves), base)
    requires Detached(MoveAll(l, moves).mined, base, order)
    ensures Rollback(MoveAll(l, moves), base, order) == Ok(MarkAll(l, AsMap(moves)))
    ensures Rollback(MoveAll(l, moves), base, order) == Ok(l) <==> AllMarked(l, AsMap(moves))
  {
    MarkAllLinked(l, AsMap(moves), base);
    MarkAllIs(l, AsMap(moves));
    NoneLeft(l, moves, base);
    hide Linked, Separable, Independent, MarkAll, MoveAll, AllMarked;
    MarkedComeBack(MarkAll(l, AsMap(moves)), moves, base, order);
  }
}
