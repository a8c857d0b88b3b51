/** Mining then rolling back is the identity. */
module ReorgTheorem {
  import opened TxTypes
  import opened Ledgers
  import opened LedgerInv
  import opened Rollbacks
  import opened MoveProof
  import opened Reorgs
  import opened ReorgProof

  datatype Move = Move(hash: Hash, key: BlockTxKey)

  /** The unconfirmed transactions of moves are mined, one after the other. */
  function MoveAll(l: Ledger, moves: seq<Move>): Ledger {
    if moves == [] then l else
    var l', m := MoveAll(l, moves[..|moves|-1]), moves[|moves|-1];
    if m.hash in l'.txs && |l'.txs[m.hash].credits| <= |l'.txs[m.hash].tx.outputs|
    then MoveMined(l', m.hash, m.key) else l'
  }

  function AsMap(moves: seq<Move>): (mv: Moves)
    ensures forall h :: h in mv <==> exists m :: m in moves && m.hash == h
  {
    if moves == [] then map[] else
    var n := |moves| - 1;
    assert moves == moves[..n] + [moves[n]];
    AsMap(moves[..n])[moves[n].hash := moves[n].key]
  }

  ghost predicate DistinctHashes(moves: seq<Move>) {
    forall i, j :: 0 <= i < j < |moves| ==> moves[i].hash != moves[j].hash
  }

  /** n is l with the transactions of mv mined from height base on. */
  ghost predicate Moved(l: Ledger, mv: Moves, base: int, n: Ledger) {
    && Gone(l, mv, Truncate(n, base)) && Truncate(n, base).deltas == l.deltas
    && Placed(l, mv, base, n.mined)
  }

  ghost predicate HasKey(mv: Moves, k: BlockTxKey) {
    exists h :: h in mv && mv[h] == k
  }

  /** From height base on, m holds the records of mv and nothing else. */
  ghost predicate Placed(l: Ledger, mv: Moves, base: int, m: Mined) {
    && (forall h :: h in mv && h in l.txs ==> mv[h] in m && m[mv[h]] == MinedRecord(l, h, mv[h]))
    && (forall k :: k in m && base <= k.height ==> HasKey(mv, k))
  }

  // -------------------------------------------------------- mining one more

  lemma {:induction false} InputSpendsSame(ins: seq<OutPoint>, a: map<OutPoint, BlockOutputKey>,
      b: map<OutPoint, BlockOutputKey>)
    requires forall op :: op in ins ==> (op in a <==> op in b) && (op in a ==> a[op] == b[op])
    ensures InputSpends(ins, a) == InputSpends(ins, b) && InputOuts(ins, a) == InputOuts(ins, b)
  {
    if ins != [] {
      InputSpendsSame(ins[..|ins|-1], a, b);
      assert ins[|ins|-1] in ins;
    }
  }

  lemma KeysOwned(l: Ledger, h: Hash)
    requires SpentKeysOk(l.mined, l.spentOuts, l.spentKeys) && SpendersOk(l.mined, l.txs, l.spentOuts)
    requires PrevOutsOk(l.txs, l.prevOuts) && h in l.txs
    ensures forall op :: op in l.spentKeys ==>
              l.spentKeys[op] in l.spentOuts && (op in l.txs[h].tx.inputs <==> l.spentOuts[l.spentKeys[op]] == h)
  {
    forall op | op in l.spentKeys ensures op in l.txs[h].tx.inputs <==> l.spentOuts[l.spentKeys[op]] == h {
      assert Spender(l.txs, l.spentOuts[l.spentKeys[op]], op);
      assert op in l.prevOuts && l.prevOuts[op] == l.spentOuts[l.spentKeys[op]];
    }
  }

  lemma KeysApart(l: Ledger)
    requires SpentKeysOk(l.mined, l.spentOuts, l.spentKeys) && HashesOk(l.mined, l.txs)
    requires SpentUnconfOk(l.txs, l.spentUnconf)
    ensures forall op :: op in l.spentKeys ==> op !in l.spentUnconf
  {
  }

  /** Mining r reads the same spends now as it would have at the start. */
  lemma SameRecord(keys: map<OutPoint, BlockOutputKey>, outs: Outs, su: Spent, mv: Moves,
      k1: map<OutPoint, BlockOutputKey>, r: TxRecord, key: BlockTxKey)
    requires GoneKeys(keys, outs, su, mv, k1) && r.tx.hash !in mv
    requires forall op :: op in r.tx.inputs ==> op.hash !in mv
    requires forall op :: op in keys ==> keys[op] in outs && (op in r.tx.inputs <==> outs[keys[op]] == r.tx.hash)
    ensures MovedRecord(r, k1, StayUnconf(su, mv), key) == MovedRecord(r, keys, su, key)
    ensures InputOuts(r.tx.inputs, k1) == InputOuts(r.tx.inputs, keys)
  {
    InputSpendsSame(r.tx.inputs, k1, keys);
    assert MarkOwnSpent(r, StayUnconf(su, mv)) == MarkOwnSpent(r, su);
  }

  lemma CutRelink(m: Mined, key: BlockTxKey, r: TxRecord, ps: set<BlockOutputKey>, base: int)
    requires base <= key.height
    ensures CutMined(Relink(m, ps, Some(key))[key := r], base) == Relink(CutMined(m, base), ps, Some(key))
  {
  }

  lemma RelinkElsewhere(m: Mined, key: BlockTxKey, r: TxRecord, ps: set<BlockOutputKey>, base: int)
    requires forall p: BlockOutputKey :: p in ps ==> p.tx.height < base
    ensures forall k :: k in m && base <= k.height && k != key ==> Relink(m, ps, Some(key))[key := r][k] == m[k]
  {
    forall k | k in m && base <= k.height && k != key ensures Relink(m, ps, Some(key))[key := r][k] == m[k] {
      assert RelinkCredits(k, m[k].credits, ps, Some(key)) == m[k].credits;
    }
  }

  lemma CutHigher(deltas: map<int, Amounts>, h: int, d: Amounts, base: int)
    requires base <= h
    ensures CutDeltas(deltas[h := d], base) == CutDeltas(deltas, base)
  {
  }

  lemma TruncateMove(n: Ledger, h: Hash, key: BlockTxKey, base: int)
    requires h in n.txs && |n.txs[h].credits| <= |n.txs[h].tx.outputs| && base <= key.height
    requires forall p :: p in InputOuts(n.txs[h].tx.inputs, n.spentKeys) ==> p.tx.height < base
    ensures var n' := MoveMined(n, h, key);
            && Truncate(n', base).mined
                == Relink(Truncate(n, base).mined, InputOuts(n.txs[h].tx.inputs, n.spentKeys), Some(key))
            && Truncate(n', base).deltas == Truncate(n, base).deltas
            && (forall k :: k in n.mined && base <= k.height && k != key ==> k in n'.mined && n'.mined[k] == n.mined[k])
            && (forall k :: k in n'.mined ==> k in n.mined || k == key)
            && n'.mined[key] == MovedRecord(n.txs[h], n.spentKeys, n.spentUnconf, key)
  {
    var r, ps := n.txs[h], InputOuts(n.txs[h].tx.inputs, n.spentKeys);
    var r' := MovedRecord(r, n.spentKeys, n.spentUnconf, key);
    var d := MoveMined(n, h, key).deltas[key.height];
    CutRelink(n.mined, key, r', ps, base);
    RelinkElsewhere(n.mined, key, r', ps, base);
    CutHigher(n.deltas, key.height, d, base);
    assert Relink(n.mined, ps, Some(key)).Keys == n.mined.Keys;
    hide Relink, InputOuts, MovedRecord, CreditGain;
  }

  lemma MoveGoneMaps(txs: Pool, unspent: map<OutPoint, BlockTxKey>, su: Spent, prev: Spent, mv: Moves, n: Ledger,
      h: Hash, key: BlockTxKey)
    requires PoolOk(txs) && SpentUnconfOk(txs, su) && PrevOutsOk(txs, prev) && h in txs && h !in mv
    requires GoneUnspent(unspent, txs, su, mv, n.unspent) && n.txs == txs - mv.Keys
    requires n.spentUnconf == StayUnconf(su, mv) && n.prevOuts == StayValues(prev, mv)
    ensures h in n.txs && n.txs[h] == txs[h]
    ensures var n' := MoveMined(n, h, key);
            && GoneUnspent(unspent, txs, su, mv[h := key], n'.unspent) && n'.txs == txs - (mv[h := key]).Keys
            && n'.spentUnconf == StayUnconf(su, mv[h := key]) && n'.prevOuts == StayValues(prev, mv[h := key])
  {
    UnspentMove(unspent, txs, su, mv, n.unspent, h, key);
    UnconfMove(su, mv, h, key, txs[h]);
    PrevMove(txs, prev, mv, h, key);
    hide GoneUnspent, StayUnconf, StayValues, MovedUnspent, OwnSpent, SpentUnconfOk, PrevOutsOk;
    assert txs - mv.Keys - {h} == txs - (mv[h := key]).Keys;
  }

  /** Who owns the spends that involve h. */
  ghost predicate Owns(l: Ledger, h: Hash, base: int) {
    && h in l.txs && l.txs[h].tx.hash == h && |l.txs[h].credits| <= |l.txs[h].tx.outputs|
    && (forall op :: op in l.spentUnconf && op.hash == h ==> HasCredit(l.txs[h], op.index))
    && (forall op :: op in l.spentKeys ==> l.spentKeys[op] in l.spentOuts && op !in l.spentUnconf)
    && (forall op :: op in l.spentKeys ==> (op in l.txs[h].tx.inputs <==> l.spentOuts[l.spentKeys[op]] == h))
    && (forall p :: p in InputOuts(l.txs[h].tx.inputs, l.spentKeys) <==> p in l.spentOuts && l.spentOuts[p] == h)
    && (forall p :: p in l.spentOuts ==> p.tx.height < base)
  }

  lemma LinkedOwns(l: Ledger, h: Hash, base: int)
    requires Linked(l) && h in l.txs && forall k :: k in l.mined ==> k.height < base
    ensures Owns(l, h, base)
  {
    KeysOwned(l, h);
    KeysApart(l);
    OutsOwned(l.mined, l.txs, l.spentOuts, l.spentKeys, l.prevOuts, h);
    hide UnspentSound, SpentByOk, SpendsOk, MarksOk, PrevOutsOk, SpendersOk, HashesOk, InputOuts;
  }

  lemma MoveGoneSpends(l: Ledger, mv: Moves, base: int, n: Ledger, h: Hash, key: BlockTxKey)
    requires Owns(l, h, base) && h !in mv && base <= key.height
    requires forall x :: x in mv ==> base <= mv[x].height && mv[x] != key
    requires forall op :: op in l.txs[h].tx.inputs ==> op.hash !in mv && op.hash != h
    requires GoneOuts(l.spentOuts, l.spentUnconf, mv, n.spentOuts)
    requires GoneKeys(l.spentKeys, l.spentOuts, l.spentUnconf, mv, n.spentKeys)
    requires n.spentUnconf == StayUnconf(l.spentUnconf, mv) && h in n.txs && n.txs[h] == l.txs[h]
    requires InputOuts(l.txs[h].tx.inputs, n.spentKeys) == InputOuts(l.txs[h].tx.inputs, l.spentKeys)
    ensures var n' := MoveMined(n, h, key);
            && GoneOuts(l.spentOuts, l.spentUnconf, mv[h := key], n'.spentOuts)
            && GoneKeys(l.spentKeys, l.spentOuts, l.spentUnconf, mv[h := key], n'.spentKeys)
  {
    var r := l.txs[h];
    OutsMove(l.spentOuts, l.spentUnconf, mv, n.spentOuts, h, key, r, InputOuts(r.tx.inputs, l.spentKeys), base);
    KeysMove(l.spentKeys, l.spentOuts, l.spentUnconf, mv, n.spentKeys, h, key, r);
    hide GoneOuts, GoneKeys, StayUnconf, MovedOuts, MovedKeys, InputOuts, Owns, Relink;
  }

  lemma MoveFresh(l: Ledger, mv: Moves, base: int, h: Hash, key: BlockTxKey)
    requires Separable(l, mv[h := key], base) && h !in mv
    ensures h in l.txs && base <= key.height
    ensures forall x :: x in mv ==> base <= mv[x].height && mv[x] != key
    ensures forall op :: op in l.txs[h].tx.inputs ==> op.hash !in mv && op.hash != h
  {
    var mv' := mv[h := key];
    assert mv'[h] == key;
    forall x | x in mv ensures base <= mv[x].height && mv[x] != key { assert x in mv' && mv'[x] == mv[x]; }
    forall op | op in l.txs[h].tx.inputs ensures op.hash !in mv && op.hash != h { assert op.hash !in mv'; }
  }

  lemma PlacedNext(l: Ledger, mv: Moves, base: int, m: Mined, m': Mined, h: Hash, key: BlockTxKey)
    requires h in l.txs && h !in mv && Placed(l, mv, base, m)
    requires forall x :: x in mv ==> base <= mv[x].height && mv[x] != key
    requires forall k :: k in m && base <= k.height && k != key ==> k in m' && m'[k] == m[k]
    requires forall k :: k in m' ==> k in m || k == key
    requires key in m' && m'[key] == MinedRecord(l, h, key)
    ensures Placed(l, mv[h := key], base, m')
  {
    hide MinedRecord;
    var mv' := mv[h := key];
    forall k | k in m' && base <= k.height ensures HasKey(mv', k) {
      if k == key { assert mv'[h] == k; }
      else {
        assert HasKey(mv, k);
        var x :| x in mv && mv[x] == k;
        assert x in mv' && mv'[x] == k;
      }
    }
  }

  lemma MoveGone(l: Ledger, mv: Moves, base: int, n: Ledger, h: Hash, key: BlockTxKey)
    requires Owns(l, h, base) && h !in mv && base <= key.height
    requires PoolOk(l.txs) && SpentUnconfOk(l.txs, l.spentUnconf) && PrevOutsOk(l.txs, l.prevOuts)
    requires forall x :: x in mv ==> base <= mv[x].height && mv[x] != key
    requires forall op :: op in l.txs[h].tx.inputs ==> op.hash !in mv && op.hash != h
    requires Gone(l, mv, Truncate(n, base))
    ensures h in n.txs && n.txs[h] == l.txs[h]
    ensures var n' := MoveMined(n, h, key);
            && Gone(l, mv[h := key], Truncate(n', base)) && Truncate(n', base).deltas == Truncate(n, base).deltas
            && (forall k :: k in n.mined && base <= k.height && k != key ==> k in n'.mined && n'.mined[k] == n.mined[k])
            && (forall k :: k in n'.mined ==> k in n.mined || k == key)
            && key in n'.mined && n'.mined[key] == MinedRecord(l, h, key)
  {
    hide PoolOk, SpentUnconfOk, PrevOutsOk, GoneUnspent, GoneOuts, GoneKeys, GoneMined, StayUnconf, StayValues;
    MoveGoneMaps(l.txs, l.unspent, l.spentUnconf, l.prevOuts, mv, n, h, key);
    SameRecord(l.spentKeys, l.spentOuts, l.spentUnconf, mv, n.spentKeys, l.txs[h], key);
    MoveGoneSpends(l, mv, base, n, h, key);
    TruncateMove(n, h, key, base);
    MinedMove(l.mined, l.spentOuts, mv, h, key, InputOuts(l.txs[h].tx.inputs, l.spentKeys));
    hide Owns, Relink, InputOuts, MovedRecord, CutMined, CutDeltas;
  }

  /** Mining h puts it in the set of moved transactions. */
  lemma MovesOne(l: Ledger, mv: Moves, base: int, n: Ledger, h: Hash, key: BlockTxKey)
    requires Linked(l) && Separable(l, mv[h := key], base) && h !in mv && Moved(l, mv, base, n)
    ensures h in n.txs && |n.txs[h].credits| <= |n.txs[h].tx.outputs|
    ensures Moved(l, mv[h := key], base, MoveMined(n, h, key))
  {
    hide MinedOk, PoolOk, HashesOk, UnspentSound, SpentByOk, SpendsOk, MarksOk, SpendersOk, SpentOutsOk, SpentKeysOk;
    hide SpentUnconfOk, PrevOutsOk, Gone, Truncate, MoveMined;
    MoveFresh(l, mv, base, h, key);
    LinkedOwns(l, h, base);
    MoveGone(l, mv, base, n, h, key);
    PlacedNext(l, mv, base, n.mined, MoveMined(n, h, key).mined, h, key);
  }

  lemma FewerIndependent(l: Ledger, mv: Moves, all: Moves, base: int)
    requires Independent(l, all, base) && forall h :: h in mv ==> h in all && mv[h] == all[h]
    ensures Independent(l, mv, base)
  {
  }

  lemma FewerSeparable(l: Ledger, mv: Moves, all: Moves, base: int)
    requires Separable(l, all, base) && forall h :: h in mv ==> h in all && mv[h] == all[h]
    ensures Separable(l, mv, base)
  {
  }

  lemma NothingGone(l: Ledger)
    ensures Gone(l, map[], l)
  {
    NothingGoneMined(l.mined, l.spentOuts);
    hide GoneMined;
    assert NewOuts(l.spentUnconf, map[]) == {};
    assert StayUnconf(l.spentUnconf, map[]) == l.spentUnconf && StayValues(l.prevOuts, map[]) == l.prevOuts;
  }

  lemma NothingMoved(l: Ledger, base: int)
    requires (forall k :: k in l.mined ==> k.height < base) && (forall h :: h in l.deltas ==> h < base)
    ensures Moved(l, map[], base, l)
  {
    assert CutMined(l.mined, base) == l.mined && CutDeltas(l.deltas, base) == l.deltas;
    assert Truncate(l, base) == l;
    NothingGone(l);
    hide Gone, Truncate;
  }

  lemma AsMapNext(moves: seq<Move>)
    requires moves != [] && DistinctHashes(moves)
    ensures var n := |moves| - 1; var mv := AsMap(moves[..n]);
            && AsMap(moves) == mv[moves[n].hash := moves[n].key] && moves[n].hash !in mv
            && (forall h :: h in mv ==> h in AsMap(moves) && AsMap(moves)[h] == mv[h])
  {
  }

  lemma {:induction false} MovesAll(l: Ledger, moves: seq<Move>, base: int)
    requires Linked(l) && DistinctHashes(moves) && Separable(l, AsMap(moves), base)
    ensures Moved(l, AsMap(moves), base, MoveAll(l, moves))
  {
    if moves == [] {
      NothingMoved(l, base);
    } else {
      AsMapNext(moves);
      var n := |moves| - 1;
      FewerSeparable(l, AsMap(moves[..n]), AsMap(moves), base);
      hide Linked, Separable, Moved, MoveMined;
      MovesAll(l, moves[..n], base);
      MovesOne(l, AsMap(moves[..n]), base, MoveAll(l, moves[..n]), moves[n].hash, moves[n].key);
    }
  }

  // ------------------------------------------------------ and all come back

  /** The moves whose record order does not list. */
  function Rest(mv: Moves, order: seq<BlockTxKey>): Moves {
    map h | h in mv && mv[h] !in order :: mv[h]
  }

  lemma RestNext(l: Ledger, mv: Moves, base: int, from: Mined, order: seq<BlockTxKey>, k: BlockTxKey) returns (h: Hash)
    requires Independent(l, mv, base) && Placed(l, mv, base, from) && HasKey(mv, k) && k !in order
    ensures h in mv && h in l.txs && h in Rest(mv, order) && Rest(mv, order)[h] == k && k.index != 0
    ensures Rest(mv, order + [k]) == Rest(mv, order) - {h} && Independent(l, Rest(mv, order), base)
    ensures k in from && from[k] == MinedRecord(l, h, k)
  {
    hide MinedRecord;
    h := MovedTo(l, mv, base, k);
    RestLess(mv, order, k, h);
    hide Independent, Rest;
    FewerIndependent(l, Rest(mv, order), mv, base);
  }

  lemma MovedTo(l: Ledger, mv: Moves, base: int, k: BlockTxKey) returns (h: Hash)
    requires Separable(l, mv, base) && HasKey(mv, k)
    ensures h in mv && h in l.txs && mv[h] == k && k.index != 0 && forall x :: x in mv && mv[x] == k ==> x == h
  {
    h :| h in mv && mv[h] == k;
  }

  lemma RestLess(mv: Moves, order: seq<BlockTxKey>, k: BlockTxKey, h: Hash)
    requires h in mv && mv[h] == k && k !in order && forall x :: x in mv && mv[x] == k ==> x == h
    ensures h in Rest(mv, order) && Rest(mv, order)[h] == k && Rest(mv, order + [k]) == Rest(mv, order) - {h}
    ensures forall x :: x in Rest(mv, order) ==> x in mv && Rest(mv, order)[x] == mv[x]
  {
  }

  lemma RestOfNone(mv: Moves)
    ensures Rest(mv, []) == mv
  {
    assert forall h :: h in mv ==> mv[h] !in [];
  }

  lemma {:induction false} ReturnsAll(l: Ledger, mv: Moves, base: int, from: Mined, g: Ledger, order: seq<BlockTxKey>)
    requires Linked(l) && Independent(l, mv, base) && Gone(l, mv, g) && NoDup(order)
    requires Placed(l, mv, base, from)
    requires forall k :: k in order ==> k in from && HasKey(mv, k)
    ensures var t := ReturnAll(g, from, order); t.Ok? && Gone(l, Rest(mv, order), t.value) && t.value.deltas == g.deltas
  {
    hide Linked, Independent, Gone, ReturnTx, MinedRecord, Rest, Placed, HasKey;
    if order == [] {
      RestOfNone(mv);
    } else {
      var n := |order| - 1;
      assert order == order[..n] + [order[n]];
      ReturnsAll(l, mv, base, from, g, order[..n]);
      var h := RestNext(l, mv, base, from, order[..n], order[n]);
      ReturnsOne(l, Rest(mv, order[..n]), base, ReturnAll(g, from, order[..n]).value, h);
    }
  }

  /** Mining any set of unconfirmed transactions that do not spend each other
      and whose spent credits are marked into blocks above the chain, and rolling
      back to the height below them, restores the ledger: every map, link, debit
      record and amount. */
  lemma MarkedComeBack(l: Ledger, moves: seq<Move>, base: int, order: seq<BlockTxKey>)
    requires Linked(l) && DistinctHashes(moves) && Independent(l, AsMap(moves), base)
    requires Detached(MoveAll(l, moves).mined, base, order)
    ensures Rollback(MoveAll(l, moves), base, order) == Ok(l)
  {
    var n, mv := MoveAll(l, moves), AsMap(moves);
    MovesAll(l, moves, base);
    hide Linked, Independent, MoveAll, AsMap, Gone, ReturnAll;
    ReturnsAll(l, mv, base, n.mined, Truncate(n, base), order);
    var t := ReturnAll(Truncate(n, base), n.mined, order).value;
    MovedAllListed(l, mv, base, n, order);
    assert Rest(mv, order) == map[];
    GoneNothing(l, t);
  }

  lemma MovedAllListed(l: Ledger, mv: Moves, base: int, n: Ledger, order: seq<BlockTxKey>)
    requires Separable(l, mv, base) && Moved(l, mv, base, n) && Detached(n.mined, base, order)
    ensures forall h :: h in mv ==> mv[h] in order
  {
    hide Gone;
  }
}
