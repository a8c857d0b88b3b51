/** Mining a set of unconfirmed transactions and rolling the blocks back
    again restores the ledger. */
module Reorgs {
  import opened TxTypes
  import opened Ledgers
  import opened LedgerInv
  import opened Rollbacks
  import opened ReturnProof
  import opened MoveProof

  type Outs = map<BlockOutputKey, Hash>
  type Spent = map<OutPoint, Hash>

  /** Which transactions are mined where. */
  type Moves = map<Hash, BlockTxKey>

  // ------------------------- the ledger with the transactions of mv taken out

  /** Credits spent by a transaction of mv name its new key as spender. */
  function GoneCredits(k: BlockTxKey, cs: seq<Option<Credit>>, outs: Outs, mv: Moves): (r: seq<Option<Credit>>)
    ensures |r| == |cs|
  {
    seq(|cs|, i requires 0 <= i < |cs| =>
      var p := BlockOutputKey(k, i);
      if cs[i].Some? && p in outs && outs[p] in mv then Some(cs[i].value.(spentBy := Some(mv[outs[p]]))) else cs[i])
  }

  function GoneMined(m: Mined, outs: Outs, mv: Moves): Mined {
    map k | k in m :: m[k].(credits := GoneCredits(k, m[k].credits, outs, mv))
  }

  /** The unspent credits of the transactions of mv. */
  ghost predicate NewUnspent(txs: Pool, su: Spent, mv: Moves, op: OutPoint) {
    op.hash in txs && op.hash in mv && op !in su && HasCredit(txs[op.hash], op.index)
    && txs[op.hash].credits[op.index].value.spentBy.None?
  }

  ghost predicate GoneUnspent(unspent: map<OutPoint, BlockTxKey>, txs: Pool, su: Spent, mv: Moves,
      unspent': map<OutPoint, BlockTxKey>) {
    && (forall op :: op in unspent' <==> op in unspent || NewUnspent(txs, su, mv, op))
    && (forall op :: op in unspent' ==>
          unspent'[op] == if NewUnspent(txs, su, mv, op) then mv[op.hash] else unspent[op])
  }

  /** Outputs of mv's transactions that the pool spends, by their new key. */
  function NewOuts(su: Spent, mv: Moves): (s: set<BlockOutputKey>)
    ensures forall op :: op in su && op.hash in mv ==> BlockOutputKey(mv[op.hash], op.index) in s
    ensures forall p :: p in s ==> exists op :: op in su && op.hash in mv && p == BlockOutputKey(mv[op.hash], op.index)
  {
    set op | op in su && op.hash in mv :: BlockOutputKey(mv[op.hash], op.index)
  }

  ghost predicate GoneKeys(keys: map<OutPoint, BlockOutputKey>, outs: Outs, su: Spent, mv: Moves,
      keys': map<OutPoint, BlockOutputKey>) {
    && (forall op :: op in keys' <==>
          (op in keys && !(keys[op] in outs && outs[keys[op]] in mv)) || (op in su && op.hash in mv))
    && (forall op :: op in keys' ==>
          keys'[op] == if op in su && op.hash in mv then BlockOutputKey(mv[op.hash], op.index) else keys[op])
  }

  function StayValues<K>(m: map<K, Hash>, mv: Moves): map<K, Hash> {
    map x | x in m && m[x] !in mv :: m[x]
  }

  function StayUnconf(su: Spent, mv: Moves): Spent {
    map op | op in su && op.hash !in mv :: su[op]
  }

  /** outs once mv's transactions are mined: p is spent as before, or is a new
      output of mv spent by the pool. */
  ghost predicate GoneOuts(outs: Outs, su: Spent, mv: Moves, outs': Outs) {
    && (forall p :: p in outs' <==> (p in outs && outs[p] !in mv) || p in NewOuts(su, mv))
    && (forall p :: p in outs && outs[p] !in mv && p !in NewOuts(su, mv) ==> p in outs' && outs'[p] == outs[p])
    && (forall op :: op in su && op.hash in mv ==>
          BlockOutputKey(mv[op.hash], op.index) in outs' && outs'[BlockOutputKey(mv[op.hash], op.index)] == su[op])
  }

  /** g is l with the transactions of mv mined, but their records cut off. */
  ghost predicate Gone(l: Ledger, mv: Moves, g: Ledger) {
    && g.mined == GoneMined(l.mined, l.spentOuts, mv)
    && GoneUnspent(l.unspent, l.txs, l.spentUnconf, mv, g.unspent)
    && g.txs == l.txs - mv.Keys
    && GoneOuts(l.spentOuts, l.spentUnconf, mv, g.spentOuts)
    && GoneKeys(l.spentKeys, l.spentOuts, l.spentUnconf, mv, g.spentKeys)
    && g.spentUnconf == StayUnconf(l.spentUnconf, mv)
    && g.prevOuts == StayValues(l.prevOuts, mv)
  }

  /** The transactions of mv can be mined together above every known block:
      they do not spend each other. */
  ghost predicate Separable(l: Ledger, mv: Moves, base: int) {
    && (forall h :: h in mv ==> h in l.txs && base <= mv[h].height && 0 < mv[h].index)
    && (forall h, j :: h in mv && j in mv && mv[h] == mv[j] ==> h == j)
    && (forall k :: k in l.mined ==> k.height < base) && (forall h :: h in l.deltas ==> h < base)
    && (forall h, op :: h in mv && op in l.txs[h].tx.inputs ==> op.hash !in mv)
  }

  /** Moreover their credits are marked spent exactly when the pool spends
      them. */
  ghost predicate Independent(l: Ledger, mv: Moves, base: int) {
    && Separable(l, mv, base)
    && (forall h, i: nat :: h in mv && HasCredit(l.txs[h], i) ==>
          (l.txs[h].credits[i].value.spentBy.Some? <==> OutPoint(h, i) in l.spentUnconf))
  }

  // ------------------------------------------------ nothing moved, nothing gone

  lemma NothingGoneMined(m: Mined, outs: Outs)
    ensures GoneMined(m, outs, map[]) == m
  {
    forall k | k in m ensures GoneMined(m, outs, map[])[k] == m[k] {
      assert GoneMined(m, outs, map[])[k].credits == m[k].credits;
    }
  }

  lemma NothingGoneOuts(outs: Outs, su: Spent, outs': Outs)
    requires GoneOuts(outs, su, map[], outs')
    ensures outs' == outs
  {
    assert NewOuts(su, map[]) == {};
  }

  lemma NothingGoneMaps(l: Ledger, g: Ledger)
    requires GoneUnspent(l.unspent, l.txs, l.spentUnconf, map[], g.unspent)
    requires GoneKeys(l.spentKeys, l.spentOuts, l.spentUnconf, map[], g.spentKeys)
    ensures g.unspent == l.unspent && g.spentKeys == l.spentKeys
    ensures StayUnconf(l.spentUnconf, map[]) == l.spentUnconf && StayValues(l.prevOuts, map[]) == l.prevOuts
  {
    hide GoneUnspent, GoneKeys, StayUnconf, StayValues;
    NothingGoneUnspent(l.unspent, l.txs, l.spentUnconf, g.unspent);
    NothingGoneKeys(l.spentKeys, l.spentOuts, l.spentUnconf, g.spentKeys);
    AllStay(l.spentUnconf, l.prevOuts);
  }

  lemma NothingGoneUnspent(u: map<OutPoint, BlockTxKey>, txs: Pool, su: map<OutPoint, Hash>,
      v: map<OutPoint, BlockTxKey>)
    requires GoneUnspent(u, txs, su, map[], v)
    ensures v == u
  {
  }

  lemma NothingGoneKeys(keys: map<OutPoint, BlockOutputKey>, outs: map<BlockOutputKey, Hash>, su: map<OutPoint, Hash>,
      keys': map<OutPoint, BlockOutputKey>)
    requires GoneKeys(keys, outs, su, map[], keys')
    ensures keys' == keys
  {
  }

  lemma AllStay(su: map<OutPoint, Hash>, prev: map<OutPoint, Hash>)
    ensures StayUnconf(su, map[]) == su && StayValues(prev, map[]) == prev
  {
  }

  lemma GoneNothing(l: Ledger, g: Ledger)
    requires Gone(l, map[], g) && g.deltas == l.deltas
    ensures g == l
  {
    NothingGoneMined(l.mined, l.spentOuts);
    NothingGoneOuts(l.spentOuts, l.spentUnconf, g.spentOuts);
    NothingGoneMaps(l, g);
    hide GoneMined, GoneUnspent, GoneOuts, GoneKeys, StayUnconf, StayValues;
  }

  // ---------------------------------- a transaction of mv returns, map by map

  lemma MinedBack(m: Mined, outs: Outs, mv: Moves, h: Hash, ps: set<BlockOutputKey>)
    requires h in mv && forall p :: p in ps <==> p in outs && outs[p] == h
    requires forall p :: p in outs ==> IsCredit(m, p) && SpentBy(m, p) == Some(UNMINED)
    ensures Relink(GoneMined(m, outs, mv), ps, Some(UNMINED)) == GoneMined(m, outs, mv - {h})
  {
    var a, b := Relink(GoneMined(m, outs, mv), ps, Some(UNMINED)), GoneMined(m, outs, mv - {h});
    forall k | k in m ensures a[k] == b[k] {
      forall i | 0 <= i < |m[k].credits| ensures a[k].credits[i] == b[k].credits[i] {
        var p := BlockOutputKey(k, i);
        assert p in outs ==> SpentBy(m, p) == Some(UNMINED);
      }
      assert a[k].credits == b[k].credits;
    }
  }

  lemma UnspentBack(unspent: map<OutPoint, BlockTxKey>, txs: Pool, su: Spent, mv: Moves, u1: map<OutPoint, BlockTxKey>,
      h: Hash, r: TxRecord)
    requires GoneUnspent(unspent, txs, su, mv, u1)
    requires h in mv && h in txs && r.tx.hash == h && (forall op :: op in unspent ==> op.hash != h)
    requires forall i: nat :: HasCredit(r, i) <==> HasCredit(txs[h], i)
    ensures GoneUnspent(unspent, txs, su, mv - {h}, u1 - OwnOps(r))
  {
    forall op ensures NewUnspent(txs, su, mv - {h}, op) <==> NewUnspent(txs, su, mv, op) && op.hash != h {}
  }

  lemma OutsBack(outs: Outs, su: Spent, mv: Moves, outs1: Outs, h: Hash, own: set<OutPoint>, ps: seq<BlockOutputKey>,
      base: int)
    requires GoneOuts(outs, su, mv, outs1) && h in mv
    requires forall op :: op in own <==> op in su && op.hash == h
    requires forall p :: p in ps <==> p in outs && outs[p] == h
    requires forall p: BlockOutputKey :: p in outs ==> p.tx.height < base
    requires forall x :: x in mv ==> base <= mv[x].height
    requires forall x, y :: x in mv && y in mv && mv[x] == mv[y] ==> x == y
    ensures GoneOuts(outs, su, mv - {h}, (outs1 - OutKeys(mv[h], own)) + SpentTo(ps, h))
  {
    var mv' := mv - {h};
    var o' := (outs1 - OutKeys(mv[h], own)) + SpentTo(ps, h);
    NewOutsBase(su, mv, base);
    forall p ensures p in NewOuts(su, mv') <==> p in NewOuts(su, mv) && p.tx != mv[h] {
      if p in NewOuts(su, mv) {
        var op :| op in su && op.hash in mv && p == BlockOutputKey(mv[op.hash], op.index);
        assert op.hash != h ==> p in NewOuts(su, mv');
      }
    }
    forall p | p in NewOuts(su, mv) && p.tx == mv[h] ensures p in OutKeys(mv[h], own) {
      var op :| op in su && op.hash in mv && p == BlockOutputKey(mv[op.hash], op.index);
      assert op in own;
    }
    forall p ensures p in o' <==> (p in outs && outs[p] !in mv') || p in NewOuts(su, mv') {}
  }

  lemma NewOutsBase(su: Spent, mv: Moves, base: int)
    requires forall x :: x in mv ==> base <= mv[x].height
    ensures forall p :: p in NewOuts(su, mv) ==> base <= p.tx.height
  {
  }

  lemma KeysBack(keys: map<OutPoint, BlockOutputKey>, outs: Outs, su: Spent, mv: Moves,
      k1: map<OutPoint, BlockOutputKey>,
                 h: Hash, own: set<OutPoint>, kn: map<OutPoint, BlockOutputKey>)
    requires GoneKeys(keys, outs, su, mv, k1)
    requires h in mv && (forall op :: op in keys ==> keys[op] in outs && op !in su)
    requires forall op :: op in own <==> op in su && op.hash == h
    requires forall op :: op in kn <==> op in keys && outs[keys[op]] == h
    requires forall op :: op in kn ==> kn[op] == keys[op]
    ensures GoneKeys(keys, outs, su, mv - {h}, (k1 - own) + kn)
  {
  }

  lemma UnconfBack(outs: Outs, su: Spent, mv: Moves, outs1: Outs, h: Hash, own: set<OutPoint>)
    requires GoneOuts(outs, su, mv, outs1) && h in mv
    requires forall op :: op in own <==> op in su && op.hash == h
    ensures StayUnconf(su, mv) + SpendersOf(outs1, mv[h], own) == StayUnconf(su, mv - {h})
  {
    var add := SpendersOf(outs1, mv[h], own);
    forall op | op in own ensures op in add && add[op] == su[op] {
      assert BlockOutputKey(mv[op.hash], op.index) in outs1;
    }
  }

  lemma PrevBack(txs: Pool, prev: Spent, mv: Moves, h: Hash, r: TxRecord)
    requires PrevOutsOk(txs, prev) && h in mv && h in txs && r.tx == txs[h].tx
    ensures StayValues(prev, mv) + (map op | op in Inputs(r) :: h) == StayValues(prev, mv - {h})
  {
    assert forall op :: op in prev ==> (op in Inputs(r) <==> prev[op] == h);
    assert forall op :: op in Inputs(r) ==> op in prev;
  }

  // ------------------------------------ a transaction joins mv, map by map

  lemma MinedMove(m: Mined, outs: Outs, mv: Moves, h: Hash, key: BlockTxKey, ps: set<BlockOutputKey>)
    requires h !in mv && forall p :: p in ps <==> p in outs && outs[p] == h
    ensures Relink(GoneMined(m, outs, mv), ps, Some(key)) == GoneMined(m, outs, mv[h := key])
  {
    var a, b := Relink(GoneMined(m, outs, mv), ps, Some(key)), GoneMined(m, outs, mv[h := key]);
    forall k | k in m ensures a[k] == b[k] {
      assert a[k].credits == b[k].credits;
    }
  }

  lemma UnspentMove(unspent: map<OutPoint, BlockTxKey>, txs: Pool, su: Spent, mv: Moves, u1: map<OutPoint, BlockTxKey>,
      h: Hash, key: BlockTxKey)
    requires GoneUnspent(unspent, txs, su, mv, u1) && h !in mv && h in txs && txs[h].tx.hash == h
    ensures GoneUnspent(unspent, txs, su, mv[h := key], u1 + MovedUnspent(txs[h], StayUnconf(su, mv), key))
  {
    var add := MovedUnspent(txs[h], StayUnconf(su, mv), key);
    forall op ensures op in add <==> op.hash == h && NewUnspent(txs, su, mv[h := key], op) {}
    forall op ensures NewUnspent(txs, su, mv[h := key], op) <==> NewUnspent(txs, su, mv, op) || op in add {}
  }

  lemma AddedOuts(su: Spent, mv: Moves, h: Hash, key: BlockTxKey, r: TxRecord)
    requires h !in mv && r.tx.hash == h && forall op :: op in su && op.hash == h ==> HasCredit(r, op.index)
    ensures var add := MovedOuts(r, StayUnconf(su, mv), key);
            && (forall p :: p in add <==> p.tx == key && OutPoint(h, p.out) in su)
            && (forall p :: p in add ==> add[p] == su[OutPoint(h, p.out)])
  {
    var add := MovedOuts(r, StayUnconf(su, mv), key);
    MovedIndex(r, StayUnconf(su, mv), key);
    forall p: BlockOutputKey | p.tx == key && OutPoint(h, p.out) in su ensures p in add {
      assert OutPoint(h, p.out) in OwnSpent(r, StayUnconf(su, mv));
      assert p == BlockOutputKey(key, OutPoint(h, p.out).index);
    }
  }

  lemma NewOutsNext(su: Spent, mv: Moves, h: Hash, key: BlockTxKey)
    requires h !in mv
    ensures forall p :: p in NewOuts(su, mv[h := key]) <==>
              p in NewOuts(su, mv) || (p.tx == key && OutPoint(h, p.out) in su)
  {
    var mv' := mv[h := key];
    forall p ensures p in NewOuts(su, mv') <==> p in NewOuts(su, mv) || (p.tx == key && OutPoint(h, p.out) in su) {
      if p in NewOuts(su, mv') {
        var op :| op in su && op.hash in mv' && p == BlockOutputKey(mv'[op.hash], op.index);
        if op.hash == h { assert op == OutPoint(h, p.out); }
      }
      if p in NewOuts(su, mv) {
        var op :| op in su && op.hash in mv && p == BlockOutputKey(mv[op.hash], op.index);
        assert op.hash in mv' && mv'[op.hash] == mv[op.hash];
      }
      if p.tx == key && OutPoint(h, p.out) in su {
        assert p == BlockOutputKey(mv'[h], OutPoint(h, p.out).index);
      }
    }
  }

  lemma NewOutsAvoid(su: Spent, mv: Moves, key: BlockTxKey)
    requires forall x :: x in mv ==> mv[x] != key
    ensures forall p :: p in NewOuts(su, mv) ==> p.tx != key
  {
  }

  lemma OutsMove(outs: Outs, su: Spent, mv: Moves, outs1: Outs, h: Hash, key: BlockTxKey, r: TxRecord,
      ps: set<BlockOutputKey>, base: int)
    requires GoneOuts(outs, su, mv, outs1) && h !in mv && r.tx.hash == h && base <= key.height
    requires forall op :: op in su && op.hash == h ==> HasCredit(r, op.index)
    requires forall p :: p in ps <==> p in outs && outs[p] == h
    requires forall p: BlockOutputKey :: p in outs ==> p.tx.height < base
    requires forall x :: x in mv ==> base <= mv[x].height && mv[x] != key
    ensures GoneOuts(outs, su, mv[h := key], (outs1 - ps) + MovedOuts(r, StayUnconf(su, mv), key))
  {
    NewOutsBase(su, mv, base);
    NewOutsAvoid(su, mv, key);
    NewOutsNext(su, mv, h, key);
    AddedOuts(su, mv, h, key, r);
    GoneOutsNext(outs, su, mv, outs1, h, key, ps, MovedOuts(r, StayUnconf(su, mv), key), base);
  }

  lemma GoneOutsNext(outs: Outs, su: Spent, mv: Moves, outs1: Outs, h: Hash, key: BlockTxKey, ps: set<BlockOutputKey>,
      add: Outs, base: int)
    requires GoneOuts(outs, su, mv, outs1) && h !in mv && base <= key.height
    requires forall p :: p in ps <==> p in outs && outs[p] == h
    requires forall p: BlockOutputKey :: p in outs ==> p.tx.height < base
    requires forall p :: p in NewOuts(su, mv) ==> base <= p.tx.height && p.tx != key
    requires forall p :: p in NewOuts(su, mv[h := key]) <==>
               p in NewOuts(su, mv) || (p.tx == key && OutPoint(h, p.out) in su)
    requires forall p :: p in add <==> p.tx == key && OutPoint(h, p.out) in su
    requires forall p :: p in add ==> add[p] == su[OutPoint(h, p.out)]
    ensures GoneOuts(outs, su, mv[h := key], (outs1 - ps) + add)
  {
    hide NewOuts;
    var mv' := mv[h := key];
    var o' := (outs1 - ps) + add;
    assert forall p :: p in o' <==> (p in outs && outs[p] !in mv') || p in NewOuts(su, mv') by {
      forall p ensures p in o' <==> (p in outs && outs[p] !in mv') || p in NewOuts(su, mv') {}
    }
    forall p | p in outs && outs[p] !in mv' && p !in NewOuts(su, mv') ensures p in o' && o'[p] == outs[p] {}
    forall op | op in su && op.hash in mv'
      ensures BlockOutputKey(mv'[op.hash], op.index) in o' && o'[BlockOutputKey(mv'[op.hash], op.index)] == su[op]
    {
      var p := BlockOutputKey(mv'[op.hash], op.index);
      if op.hash == h { assert op == OutPoint(h, p.out); }
      else { assert p in outs1 && outs1[p] == su[op] && p in NewOuts(su, mv); }
    }
  }

  lemma KeysMove(keys: map<OutPoint, BlockOutputKey>, outs: Outs, su: Spent, mv: Moves,
      k1: map<OutPoint, BlockOutputKey>, h: Hash, key: BlockTxKey, r: TxRecord)
    requires GoneKeys(keys, outs, su, mv, k1) && h !in mv && r.tx.hash == h
    requires forall op :: op in keys ==> keys[op] in outs && op !in su && (op in Inputs(r) <==> outs[keys[op]] == h)
    requires forall op :: op in Inputs(r) ==> op.hash !in mv && op.hash != h
    requires forall op :: op in su && op.hash == h ==> HasCredit(r, op.index)
    ensures GoneKeys(keys, outs, su, mv[h := key], (k1 - Inputs(r)) + MovedKeys(r, StayUnconf(su, mv), key))
  {
    var add := MovedKeys(r, StayUnconf(su, mv), key);
    forall op ensures op in add <==> op in su && op.hash == h {}
    hide StayUnconf;
  }

  lemma UnconfMove(su: Spent, mv: Moves, h: Hash, key: BlockTxKey, r: TxRecord)
    requires h !in mv && r.tx.hash == h && forall op :: op in su && op.hash == h ==> HasCredit(r, op.index)
    ensures StayUnconf(su, mv) - OwnSpent(r, StayUnconf(su, mv)) == StayUnconf(su, mv[h := key])
  {
  }

  lemma PrevMove(txs: Pool, prev: Spent, mv: Moves, h: Hash, key: BlockTxKey)
    requires PrevOutsOk(txs, prev) && h in txs
    ensures StayValues(prev, mv) - Inputs(txs[h]) == StayValues(prev, mv[h := key])
  {
    assert forall op :: op in prev ==> (op in Inputs(txs[h]) <==> prev[op] == h);
  }
}
