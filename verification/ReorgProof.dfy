/** The reorganisation round trip, step by step. */
module ReorgProof {
  import opened TxTypes
  import opened Ledgers
  import opened LedgerInv
  import opened Rollbacks
  import opened ReturnProof
  import opened ReturnLinks
  import opened MoveProof
  import opened Reorgs

  /** The record of h once mined at key. */
  function MinedRecord(l: Ledger, h: Hash, key: BlockTxKey): TxRecord
    requires h in l.txs
  {
    MovedRecord(l.txs[h], l.spentKeys, l.spentUnconf, key)
  }

  // -------------------------------------------------- facts about one record

  lemma RecordBack(l: Ledger, h: Hash, key: BlockTxKey)
    requires PoolOk(l.txs) && MarksOk(l.txs, l.spentUnconf) && h in l.txs
    requires forall i: nat :: HasCredit(l.txs[h], i) ==>
               (l.txs[h].credits[i].value.spentBy.Some? <==> OutPoint(h, i) in l.spentUnconf)
    ensures MinedRecord(l, h, key).credits == l.txs[h].credits
    ensures ReturnedRecord(MinedRecord(l, h, key)) == l.txs[h]
  {
    var r, r' := l.txs[h], MinedRecord(l, h, key);
    forall i | 0 <= i < |r.credits| ensures r'.credits[i] == r.credits[i] {
      if r.credits[i].Some? { assert HasCredit(r, i); }
    }
    assert r'.credits == r.credits;
  }

  lemma OwnIs(l: Ledger, h: Hash, key: BlockTxKey)
    requires PoolOk(l.txs) && MarksOk(l.txs, l.spentUnconf) && SpentUnconfOk(l.txs, l.spentUnconf) && h in l.txs
    requires forall i: nat :: HasCredit(l.txs[h], i) ==>
               (l.txs[h].credits[i].value.spentBy.Some? <==> OutPoint(h, i) in l.spentUnconf)
    ensures forall op :: op in PoolSpent(MinedRecord(l, h, key)) <==> op in l.spentUnconf && op.hash == h
  {
    RecordBack(l, h, key);
    var r := MinedRecord(l, h, key);
    forall op ensures op in PoolSpent(r) <==> op in l.spentUnconf && op.hash == h {
      if op in l.spentUnconf && op.hash == h { assert op == OutPoint(h, op.index) && HasCredit(l.txs[h], op.index); }
    }
  }

  lemma SpendsAre(l: Ledger, h: Hash, key: BlockTxKey)
    requires PoolOk(l.txs) && h in l.txs
    requires SpentOutsOk(l.mined, l.spentOuts, l.spentKeys) && SpentKeysOk(l.mined, l.spentOuts, l.spentKeys)
    requires SpendersOk(l.mined, l.txs, l.spentOuts) && PrevOutsOk(l.txs, l.prevOuts)
    ensures forall p :: p in Spends(MinedRecord(l, h, key)) <==> p in l.spentOuts && l.spentOuts[p] == h
  {
    OutsOwned(l.mined, l.txs, l.spentOuts, l.spentKeys, l.prevOuts, h);
    InputSpendsAre(l.txs[h].tx.inputs, l.spentKeys);
    hide SpentOutsOk, SpentKeysOk, PrevOutsOk;
    assert forall p :: p in l.spentOuts && l.spentOuts[p] == h ==> l.txs[h].debits.Some?;
  }

  lemma GoneCreditsAre(m: Mined, outs: map<BlockOutputKey, Hash>, mv: Moves)
    ensures GoneMined(m, outs, mv).Keys == m.Keys
    ensures forall p :: IsCredit(GoneMined(m, outs, mv), p) <==> IsCredit(m, p)
    ensures forall k :: k in m ==> GoneMined(m, outs, mv)[k].tx == m[k].tx
  {
  }

  lemma KeysOfGone(l: Ledger, g: Mined, h: Hash, ps: seq<BlockOutputKey>)
    requires SpentOutsOk(l.mined, l.spentOuts, l.spentKeys) && SpentKeysOk(l.mined, l.spentOuts, l.spentKeys)
    requires g.Keys == l.mined.Keys && (forall k :: k in g ==> g[k].tx == l.mined[k].tx) && AllCredits(g, ps)
    requires forall p :: p in ps <==> p in l.spentOuts && l.spentOuts[p] == h
    ensures forall op :: op in KeysOf(g, ps) <==> op in l.spentKeys && l.spentOuts[l.spentKeys[op]] == h
    ensures forall op :: op in KeysOf(g, ps) ==> KeysOf(g, ps)[op] == l.spentKeys[op]
  {
    KeysOfAre(g, ps);
    hide KeysOf;
    var kn := KeysOf(g, ps);
    forall op | op in kn ensures op in l.spentKeys && l.spentOuts[l.spentKeys[op]] == h && kn[op] == l.spentKeys[op] {
      assert kn[op] in l.spentOuts && OpOf(l.mined, kn[op]) == op;
    }
    forall op | op in l.spentKeys && l.spentOuts[l.spentKeys[op]] == h ensures op in kn {
      assert l.spentKeys[op] in ps && OpOf(g, l.spentKeys[op]) == op;
    }
  }

  // ------------------------------------------------- one transaction returns

  lemma BackReady(l: Ledger, mv: Moves, base: int, g: Ledger, h: Hash)
    requires Linked(l) && Independent(l, mv, base) && Gone(l, mv, g) && h in mv
    ensures var r := MinedRecord(l, h, mv[h]); SpentByPool(g.spentOuts, mv[h], r) && AllCredits(g.mined, Spends(r))
  {
    hide UnspentSound, HashesOk, SpentByOk, SpendsOk, MinedOk, GoneUnspent, GoneKeys, StayValues, StayUnconf;
    var r := MinedRecord(l, h, mv[h]);
    RecordBack(l, h, mv[h]);
    SpendsAre(l, h, mv[h]);
    GoneCreditsAre(l.mined, l.spentOuts, mv);
    hide PrevOutsOk, SpentKeysOk, SpendersOk, GoneMined;
    forall i: nat | HasCredit(r, i) && r.credits[i].value.spentBy.Some?
      ensures r.credits[i].value.spentBy == Some(UNMINED) && BlockOutputKey(mv[h], i) in g.spentOuts
    {
      assert HasCredit(l.txs[h], i) && OutPoint(h, i) in l.spentUnconf;
    }
  }

  lemma BackMined(l: Ledger, mv: Moves, base: int, h: Hash)
    requires Linked(l) && Independent(l, mv, base) && h in mv
    ensures var r := MinedRecord(l, h, mv[h]);
            Relink(GoneMined(l.mined, l.spentOuts, mv), KeySet(Spends(r)), Some(UNMINED))
                == GoneMined(l.mined, l.spentOuts, mv - {h})
  {
    SpendsAre(l, h, mv[h]);
    MinedBack(l.mined, l.spentOuts, mv, h, KeySet(Spends(MinedRecord(l, h, mv[h]))));
  }

  lemma BackPool(l: Ledger, mv: Moves, base: int, g: Ledger, h: Hash)
    requires Linked(l) && Independent(l, mv, base) && Gone(l, mv, g) && h in mv
    ensures var r := MinedRecord(l, h, mv[h]);
            && GoneUnspent(l.unspent, l.txs, l.spentUnconf, mv - {h}, g.unspent - OwnOps(r))
            && g.txs[h := ReturnedRecord(r)] == l.txs - (mv - {h}).Keys
            && g.prevOuts + (map op | op in Inputs(r) :: h) == StayValues(l.prevOuts, mv - {h})
  {
    hide SpentByOk, SpendsOk, SpentOutsOk, SpentKeysOk, SpendersOk, SpentUnconfOk, MinedOk, GoneOuts, GoneKeys;
    hide GoneMined;
    var r := MinedRecord(l, h, mv[h]);
    RecordBack(l, h, mv[h]);
    NoUnspentOf(l, h);
    UnspentBack(l.unspent, l.txs, l.spentUnconf, mv, g.unspent, h, r);
    PrevBack(l.txs, l.prevOuts, mv, h, r);
    hide GoneUnspent, StayValues, Linked, Independent;
    assert g.txs[h := l.txs[h]] == l.txs - (mv - {h}).Keys;
  }

  lemma NoUnspentOf(l: Ledger, h: Hash)
    requires UnspentSound(l.mined, l.unspent) && HashesOk(l.mined, l.txs) && h in l.txs
    ensures forall op :: op in l.unspent ==> op.hash != h
  {
    forall op | op in l.unspent ensures op.hash != h {
      assert UnspentAt(l.mined, BlockOutputKey(l.unspent[op], op.index), op);
    }
  }

  lemma BackSpends(l: Ledger, mv: Moves, base: int, g: Ledger, h: Hash)
    requires Linked(l) && Independent(l, mv, base) && Gone(l, mv, g) && h in mv
    ensures var r := MinedRecord(l, h, mv[h]);
            && GoneOuts(l.spentOuts, l.spentUnconf, mv - {h},
                (g.spentOuts - OutKeys(mv[h], PoolSpent(r))) + SpentTo(Spends(r), h))
            && g.spentUnconf + SpendersOf(g.spentOuts, mv[h], PoolSpent(r)) == StayUnconf(l.spentUnconf, mv - {h})
  {
    var r := MinedRecord(l, h, mv[h]);
    OwnIs(l, h, mv[h]);
    SpendsAre(l, h, mv[h]);
    assert forall p: BlockOutputKey :: p in l.spentOuts ==> p.tx.height < base;
    hide Linked, PoolSpent, GoneMined, GoneUnspent, GoneKeys, StayValues;
    OutsBack(l.spentOuts, l.spentUnconf, mv, g.spentOuts, h, PoolSpent(r), Spends(r), base);
    UnconfBack(l.spentOuts, l.spentUnconf, mv, g.spentOuts, h, PoolSpent(r));
  }

  lemma KnownTx(l: Ledger, mv: Moves, base: int, h: Hash)
    requires Independent(l, mv, base) && h in mv
    ensures h in l.txs
  {
  }

  lemma KeysTracked(l: Ledger)
    requires Linked(l)
    ensures forall op :: op in l.spentKeys ==> l.spentKeys[op] in l.spentOuts && op !in l.spentUnconf
  {
  }

  lemma BackKeys(l: Ledger, mv: Moves, base: int, g: Ledger, h: Hash)
    requires Linked(l) && Independent(l, mv, base) && Gone(l, mv, g) && h in mv
    requires AllCredits(g.mined, Spends(MinedRecord(l, h, mv[h])))
    ensures var r := MinedRecord(l, h, mv[h]);
            GoneKeys(l.spentKeys, l.spentOuts, l.spentUnconf, mv - {h},
                (g.spentKeys - PoolSpent(r)) + KeysOf(g.mined, Spends(r)))
  {
    KnownTx(l, mv, base, h);
    hide Linked, UnspentSound, SpendsOk, SpentByOk, MinedOk, GoneUnspent, GoneOuts, GoneKeys, StayValues, StayUnconf;
    hide PoolSpent, GoneMined, KeysOf, Independent, AllCredits, MinedRecord, Spends;
    var r := MinedRecord(l, h, mv[h]);
    KeysTracked(l);
    RecordHash(l, h, mv[h]);
    OwnIs(l, h, mv[h]);
    SpendsAre(l, h, mv[h]);
    GoneCreditsAre(l.mined, l.spentOuts, mv);
    KeysOfGone(l, g.mined, h, Spends(r));
    KeysBack(l.spentKeys, l.spentOuts, l.spentUnconf, mv, g.spentKeys, h, PoolSpent(r), KeysOf(g.mined, Spends(r)));
  }

  /** Returning the record of h takes h out of the set of moved transactions. */
  lemma ReturnsOne(l: Ledger, mv: Moves, base: int, g: Ledger, h: Hash)
    requires Linked(l) && Independent(l, mv, base) && Gone(l, mv, g) && h in mv
    ensures var t := ReturnTx(g, mv[h], MinedRecord(l, h, mv[h]));
            t.Ok? && Gone(l, mv - {h}, t.value) && t.value.deltas == g.deltas
  {
    assert h in l.txs;
    hide Linked, Independent, ReturnTx;
    var r := MinedRecord(l, h, mv[h]);
    BackReady(l, mv, base, g, h);
    ReturnTxIs(g, mv[h], r);
    BackMined(l, mv, base, h);
    BackPool(l, mv, base, g, h);
    BackSpends(l, mv, base, g, h);
    BackKeys(l, mv, base, g, h);
    assert r.tx.hash == h by { RecordHash(l, h, mv[h]); }
    hide GoneMined, GoneUnspent, GoneOuts, GoneKeys, StayUnconf, StayValues, Relink, KeysOf, SpendersOf, PoolSpent;
    hide OwnOps, OutKeys, KeySet, MovedRecord;
  }

  lemma RecordHash(l: Ledger, h: Hash, key: BlockTxKey)
    requires Linked(l) && h in l.txs
    ensures MinedRecord(l, h, key).tx.hash == h
  {
  }
}
