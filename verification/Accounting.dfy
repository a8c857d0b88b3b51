/** Every operation keeps block amounts and debit amounts in order. */
module Accounting {
  import opened TxTypes
  import opened Ledgers
  import opened LedgerInv
  import opened LedgerOps
  import opened InsertProof
  import opened Sums
  import opened Balances

  // ------------------------------------------------- sums that do not change

  /** n has the records of m at height h, with the same credits and debits. */
  ghost predicate SameAt(m: Mined, n: Mined, h: int) {
    && (forall k: BlockTxKey :: k.height == h ==> (k in n <==> k in m))
    && (forall k: BlockTxKey :: k.height == h && k in m && k in n ==>
          n[k].tx == m[k].tx && DebitAmount(n[k]) == DebitAmount(m[k]))
    && (forall p: BlockOutputKey :: p.tx.height == h ==> (IsCredit(n, p) <==> IsCredit(m, p)))
  }

  lemma SameSums(m: Mined, n: Mined, h: int, coinbase: bool)
    requires SameAt(m, n, h)
    ensures Sum(CreditsAt(n, h, coinbase), ValueIn(n)) == Sum(CreditsAt(m, h, coinbase), ValueIn(m))
    ensures Sum(TxsAt(n, h), AmountIn(n)) == Sum(TxsAt(m, h), AmountIn(m))
  {
    assert CreditsAt(n, h, coinbase) == CreditsAt(m, h, coinbase);
    assert TxsAt(n, h) == TxsAt(m, h);
    SumSame(CreditsAt(m, h, coinbase), ValueIn(n), ValueIn(m));
    SumSame(TxsAt(m, h), AmountIn(n), AmountIn(m));
  }

  lemma SameBlocks(m: Mined, n: Mined, deltas: map<int, Amounts>)
    requires BlocksAdd(m, deltas) && forall h :: h in deltas ==> SameAt(m, n, h)
    ensures BlocksAdd(n, deltas)
  {
    forall h | h in deltas
      ensures deltas[h].spendable == Sum(CreditsAt(n, h, false), ValueIn(n)) - Sum(TxsAt(n, h), AmountIn(n))
      ensures deltas[h].reward == Sum(CreditsAt(n, h, true), ValueIn(n))
    {
      SameSums(m, n, h, false);
      SameSums(m, n, h, true);
    }
  }

  /** Values of outputs depend only on the transactions. */
  lemma SameValues(m: Mined, n: Mined, s: set<BlockOutputKey>)
    requires forall p :: p in s ==> p.tx in m && p.tx in n && n[p.tx].tx == m[p.tx].tx
    ensures Sum(s, ValueIn(n)) == Sum(s, ValueIn(m))
  {
    SumSame(s, ValueIn(n), ValueIn(m));
  }

  lemma SameDebits(m: Mined, n: Mined)
    requires DebitsAdd(m) && SpendsOk(m) && (forall k :: k in m ==> k in n && n[k].tx == m[k].tx)
    requires forall k :: k in n ==> if k in m then n[k].debits == m[k].debits else n[k].debits.None?
    ensures DebitsAdd(n)
  {
    forall k | k in n ensures DebitAmount(n[k]) == Sum(KeySet(Spends(n[k])), ValueIn(n)) {
      if k in m {
        forall p | p in KeySet(Spends(m[k])) ensures p.tx in m { assert Lists(m, k, p); }
        SameValues(m, n, KeySet(Spends(m[k])));
      } else {
        assert KeySet(Spends(n[k])) == {};
      }
    }
  }

  lemma SamePool(m: Mined, n: Mined, txs: Pool, outs: map<BlockOutputKey, Hash>, su: map<OutPoint, Hash>)
    requires PoolAdds(m, txs, outs, su) && forall p :: p in outs ==> p.tx in m && p.tx in n && n[p.tx].tx == m[p.tx].tx
    ensures PoolAdds(n, txs, outs, su)
  {
    forall h | h in txs && txs[h].debits.Some? && (forall op :: op in txs[h].tx.inputs ==> op !in su)
      ensures txs[h].debits.value.amount == Sum(OutsSpentBy(outs, h), ValueIn(n))
    {
      SameValues(m, n, OutsSpentBy(outs, h));
    }
  }

  lemma RelinkAccounts(m: Mined, n: Mined, ps: set<BlockOutputKey>, who: Option<BlockTxKey>, deltas: map<int, Amounts>)
    requires Relinks(m, n, ps, who) && n.Keys == m.Keys && SpendsOk(m) && BlocksAdd(m, deltas) && DebitsAdd(m)
    ensures BlocksAdd(n, deltas) && DebitsAdd(n)
  {
    SameBlocks(m, n, deltas);
    SameDebits(m, n);
  }

  // -------------------------------------------------------- inserts, credits

  lemma PoolTouched(m: Mined, txs: Pool, n: Pool, outs: map<BlockOutputKey, Hash>, su: map<OutPoint, Hash>)
    requires PoolAdds(m, txs, outs, su)
    requires forall h :: h in n ==>
               if h in txs then n[h].tx == txs[h].tx && n[h].debits == txs[h].debits else n[h].debits.None?
    ensures PoolAdds(m, n, outs, su)
  {
  }

  lemma InsertUnminedAccounts(l: Ledger, tx: Tx, now: int)
    requires Accounted(l)
    ensures Accounted(InsertUnmined(l, tx, now))
  {
    hide BlocksAdd, DebitsAdd, PoolAdds, Inputs;
    var h := tx.hash;
    if h in l.txs {
      PoolTouched(l.mined, l.txs, l.txs[h := l.txs[h].(received := now)], l.spentOuts, l.spentUnconf);
    } else {
      PoolTouched(l.mined, l.txs, l.txs[h := FreshRecord(tx, INDEX_UNKNOWN, now)], l.spentOuts, l.spentUnconf);
    }
  }

  lemma AppendAt(m: Mined, key: BlockTxKey, r: TxRecord, heights: set<int>)
    requires MinedOk(m, heights) && key !in m && r.credits == [] && r.debits.None?
    ensures Sum(CreditsAt(m[key := r], key.height, false), ValueIn(m[key := r]))
              == Sum(CreditsAt(m, key.height, false), ValueIn(m))
    ensures Sum(CreditsAt(m[key := r], key.height, true), ValueIn(m[key := r]))
              == Sum(CreditsAt(m, key.height, true), ValueIn(m))
    ensures Sum(TxsAt(m[key := r], key.height), AmountIn(m[key := r])) == Sum(TxsAt(m, key.height), AmountIn(m))
  {
    var n, h := m[key := r], key.height;
    forall coinbase: bool ensures CreditsAt(n, h, coinbase) == CreditsAt(m, h, coinbase) {
      forall p ensures p in Credits(n) <==> p in Credits(m) {}
    }
    SumSame(CreditsAt(m, h, false), ValueIn(n), ValueIn(m));
    SumSame(CreditsAt(m, h, true), ValueIn(n), ValueIn(m));
    assert TxsAt(n, h) == TxsAt(m, h) + {key};
    SumAdd(TxsAt(m, h), AmountIn(n), key);
    SumSame(TxsAt(m, h), AmountIn(n), AmountIn(m));
  }

  lemma NothingAt(m: Mined, heights: set<int>, h: int)
    requires MinedOk(m, heights) && h !in heights
    ensures CreditsAt(m, h, false) == {} && CreditsAt(m, h, true) == {} && TxsAt(m, h) == {}
  {
  }

  lemma AppendBlocks(m: Mined, deltas: map<int, Amounts>, key: BlockTxKey, r: TxRecord)
    requires MinedOk(m, deltas.Keys) && BlocksAdd(m, deltas) && key !in m && r.credits == [] && r.debits.None?
    ensures BlocksAdd(m[key := r], deltas[key.height := BlockDelta(deltas, key.height)])
  {
    hide MinedOk, Credits, OutValue, DebitAmount;
    var n, d := m[key := r], deltas[key.height := BlockDelta(deltas, key.height)];
    forall h | h in d
      ensures d[h].spendable == Sum(CreditsAt(n, h, false), ValueIn(n)) - Sum(TxsAt(n, h), AmountIn(n))
      ensures d[h].reward == Sum(CreditsAt(n, h, true), ValueIn(n))
    {
      if h == key.height {
        AppendAt(m, key, r, deltas.Keys);
        if h !in deltas { NothingAt(m, deltas.Keys, h); }
      } else {
        SameSums(m, n, h, false);
        SameSums(m, n, h, true);
      }
    }
  }

  lemma AppendAccounts(l: Ledger, tx: Tx, key: BlockTxKey, received: int)
    requires MinedOk(l.mined, l.deltas.Keys) && SpendsOk(l.mined) && SpendersOk(l.mined, l.txs, l.spentOuts)
    requires Accounted(l) && key !in l.mined
    ensures Accounted(AppendMined(l, tx, key, received))
  {
    var r := FreshRecord(tx, key.index, received);
    AppendBlocks(l.mined, l.deltas, key, r);
    SameDebits(l.mined, l.mined[key := r]);
    SamePool(l.mined, l.mined[key := r], l.txs, l.spentOuts, l.spentUnconf);
    hide BlocksAdd, DebitsAdd, PoolAdds;
  }

  /** One more credit at p. */
  lemma CreditAt(m: Mined, n: Mined, p: BlockOutputKey, coinbase: bool)
    requires n.Keys == m.Keys && p.tx in m && !IsCredit(m, p)
    requires (forall k :: k in m ==> n[k].tx == m[k].tx && n[k].debits == m[k].debits)
    requires forall q :: IsCredit(n, q) <==> IsCredit(m, q) || q == p
    ensures Sum(CreditsAt(n, p.tx.height, coinbase), ValueIn(n)) ==
            Sum(CreditsAt(m, p.tx.height, coinbase), ValueIn(m)) + if p.tx.index == 0 <==>
                  coinbase then ValueIn(m)(p) else 0
    ensures Sum(TxsAt(n, p.tx.height), AmountIn(n)) == Sum(TxsAt(m, p.tx.height), AmountIn(m))
  {
    var h := p.tx.height;
    var a, b := CreditsAt(m, h, coinbase), CreditsAt(n, h, coinbase);
    SumSame(a, ValueIn(n), ValueIn(m));
    if p.tx.index == 0 <==> coinbase {
      assert b == a + {p};
      SumAdd(a, ValueIn(n), p);
    } else {
      assert b == a;
    }
    assert TxsAt(n, h) == TxsAt(m, h);
    SumSame(TxsAt(m, h), AmountIn(n), AmountIn(m));
  }

  lemma CreditBlocks(m: Mined, n: Mined, deltas: map<int, Amounts>, p: BlockOutputKey)
    requires BlocksAdd(m, deltas) && p.tx.height in deltas
    requires n.Keys == m.Keys && p.tx in m && !IsCredit(m, p)
    requires (forall k :: k in m ==> n[k].tx == m[k].tx && n[k].debits == m[k].debits)
    requires forall q :: IsCredit(n, q) <==> IsCredit(m, q) || q == p
    ensures var d, v := deltas[p.tx.height], ValueIn(m)(p);
            BlocksAdd(n, deltas[p.tx.height := if p.tx.index == 0 then d.(reward := d.reward + v)
              else d.(spendable := d.spendable + v)])
  {
    var d, v := deltas[p.tx.height], ValueIn(m)(p);
    var deltas' := deltas[p.tx.height := if p.tx.index == 0 then d.(reward := d.reward + v)
      else d.(spendable := d.spendable + v)];
    forall h | h in deltas'
      ensures deltas'[h].spendable == Sum(CreditsAt(n, h, false), ValueIn(n)) - Sum(TxsAt(n, h), AmountIn(n))
      ensures deltas'[h].reward == Sum(CreditsAt(n, h, true), ValueIn(n))
    {
      if h == p.tx.height {
        CreditAt(m, n, p, false);
        CreditAt(m, n, p, true);
      } else {
        SameSums(m, n, h, false);
        SameSums(m, n, h, true);
      }
    }
  }

  lemma PoolCreditAccounts(l: Ledger, t: TxRef, i: nat, change: bool)
    requires Accounted(l) && LiveTx(l, t) && t.key == UNMINED && AddCredit(l, t, i, change).Ok?
    ensures Accounted(AddCredit(l, t, i, change).value)
  {
    hide BlocksAdd, DebitsAdd, PoolAdds;
    if !HasCredit(l.txs[t.hash], i) {
      PoolTouched(l.mined, l.txs, l.txs[t.hash := WithCredit(l.txs[t.hash], i, change)], l.spentOuts, l.spentUnconf);
    }
  }

  lemma MinedCreditAccounts(l: Ledger, t: TxRef, i: nat, change: bool)
    requires MinedOk(l.mined, l.deltas.Keys) && SpendsOk(l.mined) && SpendersOk(l.mined, l.txs, l.spentOuts)
    requires Accounted(l) && LiveTx(l, t) && t.key != UNMINED && AddCredit(l, t, i, change).Ok?
    ensures Accounted(AddCredit(l, t, i, change).value)
  {
    hide BlocksAdd, DebitsAdd, PoolAdds;
    if !HasCredit(l.mined[t.key], i) {
      var p := BlockOutputKey(t.key, i);
      var n := l.mined[t.key := WithCredit(l.mined[t.key], i, change)];
      WithCreditCredits(l.mined, t.key, i, change);
      hide WithCredit;
      CreditBlocks(l.mined, n, l.deltas, p);
      SameDebits(l.mined, n);
      SamePool(l.mined, n, l.txs, l.spentOuts, l.spentUnconf);
    }
  }

  /** Recording a credit keeps the amounts in order. */
  lemma AddCreditAccounts(l: Ledger, t: TxRef, i: nat, change: bool)
    requires Linked(l) && Accounted(l) && LiveTx(l, t) && AddCredit(l, t, i, change).Ok?
    ensures Accounted(AddCredit(l, t, i, change).value)
  {
    hide Accounted, AddCredit;
    if t.key == UNMINED { PoolCreditAccounts(l, t, i, change); } else { MinedCreditAccounts(l, t, i, change); }
  }
}
