/** Recording debits keeps block amounts and debit amounts in order. */
module DebitAccounts {
  import opened TxTypes
  import opened Ledgers
  import opened LedgerInv
  import opened LedgerOps
  import opened DebitProof
  import opened DebitRuns
  import opened Sums
  import opened Balances
  import opened Accounting

  // ------------------------------------------------- the debits of the pool

  lemma PoolSpendAdds(m: Mined, txs: Pool, outs: map<BlockOutputKey, Hash>, su: map<OutPoint, Hash>, p: BlockOutputKey,
      h: Hash)
    requires PoolAdds(m, txs, outs, su) && h in txs && txs[h].debits.Some? && p !in outs
    ensures PoolAdds(m, AddToDebits(txs, h, ValueIn(m)(p)), outs[p := h], su)
  {
    var n, outs' := AddToDebits(txs, h, ValueIn(m)(p)), outs[p := h];
    forall x | x in n && n[x].debits.Some? && (forall op :: op in n[x].tx.inputs ==> op !in su)
      ensures n[x].debits.value.amount == Sum(OutsSpentBy(outs', x), ValueIn(m))
    {
      if x == h {
        assert OutsSpentBy(outs', h) == OutsSpentBy(outs, h) + {p};
        SumAdd(OutsSpentBy(outs, h), ValueIn(m), p);
      } else {
        assert OutsSpentBy(outs', x) == OutsSpentBy(outs, x);
      }
    }
  }

  lemma MoreSpent(m: Mined, txs: Pool, outs: map<BlockOutputKey, Hash>, su: map<OutPoint, Hash>, op: OutPoint, h: Hash)
    requires PoolAdds(m, txs, outs, su)
    ensures PoolAdds(m, txs, outs, su[op := h])
  {
    forall x | x in txs && txs[x].debits.Some? && (forall o :: o in txs[x].tx.inputs ==> o !in su[op := h])
      ensures txs[x].debits.value.amount == Sum(OutsSpentBy(outs, x), ValueIn(m))
    {
      assert forall o :: o in txs[x].tx.inputs ==> o !in su;
    }
  }

  lemma PoolStepAccounts(l: Ledger, c: CreditRef, h: Hash)
    requires SpendsOk(l.mined) && SpentOutsOk(l.mined, l.spentOuts, l.spentKeys)
    requires Accounted(l) && h in l.txs && l.txs[h].debits.Some? && CanSpend(l, c, l.txs[h].tx.inputs)
    ensures Accounted(PoolStep(l, c, h))
  {
    hide BlocksAdd, DebitsAdd, PoolAdds;
    if c.Mined() {
      var p := c.Key();
      var n := Relink(l.mined, {p}, Some(UNMINED));
      RelinkRelinks(l.mined, {p}, Some(UNMINED));
      RelinkAccounts(l.mined, n, {p}, Some(UNMINED), l.deltas);
      assert p !in l.spentOuts;
      assert ValueIn(l.mined)(p) == OutValue(l.mined[c.tx.key], c.out);
      PoolSpendAdds(l.mined, l.txs, l.spentOuts, l.spentUnconf, p, h);
      SamePool(l.mined, n, PoolStep(l, c, h).txs, l.spentOuts[p := h], l.spentUnconf);
    } else {
      MoreSpent(l.mined, l.txs, l.spentOuts, l.spentUnconf, c.Op(), h);
    }
  }

  lemma PoolStartAccounts(l: Ledger, t: TxRef)
    requires Linked(l) && Accounted(l) && LiveTx(l, t) && t.key == UNMINED && l.txs[t.hash].debits.None?
    ensures Accounted(Debited(Marked(l, 0), t, []))
  {
    hide BlocksAdd, DebitsAdd, MinedOk, PoolOk, HashesOk, UnspentSound, SpentByOk, SpendsOk, SpentOutsOk, SpentKeysOk;
    hide SpentUnconfOk, MarksOk, PrevOutsOk;
    var n := Debited(Marked(l, 0), t, []).txs;
    forall x | x in n && n[x].debits.Some? && (forall op :: op in n[x].tx.inputs ==> op !in l.spentUnconf)
      ensures n[x].debits.value.amount == Sum(OutsSpentBy(l.spentOuts, x), ValueIn(l.mined))
    {
      if x == t.hash { assert OutsSpentBy(l.spentOuts, x) == {}; }
    }
  }

  lemma PoolDebitStepAccounts(m: Marked, c: CreditRef, t: TxRef, ins: seq<OutPoint>)
    requires LiveTx(m.ledger, t) && t.key == UNMINED && ins == m.ledger.txs[t.hash].tx.inputs
    requires Linked(Debited(m, t, [])) && Accounted(Debited(m, t, [])) && CanSpend(m.ledger, c, ins)
    ensures MarkOne(m.ledger, c, t).Ok?
    ensures var m' := MarkOne(m.ledger, c, t).value; Accounted(Debited(Marked(m'.ledger, m.amount + m'.amount), t, []))
  {
    SetDebitsKeepsCanSpend(m.ledger, t, Debits(m.amount, []), c, ins);
    PoolMarkIsStep(m, c, t, ins);
    PoolStepAccounts(Debited(m, t, []), c, t.hash);
    hide Accounted;
  }

  lemma {:induction false} PoolDebitsAccounts(l: Ledger, cs: seq<CreditRef>, t: TxRef)
    requires Linked(l) && Accounted(l) && LiveTx(l, t) && t.key == UNMINED && l.txs[t.hash].debits.None?
    requires AllCanSpend(l, cs, l.txs[t.hash].tx.inputs) && Distinct(cs)
    ensures MarkSpent(l, cs, t).Ok? && Accounted(Debited(MarkSpent(l, cs, t).value, t, []))
  {
    hide Linked, UnspentComplete, CanSpend, MarkOne, Accounted;
    if cs == [] {
      PoolStartAccounts(l, t);
    } else {
      var n := |cs| - 1;
      PoolDebitsAccounts(l, cs[..n], t);
      PoolDebitsKeepLinks(l, cs[..n], t);
      MarksLeaveOthers(l, cs[..n], t, cs[n], l.txs[t.hash].tx.inputs);
      PoolDebitStepAccounts(MarkSpent(l, cs[..n], t).value, cs[n], t, l.txs[t.hash].tx.inputs);
    }
  }

  // ------------------------------------------- the debits of a mined record

  lemma MinedSpendDebits(m: Mined, n: Mined, p: BlockOutputKey, k: BlockTxKey)
    requires SpendsOk(m) && DebitsAdd(m) && AddsSpend(m, n, p, k) && IsCredit(m, p) && SpentBy(m, p).None?
    requires DebitAmount(n[k]) == DebitAmount(m[k]) + ValueIn(m)(p)
    ensures DebitsAdd(n)
  {
    forall j | j in n ensures DebitAmount(n[j]) == Sum(KeySet(Spends(n[j])), ValueIn(n)) {
      forall q | q in KeySet(Spends(m[j])) ensures q.tx in m { assert Lists(m, j, q); }
      SameValues(m, n, KeySet(Spends(m[j])));
      if j == k {
        assert !Lists(m, k, p);
        assert KeySet(Spends(n[k])) == KeySet(Spends(m[k])) + {p};
        SumAdd(KeySet(Spends(m[k])), ValueIn(n), p);
      }
    }
  }

  lemma ChargedAt(m: Mined, n: Mined, p: BlockOutputKey, k: BlockTxKey, coinbase: bool)
    requires AddsSpend(m, n, p, k) && DebitAmount(n[k]) == DebitAmount(m[k]) + ValueIn(m)(p)
    ensures Sum(CreditsAt(n, k.height, coinbase), ValueIn(n)) == Sum(CreditsAt(m, k.height, coinbase), ValueIn(m))
    ensures Sum(TxsAt(n, k.height), AmountIn(n)) == Sum(TxsAt(m, k.height), AmountIn(m)) + ValueIn(m)(p)
  {
    var h := k.height;
    assert CreditsAt(n, h, coinbase) == CreditsAt(m, h, coinbase);
    SumSame(CreditsAt(m, h, coinbase), ValueIn(n), ValueIn(m));
    var ks := TxsAt(m, h);
    assert TxsAt(n, h) == ks;
    SumTake(ks, AmountIn(n), k);
    SumTake(ks, AmountIn(m), k);
    SumSame(ks - {k}, AmountIn(n), AmountIn(m));
  }

  lemma MinedSpendBlocks(m: Mined, n: Mined, deltas: map<int, Amounts>, p: BlockOutputKey, k: BlockTxKey)
    requires BlocksAdd(m, deltas) && k.height in deltas
    requires AddsSpend(m, n, p, k) && DebitAmount(n[k]) == DebitAmount(m[k]) + ValueIn(m)(p)
    ensures BlocksAdd(n, Charge(deltas, k.height, ValueIn(m)(p)))
  {
    var d := Charge(deltas, k.height, ValueIn(m)(p));
    forall h | h in d
      ensures d[h].spendable == Sum(CreditsAt(n, h, false), ValueIn(n)) - Sum(TxsAt(n, h), AmountIn(n))
      ensures d[h].reward == Sum(CreditsAt(n, h, true), ValueIn(n))
    {
      if h == k.height {
        ChargedAt(m, n, p, k, false);
        ChargedAt(m, n, p, k, true);
      } else {
        SameSums(m, n, h, false);
        SameSums(m, n, h, true);
      }
    }
  }

  lemma MinedStepAccounts(l: Ledger, c: CreditRef, k: BlockTxKey)
    requires MinedOk(l.mined, l.deltas.Keys) && SpendsOk(l.mined) && SpendersOk(l.mined, l.txs, l.spentOuts)
    requires Accounted(l) && CanStepMined(l, c, k)
    ensures Accounted(MinedStep(l, c, k))
  {
    hide BlocksAdd, DebitsAdd, PoolAdds;
    var p, v := c.Key(), OutValue(l.mined[c.tx.key], c.out);
    ListSpendSpends(l.mined, p, k, v);
    var n := MinedStep(l, c, k).mined;
    assert ValueIn(l.mined)(p) == v && DebitAmount(n[k]) == DebitAmount(l.mined[k]) + v;
    MinedSpendBlocks(l.mined, n, l.deltas, p, k);
    MinedSpendDebits(l.mined, n, p, k);
    SamePool(l.mined, n, l.txs, l.spentOuts, l.spentUnconf);
  }

  lemma EmptyDebitsAccounts(m: Mined, n: Mined, k: BlockTxKey, deltas: map<int, Amounts>)
    requires BlocksAdd(m, deltas) && DebitsAdd(m) && SpendsOk(m) && k in m && m[k].debits.None?
    requires n == m[k := m[k].(debits := Some(Debits(0, [])))]
    ensures BlocksAdd(n, deltas) && DebitsAdd(n)
  {
    SameBlocks(m, n, deltas);
    forall j | j in n ensures DebitAmount(n[j]) == Sum(KeySet(Spends(n[j])), ValueIn(n)) {
      assert KeySet(Spends(n[j])) == KeySet(Spends(m[j]));
      forall q | q in KeySet(Spends(m[j])) ensures q.tx in m { assert Lists(m, j, q); }
      SameValues(m, n, KeySet(Spends(m[j])));
    }
  }

  lemma MinedStartAccounts(l: Ledger, t: TxRef)
    requires Linked(l) && Accounted(l) && LiveTx(l, t) && t.key != UNMINED && l.mined[t.key].debits.None?
    ensures Accounted(Debited(Marked(l, 0), t, []))
  {
    hide BlocksAdd, DebitsAdd, PoolAdds, PoolOk, HashesOk, UnspentSound, SpentByOk, SpentOutsOk, SpentKeysOk;
    hide SpentUnconfOk, MarksOk, PrevOutsOk;
    var n := Debited(Marked(l, 0), t, []).mined;
    EmptyDebitsAccounts(l.mined, n, t.key, l.deltas);
    SamePool(l.mined, n, l.txs, l.spentOuts, l.spentUnconf);
    assert Charge(l.deltas, t.key.height, 0) == l.deltas;
  }

  lemma MinedDebitStepAccounts(m: Marked, c: CreditRef, t: TxRef, cs: seq<CreditRef>, ins: seq<OutPoint>)
    requires LiveTx(m.ledger, t) && t.key != UNMINED && t.key.index != 0 && ins == m.ledger.mined[t.key].tx.inputs
    requires Linked(Debited(m, t, cs)) && Accounted(Debited(m, t, cs)) && CanSpend(m.ledger, c, ins) && c.Mined()
    requires c.tx.key.height <= t.key.height
    requires t.key.height in m.ledger.deltas
    ensures MarkOne(m.ledger, c, t).Ok?
    ensures var m' := MarkOne(m.ledger, c, t).value;
            Accounted(Debited(Marked(m'.ledger, m.amount + m'.amount), t, cs + [c]))
  {
    hide Accounted;
    SetDebitsKeepsCanSpend(m.ledger.(deltas := Charge(m.ledger.deltas, t.key.height, m.amount)), t,
      Debits(m.amount, Keys(cs)), c, ins);
    MinedMarkIsStep(m, c, t, cs, ins);
    MinedStepAccounts(Debited(m, t, cs), c, t.key);
  }

  lemma {:induction false} MinedDebitsAccounts(l: Ledger, cs: seq<CreditRef>, t: TxRef)
    requires Linked(l) && Accounted(l) && LiveTx(l, t) && t.key != UNMINED && t.key.index != 0
    requires l.mined[t.key].debits.None?
    requires t.key.height in l.deltas
    requires AllCanSpend(l, cs, l.mined[t.key].tx.inputs) && Distinct(cs)
    requires forall c :: c in cs ==> c.Mined() && c.tx.key.height <= t.key.height
    ensures MarkSpent(l, cs, t).Ok? && Accounted(Debited(MarkSpent(l, cs, t).value, t, cs))
  {
    hide Linked, UnspentComplete, CanSpend, MarkOne, Accounted;
    if cs == [] {
      MinedStartAccounts(l, t);
    } else {
      var n := |cs| - 1;
      MinedDebitsAccounts(l, cs[..n], t);
      MinedDebitsKeepLinks(l, cs[..n], t);
      MarksLeaveOthers(l, cs[..n], t, cs[n], l.mined[t.key].tx.inputs);
      MinedDebitStepAccounts(MarkSpent(l, cs[..n], t).value, cs[n], t, cs[..n], l.mined[t.key].tx.inputs);
      assert cs[..n] + [cs[n]] == cs;
    }
  }

  /** Recording debits keeps the amounts in order. */
  lemma FirstDebitsAccounts(l: Ledger, t: TxRef, cs: seq<CreditRef>)
    requires Linked(l) && Accounted(l) && CanDebit(l, t, cs)
    ensures FirstDebits(l, t, cs).Ok? && Accounted(FirstDebits(l, t, cs).value)
  {
    hide Accounted;
    if t.key == UNMINED {
      hide Linked, CanSpend;
      PoolDebitsAccounts(l, cs, t);
      MarksHave(l, cs, t, l.txs[t.hash].tx.inputs);
      var m := MarkSpent(l, cs, t).value;
      forall c | c in cs ensures PoolHas(SetDebits(m.ledger, t, Debits(m.amount, [])), c, t.hash) {
        assert PoolHas(m.ledger, c, t.hash);
      }
      FilledStays(SetDebits(m.ledger, t, Debits(m.amount, [])), cs, t.hash);
    } else {
      assert t.key.height in l.deltas;
      hide Linked, CanSpend;
      MinedDebitsAccounts(l, cs, t);
    }
  }
}
