/** Recording all debits of a transaction, credit after credit. */
module DebitRuns {
  import opened TxTypes
  import opened Ledgers
  import opened LedgerInv
  import opened LedgerOps
  import opened DebitProof

  /** The credits cs are live, unspent, pairwise different inputs of t's
      transaction, which has no debits yet; a mined t spends only mined credits
      that are no younger than itself and is not a coinbase. */
  ghost predicate CanDebit(l: Ledger, t: TxRef, cs: seq<CreditRef>) {
    && LiveTx(l, t) && RecordAt(l, t).debits.None?
    && AllCanSpend(l, cs, RecordAt(l, t).tx.inputs) && Distinct(cs)
    && (t.key != UNMINED ==> t.key.index != 0 && forall c :: c in cs ==> c.Mined() && c.tx.key.height <= t.key.height)
  }

  ghost predicate AllCanSpend(l: Ledger, cs: seq<CreditRef>, ins: seq<OutPoint>) {
    forall c :: c in cs ==> CanSpend(l, c, ins)
  }

  ghost predicate Distinct(cs: seq<CreditRef>) {
    forall i, j :: 0 <= i < j < |cs| ==> cs[i].Op() != cs[j].Op()
  }

  /** The ledger after marking, with t's debit record filled in. */
  function Debited(m: Marked, t: TxRef, cs: seq<CreditRef>): Ledger
    requires LiveTx(m.ledger, t)
  {
    if t.key == UNMINED then SetDebits(m.ledger, t, Debits(m.amount, []))
    else SetDebits(m.ledger.(deltas := Charge(m.ledger.deltas, t.key.height, m.amount)), t, Debits(m.amount, Keys(cs)))
  }

  // -------------------------------------------------------------- one credit

  lemma MarkOneOk(l: Ledger, c: CreditRef, t: TxRef, ins: seq<OutPoint>)
    requires CanSpend(l, c, ins)
    ensures MarkOne(l, c, t).Ok?
  {
  }

  lemma PoolMarkIsStep(m: Marked, c: CreditRef, t: TxRef, ins: seq<OutPoint>)
    requires LiveTx(m.ledger, t) && t.key == UNMINED && CanSpend(m.ledger, c, ins)
    ensures MarkOne(m.ledger, c, t).Ok?
    ensures var m' := MarkOne(m.ledger, c, t).value;
            PoolStep(Debited(m, t, []), c, t.hash) == Debited(Marked(m'.ledger, m.amount + m'.amount), t, [])
  {
    var m' := MarkOne(m.ledger, c, t).value;
    var a := PoolStep(Debited(m, t, []), c, t.hash);
    var b := Debited(Marked(m'.ledger, m.amount + m'.amount), t, []);
    assert a.txs == b.txs;
  }

  lemma SetDebitsKeepsCanSpend(l: Ledger, t: TxRef, d: Debits, c: CreditRef, ins: seq<OutPoint>)
    requires LiveTx(l, t) && CanSpend(l, c, ins)
    ensures CanSpend(SetDebits(l, t, d), c, ins)
  {
  }

  lemma MarkKeepsOthers(l: Ledger, c: CreditRef, t: TxRef, other: CreditRef, ins: seq<OutPoint>)
    requires CanSpend(l, c, ins) && CanSpend(l, other, ins) && other.Op() != c.Op() && MarkOne(l, c, t).Ok?
    ensures CanSpend(MarkOne(l, c, t).value.ledger, other, ins)
  {
    if c.Mined() {
      RelinkRelinks(l.mined, {c.Key()}, Some(t.key));
      assert other.Key() == c.Key() ==> other.Op() == c.Op();
    }
  }

  // --------------------------------------------- every credit, pool and mined

  lemma {:induction false} MarksLeaveOthers(l: Ledger, cs: seq<CreditRef>, t: TxRef, other: CreditRef,
      ins: seq<OutPoint>)
    requires AllCanSpend(l, cs, ins) && Distinct(cs) && CanSpend(l, other, ins)
    requires forall c :: c in cs ==> c.Op() != other.Op()
    ensures MarkSpent(l, cs, t).Ok? && CanSpend(MarkSpent(l, cs, t).value.ledger, other, ins)
  {
    if cs != [] {
      var n := |cs| - 1;
      MarksLeaveOthers(l, cs[..n], t, other, ins);
      MarksLeaveOthers(l, cs[..n], t, cs[n], ins);
      var m := MarkSpent(l, cs[..n], t).value;
      MarkOneOk(m.ledger, cs[n], t, ins);
      MarkKeepsOthers(m.ledger, cs[n], t, other, ins);
    }
  }

  lemma PoolDebitsStart(l: Ledger, t: TxRef)
    requires Linked(l) && LiveTx(l, t) && t.key == UNMINED
    ensures Linked(Debited(Marked(l, 0), t, []))
  {
    TouchDebits(l.mined, l.txs, l.spentOuts, l.spentUnconf, l.prevOuts, t.hash,
      Debited(Marked(l, 0), t, []).txs[t.hash]);
  }

  lemma PoolDebitsStep(m: Marked, c: CreditRef, t: TxRef, ins: seq<OutPoint>)
    requires LiveTx(m.ledger, t) && t.key == UNMINED && ins == m.ledger.txs[t.hash].tx.inputs
    requires Linked(Debited(m, t, [])) && CanSpend(m.ledger, c, ins)
    ensures MarkOne(m.ledger, c, t).Ok?
    ensures var m' := MarkOne(m.ledger, c, t).value;
            var d, d' := Debited(m, t, []), Debited(Marked(m'.ledger, m.amount + m'.amount), t, []);
            Linked(d') && (UnspentComplete(d.mined, d.unspent) ==> UnspentComplete(d'.mined, d'.unspent))
  {
    SetDebitsKeepsCanSpend(m.ledger, t, Debits(m.amount, []), c, ins);
    PoolMarkIsStep(m, c, t, ins);
    PoolStepKeeps(Debited(m, t, []), c, t.hash);
  }

  lemma {:induction false} PoolDebitsKeepLinks(l: Ledger, cs: seq<CreditRef>, t: TxRef)
    requires Linked(l) && LiveTx(l, t) && t.key == UNMINED
    requires AllCanSpend(l, cs, l.txs[t.hash].tx.inputs) && Distinct(cs)
    ensures MarkSpent(l, cs, t).Ok?
    ensures var d := Debited(MarkSpent(l, cs, t).value, t, []);
            Linked(d) && (UnspentComplete(l.mined, l.unspent) ==> UnspentComplete(d.mined, d.unspent))
  {
    hide Linked, UnspentComplete, CanSpend, MarkOne;
    if cs == [] {
      PoolDebitsStart(l, t);
    } else {
      var n := |cs| - 1;
      PoolDebitsKeepLinks(l, cs[..n], t);
      MarksLeaveOthers(l, cs[..n], t, cs[n], l.txs[t.hash].tx.inputs);
      PoolDebitsStep(MarkSpent(l, cs[..n], t).value, cs[n], t, l.txs[t.hash].tx.inputs);
    }
  }

  // ------------------------------------------------ the pool's maps are filled

  ghost predicate PoolHas(l: Ledger, c: CreditRef, h: Hash) {
    if c.Mined() then
      c.Key() in l.spentOuts && l.spentOuts[c.Key()] == h && c.Op() in l.spentKeys && l.spentKeys[c.Op()] == c.Key()
    else c.Op() in l.spentUnconf && l.spentUnconf[c.Op()] == h
  }

  lemma MarkHas(l: Ledger, c: CreditRef, t: TxRef, ins: seq<OutPoint>)
    requires CanSpend(l, c, ins) && t.key == UNMINED && MarkOne(l, c, t).Ok?
    ensures PoolHas(MarkOne(l, c, t).value.ledger, c, t.hash)
    ensures forall o: CreditRef :: PoolHas(l, o, t.hash) && o.Op() != c.Op() ==>
              PoolHas(MarkOne(l, c, t).value.ledger, o, t.hash)
  {
    hide Relink, LiveCredit, IsCredit, SpentBy;
  }

  lemma {:induction false} MarksHave(l: Ledger, cs: seq<CreditRef>, t: TxRef, ins: seq<OutPoint>)
    requires AllCanSpend(l, cs, ins) && Distinct(cs) && t.key == UNMINED
    ensures MarkSpent(l, cs, t).Ok?
    ensures forall c :: c in cs ==> PoolHas(MarkSpent(l, cs, t).value.ledger, c, t.hash)
  {
    hide CanSpend, MarkOne, PoolHas;
    if cs != [] {
      var n := |cs| - 1;
      MarksHave(l, cs[..n], t, ins);
      MarksLeaveOthers(l, cs[..n], t, cs[n], ins);
      var m := MarkSpent(l, cs[..n], t).value;
      MarkOneOk(m.ledger, cs[n], t, ins);
      MarkHas(m.ledger, cs[n], t, ins);
    }
  }

  lemma {:induction false} FilledStays(l: Ledger, cs: seq<CreditRef>, h: Hash)
    requires forall c :: c in cs ==> PoolHas(l, c, h)
    ensures AllPoolSpends(l, cs, h) == l
  {
    if cs != [] {
      var n := |cs| - 1;
      FilledStays(l, cs[..n], h);
      var c := cs[n];
      assert c in cs && PoolHas(l, c, h);
      if c.Mined() {
        assert l.spentOuts[c.Key() := h] == l.spentOuts && l.spentKeys[c.Op() := c.Key()] == l.spentKeys;
      } else {
        assert l.spentUnconf[c.Op() := h] == l.spentUnconf;
      }
    }
  }

  // --------------------------------------------------- debits of a mined record

  lemma MinedMarkIsStep(m: Marked, c: CreditRef, t: TxRef, cs: seq<CreditRef>, ins: seq<OutPoint>)
    requires LiveTx(m.ledger, t) && t.key != UNMINED && CanSpend(m.ledger, c, ins) && c.Mined()
    requires t.key.height in m.ledger.deltas
    ensures MarkOne(m.ledger, c, t).Ok?
    ensures var m' := MarkOne(m.ledger, c, t).value;
            MinedStep(Debited(m, t, cs), c, t.key) == Debited(Marked(m'.ledger, m.amount + m'.amount), t, cs + [c])
  {
    hide Relink;
    assert Keys(cs + [c]) == Keys(cs) + [c.Key()];
    var m' := MarkOne(m.ledger, c, t).value;
    RelinkWithDebits(m.ledger.mined, {c.Key()}, t.key, Debits(m.amount, Keys(cs)),
      Debits(m.amount + m'.amount, Keys(cs + [c])));
    ChargeTwice(m.ledger.deltas, t.key.height, m.amount, m'.amount);
  }

  /** Whose debits k records makes no difference to the links. */
  lemma RelinkWithDebits(m: Mined, ps: set<BlockOutputKey>, k: BlockTxKey, d: Debits, e: Debits)
    requires k in m
    ensures var n := Relink(m[k := m[k].(debits := Some(d))], ps, Some(k));
            && k in n && n[k].debits == Some(d)
            && n[k := n[k].(debits := Some(e))]
                == Relink(m, ps, Some(k))[k := Relink(m, ps, Some(k))[k].(debits := Some(e))]
  {
    var n := Relink(m[k := m[k].(debits := Some(d))], ps, Some(k));
    forall j | j in m ensures n[j].credits == Relink(m, ps, Some(k))[j].credits {}
  }

  lemma ChargeTwice(deltas: map<int, Amounts>, h: int, a: int, b: int)
    ensures Charge(Charge(deltas, h, a), h, b) == Charge(deltas, h, a + b)
  {
  }

  /** n differs from m only in the amounts of debits and in empty debits. */
  ghost predicate SameLinks(m: Mined, n: Mined) {
    && n.Keys == m.Keys
    && (forall k :: k in m ==> n[k].tx == m[k].tx && n[k].index == m[k].index && n[k].credits == m[k].credits)
    && (forall k :: k in n && n[k].debits.Some? ==> NoDup(n[k].debits.value.spends))
    && (forall k, p :: Lists(n, k, p) <==> Lists(m, k, p))
  }

  lemma SameLinksKeepSpends(m: Mined, n: Mined, outs: map<BlockOutputKey, Hash>, unspent: map<OutPoint, BlockTxKey>)
    requires UnspentSound(m, unspent) && SpentByOk(m, outs) && SpendsOk(m) && SameLinks(m, n)
    ensures UnspentSound(n, unspent) && SpentByOk(n, outs) && SpendsOk(n)
    ensures UnspentComplete(m, unspent) ==> UnspentComplete(n, unspent)
  {
    assert forall q :: IsCredit(n, q) <==> IsCredit(m, q);
    assert forall q :: IsCredit(m, q) ==> SpentBy(n, q) == SpentBy(m, q);
    forall op | op in unspent ensures UnspentAt(n, BlockOutputKey(unspent[op], op.index), op) {
      assert UnspentAt(m, BlockOutputKey(unspent[op], op.index), op);
    }
  }

  lemma SameLinksKeepPool(m: Mined, n: Mined, txs: Pool, outs: map<BlockOutputKey, Hash>,
      keys: map<OutPoint, BlockOutputKey>)
    requires HashesOk(m, txs) && SpentOutsOk(m, outs, keys) && SpentKeysOk(m, outs, keys) && SpendersOk(m, txs, outs)
    requires SameLinks(m, n)
    ensures HashesOk(n, txs) && SpentOutsOk(n, outs, keys) && SpentKeysOk(n, outs, keys) && SpendersOk(n, txs, outs)
  {
    assert forall q :: IsCredit(n, q) <==> IsCredit(m, q);
    assert forall q :: IsCredit(m, q) ==> SpentBy(n, q) == SpentBy(m, q);
    forall q | q in outs ensures q.tx in n && Spender(txs, outs[q], OpOf(n, q)) {
      assert Spender(txs, outs[q], OpOf(m, q));
    }
  }

  lemma MinedDebitsStart(l: Ledger, t: TxRef)
    requires Linked(l) && LiveTx(l, t) && t.key != UNMINED && t.key.index != 0 && l.mined[t.key].debits.None?
    ensures Linked(Debited(Marked(l, 0), t, []))
    ensures var d := Debited(Marked(l, 0), t, []);
            UnspentComplete(l.mined, l.unspent) ==> UnspentComplete(d.mined, d.unspent)
  {
    hide MinedOk, PoolOk, HashesOk, UnspentSound, UnspentComplete, SpentByOk, SpendsOk, SpentOutsOk, SpentKeysOk;
    hide SpendersOk, SpentUnconfOk, MarksOk, PrevOutsOk, SameLinks;
    var n := Debited(Marked(l, 0), t, []).mined;
    NoDebitsYet(l.mined, l.deltas.Keys, t.key);
    assert Charge(l.deltas, t.key.height, 0).Keys == l.deltas.Keys by { HeightKnown(l.mined, l.deltas, t.key); }
    SameLinksKeepSpends(l.mined, n, l.spentOuts, l.unspent);
    SameLinksKeepPool(l.mined, n, l.txs, l.spentOuts, l.spentKeys);
  }

  lemma HeightKnown(m: Mined, deltas: map<int, Amounts>, k: BlockTxKey)
    requires MinedOk(m, deltas.Keys) && k in m
    ensures k.height in deltas
  {
  }

  lemma NoDebitsYet(m: Mined, heights: set<int>, k: BlockTxKey)
    requires MinedOk(m, heights) && SpendsOk(m) && k in m && m[k].debits.None? && k.index != 0
    ensures var n := m[k := m[k].(debits := Some(Debits(0, Keys([]))))]; MinedOk(n, heights) && SameLinks(m, n)
  {
    assert Keys([]) == [];
  }

  lemma MinedDebitsStep(m: Marked, c: CreditRef, t: TxRef, cs: seq<CreditRef>, ins: seq<OutPoint>)
    requires LiveTx(m.ledger, t) && t.key != UNMINED && t.key.index != 0 && ins == m.ledger.mined[t.key].tx.inputs
    requires Linked(Debited(m, t, cs)) && CanSpend(m.ledger, c, ins) && c.Mined() && c.tx.key.height <= t.key.height
    requires t.key.height in m.ledger.deltas
    ensures MarkOne(m.ledger, c, t).Ok?
    ensures var m' := MarkOne(m.ledger, c, t).value;
            var d, d' := Debited(m, t, cs), Debited(Marked(m'.ledger, m.amount + m'.amount), t, cs + [c]);
            Linked(d') && (UnspentComplete(d.mined, d.unspent) ==> UnspentComplete(d'.mined, d'.unspent))
  {
    hide Linked;
    SetDebitsKeepsCanSpend(m.ledger.(deltas := Charge(m.ledger.deltas, t.key.height, m.amount)), t,
      Debits(m.amount, Keys(cs)), c, ins);
    MinedMarkIsStep(m, c, t, cs, ins);
    MinedStepKeeps(Debited(m, t, cs), c, t.key);
  }

  lemma {:induction false} MinedDebitsKeepLinks(l: Ledger, cs: seq<CreditRef>, t: TxRef)
    requires Linked(l) && LiveTx(l, t) && t.key != UNMINED && t.key.index != 0 && l.mined[t.key].debits.None?
    requires t.key.height in l.deltas
    requires AllCanSpend(l, cs, l.mined[t.key].tx.inputs) && Distinct(cs)
    requires forall c :: c in cs ==> c.Mined() && c.tx.key.height <= t.key.height
    ensures MarkSpent(l, cs, t).Ok?
    ensures var d := Debited(MarkSpent(l, cs, t).value, t, cs);
            Linked(d) && (UnspentComplete(l.mined, l.unspent) ==> UnspentComplete(d.mined, d.unspent))
  {
    hide Linked, UnspentComplete, CanSpend, MarkOne, Debited;
    if cs == [] {
      MinedDebitsStart(l, t);
    } else {
      var n := |cs| - 1;
      MinedDebitsKeepLinks(l, cs[..n], t);
      MarksLeaveOthers(l, cs[..n], t, cs[n], l.mined[t.key].tx.inputs);
      MinedDebitsStep(MarkSpent(l, cs[..n], t).value, cs[n], t, cs[..n], l.mined[t.key].tx.inputs);
      assert cs[..n] + [cs[n]] == cs;
    }
  }

  /** Recording the debits of a transaction never fails on live unspent inputs,
      keeps every link two-way, and keeps the unspent map an exact scan. */
  lemma FirstDebitsKeepLinks(l: Ledger, t: TxRef, cs: seq<CreditRef>)
    requires Linked(l) && CanDebit(l, t, cs)
    ensures FirstDebits(l, t, cs).Ok?
    ensures var d := FirstDebits(l, t, cs).value;
            Linked(d) && (UnspentComplete(l.mined, l.unspent) ==> UnspentComplete(d.mined, d.unspent))
  {
    if t.key == UNMINED {
      hide Linked, UnspentComplete, CanSpend;
      PoolDebitsKeepLinks(l, cs, t);
      MarksHave(l, cs, t, l.txs[t.hash].tx.inputs);
      var m := MarkSpent(l, cs, t).value;
      forall c | c in cs ensures PoolHas(SetDebits(m.ledger, t, Debits(m.amount, [])), c, t.hash) {
        assert PoolHas(m.ledger, c, t.hash);
      }
      FilledStays(SetDebits(m.ledger, t, Debits(m.amount, [])), cs, t.hash);
    } else {
      assert t.key.height in l.deltas;
      hide Linked, UnspentComplete, CanSpend;
      MinedDebitsKeepLinks(l, cs, t);
    }
  }

  // ------------------------------------------------ finding what a tx spends

  /** The wallet holds op unspent. */
  ghost predicate Held(l: Ledger, op: OutPoint) {
    op in l.unspent || (op.hash in l.txs && HasCredit(l.txs[op.hash], op.index) && op !in l.spentUnconf)
  }

  lemma FindCreditSpends(l: Ledger, op: OutPoint, ins: seq<OutPoint>)
    requires MinedOk(l.mined, l.deltas.Keys) && UnspentSound(l.mined, l.unspent) && op in ins
    ensures FindCredit(l, op).Ok? && (FindCredit(l, op).value.Some? <==> Held(l, op))
    ensures FindCredit(l, op).value.Some? ==>
              CanSpend(l, FindCredit(l, op).value.value, ins) && FindCredit(l, op).value.value.Op() == op
  {
    if op in l.unspent {
      assert UnspentAt(l.mined, BlockOutputKey(l.unspent[op], op.index), op);
    }
  }

  /** The search for previous credits never fails and finds exactly the inputs
      the wallet holds unspent, each ready to be recorded as spent. */
  lemma {:induction false} FindCreditsSpend(l: Ledger, ins: seq<OutPoint>, all: seq<OutPoint>)
    requires MinedOk(l.mined, l.deltas.Keys) && UnspentSound(l.mined, l.unspent)
    requires forall op :: op in ins ==> op in all
    ensures FindCredits(l, ins).Ok?
    ensures AllCanSpend(l, FindCredits(l, ins).value, all)
    ensures forall op :: (exists c :: c in FindCredits(l, ins).value && c.Op() == op) <==> op in ins && Held(l, op)
    ensures NoDup(ins) ==> Distinct(FindCredits(l, ins).value)
  {
    hide CanSpend, FindCredit, Held, MinedOk, UnspentSound;
    if ins != [] {
      var n := |ins| - 1;
      assert ins == ins[..n] + [ins[n]];
      FindCreditsSpend(l, ins[..n], all);
      FindCreditSpends(l, ins[n], all);
      var cs, cs' := FindCredits(l, ins[..n]).value, FindCredits(l, ins).value;
      forall op ensures (exists c :: c in cs' && c.Op() == op) <==> op in ins && Held(l, op) {
        if op in ins[..n] && Held(l, op) {
          var c :| c in cs && c.Op() == op;
          assert c in cs';
        } else if op == ins[n] && Held(l, op) {
          assert FindCredit(l, op).value.value in cs';
        }
      }
    }
  }
}
