/** Recording debits keeps the store linked only for the calls that are known
    to keep it linked. */
module DebitNeeds {
  import opened TxTypes
  import opened Ledgers
  import opened LedgerInv
  import opened LedgerOps
  import opened DebitProof
  import opened DebitRuns

  /** n's spenders are m's, and k of some that had none. */
  ghost predicate MarksOnly(m: Mined, n: Mined, k: BlockTxKey) {
    && (forall p :: IsCredit(n, p) <==> IsCredit(m, p))
    && (forall p :: IsCredit(m, p) ==>
          SpentBy(n, p) == SpentBy(m, p) || (SpentBy(m, p) == None && SpentBy(n, p) == Some(k)))
  }

  /** Nothing but t spends c, as far as the mined records know. */
  ghost predicate FreeFor(m: Mined, c: CreditRef, k: BlockTxKey) {
    c.Mined() ==> IsCredit(m, c.Key()) && (SpentBy(m, c.Key()) == None || SpentBy(m, c.Key()) == Some(k))
  }

  lemma MarkOneMarks(l: Ledger, c: CreditRef, t: TxRef)
    requires MarkOne(l, c, t).Ok?
    ensures FreeFor(l.mined, c, t.key) && MarksOnly(l.mined, MarkOne(l, c, t).value.ledger.mined, t.key)
  {
    hide Relink;
    if c.Mined() && IsCredit(l.mined, c.Key()) { OneMarked(l.mined, c.Key(), t.key); }
  }

  lemma OneMarked(m: Mined, p: BlockOutputKey, k: BlockTxKey)
    requires IsCredit(m, p)
    ensures SpentBy(m, p) == None ==> MarksOnly(m, Relink(m, {p}, Some(k)), k)
  {
    RelinkRelinks(m, {p}, Some(k));
    assert forall q :: IsCredit(Relink(m, {p}, Some(k)), q) ==> q.tx in m;
  }

  lemma MarksTwice(m: Mined, n: Mined, o: Mined, k: BlockTxKey, c: CreditRef)
    requires MarksOnly(m, n, k) && MarksOnly(n, o, k) && FreeFor(n, c, k)
    ensures MarksOnly(m, o, k) && FreeFor(m, c, k)
  {
  }

  lemma {:induction false} MarkedWereFree(l: Ledger, cs: seq<CreditRef>, t: TxRef)
    requires MarkSpent(l, cs, t).Ok?
    ensures MarksOnly(l.mined, MarkSpent(l, cs, t).value.ledger.mined, t.key)
    ensures forall c :: c in cs ==> FreeFor(l.mined, c, t.key)
  {
    if cs != [] {
      hide MarkOne, MarksOnly, FreeFor;
      var n := |cs| - 1;
      var m := MarkSpent(l, cs[..n], t).value.ledger;
      MarkedWereFree(l, cs[..n], t);
      MarkOneMarks(m, cs[n], t);
      MarksTwice(l.mined, m.mined, MarkOne(m, cs[n], t).value.ledger.mined, t.key, cs[n]);
      assert cs == cs[..n] + [cs[n]];
    }
  }

  /** The pool records that h spends c. */
  ghost predicate TakenBy(d: Ledger, c: CreditRef, h: Hash) {
    if c.Mined() then c.Key() in d.spentOuts && d.spentOuts[c.Key()] == h
      else c.Op() in d.spentUnconf && d.spentUnconf[c.Op()] == h
  }

  lemma TakeOne(d: Ledger, c: CreditRef, h: Hash)
    ensures TakenBy(PoolSpends(d, c, h), c, h) && PoolSpends(d, c, h).mined == d.mined
    ensures PoolSpends(d, c, h).txs == d.txs
    ensures forall o :: TakenBy(d, o, h) ==> TakenBy(PoolSpends(d, c, h), o, h)
  {
  }

  lemma {:induction false} AllTaken(l: Ledger, cs: seq<CreditRef>, h: Hash)
    ensures var d := AllPoolSpends(l, cs, h);
            d.mined == l.mined && d.txs == l.txs && forall c :: c in cs ==> TakenBy(d, c, h)
  {
    if cs != [] {
      hide PoolSpends, TakenBy;
      var n := |cs| - 1;
      AllTaken(l, cs[..n], h);
      TakeOne(AllPoolSpends(l, cs[..n], h), cs[n], h);
      assert cs == cs[..n] + [cs[n]];
    }
  }

  /** The spender of an input of the pool's t is t, which has debits then. */
  lemma InputUnspent(l: Ledger, h: Hash, op: OutPoint)
    requires PoolOk(l.txs) && SpentUnconfOk(l.txs, l.spentUnconf) && PrevOutsOk(l.txs, l.prevOuts)
    requires SpentByOk(l.mined, l.spentOuts) && SpendersOk(l.mined, l.txs, l.spentOuts)
    requires h in l.txs && l.txs[h].debits.None? && op in l.txs[h].tx.inputs
    ensures op !in l.spentUnconf
    ensures forall p :: IsCredit(l.mined, p) && OpOf(l.mined, p) == op ==> SpentBy(l.mined, p) != Some(UNMINED)
  {
    assert l.prevOuts[op] == h;
    assert op in l.spentUnconf ==> Spender(l.txs, l.spentUnconf[op], op);
    forall p | IsCredit(l.mined, p) && OpOf(l.mined, p) == op ensures SpentBy(l.mined, p) != Some(UNMINED) {
      assert p in l.spentOuts ==> Spender(l.txs, l.spentOuts[p], op);
    }
  }

  lemma PoolDebitsNeed(l: Ledger, t: TxRef, cs: seq<CreditRef>)
    requires Linked(l) && LiveTx(l, t) && t.key == UNMINED && RecordAt(l, t).debits.None? && forall c :: c in cs ==>
               LiveCredit(l, c)
    requires FirstDebits(l, t, cs).Ok? && Linked(FirstDebits(l, t, cs).value)
    ensures AllCanSpend(l, cs, RecordAt(l, t).tx.inputs)
  {
    var ins := l.txs[t.hash].tx.inputs;
    var d := FirstDebits(l, t, cs).value;
    var m := MarkSpent(l, cs, t).value;
    MarkedWereFree(l, cs, t);
    AllTaken(SetDebits(m.ledger, t, Debits(m.amount, [])), cs, t.hash);
    forall c | c in cs ensures CanSpend(l, c, ins) {
      PoolDebitNeeds(l, t, c, d);
      InputUnspent(l, t.hash, c.Op());
    }
  }

  /** A recorded pool spend is an input. */
  lemma PoolDebitNeeds(l: Ledger, t: TxRef, c: CreditRef, d: Ledger)
    requires Linked(d) && LiveCredit(l, c) && t.hash in l.txs && t.hash in d.txs && d.txs[t.hash].tx == l.txs[t.hash].tx
    requires forall k :: k in l.mined ==> k in d.mined && d.mined[k].tx == l.mined[k].tx
    requires TakenBy(d, c, t.hash)
    ensures c.Op() in l.txs[t.hash].tx.inputs
    ensures c.Mined() ==> OpOf(l.mined, c.Key()) == c.Op()
  {
    hide MinedOk, PoolOk, HashesOk, UnspentSound, SpentByOk, SpendsOk, SpentOutsOk, SpentKeysOk, MarksOk, PrevOutsOk;
    if c.Mined() {
      assert Spender(d.txs, t.hash, OpOf(d.mined, c.Key()));
    } else {
      assert Spender(d.txs, t.hash, c.Op());
    }
  }

  /** A mined debit that keeps the links lists different, unspent mined inputs. */
  lemma MinedDebitsNeed(l: Ledger, t: TxRef, cs: seq<CreditRef>)
    requires Linked(l) && LiveTx(l, t) && t.key != UNMINED && RecordAt(l, t).debits.None? && forall c :: c in cs ==>
               LiveCredit(l, c)
    requires FirstDebits(l, t, cs).Ok? && Linked(FirstDebits(l, t, cs).value)
    ensures CanDebit(l, t, cs)
  {
    hide PoolOk, HashesOk, UnspentSound, SpentOutsOk, SpentKeysOk, SpendersOk, SpentUnconfOk, MarksOk, PrevOutsOk;
    var d := FirstDebits(l, t, cs).value;
    MarkedWereFree(l, cs, t);
    assert d.mined[t.key].debits == Some(Debits(MarkSpent(l, cs, t).value.amount, Keys(cs)));
    forall c | c in cs
      ensures c.Mined() && c.tx.key.height <= t.key.height && CanSpend(l, c, l.mined[t.key].tx.inputs)
    {
      MinedDebitNeeds(l, t, cs, c, d);
    }
    forall i, j | 0 <= i < j < |cs| ensures cs[i].Op() != cs[j].Op() {
      assert Keys(cs)[i] != Keys(cs)[j] && cs[i] in cs && cs[j] in cs;
      OneKey(l, cs[i], cs[j]);
    }
  }

  lemma OneKey(l: Ledger, a: CreditRef, b: CreditRef)
    requires Linked(l) && LiveCredit(l, a) && LiveCredit(l, b) && a.Mined() && b.Mined() && a.Key() != b.Key()
    ensures a.Op() != b.Op()
  {
  }

  lemma MinedDebitNeeds(l: Ledger, t: TxRef, cs: seq<CreditRef>, c: CreditRef, d: Ledger)
    requires MinedOk(d.mined, d.deltas.Keys) && SpendsOk(d.mined) && SpentByOk(l.mined, l.spentOuts)
    requires LiveTx(l, t) && t.key != UNMINED && l.mined[t.key].debits.None? && LiveCredit(l, c) && c in cs
    requires FreeFor(l.mined, c, t.key)
    requires t.key in d.mined && d.mined[t.key].debits.Some? && d.mined[t.key].debits.value.spends == Keys(cs)
    requires forall k :: k in l.mined ==> k in d.mined && d.mined[k].tx == l.mined[k].tx
    ensures c.Mined() && c.tx.key.height <= t.key.height && CanSpend(l, c, l.mined[t.key].tx.inputs)
  {
    var i :| 0 <= i < |cs| && cs[i] == c;
    assert Keys(cs)[i] == c.Key();
    assert Lists(d.mined, t.key, c.Key()) && SpendAt(d.mined, t.key, c.Key());
    assert SpentBy(l.mined, c.Key()) == Some(t.key) ==> Lists(l.mined, t.key, c.Key());
  }

  // ------------------------------------------------- credits given repeatedly

  /** cs without what was there before. */
  function Once(cs: seq<CreditRef>): (u: seq<CreditRef>)
    ensures forall c :: c in u <==> c in cs
  {
    if cs == [] then [] else
    var n := |cs| - 1;
    var u := Once(cs[..n]);
    assert cs == cs[..n] + [cs[n]];
    if cs[n] in u then u else u + [cs[n]]
  }

  /** Handles to the same output are the same. */
  ghost predicate Same(cs: seq<CreditRef>) {
    forall a, b :: a in cs && b in cs && a.Op() == b.Op() ==> a == b
  }

  lemma LiveSame(l: Ledger, cs: seq<CreditRef>)
    requires HashesOk(l.mined, l.txs) && forall c :: c in cs ==> LiveCredit(l, c)
    ensures Same(cs)
  {
    forall a, b | a in cs && b in cs && a.Op() == b.Op() ensures a == b {
      assert a.tx.hash == b.tx.hash && a.out == b.out;
      assert a.tx.key == b.tx.key;
    }
  }

  lemma {:induction false} OnceDistinct(cs: seq<CreditRef>)
    requires Same(cs)
    ensures Distinct(Once(cs))
  {
    if cs != [] {
      assert cs == cs[..|cs|-1] + [cs[|cs|-1]];
      OnceDistinct(cs[..|cs|-1]);
    }
  }

  /** h has c marked. */
  ghost predicate HasMarked(l: Ledger, c: CreditRef, t: TxRef) {
    if c.Mined() then IsCredit(l.mined, c.Key()) && SpentBy(l.mined, c.Key()) == Some(t.key)
    else c.Op() in l.spentUnconf && l.spentUnconf[c.Op()] == t.hash
  }

  lemma MarkAgain(l: Ledger, c: CreditRef, t: TxRef)
    requires HasMarked(l, c, t)
    ensures MarkOne(l, c, t) == Ok(Marked(l, 0))
  {
    if !c.Mined() { assert l.spentUnconf[c.Op() := t.hash] == l.spentUnconf; }
  }

  lemma MarkStays(l: Ledger, c: CreditRef, t: TxRef)
    requires MarkOne(l, c, t).Ok?
    ensures HasMarked(MarkOne(l, c, t).value.ledger, c, t)
    ensures forall o :: HasMarked(l, o, t) ==> HasMarked(MarkOne(l, c, t).value.ledger, o, t)
  {
    hide MarkOne, MarksOnly, Relink;
    var l' := MarkOne(l, c, t).value.ledger;
    MarkOneMarks(l, c, t);
    MarkedNow(l, c, t);
    forall o | HasMarked(l, o, t) ensures HasMarked(l', o, t) {
      if o.Mined() { SpenderStays(l.mined, l'.mined, t.key, o.Key()); }
    }
  }

  lemma SpenderStays(m: Mined, n: Mined, k: BlockTxKey, p: BlockOutputKey)
    requires MarksOnly(m, n, k) && IsCredit(m, p) && SpentBy(m, p) == Some(k)
    ensures IsCredit(n, p) && SpentBy(n, p) == Some(k)
  {
  }

  lemma MarkedNow(l: Ledger, c: CreditRef, t: TxRef)
    requires MarkOne(l, c, t).Ok?
    ensures var l' := MarkOne(l, c, t).value.ledger;
            && HasMarked(l', c, t) && (if c.Mined() then l'.spentUnconf == l.spentUnconf
              else l'.spentUnconf == l.spentUnconf[c.Op() := t.hash])
  {
    hide Relink;
    if c.Mined() && SpentBy(l.mined, c.Key()).None? { RelinkedNow(l.mined, c.Key(), t.key); }
  }

  lemma RelinkedNow(m: Mined, p: BlockOutputKey, k: BlockTxKey)
    requires IsCredit(m, p)
    ensures IsCredit(Relink(m, {p}, Some(k)), p) && SpentBy(Relink(m, {p}, Some(k)), p) == Some(k)
  {
    RelinkRelinks(m, {p}, Some(k));
  }

  lemma {:induction false} AllMarked(l: Ledger, cs: seq<CreditRef>, t: TxRef)
    requires MarkSpent(l, cs, t).Ok?
    ensures forall c :: c in cs ==> HasMarked(MarkSpent(l, cs, t).value.ledger, c, t)
  {
    if cs != [] {
      hide HasMarked, MarkOne;
      var n := |cs| - 1;
      assert cs == cs[..n] + [cs[n]];
      AllMarked(l, cs[..n], t);
      MarkStays(MarkSpent(l, cs[..n], t).value.ledger, cs[n], t);
    }
  }

  lemma MarkNext(l: Ledger, cs: seq<CreditRef>, u: seq<CreditRef>, c: CreditRef, t: TxRef)
    requires MarkSpent(l, u, t) == MarkSpent(l, cs, t)
    ensures MarkSpent(l, u + [c], t) == MarkSpent(l, cs + [c], t)
  {
    hide MarkOne;
    assert (cs + [c])[..|cs|] == cs && (u + [c])[..|u|] == u;
  }

  lemma MarkSkips(l: Ledger, cs: seq<CreditRef>, c: CreditRef, t: TxRef)
    requires c in cs
    ensures MarkSpent(l, cs + [c], t) == MarkSpent(l, cs, t)
  {
    assert (cs + [c])[..|cs|] == cs;
    if MarkSpent(l, cs, t).Ok? {
      AllMarked(l, cs, t);
      MarkAgain(MarkSpent(l, cs, t).value.ledger, c, t);
    }
    hide MarkOne, HasMarked;
  }

  /** Marking a credit again changes nothing and adds nothing. */
  lemma {:induction false} MarkOnce(l: Ledger, cs: seq<CreditRef>, t: TxRef)
    ensures MarkSpent(l, Once(cs), t) == MarkSpent(l, cs, t)
  {
    if cs != [] {
      hide MarkSpent;
      var n := |cs| - 1;
      assert cs == cs[..n] + [cs[n]];
      MarkOnce(l, cs[..n], t);
      if cs[n] in Once(cs[..n]) {
        MarkSkips(l, cs[..n], cs[n], t);
      } else {
        MarkNext(l, cs[..n], Once(cs[..n]), cs[n], t);
      }
    }
  }

  lemma {:induction false} PoolHasAll(l: Ledger, cs: seq<CreditRef>, h: Hash)
    requires Same(cs)
    ensures forall c :: c in cs ==> PoolHas(AllPoolSpends(l, cs, h), c, h)
  {
    if cs != [] {
      var n := |cs| - 1;
      assert cs == cs[..n] + [cs[n]];
      hide PoolSpends, PoolHas;
      PoolHasAll(l, cs[..n], h);
      var d := AllPoolSpends(l, cs[..n], h);
      forall c | c in cs ensures PoolHas(PoolSpends(d, cs[n], h), c, h) {
        if c != cs[n] { assert c.Op() != cs[n].Op(); }
        PoolHasOne(d, cs[n], c, h);
      }
    }
  }

  lemma PoolHasOne(d: Ledger, c: CreditRef, o: CreditRef, h: Hash)
    requires o == c || (PoolHas(d, o, h) && o.Op() != c.Op())
    ensures PoolHas(PoolSpends(d, c, h), o, h)
  {
    if o != c && o.Mined() && c.Mined() { assert o.Key() == c.Key() ==> d.spentOuts[c.Key() := h][o.Key()] == h; }
  }

  lemma {:induction false} SpendOnce(l: Ledger, cs: seq<CreditRef>, h: Hash)
    requires Same(cs)
    ensures AllPoolSpends(l, Once(cs), h) == AllPoolSpends(l, cs, h)
  {
    if cs != [] {
      var n := |cs| - 1;
      assert cs == cs[..n] + [cs[n]];
      hide PoolSpends, PoolHas;
      var u := Once(cs[..n]);
      SpendOnce(l, cs[..n], h);
      if cs[n] in u {
        PoolHasAll(l, cs[..n], h);
        FilledOne(AllPoolSpends(l, cs[..n], h), cs[n], h);
      } else {
        assert (u + [cs[n]])[..|u|] == u;
      }
    }
  }

  lemma FilledOne(d: Ledger, c: CreditRef, h: Hash)
    requires PoolHas(d, c, h)
    ensures PoolSpends(d, c, h) == d
  {
    if c.Mined() {
      assert d.spentOuts[c.Key() := h] == d.spentOuts && d.spentKeys[c.Op() := c.Key()] == d.spentKeys;
    } else {
      assert d.spentUnconf[c.Op() := h] == d.spentUnconf;
    }
  }

  /** An unconfirmed transaction may be given a credit twice. */
  lemma PoolDebitsOnce(l: Ledger, t: TxRef, cs: seq<CreditRef>)
    requires LiveTx(l, t) && t.key == UNMINED && Same(cs)
    ensures FirstDebits(l, t, cs) == FirstDebits(l, t, Once(cs))
  {
    hide MarkSpent, AllPoolSpends;
    MarkOnce(l, cs, t);
    if MarkSpent(l, cs, t).Ok? {
      var m := MarkSpent(l, cs, t).value;
      SpendOnce(SetDebits(m.ledger, t, Debits(m.amount, [])), cs, t.hash);
    }
  }

  /** The credits cs are unspent inputs of t's transaction; if it is mined, they
      are pairwise different and mined no higher than it, and it is no
      coinbase. */
  ghost predicate Debitable(l: Ledger, t: TxRef, cs: seq<CreditRef>)
    requires LiveTx(l, t)
  {
    && AllCanSpend(l, cs, RecordAt(l, t).tx.inputs)
    && (t.key != UNMINED ==> Distinct(cs) && t.key.index != 0 && forall c :: c in cs ==>
          c.Mined() && c.tx.key.height <= t.key.height)
  }

  /** Recording the first debits of a transaction against live credits succeeds
      and keeps every link exactly when they can be its debits. */
  lemma FirstDebitsIff(l: Ledger, t: TxRef, cs: seq<CreditRef>)
    requires Linked(l) && LiveTx(l, t) && RecordAt(l, t).debits.None? && forall c :: c in cs ==> LiveCredit(l, c)
    ensures FirstDebits(l, t, cs).Ok? && Linked(FirstDebits(l, t, cs).value) <==> Debitable(l, t, cs)
  {
    LiveSame(l, cs);
    OnceDistinct(cs);
    hide Linked, FirstDebits, LiveCredit, CanSpend, Same, Distinct;
    if t.key == UNMINED {
      PoolDebitsOnce(l, t, cs);
      if Debitable(l, t, cs) {
        FirstDebitsKeepLinks(l, t, Once(cs));
      } else if FirstDebits(l, t, cs).Ok? && Linked(FirstDebits(l, t, cs).value) {
        PoolDebitsNeed(l, t, cs);
      }
    } else {
      if Debitable(l, t, cs) {
        FirstDebitsKeepLinks(l, t, cs);
      } else if FirstDebits(l, t, cs).Ok? && Linked(FirstDebits(l, t, cs).value) {
        MinedDebitsNeed(l, t, cs);
      }
    }
  }
}
