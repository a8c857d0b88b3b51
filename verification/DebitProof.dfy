/** Recording debits keeps the ledger consistent. */
module DebitProof {
  import opened TxTypes
  import opened Ledgers
  import opened LedgerInv
  import opened LedgerOps

  // --------------------------- one more mined credit gets a spender, map by map

  /** The mined record k lists p as one more output it spends. */
  function ListSpend(m: Mined, k: BlockTxKey, p: BlockOutputKey, amount: int): Mined
    requires k in m && m[k].debits.Some?
  {
    m[k := m[k].(debits := Some(Debits(m[k].debits.value.amount + amount, m[k].debits.value.spends + [p])))]
  }

  lemma RelinkKeepsRecords(m: Mined, n: Mined, ps: set<BlockOutputKey>, who: Option<BlockTxKey>, heights: set<int>,
      txs: Pool)
    requires MinedOk(m, heights) && HashesOk(m, txs) && Relinks(m, n, ps, who) && n.Keys == m.Keys
    ensures MinedOk(n, heights) && HashesOk(n, txs)
  {
  }

  /** n has the outputs of m, with p now spent. */
  ghost predicate NowSpent(m: Mined, n: Mined, p: BlockOutputKey) {
    && n.Keys == m.Keys && (forall k :: k in m ==> n[k].tx == m[k].tx)
    && (forall q :: IsCredit(n, q) <==> IsCredit(m, q))
    && (forall q :: IsCredit(m, q) && q != p ==> IsCredit(n, q) && SpentBy(n, q) == SpentBy(m, q))
    && IsCredit(m, p) && IsCredit(n, p) && SpentBy(n, p).Some?
  }

  lemma SpendKeepsUnspent(m: Mined, n: Mined, p: BlockOutputKey, unspent: map<OutPoint, BlockTxKey>, txs: Pool)
    requires UnspentSound(m, unspent) && HashesOk(m, txs) && NowSpent(m, n, p)
    ensures UnspentSound(n, unspent - {OpOf(m, p)})
    ensures UnspentComplete(m, unspent) ==> UnspentComplete(n, unspent - {OpOf(m, p)})
  {
    var u := unspent - {OpOf(m, p)};
    forall op | op in u ensures UnspentAt(n, BlockOutputKey(u[op], op.index), op) {
      assert UnspentAt(m, BlockOutputKey(unspent[op], op.index), op);
    }
    if UnspentComplete(m, unspent) {
      forall q | IsCredit(n, q) && SpentBy(n, q) == None ensures OpOf(n, q) in u {
        assert IsCredit(m, q) && OpOf(m, q) in unspent;
      }
    }
  }

  lemma PoolSpendKeepsLinks(m: Mined, n: Mined, p: BlockOutputKey, h: Hash, outs: map<BlockOutputKey, Hash>)
    requires SpentByOk(m, outs) && SpendsOk(m)
    requires Relinks(m, n, {p}, Some(UNMINED)) && n.Keys == m.Keys && IsCredit(m, p) && SpentBy(m, p) == None
    ensures SpentByOk(n, outs[p := h]) && SpendsOk(n)
  {
    forall q | IsCredit(n, q) && SpentBy(n, q).Some?
      ensures if SpentBy(n, q).value == UNMINED then q in outs[p := h] else Lists(n, SpentBy(n, q).value, q)
    {
      if q != p && SpentBy(n, q).value != UNMINED { assert Lists(m, SpentBy(m, q).value, q); }
    }
    forall k, q | Lists(n, k, q) ensures SpendAt(n, k, q) {
      assert Lists(m, k, q) && SpendAt(m, k, q);
    }
  }

  lemma PoolSpendKeepsIndex(m: Mined, n: Mined, p: BlockOutputKey, h: Hash, txs: Pool,
                            outs: map<BlockOutputKey, Hash>, keys: map<OutPoint, BlockOutputKey>)
    requires SpentOutsOk(m, outs, keys) && SpentKeysOk(m, outs, keys) && HashesOk(m, txs)
    requires Relinks(m, n, {p}, Some(UNMINED)) && n.Keys == m.Keys && IsCredit(m, p) && SpentBy(m, p) == None
    ensures SpentOutsOk(n, outs[p := h], keys[OpOf(m, p) := p]) && SpentKeysOk(n, outs[p := h], keys[OpOf(m, p) := p])
  {
    assert OpOf(m, p) !in keys;
  }

  lemma PoolSpendKeepsSpenders(m: Mined, n: Mined, p: BlockOutputKey, h: Hash, txs: Pool,
      outs: map<BlockOutputKey, Hash>)
    requires SpendersOk(m, txs, outs)
    requires Relinks(m, n, {p}, Some(UNMINED)) && n.Keys == m.Keys && IsCredit(m, p)
    requires Spender(txs, h, OpOf(m, p))
    ensures SpendersOk(n, txs, outs[p := h])
  {
    forall q | q in outs[p := h] ensures q.tx in n && Spender(txs, outs[p := h][q], OpOf(n, q)) {
      if q != p { assert Spender(txs, outs[q], OpOf(m, q)); }
    }
  }

  /** The spend of p by the mined record k, both links at once. */
  ghost predicate AddsSpend(m: Mined, n: Mined, p: BlockOutputKey, k: BlockTxKey) {
    && n.Keys == m.Keys && k in m && m[k].debits.Some? && n[k].debits.Some?
    && n[k].debits.value.spends == m[k].debits.value.spends + [p]
    && (forall j :: j in m ==> n[j].tx == m[j].tx && n[j].index == m[j].index && |n[j].credits| == |m[j].credits|)
    && (forall j :: j in m && j != k ==> n[j].debits == m[j].debits)
    && (forall q :: IsCredit(n, q) <==> IsCredit(m, q))
    && (forall q :: IsCredit(m, q) ==> IsCredit(n, q) && SpentBy(n, q) == if q == p then Some(k) else SpentBy(m, q))
  }

  lemma ListSpendSpends(m: Mined, p: BlockOutputKey, k: BlockTxKey, amount: int)
    requires k in m && m[k].debits.Some?
    ensures AddsSpend(m, ListSpend(Relink(m, {p}, Some(k)), k, p, amount), p, k)
  {
    var a := Relink(m, {p}, Some(k));
    RelinkRelinks(m, {p}, Some(k));
    var b := ListSpend(a, k, p, amount);
    forall q ensures IsCredit(b, q) <==> IsCredit(a, q) { assert q.tx in a ==> b[q.tx].credits == a[q.tx].credits; }
    forall q | IsCredit(m, q) ensures SpentBy(b, q) == SpentBy(a, q) { assert b[q.tx].credits == a[q.tx].credits; }
  }

  lemma MinedSpendKeepsLinks(m: Mined, n: Mined, p: BlockOutputKey, k: BlockTxKey, outs: map<BlockOutputKey, Hash>)
    requires SpentByOk(m, outs) && SpendsOk(m)
    requires AddsSpend(m, n, p, k) && IsCredit(m, p) && SpentBy(m, p) == None && p.tx.height <= k.height && k != UNMINED
    requires OpOf(m, p) in m[k].tx.inputs
    ensures SpentByOk(n, outs) && SpendsOk(n)
  {
    assert !Lists(m, k, p);
    forall q | IsCredit(n, q) && SpentBy(n, q).Some?
      ensures if SpentBy(n, q).value == UNMINED then q in outs else Lists(n, SpentBy(n, q).value, q)
    {
      if q != p && SpentBy(n, q).value != UNMINED { assert Lists(m, SpentBy(m, q).value, q); }
    }
    forall j, q | Lists(n, j, q) ensures SpendAt(n, j, q) {
      if !(j == k && q == p) { assert Lists(m, j, q) && SpendAt(m, j, q); }
    }
  }

  lemma MinedSpendKeepsPool(m: Mined, n: Mined, p: BlockOutputKey, k: BlockTxKey, heights: set<int>, txs: Pool,
                            outs: map<BlockOutputKey, Hash>, keys: map<OutPoint, BlockOutputKey>)
    requires MinedOk(m, heights) && HashesOk(m, txs)
    requires SpentOutsOk(m, outs, keys) && SpentKeysOk(m, outs, keys) && SpendersOk(m, txs, outs)
    requires AddsSpend(m, n, p, k) && IsCredit(m, p) && SpentBy(m, p) == None && k.index != 0
    ensures MinedOk(n, heights) && HashesOk(n, txs)
    ensures SpentOutsOk(n, outs, keys) && SpentKeysOk(n, outs, keys) && SpendersOk(n, txs, outs)
  {
    forall q | q in outs ensures q.tx in n && Spender(txs, outs[q], OpOf(n, q)) {
      assert Spender(txs, outs[q], OpOf(m, q));
    }
  }

  // --------------------------------------------------- the spend of one credit

  /** c is a live credit that nothing spends, among the inputs ins. */
  ghost predicate CanSpend(l: Ledger, c: CreditRef, ins: seq<OutPoint>) {
    && LiveCredit(l, c) && c.Op() in ins
    && if c.Mined() then SpentBy(l.mined, c.Key()) == None else c.Op() !in l.spentUnconf
  }

  function AddToDebits(txs: Pool, h: Hash, amount: int): Pool
    requires h in txs && txs[h].debits.Some?
  {
    var d := txs[h].debits.value;
    txs[h := txs[h].(debits := Some(d.(amount := d.amount + amount)))]
  }

  /** The unconfirmed transaction h, which has debits, spends one more credit. */
  function PoolStep(l: Ledger, c: CreditRef, h: Hash): Ledger
    requires h in l.txs && l.txs[h].debits.Some? && (c.Mined() ==> c.tx.key in l.mined)
  {
    if c.Mined() then
      PoolSpends(l.(mined := Relink(l.mined, {c.Key()}, Some(UNMINED)), unspent := l.unspent - {c.Op()},
                    txs := AddToDebits(l.txs, h, OutValue(l.mined[c.tx.key], c.out))), c, h)
    else PoolSpends(l, c, h)
  }

  lemma HashKeeps(m: Mined, txs: Pool, h: Hash, r: TxRecord)
    requires HashesOk(m, txs) && h in txs
    ensures HashesOk(m, txs[h := r])
  {
  }

  lemma TouchDebits(m: Mined, txs: Pool, outs: map<BlockOutputKey, Hash>, su: map<OutPoint, Hash>,
      prev: map<OutPoint, Hash>,
                    h: Hash, r: TxRecord)
    requires PoolOk(txs) && HashesOk(m, txs) && SpendersOk(m, txs, outs) && SpentUnconfOk(txs, su) && MarksOk(txs, su)
    requires PrevOutsOk(txs, prev)
    requires h in txs && r == txs[h].(debits := r.debits) && r.debits.Some? && r.debits.value.spends == []
    ensures var n := txs[h := r];
            PoolOk(n) && HashesOk(m, n) && SpendersOk(m, n, outs) && SpentUnconfOk(n, su) && MarksOk(n, su)
            && PrevOutsOk(n, prev)
  {
    HashKeeps(m, txs, h, r);
    PoolKeeps(txs, su, prev, h, r);
    SpendersKeep(m, txs, outs, h, r);
    hide PoolOk, HashesOk, SpendersOk, SpentUnconfOk, MarksOk, PrevOutsOk;
  }

  lemma PoolKeeps(txs: Pool, su: map<OutPoint, Hash>, prev: map<OutPoint, Hash>, h: Hash, r: TxRecord)
    requires PoolOk(txs) && SpentUnconfOk(txs, su) && MarksOk(txs, su) && PrevOutsOk(txs, prev)
    requires h in txs && r == txs[h].(debits := r.debits) && r.debits.Some? && r.debits.value.spends == []
    ensures PoolOk(txs[h := r]) && SpentUnconfOk(txs[h := r], su) && MarksOk(txs[h := r], su)
    ensures PrevOutsOk(txs[h := r], prev)
  {
    forall op | op in su ensures Spender(txs[h := r], su[op], op) { assert Spender(txs, su[op], op); }
  }

  lemma SpendersKeep(m: Mined, txs: Pool, outs: map<BlockOutputKey, Hash>, h: Hash, r: TxRecord)
    requires SpendersOk(m, txs, outs) && h in txs && r == txs[h].(debits := r.debits) && r.debits.Some?
    ensures SpendersOk(m, txs[h := r], outs)
  {
    forall p | p in outs ensures Spender(txs[h := r], outs[p], OpOf(m, p)) { assert Spender(txs, outs[p], OpOf(m, p)); }
  }

  lemma PoolStepUnconfKeeps(l: Ledger, c: CreditRef, h: Hash)
    requires Linked(l) && h in l.txs && l.txs[h].debits.Some? && CanSpend(l, c, l.txs[h].tx.inputs) && !c.Mined()
    ensures Linked(PoolStep(l, c, h))
  {
    var su := l.spentUnconf[c.Op() := h];
    forall op | op in su ensures op.hash in l.txs && HasCredit(l.txs[op.hash], op.index) && Spender(l.txs, su[op], op) {
      if op != c.Op() { assert Spender(l.txs, l.spentUnconf[op], op); }
    }
  }

  lemma PoolStepRecords(l: Ledger, c: CreditRef, h: Hash)
    requires Linked(l) && h in l.txs && l.txs[h].debits.Some? && CanSpend(l, c, l.txs[h].tx.inputs) && c.Mined()
    ensures var l' := PoolStep(l, c, h);
            && MinedOk(l'.mined, l'.deltas.Keys) && HashesOk(l'.mined, l'.txs) && UnspentSound(l'.mined, l'.unspent)
            && (UnspentComplete(l.mined, l.unspent) ==> UnspentComplete(l'.mined, l'.unspent))
  {
    hide PoolOk, SpentByOk, SpendsOk, SpentOutsOk, SpentKeysOk, SpendersOk, SpentUnconfOk, MarksOk, PrevOutsOk;
    var p := c.Key();
    var n := Relink(l.mined, {p}, Some(UNMINED));
    assert n.Keys == l.mined.Keys;
    RelinkRelinks(l.mined, {p}, Some(UNMINED));
    hide Relink;
    RelinkKeepsRecords(l.mined, n, {p}, Some(UNMINED), l.deltas.Keys, PoolStep(l, c, h).txs);
    SpendKeepsUnspent(l.mined, n, p, l.unspent, l.txs);
  }

  lemma PoolStepLinks(l: Ledger, c: CreditRef, h: Hash)
    requires Linked(l) && h in l.txs && l.txs[h].debits.Some? && CanSpend(l, c, l.txs[h].tx.inputs) && c.Mined()
    ensures var l' := PoolStep(l, c, h);
            && SpentByOk(l'.mined, l'.spentOuts) && SpendsOk(l'.mined)
            && SpentOutsOk(l'.mined, l'.spentOuts, l'.spentKeys) && SpentKeysOk(l'.mined, l'.spentOuts, l'.spentKeys)
  {
    var p := c.Key();
    var n := Relink(l.mined, {p}, Some(UNMINED));
    RelinkRelinks(l.mined, {p}, Some(UNMINED));
    PoolSpendKeepsLinks(l.mined, n, p, h, l.spentOuts);
    PoolSpendKeepsIndex(l.mined, n, p, h, l.txs, l.spentOuts, l.spentKeys);
  }

  lemma PoolStepPool(l: Ledger, c: CreditRef, h: Hash)
    requires Linked(l) && h in l.txs && l.txs[h].debits.Some? && CanSpend(l, c, l.txs[h].tx.inputs) && c.Mined()
    ensures var l' := PoolStep(l, c, h);
            && PoolOk(l'.txs) && SpendersOk(l'.mined, l'.txs, l'.spentOuts)
            && SpentUnconfOk(l'.txs, l'.spentUnconf) && MarksOk(l'.txs, l'.spentUnconf)
            && PrevOutsOk(l'.txs, l'.prevOuts)
  {
    var p := c.Key();
    var n := Relink(l.mined, {p}, Some(UNMINED));
    RelinkRelinks(l.mined, {p}, Some(UNMINED));
    var txs := PoolStep(l, c, h).txs;
    TouchDebits(l.mined, l.txs, l.spentOuts, l.spentUnconf, l.prevOuts, h, txs[h]);
    PoolSpendKeepsSpenders(l.mined, n, p, h, txs, l.spentOuts);
  }

  lemma PoolStepKeeps(l: Ledger, c: CreditRef, h: Hash)
    requires Linked(l) && h in l.txs && l.txs[h].debits.Some? && CanSpend(l, c, l.txs[h].tx.inputs)
    ensures var l' := PoolStep(l, c, h);
            Linked(l') && (UnspentComplete(l.mined, l.unspent) ==> UnspentComplete(l'.mined, l'.unspent))
  {
    if c.Mined() {
      PoolStepRecords(l, c, h);
      PoolStepLinks(l, c, h);
      PoolStepPool(l, c, h);
    } else {
      PoolStepUnconfKeeps(l, c, h);
    }
  }

  /** The mined transaction k, which has debits, spends one more mined credit. */
  function MinedStep(l: Ledger, c: CreditRef, k: BlockTxKey): Ledger
    requires k in l.mined && l.mined[k].debits.Some? && c.tx.key in l.mined
  {
    var v := OutValue(l.mined[c.tx.key], c.out);
    l.(mined := ListSpend(Relink(l.mined, {c.Key()}, Some(k)), k, c.Key(), v),
       unspent := l.unspent - {c.Op()},
       deltas := Charge(l.deltas, k.height, v))
  }

  ghost predicate CanStepMined(l: Ledger, c: CreditRef, k: BlockTxKey) {
    && k in l.mined && l.mined[k].debits.Some? && k.index != 0
    && CanSpend(l, c, l.mined[k].tx.inputs) && c.Mined() && c.tx.key.height <= k.height
  }

  lemma MinedStepRecords(l: Ledger, c: CreditRef, k: BlockTxKey)
    requires Linked(l) && CanStepMined(l, c, k)
    ensures var l' := MinedStep(l, c, k);
            && UnspentSound(l'.mined, l'.unspent)
            && (UnspentComplete(l.mined, l.unspent) ==> UnspentComplete(l'.mined, l'.unspent))
            && SpentByOk(l'.mined, l'.spentOuts) && SpendsOk(l'.mined)
  {
    var p := c.Key();
    var n := MinedStep(l, c, k).mined;
    ListSpendSpends(l.mined, p, k, OutValue(l.mined[c.tx.key], c.out));
    SpendKeepsUnspent(l.mined, n, p, l.unspent, l.txs);
    MinedSpendKeepsLinks(l.mined, n, p, k, l.spentOuts);
  }

  lemma MinedStepKeeps(l: Ledger, c: CreditRef, k: BlockTxKey)
    requires Linked(l) && CanStepMined(l, c, k)
    ensures var l' := MinedStep(l, c, k);
            Linked(l') && (UnspentComplete(l.mined, l.unspent) ==> UnspentComplete(l'.mined, l'.unspent))
  {
    MinedStepRecords(l, c, k);
    var v := OutValue(l.mined[c.tx.key], c.out);
    ListSpendSpends(l.mined, c.Key(), k, v);
    MinedSpendKeepsPool(l.mined, MinedStep(l, c, k).mined, c.Key(), k, l.deltas.Keys, l.txs, l.spentOuts, l.spentKeys);
    assert Charge(l.deltas, k.height, v).Keys == l.deltas.Keys;
  }
}
