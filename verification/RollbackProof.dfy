/** Rolling back any number of blocks. */
module RollbackProof {
  import opened TxTypes
  import opened Ledgers
  import opened LedgerInv
  import opened Rollbacks
  import opened ReturnProof
  import opened ReturnLinks

  /** No transaction of a detached block spends an output of a detached block. */
  ghost predicate NoInnerSpend(m: Mined, height: int) {
    forall k, p :: k in m && height <= k.height && k.index != 0 && p in Spends(m[k]) ==> p.tx.height < height
  }

  /** Detached coinbases carry no credits. */
  ghost predicate NoCoinbaseCredit(m: Mined, height: int) {
    forall k, i: nat :: k in m && height <= k.height && k.index == 0 ==> !HasCredit(m[k], i)
  }

  ghost predicate DetachedTx(m: Mined, height: int, k: BlockTxKey) {
    k in m && height <= k.height && k.index != 0
  }

  /** A detached transaction shares no input with another detached transaction
      or with the pool. */
  ghost predicate InputsApart(l: Ledger, height: int) {
    && (forall k, op :: DetachedTx(l.mined, height, k) && op in l.mined[k].tx.inputs ==> op !in l.prevOuts)
    && (forall j, k, op ::
          DetachedTx(l.mined, height, j) && DetachedTx(l.mined, height, k) && j != k && op in l.mined[j].tx.inputs ==>
          op !in l.mined[k].tx.inputs)
  }

  // ------------------------------------------- failure, exactly characterised

  lemma ReturnCreditMined(l: Ledger, key: BlockTxKey, r: TxRecord, i: nat)
    ensures ReturnCredit(l, key, r, i).Ok? ==> ReturnCredit(l, key, r, i).value.mined.Keys == l.mined.Keys
  {
  }

  lemma {:induction false} ReturnCreditsMined(l: Ledger, key: BlockTxKey, r: TxRecord, n: nat)
    requires n <= |r.credits|
    ensures ReturnCredits(l, key, r, n).Ok? ==> ReturnCredits(l, key, r, n).value.mined.Keys == l.mined.Keys
  {
    if n > 0 {
      ReturnCreditsMined(l, key, r, n - 1);
      if ReturnCredits(l, key, r, n - 1).Ok? {
        ReturnCreditMined(ReturnCredits(l, key, r, n - 1).value, key, r, n - 1);
      }
      hide ReturnCredit;
    }
  }

  /** Returning debits succeeds only if every spent output is still mined. */
  lemma {:induction false} ReturnDebitsMined(l: Ledger, h: Hash, ps: seq<BlockOutputKey>)
    ensures ReturnDebits(l, h, ps).Ok? ==> ReturnDebits(l, h, ps).value.mined.Keys == l.mined.Keys
    ensures ReturnDebits(l, h, ps).Ok? ==> forall p :: p in ps ==> p.tx in l.mined
  {
    if ps != [] {
      ReturnDebitsMined(l, h, ps[..|ps|-1]);
      assert ps == ps[..|ps|-1] + [ps[|ps|-1]];
    }
  }

  lemma ReturnTxMined(l: Ledger, key: BlockTxKey, r: TxRecord)
    requires ReturnTx(l, key, r).Ok?
    ensures ReturnTx(l, key, r).value.mined.Keys == l.mined.Keys
    ensures forall p :: p in Spends(r) ==> p.tx in l.mined
  {
    var h := r.tx.hash;
    var l0 := Parked(l, r);
    ReturnCreditsMined(l0, key, r, |r.credits|);
    ReturnDebitsMined(ReturnCredits(l0, key, r, |r.credits|).value, h, Spends(r));
    hide ReturnCredits, ReturnDebits;
  }

  /** A successful rollback found every spent output below the cut. */
  lemma {:induction false} ReturnAllNeeds(l: Ledger, from: Mined, order: seq<BlockTxKey>)
    requires (forall k :: k in order ==> k in from) && ReturnAll(l, from, order).Ok?
    ensures ReturnAll(l, from, order).value.mined.Keys == l.mined.Keys
    ensures forall k, p :: k in order && k.index != 0 && p in Spends(from[k]) ==> p.tx in l.mined
  {
    if order != [] {
      var n := |order| - 1;
      assert order == order[..n] + [order[n]];
      ReturnAllNeeds(l, from, order[..n]);
      var l' := ReturnAll(l, from, order[..n]).value;
      if order[n].index != 0 { ReturnTxMined(l', order[n], from[order[n]]); }
      hide ReturnTx;
    }
  }

  lemma RollbackNeeds(l: Ledger, height: int, order: seq<BlockTxKey>)
    requires Detached(l.mined, height, order) && Rollback(l, height, order).Ok?
    ensures NoInnerSpend(l.mined, height)
  {
    ReturnAllNeeds(Truncate(l, height), l.mined, order);
    hide ReturnAll;
  }

  // ------------------------------------------------- success, and what it keeps

  /** The detached records that order does not list. */
  function Pending(m: Mined, height: int, order: seq<BlockTxKey>): Mined {
    map k | k in m && height <= k.height && k !in order :: m[k]
  }

  /** A half-rolled-back ledger t with the records still to come put back. */
  function Joined(t: Ledger, pending: Mined, deltas: map<int, Amounts>): Ledger {
    t.(mined := t.mined + pending, deltas := deltas)
  }

  ghost predicate Below(m: Mined, height: int) {
    forall k :: k in m ==> k.height < height
  }

  lemma RelinkBelow(m: Mined, pending: Mined, ps: set<BlockOutputKey>, height: int)
    requires Below(m, height) && (forall k :: k in pending ==> height <= k.height) && forall p: BlockOutputKey ::
               p in ps ==> p.tx.height < height
    ensures Relink(m + pending, ps, Some(UNMINED)) == Relink(m, ps, Some(UNMINED)) + pending
  {
    var a, b := Relink(m + pending, ps, Some(UNMINED)), Relink(m, ps, Some(UNMINED)) + pending;
    forall k | k in m + pending ensures a[k] == b[k] {
      assert a[k].credits == b[k].credits;
    }
  }

  lemma {:induction false} KeysOfSame(m: Mined, n: Mined, ps: seq<BlockOutputKey>)
    requires AllCredits(m, ps) && AllCredits(n, ps) && forall p: BlockOutputKey :: p in ps && p.tx in m && p.tx in n ==>
               m[p.tx].tx == n[p.tx].tx
    ensures KeysOf(m, ps) == KeysOf(n, ps)
  {
    if ps != [] {
      KeysOfSame(m, n, ps[..|ps|-1]);
      assert IsCredit(m, ps[|ps|-1]) && IsCredit(n, ps[|ps|-1]);
    }
  }

  /** Returning k on the cut ledger is unmining it on the joined one. */
  lemma ReturnIsUnmine(t: Ledger, pending: Mined, deltas: map<int, Amounts>, k: BlockTxKey, height: int)
    requires Below(t.mined, height) && (forall j :: j in pending ==> height <= j.height) && k in pending
    requires AllCredits(t.mined, Spends(pending[k]))
    ensures var v := Joined(t, pending, deltas); var r := pending[k];
            && AllCredits(v.mined - {k}, Spends(r))
            && Unmine(v, k) == Joined(Returned(t, k, r), pending - {k}, deltas)
  {
    var v, r := Joined(t, pending, deltas), pending[k];
    var m := v.mined - {k};
    assert m == t.mined + (pending - {k});
    forall p | p in Spends(r) ensures IsCredit(m, p) && p.tx.height < height {
      assert IsCredit(t.mined, p);
    }
    RelinkBelow(t.mined, pending - {k}, KeySet(Spends(r)), height);
    KeysOfSame(t.mined, m, Spends(r));
    hide Relink, KeysOf;
  }

  /** t is what a consistent l becomes once the records of order are returned. */
  ghost predicate Halfway(l: Ledger, height: int, order: seq<BlockTxKey>, t: Ledger) {
    var v := Joined(t, Pending(l.mined, height, order), l.deltas);
    && Below(t.mined, height) && t.deltas == Truncate(l, height).deltas
    && Linked(v) && (UnspentComplete(l.mined, l.unspent) ==> UnspentComplete(v.mined, v.unspent))
    && Apart(Pending(l.mined, height, order), t.prevOuts)
  }

  ghost predicate Apart(pending: Mined, prev: map<OutPoint, Hash>) {
    forall k, op :: k in pending && k.index != 0 && op in pending[k].tx.inputs ==> op !in prev
  }

  lemma HalfwayStart(l: Ledger, height: int)
    requires Linked(l) && InputsApart(l, height)
    ensures Halfway(l, height, [], Truncate(l, height))
  {
    hide Linked, UnspentComplete;
    var t, pending := Truncate(l, height), Pending(l.mined, height, []);
    assert t.mined + pending == l.mined;
    assert Joined(t, pending, l.deltas) == l;
    forall k, op | k in pending && k.index != 0 && op in pending[k].tx.inputs ensures op !in l.prevOuts {
      assert DetachedTx(l.mined, height, k);
    }
  }

  lemma PendingNext(m: Mined, height: int, order: seq<BlockTxKey>, k: BlockTxKey)
    ensures Pending(m, height, order + [k]) == Pending(m, height, order) - {k}
  {
  }

  lemma BareRecordGoes(m: Mined, k: BlockTxKey, heights: set<int>, txs: Pool, outs: map<BlockOutputKey, Hash>,
                       keys: map<OutPoint, BlockOutputKey>)
    requires MinedOk(m, heights) && HashesOk(m, txs) && SpentByOk(m, outs) && SpendsOk(m)
    requires SpentOutsOk(m, outs, keys) && SpentKeysOk(m, outs, keys)
    requires k in m && m[k].debits.None? && forall i: nat :: !HasCredit(m[k], i)
    ensures var n := m - {k};
            MinedOk(n, heights) && HashesOk(n, txs) && SpentByOk(n, outs) && SpendsOk(n) && SpentOutsOk(n, outs, keys)
            && SpentKeysOk(n, outs, keys)
  {
    var n := m - {k};
    assert forall p :: IsCredit(n, p) <==> IsCredit(m, p);
    assert forall p :: IsCredit(m, p) ==> SpentBy(n, p) == SpentBy(m, p);
    assert forall j, p :: Lists(n, j, p) <==> Lists(m, j, p);
    forall j, p | Lists(n, j, p) ensures SpendAt(n, j, p) { assert SpendAt(m, j, p); }
  }

  lemma BareRecordUnspent(m: Mined, k: BlockTxKey, txs: Pool, outs: map<BlockOutputKey, Hash>,
      unspent: map<OutPoint, BlockTxKey>)
    requires UnspentSound(m, unspent) && SpendersOk(m, txs, outs) && (forall p :: p in outs ==> IsCredit(m, p))
    requires k in m && forall i: nat :: !HasCredit(m[k], i)
    ensures UnspentSound(m - {k}, unspent) && SpendersOk(m - {k}, txs, outs)
    ensures UnspentComplete(m, unspent) ==> UnspentComplete(m - {k}, unspent)
  {
    var n := m - {k};
    assert forall p :: IsCredit(n, p) <==> IsCredit(m, p);
    forall op | op in unspent ensures UnspentAt(n, BlockOutputKey(unspent[op], op.index), op) {
      assert UnspentAt(m, BlockOutputKey(unspent[op], op.index), op);
    }
    forall p | p in outs ensures p.tx in n && Spender(txs, outs[p], OpOf(n, p)) {
      assert Spender(txs, outs[p], OpOf(m, p));
    }
  }

  lemma BareLeaves(l: Ledger, k: BlockTxKey)
    requires Linked(l) && k in l.mined && l.mined[k].debits.None? && forall i: nat :: !HasCredit(l.mined[k], i)
    ensures Linked(l.(mined := l.mined - {k}))
    ensures UnspentComplete(l.mined, l.unspent) ==> UnspentComplete(l.mined - {k}, l.unspent)
  {
    BareRecordGoes(l.mined, k, l.deltas.Keys, l.txs, l.spentOuts, l.spentKeys);
    BareRecordUnspent(l.mined, k, l.txs, l.spentOuts, l.unspent);
  }

  lemma HalfwayCoinbase(l: Ledger, height: int, order: seq<BlockTxKey>, t: Ledger, k: BlockTxKey)
    requires Halfway(l, height, order, t) && k in Pending(l.mined, height, order) && k.index == 0
    requires l.mined[k].debits.None? && forall i: nat :: !HasCredit(l.mined[k], i)
    ensures Halfway(l, height, order + [k], t)
  {
    hide Linked, UnspentComplete;
    var pending := Pending(l.mined, height, order);
    var v := Joined(t, pending, l.deltas);
    assert k in v.mined && v.mined[k] == l.mined[k] && height <= k.height;
    PendingNext(l.mined, height, order, k);
    hide Pending;
    assert v.mined - {k} == t.mined + (pending - {k});
    BareLeaves(v, k);
  }

  lemma PendingFree(v: Ledger, pending: Mined, l: Ledger, height: int, k: BlockTxKey)
    requires MinedOk(v.mined, v.deltas.Keys) && SpentByOk(v.mined, v.spentOuts) && SpendsOk(v.mined)
    requires NoInnerSpend(l.mined, height)
    requires forall j :: j in v.mined && height <= j.height ==> j in l.mined && v.mined[j] == l.mined[j]
    requires k in v.mined && height <= k.height
    ensures FreeOfMined(v.mined, k)
  {
    forall p: BlockOutputKey | p.tx == k && IsCredit(v.mined, p) && SpentBy(v.mined, p).Some?
      ensures SpentBy(v.mined, p).value == UNMINED
    {
      var j := SpentBy(v.mined, p).value;
      assert j != UNMINED ==> Lists(v.mined, j, p) && SpendAt(v.mined, j, p) && p in Spends(l.mined[j]);
    }
  }

  lemma CreditsBelow(t: Mined, pending: Mined, ps: seq<BlockOutputKey>, k: BlockTxKey, height: int)
    requires SpendsOk(t + pending) && (forall p :: p in ps ==> Lists(t + pending, k, p) && p.tx.height < height)
    requires forall j :: j in pending ==> height <= j.height
    ensures AllCredits(t, ps)
  {
    forall p | p in ps ensures IsCredit(t, p) { assert SpendAt(t + pending, k, p); }
  }

  lemma PendingReady(l: Ledger, height: int, order: seq<BlockTxKey>, t: Ledger, k: BlockTxKey)
    requires Halfway(l, height, order, t) && k in Pending(l.mined, height, order) && k.index != 0
    requires NoInnerSpend(l.mined, height)
    ensures var v := Joined(t, Pending(l.mined, height, order), l.deltas);
            CanUnmine(v, k) && AllCredits(t.mined, Spends(l.mined[k])) && SpentByPool(t.spentOuts, k, l.mined[k])
  {
    var pending := Pending(l.mined, height, order);
    var v := Joined(t, pending, l.deltas);
    hide PoolOk, HashesOk, UnspentSound, UnspentComplete, SpentOutsOk, SpentKeysOk, SpendersOk, SpentUnconfOk, MarksOk;
    hide PrevOutsOk;
    assert v.mined[k] == l.mined[k];
    PendingFree(v, pending, l, height, k);
    forall p | p in Spends(l.mined[k]) ensures Lists(v.mined, k, p) && p.tx.height < height {}
    CreditsBelow(t.mined, pending, Spends(l.mined[k]), k, height);
    assert CanUnmine(v, k);
    UnmineDefined(v, k);
  }

  lemma ApartNext(l: Ledger, height: int, order: seq<BlockTxKey>, prev: map<OutPoint, Hash>, k: BlockTxKey, h: Hash)
    requires InputsApart(l, height) && Apart(Pending(l.mined, height, order), prev)
    requires k in Pending(l.mined, height, order) && k.index != 0
    ensures Apart(Pending(l.mined, height, order + [k]), prev + map op | op in Inputs(l.mined[k]) :: h)
  {
    var pending := Pending(l.mined, height, order + [k]);
    forall j, op | j in pending && j.index != 0 && op in pending[j].tx.inputs
      ensures op !in prev && op !in l.mined[k].tx.inputs
    {
      assert j in Pending(l.mined, height, order);
      assert DetachedTx(l.mined, height, j) && DetachedTx(l.mined, height, k);
    }
  }

  lemma HalfwayTx(l: Ledger, height: int, order: seq<BlockTxKey>, t: Ledger, k: BlockTxKey)
    requires Halfway(l, height, order, t) && k in Pending(l.mined, height, order) && k.index != 0
    requires NoInnerSpend(l.mined, height) && InputsApart(l, height)
    ensures ReturnTx(t, k, l.mined[k]).Ok? && Halfway(l, height, order + [k], ReturnTx(t, k, l.mined[k]).value)
  {
    hide Linked, UnspentComplete, ReturnTx, NoInnerSpend, InputsApart;
    var pending := Pending(l.mined, height, order);
    var v := Joined(t, pending, l.deltas);
    PendingReady(l, height, order, t, k);
    ReturnTxIs(t, k, l.mined[k]);
    PendingNext(l.mined, height, order, k);
    ApartNext(l, height, order, t.prevOuts, k, l.mined[k].tx.hash);
    assert pending[k] == l.mined[k] && forall j :: j in pending ==> height <= j.height;
    hide Pending, SpentByPool, CanUnmine, Apart;
    UnmineKeepsLinks(v, k);
    ReturnIsUnmine(t, pending, l.deltas, k, height);
  }

  /** What a rollback keeps, record after record. */
  lemma {:induction false} ReturnAllKeeps(l: Ledger, height: int, order: seq<BlockTxKey>)
    requires Linked(l) && NoInnerSpend(l.mined, height) && NoCoinbaseCredit(l.mined, height) && InputsApart(l, height)
    requires NoDup(order) && forall k :: k in order ==> k in l.mined && height <= k.height
    ensures var t := ReturnAll(Truncate(l, height), l.mined, order); t.Ok? && Halfway(l, height, order, t.value)
  {
    if order == [] {
      HalfwayStart(l, height);
    } else {
      var n := |order| - 1;
      var k := order[n];
      assert order == order[..n] + [k];
      ReturnAllKeeps(l, height, order[..n]);
      var t := ReturnAll(Truncate(l, height), l.mined, order[..n]).value;
      assert k in Pending(l.mined, height, order[..n]);
      if k.index == 0 {
        assert MinedOk(l.mined, l.deltas.Keys);
        HalfwayCoinbase(l, height, order[..n], t, k);
      } else {
        HalfwayTx(l, height, order[..n], t, k);
      }
    }
  }

  lemma CutAmounts(t: Ledger, deltas: map<int, Amounts>, height: int)
    requires Linked(t.(deltas := deltas)) && Below(t.mined, height) && t.deltas == CutDeltas(deltas, height)
    ensures Linked(t)
  {
    hide PoolOk, HashesOk, UnspentSound, SpentByOk, SpendsOk, SpentOutsOk, SpentKeysOk, SpendersOk, SpentUnconfOk;
    hide MarksOk, PrevOutsOk;
    assert MinedOk(t.mined, t.deltas.Keys);
  }

  /** Rolling back blocks that spend nothing from each other, without coinbase
      credits, succeeds, keeps every link two-way, and keeps the unspent map
      an exact scan. */
  lemma RollbackKeepsLinks(l: Ledger, height: int, order: seq<BlockTxKey>)
    requires Linked(l) && Detached(l.mined, height, order)
    requires NoInnerSpend(l.mined, height) && NoCoinbaseCredit(l.mined, height) && InputsApart(l, height)
    ensures Rollback(l, height, order).Ok?
    ensures var t := Rollback(l, height, order).value;
            Linked(t) && (UnspentComplete(l.mined, l.unspent) ==> UnspentComplete(t.mined, t.unspent))
  {
    hide Linked, UnspentComplete, NoInnerSpend, NoCoinbaseCredit, InputsApart, ReturnAll;
    ReturnAllKeeps(l, height, order);
    var t := Rollback(l, height, order).value;
    assert Pending(l.mined, height, order) == map[];
    assert t.mined + map[] == t.mined;
    CutAmounts(t, l.deltas, height);
  }

  // ---------------------------------------- success without further conditions

  /** The records of order still to be returned can be. */
  ghost predicate Ready(m: Mined, height: int, order: seq<BlockTxKey>, outs: map<BlockOutputKey, Hash>, t: Mined) {
    forall k :: DetachedTx(m, height, k) && k !in order ==> SpentByPool(outs, k, m[k]) && AllCredits(t, Spends(m[k]))
  }

  lemma ReadyStart(m: Mined, height: int, heights: set<int>, outs: map<BlockOutputKey, Hash>)
    requires MinedOk(m, heights) && SpentByOk(m, outs) && SpendsOk(m) && NoInnerSpend(m, height)
    ensures Ready(m, height, [], outs, CutMined(m, height))
  {
    var t := CutMined(m, height);
    forall k | DetachedTx(m, height, k) ensures SpentByPool(outs, k, m[k]) && AllCredits(t, Spends(m[k])) {
      forall i: nat | HasCredit(m[k], i) && m[k].credits[i].value.spentBy.Some?
        ensures m[k].credits[i].value.spentBy == Some(UNMINED) && BlockOutputKey(k, i) in outs
      {
        var p := BlockOutputKey(k, i);
        assert IsCredit(m, p) && SpentBy(m, p) == m[k].credits[i].value.spentBy;
        var j := SpentBy(m, p).value;
        assert j != UNMINED ==> Lists(m, j, p) && SpendAt(m, j, p) && p in Spends(m[j]);
      }
      forall p | p in Spends(m[k]) ensures IsCredit(t, p) { assert Lists(m, k, p) && SpendAt(m, k, p); }
    }
  }

  lemma ReadyNext(m: Mined, height: int, order: seq<BlockTxKey>, t: Ledger, k: BlockTxKey)
    requires Ready(m, height, order, t.spentOuts, t.mined) && DetachedTx(m, height, k) && k !in order
    ensures AllCredits(t.mined, Spends(m[k])) && SpentByPool(t.spentOuts, k, m[k])
    ensures var t' := Returned(t, k, m[k]); Ready(m, height, order + [k], t'.spentOuts, t'.mined)
  {
    var t' := Returned(t, k, m[k]);
    RelinkRelinks(t.mined, KeySet(Spends(m[k])), Some(UNMINED));
    forall j | DetachedTx(m, height, j) && j !in order + [k]
      ensures SpentByPool(t'.spentOuts, j, m[j]) && AllCredits(t'.mined, Spends(m[j]))
    {
      assert SpentByPool(t.spentOuts, j, m[j]) && AllCredits(t.mined, Spends(m[j]));
      assert forall i: nat :: BlockOutputKey(j, i) in t.spentOuts ==> BlockOutputKey(j, i) in t'.spentOuts;
    }
  }

  lemma {:induction false} ReturnAllSucceeds(l: Ledger, height: int, order: seq<BlockTxKey>)
    requires Linked(l) && NoInnerSpend(l.mined, height)
    requires NoDup(order) && forall k :: k in order ==> k in l.mined && height <= k.height
    ensures var t := ReturnAll(Truncate(l, height), l.mined, order);
            t.Ok? && Ready(l.mined, height, order, t.value.spentOuts, t.value.mined)
  {
    if order == [] {
      ReadyStart(l.mined, height, l.deltas.Keys, l.spentOuts);
    } else {
      hide Linked, NoInnerSpend, ReturnTx;
      var n := |order| - 1;
      var k := order[n];
      assert order == order[..n] + [k];
      ReturnAllSucceeds(l, height, order[..n]);
      var t := ReturnAll(Truncate(l, height), l.mined, order[..n]).value;
      if k.index != 0 {
        assert DetachedTx(l.mined, height, k);
        ReadyNext(l.mined, height, order[..n], t, k);
        ReturnTxIs(t, k, l.mined[k]);
      }
    }
  }

  /** A rollback of a consistent store fails exactly when some detached
      transaction spends an output of a detached block. */
  lemma RollbackSucceedsIff(l: Ledger, height: int, order: seq<BlockTxKey>)
    requires Linked(l) && Detached(l.mined, height, order)
    ensures Rollback(l, height, order).Ok? <==> NoInnerSpend(l.mined, height)
  {
    hide Linked, ReturnAll, NoInnerSpend;
    if Rollback(l, height, order).Ok? { RollbackNeeds(l, height, order); }
    if NoInnerSpend(l.mined, height) { ReturnAllSucceeds(l, height, order); }
  }
}
