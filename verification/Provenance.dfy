/** What the store knows is what it was told: where each record comes from, and
    what a call leaves of every other record. */
module Provenance {
  import opened TxTypes
  import opened Ledgers
  import opened LedgerInv
  import opened LedgerOps
  import opened InsertProof
  import opened DebitProof
  import opened DebitRuns
  import opened Conflicts
  import opened ConflictProof
  import opened Cascade
  import opened Rollbacks
  import opened ReturnProof
  import opened RollbackProof
  import opened DebitNeeds
  import opened ConflictLinks
  import opened Runs

  // ---------------------------------------------------------- one record

  /** The same outputs are credits, with the same change flags. */
  ghost predicate SameFlags(cs: seq<Option<Credit>>, cs': seq<Option<Credit>>) {
    |cs'| == |cs| && forall i :: 0 <= i < |cs| ==>
      (cs'[i].Some? <==> cs[i].Some?) && (cs[i].Some? ==> cs'[i].value.change == cs[i].value.change)
  }

  ghost predicate SameAmount(d: Option<Debits>, d': Option<Debits>) {
    (d'.Some? <==> d.Some?) && (d.Some? ==> d'.value.amount == d.value.amount)
  }

  /** r' is r later on: only its place and who spends what may have changed. */
  ghost predicate Stems(r: TxRecord, r': TxRecord) {
    && r'.tx == r.tx && r'.received == r.received
    && SameFlags(r.credits, r'.credits) && SameAmount(r.debits, r'.debits)
  }

  /** The same keys, each with a record that stems from the old one. */
  ghost predicate AllStem<K(!new)>(m: map<K, TxRecord>, m': map<K, TxRecord>) {
    m'.Keys == m.Keys && forall k :: k in m ==> Stems(m[k], m'[k])
  }

  lemma StemsSelf<K(!new)>(m: map<K, TxRecord>)
    ensures AllStem(m, m)
  {
  }

  lemma StemsOn<K(!new)>(m: map<K, TxRecord>, m': map<K, TxRecord>, m'': map<K, TxRecord>)
    requires AllStem(m, m') && AllStem(m', m'')
    ensures AllStem(m, m'')
  {
    forall k | k in m ensures Stems(m[k], m''[k]) {
      assert k in m' && Stems(m[k], m'[k]) && Stems(m'[k], m''[k]);
    }
  }

  lemma RelinkStems(m: Mined, ps: set<BlockOutputKey>, who: Option<BlockTxKey>)
    ensures AllStem(m, Relink(m, ps, who))
  {
  }

  // ------------------------------------------------------------ single calls

  /** An unconfirmed transaction is recorded as given, without credits and
      debits; one known before is only marked as received again. */
  ghost predicate PoolInserted(txs: Pool, txs': Pool, tx: Tx, now: int) {
    && txs'.Keys == txs.Keys + {tx.hash}
    && (forall h :: h in txs && h != tx.hash ==> txs'[h] == txs[h])
    && txs'[tx.hash] ==
       if tx.hash in txs then txs[tx.hash].(received := now) else TxRecord(tx, -1, None, [], now)
  }

  lemma PoolPut(txs: Pool, tx: Tx, now: int)
    ensures PoolInserted(txs, txs[tx.hash := if tx.hash in txs then txs[tx.hash].(received := now)
                else TxRecord(tx, -1, None, [], now)], tx, now)
  {
  }

  lemma InsertUnminedRecords(l: Ledger, tx: Tx, now: int)
    ensures PoolInserted(l.txs, InsertUnmined(l, tx, now).txs, tx, now) && InsertUnmined(l, tx, now).mined == l.mined
  {
    hide PoolInserted, Inputs;
    PoolPut(l.txs, tx, now);
  }

  /** A transaction new in a block is recorded as given, without credits and
      debits, and gone leave the pool. */
  ghost predicate BlockInserted(l: Ledger, l': Ledger, tx: Tx, key: BlockTxKey, received: int, gone: set<Hash>) {
    && l'.txs == l.txs - gone
    && l'.mined.Keys == l.mined.Keys + {key} && l'.mined[key] == TxRecord(tx, key.index, None, [], received)
    && forall k :: k in l.mined ==> Stems(l.mined[k], l'.mined[k])
  }

  /** A known unconfirmed one moves into its block. */
  ghost predicate BlockMoved(l: Ledger, l': Ledger, h: Hash, key: BlockTxKey) {
    && h in l.txs && l'.txs == l.txs - {h}
    && l'.mined.Keys == l.mined.Keys + {key} && Stems(l.txs[h], l'.mined[key]) && l'.mined[key].index == key.index
    && forall k :: k in l.mined ==> Stems(l.mined[k], l'.mined[k])
  }

  lemma MovedStems(r: TxRecord, keys: map<OutPoint, BlockOutputKey>, su: map<OutPoint, Hash>, key: BlockTxKey)
    ensures Stems(r, MovedRecord(r, keys, su, key)) && MovedRecord(r, keys, su, key).index == key.index
  {
    hide InputSpends;
  }

  /** m' is m with one new record; the others stem from those of m. */
  ghost predicate OneMore(m: Mined, m': Mined, key: BlockTxKey, r: TxRecord) {
    && m'.Keys == m.Keys + {key} && m'[key] == r
    && forall k :: k in m ==> Stems(m[k], m'[k])
  }

  lemma PutOne(m: Mined, n: Mined, key: BlockTxKey, r: TxRecord)
    requires AllStem(m, n) && key !in m
    ensures OneMore(m, n[key := r], key, r)
  {
    hide Stems;
  }

  lemma MoveRecords(l: Ledger, h: Hash, key: BlockTxKey)
    requires h in l.txs && |l.txs[h].credits| <= |l.txs[h].tx.outputs| && key !in l.mined
    ensures BlockMoved(l, MoveMined(l, h, key), h, key)
  {
    hide Relink, InputOuts, InputSpends, CreditGain, MovedUnspent, OwnSpent, MovedOuts, MovedKeys, BlockDelta;
    hide MovedRecord, Stems, AllStem, DebitAmount, OneMore;
    var r := l.txs[h];
    var outs := InputOuts(r.tx.inputs, l.spentKeys);
    RelinkStems(l.mined, outs, Some(key));
    MovedStems(r, l.spentKeys, l.spentUnconf, key);
    PutOne(l.mined, Relink(l.mined, outs, Some(key)), key, MovedRecord(r, l.spentKeys, l.spentUnconf, key));
    var l' := MoveMined(l, h, key);
    assert l'.mined == Relink(l.mined, outs, Some(key))[key := MovedRecord(r, l.spentKeys, l.spentUnconf, key)];
    assert l'.txs == l.txs - {h};
    hide MoveMined;
    OneMoreIs(l.mined, l'.mined, key, MovedRecord(r, l.spentKeys, l.spentUnconf, key));
  }

  lemma OneMoreIs(m: Mined, m': Mined, key: BlockTxKey, r: TxRecord)
    requires OneMore(m, m', key, r)
    ensures m'.Keys == m.Keys + {key} && m'[key] == r
    ensures forall k :: k in m ==> Stems(m[k], m'[k])
  {
    hide Stems;
  }

  lemma AppendRecords(l: Ledger, tx: Tx, key: BlockTxKey, received: int)
    requires key !in l.mined
    ensures BlockInserted(l, AppendMined(l, tx, key, received), tx, key, received, {})
  {
    assert l.txs - {} == l.txs;
  }

  lemma ConflictRecords(l: Ledger, ds: set<Hash>, tx: Tx, key: BlockTxKey, received: int)
    requires key !in l.mined
    ensures BlockInserted(l, AppendMined(RemoveSet(l, ds), tx, key, received), tx, key, received, ds)
  {
    RelinkStems(l.mined, OutsOf(l.spentOuts, ds), None);
    hide Relink, OutsOf, Without, BlockDelta;
  }

  /** Output out becomes a credit with this flag, unless it is one already, and
      no other output does. */
  ghost predicate Credited(r: TxRecord, r': TxRecord, out: nat, change: bool) {
    && r' == r.(credits := r'.credits)
    && |r'.credits| == (if out < |r.credits| then |r.credits| else out + 1)
    && (forall i :: 0 <= i < |r'.credits| && i != out ==>
          r'.credits[i] == if i < |r.credits| then r.credits[i] else None)
    && r'.credits[out] == if HasCredit(r, out) then r.credits[out] else Some(Credit.Credit(change, None))
  }

  lemma WithCreditIs(r: TxRecord, out: nat, change: bool)
    ensures Credited(r, if HasCredit(r, out) then r else WithCredit(r, out, change), out, change)
  {
    if !HasCredit(r, out) {
      var r' := WithCredit(r, out, change);
      assert r'.credits == GrownCredits(r.credits, out)[out := Some(Credit.Credit(change, None))];
    }
  }

  /** Only the record of t is another. */
  ghost predicate OnlyAt(l: Ledger, l': Ledger, t: TxRef) {
    && l'.mined.Keys == l.mined.Keys && l'.txs.Keys == l.txs.Keys
    && (forall k :: k in l.mined && k != t.key ==> l'.mined[k] == l.mined[k])
    && (forall h :: h in l.txs && (h != t.hash || t.key != UNMINED) ==> l'.txs[h] == l.txs[h])
  }

  lemma PoolCreditRecords(l: Ledger, h: Hash, r: TxRecord)
    requires h in l.txs
    ensures var t, l' := TxRef(UNMINED, h), l.(txs := l.txs[h := r]);
            LiveTx(l', t) && RecordAt(l', t) == r && OnlyAt(l, l', t)
  {
  }

  lemma MinedCreditRecords(l: Ledger, t: TxRef, r: TxRecord, l': Ledger)
    requires LiveTx(l, t) && t.key != UNMINED && r.tx == RecordAt(l, t).tx
    requires l'.mined == l.mined[t.key := r] && l'.txs == l.txs
    ensures LiveTx(l', t) && RecordAt(l', t) == r && OnlyAt(l, l', t)
  {
  }

  lemma CreditRecords(l: Ledger, t: TxRef, out: nat, change: bool)
    requires LiveTx(l, t) && out < |RecordAt(l, t).tx.outputs|
    ensures AddCredit(l, t, out, change).Ok?
    ensures var l' := AddCredit(l, t, out, change).value;
            LiveTx(l', t) && Credited(RecordAt(l, t), RecordAt(l', t), out, change) && OnlyAt(l, l', t)
  {
    hide BlockDelta, WithCredit, Credited, OnlyAt;
    var r, r' := RecordAt(l, t), WithCredit(RecordAt(l, t), out, change);
    WithCreditIs(r, out, change);
    KeepsTx(r, out, change);
    if HasCredit(r, out) {
      SameOnly(l, t);
    } else if t.key == UNMINED {
      PoolCreditRecords(l, t.hash, r');
    } else {
      MinedCreditRecords(l, t, r', AddCredit(l, t, out, change).value);
    }
  }

  lemma SameOnly(l: Ledger, t: TxRef)
    ensures OnlyAt(l, l, t)
  {
  }

  lemma KeepsTx(r: TxRecord, out: nat, change: bool)
    ensures WithCredit(r, out, change).tx == r.tx
  {
  }

  lemma MarkOneStems(l: Ledger, c: CreditRef, t: TxRef)
    requires MarkOne(l, c, t).Ok?
    ensures AllStem(l.mined, MarkOne(l, c, t).value.ledger.mined)
  {
    StemsSelf(l.mined);
    RelinkStems(l.mined, {c.Key()}, Some(t.key));
    hide Relink, AllStem, IsCredit;
  }

  lemma {:induction false} MarkSpentStems(l: Ledger, cs: seq<CreditRef>, t: TxRef)
    requires MarkSpent(l, cs, t).Ok?
    ensures AllStem(l.mined, MarkSpent(l, cs, t).value.ledger.mined)
  {
    hide MarkOne, AllStem;
    if cs == [] {
      StemsSelf(l.mined);
    } else {
      var n := |cs| - 1;
      MarkSpentStems(l, cs[..n], t);
      var m := MarkSpent(l, cs[..n], t).value;
      MarkOneStems(m.ledger, cs[n], t);
      StemsOn(l.mined, m.ledger.mined, MarkOne(m.ledger, cs[n], t).value.ledger.mined);
    }
  }

  /** The record of t gets its debits, and every other record only marks. */
  ghost predicate Debited(l: Ledger, l': Ledger, t: TxRef) {
    && LiveTx(l, t) && LiveTx(l', t) && RecordAt(l', t).debits.Some?
    && RecordAt(l', t).tx == RecordAt(l, t).tx && RecordAt(l', t).received == RecordAt(l, t).received
    && SameFlags(RecordAt(l, t).credits, RecordAt(l', t).credits)
    && l'.mined.Keys == l.mined.Keys && l'.txs.Keys == l.txs.Keys
    && (forall k :: k in l.mined && k != t.key ==> Stems(l.mined[k], l'.mined[k]))
    && (forall h :: h in l.txs && (h != t.hash || t.key != UNMINED) ==> Stems(l.txs[h], l'.txs[h]))
  }

  lemma SetDebitsOnly(m: Ledger, t: TxRef, d: Debits)
    requires LiveTx(m, t)
    ensures var l' := SetDebits(m, t, d);
            LiveTx(l', t) && RecordAt(l', t) == RecordAt(m, t).(debits := Some(d)) && OnlyAt(m, l', t)
  {
  }

  lemma DebitedIs(l: Ledger, m: Ledger, l': Ledger, t: TxRef, d: Debits)
    requires LiveTx(l, t) && LiveTx(m, t) && LiveTx(l', t) && m.txs == l.txs && AllStem(l.mined, m.mined)
    requires OnlyAt(m, l', t) && RecordAt(l', t) == RecordAt(m, t).(debits := Some(d))
    requires Stems(RecordAt(l, t), RecordAt(m, t)) && forall h :: h in l.txs ==> Stems(l.txs[h], l.txs[h])
    ensures Debited(l, l', t)
  {
    StemsParts(RecordAt(l, t), RecordAt(m, t));
    hide Stems, SameFlags, LiveTx, RecordAt;
  }

  lemma SetDebitsRecords(l: Ledger, m: Ledger, t: TxRef, d: Debits)
    requires LiveTx(l, t) && m.txs == l.txs && AllStem(l.mined, m.mined) && LiveTx(m, t)
    ensures Debited(l, SetDebits(m, t, d), t)
  {
    hide Stems, AllStem, SetDebits, Debited, OnlyAt;
    forall h | h in l.txs ensures Stems(l.txs[h], l.txs[h]) { SameSelf(l.txs[h]); }
    MinedStem(l.mined, m.mined);
    SetDebitsOnly(m, t, d);
    DebitedIs(l, m, SetDebits(m, t, d), t, d);
  }

  lemma MinedStem(m: Mined, m': Mined)
    requires AllStem(m, m')
    ensures m'.Keys == m.Keys && forall k :: k in m ==> Stems(m[k], m'[k])
  {
    hide Stems;
  }

  lemma StemsParts(r: TxRecord, r': TxRecord)
    requires Stems(r, r')
    ensures r'.tx == r.tx && r'.received == r.received && SameFlags(r.credits, r'.credits)
  {
  }

  lemma SameSelf(r: TxRecord)
    ensures Stems(r, r)
  {
  }

  lemma MarkedLive(l: Ledger, cs: seq<CreditRef>, t: TxRef)
    requires LiveTx(l, t) && MarkSpent(l, cs, t).Ok?
    ensures LiveTx(MarkSpent(l, cs, t).value.ledger, t) && MarkSpent(l, cs, t).value.ledger.txs == l.txs
  {
    hide MarkSpent;
  }

  lemma FirstDebitsRecords(l: Ledger, t: TxRef, cs: seq<CreditRef>)
    requires LiveTx(l, t) && FirstDebits(l, t, cs).Ok?
    ensures Debited(l, FirstDebits(l, t, cs).value, t)
  {
    hide MarkSpent, AllStem, Debited, AllPoolSpends, SetDebits, Charge;
    MarkSpentStems(l, cs, t);
    MarkedLive(l, cs, t);
    var m := MarkSpent(l, cs, t).value;
    if t.key == UNMINED {
      var d := SetDebits(m.ledger, t, Debits(m.amount, []));
      SetDebitsRecords(l, m.ledger, t, Debits(m.amount, []));
      AllTaken(d, cs, t.hash);
      SameRecords(l, d, AllPoolSpends(d, cs, t.hash), t);
    } else {
      SetDebitsRecords(l, m.ledger.(deltas := Charge(m.ledger.deltas, t.key.height, m.amount)), t,
        Debits(m.amount, Keys(cs)));
    }
  }

  lemma SameRecords(l: Ledger, d: Ledger, d': Ledger, t: TxRef)
    requires Debited(l, d, t) && d'.mined == d.mined && d'.txs == d.txs
    ensures Debited(l, d', t)
  {
  }

  /** What the mined credits among cs are worth. */
  function MinedWorth(m: Mined, cs: seq<CreditRef>): int {
    if cs == [] then 0 else
    var c := cs[|cs|-1];
    MinedWorth(m, cs[..|cs|-1]) +
      if c.Mined() && c.tx.key in m && c.out < |m[c.tx.key].tx.outputs| then m[c.tx.key].tx.outputs[c.out] else 0
  }

  /** The mined ones of cs are different unspent credits. */
  ghost predicate FreeCredits(m: Mined, cs: seq<CreditRef>) {
    && (forall i :: 0 <= i < |cs| && cs[i].Mined() ==>
          IsCredit(m, cs[i].Key()) && SpentBy(m, cs[i].Key()) == None)
    && (forall i, j :: 0 <= i < j < |cs| && cs[i].Mined() && cs[j].Mined() ==> cs[i].Key() != cs[j].Key())
  }

  /** Credits other than those of cs are as they were. */
  ghost predicate OthersAlone(m: Mined, m': Mined, cs: seq<CreditRef>) {
    forall p :: IsCredit(m, p) && (forall i :: 0 <= i < |cs| ==> cs[i].Key() != p) ==>
      IsCredit(m', p) && SpentBy(m', p) == SpentBy(m, p)
  }

  lemma MarkOneWorth(l: Ledger, c: CreditRef, t: TxRef)
    requires c.Mined() ==> IsCredit(l.mined, c.Key()) && SpentBy(l.mined, c.Key()) == None
    ensures MarkOne(l, c, t).Ok?
    ensures MarkOne(l, c, t).value.amount == MinedWorth(l.mined, [c])
    ensures OthersAlone(l.mined, MarkOne(l, c, t).value.ledger.mined, [c])
  {
    assert [c][..0] == [] && [c][0] == c;
    RelinkRelinks(l.mined, {c.Key()}, Some(t.key));
    hide Relink;
  }

  lemma FreeFront(m: Mined, cs: seq<CreditRef>)
    requires FreeCredits(m, cs) && cs != []
    ensures FreeCredits(m, cs[..|cs|-1])
  {
    hide IsCredit;
  }

  lemma StillFree(m: Mined, m': Mined, cs: seq<CreditRef>)
    requires FreeCredits(m, cs) && cs != [] && OthersAlone(m, m', cs[..|cs|-1])
    ensures var c := cs[|cs|-1]; c.Mined() ==> IsCredit(m', c.Key()) && SpentBy(m', c.Key()) == None
  {
    var n := |cs| - 1;
    if cs[n].Mined() {
      forall i | 0 <= i < n ensures cs[..n][i].Key() != cs[n].Key() {
        if cs[i].Mined() { assert cs[i].Key() != cs[n].Key(); }
      }
    }
    hide IsCredit;
  }

  lemma OthersNext(m: Mined, m': Mined, m'': Mined, cs: seq<CreditRef>)
    requires cs != [] && OthersAlone(m, m', cs[..|cs|-1]) && OthersAlone(m', m'', [cs[|cs|-1]])
    ensures OthersAlone(m, m'', cs)
  {
    hide IsCredit;
    forall p | IsCredit(m, p) && (forall i :: 0 <= i < |cs| ==> cs[i].Key() != p)
      ensures IsCredit(m'', p) && SpentBy(m'', p) == SpentBy(m, p)
    {
      assert forall i :: 0 <= i < |cs| - 1 ==> cs[..|cs|-1][i] == cs[i];
    }
  }

  lemma SameWorth(m: Mined, m': Mined, c: CreditRef)
    requires m'.Keys == m.Keys && forall k :: k in m ==> m'[k].tx == m[k].tx
    ensures MinedWorth(m', [c]) == MinedWorth(m, [c])
  {
    assert [c][..0] == [];
  }

  lemma {:induction false} MarkWorth(l: Ledger, cs: seq<CreditRef>, t: TxRef)
    requires FreeCredits(l.mined, cs)
    ensures MarkSpent(l, cs, t).Ok?
    ensures MarkSpent(l, cs, t).value.amount == MinedWorth(l.mined, cs)
    ensures OthersAlone(l.mined, MarkSpent(l, cs, t).value.ledger.mined, cs)
  {
    if cs != [] {
      hide MarkOne, FreeCredits, OthersAlone;
      var n := |cs| - 1;
      FreeFront(l.mined, cs);
      MarkWorth(l, cs[..n], t);
      var m := MarkSpent(l, cs[..n], t).value;
      StillFree(l.mined, m.ledger.mined, cs);
      MarkOneWorth(m.ledger, cs[n], t);
      SameWorth(l.mined, m.ledger.mined, cs[n]);
      OthersNext(l.mined, m.ledger.mined, MarkOne(m.ledger, cs[n], t).value.ledger.mined, cs);
      assert [cs[n]][..0] == [];
    }
  }

  /** The debits of t are worth the mined credits among cs; a mined t lists the
      credits in the order given, an unconfirmed one lists none. */
  ghost predicate DebitsAre(m: Mined, d: Option<Debits>, t: TxRef, cs: seq<CreditRef>) {
    && d.Some? && d.value.amount == MinedWorth(m, cs)
    && (if t.key == UNMINED then d.value.spends == [] else
        && |d.value.spends| == |cs|
        && forall i :: 0 <= i < |cs| ==> d.value.spends[i] == BlockOutputKey(cs[i].tx.key, cs[i].out))
  }

  lemma FreeOnes(l: Ledger, t: TxRef, cs: seq<CreditRef>)
    requires CanDebit(l, t, cs)
    ensures FreeCredits(l.mined, cs)
  {
    forall i | 0 <= i < |cs| && cs[i].Mined()
      ensures IsCredit(l.mined, cs[i].Key()) && SpentBy(l.mined, cs[i].Key()) == None
    {
      assert cs[i] in cs && CanSpend(l, cs[i], RecordAt(l, t).tx.inputs);
    }
    forall i, j | 0 <= i < j < |cs| && cs[i].Mined() && cs[j].Mined() ensures cs[i].Key() != cs[j].Key() {
      assert CanSpend(l, cs[i], RecordAt(l, t).tx.inputs) && CanSpend(l, cs[j], RecordAt(l, t).tx.inputs);
      assert cs[i].Op() != cs[j].Op();
    }
  }

  lemma FirstDebitsAre(l: Ledger, t: TxRef, cs: seq<CreditRef>)
    requires CanDebit(l, t, cs)
    ensures FirstDebits(l, t, cs).Ok?
    ensures var l' := FirstDebits(l, t, cs).value;
            LiveTx(l', t) && DebitsAre(l.mined, RecordAt(l', t).debits, t, cs)
  {
    FreeOnes(l, t, cs);
    hide CanDebit, FreeCredits, MarkSpent, AllPoolSpends, OthersAlone, MinedWorth, Charge, Debited;
    MarkWorth(l, cs, t);
    MarkedLive(l, cs, t);
    FirstDebitsRecords(l, t, cs);
    var m := MarkSpent(l, cs, t).value;
    if t.key == UNMINED { AllTaken(SetDebits(m.ledger, t, Debits(m.amount, [])), cs, t.hash); }
    assert LiveTx(m.ledger, t);
  }

  // ------------------------------------------------------------ input order

  ghost predicate Rising(at: seq<nat>, n: nat) {
    (forall i, j :: 0 <= i < j < |at| ==> at[i] < at[j]) && forall i :: 0 <= i < |at| ==> at[i] < n
  }

  lemma RisingNext(at: seq<nat>, n: nat)
    requires Rising(at, n)
    ensures Rising(at, n + 1) && Rising(at + [n], n + 1)
  {
  }

  /** The credits found come in the order of the inputs that spend them. */
  lemma {:induction false} FoundInOrder(l: Ledger, ins: seq<OutPoint>) returns (at: seq<nat>)
    requires UnspentSound(l.mined, l.unspent) && PoolOk(l.txs) && FindCredits(l, ins).Ok?
    ensures Rising(at, |ins|) && |at| == |FindCredits(l, ins).value|
    ensures forall i :: 0 <= i < |at| ==> ins[at[i]] == FindCredits(l, ins).value[i].Op()
  {
    at := [];
    if ins != [] {
      hide PoolOk;
      var n := |ins| - 1;
      at := FoundInOrder(l, ins[..n]);
      RisingNext(at, n);
      if FindCredit(l, ins[n]).value.Some? {
        assert ins[n] in l.unspent ==> UnspentAt(l.mined, BlockOutputKey(l.unspent[ins[n]], ins[n].index), ins[n]);
        assert FindCredit(l, ins[n]).value.value.Op() == ins[n];
        hide FindCredit, UnspentSound;
        at := at + [n];
      }
    }
  }

  /** The spends that mining lists come in the order of the inputs. */
  lemma {:induction false} SpendsInOrder(ins: seq<OutPoint>, keys: map<OutPoint, BlockOutputKey>)
    returns (at: seq<nat>)
    ensures Rising(at, |ins|) && |at| == |InputSpends(ins, keys)|
    ensures forall i :: 0 <= i < |at| ==> ins[at[i]] in keys && keys[ins[at[i]]] == InputSpends(ins, keys)[i]
  {
    at := [];
    if ins != [] {
      var n := |ins| - 1;
      at := SpendsInOrder(ins[..n], keys);
      RisingNext(at, n);
      if ins[n] in keys && ins[n] !in ins[..n] { at := at + [n]; }
    }
  }

  // --------------------------------------------------------------- rollbacks

  /** The blocks from height on are gone, and the pool has their transactions
      up to those of order, the coinbases excepted. */
  ghost predicate Returning(l: Ledger, height: int, order: seq<BlockTxKey>, t: Ledger) {
    && (forall k :: k in t.mined <==> k in l.mined && k.height < height)
    && (forall k :: k in t.mined ==> Stems(l.mined[k], t.mined[k]))
    && (forall h :: h in l.txs ==> h in t.txs && t.txs[h] == l.txs[h])
    && (forall h :: h in t.txs && h !in l.txs ==>
          exists k :: k in order && k in l.mined && k.index != 0 && l.mined[k].tx.hash == h)
    && (forall k :: k in order && k in l.mined && k.index != 0 ==>
          l.mined[k].tx.hash in t.txs && Stems(l.mined[k], t.txs[l.mined[k].tx.hash]))
  }

  lemma ReturnedFields(t: Ledger, k: BlockTxKey, r: TxRecord)
    requires AllCredits(t.mined, Spends(r))
    ensures var t' := Returned(t, k, r);
            && AllStem(t.mined, t'.mined) && Stems(r, ReturnedRecord(r)) && ReturnedRecord(r).tx == r.tx
            && t'.txs == t.txs[r.tx.hash := ReturnedRecord(r)]
  {
    RelinkStems(t.mined, KeySet(Spends(r)), Some(UNMINED));
    hide Relink, KeySet, OwnOps, OutKeys, PoolSpent, SpentTo, KeysOf, SpendersOf, AllCredits;
  }

  lemma MinedReturning(l: Ledger, height: int, order: seq<BlockTxKey>, t: Ledger, m: Mined)
    requires Returning(l, height, order, t) && AllStem(t.mined, m)
    ensures forall k :: k in m <==> k in l.mined && k.height < height
    ensures forall k :: k in m ==> Stems(l.mined[k], m[k])
  {
    forall k | k in m ensures k in t.mined && Stems(l.mined[k], m[k]) {
      assert Stems(l.mined[k], t.mined[k]) && Stems(t.mined[k], m[k]);
    }
    hide Stems;
  }

  lemma PoolReturning(l: Ledger, height: int, order: seq<BlockTxKey>, t: Ledger, k: BlockTxKey, r: TxRecord, txs: Pool)
    requires HashesOk(l.mined, l.txs) && Returning(l, height, order, t) && k in l.mined && k.index != 0
    requires Stems(l.mined[k], r) && txs == t.txs[l.mined[k].tx.hash := r]
    ensures forall h :: h in l.txs ==> h in txs && txs[h] == l.txs[h]
    ensures forall h :: h in txs && h !in l.txs ==>
              exists j :: j in order + [k] && j in l.mined && j.index != 0 && l.mined[j].tx.hash == h
    ensures forall j :: j in order + [k] && j in l.mined && j.index != 0 ==>
              l.mined[j].tx.hash in txs && Stems(l.mined[j], txs[l.mined[j].tx.hash])
  {
    hide Stems;
    forall h | h in txs && h !in l.txs
      ensures exists j :: j in order + [k] && j in l.mined && j.index != 0 && l.mined[j].tx.hash == h
    {
      if h == l.mined[k].tx.hash {
        assert k in order + [k];
      } else {
        var j :| j in order && j in l.mined && j.index != 0 && l.mined[j].tx.hash == h;
        assert j in order + [k];
      }
    }
  }

  lemma ReturningIs(l: Ledger, height: int, order: seq<BlockTxKey>, t: Ledger)
    requires forall k :: k in t.mined <==> k in l.mined && k.height < height
    requires forall k :: k in t.mined ==> Stems(l.mined[k], t.mined[k])
    requires forall h :: h in l.txs ==> h in t.txs && t.txs[h] == l.txs[h]
    requires forall h :: h in t.txs && h !in l.txs ==>
               exists k :: k in order && k in l.mined && k.index != 0 && l.mined[k].tx.hash == h
    requires forall k :: k in order && k in l.mined && k.index != 0 ==>
               l.mined[k].tx.hash in t.txs && Stems(l.mined[k], t.txs[l.mined[k].tx.hash])
    ensures Returning(l, height, order, t)
  {
    hide Stems;
  }

  lemma ReturnedRecords(l: Ledger, height: int, order: seq<BlockTxKey>, t: Ledger, k: BlockTxKey)
    requires HashesOk(l.mined, l.txs) && Returning(l, height, order, t)
    requires k in l.mined && k.index != 0 && AllCredits(t.mined, Spends(l.mined[k]))
    ensures Returning(l, height, order + [k], Returned(t, k, l.mined[k]))
  {
    hide Returned, ReturnedRecord, Stems, AllStem, AllCredits, HashesOk, Returning;
    var r, t' := l.mined[k], Returned(t, k, l.mined[k]);
    ReturnedFields(t, k, r);
    MinedReturning(l, height, order, t, t'.mined);
    PoolReturning(l, height, order, t, k, ReturnedRecord(r), t'.txs);
    ReturningIs(l, height, order + [k], t');
  }

  lemma ReturningStart(l: Ledger, height: int)
    ensures Returning(l, height, [], Truncate(l, height))
  {
  }

  lemma ReturningCoinbase(l: Ledger, height: int, order: seq<BlockTxKey>, t: Ledger, k: BlockTxKey)
    requires Returning(l, height, order, t) && k.index == 0
    ensures Returning(l, height, order + [k], t)
  {
  }

  lemma {:induction false} ReturnAllRecords(l: Ledger, height: int, order: seq<BlockTxKey>)
    requires Linked(l) && NoInnerSpend(l.mined, height)
    requires NoDup(order) && forall k :: k in order ==> k in l.mined && height <= k.height
    ensures var t := ReturnAll(Truncate(l, height), l.mined, order); t.Ok? && Returning(l, height, order, t.value)
  {
    hide NoInnerSpend, ReturnTx, Returning, Ready, Truncate;
    hide MinedOk, PoolOk, HashesOk, UnspentSound, SpentByOk, SpendsOk, SpentOutsOk, SpentKeysOk, SpendersOk;
    hide SpentUnconfOk, MarksOk, PrevOutsOk;
    if order == [] {
      ReturningStart(l, height);
    } else {
      var n := |order| - 1;
      var k := order[n];
      assert order == order[..n] + [k];
      ReturnAllRecords(l, height, order[..n]);
      ReturnAllSucceeds(l, height, order[..n]);
      var t := ReturnAll(Truncate(l, height), l.mined, order[..n]).value;
      if k.index == 0 {
        ReturningCoinbase(l, height, order[..n], t, k);
      } else {
        assert DetachedTx(l.mined, height, k);
        ReadyNext(l.mined, height, order[..n], t, k);
        ReturnTxIs(t, k, l.mined[k]);
        ReturnedRecords(l, height, order[..n], t, k);
      }
    }
  }

  // ---------------------------------------------------------- any one call

  /** The pool transactions that inserting tx in a block removes: the first
      that spends one of its inputs, with all its marked descendants. */
  ghost predicate Leave(l: Ledger, tx: Tx, gone: set<Hash>) {
    if forall op :: op in tx.inputs ==> op !in l.prevOuts then gone == {}
    else exists i :: 0 <= i < |tx.inputs| && tx.inputs[i] in l.prevOuts
           && (forall j :: 0 <= j < i ==> tx.inputs[j] !in l.prevOuts)
           && gone == Descendants(l, l.prevOuts[tx.inputs[i]])
  }

  lemma {:induction false} FirstSpender(prev: map<OutPoint, Hash>, ins: seq<OutPoint>)
    requires FindDoubleSpend(prev, ins).Some?
    ensures exists i :: 0 <= i < |ins| && ins[i] in prev && (forall j :: 0 <= j < i ==> ins[j] !in prev)
              && prev[ins[i]] == FindDoubleSpend(prev, ins).value
  {
    if ins[0] !in prev {
      FirstSpender(prev, ins[1..]);
      var i :| 0 <= i < |ins| - 1 && ins[1..][i] in prev && (forall j :: 0 <= j < i ==> ins[1..][j] !in prev)
        && prev[ins[1..][i]] == FindDoubleSpend(prev, ins[1..]).value;
      forall j | 0 <= j < i + 1 ensures ins[j] !in prev { assert j > 0 ==> ins[1..][j - 1] == ins[j]; }
      assert ins[i + 1] == ins[1..][i];
    }
  }

  /** What inserting tx in a block does to the records. */
  ghost predicate BlockRecorded(l: Ledger, l': Ledger, tx: Tx, key: BlockTxKey, received: int) {
    if key in l.mined then l' == l && l.mined[key].tx.hash == tx.hash
    else if tx.hash in l.txs then BlockMoved(l, l', tx.hash, key)
    else exists gone :: Leave(l, tx, gone) && BlockInserted(l, l', tx, key, received, gone)
  }

  lemma ConflictRecorded(l: Ledger, tx: Tx, key: BlockTxKey, now: int)
    requires PoolLinked(l) && key !in l.mined && FindDoubleSpend(l.prevOuts, tx.inputs).Some?
    requires FindDoubleSpend(l.prevOuts, tx.inputs).value in l.txs
    ensures var h := FindDoubleSpend(l.prevOuts, tx.inputs).value;
            var ds := Descendants(l, h);
            && Leave(l, tx, ds) && Sound(l) && l.txs[h].tx.hash == h
            && (RemoveConflict(l, h, Bound(l.txs)).Ok? ==>
                  var l' := RemoveConflict(l, h, Bound(l.txs)).value;
                  BlockInserted(l, AppendMined(l', tx, key, now), tx, key, now, ds))
  {
    hide PoolLinked, Treelike, RemoveConflict, RemoveSet, AppendMined, BlockInserted, Descendants, FindDoubleSpend;
    var h := FindDoubleSpend(l.prevOuts, tx.inputs).value;
    ConflictGone(l, h, Bound(l.txs));
    ConflictRecords(l, Descendants(l, h), tx, key, now);
    FirstSpender(l.prevOuts, tx.inputs);
  }

  lemma InsertMinedRecords(l: Ledger, tx: Tx, key: BlockTxKey, now: int)
    requires Linked(l) && InsertMined(l, tx, key, now).Ok?
    ensures BlockRecorded(l, InsertMined(l, tx, key, now).value, tx, key, now)
  {
    hide PoolLinked, RemoveConflict, AppendMined, MoveMined, BlockMoved, BlockInserted, Leave, Linked;
    hide Descendants, FindDoubleSpend;
    if key !in l.mined {
      if tx.hash in l.txs {
        LinkedCredits(l, tx.hash);
        MoveRecords(l, tx.hash, key);
      } else if FindDoubleSpend(l.prevOuts, tx.inputs).None? {
        AppendRecords(l, tx, key, now);
        NoneLeave(l, tx);
      } else {
        ConflictKnown(l, tx.inputs, FindDoubleSpend(l.prevOuts, tx.inputs).value);
        LinkedIsPoolLinked(l);
        ConflictRecorded(l, tx, key, now);
      }
    }
  }

  lemma InsertedLive(txs: Pool, txs': Pool, tx: Tx, now: int)
    requires PoolInserted(txs, txs', tx, now)
    ensures tx.hash in txs'
  {
  }

  lemma RecordedLive(l: Ledger, l': Ledger, tx: Tx, key: BlockTxKey, received: int)
    requires Linked(l) && BlockRecorded(l, l', tx, key, received) && key.height != -1
    ensures LiveTx(l', TxRef(key, tx.hash))
  {
    if key !in l.mined && tx.hash in l.txs { LinkedCredits(l, tx.hash); }
    hide Linked, Leave;
  }

  lemma NoneLeave(l: Ledger, tx: Tx)
    requires FindDoubleSpend(l.prevOuts, tx.inputs).None?
    ensures Leave(l, tx, {})
  {
    hide FindDoubleSpend;
  }

  lemma LinkedCredits(l: Ledger, h: Hash)
    requires Linked(l) && h in l.txs
    ensures |l.txs[h].credits| <= |l.txs[h].tx.outputs| && l.txs[h].tx.hash == h
  {
  }

  /** What a call does to the records. */
  ghost predicate Leaves(l: Ledger, c: Call, l': Ledger) {
    match c
    case InsertPool(tx, now) => PoolInserted(l.txs, l'.txs, tx, now) && l'.mined == l.mined
    case InsertBlock(tx, key, now) => BlockRecorded(l, l', tx, key, now)
    case Credit(t, out, change) =>
      LiveTx(l, t) && LiveTx(l', t) && OnlyAt(l, l', t) && Credited(RecordAt(l, t), RecordAt(l', t), out, change)
    case Debit(t, _) => Debited(l, l', t)
    case Roll(height, order) => Detached(l.mined, height, order) && Returning(l, height, order, l')
  }

  lemma DebitedAgain(l: Ledger, t: TxRef)
    requires LiveTx(l, t) && RecordAt(l, t).debits.Some?
    ensures Debited(l, l, t)
  {
    hide Stems, SameFlags;
    forall h | h in l.txs ensures Stems(l.txs[h], l.txs[h]) { SameSelf(l.txs[h]); }
    forall k | k in l.mined ensures Stems(l.mined[k], l.mined[k]) { SameSelf(l.mined[k]); }
    SameSelf(RecordAt(l, t));
    StemsParts(RecordAt(l, t), RecordAt(l, t));
  }

  lemma SetAgain(l: Ledger, t: TxRef, ps: seq<BlockOutputKey>)
    requires LiveTx(l, t) && RecordAt(l, t).debits.Some?
    ensures Debited(l, SetDebits(l, t, RecordAt(l, t).debits.value.(spends := ps)), t)
  {
    hide AllStem, SetDebits, Debited;
    StemsSelf(l.mined);
    SetDebitsRecords(l, l, t, RecordAt(l, t).debits.value.(spends := ps));
  }

  lemma AddDebitsRecords(l: Ledger, t: TxRef, spent: seq<CreditRef>)
    requires LiveTx(l, t) && AddDebits(l, t, spent).Ok?
    ensures Debited(l, AddDebits(l, t, spent).value, t)
  {
    hide AllPoolSpends, SetDebits, FirstDebits, FindCredits, Debited;
    var r := RecordAt(l, t);
    if r.debits.Some? {
      DebitedAgain(l, t);
      if t.key == UNMINED {
        AllTaken(l, spent, t.hash);
        SameRecords(l, l, AllPoolSpends(l, spent, t.hash), t);
      } else if r.debits.value.spends == [] {
        SetAgain(l, t, Keys(spent));
      }
    } else if spent != [] {
      FirstDebitsRecords(l, t, spent);
    } else {
      FirstDebitsRecords(l, t, FindCredits(l, r.tx.inputs).value);
    }
  }

  lemma RollbackRecords(l: Ledger, height: int, order: seq<BlockTxKey>)
    requires Linked(l) && Detached(l.mined, height, order) && Rollback(l, height, order).Ok?
    ensures Returning(l, height, order, Rollback(l, height, order).value)
  {
    hide Linked, NoInnerSpend, Returning, Truncate, ReturnAll;
    RollbackSucceedsIff(l, height, order);
    ReturnAllRecords(l, height, order);
  }

  /** Any proper call records what it is told, and of every other record only
      changes its place and who spends what. */
  lemma StepRecords(l: Ledger, c: Call)
    requires Linked(l) && Proper(l, c)
    ensures Step(l, c).Ok? && Leaves(l, c, Step(l, c).value)
  {
    StepKeepsLinks(l, c);
    hide Linked, InsertUnmined, InsertMined, AddCredit, AddDebits, PoolInserted, BlockRecorded, Debited, Credited;
    hide OnlyAt, Returning, ReturnAll, NoInnerSpend, Truncate;
    match c {
      case InsertPool(tx, now) => InsertUnminedRecords(l, tx, now);
      case InsertBlock(tx, key, now) => InsertMinedRecords(l, tx, key, now);
      case Credit(t, out, change) => CreditRecords(l, t, out, change);
      case Debit(t, spent) => AddDebitsRecords(l, t, spent);
      case Roll(height, order) => ReturnAllRecords(l, height, order);
    }
  }
}
