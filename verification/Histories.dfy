/** Over whole runs every record is what the calls told the store, and nothing
    is forgotten but conflicts and the coinbases of detached blocks. */
module Histories {
  import opened TxTypes
  import opened Ledgers
  import opened LedgerInv
  import opened LedgerOps
  import opened Rollbacks
  import opened RollbackProof
  import opened InsertProof
  import opened MoveProof
  import opened Runs
  import opened Provenance

  predicate Inserts(c: Call) { c.InsertPool? || c.InsertBlock? }

  /** r is as c brings it. */
  ghost predicate New(c: Call, r: TxRecord) {
    Inserts(c) && r.tx == c.tx && r.credits == [] && r.debits == None && r.received == c.now
  }

  /** r' is r after c: it has lost nothing, and has gained only what c tells
      about its transaction. */
  ghost predicate Goes(c: Call, r: TxRecord, r': TxRecord) {
    && r'.tx == r.tx
    && (r'.received == r.received || (c.InsertPool? && c.tx.hash == r.tx.hash && r'.received == c.now))
    && CreditsGo(c, r, r') && DebitsGo(c, r, r')
  }

  ghost predicate CreditsGo(c: Call, r: TxRecord, r': TxRecord) {
    && (forall i: nat :: HasCredit(r, i) ==>
          HasCredit(r', i) && r'.credits[i].value.change == r.credits[i].value.change)
    && (forall i: nat :: HasCredit(r', i) && !HasCredit(r, i) ==>
          c.Credit? && c.t.hash == r.tx.hash && c.out == i && c.change == r'.credits[i].value.change)
  }

  ghost predicate DebitsGo(c: Call, r: TxRecord, r': TxRecord) {
    && (r.debits.Some? ==> r'.debits.Some?)
    && (r'.debits.Some? && r.debits.None? ==> c.Debit? && c.t.hash == r.tx.hash)
  }

  lemma StemGoes(c: Call, r: TxRecord, r': TxRecord)
    requires Stems(r, r')
    ensures Goes(c, r, r')
  {
    forall i: nat | HasCredit(r, i) || HasCredit(r', i)
      ensures HasCredit(r, i) && HasCredit(r', i) && r'.credits[i].value.change == r.credits[i].value.change
    {
    }
  }

  lemma SameGoes(c: Call, r: TxRecord)
    ensures Goes(c, r, r)
  {
  }

  lemma CreditedGoes(c: Call, r: TxRecord, r': TxRecord)
    requires c.Credit? && c.t.hash == r.tx.hash && Credited(r, r', c.out, c.change)
    ensures Goes(c, r, r')
  {
    forall i: nat | HasCredit(r, i) ensures HasCredit(r', i) && r'.credits[i] == r.credits[i] {}
    forall i: nat | HasCredit(r', i) && !HasCredit(r, i) ensures i == c.out && r'.credits[i].value.change == c.change {}
  }

  lemma DebitedGoes(c: Call, r: TxRecord, r': TxRecord)
    requires c.Debit? && c.t.hash == r.tx.hash && r'.tx == r.tx && r'.received == r.received
    requires SameFlags(r.credits, r'.credits) && r'.debits.Some?
    ensures Goes(c, r, r')
  {
    forall i: nat | HasCredit(r, i) || HasCredit(r', i)
      ensures HasCredit(r, i) && HasCredit(r', i) && r'.credits[i].value.change == r.credits[i].value.change
    {
    }
  }

  // -------------------------------------------------------------- one call

  /** The record at t was brought by c, or is one that l had. */
  ghost predicate ComesFrom(l: Ledger, c: Call, r: TxRecord) {
    New(c, r) || exists t :: LiveTx(l, t) && Goes(c, RecordAt(l, t), r)
  }

  /** The record at t is still there, or c removed it: as a conflict, or as the
      coinbase of a detached block. */
  ghost predicate Survives(l: Ledger, c: Call, t: TxRef, l': Ledger)
    requires LiveTx(l, t)
  {
    || (exists t' :: LiveTx(l', t') && Goes(c, RecordAt(l, t), RecordAt(l', t')))
    || (c.InsertBlock? && t.key == UNMINED && exists gone :: Leave(l, c.tx, gone) && t.hash in gone)
    || (c.Roll? && t.key != UNMINED && t.key.index == 0 && c.height <= t.key.height)
  }

  ghost predicate Faithful(l: Ledger, c: Call, l': Ledger) {
    && (forall t :: LiveTx(l', t) ==> ComesFrom(l, c, RecordAt(l', t)))
    && (forall t :: LiveTx(l, t) ==> Survives(l, c, t, l'))
  }

  /** Records at the same place. */
  lemma StayPut(l: Ledger, c: Call, t: TxRef, l': Ledger)
    requires LiveTx(l, t) && LiveTx(l', t) && Goes(c, RecordAt(l, t), RecordAt(l', t))
    ensures ComesFrom(l, c, RecordAt(l', t)) && Survives(l, c, t, l')
  {
  }

  lemma PoolInsertFaithful(l: Ledger, tx: Tx, now: int, l': Ledger)
    requires PoolOk(l.txs) && PoolInserted(l.txs, l'.txs, tx, now) && l'.mined == l.mined
    ensures Faithful(l, InsertPool(tx, now), l')
  {
    var c := InsertPool(tx, now);
    forall t | LiveTx(l, t) ensures LiveTx(l', t) && Goes(c, RecordAt(l, t), RecordAt(l', t)) {
      SameGoes(c, RecordAt(l, t));
    }
    forall t | LiveTx(l', t) ensures ComesFrom(l, c, RecordAt(l', t)) {
      if LiveTx(l, t) { StayPut(l, c, t, l'); }
    }
    forall t | LiveTx(l, t) ensures Survives(l, c, t, l') { StayPut(l, c, t, l'); }
  }

  lemma MovedFaithful(l: Ledger, c: Call, l': Ledger)
    requires Linked(l) && c.InsertBlock? && BlockMoved(l, l', c.tx.hash, c.key) && c.key !in l.mined
    requires 0 <= c.key.height
    ensures Faithful(l, c, l')
  {
    var h := c.tx.hash;
    var old_, new_ := TxRef(UNMINED, h), TxRef(c.key, h);
    assert l.txs[h].tx.hash == h;
    hide Linked, Goes;
    StemGoes(c, l.txs[h], l'.mined[c.key]);
    assert Stems(l.txs[h], l'.mined[c.key]);
    assert LiveTx(l, old_) && LiveTx(l', new_) && Goes(c, RecordAt(l, old_), RecordAt(l', new_));
    forall t | LiveTx(l, t) && t != old_ ensures LiveTx(l', t) && Goes(c, RecordAt(l, t), RecordAt(l', t)) {
      SameGoes(c, RecordAt(l, t));
      if t.key != UNMINED { StemGoes(c, l.mined[t.key], l'.mined[t.key]); }
    }
    forall t | LiveTx(l', t) ensures ComesFrom(l, c, RecordAt(l', t)) {
      if t.key != c.key {
        assert LiveTx(l, t) && t != old_;
        StayPut(l, c, t, l');
      }
    }
    forall t | LiveTx(l, t) ensures Survives(l, c, t, l') {
      if t != old_ { StayPut(l, c, t, l'); }
    }
  }

  lemma NewFaithful(l: Ledger, c: Call, gone: set<Hash>, l': Ledger)
    requires c.InsertBlock? && c.key !in l.mined && 0 <= c.key.height
    requires Leave(l, c.tx, gone) && BlockInserted(l, l', c.tx, c.key, c.now, gone)
    ensures Faithful(l, c, l')
  {
    hide Goes, Leave;
    forall t | LiveTx(l, t) && (t.key != UNMINED || t.hash !in gone)
      ensures LiveTx(l', t) && Goes(c, RecordAt(l, t), RecordAt(l', t))
    {
      SameGoes(c, RecordAt(l, t));
      if t.key != UNMINED { StemGoes(c, l.mined[t.key], l'.mined[t.key]); }
    }
    forall t | LiveTx(l', t) ensures ComesFrom(l, c, RecordAt(l', t)) {
      if t.key != c.key {
        assert LiveTx(l, t);
        StayPut(l, c, t, l');
      }
    }
    forall t | LiveTx(l, t) ensures Survives(l, c, t, l') {
      if t.key != UNMINED || t.hash !in gone { StayPut(l, c, t, l'); }
    }
  }

  lemma StillFaithful(l: Ledger, c: Call, l': Ledger)
    requires forall t :: LiveTx(l', t) ==> LiveTx(l, t)
    requires forall t :: LiveTx(l, t) ==> LiveTx(l', t) && Goes(c, RecordAt(l, t), RecordAt(l', t))
    ensures Faithful(l, c, l')
  {
    hide Goes, LiveTx, RecordAt;
    forall t | LiveTx(l', t) ensures ComesFrom(l, c, RecordAt(l', t)) { StayPut(l, c, t, l'); }
    forall t | LiveTx(l, t) ensures Survives(l, c, t, l') { StayPut(l, c, t, l'); }
  }

  lemma CreditFaithful(l: Ledger, c: Call, l': Ledger)
    requires PoolOk(l.txs) && c.Credit? && LiveTx(l, c.t) && LiveTx(l', c.t) && OnlyAt(l, l', c.t)
    requires Credited(RecordAt(l, c.t), RecordAt(l', c.t), c.out, c.change)
    ensures Faithful(l, c, l')
  {
    var u := c.t;
    assert RecordAt(l, u).tx.hash == u.hash && RecordAt(l', u).tx == RecordAt(l, u).tx;
    CreditedGoes(c, RecordAt(l, u), RecordAt(l', u));
    hide Goes, Credited, PoolOk;
    forall t | LiveTx(l, t) ensures LiveTx(l', t) && Goes(c, RecordAt(l, t), RecordAt(l', t)) {
      SameGoes(c, RecordAt(l, t));
    }
    StillFaithful(l, c, l');
  }

  lemma DebitFaithful(l: Ledger, c: Call, l': Ledger)
    requires PoolOk(l.txs) && c.Debit? && Debited(l, l', c.t)
    ensures Faithful(l, c, l')
  {
    var u := c.t;
    assert RecordAt(l, u).tx.hash == u.hash;
    DebitedGoes(c, RecordAt(l, u), RecordAt(l', u));
    hide Goes, SameFlags, SameAmount, PoolOk;
    forall t | LiveTx(l, t) ensures LiveTx(l', t) && Goes(c, RecordAt(l, t), RecordAt(l', t)) {
      if t.key == UNMINED {
        if t != u { StemGoes(c, l.txs[t.hash], l'.txs[t.hash]); }
      } else if t.key != u.key {
        StemGoes(c, l.mined[t.key], l'.mined[t.key]);
      }
    }
    StillFaithful(l, c, l');
  }

  lemma RollOrigin(l: Ledger, c: Call, l': Ledger, t: TxRef)
    requires MinedOk(l.mined, l.deltas.Keys) && c.Roll? && Returning(l, c.height, c.order, l') && LiveTx(l', t)
    ensures ComesFrom(l, c, RecordAt(l', t))
  {
    hide Goes, Stems;
    if t.key != UNMINED {
      StemGoes(c, l.mined[t.key], l'.mined[t.key]);
      StemsParts(l.mined[t.key], l'.mined[t.key]);
      assert LiveTx(l, t);
    } else if t.hash in l.txs {
      SameGoes(c, l.txs[t.hash]);
      assert LiveTx(l, t);
    } else {
      var k :| k in c.order && k in l.mined && k.index != 0 && l.mined[k].tx.hash == t.hash;
      StemGoes(c, l.mined[k], l'.txs[t.hash]);
      assert LiveTx(l, TxRef(k, t.hash));
    }
  }

  lemma RollSurvivor(l: Ledger, c: Call, l': Ledger, t: TxRef)
    requires c.Roll? && Detached(l.mined, c.height, c.order) && Returning(l, c.height, c.order, l') && LiveTx(l, t)
    ensures Survives(l, c, t, l')
  {
    hide Goes, Stems;
    if t.key == UNMINED {
      SameGoes(c, l.txs[t.hash]);
      assert LiveTx(l', t);
    } else if t.key.height < c.height {
      StemGoes(c, l.mined[t.key], l'.mined[t.key]);
      StemsParts(l.mined[t.key], l'.mined[t.key]);
      assert LiveTx(l', t);
    } else if t.key.index != 0 {
      assert t.key in c.order;
      StemGoes(c, l.mined[t.key], l'.txs[t.hash]);
      assert LiveTx(l', TxRef(UNMINED, t.hash));
    }
  }

  lemma RollFaithful(l: Ledger, c: Call, l': Ledger)
    requires Linked(l) && c.Roll? && Detached(l.mined, c.height, c.order) && Returning(l, c.height, c.order, l')
    ensures Faithful(l, c, l')
  {
    assert MinedOk(l.mined, l.deltas.Keys);
    hide Linked, MinedOk, Returning, Detached, ComesFrom, Survives;
    forall t | LiveTx(l', t) ensures ComesFrom(l, c, RecordAt(l', t)) { RollOrigin(l, c, l', t); }
    forall t | LiveTx(l, t) ensures Survives(l, c, t, l') { RollSurvivor(l, c, l', t); }
  }

  lemma BlockFaithful(l: Ledger, c: Call, l': Ledger)
    requires Linked(l) && c.InsertBlock? && Proper(l, c) && BlockRecorded(l, l', c.tx, c.key, c.now)
    ensures Faithful(l, c, l')
  {
    hide Linked, BlockMoved, BlockInserted, Leave, Goes, CanRemove;
    if c.key in l.mined {
      forall t | LiveTx(l, t) ensures LiveTx(l', t) && Goes(c, RecordAt(l, t), RecordAt(l', t)) {
        SameGoes(c, RecordAt(l, t));
      }
      StillFaithful(l, c, l');
    } else if c.tx.hash in l.txs {
      MovedFaithful(l, c, l');
    } else {
      var gone :| Leave(l, c.tx, gone) && BlockInserted(l, l', c.tx, c.key, c.now, gone);
      NewFaithful(l, c, gone, l');
    }
  }

  /** A proper call brings what it says and nothing else, and forgets only
      conflicts and the coinbases of detached blocks. */
  lemma StepFaithful(l: Ledger, c: Call)
    requires Linked(l) && Proper(l, c)
    ensures Step(l, c).Ok? && Faithful(l, c, Step(l, c).value)
  {
    StepRecords(l, c);
    assert PoolOk(l.txs);
    hide Linked, Step, Faithful, Proper, PoolOk;
    var l' := Step(l, c).value;
    hide PoolInserted, BlockRecorded, Debited, Credited, OnlyAt, Returning, Detached;
    match c {
      case InsertPool(tx, now) => PoolInsertFaithful(l, tx, now, l');
      case InsertBlock(tx, key, now) => BlockFaithful(l, c, l');
      case Credit(t, out, change) => CreditFaithful(l, c, l');
      case Debit(t, spent) => DebitFaithful(l, c, l');
      case Roll(height, order) => RollFaithful(l, c, l');
    }
  }

  // -------------------------------------------------------------- whole runs

  ghost predicate TxTold(calls: seq<Call>, tx: Tx) {
    exists i :: 0 <= i < |calls| && Inserts(calls[i]) && calls[i].tx == tx
  }

  ghost predicate TimeTold(calls: seq<Call>, h: Hash, received: int) {
    exists i :: 0 <= i < |calls| && Inserts(calls[i]) && calls[i].tx.hash == h && calls[i].now == received
  }

  ghost predicate CreditTold(calls: seq<Call>, h: Hash, out: nat, change: bool) {
    exists i :: 0 <= i < |calls| && calls[i].Credit? && calls[i].t.hash == h && calls[i].out == out
      && calls[i].change == change
  }

  ghost predicate DebitTold(calls: seq<Call>, h: Hash) {
    exists i :: 0 <= i < |calls| && calls[i].Debit? && calls[i].t.hash == h
  }

  /** The transaction of r, the time it was received, each of its credits with
      its change flag, and its debits, if any, were told by some call. */
  ghost predicate Told(calls: seq<Call>, r: TxRecord) {
    && TxTold(calls, r.tx) && TimeTold(calls, r.tx.hash, r.received)
    && (forall i: nat :: HasCredit(r, i) ==> CreditTold(calls, r.tx.hash, i, r.credits[i].value.change))
    && (r.debits.Some? ==> DebitTold(calls, r.tx.hash))
  }

  lemma TellMore(calls: seq<Call>, c: Call)
    ensures forall tx :: TxTold(calls, tx) ==> TxTold(calls + [c], tx)
    ensures forall h, x :: TimeTold(calls, h, x) ==> TimeTold(calls + [c], h, x)
    ensures forall h, i, b :: CreditTold(calls, h, i, b) ==> CreditTold(calls + [c], h, i, b)
    ensures forall h :: DebitTold(calls, h) ==> DebitTold(calls + [c], h)
    ensures Inserts(c) ==> TxTold(calls + [c], c.tx) && TimeTold(calls + [c], c.tx.hash, c.now)
    ensures c.Credit? ==> CreditTold(calls + [c], c.t.hash, c.out, c.change)
    ensures c.Debit? ==> DebitTold(calls + [c], c.t.hash)
  {
    var all := calls + [c];
    assert all[|calls|] == c && forall i :: 0 <= i < |calls| ==> all[i] == calls[i];
    forall tx | TxTold(calls, tx) ensures TxTold(all, tx) {
      var i :| 0 <= i < |calls| && Inserts(calls[i]) && calls[i].tx == tx;
      assert Inserts(all[i]);
    }
    forall h, x | TimeTold(calls, h, x) ensures TimeTold(all, h, x) {
      var i :| 0 <= i < |calls| && Inserts(calls[i]) && calls[i].tx.hash == h && calls[i].now == x;
      assert Inserts(all[i]);
    }
    forall h, o, b | CreditTold(calls, h, o, b) ensures CreditTold(all, h, o, b) {
      var i :| 0 <= i < |calls| && calls[i].Credit? && calls[i].t.hash == h && calls[i].out == o
        && calls[i].change == b;
      assert all[i].Credit?;
    }
    forall h | DebitTold(calls, h) ensures DebitTold(all, h) {
      var i :| 0 <= i < |calls| && calls[i].Debit? && calls[i].t.hash == h;
      assert all[i].Debit?;
    }
  }

  lemma ToldNext(calls: seq<Call>, c: Call, l: Ledger, r: TxRecord)
    requires ComesFrom(l, c, r) && forall t :: LiveTx(l, t) ==> Told(calls, RecordAt(l, t))
    ensures Told(calls + [c], r)
  {
    TellMore(calls, c);
    hide TxTold, TimeTold, CreditTold, DebitTold;
    if !New(c, r) {
      var t :| LiveTx(l, t) && Goes(c, RecordAt(l, t), r);
      hide LiveTx, RecordAt;
      var q := RecordAt(l, t);
      assert Told(calls, q);
      forall i: nat | HasCredit(r, i) ensures CreditTold(calls + [c], r.tx.hash, i, r.credits[i].value.change) {
        assert HasCredit(q, i) ==> CreditTold(calls, q.tx.hash, i, q.credits[i].value.change);
      }
    }
  }

  /** A run ends with its last call, made on the ledger l. */
  lemma LastCall(calls: seq<Call>) returns (l: Ledger)
    requires ProperRun(calls) && calls != []
    ensures ProperRun(calls[..|calls|-1]) && Run(calls[..|calls|-1]) == Ok(l)
    ensures Linked(l) && Proper(l, calls[|calls|-1]) && Applies(l, calls[|calls|-1])
    ensures Run(calls) == Step(l, calls[|calls|-1])
  {
    hide Linked, Step, Proper, Applies, UnspentComplete;
    var n := |calls| - 1;
    ShorterRun(calls, n);
    hide PeacefulRun, FrugalRun;
    RunsStayLinked(calls[..n]);
    l := Run(calls[..n]).value;
    ProperApplies(l, calls[n]);
  }

  ghost predicate AllTold(calls: seq<Call>, l: Ledger) {
    forall t :: LiveTx(l, t) ==> Told(calls, RecordAt(l, t))
  }

  lemma AllToldNext(calls: seq<Call>, c: Call, l: Ledger, l': Ledger)
    requires AllTold(calls, l) && Faithful(l, c, l')
    ensures AllTold(calls + [c], l')
  {
    hide Told, ComesFrom, Survives, LiveTx, RecordAt;
    forall t | LiveTx(l', t) ensures Told(calls + [c], RecordAt(l', t)) { ToldNext(calls, c, l, RecordAt(l', t)); }
  }

  lemma NothingTold()
    ensures Run([]) == Ok(EMPTY) && AllTold([], EMPTY)
  {
  }

  lemma StepTold(calls: seq<Call>, l: Ledger, c: Call)
    requires Linked(l) && Proper(l, c) && AllTold(calls, l)
    ensures Applies(l, c) && Step(l, c).Ok? && AllTold(calls + [c], Step(l, c).value)
  {
    hide Linked, Step, Proper, Applies, AllTold, Faithful;
    ProperApplies(l, c);
    StepFaithful(l, c);
    AllToldNext(calls, c, l, Step(l, c).value);
  }

  /** After any proper run every record holds a transaction as it was inserted,
      received when some insert said, with just such credits and debits as were
      recorded for it. */
  lemma {:induction false} RunsTellNothingElse(calls: seq<Call>)
    requires ProperRun(calls)
    ensures Run(calls).Ok? && AllTold(calls, Run(calls).value)
  {
    hide Linked, Step, Proper, Applies, ProperRun, AllTold, Run;
    if calls == [] {
      NothingTold();
    } else {
      var n := |calls| - 1;
      var l := LastCall(calls);
      RunsTellNothingElse(calls[..n]);
      StepTold(calls[..n], l, calls[n]);
      assert calls == calls[..n] + [calls[n]];
    }
  }

  /** r' has the transaction of r, its credits with their flags, and its debits. */
  ghost predicate Contains(r: TxRecord, r': TxRecord) {
    && r'.tx == r.tx && (r.debits.Some? ==> r'.debits.Some?)
    && forall i: nat :: HasCredit(r, i) ==> HasCredit(r', i) && r'.credits[i].value.change == r.credits[i].value.change
  }

  ghost predicate Remembers(l: Ledger, r: TxRecord) {
    exists t :: LiveTx(l, t) && Contains(r, RecordAt(l, t))
  }

  /** c takes out the record of tx: it conflicts with the transaction that c
      mines, or is the coinbase of a block that c detaches. */
  ghost predicate TakesOut(l: Ledger, c: Call, tx: Tx) {
    exists t :: LiveTx(l, t) && RecordAt(l, t).tx == tx
      && ((c.InsertBlock? && t.key == UNMINED && exists gone :: Leave(l, c.tx, gone) && t.hash in gone)
          || (c.Roll? && t.key != UNMINED && t.key.index == 0 && c.height <= t.key.height))
  }

  lemma RemembersNext(l: Ledger, c: Call, l': Ledger, r: TxRecord)
    requires Remembers(l, r) && Faithful(l, c, l') && !TakesOut(l, c, r.tx)
    ensures Remembers(l', r)
  {
    var t :| LiveTx(l, t) && Contains(r, RecordAt(l, t));
    hide Leave, LiveTx, RecordAt, ComesFrom;
    assert Survives(l, c, t, l');
    var t' :| LiveTx(l', t') && Goes(c, RecordAt(l, t), RecordAt(l', t'));
    GoesContains(c, r, RecordAt(l, t), RecordAt(l', t'));
  }

  lemma GoesContains(c: Call, r: TxRecord, q: TxRecord, q': TxRecord)
    requires Contains(r, q) && Goes(c, q, q')
    ensures Contains(r, q')
  {
  }

  /** What the store has recorded of a transaction after the first n calls of a
      proper run it has at the end, unless a later call takes that transaction
      out. */
  lemma {:induction false} RunsForgetNothing(calls: seq<Call>, n: nat, r: TxRecord)
    requires ProperRun(calls) && n <= |calls| && Run(calls[..n]).Ok? && Remembers(Run(calls[..n]).value, r)
    requires forall i :: n <= i < |calls| && Run(calls[..i]).Ok? ==> !TakesOut(Run(calls[..i]).value, calls[i], r.tx)
    ensures Run(calls).Ok? && Remembers(Run(calls).value, r)
    decreases |calls|
  {
    hide Linked, Step, Proper, Applies, Remembers, TakesOut, Faithful;
    if n == |calls| {
      assert calls[..n] == calls;
    } else {
      var m := |calls| - 1;
      var c := calls[m];
      var l := LastCall(calls);
      assert forall i :: 0 <= i <= m ==> calls[..m][..i] == calls[..i];
      RunsForgetNothing(calls[..m], n, r);
      StepFaithful(l, c);
      RemembersNext(l, c, Step(l, c).value, r);
    }
  }
}
