/** Whole runs of the store, from the empty ledger on. */
module Runs {
  import opened TxTypes
  import opened Ledgers
  import opened LedgerInv
  import opened LedgerOps
  import opened InsertProof
  import opened MoveProof
  import opened DebitProof
  import opened DebitRuns
  import opened Conflicts
  import opened ConflictProof
  import opened Cascade
  import opened ConflictLinks
  import opened Rollbacks
  import opened RollbackProof
  import opened Balances
  import opened BalanceProof
  import opened Accounting
  import opened DebitAccounts
  import opened MoveAccounts
  import opened PoolAccounts
  import opened Sums

  /** One call of the store's interface.  A rollback carries the order in which
      the detached transactions are returned. */
  datatype Call =
    | InsertPool(tx: Tx, now: int)
    | InsertBlock(tx: Tx, key: BlockTxKey, now: int)
    | Credit(t: TxRef, out: nat, change: bool)
    | Debit(t: TxRef, spent: seq<CreditRef>)
    | Roll(height: int, order: seq<BlockTxKey>)

  /** A number above every hash of the pool. */
  ghost function Bound(txs: Pool): (b: nat)
    ensures Conflicts.Below(txs, b)
    decreases txs.Keys
  {
    if txs.Keys == {} then 0 else
    var h :| h in txs.Keys;
    var b := Bound(txs - {h});
    assert forall x :: x in txs ==> x == h || x in txs - {h};
    if b <= h then h + 1 else b
  }

  /** The first unconfirmed transaction that shares an input with ins. */
  function FindDoubleSpend(prev: map<OutPoint, Hash>, ins: seq<OutPoint>): (r: Option<Hash>)
    ensures r.Some? ==> exists op :: op in ins && op in prev && prev[op] == r.value
    ensures r.None? <==> forall op :: op in ins ==> op !in prev
  {
    if ins == [] then None
    else if ins[0] in prev then Some(prev[ins[0]])
    else FindDoubleSpend(prev, ins[1..])
  }

  /** A transaction seen in a block: known at that place, known unconfirmed, or
      new - then the first transaction it double spends is removed. */
  ghost function InsertMined(l: Ledger, tx: Tx, key: BlockTxKey, now: int): Result<Ledger>
    requires Linked(l)
  {
    if key in l.mined then
      if l.mined[key].tx.hash == tx.hash then Ok(l) else Err(InconsistentStore)
    else if tx.hash in l.txs then Ok(MoveMined(l, tx.hash, key))
    else match FindDoubleSpend(l.prevOuts, tx.inputs)
      case None => Ok(AppendMined(l, tx, key, now))
      case Some(h) =>
        ConflictKnown(l, tx.inputs, h);
        match RemoveConflict(l, h, Bound(l.txs))
        case Err(e) => Err(e)
        case Ok(l') => Ok(AppendMined(l', tx, key, now))
  }

  lemma ConflictKnown(l: Ledger, ins: seq<OutPoint>, h: Hash)
    requires Linked(l) && exists op :: op in ins && op in l.prevOuts && l.prevOuts[op] == h
    ensures h in l.txs && l.txs[h].tx.hash == h && Sound(l)
  {
    LinkedIsPoolLinked(l);
  }

  ghost function Step(l: Ledger, c: Call): Result<Ledger>
    requires Linked(l) && Applies(l, c)
  {
    match c
    case InsertPool(tx, now) => Ok(InsertUnmined(l, tx, now))
    case InsertBlock(tx, key, now) => InsertMined(l, tx, key, now)
    case Credit(t, out, change) => AddCredit(l, t, out, change)
    case Debit(t, spent) => AddDebits(l, t, spent)
    case Roll(height, order) => Rollback(l, height, order)
  }

  /** The handles of c are current. */
  ghost predicate Applies(l: Ledger, c: Call) {
    match c
    case InsertPool(_, _) => true
    case InsertBlock(_, _, _) => true
    case Credit(t, _, _) => LiveTx(l, t)
    case Debit(t, _) => LiveTx(l, t)
    case Roll(height, order) => Detached(l.mined, height, order)
  }

  /** The credits a debit call records. */
  ghost function Recorded(l: Ledger, t: TxRef, spent: seq<CreditRef>): seq<CreditRef>
    requires LiveTx(l, t)
  {
    if spent != [] then spent
    else match FindCredits(l, RecordAt(l, t).tx.inputs)
      case Ok(found) => found
      case Err(_) => []
  }

  /** The unconfirmed transaction that inserting tx in a block removes. */
  function Victim(l: Ledger, tx: Tx, key: BlockTxKey): Option<Hash> {
    if key in l.mined || tx.hash in l.txs then None else FindDoubleSpend(l.prevOuts, tx.inputs)
  }

  /** The callers' side of the contract. */
  ghost predicate Proper(l: Ledger, c: Call) {
    Applies(l, c) &&
    match c
    case InsertPool(tx, _) => CanInsertUnmined(l, tx)
    case InsertBlock(tx, key, _) =>
      if key in l.mined then l.mined[key].tx.hash == tx.hash
      else if tx.hash in l.txs then CanMove(l, tx.hash, key)
      else CanAppend(l, tx, key) && (Victim(l, tx, key).Some? ==> CanRemove(l, Victim(l, tx, key).value))
    case Credit(t, out, _) => out < |RecordAt(l, t).tx.outputs|
    case Debit(t, spent) =>
      if RecordAt(l, t).debits.Some? then spent == [] else CanDebit(l, t, Recorded(l, t, spent))
    case Roll(height, _) => NoInnerSpend(l.mined, height) && NoCoinbaseCredit(l.mined, height) && InputsApart(l, height)
  }

  /** h heads a tree of marked spends that nothing outside of it spends from,
      and that spends no other marked credit. */
  ghost predicate CanRemove(l: Ledger, h: Hash) {
    Treelike(l.txs, l.spentUnconf, h) && Closed(l, Descendants(l, h))
  }

  /** This is exactly when removing h succeeds and keeps every link. */
  lemma RemovalIff(l: Ledger, h: Hash, bound: nat)
    requires Linked(l) && h in l.txs && Conflicts.Below(l.txs, bound)
    ensures Sound(l) && l.txs[h].tx.hash == h
    ensures var res := RemoveConflict(l, h, bound);
            (res.Ok? && Linked(res.value) <==> CanRemove(l, h))
            && (res.Ok? ==> res.value == RemoveSet(l, Descendants(l, h)))
  {
    hide Linked, PoolLinked, Treelike, Closed, Descendants, RemoveSet, RemoveConflict;
    LinkedIsPoolLinked(l);
    ConflictGone(l, h, bound);
    RemoveKeepsLinksIff(l, Descendants(l, h));
  }

  /** c does not mine a transaction whose outputs are already spent. */
  ghost predicate Frugal(l: Ledger, c: Call) {
    c.InsertBlock? && c.key !in l.mined && c.tx.hash in l.txs ==> Unclaimed(l, c.tx.hash)
  }

  /** c frees no mined credit by removing a conflict. */
  ghost predicate Peaceful(l: Ledger, c: Call) {
    c.InsertBlock? && Victim(l, c.tx, c.key).Some? ==>
      OutsOf(l.spentOuts, Descendants(l, Victim(l, c.tx, c.key).value)) == {}
  }

  // ------------------------------------------------------------- single steps

  lemma InsertBlockKeeps(l: Ledger, tx: Tx, key: BlockTxKey, now: int)
    requires Linked(l) && Proper(l, InsertBlock(tx, key, now)) && Victim(l, tx, key).None?
    ensures InsertMined(l, tx, key, now).Ok?
    ensures var l' := InsertMined(l, tx, key, now).value;
            Linked(l') && (UnspentComplete(l.mined, l.unspent) ==> UnspentComplete(l'.mined, l'.unspent))
  {
    hide Linked, UnspentComplete, CanMove, CanAppend;
    if key !in l.mined {
      if tx.hash in l.txs { MoveKeepsLinks(l, tx.hash, key); }
      else { AppendKeepsLinks(l, tx, key, now); }
    }
  }

  lemma StillFresh(l: Ledger, ds: set<Hash>, tx: Tx, key: BlockTxKey)
    requires CanAppend(l, tx, key)
    ensures CanAppend(RemoveSet(l, ds), tx, key)
  {
    RelinkRelinks(l.mined, OutsOf(l.spentOuts, ds), None);
  }

  /** A new mined transaction removes exactly the first transaction it double
      spends and everything that descends from it. */
  lemma InsertConflictIs(l: Ledger, tx: Tx, key: BlockTxKey, now: int)
    requires Linked(l) && Proper(l, InsertBlock(tx, key, now)) && Victim(l, tx, key).Some?
    ensures var h := Victim(l, tx, key).value;
            InsertMined(l, tx, key, now) == Ok(AppendMined(RemoveSet(l, Descendants(l, h)), tx, key, now))
  {
    var h := Victim(l, tx, key).value;
    ConflictKnown(l, tx.inputs, h);
    LinkedIsPoolLinked(l);
    hide Linked, PoolLinked, Treelike, RemoveConflict, RemoveSet, AppendMined;
    ConflictGone(l, h, Bound(l.txs));
  }

  lemma InsertConflictKeeps(l: Ledger, tx: Tx, key: BlockTxKey, now: int)
    requires Linked(l) && Proper(l, InsertBlock(tx, key, now)) && Victim(l, tx, key).Some?
    ensures InsertMined(l, tx, key, now).Ok? && Linked(InsertMined(l, tx, key, now).value)
    ensures var l' := InsertMined(l, tx, key, now).value;
            UnspentComplete(l.mined, l.unspent) && Peaceful(l, InsertBlock(tx, key, now)) ==>
                  UnspentComplete(l'.mined, l'.unspent)
  {
    var ds := Descendants(l, Victim(l, tx, key).value);
    InsertConflictIs(l, tx, key, now);
    hide Linked, UnspentComplete, CanAppend, Treelike, Closed, InsertMined, Descendants, RemoveSet;
    RemoveKeepsLinks(l, ds);
    StillFresh(l, ds, tx, key);
    AppendKeepsLinks(RemoveSet(l, ds), tx, key, now);
    if UnspentComplete(l.mined, l.unspent) { RemoveKeepsUnspentIff(l, ds); }
  }

  lemma DebitAgain(l: Ledger, t: TxRef)
    requires LiveTx(l, t) && RecordAt(l, t).debits.Some?
    ensures AddDebits(l, t, []) == Ok(l)
  {
    if t.key != UNMINED && l.mined[t.key].debits.value.spends == [] {
      assert Keys([]) == [];
      assert l.mined[t.key := l.mined[t.key].(debits := Some(l.mined[t.key].debits.value.(spends := [])))] == l.mined;
    }
  }

  lemma DebitIs(l: Ledger, t: TxRef, spent: seq<CreditRef>)
    requires Linked(l) && LiveTx(l, t) && RecordAt(l, t).debits.None?
    ensures AddDebits(l, t, spent) == FirstDebits(l, t, Recorded(l, t, spent))
  {
    FindCreditsSpend(l, RecordAt(l, t).tx.inputs, RecordAt(l, t).tx.inputs);
    hide Linked, FirstDebits, FindCredits;
  }

  lemma DebitKeeps(l: Ledger, t: TxRef, spent: seq<CreditRef>)
    requires Linked(l) && Proper(l, Debit(t, spent))
    ensures AddDebits(l, t, spent).Ok?
    ensures var l' := AddDebits(l, t, spent).value;
            Linked(l') && (UnspentComplete(l.mined, l.unspent) ==> UnspentComplete(l'.mined, l'.unspent))
            && (Accounted(l) ==> Accounted(l'))
  {
    hide Linked, UnspentComplete, Accounted, AddDebits, FirstDebits, CanDebit, Recorded;
    if RecordAt(l, t).debits.Some? {
      DebitAgain(l, t);
    } else {
      DebitIs(l, t, spent);
      FirstDebitsKeepLinks(l, t, Recorded(l, t, spent));
      if Accounted(l) { FirstDebitsAccounts(l, t, Recorded(l, t, spent)); }
    }
  }

  lemma CreditSucceeds(l: Ledger, t: TxRef, out: nat, change: bool)
    requires LiveTx(l, t) && out < |RecordAt(l, t).tx.outputs|
    ensures AddCredit(l, t, out, change).Ok?
  {
  }

  /** A proper call succeeds and keeps every link two-way; the unspent map
      stays an exact scan unless a removed conflict frees mined credits. */
  lemma StepKeepsLinks(l: Ledger, c: Call)
    requires Linked(l) && Proper(l, c)
    ensures Step(l, c).Ok? && Linked(Step(l, c).value)
    ensures var l' := Step(l, c).value;
            UnspentComplete(l.mined, l.unspent) && Peaceful(l, c) ==> UnspentComplete(l'.mined, l'.unspent)
  {
    hide Linked, UnspentComplete, InsertUnmined, InsertMined, AddCredit, AddDebits, Rollback, OutsOf, Descendants;
    hide FindDoubleSpend;
    match c {
      case InsertPool(tx, now) =>
        InsertUnminedKeepsLinks(l, tx, now);
      case InsertBlock(tx, key, now) =>
        if Victim(l, tx, key).None? {
          InsertBlockKeeps(l, tx, key, now);
        } else {
          InsertConflictKeeps(l, tx, key, now);
        }
      case Credit(t, out, change) =>
        CreditSucceeds(l, t, out, change);
        AddCreditKeepsLinks(l, t, out, change);
      case Debit(t, spent) =>
        DebitKeeps(l, t, spent);
      case Roll(height, order) =>
        RollbackKeepsLinks(l, height, order);
    }
  }

  lemma InsertBlockAccounts(l: Ledger, tx: Tx, key: BlockTxKey, now: int)
    requires Linked(l) && Accounted(l) && Proper(l, InsertBlock(tx, key, now)) && Frugal(l, InsertBlock(tx, key, now))
    ensures InsertMined(l, tx, key, now).Ok? && Accounted(InsertMined(l, tx, key, now).value)
  {
    hide MinedOk, PoolOk, HashesOk, UnspentSound, SpentByOk, SpendsOk, SpentOutsOk, SpentKeysOk, SpendersOk;
    hide SpentUnconfOk, MarksOk, PrevOutsOk;
    hide Accounted, CanMove, Unclaimed, Closed, Treelike, Descendants, AppendMined, MoveMined, RemoveConflict;
    if key !in l.mined {
      if tx.hash in l.txs {
        MoveKeepsAccounts(l, tx.hash, key);
      } else if Victim(l, tx, key).None? {
        AppendAccounts(l, tx, key, now);
      } else {
        var ds := Descendants(l, Victim(l, tx, key).value);
        InsertConflictIs(l, tx, key, now);
        StillFresh(l, ds, tx, key);
        RemoveKeepsLinks(l, ds);
        RemoveAccounts(l, ds);
        AppendAccounts(RemoveSet(l, ds), tx, key, now);
      }
    }
  }

  /** A proper call that does not mine claimed outputs keeps the amounts. */
  lemma StepKeepsAccounts(l: Ledger, c: Call)
    requires Linked(l) && Accounted(l) && Proper(l, c) && Frugal(l, c)
    ensures Step(l, c).Ok? && Accounted(Step(l, c).value)
  {
    hide Linked, Accounted, UnspentComplete, InsertUnmined, InsertMined, AddCredit, AddDebits, Rollback, OutsOf;
    hide Descendants, FindDoubleSpend;
    StepKeepsLinks(l, c);
    match c {
      case InsertPool(tx, now) => InsertUnminedAccounts(l, tx, now);
      case InsertBlock(tx, key, now) => InsertBlockAccounts(l, tx, key, now);
      case Credit(t, out, change) => AddCreditAccounts(l, t, out, change);
      case Debit(t, spent) => DebitKeeps(l, t, spent);
      case Roll(height, order) => RollbackAccounts(l, height, order);
    }
  }

  // --------------------------------------------------------------- whole runs

  /** The ledger after a sequence of calls on a new store. */
  ghost function Run(calls: seq<Call>): Result<Ledger> {
    if calls == [] then Ok(EMPTY) else
    match Run(calls[..|calls|-1])
    case Err(e) => Err(e)
    case Ok(l) => if Linked(l) && Applies(l, calls[|calls|-1]) then Step(l, calls[|calls|-1])
      else Err(InconsistentStore)
  }

  ghost predicate ProperRun(calls: seq<Call>) {
    forall i :: 0 <= i < |calls| && Run(calls[..i]).Ok? ==> Proper(Run(calls[..i]).value, calls[i])
  }

  ghost predicate FrugalRun(calls: seq<Call>) {
    forall i :: 0 <= i < |calls| && Run(calls[..i]).Ok? ==> Frugal(Run(calls[..i]).value, calls[i])
  }

  ghost predicate PeacefulRun(calls: seq<Call>) {
    forall i :: 0 <= i < |calls| && Run(calls[..i]).Ok? ==> Peaceful(Run(calls[..i]).value, calls[i])
  }

  lemma EmptyOk()
    ensures Linked(EMPTY) && UnspentComplete(EMPTY.mined, EMPTY.unspent) && Accounted(EMPTY)
  {
  }

  lemma {:induction false} ShorterRun(calls: seq<Call>, n: nat)
    requires n <= |calls|
    ensures ProperRun(calls) ==> ProperRun(calls[..n])
    ensures FrugalRun(calls) ==> FrugalRun(calls[..n])
    ensures PeacefulRun(calls) ==> PeacefulRun(calls[..n])
  {
    hide Proper, Frugal, Peaceful;
    assert forall i :: 0 <= i < n ==> calls[..n][..i] == calls[..i];
  }

  /** In every proper run no call fails, and spend tracking is two-way at
      every point; the unspent map is exactly the scan of unspent mined credits
      as long as no conflict removal frees mined credits. */
  lemma {:induction false} RunsStayLinked(calls: seq<Call>)
    requires ProperRun(calls)
    ensures Run(calls).Ok? && Linked(Run(calls).value)
    ensures PeacefulRun(calls) ==> UnspentComplete(Run(calls).value.mined, Run(calls).value.unspent)
  {
    if calls == [] {
      EmptyOk();
    } else {
      var n := |calls| - 1;
      ShorterRun(calls, n);
      hide Linked, UnspentComplete, Step, Proper, Peaceful;
      RunsStayLinked(calls[..n]);
      var l := Run(calls[..n]).value;
      assert Applies(l, calls[n]) by { ProperApplies(l, calls[n]); }
      StepKeepsLinks(l, calls[n]);
    }
  }

  lemma ProperApplies(l: Ledger, c: Call)
    requires Proper(l, c)
    ensures Applies(l, c)
  {
  }

  lemma {:induction false} RunsStayAccounted(calls: seq<Call>)
    requires ProperRun(calls) && FrugalRun(calls)
    ensures Run(calls).Ok? && Accounted(Run(calls).value)
  {
    if calls == [] {
      EmptyOk();
    } else {
      var n := |calls| - 1;
      ShorterRun(calls, n);
      hide Linked, Accounted, UnspentComplete, Step, Proper, Frugal, Peaceful;
      RunsStayLinked(calls[..n]);
      RunsStayAccounted(calls[..n]);
      var l := Run(calls[..n]).value;
      ProperApplies(l, calls[n]);
      StepKeepsAccounts(l, calls[n]);
    }
  }

  /** In every proper run that never mines a transaction with spent outputs,
      the balance from block amounts is the sum over all unspent credits, and at
      depth 0 over the overlooked ones, at any depth and any height that no
      block exceeds and at which the spent coinbases are mature. */
  lemma BalanceOverRuns(calls: seq<Call>, minConf: int, height: int)
    requires ProperRun(calls) && FrugalRun(calls) && Run(calls).Ok?
    requires SpentMature(Run(calls).value.mined, height) && forall h :: h in Run(calls).value.deltas ==> h <= height
    ensures var l := Run(calls).value;
            FastBalance(l, minConf, height) == ScanBalance(l, minConf, height) + OverlookedValue(l, minConf)
  {
    hide Linked, Accounted, Run, ProperRun, FrugalRun, FastBalance, ScanBalance, OverlookedValue;
    RunsStayLinked(calls);
    RunsStayAccounted(calls);
    BalanceIsScanIff(Run(calls).value, minConf, height);
  }

  /** On such runs with non-negative outputs the reported balance is never
      negative and never grows with the depth asked for; so the unconfirmed
      remainder, the balance at depth 0 less that at a depth, is never negative
      either. */
  lemma RemainderOverRuns(calls: seq<Call>, minConf: nat, more: nat, height: int)
    requires ProperRun(calls) && FrugalRun(calls) && Run(calls).Ok? && NoNegativeOutput(Run(calls).value)
    requires minConf <= more
    requires SpentMature(Run(calls).value.mined, height) && forall h :: h in Run(calls).value.deltas ==> h <= height
    ensures 0 <= FastBalance(Run(calls).value, more, height) <= FastBalance(Run(calls).value, minConf, height)
  {
    hide Run, ProperRun, FrugalRun, FastBalance, ScanBalance, OverlookedValue;
    BalanceOverRuns(calls, minConf, height);
    BalanceOverRuns(calls, more, height);
    ScanShrinks(Run(calls).value, minConf, more, height);
  }
}
