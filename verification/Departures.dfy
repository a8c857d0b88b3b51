/** Small ledgers on which the store does something other than its comments
    say.  The exact conditions are proved beside the operations. */
module Departures {
  import opened TxTypes
  import opened Ledgers
  import opened LedgerInv
  import LedgerOps
  import InsertProof
  import opened MoveProof
  import opened Conflicts
  import opened ConflictProof
  import opened Cascade
  import opened ConflictLinks
  import opened Rollbacks
  import opened CoinbaseRollback
  import RollbackProof
  import opened Sums
  import opened Balances
  import opened Runs
  import BalanceProof
  import Stores
  import Reorgs
  import ReorgTheorem
  import ReorgMarks

  const OUTPUT := OutPoint(1, 0)
  const OTHER := OutPoint(1, 1)
  const HERE := BlockTxKey(1, 5)
  const ABOVE := BlockTxKey(1, 6)
  const MINT := BlockTxKey(0, 5)
  const SPENT := BlockOutputKey(HERE, 0)

  function Parent(credits: seq<Option<Credit>>, index: int): TxRecord {
    TxRecord(RawTx(1, [], [5, 7]), index, None, credits, 0)
  }

  function Child(inputs: seq<OutPoint>, debits: Option<Debits>, index: int): (r: TxRecord)
    requires forall i :: 0 <= i < |inputs| ==> inputs[i].hash < 2
    ensures forall op :: op in r.tx.inputs <==> op in inputs
  {
    TxRecord(RawTx(2, inputs, []), index, debits, [], 0)
  }

  function Free(): Option<Credit> { Some(Credit.Credit(false, None)) }
  function Taken(k: BlockTxKey): Option<Credit> { Some(Credit.Credit(false, Some(k))) }

  /** A mined transaction of no interest to the wallet. */
  const FAR := BlockTxKey(1, 2)

  function Bystander(): TxRecord { TxRecord(RawTx(0, [], []), 1, None, [], 0) }

  // ------------------------------------------------------- nothing mined yet

  /** Only unconfirmed transactions matter. */
  function PoolOnly(txs: Pool, su: map<OutPoint, Hash>, prev: map<OutPoint, Hash>): (l: Ledger)
    ensures l.mined.Keys == {FAR} && l.mined[FAR] == Bystander() && l.deltas.Keys == {2} && l.deltas[2] == Amounts(0, 0)
    ensures l.unspent.Keys == {} && l.spentOuts.Keys == {} && l.spentKeys.Keys == {}
    ensures l.txs == txs && l.spentUnconf == su && l.prevOuts == prev
  {
    Ledger(map[FAR := Bystander()], map[2 := Amounts(0, 0)], map[], txs, map[], map[], su, prev)
  }

  lemma PoolOnlyLinked(txs: Pool, su: map<OutPoint, Hash>, prev: map<OutPoint, Hash>)
    requires PoolOk(txs) && SpentUnconfOk(txs, su) && MarksOk(txs, su) && PrevOutsOk(txs, prev) && 0 !in txs
    ensures Linked(PoolOnly(txs, su, prev))
  {
    hide PoolOk, SpentUnconfOk, MarksOk, PrevOutsOk, PoolOnly;
    var l := PoolOnly(txs, su, prev);
    assert forall p :: !IsCredit(l.mined, p);
    assert forall k, p :: !Lists(l.mined, k, p);
  }

  /** An unconfirmed transaction with one output, or two, that another spends. */
  function Pair(credits: seq<Option<Credit>>, inputs: seq<OutPoint>): Ledger
    requires forall i :: 0 <= i < |inputs| ==> inputs[i].hash < 2
  {
    var spent := map op | op in inputs :: 2;
    PoolOnly(map[1 := Parent(credits, INDEX_UNKNOWN), 2 := Child(inputs, Some(Debits(0, [])), INDEX_UNKNOWN)], spent,
        spent)
  }

  lemma PairLinked(credits: seq<Option<Credit>>, inputs: seq<OutPoint>)
    requires |credits| <= 2 && inputs != [] && forall i :: 0 <= i < |inputs| ==>
               inputs[i].hash == 1 && HasCredit(Parent(credits, 0), inputs[i].index)
    requires forall i: nat :: HasCredit(Parent(credits, 0), i) && credits[i].value.spentBy.Some? ==>
               credits[i].value.spentBy == Some(UNMINED) && OutPoint(1, i) in inputs
    ensures Linked(Pair(credits, inputs)) && Below(Pair(credits, inputs).txs, 3)
  {
    var l := Pair(credits, inputs);
    hide PoolOnly;
    assert l.txs.Keys == {1, 2};
    forall op | op in l.spentUnconf ensures Spender(l.txs, l.spentUnconf[op], op) {}
    PoolOnlyLinked(l.txs, l.spentUnconf, l.prevOuts);
  }

  /** A conflict whose credit is not marked leaves the spender of its output
      behind, without a parent. */
  lemma OrphanLeft()
    ensures var l := Pair([Free()], [OUTPUT]);
            Linked(l) && Below(l.txs, 3) && Sound(l) && l.txs[1].tx.hash == 1
            && RemoveConflict(l, 1, 3).Ok? && !Linked(RemoveConflict(l, 1, 3).value)
  {
    var l := Pair([Free()], [OUTPUT]);
    PairLinked([Free()], [OUTPUT]);
    hide Linked, PoolOnly, RemoveSet;
    LinkedIsPoolLinked(l);
    assert OUTPUT in l.spentUnconf && l.spentUnconf[OUTPUT] == 2;
    RemoveUnmarkedIff(l, 1, 3);
  }

  /** A conflict two of whose marked credits have the same spender cannot be
      removed. */
  lemma DiamondFails()
    ensures var l := Pair([Taken(UNMINED), Taken(UNMINED)], [OUTPUT, OTHER]);
            Linked(l) && Below(l.txs, 3) && Sound(l) && l.txs[1].tx.hash == 1 && RemoveConflict(l, 1, 3).Err?
  {
    var l := Pair([Taken(UNMINED), Taken(UNMINED)], [OUTPUT, OTHER]);
    PairLinked([Taken(UNMINED), Taken(UNMINED)], [OUTPUT, OTHER]);
    hide Linked, PoolOnly, RemoveSet, RemoveConflict, PoolLinked, Links;
    LinkedIsPoolLinked(l);
    ConflictGone(l, 1, 3);
    assert Visited(l.txs, l.spentUnconf, 1, OUTPUT) && Visited(l.txs, l.spentUnconf, 1, OTHER);
    assert OUTPUT in l.spentUnconf && OTHER in l.spentUnconf && l.spentUnconf[OUTPUT] == l.spentUnconf[OTHER];
  }

  /** Mining the parent of a spent output makes the balance negative: the block
      gains nothing for the spent credit, yet the spend is subtracted. */
  lemma MiningSpentParent()
    ensures var l := Pair([Free()], [OUTPUT]);
            Linked(l) && Accounted(l) && CanMove(l, 1, HERE) && |l.txs[1].credits| <= |l.txs[1].tx.outputs|
            && FastBalance(MoveMined(l, 1, HERE), 1, 5) == -5 && ScanBalance(MoveMined(l, 1, HERE), 1, 5) == 0
  {
    hide Linked, Accounted, Pair, MoveMined, FastBalance, ScanBalance, JustMined;
    var l := Pair([Free()], [OUTPUT]);
    PairLinked([Free()], [OUTPUT]);
    PairAccounted();
    PairCanMove(l);
    PairMined(l);
    MinedBalance(MoveMined(l, 1, HERE));
  }

  /** An unconfirmed output that an unconfirmed transaction spends is counted in
      the balance at depth 0. */
  lemma SpentOutputCounted()
    ensures var l := Pair([Free()], [OUTPUT]);
            Linked(l) && Accounted(l) && FastBalance(l, 0, 2) == 5 && ScanBalance(l, 0, 2) == 0
  {
    var l := Pair([Free()], [OUTPUT]);
    PairLinked([Free()], [OUTPUT]);
    PairAccounted();
    PairOverlooked(l);
    PairScan(l);
    hide Pair, Linked, Accounted, FastBalance, ScanBalance, Overlooked;
    BalanceProof.BalanceIsScanIff(l, 0, 2);
  }

  /** And it is on the list of unspent outputs. */
  lemma SpentOutputListed()
    ensures var l, c := Pair([Free()], [OUTPUT]), LedgerOps.CreditRef(LedgerOps.TxRef(UNMINED, 1), 0);
            Linked(l) && Stores.PoolListed(l.txs, c) && !Stores.Free(l, c) && c.Op() in l.spentUnconf
  {
    PairLinked([Free()], [OUTPUT]);
    hide PoolOnly, Linked;
  }

  lemma PairOverlooked(l: Ledger)
    requires l == Pair([Free()], [OUTPUT])
    ensures OverlookedValue(l, 0) == 5
  {
    hide PoolOnly;
    assert Overlooked(l.txs, l.spentUnconf) == {OUTPUT};
    SumOne(OUTPUT, OutputValueIn(l.txs));
  }

  lemma PairScan(l: Ledger)
    requires l == Pair([Free()], [OUTPUT])
    ensures ScanBalance(l, 0, 2) == 0 && SpentMature(l.mined, 2) && forall h :: h in l.deltas ==> h <= 2
  {
    hide PoolOnly, Sum;
    assert forall p :: !IsCredit(l.mined, p);
    assert Countable(l.mined, 0, 2) == {};
    SumEmpty(ValueIn(l.mined));
    assert UnspentValue(l.txs[1], l.spentUnconf, 1) == UnspentValue(l.txs[1], l.spentUnconf, 0);
    SumZero(l.txs.Keys, UnspentIn(l.txs, l.spentUnconf));
  }

  lemma PairCanMove(l: Ledger)
    requires l == Pair([Free()], [OUTPUT])
    ensures CanMove(l, 1, HERE)
  {
    hide PoolOnly;
  }

  lemma PairAccounted()
    ensures Accounted(Pair([Free()], [OUTPUT]))
  {
    var l := Pair([Free()], [OUTPUT]);
    hide PoolOnly;
    assert OUTPUT in l.txs[2].tx.inputs && OUTPUT in l.spentUnconf;
    assert CreditsAt(l.mined, 2, false) == {} && CreditsAt(l.mined, 2, true) == {} && TxsAt(l.mined, 2) == {FAR};
    SumEmpty(ValueIn(l.mined));
    SumOne(FAR, AmountIn(l.mined));
    assert KeySet(Spends(Bystander())) == {};
  }

  lemma SumOne<T(!new)>(x: T, f: T -> int)
    ensures Sum({x}, f) == f(x)
  {
    SumTake({x}, f, x);
    assert {x} - {x} == {};
    SumEmpty(f);
  }

  /** The parent of a spent output, just mined. */
  ghost predicate JustMined(l: Ledger) {
    && l.mined.Keys == {FAR, HERE} && l.mined[FAR].credits == [] && l.mined[HERE].credits == [Taken(UNMINED)]
    && l.mined[HERE].tx.outputs == [5, 7]
    && l.deltas.Keys == {2, 5} && l.deltas[2] == Amounts(0, 0) && l.deltas[5] == Amounts(0, 0)
    && l.spentOuts.Keys == {SPENT}
  }

  lemma PairMined(l: Ledger)
    requires l == Pair([Free()], [OUTPUT])
    ensures |l.txs[1].credits| <= |l.txs[1].tx.outputs| && JustMined(MoveMined(l, 1, HERE))
  {
    hide PoolOnly, MovedUnspent, MovedKeys, InputSpends;
    var r, su := l.txs[1], l.spentUnconf;
    assert InputOuts(r.tx.inputs, l.spentKeys) == {};
    RelinkNone(l.mined, Some(HERE));
    hide Relink, InputOuts;
    assert CreditGain(r, su, 1) == CreditGain(r, su, 0);
    assert OwnSpent(r, su) == {OUTPUT};
    assert OutKeys(HERE, {OUTPUT}) == {SPENT};
  }

  /** Mining such a parent and rolling back marks its credit: the ledger does
      not come back as it was. */
  lemma UnmarkedComesBackMarked()
    ensures var l, moves := Pair([Free()], [OUTPUT]), [ReorgTheorem.Move(1, HERE)];
            Linked(l) && Detached(ReorgTheorem.MoveAll(l, moves).mined, 5, [HERE])
            && Rollback(ReorgTheorem.MoveAll(l, moves), 5, [HERE]).Ok?
            && Rollback(ReorgTheorem.MoveAll(l, moves), 5, [HERE]) != Ok(l)
  {
    var l, moves := Pair([Free()], [OUTPUT]), [ReorgTheorem.Move(1, HERE)];
    PairLinked([Free()], [OUTPUT]);
    OneMove(l, moves);
    hide Linked, Pair, Reorgs.Separable, ReorgTheorem.MoveAll, ReorgMarks.AllMarked, Detached, Rollback;
    ReorgMarks.MineThenRollback(l, moves, 5, [HERE]);
  }

  lemma OneMove(l: Ledger, moves: seq<ReorgTheorem.Move>)
    requires l == Pair([Free()], [OUTPUT]) && moves == [ReorgTheorem.Move(1, HERE)]
    ensures ReorgTheorem.DistinctHashes(moves) && Reorgs.Separable(l, ReorgTheorem.AsMap(moves), 5)
    ensures Detached(ReorgTheorem.MoveAll(l, moves).mined, 5, [HERE])
    ensures !ReorgMarks.AllMarked(l, ReorgTheorem.AsMap(moves))
  {
    hide PoolOnly, MoveMined, Pair;
    OneMoved(l, moves);
    PairMined(l);
    PairParts(l);
    assert HERE in [HERE];
  }

  lemma OneMoved(l: Ledger, moves: seq<ReorgTheorem.Move>)
    requires moves == [ReorgTheorem.Move(1, HERE)]
    ensures ReorgTheorem.AsMap(moves) == map[1 := HERE]
    ensures ReorgTheorem.MoveAll(l, moves) ==
            if 1 in l.txs && |l.txs[1].credits| <= |l.txs[1].tx.outputs| then MoveMined(l, 1, HERE) else l
  {
    hide MoveMined;
    assert moves[..0] == [];
  }

  lemma PairParts(l: Ledger)
    requires l == Pair([Free()], [OUTPUT])
    ensures l.mined.Keys == {FAR} && l.deltas.Keys == {2} && 1 in l.txs && l.txs[1] == Parent([Free()], INDEX_UNKNOWN)
    ensures OUTPUT in l.spentUnconf
  {
    hide PoolOnly;
  }

  lemma MinedBalance(l: Ledger)
    requires JustMined(l)
    ensures FastBalance(l, 1, 5) == -5 && ScanBalance(l, 1, 5) == 0
  {
    hide ConfirmedBlocks, MatureBlocks, YoungTxs, ConfirmedOf, Countable, SpentConfirmedIn, SpendableIn, RewardIn;
    hide ValueIn, Confirms, Confirmed;
    MinedSets(l);
    MinedSums(l);
    SumEmpty(RewardIn(l.deltas));
    SumEmpty(SpentConfirmedIn(l.mined, 1, 5));
    SumEmpty(ValueIn(l.mined));
  }

  lemma MinedSets(l: Ledger)
    requires JustMined(l)
    ensures ConfirmedBlocks(l.deltas, 1, 5) == {2, 5} && MatureBlocks(l.deltas, 1, 5) == {}
    ensures YoungTxs(l.mined, 1, 5) == {}
    ensures ConfirmedOf(l.spentOuts.Keys, 1, 5) == {SPENT} && Countable(l.mined, 1, 5) == {}
  {
    assert IsCredit(l.mined, SPENT) && forall p :: IsCredit(l.mined, p) ==> p == SPENT;
  }

  lemma MinedSums(l: Ledger)
    requires JustMined(l)
    ensures Sum({2, 5}, SpendableIn(l.deltas)) == 0 && Sum({SPENT}, ValueIn(l.mined)) == 5
  {
    SumTake({2, 5}, SpendableIn(l.deltas), 2);
    assert {2, 5} - {2} == {5};
    SumOne(5, SpendableIn(l.deltas));
    SumOne(SPENT, ValueIn(l.mined));
  }

  // ------------------------------------------------------ an empty pool

  /** Only mined transactions matter. */
  function MinedOnly(m: map<BlockTxKey, TxRecord>, deltas: map<int, Amounts>,
      unspent: map<OutPoint, BlockTxKey>): (l: Ledger)
    ensures l.txs.Keys == {} && l.spentOuts.Keys == {} && l.spentKeys.Keys == {} && l.spentUnconf.Keys == {}
    ensures l.prevOuts.Keys == {}
    ensures l.mined == m[FAR := Bystander()] && l.deltas == deltas[2 := Amounts(0, 0)] && l.unspent == unspent
  {
    Ledger(m[FAR := Bystander()], deltas[2 := Amounts(0, 0)], unspent, map[], map[], map[], map[], map[])
  }

  /** A coinbase with an unspent credit. */
  function Mint(): Ledger {
    MinedOnly(map[MINT := Parent([Free()], 0)], map[5 := Amounts(0, 5)], map[OUTPUT := MINT])
  }

  lemma MintLinked()
    ensures Consistent(Mint()) && IsCredit(Mint().mined, BlockOutputKey(MINT, 0))
  {
    var l := Mint();
    hide MinedOnly;
    assert forall p :: IsCredit(l.mined, p) <==> p == BlockOutputKey(MINT, 0);
    assert UnspentAt(l.mined, BlockOutputKey(MINT, 0), OUTPUT);
    assert forall k, p :: !Lists(l.mined, k, p);
  }

  lemma MintSets(height: int)
    requires 103 <= height <= 104
    ensures var l := Mint();
            && ConfirmedBlocks(l.deltas, 1, height) == {2, 5}
            && MatureBlocks(l.deltas, 1, height) == (if height == 103 then {2} else {2, 5})
            && YoungTxs(l.mined, 1, height) == {} && ConfirmedOf(l.spentOuts.Keys, 1, height) == {}
            && Countable(l.mined, 1, height) == (if height == 103 then {} else {BlockOutputKey(MINT, 0)})
  {
    var l := Mint();
    hide MinedOnly;
    assert l.deltas.Keys == {2, 5};
    assert forall p :: IsCredit(l.mined, p) <==> p == BlockOutputKey(MINT, 0);
  }

  lemma MintSums()
    ensures var l := Mint();
            && Sum({2, 5}, SpendableIn(l.deltas)) == 0 && Sum({2}, RewardIn(l.deltas)) == 0
            && Sum({2, 5}, RewardIn(l.deltas)) == 5 && Sum({BlockOutputKey(MINT, 0)}, ValueIn(l.mined)) == 5
  {
    var l := Mint();
    hide MinedOnly;
    SumTake({2, 5}, SpendableIn(l.deltas), 2);
    SumTake({2, 5}, RewardIn(l.deltas), 2);
    assert {2, 5} - {2} == {5};
    SumOne(5, SpendableIn(l.deltas));
    SumOne(5, RewardIn(l.deltas));
    SumOne(2, RewardIn(l.deltas));
    SumOne(BlockOutputKey(MINT, 0), ValueIn(l.mined));
  }

  /** A coinbase mined at height 5 is no part of either balance at its 99th
      confirmation, and is at its 100th. */
  lemma CoinbaseMatures()
    ensures FastBalance(Mint(), 1, 103) == 0 && ScanBalance(Mint(), 1, 103) == 0
    ensures FastBalance(Mint(), 1, 104) == 5 && ScanBalance(Mint(), 1, 104) == 5
  {
    hide Mint, ConfirmedBlocks, MatureBlocks, YoungTxs, ConfirmedOf, Countable, SpentConfirmedIn, SpendableIn;
    hide RewardIn, ValueIn;
    var l := Mint();
    MintSets(103);
    MintSets(104);
    MintSums();
    SumEmpty(SpentConfirmedIn(l.mined, 1, 103));
    SumEmpty(SpentConfirmedIn(l.mined, 1, 104));
    SumEmpty(ValueIn(l.mined));
  }

  /** Detaching a block whose coinbase has a credit breaks the links. */
  lemma CoinbaseEntryStays()
    ensures Consistent(Mint()) && Detached(Mint().mined, 5, [MINT])
    ensures Rollback(Mint(), 5, [MINT]).Ok? && !Linked(Rollback(Mint(), 5, [MINT]).value)
  {
    var l := Mint();
    MintLinked();
    hide MinedOnly, Linked, UnspentComplete, Rollback;
    assert MINT in [MINT] && HasCredit(l.mined[MINT], 0);
    RollbackKeepsLinksIff(l, 5, [MINT]);
  }

  /** An output that the next block spends. */
  function Chain(): Ledger {
    MinedOnly(map[HERE := Parent([Taken(ABOVE)], 1), ABOVE := Child([OUTPUT], Some(Debits(5, [SPENT])), 1)],
          map[5 := Amounts(5, 0), 6 := Amounts(-5, 0)], map[])
  }

  lemma ChainIs()
    ensures var m := Chain().mined;
            && m.Keys == {FAR, HERE, ABOVE} && m[FAR] == Bystander() && m[HERE] == Parent([Taken(ABOVE)], 1)
            && m[ABOVE] == Child([OUTPUT], Some(Debits(5, [SPENT])), 1) && Chain().deltas.Keys == {2, 5, 6}
            && Chain().unspent.Keys == {}
  {
    hide MinedOnly;
  }

  lemma ChainSpends(m: map<BlockTxKey, TxRecord>)
    requires m == Chain().mined
    ensures IsCredit(m, SPENT) && OpOf(m, SPENT) == OUTPUT && SpentBy(m, SPENT) == Some(ABOVE)
    ensures forall p :: IsCredit(m, p) ==> p == SPENT
    ensures SpentByOk(m, Chain().spentOuts) && SpendsOk(m)
  {
    ChainIs();
    hide Chain;
    assert SPENT in m[ABOVE].debits.value.spends && Lists(m, ABOVE, SPENT);
    assert forall k, p :: Lists(m, k, p) ==> k == ABOVE && p == SPENT;
  }

  lemma ChainLinked()
    ensures Linked(Chain())
  {
    ChainIs();
    ChainSpends(Chain().mined);
    hide MinedOnly, SpentByOk, SpendsOk;
  }

  lemma ChainDetached()
    ensures Detached(Chain().mined, 5, [ABOVE, HERE]) && !RollbackProof.NoInnerSpend(Chain().mined, 5)
  {
    ChainIs();
    hide Chain;
    assert HERE in [ABOVE, HERE] && ABOVE in [ABOVE, HERE] && SPENT in Spends(Chain().mined[ABOVE]);
  }

  /** Detaching both blocks at once fails. */
  lemma TwoBlockRollbackFails()
    ensures Linked(Chain()) && Detached(Chain().mined, 5, [ABOVE, HERE]) && Rollback(Chain(), 5, [ABOVE, HERE]).Err?
  {
    ChainLinked();
    ChainDetached();
    hide Linked, Rollback, Chain;
    RollbackProof.RollbackSucceedsIff(Chain(), 5, [ABOVE, HERE]);
  }

  const RIVAL := RawTx(3, [OUTPUT], [])

  /** A mined transaction that spends an output of no interest to the wallet. */
  function Settled(): Ledger {
    MinedOnly(map[HERE := Child([OUTPUT], None, 1)], map[5 := Amounts(0, 0)], map[])
  }

  lemma SettledLinked()
    ensures Consistent(Settled())
  {
    var l := Settled();
    hide MinedOnly;
    assert l.mined.Keys == {FAR, HERE} && l.mined[FAR].credits == l.mined[HERE].credits == [];
    assert forall p :: !IsCredit(l.mined, p);
    assert forall k, p :: !Lists(l.mined, k, p);
  }

  lemma RivalFits()
    ensures InsertProof.CanInsertUnmined(Settled(), RIVAL)
  {
    hide MinedOnly;
  }

  /** An unconfirmed transaction that spends the same output may follow it, and
      then detaching its block leaves two in the pool that share an input. */
  lemma SharedInputReturns()
    ensures Consistent(Settled()) && InsertProof.CanInsertUnmined(Settled(), RIVAL)
    ensures var l := LedgerOps.InsertUnmined(Settled(), RIVAL, 0);
            Consistent(l) && Detached(l.mined, 5, [HERE]) && Rollback(l, 5, [HERE]).Ok?
            && !Linked(Rollback(l, 5, [HERE]).value)
  {
    var l := LedgerOps.InsertUnmined(Settled(), RIVAL, 0);
    SettledLinked();
    RivalFits();
    SharedInput(l);
    hide Settled, Linked, UnspentComplete, Rollback, RollbackProof.InputsApart, RollbackProof.NoInnerSpend, Detached;
    InsertProof.InsertUnminedKeepsLinks(Settled(), RIVAL, 0);
    RollbackKeepsLinksIff(l, 5, [HERE]);
  }

  lemma SharedInput(l: Ledger)
    requires l == LedgerOps.InsertUnmined(Settled(), RIVAL, 0)
    ensures Detached(l.mined, 5, [HERE]) && RollbackProof.NoInnerSpend(l.mined, 5) && !RollbackProof.InputsApart(l, 5)
  {
    hide MinedOnly;
    assert HERE in [HERE] && RollbackProof.DetachedTx(l.mined, 5, HERE) && OUTPUT in l.mined[HERE].tx.inputs;
    assert OUTPUT in RIVAL.inputs;
    assert OUTPUT in l.prevOuts;
  }

  // --------------------------------------------------- freed, or overlooked

  /** A mined output that an unconfirmed transaction spends. */
  function Claimed(): (l: Ledger)
    ensures l.mined.Keys == {FAR, HERE} && l.mined[FAR] == Bystander() && l.mined[HERE] == Parent([Taken(UNMINED)], 1)
    ensures l.deltas.Keys == {2, 5} && l.txs.Keys == {2}
    ensures l.txs[2] == Child([OUTPUT], Some(Debits(5, [])), INDEX_UNKNOWN)
    ensures l.spentOuts == map[SPENT := 2] && l.spentKeys == map[OUTPUT := SPENT] && l.prevOuts == map[OUTPUT := 2]
    ensures l.unspent.Keys == {} && l.spentUnconf.Keys == {}
  {
    Ledger(map[FAR := Bystander(), HERE := Parent([Taken(UNMINED)], 1)], map[2 := Amounts(0, 0), 5 := Amounts(5, 0)],
        map[],
           map[2 := Child([OUTPUT], Some(Debits(5, [])), INDEX_UNKNOWN)], map[SPENT := 2], map[OUTPUT := SPENT], map[],
               map[OUTPUT := 2])
  }

  lemma ClaimedMined(m: map<BlockTxKey, TxRecord>)
    requires m == Claimed().mined
    ensures IsCredit(m, SPENT) && OpOf(m, SPENT) == OUTPUT && SpentBy(m, SPENT) == Some(UNMINED)
    ensures forall p :: IsCredit(m, p) ==> p == SPENT
    ensures forall k, p :: !Lists(m, k, p)
    ensures SpentByOk(m, Claimed().spentOuts) && SpendsOk(m) && MinedOk(m, {2, 5}) && HashesOk(m, Claimed().txs)
  {
    hide Claimed;
  }

  lemma ClaimedPool()
    ensures var l := Claimed();
            PoolOk(l.txs) && SpendersOk(l.mined, l.txs, l.spentOuts) && SpentUnconfOk(l.txs, l.spentUnconf)
            && MarksOk(l.txs, l.spentUnconf) && PrevOutsOk(l.txs, l.prevOuts)
  {
    var l := Claimed();
    ClaimedMined(l.mined);
    hide Claimed;
    assert Spender(l.txs, 2, OUTPUT);
  }

  lemma ClaimedLinked()
    ensures Consistent(Claimed()) && Below(Claimed().txs, 3)
  {
    var l := Claimed();
    ClaimedMined(l.mined);
    ClaimedPool();
    hide Claimed, PoolOk, SpendersOk, SpentUnconfOk, MarksOk, PrevOutsOk, SpentByOk, SpendsOk, MinedOk, HashesOk;
  }

  /** The credit that removing its spender frees is not listed as unspent. */
  lemma FreedCreditUnlisted()
    ensures var l := Claimed();
            Consistent(l) && Below(l.txs, 3) && Sound(l) && l.txs[2].tx.hash == 2
            && RemoveConflict(l, 2, 3).Ok? && !Consistent(RemoveConflict(l, 2, 3).value)
  {
    var l := Claimed();
    ClaimedLinked();
    hide Claimed, Linked, UnspentComplete, RemoveSet;
    LinkedIsPoolLinked(l);
    RemoveUnmarkedIff(l, 2, 3);
    RemoveKeepsUnspentIff(l, {2});
    assert SPENT in OutsOf(l.spentOuts, {2});
  }

  const LATE := RawTx(4, [OUTPUT, OTHER], [])

  /** Two unconfirmed transactions that a third one conflicts with. */
  function TwoConflicts(): Ledger {
    PoolOnly(map[2 := Child([OUTPUT], None, INDEX_UNKNOWN),
        3 := TxRecord(RawTx(3, [OTHER], []), INDEX_UNKNOWN, None, [], 0)],
             map[], map[OUTPUT := 2, OTHER := 3])
  }

  lemma TwoConflictsInputs()
    ensures PrevOutsOk(TwoConflicts().txs, TwoConflicts().prevOuts)
  {
    hide PoolOnly;
  }

  lemma TwoConflictsLinked()
    ensures Linked(TwoConflicts()) && TwoConflicts().txs.Keys == {2, 3}
  {
    var l := TwoConflicts();
    hide PoolOnly, Linked, PrevOutsOk;
    TwoConflictsInputs();
    PoolOnlyLinked(l.txs, l.spentUnconf, l.prevOuts);
  }

  lemma FirstConflict()
    ensures var l := TwoConflicts();
            FindDoubleSpend(l.prevOuts, LATE.inputs) == Some(2) && HERE !in l.mined && 2 in l.txs
            && l.txs[2].credits == []
  {
    hide PoolOnly;
  }

  /** Mining a transaction that double spends both removes only the first. */
  lemma SecondConflictStays()
    ensures Linked(TwoConflicts())
    ensures var res := InsertMined(TwoConflicts(), LATE, HERE, 0);
            res.Ok? && HERE in res.value.mined && 2 !in res.value.txs && 3 in res.value.txs
  {
    var l := TwoConflicts();
    TwoConflictsLinked();
    FirstConflict();
    hide Linked, TwoConflicts, RemoveConflict, FindDoubleSpend;
    ConflictKnown(l, LATE.inputs, 2);
    RemoveUnmarkedIff(l, 2, Bound(l.txs));
  }
}
