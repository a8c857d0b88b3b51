/** The transaction store as the program keeps it: a list of blocks with two
    indexes, the unspent map and the maps of the unconfirmed store.  Each method
    is proved against the ledger operation it carries out. */
module Stores {
  import opened TxTypes
  import opened Ledgers
  import opened LedgerInv
  import opened LedgerOps
  import opened MoveLoops
  import opened Conflicts
  import opened RemoveLoops
  import opened ConflictProof
  import opened Rollbacks
  import opened DebitRuns
  import opened Runs
  import opened Sums
  import opened Balances
  import opened BalanceProof
  import opened BalanceLoops
  import opened Blocks
  import Splice
  import Provenance
  import opened Detaching

  class Store {
    var blocks: BlockList
    var blockIndexes: Heights
    var unspent: map<OutPoint, BlockTxKey>
    var txs: Pool
    var spentBlockOutPoints: map<BlockOutputKey, Hash>
    var spentBlockOutPointKeys: map<OutPoint, BlockOutputKey>
    var spentUnconfirmed: map<OutPoint, Hash>
    var previousOutpoints: map<OutPoint, Hash>

    ghost var ledger: Ledger

    /** The fields hold the ledger. */
    ghost predicate Valid()
      reads this
    {
      && Mirrors(blocks, blockIndexes, ledger.mined, ledger.deltas)
      && unspent == ledger.unspent
      && txs == ledger.txs
      && spentBlockOutPoints == ledger.spentOuts
      && spentBlockOutPointKeys == ledger.spentKeys
      && spentUnconfirmed == ledger.spentUnconf
      && previousOutpoints == ledger.prevOuts
    }

    /** The height index names no block past the end of the list. */
    ghost predicate Settled()
      reads this
    {
      InUse(blockIndexes, |blocks|)
    }

    constructor ()
      ensures Valid() && Settled() && ledger == EMPTY
    {
      blocks, blockIndexes := [], map[];
      unspent, txs := map[], map[];
      spentBlockOutPoints, spentBlockOutPointKeys := map[], map[];
      spentUnconfirmed, previousOutpoints := map[], map[];
      ledger := EMPTY;
    }

    // -------------------------------------------------------------- lookups

    method LookupBlock(height: int) returns (res: Result<BlockTxs>)
      requires Valid()
      ensures res.Ok? <==> height in ledger.deltas
      ensures res.Ok? ==> res.value.amounts == ledger.deltas[height] && res.value == blocks[blockIndexes[height]]
      ensures res.Err? && Settled() ==> res.error == MissingBlock
    {
      MirrorsAmounts(blocks, blockIndexes, ledger.mined, ledger.deltas, height);
      hide Mirrors;
      if height !in blockIndexes { return Err(MissingBlock); }
      if |blocks| <= blockIndexes[height] { return Err(OutOfRange); }
      return Ok(blocks[blockIndexes[height]]);
    }

    method LookupBlockTx(key: BlockTxKey) returns (res: Result<TxRecord>)
      requires Valid()
      ensures res.Ok? <==> key in ledger.mined
      ensures res.Ok? ==> res.value == ledger.mined[key] && res.value.index == key.index
      ensures res.Err? && Settled() ==>
                res.error == if key.height in ledger.deltas then MissingBlockTx else MissingBlock
    {
      MirrorsHas(blocks, blockIndexes, ledger.mined, ledger.deltas, key);
      hide Mirrors;
      var coll := LookupBlock(key.height);
      if coll.Err? { return Err(coll.error); }
      if key.index !in coll.value.txIndexes { return Err(MissingBlockTx); }
      return Ok(coll.value.txs[coll.value.txIndexes[key.index]]);
    }

    // --------------------------------------------- changing records in place

    /** Writes the record at key, which keeps its block index. */
    method SetRecord(key: BlockTxKey, r: TxRecord)
      requires Valid() && key in ledger.mined && r.index == key.index
      modifies `blocks, `ledger
      ensures Valid() && ledger == old(ledger).(mined := old(ledger).mined[key := r])
      ensures Shape(blocks) == Shape(old(blocks))
    {
      MirrorsHas(blocks, blockIndexes, ledger.mined, ledger.deltas, key);
      MirrorsPut(blocks, blockIndexes, ledger.mined, ledger.deltas, key, r);
      PutShape(blocks, blockIndexes, key, r);
      hide Mirrors, Shape;
      var i := blockIndexes[key.height];
      var b := blocks[i];
      blocks := blocks[i := b.(txs := b.txs[b.txIndexes[key.index] := r])];
      ledger := ledger.(mined := ledger.mined[key := r]);
    }

    /** Sets who spends the mined credit p. */
    method SetSpentBy(p: BlockOutputKey, who: Option<BlockTxKey>)
      requires Valid() && IsCredit(ledger.mined, p)
      modifies `blocks, `ledger
      ensures Valid() && ledger == old(ledger).(mined := Relink(old(ledger).mined, {p}, who))
      ensures Shape(blocks) == Shape(old(blocks))
    {
      hide Mirrors, Relink;
      RelinkOne(ledger.mined, p, who);
      var rr := LookupBlockTx(p.tx);
      SetRecord(p.tx, SpendCredit(rr.value, p.out, who));
    }

    /** Adds to the amounts of the block at a height. */
    method AddAmounts(height: int, spendable: int, reward: int)
      requires Valid() && height in ledger.deltas
      modifies `blocks, `ledger
      ensures Valid() && Shape(blocks) == Shape(old(blocks))
      ensures var d := old(ledger).deltas[height];
              ledger == old(ledger).(deltas := old(ledger).deltas[height := Amounts(d.spendable + spendable,
                  d.reward + reward)])
    {
      var coll := LookupBlock(height);
      var d := coll.value.amounts;
      var d' := Amounts(d.spendable + spendable, d.reward + reward);
      MirrorsPutAmounts(blocks, blockIndexes, ledger.mined, ledger.deltas, height, d');
      PutAmountsShape(blocks, blockIndexes, height, d');
      hide Mirrors, Shape;
      var i := blockIndexes[height];
      blocks := blocks[i := blocks[i].(amounts := d')];
      ledger := ledger.(deltas := ledger.deltas[height := d']);
    }

    // -------------------------------------------------------------- inserting

    /** Makes sure there is a block at info's height.  A new block that is not
        the highest is inserted by re-slicing, which overwrites another. */
    method BlockCollectionForInserts(info: BlockInfo)
      requires Valid() && Settled()
      modifies `blocks, `blockIndexes, `ledger
      ensures old(Fits(blocks, blockIndexes, info.height)) ==> Valid() && Settled()
      ensures ledger.deltas == old(ledger).deltas[info.height := BlockDelta(old(ledger).deltas, info.height)]
      ensures ledger == old(ledger).(deltas := ledger.deltas)
      ensures info.height in old(blockIndexes) ==> blocks == old(blocks) && blockIndexes == old(blockIndexes)
      ensures info.height !in old(blockIndexes) ==>
        var b := BlockTxs(info, Amounts(0, 0), [], map[]);
        blocks == Splice.Inserted(old(blocks), Splice.HeightOf(), b)
        && blockIndexes == Splice.InsertedIndex(old(blocks), Splice.HeightOf(), old(blockIndexes), b)
      ensures old(Fits(blocks, blockIndexes, info.height)) ==>
        Infos(blocks) == InfosWith(old(blocks), old(blockIndexes), info)
    {
      InfosNext(blocks, BlockTxs(info, Amounts(0, 0), [], map[]));
      hide Infos;
      hide Mirrors, OnTop, Splice.Below, Splice.Renumbered, Splice.Inserted, Splice.InsertedIndex, BlockDelta, InUse;
      hide Splice.HeightOf;
      var b := BlockTxs(info, Amounts(0, 0), [], map[]);
      KnownOrNew(blocks, blockIndexes, ledger.mined, ledger.deltas, b);
      if info.height !in blockIndexes {
        if 0 < |blocks| && info.height < blocks[|blocks|-1].info.height {
          blocks, blockIndexes := Splice.Inserted(blocks, Splice.HeightOf(),
            b), Splice.InsertedIndex(blocks, Splice.HeightOf(), blockIndexes, b);
        } else {
          blockIndexes := blockIndexes[info.height := |blocks|];
          blocks := blocks + [b];
        }
      }
      ledger := ledger.(deltas := ledger.deltas[info.height := BlockDelta(ledger.deltas, info.height)]);
    }

    /** Appends a record to the block at height. */
    method AppendRecord(height: int, r: TxRecord)
      requires Valid() && height in ledger.deltas && BlockTxKey(r.index, height) !in ledger.mined
      modifies `blocks, `ledger
      ensures Valid() && |blocks| == |old(blocks)|
      ensures ledger == old(ledger).(mined := old(ledger).mined[BlockTxKey(r.index, height) := r])
      ensures Infos(blocks) == Infos(old(blocks))
    {
      MirrorsNewRecord(blocks, blockIndexes, ledger.mined, ledger.deltas, height, r);
      hide Mirrors;
      var i := blockIndexes[height];
      var b := blocks[i];
      InfosPut(blocks, i, b.(txs := b.txs + [r], txIndexes := b.txIndexes[r.index := |b.txs|]));
      blocks := blocks[i := b.(txs := b.txs + [r], txIndexes := b.txIndexes[r.index := |b.txs|])];
      ledger := ledger.(mined := ledger.mined[BlockTxKey(r.index, height) := r]);
    }

    // -------------------------------------------------- mining a known tx

    /** One input of the transaction being mined at key. */
    method MoveMinedInput(key: BlockTxKey, op: OutPoint)
      requires Valid() && key in ledger.mined
      requires op in ledger.spentKeys ==>
        IsCredit(ledger.mined, ledger.spentKeys[op]) && ledger.spentKeys[op].tx != key && ledger.mined[key].debits.Some?
      modifies `blocks, `ledger, `previousOutpoints, `spentBlockOutPointKeys, `spentBlockOutPoints
      ensures Valid() && ledger == MoveInput(old(ledger), key, op) && Shape(blocks) == Shape(old(blocks))
    {
      hide Mirrors, Relink, Shape, IsCredit;
      previousOutpoints := previousOutpoints - {op};
      ledger := ledger.(prevOuts := previousOutpoints);
      if op in spentBlockOutPointKeys {
        var prev := spentBlockOutPointKeys[op];
        spentBlockOutPointKeys := spentBlockOutPointKeys - {op};
        spentBlockOutPoints := spentBlockOutPoints - {prev};
        ledger := ledger.(spentKeys := spentBlockOutPointKeys, spentOuts := spentBlockOutPoints);
        SetSpentBy(prev, Some(key));
        RelinkOther(old(ledger).mined, prev, key);
        var r := LookupBlockTx(key);
        var d := r.value.debits.value;
        SetRecord(key, r.value.(debits := Some(d.(spends := d.spends + [prev]))));
      }
    }

    /** One credit of the transaction being mined at key. */
    method MoveMinedCredit(key: BlockTxKey, i: nat)
      requires Valid() && key in ledger.mined && key.height in ledger.deltas && i < |ledger.mined[key].tx.outputs|
      modifies `blocks, `ledger, `unspent, `spentBlockOutPointKeys, `spentBlockOutPoints, `spentUnconfirmed
      ensures Valid() && ledger == MoveCredit(old(ledger), key, i) && Shape(blocks) == Shape(old(blocks))
    {
      hide Mirrors, Shape;
      var found := LookupBlockTx(key);
      var r := found.value;
      if i < |r.credits| && r.credits[i].Some? {
        var op, outputKey := OutPoint(r.tx.hash, i), BlockOutputKey(key, i);
        if op in spentUnconfirmed {
          var rr := spentUnconfirmed[op];
          spentUnconfirmed := spentUnconfirmed - {op};
          spentBlockOutPointKeys := spentBlockOutPointKeys[op := outputKey];
          spentBlockOutPoints := spentBlockOutPoints[outputKey := rr];
          ledger := ledger.(spentUnconf := spentUnconfirmed, spentKeys := spentBlockOutPointKeys,
            spentOuts := spentBlockOutPoints);
          SetRecord(key, SpendCredit(r, i, Some(UNMINED)));
        } else if r.credits[i].value.spentBy.None? {
          unspent := unspent[op := key];
          ledger := ledger.(unspent := unspent);
          AddAmounts(key.height, r.tx.outputs[i], 0);
        }
      }
    }

    /** The inputs of h, whose record is now at key; l is the ledger before. */
    method MoveMinedInputs(ghost l: Ledger, ghost h: Hash, key: BlockTxKey, ins: seq<OutPoint>)
      requires Valid() && Settled() && h in l.txs && l.txs[h].tx.inputs == ins && ledger == MoveStart(l, h, key)
      requires key !in l.mined && PoolLinks(l)
      modifies `blocks, `ledger, `previousOutpoints, `spentBlockOutPointKeys, `spentBlockOutPoints
      ensures Valid() && Settled() && ledger == InputsMoved(l, h, key, ins)
      ensures Shape(blocks) == Shape(old(blocks))
    {
      hide Mirrors, Shape, MoveInput, PoolLinks, InputsMoved, MoveStart, IsCredit;
      NoInputMoved(l, h, key);
      var i := 0;
      while i < |ins|
        invariant 0 <= i <= |ins| && Valid() && Settled() && Shape(blocks) == Shape(old(blocks))
        invariant ledger == InputsMoved(l, h, key, ins[..i])
      {
        InputStep(l, h, key, ins, i);
        MoveMinedInput(key, ins[i]);
        i := i + 1;
      }
      assert ins[..i] == ins;
    }

    /** The credits of the record now at key. */
    method MoveMinedCredits(key: BlockTxKey)
      requires Valid() && Settled() && key in ledger.mined && key.height in ledger.deltas
      requires |ledger.mined[key].credits| <= |ledger.mined[key].tx.outputs|
      modifies `blocks, `ledger, `unspent, `spentBlockOutPointKeys, `spentBlockOutPoints, `spentUnconfirmed
      ensures Valid() && Settled()
      ensures ledger == CreditsMoved(old(ledger), key, old(ledger).mined[key], |old(ledger).mined[key].credits|)
      ensures Shape(blocks) == Shape(old(blocks))
    {
      hide Mirrors, Shape, MoveCredit, CreditsMoved;
      ghost var g := ledger;
      var r := LookupBlockTx(key);
      NoCreditMoved(g, key);
      var n, i := |r.value.credits|, 0;
      while i < n
        invariant 0 <= i <= n && Valid() && Settled() && Shape(blocks) == Shape(old(blocks))
        invariant ledger == CreditsMoved(g, key, r.value, i)
      {
        MovedRecordAt(g, key, i);
        OneCreditMoved(g, key, r.value, i);
        MoveMinedCredit(key, i);
        i := i + 1;
      }
    }

    /** Takes h out of the pool and puts its record into its block. */
    method StartMove(h: Hash, index: int, info: BlockInfo)
      requires Valid() && Settled() && Fits(blocks, blockIndexes, info.height)
      requires h in ledger.txs && BlockTxKey(index, info.height) !in ledger.mined
      modifies `blocks, `blockIndexes, `ledger, `txs
      ensures Valid() && Settled() && ledger == MoveStart(old(ledger), h, BlockTxKey(index, info.height))
      ensures Infos(blocks) == InfosWith(old(blocks), old(blockIndexes), info)
    {
      hide Mirrors, Infos, InfosWith;
      var r := txs[h].(index := index);
      txs := txs - {h};
      ledger := ledger.(txs := ledger.txs - {h});
      BlockCollectionForInserts(info);
      AppendRecord(info.height, r);
    }

    /** Moves the unconfirmed transaction h into the block described by info. */
    method MoveMinedTx(h: Hash, index: int, info: BlockInfo)
      requires Valid() && Settled() && Fits(blocks, blockIndexes, info.height)
      requires h in ledger.txs && |ledger.txs[h].credits| <= |ledger.txs[h].tx.outputs|
      requires BlockTxKey(index, info.height) !in ledger.mined
      requires PoolLinks(ledger)
      modifies this
      ensures Valid() && Settled() && ledger == MoveMined(old(ledger), h, BlockTxKey(index, info.height))
      ensures Infos(blocks) == InfosWith(old(blocks), old(blockIndexes), info)
    {
      hide Shape, Infos, InfosWith;
      hide Mirrors, MoveMined, PoolLinks, MoveStart, InputsMoved, CreditsMoved;
      var key, ins := BlockTxKey(index, info.height), txs[h].tx.inputs;
      ghost var l := ledger;
      StartMove(h, index, info);
      ghost var started := blocks;
      MoveMinedInputs(l, h, key, ins);
      InputsMovedAt(l, h, key, ins);
      MoveEnds(l, h, key);
      MovedRecordAt(ledger, key, |l.txs[h].credits|);
      MoveMinedCredits(key);
      var r := LookupBlockTx(key);
      if r.value.debits.Some? {
        AddAmounts(info.height, -r.value.debits.value.amount, 0);
      }
      ShapeInfos(started, blocks);
    }

    // ------------------------------------------------- removing a conflict

    /** One input of an unconfirmed transaction being removed. */
    method RemoveConflictInput(op: OutPoint)
      requires Valid() && (op in ledger.spentKeys ==> IsCredit(ledger.mined, ledger.spentKeys[op]))
      modifies `blocks, `ledger, `previousOutpoints, `spentBlockOutPointKeys, `spentBlockOutPoints, `spentUnconfirmed
      ensures Valid() && ledger == RemoveInput(old(ledger), op) && Shape(blocks) == Shape(old(blocks))
    {
      hide Mirrors, Relink, Shape, IsCredit;
      previousOutpoints := previousOutpoints - {op};
      if op in spentBlockOutPointKeys {
        var prevKey := spentBlockOutPointKeys[op];
        spentBlockOutPointKeys := spentBlockOutPointKeys - {op};
        spentBlockOutPoints := spentBlockOutPoints - {prevKey};
        ledger := ledger.(prevOuts := previousOutpoints, spentKeys := spentBlockOutPointKeys,
          spentOuts := spentBlockOutPoints);
        SetSpentBy(prevKey, None);
        return;
      }
      spentUnconfirmed := spentUnconfirmed - {op};
      ledger := ledger.(prevOuts := previousOutpoints, spentUnconf := spentUnconfirmed);
    }

    /** Takes h, whose outputs nothing spends any more, out of the pool. */
    method RemoveRecord(h: Hash)
      requires Valid() && h in ledger.txs && KeysLive(ledger) && Sound(ledger)
      modifies `blocks, `ledger, `txs, `previousOutpoints, `spentBlockOutPointKeys, `spentBlockOutPoints,
          `spentUnconfirmed
      ensures Valid() && ledger == RemoveOne(old(ledger), h) && Shape(blocks) == Shape(old(blocks))
    {
      hide Mirrors, Shape, RemoveInput, InputsRemoved, RemoveOne, KeysLive, Sound, IsCredit;
      ghost var l := ledger;
      var ins := txs[h].tx.inputs;
      NoInputRemoved(l);
      var i := 0;
      while i < |ins|
        invariant 0 <= i <= |ins| && Valid() && Shape(blocks) == Shape(old(blocks))
        invariant ledger == InputsRemoved(l, ins[..i]) && txs == old(txs)
      {
        RemoveStep(l, ins, i);
        RemoveConflictInput(ins[i]);
        i := i + 1;
      }
      assert ins[..i] == ins;
      RemoveStepwiseIs(l, h);
      txs := txs - {h};
      ledger := ledger.(txs := ledger.txs - {h});
      i := 0;
      while i < |ins|
        invariant 0 <= i <= |ins| && Valid() && Shape(blocks) == Shape(old(blocks)) && ledger == RemoveOne(l, h)
      {
        InputsForgotten(l, h, ins[i]);
        previousOutpoints := previousOutpoints - {ins[i]};
        i := i + 1;
      }
    }

    /** Removes h and everything that spends its outputs. */
    method RemoveConflict(h: Hash, ghost bound: nat) returns (err: Option<Error>)
      requires Valid() && h in ledger.txs && ledger.txs[h].tx.hash == h && Below(ledger.txs, bound)
      requires KeysLive(ledger) && Sound(ledger)
      modifies `blocks, `ledger, `txs, `previousOutpoints, `spentBlockOutPointKeys, `spentBlockOutPoints,
          `spentUnconfirmed
      ensures Valid() && Shape(blocks) == Shape(old(blocks))
      ensures err.None? <==> Conflicts.RemoveConflict(old(ledger), h, bound).Ok?
      ensures err.None? ==> Conflicts.RemoveConflict(old(ledger), h, bound) == Ok(ledger) && KeysLive(ledger)
      ensures err.None? ==> ledger.mined.Keys == old(ledger).mined.Keys
      decreases bound - h
    {
      hide Mirrors, Shape, RemoveOne, KeysLive, Sound, Below, RemoveSpenders, Conflicts.RemoveConflict;
      ghost var l := ledger;
      var r := txs[h];
      ConflictIs(l, h, bound);
      NoneRemoved(l, r, bound);
      var i := 0;
      while i < |r.credits|
        invariant 0 <= i <= |r.credits| && Valid() && KeysLive(ledger) && Shape(blocks) == Shape(old(blocks))
        invariant RemoveSpenders(l, r, i, bound) == Ok(ledger) && ledger.mined.Keys == l.mined.Keys
      {
        SpenderNext(l, r, i, bound);
        if r.credits[i].Some? && r.credits[i].value.spentBy.Some? {
          var op := OutPoint(h, i);
          if RemoveSpenders(l, r, i + 1, bound).Err? { SpenderFails(l, r, i + 1, |r.credits|, bound); }
          if op !in spentUnconfirmed { return Some(InconsistentStore); }
          err := RemoveConflict(spentUnconfirmed[op], bound);
          if err.Some? { return; }
        }
        i := i + 1;
      }
      RemoveOneKeysLive(ledger, h);
      RemoveRecord(h);
      return None;
    }

    // -------------------------------------------------- inserting a tx

    /** The first unconfirmed transaction that shares an input with tx. */
    method FindDoubleSpend(tx: Tx) returns (r: Option<Hash>)
      requires Valid()
      ensures r == Runs.FindDoubleSpend(ledger.prevOuts, tx.inputs)
    {
      hide Mirrors;
      var ins, i := tx.inputs, 0;
      while i < |ins|
        invariant 0 <= i <= |ins|
        invariant Runs.FindDoubleSpend(ledger.prevOuts, ins) == Runs.FindDoubleSpend(ledger.prevOuts, ins[i..])
      {
        if ins[i] in previousOutpoints { return Some(previousOutpoints[ins[i]]); }
        i := i + 1;
      }
      return None;
    }

    /** Removes the first unconfirmed transaction that tx double spends. */
    method RemoveDoubleSpends(tx: Tx) returns (err: Option<Error>)
      requires Valid() && Linked(ledger)
      modifies `blocks, `ledger, `txs, `previousOutpoints, `spentBlockOutPointKeys, `spentBlockOutPoints,
          `spentUnconfirmed
      ensures Valid() && Shape(blocks) == Shape(old(blocks))
      ensures Conflicted(old(ledger), tx).Ok? <==> err.None?
      ensures err.None? ==> Conflicted(old(ledger), tx) == Ok(ledger) && ledger.mined.Keys == old(ledger).mined.Keys
    {
      hide Mirrors, Shape, Linked, Sound, Below, KeysLive, Conflicts.RemoveConflict;
      var ds := FindDoubleSpend(tx);
      if ds.Some? {
        ConflictKnown(ledger, tx.inputs, ds.value);
        LinkedKeysLive(ledger);
        err := RemoveConflict(ds.value, Bound(ledger.txs));
        return;
      }
      return None;
    }

    /** Every input of r is now spent by it. */
    method SetPreviousOutpoints(r: TxRecord)
      modifies `previousOutpoints
      ensures previousOutpoints == old(previousOutpoints) + map op | op in Inputs(r) :: r.tx.hash
    {
      ghost var prev := previousOutpoints;
      var ins, i := r.tx.inputs, 0;
      while i < |ins|
        invariant 0 <= i <= |ins|
        invariant previousOutpoints == prev + map op | op in OpSet(ins[..i]) :: r.tx.hash
      {
        assert OpSet(ins[..i+1]) == OpSet(ins[..i]) + {ins[i]};
        previousOutpoints := previousOutpoints[ins[i] := r.tx.hash];
        i := i + 1;
      }
      assert OpSet(ins[..i]) == Inputs(r);
    }

    /** The record of an unconfirmed tx, new if it is not known yet. */
    method UnconfirmedTxRecordForInserts(tx: Tx, now: int)
      requires Valid()
      modifies `ledger, `txs, `previousOutpoints
      ensures Valid() && ledger == InsertUnmined(old(ledger), tx, now)
    {
      hide Mirrors;
      if tx.hash !in txs {
        var r := FreshRecord(tx, INDEX_UNKNOWN, 0);
        txs := txs[tx.hash := r];
        SetPreviousOutpoints(r);
      }
      txs := txs[tx.hash := txs[tx.hash].(received := now)];
      ledger := InsertUnmined(ledger, tx, now);
    }

    /** A new record for tx at the end of its block. */
    method BlockTxRecordForInserts(tx: Tx, key: BlockTxKey, info: BlockInfo, received: int)
      requires Valid() && Settled() && info.height == key.height
      requires FitsBlock(blocks, blockIndexes, key) && key !in ledger.mined
      modifies `blocks, `blockIndexes, `ledger
      ensures Valid() && Settled() && ledger == AppendMined(old(ledger), tx, key, received)
      ensures Infos(blocks) == InfosWith(old(blocks), old(blockIndexes), info)
    {
      hide Mirrors, Infos, InfosWith;
      BlockCollectionForInserts(info);
      AppendRecord(key.height, FreshRecord(tx, key.index, received));
    }

    /** Records tx, seen at an index of a block. */
    method InsertIntoBlock(tx: Tx, index: int, info: BlockInfo, received: int) returns (res: Result<TxRef>)
      requires Valid() && Settled() && Linked(ledger)
      requires BlockTxKey(index, info.height) !in ledger.mined ==>
        if tx.hash in ledger.txs then Fits(blocks, blockIndexes, info.height)
        else FitsBlock(blocks, blockIndexes, BlockTxKey(index, info.height))
      modifies this
      ensures Valid() && Settled()
      ensures var key := BlockTxKey(index, info.height);
              var spec := InsertMined(old(ledger), tx, key, received);
              (res.Ok? <==> spec.Ok?) && (res.Ok? ==> res.value == TxRef(key, tx.hash) && spec.value == ledger)
      ensures Infos(blocks) == if res.Ok? then InfosWith(old(blocks), old(blockIndexes), info) else Infos(old(blocks))
    {
      hide Mirrors, Shape, Linked, FitsBlock, Runs.FindDoubleSpend, Conflicts.RemoveConflict, MoveMined, AppendMined;
      hide Infos, InfosWith;
      var key := BlockTxKey(index, info.height);
      InsertMinedCases(ledger, tx, key, received);
      hide InsertMined;
      var record := LookupBlockTx(key);
      if record.Ok? {
        KnownBlock(blocks, blockIndexes, ledger.mined, ledger.deltas, key, info);
        if record.value.tx.hash != tx.hash { return Err(InconsistentStore); }
        return Ok(TxRef(key, tx.hash));
      }
      if tx.hash in txs {
        LinkedPoolLinks(ledger, tx.hash);
        MoveMinedTx(tx.hash, index, info);
        return Ok(TxRef(key, tx.hash));
      }
      ghost var before := blocks;
      var err := RemoveDoubleSpends(tx);
      ShapeInfos(before, blocks);
      InfosWithSame(before, blocks, blockIndexes, info);
      if err.Some? { return Err(err.value); }
      ShapeFits(before, blocks, blockIndexes, key);
      BlockTxRecordForInserts(tx, key, info, received);
      return Ok(TxRef(key, tx.hash));
    }

    /** Records tx, seen in a block or, when block is None, unconfirmed.  index
        is the transaction's index within its block. */
    method InsertTx(tx: Tx, index: int, block: Option<BlockInfo>, now: int) returns (res: Result<TxRef>)
      requires Valid() && Settled() && Linked(ledger)
      requires block.Some? && BlockTxKey(index, block.value.height) !in ledger.mined ==>
        if tx.hash in ledger.txs then Fits(blocks, blockIndexes, block.value.height)
        else FitsBlock(blocks, blockIndexes, BlockTxKey(index, block.value.height))
      modifies this
      ensures Valid() && Settled()
      ensures index == INDEX_UNKNOWN && block.Some? ==> res == Err(IndexUnset) && ledger == old(ledger)
      ensures index != INDEX_UNKNOWN && block.None? ==> res == Err(IndexSet) && ledger == old(ledger)
      ensures index == INDEX_UNKNOWN && block.None? ==>
        res == Ok(TxRef(UNMINED, tx.hash)) && ledger == InsertUnmined(old(ledger), tx, now)
      ensures index != INDEX_UNKNOWN && block.Some? ==>
        var key := BlockTxKey(index, block.value.height);
        var spec := InsertMined(old(ledger), tx, key, Received(block.value.time, now));
        (res.Ok? <==> spec.Ok?) && (res.Ok? ==> res.value == TxRef(key, tx.hash) && spec.value == ledger)
      ensures res.Ok? && (block.Some? ==> block.value.height != -1) ==>
        LiveTx(ledger, res.value) && res.value.hash == tx.hash
      ensures res.Ok? && block.None? ==>
        Provenance.PoolInserted(old(ledger).txs, ledger.txs, tx, now) && ledger.mined == old(ledger).mined
      ensures res.Ok? && block.Some? ==>
        Provenance.BlockRecorded(old(ledger), ledger, tx, BlockTxKey(index, block.value.height),
          if block.value.time != 0 && block.value.time < now then block.value.time else now)
      ensures Infos(blocks) == Infos(old(blocks)) +
        if res.Ok? && block.Some? && block.value.height !in old(blockIndexes) then [block.value] else []
    {
      hide Provenance.PoolInserted, Provenance.BlockRecorded, Provenance.Leave, Provenance.BlockMoved;
      hide Provenance.BlockInserted, InsertMined;
      assert Infos(blocks) + [] == Infos(blocks);
      hide Infos, Mirrors, Shape, Linked, FitsBlock, InsertUnmined;
      if index == INDEX_UNKNOWN && block.Some? { return Err(IndexUnset); }
      if index != INDEX_UNKNOWN && block.None? { return Err(IndexSet); }
      if block.None? {
        Provenance.InsertUnminedRecords(ledger, tx, now);
        Provenance.InsertedLive(ledger.txs, InsertUnmined(ledger, tx, now).txs, tx, now);
        UnconfirmedTxRecordForInserts(tx, now);
        return Ok(TxRef(UNMINED, tx.hash));
      }
      BlockRecords(ledger, tx, BlockTxKey(index, block.value.height), Received(block.value.time, now));
      res := InsertIntoBlock(tx, index, block.value, Received(block.value.time, now));
    }

    // --------------------------------------------------- credits and debits

    /** The record a handle stands for. */
    method Record(t: TxRef) returns (r: TxRecord)
      requires Valid() && LiveTx(ledger, t)
      ensures r == RecordAt(ledger, t) && (t.key != UNMINED ==> r.index == t.key.index)
    {
      hide Mirrors;
      if t.key == UNMINED { return txs[t.hash]; }
      var found := LookupBlockTx(t.key);
      return found.value;
    }

    method PutRecord(t: TxRef, r: TxRecord)
      requires Valid() && LiveTx(ledger, t) && (t.key != UNMINED ==> r.index == t.key.index)
      modifies `blocks, `txs, `ledger
      ensures Valid() && Shape(blocks) == Shape(old(blocks))
      ensures ledger == if t.key == UNMINED then old(ledger).(txs := old(ledger).txs[t.hash := r])
                        else old(ledger).(mined := old(ledger).mined[t.key := r])
    {
      hide Mirrors, Shape;
      if t.key == UNMINED {
        txs := txs[t.hash := r];
        ledger := ledger.(txs := ledger.txs[t.hash := r]);
      } else {
        SetRecord(t.key, r);
      }
    }

    /** Records output i of the transaction as a credit of the wallet. */
    method AddCredit(t: TxRef, i: nat, change: bool) returns (res: Result<CreditRef>)
      requires Valid() && Settled() && LiveTx(ledger, t)
      modifies `blocks, `txs, `unspent, `ledger
      ensures Valid() && Settled()
      ensures var spec := LedgerOps.AddCredit(old(ledger), t, i, change);
              if spec.Ok? then res == Ok(CreditRef(t, i)) && ledger == spec.value
                else res == Err(spec.error) && ledger == old(ledger)
      ensures res.Ok? ==> LiveTx(ledger, t) && Provenance.OnlyAt(old(ledger), ledger, t)
      ensures res.Ok? ==> Provenance.Credited(RecordAt(old(ledger), t), RecordAt(ledger, t), i, change)
    {
      hide Mirrors, Shape, Provenance.OnlyAt, Provenance.Credited;
      ghost var l := ledger;
      var r := Record(t);
      if i < |r.tx.outputs| { Provenance.CreditRecords(l, t, i, change); }
      if |r.tx.outputs| <= i { return Err(NoSuchOutput); }
      var set_ := SetCredit(r, i, change);
      if set_.None? { return Ok(CreditRef(t, i)); }
      PutRecord(t, set_.value);
      if t.key != UNMINED {
        RecordHasBlock(blocks, blockIndexes, ledger.mined, ledger.deltas, t.key);
        unspent := unspent[OutPoint(t.hash, i) := t.key];
        ledger := ledger.(unspent := ledger.unspent[OutPoint(t.hash, i) := t.key]);
        if r.index == 0 {
          AddAmounts(t.key.height, 0, r.tx.outputs[i]);
        } else {
          AddAmounts(t.key.height, r.tx.outputs[i], 0);
        }
      }
      return Ok(CreditRef(t, i));
    }

    /** The credit that an input spends, if the wallet has it unspent. */
    method FindPreviousCredit(op: OutPoint) returns (res: Result<Option<CreditRef>>)
      requires Valid()
      ensures res.Ok? <==> FindCredit(ledger, op).Ok?
      ensures res.Ok? ==> res == FindCredit(ledger, op)
    {
      hide Mirrors;
      if op in unspent {
        var r := LookupBlockTx(unspent[op]);
        if r.Err? { return Err(r.error); }
        return Ok(Some(CreditRef(TxRef(unspent[op], r.value.tx.hash), op.index)));
      }
      if op.hash !in txs || !HasCredit(txs[op.hash], op.index) || op in spentUnconfirmed { return Ok(None); }
      return Ok(Some(CreditRef(TxRef(UNMINED, op.hash), op.index)));
    }

    /** All unspent credits among the inputs of a transaction. */
    method FindPreviousCredits(ins: seq<OutPoint>) returns (res: Result<seq<CreditRef>>)
      requires Valid()
      ensures res.Ok? <==> FindCredits(ledger, ins).Ok?
      ensures res.Ok? ==> res == FindCredits(ledger, ins)
    {
      hide Mirrors, FindCredit;
      var spent, i := [], 0;
      while i < |ins|
        invariant 0 <= i <= |ins| && FindCredits(ledger, ins[..i]) == Ok(spent)
      {
        assert ins[..i+1][..i] == ins[..i];
        var c := FindPreviousCredit(ins[i]);
        if c.Err? {
          FindCreditsFails(ledger, ins, i + 1);
          return Err(c.error);
        }
        if c.value.Some? { spent := spent + [c.value.value]; }
        i := i + 1;
      }
      assert ins[..i] == ins;
      return Ok(spent);
    }

    /** The pool's maps record that the unconfirmed h spends c. */
    method SpendFromPool(c: CreditRef, h: Hash)
      requires Valid()
      modifies `spentBlockOutPoints, `spentBlockOutPointKeys, `spentUnconfirmed, `ledger
      ensures Valid() && ledger == PoolSpends(old(ledger), c, h)
    {
      hide Mirrors;
      if c.Mined() {
        spentBlockOutPointKeys := spentBlockOutPointKeys[c.Op() := c.Key()];
        spentBlockOutPoints := spentBlockOutPoints[c.Key() := h];
      } else {
        spentUnconfirmed := spentUnconfirmed[c.Op() := h];
      }
      ledger := PoolSpends(ledger, c, h);
    }

    /** Marks one previous credit spent by t, and returns what it was worth. */
    method MarkOutputSpent(prev: CreditRef, t: TxRef) returns (res: Result<int>)
      requires Valid()
      modifies `blocks, `unspent, `spentBlockOutPoints, `spentBlockOutPointKeys, `spentUnconfirmed, `ledger
      ensures Valid() && Shape(blocks) == Shape(old(blocks))
      ensures res.Ok? <==> MarkOne(old(ledger), prev, t).Ok?
      ensures res.Ok? ==> MarkOne(old(ledger), prev, t) == Ok(Marked(ledger, res.value))
    {
      hide Mirrors, Shape, Relink, PoolSpends;
      if !prev.Mined() {
        spentUnconfirmed := spentUnconfirmed[prev.Op() := t.hash];
        ledger := ledger.(spentUnconf := ledger.spentUnconf[prev.Op() := t.hash]);
        return Ok(0);
      }
      var r := LookupBlockTx(prev.tx.key);
      if r.Err? || !HasCredit(r.value, prev.out) { return Err(OutOfRange); }
      var credit := r.value.credits[prev.out].value;
      if credit.spentBy.Some? {
        if credit.spentBy.value == t.key { return Ok(0); }
        return Err(InconsistentStore);
      }
      SetSpentBy(prev.Key(), Some(t.key));
      unspent := unspent - {prev.Op()};
      ledger := ledger.(unspent := ledger.unspent - {prev.Op()});
      if t.key == UNMINED { SpendFromPool(prev, t.hash); }
      return Ok(OutValue(r.value, prev.out));
    }

    /** Marks each previous credit spent by t and charges t's block, if it is in
        one, with their total. */
    method MarkOutputsSpent(spent: seq<CreditRef>, t: TxRef) returns (res: Result<int>)
      requires Valid() && LiveTx(ledger, t)
      modifies `blocks, `unspent, `spentBlockOutPoints, `spentBlockOutPointKeys, `spentUnconfirmed, `ledger
      ensures Valid() && Shape(blocks) == Shape(old(blocks))
      ensures res.Ok? <==> MarkSpent(old(ledger), spent, t).Ok?
      ensures res.Ok? ==>
        MarkSpent(old(ledger), spent, t).value.amount == res.value &&
        ledger == Charged(MarkSpent(old(ledger), spent, t).value.ledger, t, res.value)
    {
      hide Mirrors, Shape, MarkOne;
      ghost var l := ledger;
      var a, i := 0, 0;
      while i < |spent|
        invariant 0 <= i <= |spent| && Valid() && Shape(blocks) == Shape(old(blocks))
        invariant MarkSpent(l, spent[..i], t) == Ok(Marked(ledger, a))
      {
        assert spent[..i+1][..i] == spent[..i];
        var v := MarkOutputSpent(spent[i], t);
        if v.Err? {
          MarkSpentFails(l, spent, i + 1, t);
          return Err(v.error);
        }
        a, i := a + v.value, i + 1;
      }
      assert spent[..i] == spent;
      if t.key.height != -1 {
        RecordHasBlock(blocks, blockIndexes, ledger.mined, ledger.deltas, t.key);
        AddAmounts(t.key.height, -a, 0);
      }
      return Ok(a);
    }

    /** The pool's maps record that the unconfirmed h spends each of cs. */
    method SpendAllFromPool(cs: seq<CreditRef>, h: Hash)
      requires Valid()
      modifies `spentBlockOutPoints, `spentBlockOutPointKeys, `spentUnconfirmed, `ledger
      ensures Valid() && ledger == AllPoolSpends(old(ledger), cs, h)
    {
      hide Mirrors, PoolSpends;
      var i := 0;
      while i < |cs|
        invariant 0 <= i <= |cs| && Valid() && ledger == AllPoolSpends(old(ledger), cs[..i], h)
      {
        assert cs[..i+1][..i] == cs[..i];
        SpendFromPool(cs[i], h);
        i := i + 1;
      }
      assert cs[..i] == cs;
    }

    /** Records the first debits of t. */
    method SetFirstDebits(t: TxRef, spent: seq<CreditRef>) returns (res: Result<int>)
      requires Valid() && LiveTx(ledger, t)
      modifies `blocks, `txs, `unspent, `spentBlockOutPoints, `spentBlockOutPointKeys, `spentUnconfirmed, `ledger
      ensures Valid() && Shape(blocks) == Shape(old(blocks))
      ensures res.Ok? <==> MarkSpent(old(ledger), spent, t).Ok?
      ensures res.Ok? ==> var g := Charged(MarkSpent(old(ledger), spent, t).value.ledger, t, res.value);
                          MarkSpent(old(ledger), spent, t).value.amount == res.value &&
                          LiveTx(g, t) && ledger == SetDebits(g, t, Debits(res.value, [])) && LiveTx(ledger, t)
                          && RecordAt(ledger, t).debits == Some(Debits(res.value, []))
    {
      hide Mirrors, Shape, MarkSpent;
      res := MarkOutputsSpent(spent, t);
      if res.Err? { return; }
      var r := Record(t);
      PutRecord(t, r.(debits := Some(Debits(res.value, []))));
    }

    /** Records that t spends the credits `spent`, or, when there are none and
        t has no debits, all unspent credits among its inputs. */
    method AddDebits(t: TxRef, spent: seq<CreditRef>) returns (err: Option<Error>)
      requires Valid() && Settled() && LiveTx(ledger, t)
      modifies this
      ensures Valid() && Settled()
      ensures err.None? <==> LedgerOps.AddDebits(old(ledger), t, spent).Ok?
      ensures err.None? ==> LedgerOps.AddDebits(old(ledger), t, spent) == Ok(ledger)
      ensures err.None? ==> Provenance.Debited(old(ledger), ledger, t)
    {
      hide Provenance.Debited;
      DebitsTell(ledger, t, spent);
      hide Mirrors, Shape, MarkSpent, FindCredits, AllPoolSpends, Charge;
      var r := Record(t);
      var credits := spent;
      if r.debits.None? {
        if |spent| == 0 {
          var found := FindPreviousCredits(r.tx.inputs);
          if found.Err? { return Some(found.error); }
          credits := found.value;
        }
        FirstDebitsCases(ledger, t, credits);
        var a := SetFirstDebits(t, credits);
        if a.Err? { return Some(a.error); }
      }
      if t.key == UNMINED {
        SpendAllFromPool(credits, t.hash);
      } else {
        var now := Record(t);
        if now.debits.value.spends == [] {
          PutRecord(t, now.(debits := Some(now.debits.value.(spends := Keys(credits)))));
        }
      }
      return None;
    }

    // ------------------------------------------------------------- rollback

    /** Credit i of the detached record r, which was mined at key. */
    method ReturnOneCredit(key: BlockTxKey, r: TxRecord, i: nat) returns (err: Option<Error>)
      requires Valid()
      modifies `blocks, `unspent, `spentBlockOutPoints, `spentBlockOutPointKeys, `spentUnconfirmed, `ledger
      ensures Valid() && Shape(blocks) == Shape(old(blocks))
      ensures err.None? <==> ReturnCredit(old(ledger), key, r, i).Ok?
      ensures err.None? ==> ReturnCredit(old(ledger), key, r, i) == Ok(ledger)
    {
      hide Mirrors, Shape, SwapSpend;
      if !HasCredit(r, i) { return None; }
      var op := OutPoint(r.tx.hash, i);
      unspent := unspent - {op};
      ledger := ledger.(unspent := ledger.unspent - {op});
      var spenderKey := r.credits[i].value.spentBy;
      if spenderKey.None? { return None; }
      var prev := BlockOutputKey(key, i);
      if spenderKey.value.height == -1 {
        if prev !in spentBlockOutPoints { return Some(InconsistentStore); }
        var spender := spentBlockOutPoints[prev];
        spentBlockOutPointKeys := spentBlockOutPointKeys - {op};
        spentBlockOutPoints := spentBlockOutPoints - {prev};
        spentUnconfirmed := spentUnconfirmed[op := spender];
        ledger := ledger.(spentOuts := ledger.spentOuts - {prev}, spentKeys := ledger.spentKeys - {op},
                          spentUnconf := ledger.spentUnconf[op := spender]);
        return None;
      }
      var spender := LookupBlockTx(spenderKey.value);
      if spender.Err? { return Some(spender.error); }
      if spender.value.debits.None? { return Some(MissingDebits); }
      var d := spender.value.debits.value;
      var spends := SwapDebits(d.spends, prev, BlockOutputKey(UNMINED, 0));
      if spends.None? { return Some(MissingCredit); }
      SetRecord(spenderKey.value, spender.value.(debits := Some(d.(spends := spends.value))));
      return None;
    }

    /** The mined credit prev is now spent by the unconfirmed h. */
    method ReturnOneDebit(h: Hash, prev: BlockOutputKey) returns (err: Option<Error>)
      requires Valid()
      modifies `blocks, `spentBlockOutPoints, `spentBlockOutPointKeys, `ledger
      ensures Valid() && Shape(blocks) == Shape(old(blocks))
      ensures err.None? <==> ReturnDebit(old(ledger), h, prev).Ok?
      ensures err.None? ==> ReturnDebit(old(ledger), h, prev) == Ok(ledger)
    {
      hide Mirrors, Shape, Relink;
      var rr := LookupBlockTx(prev.tx);
      if rr.Err? { return Some(rr.error); }
      if !HasCredit(rr.value, prev.out) { return Some(MissingCredit); }
      var op := OutPoint(rr.value.tx.hash, prev.out);
      spentBlockOutPointKeys := spentBlockOutPointKeys[op := prev];
      spentBlockOutPoints := spentBlockOutPoints[prev := h];
      ledger := ledger.(spentKeys := ledger.spentKeys[op := prev], spentOuts := ledger.spentOuts[prev := h]);
      SetSpentBy(prev, Some(UNMINED));
      return None;
    }

    method ReturnAllCredits(key: BlockTxKey, r: TxRecord) returns (err: Option<Error>)
      requires Valid()
      modifies `blocks, `unspent, `spentBlockOutPoints, `spentBlockOutPointKeys, `spentUnconfirmed, `ledger
      ensures Valid() && Shape(blocks) == Shape(old(blocks))
      ensures err.None? <==> ReturnCredits(old(ledger), key, r, |r.credits|).Ok?
      ensures err.None? ==> ReturnCredits(old(ledger), key, r, |r.credits|) == Ok(ledger)
    {
      hide Mirrors, Shape, ReturnCredit;
      ghost var l := ledger;
      var i := 0;
      while i < |r.credits|
        invariant 0 <= i <= |r.credits| && Valid() && Shape(blocks) == Shape(old(blocks))
        invariant ReturnCredits(l, key, r, i) == Ok(ledger)
      {
        err := ReturnOneCredit(key, r, i);
        if err.Some? {
          ReturnCreditsFails(l, key, r, i + 1, |r.credits|);
          return;
        }
        i := i + 1;
      }
      return None;
    }

    method ReturnAllDebits(h: Hash, ps: seq<BlockOutputKey>) returns (err: Option<Error>)
      requires Valid()
      modifies `blocks, `spentBlockOutPoints, `spentBlockOutPointKeys, `ledger
      ensures Valid() && Shape(blocks) == Shape(old(blocks))
      ensures err.None? <==> ReturnDebits(old(ledger), h, ps).Ok?
      ensures err.None? ==> ReturnDebits(old(ledger), h, ps) == Ok(ledger)
    {
      hide Mirrors, Shape, ReturnDebit;
      ghost var l := ledger;
      var i := 0;
      while i < |ps|
        invariant 0 <= i <= |ps| && Valid() && Shape(blocks) == Shape(old(blocks))
        invariant ReturnDebits(l, h, ps[..i]) == Ok(ledger)
      {
        assert ps[..i+1][..i] == ps[..i];
        err := ReturnOneDebit(h, ps[i]);
        if err.Some? {
          ReturnDebitsFails(l, h, ps, i + 1);
          return;
        }
        i := i + 1;
      }
      assert ps[..i] == ps;
      return None;
    }

    /** The detached record r, mined at key, returns to the pool. */
    method ReturnRecord(key: BlockTxKey, r: TxRecord) returns (err: Option<Error>)
      requires Valid()
      modifies `blocks, `unspent, `txs, `spentBlockOutPoints, `spentBlockOutPointKeys, `spentUnconfirmed,
          `previousOutpoints, `ledger
      ensures Valid() && Shape(blocks) == Shape(old(blocks))
      ensures err.None? <==> ReturnTx(old(ledger), key, r).Ok?
      ensures err.None? ==> ReturnTx(old(ledger), key, r) == Ok(ledger)
    {
      hide Mirrors, Shape, ReturnCredits, ReturnDebits;
      var h, spends := r.tx.hash, Spends(r);
      txs := txs[h := r.(index := INDEX_UNKNOWN)];
      SetPreviousOutpoints(r);
      ledger := Parked(ledger, r);
      err := ReturnAllCredits(key, r);
      if err.Some? { return; }
      if r.debits.Some? {
        err := ReturnAllDebits(h, r.debits.value.spends);
        if err.Some? { return; }
      } else {
        ReturnNoDebits(ledger, h);
      }
      txs := txs[h := ReturnedRecord(r)];
      ledger := ledger.(txs := ledger.txs[h := ReturnedRecord(r)]);
      return None;
    }

    /** Returns the transactions of one detached block to the pool. */
    method ReturnBlock(b: BlockTxs, ghost start: Ledger, ghost from: Mined,
        ghost order: seq<BlockTxKey>) returns (err: Option<Error>)
      requires Valid() && HoldsBlock(from, b) && (forall k :: k in order ==> k in from)
      requires ReturnAll(start, from, order) == Ok(ledger)
      modifies `blocks, `unspent, `txs, `spentBlockOutPoints, `spentBlockOutPointKeys, `spentUnconfirmed,
          `previousOutpoints, `ledger
      ensures Valid() && Shape(blocks) == Shape(old(blocks))
      ensures forall k :: k in order + BlockKeys(b) ==> k in from
      ensures err.None? <==> ReturnAll(start, from, order + BlockKeys(b)).Ok?
      ensures err.None? ==> ReturnAll(start, from, order + BlockKeys(b)) == Ok(ledger)
    {
      hide Mirrors, Shape, ReturnTx, ReturnAll, HoldsBlock, BlockKeys;
      BlockKeysKnown(from, b, order);
      ghost var all := order + BlockKeys(b);
      var i := 0;
      assert all[..|order|] == order;
      while i < |b.txs|
        invariant 0 <= i <= |b.txs| && Valid() && Shape(blocks) == Shape(old(blocks))
        invariant ReturnAll(start, from, all[..|order| + i]) == Ok(ledger)
      {
        var r := b.txs[i];
        var key := BlockTxKey(r.index, b.info.height);
        BlockKeyAt(from, b, order, i);
        ReturnNext(start, from, all, |order| + i);
        if r.index != 0 {
          err := ReturnRecord(key, r);
          if err.Some? {
            ReturnAllFails(start, from, all, |order| + i + 1);
            return;
          }
        }
        i := i + 1;
      }
      assert all[..|order| + i] == all;
      return None;
    }

    /** The position of the first block at or above height. */
    method FirstDetached(height: int) returns (i: nat)
      ensures i == FirstFrom(blocks, height)
    {
      i := |blocks|;
      assert blocks[..i] == blocks;
      while i != 0 && height <= blocks[i-1].info.height
        invariant 0 <= i <= |blocks| && FirstFrom(blocks, height) == FirstFrom(blocks[..i], height)
      {
        assert blocks[..i][..i-1] == blocks[..i-1];
        i := i - 1;
      }
    }

    /** Returns the blocks already cut off the list, dropping their heights. */
    method ReturnBlocks(detached: seq<BlockTxs>, ghost bs: BlockList, ghost l: Ledger) returns (err: Option<Error>)
      requires Valid() && |blocks| <= |bs| && detached == bs[|blocks|..]
      requires Mirrors(bs, blockIndexes, l.mined, l.deltas) && InUse(blockIndexes, |bs|)
      requires forall i :: |blocks| <= i < |bs| ==> HoldsBlock(l.mined, bs[i])
      modifies this
      ensures Valid() && (err.None? ==> Settled()) && forall k :: k in AllKeys(detached) ==> k in l.mined
      ensures err.None? <==> ReturnAll(old(ledger), l.mined, AllKeys(detached)).Ok?
      ensures err.None? ==> ReturnAll(old(ledger), l.mined, AllKeys(detached)) == Ok(ledger)
      ensures Shape(blocks) == Shape(old(blocks))
    {
      hide Mirrors, Shape, ReturnAll, HoldsBlock, BlockKeys;
      ghost var start, n, ix := ledger, |blocks|, blockIndexes;
      NothingReturned(start, l.mined);
      KeysHeld(l.mined, detached);
      var j := 0;
      while j < |detached|
        invariant 0 <= j <= |detached| && Valid() && |blocks| == n && PartlyDropped(ix, blockIndexes, n, j)
        invariant Shape(blocks) == Shape(old(blocks))
        invariant forall k :: k in AllKeys(detached[..j]) ==> k in l.mined
        invariant ReturnAll(start, l.mined, AllKeys(detached[..j])) == Ok(ledger)
      {
        var b := detached[j];
        assert detached[..j+1][..j] == detached[..j] && b == bs[n+j];
        DropOne(bs, ix, l.mined, l.deltas, blockIndexes, n, j);
        MirrorsLive(blocks, blockIndexes, blockIndexes - {b.info.height}, ledger.mined, ledger.deltas);
        blockIndexes := blockIndexes - {b.info.height};
        err := ReturnBlock(b, start, l.mined, AllKeys(detached[..j]));
        if err.Some? {
          RestFails(start, l.mined, detached, j + 1);
          return;
        }
        j := j + 1;
      }
      assert detached[..j] == detached;
      return None;
    }

    /** Detaches all blocks from height on; their transactions, coinbases
        excepted, return to the pool in the order they were recorded in. */
    method Rollback(height: int) returns (err: Option<Error>)
      requires Valid() && Settled()
      modifies this
      ensures Valid() && (err.None? ==> Settled())
      ensures var order := AllKeys(old(blocks)[FirstFrom(old(blocks), height)..]);
              && Detached(old(ledger).mined, height, order)
              && (err.None? <==> Rollbacks.Rollback(old(ledger), height, order).Ok?)
              && (err.None? ==> Rollbacks.Rollback(old(ledger), height, order) == Ok(ledger))
              && (err.None? && old(Linked(ledger)) ==> Provenance.Returning(old(ledger), height, order, ledger))
      ensures err.None? ==> Infos(blocks) == Infos(old(blocks)[..FirstFrom(old(blocks), height)])
    {
      hide Linked, Provenance.Returning;
      hide Mirrors, ReturnAll, HoldsBlock, Detached, Truncate;
      DetachedKeys(blocks, blockIndexes, ledger.mined, ledger.deltas, height);
      CutAtFirst(blocks, blockIndexes, ledger.mined, ledger.deltas, height);
      TruncateIs(ledger, height);
      ghost var l, bs := ledger, blocks;
      var i := FirstDetached(height);
      var detached := blocks[i..];
      blocks := blocks[..i];
      ledger := Truncate(ledger, height);
      ghost var kept := blocks;
      err := ReturnBlocks(detached, bs, l);
      ShapeInfos(kept, blocks);
      if err.None? && Linked(l) { Provenance.RollbackRecords(l, height, AllKeys(detached)); }
    }

    // -------------------------------------------------------------- balance

    /** What the record r, mined at key, spends from confirmed credits. */
    method DebitsOf(r: TxRecord, ghost key: BlockTxKey, minConf: int, height: int) returns (a: int)
      requires Valid() && MinedOk(ledger.mined, ledger.deltas.Keys) && SpendsOk(ledger.mined)
      requires key in ledger.mined && ledger.mined[key] == r
      ensures a == SpentConfirmedIn(ledger.mined, minConf, height)(key)
    {
      hide Mirrors, MinedOk, SpendsOk, SpentConfirmedIn, IsCredit, ConfirmedValueIn, Confirmed;
      SpendsConfirmed(ledger.mined, key, minConf, height);
      ghost var f := ConfirmedValueIn(ledger.mined, minConf, height);
      a := 0;
      SumEmpty(f);
      if r.debits.None? { return; }
      var ps, i := r.debits.value.spends, 0;
      while i < |ps|
        invariant 0 <= i <= |ps| && a == Sum(Elements(ps[..i]), f)
      {
        SpendIsCredit(ledger, key, i);
        SumNext(ps, i, f);
        var prev := ps[i];
        ConfirmedValueAt(ledger.mined, prev, minConf, height);
        if Confirmed(minConf, prev.tx.height, height) {
          var rr := LookupBlockTx(prev.tx);
          a := a + rr.value.tx.outputs[prev.out];
        }
        i := i + 1;
      }
      assert ps[..i] == ps;
    }

    /** What a block spends from confirmed credits. */
    method BlockDebits(b: BlockTxs, ghost n: nat, minConf: int, height: int) returns (a: int)
      requires Valid() && MinedOk(ledger.mined, ledger.deltas.Keys) && SpendsOk(ledger.mined)
      requires n < |blocks| && b == blocks[n]
      ensures a == Sum(TxsAt(ledger.mined, b.info.height), SpentConfirmedIn(ledger.mined, minConf, height))
    {
      BlockKeysTxs(blocks, blockIndexes, ledger.mined, ledger.deltas, n);
      hide Mirrors, MinedOk, SpendsOk, SpentConfirmedIn, BlockKeys, HoldsBlock, NoDup, TxsAt;
      ghost var f, keys := SpentConfirmedIn(ledger.mined, minConf, height), BlockKeys(b);
      SumEmpty(f);
      a := 0;
      var i := 0;
      while i < |b.txs|
        invariant 0 <= i <= |b.txs| && a == Sum(Elements(keys[..i]), f)
      {
        BlockKeyAt(ledger.mined, b, [], i);
        SumNextOf(keys, i, f);
        assert ([] + keys)[i] == keys[i];
        var d := DebitsOf(b.txs[i], keys[i], minConf, height);
        a := a + d;
        i := i + 1;
      }
      assert keys[..i] == keys;
    }

    /** What all blocks contribute to the balance. */
    method BlocksBalance(minConf: int, height: int) returns (bal: int)
      requires Valid() && MinedOk(ledger.mined, ledger.deltas.Keys) && SpendsOk(ledger.mined)
      ensures bal == Sum(ledger.deltas.Keys, ShareIn(ledger, minConf, height))
    {
      hide Mirrors, MinedOk, SpendsOk, NoDup, ShareIn, TxsAt, SpentConfirmedIn, Confirmed, Confirms, Sum, HeightsOf;
      HeightsAll(blocks, blockIndexes, ledger.mined, ledger.deltas);
      ghost var f, hs := ShareIn(ledger, minConf, height), HeightsOf(blocks);
      SumEmpty(f);
      assert Elements(hs[..0]) == {};
      bal := 0;
      var i := 0;
      while i < |blocks|
        invariant 0 <= i <= |blocks| && bal == Sum(Elements(hs[..i]), f)
      {
        SumNextOf(hs, i, f);
        BlockAmounts(blocks, blockIndexes, ledger.mined, ledger.deltas, i);
        var b := blocks[i];
        ShareAt(ledger, minConf, height, b.info.height);
        if Confirmed(minConf, b.info.height, height) {
          bal := bal + b.amounts.spendable;
          if COINBASE_MATURITY <= Confirms(b.info.height, height) { bal := bal + b.amounts.reward; }
        } else {
          var d := BlockDebits(b, i, minConf, height);
          bal := bal - d;
        }
        i := i + 1;
      }
      assert hs[..i] == hs;
    }

    /** What the pool spends from confirmed credits. */
    method PoolDebits(minConf: int, height: int) returns (a: int)
      requires Valid() && MinedOk(ledger.mined, ledger.deltas.Keys)
      requires SpentOutsOk(ledger.mined, ledger.spentOuts, ledger.spentKeys)
      ensures a == Sum(ConfirmedOf(ledger.spentOuts.Keys, minConf, height), ValueIn(ledger.mined))
    {
      hide Mirrors, MinedOk, SpentOutsOk, IsCredit, ConfirmedValueIn, Confirmed, ConfirmedOf;
      ghost var f := ConfirmedValueIn(ledger.mined, minConf, height);
      ConfirmedValues(ledger.mined, ledger.spentOuts.Keys, minConf, height);
      SumEmpty(f);
      var keys := spentBlockOutPoints.Keys;
      var rest := keys;
      a := 0;
      while rest != {}
        invariant rest <= keys && a == Sum(keys - rest, f)
        decreases rest
      {
        var prev :| prev in rest;
        PoolSpendIsCredit(ledger, prev);
        SumLeft(keys, rest, prev, f);
        ConfirmedValueAt(ledger.mined, prev, minConf, height);
        if Confirmed(minConf, prev.tx.height, height) {
          var r := LookupBlockTx(prev.tx);
          a := a + r.value.tx.outputs[prev.out];
        }
        rest := rest - {prev};
      }
      assert keys - rest == keys;
    }

    /** The value of the pool's credits that are not marked spent. */
    method PoolCredits() returns (a: int)
      requires Valid() && PoolOk(ledger.txs)
      ensures a == Sum(ledger.txs.Keys, UnmarkedIn(ledger.txs))
    {
      hide Mirrors;
      ghost var f := UnmarkedIn(ledger.txs);
      SumEmpty(f);
      var keys := txs.Keys;
      var rest := keys;
      a := 0;
      while rest != {}
        invariant rest <= keys && a == Sum(keys - rest, f)
        decreases rest
      {
        var h :| h in rest;
        SumLeft(keys, rest, h, f);
        var r, i := txs[h], 0;
        ghost var before := a;
        while i < |r.credits|
          invariant 0 <= i <= |r.credits| && a == before + UnmarkedValue(r, i)
        {
          if r.credits[i].Some? && r.credits[i].value.spentBy.None? { a := a + r.tx.outputs[i]; }
          i := i + 1;
        }
        rest := rest - {h};
      }
      assert keys - rest == keys;
    }

    /** The balance at a depth and a chain height.  At depth 0 it counts the
        unconfirmed credits that the pool spends without marking them. */
    method Balance(minConf: int, height: int) returns (bal: int)
      requires Valid() && Linked(ledger)
      ensures bal == FastBalance(ledger, minConf, height)
      ensures Accounted(ledger) && SpentMature(ledger.mined, height) && (forall h :: h in ledger.deltas ==>
            h <= height) ==>
        bal == ScanBalance(ledger, minConf, height) + OverlookedValue(ledger, minConf)
    {
      hide MinedOk, PoolOk, HashesOk, UnspentSound, SpentByOk, SpendsOk, SpentOutsOk, SpentKeysOk, SpendersOk;
      hide SpentUnconfOk, MarksOk, PrevOutsOk;
      hide Mirrors, Accounted, SpentMature, ScanBalance, OverlookedValue, ShareIn, NoDup, HeightsOf, Sum;
      hide ConfirmedBlocks, MatureBlocks, YoungTxs, SpentConfirmedIn, SpendableIn, RewardIn, ConfirmedOf, UnmarkedIn;
      hide ValueIn;
      HeightsAll(blocks, blockIndexes, ledger.mined, ledger.deltas);
      bal := BlocksBalance(minConf, height);
      SharesAdd(ledger, minConf, height);
      var spent := PoolDebits(minConf, height);
      bal := bal - spent;
      if minConf == 0 {
        var pool := PoolCredits();
        bal := bal + pool;
      }
      if Accounted(ledger) && SpentMature(ledger.mined, height) && forall h :: h in ledger.deltas ==> h <= height {
        BalanceIsScanIff(ledger, minConf, height);
      }
    }

    // ------------------------------------------------------ unspent outputs

    /** The mined credits on the unspent map. */
    method MinedUnspent() returns (cs: seq<CreditRef>)
      requires Valid() && UnspentSound(ledger.mined, ledger.unspent)
      ensures Distinct(cs) && forall c :: c in cs <==> ListedUnspent(ledger, c)
    {
      hide Mirrors, UnspentSound;
      var keys := unspent.Keys;
      var rest := keys;
      cs := [];
      while rest != {}
        invariant rest <= keys && Distinct(cs)
        invariant forall c :: c in cs <==> ListedUnspent(ledger, c) && c.Op() in keys - rest
        decreases rest
      {
        var op :| op in rest;
        UnspentIsMined(ledger, op);
        var r := LookupBlockTx(unspent[op]);
        var c := CreditRef(TxRef(unspent[op], r.value.tx.hash), op.index);
        cs := cs + [c];
        rest := rest - {op};
      }
    }

    /** The unconfirmed credits that are not marked spent. */
    method PoolUnspent() returns (cs: seq<CreditRef>)
      requires Valid() && PoolOk(ledger.txs)
      ensures Distinct(cs) && forall c :: c in cs <==> PoolListed(ledger.txs, c)
    {
      hide Mirrors;
      var keys := txs.Keys;
      var rest := keys;
      cs := [];
      while rest != {}
        invariant rest <= keys && Distinct(cs)
        invariant forall c :: c in cs <==> PoolListed(ledger.txs, c) && c.tx.hash in keys - rest
        decreases rest
      {
        var h :| h in rest;
        var r, i := txs[h], 0;
        while i < |r.credits|
          invariant 0 <= i <= |r.credits| && Distinct(cs)
          invariant forall c :: c in cs <==>
                      PoolListed(ledger.txs, c) && (c.tx.hash in keys - rest || (c.tx.hash == h && c.out < i))
        {
          if r.credits[i].Some? && r.credits[i].value.spentBy.None? {
            cs := cs + [CreditRef(TxRef(UNMINED, h), i)];
          }
          i := i + 1;
        }
        rest := rest - {h};
      }
    }

    /** The outputs the store takes for unspent, each outpoint once: they are
        credits of the wallet, all of them unspent just when the pool spends no
        credit of its own that is not marked, and every unspent one is there if
        the unspent map is complete. */
    method UnspentOutputs() returns (cs: seq<CreditRef>)
      requires Valid() && Linked(ledger)
      ensures Distinct(cs) && forall c :: c in cs ==> LiveCredit(ledger, c)
      ensures forall c :: c in cs ==>
                (Free(ledger, c) <==> !(c.tx.key == UNMINED && c.Op() in Overlooked(ledger.txs, ledger.spentUnconf)))
      ensures (forall c :: c in cs ==> Free(ledger, c)) <==> Overlooked(ledger.txs, ledger.spentUnconf) == {}
      ensures UnspentComplete(ledger.mined, ledger.unspent) ==> forall c :: Free(ledger, c) ==> c in cs
    {
      hide Mirrors, Linked, UnspentComplete, ListedUnspent, PoolListed, Free, Overlooked, LiveCredit, Distinct;
      LinkedFree(ledger);
      var mined := MinedUnspent();
      var pool := PoolUnspent();
      BothListed(ledger, mined, pool);
      return mined + pool;
    }
  }

  lemma DebitsTell(l: Ledger, t: TxRef, spent: seq<CreditRef>)
    requires LiveTx(l, t)
    ensures LedgerOps.AddDebits(l, t, spent).Ok? ==>
      Provenance.Debited(l, LedgerOps.AddDebits(l, t, spent).value, t)
  {
    hide LedgerOps.AddDebits, Provenance.Debited;
    if LedgerOps.AddDebits(l, t, spent).Ok? { Provenance.AddDebitsRecords(l, t, spent); }
  }

  /** The block of a mined record is known. */
  lemma KnownBlock(bs: BlockList, ix: Heights, m: Mined, deltas: map<int, Amounts>, key: BlockTxKey, info: BlockInfo)
    requires Mirrors(bs, ix, m, deltas) && key in m && key.height == info.height
    ensures InfosWith(bs, ix, info) == Infos(bs)
  {
    hide Mirrors;
    MirrorsHas(bs, ix, m, deltas, key);
  }

  lemma InfosWithSame(bs: BlockList, bs': BlockList, ix: Heights, info: BlockInfo)
    requires Infos(bs') == Infos(bs)
    ensures InfosWith(bs', ix, info) == InfosWith(bs, ix, info)
  {
  }

  ghost predicate BlockTold(l: Ledger, tx: Tx, key: BlockTxKey, received: int)
    requires Linked(l)
  {
    InsertMined(l, tx, key, received).Ok? ==>
      var l' := InsertMined(l, tx, key, received).value;
      && Provenance.BlockRecorded(l, l', tx, key, received)
      && (key.height != -1 ==> LiveTx(l', TxRef(key, tx.hash)))
  }

  lemma BlockRecords(l: Ledger, tx: Tx, key: BlockTxKey, received: int)
    requires Linked(l)
    ensures BlockTold(l, tx, key, received)
  {
    hide Linked, InsertMined, Provenance.BlockRecorded;
    if InsertMined(l, tx, key, received).Ok? {
      Provenance.InsertMinedRecords(l, tx, key, received);
      if key.height != -1 {
        Provenance.RecordedLive(l, InsertMined(l, tx, key, received).value, tx, key, received);
      }
    }
  }

  const ZERO_TIME := 0

  /** The earlier of the block's time, if it has one, and now. */
  function Received(blockTime: int, now: int): int {
    if blockTime != ZERO_TIME && blockTime < now then blockTime else now
  }

  /** The ledger without the first transaction that tx double spends. */
  ghost function Conflicted(l: Ledger, tx: Tx): Result<Ledger>
    requires Linked(l)
  {
    match Runs.FindDoubleSpend(l.prevOuts, tx.inputs)
    case None => Ok(l)
    case Some(h) => ConflictKnown(l, tx.inputs, h); RemoveConflict(l, h, Bound(l.txs))
  }

  lemma InsertMinedCases(l: Ledger, tx: Tx, key: BlockTxKey, now: int)
    requires Linked(l)
    ensures key in l.mined ==>
      InsertMined(l, tx, key, now) == if l.mined[key].tx.hash == tx.hash then Ok(l) else Err(InconsistentStore)
    ensures key !in l.mined && tx.hash in l.txs ==> |l.txs[tx.hash].credits| <= |l.txs[tx.hash].tx.outputs|
    ensures key !in l.mined && tx.hash in l.txs ==> InsertMined(l, tx, key, now) == Ok(MoveMined(l, tx.hash, key))
    ensures key !in l.mined && tx.hash !in l.txs ==>
      InsertMined(l, tx, key, now) ==
      match Conflicted(l, tx) case Ok(l') => Ok(AppendMined(l', tx, key, now)) case Err(e) => Err(e)
  {
    hide RemoveConflict, MoveMined, AppendMined;
  }

  lemma LinkedKeysLive(l: Ledger)
    requires Linked(l)
    ensures KeysLive(l)
  {
    forall op | op in l.spentKeys ensures IsCredit(l.mined, l.spentKeys[op]) {
      assert l.spentKeys[op] in l.spentOuts;
    }
  }

  lemma LinkedPoolLinks(l: Ledger, h: Hash)
    requires Linked(l)
    ensures PoolLinks(l)
    ensures h in l.txs ==> |l.txs[h].credits| <= |l.txs[h].tx.outputs|
  {
  }

  /** A new height is above all blocks just when it is above the last one. */
  lemma TopOrSplice(bs: BlockList, ix: Heights, m: Mined, deltas: map<int, Amounts>, h: int)
    requires Mirrors(bs, ix, m, deltas) && InUse(ix, |bs|)
    ensures h !in ix ==> (OnTop(bs, h) <==> bs == [] || bs[|bs|-1].info.height <= h)
    ensures h !in ix ==> (OnTop(bs, h) <==> Splice.Below(bs, Splice.HeightOf(), h) == |bs|)
  {
    LiveAll(ix, |bs|);
    hide BlockOk, Shows;
    if h !in ix && bs != [] { assert bs[|bs|-1].info.height in ix; }
  }

  /** What becomes of the block list when b's height is known, or new. */
  lemma KnownOrNew(bs: BlockList, ix: Heights, m: Mined, deltas: map<int, Amounts>, b: BlockTxs)
    requires Mirrors(bs, ix, m, deltas) && InUse(ix, |bs|) && b == BlockTxs(b.info, Amounts(0, 0), [], map[])
    ensures var h := b.info.height; var deltas' := deltas[h := BlockDelta(deltas, h)];
            && (h in ix ==> Mirrors(bs, ix, m, deltas'))
            && (h !in ix ==> (Fits(bs, ix, h) <==> bs == [] || bs[|bs|-1].info.height <= h))
            && (h !in ix && Fits(bs, ix, h) ==>
                  && Splice.Inserted(bs, Splice.HeightOf(), b) == bs
                      + [b] && Splice.InsertedIndex(bs, Splice.HeightOf(), ix, b) == ix[h := |bs|]
                  && Mirrors(bs + [b], ix[h := |bs|], m, deltas') && InUse(ix[h := |bs|], |bs| + 1))
  {
    var h := b.info.height;
    TopOrSplice(bs, ix, m, deltas, h);
    hide Mirrors, OnTop, Splice.Below, Splice.Renumbered;
    MirrorsAmounts(bs, ix, m, deltas, h);
    if h in ix {
      assert deltas[h := BlockDelta(deltas, h)] == deltas;
    } else if OnTop(bs, h) {
      MirrorsNewBlock(bs, ix, m, deltas, b.info);
    }
  }

  /** r with output i a credit, or None if it is one already. */
  method SetCredit(r: TxRecord, i: nat, change: bool) returns (res: Option<TxRecord>)
    ensures res.None? <==> HasCredit(r, i)
    ensures res.Some? ==> res.value == WithCredit(r, i, change)
  {
    var cs := r.credits;
    while |cs| <= i
      invariant |cs| == |r.credits| || |cs| <= i + 1
      invariant |r.credits| <= |cs| && cs == r.credits + seq(|cs| - |r.credits|, _ => None)
      decreases i - |cs|
    {
      cs := cs + [None];
    }
    if cs[i].Some? { return None; }
    return Some(r.(credits := cs[i := Some(TxTypes.Credit.Credit(change, None))]));
  }

  lemma RecordHasBlock(bs: BlockList, ix: Heights, m: Mined, deltas: map<int, Amounts>, k: BlockTxKey)
    requires Mirrors(bs, ix, m, deltas) && k in m
    ensures k.height in deltas
  {
    MirrorsAmounts(bs, ix, m, deltas, k.height);
  }

  lemma {:induction false} FindCreditsFails(l: Ledger, ins: seq<OutPoint>, n: nat)
    requires n <= |ins| && FindCredits(l, ins[..n]).Err?
    ensures FindCredits(l, ins).Err?
  {
    if n < |ins| {
      assert ins[..|ins|-1][..n] == ins[..n];
      FindCreditsFails(l, ins[..|ins|-1], n);
    } else {
      assert ins[..n] == ins;
    }
  }

  /** The block of a mined transaction t charged with the amount a. */
  function Charged(l: Ledger, t: TxRef, a: int): Ledger {
    if t.key.height == -1 then l else l.(deltas := Charge(l.deltas, t.key.height, a))
  }

  lemma {:induction false} MarkSpentFails(l: Ledger, cs: seq<CreditRef>, n: nat, t: TxRef)
    requires n <= |cs| && MarkSpent(l, cs[..n], t).Err?
    ensures MarkSpent(l, cs, t).Err?
  {
    hide MarkOne;
    if n < |cs| {
      assert cs[..|cs|-1][..n] == cs[..n];
      MarkSpentFails(l, cs[..|cs|-1], n, t);
    } else {
      assert cs[..n] == cs;
    }
  }

  lemma FirstDebitsCases(l: Ledger, t: TxRef, cs: seq<CreditRef>)
    requires LiveTx(l, t)
    ensures var m := MarkSpent(l, cs, t);
            if m.Err? then FirstDebits(l, t, cs).Err?
            else
              var g := Charged(m.value.ledger, t, m.value.amount);
              LiveTx(g, t) && LiveTx(SetDebits(g, t, Debits(m.value.amount, [])), t) &&
              FirstDebits(l, t, cs) == Ok(
                if t.key == UNMINED then AllPoolSpends(SetDebits(g, t, Debits(m.value.amount, [])), cs, t.hash)
                else SetDebits(SetDebits(g, t, Debits(m.value.amount, [])), t, Debits(m.value.amount, Keys(cs))))
  {
    hide MarkSpent, AllPoolSpends, Charge;
    var m := MarkSpent(l, cs, t);
    if m.Ok? && t.key != UNMINED {
      var g := Charged(m.value.ledger, t, m.value.amount);
      assert g.mined[t.key := g.mined[t.key].(debits := Some(Debits(m.value.amount,
          [])))][t.key := g.mined[t.key].(debits := Some(Debits(m.value.amount, Keys(cs))))]
          == g.mined[t.key := g.mined[t.key].(debits := Some(Debits(m.value.amount, Keys(cs))))];
    }
  }

  // -------------------------------------------------------------- rollback

  /** Replaces the first p in ps by q. */
  method SwapDebits(ps: seq<BlockOutputKey>, p: BlockOutputKey,
      q: BlockOutputKey) returns (res: Option<seq<BlockOutputKey>>)
    ensures res == SwapSpend(ps, p, q)
  {
    var i := 0;
    while i < |ps|
      invariant 0 <= i <= |ps| && p !in ps[..i]
    {
      if ps[i] == p {
        SwapSpendAt(ps, p, q, i);
        return Some(ps[i := q]);
      }
      i := i + 1;
    }
    SwapSpendMissing(ps, p, q);
    return None;
  }

  lemma {:induction false} SwapSpendAt(ps: seq<BlockOutputKey>, p: BlockOutputKey, q: BlockOutputKey, i: nat)
    requires i < |ps| && ps[i] == p && p !in ps[..i]
    ensures SwapSpend(ps, p, q) == Some(ps[i := q])
  {
    if i > 0 {
      assert ps[0] == ps[..i][0] && forall x :: x in ps[1..][..i-1] ==> x in ps[..i];
      SwapSpendAt(ps[1..], p, q, i - 1);
      assert [ps[0]] + ps[1..][i-1 := q] == ps[i := q];
    } else {
      assert [q] + ps[1..] == ps[0 := q];
    }
  }

  lemma {:induction false} SwapSpendMissing(ps: seq<BlockOutputKey>, p: BlockOutputKey, q: BlockOutputKey)
    requires p !in ps
    ensures SwapSpend(ps, p, q) == None
  {
    if ps != [] { SwapSpendMissing(ps[1..], p, q); }
  }

  lemma {:induction false} ReturnCreditsFails(l: Ledger, key: BlockTxKey, r: TxRecord, i: nat, n: nat)
    requires i <= n <= |r.credits| && ReturnCredits(l, key, r, i).Err?
    ensures ReturnCredits(l, key, r, n).Err?
  {
    hide ReturnCredit;
    if i < n { ReturnCreditsFails(l, key, r, i, n - 1); }
  }

  lemma {:induction false} ReturnDebitsFails(l: Ledger, h: Hash, ps: seq<BlockOutputKey>, n: nat)
    requires n <= |ps| && ReturnDebits(l, h, ps[..n]).Err?
    ensures ReturnDebits(l, h, ps).Err?
  {
    hide ReturnDebit;
    if n < |ps| {
      assert ps[..|ps|-1][..n] == ps[..n];
      ReturnDebitsFails(l, h, ps[..|ps|-1], n);
    } else {
      assert ps[..n] == ps;
    }
  }

  lemma ReturnNoDebits(l: Ledger, h: Hash)
    ensures ReturnDebits(l, h, []) == Ok(l)
  {
  }

  lemma {:induction false} ReturnAllFails(l: Ledger, from: Mined, order: seq<BlockTxKey>, n: nat)
    requires n <= |order| && (forall k :: k in order ==> k in from) && ReturnAll(l, from, order[..n]).Err?
    ensures ReturnAll(l, from, order).Err?
  {
    hide ReturnTx;
    if n < |order| {
      assert order[..|order|-1][..n] == order[..n];
      ReturnAllFails(l, from, order[..|order|-1], n);
    } else {
      assert order[..n] == order;
    }
  }

  lemma ReturnNext(l: Ledger, from: Mined, order: seq<BlockTxKey>, n: nat)
    requires n < |order| && (forall k :: k in order ==> k in from) && ReturnAll(l, from, order[..n]).Ok?
    ensures var l', k := ReturnAll(l, from, order[..n]).value, order[n];
            ReturnAll(l, from, order[..n+1]) == if k.index == 0 then Ok(l') else ReturnTx(l', k, from[k])
  {
    hide ReturnTx;
    assert order[..n+1][..n] == order[..n];
  }

  lemma NothingReturned(l: Ledger, from: Mined)
    ensures AllKeys([]) == [] && ReturnAll(l, from, AllKeys([])) == Ok(l)
  {
  }

  lemma RestFails(l: Ledger, from: Mined, detached: seq<BlockTxs>, n: nat)
    requires n <= |detached| && (forall k :: k in AllKeys(detached) ==> k in from)
    requires (forall k :: k in AllKeys(detached[..n]) ==> k in from) && ReturnAll(l, from, AllKeys(detached[..n])).Err?
    ensures ReturnAll(l, from, AllKeys(detached)).Err?
  {
    hide ReturnAll;
    AllKeysPrefix(detached, n);
    assert AllKeys(detached)[..|AllKeys(detached[..n])|] == AllKeys(detached[..n]);
    ReturnAllFails(l, from, AllKeys(detached), |AllKeys(detached[..n])|);
  }

  lemma TruncateIs(l: Ledger, height: int)
    ensures var t := Truncate(l, height);
            && t.mined == CutMined(l.mined, height) && t.deltas == CutDeltas(l.deltas, height) && t.unspent == l.unspent
            && t.txs == l.txs && t.spentOuts == l.spentOuts && t.spentKeys == l.spentKeys
            && t.spentUnconf == l.spentUnconf
            && t.prevOuts == l.prevOuts
  {
  }

  // -------------------------------------------------------- unspent outputs

  /** c is a credit of the wallet and nothing spends it: it is not marked spent,
      and if it is unconfirmed, the pool records no spender either. */
  ghost predicate Free(l: Ledger, c: CreditRef) {
    && LiveCredit(l, c) && RecordAt(l, c.tx).credits[c.out].value.spentBy.None?
    && (c.tx.key == UNMINED ==> c.Op() !in l.spentUnconf)
  }

  ghost predicate ListedUnspent(l: Ledger, c: CreditRef) {
    c.Op() in l.unspent && l.unspent[c.Op()] == c.tx.key
  }

  ghost predicate PoolListed(txs: Pool, c: CreditRef) {
    c.tx.key == UNMINED && c.tx.hash in txs && HasCredit(txs[c.tx.hash], c.out)
    && txs[c.tx.hash].credits[c.out].value.spentBy.None?
  }

  lemma UnspentIsMined(l: Ledger, op: OutPoint)
    requires UnspentSound(l.mined, l.unspent) && op in l.unspent
    ensures l.unspent[op] in l.mined && l.mined[l.unspent[op]].tx.hash == op.hash
  {
    assert UnspentAt(l.mined, BlockOutputKey(l.unspent[op], op.index), op);
  }

  lemma LinkedFree(l: Ledger)
    requires Linked(l)
    ensures UnspentSound(l.mined, l.unspent) && PoolOk(l.txs)
    ensures forall c :: ListedUnspent(l, c) ==> LiveCredit(l, c) && Free(l, c) && c.tx.key != UNMINED
    ensures forall c :: PoolListed(l.txs, c) ==>
              LiveCredit(l, c) && c.tx.key == UNMINED && (Free(l, c) <==> c.Op() !in Overlooked(l.txs, l.spentUnconf))
    ensures UnspentComplete(l.mined, l.unspent) ==> forall c :: Free(l, c) ==>
              ListedUnspent(l, c) || PoolListed(l.txs, c)
    ensures forall c, d :: ListedUnspent(l, c) && PoolListed(l.txs, d) ==> c.Op() != d.Op()
  {
    hide SpentByOk, SpendsOk, SpentOutsOk, SpentKeysOk, SpendersOk, SpentUnconfOk, MarksOk, PrevOutsOk;
    forall c | ListedUnspent(l, c)
      ensures LiveCredit(l, c) && Free(l, c) && c.tx.key != UNMINED && c.tx.hash !in l.txs
    {
      assert UnspentAt(l.mined, BlockOutputKey(l.unspent[c.Op()], c.Op().index), c.Op());
    }
    if UnspentComplete(l.mined, l.unspent) {
      forall c | Free(l, c) ensures ListedUnspent(l, c) || PoolListed(l.txs, c) {
        if c.tx.key != UNMINED {
          assert IsCredit(l.mined, c.Key()) && OpOf(l.mined, c.Key()) == c.Op();
          assert UnspentAt(l.mined, BlockOutputKey(l.unspent[c.Op()], c.Op().index), c.Op());
        }
      }
    }
  }

  /** The two lists together. */
  lemma BothListed(l: Ledger, mined: seq<CreditRef>, pool: seq<CreditRef>)
    requires Linked(l) && Distinct(mined) && Distinct(pool)
    requires forall c :: c in mined <==> ListedUnspent(l, c)
    requires forall c :: c in pool <==> PoolListed(l.txs, c)
    ensures Distinct(mined + pool) && forall c :: c in mined + pool ==> LiveCredit(l, c)
    ensures forall c :: c in mined + pool ==>
              (Free(l, c) <==> !(c.tx.key == UNMINED && c.Op() in Overlooked(l.txs, l.spentUnconf)))
    ensures (forall c :: c in mined + pool ==> Free(l, c)) <==> Overlooked(l.txs, l.spentUnconf) == {}
    ensures UnspentComplete(l.mined, l.unspent) ==> forall c :: Free(l, c) ==> c in mined + pool
  {
    hide Linked, UnspentComplete, ListedUnspent, PoolListed, Free, Overlooked, LiveCredit;
    LinkedFree(l);
    OverlookedListed(l);
    BothDistinct(l, mined, pool);
    assert forall c :: c in mined + pool <==> c in mined || c in pool;
    hide Distinct;
  }

  lemma BothDistinct(l: Ledger, mined: seq<CreditRef>, pool: seq<CreditRef>)
    requires Distinct(mined) && Distinct(pool)
    requires forall c, d :: c in mined && d in pool ==> c.Op() != d.Op()
    ensures Distinct(mined + pool)
  {
  }

  /** Every overlooked credit is among those not marked. */
  lemma OverlookedListed(l: Ledger)
    ensures Overlooked(l.txs, l.spentUnconf) == {} <==>
              forall c :: PoolListed(l.txs, c) ==> c.Op() !in Overlooked(l.txs, l.spentUnconf)
  {
    if op :| op in Overlooked(l.txs, l.spentUnconf) {
      var c := CreditRef(TxRef(UNMINED, op.hash), op.index);
      assert PoolListed(l.txs, c) && c.Op() == op;
    }
  }
}
