/** Detaching blocks: their transactions return to the pool. */
module Rollbacks {
  import opened TxTypes
  import opened Ledgers

  function CutMined(m: Mined, height: int): Mined {
    map k | k in m && k.height < height :: m[k]
  }

  function CutDeltas(deltas: map<int, Amounts>, height: int): map<int, Amounts> {
    map h | h in deltas && h < height :: deltas[h]
  }

  /** The ledger without the blocks from height on. */
  function Truncate(l: Ledger, height: int): Ledger {
    l.(mined := CutMined(l.mined, height), deltas := CutDeltas(l.deltas, height))
  }

  /** The first position of p in ps replaced by q, if p is there. */
  function SwapSpend(ps: seq<BlockOutputKey>, p: BlockOutputKey, q: BlockOutputKey): Option<seq<BlockOutputKey>> {
    if ps == [] then None
    else if ps[0] == p then Some([q] + ps[1..])
    else match SwapSpend(ps[1..], p, q)
      case None => None
      case Some(rest) => Some([ps[0]] + rest)
  }

  /** Credit i of the detached record r moves from the mined to the
      unconfirmed spend tracking. */
  function ReturnCredit(l: Ledger, key: BlockTxKey, r: TxRecord, i: nat): Result<Ledger> {
    if !HasCredit(r, i) then Ok(l) else
    var op, p := OutPoint(r.tx.hash, i), BlockOutputKey(key, i);
    var l' := l.(unspent := l.unspent - {op});
    match r.credits[i].value.spentBy
    case None => Ok(l')
    case Some(k) =>
      if k.height == -1 then
        if p !in l.spentOuts then Err(InconsistentStore)
        else Ok(l'.(spentOuts := l.spentOuts - {p}, spentKeys := l.spentKeys - {op},
                    spentUnconf := l.spentUnconf[op := l.spentOuts[p]]))
      else if k !in l.mined then Err(MissingBlockTx)
      else if l.mined[k].debits.None? then Err(MissingDebits)
      else
        var d := l.mined[k].debits.value;
        match SwapSpend(d.spends, p, BlockOutputKey(UNMINED, 0))
        case None => Err(MissingCredit)
        case Some(spends) => Ok(l'.(mined := l.mined[k := l.mined[k].(debits := Some(d.(spends := spends)))]))
  }

  function ReturnCredits(l: Ledger, key: BlockTxKey, r: TxRecord, n: nat): Result<Ledger>
    requires n <= |r.credits|
  {
    if n == 0 then Ok(l) else
    match ReturnCredits(l, key, r, n - 1)
    case Err(e) => Err(e)
    case Ok(l') => ReturnCredit(l', key, r, n - 1)
  }

  /** The mined credit p is now spent by the unconfirmed transaction h. */
  function ReturnDebit(l: Ledger, h: Hash, p: BlockOutputKey): Result<Ledger> {
    if p.tx !in l.mined then Err(MissingBlockTx)
    else if !IsCredit(l.mined, p) then Err(MissingCredit)
    else Ok(l.(mined := Relink(l.mined, {p}, Some(UNMINED)),
               spentOuts := l.spentOuts[p := h],
               spentKeys := l.spentKeys[OpOf(l.mined, p) := p]))
  }

  function ReturnDebits(l: Ledger, h: Hash, ps: seq<BlockOutputKey>): Result<Ledger> {
    if ps == [] then Ok(l) else
    match ReturnDebits(l, h, ps[..|ps|-1])
    case Err(e) => Err(e)
    case Ok(l') => ReturnDebit(l', h, ps[|ps|-1])
  }

  /** r as an unconfirmed record: spends are tracked by the pool's maps only. */
  function ReturnedRecord(r: TxRecord): TxRecord {
    r.(index := INDEX_UNKNOWN, debits := if r.debits.None? then None else Some(r.debits.value.(spends := [])))
  }

  /** r put into the pool as it is, outside of any block. */
  function Parked(l: Ledger, r: TxRecord): Ledger {
    l.(txs := l.txs[r.tx.hash := r.(index := INDEX_UNKNOWN)],
       prevOuts := l.prevOuts + map op | op in Inputs(r) :: r.tx.hash)
  }

  /** The detached record r, mined at key, returns to the pool. */
  function ReturnTx(l: Ledger, key: BlockTxKey, r: TxRecord): Result<Ledger> {
    var h := r.tx.hash;
    match ReturnCredits(Parked(l, r), key, r, |r.credits|)
    case Err(e) => Err(e)
    case Ok(l1) =>
      match ReturnDebits(l1, h, Spends(r))
      case Err(e) => Err(e)
      case Ok(l2) => Ok(l2.(txs := l2.txs[h := ReturnedRecord(r)]))
  }

  /** Returns the records of `from` in the given order, coinbases excepted. */
  function ReturnAll(l: Ledger, from: Mined, order: seq<BlockTxKey>): Result<Ledger>
    requires forall k :: k in order ==> k in from
  {
    if order == [] then Ok(l) else
    var k := order[|order|-1];
    match ReturnAll(l, from, order[..|order|-1])
    case Err(e) => Err(e)
    case Ok(l') => if k.index == 0 then Ok(l') else ReturnTx(l', k, from[k])
  }

  /** order lists the transactions of the blocks from height on, each once. */
  ghost predicate Detached(m: Mined, height: int, order: seq<BlockTxKey>) {
    NoDup(order) && forall k :: k in order <==> k in m && height <= k.height
  }

  /** Removes all blocks from height on, moving their transactions to the pool.
      All blocks are cut off before the first transaction is returned. */
  function Rollback(l: Ledger, height: int, order: seq<BlockTxKey>): Result<Ledger>
    requires Detached(l.mined, height, order)
  {
    ReturnAll(Truncate(l, height), l.mined, order)
  }

  // ------------------------------------------------ returning one record at once

  /** The outputs of r that unconfirmed transactions spend. */
  function PoolSpent(r: TxRecord): (s: set<OutPoint>)
    ensures forall op :: op in s <==> op in OwnOps(r) && r.credits[op.index].value.spentBy == Some(UNMINED)
  {
    set op | op in OwnOps(r) && r.credits[op.index].value.spentBy == Some(UNMINED)
  }

  /** The spenders recorded for ops, which are outputs of the record at key. */
  function SpendersOf(outs: map<BlockOutputKey, Hash>, key: BlockTxKey, ops: set<OutPoint>): map<OutPoint, Hash> {
    map op | op in ops && BlockOutputKey(key, op.index) in outs :: outs[BlockOutputKey(key, op.index)]
  }

  predicate AllCredits(m: Mined, ps: seq<BlockOutputKey>) {
    forall p :: p in ps ==> IsCredit(m, p)
  }

  /** The index from outpoints to the keys ps. */
  function KeysOf(m: Mined, ps: seq<BlockOutputKey>): map<OutPoint, BlockOutputKey>
    requires AllCredits(m, ps)
  {
    if ps == [] then map[] else
    var n := |ps| - 1;
    assert IsCredit(m, ps[n]);
    KeysOf(m, ps[..n])[OpOf(m, ps[n]) := ps[n]]
  }

  function SpentTo(ps: seq<BlockOutputKey>, h: Hash): map<BlockOutputKey, Hash> {
    map p | p in ps :: h
  }

  function Returned(l: Ledger, key: BlockTxKey, r: TxRecord): Ledger
    requires AllCredits(l.mined, Spends(r))
  {
    var h := r.tx.hash;
    var own := PoolSpent(r);
    l.(mined := Relink(l.mined, KeySet(Spends(r)), Some(UNMINED)),
       unspent := l.unspent - OwnOps(r),
       txs := l.txs[h := ReturnedRecord(r)],
       spentOuts := (l.spentOuts - OutKeys(key, own)) + SpentTo(Spends(r), h),
       spentKeys := (l.spentKeys - own) + KeysOf(l.mined, Spends(r)),
       spentUnconf := l.spentUnconf + SpendersOf(l.spentOuts, key, own),
       prevOuts := l.prevOuts + map op | op in Inputs(r) :: h)
  }
}
