/** The transaction store as one value: the mined records by their key, the
    per-block amounts, and the lookup maps kept beside them. */
module Ledgers {
  import opened TxTypes

  type Mined = map<BlockTxKey, TxRecord>
  type Pool = map<Hash, TxRecord>

  datatype Ledger = Ledger(
    mined: Mined,
    deltas: map<int, Amounts>,
    unspent: map<OutPoint, BlockTxKey>,
    txs: map<Hash, TxRecord>,
    spentOuts: map<BlockOutputKey, Hash>,
    spentKeys: map<OutPoint, BlockOutputKey>,
    spentUnconf: map<OutPoint, Hash>,
    prevOuts: map<OutPoint, Hash>)

  const EMPTY := Ledger(map[], map[], map[], map[], map[], map[], map[], map[])

  // ---------------------------------------------------------------- lookups

  predicate IsCredit(m: Mined, p: BlockOutputKey) {
    p.tx in m && HasCredit(m[p.tx], p.out)
  }

  function SpentBy(m: Mined, p: BlockOutputKey): Option<BlockTxKey>
    requires IsCredit(m, p)
  {
    m[p.tx].credits[p.out].value.spentBy
  }

  function OpOf(m: Mined, p: BlockOutputKey): OutPoint
    requires p.tx in m
  {
    OutPoint(m[p.tx].tx.hash, p.out)
  }

  function Spends(r: TxRecord): seq<BlockOutputKey> {
    if r.debits.Some? then r.debits.value.spends else []
  }

  function KeySet(ps: seq<BlockOutputKey>): (s: set<BlockOutputKey>)
    ensures forall p :: p in s <==> p in ps
  {
    set p | p in ps
  }

  function OutValue(r: TxRecord, i: nat): int {
    if i < |r.tx.outputs| then r.tx.outputs[i] else 0
  }

  // ------------------------------------------------- rewriting spent-by links

  function RelinkCredits(k: BlockTxKey, cs: seq<Option<Credit>>, ps: set<BlockOutputKey>, who: Option<BlockTxKey>)
    : (r: seq<Option<Credit>>)
    ensures |r| == |cs|
  {
    seq(|cs|, i requires 0 <= i < |cs| =>
      if cs[i].Some? && BlockOutputKey(k, i) in ps then Some(cs[i].value.(spentBy := who)) else cs[i])
  }

  /** Every credit named by ps now records `who` as its spender. */
  function Relink(m: Mined, ps: set<BlockOutputKey>, who: Option<BlockTxKey>): Mined
  {
    map k | k in m :: m[k].(credits := RelinkCredits(k, m[k].credits, ps, who))
  }

  /** On the outputs of m, n differs from m only in the spenders of ps. */
  ghost predicate Relinks(m: Mined, n: Mined, ps: set<BlockOutputKey>, who: Option<BlockTxKey>) {
    && (forall k :: k in m ==>
          k in n && n[k].tx == m[k].tx && n[k].index == m[k].index && n[k].debits == m[k].debits
          && |n[k].credits| == |m[k].credits|)
    && (forall p: BlockOutputKey :: p.tx in m ==> (IsCredit(n, p) <==> IsCredit(m, p)))
    && (forall p :: IsCredit(m, p) ==> IsCredit(n, p) && SpentBy(n, p) == if p in ps then who else SpentBy(m, p))
  }

  lemma RelinkRelinks(m: Mined, ps: set<BlockOutputKey>, who: Option<BlockTxKey>)
    ensures Relinks(m, Relink(m, ps, who), ps, who)
  {
    forall p | IsCredit(m, p)
      ensures IsCredit(Relink(m, ps, who), p)
      ensures SpentBy(Relink(m, ps, who), p) == if p in ps then who else SpentBy(m, p)
    {
      assert p == BlockOutputKey(p.tx, p.out);
    }
  }

  // ------------------------------------------------------ mining a known tx

  /** The mined outputs recorded for these inputs, each once, in input order. */
  function InputSpends(ins: seq<OutPoint>, keys: map<OutPoint, BlockOutputKey>): seq<BlockOutputKey>
  {
    if ins == [] then [] else
    var n := |ins| - 1;
    InputSpends(ins[..n], keys) +
      if ins[n] in keys && ins[n] !in ins[..n] then [keys[ins[n]]] else []
  }

  function InputOuts(ins: seq<OutPoint>, keys: map<OutPoint, BlockOutputKey>): set<BlockOutputKey>
  {
    set op | op in ins && op in keys :: keys[op]
  }

  function OwnOps(r: TxRecord): (s: set<OutPoint>)
    ensures forall op :: op in s <==> op.hash == r.tx.hash && HasCredit(r, op.index)
  {
    set i | 0 <= i < |r.credits| && r.credits[i].Some? :: OutPoint(r.tx.hash, i)
  }

  /** The outputs of r, placed at key, that are credits on the list ops. */
  function OutKeys(key: BlockTxKey, ops: set<OutPoint>): (s: set<BlockOutputKey>)
    ensures forall op :: op in ops ==> BlockOutputKey(key, op.index) in s
    ensures forall p :: p in s ==> p.tx == key && exists op :: op in ops && op.index == p.out
  {
    set op | op in ops :: BlockOutputKey(key, op.index)
  }

  function Inputs(r: TxRecord): (s: set<OutPoint>)
    ensures forall op :: op in s <==> op in r.tx.inputs
  {
    set op | op in r.tx.inputs
  }

  function OpSet(ins: seq<OutPoint>): (s: set<OutPoint>)
    ensures forall op :: op in s <==> op in ins
  {
    set op | op in ins
  }

  /** What moving the first n credits of r into a block adds to the block's
      spendable amount: the value of each one that nothing spends. */
  function CreditGain(r: TxRecord, su: map<OutPoint, Hash>, n: nat): int
    requires n <= |r.credits| <= |r.tx.outputs|
  {
    if n == 0 then 0 else
    CreditGain(r, su, n - 1) +
      if HasCredit(r, n - 1) && OutPoint(r.tx.hash, n - 1) !in su && r.credits[n-1].value.spentBy.None?
      then r.tx.outputs[n-1] else 0
  }

  function DebitAmount(r: TxRecord): int {
    if r.debits.Some? then r.debits.value.amount else 0
  }

  function BlockDelta(deltas: map<int, Amounts>, height: int): Amounts {
    if height in deltas then deltas[height] else Amounts(0, 0)
  }

  /** The credits of r whose output some unconfirmed transaction spends. */
  function OwnSpent(r: TxRecord, su: map<OutPoint, Hash>): (s: set<OutPoint>)
    ensures forall op :: op in s <==> op in su && op.hash == r.tx.hash && HasCredit(r, op.index)
  {
    set op | op in su && op.hash == r.tx.hash && HasCredit(r, op.index)
  }

  /** r with each credit that an unconfirmed transaction spends marked so. */
  function MarkOwnSpent(r: TxRecord, su: map<OutPoint, Hash>): (s: seq<Option<Credit>>)
    ensures |s| == |r.credits|
  {
    seq(|r.credits|, i requires 0 <= i < |r.credits| =>
      if r.credits[i].Some? && OutPoint(r.tx.hash, i) in su
      then Some(r.credits[i].value.(spentBy := Some(UNMINED))) else r.credits[i])
  }

  function MovedRecord(r: TxRecord, keys: map<OutPoint, BlockOutputKey>, su: map<OutPoint, Hash>,
      key: BlockTxKey): TxRecord
  {
    r.(index := key.index,
       debits := if r.debits.None? then None
                 else Some(r.debits.value.(spends := r.debits.value.spends + InputSpends(r.tx.inputs, keys))),
       credits := MarkOwnSpent(r, su))
  }

  function MovedUnspent(r: TxRecord, su: map<OutPoint, Hash>, key: BlockTxKey): map<OutPoint, BlockTxKey>
  {
    map op | op in OwnOps(r) && op !in su && r.credits[op.index].value.spentBy.None? :: key
  }

  function MovedOuts(r: TxRecord, su: map<OutPoint, Hash>, key: BlockTxKey): map<BlockOutputKey, Hash>
  {
    map p | p in OutKeys(key, OwnSpent(r, su)) && OutPoint(r.tx.hash, p.out) in su :: su[OutPoint(r.tx.hash, p.out)]
  }

  function MovedKeys(r: TxRecord, su: map<OutPoint, Hash>, key: BlockTxKey): map<OutPoint, BlockOutputKey>
  {
    map op | op in OwnSpent(r, su) :: BlockOutputKey(key, op.index)
  }

  function MoveMined(l: Ledger, h: Hash, key: BlockTxKey): Ledger
    requires h in l.txs && |l.txs[h].credits| <= |l.txs[h].tx.outputs|
  {
    var r := l.txs[h];
    var outs := InputOuts(r.tx.inputs, l.spentKeys);
    var d := BlockDelta(l.deltas, key.height);
    Ledger(
      Relink(l.mined, outs, Some(key))[key := MovedRecord(r, l.spentKeys, l.spentUnconf, key)],
      l.deltas[key.height :=
        d.(spendable := d.spendable + CreditGain(r, l.spentUnconf, |r.credits|) - DebitAmount(r))],
      l.unspent + MovedUnspent(r, l.spentUnconf, key),
      l.txs - {h},
      (l.spentOuts - outs) + MovedOuts(r, l.spentUnconf, key),
      (l.spentKeys - Inputs(r)) + MovedKeys(r, l.spentUnconf, key),
      l.spentUnconf - OwnSpent(r, l.spentUnconf),
      l.prevOuts - Inputs(r))
  }
}
