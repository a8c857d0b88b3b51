/** The wallet balance: from per-block amounts, and by scanning credits. */
module Balances {
  import opened TxTypes
  import opened Ledgers
  import opened LedgerInv
  import opened Sums

  const COINBASE_MATURITY := 100

  /** Confirmations of a transaction at txHeight (-1 when unconfirmed). */
  function Confirms(txHeight: int, height: int): int {
    if txHeight == -1 || height < txHeight then 0 else height - txHeight + 1
  }

  predicate Confirmed(minConf: int, txHeight: int, height: int) {
    minConf <= Confirms(txHeight, height)
  }

  // ------------------------------------------------------------------- sets

  /** All mined credits. */
  function Credits(m: Mined): (s: set<BlockOutputKey>)
    ensures forall p :: p in s <==> IsCredit(m, p)
  {
    set k, i | k in m && 0 <= i < |m[k].credits| && m[k].credits[i].Some? :: BlockOutputKey(k, i)
  }

  function ValueIn(m: Mined): BlockOutputKey -> int {
    (p: BlockOutputKey) => if p.tx in m then OutValue(m[p.tx], p.out) else 0
  }

  function AmountIn(m: Mined): BlockTxKey -> int {
    (k: BlockTxKey) => if k in m then DebitAmount(m[k]) else 0
  }

  function CreditsAt(m: Mined, h: int, coinbase: bool): set<BlockOutputKey> {
    set p | p in Credits(m) && p.tx.height == h && (p.tx.index == 0 <==> coinbase)
  }

  function TxsAt(m: Mined, h: int): set<BlockTxKey> {
    set k | k in m && k.height == h
  }

  // --------------------------------------------------- what the amounts mean

  /** Each block's amounts are its credits minus its debits, coinbase credits
      apart. */
  ghost predicate BlocksAdd(m: Mined, deltas: map<int, Amounts>) {
    forall h :: h in deltas ==>
      && deltas[h].spendable == Sum(CreditsAt(m, h, false), ValueIn(m)) - Sum(TxsAt(m, h), AmountIn(m))
      && deltas[h].reward == Sum(CreditsAt(m, h, true), ValueIn(m))
  }

  /** Each mined debit is the value of the credits it spends. */
  ghost predicate DebitsAdd(m: Mined) {
    forall k :: k in m ==> DebitAmount(m[k]) == Sum(KeySet(Spends(m[k])), ValueIn(m))
  }

  function OutsSpentBy(outs: map<BlockOutputKey, Hash>, h: Hash): set<BlockOutputKey> {
    set p | p in outs && outs[p] == h
  }

  /** An unconfirmed debit whose inputs are all mined is the value of the mined
      credits it spends. */
  ghost predicate PoolAdds(m: Mined, txs: Pool, outs: map<BlockOutputKey, Hash>, su: map<OutPoint, Hash>) {
    forall h :: h in txs && txs[h].debits.Some? && (forall op :: op in txs[h].tx.inputs ==> op !in su) ==>
      txs[h].debits.value.amount == Sum(OutsSpentBy(outs, h), ValueIn(m))
  }

  ghost predicate Accounted(l: Ledger) {
    BlocksAdd(l.mined, l.deltas) && DebitsAdd(l.mined) && PoolAdds(l.mined, l.txs, l.spentOuts, l.spentUnconf)
  }

  // ------------------------------------------------------------ two balances

  function SpendableIn(deltas: map<int, Amounts>): int -> int {
    (h: int) => if h in deltas then deltas[h].spendable else 0
  }

  function RewardIn(deltas: map<int, Amounts>): int -> int {
    (h: int) => if h in deltas then deltas[h].reward else 0
  }

  function ConfirmedBlocks(deltas: map<int, Amounts>, minConf: int, height: int): set<int> {
    set h | h in deltas && Confirmed(minConf, h, height)
  }

  function MatureBlocks(deltas: map<int, Amounts>, minConf: int, height: int): set<int> {
    set h | h in deltas && Confirmed(minConf, h, height) && COINBASE_MATURITY <= Confirms(h, height)
  }

  /** Mined transactions that are not confirmed enough. */
  function YoungTxs(m: Mined, minConf: int, height: int): set<BlockTxKey> {
    set k | k in m && !Confirmed(minConf, k.height, height)
  }

  function ConfirmedOf(ps: set<BlockOutputKey>, minConf: int, height: int): set<BlockOutputKey> {
    set p | p in ps && Confirmed(minConf, p.tx.height, height)
  }

  ghost function SpentConfirmedIn(m: Mined, minConf: int, height: int): BlockTxKey -> int {
    (k: BlockTxKey) => if k in m then Sum(ConfirmedOf(KeySet(Spends(m[k])), minConf, height), ValueIn(m)) else 0
  }

  /** The value of the pool's credits that are not marked spent, counted only
      when no confirmation is asked for.  The pool does not mark what it spends
      of its own outputs. */
  ghost function PoolCounted(txs: Pool, minConf: int): int {
    if minConf == 0 then Sum(txs.Keys, UnmarkedIn(txs)) else 0
  }

  function UnmarkedIn(txs: Pool): Hash -> int {
    (h: Hash) => if h in txs then UnmarkedValue(txs[h], |txs[h].credits|) else 0
  }

  /** The value of the first n outputs of r that are unmarked credits. */
  function UnmarkedValue(r: TxRecord, n: nat): int
    requires n <= |r.credits|
  {
    if n == 0 then 0 else UnmarkedValue(r, n - 1) + if Unmarked(r, n - 1) then OutValue(r, n - 1) else 0
  }

  predicate Unmarked(r: TxRecord, i: nat) {
    HasCredit(r, i) && r.credits[i].value.spentBy.None?
  }

  /** The value of the pool's credits that nothing spends: neither are they
      marked spent, nor does the pool record a spender for them. */
  ghost function PoolBalance(txs: Pool, su: map<OutPoint, Hash>, minConf: int): int {
    if minConf == 0 then Sum(txs.Keys, UnspentIn(txs, su)) else 0
  }

  function UnspentIn(txs: Pool, su: map<OutPoint, Hash>): Hash -> int {
    (h: Hash) => if h in txs then UnspentValue(txs[h], su, |txs[h].credits|) else 0
  }

  /** The value of the first n outputs of r that are unspent credits. */
  function UnspentValue(r: TxRecord, su: map<OutPoint, Hash>, n: nat): int
    requires n <= |r.credits|
  {
    if n == 0 then 0 else
    UnspentValue(r, su, n - 1) + if Unmarked(r, n - 1) && OutPoint(r.tx.hash, n - 1) !in su then OutValue(r, n - 1)
      else 0
  }

  /** The pool's credits that are spent without being marked. */
  function Overlooked(txs: Pool, su: map<OutPoint, Hash>): (s: set<OutPoint>)
    ensures forall op :: op in s <==> op in su && op.hash in txs && Unmarked(txs[op.hash], op.index)
  {
    set op | op in su && op.hash in txs && Unmarked(txs[op.hash], op.index)
  }

  function OutputValueIn(txs: Pool): OutPoint -> int {
    (op: OutPoint) => if op.hash in txs then OutValue(txs[op.hash], op.index) else 0
  }

  /** What a balance at this depth counts of spent credits. */
  ghost function OverlookedValue(l: Ledger, minConf: int): int {
    if minConf == 0 then Sum(Overlooked(l.txs, l.spentUnconf), OutputValueIn(l.txs)) else 0
  }

  /** The balance from block amounts: confirmed blocks' amounts, less what
      younger blocks and the pool spend from them. */
  ghost function FastBalance(l: Ledger, minConf: int, height: int): int {
    Sum(ConfirmedBlocks(l.deltas, minConf, height), SpendableIn(l.deltas))
    + Sum(MatureBlocks(l.deltas, minConf, height), RewardIn(l.deltas))
    - Sum(YoungTxs(l.mined, minConf, height), SpentConfirmedIn(l.mined, minConf, height))
    - Sum(ConfirmedOf(l.spentOuts.Keys, minConf, height), ValueIn(l.mined))
    + PoolCounted(l.txs, minConf)
  }

  predicate Mature(p: BlockOutputKey, height: int) {
    p.tx.index != 0 || COINBASE_MATURITY <= Confirms(p.tx.height, height)
  }

  /** The credits that make up the balance. */
  ghost function Countable(m: Mined, minConf: int, height: int): set<BlockOutputKey> {
    set p | p in Credits(m) && SpentBy(m, p).None? && Confirmed(minConf, p.tx.height, height) && Mature(p, height)
  }

  /** The balance by scanning every credit that nothing spends. */
  ghost function ScanBalance(l: Ledger, minConf: int, height: int): int {
    Sum(Countable(l.mined, minConf, height), ValueIn(l.mined)) + PoolBalance(l.txs, l.spentUnconf, minConf)
  }

  // -------------------------------------------------------- they are the same

  /** Every spent coinbase credit is mature. */
  ghost predicate SpentMature(m: Mined, height: int) {
    forall p :: IsCredit(m, p) && SpentBy(m, p).Some? ==> Mature(p, height)
  }

  lemma BlockCredits(m: Mined, deltas: map<int, Amounts>, hs: set<int>, coinbase: bool, all: set<BlockOutputKey>,
      g: int -> int)
    requires hs <= deltas.Keys
    requires forall h :: h in hs ==> g(h) == Sum(CreditsAt(m, h, coinbase), ValueIn(m))
    requires forall p :: p in all <==> p in Credits(m) && p.tx.height in hs && (p.tx.index == 0 <==> coinbase)
    ensures Sum(hs, g) == Sum(all, ValueIn(m))
  {
    var part := h => CreditsAt(m, h, coinbase);
    forall p | p in all ensures exists h :: h in hs && p in part(h) {
      assert p in part(p.tx.height);
    }
    SumParts(hs, part, g, ValueIn(m), all);
  }

  lemma BlockDebits(m: Mined, hs: set<int>, all: set<BlockTxKey>, g: int -> int)
    requires forall h :: h in hs ==> g(h) == Sum(TxsAt(m, h), AmountIn(m))
    requires forall k :: k in all <==> k in m && k.height in hs
    ensures Sum(hs, g) == Sum(all, AmountIn(m))
  {
    var part := h => TxsAt(m, h);
    forall k | k in all ensures exists h :: h in hs && k in part(h) {
      assert k in part(k.height);
    }
    SumParts(hs, part, g, AmountIn(m), all);
  }

  lemma {:induction false} SumDifference<T(!new)>(s: set<T>, f: T -> int, a: T -> int, b: T -> int)
    requires forall x :: x in s ==> f(x) == a(x) - b(x)
    ensures Sum(s, f) == Sum(s, a) - Sum(s, b)
    decreases s
  {
    if s != {} {
      var x :| x in s;
      SumTake(s, f, x);
      SumTake(s, a, x);
      SumTake(s, b, x);
      SumDifference(s - {x}, f, a, b);
    }
  }
}
