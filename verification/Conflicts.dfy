/** Removing an unconfirmed transaction that a mined one double spends,
    together with everything that spends it. */
module Conflicts {
  import opened TxTypes
  import opened Ledgers
  import opened LedgerInv

  type Spent = map<OutPoint, Hash>

  /** The spenders recorded for unconfirmed outputs are in the pool. */
  ghost predicate SpendersLive(txs: Pool, su: Spent) {
    forall op :: op in su ==> su[op] in txs && txs[su[op]].tx.hash == su[op] && op in txs[su[op]].tx.inputs
  }


  /** Takes h out of the pool: the mined credits it spends are unspent again. */
  function RemoveOne(l: Ledger, h: Hash): Ledger
    requires h in l.txs
  {
    var ins := Inputs(l.txs[h]);
    var ps := InputOuts(l.txs[h].tx.inputs, l.spentKeys);
    l.(mined := Relink(l.mined, ps, None),
       txs := l.txs - {h},
       spentOuts := l.spentOuts - ps,
       spentKeys := l.spentKeys - ins,
       spentUnconf := l.spentUnconf - (ins - l.spentKeys.Keys),
       prevOuts := l.prevOuts - ins)
  }

  ghost predicate Below(txs: Pool, bound: nat) {
    forall h :: h in txs ==> h < bound
  }

  /** Records below h are still there. */
  ghost predicate Keeps(l: Ledger, l': Ledger, h: nat) {
    && (forall x :: x in l'.txs ==> x in l.txs && l'.txs[x] == l.txs[x])
    && (forall x :: x in l.txs && x < h ==> x in l'.txs)
    && SpendersLive(l'.txs, l'.spentUnconf)
  }

  lemma RemoveOneKeeps(l: Ledger, h: Hash)
    requires h in l.txs && SpendersLive(l.txs, l.spentUnconf)
    requires forall op :: op in l.spentKeys ==> op !in l.spentUnconf
    ensures Keeps(l, RemoveOne(l, h), h)
  {
  }

  /** Removes h after everything that spends its marked credits. */
  function RemoveConflict(l: Ledger, h: Hash, bound: nat): (res: Result<Ledger>)
    requires h in l.txs && l.txs[h].tx.hash == h && Below(l.txs, bound) && Sound(l)
    ensures res.Ok? ==> Keeps(l, res.value, h) && Sound(res.value)
    decreases bound - h, |l.txs[h].credits| + 1
  {
    match RemoveSpenders(l, l.txs[h], |l.txs[h].credits|, bound)
    case Err(e) => Err(e)
    case Ok(l') => RemoveOneKeeps(l', h); Ok(RemoveOne(l', h))
  }

  ghost predicate Sound(l: Ledger) {
    SpendersLive(l.txs, l.spentUnconf) && forall op :: op in l.spentKeys ==> op !in l.spentUnconf
  }

  function RemoveSpenders(l: Ledger, r: TxRecord, n: nat, bound: nat): (res: Result<Ledger>)
    requires r.tx.hash < bound && n <= |r.credits| && Below(l.txs, bound) && Sound(l)
    ensures res.Ok? ==> Keeps(l, res.value, r.tx.hash + 1) && Sound(res.value)
    decreases bound - r.tx.hash, n
  {
    if n == 0 then Ok(l) else
    match RemoveSpenders(l, r, n - 1, bound)
    case Err(e) => Err(e)
    case Ok(l') =>
      var op := OutPoint(r.tx.hash, n - 1);
      if r.credits[n-1].None? || r.credits[n-1].value.spentBy.None? then Ok(l')
      else if op !in l'.spentUnconf then Err(InconsistentStore)
      else RemoveConflict(l', l'.spentUnconf[op], bound)
  }
}
