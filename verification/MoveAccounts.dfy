/** Mining an unconfirmed transaction keeps the amounts in order exactly when
    none of its outputs is already spent. */
module MoveAccounts {
  import opened TxTypes
  import opened Ledgers
  import opened LedgerInv
  import opened MoveProof
  import opened Sums
  import opened Balances
  import opened Accounting

  /** Credit i of r is spent by the pool, or marked spent. */
  predicate Claimed(r: TxRecord, su: map<OutPoint, Hash>, i: nat) {
    HasCredit(r, i) && (OutPoint(r.tx.hash, i) in su || r.credits[i].value.spentBy.Some?)
  }

  /** Keys of the first n credits of r at key, claimed or free. */
  function KeysUpTo(key: BlockTxKey, r: TxRecord, su: map<OutPoint, Hash>, n: nat,
      claimed: bool): (s: set<BlockOutputKey>)
    ensures forall p :: p in s <==>
              p.tx == key && p.out < n && HasCredit(r, p.out) && (Claimed(r, su, p.out) <==> claimed)
  {
    set i: nat | i < n && HasCredit(r, i) && (Claimed(r, su, i) <==> claimed) :: BlockOutputKey(key, i)
  }

  /** The gain of a move is the value of the unclaimed credits. */
  lemma {:induction false} GainIs(m: Mined, key: BlockTxKey, r: TxRecord, su: map<OutPoint, Hash>, n: nat)
    requires n <= |r.credits| <= |r.tx.outputs| && key in m && m[key].tx == r.tx
    ensures CreditGain(r, su, n) == Sum(KeysUpTo(key, r, su, n, false), ValueIn(m))
  {
    hide KeysUpTo;
    if n == 0 {
      assert KeysUpTo(key, r, su, 0, false) == {};
    } else {
      hide Sum;
      GainIs(m, key, r, su, n - 1);
      var a, p := KeysUpTo(key, r, su, n - 1, false), BlockOutputKey(key, n - 1);
      if HasCredit(r, n - 1) && !Claimed(r, su, n - 1) {
        assert KeysUpTo(key, r, su, n, false) == a + {p};
        SumAdd(a, ValueIn(m), p);
      } else {
        assert KeysUpTo(key, r, su, n, false) == a;
      }
    }
  }

  lemma MovedCoinbase(m: Mined, n: Mined, ps: set<BlockOutputKey>, key: BlockTxKey, r': TxRecord)
    requires Mines(m, n, ps, key, r') && key.index != 0
    ensures Sum(CreditsAt(n, key.height, true), ValueIn(n)) == Sum(CreditsAt(m, key.height, true), ValueIn(m))
  {
    assert CreditsAt(n, key.height, true) == CreditsAt(m, key.height, true);
    SumSame(CreditsAt(m, key.height, true), ValueIn(n), ValueIn(m));
  }

  lemma MovedDebits(m: Mined, n: Mined, ps: set<BlockOutputKey>, key: BlockTxKey, r': TxRecord)
    requires Mines(m, n, ps, key, r')
    ensures Sum(TxsAt(n, key.height), AmountIn(n)) == Sum(TxsAt(m, key.height), AmountIn(m)) + DebitAmount(r')
  {
    var h := key.height;
    assert TxsAt(n, h) == TxsAt(m, h) + {key};
    SumAdd(TxsAt(m, h), AmountIn(n), key);
    SumSame(TxsAt(m, h), AmountIn(n), AmountIn(m));
  }

  /** The credits of the block at key after r moved there. */
  lemma MovedSums(m: Mined, n: Mined, ps: set<BlockOutputKey>, key: BlockTxKey, r: TxRecord, r': TxRecord,
      su: map<OutPoint, Hash>)
    requires Mines(m, n, ps, key, r') && r'.tx == r.tx && |r.credits| <= |r.tx.outputs| && key.index != 0
    requires forall i: nat :: HasCredit(r', i) <==> HasCredit(r, i)
    ensures Sum(CreditsAt(n, key.height, false), ValueIn(n)) ==
            Sum(CreditsAt(m, key.height, false), ValueIn(m)) + CreditGain(r, su, |r.credits|)
                + Sum(KeysUpTo(key, r, su, |r.credits|, true), ValueIn(n))
  {
    var h := key.height;
    var free, taken := KeysUpTo(key, r, su, |r.credits|, false), KeysUpTo(key, r, su, |r.credits|, true);
    hide KeysUpTo, Sum, CreditGain;
    GainIs(n, key, r, su, |r.credits|);
    MovedCredits(m, n, ps, key, r, r', su);
    assert forall p :: p in CreditsAt(m, h, false) ==> ValueIn(n)(p) == ValueIn(m)(p);
    hide CreditsAt, Mines;
    SumUnion(free, taken, ValueIn(n));
    SumUnion(CreditsAt(m, h, false), free + taken, ValueIn(n));
    SumSame(CreditsAt(m, h, false), ValueIn(n), ValueIn(m));
  }

  lemma MovedCredits(m: Mined, n: Mined, ps: set<BlockOutputKey>, key: BlockTxKey, r: TxRecord, r': TxRecord,
      su: map<OutPoint, Hash>)
    requires Mines(m, n, ps, key, r') && key.index != 0 && forall i: nat :: HasCredit(r', i) <==> HasCredit(r, i)
    ensures var free, taken := KeysUpTo(key, r, su, |r.credits|, false), KeysUpTo(key, r, su, |r.credits|, true);
            && free !! taken && CreditsAt(m, key.height, false) !! free + taken
            && CreditsAt(n, key.height, false) == CreditsAt(m, key.height, false) + (free + taken)
  {
    var free, taken := KeysUpTo(key, r, su, |r.credits|, false), KeysUpTo(key, r, su, |r.credits|, true);
    forall p ensures p in CreditsAt(n, key.height, false) <==> p in CreditsAt(m, key.height, false) + (free + taken) {
      if p.tx == key { assert p in free + taken <==> HasCredit(r, p.out); }
    }
  }

  function MovedDeltas(deltas: map<int, Amounts>, r: TxRecord, su: map<OutPoint, Hash>,
      key: BlockTxKey): map<int, Amounts>
    requires |r.credits| <= |r.tx.outputs|
  {
    var d := BlockDelta(deltas, key.height);
    deltas[key.height := d.(spendable := d.spendable + CreditGain(r, su, |r.credits|) - DebitAmount(r))]
  }

  /** After a move the block amounts are in order exactly when the claimed
      credits of the moved transaction are worth nothing. */
  lemma MovedBlocksIff(m: Mined, n: Mined, deltas: map<int, Amounts>, ps: set<BlockOutputKey>, key: BlockTxKey,
      r: TxRecord, r': TxRecord, su: map<OutPoint, Hash>)
    requires MinedOk(m, deltas.Keys) && BlocksAdd(m, deltas) && Mines(m, n, ps, key, r') && r'.tx == r.tx
    requires |r.credits| <= |r.tx.outputs| && key.index != 0
    requires (forall i: nat :: HasCredit(r', i) <==> HasCredit(r, i)) && DebitAmount(r') == DebitAmount(r)
    ensures BlocksAdd(n, MovedDeltas(deltas, r, su, key)) <==>
              Sum(KeysUpTo(key, r, su, |r.credits|, true), ValueIn(n)) == 0
  {
    var d := MovedDeltas(deltas, r, su, key);
    hide KeysUpTo, Sum, CreditGain;
    MovedSums(m, n, ps, key, r, r', su);
    MovedCoinbase(m, n, ps, key, r');
    MovedDebits(m, n, ps, key, r');
    MovedBefore(m, deltas, key.height);
    forall h | h in d && h != key.height
      ensures d[h].spendable == Sum(CreditsAt(n, h, false), ValueIn(n)) - Sum(TxsAt(n, h), AmountIn(n))
      ensures d[h].reward == Sum(CreditsAt(n, h, true), ValueIn(n))
    {
      SameSums(m, n, h, false);
      SameSums(m, n, h, true);
    }
    hide CreditsAt, TxsAt, ValueIn, AmountIn, Mines, MinedOk;
    assert key.height in d;
  }

  /** A block without amounts has no credits and no debits. */
  lemma MovedBefore(m: Mined, deltas: map<int, Amounts>, h: int)
    requires MinedOk(m, deltas.Keys) && BlocksAdd(m, deltas)
    ensures BlockDelta(deltas, h).spendable == Sum(CreditsAt(m, h, false), ValueIn(m)) - Sum(TxsAt(m, h), AmountIn(m))
    ensures BlockDelta(deltas, h).reward == Sum(CreditsAt(m, h, true), ValueIn(m))
  {
    if h !in deltas { NothingAt(m, deltas.Keys, h); }
  }

  /** No credit of h is spent. */
  ghost predicate Unclaimed(l: Ledger, h: Hash) {
    h in l.txs && forall i: nat :: !Claimed(l.txs[h], l.spentUnconf, i)
  }

  lemma MovedDebitsAdd(m: Mined, n: Mined, ps: set<BlockOutputKey>, key: BlockTxKey, r': TxRecord)
    requires DebitsAdd(m) && SpendsOk(m) && Mines(m, n, ps, key, r') && KeySet(Spends(r')) == ps
    requires (forall p :: p in ps ==> p.tx in m) && DebitAmount(r') == Sum(ps, ValueIn(m))
    ensures DebitsAdd(n)
  {
    forall k | k in n ensures DebitAmount(n[k]) == Sum(KeySet(Spends(n[k])), ValueIn(n)) {
      if k == key {
        SameValues(m, n, ps);
      } else {
        forall p | p in KeySet(Spends(m[k])) ensures p.tx in m { assert Lists(m, k, p); }
        SameValues(m, n, KeySet(Spends(m[k])));
      }
    }
  }

  lemma MovedPoolAdds(m: Mined, n: Mined, txs: Pool, outs: map<BlockOutputKey, Hash>, su: map<OutPoint, Hash>,
      ps: set<BlockOutputKey>, key: BlockTxKey, h: Hash, r': TxRecord)
    requires PoolAdds(m, txs, outs, su) && Mines(m, n, ps, key, r') && (forall p :: p in outs ==> p.tx in m)
    requires forall p :: p in ps <==> p in outs && outs[p] == h
    ensures PoolAdds(n, txs - {h}, outs - ps, su)
  {
    var txs', outs' := txs - {h}, outs - ps;
    forall x | x in txs' && txs'[x].debits.Some? && (forall op :: op in txs'[x].tx.inputs ==> op !in su)
      ensures txs'[x].debits.value.amount == Sum(OutsSpentBy(outs', x), ValueIn(n))
    {
      assert OutsSpentBy(outs', x) == OutsSpentBy(outs, x);
      SameValues(m, n, OutsSpentBy(outs, x));
    }
  }

  lemma NothingOwnSpent(r: TxRecord, su: map<OutPoint, Hash>, key: BlockTxKey, outs: map<BlockOutputKey, Hash>)
    requires forall i: nat :: !Claimed(r, su, i)
    ensures OwnSpent(r, su) == {} && MovedOuts(r, su, key) == map[] && outs + MovedOuts(r, su, key) == outs
    ensures su - OwnSpent(r, su) == su
    ensures KeysUpTo(key, r, su, |r.credits|, true) == {}
  {
    forall op ensures op !in OwnSpent(r, su) {
      assert op == OutPoint(op.hash, op.index) && !Claimed(r, su, op.index);
    }
    assert OwnSpent(r, su) == {};
    assert MovedOuts(r, su, key) == map[];
  }

  /** What the pool knows about the debits of h. */
  lemma PoolDebitIs(l: Ledger, h: Hash, key: BlockTxKey)
    requires Linked(l) && CanMove(l, h, key) && PoolAdds(l.mined, l.txs, l.spentOuts, l.spentUnconf)
    ensures var r, ps := l.txs[h], InputOuts(l.txs[h].tx.inputs, l.spentKeys);
            var r' := MovedRecord(r, l.spentKeys, l.spentUnconf, key);
            && (forall p :: p in ps <==> p in l.spentOuts && l.spentOuts[p] == h)
            && (forall p :: p in l.spentOuts ==> p.tx in l.mined)
            && KeySet(Spends(r')) == ps && DebitAmount(r') == DebitAmount(r) == Sum(ps, ValueIn(l.mined))
            && r'.tx == r.tx && (forall i: nat :: HasCredit(r', i) <==> HasCredit(r, i))
  {
    hide UnspentSound, HashesOk, SpentByOk, SpendsOk, MarksOk, SpentUnconfOk, MinedOk;
    var r, ps := l.txs[h], InputOuts(l.txs[h].tx.inputs, l.spentKeys);
    OutsOwned(l.mined, l.txs, l.spentOuts, l.spentKeys, l.prevOuts, h);
    InputSpendsAre(r.tx.inputs, l.spentKeys);
    assert ps == OutsSpentBy(l.spentOuts, h);
    if r.debits.None? {
      forall p | p in l.spentOuts
        ensures l.spentOuts[p] != h
      {
        assert Spender(l.txs, l.spentOuts[p], OpOf(l.mined, p));
      }
      assert ps == {};
    }
  }

  /** Mining a transaction none of whose outputs is spent keeps all amounts. */
  lemma MoveKeepsAccounts(l: Ledger, h: Hash, key: BlockTxKey)
    requires Linked(l) && Accounted(l) && CanMove(l, h, key) && Unclaimed(l, h)
    ensures Accounted(MoveMined(l, h, key))
  {
    hide MinedOk, SpendsOk, Sum, PoolOk, UnspentSound, HashesOk, SpentByOk, MarksOk, SpentUnconfOk, PrevOutsOk;
    hide SpentOutsOk, SpentKeysOk, SpendersOk, Mines, InputOuts, MovedRecord, BlocksAdd, DebitsAdd, PoolAdds, Claimed;
    hide OwnSpent, MovedOuts, KeysUpTo, Relink, CreditGain;
    PoolSize(l, h);
    var r, ps := l.txs[h], InputOuts(l.txs[h].tx.inputs, l.spentKeys);
    var r' := MovedRecord(r, l.spentKeys, l.spentUnconf, key);
    var n := Relink(l.mined, ps, Some(key))[key := r'];
    PoolDebitIs(l, h, key);
    NothingOwnSpent(r, l.spentUnconf, key, l.spentOuts - ps);
    MoveMines(l.mined, ps, key, r');
    MovedBlocksIff(l.mined, n, l.deltas, ps, key, r, r', l.spentUnconf);
    SumEmpty(ValueIn(n));
    MovedDebitsAdd(l.mined, n, ps, key, r');
    MovedPoolAdds(l.mined, n, l.txs, l.spentOuts, l.spentUnconf, ps, key, h, r');
  }

  lemma PoolSize(l: Ledger, h: Hash)
    requires PoolOk(l.txs) && h in l.txs
    ensures |l.txs[h].credits| <= |l.txs[h].tx.outputs|
  {
  }

  // ----------------------------------------------- exactly, output by output

  /** The value of the claimed ones of the first n credits of r. */
  function ClaimedValue(r: TxRecord, su: map<OutPoint, Hash>, n: nat): int
    requires n <= |r.credits|
  {
    if n == 0 then 0 else ClaimedValue(r, su, n - 1) + if Claimed(r, su, n - 1) then OutValue(r, n - 1) else 0
  }

  lemma {:induction false} ClaimedIs(m: Mined, key: BlockTxKey, r: TxRecord, su: map<OutPoint, Hash>, n: nat)
    requires n <= |r.credits| && key in m && m[key].tx == r.tx
    ensures ClaimedValue(r, su, n) == Sum(KeysUpTo(key, r, su, n, true), ValueIn(m))
  {
    hide KeysUpTo;
    if n == 0 {
      assert KeysUpTo(key, r, su, 0, true) == {};
    } else {
      hide Sum;
      ClaimedIs(m, key, r, su, n - 1);
      var a, p := KeysUpTo(key, r, su, n - 1, true), BlockOutputKey(key, n - 1);
      if Claimed(r, su, n - 1) {
        assert KeysUpTo(key, r, su, n, true) == a + {p};
        SumAdd(a, ValueIn(m), p);
      } else {
        assert KeysUpTo(key, r, su, n, true) == a;
      }
    }
  }

  /** The outputs of h that x spends. */
  function Taken(su: map<OutPoint, Hash>, h: Hash, x: Hash): (s: set<OutPoint>)
    ensures forall op :: op in s <==> op in su && op.hash == h && su[op] == x
  {
    set op | op in su && op.hash == h && su[op] == x
  }

  function ValueOf(r: TxRecord): OutPoint -> int {
    (op: OutPoint) => OutValue(r, op.index)
  }

  /** The debit of x is what it spends of mined credits and of h. */
  ghost predicate PaysFor(l: Ledger, h: Hash, x: Hash)
    requires h in l.txs && x in l.txs && l.txs[x].debits.Some?
  {
    l.txs[x].debits.value.amount == Sum(OutsSpentBy(l.spentOuts, x), ValueIn(l.mined))
        + Sum(Taken(l.spentUnconf, h, x), ValueOf(l.txs[h]))
  }

  /** No unconfirmed input of x but outputs of h. */
  ghost predicate OnlyFrom(l: Ledger, h: Hash, x: Hash)
    requires x in l.txs
  {
    forall op :: op in l.txs[x].tx.inputs && op in l.spentUnconf ==> op.hash == h
  }

  /** The spenders of h whose other inputs are mined have h's outputs in their
      debits. */
  ghost predicate SpendersPaid(l: Ledger, h: Hash)
    requires h in l.txs
  {
    forall x :: x in l.txs && l.txs[x].debits.Some? && Taken(l.spentUnconf, h, x) != {} && OnlyFrom(l, h, x) ==>
          PaysFor(l, h, x)
  }

  lemma {:induction false} KeysWorth(n: Mined, key: BlockTxKey, r: TxRecord, ops: set<OutPoint>)
    requires key in n && n[key].tx == r.tx && forall op :: op in ops ==> op.hash == r.tx.hash
    ensures Sum(OutKeys(key, ops), ValueIn(n)) == Sum(ops, ValueOf(r))
    decreases ops
  {
    if ops == {} {
      assert OutKeys(key, ops) == {};
      SumEmpty(ValueIn(n));
      SumEmpty(ValueOf(r));
    } else {
      var op :| op in ops;
      KeysWorth(n, key, r, ops - {op});
      var p := BlockOutputKey(key, op.index);
      assert OutKeys(key, ops) == OutKeys(key, ops - {op}) + {p};
      assert p !in OutKeys(key, ops - {op});
      SumAdd(OutKeys(key, ops - {op}), ValueIn(n), p);
      SumTake(ops, ValueOf(r), op);
    }
  }

  lemma TakenKeys(l: Ledger, h: Hash, key: BlockTxKey, ps: set<BlockOutputKey>, x: Hash)
    requires Linked(l) && h in l.txs && x in l.txs && x != h && key !in l.mined
    requires forall p :: p in ps <==> p in l.spentOuts && l.spentOuts[p] == h
    ensures var outs := (l.spentOuts - ps) + MovedOuts(l.txs[h], l.spentUnconf, key);
            var mine, from := OutsSpentBy(l.spentOuts, x), OutKeys(key, Taken(l.spentUnconf, h, x));
            OutsSpentBy(outs, x) == mine + from && mine !! from && forall p :: p in mine ==> p.tx in l.mined
  {
    hide MinedOk, HashesOk, UnspentSound, SpentByOk, SpendsOk, SpentKeysOk, SpendersOk, MarksOk, PrevOutsOk;
    var r, su := l.txs[h], l.spentUnconf;
    var outs := (l.spentOuts - ps) + MovedOuts(r, su, key);
    var mine, from := OutsSpentBy(l.spentOuts, x), OutKeys(key, Taken(su, h, x));
    forall p ensures p in OutsSpentBy(outs, x) <==> p in mine + from {
      if p.tx == key {
        var op := OutPoint(h, p.out);
        assert p == BlockOutputKey(key, op.index);
        assert p in MovedOuts(r, su, key) <==> op in su;
        assert p in from <==> op in Taken(su, h, x);
      }
    }
  }

  /** After the move x has unconfirmed inputs just when it spends something
      unconfirmed besides h. */
  lemma TakenInputs(l: Ledger, h: Hash, x: Hash)
    requires PoolOk(l.txs) && SpentUnconfOk(l.txs, l.spentUnconf) && PrevOutsOk(l.txs, l.prevOuts) && h in l.txs
    requires x in l.txs
    ensures (forall op :: op in l.txs[x].tx.inputs ==> op !in l.spentUnconf - OwnSpent(l.txs[h], l.spentUnconf)) <==>
              OnlyFrom(l, h, x)
    ensures Taken(l.spentUnconf, h, x) == {} && OnlyFrom(l, h, x) ==> forall op :: op in l.txs[x].tx.inputs ==>
              op !in l.spentUnconf
  {
    forall op | op in l.txs[x].tx.inputs && op in l.spentUnconf ensures l.spentUnconf[op] == x {
      assert Spender(l.txs, l.spentUnconf[op], op) && l.prevOuts[op] == x;
    }
  }

  /** The debit of x is the value of the mined credits it spends, if it spends
      nothing else. */
  ghost predicate AddsAt(m: Mined, r: TxRecord, outs: map<BlockOutputKey, Hash>, su: map<OutPoint, Hash>, x: Hash) {
    r.debits.Some? && (forall op :: op in r.tx.inputs ==> op !in su) ==>
          r.debits.value.amount == Sum(OutsSpentBy(outs, x), ValueIn(m))
  }

  lemma MovedValue(m: Mined, n: Mined, ps: set<BlockOutputKey>, key: BlockTxKey, r: TxRecord, r': TxRecord,
      mine: set<BlockOutputKey>, ops: set<OutPoint>)
    requires Mines(m, n, ps, key, r') && r'.tx == r.tx && (forall p :: p in mine ==> p.tx in m) && forall op ::
               op in ops ==> op.hash == r.tx.hash
    requires mine !! OutKeys(key, ops)
    ensures Sum(mine + OutKeys(key, ops), ValueIn(n)) == Sum(mine, ValueIn(m)) + Sum(ops, ValueOf(r))
  {
    hide Sum;
    KeysWorth(n, key, r, ops);
    SumUnion(mine, OutKeys(key, ops), ValueIn(n));
    SumSame(mine, ValueIn(n), ValueIn(m));
  }

  /** What the move does to the debit of one other unconfirmed transaction. */
  lemma MovedPoolAddsAt(l: Ledger, h: Hash, key: BlockTxKey, n: Mined, ps: set<BlockOutputKey>, r': TxRecord, x: Hash)
    requires Linked(l) && h in l.txs && x in l.txs && x != h && l.txs[x].debits.Some?
    requires AddsAt(l.mined, l.txs[x], l.spentOuts, l.spentUnconf, x)
    requires Mines(l.mined, n, ps, key, r') && r'.tx == l.txs[h].tx && forall p :: p in ps <==>
               p in l.spentOuts && l.spentOuts[p] == h
    ensures AddsAt(n, l.txs[x], (l.spentOuts - ps) + MovedOuts(l.txs[h], l.spentUnconf, key),
        l.spentUnconf - OwnSpent(l.txs[h], l.spentUnconf), x)
            <==> (Taken(l.spentUnconf, h, x) != {} && OnlyFrom(l, h, x) ==> PaysFor(l, h, x))
  {
    hide MinedOk, HashesOk, UnspentSound, SpentByOk, SpendsOk, SpentOutsOk, SpentKeysOk, SpendersOk, MarksOk;
    hide SpentUnconfOk, PrevOutsOk;
    hide OnlyFrom, OwnSpent, MovedOuts, OutsSpentBy, Sum, ValueIn, ValueOf, OutKeys;
    assert key !in l.mined && l.txs[h].tx.hash == h;
    TakenKeys(l, h, key, ps, x);
    TakenInputs(l, h, x);
    hide Mines;
    var mine, ops := OutsSpentBy(l.spentOuts, x), Taken(l.spentUnconf, h, x);
    MovedValue(l.mined, n, ps, key, l.txs[h], r', mine, ops);
    SumEmpty(ValueOf(l.txs[h]));
  }

  lemma AddsAtAll(m: Mined, txs: Pool, outs: map<BlockOutputKey, Hash>, su: map<OutPoint, Hash>)
    ensures PoolAdds(m, txs, outs, su) <==> forall x :: x in txs ==> AddsAt(m, txs[x], outs, su, x)
  {
    hide Sum, OutsSpentBy, ValueIn;
    if forall x :: x in txs ==> AddsAt(m, txs[x], outs, su, x) {
      forall x | x in txs && txs[x].debits.Some? && (forall op :: op in txs[x].tx.inputs ==> op !in su)
        ensures txs[x].debits.value.amount == Sum(OutsSpentBy(outs, x), ValueIn(m))
      {
        assert AddsAt(m, txs[x], outs, su, x);
      }
    }
  }

  lemma MovedPoolAddsIff(l: Ledger, h: Hash, key: BlockTxKey, n: Mined, ps: set<BlockOutputKey>, r': TxRecord)
    requires Linked(l) && PoolAdds(l.mined, l.txs, l.spentOuts, l.spentUnconf) && h in l.txs
    requires Mines(l.mined, n, ps, key, r') && r'.tx == l.txs[h].tx && forall p :: p in ps <==>
               p in l.spentOuts && l.spentOuts[p] == h
    ensures PoolAdds(n, l.txs - {h}, (l.spentOuts - ps) + MovedOuts(l.txs[h], l.spentUnconf, key),
        l.spentUnconf - OwnSpent(l.txs[h], l.spentUnconf))
            <==> SpendersPaid(l, h)
  {
    hide Linked, PoolAdds, AddsAt, OnlyFrom, OwnSpent, MovedOuts, Taken, Mines, PaysFor;
    var outs, su := (l.spentOuts - ps) + MovedOuts(l.txs[h], l.spentUnconf, key),
        l.spentUnconf - OwnSpent(l.txs[h], l.spentUnconf);
    SpendsLater(l, h);
    AddsAtAll(l.mined, l.txs, l.spentOuts, l.spentUnconf);
    AddsAtAll(n, l.txs - {h}, outs, su);
    forall x | x in l.txs && x != h
      ensures AddsAt(n, l.txs[x], outs, su, x) <==>
                (l.txs[x].debits.Some? && Taken(l.spentUnconf, h, x) != {} && OnlyFrom(l, h, x) ==> PaysFor(l, h, x))
    {
      if l.txs[x].debits.Some? {
        MovedPoolAddsAt(l, h, key, n, ps, r', x);
      } else {
        NoDebitsAdd(n, l.txs[x], outs, su, x);
      }
    }
    if SpendersPaid(l, h) {
      forall x | x in l.txs - {h} ensures AddsAt(n, (l.txs - {h})[x], outs, su, x) {
        assert l.txs[x].debits.Some? && Taken(l.spentUnconf, h, x) != {} && OnlyFrom(l, h, x) ==> PaysFor(l, h, x);
      }
    }
    if forall x :: x in l.txs - {h} ==> AddsAt(n, (l.txs - {h})[x], outs, su, x) {
      forall x | x in l.txs && l.txs[x].debits.Some? && Taken(l.spentUnconf, h, x) != {} && OnlyFrom(l, h, x)
        ensures PaysFor(l, h, x)
      {
        assert x in l.txs - {h} && AddsAt(n, (l.txs - {h})[x], outs, su, x);
      }
    }
  }

  lemma NoDebitsAdd(m: Mined, r: TxRecord, outs: map<BlockOutputKey, Hash>, su: map<OutPoint, Hash>, x: Hash)
    requires r.debits.None?
    ensures AddsAt(m, r, outs, su, x)
  {
  }

  lemma SpendsLater(l: Ledger, h: Hash)
    requires Linked(l)
    ensures Taken(l.spentUnconf, h, h) == {}
  {
    forall op | op in l.spentUnconf
      ensures op.hash < l.spentUnconf[op]
    {
      assert Spender(l.txs, l.spentUnconf[op], op);
    }
  }

  /** Mining h keeps all amounts in order exactly when its credits that are
      already spent are worth nothing in total, and their spenders count them. */
  lemma MoveAccountsIff(l: Ledger, h: Hash, key: BlockTxKey)
    requires Linked(l) && Accounted(l) && CanMove(l, h, key)
    ensures |l.txs[h].credits| <= |l.txs[h].tx.outputs|
    ensures Accounted(MoveMined(l, h, key)) <==>
              ClaimedValue(l.txs[h], l.spentUnconf, |l.txs[h].credits|) == 0 && SpendersPaid(l, h)
  {
    hide MinedOk, PoolOk, UnspentSound, HashesOk, SpentByOk, MarksOk, SpentUnconfOk, PrevOutsOk, SpentOutsOk;
    hide SpentKeysOk, SpendersOk, SpendsOk;
    hide BlocksAdd, DebitsAdd, PoolAdds, KeysUpTo, ClaimedValue, SpendersPaid, Sum, ValueIn, Mines, InputOuts;
    hide MovedRecord, Relink, CreditGain, MovedOuts, OwnSpent;
    PoolSize(l, h);
    var r, su, ps := l.txs[h], l.spentUnconf, InputOuts(l.txs[h].tx.inputs, l.spentKeys);
    var r' := MovedRecord(r, l.spentKeys, su, key);
    var n := Relink(l.mined, ps, Some(key))[key := r'];
    PoolDebitIs(l, h, key);
    MoveMines(l.mined, ps, key, r');
    MovedBlocksIff(l.mined, n, l.deltas, ps, key, r, r', su);
    ClaimedIs(n, key, r, su, |r.credits|);
    MovedDebitsAdd(l.mined, n, ps, key, r');
    MovedPoolAddsIff(l, h, key, n, ps, r');
  }
}
