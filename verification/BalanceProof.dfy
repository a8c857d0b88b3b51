/** The balance from block amounts equals the balance by scanning credits. */
module BalanceProof {
  import opened TxTypes
  import opened Ledgers
  import opened LedgerInv
  import opened Sums
  import opened Balances

  /** Credits that a mined transaction spends, and how confirmed both are. */
  ghost function SpentByMined(m: Mined, settled: bool, minConf: int, height: int): set<BlockOutputKey> {
    set p | p in Credits(m) && SpentBy(m, p).Some? && SpentBy(m, p).value != UNMINED
            && Confirmed(minConf, p.tx.height, height)
            && (Confirmed(minConf, SpentBy(m, p).value.height, height) <==> settled)
  }

  ghost function SpentByPool(m: Mined, minConf: int, height: int): set<BlockOutputKey> {
    set p | p in Credits(m) && SpentBy(m, p) == Some(UNMINED) && Confirmed(minConf, p.tx.height, height)
  }

  lemma SpendsListed(m: Mined, k: BlockTxKey, p: BlockOutputKey)
    requires SpendsOk(m) && k in m && p in KeySet(Spends(m[k]))
    ensures Lists(m, k, p) && SpendAt(m, k, p)
  {
  }

  /** A confirmed spender spends only confirmed credits. */
  lemma OlderConfirmed(minConf: int, a: int, b: int, height: int)
    requires 0 <= a <= b <= height && Confirmed(minConf, b, height)
    ensures Confirmed(minConf, a, height)
  {
  }

  lemma OldSpends(m: Mined, heights: set<int>, outs: map<BlockOutputKey, Hash>, minConf: int, height: int,
      ks: set<BlockTxKey>)
    requires MinedOk(m, heights) && SpentByOk(m, outs) && SpendsOk(m) && DebitsAdd(m)
    requires forall h :: h in heights ==> h <= height
    requires forall k :: k in ks <==> k in m && Confirmed(minConf, k.height, height)
    ensures Sum(ks, AmountIn(m)) == Sum(SpentByMined(m, true, minConf, height), ValueIn(m))
  {
    var part := (k: BlockTxKey) => if k in m then KeySet(Spends(m[k])) else {};
    var all := SpentByMined(m, true, minConf, height);
    forall j, k | j in ks && k in ks && j != k ensures part(j) !! part(k) {
      forall p | p in part(j) ensures p !in part(k) {
        SpendsListed(m, j, p);
        if p in part(k) { SpendsListed(m, k, p); assert false; }
      }
    }
    forall k | k in ks ensures part(k) <= all && AmountIn(m)(k) == Sum(part(k), ValueIn(m)) {
      forall p | p in part(k) ensures p in all {
        SpendsListed(m, k, p);
        OlderConfirmed(minConf, p.tx.height, k.height, height);
      }
    }
    forall p | p in all ensures exists k :: k in ks && p in part(k) {
      var k := SpentBy(m, p).value;
      assert Lists(m, k, p);
      assert k in ks && p in part(k);
    }
    SumParts(ks, part, AmountIn(m), ValueIn(m), all);
  }

  lemma YoungSpends(m: Mined, outs: map<BlockOutputKey, Hash>, minConf: int, height: int)
    requires SpentByOk(m, outs) && SpendsOk(m) && UNMINED !in m
    ensures Sum(YoungTxs(m, minConf, height), SpentConfirmedIn(m, minConf, height))
         == Sum(SpentByMined(m, false, minConf, height), ValueIn(m))
  {
    var ks := YoungTxs(m, minConf, height);
    var part := (k: BlockTxKey) => if k in m then ConfirmedOf(KeySet(Spends(m[k])), minConf, height) else {};
    var all := SpentByMined(m, false, minConf, height);
    forall j, k | j in ks && k in ks && j != k ensures part(j) !! part(k) {
      forall p | p in part(j) ensures p !in part(k) {
        SpendsListed(m, j, p);
        if p in part(k) { SpendsListed(m, k, p); assert false; }
      }
    }
    forall k | k in ks ensures part(k) <= all {
      forall p | p in part(k) ensures p in all { SpendsListed(m, k, p); }
    }
    forall p | p in all ensures exists k :: k in ks && p in part(k) {
      var k := SpentBy(m, p).value;
      assert Lists(m, k, p);
      assert k in ks && p in part(k);
    }
    SumParts(ks, part, SpentConfirmedIn(m, minConf, height), ValueIn(m), all);
  }

  /** The credits of confirmed blocks; coinbase credits only when mature. */
  ghost function Earned(m: Mined, coinbase: bool, minConf: int, height: int): set<BlockOutputKey> {
    set p | p in Credits(m) && Confirmed(minConf, p.tx.height, height) && Mature(p, height) && (p.tx.index == 0 <==>
          coinbase)
  }

  lemma RewardsEarned(m: Mined, deltas: map<int, Amounts>, minConf: int, height: int)
    requires MinedOk(m, deltas.Keys) && BlocksAdd(m, deltas)
    ensures Sum(MatureBlocks(deltas, minConf, height), RewardIn(deltas))
              == Sum(Earned(m, true, minConf, height), ValueIn(m))
  {
    BlockCredits(m, deltas, MatureBlocks(deltas, minConf, height), true, Earned(m, true, minConf, height),
      RewardIn(deltas));
  }

  lemma SpendableEarned(m: Mined, deltas: map<int, Amounts>, minConf: int, height: int, ks: set<BlockTxKey>)
    requires MinedOk(m, deltas.Keys) && BlocksAdd(m, deltas)
    requires forall k :: k in ks <==> k in m && Confirmed(minConf, k.height, height)
    ensures Sum(ConfirmedBlocks(deltas, minConf, height), SpendableIn(deltas))
         == Sum(Earned(m, false, minConf, height), ValueIn(m)) - Sum(ks, AmountIn(m))
  {
    var hs := ConfirmedBlocks(deltas, minConf, height);
    var a := (h: int) => Sum(CreditsAt(m, h, false), ValueIn(m));
    var b := (h: int) => Sum(TxsAt(m, h), AmountIn(m));
    SumDifference(hs, SpendableIn(deltas), a, b);
    BlockCredits(m, deltas, hs, false, Earned(m, false, minConf, height), a);
    BlockDebits(m, hs, ks, b);
  }

  /** Spent coinbase credits of confirmed blocks that are not mature. */
  ghost function SpentEarly(m: Mined, minConf: int, height: int): set<BlockOutputKey> {
    set p | p in Credits(m) && SpentBy(m, p).Some? && Confirmed(minConf, p.tx.height, height) && !Mature(p, height)
  }

  lemma EarnedAndSpent(m: Mined, minConf: int, height: int)
    ensures var e0, e1 := Earned(m, false, minConf, height), Earned(m, true, minConf, height);
            var s0, s1 := SpentByMined(m, true, minConf, height), SpentByMined(m, false, minConf, height);
            var s2 := SpentByPool(m, minConf, height);
            var early, s := SpentEarly(m, minConf, height), s0 + s1 + s2;
            && e0 !! e1 && s0 !! s1 && s0 + s1 !! s2 && early <= s && s - early <= e0 + e1
            && e0 + e1 - (s - early) == Countable(m, minConf, height)
  {
    var e0, e1 := Earned(m, false, minConf, height), Earned(m, true, minConf, height);
    var s0, s1 := SpentByMined(m, true, minConf, height), SpentByMined(m, false, minConf, height);
    var s2 := SpentByPool(m, minConf, height);
    forall p
      ensures p in s0 + s1 + s2 <==> p in Credits(m) && SpentBy(m, p).Some? && Confirmed(minConf, p.tx.height, height)
    {
    }
    forall p
      ensures p in e0 + e1 <==> p in Credits(m) && Confirmed(minConf, p.tx.height, height) && Mature(p, height)
    {
    }
    hide Mature, Confirmed, Earned;
  }

  /** What is earned and not spent is what counts. */
  lemma EarnedMinusSpent(m: Mined, minConf: int, height: int)
    ensures Sum(Earned(m, false, minConf, height), ValueIn(m)) + Sum(Earned(m, true, minConf, height), ValueIn(m))
          - Sum(SpentByMined(m, true, minConf, height), ValueIn(m)) - Sum(SpentByMined(m, false, minConf, height),
              ValueIn(m))
          - Sum(SpentByPool(m, minConf, height), ValueIn(m))
         == Sum(Countable(m, minConf, height), ValueIn(m)) - Sum(SpentEarly(m, minConf, height), ValueIn(m))
  {
    EarnedAndSpent(m, minConf, height);
    hide Earned, SpentByMined, SpentByPool, Countable, SpentEarly, Sum;
    var v := ValueIn(m);
    var e0, e1 := Earned(m, false, minConf, height), Earned(m, true, minConf, height);
    var s0, s1 := SpentByMined(m, true, minConf, height), SpentByMined(m, false, minConf, height);
    var s2 := SpentByPool(m, minConf, height);
    SumUnion(e0, e1, v);
    SumUnion(s0, s1, v);
    SumUnion(s0 + s1, s2, v);
    var early, s := SpentEarly(m, minConf, height), s0 + s1 + s2;
    SumMinus(s, early, v);
    SumMinus(e0 + e1, s - early, v);
  }

  lemma PoolSpendsAre(m: Mined, outs: map<BlockOutputKey, Hash>, keys: map<OutPoint, BlockOutputKey>, minConf: int,
      height: int)
    requires SpentByOk(m, outs) && SpentOutsOk(m, outs, keys)
    ensures ConfirmedOf(outs.Keys, minConf, height) == SpentByPool(m, minConf, height)
  {
  }

  // ------------------------------------------------ what the pool overlooks

  /** The overlooked credits of one record, up to output n. */
  function OverlookedUpTo(txs: Pool, su: map<OutPoint, Hash>, h: Hash, n: nat): (s: set<OutPoint>)
    ensures forall op :: op in s <==> op in Overlooked(txs, su) && op.hash == h && op.index < n
  {
    set op | op in Overlooked(txs, su) && op.hash == h && op.index < n
  }

  lemma {:induction false} RecordDifference(txs: Pool, su: map<OutPoint, Hash>, h: Hash, n: nat)
    requires h in txs && txs[h].tx.hash == h && n <= |txs[h].credits|
    ensures UnmarkedValue(txs[h], n)
              == UnspentValue(txs[h], su, n) + Sum(OverlookedUpTo(txs, su, h, n), OutputValueIn(txs))
  {
    hide Overlooked;
    if n == 0 {
      assert OverlookedUpTo(txs, su, h, 0) == {};
    } else {
      hide Sum;
      RecordDifference(txs, su, h, n - 1);
      var before, op := OverlookedUpTo(txs, su, h, n - 1), OutPoint(h, n - 1);
      if op in Overlooked(txs, su) {
        assert OverlookedUpTo(txs, su, h, n) == before + {op};
        SumAdd(before, OutputValueIn(txs), op);
      } else {
        assert OverlookedUpTo(txs, su, h, n) == before;
      }
    }
  }

  ghost function OverlookedIn(txs: Pool, su: map<OutPoint, Hash>): Hash -> int {
    (h: Hash) => if h in txs then Sum(OverlookedUpTo(txs, su, h, |txs[h].credits|), OutputValueIn(txs)) else 0
  }

  /** What the pool counts is what it has unspent and what it overlooks. */
  lemma PoolDifference(txs: Pool, su: map<OutPoint, Hash>)
    requires PoolOk(txs)
    ensures Sum(txs.Keys, UnmarkedIn(txs))
              == Sum(txs.Keys, UnspentIn(txs, su)) + Sum(Overlooked(txs, su), OutputValueIn(txs))
  {
    hide Overlooked, Sum;
    forall h | h in txs.Keys ensures UnmarkedIn(txs)(h) == UnspentIn(txs, su)(h) + OverlookedIn(txs, su)(h) {
      RecordDifference(txs, su, h, |txs[h].credits|);
    }
    SumPlus(txs.Keys, UnmarkedIn(txs), UnspentIn(txs, su), OverlookedIn(txs, su));
    OverlookedParts(txs, su);
  }

  lemma OverlookedParts(txs: Pool, su: map<OutPoint, Hash>)
    ensures Sum(txs.Keys, OverlookedIn(txs, su)) == Sum(Overlooked(txs, su), OutputValueIn(txs))
  {
    hide Sum;
    var part := h => if h in txs then OverlookedUpTo(txs, su, h, |txs[h].credits|) else {};
    forall op | op in Overlooked(txs, su) ensures exists h :: h in txs.Keys && op in part(h) {
      assert op in part(op.hash);
    }
    SumParts(txs.Keys, part, OverlookedIn(txs, su), OutputValueIn(txs), Overlooked(txs, su));
  }

  /** On a ledger whose links and amounts are in order, at a height no block
      exceeds, the balance computed from block amounts is the sum of all unspent
      credits with enough confirmations, less the coinbase credits that were
      spent before they matured, and at depth 0 with the unconfirmed credits
      that are spent without being marked. */
  lemma BalanceDifference(l: Ledger, minConf: int, height: int)
    requires Linked(l) && Accounted(l)
    requires forall h :: h in l.deltas ==> h <= height
    ensures FastBalance(l, minConf, height)
         == ScanBalance(l, minConf, height) - Sum(SpentEarly(l.mined, minConf, height), ValueIn(l.mined))
             + OverlookedValue(l, minConf)
  {
    hide PoolOk, HashesOk, UnspentSound, SpentKeysOk, SpendersOk, SpentUnconfOk, MarksOk, PrevOutsOk, PoolAdds;
    hide PoolCounted, PoolBalance, OverlookedValue;
    var ks := set k | k in l.mined && Confirmed(minConf, k.height, height);
    SpendableEarned(l.mined, l.deltas, minConf, height, ks);
    RewardsEarned(l.mined, l.deltas, minConf, height);
    OldSpends(l.mined, l.deltas.Keys, l.spentOuts, minConf, height, ks);
    YoungSpends(l.mined, l.spentOuts, minConf, height);
    PoolSpendsAre(l.mined, l.spentOuts, l.spentKeys, minConf, height);
    EarnedMinusSpent(l.mined, minConf, height);
    PoolPart(l, minConf);
  }

  lemma PoolPart(l: Ledger, minConf: int)
    requires PoolOk(l.txs)
    ensures PoolCounted(l.txs, minConf) == PoolBalance(l.txs, l.spentUnconf, minConf) + OverlookedValue(l, minConf)
  {
    hide PoolOk, Overlooked, UnmarkedIn, UnspentIn, Sum;
    PoolDifference(l.txs, l.spentUnconf);
  }

  /** With every spent coinbase mature, the two balances agree exactly when the
      overlooked credits that are counted are worth nothing. */
  lemma BalanceIsScanIff(l: Ledger, minConf: int, height: int)
    requires Linked(l) && Accounted(l) && SpentMature(l.mined, height)
    requires forall h :: h in l.deltas ==> h <= height
    ensures FastBalance(l, minConf, height) == ScanBalance(l, minConf, height) + OverlookedValue(l, minConf)
    ensures FastBalance(l, minConf, height) == ScanBalance(l, minConf, height) <==> OverlookedValue(l, minConf) == 0
  {
    assert SpentEarly(l.mined, minConf, height) == {};
    hide Linked, Accounted, FastBalance, ScanBalance, SpentEarly, OverlookedValue;
    BalanceDifference(l, minConf, height);
    SumEmpty(ValueIn(l.mined));
  }

  // ------------------------------------------------------- order and sign

  ghost predicate NonNegative(r: TxRecord) {
    forall i :: 0 <= i < |r.tx.outputs| ==> 0 <= r.tx.outputs[i]
  }

  ghost predicate NoNegativeOutput(l: Ledger) {
    && (forall k :: k in l.mined ==> NonNegative(l.mined[k]))
    && (forall h :: h in l.txs ==> NonNegative(l.txs[h]))
  }

  lemma {:induction false} UnspentValueNonNegative(r: TxRecord, su: map<OutPoint, Hash>, n: nat)
    requires NonNegative(r) && n <= |r.credits|
    ensures 0 <= UnspentValue(r, su, n)
  {
    if n > 0 { UnspentValueNonNegative(r, su, n - 1); }
  }

  lemma PoolBalanceNonNegative(l: Ledger, minConf: int)
    requires NoNegativeOutput(l)
    ensures 0 <= PoolBalance(l.txs, l.spentUnconf, minConf) && 0 <= OverlookedValue(l, minConf)
  {
    forall h | h in l.txs.Keys ensures 0 <= UnspentIn(l.txs, l.spentUnconf)(h) {
      UnspentValueNonNegative(l.txs[h], l.spentUnconf, |l.txs[h].credits|);
    }
    SumNonNegative(l.txs.Keys, UnspentIn(l.txs, l.spentUnconf));
    forall op | op in Overlooked(l.txs, l.spentUnconf)
      ensures 0 <= OutputValueIn(l.txs)(op)
    {
      assert NonNegative(l.txs[op.hash]);
    }
    SumNonNegative(Overlooked(l.txs, l.spentUnconf), OutputValueIn(l.txs));
  }

  /** Asking for more confirmations never raises the balance, and the balance
      is never negative; nor is what is overlooked. */
  lemma ScanShrinks(l: Ledger, minConf: int, more: int, height: int)
    requires NoNegativeOutput(l) && 0 <= minConf <= more
    ensures 0 <= ScanBalance(l, more, height) <= ScanBalance(l, minConf, height)
    ensures 0 <= OverlookedValue(l, more) <= OverlookedValue(l, minConf)
  {
    var a, b := Countable(l.mined, more, height), Countable(l.mined, minConf, height);
    assert a <= b;
    forall p | p in b ensures 0 <= ValueIn(l.mined)(p) { assert NonNegative(l.mined[p.tx]); }
    SumSubset(a, b, ValueIn(l.mined));
    SumNonNegative(a, ValueIn(l.mined));
    PoolBalanceNonNegative(l, more);
    PoolBalanceNonNegative(l, minConf);
  }

  /** Which mined credits make up the balance: the unspent ones that are deep
      enough, those of a coinbase only from 100 confirmations on. */
  lemma CountableIs(m: Mined, minConf: int, height: int, p: BlockOutputKey)
    requires p.tx.height != -1
    ensures p in Countable(m, minConf, height) <==>
            && IsCredit(m, p) && m[p.tx].credits[p.out].value.spentBy.None?
            && (0 < minConf ==> p.tx.height <= height && minConf <= height - p.tx.height + 1)
            && (p.tx.index == 0 ==> p.tx.height <= height && 100 <= height - p.tx.height + 1)
  {
  }
}
