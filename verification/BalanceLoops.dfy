/** The balance as the sum of what each block contributes. */
module BalanceLoops {
  import opened TxTypes
  import opened Ledgers
  import opened LedgerInv
  import opened Sums
  import opened Balances
  import opened BalanceProof
  import opened Blocks
  import opened Detaching

  /** What the block at height h adds to the balance: its amounts if it is
      confirmed, and otherwise less what it spends from confirmed credits. */
  ghost function ShareIn(l: Ledger, minConf: int, height: int): int -> int {
    (h: int) =>
      if Confirmed(minConf, h, height) then
        SpendableIn(l.deltas)(h) + if COINBASE_MATURITY <= Confirms(h, height) then RewardIn(l.deltas)(h) else 0
      else -Sum(TxsAt(l.mined, h), SpentConfirmedIn(l.mined, minConf, height))
  }

  ghost function DebitShareIn(l: Ledger, minConf: int, height: int): int -> int {
    (h: int) => if Confirmed(minConf, h, height) then 0
      else Sum(TxsAt(l.mined, h), SpentConfirmedIn(l.mined, minConf, height))
  }

  ghost function MatureShareIn(l: Ledger, minConf: int, height: int): int -> int {
    (h: int) => if Confirmed(minConf, h, height) && COINBASE_MATURITY <= Confirms(h, height) then RewardIn(l.deltas)(h)
      else 0
  }

  ghost function ConfirmedShareIn(l: Ledger, minConf: int, height: int): int -> int {
    (h: int) => if Confirmed(minConf, h, height) then SpendableIn(l.deltas)(h) else 0
  }

  /** What the mined transactions of young blocks spend, block by block. */
  lemma YoungByBlock(l: Ledger, minConf: int, height: int)
    requires forall k :: k in l.mined ==> k.height in l.deltas
    ensures Sum(l.deltas.Keys, DebitShareIn(l, minConf, height))
              == Sum(YoungTxs(l.mined, minConf, height), SpentConfirmedIn(l.mined, minConf, height))
  {
    var f, g := SpentConfirmedIn(l.mined, minConf, height), DebitShareIn(l, minConf, height);
    var part := (h: int) => if Confirmed(minConf, h, height) then {} else TxsAt(l.mined, h);
    var all := YoungTxs(l.mined, minConf, height);
    SumEmpty(f);
    forall k | k in all ensures exists h :: h in l.deltas.Keys && k in part(h) {
      assert k in part(k.height);
    }
    SumParts(l.deltas.Keys, part, g, f, all);
  }

  lemma ConfirmedShares(l: Ledger, minConf: int, height: int)
    ensures Sum(l.deltas.Keys, ConfirmedShareIn(l, minConf, height))
              == Sum(ConfirmedBlocks(l.deltas, minConf, height), SpendableIn(l.deltas))
  {
    SumFilter(l.deltas.Keys, ConfirmedBlocks(l.deltas, minConf, height), SpendableIn(l.deltas),
      ConfirmedShareIn(l, minConf, height));
  }

  lemma MatureShares(l: Ledger, minConf: int, height: int)
    ensures Sum(l.deltas.Keys, MatureShareIn(l, minConf, height))
              == Sum(MatureBlocks(l.deltas, minConf, height), RewardIn(l.deltas))
  {
    SumFilter(l.deltas.Keys, MatureBlocks(l.deltas, minConf, height), RewardIn(l.deltas),
      MatureShareIn(l, minConf, height));
  }

  lemma ShareSplits(l: Ledger, minConf: int, height: int, h: int)
    ensures ShareIn(l, minConf, height)(h) ==
            ConfirmedShareIn(l, minConf, height)(h)
                + MatureShareIn(l, minConf, height)(h) - DebitShareIn(l, minConf, height)(h)
  {
    hide SpentConfirmedIn, RewardIn, SpendableIn;
  }

  /** The contributions of the blocks make up the block part of the balance. */
  lemma SharesAdd(l: Ledger, minConf: int, height: int)
    requires forall k :: k in l.mined ==> k.height in l.deltas
    ensures Sum(l.deltas.Keys, ShareIn(l, minConf, height)) ==
            Sum(ConfirmedBlocks(l.deltas, minConf, height), SpendableIn(l.deltas))
            + Sum(MatureBlocks(l.deltas, minConf, height), RewardIn(l.deltas))
            - Sum(YoungTxs(l.mined, minConf, height), SpentConfirmedIn(l.mined, minConf, height))
  {
    hide ShareIn, ConfirmedShareIn, MatureShareIn, DebitShareIn, SpentConfirmedIn, ConfirmedBlocks, MatureBlocks;
    hide YoungTxs, SpendableIn, RewardIn;
    var hs := l.deltas.Keys;
    var a, b := ConfirmedShareIn(l, minConf, height), MatureShareIn(l, minConf, height);
    var c := DebitShareIn(l, minConf, height);
    var ab := (h: int) => a(h) + b(h);
    forall h | h in hs ensures ShareIn(l, minConf, height)(h) == ab(h) - c(h) { ShareSplits(l, minConf, height, h); }
    SumPlus(hs, ab, a, b);
    SumDifference(hs, ShareIn(l, minConf, height), ab, c);
    ConfirmedShares(l, minConf, height);
    MatureShares(l, minConf, height);
    YoungByBlock(l, minConf, height);
  }

  // ----------------------------------------------- what the loops add up

  /** The value of a spent output, counted when it is confirmed. */
  ghost function ConfirmedValueIn(m: Mined, minConf: int, height: int): BlockOutputKey -> int {
    (p: BlockOutputKey) => if Confirmed(minConf, p.tx.height, height) then ValueIn(m)(p) else 0
  }

  lemma ConfirmedValues(m: Mined, ps: set<BlockOutputKey>, minConf: int, height: int)
    ensures Sum(ps, ConfirmedValueIn(m, minConf, height)) == Sum(ConfirmedOf(ps, minConf, height), ValueIn(m))
  {
    SumFilter(ps, ConfirmedOf(ps, minConf, height), ValueIn(m), ConfirmedValueIn(m, minConf, height));
  }

  lemma SpendsConfirmed(m: Mined, k: BlockTxKey, minConf: int, height: int)
    requires k in m
    ensures SpentConfirmedIn(m, minConf, height)(k) == Sum(Elements(Spends(m[k])), ConfirmedValueIn(m, minConf, height))
  {
    assert Elements(Spends(m[k])) == KeySet(Spends(m[k]));
    ConfirmedValues(m, KeySet(Spends(m[k])), minConf, height);
  }

  /** A listed spend is a credit of a mined transaction, listed once. */
  lemma SpendIsCredit(l: Ledger, k: BlockTxKey, i: nat)
    requires MinedOk(l.mined, l.deltas.Keys) && SpendsOk(l.mined) && k in l.mined && i < |Spends(l.mined[k])|
    ensures var ps := Spends(l.mined[k]);
            ps[i] !in ps[..i] && IsCredit(l.mined, ps[i]) && ps[i].out < |l.mined[ps[i].tx].tx.outputs|
  {
    var ps := Spends(l.mined[k]);
    assert Lists(l.mined, k, ps[i]) && SpendAt(l.mined, k, ps[i]);
  }

  lemma PoolSpendIsCredit(l: Ledger, p: BlockOutputKey)
    requires MinedOk(l.mined, l.deltas.Keys) && SpentOutsOk(l.mined, l.spentOuts, l.spentKeys) && p in l.spentOuts
    ensures IsCredit(l.mined, p) && p.out < |l.mined[p.tx].tx.outputs|
  {
  }

  lemma BlockKeysTxs(bs: BlockList, ix: Heights, m: Mined, deltas: map<int, Amounts>, i: nat)
    requires Mirrors(bs, ix, m, deltas) && i < |bs|
    ensures HoldsBlock(m, bs[i]) && NoDup(BlockKeys(bs[i])) && Elements(BlockKeys(bs[i])) == TxsAt(m, bs[i].info.height)
  {
    BlockKeysAre(bs, ix, m, deltas, i);
    hide Mirrors, HoldsBlock, NoDup, BlockKeys;
  }

  function HeightsOf(bs: BlockList): (hs: seq<int>)
    ensures |hs| == |bs|
  {
    seq(|bs|, i requires 0 <= i < |bs| => bs[i].info.height)
  }

  lemma HeightsAll(bs: BlockList, ix: Heights, m: Mined, deltas: map<int, Amounts>)
    requires Mirrors(bs, ix, m, deltas)
    ensures NoDup(HeightsOf(bs)) && Elements(HeightsOf(bs)) == deltas.Keys
    ensures forall k :: k in m ==> k.height in deltas
  {
    var lx := Live(ix, |bs|);
    forall h | h in deltas ensures h in HeightsOf(bs) { assert HeightsOf(bs)[lx[h]] == h; }
  }

  lemma BlockAmounts(bs: BlockList, ix: Heights, m: Mined, deltas: map<int, Amounts>, i: nat)
    requires Mirrors(bs, ix, m, deltas) && i < |bs|
    ensures HeightsOf(bs)[i] == bs[i].info.height
    ensures bs[i].info.height in deltas && deltas[bs[i].info.height] == bs[i].amounts
  {
  }

  lemma SumNextOf<T(!new)>(s: seq<T>, n: nat, f: T -> int)
    requires n < |s| && NoDup(s)
    ensures Sum(Elements(s[..n+1]), f) == Sum(Elements(s[..n]), f) + f(s[n])
  {
    SumNext(s, n, f);
  }

  lemma SumLeft<T(!new)>(s: set<T>, rest: set<T>, x: T, f: T -> int)
    requires rest <= s && x in rest
    ensures Sum(s - (rest - {x}), f) == Sum(s - rest, f) + f(x)
  {
    assert s - (rest - {x}) == s - rest + {x};
    SumAdd(s - rest, f, x);
  }

  lemma ConfirmedValueAt(m: Mined, p: BlockOutputKey, minConf: int, height: int)
    requires IsCredit(m, p) && p.out < |m[p.tx].tx.outputs|
    ensures p.tx in m
    ensures ConfirmedValueIn(m, minConf, height)(p)
              == if Confirmed(minConf, p.tx.height, height) then m[p.tx].tx.outputs[p.out] else 0
  {
    var f := ConfirmedValueIn(m, minConf, height);
    assert ValueIn(m)(p) == m[p.tx].tx.outputs[p.out];
    assert f(p) == if Confirmed(minConf, p.tx.height, height) then ValueIn(m)(p) else 0;
  }

  lemma ShareAt(l: Ledger, minConf: int, height: int, h: int)
    requires h in l.deltas
    ensures ShareIn(l, minConf, height)(h) ==
      if Confirmed(minConf, h, height) then
        l.deltas[h].spendable + if COINBASE_MATURITY <= Confirms(h, height) then l.deltas[h].reward else 0
      else -Sum(TxsAt(l.mined, h), SpentConfirmedIn(l.mined, minConf, height))
  {
    hide SpentConfirmedIn;
    assert SpendableIn(l.deltas)(h) == l.deltas[h].spendable && RewardIn(l.deltas)(h) == l.deltas[h].reward;
    var f := ShareIn(l, minConf, height);
    assert f(h) == if Confirmed(minConf, h, height) then
      SpendableIn(l.deltas)(h) + (if COINBASE_MATURITY <= Confirms(h, height) then RewardIn(l.deltas)(h) else 0)
      else -Sum(TxsAt(l.mined, h), SpentConfirmedIn(l.mined, minConf, height));
  }
}
