/** Which transactions a rollback detaches, in which order, and what is left of
    the height index while it is under way. */
module Detaching {
  import opened TxTypes
  import opened Ledgers
  import opened Rollbacks
  import opened Blocks

  /** The keys of a block's records. */
  function BlockKeys(b: BlockTxs): (ks: seq<BlockTxKey>)
    ensures |ks| == |b.txs|
  {
    seq(|b.txs|, j requires 0 <= j < |b.txs| => BlockTxKey(b.txs[j].index, b.info.height))
  }

  /** from has the records of b under their keys. */
  ghost predicate HoldsBlock(from: Mined, b: BlockTxs) {
    forall j :: 0 <= j < |b.txs| ==> HoldsRecord(from, b, j)
  }

  ghost predicate HoldsRecord(from: Mined, b: BlockTxs, j: nat)
    requires j < |b.txs|
  {
    var key := BlockTxKey(b.txs[j].index, b.info.height);
    key in from && from[key] == b.txs[j]
  }

  lemma BlockKeysKnown(from: Mined, b: BlockTxs, order: seq<BlockTxKey>)
    requires HoldsBlock(from, b) && forall k :: k in order ==> k in from
    ensures forall k :: k in order + BlockKeys(b) ==> k in from
  {
    forall k | k in BlockKeys(b) ensures k in from {
      var j :| 0 <= j < |b.txs| && BlockKeys(b)[j] == k;
      assert HoldsRecord(from, b, j);
    }
  }

  lemma BlockKeyAt(from: Mined, b: BlockTxs, order: seq<BlockTxKey>, j: nat)
    requires HoldsBlock(from, b) && j < |b.txs|
    ensures var key := BlockTxKey(b.txs[j].index, b.info.height);
            (order + BlockKeys(b))[|order| + j] == key && key in from && from[key] == b.txs[j]
  {
    assert HoldsRecord(from, b, j);
  }

  /** The keys of all records of some blocks, in order. */
  function AllKeys(bs: seq<BlockTxs>): seq<BlockTxKey> {
    if bs == [] then [] else AllKeys(bs[..|bs|-1]) + BlockKeys(bs[|bs|-1])
  }

  /** The number of leading blocks to keep when cutting at height. */
  function FirstFrom(bs: BlockList, height: int): (n: nat)
    ensures n <= |bs|
  {
    if bs == [] || bs[|bs|-1].info.height < height then |bs| else FirstFrom(bs[..|bs|-1], height)
  }

  lemma {:induction false} FirstFromSplits(bs: BlockList, height: int)
    requires forall i, j :: 0 <= i < j < |bs| ==> bs[i].info.height < bs[j].info.height
    ensures forall i :: 0 <= i < |bs| ==> (i < FirstFrom(bs, height) <==> bs[i].info.height < height)
  {
    if bs != [] && height <= bs[|bs|-1].info.height {
      FirstFromSplits(bs[..|bs|-1], height);
      forall i | 0 <= i < |bs| ensures i < FirstFrom(bs, height) <==> bs[i].info.height < height {
        if i < |bs| - 1 { assert bs[..|bs|-1][i] == bs[i]; }
      }
    }
  }

  lemma CutAtFirst(bs: BlockList, ix: Heights, m: Mined, deltas: map<int, Amounts>, height: int)
    requires Mirrors(bs, ix, m, deltas)
    ensures Mirrors(bs[..FirstFrom(bs, height)], ix, CutMined(m, height), CutDeltas(deltas, height))
  {
    FirstFromSplits(bs, height);
    hide CutMined, CutDeltas, FirstFrom, Indexed, Shows;
    MirrorsCut(bs, ix, m, deltas, FirstFrom(bs, height), height);
  }

  // ----------------------------------------------------- the detached records

  lemma BlockKeysAre(bs: BlockList, ix: Heights, m: Mined, deltas: map<int, Amounts>, i: nat)
    requires Mirrors(bs, ix, m, deltas) && i < |bs|
    ensures HoldsBlock(m, bs[i]) && NoDup(BlockKeys(bs[i]))
    ensures forall k :: k in BlockKeys(bs[i]) <==> k in m && k.height == bs[i].info.height
  {
    var lx, b := Live(ix, |bs|), bs[i];
    assert BlockOk(b) && lx[b.info.height] == i;
    forall j | 0 <= j < |b.txs| ensures HoldsRecord(m, b, j) {
      var key := BlockTxKey(b.txs[j].index, b.info.height);
      assert Has(bs, lx, key) && Get(bs, lx, key) == b.txs[j];
    }
    forall k | k in m && k.height == b.info.height ensures k in BlockKeys(b) {
      assert Has(bs, lx, k);
      assert BlockKeys(b)[b.txIndexes[k.index]] == k;
    }
    forall k | k in BlockKeys(b) ensures k in m {
      var j :| 0 <= j < |b.txs| && BlockKeys(b)[j] == k;
      assert HoldsRecord(m, b, j);
    }
  }

  lemma HeightsApart(bs: BlockList, ix: Heights, m: Mined, deltas: map<int, Amounts>)
    requires Mirrors(bs, ix, m, deltas)
    ensures forall i, j :: 0 <= i < j < |bs| ==> bs[i].info.height < bs[j].info.height
    ensures forall k :: k in m ==> k.height in ix && ix[k.height] < |bs| && bs[ix[k.height]].info.height == k.height
  {
    forall k | k in m ensures k.height in ix && ix[k.height] < |bs| && bs[ix[k.height]].info.height == k.height {
      assert Has(bs, Live(ix, |bs|), k);
    }
  }

  lemma NoKeys()
    ensures AllKeys([]) == [] && NoDup(AllKeys([]))
  {
  }

  /** The keys of consecutive blocks are the records between them. */
  lemma {:induction false} AllKeysAre(bs: BlockList, ix: Heights, m: Mined, deltas: map<int, Amounts>, n: nat, j: nat)
    requires Mirrors(bs, ix, m, deltas) && n <= j <= |bs|
    ensures NoDup(AllKeys(bs[n..j]))
    ensures forall k :: k in AllKeys(bs[n..j]) <==> k in m && k.height in ix && n <= ix[k.height] < j
  {
    hide Mirrors, BlockKeys, HoldsBlock, NoDup;
    HeightsApart(bs, ix, m, deltas);
    if n < j {
      AllKeysAre(bs, ix, m, deltas, n, j - 1);
      BlockKeysAre(bs, ix, m, deltas, j - 1);
      assert bs[n..j][..j-1-n] == bs[n..j-1] && bs[n..j][j-1-n] == bs[j-1];
      forall k | k in m ensures k.height == bs[j-1].info.height <==> ix[k.height] == j - 1 {}
      NoDupJoin(AllKeys(bs[n..j-1]), BlockKeys(bs[j-1]));
    } else {
      NoKeys();
    }
  }

  lemma NoDupJoin<T>(a: seq<T>, b: seq<T>)
    requires NoDup(a) && NoDup(b) && forall x :: x in a ==> x !in b
    ensures NoDup(a + b)
  {
    forall i, j | 0 <= i < j < |a + b| ensures (a + b)[i] != (a + b)[j] {
      if i < |a| <= j { assert (a + b)[i] in a && (a + b)[j] in b; }
    }
  }

  /** The records detached by a rollback, in the order they are returned. */
  lemma DetachedKeys(bs: BlockList, ix: Heights, m: Mined, deltas: map<int, Amounts>, height: int)
    requires Mirrors(bs, ix, m, deltas)
    ensures Detached(m, height, AllKeys(bs[FirstFrom(bs, height)..]))
    ensures forall i :: FirstFrom(bs, height) <= i < |bs| ==> HoldsBlock(m, bs[i])
  {
    HeightsApart(bs, ix, m, deltas);
    FirstFromSplits(bs, height);
    hide Mirrors, HoldsBlock, FirstFrom;
    var n := FirstFrom(bs, height);
    AllKeysAre(bs, ix, m, deltas, n, |bs|);
    assert bs[n..] == bs[n..|bs|];
    forall i | n <= i < |bs| ensures HoldsBlock(m, bs[i]) { BlockKeysAre(bs, ix, m, deltas, i); }
  }

  lemma {:induction false} AllKeysPrefix(bs: seq<BlockTxs>, n: nat)
    requires n <= |bs|
    ensures AllKeys(bs[..n]) <= AllKeys(bs)
  {
    if n < |bs| {
      AllKeysPrefix(bs[..|bs|-1], n);
      assert bs[..|bs|-1][..n] == bs[..n];
    } else {
      assert bs[..n] == bs;
    }
  }

  lemma {:induction false} KeysHeld(from: Mined, bs: seq<BlockTxs>)
    requires forall i :: 0 <= i < |bs| ==> HoldsBlock(from, bs[i])
    ensures forall k :: k in AllKeys(bs) ==> k in from
  {
    hide HoldsBlock, BlockKeys;
    if bs != [] {
      KeysHeld(from, bs[..|bs|-1]);
      BlockKeysKnown(from, bs[|bs|-1], AllKeys(bs[..|bs|-1]));
    }
  }

  // -------------------------------------------------- dropping index entries

  /** ix' is ix without the entries of the first j blocks after the first n. */
  ghost predicate PartlyDropped(ix: Heights, ix': Heights, n: nat, j: nat) {
    && (forall h :: h in ix' ==> h in ix && ix'[h] == ix[h] && (ix[h] < n || n + j <= ix[h]))
    && (forall h :: h in ix && ix[h] < n ==> h in ix')
  }

  lemma DropOne(bs: BlockList, ix: Heights, m: Mined, deltas: map<int, Amounts>, ix': Heights, n: nat, j: nat)
    requires Mirrors(bs, ix, m, deltas) && InUse(ix, |bs|) && n + j < |bs| && PartlyDropped(ix, ix', n, j)
    ensures PartlyDropped(ix, ix' - {bs[n+j].info.height}, n, j + 1)
    ensures Live(ix' - {bs[n+j].info.height}, n) == Live(ix', n)
  {
    LiveAll(ix, |bs|);
    assert ix[bs[n+j].info.height] == n + j;
    assert forall h :: h in ix && ix[h] == n + j ==> bs[ix[h]].info.height == h;
  }

  lemma MirrorsLive(bs: BlockList, ix: Heights, ix': Heights, m: Mined, deltas: map<int, Amounts>)
    requires Mirrors(bs, ix, m, deltas) && Live(ix', |bs|) == Live(ix, |bs|)
    ensures Mirrors(bs, ix', m, deltas)
  {
  }
}
