/** The block list of the store and its two indexes, by height and by position
    within a block. */
module Blocks {
  import opened TxTypes
  import opened Ledgers
  import opened Rollbacks

  datatype BlockInfo = BlockInfo(hash: Hash, time: int, height: int)

  datatype BlockTxs = BlockTxs(info: BlockInfo, amounts: Amounts, txs: seq<TxRecord>, txIndexes: map<int, nat>)

  type BlockList = seq<BlockTxs>
  type Heights = map<int, nat>

  /** txIndexes finds each record of the block by its block index. */
  ghost predicate BlockOk(b: BlockTxs) {
    && (forall j :: 0 <= j < |b.txs| ==> b.txs[j].index in b.txIndexes && b.txIndexes[b.txs[j].index] == j)
    && (forall x :: x in b.txIndexes ==> b.txIndexes[x] < |b.txs| && b.txs[b.txIndexes[x]].index == x)
  }

  /** Blocks are in order of height, and the height index finds each. */
  ghost predicate Indexed(bs: BlockList, ix: Heights) {
    && (forall i :: 0 <= i < |bs| ==> BlockOk(bs[i]) && bs[i].info.height in ix && ix[bs[i].info.height] == i)
    && (forall h :: h in ix ==> ix[h] < |bs| && bs[ix[h]].info.height == h)
    && (forall i, j :: 0 <= i < j < |bs| ==> bs[i].info.height < bs[j].info.height)
  }

  predicate Has(bs: BlockList, ix: Heights, k: BlockTxKey) {
    k.height in ix && ix[k.height] < |bs| && k.index in bs[ix[k.height]].txIndexes
    && bs[ix[k.height]].txIndexes[k.index] < |bs[ix[k.height]].txs|
  }

  function Get(bs: BlockList, ix: Heights, k: BlockTxKey): TxRecord
    requires Has(bs, ix, k)
  {
    var b := bs[ix[k.height]];
    b.txs[b.txIndexes[k.index]]
  }

  /** The lookups find exactly the records m and the amounts deltas. */
  ghost predicate Shows(bs: BlockList, ix: Heights, m: Mined, deltas: map<int, Amounts>) {
    && (forall k :: k in m <==> Has(bs, ix, k))
    && (forall k :: k in m ==> Get(bs, ix, k) == m[k])
    && deltas.Keys == ix.Keys
    && (forall h :: h in ix ==> ix[h] < |bs| && deltas[h] == bs[ix[h]].amounts)
  }

  // ---------------------------------------------------- changing one record

  function Put(bs: BlockList, ix: Heights, k: BlockTxKey, r: TxRecord): (bs': BlockList)
    requires Has(bs, ix, k)
    ensures |bs'| == |bs|
  {
    var i := ix[k.height];
    var b := bs[i];
    bs[i := b.(txs := b.txs[b.txIndexes[k.index] := r])]
  }

  /** A block replaced by another of the same height. */
  lemma UpdateIndexed(bs: BlockList, ix: Heights, i: nat, b: BlockTxs)
    requires Indexed(bs, ix) && i < |bs| && BlockOk(b) && b.info == bs[i].info
    ensures Indexed(bs[i := b], ix)
  {
    hide BlockOk;
  }

  lemma PutBlockOk(b: BlockTxs, x: int, r: TxRecord)
    requires BlockOk(b) && x in b.txIndexes && r.index == x
    ensures b.txIndexes[x] < |b.txs| && BlockOk(b.(txs := b.txs[b.txIndexes[x] := r]))
  {
  }

  /** Records of one block are found at different places. */
  lemma PlacesApart(bs: BlockList, ix: Heights, k: BlockTxKey, q: BlockTxKey)
    requires Indexed(bs, ix) && Has(bs, ix, k) && Has(bs, ix, q) && ix[q.height] == ix[k.height] && q != k
    ensures bs[ix[k.height]].txIndexes[q.index] != bs[ix[k.height]].txIndexes[k.index]
  {
    var b := bs[ix[k.height]];
    assert b.info.height == k.height && b.info.height == q.height;
    assert BlockOk(b) && b.txs[b.txIndexes[q.index]].index == q.index;
  }

  lemma PutShows(bs: BlockList, ix: Heights, m: Mined, deltas: map<int, Amounts>, k: BlockTxKey, r: TxRecord)
    requires Indexed(bs, ix) && Shows(bs, ix, m, deltas) && k in m && r.index == k.index
    ensures Indexed(Put(bs, ix, k, r), ix) && Shows(Put(bs, ix, k, r), ix, m[k := r], deltas)
  {
    assert Has(bs, ix, k);
    var i := ix[k.height];
    assert BlockOk(bs[i]);
    PutBlockOk(bs[i], k.index, r);
    UpdateIndexed(bs, ix, i, Put(bs, ix, k, r)[i]);
    hide BlockOk, Indexed;
    forall q | q in m && q != k && ix[q.height] == i
      ensures bs[i].txIndexes[q.index] != bs[i].txIndexes[k.index]
    {
      PlacesApart(bs, ix, k, q);
    }
    PutRecords(bs, ix, m, k, r);
  }

  lemma PutRecords(bs: BlockList, ix: Heights, m: Mined, k: BlockTxKey, r: TxRecord)
    requires (forall q :: q in m <==> Has(bs, ix, q)) && (forall q :: q in m ==> Get(bs, ix, q) == m[q]) && k in m
    requires Has(bs, ix, k)
    requires forall q :: q in m && Has(bs, ix, q) && q != k && ix[q.height] == ix[k.height] ==>
      bs[ix[k.height]].txIndexes[q.index] != bs[ix[k.height]].txIndexes[k.index]
    ensures forall q :: q in m <==> Has(Put(bs, ix, k, r), ix, q)
    ensures forall q :: q in m ==> Get(Put(bs, ix, k, r), ix, q) == m[k := r][q]
  {
  }

  function PutAmounts(bs: BlockList, ix: Heights, h: int, a: Amounts): (bs': BlockList)
    requires h in ix && ix[h] < |bs|
    ensures |bs'| == |bs|
  {
    bs[ix[h] := bs[ix[h]].(amounts := a)]
  }

  lemma PutAmountsShows(bs: BlockList, ix: Heights, m: Mined, deltas: map<int, Amounts>, h: int, a: Amounts)
    requires Indexed(bs, ix) && Shows(bs, ix, m, deltas) && h in ix
    ensures Indexed(PutAmounts(bs, ix, h, a), ix) && Shows(PutAmounts(bs, ix, h, a), ix, m, deltas[h := a])
  {
    var bs' := PutAmounts(bs, ix, h, a);
    forall q ensures Has(bs', ix, q) <==> Has(bs, ix, q) {}
    forall q | q in m ensures Get(bs', ix, q) == m[q] {}
  }

  // ----------------------------------------------------------- adding a block

  /** A new block can be put at the end. */
  predicate OnTop(bs: BlockList, h: int) {
    bs == [] || bs[|bs|-1].info.height < h
  }

  lemma AddBlockShows(bs: BlockList, ix: Heights, m: Mined, deltas: map<int, Amounts>, info: BlockInfo)
    requires Indexed(bs, ix) && Shows(bs, ix, m, deltas) && OnTop(bs, info.height)
    ensures var bs', ix' := bs + [BlockTxs(info, Amounts(0, 0), [], map[])], ix[info.height := |bs|];
            info.height !in ix && Indexed(bs', ix') && Shows(bs', ix', m, deltas[info.height := Amounts(0, 0)])
  {
    var bs', ix' := bs + [BlockTxs(info, Amounts(0, 0), [], map[])], ix[info.height := |bs|];
    assert forall i :: 0 <= i < |bs| ==> bs'[i] == bs[i];
    NewBlockIndexed(bs, ix, info);
    hide BlockOk, Indexed;
    forall q ensures Has(bs', ix', q) <==> Has(bs, ix, q) {}
    forall q | q in m ensures Get(bs', ix', q) == m[q] {}
  }

  lemma NewBlockIndexed(bs: BlockList, ix: Heights, info: BlockInfo)
    requires Indexed(bs, ix) && OnTop(bs, info.height)
    ensures info.height !in ix && Indexed(bs + [BlockTxs(info, Amounts(0, 0), [], map[])], ix[info.height := |bs|])
  {
    var b := BlockTxs(info, Amounts(0, 0), [], map[]);
    assert BlockOk(b);
    hide BlockOk;
    assert forall i :: 0 <= i < |bs| ==> (bs + [b])[i] == bs[i];
  }

  /** r appended to the records of the block at height h. */
  function AddRecord(bs: BlockList, ix: Heights, h: int, r: TxRecord): (bs': BlockList)
    requires h in ix && ix[h] < |bs|
    ensures |bs'| == |bs|
  {
    var b := bs[ix[h]];
    bs[ix[h] := b.(txs := b.txs + [r], txIndexes := b.txIndexes[r.index := |b.txs|])]
  }

  lemma AddRecordShows(bs: BlockList, ix: Heights, m: Mined, deltas: map<int, Amounts>, h: int, r: TxRecord)
    requires Indexed(bs, ix) && Shows(bs, ix, m, deltas) && h in ix && BlockTxKey(r.index, h) !in m
    ensures Indexed(AddRecord(bs, ix, h, r), ix)
    ensures Shows(AddRecord(bs, ix, h, r), ix, m[BlockTxKey(r.index, h) := r], deltas)
  {
    var bs', i, key := AddRecord(bs, ix, h, r), ix[h], BlockTxKey(r.index, h);
    assert !Has(bs, ix, key);
    SlotFree(bs, ix, h, r.index);
    AddRecordBlock(bs[i], r);
    UpdateIndexed(bs, ix, i, bs'[i]);
    OneBlockPerHeight(bs, ix);
    hide BlockOk, Indexed;
    forall q ensures Has(bs', ix, q) <==> Has(bs, ix, q) || q == key {}
    forall q | q in m[key := r] ensures Get(bs', ix, q) == m[key := r][q] {}
  }

  lemma OneBlockPerHeight(bs: BlockList, ix: Heights)
    requires Indexed(bs, ix)
    ensures forall h, g :: h in ix && g in ix && ix[h] == ix[g] ==> h == g
  {
    assert forall h :: h in ix ==> bs[ix[h]].info.height == h;
  }

  lemma SlotFree(bs: BlockList, ix: Heights, h: int, x: int)
    requires Indexed(bs, ix) && h in ix && !Has(bs, ix, BlockTxKey(x, h))
    ensures ix[h] < |bs| && BlockOk(bs[ix[h]]) && x !in bs[ix[h]].txIndexes
  {
  }

  lemma AddRecordBlock(b: BlockTxs, r: TxRecord)
    requires BlockOk(b) && r.index !in b.txIndexes
    ensures BlockOk(b.(txs := b.txs + [r], txIndexes := b.txIndexes[r.index := |b.txs|]))
  {
  }

  // -------------------------------------------------------- cutting the tip

  /** The first n blocks, those below height, still show what is left. */
  lemma CutShows(bs: BlockList, ix: Heights, m: Mined, deltas: map<int, Amounts>, n: nat, height: int)
    requires Indexed(bs, ix) && Shows(bs, ix, m, deltas) && n <= |bs|
    requires forall i :: 0 <= i < |bs| ==> (i < n <==> bs[i].info.height < height)
    ensures var ix' := map h | h in ix && h < height :: ix[h];
            Indexed(bs[..n], ix') && Shows(bs[..n], ix', CutMined(m, height), CutDeltas(deltas, height))
  {
    var bs', ix' := bs[..n], map h | h in ix && h < height :: ix[h];
    assert forall h :: h in ix ==> (h < height <==> ix[h] < n);
    forall q ensures Has(bs', ix', q) <==> Has(bs, ix, q) && q.height < height {}
    forall q | q in CutMined(m, height) ensures Get(bs', ix', q) == m[q] {}
  }

  // ---------------------------------------- an index that may run past the end

  /** The entries of the height index that point into the block list.  While a
      rollback is under way the others are still to be deleted. */
  function Live(ix: Heights, n: nat): Heights {
    map h | h in ix && ix[h] < n :: ix[h]
  }

  predicate InUse(ix: Heights, n: nat) {
    forall h :: h in ix ==> ix[h] < n
  }

  /** The block list and its indexes hold the records m and amounts deltas. */
  ghost predicate Mirrors(bs: BlockList, ix: Heights, m: Mined, deltas: map<int, Amounts>) {
    Indexed(bs, Live(ix, |bs|)) && Shows(bs, Live(ix, |bs|), m, deltas)
  }

  lemma LiveAll(ix: Heights, n: nat)
    requires InUse(ix, n)
    ensures Live(ix, n) == ix
  {
    assert forall h :: h in ix ==> h in Live(ix, n);
  }

  lemma MirrorsHas(bs: BlockList, ix: Heights, m: Mined, deltas: map<int, Amounts>, k: BlockTxKey)
    requires Mirrors(bs, ix, m, deltas)
    ensures k in m <==> Has(bs, ix, k)
    ensures k in m ==> Get(bs, ix, k) == m[k] && m[k].index == k.index
    ensures k.height in deltas <==> k.height in ix && ix[k.height] < |bs|
  {
    var lx := Live(ix, |bs|);
    assert k in m <==> Has(bs, lx, k);
    assert Has(bs, lx, k) <==> Has(bs, ix, k);
  }

  lemma MirrorsAmounts(bs: BlockList, ix: Heights, m: Mined, deltas: map<int, Amounts>, h: int)
    requires Mirrors(bs, ix, m, deltas)
    ensures h in deltas <==> h in ix && ix[h] < |bs|
    ensures h in deltas ==> bs[ix[h]].amounts == deltas[h]
    ensures forall k :: k in m ==> k.height in deltas
  {
  }

  lemma MirrorsPut(bs: BlockList, ix: Heights, m: Mined, deltas: map<int, Amounts>, k: BlockTxKey, r: TxRecord)
    requires Mirrors(bs, ix, m, deltas) && k in m && r.index == k.index
    ensures Has(bs, ix, k) && Mirrors(Put(bs, ix, k, r), ix, m[k := r], deltas)
  {
    MirrorsHas(bs, ix, m, deltas, k);
    PutShows(bs, Live(ix, |bs|), m, deltas, k, r);
    hide Indexed, Shows;
  }

  lemma MirrorsPutAmounts(bs: BlockList, ix: Heights, m: Mined, deltas: map<int, Amounts>, h: int, a: Amounts)
    requires Mirrors(bs, ix, m, deltas) && h in deltas
    ensures h in ix && ix[h] < |bs| && Mirrors(PutAmounts(bs, ix, h, a), ix, m, deltas[h := a])
  {
    MirrorsAmounts(bs, ix, m, deltas, h);
    PutAmountsShows(bs, Live(ix, |bs|), m, deltas, h, a);
    hide Indexed, Shows;
  }

  lemma MirrorsNewBlock(bs: BlockList, ix: Heights, m: Mined, deltas: map<int, Amounts>, info: BlockInfo)
    requires Mirrors(bs, ix, m, deltas) && InUse(ix, |bs|) && OnTop(bs, info.height)
    ensures var bs', ix' := bs + [BlockTxs(info, Amounts(0, 0), [], map[])], ix[info.height := |bs|];
            info.height !in deltas && InUse(ix', |bs'|) && Mirrors(bs', ix', m, deltas[info.height := Amounts(0, 0)])
  {
    LiveAll(ix, |bs|);
    MirrorsAmounts(bs, ix, m, deltas, info.height);
    AddBlockShows(bs, ix, m, deltas, info);
    LiveAll(ix[info.height := |bs|], |bs| + 1);
    hide Indexed, Shows;
  }

  lemma MirrorsNewRecord(bs: BlockList, ix: Heights, m: Mined, deltas: map<int, Amounts>, h: int, r: TxRecord)
    requires Mirrors(bs, ix, m, deltas) && h in deltas && BlockTxKey(r.index, h) !in m
    ensures h in ix && ix[h] < |bs| && Mirrors(AddRecord(bs, ix, h, r), ix, m[BlockTxKey(r.index, h) := r], deltas)
  {
    MirrorsAmounts(bs, ix, m, deltas, h);
    AddRecordShows(bs, Live(ix, |bs|), m, deltas, h, r);
    hide Indexed, Shows;
  }

  lemma MirrorsCut(bs: BlockList, ix: Heights, m: Mined, deltas: map<int, Amounts>, n: nat, height: int)
    requires Mirrors(bs, ix, m, deltas) && n <= |bs|
    requires forall i :: 0 <= i < |bs| ==> (i < n <==> bs[i].info.height < height)
    ensures Mirrors(bs[..n], ix, CutMined(m, height), CutDeltas(deltas, height))
  {
    hide Indexed, Shows, CutMined, CutDeltas, Live;
    CutShows(bs, Live(ix, |bs|), m, deltas, n, height);
    LiveCut(bs, ix, n, height);
  }

  lemma LiveCut(bs: BlockList, ix: Heights, n: nat, height: int)
    requires Indexed(bs, Live(ix, |bs|)) && n <= |bs|
    requires forall i :: 0 <= i < |bs| ==> (i < n <==> bs[i].info.height < height)
    ensures Live(ix, n) == var lx := Live(ix, |bs|); map h | h in lx && h < height :: lx[h]
  {
    var lx := Live(ix, |bs|);
    forall h | h in lx ensures h < height <==> ix[h] < n {
      assert bs[ix[h]].info.height == h;
    }
  }

  // ------------------------------------------------------ where inserts append

  /** A block at height h is known, or would be the last. */
  predicate Fits(bs: BlockList, ix: Heights, h: int) {
    h in ix || OnTop(bs, h)
  }

  /** A record at key would be the last of its block. */
  predicate FitsBlock(bs: BlockList, ix: Heights, key: BlockTxKey) {
    Fits(bs, ix, key.height) &&
    (key.height in ix && ix[key.height] < |bs| ==>
      var rs := bs[ix[key.height]].txs; rs == [] || rs[|rs|-1].index < key.index)
  }

  function Indexes(rs: seq<TxRecord>): (s: seq<int>)
    ensures |s| == |rs|
  {
    seq(|rs|, j requires 0 <= j < |rs| => rs[j].index)
  }

  /** The blocks and the positions of their records. */
  function Shape(bs: BlockList): (s: seq<(BlockInfo, seq<int>)>)
    ensures |s| == |bs|
  {
    seq(|bs|, i requires 0 <= i < |bs| => (bs[i].info, Indexes(bs[i].txs)))
  }

  lemma PutShape(bs: BlockList, ix: Heights, k: BlockTxKey, r: TxRecord)
    requires Has(bs, ix, k) && r.index == Get(bs, ix, k).index
    ensures Shape(Put(bs, ix, k, r)) == Shape(bs)
  {
    var i := ix[k.height];
    assert Indexes(Put(bs, ix, k, r)[i].txs) == Indexes(bs[i].txs);
  }

  lemma PutAmountsShape(bs: BlockList, ix: Heights, h: int, a: Amounts)
    requires h in ix && ix[h] < |bs|
    ensures Shape(PutAmounts(bs, ix, h, a)) == Shape(bs)
  {
  }

  lemma ShapeFits(bs: BlockList, bs': BlockList, ix: Heights, key: BlockTxKey)
    requires Shape(bs') == Shape(bs)
    ensures |bs'| == |bs|
    ensures FitsBlock(bs', ix, key) <==> FitsBlock(bs, ix, key)
  {
    forall i | 0 <= i < |bs|
      ensures bs'[i].info == bs[i].info && |bs'[i].txs| == |bs[i].txs|
      ensures bs[i].txs != [] ==> bs'[i].txs[|bs[i].txs|-1].index == bs[i].txs[|bs[i].txs|-1].index
    {
      assert Shape(bs')[i] == Shape(bs)[i];
      if bs[i].txs != [] { assert Indexes(bs'[i].txs)[|bs[i].txs|-1] == Indexes(bs[i].txs)[|bs[i].txs|-1]; }
    }
  }

  /** What is known of each block. */
  function Infos(bs: BlockList): (s: seq<BlockInfo>)
    ensures |s| == |bs|
  {
    seq(|bs|, i requires 0 <= i < |bs| => bs[i].info)
  }

  lemma ShapeInfos(bs: BlockList, bs': BlockList)
    requires Shape(bs') == Shape(bs)
    ensures Infos(bs') == Infos(bs)
  {
    hide Indexes;
    assert |Shape(bs')| == |Shape(bs)|;
    forall i | 0 <= i < |bs| ensures bs'[i].info == bs[i].info { assert Shape(bs')[i] == Shape(bs)[i]; }
  }

  /** The blocks once one at info's height is there. */
  function InfosWith(bs: BlockList, ix: Heights, info: BlockInfo): seq<BlockInfo> {
    if info.height in ix then Infos(bs) else Infos(bs) + [info]
  }

  lemma InfosNext(bs: BlockList, b: BlockTxs)
    ensures Infos(bs + [b]) == Infos(bs) + [b.info]
  {
  }

  lemma InfosPut(bs: BlockList, i: nat, b: BlockTxs)
    requires i < |bs| && b.info == bs[i].info
    ensures Infos(bs[i := b]) == Infos(bs)
  {
  }
}
