/** The byte form of a whole store.  The indexes and two of the maps are not
    written but rebuilt while reading. */
module StoreCodec {
  import opened TxTypes
  import opened Ledgers
  import opened LedgerInv
  import opened Blocks
  import opened ByteCodes
  import opened Codec
  import opened Maps

  // --------------------------------------------------------------- blocks

  predicate BlockFits(b: BlockTxs) {
    && IsHash(b.info.hash) && IsInt64(b.info.time) && IsInt32(b.info.height)
    && IsInt64(b.amounts.spendable) && IsInt64(b.amounts.reward) && |b.txs| < TWO_32
    && forall j :: 0 <= j < |b.txs| ==> RecordFits(b.txs[j]) && IsUint32(b.txs[j].index)
  }

  function PutHeader(b: BlockTxs): (bs: Bytes)
    ensures |bs| == HASH_SIZE + 28
  {
    PutHash(b.info.hash) + (PutUint64(b.info.time)
        + (PutUint32(b.info.height) + (PutUint64(b.amounts.spendable) + PutUint64(b.amounts.reward))))
  }

  function PutBlock(w: Wire, b: BlockTxs): Bytes {
    PutHeader(b) + PutCounted(RecordPut(w), b.txs)
  }

  /** txIndexes, rebuilt: a later record takes the place of an earlier one. */
  function IndexesOf(rs: seq<TxRecord>): map<int, nat> {
    if rs == [] then map[] else IndexesOf(rs[..|rs|-1])[rs[|rs|-1].index := |rs| - 1]
  }

  function GetHeader(bs: Bytes): Read<(BlockInfo, Amounts)> {
    match GetHash(bs)
    case Failed(e) => Failed(e)
    case Done(hash, r0) =>
      match Int64(r0)
      case Failed(e) => Failed(e)
      case Done(time, r1) =>
        match Int32(r1)
        case Failed(e) => Failed(e)
        case Done(height, r2) =>
          match Int64(r2)
          case Failed(e) => Failed(e)
          case Done(spendable, r3) =>
            match Int64(r3)
            case Failed(e) => Failed(e)
            case Done(reward, r4) => Done((BlockInfo(hash, time, height), Amounts(spendable, reward)), r4)
  }

  function GetBlock(w: Wire, bs: Bytes): Read<BlockTxs> {
    match GetHeader(bs)
    case Failed(e) => Failed(e)
    case Done((info, amounts), r0) =>
      match GetCounted(RecordGet(w), r0)
      case Failed(e) => Failed(e)
      case Done(rs, r1) => Done(BlockTxs(info, amounts, rs, IndexesOf(rs)), r1)
  }

  lemma HeaderReadsBack(b: BlockTxs, rest: Bytes)
    requires BlockFits(b)
    ensures GetHeader(PutHeader(b) + rest) == Done((b.info, b.amounts), rest)
  {
    var e := PutUint64(b.amounts.reward) + rest;
    var d := PutUint64(b.amounts.spendable) + e;
    var c := PutUint32(b.info.height) + d;
    var a := PutUint64(b.info.time) + c;
    assert PutHeader(b) + rest == PutHash(b.info.hash) + a;
    HashRoundTrip(b.info.hash, a);
    Int64RoundTrip(b.info.time, c);
    Int32RoundTrip(b.info.height, d);
    Int64RoundTrip(b.amounts.spendable, e);
    Int64RoundTrip(b.amounts.reward, rest);
    hide PutHash, GetHash, PutUint64, Int64, PutUint32, Int32;
  }

  lemma {:induction false} IndexesOfHas(rs: seq<TxRecord>)
    ensures forall x :: x in IndexesOf(rs) ==> IndexesOf(rs)[x] < |rs| && rs[IndexesOf(rs)[x]].index == x
    ensures forall j :: 0 <= j < |rs| ==> rs[j].index in IndexesOf(rs)
  {
    if rs != [] { IndexesOfHas(rs[..|rs|-1]); }
  }

  /** A block's index is rebuilt exactly. */
  lemma IndexesRebuilt(b: BlockTxs)
    requires BlockOk(b)
    ensures IndexesOf(b.txs) == b.txIndexes
  {
    IndexesOfHas(b.txs);
    var m := IndexesOf(b.txs);
    forall x ensures x in m <==> x in b.txIndexes {
      if x in b.txIndexes { assert b.txs[b.txIndexes[x]].index == x; }
      if x in m { assert b.txs[m[x]].index == x; }
    }
    forall x | x in m ensures m[x] == b.txIndexes[x] { assert b.txs[m[x]].index == x; }
  }

  function BlockPut(w: Wire): BlockTxs -> Bytes { (b: BlockTxs) => PutBlock(w, b) }
  function BlockGet(w: Wire): Bytes -> Read<BlockTxs> { (bs: Bytes) => GetBlock(w, bs) }

  lemma RecordsReadBack(w: Wire, rs: seq<TxRecord>, rest: Bytes)
    requires Lawful(w) && |rs| < TWO_32 && forall j :: 0 <= j < |rs| ==> RecordFits(rs[j])
    ensures GetCounted(RecordGet(w), PutCounted(RecordPut(w), rs) + rest) == Done(AllAfterDisk(rs), rest)
  {
    forall j | 0 <= j < |rs| ensures ReadsBack(RecordPut(w), RecordGet(w), rs[j], AllAfterDisk(rs)[j]) {
      RecordReadsBack(w, rs[j]);
    }
    hide Lawful, RecordFits, ReadsBack, PutCounted, GetCounted, RecordPut, RecordGet;
    CountedReadBack(RecordPut(w), RecordGet(w), rs, AllAfterDisk(rs), rest);
  }

  function AllAfterDisk(rs: seq<TxRecord>): (s: seq<TxRecord>)
    ensures |s| == |rs|
  {
    seq(|rs|, j requires 0 <= j < |rs| => AfterDisk(rs[j]))
  }

  lemma BlockReadsBack(w: Wire, b: BlockTxs)
    requires Lawful(w) && BlockFits(b) && BlockOk(b)
    ensures ReadsBack(BlockPut(w), BlockGet(w), b, b)
  {
    IndexesRebuilt(b);
    assert AllAfterDisk(b.txs) == b.txs;
    hide Lawful, BlockOk, AllAfterDisk, PutHeader, GetHeader, PutCounted, GetCounted, RecordPut, RecordGet;
    forall rest ensures BlockGet(w)(BlockPut(w)(b) + rest) == Done(b, rest) {
      assert PutBlock(w, b) + rest == PutHeader(b) + (PutCounted(RecordPut(w), b.txs) + rest);
      HeaderReadsBack(b, PutCounted(RecordPut(w), b.txs) + rest);
      RecordsReadBack(w, b.txs, rest);
    }
  }

  /** blockIndexes, rebuilt. */
  function HeightsRead(bs: BlockList): Heights {
    if bs == [] then map[] else HeightsRead(bs[..|bs|-1])[bs[|bs|-1].info.height := |bs| - 1]
  }

  lemma {:induction false} HeightsReadHas(bs: BlockList)
    ensures forall h :: h in HeightsRead(bs) ==> HeightsRead(bs)[h] < |bs| && bs[HeightsRead(bs)[h]].info.height == h
    ensures forall i :: 0 <= i < |bs| ==> bs[i].info.height in HeightsRead(bs)
  {
    if bs != [] { HeightsReadHas(bs[..|bs|-1]); }
  }

  /** The height index is rebuilt exactly. */
  lemma HeightsRebuilt(bs: BlockList, ix: Heights)
    requires Indexed(bs, ix)
    ensures HeightsRead(bs) == ix
  {
    HeightsReadHas(bs);
    var m := HeightsRead(bs);
    forall h ensures h in m <==> h in ix {
      if h in ix { assert bs[ix[h]].info.height == h; }
      if h in m { assert bs[m[h]].info.height == h; }
    }
    forall h | h in m ensures m[h] == ix[h] { assert bs[m[h]].info.height == h; }
  }

  // ------------------------------------------------------ unconfirmed store

  /** A mined output the pool spends, with its spender. */
  datatype SpentOut = SpentOut(op: OutPoint, key: BlockTxKey, spender: Hash)

  /** An unconfirmed output the pool spends, with its spender. */
  datatype SpentIn = SpentIn(op: OutPoint, spender: Hash)

  function PutOutPoint(op: OutPoint): (bs: Bytes)
    ensures |bs| == HASH_SIZE + 4
  {
    PutHash(op.hash) + PutUint32(op.index)
  }

  function GetOutPoint(bs: Bytes): Read<OutPoint> {
    match GetHash(bs)
    case Failed(e) => Failed(e)
    case Done(h, r0) =>
      match Uint32(r0)
      case Failed(e) => Failed(e)
      case Done(i, r1) => Done(OutPoint(h, i), r1)
  }

  predicate OutPointFits(op: OutPoint) { IsHash(op.hash) && IsUint32(op.index) }

  lemma OutPointReadsBack(op: OutPoint, rest: Bytes)
    requires OutPointFits(op)
    ensures GetOutPoint(PutOutPoint(op) + rest) == Done(op, rest)
  {
    assert PutOutPoint(op) + rest == PutHash(op.hash) + (PutUint32(op.index) + rest);
    HashRoundTrip(op.hash, PutUint32(op.index) + rest);
    Uint32RoundTrip(op.index, rest);
    hide PutHash, GetHash, PutUint32, Uint32;
  }

  /** The hash of a transaction that is among those already read. */
  function GetSpender(txs: Pool, bs: Bytes): Read<Hash> {
    match GetHash(bs)
    case Failed(e) => Failed(e)
    case Done(h, rest) => if h in txs then Done(h, rest) else Failed(MissingTxRecord)
  }

  function PutSpentOut(e: SpentOut): Bytes {
    PutOutPoint(e.op) + (PutTxKey(e.key) + PutHash(e.spender))
  }

  function GetSpentOut(txs: Pool, bs: Bytes): Read<SpentOut> {
    match GetOutPoint(bs)
    case Failed(e) => Failed(e)
    case Done(op, r0) =>
      match GetTxKey(r0)
      case Failed(e) => Failed(e)
      case Done(k, r1) =>
        match GetSpender(txs, r1)
        case Failed(e) => Failed(e)
        case Done(h, r2) => Done(SpentOut(op, k, h), r2)
  }

  function PutSpentIn(e: SpentIn): Bytes {
    PutOutPoint(e.op) + PutHash(e.spender)
  }

  function GetSpentIn(txs: Pool, bs: Bytes): Read<SpentIn> {
    match GetOutPoint(bs)
    case Failed(e) => Failed(e)
    case Done(op, r0) =>
      match GetSpender(txs, r0)
      case Failed(e) => Failed(e)
      case Done(h, r1) => Done(SpentIn(op, h), r1)
  }

  function SpentOutGet(txs: Pool): Bytes -> Read<SpentOut> { (bs: Bytes) => GetSpentOut(txs, bs) }
  function SpentInGet(txs: Pool): Bytes -> Read<SpentIn> { (bs: Bytes) => GetSpentIn(txs, bs) }

  lemma SpentOutReadsBack(txs: Pool, e: SpentOut)
    requires OutPointFits(e.op) && KeyFits(e.key) && IsHash(e.spender) && e.spender in txs
    ensures ReadsBack(PutSpentOut, SpentOutGet(txs), e, e)
  {
    TxKeyReadsBack(e.key);
    hide PutOutPoint, GetOutPoint, PutTxKey, GetTxKey, PutHash, GetHash;
    forall rest ensures SpentOutGet(txs)(PutSpentOut(e) + rest) == Done(e, rest) {
      var a := PutHash(e.spender) + rest;
      assert PutSpentOut(e) + rest == PutOutPoint(e.op) + (PutTxKey(e.key) + a);
      OutPointReadsBack(e.op, PutTxKey(e.key) + a);
      HashRoundTrip(e.spender, rest);
    }
  }

  lemma SpentInReadsBack(txs: Pool, e: SpentIn)
    requires OutPointFits(e.op) && IsHash(e.spender) && e.spender in txs
    ensures ReadsBack(PutSpentIn, SpentInGet(txs), e, e)
  {
    hide PutOutPoint, GetOutPoint, PutHash, GetHash;
    forall rest ensures SpentInGet(txs)(PutSpentIn(e) + rest) == Done(e, rest) {
      var a := PutHash(e.spender) + rest;
      assert PutSpentIn(e) + rest == PutOutPoint(e.op) + a;
      OutPointReadsBack(e.op, a);
      HashRoundTrip(e.spender, rest);
    }
  }

  // -------------------------------------------------- maps from entries read

  function HashEntries(rs: seq<TxRecord>): (es: seq<(Hash, TxRecord)>)
    ensures |es| == |rs|
  {
    seq(|rs|, i requires 0 <= i < |rs| => (rs[i].tx.hash, rs[i]))
  }

  function OutEntries(es: seq<SpentOut>): (r: seq<(BlockOutputKey, Hash)>)
    ensures |r| == |es|
  {
    seq(|es|, i requires 0 <= i < |es| => (BlockOutputKey(es[i].key, es[i].op.index), es[i].spender))
  }

  function KeyEntries(es: seq<SpentOut>): (r: seq<(OutPoint, BlockOutputKey)>)
    ensures |r| == |es|
  {
    seq(|es|, i requires 0 <= i < |es| => (es[i].op, BlockOutputKey(es[i].key, es[i].op.index)))
  }

  function InEntries(es: seq<SpentIn>): (r: seq<(OutPoint, Hash)>)
    ensures |r| == |es|
  {
    seq(|es|, i requires 0 <= i < |es| => (es[i].op, es[i].spender))
  }

  /** The input index, rebuilt from the records. */
  function PreviousOf(rs: seq<TxRecord>): map<OutPoint, Hash> {
    if rs == [] then map[] else
    var r := rs[|rs|-1];
    PreviousOf(rs[..|rs|-1]) + map op | op in Inputs(r) :: r.tx.hash
  }

  datatype PoolMaps = PoolMaps(
    txs: Pool,
    spentOuts: map<BlockOutputKey, Hash>,
    spentKeys: map<OutPoint, BlockOutputKey>,
    spentUnconf: map<OutPoint, Hash>,
    prevOuts: map<OutPoint, Hash>)

  function PutPool(w: Wire, rs: seq<TxRecord>, es: seq<SpentOut>, fs: seq<SpentIn>): Bytes {
    PutCounted(RecordPut(w), rs) + (PutCounted(PutSpentOut, es) + PutCounted(PutSpentIn, fs))
  }

  function GetPool(w: Wire, bs: Bytes): Read<PoolMaps> {
    match GetCounted(RecordGet(w), bs)
    case Failed(e) => Failed(e)
    case Done(rs, r0) =>
      var txs := MapOf(HashEntries(rs));
      match GetCounted(SpentOutGet(txs), r0)
      case Failed(e) => Failed(e)
      case Done(es, r1) =>
        match GetCounted(SpentInGet(txs), r1)
        case Failed(e) => Failed(e)
        case Done(fs, r2) =>
          Done(PoolMaps(txs, MapOf(OutEntries(es)), MapOf(KeyEntries(es)), MapOf(InEntries(fs)), PreviousOf(rs)), r2)
  }

  // ------------------------------------------------------- writing the maps

  ghost predicate ListsKeys<K(!new), V>(ks: seq<K>, m: map<K, V>) {
    NoDup(ks) && forall k :: k in ks <==> k in m
  }

  /** The records to write, in the order hs. */
  function RecordsOf(txs: Pool, hs: seq<Hash>): (rs: seq<TxRecord>)
    requires forall h :: h in hs ==> h in txs
    ensures |rs| == |hs|
  {
    seq(|hs|, i requires 0 <= i < |hs| => txs[hs[i]])
  }

  function SpentOutsOf(outs: map<BlockOutputKey, Hash>, keys: map<OutPoint, BlockOutputKey>,
      ops: seq<OutPoint>): (es: seq<SpentOut>)
    requires forall op :: op in ops ==> op in keys && keys[op] in outs
    ensures |es| == |ops|
  {
    seq(|ops|, i requires 0 <= i < |ops| => SpentOut(ops[i], keys[ops[i]].tx, outs[keys[ops[i]]]))
  }

  function SpentInsOf(su: map<OutPoint, Hash>, ops: seq<OutPoint>): (es: seq<SpentIn>)
    requires forall op :: op in ops ==> op in su
    ensures |es| == |ops|
  {
    seq(|ops|, i requires 0 <= i < |ops| => SpentIn(ops[i], su[ops[i]]))
  }

  /** The pool's records as they are read back. */
  function PoolAfterDisk(txs: Pool): Pool {
    map h | h in txs :: AfterDisk(txs[h])
  }

  lemma RecordsRead(txs: Pool, hs: seq<Hash>)
    requires ListsKeys(hs, txs) && forall h :: h in txs ==> txs[h].tx.hash == h
    ensures var rs := AllAfterDisk(RecordsOf(txs, hs));
            forall i :: 0 <= i < |hs| ==>
                  hs[i] in txs && rs[i] == AfterDisk(txs[hs[i]]) && rs[i].tx == txs[hs[i]].tx && rs[i].tx.hash == hs[i]
  {
    forall i | 0 <= i < |hs| ensures hs[i] in txs { assert hs[i] in hs; }
  }

  lemma TxsRebuilt(txs: Pool, hs: seq<Hash>)
    requires ListsKeys(hs, txs) && forall h :: h in txs ==> txs[h].tx.hash == h
    ensures MapOf(HashEntries(AllAfterDisk(RecordsOf(txs, hs)))) == PoolAfterDisk(txs)
  {
    RecordsRead(txs, hs);
    var rs, m := AllAfterDisk(RecordsOf(txs, hs)), PoolAfterDisk(txs);
    hide RecordsOf, AllAfterDisk, AfterDisk;
    forall h | h in m ensures exists i :: 0 <= i < |rs| && HashEntries(rs)[i].0 == h {
      var i :| 0 <= i < |hs| && hs[i] == h;
      assert HashEntries(rs)[i].0 == h;
    }
    MapOfIs(HashEntries(rs), m);
  }

  lemma OutsRebuilt(m: Mined, outs: map<BlockOutputKey, Hash>, keys: map<OutPoint, BlockOutputKey>, ops: seq<OutPoint>)
    requires ListsKeys(ops, keys) && SpentOutsOk(m, outs, keys) && SpentKeysOk(m, outs, keys)
    ensures MapOf(OutEntries(SpentOutsOf(outs, keys, ops))) == outs
    ensures MapOf(KeyEntries(SpentOutsOf(outs, keys, ops))) == keys
  {
    var es := SpentOutsOf(outs, keys, ops);
    forall i | 0 <= i < |es|
      ensures KeyEntries(es)[i] == (ops[i], keys[ops[i]]) && OutEntries(es)[i] == (keys[ops[i]], outs[keys[ops[i]]])
      ensures ops[i] in keys && keys[ops[i]] in outs
    {
      assert ops[i] in ops && OpOf(m, keys[ops[i]]) == ops[i];
    }
    forall p | p in outs ensures exists i :: 0 <= i < |es| && OutEntries(es)[i].0 == p {
      var i :| 0 <= i < |ops| && ops[i] == OpOf(m, p);
      assert OutEntries(es)[i].0 == p;
    }
    forall op | op in keys ensures exists i :: 0 <= i < |es| && KeyEntries(es)[i].0 == op {
      var i :| 0 <= i < |ops| && ops[i] == op;
      assert KeyEntries(es)[i].0 == op;
    }
    MapOfIs(OutEntries(es), outs);
    MapOfIs(KeyEntries(es), keys);
  }

  lemma InsRebuilt(su: map<OutPoint, Hash>, ops: seq<OutPoint>)
    requires ListsKeys(ops, su)
    ensures MapOf(InEntries(SpentInsOf(su, ops))) == su
  {
    var es := InEntries(SpentInsOf(su, ops));
    forall i | 0 <= i < |es| ensures es[i].0 in su && su[es[i].0] == es[i].1 { assert ops[i] in ops; }
    forall op | op in su ensures exists i :: 0 <= i < |es| && es[i].0 == op {
      var i :| 0 <= i < |ops| && ops[i] == op;
      assert es[i].0 == op;
    }
    MapOfIs(es, su);
  }

  lemma {:induction false} PreviousOfHas(rs: seq<TxRecord>)
    ensures forall op :: op in PreviousOf(rs) ==>
              exists i :: 0 <= i < |rs| && op in rs[i].tx.inputs && rs[i].tx.hash == PreviousOf(rs)[op]
    ensures forall i, op :: 0 <= i < |rs| && op in rs[i].tx.inputs ==> op in PreviousOf(rs)
  {
    if rs != [] {
      var n := |rs| - 1;
      PreviousOfHas(rs[..n]);
      var m := PreviousOf(rs);
      forall op | op in m ensures exists i :: 0 <= i < |rs| && op in rs[i].tx.inputs && rs[i].tx.hash == m[op] {
        if op in Inputs(rs[n]) {
          assert op in rs[n].tx.inputs && rs[n].tx.hash == m[op];
        } else {
          var i :| 0 <= i < n && op in rs[..n][i].tx.inputs && rs[..n][i].tx.hash == PreviousOf(rs[..n])[op];
          assert op in rs[i].tx.inputs && rs[i].tx.hash == m[op];
        }
      }
      forall i, op | 0 <= i < |rs| && op in rs[i].tx.inputs ensures op in m {
        if i < n { assert op in rs[..n][i].tx.inputs; }
      }
    }
  }

  /** The input index is rebuilt exactly. */
  lemma PreviousRebuilt(txs: Pool, prev: map<OutPoint, Hash>, hs: seq<Hash>)
    requires ListsKeys(hs, txs) && PrevOutsOk(txs, prev) && forall h :: h in txs ==> txs[h].tx.hash == h
    ensures PreviousOf(AllAfterDisk(RecordsOf(txs, hs))) == prev
  {
    RecordsRead(txs, hs);
    var rs := AllAfterDisk(RecordsOf(txs, hs));
    hide AllAfterDisk, RecordsOf, PreviousOf, AfterDisk, PrevOutsOk;
    PreviousOfHas(rs);
    forall op | op in PreviousOf(rs) ensures op in prev && prev[op] == PreviousOf(rs)[op] {
      var i :| 0 <= i < |rs| && op in rs[i].tx.inputs && rs[i].tx.hash == PreviousOf(rs)[op];
      SpenderListed(txs, prev, hs[i], op);
    }
    forall op | op in prev ensures op in PreviousOf(rs) {
      InputListed(txs, prev, op);
      var i :| 0 <= i < |hs| && hs[i] == prev[op];
      assert op in rs[i].tx.inputs;
    }
  }

  lemma SpenderListed(txs: Pool, prev: map<OutPoint, Hash>, h: Hash, op: OutPoint)
    requires PrevOutsOk(txs, prev) && h in txs && op in txs[h].tx.inputs
    ensures op in prev && prev[op] == h
  {
  }

  lemma InputListed(txs: Pool, prev: map<OutPoint, Hash>, op: OutPoint)
    requires PrevOutsOk(txs, prev) && op in prev
    ensures prev[op] in txs && op in txs[prev[op]].tx.inputs
  {
  }
}
