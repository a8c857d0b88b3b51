/** Reading a written store gives the store back, and leaves alone whatever
    follows it in the stream. */
module StoreRoundTrip {
  import opened TxTypes
  import opened Ledgers
  import opened LedgerInv
  import opened Blocks
  import opened Detaching
  import opened ByteCodes
  import opened Codec
  import opened Maps
  import opened StoreCodec

  // --------------------------------------------------- the unspent map, rebuilt

  /** u with the unspent ones among the first n credits of r, mined at key. */
  function UnspentFrom(u: map<OutPoint, BlockTxKey>, r: TxRecord, key: BlockTxKey, n: nat): map<OutPoint, BlockTxKey>
    requires n <= |r.credits|
  {
    if n == 0 then u else
    var u' := UnspentFrom(u, r, key, n - 1);
    if r.credits[n-1].Some? && r.credits[n-1].value.spentBy.None? then u'[OutPoint(r.tx.hash, n - 1) := key] else u'
  }

  /** u with the unspent credits of the first n records of b that its index finds. */
  function UnspentFromBlock(u: map<OutPoint, BlockTxKey>, b: BlockTxs, n: nat): map<OutPoint, BlockTxKey>
    requires n <= |b.txs|
  {
    if n == 0 then u else
    var u', r := UnspentFromBlock(u, b, n - 1), b.txs[n-1];
    if r.index in b.txIndexes && b.txIndexes[r.index] == n - 1
    then UnspentFrom(u', r, BlockTxKey(r.index, b.info.height), |r.credits|) else u'
  }

  function UnspentOf(bs: BlockList): map<OutPoint, BlockTxKey> {
    if bs == [] then map[] else
    var b := bs[|bs|-1];
    UnspentFromBlock(UnspentOf(bs[..|bs|-1]), b, |b.txs|)
  }

  /** u lists only unspent credits, and all of those of the records ks. */
  ghost predicate Scanned(m: Mined, u: map<OutPoint, BlockTxKey>, ks: seq<BlockTxKey>) {
    && UnspentSound(m, u)
    && forall p :: IsCredit(m, p) && SpentBy(m, p) == None && p.tx in ks ==> OpOf(m, p) in u
  }

  lemma {:induction false} RecordScanned(m: Mined, u: map<OutPoint, BlockTxKey>, key: BlockTxKey, n: nat,
      ks: seq<BlockTxKey>)
    requires Scanned(m, u, ks) && key in m && n <= |m[key].credits|
    ensures var u' := UnspentFrom(u, m[key], key, n);
            && Scanned(m, u', ks)
            && forall p: BlockOutputKey :: IsCredit(m, p) && SpentBy(m, p) == None && p.tx == key && p.out < n ==>
                  OpOf(m, p) in u'
  {
    if n > 0 {
      RecordScanned(m, u, key, n - 1, ks);
      var u', op := UnspentFrom(u, m[key], key, n), OutPoint(m[key].tx.hash, n - 1);
      forall o | o in u' ensures UnspentAt(m, BlockOutputKey(u'[o], o.index), o) {
        if u'[o] != key || o != op {
          assert UnspentAt(m, BlockOutputKey(UnspentFrom(u, m[key], key, n - 1)[o], o.index), o);
        }
      }
    }
  }

  lemma ScannedNext(m: Mined, u: map<OutPoint, BlockTxKey>, key: BlockTxKey, ks: seq<BlockTxKey>)
    requires Scanned(m, u, ks) && key in m
    ensures Scanned(m, UnspentFrom(u, m[key], key, |m[key].credits|), ks + [key])
  {
    RecordScanned(m, u, key, |m[key].credits|, ks);
    hide UnspentFrom, UnspentSound;
  }

  lemma {:induction false} BlockScanned(m: Mined, u: map<OutPoint, BlockTxKey>, b: BlockTxs, n: nat,
      ks: seq<BlockTxKey>)
    requires BlockOk(b) && HoldsBlock(m, b) && n <= |b.txs| && Scanned(m, u, ks)
    ensures Scanned(m, UnspentFromBlock(u, b, n), ks + BlockKeys(b)[..n])
  {
    if n == 0 {
      assert ks + BlockKeys(b)[..0] == ks;
    } else {
      BlockScanned(m, u, b, n - 1, ks);
      BlockKeyAt(m, b, [], n - 1);
      var key := BlockTxKey(b.txs[n-1].index, b.info.height);
      assert ([] + BlockKeys(b))[n-1] == BlockKeys(b)[n-1];
      assert ks + BlockKeys(b)[..n] == (ks + BlockKeys(b)[..n-1]) + [key];
      hide Scanned, HoldsBlock, UnspentFrom, BlockKeys;
      ScannedNext(m, UnspentFromBlock(u, b, n - 1), key, ks + BlockKeys(b)[..n-1]);
    }
  }

  lemma {:induction false} BlocksScanned(m: Mined, bs: BlockList)
    requires forall i :: 0 <= i < |bs| ==> BlockOk(bs[i]) && HoldsBlock(m, bs[i])
    ensures Scanned(m, UnspentOf(bs), AllKeys(bs))
  {
    hide BlockOk, HoldsBlock, UnspentFromBlock, BlockKeys;
    if bs != [] {
      var b := bs[|bs|-1];
      BlocksScanned(m, bs[..|bs|-1]);
      BlockScanned(m, UnspentOf(bs[..|bs|-1]), b, |b.txs|, AllKeys(bs[..|bs|-1]));
      assert BlockKeys(b)[..|b.txs|] == BlockKeys(b);
    }
  }

  lemma UnspentUnique(m: Mined, txs: Pool, u: map<OutPoint, BlockTxKey>, v: map<OutPoint, BlockTxKey>)
    requires HashesOk(m, txs) && UnspentSound(m, u) && UnspentComplete(m, u) && UnspentSound(m, v)
    requires UnspentComplete(m, v)
    ensures u == v
  {
    forall op | op in u ensures op in v && v[op] == u[op] {
      assert UnspentAt(m, BlockOutputKey(u[op], op.index), op);
      assert UnspentAt(m, BlockOutputKey(v[op], op.index), op);
    }
    forall op | op in v ensures op in u {
      assert UnspentAt(m, BlockOutputKey(v[op], op.index), op);
    }
  }

  lemma BlockIsOk(bs: BlockList, ix: Heights, m: Mined, deltas: map<int, Amounts>, i: nat)
    requires Mirrors(bs, ix, m, deltas) && i < |bs|
    ensures BlockOk(bs[i])
  {
  }

  /** What is rebuilt is the exact scan of unspent mined credits: the unspent
      map as it was, just when that was complete. */
  lemma UnspentRebuilt(bs: BlockList, ix: Heights, l: Ledger)
    requires Mirrors(bs, ix, l.mined, l.deltas) && HashesOk(l.mined, l.txs) && UnspentSound(l.mined, l.unspent)
    ensures UnspentSound(l.mined, UnspentOf(bs)) && UnspentComplete(l.mined, UnspentOf(bs))
    ensures UnspentOf(bs) == l.unspent <==> UnspentComplete(l.mined, l.unspent)
  {
    hide Mirrors, HoldsBlock, BlockOk, HashesOk, UnspentOf, UnspentSound, BlockKeys, NoDup;
    forall i | 0 <= i < |bs| ensures BlockOk(bs[i]) && HoldsBlock(l.mined, bs[i]) {
      BlockKeysAre(bs, ix, l.mined, l.deltas, i);
      BlockIsOk(bs, ix, l.mined, l.deltas, i);
    }
    HeightsApart(bs, ix, l.mined, l.deltas);
    BlocksScanned(l.mined, bs);
    AllKeysAre(bs, ix, l.mined, l.deltas, 0, |bs|);
    assert bs[0..|bs|] == bs;
    if UnspentComplete(l.mined, l.unspent) { UnspentUnique(l.mined, l.txs, UnspentOf(bs), l.unspent); }
  }

  // -------------------------------------------------------------- the pool

  ghost predicate PoolFits(l: Ledger) {
    && |l.txs| < TWO_32 && |l.spentKeys| < TWO_32 && |l.spentUnconf| < TWO_32
    && (forall h :: h in l.txs ==> IsHash(h) && RecordFits(l.txs[h]))
    && (forall op :: op in l.spentKeys ==> OutPointFits(op) && KeyFits(l.spentKeys[op].tx))
    && (forall op :: op in l.spentUnconf ==> OutPointFits(op))
  }

  /** The orders in which the maps of l are written. */
  datatype Orders = Orders(hs: seq<Hash>, outs: seq<OutPoint>, ins: seq<OutPoint>)

  ghost predicate Orderly(l: Ledger, o: Orders) {
    ListsKeys(o.hs, l.txs) && ListsKeys(o.outs, l.spentKeys) && ListsKeys(o.ins, l.spentUnconf)
  }

  ghost predicate Spenders(l: Ledger) {
    && (forall op :: op in l.spentKeys ==>
          l.spentKeys[op] in l.spentOuts && l.spentOuts[l.spentKeys[op]] in l.txs && op.index == l.spentKeys[op].out)
    && (forall op :: op in l.spentUnconf ==> l.spentUnconf[op] in l.txs)
  }

  lemma LinkedSpenders(l: Ledger)
    requires Linked(l)
    ensures Spenders(l)
  {
    forall op | op in l.spentKeys
      ensures l.spentKeys[op] in l.spentOuts && l.spentOuts[l.spentKeys[op]] in l.txs && op.index == l.spentKeys[op].out
    {
      var p := l.spentKeys[op];
      assert OpOf(l.mined, p) == op && Spender(l.txs, l.spentOuts[p], OpOf(l.mined, p));
    }
    forall op | op in l.spentUnconf ensures l.spentUnconf[op] in l.txs { assert Spender(l.txs, l.spentUnconf[op], op); }
  }

  function PoolBytes(w: Wire, l: Ledger, o: Orders): Bytes
    requires (forall h :: h in o.hs ==> h in l.txs) && (forall op :: op in o.ins ==> op in l.spentUnconf)
    requires forall op :: op in o.outs ==> op in l.spentKeys && l.spentKeys[op] in l.spentOuts
  {
    PutPool(w, RecordsOf(l.txs, o.hs), SpentOutsOf(l.spentOuts, l.spentKeys, o.outs), SpentInsOf(l.spentUnconf, o.ins))
  }

  function PoolRead(l: Ledger): PoolMaps {
    PoolMaps(PoolAfterDisk(l.txs), l.spentOuts, l.spentKeys, l.spentUnconf, l.prevOuts)
  }

  lemma {:induction false} ListsLength<K(!new), V>(ks: seq<K>, m: map<K, V>)
    requires ListsKeys(ks, m)
    ensures |ks| == |m|
    decreases |ks|
  {
    if ks == [] {
      assert m == map[];
    } else {
      var n := |ks| - 1;
      assert ks == ks[..n] + [ks[n]];
      var rest := m - {ks[n]};
      assert forall k :: k in ks[..n] <==> k in rest;
      ListsLength(ks[..n], rest);
      assert rest.Keys == m.Keys - {ks[n]} && ks[n] in m.Keys;
      assert |rest.Keys| == |m.Keys| - 1;
    }
  }

  lemma OrderlyKnown(l: Ledger, o: Orders)
    requires Orderly(l, o) && Spenders(l)
    ensures (forall h :: h in o.hs ==> h in l.txs) && (forall op :: op in o.ins ==> op in l.spentUnconf)
    ensures forall op :: op in o.outs ==> op in l.spentKeys && l.spentKeys[op] in l.spentOuts
  {
  }

  lemma PoolTxsBack(w: Wire, l: Ledger, o: Orders, rest: Bytes)
    requires Lawful(w) && PoolFits(l) && Orderly(l, o)
    ensures var rs := RecordsOf(l.txs, o.hs);
            GetCounted(RecordGet(w), PutCounted(RecordPut(w), rs) + rest) == Done(AllAfterDisk(rs), rest)
  {
    ListsLength(o.hs, l.txs);
    var rs := RecordsOf(l.txs, o.hs);
    forall i | 0 <= i < |rs| ensures RecordFits(rs[i]) { assert o.hs[i] in o.hs; }
    hide Lawful, RecordFits, PutCounted, GetCounted, RecordPut, RecordGet, RecordsOf;
    RecordsReadBack(w, rs, rest);
  }

  lemma PoolOutsBack(l: Ledger, o: Orders, rest: Bytes)
    requires PoolFits(l) && Orderly(l, o) && Spenders(l)
    ensures var es, txs := SpentOutsOf(l.spentOuts, l.spentKeys, o.outs), PoolAfterDisk(l.txs);
            GetCounted(SpentOutGet(txs), PutCounted(PutSpentOut, es) + rest) == Done(es, rest)
  {
    ListsLength(o.outs, l.spentKeys);
    var es, txs := SpentOutsOf(l.spentOuts, l.spentKeys, o.outs), PoolAfterDisk(l.txs);
    forall i | 0 <= i < |es| ensures ReadsBack(PutSpentOut, SpentOutGet(txs), es[i], es[i]) {
      assert o.outs[i] in o.outs && l.spentOuts[l.spentKeys[o.outs[i]]] in l.txs;
      SpentOutReadsBack(txs, es[i]);
    }
    hide ReadsBack, PutCounted, GetCounted, SpentOutGet, PutSpentOut, SpentOutsOf, PoolAfterDisk;
    CountedReadBack(PutSpentOut, SpentOutGet(txs), es, es, rest);
  }

  lemma PoolInsBack(l: Ledger, o: Orders, rest: Bytes)
    requires PoolFits(l) && Orderly(l, o) && Spenders(l)
    ensures var fs, txs := SpentInsOf(l.spentUnconf, o.ins), PoolAfterDisk(l.txs);
            GetCounted(SpentInGet(txs), PutCounted(PutSpentIn, fs) + rest) == Done(fs, rest)
  {
    ListsLength(o.ins, l.spentUnconf);
    var fs, txs := SpentInsOf(l.spentUnconf, o.ins), PoolAfterDisk(l.txs);
    forall i | 0 <= i < |fs| ensures ReadsBack(PutSpentIn, SpentInGet(txs), fs[i], fs[i]) {
      assert o.ins[i] in o.ins && l.spentUnconf[o.ins[i]] in l.txs;
      SpentInReadsBack(txs, fs[i]);
    }
    hide ReadsBack, PutCounted, GetCounted, SpentInGet, PutSpentIn, SpentInsOf, PoolAfterDisk;
    CountedReadBack(PutSpentIn, SpentInGet(txs), fs, fs, rest);
  }

  lemma PoolMapsRebuilt(l: Ledger, o: Orders)
    requires Linked(l) && Orderly(l, o) && Spenders(l)
    ensures var rs, es, fs := AllAfterDisk(RecordsOf(l.txs, o.hs)), SpentOutsOf(l.spentOuts, l.spentKeys, o.outs),
        SpentInsOf(l.spentUnconf, o.ins);
            && MapOf(HashEntries(rs)) == PoolAfterDisk(l.txs)
            && PoolMaps(PoolAfterDisk(l.txs), MapOf(OutEntries(es)), MapOf(KeyEntries(es)), MapOf(InEntries(fs)),
                PreviousOf(rs)) == PoolRead(l)
  {
    hide MinedOk, HashesOk, UnspentSound, SpentByOk, SpendsOk, SpendersOk, SpentUnconfOk, MarksOk, PrevOutsOk;
    hide SpentOutsOk, SpentKeysOk, Spenders;
    assert forall h :: h in l.txs ==> l.txs[h].tx.hash == h;
    hide PoolOk, ListsKeys;
    hide HashEntries, OutEntries, KeyEntries, InEntries, MapOf, PreviousOf, RecordsOf, SpentOutsOf, SpentInsOf;
    hide PoolAfterDisk, AllAfterDisk;
    TxsRebuilt(l.txs, o.hs);
    OutsRebuilt(l.mined, l.spentOuts, l.spentKeys, o.outs);
    InsRebuilt(l.spentUnconf, o.ins);
    PreviousRebuilt(l.txs, l.prevOuts, o.hs);
  }

  lemma PoolBytesParts(w: Wire, l: Ledger, o: Orders, rest: Bytes)
    requires Orderly(l, o) && Spenders(l)
    ensures var rs, es, fs := RecordsOf(l.txs, o.hs), SpentOutsOf(l.spentOuts, l.spentKeys, o.outs),
        SpentInsOf(l.spentUnconf, o.ins);
            PoolBytes(w, l, o) + rest == PutCounted(RecordPut(w), rs)
                + (PutCounted(PutSpentOut, es) + (PutCounted(PutSpentIn, fs) + rest))
  {
    hide PutCounted, RecordPut, PutSpentOut, PutSpentIn, RecordsOf, SpentOutsOf, SpentInsOf;
  }

  lemma GetPoolParts(w: Wire, a: Bytes, rs: seq<TxRecord>, b: Bytes, es: seq<SpentOut>, c: Bytes, fs: seq<SpentIn>,
      rest: Bytes)
    requires GetCounted(RecordGet(w), a) == Done(rs, b)
    requires GetCounted(SpentOutGet(MapOf(HashEntries(rs))), b) == Done(es, c)
    requires GetCounted(SpentInGet(MapOf(HashEntries(rs))), c) == Done(fs, rest)
    ensures GetPool(w, a) ==
      Done(PoolMaps(MapOf(HashEntries(rs)), MapOf(OutEntries(es)), MapOf(KeyEntries(es)), MapOf(InEntries(fs)),
          PreviousOf(rs)), rest)
  {
    hide GetCounted, RecordGet, SpentOutGet, SpentInGet, HashEntries, OutEntries, KeyEntries, InEntries, MapOf;
    hide PreviousOf;
  }

  /** The pool is read back with its input index rebuilt, whatever the order in
      which its maps were written; only record indexes differ. */
  lemma PoolReadsBack(w: Wire, l: Ledger, o: Orders, rest: Bytes)
    requires Lawful(w) && Linked(l) && PoolFits(l) && Orderly(l, o)
    ensures Spenders(l) && GetPool(w, PoolBytes(w, l, o) + rest) == Done(PoolRead(l), rest)
  {
    LinkedSpenders(l);
    hide Linked, Lawful, PoolFits, Orderly, Spenders, GetPool, PoolBytes, PoolRead, PutCounted, GetCounted, RecordPut;
    hide RecordGet, SpentOutGet, SpentInGet;
    hide PutSpentOut, PutSpentIn, HashEntries, OutEntries, KeyEntries, InEntries, MapOf, PreviousOf, RecordsOf;
    hide SpentOutsOf, SpentInsOf, PoolAfterDisk, AllAfterDisk;
    OrderlyKnown(l, o);
    var rs, es, fs := RecordsOf(l.txs,
      o.hs), SpentOutsOf(l.spentOuts, l.spentKeys, o.outs), SpentInsOf(l.spentUnconf, o.ins);
    var c := PutCounted(PutSpentIn, fs) + rest;
    var b := PutCounted(PutSpentOut, es) + c;
    PoolBytesParts(w, l, o, rest);
    PoolTxsBack(w, l, o, b);
    PoolOutsBack(l, o, c);
    PoolInsBack(l, o, rest);
    PoolMapsRebuilt(l, o);
    GetPoolParts(w, PutCounted(RecordPut(w), rs) + b, AllAfterDisk(rs), b, es, c, fs, rest);
  }

  // ------------------------------------------------------------- the store

  const VERS_FAST_REWRITE := 4
  const VERS_CURRENT := VERS_FAST_REWRITE

  /** What a store file is read into. */
  datatype Saved = Saved(blocks: BlockList, blockIndexes: Heights, unspent: map<OutPoint, BlockTxKey>, pool: PoolMaps)

  function PutStore(w: Wire, bs: BlockList, l: Ledger, o: Orders): Bytes
    requires (forall h :: h in o.hs ==> h in l.txs) && (forall op :: op in o.ins ==> op in l.spentUnconf)
    requires forall op :: op in o.outs ==> op in l.spentKeys && l.spentKeys[op] in l.spentOuts
  {
    PutUint32(VERS_CURRENT) + (PutCounted(BlockPut(w), bs) + PoolBytes(w, l, o))
  }

  function GetStore(w: Wire, bs: Bytes): Read<Saved> {
    match Uint32(bs)
    case Failed(e) => Failed(e)
    case Done(vers, r0) =>
      if vers < VERS_FAST_REWRITE then Failed(UnsupportedVersion) else
      match GetCounted(BlockGet(w), r0)
      case Failed(e) => Failed(e)
      case Done(blocks, r1) =>
        match GetPool(w, r1)
        case Failed(e) => Failed(e)
        case Done(pool, r2) => Done(Saved(blocks, HeightsRead(blocks), UnspentOf(blocks), pool), r2)
  }

  ghost predicate BlocksFit(bs: BlockList) {
    |bs| < TWO_32 && forall i :: 0 <= i < |bs| ==> BlockFits(bs[i])
  }

  lemma BlocksReadBack(w: Wire, bs: BlockList, rest: Bytes)
    requires Lawful(w) && BlocksFit(bs) && forall i :: 0 <= i < |bs| ==> BlockOk(bs[i])
    ensures GetCounted(BlockGet(w), PutCounted(BlockPut(w), bs) + rest) == Done(bs, rest)
  {
    hide Lawful, BlockOk, BlockFits, ReadsBack, PutCounted, GetCounted, BlockPut, BlockGet;
    forall i | 0 <= i < |bs| ensures ReadsBack(BlockPut(w), BlockGet(w), bs[i], bs[i]) { BlockReadsBack(w, bs[i]); }
    CountedReadBack(BlockPut(w), BlockGet(w), bs, bs, rest);
  }

  lemma GetStoreParts(w: Wire, a: Bytes, b: Bytes, bs: BlockList, c: Bytes, pool: PoolMaps, rest: Bytes)
    requires Uint32(a) == Done(VERS_CURRENT, b) && GetCounted(BlockGet(w), b) == Done(bs, c)
    requires GetPool(w, c) == Done(pool, rest)
    ensures GetStore(w, a) == Done(Saved(bs, HeightsRead(bs), UnspentOf(bs), pool), rest)
  {
    hide Uint32, GetCounted, GetPool, HeightsRead, UnspentOf;
  }

  lemma PutStoreParts(w: Wire, bs: BlockList, l: Ledger, o: Orders, rest: Bytes)
    requires Orderly(l, o) && Spenders(l)
    ensures PutStore(w, bs, l, o) + rest
              == PutUint32(VERS_CURRENT) + (PutCounted(BlockPut(w), bs) + (PoolBytes(w, l, o) + rest))
  {
    OrderlyKnown(l, o);
    hide PutUint32, PutCounted, PoolBytes, BlockPut;
  }

  lemma BlocksKnown(bs: BlockList, ix: Heights, m: Mined, deltas: map<int, Amounts>)
    requires Mirrors(bs, ix, m, deltas) && InUse(ix, |bs|)
    ensures Indexed(bs, ix) && forall i :: 0 <= i < |bs| ==> BlockOk(bs[i])
  {
    LiveAll(ix, |bs|);
  }

  /** A linked store whose numbers fit their fields is read back from its own
      bytes with every index and map rebuilt, whatever follows in the stream;
      only the index of unconfirmed records comes back changed, and an unspent
      map that was incomplete comes back complete. */
  lemma StoreReadsBack(w: Wire, bs: BlockList, ix: Heights, l: Ledger, o: Orders, rest: Bytes)
    requires Lawful(w) && Mirrors(bs, ix, l.mined, l.deltas) && InUse(ix, |bs|) && Linked(l)
    requires BlocksFit(bs) && PoolFits(l) && Orderly(l, o)
    ensures Spenders(l)
    ensures GetStore(w, PutStore(w, bs, l, o) + rest) == Done(Saved(bs, ix, UnspentOf(bs), PoolRead(l)), rest)
    ensures UnspentSound(l.mined, UnspentOf(bs)) && UnspentComplete(l.mined, UnspentOf(bs))
    ensures UnspentOf(bs) == l.unspent <==> UnspentComplete(l.mined, l.unspent)
  {
    hide MinedOk, PoolOk, HashesOk, UnspentSound, SpentByOk, SpendsOk, SpendersOk, SpentUnconfOk, MarksOk, PrevOutsOk;
    hide SpentOutsOk, SpentKeysOk, UnspentComplete;
    hide Lawful, PoolFits, BlocksFit, Mirrors, Indexed, BlockOk, PutCounted, GetCounted, PutUint32, Uint32, GetPool;
    hide PoolRead, BlockPut, BlockGet;
    hide Orderly, Spenders, GetStore, PutStore, PoolBytes, UnspentOf, HeightsRead;
    LinkedSpenders(l);
    OrderlyKnown(l, o);
    BlocksKnown(bs, ix, l.mined, l.deltas);
    var b := PoolBytes(w, l, o) + rest;
    var a := PutCounted(BlockPut(w), bs) + b;
    PutStoreParts(w, bs, l, o, rest);
    Uint32RoundTrip(VERS_CURRENT, a);
    BlocksReadBack(w, bs, b);
    PoolReadsBack(w, l, o, rest);
    GetStoreParts(w, PutUint32(VERS_CURRENT) + a, a, bs, b, PoolRead(l), rest);
    HeightsRebuilt(bs, ix);
    UnspentRebuilt(bs, ix, l);
  }

  /** The pool comes back unchanged only when it is empty: every record's index
      changes. */
  lemma PoolUnchangedIff(txs: Pool)
    requires PoolOk(txs)
    ensures PoolAfterDisk(txs) == txs <==> txs == map[]
  {
    if txs != map[] {
      var h :| h in txs;
      IndexAfterDisk(txs[h]);
      assert PoolAfterDisk(txs)[h].index != txs[h].index;
    }
  }
}
