/** Reading and writing a store through streams, one value after another, with
    the running count of bytes. */
module StoreIO {
  import opened TxTypes
  import opened Ledgers
  import opened LedgerInv
  import opened Blocks
  import opened ByteCodes
  import opened Codec
  import opened Maps
  import opened StoreCodec
  import opened StoreRoundTrip
  import opened Layout
  import opened Stores

  datatype Outcome<+T> = Good(value: T) | Bad(error: ReadError)

  /** What a reader that was at `before`, returned res and is now at `after`
      having counted n bytes has done, when it is to do spec. */
  ghost predicate Follows<T>(spec: Read<T>, res: Outcome<T>, before: Bytes, after: Bytes, n: int) {
    && n == |before| - |after|
    && match spec
       case Done(x, rest) => res == Good(x) && after == rest
       case Failed(e) => res == Bad(e)
  }

  class Reader {
    var data: Bytes

    constructor (bs: Bytes)
      ensures data == bs
    {
      data := bs;
    }

    /** Reads exactly k bytes; at the end of the stream what is left is lost. */
    method ReadFull(k: nat) returns (n: int, res: Outcome<Bytes>)
      modifies this
      ensures Follows(Take(old(data), k), res, old(data), data, n)
    {
      if |data| < k {
        n, res := |data|, Bad(ShortRead);
        data := [];
      } else {
        n, res := k, Good(data[..k]);
        data := data[k..];
      }
    }
  }

  class Writer {
    var written: Bytes

    constructor ()
      ensures written == []
    {
      written := [];
    }

    method Write(bs: Bytes) returns (n: int)
      modifies this
      ensures written == old(written) + bs && n == |bs|
    {
      written := written + bs;
      n := |bs|;
    }
  }

  // ------------------------------------------------------------ fixed sizes

  method ReadUint32(r: Reader) returns (n: int, res: Outcome<nat>)
    modifies r
    ensures Follows(Uint32(old(r.data)), res, old(r.data), r.data, n)
  {
    var b;
    n, b := r.ReadFull(4);
    if b.Bad? { return n, Bad(b.error); }
    return n, Good(FromLittleEndian(b.value));
  }

  method ReadInt32(r: Reader) returns (n: int, res: Outcome<int>)
    modifies r
    ensures Follows(Int32(old(r.data)), res, old(r.data), r.data, n)
  {
    var u;
    n, u := ReadUint32(r);
    if u.Bad? { return n, Bad(u.error); }
    return n, Good(if u.value < TWO_31 then u.value else u.value - TWO_32);
  }

  method ReadInt64(r: Reader) returns (n: int, res: Outcome<int>)
    modifies r
    ensures Follows(Int64(old(r.data)), res, old(r.data), r.data, n)
  {
    var b;
    n, b := r.ReadFull(8);
    if b.Bad? { return n, Bad(b.error); }
    var x := FromLittleEndian(b.value);
    return n, Good(if x < TWO_63 then x else x - TWO_64);
  }

  method ReadHash(r: Reader) returns (n: int, res: Outcome<nat>)
    modifies r
    ensures Follows(GetHash(old(r.data)), res, old(r.data), r.data, n)
  {
    var b;
    n, b := r.ReadFull(HASH_SIZE);
    if b.Bad? { return n, Bad(b.error); }
    return n, Good(FromLittleEndian(b.value));
  }

  method ReadByte(r: Reader) returns (n: int, res: Outcome<Byte>)
    modifies r
    ensures Follows(GetByte(old(r.data)), res, old(r.data), r.data, n)
  {
    var b;
    n, b := r.ReadFull(1);
    if b.Bad? { return n, Bad(b.error); }
    return n, Good(b.value[0]);
  }

  method ReadPointerByte(r: Reader) returns (n: int, res: Outcome<bool>)
    modifies r
    ensures Follows(GetPointerByte(old(r.data)), res, old(r.data), r.data, n)
  {
    var b;
    n, b := ReadByte(r);
    if b.Bad? { return n, Bad(b.error); }
    if b.value == NIL_POINTER { return n, Good(false); }
    if b.value == VALID_POINTER { return n, Good(true); }
    return n, Bad(BadPointerByte);
  }

  method ReadBoolByte(r: Reader) returns (n: int, res: Outcome<bool>)
    modifies r
    ensures Follows(GetBoolByte(old(r.data)), res, old(r.data), r.data, n)
  {
    var b;
    n, b := ReadByte(r);
    if b.Bad? { return n, Bad(b.error); }
    if b.value == FALSE_BYTE { return n, Good(false); }
    if b.value == TRUE_BYTE { return n, Good(true); }
    return n, Bad(BadBoolByte);
  }

  // ------------------------------------------------------------------- keys

  method ReadTxKey(r: Reader) returns (n: int, res: Outcome<BlockTxKey>)
    modifies r
    ensures Follows(GetTxKey(old(r.data)), res, old(r.data), r.data, n)
  {
    var index, height, k;
    n, index := ReadUint32(r);
    if index.Bad? { return n, Bad(index.error); }
    k, height := ReadInt32(r);
    n := n + k;
    if height.Bad? { return n, Bad(height.error); }
    return n, Good(BlockTxKey(index.value, height.value));
  }

  method WriteTxKey(w: Writer, key: BlockTxKey) returns (n: int)
    modifies w
    ensures w.written == old(w.written) + PutTxKey(key) && n == |PutTxKey(key)|
  {
    n := w.Write(PutUint32(key.index));
    var k := w.Write(PutUint32(key.height));
    n := n + k;
  }

  method ReadOutputKey(r: Reader) returns (n: int, res: Outcome<BlockOutputKey>)
    modifies r
    ensures Follows(GetOutputKey(old(r.data)), res, old(r.data), r.data, n)
  {
    var key, out, k;
    n, key := ReadTxKey(r);
    if key.Bad? { return n, Bad(key.error); }
    k, out := ReadUint32(r);
    n := n + k;
    if out.Bad? { return n, Bad(out.error); }
    return n, Good(BlockOutputKey(key.value, out.value));
  }

  method WriteOutputKey(w: Writer, p: BlockOutputKey) returns (n: int)
    modifies w
    ensures w.written == old(w.written) + PutOutputKey(p) && n == |PutOutputKey(p)|
  {
    n := WriteTxKey(w, p.tx);
    var k := w.Write(PutUint32(p.out));
    n := n + k;
  }

  // ----------------------------------------------------- credits and debits

  lemma {:induction false} GetAllFails<T>(get: Bytes -> Read<T>, i: nat, n: nat, bs: Bytes)
    requires i <= n && GetAll(get, i, bs).Failed?
    ensures GetAll(get, n, bs) == Failed(GetAll(get, i, bs).error)
  {
    if i < n { GetAllFails(get, i, n - 1, bs); }
  }

  lemma PutAllNext<T>(put: T -> Bytes, xs: seq<T>, i: nat)
    requires i < |xs|
    ensures PutAll(put, xs[..i+1]) == PutAll(put, xs[..i]) + put(xs[i])
  {
    assert xs[..i+1][..i] == xs[..i];
  }

  method ReadSpentBy(r: Reader) returns (n: int, res: Outcome<Option<BlockTxKey>>)
    modifies r
    ensures Follows(GetSpentBy(old(r.data)), res, old(r.data), r.data, n)
  {
    hide GetPointerByte, GetTxKey;
    var valid, key, k;
    n, valid := ReadPointerByte(r);
    if valid.Bad? { return n, Bad(valid.error); }
    if !valid.value { return n, Good(None); }
    k, key := ReadTxKey(r);
    n := n + k;
    if key.Bad? { return n, Bad(key.error); }
    return n, Good(Some(key.value));
  }

  method ReadCredit(r: Reader) returns (n: int, res: Outcome<Option<Credit>>)
    modifies r
    ensures Follows(GetCredit(old(r.data)), res, old(r.data), r.data, n)
  {
    hide GetPointerByte, GetBoolByte, GetByte, GetSpentBy;
    var valid, change, unused, spentBy, k;
    n, valid := ReadPointerByte(r);
    if valid.Bad? { return n, Bad(valid.error); }
    if !valid.value { return n, Good(None); }
    k, change := ReadBoolByte(r);
    n := n + k;
    if change.Bad? { return n, Bad(change.error); }
    k, unused := ReadByte(r);
    n := n + k;
    if unused.Bad? { return n, Bad(unused.error); }
    k, spentBy := ReadSpentBy(r);
    n := n + k;
    if spentBy.Bad? { return n, Bad(spentBy.error); }
    return n, Good(Some(Credit(change.value, spentBy.value)));
  }

  method WriteCredit(w: Writer, c: Option<Credit>) returns (n: int)
    modifies w
    ensures w.written == old(w.written) + PutCredit(c) && n == |PutCredit(c)|
  {
    if c.None? {
      n := w.Write([NIL_POINTER]);
    } else {
      n := w.Write([VALID_POINTER]);
      var k := w.Write([if c.value.change then TRUE_BYTE else FALSE_BYTE, 0]);
      n := n + k;
      if c.value.spentBy.None? {
        k := w.Write([NIL_POINTER]);
        n := n + k;
      } else {
        k := w.Write([VALID_POINTER]);
        n := n + k;
        k := WriteTxKey(w, c.value.spentBy.value);
        n := n + k;
      }
    }
  }

  method ReadOutputKeys(r: Reader) returns (n: int, res: Outcome<seq<BlockOutputKey>>)
    modifies r
    ensures Follows(GetCounted(GetOutputKey, old(r.data)), res, old(r.data), r.data, n)
  {
    hide GetOutputKey, Uint32;
    var count;
    n, count := ReadUint32(r);
    if count.Bad? { return n, Bad(count.error); }
    ghost var start := r.data;
    var xs: seq<BlockOutputKey>, i := [], 0;
    while i < count.value
      invariant 0 <= i <= count.value && n == |old(r.data)| - |r.data|
      invariant GetAll(GetOutputKey, i, start) == Done(xs, r.data)
    {
      var k, x := ReadOutputKey(r);
      n := n + k;
      if x.Bad? {
        GetAllFails(GetOutputKey, i + 1, count.value, start);
        return n, Bad(x.error);
      }
      xs, i := xs + [x.value], i + 1;
    }
    return n, Good(xs);
  }

  method WriteOutputKeys(w: Writer, ps: seq<BlockOutputKey>) returns (n: int)
    modifies w
    ensures w.written == old(w.written) + PutCounted(PutOutputKey, ps) && n == |PutCounted(PutOutputKey, ps)|
  {
    hide PutOutputKey, PutUint32;
    n := w.Write(PutUint32(|ps|));
    var i := 0;
    while i < |ps|
      invariant 0 <= i <= |ps| && n == |w.written| - |old(w.written)|
      invariant w.written == old(w.written) + (PutUint32(|ps|) + PutAll(PutOutputKey, ps[..i]))
    {
      PutAllNext(PutOutputKey, ps, i);
      var k := WriteOutputKey(w, ps[i]);
      n, i := n + k, i + 1;
    }
    assert ps[..i] == ps;
  }

  method ReadDebits(r: Reader) returns (n: int, res: Outcome<Option<Debits>>)
    modifies r
    ensures Follows(GetDebits(old(r.data)), res, old(r.data), r.data, n)
  {
    hide GetPointerByte, Int64, GetCounted;
    var valid, amount, spends, k;
    n, valid := ReadPointerByte(r);
    if valid.Bad? { return n, Bad(valid.error); }
    if !valid.value { return n, Good(None); }
    k, amount := ReadInt64(r);
    n := n + k;
    if amount.Bad? { return n, Bad(amount.error); }
    k, spends := ReadOutputKeys(r);
    n := n + k;
    if spends.Bad? { return n, Bad(spends.error); }
    return n, Good(Some(Debits(amount.value, spends.value)));
  }

  method WriteDebits(w: Writer, d: Option<Debits>) returns (n: int)
    modifies w
    ensures w.written == old(w.written) + PutDebits(d) && n == |PutDebits(d)|
  {
    hide PutCounted, PutUint64;
    if d.None? {
      n := w.Write([NIL_POINTER]);
    } else {
      n := w.Write([VALID_POINTER]);
      var k := w.Write(PutUint64(d.value.amount));
      n := n + k;
      k := WriteOutputKeys(w, d.value.spends);
      n := n + k;
    }
  }

  method ReadCredits(r: Reader) returns (n: int, res: Outcome<seq<Option<Credit>>>)
    modifies r
    ensures Follows(GetCounted(GetCredit, old(r.data)), res, old(r.data), r.data, n)
  {
    hide GetCredit, Uint32;
    var count;
    n, count := ReadUint32(r);
    if count.Bad? { return n, Bad(count.error); }
    ghost var start := r.data;
    var xs: seq<Option<Credit>>, i := [], 0;
    while i < count.value
      invariant 0 <= i <= count.value && n == |old(r.data)| - |r.data|
      invariant GetAll(GetCredit, i, start) == Done(xs, r.data)
    {
      var k, x := ReadCredit(r);
      n := n + k;
      if x.Bad? {
        GetAllFails(GetCredit, i + 1, count.value, start);
        return n, Bad(x.error);
      }
      xs, i := xs + [x.value], i + 1;
    }
    return n, Good(xs);
  }

  method WriteCredits(w: Writer, cs: seq<Option<Credit>>) returns (n: int)
    modifies w
    ensures w.written == old(w.written) + PutCounted(PutCredit, cs) && n == |PutCounted(PutCredit, cs)|
  {
    hide PutCredit, PutUint32;
    n := w.Write(PutUint32(|cs|));
    var i := 0;
    while i < |cs|
      invariant 0 <= i <= |cs| && n == |w.written| - |old(w.written)|
      invariant w.written == old(w.written) + (PutUint32(|cs|) + PutAll(PutCredit, cs[..i]))
    {
      PutAllNext(PutCredit, cs, i);
      var k := WriteCredit(w, cs[i]);
      n, i := n + k, i + 1;
    }
    assert cs[..i] == cs;
  }

  // ---------------------------------------------------------------- records

  /** Reads one transaction; a reader that fails may have taken any prefix. */
  method ReadTx(wire: Wire, r: Reader) returns (n: int, res: Outcome<Tx>)
    modifies r
    ensures Follows(wire.get(old(r.data)), res, old(r.data), r.data, n)
  {
    var before := |r.data|;
    match wire.get(r.data)
    case Done(tx, rest) =>
      r.data := rest;
      return before - |rest|, Good(tx);
    case Failed(e) =>
      var k :| 0 <= k <= before;
      r.data := r.data[k..];
      return k, Bad(e);
  }

  method ReadRecord(wire: Wire, r: Reader) returns (n: int, res: Outcome<TxRecord>)
    modifies r
    ensures Follows(RecordGet(wire)(old(r.data)), res, old(r.data), r.data, n)
  {
    hide Uint32, GetDebits, GetCounted, Int64;
    var index, tx, debits, credits, received, k;
    n, index := ReadUint32(r);
    if index.Bad? { return n, Bad(index.error); }
    k, tx := ReadTx(wire, r);
    n := n + k;
    if tx.Bad? { return n, Bad(tx.error); }
    k, debits := ReadDebits(r);
    n := n + k;
    if debits.Bad? { return n, Bad(debits.error); }
    k, credits := ReadCredits(r);
    n := n + k;
    if credits.Bad? { return n, Bad(credits.error); }
    k, received := ReadInt64(r);
    n := n + k;
    if received.Bad? { return n, Bad(received.error); }
    return n, Good(TxRecord(tx.value, index.value, debits.value, credits.value, received.value));
  }

  method WriteRecord(wire: Wire, w: Writer, t: TxRecord) returns (n: int)
    modifies w
    ensures w.written == old(w.written) + PutRecord(wire, t) && n == |PutRecord(wire, t)|
  {
    hide PutUint32, PutDebits, PutCounted, PutUint64, PutRecord;
    RecordTail(wire, t, []);
    var k;
    n := w.Write(PutUint32(t.index));
    k := w.Write(wire.put(t.tx));
    n := n + k;
    k := WriteDebits(w, t.debits);
    n := n + k;
    k := WriteCredits(w, t.credits);
    n := n + k;
    k := w.Write(PutUint64(t.received));
    n := n + k;
    FiveParts(old(w.written), PutUint32(t.index), wire.put(t.tx), PutDebits(t.debits), PutCounted(PutCredit, t.credits),
      PutUint64(t.received));
    assert PutRecord(wire, t) + [] == PutRecord(wire, t) && PutUint64(t.received) + [] == PutUint64(t.received);
  }

  lemma FiveParts(s: Bytes, a: Bytes, b: Bytes, c: Bytes, d: Bytes, e: Bytes)
    ensures s + a + b + c + d + e == s + (a + (b + (c + (d + e))))
  {
    assert d + e == d + e && c + (d + e) == c + d + e;
  }

  // ----------------------------------------------------------------- blocks

  /** Reads the records of a block and rebuilds its index. */
  method ReadBlockRecords(wire: Wire, r: Reader) returns (n: int, res: Outcome<(seq<TxRecord>, map<int, nat>)>)
    modifies r
    ensures n == |old(r.data)| - |r.data|
    ensures match GetCounted(RecordGet(wire), old(r.data))
            case Done(rs, rest) => res == Good((rs, IndexesOf(rs))) && r.data == rest
            case Failed(e) => res == Bad(e)
  {
    hide RecordGet, Uint32;
    var count;
    n, count := ReadUint32(r);
    if count.Bad? { return n, Bad(count.error); }
    ghost var start := r.data;
    var rs: seq<TxRecord>, txIndexes: map<int, nat>, i := [], map[], 0;
    while i < count.value
      invariant 0 <= i <= count.value && i == |rs| && n == |old(r.data)| - |r.data|
      invariant GetAll(RecordGet(wire), i, start) == Done(rs, r.data) && txIndexes == IndexesOf(rs)
    {
      var k, t := ReadRecord(wire, r);
      n := n + k;
      if t.Bad? {
        GetAllFails(RecordGet(wire), i + 1, count.value, start);
        return n, Bad(t.error);
      }
      assert (rs + [t.value])[..i] == rs;
      txIndexes := txIndexes[t.value.index := i];
      rs, i := rs + [t.value], i + 1;
    }
    return n, Good((rs, txIndexes));
  }

  method ReadHeader(r: Reader) returns (n: int, res: Outcome<(BlockInfo, Amounts)>)
    modifies r
    ensures Follows(GetHeader(old(r.data)), res, old(r.data), r.data, n)
  {
    hide GetHash, Int64, Int32;
    var hash, time, height, spendable, reward, k;
    n, hash := ReadHash(r);
    if hash.Bad? { return n, Bad(hash.error); }
    k, time := ReadInt64(r);
    n := n + k;
    if time.Bad? { return n, Bad(time.error); }
    k, height := ReadInt32(r);
    n := n + k;
    if height.Bad? { return n, Bad(height.error); }
    k, spendable := ReadInt64(r);
    n := n + k;
    if spendable.Bad? { return n, Bad(spendable.error); }
    k, reward := ReadInt64(r);
    n := n + k;
    if reward.Bad? { return n, Bad(reward.error); }
    return n, Good((BlockInfo(hash.value, time.value, height.value), Amounts(spendable.value, reward.value)));
  }

  method ReadBlock(wire: Wire, r: Reader) returns (n: int, res: Outcome<BlockTxs>)
    modifies r
    ensures Follows(BlockGet(wire)(old(r.data)), res, old(r.data), r.data, n)
  {
    hide GetHeader, GetCounted;
    var header, records, k;
    n, header := ReadHeader(r);
    if header.Bad? { return n, Bad(header.error); }
    k, records := ReadBlockRecords(wire, r);
    n := n + k;
    if records.Bad? { return n, Bad(records.error); }
    return n, Good(BlockTxs(header.value.0, header.value.1, records.value.0, records.value.1));
  }

  method WriteRecords(wire: Wire, w: Writer, rs: seq<TxRecord>) returns (n: int)
    modifies w
    ensures w.written == old(w.written) + PutCounted(RecordPut(wire), rs) && n == |PutCounted(RecordPut(wire), rs)|
  {
    hide PutUint32, PutRecord;
    n := w.Write(PutUint32(|rs|));
    var i := 0;
    while i < |rs|
      invariant 0 <= i <= |rs| && n == |w.written| - |old(w.written)|
      invariant w.written == old(w.written) + (PutUint32(|rs|) + PutAll(RecordPut(wire), rs[..i]))
    {
      PutAllNext(RecordPut(wire), rs, i);
      assert RecordPut(wire)(rs[i]) == PutRecord(wire, rs[i]);
      var k := WriteRecord(wire, w, rs[i]);
      n, i := n + k, i + 1;
    }
    assert rs[..i] == rs;
  }

  method WriteHeader(w: Writer, b: BlockTxs) returns (n: int)
    modifies w
    ensures w.written == old(w.written) + PutHeader(b) && n == |PutHeader(b)|
  {
    hide PutHash, PutUint64, PutUint32;
    var k;
    n := w.Write(PutHash(b.info.hash));
    k := w.Write(PutUint64(b.info.time));
    n := n + k;
    k := w.Write(PutUint32(b.info.height));
    n := n + k;
    k := w.Write(PutUint64(b.amounts.spendable));
    n := n + k;
    k := w.Write(PutUint64(b.amounts.reward));
    n := n + k;
    FiveParts(old(w.written), PutHash(b.info.hash), PutUint64(b.info.time), PutUint32(b.info.height),
              PutUint64(b.amounts.spendable), PutUint64(b.amounts.reward));
  }

  method WriteBlock(wire: Wire, w: Writer, b: BlockTxs) returns (n: int)
    modifies w
    ensures w.written == old(w.written) + PutBlock(wire, b) && n == |PutBlock(wire, b)|
  {
    hide PutHeader, PutCounted;
    n := WriteHeader(w, b);
    var k := WriteRecords(wire, w, b.txs);
    n := n + k;
  }

  // ------------------------------------------------------- unconfirmed store

  lemma HashNext(rs: seq<TxRecord>, t: TxRecord)
    ensures MapOf(HashEntries(rs + [t])) == MapOf(HashEntries(rs))[t.tx.hash := t]
  {
    assert HashEntries(rs + [t]) == HashEntries(rs) + [(t.tx.hash, t)];
    MapOfNext(HashEntries(rs), (t.tx.hash, t));
  }

  lemma OutNext(es: seq<SpentOut>, e: SpentOut)
    ensures var p := BlockOutputKey(e.key, e.op.index);
            && MapOf(OutEntries(es + [e])) == MapOf(OutEntries(es))[p := e.spender]
            && MapOf(KeyEntries(es + [e])) == MapOf(KeyEntries(es))[e.op := p]
  {
    var p := BlockOutputKey(e.key, e.op.index);
    assert OutEntries(es + [e]) == OutEntries(es) + [(p, e.spender)];
    assert KeyEntries(es + [e]) == KeyEntries(es) + [(e.op, p)];
    MapOfNext(OutEntries(es), (p, e.spender));
    MapOfNext(KeyEntries(es), (e.op, p));
  }

  lemma InNext(es: seq<SpentIn>, e: SpentIn)
    ensures MapOf(InEntries(es + [e])) == MapOf(InEntries(es))[e.op := e.spender]
  {
    assert InEntries(es + [e]) == InEntries(es) + [(e.op, e.spender)];
    MapOfNext(InEntries(es), (e.op, e.spender));
  }

  method ReadOutPoint(r: Reader) returns (n: int, res: Outcome<OutPoint>)
    modifies r
    ensures Follows(GetOutPoint(old(r.data)), res, old(r.data), r.data, n)
  {
    hide GetHash, Uint32;
    var hash, index, k;
    n, hash := ReadHash(r);
    if hash.Bad? { return n, Bad(hash.error); }
    k, index := ReadUint32(r);
    n := n + k;
    if index.Bad? { return n, Bad(index.error); }
    return n, Good(OutPoint(hash.value, index.value));
  }

  method ReadSpender(r: Reader, txs: Pool) returns (n: int, res: Outcome<Hash>)
    modifies r
    ensures Follows(GetSpender(txs, old(r.data)), res, old(r.data), r.data, n)
  {
    hide GetHash;
    var h;
    n, h := ReadHash(r);
    if h.Bad? { return n, Bad(h.error); }
    if h.value !in txs { return n, Bad(MissingTxRecord); }
    return n, Good(h.value);
  }

  method ReadSpentOut(r: Reader, txs: Pool) returns (n: int, res: Outcome<SpentOut>)
    modifies r
    ensures Follows(SpentOutGet(txs)(old(r.data)), res, old(r.data), r.data, n)
  {
    hide GetOutPoint, GetTxKey, GetSpender;
    var op, key, spender, k;
    n, op := ReadOutPoint(r);
    if op.Bad? { return n, Bad(op.error); }
    k, key := ReadTxKey(r);
    n := n + k;
    if key.Bad? { return n, Bad(key.error); }
    k, spender := ReadSpender(r, txs);
    n := n + k;
    if spender.Bad? { return n, Bad(spender.error); }
    return n, Good(SpentOut(op.value, key.value, spender.value));
  }

  method ReadSpentIn(r: Reader, txs: Pool) returns (n: int, res: Outcome<SpentIn>)
    modifies r
    ensures Follows(SpentInGet(txs)(old(r.data)), res, old(r.data), r.data, n)
  {
    hide GetOutPoint, GetSpender;
    var op, spender, k;
    n, op := ReadOutPoint(r);
    if op.Bad? { return n, Bad(op.error); }
    k, spender := ReadSpender(r, txs);
    n := n + k;
    if spender.Bad? { return n, Bad(spender.error); }
    return n, Good(SpentIn(op.value, spender.value));
  }

  /** The unconfirmed records, and the map from their hashes. */
  method ReadPoolTxs(wire: Wire, r: Reader) returns (n: int, res: Outcome<(seq<TxRecord>, Pool)>)
    modifies r
    ensures n == |old(r.data)| - |r.data|
    ensures match GetCounted(RecordGet(wire), old(r.data))
            case Done(rs, rest) => res == Good((rs, MapOf(HashEntries(rs)))) && r.data == rest
            case Failed(e) => res == Bad(e)
  {
    hide RecordGet, Uint32, HashEntries;
    var count;
    n, count := ReadUint32(r);
    if count.Bad? { return n, Bad(count.error); }
    ghost var start := r.data;
    var rs: seq<TxRecord>, txs: Pool, i := [], map[], 0;
    assert HashEntries(rs) == [];
    while i < count.value
      invariant 0 <= i <= count.value && n == |old(r.data)| - |r.data|
      invariant GetAll(RecordGet(wire), i, start) == Done(rs, r.data) && txs == MapOf(HashEntries(rs))
    {
      var k, t := ReadRecord(wire, r);
      n := n + k;
      if t.Bad? {
        GetAllFails(RecordGet(wire), i + 1, count.value, start);
        return n, Bad(t.error);
      }
      HashNext(rs, t.value);
      txs := txs[t.value.tx.hash := t.value];
      rs, i := rs + [t.value], i + 1;
    }
    return n, Good((rs, txs));
  }

  /** The mined outputs the pool spends: both maps. */
  method ReadSpentOuts(r: Reader,
      txs: Pool) returns (n: int, res: Outcome<(map<BlockOutputKey, Hash>, map<OutPoint, BlockOutputKey>)>)
    modifies r
    ensures n == |old(r.data)| - |r.data|
    ensures match GetCounted(SpentOutGet(txs), old(r.data))
            case Done(es, rest) => res == Good((MapOf(OutEntries(es)), MapOf(KeyEntries(es)))) && r.data == rest
            case Failed(e) => res == Bad(e)
  {
    hide SpentOutGet, Uint32, OutEntries, KeyEntries;
    var count;
    n, count := ReadUint32(r);
    if count.Bad? { return n, Bad(count.error); }
    ghost var start := r.data;
    ghost var es: seq<SpentOut> := [];
    var outs: map<BlockOutputKey, Hash>, keys: map<OutPoint, BlockOutputKey>, i := map[], map[], 0;
    assert OutEntries(es) == [] && KeyEntries(es) == [];
    while i < count.value
      invariant 0 <= i <= count.value && n == |old(r.data)| - |r.data|
      invariant GetAll(SpentOutGet(txs), i, start) == Done(es, r.data)
      invariant outs == MapOf(OutEntries(es)) && keys == MapOf(KeyEntries(es))
    {
      var k, e := ReadSpentOut(r, txs);
      n := n + k;
      if e.Bad? {
        GetAllFails(SpentOutGet(txs), i + 1, count.value, start);
        return n, Bad(e.error);
      }
      OutNext(es, e.value);
      var opKey := BlockOutputKey(e.value.key, e.value.op.index);
      outs, keys := outs[opKey := e.value.spender], keys[e.value.op := opKey];
      es := es + [e.value];
      i := i + 1;
    }
    return n, Good((outs, keys));
  }

  /** The unconfirmed outputs the pool spends. */
  method ReadSpentIns(r: Reader, txs: Pool) returns (n: int, res: Outcome<map<OutPoint, Hash>>)
    modifies r
    ensures n == |old(r.data)| - |r.data|
    ensures match GetCounted(SpentInGet(txs), old(r.data))
            case Done(es, rest) => res == Good(MapOf(InEntries(es))) && r.data == rest
            case Failed(e) => res == Bad(e)
  {
    hide SpentInGet, Uint32, InEntries;
    var count;
    n, count := ReadUint32(r);
    if count.Bad? { return n, Bad(count.error); }
    ghost var start := r.data;
    ghost var es: seq<SpentIn> := [];
    var su: map<OutPoint, Hash>, i := map[], 0;
    assert InEntries(es) == [];
    while i < count.value
      invariant 0 <= i <= count.value && n == |old(r.data)| - |r.data|
      invariant GetAll(SpentInGet(txs), i, start) == Done(es, r.data) && su == MapOf(InEntries(es))
    {
      var k, e := ReadSpentIn(r, txs);
      n := n + k;
      if e.Bad? {
        GetAllFails(SpentInGet(txs), i + 1, count.value, start);
        return n, Bad(e.error);
      }
      InNext(es, e.value);
      su := su[e.value.op := e.value.spender];
      es := es + [e.value];
      i := i + 1;
    }
    return n, Good(su);
  }

  /** The input index with the inputs of one more record. */
  method AddPrevious(prev: map<OutPoint, Hash>, t: TxRecord) returns (res: map<OutPoint, Hash>)
    ensures res == prev + map op | op in Inputs(t) :: t.tx.hash
  {
    var ins, j := t.tx.inputs, 0;
    res := prev;
    while j < |ins|
      invariant 0 <= j <= |ins| && res == prev + map op | op in OpSet(ins[..j]) :: t.tx.hash
    {
      assert OpSet(ins[..j+1]) == OpSet(ins[..j]) + {ins[j]};
      res := res[ins[j] := t.tx.hash];
      j := j + 1;
    }
    assert OpSet(ins[..j]) == Inputs(t);
  }

  /** The input index of the records read. */
  method RebuildPrevious(rs: seq<TxRecord>) returns (prev: map<OutPoint, Hash>)
    ensures prev == PreviousOf(rs)
  {
    prev := map[];
    var i := 0;
    while i < |rs|
      invariant 0 <= i <= |rs| && prev == PreviousOf(rs[..i])
    {
      assert rs[..i+1][..i] == rs[..i];
      prev := AddPrevious(prev, rs[i]);
      i := i + 1;
    }
    assert rs[..i] == rs;
  }

  method ReadPool(wire: Wire, r: Reader) returns (n: int, res: Outcome<PoolMaps>)
    modifies r
    ensures Follows(GetPool(wire, old(r.data)), res, old(r.data), r.data, n)
  {
    hide GetCounted, MapOf, HashEntries, OutEntries, KeyEntries, InEntries, PreviousOf, RecordGet, SpentOutGet;
    hide SpentInGet;
    var records, outs, ins, k;
    n, records := ReadPoolTxs(wire, r);
    if records.Bad? { return n, Bad(records.error); }
    var txs := records.value.1;
    k, outs := ReadSpentOuts(r, txs);
    n := n + k;
    if outs.Bad? { return n, Bad(outs.error); }
    k, ins := ReadSpentIns(r, txs);
    n := n + k;
    if ins.Bad? { return n, Bad(ins.error); }
    var prev := RebuildPrevious(records.value.0);
    return n, Good(PoolMaps(txs, outs.value.0, outs.value.1, ins.value, prev));
  }

  // --------------------------------------------------------------- the store

  /** Adds the unspent credits of a record, mined at key, to the unspent map. */
  method AddUnspent(u: map<OutPoint, BlockTxKey>, t: TxRecord, key: BlockTxKey) returns (res: map<OutPoint, BlockTxKey>)
    ensures res == UnspentFrom(u, t, key, |t.credits|)
  {
    res := u;
    var i := 0;
    while i < |t.credits|
      invariant 0 <= i <= |t.credits| && res == UnspentFrom(u, t, key, i)
    {
      if t.credits[i].Some? && t.credits[i].value.spentBy.None? { res := res[OutPoint(t.tx.hash, i) := key]; }
      i := i + 1;
    }
  }

  /** Adds the unspent credits of a block's indexed records. */
  method AddBlockUnspent(u: map<OutPoint, BlockTxKey>, b: BlockTxs) returns (res: map<OutPoint, BlockTxKey>)
    ensures res == UnspentFromBlock(u, b, |b.txs|)
  {
    res := u;
    var i := 0;
    while i < |b.txs|
      invariant 0 <= i <= |b.txs| && res == UnspentFromBlock(u, b, i)
    {
      var t := b.txs[i];
      if t.index in b.txIndexes && b.txIndexes[t.index] == i {
        res := AddUnspent(res, t, BlockTxKey(t.index, b.info.height));
      }
      i := i + 1;
    }
  }

  /** Reads the blocks, rebuilding the height index and the unspent map. */
  method ReadBlocks(wire: Wire,
      r: Reader) returns (n: int, res: Outcome<(BlockList, Heights, map<OutPoint, BlockTxKey>)>)
    modifies r
    ensures n == |old(r.data)| - |r.data|
    ensures match GetCounted(BlockGet(wire), old(r.data))
            case Done(bs, rest) => res == Good((bs, HeightsRead(bs), UnspentOf(bs))) && r.data == rest
            case Failed(e) => res == Bad(e)
  {
    hide BlockGet, Uint32, UnspentFromBlock;
    var count;
    n, count := ReadUint32(r);
    if count.Bad? { return n, Bad(count.error); }
    ghost var start := r.data;
    var bs: BlockList, blockIndexes: Heights, unspent: map<OutPoint, BlockTxKey>, i := [], map[], map[], 0;
    while i < count.value
      invariant 0 <= i <= count.value && i == |bs| && n == |old(r.data)| - |r.data|
      invariant GetAll(BlockGet(wire), i, start) == Done(bs, r.data)
      invariant blockIndexes == HeightsRead(bs) && unspent == UnspentOf(bs)
    {
      var k, b := ReadBlock(wire, r);
      n := n + k;
      if b.Bad? {
        GetAllFails(BlockGet(wire), i + 1, count.value, start);
        return n, Bad(b.error);
      }
      assert (bs + [b.value])[..i] == bs;
      blockIndexes := blockIndexes[b.value.info.height := i];
      unspent := AddBlockUnspent(unspent, b.value);
      bs, i := bs + [b.value], i + 1;
    }
    return n, Good((bs, blockIndexes, unspent));
  }

  /** Reads a store.  n is the number of bytes taken, also on failure. */
  method ReadStore(wire: Wire, r: Reader) returns (n: int, res: Outcome<Saved>)
    modifies r
    ensures Follows(GetStore(wire, old(r.data)), res, old(r.data), r.data, n)
  {
    hide Uint32, GetCounted, BlockGet, GetPool, HeightsRead, UnspentOf;
    var vers, blocks, pool, k;
    n, vers := ReadUint32(r);
    if vers.Bad? { return n, Bad(vers.error); }
    if vers.value < VERS_FAST_REWRITE { return n, Bad(UnsupportedVersion); }
    k, blocks := ReadBlocks(wire, r);
    n := n + k;
    if blocks.Bad? { return n, Bad(blocks.error); }
    k, pool := ReadPool(wire, r);
    n := n + k;
    if pool.Bad? { return n, Bad(pool.error); }
    return n, Good(Saved(blocks.value.0, blocks.value.1, blocks.value.2, pool.value));
  }

  method WriteBlocks(wire: Wire, w: Writer, bs: BlockList) returns (n: int)
    modifies w
    ensures w.written == old(w.written) + PutCounted(BlockPut(wire), bs) && n == |PutCounted(BlockPut(wire), bs)|
  {
    hide PutUint32, PutBlock;
    n := w.Write(PutUint32(|bs|));
    var i := 0;
    while i < |bs|
      invariant 0 <= i <= |bs| && n == |w.written| - |old(w.written)|
      invariant w.written == old(w.written) + (PutUint32(|bs|) + PutAll(BlockPut(wire), bs[..i]))
    {
      PutAllNext(BlockPut(wire), bs, i);
      assert BlockPut(wire)(bs[i]) == PutBlock(wire, bs[i]);
      var k := WriteBlock(wire, w, bs[i]);
      n, i := n + k, i + 1;
    }
    assert bs[..i] == bs;
  }

  /** The keys of a map in the order a range over it happens to take. */
  method RangeKeys<K(==), V>(m: map<K, V>) returns (ks: seq<K>)
    ensures NoDup(ks) && forall k :: k in ks <==> k in m
  {
    var rest := m.Keys;
    ks := [];
    while rest != {}
      invariant rest <= m.Keys && NoDup(ks) && forall k :: k in ks <==> k in m && k !in rest
      decreases rest
    {
      var k :| k in rest;
      ks := ks + [k];
      rest := rest - {k};
    }
  }

  method WriteOutPoint(w: Writer, op: OutPoint) returns (n: int)
    modifies w
    ensures w.written == old(w.written) + PutOutPoint(op) && n == |PutOutPoint(op)|
  {
    n := w.Write(PutHash(op.hash));
    var k := w.Write(PutUint32(op.index));
    n := n + k;
  }

  /** Writes the pool's records in the order hs. */
  method WritePoolTxs(wire: Wire, w: Writer, txs: Pool, hs: seq<Hash>) returns (n: int)
    requires forall h :: h in hs ==> h in txs
    modifies w
    ensures w.written == old(w.written) + PutCounted(RecordPut(wire), RecordsOf(txs, hs))
    ensures n == |w.written| - |old(w.written)|
  {
    hide PutUint32, PutRecord;
    ghost var rs := RecordsOf(txs, hs);
    n := w.Write(PutUint32(|hs|));
    var i := 0;
    while i < |hs|
      invariant 0 <= i <= |hs| && n == |w.written| - |old(w.written)|
      invariant w.written == old(w.written) + (PutUint32(|hs|) + PutAll(RecordPut(wire), rs[..i]))
    {
      PutAllNext(RecordPut(wire), rs, i);
      assert hs[i] in hs && RecordPut(wire)(rs[i]) == PutRecord(wire, rs[i]);
      var k := WriteRecord(wire, w, txs[hs[i]]);
      n, i := n + k, i + 1;
    }
    assert rs[..i] == rs;
  }

  /** Writes the spent mined outputs in the order ops; fails if the two maps
      disagree. */
  method WriteSpentOuts(w: Writer, outs: map<BlockOutputKey, Hash>, keys: map<OutPoint, BlockOutputKey>,
      ops: seq<OutPoint>)
    returns (n: int, ok: bool)
    requires forall op :: op in ops ==> op in keys
    modifies w
    ensures n == |w.written| - |old(w.written)|
    ensures ok <==> forall op :: op in ops ==> keys[op] in outs
    ensures ok ==> w.written == old(w.written) + PutCounted(PutSpentOut, SpentOutsOf(outs, keys, ops))
  {
    hide PutUint32, PutOutPoint, PutTxKey, PutHash;
    n := w.Write(PutUint32(|ops|));
    ghost var start := w.written;
    ghost var bytes: Bytes := [];
    var i := 0;
    while i < |ops|
      invariant 0 <= i <= |ops| && n == |w.written| - |old(w.written)|
      invariant forall op :: op in ops[..i] ==> op in keys && keys[op] in outs
      invariant w.written == start + PutAll(PutSpentOut, SpentOutsOf(outs, keys, ops[..i]))
    {
      var op := ops[i];
      assert op in ops && ops[..i+1] == ops[..i] + [op];
      var k := WriteOutPoint(w, op);
      n := n + k;
      k := WriteTxKey(w, keys[op].tx);
      n := n + k;
      if keys[op] !in outs { return n, false; }
      k := w.Write(PutHash(outs[keys[op]]));
      n := n + k;
      SpentOutsNext(outs, keys, ops, i);
      i := i + 1;
    }
    assert ops[..i] == ops;
    return n, true;
  }

  lemma SpentOutsNext(outs: map<BlockOutputKey, Hash>, keys: map<OutPoint, BlockOutputKey>, ops: seq<OutPoint>, i: nat)
    requires i < |ops| && forall op :: op in ops[..i+1] ==> op in keys && keys[op] in outs
    ensures (forall op :: op in ops[..i] ==> op in keys && keys[op] in outs) && ops[i] in keys && keys[ops[i]] in outs
    ensures PutAll(PutSpentOut, SpentOutsOf(outs, keys, ops[..i+1]))
        == PutAll(PutSpentOut, SpentOutsOf(outs, keys, ops[..i])) +
              (PutOutPoint(ops[i]) + PutTxKey(keys[ops[i]].tx) + PutHash(outs[keys[ops[i]]]))
  {
    hide PutOutPoint, PutTxKey, PutHash;
    assert ops[..i+1] == ops[..i] + [ops[i]] && ops[i] in ops[..i+1];
    forall op | op in ops[..i] ensures op in keys && keys[op] in outs { assert op in ops[..i+1]; }
    var es := SpentOutsOf(outs, keys, ops[..i+1]);
    assert es[..i] == SpentOutsOf(outs, keys, ops[..i]);
    PutAllNext(PutSpentOut, es, i);
    assert es[..i+1] == es;
  }

  method WriteSpentIns(w: Writer, su: map<OutPoint, Hash>, ops: seq<OutPoint>) returns (n: int)
    requires forall op :: op in ops ==> op in su
    modifies w
    ensures w.written == old(w.written) + PutCounted(PutSpentIn, SpentInsOf(su, ops))
    ensures n == |w.written| - |old(w.written)|
  {
    hide PutUint32, PutOutPoint, PutHash;
    ghost var es := SpentInsOf(su, ops);
    n := w.Write(PutUint32(|ops|));
    var i := 0;
    while i < |ops|
      invariant 0 <= i <= |ops| && n == |w.written| - |old(w.written)|
      invariant w.written == old(w.written) + (PutUint32(|ops|) + PutAll(PutSpentIn, es[..i]))
    {
      PutAllNext(PutSpentIn, es, i);
      assert ops[i] in ops && es[i] == SpentIn(ops[i], su[ops[i]]);
      var k := WriteOutPoint(w, ops[i]);
      n := n + k;
      k := w.Write(PutHash(su[ops[i]]));
      n := n + k;
      i := i + 1;
    }
    assert es[..i] == es;
  }

  /** The two maps of spent mined outputs can be written. */
  ghost predicate MapsMatch(l: Ledger) {
    |l.spentOuts| == |l.spentKeys| && forall op :: op in l.spentKeys ==> l.spentKeys[op] in l.spentOuts
  }

  /** Writes a store's blocks and pool.  It fails exactly when the two maps of
      spent mined outputs do not match.  The fields of a linked store whose
      numbers fit lie where the layout says. */
  method WriteStore(wire: Wire, w: Writer, s: Store) returns (n: int, ok: bool, ghost o: Orders)
    requires s.Valid()
    modifies w
    ensures n == |w.written| - |old(w.written)|
    ensures ok <==> MapsMatch(s.ledger)
    ensures ok ==> Orderly(s.ledger, o) && w.written == old(w.written) + PutStore(wire, s.blocks, s.ledger, o)
    ensures ok && Storable(s.blocks, s.ledger) ==>
      LaidOut(wire, w.written, |old(w.written)|, s.blocks, s.ledger, o)
  {
    hide Mirrors, PutUint32, PutCounted, LaidOut, Storable;
    o := Orders([], [], []);
    ghost var before := w.written;
    var blocks, txs, keys, outs, su := s.blocks, s.txs, s.spentBlockOutPointKeys, s.spentBlockOutPoints,
        s.spentUnconfirmed;
    var k, matched;
    n := w.Write(PutUint32(VERS_CURRENT));
    k := WriteBlocks(wire, w, blocks);
    n := n + k;
    var hs := RangeKeys(txs);
    k := WritePoolTxs(wire, w, txs, hs);
    n := n + k;
    if |outs| != |keys| { ok := false; return; }
    var ops := RangeKeys(keys);
    k, matched := WriteSpentOuts(w, outs, keys, ops);
    n := n + k;
    if !matched { ok := false; return; }
    var ins := RangeKeys(su);
    k := WriteSpentIns(w, su, ins);
    n := n + k;
    o := Orders(hs, ops, ins);
    FiveParts(before, PutUint32(VERS_CURRENT), PutCounted(BlockPut(wire), blocks),
        PutCounted(RecordPut(wire), RecordsOf(txs, hs)),
              PutCounted(PutSpentOut, SpentOutsOf(outs, keys, ops)), PutCounted(PutSpentIn, SpentInsOf(su, ins)));
    if Storable(s.blocks, s.ledger) {
      StoreLaidOut(wire, before, s.blocks, s.ledger, o);
    }
    ok := true;
  }

  /** In a store with two-way spend tracking the maps always match. */
  lemma LinkedMapsMatch(l: Ledger)
    requires SpentOutsOk(l.mined, l.spentOuts, l.spentKeys) && SpentKeysOk(l.mined, l.spentOuts, l.spentKeys)
    ensures MapsMatch(l)
  {
    SameSize(l.mined, l.spentOuts, l.spentKeys);
  }

  lemma {:induction false} SameSize(m: Mined, outs: map<BlockOutputKey, Hash>, keys: map<OutPoint, BlockOutputKey>)
    requires SpentOutsOk(m, outs, keys) && SpentKeysOk(m, outs, keys)
    ensures |outs| == |keys|
    decreases |keys|
  {
    if keys == map[] {
      assert forall p :: p in outs ==> p.tx in m && OpOf(m, p) in keys;
      assert outs == map[];
    } else {
      var op :| op in keys;
      var p := keys[op];
      SameSize(m, outs - {p}, keys - {op});
      assert (outs - {p}).Keys == outs.Keys - {p} && (keys - {op}).Keys == keys.Keys - {op};
      assert |outs.Keys| == |outs.Keys - {p}| + 1 && |keys.Keys| == |keys.Keys - {op}| + 1;
    }
  }

  /** Saving a linked store and loading the bytes, with anything after them,
      rebuilds every field and counts as many bytes read as written; the unspent
      map is the exact scan, whether or not it was before. */
  method SaveAndLoad(wire: Wire, s: Store, trailing: Bytes) returns (loaded: Saved, left: Bytes)
    requires Lawful(wire) && s.Valid() && s.Settled() && Linked(s.ledger) && BlocksFit(s.blocks) && PoolFits(s.ledger)
    ensures loaded == Saved(s.blocks, s.blockIndexes, loaded.unspent, PoolRead(s.ledger)) && left == trailing
    ensures UnspentSound(s.ledger.mined, loaded.unspent) && UnspentComplete(s.ledger.mined, loaded.unspent)
    ensures loaded.unspent == s.unspent <==> UnspentComplete(s.ledger.mined, s.unspent)
  {
    hide MinedOk, PoolOk, HashesOk, UnspentSound, SpentByOk, SpendsOk, SpendersOk, SpentUnconfOk, MarksOk, PrevOutsOk;
    hide SpentOutsOk, SpentKeysOk, UnspentComplete;
    hide Lawful, BlocksFit, PoolFits, Mirrors, Orderly, GetStore, PutStore, MapsMatch, PoolRead;
    LinkedMapsMatch(s.ledger);
    var w := new Writer();
    var written, ok;
    ghost var o;
    written, ok, o := WriteStore(wire, w, s);
    StoreReadsBack(wire, s.blocks, s.blockIndexes, s.ledger, o, trailing);
    OrderlyKnown(s.ledger, o);
    assert w.written == PutStore(wire, s.blocks, s.ledger, o);
    var r := new Reader(w.written + trailing);
    var read, res := ReadStore(wire, r);
    assert read == written;
    loaded, left := res.value, r.data;
  }
}
