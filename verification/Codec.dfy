/** The byte form of keys, credits, debits, records and blocks, and that reading
    undoes writing. */
module Codec {
  import opened TxTypes
  import opened Ledgers
  import opened Blocks
  import opened ByteCodes

  // ------------------------------------------------------- counted sequences

  function PutAll<T>(put: T -> Bytes, xs: seq<T>): Bytes {
    if xs == [] then [] else PutAll(put, xs[..|xs|-1]) + put(xs[|xs|-1])
  }

  function GetAll<T>(get: Bytes -> Read<T>, n: nat, bs: Bytes): Read<seq<T>> {
    if n == 0 then Done([], bs) else
    match GetAll(get, n - 1, bs)
    case Failed(e) => Failed(e)
    case Done(xs, rest) =>
      match get(rest)
      case Failed(e) => Failed(e)
      case Done(x, rest') => Done(xs + [x], rest')
  }

  /** x is read back as y, whatever follows it. */
  ghost predicate ReadsBack<T(!new)>(put: T -> Bytes, get: Bytes -> Read<T>, x: T, y: T) {
    forall rest :: get(put(x) + rest) == Done(y, rest)
  }

  lemma {:induction false} AllReadBack<T(!new)>(
    put: T -> Bytes, get: Bytes -> Read<T>, xs: seq<T>, ys: seq<T>, rest: Bytes)
    requires |ys| == |xs| && forall i :: 0 <= i < |xs| ==> ReadsBack(put, get, xs[i], ys[i])
    ensures GetAll(get, |xs|, PutAll(put, xs) + rest) == Done(ys, rest)
  {
    if xs != [] {
      var n := |xs| - 1;
      AllReadBack(put, get, xs[..n], ys[..n], put(xs[n]) + rest);
      assert PutAll(put, xs) + rest == PutAll(put, xs[..n]) + (put(xs[n]) + rest);
      assert ReadsBack(put, get, xs[n], ys[n]);
      assert ys[..n] + [ys[n]] == ys;
    } else {
      assert PutAll(put, xs) + rest == rest;
    }
  }

  /** A sequence preceded by its length. */
  function PutCounted<T>(put: T -> Bytes, xs: seq<T>): Bytes {
    PutUint32(|xs|) + PutAll(put, xs)
  }

  function GetCounted<T>(get: Bytes -> Read<T>, bs: Bytes): Read<seq<T>> {
    match Uint32(bs)
    case Failed(e) => Failed(e)
    case Done(n, rest) => GetAll(get, n, rest)
  }

  lemma CountedReadBack<T(!new)>(put: T -> Bytes, get: Bytes -> Read<T>, xs: seq<T>, ys: seq<T>, rest: Bytes)
    requires |ys| == |xs| < TWO_32 && forall i :: 0 <= i < |xs| ==> ReadsBack(put, get, xs[i], ys[i])
    ensures GetCounted(get, PutCounted(put, xs) + rest) == Done(ys, rest)
  {
    assert PutCounted(put, xs) + rest == PutUint32(|xs|) + (PutAll(put, xs) + rest);
    Uint32RoundTrip(|xs|, PutAll(put, xs) + rest);
    AllReadBack(put, get, xs, ys, rest);
  }

  // ----------------------------------------------------------------- keys

  predicate KeyFits(k: BlockTxKey) { IsUint32(k.index) && IsInt32(k.height) }

  function PutTxKey(k: BlockTxKey): (bs: Bytes)
    ensures |bs| == 8
  {
    PutUint32(k.index) + PutUint32(k.height)
  }

  function GetTxKey(bs: Bytes): Read<BlockTxKey> {
    match Uint32(bs)
    case Failed(e) => Failed(e)
    case Done(index, rest) =>
      match Int32(rest)
      case Failed(e) => Failed(e)
      case Done(height, rest') => Done(BlockTxKey(index, height), rest')
  }

  lemma TxKeyReadsBack(k: BlockTxKey)
    requires KeyFits(k)
    ensures ReadsBack(PutTxKey, GetTxKey, k, k)
  {
    forall rest ensures GetTxKey(PutTxKey(k) + rest) == Done(k, rest) {
      assert PutTxKey(k) + rest == PutUint32(k.index) + (PutUint32(k.height) + rest);
      Uint32RoundTrip(k.index, PutUint32(k.height) + rest);
      Int32RoundTrip(k.height, rest);
    }
  }

  predicate OutputKeyFits(p: BlockOutputKey) { KeyFits(p.tx) && IsUint32(p.out) }

  function PutOutputKey(p: BlockOutputKey): (bs: Bytes)
    ensures |bs| == 12
  {
    PutTxKey(p.tx) + PutUint32(p.out)
  }

  function GetOutputKey(bs: Bytes): Read<BlockOutputKey> {
    match GetTxKey(bs)
    case Failed(e) => Failed(e)
    case Done(k, rest) =>
      match Uint32(rest)
      case Failed(e) => Failed(e)
      case Done(out, rest') => Done(BlockOutputKey(k, out), rest')
  }

  lemma OutputKeyReadsBack(p: BlockOutputKey)
    requires OutputKeyFits(p)
    ensures ReadsBack(PutOutputKey, GetOutputKey, p, p)
  {
    TxKeyReadsBack(p.tx);
    hide PutTxKey, GetTxKey, PutUint32, Uint32;
    forall rest ensures GetOutputKey(PutOutputKey(p) + rest) == Done(p, rest) {
      assert PutOutputKey(p) + rest == PutTxKey(p.tx) + (PutUint32(p.out) + rest);
      Uint32RoundTrip(p.out, rest);
    }
  }

  // ------------------------------------------------------------ single bytes

  const NIL_POINTER: Byte := 0
  const VALID_POINTER: Byte := 1
  const FALSE_BYTE: Byte := 0
  const TRUE_BYTE: Byte := 1

  function GetByte(bs: Bytes): Read<Byte> {
    if bs == [] then Failed(ShortRead) else Done(bs[0], bs[1..])
  }

  function GetPointerByte(bs: Bytes): Read<bool> {
    match GetByte(bs)
    case Failed(e) => Failed(e)
    case Done(b, rest) =>
      if b == NIL_POINTER then Done(false, rest) else if b == VALID_POINTER then Done(true, rest)
        else Failed(BadPointerByte)
  }

  function GetBoolByte(bs: Bytes): Read<bool> {
    match GetByte(bs)
    case Failed(e) => Failed(e)
    case Done(b, rest) =>
      if b == FALSE_BYTE then Done(false, rest) else if b == TRUE_BYTE then Done(true, rest) else Failed(BadBoolByte)
  }

  // ------------------------------------------------------------- credits

  predicate CreditFits(c: Option<Credit>) {
    c.Some? && c.value.spentBy.Some? ==> KeyFits(c.value.spentBy.value)
  }

  function PutSpentBy(k: Option<BlockTxKey>): Bytes {
    match k case None => [NIL_POINTER] case Some(k) => [VALID_POINTER] + PutTxKey(k)
  }

  function GetSpentBy(bs: Bytes): Read<Option<BlockTxKey>> {
    match GetPointerByte(bs)
    case Failed(e) => Failed(e)
    case Done(valid, rest) =>
      if !valid then Done(None, rest) else
      match GetTxKey(rest)
      case Failed(e) => Failed(e)
      case Done(k, rest') => Done(Some(k), rest')
  }

  lemma SpentByReadsBack(k: Option<BlockTxKey>, rest: Bytes)
    requires k.Some? ==> KeyFits(k.value)
    ensures GetSpentBy(PutSpentBy(k) + rest) == Done(k, rest)
  {
    if k.Some? {
      var bs := PutSpentBy(k) + rest;
      assert bs[0] == VALID_POINTER && bs[1..] == PutTxKey(k.value) + rest;
      TxKeyReadsBack(k.value);
    } else {
      assert ([NIL_POINTER] + rest)[1..] == rest;
    }
  }

  /** A slot of the credit list; the byte after the change flag is unused. */
  function PutCredit(c: Option<Credit>): Bytes {
    match c
    case None => [NIL_POINTER]
    case Some(c) => [VALID_POINTER, if c.change then TRUE_BYTE else FALSE_BYTE, 0] + PutSpentBy(c.spentBy)
  }

  function GetCredit(bs: Bytes): Read<Option<Credit>> {
    match GetPointerByte(bs)
    case Failed(e) => Failed(e)
    case Done(valid, r0) =>
      if !valid then Done(None, r0) else
      match GetBoolByte(r0)
      case Failed(e) => Failed(e)
      case Done(change, r1) =>
        match GetByte(r1)
        case Failed(e) => Failed(e)
        case Done(_, r2) =>
          match GetSpentBy(r2)
          case Failed(e) => Failed(e)
          case Done(k, r3) => Done(Some(Credit(change, k)), r3)
  }

  lemma CreditReadsBack(c: Option<Credit>)
    requires CreditFits(c)
    ensures ReadsBack(PutCredit, GetCredit, c, c)
  {
    hide PutSpentBy, GetSpentBy, KeyFits;
    forall rest ensures GetCredit(PutCredit(c) + rest) == Done(c, rest) {
      if c.Some? {
        var bs := PutCredit(c) + rest;
        var tail := PutSpentBy(c.value.spentBy) + rest;
        assert bs == [bs[0], bs[1], bs[2]] + tail;
        assert bs[1..] == [bs[1], bs[2]] + tail && bs[1..][1..] == [bs[2]] + tail && bs[1..][1..][1..] == tail;
        SpentByReadsBack(c.value.spentBy, rest);
      } else {
        assert ([NIL_POINTER] + rest)[1..] == rest;
      }
    }
  }

  // -------------------------------------------------------------- debits

  predicate DebitsFit(d: Option<Debits>) {
    d.Some? ==>
      && IsInt64(d.value.amount) && |d.value.spends| < TWO_32
      && forall i :: 0 <= i < |d.value.spends| ==> OutputKeyFits(d.value.spends[i])
  }

  function PutDebits(d: Option<Debits>): Bytes {
    match d
    case None => [NIL_POINTER]
    case Some(d) => [VALID_POINTER] + (PutUint64(d.amount) + PutCounted(PutOutputKey, d.spends))
  }

  function GetDebits(bs: Bytes): Read<Option<Debits>> {
    match GetPointerByte(bs)
    case Failed(e) => Failed(e)
    case Done(valid, r0) =>
      if !valid then Done(None, r0) else
      match Int64(r0)
      case Failed(e) => Failed(e)
      case Done(amount, r1) =>
        match GetCounted(GetOutputKey, r1)
        case Failed(e) => Failed(e)
        case Done(spends, r2) => Done(Some(Debits(amount, spends)), r2)
  }

  lemma DebitsReadBack(d: Option<Debits>, rest: Bytes)
    requires DebitsFit(d)
    ensures GetDebits(PutDebits(d) + rest) == Done(d, rest)
  {
    hide PutUint64, Int64, PutCounted, GetCounted, OutputKeyFits;
    if d.Some? {
      var tail := PutCounted(PutOutputKey, d.value.spends);
      assert (PutDebits(d) + rest)[1..] == PutUint64(d.value.amount) + (tail + rest);
      Int64RoundTrip(d.value.amount, tail + rest);
      OutputKeysReadBack(d.value.spends, rest);
    } else {
      assert ([NIL_POINTER] + rest)[1..] == rest;
    }
  }

  lemma OutputKeysReadBack(ps: seq<BlockOutputKey>, rest: Bytes)
    requires |ps| < TWO_32 && forall i :: 0 <= i < |ps| ==> OutputKeyFits(ps[i])
    ensures GetCounted(GetOutputKey, PutCounted(PutOutputKey, ps) + rest) == Done(ps, rest)
  {
    hide OutputKeyFits, ReadsBack, PutCounted, GetCounted;
    forall i | 0 <= i < |ps| ensures ReadsBack(PutOutputKey, GetOutputKey, ps[i], ps[i]) { OutputKeyReadsBack(ps[i]); }
    CountedReadBack(PutOutputKey, GetOutputKey, ps, ps, rest);
  }

  // -------------------------------------------------------- transactions

  /** The wire form of transactions, given from outside. */
  datatype Wire = Wire(put: Tx -> Bytes, get: Bytes -> Read<Tx>)

  /** The wire form is read back exactly and marks its own end. */
  ghost predicate Lawful(w: Wire) {
    forall t: Tx :: ReadsBack(w.put, w.get, t, t)
  }

  // ------------------------------------------------------------- records

  predicate RecordFits(r: TxRecord) {
    && DebitsFit(r.debits) && |r.credits| < TWO_32 && IsInt64(r.received)
    && forall i :: 0 <= i < |r.credits| ==> CreditFits(r.credits[i])
  }

  function PutRecord(w: Wire, r: TxRecord): Bytes {
    PutUint32(r.index) + (w.put(r.tx)
        + (PutDebits(r.debits) + (PutCounted(PutCredit, r.credits) + PutUint64(r.received))))
  }

  function GetRecord(w: Wire, bs: Bytes): Read<TxRecord> {
    match Uint32(bs)
    case Failed(e) => Failed(e)
    case Done(index, r0) =>
      match w.get(r0)
      case Failed(e) => Failed(e)
      case Done(tx, r1) =>
        match GetDebits(r1)
        case Failed(e) => Failed(e)
        case Done(debits, r2) =>
          match GetCounted(GetCredit, r2)
          case Failed(e) => Failed(e)
          case Done(credits, r3) =>
            match Int64(r3)
            case Failed(e) => Failed(e)
            case Done(received, r4) => Done(TxRecord(tx, index, debits, credits, received), r4)
  }

  /** A record as it is read back: its index, an int, has been a uint32. */
  function AfterDisk(r: TxRecord): TxRecord {
    r.(index := r.index % TWO_32)
  }

  lemma RecordTail(w: Wire, r: TxRecord, rest: Bytes)
    ensures PutRecord(w, r) + rest ==
      PutUint32(r.index) + (w.put(r.tx)
          + (PutDebits(r.debits) + (PutCounted(PutCredit, r.credits) + (PutUint64(r.received) + rest))))
  {
    var a, b, c := PutUint32(r.index), w.put(r.tx), PutDebits(r.debits);
    var d, e := PutCounted(PutCredit, r.credits), PutUint64(r.received);
    hide PutDebits, PutUint32, PutUint64, PutCounted;
    assert d + e + rest == d + (e + rest);
    assert (c + (d + e)) + rest == c + ((d + e) + rest);
    assert (b + (c + (d + e))) + rest == b + ((c + (d + e)) + rest);
    assert (a + (b + (c + (d + e)))) + rest == a + ((b + (c + (d + e))) + rest);
  }

  lemma IndexAfterDisk(r: TxRecord)
    ensures IsUint32(r.index) <==> AfterDisk(r) == r
    ensures r.index == INDEX_UNKNOWN ==> AfterDisk(r).index == 0xFFFF_FFFF
  {
  }

  function RecordPut(w: Wire): TxRecord -> Bytes { (r: TxRecord) => PutRecord(w, r) }
  function RecordGet(w: Wire): Bytes -> Read<TxRecord> { (bs: Bytes) => GetRecord(w, bs) }

  /** A record is read back unchanged except for its index. */
  lemma RecordReadsBack(w: Wire, r: TxRecord)
    requires Lawful(w) && RecordFits(r)
    ensures ReadsBack(RecordPut(w), RecordGet(w), r, AfterDisk(r))
  {
    hide Lawful, RecordFits, PutRecord, GetRecord, AfterDisk;
    forall rest ensures RecordGet(w)(RecordPut(w)(r) + rest) == Done(AfterDisk(r), rest) {
      RecordBack(w, r, rest);
    }
  }

  lemma RecordBack(w: Wire, r: TxRecord, rest: Bytes)
    requires Lawful(w) && RecordFits(r)
    ensures GetRecord(w, PutRecord(w, r) + rest) == Done(AfterDisk(r), rest)
  {
    var e := PutUint64(r.received) + rest;
    var d := PutCounted(PutCredit, r.credits) + e;
    var c := PutDebits(r.debits) + d;
    var b := w.put(r.tx) + c;
    RecordTail(w, r, rest);
    Uint32RoundTrip(r.index, b);
    assert ReadsBack(w.put, w.get, r.tx, r.tx);
    DebitsReadBack(r.debits, d);
    forall i | 0 <= i < |r.credits| ensures ReadsBack(PutCredit, GetCredit, r.credits[i], r.credits[i]) {
      CreditReadsBack(r.credits[i]);
    }
    CountedReadBack(PutCredit, GetCredit, r.credits, r.credits, e);
    Int64RoundTrip(r.received, rest);
    hide PutDebits, GetDebits, PutUint32, PutUint64, PutCounted, GetCounted, Uint32, Int64;
  }
}
