/** Where each field of the byte form lies, told by position and value alone:
    numbers are least significant byte first, signed ones in two's complement. */
module Layout {
  import opened Division
  import opened TxTypes
  import opened Ledgers
  import opened LedgerInv
  import opened Blocks
  import opened ByteCodes
  import opened Codec
  import opened StoreCodec
  import opened StoreRoundTrip

  // ----------------------------------------------------------------- numbers

  /** The n bytes from `at` on are those of x, the lowest first. */
  ghost predicate Number(bs: Bytes, at: nat, n: nat, x: int) {
    at + n <= |bs| && forall i :: 0 <= i < n ==> bs[at + i] as int == (x / Pow256(i)) % 256
  }

  lemma DivTwice(x: int, p: int)
    requires 0 < p
    ensures (x / 256) / p == x / (256 * p)
  {
    var q, r := x / (256 * p), x % (256 * p);
    assert x == 256 * (p * q) + r;
    assert x / 256 == p * q + r / 256;
    assert 0 <= r / 256 < p;
    QuotientIs(x / 256, p, q, r / 256);
  }

  lemma ModHigh(x: int, p: int)
    requires 0 < p
    ensures (x % (256 * p)) % 256 == x % 256 && (x % (256 * p)) / 256 == (x / 256) % p
  {
    var q, r := x / (256 * p), x % (256 * p);
    assert x == 256 * (p * q) + r;
    assert x / 256 == p * q + r / 256;
    assert 0 <= r / 256 < p;
    QuotientIs(x / 256, p, q, r / 256);
  }

  /** Byte i of a number is its digit of weight 256 to the i. */
  lemma {:induction false} ByteAt(n: nat, x: int, i: nat)
    requires i < n
    ensures LittleEndian(n, x % Pow256(n))[i] as int == (x / Pow256(i)) % 256
  {
    ModHigh(x, Pow256(n - 1));
    if i > 0 {
      ByteAt(n - 1, x / 256, i - 1);
      DivTwice(x, Pow256(i - 1));
    }
  }

  /** Any bytes are those of the number read from them. */
  lemma {:induction false} DigitsOf(bs: Bytes)
    ensures LittleEndian(|bs|, FromLittleEndian(bs)) == bs
  {
    if bs != [] { DigitsOf(bs[1..]); }
  }

  lemma Uint32Bytes(x: int)
    ensures Number(PutUint32(x), 0, 4, x)
  {
    Powers();
    forall i | 0 <= i < 4 ensures PutUint32(x)[0 + i] as int == (x / Pow256(i)) % 256 { ByteAt(4, x, i); }
  }

  lemma Uint64Bytes(x: int)
    ensures Number(PutUint64(x), 0, 8, x)
  {
    Powers();
    forall i | 0 <= i < 8 ensures PutUint64(x)[0 + i] as int == (x / Pow256(i)) % 256 { ByteAt(8, x, i); }
  }

  lemma NaturalBytes(n: nat, x: nat)
    requires x < Pow256(n)
    ensures Number(LittleEndian(n, x), 0, n, x)
  {
    QuotientIs(x, Pow256(n), 0, x);
    forall i | 0 <= i < n ensures LittleEndian(n, x)[0 + i] as int == (x / Pow256(i)) % 256 { ByteAt(n, x, i); }
  }

  lemma HashBytes(h: Hash)
    requires IsHash(h)
    ensures Number(PutHash(h), 0, 32, h)
  {
    hide Number, LittleEndian, Pow256;
    NaturalBytes(32, h);
  }

  // ------------------------------------------------------------------ pieces

  /** The bytes of `piece` lie in bs from `at` on. */
  ghost predicate Lies(bs: Bytes, at: nat, piece: Bytes) {
    at + |piece| <= |bs| && bs[at..at + |piece|] == piece
  }

  lemma Halves(bs: Bytes, at: nat, a: Bytes, b: Bytes)
    requires Lies(bs, at, a + b)
    ensures Lies(bs, at, a) && Lies(bs, at + |a|, b)
  {
    assert (a + b)[..|a|] == a && (a + b)[|a|..] == b;
    assert bs[at..at + |a|] == bs[at..at + |a + b|][..|a|];
    assert bs[at + |a|..at + |a| + |b|] == bs[at..at + |a + b|][|a|..];
  }

  lemma NumberLies(bs: Bytes, at: nat, piece: Bytes, n: nat, x: int)
    requires Lies(bs, at, piece) && Number(piece, 0, n, x)
    ensures Number(bs, at, n, x)
  {
    forall i | 0 <= i < n ensures bs[at + i] as int == (x / Pow256(i)) % 256 {
      assert bs[at + i] == bs[at..at + |piece|][i] == piece[0 + i];
    }
  }

  lemma Uint32Lies(bs: Bytes, at: nat, x: int)
    requires Lies(bs, at, PutUint32(x))
    ensures Number(bs, at, 4, x)
  {
    Uint32Bytes(x);
    NumberLies(bs, at, PutUint32(x), 4, x);
  }

  lemma Uint64Lies(bs: Bytes, at: nat, x: int)
    requires Lies(bs, at, PutUint64(x))
    ensures Number(bs, at, 8, x)
  {
    Uint64Bytes(x);
    NumberLies(bs, at, PutUint64(x), 8, x);
  }

  lemma HashLies(bs: Bytes, at: nat, h: Hash)
    requires IsHash(h) && Lies(bs, at, PutHash(h))
    ensures Number(bs, at, 32, h)
  {
    HashBytes(h);
    NumberLies(bs, at, PutHash(h), 32, h);
  }

  /** Where the element i of a list of elements of these sizes starts. */
  function Start<T>(size: T -> nat, xs: seq<T>, i: nat): nat
    requires i <= |xs|
  {
    if i == 0 then 0 else Start(size, xs, i - 1) + size(xs[i-1])
  }

  lemma {:induction false} StartPrefix<T>(size: T -> nat, xs: seq<T>, n: nat, i: nat)
    requires i <= n <= |xs|
    ensures Start(size, xs[..n], i) == Start(size, xs, i)
  {
    if i > 0 { StartPrefix(size, xs, n, i - 1); }
  }

  /** What is written for each element takes the size told. */
  ghost predicate Sized<T>(put: T -> Bytes, size: T -> nat, xs: seq<T>) {
    forall i :: 0 <= i < |xs| ==> |put(xs[i])| == size(xs[i])
  }

  lemma SizedPrefix<T>(put: T -> Bytes, size: T -> nat, xs: seq<T>, n: nat)
    requires n <= |xs| && Sized(put, size, xs)
    ensures Sized(put, size, xs[..n])
  {
  }

  lemma {:induction false} AllSize<T>(put: T -> Bytes, size: T -> nat, xs: seq<T>)
    requires Sized(put, size, xs)
    ensures |PutAll(put, xs)| == Start(size, xs, |xs|)
  {
    if xs != [] {
      var n := |xs| - 1;
      assert |put(xs[n])| == size(xs[n]);
      SizedPrefix(put, size, xs, n);
      hide Sized;
      AllSize(put, size, xs[..n]);
      StartPrefix(size, xs, n, n);
    }
  }

  /** The elements of a list follow each other without gaps. */
  lemma {:induction false} AllLie<T>(put: T -> Bytes, size: T -> nat, xs: seq<T>, bs: Bytes, at: nat, i: nat)
    requires Lies(bs, at, PutAll(put, xs)) && Sized(put, size, xs) && i < |xs|
    ensures Lies(bs, at + Start(size, xs, i), put(xs[i]))
  {
    var n := |xs| - 1;
    assert PutAll(put, xs) == PutAll(put, xs[..n]) + put(xs[n]);
    hide Lies, PutAll, Start, Sized;
    Halves(bs, at, PutAll(put, xs[..n]), put(xs[n]));
    SizedPrefix(put, size, xs, n);
    if i < n {
      AllLie(put, size, xs[..n], bs, at, i);
      StartPrefix(size, xs, n, i);
    } else {
      AllSize(put, size, xs[..n]);
      StartPrefix(size, xs, n, n);
    }
  }

  /** A list lies behind its length, which takes four bytes. */
  lemma CountedLies<T>(put: T -> Bytes, size: T -> nat, xs: seq<T>, bs: Bytes, at: nat)
    requires Lies(bs, at, PutCounted(put, xs)) && Sized(put, size, xs)
    ensures |PutCounted(put, xs)| == 4 + Start(size, xs, |xs|) && Number(bs, at, 4, |xs|)
    ensures forall i :: 0 <= i < |xs| ==> Lies(bs, at + 4 + Start(size, xs, i), put(xs[i]))
  {
    hide Lies, PutAll, PutUint32, Number, Start, Sized;
    Halves(bs, at, PutUint32(|xs|), PutAll(put, xs));
    Uint32Lies(bs, at, |xs|);
    AllSize(put, size, xs);
    forall i | 0 <= i < |xs| ensures Lies(bs, at + 4 + Start(size, xs, i), put(xs[i])) {
      AllLie(put, size, xs, bs, at + 4, i);
    }
  }

  // -------------------------------------------------------------------- keys

  /** Index, then height. */
  ghost predicate KeyAt(bs: Bytes, at: nat, k: BlockTxKey) {
    Number(bs, at, 4, k.index) && Number(bs, at + 4, 4, k.height)
  }

  lemma KeyLies(bs: Bytes, at: nat, k: BlockTxKey)
    requires Lies(bs, at, PutTxKey(k))
    ensures KeyAt(bs, at, k)
  {
    Halves(bs, at, PutUint32(k.index), PutUint32(k.height));
    Uint32Lies(bs, at, k.index);
    Uint32Lies(bs, at + 4, k.height);
  }

  /** The transaction's key, then the output's index. */
  ghost predicate OutputKeyAt(bs: Bytes, at: nat, p: BlockOutputKey) {
    KeyAt(bs, at, p.tx) && Number(bs, at + 8, 4, p.out)
  }

  lemma OutputKeyLies(bs: Bytes, at: nat, p: BlockOutputKey)
    requires Lies(bs, at, PutOutputKey(p))
    ensures OutputKeyAt(bs, at, p)
  {
    Halves(bs, at, PutTxKey(p.tx), PutUint32(p.out));
    KeyLies(bs, at, p.tx);
    Uint32Lies(bs, at + 8, p.out);
  }

  /** Hash, then index. */
  ghost predicate OutPointAt(bs: Bytes, at: nat, op: OutPoint) {
    Number(bs, at, 32, op.hash) && Number(bs, at + 32, 4, op.index)
  }

  lemma OutPointLies(bs: Bytes, at: nat, op: OutPoint)
    requires IsHash(op.hash) && Lies(bs, at, PutOutPoint(op))
    ensures OutPointAt(bs, at, op)
  {
    Halves(bs, at, PutHash(op.hash), PutUint32(op.index));
    HashLies(bs, at, op.hash);
    Uint32Lies(bs, at + 32, op.index);
  }

  // ------------------------------------------------------- credits and debits

  function CreditSize(c: Option<Credit>): nat {
    if c.None? then 1 else if c.value.spentBy.None? then 4 else 12
  }

  /** One zero byte for no credit; otherwise a one, the change flag, an unused
      byte, and whether it is spent - if it is, by which record. */
  ghost predicate CreditAt(bs: Bytes, at: nat, c: Option<Credit>) {
    && at + CreditSize(c) <= |bs|
    && bs[at] == (if c.Some? then 1 else 0)
    && (c.Some? ==>
      && bs[at + 1] == (if c.value.change then 1 else 0)
      && bs[at + 3] == (if c.value.spentBy.Some? then 1 else 0)
      && (c.value.spentBy.Some? ==> KeyAt(bs, at + 4, c.value.spentBy.value)))
  }

  lemma ByteLies(bs: Bytes, at: nat, piece: Bytes, i: nat)
    requires Lies(bs, at, piece) && i < |piece|
    ensures bs[at + i] == piece[i]
  {
    assert bs[at + i] == bs[at..at + |piece|][i];
  }

  lemma CreditLies(bs: Bytes, at: nat, c: Option<Credit>)
    requires Lies(bs, at, PutCredit(c))
    ensures |PutCredit(c)| == CreditSize(c) && CreditAt(bs, at, c) && (c.Some? ==> bs[at + 2] == 0)
  {
    hide PutTxKey, KeyAt;
    ByteLies(bs, at, PutCredit(c), 0);
    if c.Some? {
      ByteLies(bs, at, PutCredit(c), 1);
      ByteLies(bs, at, PutCredit(c), 2);
      ByteLies(bs, at, PutCredit(c), 3);
      if c.value.spentBy.Some? {
        var front, back := PutCredit(c)[..4], PutTxKey(c.value.spentBy.value);
        assert PutCredit(c) == front + back;
        Halves(bs, at, front, back);
        KeyLies(bs, at + 4, c.value.spentBy.value);
      }
    }
  }

  function DebitsSize(d: Option<Debits>): nat {
    if d.None? then 1 else 13 + 12 * |d.value.spends|
  }

  /** One zero byte for no debits; otherwise a one, the amount, and the counted
      list of outputs spent, twelve bytes each. */
  ghost predicate DebitsAt(bs: Bytes, at: nat, d: Option<Debits>) {
    && at + DebitsSize(d) <= |bs|
    && bs[at] == (if d.Some? then 1 else 0)
    && (d.Some? ==>
      && Number(bs, at + 1, 8, d.value.amount) && Number(bs, at + 9, 4, |d.value.spends|)
      && forall i :: 0 <= i < |d.value.spends| ==> OutputKeyAt(bs, at + 13 + 12 * i, d.value.spends[i]))
  }

  lemma {:induction false} EvenStart<T>(size: T -> nat, xs: seq<T>, i: nat, each: nat)
    requires i <= |xs| && forall j :: 0 <= j < |xs| ==> size(xs[j]) == each
    ensures Start(size, xs, i) == each * i
  {
    if i > 0 { EvenStart(size, xs, i - 1, each); }
  }

  lemma OutputKeySizes(ps: seq<BlockOutputKey>, size: BlockOutputKey -> nat)
    requires forall p :: size(p) == 12
    ensures Sized(PutOutputKey, size, ps)
  {
    hide PutTxKey, PutUint32;
    assert forall p :: |PutOutputKey(p)| == 12;
  }

  lemma SpendsLie(bs: Bytes, at: nat, ps: seq<BlockOutputKey>)
    requires Lies(bs, at, PutCounted(PutOutputKey, ps))
    ensures |PutCounted(PutOutputKey, ps)| == 4 + 12 * |ps| && Number(bs, at, 4, |ps|)
    ensures forall i :: 0 <= i < |ps| ==> OutputKeyAt(bs, at + 4 + 12 * i, ps[i])
  {
    hide Sized, PutCounted, Lies, Number, OutputKeyAt, PutOutputKey;
    var size := (p: BlockOutputKey) => 12;
    OutputKeySizes(ps, size);
    CountedLies(PutOutputKey, size, ps, bs, at);
    EvenStart(size, ps, |ps|, 12);
    forall i | 0 <= i < |ps| ensures OutputKeyAt(bs, at + 4 + 12 * i, ps[i]) {
      EvenStart(size, ps, i, 12);
      OutputKeyLies(bs, at + 4 + 12 * i, ps[i]);
    }
  }

  lemma DebitsLie(bs: Bytes, at: nat, d: Option<Debits>)
    requires Lies(bs, at, PutDebits(d))
    ensures |PutDebits(d)| == DebitsSize(d) && DebitsAt(bs, at, d)
  {
    hide PutOutputKey, PutCounted, OutputKeyAt, PutUint64, Number;
    ByteLies(bs, at, PutDebits(d), 0);
    hide Lies;
    if d.Some? {
      var ps := d.value.spends;
      Halves(bs, at, [VALID_POINTER], PutUint64(d.value.amount) + PutCounted(PutOutputKey, ps));
      Halves(bs, at + 1, PutUint64(d.value.amount), PutCounted(PutOutputKey, ps));
      Uint64Lies(bs, at + 1, d.value.amount);
      SpendsLie(bs, at + 9, ps);
      forall i | 0 <= i < |ps| ensures OutputKeyAt(bs, at + 13 + 12 * i, ps[i]) {
        assert at + 9 + 4 + 12 * i == at + 13 + 12 * i;
      }
    }
  }

  // ------------------------------------------------------ records and blocks

  function CreditsSize(cs: seq<Option<Credit>>): nat {
    4 + Start(CreditSize, cs, |cs|)
  }

  function RecordSize(w: Wire, r: TxRecord): nat {
    12 + |w.put(r.tx)| + DebitsSize(r.debits) + CreditsSize(r.credits)
  }

  /** Index, transaction, debits, counted credits, time received. */
  ghost predicate RecordBytesAt(w: Wire, bs: Bytes, at: nat, r: TxRecord) {
    var d := at + 4 + |w.put(r.tx)|;
    var c := d + DebitsSize(r.debits);
    && Number(bs, at, 4, r.index) && Lies(bs, at + 4, w.put(r.tx)) && DebitsAt(bs, d, r.debits)
    && Number(bs, c, 4, |r.credits|)
    && (forall i :: 0 <= i < |r.credits| ==> CreditAt(bs, c + 4 + Start(CreditSize, r.credits, i), r.credits[i]))
    && Number(bs, c + CreditsSize(r.credits), 8, r.received)
  }

  lemma RecordParts(w: Wire, bs: Bytes, at: nat, r: TxRecord)
    requires Lies(bs, at, PutRecord(w, r))
    ensures var d := at + 4 + |w.put(r.tx)|; var c := d + |PutDebits(r.debits)|;
            && Lies(bs, at, PutUint32(r.index)) && Lies(bs, at + 4, w.put(r.tx)) && Lies(bs, d, PutDebits(r.debits))
            && Lies(bs, c, PutCounted(PutCredit, r.credits))
            && Lies(bs, c + |PutCounted(PutCredit, r.credits)|, PutUint64(r.received))
            && |PutRecord(w, r)| ==
               12 + |w.put(r.tx)| + |PutDebits(r.debits)| + |PutCounted(PutCredit, r.credits)|
  {
    hide Lies, PutDebits, PutUint32, PutUint64, PutCounted;
    var a, b, c := PutUint32(r.index), w.put(r.tx), PutDebits(r.debits);
    var d, e := PutCounted(PutCredit, r.credits), PutUint64(r.received);
    Halves(bs, at, a, b + (c + (d + e)));
    Halves(bs, at + 4, b, c + (d + e));
    Halves(bs, at + 4 + |b|, c, d + e);
    Halves(bs, at + 4 + |b| + |c|, d, e);
  }

  lemma CreditSizes(cs: seq<Option<Credit>>)
    ensures Sized(PutCredit, CreditSize, cs)
  {
    forall i | 0 <= i < |cs| ensures |PutCredit(cs[i])| == CreditSize(cs[i]) {
      CreditLies(PutCredit(cs[i]), 0, cs[i]);
    }
  }

  lemma CreditsLie(bs: Bytes, at: nat, cs: seq<Option<Credit>>)
    requires Lies(bs, at, PutCounted(PutCredit, cs))
    ensures |PutCounted(PutCredit, cs)| == CreditsSize(cs) && Number(bs, at, 4, |cs|)
    ensures forall i :: 0 <= i < |cs| ==> CreditAt(bs, at + 4 + Start(CreditSize, cs, i), cs[i])
  {
    hide PutCredit, PutCounted, CreditAt, CreditSize, Lies, Number, Start, Sized;
    CreditSizes(cs);
    CountedLies(PutCredit, CreditSize, cs, bs, at);
    forall i | 0 <= i < |cs| ensures CreditAt(bs, at + 4 + Start(CreditSize, cs, i), cs[i]) {
      CreditLies(bs, at + 4 + Start(CreditSize, cs, i), cs[i]);
    }
  }

  lemma RecordLies(w: Wire, bs: Bytes, at: nat, r: TxRecord)
    requires Lies(bs, at, PutRecord(w, r))
    ensures |PutRecord(w, r)| == RecordSize(w, r) && RecordBytesAt(w, bs, at, r)
  {
    hide Lies, PutRecord, PutDebits, PutUint32, PutUint64, PutCounted, Number, DebitsAt, CreditAt, CreditsSize;
    hide DebitsSize, PutCredit, CreditSize;
    hide Start;
    RecordParts(w, bs, at, r);
    var d := at + 4 + |w.put(r.tx)|;
    Uint32Lies(bs, at, r.index);
    DebitsLie(bs, d, r.debits);
    CreditsLie(bs, d + DebitsSize(r.debits), r.credits);
    Uint64Lies(bs, d + DebitsSize(r.debits) + CreditsSize(r.credits), r.received);
  }

  /** The record sizes, as a function of the record. */
  function Sizes(w: Wire): TxRecord -> nat { (r: TxRecord) => RecordSize(w, r) }

  /** A counted list of records. */
  ghost predicate RecordsAt(w: Wire, bs: Bytes, at: nat, rs: seq<TxRecord>) {
    && Number(bs, at, 4, |rs|)
    && forall i :: 0 <= i < |rs| ==> RecordBytesAt(w, bs, at + 4 + Start(Sizes(w), rs, i), rs[i])
  }

  lemma RecordSizes(w: Wire, rs: seq<TxRecord>)
    ensures Sized(RecordPut(w), Sizes(w), rs)
  {
    hide PutRecord, RecordBytesAt, RecordSize;
    forall i | 0 <= i < |rs| ensures |RecordPut(w)(rs[i])| == Sizes(w)(rs[i]) {
      RecordLies(w, PutRecord(w, rs[i]), 0, rs[i]);
    }
  }

  lemma RecordsLie(w: Wire, bs: Bytes, at: nat, rs: seq<TxRecord>)
    requires Lies(bs, at, PutCounted(RecordPut(w), rs))
    ensures |PutCounted(RecordPut(w), rs)| == 4 + Start(Sizes(w), rs, |rs|) && RecordsAt(w, bs, at, rs)
  {
    hide PutCounted, PutRecord, RecordBytesAt, RecordSize, Number, Lies, Sized, Start;
    RecordSizes(w, rs);
    CountedLies(RecordPut(w), Sizes(w), rs, bs, at);
    forall i | 0 <= i < |rs| ensures RecordBytesAt(w, bs, at + 4 + Start(Sizes(w), rs, i), rs[i]) {
      RecordLies(w, bs, at + 4 + Start(Sizes(w), rs, i), rs[i]);
    }
  }

  function BlockSize(w: Wire, b: BlockTxs): nat {
    64 + Start(Sizes(w), b.txs, |b.txs|)
  }

  /** Hash, time, height, spendable amount, reward, and the counted records. */
  ghost predicate BlockAt(w: Wire, bs: Bytes, at: nat, b: BlockTxs) {
    && Number(bs, at, 32, b.info.hash) && Number(bs, at + 32, 8, b.info.time)
    && Number(bs, at + 40, 4, b.info.height)
    && Number(bs, at + 44, 8, b.amounts.spendable) && Number(bs, at + 52, 8, b.amounts.reward)
    && RecordsAt(w, bs, at + 60, b.txs)
  }

  lemma HeaderLies(bs: Bytes, at: nat, b: BlockTxs)
    requires IsHash(b.info.hash) && Lies(bs, at, PutHeader(b))
    ensures Number(bs, at, 32, b.info.hash) && Number(bs, at + 32, 8, b.info.time)
    ensures Number(bs, at + 40, 4, b.info.height)
    ensures Number(bs, at + 44, 8, b.amounts.spendable) && Number(bs, at + 52, 8, b.amounts.reward)
  {
    hide Lies, PutUint32, PutUint64, PutHash, Number, IsHash;
    var a, c, d := PutHash(b.info.hash), PutUint64(b.info.time), PutUint32(b.info.height);
    var e, f := PutUint64(b.amounts.spendable), PutUint64(b.amounts.reward);
    Halves(bs, at, a, c + (d + (e + f)));
    Halves(bs, at + 32, c, d + (e + f));
    Halves(bs, at + 40, d, e + f);
    Halves(bs, at + 44, e, f);
    HashLies(bs, at, b.info.hash);
    Uint64Lies(bs, at + 32, b.info.time);
    Uint32Lies(bs, at + 40, b.info.height);
    Uint64Lies(bs, at + 44, b.amounts.spendable);
    Uint64Lies(bs, at + 52, b.amounts.reward);
  }

  lemma BlockLies(w: Wire, bs: Bytes, at: nat, b: BlockTxs)
    requires IsHash(b.info.hash) && Lies(bs, at, PutBlock(w, b))
    ensures |PutBlock(w, b)| == BlockSize(w, b) && BlockAt(w, bs, at, b)
  {
    hide Lies, PutHeader, PutCounted, Number, IsHash, RecordsAt, RecordPut, Sizes;
    Halves(bs, at, PutHeader(b), PutCounted(RecordPut(w), b.txs));
    HeaderLies(bs, at, b);
    RecordsLie(w, bs, at + 60, b.txs);
  }

  // ------------------------------------------------------------ pool entries

  /** Output, place of its transaction, hash of the spender. */
  ghost predicate SpentOutAt(bs: Bytes, at: nat, e: SpentOut) {
    OutPointAt(bs, at, e.op) && KeyAt(bs, at + 36, e.key) && Number(bs, at + 44, 32, e.spender)
  }

  lemma SpentOutLies(bs: Bytes, at: nat, e: SpentOut)
    requires IsHash(e.op.hash) && IsHash(e.spender) && Lies(bs, at, PutSpentOut(e))
    ensures SpentOutAt(bs, at, e)
  {
    hide Lies, IsHash, PutHash, PutTxKey, PutOutPoint, KeyAt, OutPointAt, Number;
    Halves(bs, at, PutOutPoint(e.op), PutTxKey(e.key) + PutHash(e.spender));
    Halves(bs, at + 36, PutTxKey(e.key), PutHash(e.spender));
    OutPointLies(bs, at, e.op);
    KeyLies(bs, at + 36, e.key);
    HashLies(bs, at + 44, e.spender);
  }

  /** Output, hash of the spender. */
  ghost predicate SpentInAt(bs: Bytes, at: nat, e: SpentIn) {
    OutPointAt(bs, at, e.op) && Number(bs, at + 36, 32, e.spender)
  }

  lemma SpentInLies(bs: Bytes, at: nat, e: SpentIn)
    requires IsHash(e.op.hash) && IsHash(e.spender) && Lies(bs, at, PutSpentIn(e))
    ensures SpentInAt(bs, at, e)
  {
    hide Lies, IsHash, PutHash, PutOutPoint, OutPointAt, Number;
    Halves(bs, at, PutOutPoint(e.op), PutHash(e.spender));
    OutPointLies(bs, at, e.op);
    HashLies(bs, at + 36, e.spender);
  }

  // ------------------------------------------------------------- whole store

  ghost predicate SpentOutsAt(bs: Bytes, at: nat, es: seq<SpentOut>) {
    Number(bs, at, 4, |es|) && forall i :: 0 <= i < |es| ==> SpentOutAt(bs, at + 4 + 76 * i, es[i])
  }

  ghost predicate SpentInsAt(bs: Bytes, at: nat, es: seq<SpentIn>) {
    Number(bs, at, 4, |es|) && forall i :: 0 <= i < |es| ==> SpentInAt(bs, at + 4 + 68 * i, es[i])
  }

  lemma SpentOutSizes(es: seq<SpentOut>, size: SpentOut -> nat)
    requires forall e :: size(e) == 76
    ensures Sized(PutSpentOut, size, es)
  {
    hide PutOutPoint, PutTxKey, PutHash;
    assert forall e :: |PutSpentOut(e)| == 76;
  }

  lemma SpentInSizes(es: seq<SpentIn>, size: SpentIn -> nat)
    requires forall e :: size(e) == 68
    ensures Sized(PutSpentIn, size, es)
  {
    hide PutOutPoint, PutHash;
    assert forall e :: |PutSpentIn(e)| == 68;
  }

  lemma SpentOutsLie(bs: Bytes, at: nat, es: seq<SpentOut>)
    requires Lies(bs, at, PutCounted(PutSpentOut, es))
    requires forall i :: 0 <= i < |es| ==> IsHash(es[i].op.hash) && IsHash(es[i].spender)
    ensures |PutCounted(PutSpentOut, es)| == 4 + 76 * |es| && SpentOutsAt(bs, at, es)
  {
    hide Sized, PutCounted, Lies, IsHash, Number, SpentOutAt, PutSpentOut;
    var size := (e: SpentOut) => 76;
    SpentOutSizes(es, size);
    CountedLies(PutSpentOut, size, es, bs, at);
    EvenStart(size, es, |es|, 76);
    forall i | 0 <= i < |es| ensures SpentOutAt(bs, at + 4 + 76 * i, es[i]) {
      EvenStart(size, es, i, 76);
      SpentOutLies(bs, at + 4 + 76 * i, es[i]);
    }
  }

  lemma SpentInsLie(bs: Bytes, at: nat, es: seq<SpentIn>)
    requires Lies(bs, at, PutCounted(PutSpentIn, es))
    requires forall i :: 0 <= i < |es| ==> IsHash(es[i].op.hash) && IsHash(es[i].spender)
    ensures |PutCounted(PutSpentIn, es)| == 4 + 68 * |es| && SpentInsAt(bs, at, es)
  {
    hide Sized, PutCounted, Lies, IsHash, Number, SpentInAt, PutSpentIn;
    var size := (e: SpentIn) => 68;
    SpentInSizes(es, size);
    CountedLies(PutSpentIn, size, es, bs, at);
    EvenStart(size, es, |es|, 68);
    forall i | 0 <= i < |es| ensures SpentInAt(bs, at + 4 + 68 * i, es[i]) {
      EvenStart(size, es, i, 68);
      SpentInLies(bs, at + 4 + 68 * i, es[i]);
    }
  }

  /** The maps of the pool can be written in the orders o. */
  ghost predicate Writable(l: Ledger, o: Orders) {
    && (forall h :: h in o.hs ==> h in l.txs)
    && (forall op :: op in o.ins ==> op in l.spentUnconf && IsHash(op.hash) && IsHash(l.spentUnconf[op]))
    && (forall op :: op in o.outs ==>
          op in l.spentKeys && l.spentKeys[op] in l.spentOuts && IsHash(op.hash)
          && IsHash(l.spentOuts[l.spentKeys[op]]))
  }

  /** The counted records, the counted mined outputs they spend and the counted
      unconfirmed ones, each with its spender. */
  ghost predicate PoolAt(w: Wire, bs: Bytes, at: nat, l: Ledger, o: Orders)
    requires Writable(l, o)
  {
    var rs, es := RecordsOf(l.txs, o.hs), SpentOutsOf(l.spentOuts, l.spentKeys, o.outs);
    var outs := at + 4 + Start(Sizes(w), rs, |rs|);
    && RecordsAt(w, bs, at, rs) && SpentOutsAt(bs, outs, es)
    && SpentInsAt(bs, outs + 4 + 76 * |es|, SpentInsOf(l.spentUnconf, o.ins))
  }

  lemma WritableKnown(l: Ledger, o: Orders)
    requires Writable(l, o)
    ensures (forall h :: h in o.hs ==> h in l.txs) && (forall op :: op in o.ins ==> op in l.spentUnconf)
    ensures forall op :: op in o.outs ==> op in l.spentKeys && l.spentKeys[op] in l.spentOuts
  {
    hide IsHash;
  }

  lemma EntryHashes(l: Ledger, o: Orders)
    requires Writable(l, o)
    ensures var es := SpentOutsOf(l.spentOuts, l.spentKeys, o.outs);
            forall i :: 0 <= i < |es| ==> IsHash(es[i].op.hash) && IsHash(es[i].spender)
    ensures var es := SpentInsOf(l.spentUnconf, o.ins);
            forall i :: 0 <= i < |es| ==> IsHash(es[i].op.hash) && IsHash(es[i].spender)
  {
    hide IsHash;
    assert forall i :: 0 <= i < |o.outs| ==> o.outs[i] in o.outs;
    assert forall i :: 0 <= i < |o.ins| ==> o.ins[i] in o.ins;
  }

  lemma PoolLies(w: Wire, bs: Bytes, at: nat, l: Ledger, o: Orders)
    requires Writable(l, o) && Lies(bs, at, PoolBytes(w, l, o))
    ensures PoolAt(w, bs, at, l, o)
  {
    hide Lies, PutCounted, RecordPut, PutSpentOut, PutSpentIn, RecordsOf, SpentOutsOf, SpentInsOf, RecordsAt;
    hide SpentOutsAt, SpentInsAt, IsHash, Writable, Sizes, Start;
    WritableKnown(l, o);
    var rs, es := RecordsOf(l.txs, o.hs), SpentOutsOf(l.spentOuts, l.spentKeys, o.outs);
    var fs := SpentInsOf(l.spentUnconf, o.ins);
    EntryHashes(l, o);
    Halves(bs, at, PutCounted(RecordPut(w), rs), PutCounted(PutSpentOut, es) + PutCounted(PutSpentIn, fs));
    RecordsLie(w, bs, at, rs);
    var outs := at + 4 + Start(Sizes(w), rs, |rs|);
    Halves(bs, outs, PutCounted(PutSpentOut, es), PutCounted(PutSpentIn, fs));
    SpentOutsLie(bs, outs, es);
    SpentInsLie(bs, outs + 4 + 76 * |es|, fs);
  }

  function BlockSizes(w: Wire): BlockTxs -> nat { (b: BlockTxs) => BlockSize(w, b) }

  ghost predicate BlocksAt(w: Wire, bs: Bytes, at: nat, blocks: BlockList) {
    && Number(bs, at, 4, |blocks|)
    && forall i :: 0 <= i < |blocks| ==> BlockAt(w, bs, at + 4 + Start(BlockSizes(w), blocks, i), blocks[i])
  }

  /** The version, which is four, the counted blocks, and the pool. */
  ghost predicate StoreAt(w: Wire, bs: Bytes, at: nat, blocks: BlockList, l: Ledger, o: Orders)
    requires Writable(l, o)
  {
    && Number(bs, at, 4, 4) && BlocksAt(w, bs, at + 4, blocks)
    && PoolAt(w, bs, at + 8 + Start(BlockSizes(w), blocks, |blocks|), l, o)
  }

  lemma BlockHashes(blocks: BlockList)
    requires BlocksFit(blocks)
    ensures forall i :: 0 <= i < |blocks| ==> IsHash(blocks[i].info.hash)
  {
    hide IsHash;
  }

  lemma BlocksSized(w: Wire, blocks: BlockList)
    requires forall i :: 0 <= i < |blocks| ==> IsHash(blocks[i].info.hash)
    ensures Sized(BlockPut(w), BlockSizes(w), blocks)
  {
    hide PutBlock, BlockAt, BlockSize, Lies, IsHash;
    forall i | 0 <= i < |blocks| ensures |BlockPut(w)(blocks[i])| == BlockSizes(w)(blocks[i]) {
      Itself(PutBlock(w, blocks[i]));
      BlockLies(w, PutBlock(w, blocks[i]), 0, blocks[i]);
    }
  }

  lemma BlockItemLies(w: Wire, bs: Bytes, at: nat, b: BlockTxs)
    requires IsHash(b.info.hash) && Lies(bs, at, BlockPut(w)(b))
    ensures BlockAt(w, bs, at, b)
  {
    hide BlockAt, PutBlock, Lies, IsHash;
    BlockLies(w, bs, at, b);
  }

  lemma BlocksLie(w: Wire, bs: Bytes, at: nat, blocks: BlockList)
    requires Lies(bs, at, PutCounted(BlockPut(w), blocks)) && BlocksFit(blocks)
    ensures |PutCounted(BlockPut(w), blocks)| == 4 + Start(BlockSizes(w), blocks, |blocks|)
    ensures BlocksAt(w, bs, at, blocks)
  {
    hide PutCounted, PutBlock, BlockAt, BlockSize, Number, Lies, Start, IsHash, BlocksFit, Sized, BlockSizes, BlockPut;
    hide Pow256, PutAll, RecordBytesAt, CreditSize, HASH_SIZE;
    BlockHashes(blocks);
    BlocksSized(w, blocks);
    CountedLies(BlockPut(w), BlockSizes(w), blocks, bs, at);
    hide BlockSizes, BlockPut;
    forall i | 0 <= i < |blocks|
      ensures BlockAt(w, bs, at + 4 + Start(BlockSizes(w), blocks, i), blocks[i])
    {
      BlockItemLies(w, bs, at + 4 + Start(BlockSizes(w), blocks, i), blocks[i]);
    }
  }

  lemma Itself(bs: Bytes)
    ensures Lies(bs, 0, bs)
  {
  }

  /** A store is written field by field at these places. */
  lemma StoreLies(w: Wire, bs: Bytes, at: nat, blocks: BlockList, l: Ledger, o: Orders)
    requires Writable(l, o) && BlocksFit(blocks) && Lies(bs, at, PutStore(w, blocks, l, o))
    ensures StoreAt(w, bs, at, blocks, l, o)
  {
    hide Lies, PutUint32, PutCounted, PoolBytes, BlockPut, Writable, BlocksFit, PoolAt, BlocksAt, Number, Start;
    hide BlockSizes, PutPool;
    WritableKnown(l, o);
    var pool := PoolBytes(w, l, o);
    assert VERS_CURRENT == 4;
    Halves(bs, at, PutUint32(4), PutCounted(BlockPut(w), blocks) + pool);
    Halves(bs, at + 4, PutCounted(BlockPut(w), blocks), pool);
    Uint32Lies(bs, at, 4);
    BlocksLie(w, bs, at + 4, blocks);
    PoolLies(w, bs, at + 8 + Start(BlockSizes(w), blocks, |blocks|), l, o);
  }

  /** A linked store whose numbers fit their fields can be written. */
  lemma OrderlyWritable(l: Ledger, o: Orders)
    requires Orderly(l, o) && Spenders(l) && PoolFits(l)
    ensures Writable(l, o)
  {
    hide IsHash, RecordFits, KeyFits;
    forall op | op in o.outs
      ensures op in l.spentKeys && l.spentKeys[op] in l.spentOuts && IsHash(op.hash)
      ensures IsHash(l.spentOuts[l.spentKeys[op]])
    {
      assert OutPointFits(op) && l.spentOuts[l.spentKeys[op]] in l.txs;
    }
    forall op | op in o.ins ensures op in l.spentUnconf && IsHash(op.hash) && IsHash(l.spentUnconf[op]) {
      assert OutPointFits(op) && l.spentUnconf[op] in l.txs;
    }
  }

  /** The pieces written for a linked store, after what was there before. */
  ghost predicate LaidOut(w: Wire, bs: Bytes, at: nat, blocks: BlockList, l: Ledger, o: Orders) {
    Writable(l, o) && StoreAt(w, bs, at, blocks, l, o)
  }

  /** A linked store whose numbers fit their fields. */
  ghost predicate Storable(blocks: BlockList, l: Ledger) {
    Linked(l) && PoolFits(l) && BlocksFit(blocks)
  }

  lemma StoreLaidOut(w: Wire, before: Bytes, blocks: BlockList, l: Ledger, o: Orders)
    requires Orderly(l, o) && Storable(blocks, l)
    ensures Spenders(l) && LaidOut(w, before + PutStore(w, blocks, l, o), |before|, blocks, l, o)
  {
    hide Linked, Orderly, Spenders, PoolFits, BlocksFit, Writable, StoreAt, PutStore;
    assert Linked(l) && PoolFits(l) && BlocksFit(blocks);
    LinkedSpenders(l);
    OrderlyKnown(l, o);
    OrderlyWritable(l, o);
    var piece := PutStore(w, blocks, l, o);
    assert (before + piece)[|before|..|before| + |piece|] == piece;
    StoreLies(w, before + piece, |before|, blocks, l, o);
  }

  // ----------------------------------------------------------------- reading

  /** Reading n bytes as a number succeeds just when they are there, and gives
      the number that lies there. */
  lemma NaturalRead(bs: Bytes, at: nat, n: nat)
    requires at <= |bs|
    ensures Take(bs[at..], n) ==
      if at + n <= |bs| then Done(bs[at..at + n], bs[at + n..]) else Failed(ShortRead)
    ensures at + n <= |bs| ==>
      0 <= FromLittleEndian(bs[at..at + n]) < Pow256(n) && Number(bs, at, n, FromLittleEndian(bs[at..at + n]))
  {
    if at + n <= |bs| {
      var b := bs[at..at + n];
      assert bs[at..][..n] == b && bs[at..][n..] == bs[at + n..];
      DigitsOf(b);
      FromLittleEndianBound(b);
      NaturalBytes(n, FromLittleEndian(b));
      assert Lies(bs, at, b);
      NumberLies(bs, at, b, n, FromLittleEndian(b));
    }
  }

  lemma SameDigits(bs: Bytes, at: nat, n: nat, x: int)
    requires Number(bs, at, n, x)
    ensures Number(bs, at, n, x - Pow256(n))
  {
    var p := Pow256(n);
    assert x == p * (x / p) + x % p;
    QuotientIs(x - p, p, x / p - 1, x % p);
    forall i | 0 <= i < n ensures bs[at + i] as int == ((x - p) / Pow256(i)) % 256 {
      ByteAt(n, x, i);
      ByteAt(n, x - p, i);
    }
  }

  lemma Uint32Read(bs: Bytes, at: nat)
    requires at <= |bs|
    ensures match Uint32(bs[at..])
            case Done(x, rest) => at + 4 <= |bs| && rest == bs[at + 4..] && IsUint32(x) && Number(bs, at, 4, x)
            case Failed(e) => |bs| < at + 4 && e == ShortRead
  {
    hide Number, FromLittleEndian, Take;
    Powers();
    NaturalRead(bs, at, 4);
  }

  lemma Int32Read(bs: Bytes, at: nat)
    requires at <= |bs|
    ensures match Int32(bs[at..])
            case Done(x, rest) => at + 4 <= |bs| && rest == bs[at + 4..] && IsInt32(x) && Number(bs, at, 4, x)
            case Failed(e) => |bs| < at + 4 && e == ShortRead
  {
    hide Number, Uint32;
    Powers();
    Uint32Read(bs, at);
    if Uint32(bs[at..]).Done? { SameDigits(bs, at, 4, Uint32(bs[at..]).value); }
  }

  lemma Int64Read(bs: Bytes, at: nat)
    requires at <= |bs|
    ensures match Int64(bs[at..])
            case Done(x, rest) => at + 8 <= |bs| && rest == bs[at + 8..] && IsInt64(x) && Number(bs, at, 8, x)
            case Failed(e) => |bs| < at + 8 && e == ShortRead
  {
    hide Number, FromLittleEndian, Take;
    Powers();
    NaturalRead(bs, at, 8);
    if at + 8 <= |bs| { SameDigits(bs, at, 8, FromLittleEndian(bs[at..at + 8])); }
  }

  lemma HashRead(bs: Bytes, at: nat)
    requires at <= |bs|
    ensures match GetHash(bs[at..])
            case Done(h, rest) => at + 32 <= |bs| && rest == bs[at + 32..] && IsHash(h) && Number(bs, at, 32, h)
            case Failed(e) => |bs| < at + 32 && e == ShortRead
  {
    hide Number, FromLittleEndian, Take, Pow256;
    NaturalRead(bs, at, 32);
  }

  lemma KeyRead(bs: Bytes, at: nat)
    requires at <= |bs|
    ensures match GetTxKey(bs[at..])
            case Done(k, rest) => at + 8 <= |bs| && rest == bs[at + 8..] && KeyFits(k) && KeyAt(bs, at, k)
            case Failed(e) => |bs| < at + 8 && e == ShortRead
  {
    hide Number, Uint32, Int32;
    Uint32Read(bs, at);
    if at + 4 <= |bs| { Int32Read(bs, at + 4); }
  }

  lemma OutputKeyRead(bs: Bytes, at: nat)
    requires at <= |bs|
    ensures match GetOutputKey(bs[at..])
            case Done(p, rest) => at + 12 <= |bs| && rest == bs[at + 12..] && OutputKeyFits(p) && OutputKeyAt(bs, at, p)
            case Failed(e) => |bs| < at + 12 && e == ShortRead
  {
    hide Number, Uint32, GetTxKey, KeyFits, KeyAt;
    KeyRead(bs, at);
    if at + 8 <= |bs| { Uint32Read(bs, at + 8); }
  }

  lemma OutPointRead(bs: Bytes, at: nat)
    requires at <= |bs|
    ensures match GetOutPoint(bs[at..])
            case Done(op, rest) =>
              at + 36 <= |bs| && rest == bs[at + 36..] && OutPointFits(op) && OutPointAt(bs, at, op)
            case Failed(e) => |bs| < at + 36 && e == ShortRead
  {
    hide Number, Uint32, GetHash, IsHash;
    HashRead(bs, at);
    if at + 32 <= |bs| { Uint32Read(bs, at + 32); }
  }

  /** Why no credit can be read at `at`. */
  ghost predicate NoCreditAt(bs: Bytes, at: nat, e: ReadError) {
    match e
    case BadPointerByte =>
      at < |bs| && (bs[at] > 1 || (at + 3 < |bs| && bs[at] == 1 && bs[at + 1] <= 1 && bs[at + 3] > 1))
    case BadBoolByte => at + 1 < |bs| && bs[at] == 1 && bs[at + 1] > 1
    case ShortRead => |bs| < at + 12 && (at < |bs| ==> bs[at] == 1 && (at + 3 < |bs| ==> bs[at + 3] == 1))
    case _ => false
  }

  /** A credit is read from any bytes that hold one, whatever the unused byte
      is; the bytes that mark and flag it must be zero or one. */
  lemma CreditRead(bs: Bytes, at: nat)
    requires at <= |bs|
    ensures match GetCredit(bs[at..])
            case Done(c, rest) => CreditAt(bs, at, c) && rest == bs[at + CreditSize(c)..] && CreditFits(c)
            case Failed(e) => NoCreditAt(bs, at, e)
  {
    hide GetTxKey, KeyAt, KeyFits;
    if at + 4 <= |bs| {
      assert bs[at..][1..] == bs[at + 1..] && bs[at + 1..][1..] == bs[at + 2..] && bs[at + 2..][1..] == bs[at + 3..];
      assert bs[at + 3..][1..] == bs[at + 4..];
      KeyRead(bs, at + 4);
    } else if at < |bs| {
      assert bs[at..][1..] == bs[at + 1..];
      if at + 1 < |bs| { assert bs[at + 1..][1..] == bs[at + 2..]; }
      if at + 2 < |bs| { assert bs[at + 2..][1..] == bs[at + 3..] && bs[at + 3..] == []; }
    }
  }

  /** Twelve bytes for each of n output keys are read in order, and n keys are
      read just when that many bytes are there. */
  lemma {:induction false} OutputKeysRead(bs: Bytes, at: nat, n: nat)
    requires at <= |bs|
    ensures match GetAll(GetOutputKey, n, bs[at..])
            case Done(ps, rest) =>
              && at + 12 * n <= |bs| && rest == bs[at + 12 * n..] && |ps| == n
              && forall i :: 0 <= i < n ==> OutputKeyFits(ps[i]) && OutputKeyAt(bs, at + 12 * i, ps[i])
            case Failed(e) => |bs| < at + 12 * n && e == ShortRead
  {
    hide GetOutputKey, OutputKeyAt, OutputKeyFits;
    if n > 0 {
      OutputKeysRead(bs, at, n - 1);
      if at + 12 * (n - 1) <= |bs| { OutputKeyRead(bs, at + 12 * (n - 1)); }
    }
  }

  /** Whatever is read as debits lies there. */
  lemma DebitsRead(bs: Bytes, at: nat)
    requires at <= |bs|
    ensures match GetDebits(bs[at..])
            case Done(d, rest) => DebitsAt(bs, at, d) && rest == bs[at + DebitsSize(d)..] && DebitsFit(d)
            case Failed(e) =>
              if at < |bs| && bs[at] > 1 then e == BadPointerByte
              else e == ShortRead && (at < |bs| ==> bs[at] == 1)
  {
    hide Number, OutputKeyAt, OutputKeyFits, GetAll, Uint32, Int64;
    if at < |bs| {
      assert bs[at..][1..] == bs[at + 1..];
      Int64Read(bs, at + 1);
      if at + 9 <= |bs| { Uint32Read(bs, at + 9); }
      if at + 13 <= |bs| { OutputKeysRead(bs, at + 13, Uint32(bs[at + 9..]).value); }
    }
  }

  /** Sixty bytes are read as a block's hash, time, height and amounts. */
  lemma HeaderRead(bs: Bytes, at: nat)
    requires at <= |bs|
    ensures match GetHeader(bs[at..])
            case Done((info, amounts), rest) =>
              && at + 60 <= |bs| && rest == bs[at + 60..]
              && Number(bs, at, 32, info.hash) && Number(bs, at + 32, 8, info.time)
              && Number(bs, at + 40, 4, info.height)
              && Number(bs, at + 44, 8, amounts.spendable) && Number(bs, at + 52, 8, amounts.reward)
            case Failed(e) => |bs| < at + 60 && e == ShortRead
  {
    hide Number, GetHash, Int64, Int32, IsHash, IsInt64, IsInt32;
    HashRead(bs, at);
    if at + 32 <= |bs| { Int64Read(bs, at + 32); }
    if at + 40 <= |bs| { Int32Read(bs, at + 40); }
    if at + 44 <= |bs| { Int64Read(bs, at + 44); }
    if at + 52 <= |bs| { Int64Read(bs, at + 52); }
  }

  /** A spender is read as a hash of a transaction read before. */
  lemma SpenderRead(txs: Pool, bs: Bytes, at: nat)
    requires at <= |bs|
    ensures match GetSpender(txs, bs[at..])
            case Done(h, rest) => at + 32 <= |bs| && rest == bs[at + 32..] && h in txs && Number(bs, at, 32, h)
            case Failed(e) =>
              if |bs| < at + 32 then e == ShortRead
              else e == MissingTxRecord && exists h: Hash :: h !in txs && IsHash(h) && Number(bs, at, 32, h)
  {
    hide Number, IsHash, GetHash;
    HashRead(bs, at);
  }

  lemma SpentOutRead(txs: Pool, bs: Bytes, at: nat)
    requires at <= |bs|
    ensures match GetSpentOut(txs, bs[at..])
            case Done(e, rest) =>
              at + 76 <= |bs| && rest == bs[at + 76..] && SpentOutAt(bs, at, e) && e.spender in txs
            case Failed(e) => e == if |bs| < at + 76 then ShortRead else MissingTxRecord
  {
    hide Number, GetOutPoint, GetTxKey, GetSpender, OutPointAt, KeyAt, OutPointFits, KeyFits, IsHash;
    OutPointRead(bs, at);
    if at + 36 <= |bs| { KeyRead(bs, at + 36); }
    if at + 44 <= |bs| { SpenderRead(txs, bs, at + 44); }
  }

  lemma SpentInRead(txs: Pool, bs: Bytes, at: nat)
    requires at <= |bs|
    ensures match GetSpentIn(txs, bs[at..])
            case Done(e, rest) =>
              at + 68 <= |bs| && rest == bs[at + 68..] && SpentInAt(bs, at, e) && e.spender in txs
            case Failed(e) => e == if |bs| < at + 68 then ShortRead else MissingTxRecord
  {
    hide Number, GetOutPoint, GetSpender, OutPointAt, OutPointFits, IsHash;
    OutPointRead(bs, at);
    if at + 36 <= |bs| { SpenderRead(txs, bs, at + 36); }
  }

  /** A file is refused as too old exactly when the number in its first four
      bytes is below four. */
  lemma VersionRead(w: Wire, bs: Bytes)
    requires |bs| >= 4
    ensures exists v: nat :: IsUint32(v) && Number(bs, 0, 4, v)
              && GetStore(w, bs) == if v < 4 then Failed(UnsupportedVersion) else GetStore(w, PutUint32(4) + bs[4..])
  {
    hide Number, GetCounted, GetPool, Uint32;
    assert bs[0..] == bs;
    Uint32Read(bs, 0);
    Uint32RoundTrip(4, bs[4..]);
  }
}
