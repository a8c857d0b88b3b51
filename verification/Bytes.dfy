/** Fixed-width little-endian numbers, and reading from the front of a stream. */
module ByteCodes {

  newtype Byte = x: int | 0 <= x < 256

  type Bytes = seq<Byte>

  /** Why a stream could not be decoded. */
  datatype ReadError = ShortRead | BadPointerByte | BadBoolByte | UnsupportedVersion | MissingTxRecord

  datatype Read<+T> = Done(value: T, rest: Bytes) | Failed(error: ReadError)

  /** The first n bytes. */
  function Take(bs: Bytes, n: nat): Read<Bytes> {
    if |bs| < n then Failed(ShortRead) else Done(bs[..n], bs[n..])
  }

  function Pow256(n: nat): (p: nat)
    ensures p > 0
  {
    if n == 0 then 1 else 256 * Pow256(n - 1)
  }

  const TWO_31 := 0x8000_0000
  const TWO_32 := 0x1_0000_0000
  const TWO_63 := 0x8000_0000_0000_0000
  const TWO_64 := 0x1_0000_0000_0000_0000

  lemma Powers()
    ensures Pow256(4) == TWO_32 && Pow256(8) == TWO_64
  {
    assert Pow256(1) == 256 && Pow256(2) == 0x1_0000 && Pow256(3) == 0x100_0000 && Pow256(4) == TWO_32;
    assert Pow256(5) == 0x100_0000_0000 && Pow256(6) == 0x1_0000_0000_0000 && Pow256(7) == 0x100_0000_0000_0000;
  }

  /** x in n bytes, least significant first. */
  function LittleEndian(n: nat, x: nat): (bs: Bytes)
    ensures |bs| == n
  {
    if n == 0 then [] else [(x % 256) as Byte] + LittleEndian(n - 1, x / 256)
  }

  function FromLittleEndian(bs: Bytes): nat {
    if bs == [] then 0 else bs[0] as nat + 256 * FromLittleEndian(bs[1..])
  }

  lemma {:induction false} LittleEndianRoundTrip(n: nat, x: nat)
    requires x < Pow256(n)
    ensures FromLittleEndian(LittleEndian(n, x)) == x
  {
    if n > 0 {
      LittleEndianRoundTrip(n - 1, x / 256);
      assert LittleEndian(n, x)[1..] == LittleEndian(n - 1, x / 256);
    }
  }

  lemma {:induction false} FromLittleEndianBound(bs: Bytes)
    ensures FromLittleEndian(bs) < Pow256(|bs|)
  {
    if bs != [] { FromLittleEndianBound(bs[1..]); }
  }

  // ------------------------------------------------------------ machine integers

  function PutUint32(x: int): (bs: Bytes)
    ensures |bs| == 4
  {
    LittleEndian(4, x % TWO_32)
  }

  /** Signed values are written as their two's complement. */
  function PutUint64(x: int): (bs: Bytes)
    ensures |bs| == 8
  {
    LittleEndian(8, x % TWO_64)
  }

  function Uint32(bs: Bytes): Read<nat> {
    match Take(bs, 4)
    case Failed(e) => Failed(e)
    case Done(b, rest) => Done(FromLittleEndian(b), rest)
  }

  function Int32(bs: Bytes): Read<int> {
    match Uint32(bs)
    case Failed(e) => Failed(e)
    case Done(x, rest) => Done(if x < TWO_31 then x else x - TWO_32, rest)
  }

  function Int64(bs: Bytes): Read<int> {
    match Take(bs, 8)
    case Failed(e) => Failed(e)
    case Done(b, rest) =>
      var x := FromLittleEndian(b);
      Done(if x < TWO_63 then x else x - TWO_64, rest)
  }

  predicate IsInt32(x: int) { -TWO_31 <= x < TWO_31 }
  predicate IsInt64(x: int) { -TWO_63 <= x < TWO_63 }
  predicate IsUint32(x: int) { 0 <= x < TWO_32 }

  lemma TakeFront(a: Bytes, rest: Bytes)
    ensures Take(a + rest, |a|) == Done(a, rest)
  {
  }

  /** Any integer reads back as its remainder. */
  lemma Uint32RoundTrip(x: int, rest: Bytes)
    ensures Uint32(PutUint32(x) + rest) == Done(x % TWO_32, rest)
  {
    Powers();
    TakeFront(PutUint32(x), rest);
    LittleEndianRoundTrip(4, x % TWO_32);
  }

  lemma Int32RoundTrip(x: int, rest: Bytes)
    requires IsInt32(x)
    ensures Int32(PutUint32(x) + rest) == Done(x, rest)
  {
    Uint32RoundTrip(x, rest);
  }

  lemma Int64RoundTrip(x: int, rest: Bytes)
    requires IsInt64(x)
    ensures Int64(PutUint64(x) + rest) == Done(x, rest)
  {
    Powers();
    TakeFront(PutUint64(x), rest);
    LittleEndianRoundTrip(8, x % TWO_64);
  }

  // ------------------------------------------------------------------ hashes

  const HASH_SIZE := 32

  predicate IsHash(h: nat) { h < Pow256(HASH_SIZE) }

  function PutHash(h: nat): (bs: Bytes)
    ensures |bs| == HASH_SIZE
  {
    LittleEndian(HASH_SIZE, h)
  }

  function GetHash(bs: Bytes): Read<nat> {
    match Take(bs, HASH_SIZE)
    case Failed(e) => Failed(e)
    case Done(b, rest) => Done(FromLittleEndian(b), rest)
  }

  lemma HashRoundTrip(h: nat, rest: Bytes)
    requires IsHash(h)
    ensures GetHash(PutHash(h) + rest) == Done(h, rest)
  {
    TakeFront(PutHash(h), rest);
    LittleEndianRoundTrip(HASH_SIZE, h);
  }
}
