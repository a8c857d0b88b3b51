/** Deterministic key chaining over an abstract curve and cipher. */
module KeyChain {
  import opened Division
  import opened TxTypes

  datatype Point = Point(x: nat, y: nat)

  type Scalar = nat
  type AddrKey = nat
  type Chaincode = nat
  type Passphrase = nat
  type AesKey = nat
  type InitVector = nat

  /** The curve (order, multiples of the base point, scalar multiplication,
      which points parse), the hashes taken of a public key, and the cipher. */
  datatype Crypto = Crypto(
    order: nat,
    base: Scalar -> Point,
    times: (Scalar, Point) -> Point,
    parses: Point -> bool,
    hash: Point -> nat,
    address: Point -> AddrKey,
    kdf: Passphrase -> AesKey,
    encrypt: (AesKey, InitVector, Scalar) -> nat,
    decrypt: (AesKey, InitVector, nat) -> Scalar)

  /** The multiples of the base point form a cyclic group, multiplying one of
      them multiplies its scalar, and decryption undoes encryption. */
  ghost predicate Lawful(c: Crypto) {
    && 0 < c.order
    && (forall j: Scalar, k: Scalar :: c.base(j) == c.base(k) <==> j % c.order == k % c.order)
    && (forall a: Scalar, k: Scalar :: c.times(a, c.base(k)) == c.base((a * k) % c.order))
    && (forall key, iv, x :: c.decrypt(key, iv, c.encrypt(key, iv, x)) == x)
  }

  /** No text decrypts to the private key of root under both keys. */
  ghost predicate Tells(c: Crypto, root: Point, j: AesKey, k: AesKey) {
    j == k || forall iv, ct :: c.base(c.decrypt(j, iv, ct)) != root || c.base(c.decrypt(k, iv, ct)) != root
  }

  // ---------------------------------------------------------------- one step

  /** Bit by bit, one where a and b differ. */
  function Xor(a: nat, b: nat): nat
    decreases a + b
  {
    if a == 0 && b == 0 then 0 else (if a % 2 == b % 2 then 0 else 1) + 2 * Xor(a / 2, b / 2)
  }

  lemma {:induction false} XorTwice(a: nat, b: nat)
    ensures Xor(Xor(a, b), b) == a
    decreases a + b
  {
    if a != 0 || b != 0 {
      XorTwice(a / 2, b / 2);
      XorStep(a, b);
      XorStep(Xor(a, b), b);
    } else {
      assert Xor(0, 0) == 0;
    }
  }

  /** The lowest bits and the rest go their own ways. */
  lemma XorStep(a: nat, b: nat)
    ensures Xor(a, b) == (if a % 2 == b % 2 then 0 else 1) + 2 * Xor(a / 2, b / 2)
    ensures Xor(a, b) % 2 == (if a % 2 == b % 2 then 0 else 1) && Xor(a, b) / 2 == Xor(a / 2, b / 2)
  {
  }

  /** Different chain codes multiply a key differently. */
  lemma OwnMultiplier(h: nat, cc: Chaincode, cc': Chaincode)
    requires cc != cc'
    ensures Xor(h, cc) != Xor(h, cc')
  {
    XorTwice(cc, h);
    XorTwice(cc', h);
    XorSwap(h, cc);
    XorSwap(h, cc');
  }

  lemma {:induction false} XorSwap(a: nat, b: nat)
    ensures Xor(a, b) == Xor(b, a)
    decreases a + b
  {
    if a != 0 || b != 0 { XorSwap(a / 2, b / 2); }
  }

  function ChainedPrivKey(c: Crypto, priv: Scalar, pub: Point, cc: Chaincode): Scalar
    requires 0 < c.order
  {
    (Xor(c.hash(pub), cc) * priv) % c.order
  }

  function ChainedPubKey(c: Crypto, pub: Point, cc: Chaincode): Point {
    c.times(Xor(c.hash(pub), cc), pub)
  }

  /** Chaining a private key and chaining its public key lead to a matching
      pair: a locked store can extend the chain an unlocked one would. */
  lemma ChainsMatch(c: Crypto, priv: Scalar, cc: Chaincode)
    requires Lawful(c)
    ensures c.base(ChainedPrivKey(c, priv, c.base(priv), cc)) == ChainedPubKey(c, c.base(priv), cc)
  {
  }

  // --------------------------------------------------------------- the chain

  /** The nth public key after the root. */
  function PubAt(c: Crypto, root: Point, cc: Chaincode, n: nat): Point {
    if n == 0 then root else ChainedPubKey(c, PubAt(c, root, cc, n - 1), cc)
  }

  function PrivAt(c: Crypto, root: Scalar, cc: Chaincode, n: nat): Scalar
    requires 0 < c.order
  {
    if n == 0 then root else ChainedPrivKey(c, PrivAt(c, root, cc, n - 1), c.base(PrivAt(c, root, cc, n - 1)), cc)
  }

  /** The whole public chain is the chain of the private keys' points. */
  lemma {:induction false} ChainsMatchAt(c: Crypto, root: Scalar, cc: Chaincode, n: nat)
    requires Lawful(c)
    ensures PubAt(c, c.base(root), cc, n) == c.base(PrivAt(c, root, cc, n))
  {
    if n > 0 {
      ChainsMatchAt(c, root, cc, n - 1);
      ChainsMatch(c, PrivAt(c, root, cc, n - 1), cc);
    }
  }

  /** The product, over these keys, of each key's hash combined with the chain
      code. */
  function Product(c: Crypto, pubs: seq<Point>, cc: Chaincode): nat {
    if pubs == [] then 1 else Xor(c.hash(pubs[|pubs|-1]), cc) * Product(c, pubs[..|pubs|-1], cc)
  }

  /** The first n keys of the chain. */
  function PubsAt(c: Crypto, root: Point, cc: Chaincode, n: nat): (pubs: seq<Point>)
    ensures |pubs| == n
  {
    seq(n, i requires 0 <= i < n => PubAt(c, root, cc, i))
  }

  lemma PubsNext(c: Crypto, root: Point, cc: Chaincode, n: nat)
    requires 0 < n
    ensures Product(c, PubsAt(c, root, cc, n), cc)
              == Xor(c.hash(PubAt(c, root, cc, n - 1)), cc) * Product(c, PubsAt(c, root, cc, n - 1), cc)
  {
    var pubs := PubsAt(c, root, cc, n);
    assert pubs[..n-1] == PubsAt(c, root, cc, n - 1) && pubs[n-1] == PubAt(c, root, cc, n - 1);
  }

  /** The nth key is the root key times the product over the keys before it. */
  lemma {:induction false} ChainProduct(c: Crypto, k: Scalar, cc: Chaincode, n: nat)
    requires Lawful(c)
    ensures PubAt(c, c.base(k), cc, n) == c.base((k * Product(c, PubsAt(c, c.base(k), cc, n), cc)) % c.order)
  {
    var root := c.base(k);
    if n > 0 {
      ChainProduct(c, k, cc, n - 1);
      PubsNext(c, root, cc, n);
      var x, p := Xor(c.hash(PubAt(c, root, cc, n - 1)), cc), Product(c, PubsAt(c, root, cc, n - 1), cc);
      assert PubAt(c, root, cc, n) == c.times(x, PubAt(c, root, cc, n - 1));
      hide Lawful, PubsAt, Product, Xor, PubAt;
      OneFactor(c, k, p, x);
    } else {
      assert PubsAt(c, root, cc, 0) == [] && k * 1 == k;
      BaseReduced(c, k);
    }
  }

  lemma OneFactor(c: Crypto, k: Scalar, p: nat, x: nat)
    requires Lawful(c)
    ensures c.times(x, c.base((k * p) % c.order)) == c.base((k * (x * p)) % c.order)
  {
    assert 0 < c.order;
    hide Lawful;
    TimesBase(c, x, (k * p) % c.order);
    ModFactor(x, k * p, c.order);
    Rearranged(x, k, p);
  }

  lemma TimesBase(c: Crypto, a: Scalar, k: Scalar)
    requires Lawful(c)
    ensures c.order > 0 && c.times(a, c.base(k)) == c.base((a * k) % c.order)
  {
  }

  lemma BaseReduced(c: Crypto, k: Scalar)
    requires Lawful(c)
    ensures c.base(k) == c.base(k % c.order)
  {
    RemainderTwice(k, c.order);
  }

  const ROOT_IDX := -1
  const IMPORTED_IDX := -2

  /** The address at a chain index; the root is at -1. */
  function AddrAt(c: Crypto, root: Point, cc: Chaincode, i: int): AddrKey
    requires ROOT_IDX <= i
  {
    c.address(PubAt(c, root, cc, i + 1))
  }

  /** The first n keys of the chain, the root among them, have different
      addresses. */
  ghost predicate Distinct(c: Crypto, root: Point, cc: Chaincode, n: int) {
    forall i: nat, j: nat :: i < j < n ==> c.address(PubAt(c, root, cc, i)) != c.address(PubAt(c, root, cc, j))
  }

  /** The address after last is none of those up to last. */
  ghost predicate NewAfter(c: Crypto, root: Point, cc: Chaincode, last: int)
    requires ROOT_IDX <= last
  {
    forall i :: ROOT_IDX <= i <= last ==> AddrAt(c, root, cc, i) != AddrAt(c, root, cc, last + 1)
  }

  lemma DistinctNew(c: Crypto, root: Point, cc: Chaincode, n: int, last: int)
    requires Distinct(c, root, cc, n) && ROOT_IDX <= last && last + 2 < n
    ensures NewAfter(c, root, cc, last)
  {
    forall i | ROOT_IDX <= i <= last ensures AddrAt(c, root, cc, i) != AddrAt(c, root, cc, last + 1) {
      var a: nat, b: nat := i + 1, last + 2;
      assert c.address(PubAt(c, root, cc, a)) != c.address(PubAt(c, root, cc, b));
    }
  }

  // --------------------------------------------------------------- addresses

  /** A public key address: its private key is kept encrypted, and in the clear
      while it has been unlocked. */
  datatype Addr = Addr(
    pub: Point,
    chainIndex: int,
    chaincode: Chaincode,
    iv: InitVector,
    privKey: nat,
    clear: Option<Scalar>,
    hasPrivKey: bool,
    encrypted: bool,
    createNextUnlock: bool,
    change: bool)

  datatype WalletAddr = PubKeyAddr(a: Addr) | ScriptAddr(script: nat)

  type AddrMap = map<AddrKey, WalletAddr>
  type IndexMap = map<int, AddrKey>

  function Imported(w: WalletAddr): bool {
    w.ScriptAddr? || w.a.chainIndex == IMPORTED_IDX
  }

  // ---------------------------------------------------------- what they keep

  /** The chain address i is in the map under its key, with its index. */
  ghost predicate OnChain(c: Crypto, root: Point, cc: Chaincode, addrs: AddrMap, i: int)
    requires ROOT_IDX <= i
  {
    var k := AddrAt(c, root, cc, i);
    && k in addrs && addrs[k].PubKeyAddr?
    && addrs[k].a.pub == PubAt(c, root, cc, i + 1) && addrs[k].a.chainIndex == i && addrs[k].a.chaincode == cc
  }

  function ChainAddr(c: Crypto, root: Point, cc: Chaincode, addrs: AddrMap, i: int): Addr
    requires ROOT_IDX <= i && OnChain(c, root, cc, addrs, i)
  {
    addrs[AddrAt(c, root, cc, i)].a
  }

  /** The index map covers exactly -1..last, and finds the chain. */
  ghost predicate ChainOk(c: Crypto, root: Point, cc: Chaincode, addrs: AddrMap, idx: IndexMap, last: int) {
    && ROOT_IDX <= last
    && (forall i :: i in idx <==> ROOT_IDX <= i <= last)
    && (forall i :: ROOT_IDX <= i <= last ==> idx[i] == AddrAt(c, root, cc, i) && OnChain(c, root, cc, addrs, i))
  }

  /** Every address is under its own key, and is imported or on the chain. */
  ghost predicate EntriesOk(c: Crypto, root: Point, cc: Chaincode, addrs: AddrMap, last: int) {
    (forall k :: k in addrs && addrs[k].ScriptAddr? ==> addrs[k].script == k) &&
    forall k :: k in addrs && addrs[k].PubKeyAddr? ==>
      && k == c.address(addrs[k].a.pub)
      && ((addrs[k].a.chainIndex == IMPORTED_IDX && !addrs[k].a.createNextUnlock)
          || (ROOT_IDX <= addrs[k].a.chainIndex <= last && k == AddrAt(c, root, cc, addrs[k].a.chainIndex)))
  }

  /** a's encrypted private key belongs to its public key. */
  ghost predicate KeyOk(c: Crypto, a: Addr, master: AesKey) {
    if a.hasPrivKey then
      && a.encrypted && c.base(c.decrypt(master, a.iv, a.privKey)) == a.pub
      && (a.clear.Some? ==> a.clear.value == c.decrypt(master, a.iv, a.privKey))
    else !a.encrypted && a.clear.None?
  }

  /** Every address with a private key decrypts under master; imported ones
      have one. */
  ghost predicate KeysOk(c: Crypto, addrs: AddrMap, master: AesKey) {
    forall k :: k in addrs && addrs[k].PubKeyAddr? ==>
      KeyOk(c, addrs[k].a, master) && (addrs[k].a.chainIndex == IMPORTED_IDX ==> addrs[k].a.hasPrivKey)
  }

  /** The chain addresses with a private key are those below n; the others wait
      for the next unlock. */
  ghost predicate KeysBelow(c: Crypto, root: Point, cc: Chaincode, addrs: AddrMap, last: int, n: int) {
    forall i :: ROOT_IDX <= i <= last && OnChain(c, root, cc, addrs, i) ==>
      var a := ChainAddr(c, root, cc, addrs, i);
      (a.hasPrivKey <==> i < n) && (a.createNextUnlock <==> !a.hasPrivKey)
  }

  /** Where the keys stop when the first missing one is recorded as start. */
  function FirstMissing(start: int, last: int): int {
    if start == 0 then last + 1 else start
  }

  /** The chain addresses without private key are exactly those from start on;
      none if start is 0. */
  ghost predicate MissingOk(c: Crypto, root: Point, cc: Chaincode, addrs: AddrMap, last: int, start: int) {
    (start == 0 || 0 < start <= last) && KeysBelow(c, root, cc, addrs, last, FirstMissing(start, last))
  }

  /** The chain addresses that wait for their private key are exactly those from
      start on; none if start is 0. */
  ghost predicate WaitsFrom(c: Crypto, root: Point, cc: Chaincode, addrs: AddrMap, last: int, start: int) {
    && (start == 0 || 0 < start <= last)
    && (forall i :: ROOT_IDX <= i <= last && OnChain(c, root, cc, addrs, i) ==>
          (ChainAddr(c, root, cc, addrs, i).createNextUnlock <==> start != 0 && start <= i))
  }

  lemma MissingWaits(c: Crypto, root: Point, cc: Chaincode, addrs: AddrMap, last: int, start: int)
    requires MissingOk(c, root, cc, addrs, last, start)
    ensures WaitsFrom(c, root, cc, addrs, last, start)
  {
  }

  ghost predicate NoneClear(addrs: AddrMap) {
    forall k :: k in addrs && addrs[k].PubKeyAddr? ==> addrs[k].a.clear.None?
  }

  ghost predicate NoPrivKeys(addrs: AddrMap) {
    forall k :: k in addrs && addrs[k].PubKeyAddr? ==>
          !addrs[k].a.hasPrivKey && !addrs[k].a.encrypted && addrs[k].a.clear.None?
  }

  // ------------------------------------------------------ one more address

  /** a continues the chain after last. */
  ghost predicate Continues(c: Crypto, root: Point, cc: Chaincode, last: int, a: Addr)
    requires ROOT_IDX <= last
  {
    a.pub == PubAt(c, root, cc, last + 2) && a.chainIndex == last + 1 && a.chaincode == cc
  }

  lemma AddKeepsChain(c: Crypto, root: Point, cc: Chaincode, addrs: AddrMap, idx: IndexMap, last: int, a: Addr)
    requires ChainOk(c, root, cc, addrs, idx, last) && EntriesOk(c, root, cc, addrs, last)
    requires NewAfter(c, root, cc, last) && Continues(c, root, cc, last, a)
    ensures c.address(a.pub) == AddrAt(c, root, cc, last + 1)
    ensures var k := c.address(a.pub);
            ChainOk(c, root, cc, addrs[k := PubKeyAddr(a)], idx[last + 1 := k], last + 1)
            && EntriesOk(c, root, cc, addrs[k := PubKeyAddr(a)], last + 1)
  {
    var k := c.address(a.pub);
    forall i | ROOT_IDX <= i <= last
      ensures OnChain(c, root, cc, addrs[k := PubKeyAddr(a)], i) && AddrAt(c, root, cc, i) != k
    {
      assert OnChain(c, root, cc, addrs, i);
    }
    assert OnChain(c, root, cc, addrs[k := PubKeyAddr(a)], last + 1);
  }

  /** Two addresses that collide are not told apart: adding the next address
      keeps the chain exactly when it is a new one. */
  lemma AddKeepsChainIff(c: Crypto, root: Point, cc: Chaincode, addrs: AddrMap, idx: IndexMap, last: int, a: Addr)
    requires ChainOk(c, root, cc, addrs, idx, last) && EntriesOk(c, root, cc, addrs, last)
    requires Continues(c, root, cc, last, a)
    ensures var k := c.address(a.pub);
            ChainOk(c, root, cc, addrs[k := PubKeyAddr(a)], idx[last + 1 := k], last + 1) <==>
                  NewAfter(c, root, cc, last)
  {
    var k := c.address(a.pub);
    if NewAfter(c, root, cc, last) {
      AddKeepsChain(c, root, cc, addrs, idx, last, a);
    } else {
      var i :| ROOT_IDX <= i <= last && AddrAt(c, root, cc, i) == AddrAt(c, root, cc, last + 1);
      assert !OnChain(c, root, cc, addrs[k := PubKeyAddr(a)], i);
    }
  }

  lemma AddKeepsKeys(c: Crypto, addrs: AddrMap, master: AesKey, k: AddrKey, a: Addr)
    requires KeysOk(c, addrs, master) && KeyOk(c, a, master) && (a.chainIndex == IMPORTED_IDX ==> a.hasPrivKey)
    ensures KeysOk(c, addrs[k := PubKeyAddr(a)], master)
  {
  }

  /** An address added with its key when none is missing, or without. */
  lemma AddKeepsMissing(c: Crypto, root: Point, cc: Chaincode, addrs: AddrMap, idx: IndexMap, last: int, n: int,
      a: Addr)
    requires ChainOk(c, root, cc, addrs, idx, last) && KeysBelow(c, root, cc, addrs, last, n)
    requires NewAfter(c, root, cc, last) && Continues(c, root, cc, last, a) && (a.hasPrivKey <==> last + 1 < n)
    requires (a.createNextUnlock <==> !a.hasPrivKey)
    ensures KeysBelow(c, root, cc, addrs[c.address(a.pub) := PubKeyAddr(a)], last + 1, n)
  {
    var k := c.address(a.pub);
    forall i | ROOT_IDX <= i <= last ensures AddrAt(c, root, cc, i) != k { assert OnChain(c, root, cc, addrs, i); }
  }

  /** An address added without its private key. */
  lemma AddKeepsWaits(c: Crypto, root: Point, cc: Chaincode, addrs: AddrMap, idx: IndexMap, last: int, start: int,
      a: Addr)
    requires ChainOk(c, root, cc, addrs, idx, last) && WaitsFrom(c, root, cc, addrs, last, start) && 0 <= last
    requires NewAfter(c, root, cc, last) && Continues(c, root, cc, last, a) && a.createNextUnlock
    ensures WaitsFrom(c, root, cc, addrs[c.address(a.pub) := PubKeyAddr(a)], last + 1, if start == 0 then last + 1
      else start)
  {
    var k := c.address(a.pub);
    forall i | ROOT_IDX <= i <= last ensures AddrAt(c, root, cc, i) != k { assert OnChain(c, root, cc, addrs, i); }
  }

  // ---------------------------------------------- changing addresses in place

  /** b is a with other key material. */
  ghost predicate SameAddr(a: Addr, b: Addr) {
    && b.pub == a.pub && b.chainIndex == a.chainIndex && b.chaincode == a.chaincode
    && (b.createNextUnlock ==> a.createNextUnlock)
  }

  /** addrs' has the addresses of addrs, with other key material. */
  ghost predicate SameAddrs(addrs: AddrMap, addrs': AddrMap) {
    && addrs'.Keys == addrs.Keys
    && forall k :: k in addrs ==>
         && (addrs[k].PubKeyAddr? <==> addrs'[k].PubKeyAddr?)
         && (if addrs[k].PubKeyAddr? then SameAddr(addrs[k].a, addrs'[k].a) else addrs'[k] == addrs[k])
  }

  lemma SameKeepsChain(c: Crypto, root: Point, cc: Chaincode, addrs: AddrMap, addrs': AddrMap, idx: IndexMap, last: int)
    requires SameAddrs(addrs, addrs') && ChainOk(c, root, cc, addrs, idx, last) && EntriesOk(c, root, cc, addrs, last)
    ensures ChainOk(c, root, cc, addrs', idx, last) && EntriesOk(c, root, cc, addrs', last)
  {
    forall i | ROOT_IDX <= i <= last ensures OnChain(c, root, cc, addrs', i) { assert OnChain(c, root, cc, addrs, i); }
  }

  /** addrs' has private keys for the same addresses as addrs. */
  lemma SameKeepsMissing(c: Crypto, root: Point, cc: Chaincode, addrs: AddrMap, addrs': AddrMap, last: int, n: int)
    requires SameAddrs(addrs, addrs') && KeysBelow(c, root, cc, addrs, last, n)
    requires forall k :: k in addrs && addrs[k].PubKeyAddr? ==>
      addrs'[k].a.hasPrivKey == addrs[k].a.hasPrivKey && addrs'[k].a.createNextUnlock == addrs[k].a.createNextUnlock
    ensures KeysBelow(c, root, cc, addrs', last, n)
  {
    forall i | ROOT_IDX <= i <= last && OnChain(c, root, cc, addrs', i) ensures OnChain(c, root, cc, addrs, i) {}
  }

  /** The last chain address, and the step from it to the next. */
  lemma LastOnChain(c: Crypto, root: Point, cc: Chaincode, addrs: AddrMap, idx: IndexMap, last: int)
    requires ChainOk(c, root, cc, addrs, idx, last)
    ensures last in idx && idx[last] in addrs && addrs[idx[last]].PubKeyAddr?
    ensures var a := addrs[idx[last]].a;
            a.chainIndex == last && a.chaincode == cc && ChainedPubKey(c, a.pub, cc) == PubAt(c, root, cc, last + 2)
  {
    assert OnChain(c, root, cc, addrs, last);
  }

  // ------------------------------------------------- what stays of a wallet

  /** b is a, perhaps with its private key made or in the clear. */
  ghost predicate KeptAddr(a: Addr, b: Addr) {
    && b.pub == a.pub && b.chainIndex == a.chainIndex && b.chaincode == a.chaincode && b.change == a.change
    && (a.hasPrivKey ==> b.hasPrivKey && b.iv == a.iv && b.privKey == a.privKey)
  }

  ghost predicate KeptEntry(w: WalletAddr, w': WalletAddr) {
    if w.PubKeyAddr? then w'.PubKeyAddr? && KeptAddr(w.a, w'.a) else w' == w
  }

  ghost predicate NewEntry(w: WalletAddr, last: int) {
    w.PubKeyAddr? && last < w.a.chainIndex && !w.a.change
  }

  /** Every address is kept, and what is new comes after last in the chain: only
      the chain itself may take the place of an imported address. */
  ghost predicate Grows(addrs: AddrMap, addrs': AddrMap, last: int) {
    && addrs.Keys <= addrs'.Keys
    && forall k :: k in addrs' ==> (k in addrs && KeptEntry(addrs[k], addrs'[k])) || NewEntry(addrs'[k], last)
  }

  lemma GrowsSet(addrs: AddrMap, addrs': AddrMap, last: int, k: AddrKey, w: WalletAddr)
    requires Grows(addrs, addrs', last) && (NewEntry(w, last) || (k in addrs' && KeptEntry(addrs'[k], w)))
    ensures Grows(addrs, addrs'[k := w], last)
  {
  }

  lemma GrowsOn(addrs: AddrMap, addrs': AddrMap, addrs'': AddrMap, last: int, last': int)
    requires Grows(addrs, addrs', last) && Grows(addrs', addrs'', last') && last <= last'
    ensures Grows(addrs, addrs'', last)
  {
  }

  lemma GrowsSelf(addrs: AddrMap, last: int)
    ensures Grows(addrs, addrs, last)
  {
  }

  /** The same, and the address at k is marked as used for change. */
  ghost predicate Marks(addrs: AddrMap, addrs': AddrMap, last: int, k: AddrKey) {
    exists w: WalletAddr :: Grows(addrs, addrs'[k := w], last) && k in addrs' && w.PubKeyAddr?
        && addrs'[k] == PubKeyAddr(w.a.(change := true))
  }

  lemma MarksIs(addrs: AddrMap, addrs': AddrMap, last: int, k: AddrKey)
    requires Grows(addrs, addrs', last) && k in addrs' && addrs'[k].PubKeyAddr?
    ensures Marks(addrs, addrs'[k := PubKeyAddr(addrs'[k].a.(change := true))], last, k)
  {
    var marked := addrs'[k := PubKeyAddr(addrs'[k].a.(change := true))];
    assert marked[k := addrs'[k]] == addrs';
  }

  // -------------------------------------------------- what the addresses are

  /** The public keys stored at the indexes from the root on, n of them. */
  function Stored(addrs: AddrMap, idx: IndexMap, n: nat): (pubs: seq<Point>)
    requires forall i :: ROOT_IDX <= i < n - 1 ==> i in idx && idx[i] in addrs && addrs[idx[i]].PubKeyAddr?
    ensures |pubs| == n
  {
    seq(n, i requires 0 <= i < n => addrs[idx[i - 1]].a.pub)
  }

  lemma ChainFound(c: Crypto, root: Point, cc: Chaincode, addrs: AddrMap, idx: IndexMap, last: int)
    requires ChainOk(c, root, cc, addrs, idx, last)
    ensures forall i :: ROOT_IDX <= i <= last ==>
              && i in idx && idx[i] in addrs && addrs[idx[i]].PubKeyAddr?
              && addrs[idx[i]].a.pub == PubAt(c, root, cc, i + 1) && idx[i] == c.address(addrs[idx[i]].a.pub)
              && addrs[idx[i]].a.chainIndex == i && addrs[idx[i]].a.chaincode == cc
  {
    hide PubAt;
    forall i | ROOT_IDX <= i <= last ensures OnChain(c, root, cc, addrs, i) && idx[i] == AddrAt(c, root, cc, i) {}
  }

  lemma StoredAre(c: Crypto, root: Point, cc: Chaincode, addrs: AddrMap, idx: IndexMap, last: int, n: nat)
    requires ChainOk(c, root, cc, addrs, idx, last) && n <= last + 2
    ensures forall i :: ROOT_IDX <= i < n - 1 ==> i in idx && idx[i] in addrs && addrs[idx[i]].PubKeyAddr?
    ensures Stored(addrs, idx, n) == PubsAt(c, root, cc, n)
  {
    hide ChainOk, PubAt;
    ChainFound(c, root, cc, addrs, idx, last);
  }

  /** Each stored address is that of the root key times the product over the
      keys stored before it and the chain code. */
  lemma StoredKeys(c: Crypto, k: Scalar, cc: Chaincode, addrs: AddrMap, idx: IndexMap, last: int)
    requires Lawful(c) && ChainOk(c, c.base(k), cc, addrs, idx, last)
    ensures forall i :: ROOT_IDX <= i <= last ==> i in idx && idx[i] in addrs && addrs[idx[i]].PubKeyAddr?
    ensures forall i :: ROOT_IDX <= i <= last ==>
              var a := addrs[idx[i]].a;
              && a.pub == c.base((k * Product(c, Stored(addrs, idx, i + 1), cc)) % c.order)
              && idx[i] == c.address(a.pub) && a.chainIndex == i && a.chaincode == cc
  {
    hide ChainOk, PubAt, Product, Stored, PubsAt;
    assert 0 < c.order;
    hide Lawful;
    ChainFound(c, c.base(k), cc, addrs, idx, last);
    forall i | ROOT_IDX <= i <= last
      ensures addrs[idx[i]].a.pub == c.base((k * Product(c, Stored(addrs, idx, i + 1), cc)) % c.order)
    {
      StoredAre(c, c.base(k), cc, addrs, idx, last, i + 1);
      ChainProduct(c, k, cc, i + 1);
    }
  }
}
