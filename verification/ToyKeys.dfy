/** A group of seven points with a shift for a cipher: the laws asked of curve,
    hashes and cipher hold together, and a store over them can be used. */
module ToyKeys {
  import opened TxTypes
  import opened KeyChain
  import opened KeyStores
  import opened KeySessions

  const SEVEN: Crypto := Crypto(
    7,
    (k: Scalar) => Point(k % 7, 0),
    (a: Scalar, p: Point) => Point((a * p.x) % 7, 0),
    (p: Point) => p.x != 0,
    (p: Point) => if p.x % 2 == 0 then 10 else 2,
    (p: Point) => p.x,
    (p: Passphrase) => p,
    (key: AesKey, iv: InitVector, x: Scalar) => x + key + iv,
    (key: AesKey, iv: InitVector, ct: nat) => if key + iv <= ct then ct - key - iv else 0)

  const ROOT := Point(1, 0)

  lemma ModTimes(a: nat, k: nat)
    ensures (a * (k % 7)) % 7 == (a * k) % 7
  {
    var q, r := k / 7, k % 7;
    assert a * k == a * r + 7 * (a * q) by {
      assert k == 7 * q + r;
      assert a * (7 * q + r) == a * (7 * q) + a * r;
    }
    AddSevens(a * r, a * q);
  }

  lemma {:induction false} AddSevens(x: nat, n: nat)
    ensures (x + 7 * n) % 7 == x % 7
  {
  }

  lemma SevenLawful()
    ensures Lawful(SEVEN)
  {
    forall a: Scalar, k: Scalar
      ensures SEVEN.times(a, SEVEN.base(k)) == SEVEN.base((a * k) % SEVEN.order)
    {
      ModTimes(a, k);
    }
  }

  /** What the hashes of the seven points become under two chain codes. */
  lemma Multipliers()
    ensures Xor(2, 0) == 2 && Xor(10, 0) == 10 && Xor(2, 6) == 4 && Xor(10, 6) == 12
  {
    assert Xor(1, 0) == 1 && Xor(2, 0) == 2 && Xor(5, 0) == 5 && Xor(10, 0) == 10;
    assert Xor(0, 1) == 1 && Xor(1, 3) == 2 && Xor(2, 6) == 4;
    assert Xor(2, 1) == 3 && Xor(5, 3) == 6 && Xor(10, 6) == 12;
  }

  lemma NextSeven(x: nat, cc: Chaincode)
    requires 0 < x < 7
    ensures ChainedPubKey(SEVEN, Point(x, 0), cc) == Point((Xor(if x % 2 == 0 then 10 else 2, cc) * x) % 7, 0)
  {
  }

  /** The six keys from the root on: 1, 2, 6, 4, 5, 3 with chain code 0. */
  lemma SevenChain()
    ensures PubAt(SEVEN, ROOT, 0, 0) == Point(1, 0) && PubAt(SEVEN, ROOT, 0, 1) == Point(2, 0)
    ensures PubAt(SEVEN, ROOT, 0, 2) == Point(6, 0) && PubAt(SEVEN, ROOT, 0, 3) == Point(4, 0)
    ensures PubAt(SEVEN, ROOT, 0, 4) == Point(5, 0) && PubAt(SEVEN, ROOT, 0, 5) == Point(3, 0)
    ensures PubAt(SEVEN, ROOT, 0, 6) == Point(6, 0)
  {
    Multipliers();
    NextSeven(1, 0);
    NextSeven(2, 0);
    NextSeven(6, 0);
    NextSeven(4, 0);
    NextSeven(5, 0);
    NextSeven(3, 0);
    hide Xor, ChainedPubKey;
  }

  /** With chain code 6 they come in another order: 1, 4, 6, 2, 3, 5. */
  lemma OtherChain()
    ensures PubAt(SEVEN, ROOT, 6, 0) == Point(1, 0) && PubAt(SEVEN, ROOT, 6, 1) == Point(4, 0)
    ensures PubAt(SEVEN, ROOT, 6, 2) == Point(6, 0) && PubAt(SEVEN, ROOT, 6, 3) == Point(2, 0)
    ensures PubAt(SEVEN, ROOT, 6, 4) == Point(3, 0) && PubAt(SEVEN, ROOT, 6, 5) == Point(5, 0)
  {
    Multipliers();
    NextSeven(1, 6);
    NextSeven(4, 6);
    NextSeven(6, 6);
    NextSeven(2, 6);
    NextSeven(3, 6);
    hide Xor, ChainedPubKey;
  }

  lemma SevenDistinct(cc: Chaincode)
    requires cc == 0 || cc == 6
    ensures Distinct(SEVEN, ROOT, cc, 6)
  {
    SevenChain();
    OtherChain();
    hide PubAt;
    forall i: nat, j: nat | i < j < 6
      ensures SEVEN.address(PubAt(SEVEN, ROOT, cc, i)) != SEVEN.address(PubAt(SEVEN, ROOT, cc, j))
    {
      assert i in {0, 1, 2, 3, 4, 5} && j in {0, 1, 2, 3, 4, 5};
    }
  }

  /** The seventh key is the third again: chains are distinct only for so long. */
  lemma SevenRepeats()
    ensures PubAt(SEVEN, ROOT, 0, 6) == PubAt(SEVEN, ROOT, 0, 2) && !Distinct(SEVEN, ROOT, 0, 7)
  {
    SevenChain();
    assert SEVEN.address(PubAt(SEVEN, ROOT, 0, 2)) == SEVEN.address(PubAt(SEVEN, ROOT, 0, 6));
  }

  /** Neighbouring keys never decrypt one text to the root's private key. */
  lemma SevenTells(k: AesKey)
    ensures AllTell(SEVEN, ROOT, {k, k + 1})
  {
  }

  lemma OnlyFive()
    ensures AllTell(SEVEN, ROOT, {5}) && Tells(SEVEN, ROOT, 5, 5)
  {
  }

  lemma FirstParse()
    ensures ParseBetween(SEVEN, ROOT, 0, 0, 3)
  {
    SevenChain();
    hide PubAt;
  }

  /** A store over the seven points: created, and unlocked. */
  method UnlockedStore() returns (s: KeyStore)
    ensures fresh(s) && s.Valid() && s.Pooled() && !s.watchingOnly && s.secret == Some(5)
    ensures s.c == SEVEN && s.root == ROOT && AllTell(s.c, s.root, {s.master})
    ensures Distinct(s.c, s.root, s.cc, s.lastChainIdx + 4)
  {
    hide Lawful, Distinct, Tells, ParseBetween, PubAt, Xor, ChainedPubKey, NoneImported, Grows, AddrAt;
    hide KeyStore.Keyed, KeyStore.Bare;
    SevenLawful();
    SevenDistinct(0);
    OnlyFive();
    hide AllTell;
    FewerDistinct(SEVEN, ROOT, 0, 3, 6);
    FewerDistinct(SEVEN, ROOT, 0, 5, 6);
    assert SEVEN.base(1) == ROOT && SEVEN.kdf(5) == 5;
    FirstParse();
    var made := KeyStore.NewStore(SEVEN, 1, 0, 5, 2);
    s := made.value;
    var err := s.Unlock(5);
  }

  /** The two chain codes and the first addresses of their chains. */
  ghost predicate Starts(cc: Chaincode, first: AddrKey) {
    (cc == 0 && first == 2) || (cc == 6 && first == 4)
  }

  /** The first two addresses of its chain, the second added on request after
      a wrong and a right passphrase.  The same root key with another chain code
      leads to other addresses. */
  method TwoAddresses(cc: Chaincode) returns (out: Fallible<seq<Option<AddrKey>>>)
    requires cc == 0 || cc == 6
    ensures cc == 0 ==> out == Got([Some(2), None, None, Some(6)])
    ensures cc == 6 ==> out == Got([Some(4), None, None, Some(6)])
  {
    hide Lawful, Distinct, Tells, ParseBetween, Answers, AllTell, LockKeys, Needs;
    var acts := [Next(1), UnlockWith(4), UnlockWith(5), Next(1)];
    SevenLawful();
    SevenDistinct(cc);
    FourActs(acts, cc, if cc == 0 then 2 else 4);
    RootParts(acts, cc);
    ghost var keys;
    out, keys := NewSession(SEVEN, 1, cc, 5, 1, acts);
  }

  lemma RootParts(acts: seq<Act>, cc: Chaincode)
    requires acts == [Next(1), UnlockWith(4), UnlockWith(5), Next(1)] && (cc == 0 || cc == 6)
    ensures SEVEN.base(1) == ROOT && SEVEN.kdf(5) == 5 && ParseBetween(SEVEN, ROOT, cc, 0, 2)
    ensures AllTell(SEVEN, ROOT, LockKeys(SEVEN, acts) + {5})
  {
    SevenChain();
    OtherChain();
    SevenTells(4);
    hide PubAt, Tells;
    assert forall k :: k in LockKeys(SEVEN, acts) + {5} ==> k == 4 || k == 5;
  }

  const START := View(ROOT_IDX, 0, false, false, 5)

  lemma FourActs(acts: seq<Act>, cc: Chaincode, first: AddrKey)
    requires acts == [Next(1), UnlockWith(4), UnlockWith(5), Next(1)] && Starts(cc, first)
    ensures Needs(acts) == 4
    ensures Answers(SEVEN, ROOT, cc, START, acts) == [Some(first), None, None, Some(6)]
  {
    FirstTwo(cc, first);
    LastTwo(cc);
    var two := [Next(1), UnlockWith(4)];
    hide Answers, AfterAll, Needs, PubAt, Answer, After;
    ActNext(SEVEN, ROOT, cc, START, two, UnlockWith(5));
    ActNext(SEVEN, ROOT, cc, START, two + [UnlockWith(5)], Next(1));
    assert acts == two + [UnlockWith(5)] + [Next(1)];
  }

  lemma FirstNext(cc: Chaincode, first: AddrKey)
    requires Starts(cc, first)
    ensures Answer(SEVEN, ROOT, cc, START, Next(1)) == Some(first)
    ensures After(SEVEN, ROOT, cc, START, Next(1)) == View(0, 0, false, false, 5)
  {
    SevenChain();
    OtherChain();
    hide PubAt;
  }

  lemma WrongPass(cc: Chaincode)
    ensures Answer(SEVEN, ROOT, cc, View(0, 0, false, false, 5), UnlockWith(4)) == None
    ensures After(SEVEN, ROOT, cc, View(0, 0, false, false, 5), UnlockWith(4)) == View(0, 0, false, false, 5)
    ensures Needs([]) == 0
  {
    assert SEVEN.kdf(4) == 4;
  }

  lemma FirstTwo(cc: Chaincode, first: AddrKey)
    requires Starts(cc, first)
    ensures Answers(SEVEN, ROOT, cc, START, [Next(1), UnlockWith(4)]) == [Some(first), None]
    ensures AfterAll(SEVEN, ROOT, cc, START, [Next(1), UnlockWith(4)]) == View(0, 0, false, false, 5)
    ensures Needs([Next(1), UnlockWith(4)]) == 2
  {
    hide Answers, AfterAll, Needs, PubAt, Answer, After, Starts, CanHand, Reached;
    FirstNext(cc, first);
    WrongPass(cc);
    NoAnswers(SEVEN, ROOT, cc, START);
    ActNext(SEVEN, ROOT, cc, START, [], Next(1));
    ActNext(SEVEN, ROOT, cc, START, [Next(1)], UnlockWith(4));
    assert [] + [Next(1)] == [Next(1)] && [Next(1)] + [UnlockWith(4)] == [Next(1), UnlockWith(4)];
  }

  lemma LastTwo(cc: Chaincode)
    requires cc == 0 || cc == 6
    ensures After(SEVEN, ROOT, cc, View(0, 0, false, false, 5), UnlockWith(5)) == View(0, 0, false, true, 5)
    ensures Answer(SEVEN, ROOT, cc, View(0, 0, false, false, 5), UnlockWith(5)) == None
    ensures Answer(SEVEN, ROOT, cc, View(0, 0, false, true, 5), Next(1)) == Some(6)
  {
    SevenChain();
    OtherChain();
    assert SEVEN.kdf(5) == 5;
    hide PubAt;
  }
}
