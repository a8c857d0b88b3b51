/** What a key store hands out over any sequence of requests. */
module KeySessions {
  import opened TxTypes
  import opened KeyChain
  import opened KeyStores

  datatype Act =
    | LockIt
    | UnlockWith(p: Passphrase)
    | ChangeTo(p: Passphrase)
    | Next(keypoolSize: nat)
    | NextForChange(keypoolSize: nat)
    | ImportKey(priv: Scalar)

  predicate Asks(act: Act) {
    act.Next? || act.NextForChange?
  }

  /** Where a store stands: the last index handed out, the end of its chain,
      and which key it is locked with. */
  datatype View = View(used: int, last: int, watching: bool, unlocked: bool, master: AesKey) {
    predicate Ok() { ROOT_IDX <= used <= last }
  }

  ghost function ViewOf(s: KeyStore): View
    reads s
  {
    View(s.highestUsed, s.lastChainIdx, s.watchingOnly, s.secret.Some?, if s.watchingOnly then 0 else s.master)
  }

  // ------------------------------------------------ answers, without a store

  ghost predicate Served(c: Crypto, root: Point, cc: Chaincode, v: View, act: Act)
    requires v.Ok()
  {
    Asks(act) && CanHand(c, root, cc, v.used, v.last, v.unlocked, act.keypoolSize)
  }

  ghost function Answer(c: Crypto, root: Point, cc: Chaincode, v: View, act: Act): Option<AddrKey>
    requires v.Ok()
  {
    if Served(c, root, cc, v, act) then Some(AddrAt(c, root, cc, v.used + 1)) else None
  }

  ghost function After(c: Crypto, root: Point, cc: Chaincode, v: View, act: Act): (v': View)
    requires v.Ok()
    ensures v'.Ok() && v'.used == v.used + if Served(c, root, cc, v, act) then 1 else 0
  {
    match act
    case LockIt => v.(unlocked := false)
    case UnlockWith(p) => if v.watching || c.kdf(p) != v.master then v else v.(unlocked := true)
    case ChangeTo(p) => if v.watching || !v.unlocked then v else v.(master := c.kdf(p))
    case ImportKey(_) => v
    case _ =>
      var last := Reached(c, root, cc, v.used, v.last, v.unlocked, act.keypoolSize);
      ParsedSome(c, root, cc, v.last + 2, Wanted(v.unlocked, act.keypoolSize));
      v.(last := last, used := v.used + if Served(c, root, cc, v, act) then 1 else 0)
  }

  ghost function AfterAll(c: Crypto, root: Point, cc: Chaincode, v: View, acts: seq<Act>): (v': View)
    requires v.Ok()
    ensures v'.Ok()
  {
    if acts == [] then v else After(c, root, cc, AfterAll(c, root, cc, v, acts[..|acts|-1]), acts[|acts|-1])
  }

  ghost function Answers(c: Crypto, root: Point, cc: Chaincode, v: View, acts: seq<Act>): (out: seq<Option<AddrKey>>)
    requires v.Ok()
    ensures |out| == |acts|
  {
    if acts == [] then [] else
    var n := |acts| - 1;
    Answers(c, root, cc, v, acts[..n]) + [Answer(c, root, cc, AfterAll(c, root, cc, v, acts[..n]), acts[n])]
  }

  lemma NoAnswers(c: Crypto, root: Point, cc: Chaincode, v: View)
    requires v.Ok()
    ensures Answers(c, root, cc, v, []) == [] && AfterAll(c, root, cc, v, []) == v
  {
  }

  /** One act more. */
  lemma ActNext(c: Crypto, root: Point, cc: Chaincode, v: View, acts: seq<Act>, a: Act)
    requires v.Ok()
    ensures Answers(c, root, cc, v, acts + [a])
              == Answers(c, root, cc, v, acts) + [Answer(c, root, cc, AfterAll(c, root, cc, v, acts), a)]
    ensures AfterAll(c, root, cc, v, acts + [a]) == After(c, root, cc, AfterAll(c, root, cc, v, acts), a)
    ensures Needs(acts + [a]) == Needs(acts) + Need(a)
  {
    assert (acts + [a])[..|acts|] == acts;
  }

  /** The addresses among the answers, in order. */
  function Handed(out: seq<Option<AddrKey>>): seq<AddrKey> {
    if out == [] then [] else Handed(out[..|out|-1]) + if out[|out|-1].Some? then [out[|out|-1].value] else []
  }

  /** n chain addresses from index `first` on. */
  function Stretch(c: Crypto, root: Point, cc: Chaincode, first: int, n: nat): (s: seq<AddrKey>)
    requires ROOT_IDX <= first
    ensures |s| == n
  {
    seq<AddrKey>(n, i requires 0 <= i < n => AddrAt(c, root, cc, first + i))
  }

  lemma StretchNext(c: Crypto, root: Point, cc: Chaincode, first: int, n: nat)
    requires ROOT_IDX <= first
    ensures Stretch(c, root, cc, first, n + 1) == Stretch(c, root, cc, first, n) + [AddrAt(c, root, cc, first + n)]
  {
  }

  /** The nth address answered is the nth of the chain, whatever was asked. */
  lemma {:induction false} AnswersInOrder(c: Crypto, root: Point, cc: Chaincode, v: View, acts: seq<Act>)
    requires v.Ok()
    ensures var given := Handed(Answers(c, root, cc, v, acts));
            given == Stretch(c, root, cc, v.used + 1, |given|)
            && AfterAll(c, root, cc, v, acts).used == v.used + |given|
  {
    if acts != [] {
      hide Reached, CanHand, AddrAt, Stretch;
      var n := |acts| - 1;
      AnswersInOrder(c, root, cc, v, acts[..n]);
      var before := Answers(c, root, cc, v, acts[..n]);
      assert Answers(c, root, cc, v, acts)[..n] == before;
      StretchNext(c, root, cc, v.used + 1, |Handed(before)|);
    } else {
      assert Stretch(c, root, cc, v.used + 1, 0) == [];
    }
  }

  /** Request i is answered exactly when the store, after the requests before
      it, has an address left or can extend its chain. */
  lemma {:induction false} AnsweredIff(c: Crypto, root: Point, cc: Chaincode, v: View, acts: seq<Act>, i: nat)
    requires v.Ok() && i < |acts|
    ensures Answers(c, root, cc, v, acts)[i].Some? <==>
              Served(c, root, cc, AfterAll(c, root, cc, v, acts[..i]), acts[i])
  {
    var n := |acts| - 1;
    if i < n {
      AnsweredIff(c, root, cc, v, acts[..n], i);
      assert acts[..n][..i] == acts[..i];
    }
  }

  // ------------------------------------------------- how far the chain may go

  /** The most addresses that requests can add. */
  function Needs(acts: seq<Act>): nat {
    if acts == [] then 0 else Needs(acts[..|acts|-1]) + Need(acts[|acts|-1])
  }

  function Need(act: Act): nat {
    if Asks(act) then Wanted(false, act.keypoolSize) + Wanted(true, act.keypoolSize) else 0
  }

  lemma {:induction false} NeedsGrow(acts: seq<Act>, n: nat)
    requires n <= |acts|
    ensures Needs(acts[..n]) <= Needs(acts)
  {
    if n < |acts| {
      var m := |acts| - 1;
      assert acts[..m][..n] == acts[..n];
      NeedsGrow(acts[..m], n);
    } else {
      assert acts[..n] == acts;
    }
  }

  lemma {:induction false} ReachBounded(c: Crypto, root: Point, cc: Chaincode, v: View, acts: seq<Act>)
    requires v.Ok()
    ensures v.last <= AfterAll(c, root, cc, v, acts).last <= v.last + Needs(acts)
  {
    if acts != [] {
      hide CanHand, Parsed;
      ReachBounded(c, root, cc, v, acts[..|acts|-1]);
    }
  }

  /** When public keys always parse and keypools are not empty, every request
      for an address is answered. */
  lemma AllAnswered(c: Crypto, root: Point, cc: Chaincode, v: View, acts: seq<Act>, i: nat)
    requires v.Ok() && i < |acts| && Asks(acts[i]) && 0 < acts[i].keypoolSize
    requires ParseBetween(c, root, cc, v.last + 1, v.last + 2 + Needs(acts))
    ensures Answers(c, root, cc, v, acts)[i].Some?
  {
    AnsweredIff(c, root, cc, v, acts, i);
    ReachBounded(c, root, cc, v, acts[..i]);
    NeedsGrow(acts, i + 1);
    assert acts[..i+1][..i] == acts[..i];
  }

  // ---------------------------------------------------- what is never lost

  /** w' is the same address, with its private key if there was one. */
  ghost predicate SameEntry(w: WalletAddr, w': WalletAddr) {
    if w.ScriptAddr? then w' == w
    else
      && w'.PubKeyAddr? && w'.a.pub == w.a.pub && w'.a.chainIndex == w.a.chainIndex && w'.a.chaincode == w.a.chaincode
      && (w.a.change ==> w'.a.change) && (w.a.hasPrivKey ==> w'.a.hasPrivKey)
  }

  /** Every address remains, unless it turned out to be the chain's own. */
  ghost predicate Remains(addrs: AddrMap, addrs': AddrMap, last: int) {
    forall k :: k in addrs ==>
      k in addrs' && (SameEntry(addrs[k], addrs'[k]) || (addrs'[k].PubKeyAddr? && last < addrs'[k].a.chainIndex))
  }

  lemma RemainsOn(addrs: AddrMap, addrs': AddrMap, addrs'': AddrMap, last: int, last': int)
    requires Remains(addrs, addrs', last) && Remains(addrs', addrs'', last') && last <= last'
    ensures Remains(addrs, addrs'', last)
  {
  }

  lemma StillThere(addrs: AddrMap, addrs': AddrMap, last: int)
    requires Remains(addrs, addrs', last)
    ensures addrs.Keys <= addrs'.Keys
  {
  }

  lemma GrowsRemains(addrs: AddrMap, addrs': AddrMap, last: int)
    requires Grows(addrs, addrs', last)
    ensures Remains(addrs, addrs', last)
  {
    forall k | k in addrs ensures k in addrs' {}
  }

  lemma MarksRemains(addrs: AddrMap, addrs': AddrMap, last: int, k: AddrKey)
    requires Marks(addrs, addrs', last, k)
    ensures Remains(addrs, addrs', last)
  {
    var w: WalletAddr :| Grows(addrs, addrs'[k := w], last) && k in addrs' && w.PubKeyAddr?
        && addrs'[k] == PubKeyAddr(w.a.(change := true));
    GrowsRemains(addrs, addrs'[k := w], last);
  }

  lemma LocksRemain(addrs: AddrMap, addrs': AddrMap, last: int)
    requires addrs'.Keys == addrs.Keys && forall k :: k in addrs' ==> OnlyForgets(addrs[k], addrs'[k])
    ensures Remains(addrs, addrs', last)
  {
  }

  lemma RekeysRemain(c: Crypto, addrs: AddrMap, addrs': AddrMap, j: AesKey, k: AesKey, last: int)
    requires AllRekeyed(c, addrs, addrs', j, k)
    ensures Remains(addrs, addrs', last)
  {
    forall a | a in addrs ensures RekeyedAt(c, addrs, addrs', a, j, k) {}
  }

  lemma AllRemain(addrs: AddrMap, addrs': AddrMap, last: int)
    requires forall k :: k in addrs ==> k in addrs' && addrs'[k] == addrs[k]
    ensures Remains(addrs, addrs', last)
  {
  }

  /** A private key imported while the store can is in the wallet. */
  ghost predicate ImportDone(c: Crypto, v: View, act: Act, addrs: AddrMap) {
    act.ImportKey? && !v.watching && v.unlocked && c.parses(c.base(act.priv)) ==> c.address(c.base(act.priv)) in addrs
  }

  ghost predicate ImportsIn(c: Crypto, root: Point, cc: Chaincode, v: View, acts: seq<Act>, addrs: AddrMap)
    requires v.Ok()
  {
    forall i :: 0 <= i < |acts| ==> ImportDone(c, AfterAll(c, root, cc, v, acts[..i]), acts[i], addrs)
  }

  lemma NoImports(c: Crypto, root: Point, cc: Chaincode, v: View, addrs: AddrMap)
    requires v.Ok()
    ensures ImportsIn(c, root, cc, v, [], addrs)
  {
  }

  lemma ImportsNext(c: Crypto, root: Point, cc: Chaincode, v: View, acts: seq<Act>, act: Act, addrs: AddrMap,
      addrs': AddrMap)
    requires v.Ok() && ImportsIn(c, root, cc, v, acts, addrs) && addrs.Keys <= addrs'.Keys
    requires ImportDone(c, AfterAll(c, root, cc, v, acts), act, addrs')
    ensures ImportsIn(c, root, cc, v, acts + [act], addrs')
  {
    hide AfterAll;
    var all := acts + [act];
    forall i | 0 <= i < |all| ensures ImportDone(c, AfterAll(c, root, cc, v, all[..i]), all[i], addrs') {
      if i < |acts| {
        assert all[..i] == acts[..i];
        assert ImportDone(c, AfterAll(c, root, cc, v, acts[..i]), acts[i], addrs);
      } else {
        assert all[..i] == acts;
      }
    }
  }

  // ---------------------------------------------------------- a real store

  /** The keys a store may be locked with while it serves acts. */
  function LockKeys(c: Crypto, acts: seq<Act>): (ks: set<AesKey>)
    ensures forall i :: 0 <= i < |acts| && (acts[i].UnlockWith? || acts[i].ChangeTo?) ==> c.kdf(acts[i].p) in ks
  {
    set i | 0 <= i < |acts| && (acts[i].UnlockWith? || acts[i].ChangeTo?) :: c.kdf(acts[i].p)
  }

  ghost predicate AllTell(c: Crypto, root: Point, ks: set<AesKey>) {
    forall j, k :: j in ks && k in ks ==> Tells(c, root, j, k)
  }

  /** One request, answered as its view says. */
  method Perform(s: KeyStore, act: Act) returns (out: Option<AddrKey>)
    requires s.Valid() && s.Pooled() && (Asks(act) ==> s.RoomFor(act.keypoolSize))
    requires act.UnlockWith? && !s.watchingOnly ==> Tells(s.c, s.root, s.master, s.c.kdf(act.p))
    modifies s
    ensures s.Valid() && s.Pooled() && old(ViewOf(s)).Ok()
    ensures ViewOf(s) == After(s.c, s.root, s.cc, old(ViewOf(s)), act)
    ensures out == Answer(s.c, s.root, s.cc, old(ViewOf(s)), act)
    ensures Remains(old(s.addrMap), s.addrMap, old(s.lastChainIdx))
    ensures act.NextForChange? && out.Some? ==>
      out.value in s.addrMap && s.addrMap[out.value].PubKeyAddr? && s.addrMap[out.value].a.change
    ensures ImportDone(s.c, old(ViewOf(s)), act, s.addrMap)
  {
    hide Remains, Grows, Marks, AllRekeyed, AllRekeyable, OnlyForgets;
    hide Lawful, Tells, Distinct, ChainOk, EntriesOk, KeysOk, KeysBelow, NoneClear, NoPrivKeys, CanHand, Reached;
    hide AddrAt;
    s.LastPositive();
    ghost var addrs, last := s.addrMap, s.lastChainIdx;
    var err;
    match act {
      case LockIt =>
        err := s.Lock();
        LocksRemain(addrs, s.addrMap, last);
        return None;
      case UnlockWith(p) =>
        err := s.Unlock(p);
        GrowsRemains(addrs, s.addrMap, last);
        return None;
      case ChangeTo(p) =>
        ghost var j := s.secret;
        err := s.ChangePassphrase(p);
        if err.None? { RekeysRemain(s.c, addrs, s.addrMap, j.value, s.c.kdf(p), last); }
        else { AllRemain(addrs, s.addrMap, last); }
        return None;
      case Next(n) =>
        var a := s.NextChainedAddress(n);
        GrowsRemains(addrs, s.addrMap, last);
        return if a.Got? then Some(a.value) else None;
      case NextForChange(n) =>
        var a := s.ChangeAddress(n);
        if a.Got? { MarksRemains(addrs, s.addrMap, last, a.value); } else { GrowsRemains(addrs, s.addrMap, last); }
        return if a.Got? then Some(a.value) else None;
      case ImportKey(priv) =>
        var a := s.ImportPrivateKey(priv);
        AllRemain(addrs, s.addrMap, last);
        return None;
    }
  }

  /** However requests, locking, unlocking, passphrase changes and imports are
      interleaved, each request for an address is answered exactly when it can
      be, and the addresses handed out are the next stretch of the chain of the
      root key and chain code, none of them twice.  No address is ever lost. */
  method Session(s: KeyStore, acts: seq<Act>) returns (out: seq<Option<AddrKey>>)
    requires s.Valid() && s.Pooled() && Distinct(s.c, s.root, s.cc, s.lastChainIdx + 2 + Needs(acts))
    requires !s.watchingOnly ==> AllTell(s.c, s.root, LockKeys(s.c, acts) + {s.master})
    modifies s
    ensures s.Valid() && s.Pooled() && old(ViewOf(s)).Ok()
    ensures out == Answers(s.c, s.root, s.cc, old(ViewOf(s)), acts)
    ensures ViewOf(s) == AfterAll(s.c, s.root, s.cc, old(ViewOf(s)), acts)
    ensures Handed(out) == Stretch(s.c, s.root, s.cc, old(s.highestUsed) + 1, |Handed(out)|) && NoDup(Handed(out))
    ensures Remains(old(s.addrMap), s.addrMap, old(s.lastChainIdx))
    ensures ImportsIn(s.c, s.root, s.cc, old(ViewOf(s)), acts, s.addrMap)
  {
    hide Remains, Stretch, Handed, Answers, ImportsIn, ImportDone;
    hide Lawful, Tells, Distinct, ChainOk, EntriesOk, KeysOk, KeysBelow, NoneClear, NoPrivKeys, MissingOk, CanHand;
    hide Reached, AddrAt, LockKeys, After;
    s.LastPositive();
    ghost var v, addrs := ViewOf(s), s.addrMap;
    AllRemain(addrs, addrs, v.last);
    NoAnswers(s.c, s.root, s.cc, v);
    NoImports(s.c, s.root, s.cc, v, addrs);
    out := [];
    var i := 0;
    while i < |acts|
      invariant 0 <= i <= |acts| && s.Valid() && s.Pooled()
      invariant out == Answers(s.c, s.root, s.cc, v, acts[..i])
      invariant ViewOf(s) == AfterAll(s.c, s.root, s.cc, v, acts[..i])
      invariant !s.watchingOnly ==> s.master in LockKeys(s.c, acts) + {v.master}
      invariant ImportsIn(s.c, s.root, s.cc, v, acts[..i], s.addrMap)
      invariant s.watchingOnly == v.watching && v.last <= s.lastChainIdx && Remains(addrs, s.addrMap, v.last)
    {
      assert acts[..i+1][..i] == acts[..i];
      RoomLeft(s.c, s.root, s.cc, v, acts, i);
      MasterKnown(s.c, s.root, s.cc, ViewOf(s), acts, i, v.master);
      ghost var before, last := s.addrMap, s.lastChainIdx;
      ActNext(s.c, s.root, s.cc, v, acts[..i], acts[i]);
      assert acts[..i] + [acts[i]] == acts[..i+1];
      ReachBounded(s.c, s.root, s.cc, v, acts[..i+1]);
      var a := Perform(s, acts[i]);
      RemainsOn(addrs, before, s.addrMap, v.last, last);
      StillThere(before, s.addrMap, last);
      ImportsNext(s.c, s.root, s.cc, v, acts[..i], acts[i], before, s.addrMap);
      out := out + [a];
      i := i + 1;
    }
    assert acts[..i] == acts;
    AnswersInOrder(s.c, s.root, s.cc, v, acts);
    HandedDistinct(s.c, s.root, s.cc, v, acts);
  }

  lemma MasterKnown(c: Crypto, root: Point, cc: Chaincode, v: View, acts: seq<Act>, i: nat, first: AesKey)
    requires v.Ok() && i < |acts|
    ensures var m := After(c, root, cc, v, acts[i]); m.watching == v.watching
    ensures v.master in LockKeys(c, acts) + {first} ==>
              After(c, root, cc, v, acts[i]).master in LockKeys(c, acts) + {first}
  {
  }

  /** The chain never grows past what the requests need. */
  lemma RoomLeft(c: Crypto, root: Point, cc: Chaincode, v: View, acts: seq<Act>, i: nat)
    requires v.Ok() && i < |acts| && Distinct(c, root, cc, v.last + 2 + Needs(acts))
    ensures var w := AfterAll(c, root, cc, v, acts[..i]);
            Asks(acts[i]) ==> Distinct(c, root, cc, w.last + 2 + Wanted(w.unlocked, acts[i].keypoolSize))
  {
    hide AfterAll;
    ReachBounded(c, root, cc, v, acts[..i]);
    NeedsGrow(acts, i + 1);
    assert acts[..i+1][..i] == acts[..i];
  }

  /** No stretch of a chain without collisions has an address twice. */
  lemma StretchDistinct(c: Crypto, root: Point, cc: Chaincode, first: int, n: nat)
    requires ROOT_IDX <= first && Distinct(c, root, cc, first + 1 + n)
    ensures NoDup(Stretch(c, root, cc, first, n))
  {
    var s := Stretch(c, root, cc, first, n);
    forall i, j | 0 <= i < j < n ensures s[i] != s[j] {
      var a: nat, b: nat := first + i + 1, first + j + 1;
      assert s[i] == AddrAt(c, root, cc, first + i) && s[j] == AddrAt(c, root, cc, first + j);
      assert c.address(PubAt(c, root, cc, a)) != c.address(PubAt(c, root, cc, b));
    }
  }

  lemma HandedDistinct(c: Crypto, root: Point, cc: Chaincode, v: View, acts: seq<Act>)
    requires v.Ok() && Distinct(c, root, cc, v.last + 2 + Needs(acts))
    ensures NoDup(Handed(Answers(c, root, cc, v, acts)))
  {
    hide AfterAll, Answers, Stretch;
    AnswersInOrder(c, root, cc, v, acts);
    ReachBounded(c, root, cc, v, acts);
    StretchDistinct(c, root, cc, v.used + 1, |Handed(Answers(c, root, cc, v, acts))|);
  }

  /** A store and its watching copy hand out the same addresses, whatever
      either is asked: one sequence starts the other. */
  method WatchingAgrees(s: KeyStore, mine: seq<Act>,
      theirs: seq<Act>) returns (out: seq<Option<AddrKey>>, watched: seq<Option<AddrKey>>)
    requires s.Valid() && s.Pooled() && !s.watchingOnly && AllTell(s.c, s.root, LockKeys(s.c, mine) + {s.master})
    requires Distinct(s.c, s.root, s.cc, s.lastChainIdx + 2 + Needs(mine))
    requires Distinct(s.c, s.root, s.cc, s.lastChainIdx + 2 + Needs(theirs))
    modifies s
    ensures old(ViewOf(s)).Ok() && out == Answers(s.c, s.root, s.cc, old(ViewOf(s)), mine)
    ensures watched
              == Answers(s.c, s.root, s.cc, old(ViewOf(s)).(watching := true, unlocked := false, master := 0), theirs)
    ensures Handed(out) <= Handed(watched) || Handed(watched) <= Handed(out)
  {
    hide Lawful, Tells, Distinct, ChainOk, EntriesOk, KeysOk, KeysBelow, NoneClear, NoPrivKeys, MissingOk, AddrAt;
    hide Handed, LockKeys;
    var copied := s.ExportWatchingWallet();
    var w := copied.value;
    assert w.secret.None?;
    out := Session(s, mine);
    watched := Session(w, theirs);
  }

  /** The nth address a new store hands out belongs to the root key times a
      product over the keys before it and the chain code: it does not depend on
      passphrases, keypool sizes or anything else it
      is asked in between. */
  method NewSession(c: Crypto, rootkey: Scalar, cc: Chaincode, p: Passphrase, keypoolSize: nat, acts: seq<Act>)
    returns (out: Fallible<seq<Option<AddrKey>>>, ghost keys: seq<Point>)
    requires Lawful(c) && 0 < keypoolSize && Distinct(c, c.base(rootkey), cc, 1 + keypoolSize + Needs(acts))
    requires AllTell(c, c.base(rootkey), LockKeys(c, acts) + {c.kdf(p)})
    ensures out.Got? <==> ParseBetween(c, c.base(rootkey), cc, 0, 1 + keypoolSize)
    ensures out.Got? ==>
      out.value == Answers(c, c.base(rootkey), cc, View(ROOT_IDX, keypoolSize - 1, false, false, c.kdf(p)), acts)
    ensures out.Got? ==> NoDup(Handed(out.value))
    ensures out.Got? ==> |keys| == |Handed(out.value)| + 1
    ensures out.Got? ==> forall n :: 0 <= n < |keys| ==>
              keys[n] == c.base((rootkey * Product(c, keys[..n], cc)) % c.order)
    ensures out.Got? ==> forall n :: 0 <= n < |Handed(out.value)| ==> Handed(out.value)[n] == c.address(keys[n+1])
  {
    hide Lawful, Tells, Distinct, ChainOk, EntriesOk, KeysOk, KeysBelow, NoneClear, NoPrivKeys, MissingOk, AddrAt;
    hide LockKeys, ParseBetween, Handed;
    FewerDistinct(c, c.base(rootkey), cc, 1 + keypoolSize, 1 + keypoolSize + Needs(acts));
    var res := KeyStore.NewStore(c, rootkey, cc, p, keypoolSize);
    keys := [];
    if res.Failed? { out := Failed(res.error); return; }
    var given := Session(res.value, acts);
    out := Got(given);
    keys := PubsAt(c, c.base(rootkey), cc, |Handed(given)| + 1);
    KeysMultiply(c, rootkey, cc, keys);
    StretchKeys(c, c.base(rootkey), cc, |Handed(given)|);
  }

  lemma KeysMultiply(c: Crypto, k: Scalar, cc: Chaincode, keys: seq<Point>)
    requires Lawful(c) && keys == PubsAt(c, c.base(k), cc, |keys|)
    ensures forall n :: 0 <= n < |keys| ==> keys[n] == c.base((k * Product(c, keys[..n], cc)) % c.order)
  {
    forall n | 0 <= n < |keys| ensures keys[n] == c.base((k * Product(c, keys[..n], cc)) % c.order) {
      assert keys[..n] == PubsAt(c, c.base(k), cc, n);
      ChainProduct(c, k, cc, n);
    }
  }

  lemma StretchKeys(c: Crypto, root: Point, cc: Chaincode, n: nat)
    ensures forall i :: 0 <= i < n ==> Stretch(c, root, cc, 0, n)[i] == c.address(PubsAt(c, root, cc, n + 1)[i+1])
  {
  }

  lemma FewerDistinct(c: Crypto, root: Point, cc: Chaincode, m: int, n: int)
    requires Distinct(c, root, cc, n) && m <= n
    ensures Distinct(c, root, cc, m)
  {
  }
}
