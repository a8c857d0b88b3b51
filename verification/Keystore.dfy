/** The deterministic key store: locking, unlocking, changing the passphrase
    and handing out chained addresses. */
module KeyStores {
  import opened TxTypes
  import opened KeyChain

  datatype KeyError =
    | WatchingOnly | Locked | WrongPassphrase | NoPrivateKey | NotEncrypted | BadPubKey | IndexMapNotUpdated
      | DuplicateKey

  class KeyStore {
    const c: Crypto
    ghost const root: Point
    ghost const cc: Chaincode

    var watchingOnly: bool
    var highestUsed: int
    var keyGenerator: AddrKey
    var addrMap: AddrMap
    var chainIdxMap: IndexMap
    var importedAddrs: seq<AddrKey>
    var lastChainIdx: int
    var missingKeysStart: int
    var passphrase: Option<Passphrase>
    var secret: Option<AesKey>

    /** The AES key the private keys are encrypted with, known or not. */
    ghost var master: AesKey

    /** The addresses are the chain of root and cc, plus imported ones. */
    ghost predicate Chained()
      reads `addrMap, `chainIdxMap, `lastChainIdx, `highestUsed, `keyGenerator
    {
      && ChainOk(c, root, cc, addrMap, chainIdxMap, lastChainIdx)
      && EntriesOk(c, root, cc, addrMap, lastChainIdx)
      && ROOT_IDX <= highestUsed <= lastChainIdx
      && keyGenerator == AddrAt(c, root, cc, ROOT_IDX)
    }

    /** Private keys are encrypted under master, the missing ones are a suffix
        of the chain, and nothing is in the clear while the store is locked. */
    ghost predicate Keyed()
      reads `addrMap, `lastChainIdx, `missingKeysStart, `passphrase, `secret, `master
    {
      && KeysOk(c, addrMap, master)
      && MissingOk(c, root, cc, addrMap, lastChainIdx, missingKeysStart)
      && (secret.Some? ==> secret.value == master && missingKeysStart == 0)
      && (secret.None? ==> NoneClear(addrMap) && passphrase.None?)
    }

    /** A watching store has no private keys; what it added waits for some. */
    ghost predicate Bare()
      reads `addrMap, `lastChainIdx, `missingKeysStart, `passphrase, `secret
    {
      && NoPrivKeys(addrMap) && secret.None? && passphrase.None?
      && WaitsFrom(c, root, cc, addrMap, lastChainIdx, missingKeysStart)
    }

    ghost predicate Valid()
      reads this
    {
      && Lawful(c) && Chained()
      && if watchingOnly then Bare() else Keyed()
    }

    /** The chain has an address besides the root. */
    ghost predicate Pooled()
      reads `lastChainIdx
    {
      0 <= lastChainIdx
    }

    /** A store holding only its root address, unlocked. */
    constructor Root(crypto: Crypto, rootkey: Scalar, chaincode: Chaincode, p: Passphrase)
      requires Lawful(crypto)
      ensures Valid() && fresh(this) && c == crypto && root == crypto.base(rootkey) && cc == chaincode
      ensures !watchingOnly && secret == Some(crypto.kdf(p)) && master == crypto.kdf(p)
      ensures highestUsed == ROOT_IDX && lastChainIdx == ROOT_IDX && importedAddrs == [] && NoneImported(addrMap)
    {
      c, root, cc := crypto, crypto.base(rootkey), chaincode;
      watchingOnly, highestUsed, lastChainIdx, missingKeysStart, importedAddrs := false, ROOT_IDX, ROOT_IDX, 0, [];
      var iv: InitVector := *;
      var key := crypto.kdf(p);
      var a := Addr(crypto.base(rootkey), ROOT_IDX, chaincode, iv, crypto.encrypt(key, iv, rootkey), Some(rootkey),
        true, true, false, false);
      CipherRoundTrip(crypto, key, iv, rootkey);
      var k := crypto.address(a.pub);
      keyGenerator, addrMap, chainIdxMap := k, map[k := PubKeyAddr(a)], map[ROOT_IDX := k];
      passphrase, secret, master := None, Some(key), key;
      new;
      RootOk(c, root, cc, a, k);
    }

    /** A new store with keypoolSize addresses, returned locked. */
    static method NewStore(crypto: Crypto, rootkey: Scalar, chaincode: Chaincode, p: Passphrase,
        keypoolSize: nat) returns (res: Fallible<KeyStore>)
      requires Lawful(crypto) && Distinct(crypto, crypto.base(rootkey), chaincode, 1 + keypoolSize)
      ensures res.Got? <==> ParseBetween(crypto, crypto.base(rootkey), chaincode, 0, 1 + keypoolSize)
      ensures res.Got? ==> var s := res.value;
        fresh(s) && s.Valid() && s.IsLocked() && !s.watchingOnly && s.c == crypto && s.root == crypto.base(rootkey)
        && s.cc == chaincode
        && s.master == crypto.kdf(p) && s.highestUsed == ROOT_IDX && s.lastChainIdx == keypoolSize - 1
        && s.importedAddrs == [] && NoneImported(s.addrMap)
    {
      hide NoPrivKeys, Lawful, Distinct, ChainOk, EntriesOk, KeysOk, MissingOk, ParseBetween, Parsed, NoneClear, PubAt;
      hide NoneImported, Grows, OnlyForgets;
      RootParses(crypto, crypto.base(rootkey), chaincode, keypoolSize);
      if !crypto.parses(crypto.base(rootkey)) { return Failed(BadPubKey); }
      var s := new KeyStore.Root(crypto, rootkey, chaincode, p);
      ghost var first, last := s.addrMap, s.lastChainIdx;
      var err := s.ExtendKeypool(keypoolSize);
      if err.Some? { return Failed(err.value); }
      ghost var filled := s.addrMap;
      err := s.Lock();
      StillNoneImported(first, filled, last, s.addrMap);
      return Got(s);
    }

    predicate IsLocked()
      reads `secret
    {
      secret.None?
    }

    // ------------------------------------------------------- single addresses

    /** Decrypts the private key of the address at k and keeps it in the clear;
        fails if it does not belong to the public key. */
    method UnlockAddr(k: AddrKey, key: AesKey) returns (res: Fallible<Scalar>)
      requires k in addrMap && addrMap[k].PubKeyAddr?
      modifies `addrMap
      ensures res.Failed? ==> addrMap == old(addrMap)
      ensures old(addrMap[k].a.encrypted) ==>
                res.Failed? || res == Got(c.decrypt(key, old(addrMap[k].a.iv), old(addrMap[k].a.privKey)))
      ensures res.Got? ==> old(addrMap[k].a.encrypted)
      ensures res.Got? ==> addrMap == old(addrMap)[k := PubKeyAddr(old(addrMap[k].a).(clear := Some(res.value)))]
      ensures res.Failed? <==> !Unlocks(c, old(addrMap[k].a), key)
      ensures res.Failed? && old(addrMap[k].a.encrypted) ==> res.error == WrongPassphrase
    {
      var a := addrMap[k].a;
      if !a.encrypted { return Failed(NotEncrypted); }
      var privkey := c.decrypt(key, a.iv, a.privKey);
      if a.clear.Some? {
        if a.clear.value != privkey { return Failed(WrongPassphrase); }
        assert addrMap[k := PubKeyAddr(a.(clear := Some(privkey)))] == addrMap;
        return Got(privkey);
      }
      if c.base(privkey) != a.pub { return Failed(WrongPassphrase); }
      addrMap := addrMap[k := PubKeyAddr(a.(clear := Some(privkey)))];
      return Got(privkey);
    }

    // ------------------------------------------------- extending the chain

    /** Adds the address after the last one, with the private key chained from
        privkey, the last one's. */
    method AddPrivate(privkey: Scalar) returns (res: Fallible<Scalar>)
      requires Valid() && !watchingOnly && secret.Some? && c.base(privkey) == PubAt(c, root, cc, lastChainIdx + 1)
      requires NewAfter(c, root, cc, lastChainIdx)
      modifies `addrMap, `chainIdxMap, `lastChainIdx
      ensures Valid()
      ensures res.Got? <==> c.parses(PubAt(c, root, cc, old(lastChainIdx) + 2))
      ensures res.Got? ==> lastChainIdx == old(lastChainIdx) + 1
      ensures res.Got? ==> c.base(res.value) == PubAt(c, root, cc, lastChainIdx + 1)
      ensures res.Failed? ==> lastChainIdx == old(lastChainIdx)
      ensures Grows(old(addrMap), addrMap, old(lastChainIdx))
    {
      GrowsSelf(addrMap, lastChainIdx);
      LastOnChain(c, root, cc, addrMap, chainIdxMap, lastChainIdx);
      ChainsMatch(c, privkey, addrMap[chainIdxMap[lastChainIdx]].a.chaincode);
      var addr := addrMap[chainIdxMap[lastChainIdx]].a;
      var next := ChainedPrivKey(c, privkey, addr.pub, addr.chaincode);
      var pub := c.base(next);
      if !c.parses(pub) { return Failed(BadPubKey); }
      var iv: InitVector := *;
      var newaddr := Addr(pub, addr.chainIndex + 1, addr.chaincode, iv, c.encrypt(secret.value, iv, next), Some(next),
        true, true, false, false);
      assert KeyOk(c, newaddr, master) by { CipherRoundTrip(c, secret.value, iv, next); }
      assert NewEntry(PubKeyAddr(newaddr), lastChainIdx);
      hide NewAfter, ChainOk, EntriesOk, KeysOk, KeysBelow, NoneClear, OnChain, Lawful, NoPrivKeys, KeyOk, Grows;
      GrowsSet(addrMap, addrMap, lastChainIdx, c.address(pub), PubKeyAddr(newaddr));
      AddKeepsChain(c, root, cc, addrMap, chainIdxMap, lastChainIdx, newaddr);
      AddKeepsKeys(c, addrMap, master, c.address(pub), newaddr);
      AddKeepsMissing(c, root, cc, addrMap, chainIdxMap, lastChainIdx, lastChainIdx + 2, newaddr) by {
        AllBelow(c, root, cc, addrMap, lastChainIdx, lastChainIdx + 1, lastChainIdx + 2);
      }
      addrMap := addrMap[c.address(pub) := PubKeyAddr(newaddr)];
      chainIdxMap := chainIdxMap[newaddr.chainIndex := c.address(pub)];
      lastChainIdx := lastChainIdx + 1;
      StillLast(c, root, cc, addrMap, lastChainIdx);
      return Got(next);
    }

    /** The private key of the last chain address. */
    method UnlockLast() returns (privkey: Scalar)
      requires Valid() && !watchingOnly && secret.Some?
      modifies `addrMap
      ensures Valid() && c.base(privkey) == PubAt(c, root, cc, lastChainIdx + 1)
      ensures Grows(old(addrMap), addrMap, lastChainIdx)
    {
      GrowsSelf(addrMap, lastChainIdx);
      LastHasKey(c, root, cc, addrMap, chainIdxMap, lastChainIdx, master);
      hide Grows, Distinct, ChainOk, EntriesOk, KeysOk, KeysBelow, NoneClear, OnChain, Lawful, NoPrivKeys;
      var k := chainIdxMap[lastChainIdx];
      ClearKeeps(c, root, cc, addrMap, chainIdxMap, lastChainIdx, lastChainIdx + 1, master, k);
      ghost var addrs := addrMap;
      var unlocked := UnlockAddr(k, secret.value);
      GrowsSet(addrs, addrs, lastChainIdx, k, addrMap[k]);
      return unlocked.value;
    }

    /** Extends the chain by n addresses with their private keys, stopping early
        at a key that does not parse. */
    method ExtendKeypool(n: nat) returns (err: Option<KeyError>)
      requires Valid() && !watchingOnly && secret.Some? && Distinct(c, root, cc, lastChainIdx + 2 + n)
      modifies `addrMap, `chainIdxMap, `lastChainIdx
      ensures Valid() && ROOT_IDX <= old(lastChainIdx)
      ensures lastChainIdx == old(lastChainIdx) + Parsed(c, root, cc, old(lastChainIdx) + 2, n)
      ensures err.None? <==> ParseBetween(c, root, cc, old(lastChainIdx) + 2, old(lastChainIdx) + 2 + n)
      ensures Grows(old(addrMap), addrMap, old(lastChainIdx))
    {
      hide Chained, Keyed, Bare, NoPrivKeys, Lawful, Distinct, NewAfter, Grows, PubAt;
      LastPositive();
      ghost var last, addrs := lastChainIdx, addrMap;
      var privkey := UnlockLast();
      var i := 0;
      while i < n
        invariant 0 <= i <= n && Valid() && !watchingOnly && secret.Some? && lastChainIdx == last + i
        invariant c.base(privkey) == PubAt(c, root, cc, lastChainIdx + 1)
        invariant ParseBetween(c, root, cc, last + 2, last + 2 + i)
        invariant Grows(addrs, addrMap, last)
      {
        DistinctNew(c, root, cc, last + 2 + n, lastChainIdx);
        ghost var before := addrMap;
        var next := AddPrivate(privkey);
        GrowsOn(addrs, before, addrMap, last, last + i);
        if next.Failed? {
          ParsedUpTo(c, root, cc, last + 2, i, n);
          return Some(next.error);
        }
        privkey, i := next.value, i + 1;
      }
      ParsedUpTo(c, root, cc, last + 2, n, n);
      return None;
    }

    lemma LastPositive()
      requires Valid()
      ensures ROOT_IDX <= highestUsed <= lastChainIdx
    {
    }

    /** Extends the chain by one address without a private key. */
    method ExtendLockedWallet() returns (err: Option<KeyError>)
      requires Valid() && Pooled() && secret.None? && NewAfter(c, root, cc, lastChainIdx)
      modifies `addrMap, `chainIdxMap, `lastChainIdx, `missingKeysStart
      ensures Valid()
      ensures err.None? <==> c.parses(PubAt(c, root, cc, old(lastChainIdx) + 2))
      ensures lastChainIdx == old(lastChainIdx) + if err.None? then 1 else 0
      ensures Grows(old(addrMap), addrMap, old(lastChainIdx))
    {
      hide Grows, PubAt, Distinct, Lawful, Xor, Product;
      GrowsSelf(addrMap, lastChainIdx);
      LastOnChain(c, root, cc, addrMap, chainIdxMap, lastChainIdx);
      var addr := addrMap[chainIdxMap[lastChainIdx]].a;
      var pub := ChainedPubKey(c, addr.pub, addr.chaincode);
      if !c.parses(pub) { return Some(BadPubKey); }
      var iv: InitVector := *;
      var newaddr := Addr(pub, addr.chainIndex + 1, addr.chaincode, iv, 0, None, false, false, true, false);
      AddKeepsChain(c, root, cc, addrMap, chainIdxMap, lastChainIdx, newaddr);
      if watchingOnly {
        AddKeepsWaits(c, root, cc, addrMap, chainIdxMap, lastChainIdx, missingKeysStart, newaddr);
      } else {
        AddKeepsKeys(c, addrMap, master, c.address(pub), newaddr);
        AddKeepsMissing(c, root, cc, addrMap, chainIdxMap, lastChainIdx, FirstMissing(missingKeysStart, lastChainIdx),
          newaddr);
      }
      hide Distinct, ChainOk, EntriesOk, KeysOk, KeysBelow, OnChain, Lawful, Grows;
      GrowsSet(addrMap, addrMap, lastChainIdx, c.address(pub), PubKeyAddr(newaddr));
      addrMap := addrMap[c.address(pub) := PubKeyAddr(newaddr)];
      chainIdxMap := chainIdxMap[newaddr.chainIndex := c.address(pub)];
      lastChainIdx := lastChainIdx + 1;
      if missingKeysStart == 0 { missingKeysStart := newaddr.chainIndex; }
      return None;
    }

    // ----------------------------------------------------- handing out

    /** The addresses a request may add are new ones. */
    ghost predicate RoomFor(keypoolSize: nat)
      reads `highestUsed, `lastChainIdx, `secret
    {
      highestUsed == lastChainIdx ==> Distinct(c, root, cc, lastChainIdx + 2 + Wanted(secret.Some?, keypoolSize))
    }

    /** Extends the chain past its last address, if the store can. */
    method Extend(keypoolSize: nat) returns (err: Option<KeyError>)
      requires Valid() && Pooled() && Distinct(c, root, cc, lastChainIdx + 2 + Wanted(secret.Some?, keypoolSize))
      modifies `addrMap, `chainIdxMap, `lastChainIdx, `missingKeysStart
      ensures Valid()
      ensures lastChainIdx
                == old(lastChainIdx) + Parsed(c, root, cc, old(lastChainIdx) + 2, Wanted(secret.Some?, keypoolSize))
      ensures err.None? <==>
        ParseBetween(c, root, cc, old(lastChainIdx) + 2, old(lastChainIdx) + 2 + Wanted(secret.Some?, keypoolSize))
      ensures Grows(old(addrMap), addrMap, old(lastChainIdx))
    {
      hide Grows;
      LastPositive();
      if IsLocked() {
        DistinctNew(c, root, cc, lastChainIdx + 3, lastChainIdx);
        OneParsed(c, root, cc, lastChainIdx + 2);
        hide Chained, Keyed, NoPrivKeys, Lawful, NewAfter, Distinct, Parsed, ParseBetween;
        err := ExtendLockedWallet();
      } else {
        SecretMeansKeys();
        hide Chained, Keyed, NoPrivKeys, Lawful;
        err := ExtendKeypool(keypoolSize);
      }
    }

    lemma SecretMeansKeys()
      requires Valid() && secret.Some?
      ensures !watchingOnly
    {
    }

    /** The next address of the chain, extending it if need be. */
    method NextAddr(keypoolSize: nat) returns (res: Fallible<AddrKey>)
      requires Valid() && Pooled() && RoomFor(keypoolSize)
      modifies `addrMap, `chainIdxMap, `lastChainIdx, `missingKeysStart, `highestUsed
      ensures Valid() && Pooled() && ROOT_IDX <= old(highestUsed) <= old(lastChainIdx)
      ensures res.Got? ==> res.value == AddrAt(c, root, cc, highestUsed) && res.value in addrMap
      ensures res.Got? ==> addrMap[res.value].PubKeyAddr?
      ensures res.Got? ==> highestUsed in chainIdxMap && res.value == chainIdxMap[highestUsed]
      ensures Grows(old(addrMap), addrMap, old(lastChainIdx))
      ensures highestUsed == old(highestUsed) + if res.Got? then 1 else 0
      ensures res.Got? <==> CanHand(c, root, cc, old(highestUsed), old(lastChainIdx), secret.Some?, keypoolSize)
      ensures lastChainIdx == Reached(c, root, cc, old(highestUsed), old(lastChainIdx), secret.Some?, keypoolSize)
    {
      hide Lawful, Distinct, ChainOk, EntriesOk, KeysOk, KeysBelow, NoneClear, NoPrivKeys, ParseBetween, Parsed;
      hide KeyStore.Keyed, Grows;
      LastPositive();
      IndexCovers();
      GrowsSelf(addrMap, lastChainIdx);
      if highestUsed + 1 !in chainIdxMap {
        ParsedSome(c, root, cc, lastChainIdx + 2, Wanted(secret.Some?, keypoolSize));
        var err := Extend(keypoolSize);
        if err.Some? { return Failed(err.value); }
        IndexCovers();
        if highestUsed + 1 !in chainIdxMap { return Failed(IndexMapNotUpdated); }
      }
      var nextAPKH := chainIdxMap[highestUsed + 1];
      NextOnChain();
      highestUsed := highestUsed + 1;
      return Got(nextAPKH);
    }

    lemma IndexCovers()
      requires Chained()
      ensures forall i :: i in chainIdxMap <==> ROOT_IDX <= i <= lastChainIdx
    {
    }

    lemma NextOnChain()
      requires Chained() && highestUsed < lastChainIdx
      ensures highestUsed + 1 in chainIdxMap
      ensures var k := chainIdxMap[highestUsed + 1];
              k == AddrAt(c, root, cc, highestUsed + 1) && k in addrMap && addrMap[k].PubKeyAddr?
    {
      assert OnChain(c, root, cc, addrMap, highestUsed + 1);
    }

    method NextChainedAddress(keypoolSize: nat) returns (res: Fallible<AddrKey>)
      requires Valid() && Pooled() && RoomFor(keypoolSize)
      modifies `addrMap, `chainIdxMap, `lastChainIdx, `missingKeysStart, `highestUsed
      ensures Valid() && Pooled() && ROOT_IDX <= old(highestUsed) <= old(lastChainIdx)
      ensures highestUsed == old(highestUsed) + (if res.Got? then 1 else 0)
      ensures res.Got? ==> res.value == AddrAt(c, root, cc, highestUsed)
      ensures res.Got? ==> highestUsed in chainIdxMap && res.value == chainIdxMap[highestUsed]
      ensures Grows(old(addrMap), addrMap, old(lastChainIdx))
      ensures res.Got? <==> CanHand(c, root, cc, old(highestUsed), old(lastChainIdx), secret.Some?, keypoolSize)
      ensures lastChainIdx == Reached(c, root, cc, old(highestUsed), old(lastChainIdx), secret.Some?, keypoolSize)
    {
      hide Valid, CanHand, Reached, Grows;
      res := NextAddr(keypoolSize);
    }

    /** The next address, marked as used for change. */
    method ChangeAddress(keypoolSize: nat) returns (res: Fallible<AddrKey>)
      requires Valid() && Pooled() && RoomFor(keypoolSize)
      modifies `addrMap, `chainIdxMap, `lastChainIdx, `missingKeysStart, `highestUsed
      ensures Valid() && Pooled() && ROOT_IDX <= old(highestUsed) <= old(lastChainIdx)
      ensures highestUsed == old(highestUsed) + (if res.Got? then 1 else 0)
      ensures res.Got? ==> res.value == AddrAt(c, root, cc, highestUsed) && res.value in addrMap
      ensures res.Got? ==> addrMap[res.value].PubKeyAddr? && addrMap[res.value].a.change
      ensures if res.Got? then Marks(old(addrMap), addrMap, old(lastChainIdx), res.value)
              else Grows(old(addrMap), addrMap, old(lastChainIdx))
      ensures res.Got? <==> CanHand(c, root, cc, old(highestUsed), old(lastChainIdx), secret.Some?, keypoolSize)
      ensures lastChainIdx == Reached(c, root, cc, old(highestUsed), old(lastChainIdx), secret.Some?, keypoolSize)
    {
      hide Grows, Marks;
      ghost var addrs, last := addrMap, lastChainIdx;
      res := NextAddr(keypoolSize);
      if res.Failed? { return; }
      MarksIs(addrs, addrMap, last, res.value);
      ChangeKeeps(c, root, cc, addrMap, chainIdxMap, lastChainIdx, res.value);
      if watchingOnly {
        ChangeKeepsWaits(c, root, cc, addrMap, lastChainIdx, missingKeysStart, res.value);
      } else {
        ChangeKeepsKeys(c, root, cc, addrMap, lastChainIdx, FirstMissing(missingKeysStart, lastChainIdx), master,
          res.value);
      }
      hide ChainOk, EntriesOk, KeysOk, KeysBelow, Lawful, Distinct, WaitsFrom;
      addrMap := addrMap[res.value := PubKeyAddr(addrMap[res.value].a.(change := true))];
    }

    // ------------------------------------------------- locking and unlocking

    /** Creates the private keys of the addresses that were added while locked. */
    method CreateMissingPrivateKeys()
      requires Lawful(c) && Chained() && !watchingOnly && secret == Some(master) && KeysOk(c, addrMap, master)
      requires MissingOk(c, root, cc, addrMap, lastChainIdx, missingKeysStart)
      modifies `addrMap, `missingKeysStart
      ensures Chained() && KeysOk(c, addrMap, master) && missingKeysStart == 0
      ensures MissingOk(c, root, cc, addrMap, lastChainIdx, 0)
      ensures Grows(old(addrMap), addrMap, lastChainIdx)
    {
      OrderPositive(c);
      GrowsSelf(addrMap, lastChainIdx);
      ghost var addrs := addrMap;
      hide Grows, Distinct, ChainOk, EntriesOk, KeysOk, KeysBelow, OnChain, Lawful;
      var idx := missingKeysStart;
      if idx == 0 { return; }
      HasKeyAt(c, root, cc, addrMap, chainIdxMap, lastChainIdx, idx, master);
      var prevKey := chainIdxMap[idx - 1];
      ClearKeeps(c, root, cc, addrMap, chainIdxMap, lastChainIdx, idx, master, prevKey);
      var unlocked := UnlockAddr(prevKey, secret.value);
      GrowsSet(addrs, addrs, lastChainIdx, prevKey, addrMap[prevKey]);
      var prevPriv, prev := unlocked.value, addrMap[prevKey].a;
      var i := idx;
      while true
        invariant 0 < i <= lastChainIdx + 1 && secret == Some(master)
        invariant ChainOk(c, root, cc, addrMap, chainIdxMap, lastChainIdx)
        invariant EntriesOk(c, root, cc, addrMap, lastChainIdx)
        invariant KeysOk(c, addrMap, master) && KeysBelow(c, root, cc, addrMap, lastChainIdx, i)
        invariant c.base(prevPriv) == prev.pub == PubAt(c, root, cc, i) && prev.chaincode == cc
        invariant Grows(addrs, addrMap, lastChainIdx)
        decreases lastChainIdx + 1 - i
      {
        ChainsMatch(c, prevPriv, cc);
        var ithPriv := ChainedPrivKey(c, prevPriv, prev.pub, prev.chaincode);
        InIndex(c, root, cc, addrMap, chainIdxMap, lastChainIdx, i);
        if i !in chainIdxMap { break; }
        var k := chainIdxMap[i];
        var addr := addrMap[k].a;
        FillKeeps(c, root, cc, addrMap, chainIdxMap, lastChainIdx, i, master, ithPriv);
        addr := addr.(clear := Some(ithPriv), privKey := c.encrypt(secret.value, addr.iv, ithPriv), hasPrivKey := true,
          encrypted := true, createNextUnlock := false);
        GrowsSet(addrs, addrMap, lastChainIdx, k, PubKeyAddr(addr));
        addrMap := addrMap[k := PubKeyAddr(addr)];
        prev, prevPriv, i := addr, ithPriv, i + 1;
      }
      missingKeysStart := 0;
    }

    /** Unlocks the store with a passphrase, or fails and changes nothing.  The
        passphrase must not be one that merely happens to decrypt the root. */
    method Unlock(p: Passphrase) returns (err: Option<KeyError>)
      requires Valid() && (!watchingOnly ==> Tells(c, root, master, c.kdf(p)))
      modifies `addrMap, `missingKeysStart, `passphrase, `secret
      ensures Valid()
      ensures watchingOnly ==> err == Some(WatchingOnly)
      ensures !watchingOnly ==> (err.None? <==> c.kdf(p) == master)
      ensures err.None? ==> secret == Some(master) && passphrase == Some(p) && missingKeysStart == 0
      ensures err.Some? ==> addrMap == old(addrMap) && missingKeysStart == old(missingKeysStart)
      ensures err.Some? ==> passphrase == old(passphrase) && secret == old(secret)
      ensures Grows(old(addrMap), addrMap, lastChainIdx)
    {
      hide Grows, PubAt, Distinct, Lawful, AddrAt;
      GrowsSelf(addrMap, lastChainIdx);
      ghost var addrs := addrMap;
      if watchingOnly { return Some(WatchingOnly); }
      var key := c.kdf(p);
      RootUnlocks(c, root, cc, addrMap, chainIdxMap, lastChainIdx, missingKeysStart, master, key);
      ClearKeeps(c, root, cc, addrMap, chainIdxMap, lastChainIdx, FirstMissing(missingKeysStart, lastChainIdx), master,
        keyGenerator);
      hide Distinct, ChainOk, EntriesOk, KeysOk, KeysBelow, OnChain, Lawful, NoneClear, Grows;
      var unlocked := UnlockAddr(keyGenerator, key);
      if unlocked.Failed? { return Some(unlocked.error); }
      GrowsSet(addrs, addrs, lastChainIdx, keyGenerator, addrMap[keyGenerator]);
      passphrase, secret := Some(p), Some(key);
      ghost var before := addrMap;
      CreateMissingPrivateKeys();
      GrowsOn(addrs, before, addrMap, lastChainIdx, lastChainIdx);
      return None;
    }

    /** Forgets every encrypted address's private key in the clear. */
    method LockAddrs()
      modifies `addrMap
      ensures addrMap == AllLocked(old(addrMap))
    {
      ghost var addrs := addrMap;
      var rest := addrMap.Keys;
      while rest != {}
        invariant rest <= addrs.Keys && addrMap.Keys == addrs.Keys
        invariant forall k :: k in addrs ==> addrMap[k] == if k in rest then addrs[k] else LockedAddr(addrs[k])
        decreases rest
      {
        var k :| k in rest;
        if addrMap[k].PubKeyAddr? && addrMap[k].a.encrypted {
          addrMap := addrMap[k := PubKeyAddr(addrMap[k].a.(clear := None))];
        }
        rest := rest - {k};
      }
    }

    /** Forgets the secrets and every private key in the clear. */
    method Lock() returns (err: Option<KeyError>)
      requires Valid()
      modifies `addrMap, `passphrase, `secret
      ensures Valid() && secret.None? && passphrase.None?
      ensures err == if watchingOnly then Some(WatchingOnly) else if old(secret).None? then Some(Locked) else None
      ensures NoneClear(addrMap) && addrMap.Keys == old(addrMap).Keys
      ensures forall k :: k in addrMap ==> OnlyForgets(old(addrMap)[k], addrMap[k])
    {
      if watchingOnly { NoneToForget(addrMap); return Some(WatchingOnly); }
      err := None;
      LockedAre(c, addrMap, master);
      if IsLocked() { err := Some(Locked); } else { passphrase, secret := None, None; }
      LockKeeps(c, root, cc, addrMap, chainIdxMap, lastChainIdx, FirstMissing(missingKeysStart, lastChainIdx), master);
      hide Distinct, ChainOk, EntriesOk, KeysOk, KeysBelow, OnChain, Lawful, NoneClear, AllLocked;
      LockAddrs();
    }

    // ------------------------------------------------ changing the passphrase

    /** Encrypts the private key of the address at k anew. */
    method ChangeEncryptionKey(k: AddrKey, oldkey: AesKey, newkey: AesKey) returns (err: Option<KeyError>)
      requires Lawful(c) && k in addrMap && addrMap[k].PubKeyAddr?
      modifies `addrMap
      ensures err.None? <==> Rekeyable(c, old(addrMap[k].a), oldkey)
      ensures err.Some? ==> addrMap == old(addrMap)
      ensures err.None? ==> k in addrMap && addrMap == old(addrMap)[k := addrMap[k]] && addrMap[k].PubKeyAddr?
      ensures err.None? ==> Rekeyed(c, old(addrMap[k].a), addrMap[k].a, oldkey, newkey)
    {
      if !addrMap[k].a.hasPrivKey { return Some(NoPrivateKey); }
      if !addrMap[k].a.encrypted { return Some(NotEncrypted); }
      var priv := UnlockAddr(k, oldkey);
      if priv.Failed? { return Some(priv.error); }
      var iv: InitVector := *;
      CipherRoundTrip(c, newkey, iv, priv.value);
      addrMap := addrMap[k := PubKeyAddr(addrMap[k].a.(iv := iv, privKey := c.encrypt(newkey, iv, priv.value)))];
      return None;
    }

    /** Encrypts all private keys anew; stops at the first that cannot be. */
    method ChangeAllKeys(oldkey: AesKey, newkey: AesKey) returns (err: Option<KeyError>)
      requires Lawful(c)
      modifies `addrMap
      ensures err.None? <==> AllRekeyable(c, old(addrMap), oldkey)
      ensures err.None? ==> AllRekeyed(c, old(addrMap), addrMap, oldkey, newkey)
    {
      hide Lawful, Rekeyable, Rekeyed;
      ghost var addrs := addrMap;
      var rest := addrMap.Keys;
      while rest != {}
        invariant rest <= addrs.Keys && addrMap.Keys == addrs.Keys
        invariant forall k :: k in rest ==> addrMap[k] == addrs[k]
        invariant forall k :: k in addrs && k !in rest ==> RekeyedAt(c, addrs, addrMap, k, oldkey, newkey)
        invariant forall k :: k in addrs && k !in rest && addrs[k].PubKeyAddr? ==> Rekeyable(c, addrs[k].a, oldkey)
        decreases rest
      {
        var k :| k in rest;
        if addrMap[k].PubKeyAddr? {
          err := ChangeEncryptionKey(k, oldkey, newkey);
          if err.Some? { return; }
        }
        rest := rest - {k};
      }
      return None;
    }

    /** Encrypts all private keys under a new passphrase.  It stops halfway just
        when some key cannot be decrypted, and on a valid store never. */
    method ChangePassphrase(p: Passphrase) returns (err: Option<KeyError>)
      requires Lawful(c)
      modifies `addrMap, `passphrase, `secret, `master
      ensures watchingOnly ==> err == Some(WatchingOnly)
      ensures !watchingOnly && old(secret).None? ==> err == Some(Locked)
      ensures watchingOnly || old(secret).None? ==>
        addrMap == old(addrMap) && passphrase == old(passphrase) && secret == old(secret) && master == old(master)
      ensures !watchingOnly && old(secret).Some? ==> (err.None? <==> AllRekeyable(c, old(addrMap), old(secret).value))
      ensures err.None? ==> secret == Some(c.kdf(p)) && passphrase == Some(p)
      ensures err.None? ==> AllRekeyed(c, old(addrMap), addrMap, old(secret).value, c.kdf(p))
      ensures old(Valid()) && !watchingOnly && old(secret).Some? ==> err.None? && Valid() && master == c.kdf(p)
    {
      if watchingOnly { return Some(WatchingOnly); }
      if IsLocked() { return Some(Locked); }
      var oldkey, newkey := secret.value, c.kdf(p);
      ghost var addrs := addrMap;
      ghost var valid := Valid();
      if valid { AllCanRekey(c, root, cc, addrMap, chainIdxMap, lastChainIdx, master); }
      label Before:
      hide Lawful, AllRekeyable, AllRekeyed, ChainOk, EntriesOk, KeysOk, KeysBelow, Distinct, NoneClear;
      err := ChangeAllKeys(oldkey, newkey);
      if err.Some? { return; }
      if valid {
        RekeyKeeps(c, root, cc, addrs, addrMap, chainIdxMap, lastChainIdx, FirstMissing(missingKeysStart, lastChainIdx),
          oldkey, newkey);
      }
      passphrase, secret := Some(p), Some(newkey);
      master := newkey;
      return None;
    }

    // -------------------------------------------------------------- imports

    /** Imports a private key under its own address. */
    method ImportPrivateKey(priv: Scalar) returns (res: Fallible<AddrKey>)
      requires Valid()
      modifies `addrMap, `importedAddrs
      ensures Valid()
      ensures res.Got? <==>
                !watchingOnly && c.address(c.base(priv)) !in old(addrMap) && secret.Some? && c.parses(c.base(priv))
      ensures res.Got? ==> var k := res.value;
        k == c.address(c.base(priv)) && addrMap.Keys == old(addrMap).Keys + {k}
        && importedAddrs == old(importedAddrs) + [k]
        && addrMap[k].PubKeyAddr? && addrMap[k].a.chainIndex == IMPORTED_IDX == -2
        && c.decrypt(master, addrMap[k].a.iv, addrMap[k].a.privKey) == priv
        && addrMap[k].a.pub == c.base(priv) && addrMap[k].a.hasPrivKey && !addrMap[k].a.change
        && addrMap == old(addrMap)[k := addrMap[k]]
      ensures res.Failed? ==> addrMap == old(addrMap) && importedAddrs == old(importedAddrs)
    {
      if watchingOnly { return Failed(WatchingOnly); }
      var pub := c.base(priv);
      var k := c.address(pub);
      if k in addrMap { return Failed(DuplicateKey); }
      if IsLocked() { return Failed(Locked); }
      if !c.parses(pub) { return Failed(BadPubKey); }
      var iv: InitVector := *;
      CipherRoundTrip(c, secret.value, iv, priv);
      var a := Addr(pub, IMPORTED_IDX, 0, iv, c.encrypt(secret.value, iv, priv), Some(priv), true, true, false, false);
      ImportKeeps(c, root, cc, addrMap, chainIdxMap, lastChainIdx, k, PubKeyAddr(a));
      ImportKeepsKeys(c, root, cc, addrMap, chainIdxMap, lastChainIdx, FirstMissing(missingKeysStart, lastChainIdx),
        master, k, PubKeyAddr(a));
      hide ChainOk, EntriesOk, KeysOk, KeysBelow, Lawful, Distinct, NoneClear;
      addrMap := addrMap[k := PubKeyAddr(a)];
      importedAddrs := importedAddrs + [k];
      return Got(k);
    }

    /** Imports a script, given by its hash. */
    method ImportScript(script: AddrKey) returns (res: Fallible<AddrKey>)
      requires Valid()
      modifies `addrMap, `importedAddrs
      ensures Valid()
      ensures res.Got? <==> !watchingOnly && script !in old(addrMap)
      ensures if res.Got? then addrMap == old(addrMap)[script := ScriptAddr(script)] && importedAddrs
          == old(importedAddrs) + [script]
              else addrMap == old(addrMap) && importedAddrs == old(importedAddrs)
    {
      hide ChainOk, EntriesOk, KeysOk, KeysBelow, Lawful, Distinct, NoneClear;
      if watchingOnly { return Failed(WatchingOnly); }
      if script in addrMap { return Failed(DuplicateKey); }
      ImportKeeps(c, root, cc, addrMap, chainIdxMap, lastChainIdx, script, ScriptAddr(script));
      ImportKeepsKeys(c, root, cc, addrMap, chainIdxMap, lastChainIdx, FirstMissing(missingKeysStart, lastChainIdx),
        master, script, ScriptAddr(script));
      NoneClearScript(addrMap, script);
      addrMap := addrMap[script := ScriptAddr(script)];
      importedAddrs := importedAddrs + [script];
      return Got(script);
    }

    // ------------------------------------------------------ watching copies

    constructor Watching(crypto: Crypto, ghost r: Point, ghost chaincode: Chaincode, used: int, generator: AddrKey,
        last: int, imported: seq<AddrKey>)
      ensures fresh(this) && c == crypto && root == r && cc == chaincode && watchingOnly && secret.None?
      ensures passphrase.None?
      ensures highestUsed == used && keyGenerator == generator && lastChainIdx == last && importedAddrs == imported
      ensures missingKeysStart == 0
      ensures addrMap == map[] && chainIdxMap == map[]
    {
      c, root, cc := crypto, r, chaincode;
      watchingOnly, highestUsed, keyGenerator, lastChainIdx, importedAddrs, missingKeysStart := true, used, generator,
          last, imported, 0;
      addrMap, chainIdxMap, passphrase, secret := map[], map[], None, None;
    }

    /** Fills a watching store with the addresses of another. */
    method CopyAddrs(addrs: AddrMap)
      modifies `addrMap, `chainIdxMap
      requires addrMap == map[] && chainIdxMap == map[]
      requires OnePerIndex(addrs)
      ensures addrMap == AllWatching(addrs)
      ensures forall i, k :: i in chainIdxMap && chainIdxMap[i] == k <==>
                k in addrs && !Imported(addrs[k]) && addrs[k].a.chainIndex == i
    {
      var rest := addrs.Keys;
      while rest != {}
        invariant rest <= addrs.Keys && addrMap.Keys == addrs.Keys - rest
        invariant forall k :: k in addrMap ==> addrMap[k] == WatchingAddr(addrs[k])
        invariant forall i, k :: i in chainIdxMap && chainIdxMap[i] == k <==>
                    k in addrs && k !in rest && !Imported(addrs[k]) && addrs[k].a.chainIndex == i
        decreases rest
      {
        var k :| k in rest;
        if !Imported(addrs[k]) {
          chainIdxMap := chainIdxMap[addrs[k].a.chainIndex := k];
        }
        addrMap := addrMap[k := WatchingAddr(addrs[k])];
        rest := rest - {k};
      }
    }

    /** A copy without private keys, at the same place of the same chain. */
    method ExportWatchingWallet() returns (res: Fallible<KeyStore>)
      requires Valid()
      ensures res.Got? <==> !watchingOnly
      ensures res.Got? ==> var w := res.value;
        fresh(w) && w.Valid() && w.watchingOnly && w.c == c && w.root == root && w.cc == cc
        && w.highestUsed == highestUsed && w.lastChainIdx == lastChainIdx && w.chainIdxMap == chainIdxMap
        && w.addrMap.Keys == addrMap.Keys
        && w.importedAddrs == importedAddrs
        && forall k :: k in addrMap ==> PublicPart(addrMap[k], w.addrMap[k])
    {
      WatchingIs(addrMap);
      hide PublicPart, ChainOk, EntriesOk, KeysOk, KeysBelow, Lawful, Distinct, NoneClear, AllWatching, NoPrivKeys;
      hide WaitsFrom;
      hide Keyed, Imported, WatchingAddr;
      if watchingOnly { return Failed(WatchingOnly); }
      OneKeyPerIndex(c, root, cc, addrMap, lastChainIdx);
      var w := new KeyStore.Watching(c, root, cc, highestUsed, keyGenerator, lastChainIdx, importedAddrs);
      w.CopyAddrs(addrMap);
      WatchingKeeps(c, root, cc, addrMap, chainIdxMap, w.chainIdxMap, lastChainIdx);
      return Got(w);
    }
  }

  datatype Fallible<+T> = Got(value: T) | Failed(error: KeyError)

  /** key decrypts a's private key to the one it belongs to. */
  predicate Unlocks(c: Crypto, a: Addr, key: AesKey) {
    var priv := c.decrypt(key, a.iv, a.privKey);
    a.encrypted && if a.clear.Some? then a.clear.value == priv else c.base(priv) == a.pub
  }

  /** The public keys from lo up to hi parse. */
  ghost predicate ParseBetween(c: Crypto, root: Point, cc: Chaincode, lo: nat, hi: nat) {
    forall i :: lo <= i < hi ==> c.parses(PubAt(c, root, cc, i))
  }

  /** How many of the n public keys from lo on parse before one does not. */
  function Parsed(c: Crypto, root: Point, cc: Chaincode, lo: nat, n: nat): (m: nat)
    ensures m <= n
    decreases n
  {
    if n == 0 || !c.parses(PubAt(c, root, cc, lo)) then 0 else 1 + Parsed(c, root, cc, lo + 1, n - 1)
  }

  lemma {:induction false} ParsedUpTo(c: Crypto, root: Point, cc: Chaincode, lo: nat, i: nat, n: nat)
    requires i <= n && ParseBetween(c, root, cc, lo, lo + i) && (i < n ==> !c.parses(PubAt(c, root, cc, lo + i)))
    ensures Parsed(c, root, cc, lo, n) == i
    decreases i
  {
    if i > 0 { ParsedUpTo(c, root, cc, lo + 1, i - 1, n - 1); }
  }

  lemma {:induction false} ParsedSome(c: Crypto, root: Point, cc: Chaincode, lo: nat, n: nat)
    ensures Parsed(c, root, cc, lo, n) == n <==> ParseBetween(c, root, cc, lo, lo + n)
    decreases n
  {
    if n > 0 && c.parses(PubAt(c, root, cc, lo)) {
      ParsedSome(c, root, cc, lo + 1, n - 1);
      assert ParseBetween(c, root, cc, lo, lo + n) <==> ParseBetween(c, root, cc, lo + 1, lo + n);
    }
  }

  lemma RootParses(c: Crypto, root: Point, cc: Chaincode, n: nat)
    ensures ParseBetween(c, root, cc, 0, 1 + n) <==> c.parses(root) && ParseBetween(c, root, cc, 1, 1 + n)
    ensures Parsed(c, root, cc, 1, n) == n <==> ParseBetween(c, root, cc, 1, 1 + n)
  {
    assert PubAt(c, root, cc, 0) == root;
    ParsedSome(c, root, cc, 1, n);
  }

  lemma OneParsed(c: Crypto, root: Point, cc: Chaincode, lo: nat)
    ensures Parsed(c, root, cc, lo, 1) == (if c.parses(PubAt(c, root, cc, lo)) then 1 else 0)
    ensures ParseBetween(c, root, cc, lo, lo + 1) <==> c.parses(PubAt(c, root, cc, lo))
  {
    ParsedSome(c, root, cc, lo, 1);
  }

  /** How many addresses a store adds at a time. */
  function Wanted(unlocked: bool, keypoolSize: nat): nat {
    if unlocked then keypoolSize else 1
  }

  /** A store at this place of its chain can hand out an address. */
  ghost predicate CanHand(c: Crypto, root: Point, cc: Chaincode, used: int, last: int, unlocked: bool, keypoolSize: nat)
    requires ROOT_IDX <= used <= last
  {
    var n := Wanted(unlocked, keypoolSize);
    used < last || (0 < n && ParseBetween(c, root, cc, last + 2, last + 2 + n))
  }

  /** Where the chain ends after the request. */
  ghost function Reached(c: Crypto, root: Point, cc: Chaincode, used: int, last: int, unlocked: bool,
      keypoolSize: nat): int
    requires ROOT_IDX <= used <= last
  {
    if used < last then last else last + Parsed(c, root, cc, last + 2, Wanted(unlocked, keypoolSize))
  }

  lemma CipherRoundTrip(c: Crypto, key: AesKey, iv: InitVector, x: Scalar)
    requires Lawful(c)
    ensures c.decrypt(key, iv, c.encrypt(key, iv, x)) == x
  {
  }

  lemma OrderPositive(c: Crypto)
    requires Lawful(c)
    ensures 0 < c.order
  {
  }

  lemma AllBelow(c: Crypto, root: Point, cc: Chaincode, addrs: AddrMap, last: int, m: int, n: int)
    requires KeysBelow(c, root, cc, addrs, last, m) && last < m && last < n
    ensures KeysBelow(c, root, cc, addrs, last, n)
  {
  }

  lemma StillLast(c: Crypto, root: Point, cc: Chaincode, addrs: AddrMap, last: int)
    requires KeysBelow(c, root, cc, addrs, last, last + 1)
    ensures MissingOk(c, root, cc, addrs, last, 0)
  {
  }

  /** With no key missing, the last address unlocks under the master key. */
  lemma LastHasKey(c: Crypto, root: Point, cc: Chaincode, addrs: AddrMap, idx: IndexMap, last: int, master: AesKey)
    requires ChainOk(c, root, cc, addrs, idx, last) && KeysOk(c, addrs, master)
    requires KeysBelow(c, root, cc, addrs, last, last + 1)
    ensures last in idx && idx[last] in addrs && addrs[idx[last]].PubKeyAddr?
    ensures var a := addrs[idx[last]].a;
            Unlocks(c, a, master) && c.base(c.decrypt(master, a.iv, a.privKey)) == PubAt(c, root, cc, last + 1)
  {
    assert OnChain(c, root, cc, addrs, last);
  }

  /** Keeping a decrypted key in the clear changes nothing else. */
  lemma ClearKeeps(c: Crypto, root: Point, cc: Chaincode, addrs: AddrMap, idx: IndexMap, last: int, n: int,
      master: AesKey, k: AddrKey)
    requires ChainOk(c, root, cc, addrs, idx, last) && EntriesOk(c, root, cc, addrs, last)
    requires KeysOk(c, addrs, master) && KeysBelow(c, root, cc, addrs, last, n)
    requires k in addrs && addrs[k].PubKeyAddr? && addrs[k].a.encrypted
    ensures var a := addrs[k].a;
        var addrs' := addrs[k := PubKeyAddr(a.(clear := Some(c.decrypt(master, a.iv, a.privKey))))];
            && ChainOk(c, root, cc, addrs', idx, last) && EntriesOk(c, root, cc, addrs', last)
            && KeysOk(c, addrs', master) && KeysBelow(c, root, cc, addrs', last, n)
  {
    var a := addrs[k].a;
    var addrs' := addrs[k := PubKeyAddr(a.(clear := Some(c.decrypt(master, a.iv, a.privKey))))];
    assert KeysOk(c, addrs', master);
    hide ChainOk, EntriesOk, KeysBelow, KeysOk, KeyOk;
    SameKeepsChain(c, root, cc, addrs, addrs', idx, last);
    SameKeepsMissing(c, root, cc, addrs, addrs', last, n);
  }

  lemma InIndex(c: Crypto, root: Point, cc: Chaincode, addrs: AddrMap, idx: IndexMap, last: int, i: int)
    requires ChainOk(c, root, cc, addrs, idx, last) && 0 <= i
    ensures i in idx <==> i <= last
    ensures i in idx ==> idx[i] in addrs && addrs[idx[i]].PubKeyAddr?
  {
    if i <= last { assert OnChain(c, root, cc, addrs, i); }
  }

  /** The address before the first missing one has its private key. */
  lemma HasKeyAt(c: Crypto, root: Point, cc: Chaincode, addrs: AddrMap, idx: IndexMap, last: int, i: int,
      master: AesKey)
    requires ChainOk(c, root, cc, addrs, idx, last) && KeysOk(c, addrs, master)
    requires KeysBelow(c, root, cc, addrs, last, i) && 0 <= i <= last
    ensures i - 1 in idx && idx[i-1] in addrs && addrs[idx[i-1]].PubKeyAddr?
    ensures var a := addrs[idx[i-1]].a;
            Unlocks(c, a, master) && a.encrypted && a.pub == PubAt(c, root, cc, i) && a.chaincode == cc
            && c.base(c.decrypt(master, a.iv, a.privKey)) == a.pub
  {
    assert OnChain(c, root, cc, addrs, i - 1);
  }

  /** Giving address i its private key. */
  lemma FillKeeps(c: Crypto, root: Point, cc: Chaincode, addrs: AddrMap, idx: IndexMap, last: int, i: int,
      master: AesKey, priv: Scalar)
    requires Lawful(c) && ChainOk(c, root, cc, addrs, idx, last) && EntriesOk(c, root, cc, addrs, last) && 0 < i <= last
    requires KeysOk(c, addrs, master) && KeysBelow(c, root, cc, addrs, last, i)
    requires c.base(priv) == PubAt(c, root, cc, i + 1)
    ensures i in idx && idx[i] in addrs && addrs[idx[i]].PubKeyAddr? && addrs[idx[i]].a.pub == PubAt(c, root, cc, i + 1)
    ensures addrs[idx[i]].a.chaincode == cc && !addrs[idx[i]].a.hasPrivKey
    ensures var a := addrs[idx[i]].a;
            var b := a.(clear := Some(priv), privKey := c.encrypt(master, a.iv, priv), hasPrivKey := true,
              encrypted := true, createNextUnlock := false);
            var addrs' := addrs[idx[i] := PubKeyAddr(b)];
            && ChainOk(c, root, cc, addrs', idx, last) && EntriesOk(c, root, cc, addrs', last)
            && KeysOk(c, addrs', master) && KeysBelow(c, root, cc, addrs', last, i + 1)
  {
    assert OnChain(c, root, cc, addrs, i);
    var k := idx[i];
    var a := addrs[k].a;
    var b := a.(clear := Some(priv), privKey := c.encrypt(master, a.iv, priv), hasPrivKey := true, encrypted := true,
      createNextUnlock := false);
    var addrs' := addrs[k := PubKeyAddr(b)];
    CipherRoundTrip(c, master, a.iv, priv);
    SameKeepsChain(c, root, cc, addrs, addrs', idx, last);
    forall j | ROOT_IDX <= j <= last && OnChain(c, root, cc, addrs', j)
      ensures var x := ChainAddr(c, root, cc, addrs', j);
              (x.hasPrivKey <==> j < i + 1) && (x.createNextUnlock <==> !x.hasPrivKey)
    {
      assert OnChain(c, root, cc, addrs, j);
    }
  }

  /** A key unlocks the root address just when it is the master key. */
  lemma RootUnlocks(c: Crypto, root: Point, cc: Chaincode, addrs: AddrMap, idx: IndexMap, last: int, start: int,
      master: AesKey, key: AesKey)
    requires Tells(c, root, master, key)
    requires ChainOk(c, root, cc, addrs, idx, last) && KeysOk(c, addrs, master)
    requires MissingOk(c, root, cc, addrs, last, start)
    ensures var k := AddrAt(c, root, cc, ROOT_IDX);
            k in addrs && addrs[k].PubKeyAddr? && addrs[k].a.encrypted
            && (Unlocks(c, addrs[k].a, key) <==> key == master)
  {
    assert OnChain(c, root, cc, addrs, ROOT_IDX);
  }

  function LockedAddr(w: WalletAddr): WalletAddr {
    if w.PubKeyAddr? && w.a.encrypted then PubKeyAddr(w.a.(clear := None)) else w
  }

  function AllLocked(addrs: AddrMap): AddrMap {
    map k | k in addrs :: LockedAddr(addrs[k])
  }

  /** w' is w without a private key in the clear. */
  ghost predicate OnlyForgets(w: WalletAddr, w': WalletAddr) {
    w' == if w.ScriptAddr? then w else PubKeyAddr(w.a.(clear := None))
  }

  /** w' is the public part of w. */
  ghost predicate PublicPart(w: WalletAddr, w': WalletAddr) {
    if w.ScriptAddr? then w' == w
    else
      && w'.PubKeyAddr? && w'.a.pub == w.a.pub && w'.a.chainIndex == w.a.chainIndex
      && w'.a.chaincode == w.a.chaincode && w'.a.change == w.a.change
      && !w'.a.hasPrivKey && w'.a.clear.None? && !w'.a.createNextUnlock
  }

  /** Only chain addresses, none of them marked as change. */
  ghost predicate NoneImported(addrs: AddrMap) {
    forall k :: k in addrs ==> addrs[k].PubKeyAddr? && ROOT_IDX <= addrs[k].a.chainIndex && !addrs[k].a.change
  }

  lemma StillNoneImported(addrs: AddrMap, addrs': AddrMap, last: int, addrs'': AddrMap)
    requires NoneImported(addrs) && Grows(addrs, addrs', last) && ROOT_IDX <= last
    requires addrs''.Keys == addrs'.Keys && forall k :: k in addrs'' ==> OnlyForgets(addrs'[k], addrs''[k])
    ensures NoneImported(addrs'')
  {
  }

  lemma NoneToForget(addrs: AddrMap)
    requires NoPrivKeys(addrs)
    ensures NoneClear(addrs)
    ensures forall k :: k in addrs ==> OnlyForgets(addrs[k], addrs[k])
  {
  }

  lemma LockedAre(c: Crypto, addrs: AddrMap, master: AesKey)
    requires KeysOk(c, addrs, master)
    ensures AllLocked(addrs).Keys == addrs.Keys
    ensures forall k :: k in addrs ==> OnlyForgets(addrs[k], AllLocked(addrs)[k])
  {
  }

  lemma LockKeeps(c: Crypto, root: Point, cc: Chaincode, addrs: AddrMap, idx: IndexMap, last: int, n: int,
      master: AesKey)
    requires ChainOk(c, root, cc, addrs, idx, last) && EntriesOk(c, root, cc, addrs, last)
    requires KeysOk(c, addrs, master) && KeysBelow(c, root, cc, addrs, last, n)
    ensures var addrs' := AllLocked(addrs);
            && ChainOk(c, root, cc, addrs', idx, last) && EntriesOk(c, root, cc, addrs', last)
            && KeysOk(c, addrs', master) && KeysBelow(c, root, cc, addrs', last, n) && NoneClear(addrs')
  {
    var addrs' := AllLocked(addrs);
    assert KeysOk(c, addrs', master) && NoneClear(addrs');
    hide ChainOk, EntriesOk, KeysBelow, KeysOk, KeyOk, NoneClear;
    SameKeepsChain(c, root, cc, addrs, addrs', idx, last);
    SameKeepsMissing(c, root, cc, addrs, addrs', last, n);
  }

  lemma ChangeKeeps(c: Crypto, root: Point, cc: Chaincode, addrs: AddrMap, idx: IndexMap, last: int, k: AddrKey)
    requires ChainOk(c, root, cc, addrs, idx, last) && EntriesOk(c, root, cc, addrs, last) && k in addrs
    requires addrs[k].PubKeyAddr?
    ensures var addrs' := addrs[k := PubKeyAddr(addrs[k].a.(change := true))];
            && ChainOk(c, root, cc, addrs', idx, last) && EntriesOk(c, root, cc, addrs', last)
            && (NoPrivKeys(addrs) ==> NoPrivKeys(addrs')) && (NoneClear(addrs) ==> NoneClear(addrs'))
  {
    hide ChainOk, EntriesOk;
    SameKeepsChain(c, root, cc, addrs, addrs[k := PubKeyAddr(addrs[k].a.(change := true))], idx, last);
  }

  lemma ChangeKeepsWaits(c: Crypto, root: Point, cc: Chaincode, addrs: AddrMap, last: int, start: int, k: AddrKey)
    requires WaitsFrom(c, root, cc, addrs, last, start) && k in addrs && addrs[k].PubKeyAddr?
    ensures WaitsFrom(c, root, cc, addrs[k := PubKeyAddr(addrs[k].a.(change := true))], last, start)
  {
    var addrs' := addrs[k := PubKeyAddr(addrs[k].a.(change := true))];
    forall i | ROOT_IDX <= i <= last && OnChain(c, root, cc, addrs', i) ensures OnChain(c, root, cc, addrs, i) {}
  }

  lemma ChangeKeepsKeys(c: Crypto, root: Point, cc: Chaincode, addrs: AddrMap, last: int, n: int, master: AesKey,
      k: AddrKey)
    requires KeysOk(c, addrs, master) && KeysBelow(c, root, cc, addrs, last, n) && k in addrs && addrs[k].PubKeyAddr?
    ensures var addrs' := addrs[k := PubKeyAddr(addrs[k].a.(change := true))];
            KeysOk(c, addrs', master) && KeysBelow(c, root, cc, addrs', last, n)
  {
    hide KeysBelow;
    SameKeepsMissing(c, root, cc, addrs, addrs[k := PubKeyAddr(addrs[k].a.(change := true))], last, n);
  }

  // ------------------------------------------------ changing the passphrase

  predicate Rekeyable(c: Crypto, a: Addr, key: AesKey) {
    a.hasPrivKey && Unlocks(c, a, key)
  }

  /** b is a with the same private key under another AES key. */
  ghost predicate Rekeyed(c: Crypto, a: Addr, b: Addr, oldkey: AesKey, newkey: AesKey) {
    && SameAddr(a, b) && b.hasPrivKey == a.hasPrivKey && b.encrypted == a.encrypted
    && b.createNextUnlock == a.createNextUnlock && b.change == a.change
    && c.decrypt(newkey, b.iv, b.privKey) == c.decrypt(oldkey, a.iv, a.privKey)
    && b.clear == Some(c.decrypt(newkey, b.iv, b.privKey))
  }

  ghost predicate AllRekeyable(c: Crypto, addrs: AddrMap, key: AesKey) {
    forall k :: k in addrs && addrs[k].PubKeyAddr? ==> Rekeyable(c, addrs[k].a, key)
  }

  ghost predicate RekeyedAt(c: Crypto, addrs: AddrMap, addrs': AddrMap, k: AddrKey, oldkey: AesKey, newkey: AesKey)
    requires k in addrs && k in addrs'
  {
    if addrs[k].PubKeyAddr? then addrs'[k].PubKeyAddr? && Rekeyed(c, addrs[k].a, addrs'[k].a, oldkey, newkey)
    else addrs'[k] == addrs[k]
  }

  ghost predicate AllRekeyed(c: Crypto, addrs: AddrMap, addrs': AddrMap, oldkey: AesKey, newkey: AesKey) {
    addrs'.Keys == addrs.Keys && forall k :: k in addrs ==> RekeyedAt(c, addrs, addrs', k, oldkey, newkey)
  }

  /** With no key missing, every address can be encrypted anew. */
  lemma AllCanRekey(c: Crypto, root: Point, cc: Chaincode, addrs: AddrMap, idx: IndexMap, last: int, master: AesKey)
    requires ChainOk(c, root, cc, addrs, idx, last) && EntriesOk(c, root, cc, addrs, last)
    requires KeysOk(c, addrs, master) && KeysBelow(c, root, cc, addrs, last, last + 1)
    ensures AllRekeyable(c, addrs, master)
  {
    forall k | k in addrs && addrs[k].PubKeyAddr? ensures Rekeyable(c, addrs[k].a, master) {
      if addrs[k].a.chainIndex != IMPORTED_IDX { assert OnChain(c, root, cc, addrs, addrs[k].a.chainIndex); }
    }
  }

  lemma RekeyKeeps(c: Crypto, root: Point, cc: Chaincode, addrs: AddrMap, addrs': AddrMap, idx: IndexMap, last: int,
      n: int, oldkey: AesKey, newkey: AesKey)
    requires ChainOk(c, root, cc, addrs, idx, last) && EntriesOk(c, root, cc, addrs, last)
    requires KeysOk(c, addrs, oldkey) && KeysBelow(c, root, cc, addrs, last, n)
    requires AllRekeyable(c, addrs, oldkey) && AllRekeyed(c, addrs, addrs', oldkey, newkey)
    ensures ChainOk(c, root, cc, addrs', idx, last) && EntriesOk(c, root, cc, addrs', last)
    ensures KeysOk(c, addrs', newkey) && KeysBelow(c, root, cc, addrs', last, n)
  {
    forall k | k in addrs' && addrs'[k].PubKeyAddr?
      ensures KeyOk(c, addrs'[k].a, newkey) && (addrs'[k].a.chainIndex == IMPORTED_IDX ==> addrs'[k].a.hasPrivKey)
    {
      assert RekeyedAt(c, addrs, addrs', k, oldkey, newkey) && Rekeyable(c, addrs[k].a, oldkey);
    }
    forall k | k in addrs ensures RekeyedAt(c, addrs, addrs', k, oldkey, newkey) {}
    hide ChainOk, EntriesOk, KeysBelow, KeysOk, KeyOk, AllRekeyable, AllRekeyed;
    SameKeepsChain(c, root, cc, addrs, addrs', idx, last);
    SameKeepsMissing(c, root, cc, addrs, addrs', last, n);
  }

  // ---------------------------------------------------------- new and copied

  lemma RootOk(c: Crypto, root: Point, cc: Chaincode, a: Addr, k: AddrKey)
    requires a.pub == root && a.chainIndex == ROOT_IDX && a.chaincode == cc && k == c.address(root) && a.hasPrivKey
    requires !a.createNextUnlock
    ensures k == AddrAt(c, root, cc, ROOT_IDX)
    ensures ChainOk(c, root, cc, map[k := PubKeyAddr(a)], map[ROOT_IDX := k], ROOT_IDX)
    ensures EntriesOk(c, root, cc, map[k := PubKeyAddr(a)], ROOT_IDX)
    ensures MissingOk(c, root, cc, map[k := PubKeyAddr(a)], ROOT_IDX, 0)
  {
    assert PubAt(c, root, cc, 0) == root;
  }

  lemma ImportKeeps(c: Crypto, root: Point, cc: Chaincode, addrs: AddrMap, idx: IndexMap, last: int, k: AddrKey,
      w: WalletAddr)
    requires ChainOk(c, root, cc, addrs, idx, last) && EntriesOk(c, root, cc, addrs, last)
    requires k !in addrs
    requires (w.PubKeyAddr? ==> w.a.chainIndex == IMPORTED_IDX && k == c.address(w.a.pub) && !w.a.createNextUnlock)
    requires (w.ScriptAddr? ==> w.script == k)
    ensures ChainOk(c, root, cc, addrs[k := w], idx, last) && EntriesOk(c, root, cc, addrs[k := w], last)
  {
    var addrs' := addrs[k := w];
    forall i | ROOT_IDX <= i <= last ensures OnChain(c, root, cc, addrs', i) { assert OnChain(c, root, cc, addrs, i); }
  }

  lemma ImportKeepsKeys(c: Crypto, root: Point, cc: Chaincode, addrs: AddrMap, idx: IndexMap, last: int, n: int,
      master: AesKey, k: AddrKey, w: WalletAddr)
    requires ChainOk(c, root, cc, addrs, idx, last) && KeysOk(c, addrs, master)
    requires KeysBelow(c, root, cc, addrs, last, n)
    requires k !in addrs && (w.PubKeyAddr? ==> KeyOk(c, w.a, master) && w.a.hasPrivKey)
    ensures KeysOk(c, addrs[k := w], master) && KeysBelow(c, root, cc, addrs[k := w], last, n)
  {
    forall i | ROOT_IDX <= i <= last && OnChain(c, root, cc, addrs[k := w], i) ensures AddrAt(c, root, cc, i) != k {
      assert OnChain(c, root, cc, addrs, i);
    }
  }

  lemma NoneClearScript(addrs: AddrMap, k: AddrKey)
    requires k !in addrs
    ensures NoneClear(addrs) ==> NoneClear(addrs[k := ScriptAddr(k)])
  {
  }

  function WatchingAddr(w: WalletAddr): WalletAddr {
    if w.ScriptAddr? then w
    else PubKeyAddr(w.a.(iv := 0, privKey := 0, clear := None, hasPrivKey := false, encrypted := false,
        createNextUnlock := false))
  }

  function AllWatching(addrs: AddrMap): (r: AddrMap)
    ensures r.Keys == addrs.Keys
  {
    map k | k in addrs :: WatchingAddr(addrs[k])
  }

  lemma WatchingIs(addrs: AddrMap)
    ensures forall k :: k in addrs ==> PublicPart(addrs[k], AllWatching(addrs)[k])
  {
  }

  /** No two chain addresses have the same index. */
  ghost predicate OnePerIndex(addrs: AddrMap) {
    forall j, k :: j in addrs && k in addrs && !Imported(addrs[j]) && !Imported(addrs[k]) ==>
      addrs[j].a.chainIndex == addrs[k].a.chainIndex ==> j == k
  }

  lemma OneKeyPerIndex(c: Crypto, root: Point, cc: Chaincode, addrs: AddrMap, last: int)
    requires EntriesOk(c, root, cc, addrs, last)
    ensures OnePerIndex(addrs)
  {
  }

  lemma WatchingKeeps(c: Crypto, root: Point, cc: Chaincode, addrs: AddrMap, idx: IndexMap, idx': IndexMap, last: int)
    requires ChainOk(c, root, cc, addrs, idx, last) && EntriesOk(c, root, cc, addrs, last)
    requires forall i, k :: i in idx' && idx'[i] == k <==>
               k in addrs && !Imported(addrs[k]) && addrs[k].a.chainIndex == i
    ensures idx' == idx && NoPrivKeys(AllWatching(addrs)) && WaitsFrom(c, root, cc, AllWatching(addrs), last, 0)
    ensures ChainOk(c, root, cc, AllWatching(addrs), idx, last) && EntriesOk(c, root, cc, AllWatching(addrs), last)
  {
    forall i ensures i in idx <==> i in idx' {
      if i in idx { assert OnChain(c, root, cc, addrs, i); }
      if i in idx' { var k := idx'[i]; assert k in addrs && addrs[k].a.chainIndex == i; }
    }
    forall i | i in idx ensures idx'[i] == idx[i] { assert OnChain(c, root, cc, addrs, i); }
    SameKeepsChain(c, root, cc, addrs, AllWatching(addrs), idx, last);
  }

  // ---------------------------------------------------- no pooled address

  /** Extending a store without keys missing while it is locked records the
      missing key rightly exactly when the chain had an address besides the
      root: index 0 itself reads as "none missing". */
  lemma LockedExtensionIff(c: Crypto, root: Point, cc: Chaincode, addrs: AddrMap, idx: IndexMap, last: int, a: Addr)
    requires ChainOk(c, root, cc, addrs, idx, last) && EntriesOk(c, root, cc, addrs, last)
    requires NewAfter(c, root, cc, last)
    requires KeysBelow(c, root, cc, addrs, last, last + 1) && Continues(c, root, cc, last, a) && !a.hasPrivKey
    requires a.createNextUnlock
    ensures MissingOk(c, root, cc, addrs[c.address(a.pub) := PubKeyAddr(a)], last + 1, last + 1) <==> 0 <= last
  {
    var addrs' := addrs[c.address(a.pub) := PubKeyAddr(a)];
    AddKeepsChain(c, root, cc, addrs, idx, last, a);
    AddKeepsMissing(c, root, cc, addrs, idx, last, last + 1, a);
    if last == ROOT_IDX {
      assert OnChain(c, root, cc, addrs', 0);
      assert !ChainAddr(c, root, cc, addrs', 0).hasPrivKey;
    }
  }
}
