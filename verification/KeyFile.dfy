/** Writing a key store's addresses as a list of entries, and rebuilding its
    maps, chain end and missing keys from them. */
module KeyFile {
  import opened TxTypes
  import opened KeyChain
  import opened KeyStores

  // ----------------------------------------------------------- reading back

  /** The map key of an entry. */
  function EntryKey(c: Crypto, w: WalletAddr): AddrKey {
    match w case PubKeyAddr(a) => c.address(a.pub) case ScriptAddr(h) => h
  }

  /** The fields that are not in the file. */
  datatype Loaded = Loaded(addrs: AddrMap, idx: IndexMap, last: int, start: int, imported: seq<AddrKey>)

  function LoadRoot(c: Crypto, root: WalletAddr): Loaded {
    Loaded(map[EntryKey(c, root) := root], map[ROOT_IDX := EntryKey(c, root)], 0, 0, [])
  }

  function LoadOne(c: Crypto, l: Loaded, w: WalletAddr): Loaded {
    var k := EntryKey(c, w);
    var l' := l.(addrs := l.addrs[k := w]);
    if Imported(w) then
      l'.(imported := l.imported + [k], start := NewStart(l.start, w))
    else
      var i := w.a.chainIndex;
      l'.(idx := l.idx[i := k], last := if l.last < i then i else l.last, start := NewStart(l.start, w))
  }

  /** The earliest address that waits for its private key; 0 is "none". */
  function NewStart(start: int, w: WalletAddr): int {
    if w.PubKeyAddr? && w.a.createNextUnlock && (start == 0 || w.a.chainIndex < start) then w.a.chainIndex else start
  }

  function Load(c: Crypto, root: WalletAddr, es: seq<WalletAddr>): Loaded {
    if es == [] then LoadRoot(c, root) else LoadOne(c, Load(c, root, es[..|es|-1]), es[|es|-1])
  }

  method ReadEntries(c: Crypto, root: WalletAddr, es: seq<WalletAddr>)
    returns (addrMap: AddrMap, chainIdxMap: IndexMap, lastChainIdx: int, missingKeysStart: int,
        importedAddrs: seq<AddrKey>)
    ensures Loaded(addrMap, chainIdxMap, lastChainIdx, missingKeysStart, importedAddrs) == Load(c, root, es)
  {
    var rootAddr := EntryKey(c, root);
    addrMap, chainIdxMap := map[rootAddr := root], map[ROOT_IDX := rootAddr];
    lastChainIdx, missingKeysStart, importedAddrs := 0, 0, [];
    var n := 0;
    while n < |es|
      invariant 0 <= n <= |es|
      invariant Loaded(addrMap, chainIdxMap, lastChainIdx, missingKeysStart, importedAddrs) == Load(c, root, es[..n])
    {
      assert es[..n+1][..n] == es[..n];
      var e := es[n];
      var addr := EntryKey(c, e);
      addrMap := addrMap[addr := e];
      if Imported(e) {
        importedAddrs := importedAddrs + [addr];
      } else {
        chainIdxMap := chainIdxMap[e.a.chainIndex := addr];
        if lastChainIdx < e.a.chainIndex { lastChainIdx := e.a.chainIndex; }
      }
      if e.PubKeyAddr? && e.a.createNextUnlock && (missingKeysStart == 0 || e.a.chainIndex < missingKeysStart) {
        missingKeysStart := e.a.chainIndex;
      }
      n := n + 1;
    }
    assert es[..n] == es;
  }

  // ------------------------------------------------- what is read, by lookup

  /** Entries agree with m on their keys. */
  ghost predicate Agrees(c: Crypto, es: seq<WalletAddr>, m: AddrMap) {
    forall n :: 0 <= n < |es| ==> EntryKey(c, es[n]) in m && m[EntryKey(c, es[n])] == es[n]
  }

  lemma {:induction false} LoadAddrs(c: Crypto, root: WalletAddr, es: seq<WalletAddr>, m: AddrMap)
    requires Agrees(c, es, m) && Agrees(c, [root], m)
    ensures var l := Load(c, root, es);
            (forall k :: k in l.addrs ==> k in m && l.addrs[k] == m[k]) && EntryKey(c, root) in l.addrs
            && forall n :: 0 <= n < |es| ==> EntryKey(c, es[n]) in l.addrs
  {
    if es == [] {
      assert Agrees(c, [root], m) && [root][0] == root;
    } else {
      LoadAddrs(c, root, es[..|es|-1], m);
    }
  }

  lemma {:induction false} LoadIndex(c: Crypto, root: WalletAddr, es: seq<WalletAddr>, ix: IndexMap)
    requires ROOT_IDX in ix && ix[ROOT_IDX] == EntryKey(c, root)
    requires forall n :: 0 <= n < |es| && !Imported(es[n]) ==>
               es[n].a.chainIndex in ix && ix[es[n].a.chainIndex] == EntryKey(c, es[n])
    ensures var l := Load(c, root, es);
            (forall i :: i in l.idx ==> i in ix && l.idx[i] == ix[i]) && ROOT_IDX in l.idx
            && forall n :: 0 <= n < |es| && !Imported(es[n]) ==> es[n].a.chainIndex in l.idx
  {
    if es != [] { LoadIndex(c, root, es[..|es|-1], ix); }
  }

  lemma {:induction false} LoadLast(c: Crypto, root: WalletAddr, es: seq<WalletAddr>)
    ensures var l := Load(c, root, es);
            && 0 <= l.last && (forall n :: 0 <= n < |es| && !Imported(es[n]) ==> es[n].a.chainIndex <= l.last)
            && (l.last == 0 || exists n :: 0 <= n < |es| && !Imported(es[n]) && es[n].a.chainIndex == l.last)
  {
    if es != [] {
      var n := |es| - 1;
      LoadLast(c, root, es[..n]);
      var before := Load(c, root, es[..n]).last;
      if !Imported(es[n]) && before < es[n].a.chainIndex {
      } else if before != 0 {
        var j :| 0 <= j < n && !Imported(es[..n][j]) && es[..n][j].a.chainIndex == before;
        assert es[j].a.chainIndex == before;
      }
      forall j | 0 <= j < |es| && !Imported(es[j]) ensures es[j].a.chainIndex <= Load(c, root, es).last {
        if j < n { assert es[..n][j] == es[j]; }
      }
    }
  }

  predicate Waits(w: WalletAddr) {
    w.PubKeyAddr? && w.a.createNextUnlock
  }

  /** With positive indexes only, start is the least index that waits. */
  lemma {:induction false} LoadStart(c: Crypto, root: WalletAddr, es: seq<WalletAddr>)
    requires forall n :: 0 <= n < |es| && Waits(es[n]) ==> 0 < es[n].a.chainIndex
    ensures var l := Load(c, root, es);
            && (forall n :: 0 <= n < |es| && Waits(es[n]) ==> l.start != 0 && l.start <= es[n].a.chainIndex)
            && (l.start == 0 || exists n :: 0 <= n < |es| && Waits(es[n]) && es[n].a.chainIndex == l.start)
  {
    if es != [] {
      var n := |es| - 1;
      LoadStart(c, root, es[..n]);
      var before := Load(c, root, es[..n]).start;
      if before != 0 {
        var j :| 0 <= j < n && Waits(es[..n][j]) && es[..n][j].a.chainIndex == before;
        assert Waits(es[j]) && es[j].a.chainIndex == before;
      }
      forall j | 0 <= j < |es| && Waits(es[j])
        ensures Load(c, root, es).start != 0 && Load(c, root, es).start <= es[j].a.chainIndex
      {
        if j < n { assert Waits(es[..n][j]); }
      }
    }
  }

  lemma {:induction false} LoadImported(c: Crypto, root: WalletAddr, es: seq<WalletAddr>)
    ensures forall k :: k in Load(c, root, es).imported <==>
              exists n :: 0 <= n < |es| && Imported(es[n]) && EntryKey(c, es[n]) == k
  {
    if es != [] {
      var n := |es| - 1;
      LoadImported(c, root, es[..n]);
      forall k
        ensures k in Load(c, root, es).imported <==>
                  exists j :: 0 <= j < |es| && Imported(es[j]) && EntryKey(c, es[j]) == k
      {
        if k in Load(c, root, es[..n]).imported {
          var j :| 0 <= j < n && Imported(es[..n][j]) && EntryKey(c, es[..n][j]) == k;
          assert Imported(es[j]) && EntryKey(c, es[j]) == k;
        }
        if j :| 0 <= j < |es| && Imported(es[j]) && EntryKey(c, es[j]) == k {
          if j < n { assert Imported(es[..n][j]) && EntryKey(c, es[..n][j]) == k; }
        }
      }
    }
  }

  // ---------------------------------------------------------------- writing

  function Range(last: int): (s: set<int>)
    requires ROOT_IDX - 1 <= last
    ensures |s| == last + 2 && forall i :: i in s <==> ROOT_IDX <= i <= last
    decreases last + 2
  {
    if last == ROOT_IDX - 1 then {} else Range(last - 1) + {last}
  }

  /** The chain addresses after the root, without what is in the clear. */
  function ChainEntries(c: Crypto, root: Point, cc: Chaincode, addrs: AddrMap, last: int): (es: seq<WalletAddr>)
    requires ROOT_IDX <= last && forall i :: 0 <= i <= last ==> OnChain(c, root, cc, addrs, i)
    ensures |es| == last + 1
  {
    seq(last + 1, i requires 0 <= i < last + 1 => assert OnChain(c, root, cc, addrs, i);
        LockedAddr(addrs[AddrAt(c, root, cc, i)]))
  }

  ghost predicate IsImported(c: Crypto, addrs: AddrMap, w: WalletAddr) {
    var k := EntryKey(c, w); k in addrs && Imported(addrs[k]) && w == LockedAddr(addrs[k])
  }

  /** imp lists the imported addresses. */
  ghost predicate ListsImported(c: Crypto, addrs: AddrMap, imp: seq<WalletAddr>) {
    && (forall n :: 0 <= n < |imp| ==> IsImported(c, addrs, imp[n]))
    && (forall k :: k in addrs && Imported(addrs[k]) ==> LockedAddr(addrs[k]) in imp)
  }

  /** Each chain address has a slot below n of its own. */
  ghost predicate HaveSlots(addrs: AddrMap, n: nat) {
    && (forall k :: k in addrs && !Imported(addrs[k]) ==> addrs[k].a.chainIndex < n)
    && OnePerIndex(addrs)
  }

  /** Sorts the addresses into n slots by chain index and a list of imported
      ones. */
  method FillSlots(addrs: AddrMap, n: nat) returns (slots: array<Option<WalletAddr>>, imported: seq<WalletAddr>)
    requires HaveSlots(addrs, n)
    ensures fresh(slots) && slots.Length == n
    ensures forall k :: k in addrs && !Imported(addrs[k]) && 0 <= addrs[k].a.chainIndex ==>
              slots[addrs[k].a.chainIndex] == Some(LockedAddr(addrs[k]))
    ensures forall w :: w in imported <==> exists k :: k in addrs && Imported(addrs[k]) && w == LockedAddr(addrs[k])
  {
    slots := new Option<WalletAddr>[n](_ => None);
    imported := [];
    var rest := addrs.Keys;
    while rest != {}
      invariant rest <= addrs.Keys && slots.Length == n && fresh(slots)
      invariant forall k :: k in addrs && k !in rest && !Imported(addrs[k]) && 0 <= addrs[k].a.chainIndex ==>
        slots[addrs[k].a.chainIndex] == Some(LockedAddr(addrs[k]))
      invariant forall w :: w in imported <==>
                  exists k :: k in addrs && k !in rest && Imported(addrs[k]) && w == LockedAddr(addrs[k])
      decreases rest
    {
      var k :| k in rest;
      if Imported(addrs[k]) {
        imported := imported + [LockedAddr(addrs[k])];
      } else if 0 <= addrs[k].a.chainIndex {
        slots[addrs[k].a.chainIndex] := Some(LockedAddr(addrs[k]));
      }
      rest := rest - {k};
    }
  }

  lemma ChainHasSlots(c: Crypto, root: Point, cc: Chaincode, addrs: AddrMap, idx: IndexMap, last: int)
    requires ChainOk(c, root, cc, addrs, idx, last) && EntriesOk(c, root, cc, addrs, last)
    ensures |idx| == last + 2 && HaveSlots(addrs, last + 1)
    ensures forall k :: k in addrs ==> EntryKey(c, addrs[k]) == k
    ensures forall i :: 0 <= i <= last ==> OnChain(c, root, cc, addrs, i)
  {
    IndexSize(c, root, cc, addrs, idx, last);
    OneKeyPerIndex(c, root, cc, addrs, last);
  }

  lemma IndexSize(c: Crypto, root: Point, cc: Chaincode, addrs: AddrMap, idx: IndexMap, last: int)
    requires ChainOk(c, root, cc, addrs, idx, last)
    ensures |idx| == last + 2
  {
    hide OnChain, AddrAt;
    assert idx.Keys == Range(last);
  }

  /** Sorts the addresses for writing.  Every slot is filled and none is out of
      range. */
  method SortEntries(c: Crypto, ghost root: Point, ghost cc: Chaincode, addrs: AddrMap, idx: IndexMap, ghost last: int)
    returns (chained: seq<WalletAddr>, imported: seq<WalletAddr>)
    requires ChainOk(c, root, cc, addrs, idx, last) && EntriesOk(c, root, cc, addrs, last)
    ensures chained == ChainEntries(c, root, cc, addrs, last) && ListsImported(c, addrs, imported)
  {
    ChainHasSlots(c, root, cc, addrs, idx, last);
    hide ChainOk, EntriesOk, HaveSlots;
    var slots;
    slots, imported := FillSlots(addrs, |idx| - 1);
    forall n | 0 <= n < |imported| ensures IsImported(c, addrs, imported[n]) {
      assert imported[n] in imported;
      var k :| k in addrs && Imported(addrs[k]) && imported[n] == LockedAddr(addrs[k]);
      assert EntryKey(c, imported[n]) == k;
    }
    forall i | 0 <= i <= last
      ensures slots[i] == Some(ChainEntries(c, root, cc, addrs, last)[i])
    {
      assert OnChain(c, root, cc, addrs, i);
    }
    chained := Filled(slots, ChainEntries(c, root, cc, addrs, last));
  }

  /** The entries in the slots, none of which is empty. */
  method Filled(slots: array<Option<WalletAddr>>, ghost es: seq<WalletAddr>) returns (chained: seq<WalletAddr>)
    requires slots.Length == |es| && forall i :: 0 <= i < |es| ==> slots[i] == Some(es[i])
    ensures chained == es
  {
    chained := [];
    var i := 0;
    while i < slots.Length
      invariant 0 <= i <= slots.Length && chained == es[..i]
    {
      chained := chained + [slots[i].value];
      i := i + 1;
    }
  }

  // -------------------------------------------------------------- round trip

  /** The root entry and the entries es are the addresses of a store. */
  ghost predicate Lists(c: Crypto, addrs: AddrMap, rootKey: AddrKey, rootEntry: WalletAddr, es: seq<WalletAddr>) {
    && rootKey in addrs && rootEntry == LockedAddr(addrs[rootKey]) && EntryKey(c, rootEntry) == rootKey
    && (forall n :: 0 <= n < |es| ==>
          var k := EntryKey(c, es[n]); k in addrs && k != rootKey && es[n] == LockedAddr(addrs[k]))
    && (forall k :: k in addrs && k != rootKey ==> LockedAddr(addrs[k]) in es)
  }

  lemma EntriesList(c: Crypto, root: Point, cc: Chaincode, addrs: AddrMap, idx: IndexMap, last: int,
      imp: seq<WalletAddr>)
    requires ChainOk(c, root, cc, addrs, idx, last) && EntriesOk(c, root, cc, addrs, last)
    requires ListsImported(c, addrs, imp)
    ensures var rootKey := AddrAt(c, root, cc, ROOT_IDX);
            rootKey in addrs && Lists(c, addrs, rootKey, LockedAddr(addrs[rootKey]),
                ChainEntries(c, root, cc, addrs, last) + imp)
  {
    var rootKey, chain := AddrAt(c, root, cc, ROOT_IDX), ChainEntries(c, root, cc, addrs, last);
    var es := chain + imp;
    assert OnChain(c, root, cc, addrs, ROOT_IDX);
    forall n | 0 <= n < |es|
      ensures var k := EntryKey(c, es[n]); k in addrs && k != rootKey && es[n] == LockedAddr(addrs[k])
    {
      if n < |chain| { assert OnChain(c, root, cc, addrs, n); } else { assert IsImported(c, addrs, imp[n - |chain|]); }
    }
    forall k | k in addrs && k != rootKey ensures LockedAddr(addrs[k]) in es {
      if Imported(addrs[k]) {
        assert LockedAddr(addrs[k]) in imp;
      } else {
        assert chain[addrs[k].a.chainIndex] == LockedAddr(addrs[k]);
      }
    }
  }

  lemma AddrsBack(c: Crypto, addrs: AddrMap, rootKey: AddrKey, rootEntry: WalletAddr, es: seq<WalletAddr>)
    requires Lists(c, addrs, rootKey, rootEntry, es)
    requires forall k :: k in addrs ==> EntryKey(c, addrs[k]) == k
    ensures Load(c, rootEntry, es).addrs == AllLocked(addrs)
  {
    var m, l := AllLocked(addrs), Load(c, rootEntry, es).addrs;
    LoadAddrs(c, rootEntry, es, m);
    forall k | k in m ensures k in l {
      if k != rootKey {
        assert LockedAddr(addrs[k]) in es;
        var n :| 0 <= n < |es| && es[n] == LockedAddr(addrs[k]);
        assert EntryKey(c, es[n]) == k;
      }
    }
  }

  lemma IndexBack(c: Crypto, root: Point, cc: Chaincode, addrs: AddrMap, idx: IndexMap, last: int, es: seq<WalletAddr>)
    requires ChainOk(c, root, cc, addrs, idx, last) && EntriesOk(c, root, cc, addrs, last)
    requires Lists(c, addrs, AddrAt(c, root, cc, ROOT_IDX), LockedAddr(addrs[AddrAt(c, root, cc, ROOT_IDX)]), es)
    ensures Load(c, LockedAddr(addrs[AddrAt(c, root, cc, ROOT_IDX)]), es).idx == idx
  {
    var rootKey := AddrAt(c, root, cc, ROOT_IDX);
    var l := Load(c, LockedAddr(addrs[rootKey]), es).idx;
    LoadIndex(c, LockedAddr(addrs[rootKey]), es, idx);
    forall i | i in idx ensures i in l {
      if i != ROOT_IDX {
        assert OnChain(c, root, cc, addrs, i) && idx[i] == AddrAt(c, root, cc, i);
        assert addrs[idx[i]].a.chainIndex == i && addrs[rootKey].a.chainIndex
            == ROOT_IDX by { assert OnChain(c, root, cc, addrs, ROOT_IDX); }
        var n :| 0 <= n < |es| && es[n] == LockedAddr(addrs[idx[i]]);
        assert !Imported(es[n]) && es[n].a.chainIndex == i;
      }
    }
    assert forall i :: i in l ==> i in idx && l[i] == idx[i];
    assert l.Keys == idx.Keys;
    assert l == idx;
  }

  /** The chain end is recovered just when the chain has an address besides the
      root: an empty pool reads back with its end at 0 instead of -1. */
  lemma LastBackIff(c: Crypto, root: Point, cc: Chaincode, addrs: AddrMap, idx: IndexMap, last: int,
      es: seq<WalletAddr>)
    requires ChainOk(c, root, cc, addrs, idx, last) && EntriesOk(c, root, cc, addrs, last)
    requires Lists(c, addrs, AddrAt(c, root, cc, ROOT_IDX), LockedAddr(addrs[AddrAt(c, root, cc, ROOT_IDX)]), es)
    ensures Load(c, LockedAddr(addrs[AddrAt(c, root, cc, ROOT_IDX)]), es).last == last <==> 0 <= last
  {
    var rootKey := AddrAt(c, root, cc, ROOT_IDX);
    var l := Load(c, LockedAddr(addrs[rootKey]), es).last;
    LoadLast(c, LockedAddr(addrs[rootKey]), es);
    if 0 <= last {
      assert OnChain(c, root, cc, addrs, last) && OnChain(c, root, cc, addrs, ROOT_IDX);
      var n :| 0 <= n < |es| && es[n] == LockedAddr(addrs[AddrAt(c, root, cc, last)]);
      assert !Imported(es[n]) && es[n].a.chainIndex == last;
    }
  }

  lemma StartBack(c: Crypto, root: Point, cc: Chaincode, addrs: AddrMap, idx: IndexMap, last: int, start: int,
      es: seq<WalletAddr>)
    requires ChainOk(c, root, cc, addrs, idx, last) && EntriesOk(c, root, cc, addrs, last)
    requires WaitsFrom(c, root, cc, addrs, last, start)
    requires Lists(c, addrs, AddrAt(c, root, cc, ROOT_IDX), LockedAddr(addrs[AddrAt(c, root, cc, ROOT_IDX)]), es)
    ensures Load(c, LockedAddr(addrs[AddrAt(c, root, cc, ROOT_IDX)]), es).start == start
  {
    var rootKey := AddrAt(c, root, cc, ROOT_IDX);
    forall n | 0 <= n < |es| && Waits(es[n]) ensures start != 0 && start <= es[n].a.chainIndex {
      var a := addrs[EntryKey(c, es[n])].a;
      assert OnChain(c, root, cc, addrs, a.chainIndex);
    }
    LoadStart(c, LockedAddr(addrs[rootKey]), es);
    if start != 0 {
      assert OnChain(c, root, cc, addrs, start) && OnChain(c, root, cc, addrs, ROOT_IDX);
      var n :| 0 <= n < |es| && es[n] == LockedAddr(addrs[AddrAt(c, root, cc, start)]);
      assert Waits(es[n]) && es[n].a.chainIndex == start;
    }
  }

  lemma ImportedBack(c: Crypto, root: Point, cc: Chaincode, addrs: AddrMap, idx: IndexMap, last: int,
      es: seq<WalletAddr>)
    requires ChainOk(c, root, cc, addrs, idx, last) && EntriesOk(c, root, cc, addrs, last)
    requires Lists(c, addrs, AddrAt(c, root, cc, ROOT_IDX), LockedAddr(addrs[AddrAt(c, root, cc, ROOT_IDX)]), es)
    ensures forall k :: k in Load(c, LockedAddr(addrs[AddrAt(c, root, cc, ROOT_IDX)]), es).imported <==>
              k in addrs && Imported(addrs[k])
  {
    var rootKey := AddrAt(c, root, cc, ROOT_IDX);
    LoadImported(c, LockedAddr(addrs[rootKey]), es);
    assert OnChain(c, root, cc, addrs, ROOT_IDX);
    forall k | k in addrs && Imported(addrs[k]) ensures k in Load(c, LockedAddr(addrs[rootKey]), es).imported {
      var n :| 0 <= n < |es| && es[n] == LockedAddr(addrs[k]);
      assert Imported(es[n]) && EntryKey(c, es[n]) == k;
    }
  }

  /** Reading back what a store wrote, watching or not, recovers its addresses,
      its index map, the chain end, the first missing key and the set of
      imported addresses; only what was in the clear is gone. */
  method WriteThenRead(s: KeyStore)
    returns (addrMap: AddrMap, chainIdxMap: IndexMap, lastChainIdx: int, missingKeysStart: int,
        importedAddrs: seq<AddrKey>)
    requires s.Valid() && s.Pooled()
    ensures addrMap == AllLocked(s.addrMap) && chainIdxMap == s.chainIdxMap
    ensures lastChainIdx == s.lastChainIdx && missingKeysStart == s.missingKeysStart
    ensures forall k :: k in importedAddrs <==> k in s.addrMap && Imported(s.addrMap[k])
  {
    RootKnown(s.c, s.root, s.cc, s.addrMap, s.chainIdxMap, s.lastChainIdx);
    if !s.watchingOnly { MissingWaits(s.c, s.root, s.cc, s.addrMap, s.lastChainIdx, s.missingKeysStart); }
    hide WaitsFrom, NoPrivKeys, Lawful, ChainOk, EntriesOk, KeysOk, MissingOk, NoneClear, AllLocked, Lists;
    hide ListsImported, Load, ChainEntries, AddrAt;
    var chained, imported := SortEntries(s.c, s.root, s.cc, s.addrMap, s.chainIdxMap, s.lastChainIdx);
    var root, es := LockedAddr(s.addrMap[s.keyGenerator]), chained + imported;
    EntriesList(s.c, s.root, s.cc, s.addrMap, s.chainIdxMap, s.lastChainIdx, imported);
    KeysAreOwn(s.c, s.root, s.cc, s.addrMap, s.lastChainIdx);
    AddrsBack(s.c, s.addrMap, s.keyGenerator, root, es);
    IndexBack(s.c, s.root, s.cc, s.addrMap, s.chainIdxMap, s.lastChainIdx, es);
    LastBackIff(s.c, s.root, s.cc, s.addrMap, s.chainIdxMap, s.lastChainIdx, es);
    StartBack(s.c, s.root, s.cc, s.addrMap, s.chainIdxMap, s.lastChainIdx, s.missingKeysStart, es);
    ImportedBack(s.c, s.root, s.cc, s.addrMap, s.chainIdxMap, s.lastChainIdx, es);
    addrMap, chainIdxMap, lastChainIdx, missingKeysStart, importedAddrs := ReadEntries(s.c, root, es);
  }

  lemma RootKnown(c: Crypto, root: Point, cc: Chaincode, addrs: AddrMap, idx: IndexMap, last: int)
    requires ChainOk(c, root, cc, addrs, idx, last)
    ensures AddrAt(c, root, cc, ROOT_IDX) in addrs
    ensures forall i :: 0 <= i <= last ==> OnChain(c, root, cc, addrs, i)
  {
    assert OnChain(c, root, cc, addrs, ROOT_IDX);
  }

  lemma KeysAreOwn(c: Crypto, root: Point, cc: Chaincode, addrs: AddrMap, last: int)
    requires EntriesOk(c, root, cc, addrs, last)
    ensures forall k :: k in addrs ==> EntryKey(c, addrs[k]) == k
  {
  }
}
