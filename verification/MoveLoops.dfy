/** Mining a known transaction the way the store does it, input by input and
    credit by credit, and that this is the change as a whole. */
module MoveLoops {
  import opened TxTypes
  import opened Ledgers
  import opened LedgerInv
  import opened LedgerOps
  import opened MoveProof

  /** The record leaves the pool and joins its block. */
  function MoveStart(l: Ledger, h: Hash, key: BlockTxKey): (l': Ledger)
    requires h in l.txs
    ensures key in l'.mined && key.height in l'.deltas
  {
    l.(txs := l.txs - {h},
       mined := l.mined[key := l.txs[h].(index := key.index)],
       deltas := l.deltas[key.height := BlockDelta(l.deltas, key.height)])
  }

  function ListSpent(r: TxRecord, ps: seq<BlockOutputKey>): TxRecord {
    r.(debits := if r.debits.None? then None else Some(r.debits.value.(spends := r.debits.value.spends + ps)))
  }

  /** One input: if it spends a mined credit, the credit now names key. */
  function MoveInput(l: Ledger, key: BlockTxKey, op: OutPoint): Ledger
    requires key in l.mined
  {
    var l' := l.(prevOuts := l.prevOuts - {op});
    if op !in l.spentKeys then l' else
    var p := l.spentKeys[op];
    l'.(spentKeys := l.spentKeys - {op}, spentOuts := l.spentOuts - {p},
        mined := Relink(l.mined, {p}, Some(key))[key := ListSpent(l.mined[key], [p])])
  }

  /** r with its credit i spent by who. */
  function SpendCredit(r: TxRecord, i: nat, who: Option<BlockTxKey>): TxRecord
    requires HasCredit(r, i)
  {
    r.(credits := r.credits[i := Some(r.credits[i].value.(spentBy := who))])
  }

  /** One credit: spent by the pool, or newly spendable. */
  function MoveCredit(l: Ledger, key: BlockTxKey, i: nat): Ledger
    requires key in l.mined && key.height in l.deltas
  {
    var r := l.mined[key];
    var op, p := OutPoint(r.tx.hash, i), BlockOutputKey(key, i);
    if !HasCredit(r, i) then l
    else if op in l.spentUnconf then
      l.(spentUnconf := l.spentUnconf - {op}, spentKeys := l.spentKeys[op := p],
          spentOuts := l.spentOuts[p := l.spentUnconf[op]],
         mined := l.mined[key := SpendCredit(r, i, Some(UNMINED))])
    else if r.credits[i].value.spentBy.None? then
      var d := l.deltas[key.height];
      l.(unspent := l.unspent[op := key],
          deltas := l.deltas[key.height := d.(spendable := d.spendable + OutValue(r, i))])
    else l
  }

  function MoveEnd(l: Ledger, key: BlockTxKey): Ledger
    requires key in l.mined
  {
    if l.mined[key].debits.Some? then l.(deltas := Charge(l.deltas, key.height, DebitAmount(l.mined[key]))) else l
  }

  // ------------------------------------------------------- the input loop

  /** MoveStart after the inputs ins. */
  function InputsMoved(l: Ledger, h: Hash, key: BlockTxKey, ins: seq<OutPoint>): Ledger
    requires h in l.txs
  {
    var ps := InputOuts(ins, l.spentKeys);
    MoveStart(l, h, key).(
      mined := Relink(l.mined, ps,
          Some(key))[key := ListSpent(l.txs[h].(index := key.index), InputSpends(ins, l.spentKeys))],
      spentOuts := l.spentOuts - ps,
      spentKeys := l.spentKeys - OpSet(ins),
      prevOuts := l.prevOuts - OpSet(ins))
  }

  lemma RelinkOver(m: Mined, ps: set<BlockOutputKey>, p: BlockOutputKey, key: BlockTxKey, r: TxRecord, r': TxRecord)
    requires p.tx != key
    ensures Relink(Relink(m, ps, Some(key))[key := r], {p}, Some(key))[key := r']
              == Relink(m, ps + {p}, Some(key))[key := r']
  {
    var a, b := Relink(Relink(m, ps, Some(key))[key := r], {p}, Some(key))[key := r'],
        Relink(m, ps + {p}, Some(key))[key := r'];
    forall k | k in m && k != key ensures a[k] == b[k] {
      assert a[k].credits == b[k].credits;
    }
  }

  lemma OuterNext(ins: seq<OutPoint>, op: OutPoint, keys: map<OutPoint, BlockOutputKey>)
    ensures OpSet(ins + [op]) == OpSet(ins) + {op}
    ensures InputOuts(ins + [op], keys) == InputOuts(ins, keys) + if op in keys then {keys[op]} else {}
    ensures InputSpends(ins + [op], keys)
              == InputSpends(ins, keys) + if op in keys && op !in ins then [keys[op]] else []
  {
    assert (ins + [op])[..|ins|] == ins;
    var a, b := InputOuts(ins + [op], keys), InputOuts(ins, keys) + if op in keys then {keys[op]} else {};
    forall p | p in b ensures p in a {
      if p in InputOuts(ins, keys) { var o :| o in ins && o in keys && keys[o] == p; assert o in ins + [op]; }
      else { assert op in ins + [op]; }
    }
  }

  lemma ListSpentMore(r: TxRecord, ps: seq<BlockOutputKey>, p: BlockOutputKey)
    ensures ListSpent(ListSpent(r, ps), [p]) == ListSpent(r, ps + [p])
  {
    if r.debits.Some? { assert r.debits.value.spends + ps + [p] == r.debits.value.spends + (ps + [p]); }
  }

  lemma MinusMore<K, V>(m: map<K, V>, a: set<K>, x: K)
    ensures m - a - {x} == m - (a + {x})
    ensures x in a ==> m - a - {x} == m - a
  {
  }

  lemma InputMoved(l: Ledger, h: Hash, key: BlockTxKey, ins: seq<OutPoint>, op: OutPoint)
    requires h in l.txs && key !in l.mined && forall o :: o in l.spentKeys ==> l.spentKeys[o].tx != key
    ensures MoveInput(InputsMoved(l, h, key, ins), key, op) == InputsMoved(l, h, key, ins + [op])
  {
    var g := InputsMoved(l, h, key, ins);
    var ps, sp := InputOuts(ins, l.spentKeys), InputSpends(ins, l.spentKeys);
    var r := l.txs[h].(index := key.index);
    OuterNext(ins, op, l.spentKeys);
    MinusMore(l.prevOuts, OpSet(ins), op);
    MinusMore(l.spentKeys, OpSet(ins), op);
    assert op in g.spentKeys <==> op in l.spentKeys && op !in ins;
    assert sp + [] == sp && ps + {} == ps && OpSet(ins) + {op} == OpSet(ins + [op]);
    assert op !in l.spentKeys ==> l.spentKeys - OpSet(ins + [op]) == l.spentKeys - OpSet(ins);
    if op in l.spentKeys {
      var p := l.spentKeys[op];
      if op !in ins {
        MinusMore(l.spentOuts, ps, p);
        ListSpentMore(r, sp, p);
        RelinkOver(l.mined, ps, p, key, ListSpent(r, sp), ListSpent(r, sp + [p]));
      } else {
        assert ps + {p} == ps;
      }
    }
    hide Relink, InputOuts, InputSpends, ListSpent, OpSet;
  }

  lemma RelinkNothing(m: Mined, who: Option<BlockTxKey>)
    ensures Relink(m, {}, who) == m
  {
    forall k | k in m ensures Relink(m, {}, who)[k] == m[k] {
      assert Relink(m, {}, who)[k].credits == m[k].credits;
    }
  }

  lemma ListNothing(r: TxRecord)
    ensures ListSpent(r, []) == r
  {
    if r.debits.Some? { assert r.debits.value.spends + [] == r.debits.value.spends; }
  }

  lemma NoInputMoved(l: Ledger, h: Hash, key: BlockTxKey)
    requires h in l.txs
    ensures InputsMoved(l, h, key, []) == MoveStart(l, h, key)
  {
    hide Relink, ListSpent;
    assert InputOuts([], l.spentKeys) == {} && OpSet([]) == {};
    RelinkNothing(l.mined, Some(key));
    ListNothing(l.txs[h].(index := key.index));
    assert l.spentOuts - {} == l.spentOuts && l.spentKeys - {} == l.spentKeys && l.prevOuts - {} == l.prevOuts;
  }

  // ------------------------------------------------------- the credit loop

  function Under(ops: set<OutPoint>, n: nat): (s: set<OutPoint>)
    ensures forall op :: op in s <==> op in ops && op.index < n
  {
    set op | op in ops && op.index < n
  }

  function MarkUpTo(r: TxRecord, su: map<OutPoint, Hash>, n: nat): (s: seq<Option<Credit>>)
    ensures |s| == |r.credits|
  {
    seq(|r.credits|, i requires 0 <= i < |r.credits| =>
      if i < n && r.credits[i].Some? && OutPoint(r.tx.hash, i) in su
      then Some(r.credits[i].value.(spentBy := Some(UNMINED))) else r.credits[i])
  }

  function Gained(r: TxRecord, su: map<OutPoint, Hash>, key: BlockTxKey, n: nat): map<OutPoint, BlockTxKey> {
    map op | op in Under(OwnOps(r), n) && op !in su && r.credits[op.index].value.spentBy.None? :: key
  }

  function KeyOuts(h: Hash, su: map<OutPoint, Hash>, key: BlockTxKey, own: set<OutPoint>): map<BlockOutputKey, Hash> {
    map p | p in OutKeys(key, own) && OutPoint(h, p.out) in su :: su[OutPoint(h, p.out)]
  }

  function KeyIndex(key: BlockTxKey, own: set<OutPoint>): map<OutPoint, BlockOutputKey> {
    map op | op in own :: BlockOutputKey(key, op.index)
  }

  /** g after the first n credits of r, its record at key. */
  function CreditsMoved(g: Ledger, key: BlockTxKey, r: TxRecord, n: nat): Ledger
    requires n <= |r.credits| <= |r.tx.outputs| && key.height in g.deltas
  {
    var own := Under(OwnSpent(r, g.spentUnconf), n);
    var d := g.deltas[key.height];
    g.(mined := g.mined[key := r.(credits := MarkUpTo(r, g.spentUnconf, n))],
       deltas := g.deltas[key.height := d.(spendable := d.spendable + CreditGain(r, g.spentUnconf, n))],
       unspent := g.unspent + Gained(r, g.spentUnconf, key, n),
       spentOuts := g.spentOuts + KeyOuts(r.tx.hash, g.spentUnconf, key, own),
       spentKeys := g.spentKeys + KeyIndex(key, own),
       spentUnconf := g.spentUnconf - own)
  }

  lemma UnderNext(ops: set<OutPoint>, h: Hash, n: nat)
    requires forall op :: op in ops ==> op.hash == h
    ensures Under(ops, n + 1) == Under(ops, n) + if OutPoint(h, n) in ops then {OutPoint(h, n)} else {}
  {
  }

  lemma MarkNext(r: TxRecord, su: map<OutPoint, Hash>, n: nat)
    requires n < |r.credits|
    ensures MarkUpTo(r, su, n + 1) ==
            if r.credits[n].Some? && OutPoint(r.tx.hash, n) in su
            then MarkUpTo(r, su, n)[n := Some(r.credits[n].value.(spentBy := Some(UNMINED)))] else MarkUpTo(r, su, n)
    ensures MarkUpTo(r, su, n)[n] == r.credits[n]
  {
  }

  lemma KeyOutsNext(h: Hash, su: map<OutPoint, Hash>, key: BlockTxKey, own: set<OutPoint>, op: OutPoint,
      outs: map<BlockOutputKey, Hash>)
    requires op in su && op.hash == h
    ensures (outs + KeyOuts(h, su, key, own))[BlockOutputKey(key, op.index) := su[op]]
              == outs + KeyOuts(h, su, key, own + {op})
  {
    var p := BlockOutputKey(key, op.index);
    assert OutKeys(key, own + {op}) == OutKeys(key, own) + {p};
    assert op == OutPoint(h, p.out);
  }

  lemma KeyIndexNext(key: BlockTxKey, own: set<OutPoint>, op: OutPoint, keys: map<OutPoint, BlockOutputKey>)
    ensures (keys + KeyIndex(key, own))[op := BlockOutputKey(key, op.index)] == keys + KeyIndex(key, own + {op})
  {
  }

  lemma GainedNext(r: TxRecord, su: map<OutPoint, Hash>, key: BlockTxKey, n: nat, unspent: map<OutPoint, BlockTxKey>)
    requires n < |r.credits|
    ensures var op := OutPoint(r.tx.hash, n);
            unspent + Gained(r, su, key, n + 1) ==
            if HasCredit(r, n) && op !in su && r.credits[n].value.spentBy.None?
              then (unspent + Gained(r, su, key, n))[op := key]
            else unspent + Gained(r, su, key, n)
  {
    UnderNext(OwnOps(r), r.tx.hash, n);
    var op := OutPoint(r.tx.hash, n);
    if !(HasCredit(r, n) && op !in su && r.credits[n].value.spentBy.None?) {
      assert Gained(r, su, key, n + 1) == Gained(r, su, key, n);
    } else {
      assert Gained(r, su, key, n + 1) == Gained(r, su, key, n)[op := key];
    }
  }

  lemma OneSpentCreditMoved(g: Ledger, key: BlockTxKey, r: TxRecord, n: nat)
    requires n < |r.credits| <= |r.tx.outputs| && key.height in g.deltas
    requires HasCredit(r, n) && OutPoint(r.tx.hash, n) in g.spentUnconf
    ensures MoveCredit(CreditsMoved(g, key, r, n), key, n) == CreditsMoved(g, key, r, n + 1)
  {
    hide MarkUpTo, Gained, KeyOuts, KeyIndex, Under, OwnSpent;
    var su, op, own := g.spentUnconf, OutPoint(r.tx.hash, n), Under(OwnSpent(r, g.spentUnconf), n);
    UnderNext(OwnSpent(r, su), r.tx.hash, n);
    MarkNext(r, su, n);
    GainedNext(r, su, key, n, g.unspent);
    KeyOutsNext(r.tx.hash, su, key, own, op, g.spentOuts);
    KeyIndexNext(key, own, op, g.spentKeys);
    MinusMore(su, own, op);
    assert op in OwnSpent(r, su) && op !in own;
    assert g.deltas[key.height].(spendable := g.deltas[key.height].spendable + CreditGain(r, su, n)) ==
           g.deltas[key.height].(spendable := g.deltas[key.height].spendable + CreditGain(r, su, n + 1));
  }

  lemma OneFreeCreditMoved(g: Ledger, key: BlockTxKey, r: TxRecord, n: nat)
    requires n < |r.credits| <= |r.tx.outputs| && key.height in g.deltas
    requires !HasCredit(r, n) || OutPoint(r.tx.hash, n) !in g.spentUnconf
    ensures MoveCredit(CreditsMoved(g, key, r, n), key, n) == CreditsMoved(g, key, r, n + 1)
  {
    hide MarkUpTo, Gained, KeyOuts, KeyIndex, Under, OwnSpent, OwnOps;
    var su, op, own := g.spentUnconf, OutPoint(r.tx.hash, n), Under(OwnSpent(r, g.spentUnconf), n);
    UnderNext(OwnSpent(r, su), r.tx.hash, n);
    MarkNext(r, su, n);
    GainedNext(r, su, key, n, g.unspent);
    assert own + {} == own && op !in OwnSpent(r, su) && Under(OwnSpent(r, su), n + 1) == own;
    var c := CreditsMoved(g, key, r, n);
    assert c.mined[key].credits[n] == r.credits[n];
    assert HasCredit(r, n) ==> op !in c.spentUnconf;
  }

  lemma OneCreditMoved(g: Ledger, key: BlockTxKey, r: TxRecord, n: nat)
    requires n < |r.credits| <= |r.tx.outputs| && key.height in g.deltas
    ensures MoveCredit(CreditsMoved(g, key, r, n), key, n) == CreditsMoved(g, key, r, n + 1)
  {
    hide MoveCredit, CreditsMoved, HasCredit;
    if HasCredit(r, n) && OutPoint(r.tx.hash, n) in g.spentUnconf {
      OneSpentCreditMoved(g, key, r, n);
    } else {
      OneFreeCreditMoved(g, key, r, n);
    }
  }

  lemma NothingGained(r: TxRecord, su: map<OutPoint, Hash>, key: BlockTxKey, unspent: map<OutPoint, BlockTxKey>)
    ensures unspent + Gained(r, su, key, 0) == unspent
    ensures Under(OwnSpent(r, su), 0) == {} && MarkUpTo(r, su, 0) == r.credits
  {
    assert forall op :: op !in Under(OwnOps(r), 0);
  }

  lemma NoKeyMaps(h: Hash, su: map<OutPoint, Hash>, key: BlockTxKey, outs: map<BlockOutputKey, Hash>,
      keys: map<OutPoint, BlockOutputKey>)
    ensures outs + KeyOuts(h, su, key, {}) == outs && keys + KeyIndex(key, {}) == keys && su - {} == su
  {
    assert forall p :: p !in OutKeys(key, {});
  }

  lemma NoCreditMoved(g: Ledger, key: BlockTxKey)
    requires key in g.mined && key.height in g.deltas && |g.mined[key].credits| <= |g.mined[key].tx.outputs|
    ensures CreditsMoved(g, key, g.mined[key], 0) == g
  {
    hide Under, OwnSpent, OwnOps, MarkUpTo, Gained, KeyOuts, KeyIndex, OutKeys;
    var r := g.mined[key];
    NothingGained(r, g.spentUnconf, key, g.unspent);
    NoKeyMaps(r.tx.hash, g.spentUnconf, key, g.spentOuts, g.spentKeys);
    assert g.mined[key := r] == g.mined;
    assert g.deltas[key.height := g.deltas[key.height]] == g.deltas;
  }

  // -------------------------------------------------------- the whole move

  lemma {:induction false} GainSame(r: TxRecord, r': TxRecord, su: map<OutPoint, Hash>, n: nat)
    requires n <= |r.credits| <= |r.tx.outputs| && r'.tx == r.tx && r'.credits == r.credits
    ensures CreditGain(r', su, n) == CreditGain(r, su, n)
  {
    if n != 0 { GainSame(r, r', su, n - 1); }
  }

  lemma WholeMove(r: TxRecord, su: map<OutPoint, Hash>, key: BlockTxKey)
    ensures MarkUpTo(r, su, |r.credits|) == MarkOwnSpent(r, su)
    ensures Under(OwnSpent(r, su), |r.credits|) == OwnSpent(r, su) && Under(OwnOps(r), |r.credits|) == OwnOps(r)
    ensures Gained(r, su, key, |r.credits|) == MovedUnspent(r, su, key)
    ensures KeyOuts(r.tx.hash, su, key, OwnSpent(r, su)) == MovedOuts(r, su, key)
    ensures KeyIndex(key, OwnSpent(r, su)) == MovedKeys(r, su, key)
  {
    assert Under(OwnOps(r), |r.credits|) == OwnOps(r);
  }

  lemma SameMoves(r: TxRecord, r': TxRecord, su: map<OutPoint, Hash>, key: BlockTxKey)
    requires r'.tx == r.tx && r'.credits == r.credits
    ensures OwnSpent(r', su) == OwnSpent(r, su) && MarkOwnSpent(r', su) == MarkOwnSpent(r, su)
    ensures MovedUnspent(r', su, key) == MovedUnspent(r, su, key) && MovedOuts(r', su, key) == MovedOuts(r, su, key)
    ensures MovedKeys(r', su, key) == MovedKeys(r, su, key)
  {
    assert OwnOps(r') == OwnOps(r) && OwnSpent(r', su) == OwnSpent(r, su);
  }

  lemma MoveEnds(l: Ledger, h: Hash, key: BlockTxKey)
    requires h in l.txs && |l.txs[h].credits| <= |l.txs[h].tx.outputs|
    ensures var g := InputsMoved(l, h, key, l.txs[h].tx.inputs);
            MoveEnd(CreditsMoved(g, key, g.mined[key], |l.txs[h].credits|), key) == MoveMined(l, h, key)
  {
    hide Relink, InputOuts, InputSpends, MarkUpTo, Gained, KeyOuts, KeyIndex, OwnSpent, OwnOps, MovedUnspent, MovedOuts;
    hide MovedKeys, MarkOwnSpent, Under, OpSet, Inputs, CreditGain;
    var r := l.txs[h];
    var g := InputsMoved(l, h, key, r.tx.inputs);
    var r' := g.mined[key];
    assert OpSet(r.tx.inputs) == Inputs(r);
    WholeMove(r', l.spentUnconf, key);
    SameMoves(r, r', l.spentUnconf, key);
    GainSame(r, r', l.spentUnconf, |r.credits|);
  }

  lemma InputsMovedAt(l: Ledger, h: Hash, key: BlockTxKey, ins: seq<OutPoint>)
    requires h in l.txs
    ensures var g := InputsMoved(l, h, key, ins);
            key in g.mined && key.height in g.deltas && g.mined[key].credits == l.txs[h].credits
            && g.mined[key].tx == l.txs[h].tx
  {
  }

  // -------------------------------------------------- each step is well-defined

  /** Relinking one credit rewrites one record. */
  lemma RelinkOne(m: Mined, p: BlockOutputKey, who: Option<BlockTxKey>)
    requires IsCredit(m, p)
    ensures Relink(m, {p}, who) == m[p.tx := SpendCredit(m[p.tx], p.out, who)]
  {
    var a, b := Relink(m, {p}, who), m[p.tx := SpendCredit(m[p.tx], p.out, who)];
    assert p == BlockOutputKey(p.tx, p.out);
    forall k | k in m ensures a[k] == b[k] {
      assert a[k].credits == b[k].credits;
    }
  }

  lemma RelinkOther(m: Mined, p: BlockOutputKey, key: BlockTxKey)
    requires key in m && p.tx != key
    ensures key in Relink(m, {p}, Some(key)) && Relink(m, {p}, Some(key))[key] == m[key]
  {
    assert Relink(m, {p}, Some(key))[key].credits == m[key].credits;
  }

  lemma MovedRecordAt(g: Ledger, key: BlockTxKey, n: nat)
    requires key in g.mined && key.height in g.deltas && n <= |g.mined[key].credits| <= |g.mined[key].tx.outputs|
    ensures var c := CreditsMoved(g, key, g.mined[key], n);
            key in c.mined && key.height in c.deltas && c.mined[key].tx == g.mined[key].tx
            && c.mined[key].debits == g.mined[key].debits
  {
  }

  lemma SpentKeysElsewhere(l: Ledger, key: BlockTxKey)
    requires SpentKeysOk(l.mined, l.spentOuts, l.spentKeys) && key !in l.mined
    ensures forall o :: o in l.spentKeys ==> l.spentKeys[o].tx != key
  {
  }

  /** An input of h on the pool's list names a mined credit, and h has debits. */
  lemma InputIsSpent(l: Ledger, h: Hash, op: OutPoint)
    requires SpentOutsOk(l.mined, l.spentOuts, l.spentKeys) && SpentKeysOk(l.mined, l.spentOuts, l.spentKeys)
    requires SpendersOk(l.mined, l.txs, l.spentOuts) && PrevOutsOk(l.txs, l.prevOuts)
    requires h in l.txs && op in l.txs[h].tx.inputs && op in l.spentKeys
    ensures IsCredit(l.mined, l.spentKeys[op]) && l.txs[h].debits.Some?
  {
    var p := l.spentKeys[op];
    assert OpOf(l.mined, p) == op && Spender(l.txs, l.spentOuts[p], op);
    assert l.prevOuts[op] == h;
  }

  /** While the inputs are being moved, every credit they name is there, in
      another record, and the moved record has debits to list it in. */
  lemma InputReady(l: Ledger, h: Hash, key: BlockTxKey, ins: seq<OutPoint>, op: OutPoint)
    requires SpentOutsOk(l.mined, l.spentOuts, l.spentKeys) && SpentKeysOk(l.mined, l.spentOuts, l.spentKeys)
    requires SpendersOk(l.mined, l.txs, l.spentOuts) && PrevOutsOk(l.txs, l.prevOuts)
    requires h in l.txs && key !in l.mined && op in l.txs[h].tx.inputs
    ensures var g := InputsMoved(l, h, key, ins);
            key in g.mined &&
            (op in g.spentKeys ==>
               IsCredit(g.mined, g.spentKeys[op]) && g.spentKeys[op].tx != key && g.mined[key].debits.Some?)
  {
    hide Relink, InputOuts, InputSpends, OpSet, SpentOutsOk, SpentKeysOk, SpendersOk, PrevOutsOk;
    if op in l.spentKeys {
      InputIsSpent(l, h, op);
      RelinkRelinks(l.mined, InputOuts(ins, l.spentKeys), Some(key));
    }
  }

  /** The pool's view of the mined credits it spends. */
  ghost predicate PoolLinks(l: Ledger) {
    && SpentOutsOk(l.mined, l.spentOuts, l.spentKeys) && SpentKeysOk(l.mined, l.spentOuts, l.spentKeys)
    && SpendersOk(l.mined, l.txs, l.spentOuts) && PrevOutsOk(l.txs, l.prevOuts)
  }

  /** What one more input needs, and what it leads to. */
  lemma InputStep(l: Ledger, h: Hash, key: BlockTxKey, ins: seq<OutPoint>, i: nat)
    requires PoolLinks(l) && h in l.txs && key !in l.mined && l.txs[h].tx.inputs == ins && i < |ins|
    ensures var g := InputsMoved(l, h, key, ins[..i]);
            && key in g.mined && MoveInput(g, key, ins[i]) == InputsMoved(l, h, key, ins[..i+1])
            && (ins[i] in g.spentKeys ==>
                  IsCredit(g.mined, g.spentKeys[ins[i]]) && g.spentKeys[ins[i]].tx != key && g.mined[key].debits.Some?)
  {
    SpentKeysElsewhere(l, key);
    hide SpentOutsOk, SpentKeysOk, SpendersOk, PrevOutsOk, InputsMoved, MoveInput;
    InputReady(l, h, key, ins[..i], ins[i]);
    InputMoved(l, h, key, ins[..i], ins[i]);
    assert ins[..i] + [ins[i]] == ins[..i+1];
  }
}
