/** Taking a transaction out of the pool input by input, as the store does it. */
module RemoveLoops {
  import opened TxTypes
  import opened Ledgers
  import opened LedgerInv
  import opened Conflicts
  import opened MoveProof
  import opened MoveLoops

  /** One input: a mined credit it spends is unspent again; an unconfirmed one
      is no longer tracked as spent. */
  function RemoveInput(l: Ledger, op: OutPoint): Ledger {
    var l' := l.(prevOuts := l.prevOuts - {op});
    if op in l.spentKeys then
      var p := l.spentKeys[op];
      l'.(spentKeys := l.spentKeys - {op}, spentOuts := l.spentOuts - {p}, mined := Relink(l.mined, {p}, None))
    else l'.(spentUnconf := l.spentUnconf - {op})
  }

  function InputsRemoved(l: Ledger, ins: seq<OutPoint>): Ledger {
    var ps := InputOuts(ins, l.spentKeys);
    l.(mined := Relink(l.mined, ps, None),
       spentOuts := l.spentOuts - ps,
       spentKeys := l.spentKeys - OpSet(ins),
       spentUnconf := l.spentUnconf - OpSet(ins),
       prevOuts := l.prevOuts - OpSet(ins))
  }

  lemma RelinkTwice(m: Mined, ps: set<BlockOutputKey>, p: BlockOutputKey)
    ensures Relink(Relink(m, ps, None), {p}, None) == Relink(m, ps + {p}, None)
  {
    var a, b := Relink(Relink(m, ps, None), {p}, None), Relink(m, ps + {p}, None);
    forall k | k in m ensures a[k] == b[k] {
      assert a[k].credits == b[k].credits;
    }
  }

  lemma InputRemoved(l: Ledger, ins: seq<OutPoint>, op: OutPoint)
    requires forall o :: o in l.spentKeys ==> o !in l.spentUnconf
    ensures RemoveInput(InputsRemoved(l, ins), op) == InputsRemoved(l, ins + [op])
  {
    var g, ps := InputsRemoved(l, ins), InputOuts(ins, l.spentKeys);
    OuterNext(ins, op, l.spentKeys);
    MinusMore(l.prevOuts, OpSet(ins), op);
    MinusMore(l.spentKeys, OpSet(ins), op);
    MinusMore(l.spentUnconf, OpSet(ins), op);
    assert op in g.spentKeys <==> op in l.spentKeys && op !in ins;
    assert ps + {} == ps;
    assert op !in l.spentKeys ==> l.spentKeys - OpSet(ins + [op]) == l.spentKeys - OpSet(ins);
    assert op in l.spentKeys ==> l.spentUnconf - OpSet(ins + [op]) == l.spentUnconf - OpSet(ins);
    if op in l.spentKeys {
      var p := l.spentKeys[op];
      if op !in ins {
        MinusMore(l.spentOuts, ps, p);
        RelinkTwice(l.mined, ps, p);
      } else {
        assert ps + {p} == ps;
      }
    }
    hide Relink, InputOuts, OpSet;
  }

  lemma NoInputRemoved(l: Ledger)
    ensures InputsRemoved(l, []) == l
  {
    hide Relink;
    assert InputOuts([], l.spentKeys) == {} && OpSet([]) == {};
    RelinkNothing(l.mined, None);
    assert l.spentOuts - {} == l.spentOuts && l.spentKeys - {} == l.spentKeys;
    assert l.prevOuts - {} == l.prevOuts && l.spentUnconf - {} == l.spentUnconf;
  }

  /** The loop over the inputs and the final deletion make up the removal. */
  lemma RemoveStepwiseIs(l: Ledger, h: Hash)
    requires h in l.txs && Sound(l)
    ensures var g := InputsRemoved(l, l.txs[h].tx.inputs); g.(txs := g.txs - {h}) == RemoveOne(l, h)
  {
    var ins := l.txs[h].tx.inputs;
    hide Relink, InputOuts;
    assert OpSet(ins) == Inputs(l.txs[h]);
    assert l.spentUnconf - OpSet(ins) == l.spentUnconf - (OpSet(ins) - l.spentKeys.Keys);
  }

  /** Every outpoint on the pool's list names a mined credit. */
  ghost predicate KeysLive(l: Ledger) {
    forall op :: op in l.spentKeys ==> IsCredit(l.mined, l.spentKeys[op])
  }

  /** What one more input needs, and what it leads to. */
  lemma RemoveStep(l: Ledger, ins: seq<OutPoint>, i: nat)
    requires KeysLive(l) && Sound(l) && i < |ins|
    ensures var g := InputsRemoved(l, ins[..i]);
            && RemoveInput(g, ins[i]) == InputsRemoved(l, ins[..i+1])
            && (ins[i] in g.spentKeys ==> IsCredit(g.mined, g.spentKeys[ins[i]]))
  {
    RelinkRelinks(l.mined, InputOuts(ins[..i], l.spentKeys), None);
    hide Relink, InputOuts, RemoveInput, OpSet;
    InputRemoved(l, ins[..i], ins[i]);
    assert ins[..i] + [ins[i]] == ins[..i+1];
  }

  lemma InputsForgotten(l: Ledger, h: Hash, op: OutPoint)
    requires h in l.txs && op in l.txs[h].tx.inputs
    ensures op !in RemoveOne(l, h).prevOuts
  {
    hide Relink, InputOuts;
  }

  lemma RemoveOneKeysLive(l: Ledger, h: Hash)
    requires KeysLive(l) && h in l.txs
    ensures KeysLive(RemoveOne(l, h)) && RemoveOne(l, h).mined.Keys == l.mined.Keys
  {
    RelinkRelinks(l.mined, InputOuts(l.txs[h].tx.inputs, l.spentKeys), None);
    hide Relink, InputOuts;
  }

  // ---------------------------------------------- the loop over the credits

  /** The spender of credit i, if it has to go too, is there to be removed. */
  lemma SpenderNext(l: Ledger, r: TxRecord, i: nat, bound: nat)
    requires r.tx.hash < bound && i < |r.credits| && Below(l.txs, bound) && Sound(l)
    requires RemoveSpenders(l, r, i, bound).Ok?
    ensures var l', op := RemoveSpenders(l, r, i, bound).value, OutPoint(r.tx.hash, i);
            && Below(l'.txs, bound) && Sound(l')
            && (op in l'.spentUnconf ==>
                  var h := l'.spentUnconf[op]; h in l'.txs && l'.txs[h].tx.hash == h && r.tx.hash < h < bound)
            && RemoveSpenders(l, r, i + 1, bound) ==
               if r.credits[i].None? || r.credits[i].value.spentBy.None? then Ok(l')
               else if op !in l'.spentUnconf then Err(InconsistentStore)
               else RemoveConflict(l', l'.spentUnconf[op], bound)
  {
    var l', op := RemoveSpenders(l, r, i, bound).value, OutPoint(r.tx.hash, i);
    if op in l'.spentUnconf {
      var t := l'.txs[l'.spentUnconf[op]].tx;
      assert op in t.inputs && Commits(t);
    }
  }

  lemma {:induction false} SpenderFails(l: Ledger, r: TxRecord, i: nat, n: nat, bound: nat)
    requires r.tx.hash < bound && i <= n <= |r.credits| && Below(l.txs, bound) && Sound(l)
    requires RemoveSpenders(l, r, i, bound).Err?
    ensures RemoveSpenders(l, r, n, bound).Err?
  {
    if i < n { SpenderFails(l, r, i, n - 1, bound); }
  }

  lemma ConflictIs(l: Ledger, h: Hash, bound: nat)
    requires h in l.txs && l.txs[h].tx.hash == h && Below(l.txs, bound) && Sound(l)
    ensures h < bound
    ensures var s := RemoveSpenders(l, l.txs[h], |l.txs[h].credits|, bound);
            if s.Err? then RemoveConflict(l, h, bound).Err?
            else h in s.value.txs && s.value.txs[h] == l.txs[h] && Sound(s.value) &&
                 RemoveConflict(l, h, bound) == Ok(RemoveOne(s.value, h))
  {
    hide RemoveOne;
  }
}
