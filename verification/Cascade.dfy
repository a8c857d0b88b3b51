/** The chain of removals that starts at a conflicting transaction: which
    records it takes out, and exactly when it gives up. */
module Cascade {
  import opened TxTypes
  import opened Ledgers
  import opened LedgerInv
  import opened Conflicts
  import opened ConflictProof

  // ------------------------------------------------------------- descendants

  /** x is a, or ends a chain of spends that starts at a. */
  ghost predicate Reaches(w: Spent, a: Hash, x: Hash)
    decreases x - a
  {
    if x <= a then a == x
    else exists op :: op in w && op.hash == a && a < w[op] <= x && Reaches(w, w[op], x)
  }

  ghost predicate Marked(txs: Pool, op: OutPoint) {
    op.hash in txs && HasCredit(txs[op.hash], op.index) && txs[op.hash].credits[op.index].value.spentBy.Some?
  }

  /** The recorded spenders of the credits that are marked spent. */
  ghost function Links(txs: Pool, su: Spent): (w: Spent)
    ensures forall op :: op in w <==> op in su && Marked(txs, op)
    ensures forall op :: op in w ==> w[op] == su[op]
  {
    map op | op in su && Marked(txs, op) :: su[op]
  }

  /** Spenders come after what they spend. */
  ghost predicate Rising(w: Spent) {
    forall op :: op in w ==> op.hash < w[op]
  }

  /** x descends from h through one of its first n outputs. */
  ghost predicate Through(w: Spent, h: Hash, n: nat, x: Hash) {
    exists i: nat :: i < n && OutPoint(h, i) in w && Reaches(w, w[OutPoint(h, i)], x)
  }

  /** The descendants of h through its first n outputs. */
  ghost function Under(l: Ledger, h: Hash, n: nat): set<Hash> {
    set x | x in l.txs && Through(Links(l.txs, l.spentUnconf), h, n, x)
  }

  /** h and everything in the pool that descends from it through credits
      marked spent. */
  ghost function Descendants(l: Ledger, h: Hash): set<Hash> {
    set x | x in l.txs && Reaches(Links(l.txs, l.spentUnconf), h, x)
  }

  /** op is a marked credit of h or of a descendant of h. */
  ghost predicate Visited(txs: Pool, su: Spent, h: Hash, op: OutPoint) {
    Marked(txs, op) && Reaches(Links(txs, su), h, op.hash)
  }

  /** Every marked credit of h and its descendants has a recorded spender, and
      no transaction spends two of them. */
  ghost predicate Treelike(txs: Pool, su: Spent, h: Hash) {
    && (forall op :: Visited(txs, su, h, op) ==> op in su)
    && (forall p, q :: Visited(txs, su, h, p) && Visited(txs, su, h, q) && p in su && q in su && su[p] == su[q] ==>
          p == q)
  }

  // ----------------------------------------------- h with its first n outputs

  ghost predicate VisitedUpTo(txs: Pool, su: Spent, h: Hash, n: nat, op: OutPoint) {
    Marked(txs, op) && ((op.hash == h && op.index < n) || Through(Links(txs, su), h, n, op.hash))
  }

  ghost predicate TreelikeUpTo(txs: Pool, su: Spent, h: Hash, n: nat) {
    && (forall op :: VisitedUpTo(txs, su, h, n, op) ==> op in su)
    && (forall p, q :: VisitedUpTo(txs, su, h, n, p) && VisitedUpTo(txs, su, h, n, q) ==>
          p in su && q in su && su[p] == su[q] ==> p == q)
  }

  // ------------------------------------------------------------------- chains

  lemma LiveLinks(txs: Pool, su: Spent)
    requires SpendersLive(txs, su)
    ensures Rising(su) && Rising(Links(txs, su))
  {
  }

  lemma {:induction false} ReachesUp(w: Spent, a: Hash, x: Hash)
    requires Reaches(w, a, x)
    ensures a <= x
  {
  }

  /** The last link of a chain of spends. */
  lemma {:induction false} LastLink(w: Spent, a: Hash, x: Hash) returns (op: OutPoint)
    requires Reaches(w, a, x) && a != x
    ensures op in w && w[op] == x && a <= op.hash < x && Reaches(w, a, op.hash)
    decreases x - a
  {
    var first :| first in w && first.hash == a && a < w[first] <= x && Reaches(w, w[first], x);
    if w[first] == x {
      op := first;
    } else {
      op := LastLink(w, w[first], x);
    }
  }

  /** A chain followed by one more spend. */
  lemma {:induction false} Longer(w: Spent, a: Hash, op: OutPoint)
    requires op in w && a <= op.hash < w[op] && Reaches(w, a, op.hash)
    ensures Reaches(w, a, w[op])
    decreases op.hash - a
  {
    if a == op.hash {
      assert Reaches(w, w[op], w[op]);
    } else {
      var first :| first in w && first.hash == a && a < w[first] <= op.hash && Reaches(w, w[first], op.hash);
      Longer(w, w[first], op);
    }
  }

  lemma {:induction false} ReachedBefore(w: Spent, v: Spent, a: Hash, x: Hash)
    requires Reaches(v, a, x) && forall op :: op in v ==> op in w && w[op] == v[op]
    ensures Reaches(w, a, x)
    decreases x - a
  {
    if a < x {
      var first :| first in v && first.hash == a && a < v[first] <= x && Reaches(v, v[first], x);
      ReachedBefore(w, v, v[first], x);
      assert first in w && w[first] == v[first];
    }
  }

  /** Everything below h is the spender of a visited credit. */
  lemma SpentVisited(txs: Pool, su: Spent, h: Hash, n: nat, x: Hash) returns (p: OutPoint)
    requires Rising(su) && Through(Links(txs, su), h, n, x)
    ensures VisitedUpTo(txs, su, h, n, p) && p in su && su[p] == x
  {
    var w := Links(txs, su);
    var i: nat :| i < n && OutPoint(h, i) in w && Reaches(w, w[OutPoint(h, i)], x);
    p := OutPoint(h, i);
    if x != w[p] {
      p := LastLink(w, w[p], x);
      assert Through(w, h, n, p.hash);
    }
  }

  /** The spender of a visited credit is below h. */
  lemma VisitedSpent(txs: Pool, su: Spent, h: Hash, n: nat, p: OutPoint)
    requires Rising(su) && VisitedUpTo(txs, su, h, n, p) && p in su
    ensures Through(Links(txs, su), h, n, su[p])
  {
    var w := Links(txs, su);
    if p.hash == h && p.index < n {
      assert p == OutPoint(h, p.index) && Reaches(w, w[p], w[p]);
    } else {
      var i: nat :| i < n && OutPoint(h, i) in w && Reaches(w, w[OutPoint(h, i)], p.hash);
      ReachesUp(w, w[OutPoint(h, i)], p.hash);
      Longer(w, w[OutPoint(h, i)], p);
    }
  }

  lemma BelowAbove(txs: Pool, su: Spent, h: Hash, n: nat, x: Hash)
    requires Rising(su) && Through(Links(txs, su), h, n, x)
    ensures h < x
  {
    var w := Links(txs, su);
    var i: nat :| i < n && OutPoint(h, i) in w && Reaches(w, w[OutPoint(h, i)], x);
    ReachesUp(w, w[OutPoint(h, i)], x);
  }

  lemma ThroughNext(w: Spent, h: Hash, n: nat)
    ensures forall x :: Through(w, h, n + 1, x) <==>
              Through(w, h, n, x) || (OutPoint(h, n) in w && Reaches(w, w[OutPoint(h, n)], x))
  {
    forall x ensures Through(w, h, n + 1, x) <==>
              Through(w, h, n, x) || (OutPoint(h, n) in w && Reaches(w, w[OutPoint(h, n)], x)) {
      if Through(w, h, n + 1, x) {
        var i: nat :| i < n + 1 && OutPoint(h, i) in w && Reaches(w, w[OutPoint(h, i)], x);
        assert i < n ==> Through(w, h, n, x);
      }
    }
  }

  // ------------------------------------------------- after a partial removal

  /** gone is what descends from h through its first n outputs. */
  ghost predicate Gone(txs: Pool, su: Spent, h: Hash, n: nat, gone: set<Hash>) {
    forall x :: x in gone <==> x in txs && Through(Links(txs, su), h, n, x)
  }

  lemma LinksAfter(txs: Pool, su: Spent, h: Hash, n: nat, gone: set<Hash>)
    requires SpendersLive(txs, su) && Gone(txs, su, h, n, gone)
    ensures Links(txs - gone, Without(su, gone)) == Without(Links(txs, su), gone)
  {
    hide Gone, Links, Reaches, Through, Marked;
    LiveLinks(txs, su);
    var w, v := Links(txs, su), Links(txs - gone, Without(su, gone));
    forall op | op in w && op.hash in gone ensures w[op] in gone { GoneSpends(txs, su, h, n, gone, op); }
    forall op ensures op in v <==> op in w && w[op] !in gone {
      assert Marked(txs - gone, op) <==> Marked(txs, op) && op.hash !in gone by { MarkedAfter(txs, gone, op); }
    }
  }

  lemma MarkedAfter(txs: Pool, gone: set<Hash>, op: OutPoint)
    ensures Marked(txs - gone, op) <==> Marked(txs, op) && op.hash !in gone
  {
  }

  lemma GoneSpends(txs: Pool, su: Spent, h: Hash, n: nat, gone: set<Hash>, op: OutPoint)
    requires SpendersLive(txs, su) && Gone(txs, su, h, n, gone) && op in Links(txs, su) && op.hash in gone
    ensures su[op] in gone
  {
    LiveLinks(txs, su);
    VisitedSpent(txs, su, h, n, op);
  }

  /** What is below output n of h is not below an earlier one. */
  lemma {:induction false} Disjoint(txs: Pool, su: Spent, h: Hash, n: nat, x: Hash)
    requires Rising(su) && TreelikeUpTo(txs, su, h, n + 1)
    requires OutPoint(h, n) in Links(txs, su) && Reaches(Links(txs, su), su[OutPoint(h, n)], x)
    ensures !Through(Links(txs, su), h, n, x)
    decreases x
  {
    var w, op := Links(txs, su), OutPoint(h, n);
    ThroughNext(w, h, n);
    if Through(w, h, n, x) {
      var p := SpentVisited(txs, su, h, n, x);
      assert VisitedUpTo(txs, su, h, n + 1, p) && VisitedUpTo(txs, su, h, n + 1, op);
      if x != su[op] {
        var q := LastLink(w, su[op], x);
        assert VisitedUpTo(txs, su, h, n + 1, q);
        Disjoint(txs, su, h, n, q.hash);
        assert false;
      } else if p.hash != h {
        BelowAbove(txs, su, h, n, p.hash);
        assert false;
      }
    }
  }

  /** Chains below output n of h survive the removal of what is below the
      earlier outputs. */
  lemma {:induction false} StillReached(txs: Pool, su: Spent, gone: set<Hash>, s: Hash, x: Hash)
    requires Rising(su) && Reaches(Links(txs, su), s, x) && s !in gone
    requires forall op :: Visited(txs - gone, Without(su, gone), s, op) ==> op in Without(su, gone)
    requires Links(txs - gone, Without(su, gone)) == Without(Links(txs, su), gone)
    ensures Reaches(Without(Links(txs, su), gone), s, x) && x !in gone
    decreases x
  {
    var w := Links(txs, su);
    if x != s {
      var q := LastLink(w, s, x);
      StillReached(txs, su, gone, s, q.hash);
      assert Visited(txs - gone, Without(su, gone), s, q);
      Longer(Without(w, gone), s, q);
    }
  }

  /** Chains that avoid what is gone survive its removal. */
  lemma {:induction false} StillReaches(w: Spent, gone: set<Hash>, a: Hash, x: Hash)
    requires Reaches(w, a, x) && forall y :: Reaches(w, a, y) ==> y !in gone
    ensures Reaches(Without(w, gone), a, x)
    decreases x - a
  {
    if a < x {
      var first :| first in w && first.hash == a && a < w[first] <= x && Reaches(w, w[first], x);
      assert Reaches(w, w[first], w[first]);
      forall y | Reaches(w, w[first], y) ensures y !in gone { assert Reaches(w, a, y); }
      StillReaches(w, gone, w[first], x);
      assert first in Without(w, gone);
    }
  }

  /** One marked output more, from the whole down. */
  lemma NextNeeds(txs: Pool, su: Spent, h: Hash, n: nat, gone: set<Hash>)
    requires SpendersLive(txs, su) && Gone(txs, su, h, n, gone) && TreelikeUpTo(txs, su, h, n + 1)
    requires Marked(txs, OutPoint(h, n))
    ensures OutPoint(h, n) in su && su[OutPoint(h, n)] !in gone
    ensures Treelike(txs - gone, Without(su, gone), su[OutPoint(h, n)])
    ensures forall x :: Reaches(Links(txs - gone, Without(su, gone)), su[OutPoint(h, n)], x) <==>
              Reaches(Links(txs, su), su[OutPoint(h, n)], x)
  {
    LiveLinks(txs, su);
    LinksAfter(txs, su, h, n, gone);
    var w, op := Links(txs, su), OutPoint(h, n);
    assert VisitedUpTo(txs, su, h, n + 1, op);
    var s, txs', su' := su[op], txs - gone, Without(su, gone);
    ThroughNext(w, h, n);
    forall x | Reaches(w, s, x) ensures x !in gone && Reaches(Without(w, gone), s, x) {
      forall y | Reaches(w, s, y) ensures y !in gone { Disjoint(txs, su, h, n, y); }
      StillReaches(w, gone, s, x);
    }
    forall x | Reaches(Without(w, gone), s, x) ensures Reaches(w, s, x) { ReachedBefore(w, Without(w, gone), s, x); }
    assert Reaches(w, s, s);
    forall o | Visited(txs', su', s, o) ensures VisitedUpTo(txs, su, h, n + 1, o) && o in su' {
      assert Reaches(w, s, o.hash) && o in su;
      ReachesUp(w, s, o.hash);
      Longer(w, s, o);
    }
  }

  /** What is visited with one output more, and where its spender is. */
  lemma NextVisited(txs: Pool, su: Spent, h: Hash, n: nat, gone: set<Hash>, o: OutPoint)
    requires SpendersLive(txs, su) && Gone(txs, su, h, n, gone) && TreelikeUpTo(txs, su, h, n)
    requires OutPoint(h, n) in Links(txs, su) && su[OutPoint(h, n)] !in gone
    requires Treelike(txs - gone, Without(su, gone), su[OutPoint(h, n)])
    requires VisitedUpTo(txs, su, h, n + 1, o)
    ensures o in su
    ensures su[o] in gone ==> VisitedUpTo(txs, su, h, n, o)
    ensures su[o] !in gone && o != OutPoint(h, n) ==>
      Visited(txs - gone, Without(su, gone), su[OutPoint(h, n)], o) && su[OutPoint(h, n)] < su[o]
  {
    hide Reaches, TreelikeUpTo, Gone, SpendersLive, Treelike, Marked, Through, Links;
    LiveLinks(txs, su);
    ThroughNext(Links(txs, su), h, n);
    assert o == OutPoint(o.hash, o.index);
    if VisitedUpTo(txs, su, h, n, o) {
      VisitedKnown(txs, su, h, n, o);
      VisitedSpent(txs, su, h, n, o);
      ThroughGone(txs, su, h, n, gone, o);
    } else if o != OutPoint(h, n) {
      VisitedBelow(txs, su, h, n, gone, o);
    }
  }

  lemma VisitedKnown(txs: Pool, su: Spent, h: Hash, n: nat, o: OutPoint)
    requires TreelikeUpTo(txs, su, h, n) && VisitedUpTo(txs, su, h, n, o)
    ensures o in su
  {
  }

  lemma ThroughGone(txs: Pool, su: Spent, h: Hash, n: nat, gone: set<Hash>, o: OutPoint)
    requires SpendersLive(txs, su) && Gone(txs, su, h, n, gone) && o in su && Through(Links(txs, su), h, n, su[o])
    ensures su[o] in gone
  {
  }

  /** A marked credit below output n of h is still visited from its spender. */
  lemma VisitedBelow(txs: Pool, su: Spent, h: Hash, n: nat, gone: set<Hash>, o: OutPoint)
    requires SpendersLive(txs, su) && Gone(txs, su, h, n, gone) && OutPoint(h, n) in su && su[OutPoint(h, n)] !in gone
    requires Treelike(txs - gone, Without(su, gone), su[OutPoint(h, n)])
    requires Marked(txs, o) && Reaches(Links(txs, su), su[OutPoint(h, n)], o.hash)
    ensures o in su && su[o] !in gone && Visited(txs - gone, Without(su, gone), su[OutPoint(h, n)], o)
    ensures su[OutPoint(h, n)] < su[o]
  {
    hide Reaches, Gone, Marked, Through, Links, SpendersLive;
    var s := su[OutPoint(h, n)];
    LiveLinks(txs, su);
    LinksAfter(txs, su, h, n, gone);
    StillReached(txs, su, gone, s, o.hash);
    MarkedAfter(txs, gone, o);
    ReachesUp(Links(txs, su), s, o.hash);
    assert Visited(txs - gone, Without(su, gone), s, o);
  }

  lemma NextSuffices(txs: Pool, su: Spent, h: Hash, n: nat, gone: set<Hash>)
    requires SpendersLive(txs, su) && Gone(txs, su, h, n, gone) && TreelikeUpTo(txs, su, h, n)
    requires OutPoint(h, n) in Links(txs, su) && su[OutPoint(h, n)] !in gone
    requires Treelike(txs - gone, Without(su, gone), su[OutPoint(h, n)])
    ensures TreelikeUpTo(txs, su, h, n + 1)
  {
    hide SpendersLive, Gone, VisitedUpTo, Visited, Links;
    forall o | VisitedUpTo(txs, su, h, n + 1, o) ensures o in su { NextVisited(txs, su, h, n, gone, o); }
    forall p, q | VisitedUpTo(txs, su, h, n + 1, p) && VisitedUpTo(txs, su, h, n + 1, q) && p in su && q in su && su[p]
        == su[q]
      ensures p == q
    {
      NextVisited(txs, su, h, n, gone, p);
      NextVisited(txs, su, h, n, gone, q);
    }
  }

  // ------------------------------------------------------- the whole cascade

  lemma SpendersNext(l: Ledger, r: TxRecord, n: nat, bound: nat)
    requires r.tx.hash < bound && n < |r.credits| && Below(l.txs, bound) && Sound(l)
    ensures var op := OutPoint(r.tx.hash, n); var marked := HasCredit(r, n) && r.credits[n].value.spentBy.Some?;
            match RemoveSpenders(l, r, n, bound)
            case Err(e) => RemoveSpenders(l, r, n + 1, bound) == Err(e)
            case Ok(l') =>
              && (!marked ==> RemoveSpenders(l, r, n + 1, bound) == Ok(l'))
              && (marked && op !in l'.spentUnconf ==> RemoveSpenders(l, r, n + 1, bound) == Err(InconsistentStore))
              && (marked && op in l'.spentUnconf ==>
                    RemoveSpenders(l, r, n + 1, bound) == RemoveConflict(l', l'.spentUnconf[op], bound))
  {
    hide RemoveConflict;
  }

  lemma NoneUnder(l: Ledger, h: Hash, bound: nat)
    requires h in l.txs && l.txs[h].tx.hash < bound && Below(l.txs, bound) && Sound(l)
    ensures RemoveSpenders(l, l.txs[h], 0, bound) == Ok(RemoveSet(l, Under(l, h, 0)))
    ensures TreelikeUpTo(l.txs, l.spentUnconf, h, 0)
  {
    assert Under(l, h, 0) == {};
    RemoveNone(l);
  }

  lemma Known(l: Ledger, h: Hash, bound: nat)
    requires PoolLinked(l) && h in l.txs && Below(l.txs, bound)
    ensures Sound(l) && h < bound && l.txs[h].tx.hash == h
  {
  }

  lemma UnmarkedNext(txs: Pool, su: Spent, h: Hash, n: nat)
    requires !Marked(txs, OutPoint(h, n))
    ensures TreelikeUpTo(txs, su, h, n + 1) <==> TreelikeUpTo(txs, su, h, n)
    ensures forall x :: Through(Links(txs, su), h, n + 1, x) <==> Through(Links(txs, su), h, n, x)
  {
    ThroughNext(Links(txs, su), h, n);
    forall op ensures VisitedUpTo(txs, su, h, n + 1, op) <==> VisitedUpTo(txs, su, h, n, op) {
      assert op.hash == h && op.index == n ==> op == OutPoint(h, n);
    }
  }

  lemma TreelikeShrinks(txs: Pool, su: Spent, h: Hash, n: nat)
    requires TreelikeUpTo(txs, su, h, n + 1)
    ensures TreelikeUpTo(txs, su, h, n)
  {
    ThroughNext(Links(txs, su), h, n);
    assert forall op :: VisitedUpTo(txs, su, h, n, op) ==> VisitedUpTo(txs, su, h, n + 1, op);
  }

  /** Output n of h, marked spent, once its earlier outputs are dealt with. */
  lemma {:induction false} MarkedNext(l: Ledger, h: Hash, n: nat, bound: nat)
    requires PoolLinked(l) && h in l.txs && Below(l.txs, bound) && h < bound && Sound(l)
    requires TreelikeUpTo(l.txs, l.spentUnconf, h, n)
    requires Marked(l.txs, OutPoint(h, n)) && OutPoint(h, n) in RemoveSet(l, Under(l, h, n)).spentUnconf
    ensures var l' := RemoveSet(l, Under(l, h, n)); var s := l'.spentUnconf[OutPoint(h, n)];
            && h < s && s in l'.txs && l'.txs[s].tx.hash == s && Below(l'.txs, bound) && Sound(l')
            && (RemoveConflict(l', s, bound).Ok? <==> TreelikeUpTo(l.txs, l.spentUnconf, h, n + 1))
            && (RemoveConflict(l', s, bound).Ok? ==>
                  RemoveConflict(l', s, bound).value == RemoveSet(l, Under(l, h, n + 1)))
    decreases bound - h, 0
  {
    hide Treelike, TreelikeUpTo, RemoveConflict, PoolLinked, SpendersLive, Below, RemoveSet, Reaches, Through, Links;
    hide Descendants, Under, Marked;
    var gone := Under(l, h, n);
    var l' := RemoveSet(l, gone);
    RemovedParts(l, h, n, bound);
    var txs, su, s := l.txs, l.spentUnconf, l'.spentUnconf[OutPoint(h, n)];
    ConflictGone(l', s, bound);
    if Treelike(l'.txs, l'.spentUnconf, s) { NextSuffices(txs, su, h, n, gone); }
    if TreelikeUpTo(txs, su, h, n + 1) {
      NextNeeds(txs, su, h, n, gone);
      RemoveTwice(l, gone, Descendants(l', s));
      NextGone(l, h, n);
    }
  }

  lemma RemovedParts(l: Ledger, h: Hash, n: nat, bound: nat)
    requires PoolLinked(l) && Below(l.txs, bound) && Marked(l.txs, OutPoint(h, n))
    requires OutPoint(h, n) in RemoveSet(l, Under(l, h, n)).spentUnconf
    ensures var l', gone := RemoveSet(l, Under(l, h, n)), Under(l, h, n); var s := l'.spentUnconf[OutPoint(h, n)];
            && l'.txs == l.txs - gone && l'.spentUnconf == Without(l.spentUnconf, gone)
            && OutPoint(h, n) in l.spentUnconf && s == l.spentUnconf[OutPoint(h, n)] && s !in gone
            && OutPoint(h, n) in Links(l.txs, l.spentUnconf) && Gone(l.txs, l.spentUnconf, h, n, gone)
            && SpendersLive(l.txs, l.spentUnconf)
            && PoolLinked(l') && h < s && s in l'.txs && l'.txs[s].tx.hash == s && Below(l'.txs, bound) && Sound(l')
  {
    hide PoolOk, SpentOutsOk, SpentKeysOk, SpendersOk, PrevOutsOk, Reaches, Through, Relink, OutsOf, Marked;
    RemoveSetKeepsPool(l, Under(l, h, n));
    LiveLinks(l.txs, l.spentUnconf);
  }

  lemma NextGone(l: Ledger, h: Hash, n: nat)
    requires SpendersLive(l.txs, l.spentUnconf) && TreelikeUpTo(l.txs, l.spentUnconf, h, n + 1)
    requires Marked(l.txs, OutPoint(h, n))
    ensures OutPoint(h, n) in l.spentUnconf
    ensures Under(l, h, n) + Descendants(RemoveSet(l, Under(l, h, n)), l.spentUnconf[OutPoint(h, n)])
              == Under(l, h, n + 1)
  {
    hide SpendersLive, Treelike, TreelikeUpTo, Reaches, Through, Links, Relink, OutsOf, Marked;
    var gone := Under(l, h, n);
    NextNeeds(l.txs, l.spentUnconf, h, n, gone);
    ThroughNext(Links(l.txs, l.spentUnconf), h, n);
    NextSets(l, RemoveSet(l, gone), h, n, l.spentUnconf[OutPoint(h, n)]);
  }

  lemma NextSets(l: Ledger, l': Ledger, h: Hash, n: nat, s: Hash)
    requires l'.txs == l.txs - Under(l, h, n)
    requires forall x :: Reaches(Links(l'.txs, l'.spentUnconf), s, x) <==> Reaches(Links(l.txs, l.spentUnconf), s, x)
    requires forall x :: Through(Links(l.txs, l.spentUnconf), h, n + 1, x) <==>
               Through(Links(l.txs, l.spentUnconf), h, n, x) || Reaches(Links(l.txs, l.spentUnconf), s, x)
    ensures Under(l, h, n) + Descendants(l', s) == Under(l, h, n + 1)
  {
    hide Reaches, Through, Links;
  }

  lemma {:induction false} SpendersGone(l: Ledger, h: Hash, n: nat, bound: nat)
    requires PoolLinked(l) && h in l.txs && n <= |l.txs[h].credits| && Below(l.txs, bound)
    ensures Sound(l) && h < bound && l.txs[h].tx.hash == h
    ensures RemoveSpenders(l, l.txs[h], n, bound).Ok? <==> TreelikeUpTo(l.txs, l.spentUnconf, h, n)
    ensures TreelikeUpTo(l.txs, l.spentUnconf, h, n) ==>
              RemoveSpenders(l, l.txs[h], n, bound) == Ok(RemoveSet(l, Under(l, h, n)))
    decreases bound - h, n
  {
    hide PoolLinked, Sound, Below, RemoveSet, TreelikeUpTo, RemoveSpenders, RemoveConflict, Through, Links;
    Known(l, h, bound);
    if n == 0 {
      NoneUnder(l, h, bound);
    } else {
      SpendersGone(l, h, n - 1, bound);
      SpendersNext(l, l.txs[h], n - 1, bound);
      var op := OutPoint(h, n - 1);
      if !Marked(l.txs, op) {
        UnmarkedNext(l.txs, l.spentUnconf, h, n - 1);
        assert Under(l, h, n) == Under(l, h, n - 1);
      } else if !TreelikeUpTo(l.txs, l.spentUnconf, h, n - 1) {
        if TreelikeUpTo(l.txs, l.spentUnconf, h, n) { TreelikeShrinks(l.txs, l.spentUnconf, h, n - 1); }
      } else if op in RemoveSet(l, Under(l, h, n - 1)).spentUnconf {
        MarkedNext(l, h, n - 1, bound);
      } else if TreelikeUpTo(l.txs, l.spentUnconf, h, n) {
        SpenderStays(l, h, n - 1);
      }
    }
  }

  lemma SpenderStays(l: Ledger, h: Hash, n: nat)
    requires Sound(l) && TreelikeUpTo(l.txs, l.spentUnconf, h, n + 1) && Marked(l.txs, OutPoint(h, n))
    ensures OutPoint(h, n) in RemoveSet(l, Under(l, h, n)).spentUnconf
  {
    NextNeeds(l.txs, l.spentUnconf, h, n, Under(l, h, n));
    hide Treelike, TreelikeUpTo, Reaches, Through, Links;
  }

  lemma AllOutputs(l: Ledger, h: Hash)
    requires SpendersLive(l.txs, l.spentUnconf) && h in l.txs
    ensures var n := |l.txs[h].credits|;
            && (TreelikeUpTo(l.txs, l.spentUnconf, h, n) <==> Treelike(l.txs, l.spentUnconf, h))
            && Descendants(l, h) == Under(l, h, n) + {h} && h !in Under(l, h, n)
  {
    var txs, su, n := l.txs, l.spentUnconf, |l.txs[h].credits|;
    AllReached(txs, su, h);
    hide Reaches, Through, Links, SpendersLive;
    forall op ensures VisitedUpTo(txs, su, h, n, op) <==> Visited(txs, su, h, op) {}
  }

  lemma AllReached(txs: Pool, su: Spent, h: Hash)
    requires SpendersLive(txs, su) && h in txs
    ensures var w := Links(txs, su);
            forall x :: (Reaches(w, h, x) <==>
                  x == h || Through(w, h, |txs[h].credits|, x)) && (Through(w, h, |txs[h].credits|, x) ==> h < x)
  {
    var w, n := Links(txs, su), |txs[h].credits|;
    LiveLinks(txs, su);
    forall x ensures (Reaches(w, h, x) <==> x == h || Through(w, h, n, x)) && (Through(w, h, n, x) ==> h < x) {
      if Reaches(w, h, x) && x != h {
        ReachesUp(w, h, x);
        var op :| op in w && op.hash == h && h < w[op] <= x && Reaches(w, w[op], x);
        assert op == OutPoint(h, op.index) && HasCredit(txs[h], op.index);
      }
      if Through(w, h, n, x) {
        BelowAbove(txs, su, h, n, x);
        var i: nat :| i < n && OutPoint(h, i) in w && Reaches(w, w[OutPoint(h, i)], x);
        ReachesUp(w, w[OutPoint(h, i)], x);
      }
    }
  }

  /** Removing h succeeds exactly when the marked credits of h and its
      descendants all have a recorded spender and no transaction spends two of
      them, and then it takes out exactly h and its descendants. */
  lemma {:induction false} ConflictGone(l: Ledger, h: Hash, bound: nat)
    requires PoolLinked(l) && h in l.txs && Below(l.txs, bound)
    ensures Sound(l) && l.txs[h].tx.hash == h
    ensures RemoveConflict(l, h, bound).Ok? <==> Treelike(l.txs, l.spentUnconf, h)
    ensures Treelike(l.txs, l.spentUnconf, h) ==> RemoveConflict(l, h, bound) == Ok(RemoveSet(l, Descendants(l, h)))
    decreases bound - h, |l.txs[h].credits| + 1
  {
    var n := |l.txs[h].credits|;
    Known(l, h, bound);
    SpendersGone(l, h, n, bound);
    AllOutputs(l, h);
    var l' := RemoveSet(l, Under(l, h, n));
    hide Treelike, TreelikeUpTo, Through, Links, Reaches, PoolOk, SpentOutsOk, SpentKeysOk, SpendersOk, PrevOutsOk;
    RemoveSetKeepsPool(l, Under(l, h, n));
    RemoveOneIs(l', h);
    RemoveTwice(l, Under(l, h, n), {h});
  }
}
