/** Making room in an ordered list with an index by place: for a block whose
    height is not the largest, and for a transaction whose index within its
    block is not.  The insertion re-slices one backing array, so the tail it
    keeps for later shares its first slot with the new element. */
module Splice {
  import opened TxTypes
  import opened Blocks

  type Places = map<int, nat>

  /** The slot for a new element: after the last one at a lower place. */
  function Below<T>(xs: seq<T>, place: T -> int, h: int): (i: nat)
    ensures i <= |xs|
    ensures i < |xs| ==> h <= place(xs[|xs|-1])
    ensures forall j :: i <= j < |xs| ==> h <= place(xs[j])
    ensures 0 < i ==> place(xs[i-1]) < h
  {
    if xs != [] && h <= place(xs[|xs|-1]) then Below(xs[..|xs|-1], place, h) else |xs|
  }

  /** The list as the insertion leaves it: element i is overwritten. */
  function Inserted<T>(xs: seq<T>, place: T -> int, x: T): seq<T> {
    var i := Below(xs, place, place(x));
    if i < |xs| then xs[..i] + [x] + [x] + xs[i+1..] else xs + [x]
  }

  /** The index entries written for the tail, numbered from `first`. */
  function Renumbered<T>(ix: Places, tail: seq<T>, place: T -> int, first: nat): Places {
    if tail == [] then ix
    else Renumbered(ix, tail[..|tail|-1], place, first)[place(tail[|tail|-1]) := first + |tail| - 1]
  }

  function InsertedIndex<T>(xs: seq<T>, place: T -> int, ix: Places, x: T): Places {
    var i := Below(xs, place, place(x));
    if i < |xs| then Renumbered(ix[place(x) := i], [x] + xs[i+1..], place, i + 1) else ix[place(x) := |xs|]
  }

  method FindSlot<T>(a: array<T>, place: T -> int, n: nat, h: int) returns (i: nat)
    requires n <= a.Length
    ensures i == Below(a[..n], place, h)
  {
    i := n;
    while i != 0 && h <= place(a[i-1])
      invariant 0 <= i <= n && Below(a[..n], place, h) == Below(a[..i], place, h)
    {
      assert a[..i][..i-1] == a[..i-1];
      i := i - 1;
    }
  }

  /** Writes the index entries of the tail kept in slots i..n. */
  method Renumber<T>(a: array<T>, place: T -> int, i: nat, n: nat, ix: Places) returns (ix': Places)
    requires i <= n <= a.Length
    ensures ix' == Renumbered(ix, a[i..n], place, i + 1)
  {
    ghost var tail := a[i..n];
    ix' := ix;
    var j := 0;
    while j < n - i
      invariant 0 <= j <= n - i && ix' == Renumbered(ix, tail[..j], place, i + 1)
    {
      assert tail[..j+1][..j] == tail[..j] && tail[j] == a[i+j];
      ix' := ix'[place(a[i+j]) := i + 1 + j];
      j := j + 1;
    }
    assert tail[..j] == tail;
  }

  /** The insertion on the backing array a, of which the first n slots are in
      use.  The result lives in a if it has room, else in a new array. */
  method Insert<T>(a: array<T>, place: T -> int, n: nat, ix: Places, x: T) returns (a': array<T>, ix': Places)
    requires 0 < n <= a.Length && place(x) <= place(a[n-1])
    modifies a
    ensures n < a'.Length && a'[..n+1] == Inserted(old(a[..n]), place, x)
    ensures ix' == InsertedIndex(old(a[..n]), place, ix, x)
  {
    hide Renumbered;
    ghost var xs := a[..n];
    var i := FindSlot(a, place, n, place(x));
    assert i < n;
    hide Below;
    a[i] := x;
    ghost var now := a[..n];
    assert now == xs[i := x];
    UpdateSplits(xs, i, x);
    assert a[i..n] == now[i..] && a[..i+1] == now[..i+1];
    ix' := Renumber(a, place, i, n, ix[place(x) := i]);
    a' := MoveUp(a, i, n);
  }

  lemma UpdateSplits<T>(xs: seq<T>, i: nat, x: T)
    requires i < |xs|
    ensures xs[i := x][i..] == [x] + xs[i+1..] && xs[i := x][..i+1] == xs[..i] + [x]
    ensures xs[..i] + [x] + ([x] + xs[i+1..]) == xs[..i] + [x] + [x] + xs[i+1..]
  {
  }

  /** Slots i..n copied one up, in place if there is room. */
  method MoveUp<T>(a: array<T>, i: nat, n: nat) returns (a': array<T>)
    requires i < n <= a.Length
    modifies a
    ensures n < a'.Length && a'[..n+1] == old(a[..i+1]) + old(a[i..n])
  {
    ghost var was := a[..];
    if n < a.Length {
      a' := a;
      var j := n;
      while j > i
        invariant i <= j <= n
        invariant forall q :: 0 <= q <= j && q < n ==> a[q] == was[q]
        invariant forall q :: j < q <= n ==> a[q] == was[q-1]
      {
        a[j] := a[j-1];
        j := j - 1;
      }
    } else {
      a' := new T[n + 1](q requires 0 <= q <= n && n <= a.Length reads a => if q <= i then a[q] else a[q-1]);
    }
    ghost var now := a'[..n+1];
    assert forall q :: 0 <= q <= i ==> now[q] == was[q];
    assert forall q :: i < q <= n ==> now[q] == was[q-1];
    OneUp(was, now, i, n);
  }

  lemma OneUp<T>(was: seq<T>, now: seq<T>, i: nat, n: nat)
    requires i < n <= |was| && |now| == n + 1
    requires (forall q :: 0 <= q <= i ==> now[q] == was[q]) && forall q :: i < q <= n ==> now[q] == was[q-1]
    ensures now == was[..i+1] + was[i..n]
  {
  }

  // ------------------------------------------------------ what becomes of it

  /** The index finds each element by its place. */
  ghost predicate Placed<T>(xs: seq<T>, place: T -> int, ix: Places) {
    && (forall i :: 0 <= i < |xs| ==> place(xs[i]) in ix && ix[place(xs[i])] == i)
    && (forall h :: h in ix ==> ix[h] < |xs| && place(xs[ix[h]]) == h)
  }

  /** The element at place h is found as before. */
  ghost predicate Kept<T(!new)>(xs: seq<T>, ix: Places, xs': seq<T>, ix': Places, h: int) {
    h in ix && ix[h] < |xs| && h in ix' && ix'[h] < |xs'| && xs'[ix'[h]] == xs[ix[h]]
  }

  /** Place h is above the last element's. */
  predicate AtEnd<T>(xs: seq<T>, place: T -> int, h: int) {
    xs == [] || place(xs[|xs|-1]) < h
  }

  lemma NextLost<T(!new)>(xs: seq<T>, place: T -> int, ix: Places, x: T)
    requires Placed(xs, place, ix) && place(x) !in ix && Below(xs, place, place(x)) < |xs|
    ensures var lost := place(xs[Below(xs, place, place(x))]);
            lost in ix && !Kept(xs, ix, Inserted(xs, place, x), InsertedIndex(xs, place, ix, x), lost)
  {
    hide Below, Renumbered, Inserted, InsertedIndex;
    var h, i := place(x), Below(xs, place, place(x));
    var tail := [x] + xs[i+1..];
    InsertedAt(xs, place, ix, x);
    PlacesDiffer(xs, place, ix, x, i, tail);
    RenumberedSkips(ix[h := i], tail, place, i + 1, place(xs[i]));
  }

  lemma InsertedAt<T>(xs: seq<T>, place: T -> int, ix: Places, x: T)
    requires Below(xs, place, place(x)) < |xs|
    ensures var i := Below(xs, place, place(x));
            && i < |Inserted(xs, place, x)| && Inserted(xs, place, x)[i] == x
            && InsertedIndex(xs, place, ix, x) == Renumbered(ix[place(x) := i], [x] + xs[i+1..], place, i + 1)
  {
    hide Below, Renumbered;
  }

  lemma PlacesDiffer<T>(xs: seq<T>, place: T -> int, ix: Places, x: T, i: nat, tail: seq<T>)
    requires Placed(xs, place, ix) && place(x) !in ix && i < |xs| && tail == [x] + xs[i+1..]
    ensures place(xs[i]) in ix && ix[place(xs[i])] == i && place(xs[i]) != place(x)
    ensures forall j :: 0 <= j < |tail| ==> place(tail[j]) != place(xs[i])
  {
    assert forall j :: 0 < j < |tail| ==> tail[j] == xs[i+j];
  }

  lemma {:induction false} RenumberedSkips<T>(ix: Places, tail: seq<T>, place: T -> int, first: nat, h: int)
    requires h in ix && forall j :: 0 <= j < |tail| ==> place(tail[j]) != h
    ensures h in Renumbered(ix, tail, place, first) && Renumbered(ix, tail, place, first)[h] == ix[h]
  {
    if tail != [] { RenumberedSkips(ix, tail[..|tail|-1], place, first, h); }
  }

  lemma AtEndIs<T>(xs: seq<T>, place: T -> int, ix: Places, h: int)
    requires Placed(xs, place, ix) && h !in ix
    ensures AtEnd(xs, place, h) <==> Below(xs, place, h) == |xs|
  {
  }

  /** Inserting at a new place keeps every element findable exactly when the
      place is above the last one's: otherwise the next element is lost. */
  lemma InsertKeepsIff<T(!new)>(xs: seq<T>, place: T -> int, ix: Places, x: T)
    requires Placed(xs, place, ix) && place(x) !in ix
    ensures (forall h :: h in ix ==> Kept(xs, ix, Inserted(xs, place, x), InsertedIndex(xs, place, ix, x), h)) <==>
              AtEnd(xs, place, place(x))
  {
    AtEndIs(xs, place, ix, place(x));
    hide Below, Renumbered, AtEnd;
    if Below(xs, place, place(x)) < |xs| {
      NextLost(xs, place, ix, x);
    } else {
      assert forall h :: h in ix ==> (xs + [x])[ix[h]] == xs[ix[h]];
    }
  }

  // ---------------------------------------------------- blocks, and records

  function HeightOf(): BlockTxs -> int { (b: BlockTxs) => b.info.height }
  function IndexOf(): TxRecord -> int { (r: TxRecord) => r.index }

  /** A block of a new height keeps all others exactly when it is above them
      all. */
  lemma InsertBlockKeepsIff(bs: BlockList, ix: Heights, b: BlockTxs)
    requires Indexed(bs, ix) && b.info.height !in ix
    ensures (forall h :: h in ix ==> Kept(bs, ix, Inserted(bs, HeightOf(), b), InsertedIndex(bs, HeightOf(), ix, b),
        h)) <==> OnTop(bs, b.info.height)
  {
    hide BlockOk;
    InsertKeepsIff(bs, HeightOf(), ix, b);
    assert AtEnd(bs, HeightOf(), b.info.height) <==> OnTop(bs, b.info.height);
  }

  /** A transaction new to its block keeps all others exactly when its index is
      above the last one's. */
  lemma InsertRecordKeepsIff(b: BlockTxs, r: TxRecord)
    requires BlockOk(b) && r.index !in b.txIndexes
    ensures (forall x :: x in b.txIndexes ==>
               Kept(b.txs, b.txIndexes, Inserted(b.txs, IndexOf(), r), InsertedIndex(b.txs, IndexOf(), b.txIndexes, r),
                   x))
            <==> (b.txs == [] || b.txs[|b.txs|-1].index < r.index)
  {
    InsertKeepsIff(b.txs, IndexOf(), b.txIndexes, r);
  }
}
