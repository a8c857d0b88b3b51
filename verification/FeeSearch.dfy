/** Searching for a fee that the finished transaction satisfies. */
module FeeSearch {
  import opened TxTypes
  import opened CoinSelection

  const MAX_SATOSHI := 2_100_000_000_000_000
  const SATOSHI_PER_BITCENT := 1_000_000
  const TWO_63 := 0x8000_0000_0000_0000
  const TWO_64 := 0x1_0000_0000_0000_0000

  /** An output pays value to a script. */
  datatype TxOut = TxOut(value: int, script: nat)

  function Wrap64(x: int): (r: int)
    ensures -TWO_63 <= r < TWO_63
    ensures -TWO_63 <= x < TWO_63 ==> r == x
  {
    (x + TWO_63) % TWO_64 - TWO_63
  }

  predicate SmallOutput(outs: seq<TxOut>) {
    exists i :: 0 <= i < |outs| && outs[i].value < SATOSHI_PER_BITCENT
  }

  /** The least fee for a transaction of txLen bytes with these outputs. */
  method MinimumFee(incr: int, txLen: nat, outs: seq<TxOut>, allowFree: bool) returns (fee: int)
    ensures fee == LeastFee(incr, txLen, outs, allowFree)
  {
    fee := Wrap64((1 + txLen / 1000) * incr);
    if allowFree && txLen < 1000 { fee := 0; }
    if fee < incr {
      var i := 0;
      while i < |outs|
        invariant 0 <= i <= |outs| && forall j :: 0 <= j < i ==> SATOSHI_PER_BITCENT <= outs[j].value
      {
        if outs[i].value < SATOSHI_PER_BITCENT { return incr; }
        i := i + 1;
      }
    }
    if fee < 0 || MAX_SATOSHI < fee { fee := MAX_SATOSHI; }
  }

  function LeastFee(incr: int, txLen: nat, outs: seq<TxOut>, allowFree: bool): int {
    var fee := if allowFree && txLen < 1000 then 0 else Wrap64((1 + txLen / 1000) * incr);
    if fee < incr && SmallOutput(outs) then incr
    else if fee < 0 || MAX_SATOSHI < fee then MAX_SATOSHI
    else fee
  }

  /** The increment lies within the money supply of 21 million coins and the
      product of size and increment fits 64 bits. */
  predicate Sane(incr: int, txLen: nat) {
    0 <= incr <= 2_100_000_000_000_000 && (1 + txLen / 1000) * incr < 0x8000_0000_0000_0000
  }

  /** For a sane increment: from 1000 bytes on, the least fee is one increment
      for each thousand bytes begun, but never above the money supply, and no
      transaction goes free.  A smaller one goes free just when it is allowed to
      and pays no output less than a hundredth of a coin; otherwise it takes
      one increment. */
  lemma LeastFeeIs(incr: int, txLen: nat, outs: seq<TxOut>, allowFree: bool)
    requires Sane(incr, txLen)
    ensures LeastFee(incr, txLen, outs, allowFree) ==
            if 1000 <= txLen then
              if (1 + txLen / 1000) * incr <= 2_100_000_000_000_000 then (1 + txLen / 1000) * incr
              else 2_100_000_000_000_000
            else if allowFree && (forall i :: 0 <= i < |outs| ==> 1_000_000 <= outs[i].value) then 0
            else incr
  {
    var k := 1 + txLen / 1000;
    assert 1 <= k;
    NotSmaller(k, incr);
    if txLen < 1000 { assert k == 1; }
  }

  /** An increment within the money supply keeps the least fee within it, even
      when the product wraps around: a product that comes out negative asks for
      the whole supply, unless an output is tiny. */
  lemma LeastFeeRange(incr: int, txLen: nat, outs: seq<TxOut>, allowFree: bool)
    requires 0 <= incr <= 2_100_000_000_000_000
    ensures 0 <= LeastFee(incr, txLen, outs, allowFree) <= 2_100_000_000_000_000
    ensures 1000 <= txLen && 0x8000_0000_0000_0000 <= (1 + txLen / 1000) * incr < 0x1_0000_0000_0000_0000 ==>
              LeastFee(incr, txLen, outs, allowFree) ==
              if exists i :: 0 <= i < |outs| && outs[i].value < 1_000_000 then incr else 2_100_000_000_000_000
  {
    var k := 1 + txLen / 1000;
    assert 1 <= k;
    NotSmaller(k, incr);
    if txLen < 1000 { assert k == 1; }
  }

  /** fee pays for a transaction of this size with these outputs. */
  ghost predicate Covers(fee: int, incr: int, txLen: nat, outs: seq<TxOut>, allowFree: bool) {
    Sane(incr, txLen) ==>
      && 0 <= fee
      && (1000 <= txLen ==> (1 + txLen / 1000) * incr <= fee || 2_100_000_000_000_000 <= fee)
      && (txLen < 1000 && (!allowFree || exists i :: 0 <= i < |outs| && outs[i].value < 1_000_000) ==> incr <= fee)
  }

  lemma LeastCovers(fee: int, incr: int, txLen: nat, outs: seq<TxOut>, allowFree: bool)
    requires LeastFee(incr, txLen, outs, allowFree) <= fee
    ensures Covers(fee, incr, txLen, outs, allowFree)
  {
    if Sane(incr, txLen) {
      LeastFeeIs(incr, txLen, outs, allowFree);
      hide LeastFee;
      NotSmaller(1 + txLen / 1000, incr);
    }
  }

  lemma NotSmaller(k: nat, incr: int)
    requires 1 <= k && 0 <= incr
    ensures incr <= k * incr
  {
  }

  function OutTotal(outs: seq<TxOut>): int {
    if outs == [] then 0 else OutTotal(outs[..|outs|-1]) + outs[|outs|-1].value
  }

  lemma {:induction false} UpdateTotal(outs: seq<TxOut>, i: nat, o: TxOut)
    requires i < |outs|
    ensures OutTotal(outs[i := o]) == OutTotal(outs) - outs[i].value + o.value
  {
    var n := |outs| - 1;
    if i < n {
      UpdateTotal(outs[..n], i, o);
      assert outs[i := o][..n] == outs[..n][i := o];
    } else {
      assert outs[i := o][..n] == outs[..n];
    }
  }

  /** Puts the last output at position r. */
  method SwapLast(outs: array<TxOut>, r: nat)
    requires r < outs.Length
    modifies outs
    ensures multiset(outs[..]) == multiset(old(outs[..])) && OutTotal(outs[..]) == OutTotal(old(outs[..]))
    ensures outs[r] == old(outs[outs.Length-1])
  {
    ghost var was, c := outs[..], outs.Length - 1;
    outs[r], outs[outs.Length-1] := outs[outs.Length-1], outs[r];
    assert outs[..] == was[r := was[c]][c := was[r]];
    UpdateTotal(was, r, was[c]);
    UpdateTotal(was[r := was[c]], c, was[r]);
  }

  /** The outputs of a try: the requested ones, plus the change at a random
      place if there is any. */
  method WithChange(requested: seq<TxOut>, change: int, script: nat) returns (outs: seq<TxOut>)
    ensures multiset(outs) == multiset(requested) + (if 0 < change then multiset{TxOut(change, script)} else multiset{})
    ensures OutTotal(outs) == OutTotal(requested) + if 0 < change then change else 0
  {
    if change <= 0 { return requested; }
    var n := |requested| + 1;
    var a := new TxOut[n](i requires 0 <= i < n => if i < |requested| then requested[i] else TxOut(change, script));
    assert a[..] == requested + [TxOut(change, script)];
    assert a[..][..|requested|] == requested;
    var r: nat :| r < n;
    SwapLast(a, r);
    outs := a[..];
  }

  datatype Created = Created(inputs: nat, outs: seq<TxOut>, fee: int, change: int, size: nat, free: bool)
    | Failed(error: SelectError)

  /** One try of the search: the fee it was made with, and what came of it. */
  datatype Try = Try(fee: int, outs: seq<TxOut>, size: nat, free: bool) {
    function Needs(incr: int): int { LeastFee(incr, size, outs, free) }
  }

  /** The first try is made without a fee, and each later one with just the fee
      that the one before turned out to need and did not have. */
  ghost predicate Climbs(tries: seq<Try>, incr: int) {
    && (tries != [] ==> tries[0].fee == 0)
    && forall i :: 0 <= i < |tries| - 1 ==> tries[i].fee < tries[i].Needs(incr) == tries[i+1].fee
  }

  lemma NoTries(incr: int)
    ensures Climbs([], incr)
  {
  }

  lemma NextTry(tries: seq<Try>, t: Try, incr: int)
    requires Climbs(tries, incr) && t.fee == if tries == [] then 0 else tries[|tries|-1].Needs(incr)
    requires tries != [] ==> tries[|tries|-1].fee < tries[|tries|-1].Needs(incr)
    ensures Climbs(tries + [t], incr)
  {
    hide LeastFee;
  }

  /** Raises the fee until the transaction it leads to needs no higher one.
      Sizes and free-of-fee answers are whatever each try brings.  The search
      ends, and what it finds spends exactly what its inputs bring. */
  method FindFee(eligible: seq<int>, requested: seq<TxOut>, amt: int, incr: int,
      changeScript: nat) returns (res: Created, ghost tries: seq<Try>)
    ensures res.Created? ==>
      && res.inputs <= |eligible| && 0 <= res.change && 0 <= res.fee
      && Total(eligible, res.inputs) == amt + res.change + res.fee
      && multiset(res.outs) == multiset(requested)
          + (if 0 < res.change then multiset{TxOut(res.change, changeScript)} else multiset{})
      && OutTotal(res.outs) == OutTotal(requested) + res.change
      && Covers(res.fee, incr, res.size, res.outs, res.free)
      && (Descending(eligible) && 0 < amt + res.fee ==> NoFewer(eligible, res.inputs, amt + res.fee))
    ensures Climbs(tries, incr)
    ensures res.Created? ==> tries != [] && tries[|tries|-1] == Try(res.fee, res.outs, res.size, res.free)
    ensures res.Created? ==> tries[|tries|-1].Needs(incr) <= res.fee
    ensures res.Failed? ==> res.error.amt == amt && 0 <= res.error.fee && res.error.available < amt + res.error.fee
    ensures res.Failed? ==> res.error.fee == if tries == [] then 0 else tries[|tries|-1].Needs(incr)
    ensures res.Failed? && tries != [] ==> tries[|tries|-1].fee < tries[|tries|-1].Needs(incr)
  {
    var fee := 0;
    tries := [];
    ghost var bound := Bound(eligible, |eligible|);
    hide LeastFee, Covers, NoFewer, Climbs;
    NoTries(incr);
    while true
      invariant 0 <= fee && bound == Bound(eligible, |eligible|)
      invariant Climbs(tries, incr) && fee == if tries == [] then 0 else tries[|tries|-1].Needs(incr)
      invariant tries != [] ==> tries[|tries|-1].fee < tries[|tries|-1].Needs(incr)
      decreases bound - amt - fee
    {
      var sel := SelectInputs(eligible, amt, fee);
      if sel.Refused? { return Failed(sel.error), tries; }
      TotalBound(eligible, sel.count, |eligible|);
      var change := sel.total - amt - fee;
      var outs := WithChange(requested, change, changeScript);
      var size: nat, free: bool := *, *;
      var minFee := MinimumFee(incr, size, outs, free);
      NextTry(tries, Try(fee, outs, size, free), incr);
      tries := tries + [Try(fee, outs, size, free)];
      if fee < minFee {
        fee := minFee;
      } else {
        if Descending(eligible) && 0 < amt + fee { ShortestIsFewest(eligible, sel.count, amt + fee); }
        LeastCovers(fee, incr, size, outs, free);
        return Created(sel.count, outs, fee, change, size, free), tries;
      }
    }
  }

  datatype PairsError = NonPositiveAmount | NotEnough(error: SelectError)

  datatype Payment = Paid(tx: Created) | Rejected(error: PairsError)

  /** Pays the amounts of the pairs: what goes in is what comes out plus the
      fee, and no amount may be zero or negative. */
  method TxToPairs(pairs: seq<TxOut>, eligible: seq<int>, incr: int, changeScript: nat) returns (res: Payment)
    ensures (exists i :: 0 <= i < |pairs| && pairs[i].value <= 0) <==> res == Rejected(NonPositiveAmount)
    ensures res.Paid? ==> res.tx.Created? && res.tx.inputs <= |eligible|
    ensures res.Paid? ==> Total(eligible, res.tx.inputs) == OutTotal(res.tx.outs) + res.tx.fee
    ensures res.Paid? ==> (forall o :: o in pairs ==> o in multiset(res.tx.outs))
    ensures res.Paid? ==> Covers(res.tx.fee, incr, res.tx.size, res.tx.outs, res.tx.free)
    ensures res.Paid? && Descending(eligible) && pairs != [] ==>
              NoFewer(eligible, res.tx.inputs, OutTotal(pairs) + res.tx.fee)
    ensures res.Rejected? && res.error.NotEnough? ==> res.error.error.available < OutTotal(pairs) + res.error.error.fee
  {
    var amt, i := 0, 0;
    while i < |pairs|
      invariant 0 <= i <= |pairs| && amt == OutTotal(pairs[..i]) && 0 <= amt && (0 < i ==> 0 < amt)
      invariant forall j :: 0 <= j < i ==> 0 < pairs[j].value
    {
      if pairs[i].value <= 0 { return Rejected(NonPositiveAmount); }
      assert pairs[..i+1][..i] == pairs[..i];
      amt, i := amt + pairs[i].value, i + 1;
    }
    assert pairs[..i] == pairs;
    var found;
    ghost var tries;
    found, tries := FindFee(eligible, pairs, amt, incr, changeScript);
    if found.Failed? { return Rejected(NotEnough(found.error)); }
    return Paid(found);
  }

  /** What the eligible outputs can be worth at most. */
  function Bound(amounts: seq<int>, n: nat): int
    requires n <= |amounts|
  {
    if n == 0 then 0 else Bound(amounts, n - 1) + if 0 < amounts[n-1] then amounts[n-1] else 0
  }

  lemma {:induction false} TotalBound(amounts: seq<int>, m: nat, n: nat)
    requires m <= n <= |amounts|
    ensures Total(amounts, m) <= Bound(amounts, n)
  {
    if m < n { TotalBound(amounts, m, n - 1); } else if 0 < m { TotalBound(amounts, m - 1, m - 1); }
  }
}
