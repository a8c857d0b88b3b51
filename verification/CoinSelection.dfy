/** Choosing previous outputs to fund a transaction. */
module CoinSelection {
  import opened TxTypes
  import opened Sums

  datatype SelectError = InsufficientFunds(available: int, amt: int, fee: int)

  datatype Selection = Selected(count: nat, total: int) | Refused(error: SelectError)

  /** Eligible outputs are given by their amounts, largest first. */
  predicate Descending(amounts: seq<int>) {
    forall i, j :: 0 <= i < j < |amounts| ==> amounts[j] <= amounts[i]
  }

  predicate NonNegativeAmounts(amounts: seq<int>) {
    forall i :: 0 <= i < |amounts| ==> 0 <= amounts[i]
  }

  function Total(amounts: seq<int>, n: nat): int
    requires n <= |amounts|
  {
    if n == 0 then 0 else Total(amounts, n - 1) + amounts[n-1]
  }

  /** Takes outputs from the front until they cover amt and fee. */
  method SelectInputs(eligible: seq<int>, amt: int, fee: int) returns (res: Selection)
    ensures res.Selected? ==> res.count <= |eligible| && res.total == Total(eligible, res.count)
    ensures res.Selected? ==> amt + fee <= res.total
    ensures res.Selected? ==> forall n :: 0 < n < res.count ==> Total(eligible, n) < amt + fee
    ensures res.Selected? && res.count == 0 ==> eligible == []
    ensures res.Refused? ==> res.error == InsufficientFunds(Total(eligible, |eligible|), amt, fee)
    ensures res.Refused? ==> forall n :: 0 <= n <= |eligible| && (eligible == [] || 0 < n) ==>
              Total(eligible, n) < amt + fee
  {
    var out, i := 0, 0;
    while i < |eligible|
      invariant 0 <= i <= |eligible| && out == Total(eligible, i)
      invariant forall n :: 0 < n <= i ==> Total(eligible, n) < amt + fee
    {
      out := out + eligible[i];
      i := i + 1;
      if amt + fee <= out { return Selected(i, out); }
    }
    if out < amt + fee { return Refused(InsufficientFunds(out, amt, fee)); }
    return Selected(i, out);
  }

  // ---------------------------------------------------------- nothing better

  function AmountAt(amounts: seq<int>): int -> int {
    (i: int) => if 0 <= i < |amounts| then amounts[i] else 0
  }

  /** A choice of eligible outputs, by position. */
  ghost predicate Choice(amounts: seq<int>, s: set<int>) {
    forall i :: i in s ==> 0 <= i < |amounts|
  }

  lemma {:induction false} Largest(s: set<int>) returns (m: int)
    requires |s| > 0
    ensures m in s && forall i :: i in s ==> i <= m
    decreases s
  {
    var x := SomeElement(s);
    var rest := s - {x};
    if |rest| == 0 {
      m := x;
    } else {
      var y := Largest(rest);
      m := if x < y then y else x;
    }
    forall i | i in s ensures i <= m { assert i == x || i in rest; }
  }

  lemma {:induction false} SizeBelow(s: set<int>, n: nat)
    requires forall i :: i in s ==> 0 <= i < n
    ensures |s| <= n
  {
    if n == 0 {
      if s != {} { var i := SomeElement(s); }
    } else {
      SizeBelow(s - {n - 1}, n - 1);
    }
  }

  /** No choice of k outputs is worth more than the first k. */
  lemma {:induction false} FirstAreBest(amounts: seq<int>, s: set<int>)
    requires Descending(amounts) && Choice(amounts, s)
    ensures |s| <= |amounts| && Sum(s, AmountAt(amounts)) <= Total(amounts, |s|)
    decreases s
  {
    SizeBelow(s, |amounts|);
    if s == {} {
      SumEmpty(AmountAt(amounts));
    } else {
      var m := Largest(s);
      SizeBelow(s, m + 1);
      FirstAreBest(amounts, s - {m});
      SumTake(s, AmountAt(amounts), m);
      assert amounts[m] <= amounts[|s|-1];
    }
  }

  lemma {:induction false} TotalGrows(amounts: seq<int>, m: nat, n: nat)
    requires NonNegativeAmounts(amounts) && m <= n <= |amounts|
    ensures Total(amounts, m) <= Total(amounts, n)
  {
    if m < n { TotalGrows(amounts, m, n - 1); }
  }

  /** No choice of fewer than count outputs is worth target. */
  ghost predicate NoFewer(eligible: seq<int>, count: nat, target: int) {
    forall s :: Choice(eligible, s) && |s| < count ==> Sum(s, AmountAt(eligible)) < target
  }

  /** On amounts sorted in descending order, the shortest prefix worth target
      is the fewest outputs worth it. */
  lemma ShortestIsFewest(eligible: seq<int>, count: nat, target: int)
    requires Descending(eligible) && 0 < target
    requires forall n :: 0 < n < count && n <= |eligible| ==> Total(eligible, n) < target
    ensures NoFewer(eligible, count, target)
  {
    forall s | Choice(eligible, s) && |s| < count ensures Sum(s, AmountAt(eligible)) < target {
      FirstAreBest(eligible, s);
      if s != {} { assert 0 < |s|; }
    }
  }

  /** On amounts sorted in descending order selection fails exactly when all
      outputs together are too small, and otherwise no choice of fewer outputs
      covers amt and fee. */
  method SelectFewest(eligible: seq<int>, amt: int, fee: int) returns (res: Selection)
    requires Descending(eligible) && NonNegativeAmounts(eligible) && 0 < amt + fee
    ensures res.Refused? <==> Total(eligible, |eligible|) < amt + fee
    ensures res.Selected? ==> NoFewer(eligible, res.count, amt + fee)
  {
    res := SelectInputs(eligible, amt, fee);
    if res.Selected? {
      TotalGrows(eligible, res.count, |eligible|);
      ShortestIsFewest(eligible, res.count, amt + fee);
    }
  }
}
