/** The window of recently seen blocks kept with a key store. */
module RecentWindow {
  import opened TxTypes

  datatype BlockStamp = BlockStamp(height: int, hash: Hash)

  const WINDOW := 20

  /** Blocks of consecutive heights. */
  predicate Consecutive(run: seq<BlockStamp>) {
    forall i :: 0 < i < |run| ==> run[i].height == run[i-1].height + 1
  }

  lemma {:induction false} HeightAt(run: seq<BlockStamp>, i: nat)
    requires Consecutive(run) && i < |run|
    ensures run[i].height == run[|run|-1].height - (|run| - 1 - i)
    decreases |run| - i
  {
    if i < |run| - 1 { HeightAt(run, i + 1); }
  }

  /** The last blocks of a run, at most WINDOW of them. */
  function Newest(run: seq<BlockStamp>): seq<BlockStamp> {
    if |run| <= WINDOW then run else run[|run|-WINDOW..]
  }

  /** The stamps that hashes stand for when the last is at height last. */
  function Stamps(hashes: seq<Hash>, last: int): (s: seq<BlockStamp>)
    ensures |s| == |hashes|
  {
    seq(|hashes|, i requires 0 <= i < |hashes| => BlockStamp(last - (|hashes| - 1 - i), hashes[i]))
  }

  /** bs sets the window back to a block it holds. */
  predicate SetsBack(hashes: seq<Hash>, last: int, bs: BlockStamp) {
    var i := |hashes| - 1 - (last - bs.height);
    bs.height < last && 0 <= i < |hashes| && hashes[i] == bs.hash
  }

  /** The run once bs has been seen, if bs does not set the window back. */
  function Extended(run: seq<BlockStamp>, last: int, bs: BlockStamp): seq<BlockStamp> {
    if bs.height == last + 1 then run + [bs] else [bs]
  }

  class RecentBlocks {
    var hashes: array<Hash>
    var count: nat
    var lastHeight: int

    /** The blocks seen one after the other up to the last one. */
    ghost var run: seq<BlockStamp>

    ghost predicate Valid()
      reads this, hashes
    {
      && hashes.Length == WINDOW && count <= WINDOW
      && Consecutive(run) && (run != [] ==> run[|run|-1].height == lastHeight)
      && Stamps(hashes[..count], lastHeight) == Newest(run)
    }

    constructor (created: BlockStamp)
      ensures Valid() && fresh(hashes) && run == [created] && lastHeight == created.height
    {
      hashes := new Hash[WINDOW](_ => created.hash);
      count, lastHeight, run := 1, created.height, [created];
    }

    /** Marks the store synced with bs, or unsynced from firstBlock on. */
    method SetSyncedWith(seen: Option<BlockStamp>, firstBlock: int)
      requires Valid()
      modifies this, hashes
      ensures hashes == old(hashes)
      ensures seen.None? ==> Valid() && run == [] && lastHeight == firstBlock
      ensures seen.Some? && !old(SetsBack(hashes[..count], lastHeight, seen.value)) ==>
        Valid() && run == Extended(old(run), old(lastHeight), seen.value) && lastHeight == seen.value.height
      ensures seen.Some? && old(SetsBack(hashes[..count], lastHeight, seen.value)) ==>
        lastHeight == seen.value.height && hashes[..] == old(hashes[..]) && run == old(run)
        && count == old(count) - 1 - (old(lastHeight) - seen.value.height)
    {
      if seen.None? {
        count, lastHeight, run := 0, firstBlock, [];
        return;
      }
      var bs := seen.value;
      ghost var was := hashes[..count];
      if bs.height < lastHeight {
        var maybeIdx := count - 1 - (lastHeight - bs.height);
        if 0 <= maybeIdx < count && hashes[maybeIdx] == bs.hash {
          lastHeight := bs.height;
          count := maybeIdx;
          return;
        }
        count := 0;
      }
      Accept(bs, was);
    }

    /** Records bs as the newest block; was is the window before, which may
        have been emptied already. */
    method Accept(bs: BlockStamp, ghost was: seq<Hash>)
      requires hashes.Length == WINDOW && count <= WINDOW && |was| <= WINDOW
      requires Consecutive(run) && (run != [] ==> run[|run|-1].height == lastHeight)
      requires Stamps(was, lastHeight) == Newest(run)
      requires hashes[..count] == was || (count == 0 && bs.height < lastHeight)
      modifies this, hashes
      ensures hashes == old(hashes) && Valid() && run == Extended(old(run), old(lastHeight), bs)
      ensures lastHeight == bs.height
    {
      hide Stamps, Newest, Consecutive, Pushed;
      ghost var before := lastHeight;
      if bs.height != lastHeight + 1 { count := 0; }
      lastHeight := bs.height;
      ghost var kept := hashes[..count];
      Append(bs.hash);
      ExtendStamps(was, kept, before, run, bs);
      ExtendConsecutive(run, before, bs);
      run := Extended(run, before, bs);
    }

    /** Adds the newest hash, in place of the oldest if the window is full. */
    method Append(h: Hash)
      requires hashes.Length == WINDOW && count <= WINDOW
      modifies hashes, `count
      ensures count <= WINDOW
      ensures hashes[..count] == Pushed(old(hashes[..count]), h)
    {
      if count == WINDOW {
        Shift();
        hashes[WINDOW-1] := h;
      } else {
        hashes[count] := h;
        count := count + 1;
      }
    }

    /** Moves the hashes of a full window down by one slot. */
    method Shift()
      requires hashes.Length == WINDOW
      modifies hashes
      ensures hashes[..WINDOW-1] == old(hashes[1..])
    {
      var i := 0;
      while i < WINDOW - 1
        invariant 0 <= i <= WINDOW - 1
        invariant forall j :: 0 <= j < i ==> hashes[j] == old(hashes[j+1])
        invariant forall j :: i <= j < WINDOW ==> hashes[j] == old(hashes[j])
      {
        hashes[i] := hashes[i+1];
        i := i + 1;
      }
    }
  }

  /** h pushed onto a window of hashes. */
  function Pushed(hashes: seq<Hash>, h: Hash): seq<Hash> {
    (if |hashes| == WINDOW then hashes[1..] else hashes) + [h]
  }

  /** One more consecutive block pushes the oldest out of a full window. */
  lemma StampsNext(hashes: seq<Hash>, last: int, run: seq<BlockStamp>, bs: BlockStamp)
    requires |hashes| <= WINDOW && Stamps(hashes, last) == Newest(run) && bs.height == last + 1
    ensures Stamps(Pushed(hashes, bs.hash), bs.height) == Newest(run + [bs])
  {
    var hs := Pushed(hashes, bs.hash);
    assert |Stamps(hashes, last)| == |hashes|;
    var a, b := Stamps(hs, bs.height), Newest(run + [bs]);
    assert |a| == |b|;
    forall i | 0 <= i < |a| ensures a[i] == b[i] {
      var j := if |hashes| == WINDOW then i + 1 else i;
      if i < |a| - 1 { assert a[i] == Stamps(hashes, last)[j] && b[i] == Newest(run)[j]; }
    }
  }

  lemma ExtendStamps(was: seq<Hash>, kept: seq<Hash>, last: int, run: seq<BlockStamp>, bs: BlockStamp)
    requires |was| <= WINDOW && Stamps(was, last) == Newest(run) && kept == if bs.height == last + 1 then was else []
    ensures Stamps(Pushed(kept, bs.hash), bs.height) == Newest(Extended(run, last, bs))
  {
    if bs.height == last + 1 {
      StampsNext(was, last, run, bs);
    } else {
      assert Pushed([], bs.hash) == [bs.hash];
    }
  }

  lemma ExtendConsecutive(run: seq<BlockStamp>, last: int, bs: BlockStamp)
    requires Consecutive(run) && (run != [] ==> run[|run|-1].height == last)
    ensures Consecutive(Extended(run, last, bs))
  {
  }

  // ------------------------------------------------------------- the iterator

  /** Walks the window; created at the newest block. */
  class BlockIterator {
    const rb: RecentBlocks
    var index: int

    constructor (r: RecentBlocks)
      requires r.hashes.Length == WINDOW && 0 < r.count <= WINDOW
      ensures rb == r && index == r.count - 1
    {
      rb, index := r, r.count - 1;
    }

    method Next() returns (ok: bool)
      modifies this
      ensures ok == (old(index) + 1 < rb.count) && index == old(index) + (if ok then 1 else 0)
    {
      if rb.count <= index + 1 { return false; }
      index := index + 1;
      return true;
    }

    method Prev() returns (ok: bool)
      modifies this
      ensures ok == (0 < old(index)) && index == old(index) - (if ok then 1 else 0)
    {
      if index - 1 < 0 { return false; }
      index := index - 1;
      return true;
    }

    method Stamp() returns (bs: BlockStamp)
      requires rb.hashes.Length == WINDOW && 0 <= index < rb.count <= WINDOW
      ensures bs == Stamps(rb.hashes[..rb.count], rb.lastHeight)[index]
    {
      return BlockStamp(rb.lastHeight - (rb.count - 1 - index), rb.hashes[index]);
    }
  }

  function Reversed(s: seq<BlockStamp>): (r: seq<BlockStamp>)
    ensures |r| == |s|
  {
    seq(|s|, i requires 0 <= i < |s| => s[|s|-1-i])
  }

  lemma NewestAre(run: seq<BlockStamp>)
    ensures var out := Reversed(Newest(run));
            && |out| == (if |run| < 20 then |run| else 20)
            && forall k :: 0 <= k < |out| ==> out[k] == run[|run| - 1 - k]
  {
  }

  /** Walking back from the newest block yields exactly the last blocks of the
      run, newest first, with their heights. */
  method WalkBack(rb: RecentBlocks) returns (out: seq<BlockStamp>)
    requires rb.Valid()
    ensures out == Reversed(Newest(rb.run))
    ensures |out| == if |rb.run| < 20 then |rb.run| else 20
    ensures forall k :: 0 <= k < |out| ==> out[k] == rb.run[|rb.run| - 1 - k]
  {
    NewestAre(rb.run);
    ghost var stamps := Stamps(rb.hashes[..rb.count], rb.lastHeight);
    out := [];
    if rb.count == 0 { return; }
    var it := new BlockIterator(rb);
    var bs := it.Stamp();
    out := [bs];
    var more := it.Prev();
    hide RecentBlocks.Valid, Stamps, Newest;
    while more
      invariant it.rb == rb && rb.hashes.Length == WINDOW && rb.count <= WINDOW
      invariant stamps == Stamps(rb.hashes[..rb.count], rb.lastHeight) && 0 <= it.index < rb.count == |stamps|
      invariant |out| == rb.count - it.index - (if more then 1 else 0)
      invariant forall k :: 0 <= k < |out| ==> out[k] == stamps[|stamps| - 1 - k]
      invariant !more ==> it.index == 0
      decreases it.index, more
    {
      bs := it.Stamp();
      out := out + [bs];
      more := it.Prev();
    }
  }

  // -------------------------------------------------------- setting back

  /** Setting the window back drops the hash of the very block it is set back
      to: every stamp left is one height too high, so the window is right
      exactly when nothing is left in it. */
  lemma SetBackIff(hashes: seq<Hash>, last: int, run: seq<BlockStamp>, bs: BlockStamp)
    requires Consecutive(run) && (forall i, j :: 0 <= i < j < |run| ==> run[i].hash != run[j].hash)
    requires Stamps(hashes, last) == Newest(run) && SetsBack(hashes, last, bs)
    ensures var n := |hashes| - 1 - (last - bs.height);
            (forall i :: 0 <= i < n ==> Stamps(hashes[..n], bs.height)[i] in run) <==> n == 0
  {
    var n := |hashes| - 1 - (last - bs.height);
    if n > 0 {
      var stamps := Stamps(hashes[..n], bs.height);
      assert stamps[n-1] == BlockStamp(bs.height, hashes[n-1]);
      assert Stamps(hashes, last)[n-1] == BlockStamp(bs.height - 1, hashes[n-1]) && |Newest(run)| == |hashes|;
      var j := |run| - |hashes| + n - 1;
      assert run[j] == Newest(run)[n-1];
      assert stamps[n-1] !in run;
    }
  }
}
