/** The store as its callers drive it: every request in order keeps the links,
    the unspent map and the amounts. */
module StoreRuns {
  import opened TxTypes
  import opened Ledgers
  import opened LedgerInv
  import opened LedgerOps
  import opened Balances
  import opened Blocks
  import opened Detaching
  import Runs
  import Rollbacks
  import opened Stores

  datatype Request =
    | Insert(tx: Tx, index: int, block: Option<BlockInfo>, now: int)
    | RecordCredit(t: TxRef, out: nat, change: bool)
    | RecordDebits(t: TxRef, spent: seq<CreditRef>)
    | RollBack(height: int)

  /** The call on the ledger that a request to a store with blocks bs makes. */
  function CallOf(bs: BlockList, r: Request): Runs.Call {
    match r
    case Insert(tx, index, None, now) => Runs.InsertPool(tx, now)
    case Insert(tx, index, Some(b), now) => Runs.InsertBlock(tx, BlockTxKey(index, b.height), Received(b.time, now))
    case RecordCredit(t, out, change) => Runs.Credit(t, out, change)
    case RecordDebits(t, spent) => Runs.Debit(t, spent)
    case RollBack(height) => Runs.Roll(height, AllKeys(bs[FirstFrom(bs, height)..]))
  }

  /** An index is given exactly with a block; new blocks, and transactions new
      to the store within their block, come in order. */
  ghost predicate InOrder(s: Store, r: Request)
    reads s
  {
    r.Insert? ==>
      && (r.index == INDEX_UNKNOWN <==> r.block.None?)
      && (r.block.Some? && BlockTxKey(r.index, r.block.value.height) !in s.ledger.mined ==>
            if r.tx.hash in s.ledger.txs then Fits(s.blocks, s.blockIndexes, r.block.value.height)
            else FitsBlock(s.blocks, s.blockIndexes, BlockTxKey(r.index, r.block.value.height)))
  }

  /** A proper request succeeds, does to the ledger what its call does, and
      leaves the store linked; the unspent map stays the exact scan and the
      block amounts stay right unless the request is one of the two that the
      program does not account for. */
  method Serve(s: Store, r: Request)
    requires s.Valid() && s.Settled() && Linked(s.ledger) && InOrder(s, r)
    requires Runs.Proper(s.ledger, CallOf(s.blocks, r))
    modifies s
    ensures s.Valid() && s.Settled() && Linked(s.ledger)
    ensures Runs.Applies(old(s.ledger), CallOf(old(s.blocks), r))
    ensures Runs.Step(old(s.ledger), CallOf(old(s.blocks), r)) == Ok(s.ledger)
    ensures old(UnspentComplete(s.ledger.mined, s.ledger.unspent) && Runs.Peaceful(s.ledger, CallOf(s.blocks, r))) ==>
              UnspentComplete(s.ledger.mined, s.ledger.unspent)
    ensures old(Accounted(s.ledger) && Runs.Frugal(s.ledger, CallOf(s.blocks, r))) ==> Accounted(s.ledger)
  {
    hide Linked, Runs.Peaceful, Runs.Frugal, UnspentComplete, Accounted, Runs.Proper, LedgerOps.AddCredit;
    hide LedgerOps.AddDebits, Rollbacks.Rollback, InsertUnmined, Runs.InsertMined;
    ghost var l, c := s.ledger, CallOf(s.blocks, r);
    Runs.ProperApplies(l, c);
    Runs.StepKeepsLinks(l, c);
    if Accounted(l) && Runs.Frugal(l, c) { Runs.StepKeepsAccounts(l, c); }
    match r {
      case Insert(tx, index, block, now) => var res := s.InsertTx(tx, index, block, now);
      case RecordCredit(t, out, change) => var res := s.AddCredit(t, out, change);
      case RecordDebits(t, spent) => var err := s.AddDebits(t, spent);
      case RollBack(height) => var err := s.Rollback(height);
    }
  }

  /** A new store is empty, linked and accounted for. */
  method Open() returns (s: Store)
    ensures fresh(s) && s.Valid() && s.Settled() && s.ledger == EMPTY
    ensures Consistent(s.ledger) && Accounted(s.ledger)
  {
    Runs.EmptyOk();
    s := new Store();
  }
}
