/** The operations of the store on a ledger value: inserting transactions,
    recording credits and debits, and finding what a transaction spends. */
module LedgerOps {
  import opened TxTypes
  import opened Ledgers

  /** A handle to a record: mined at key, or unconfirmed when key is UNMINED. */
  datatype TxRef = TxRef(key: BlockTxKey, hash: Hash)

  /** A handle to a credit: output `out` of the record at `tx`. */
  datatype CreditRef = CreditRef(tx: TxRef, out: nat) {
    function Op(): OutPoint { OutPoint(tx.hash, out) }
    function Key(): BlockOutputKey { BlockOutputKey(tx.key, out) }
    predicate Mined() { tx.key.height != -1 }
  }

  predicate LiveTx(l: Ledger, t: TxRef) {
    if t.key == UNMINED then t.hash in l.txs
    else t.key.height != -1 && t.key in l.mined && l.mined[t.key].tx.hash == t.hash
  }

  function RecordAt(l: Ledger, t: TxRef): TxRecord
    requires LiveTx(l, t)
  {
    if t.key == UNMINED then l.txs[t.hash] else l.mined[t.key]
  }

  predicate LiveCredit(l: Ledger, c: CreditRef) {
    LiveTx(l, c.tx) && HasCredit(RecordAt(l, c.tx), c.out)
  }

  // ---------------------------------------------------------------- inserts

  function FreshRecord(tx: Tx, index: int, received: int): TxRecord {
    TxRecord(tx, index, None, [], received)
  }

  function InsertUnmined(l: Ledger, tx: Tx, now: int): (l': Ledger)
    ensures l'.mined == l.mined && l'.unspent == l.unspent
  {
    if tx.hash in l.txs then l.(txs := l.txs[tx.hash := l.txs[tx.hash].(received := now)])
    else
      var r := FreshRecord(tx, INDEX_UNKNOWN, now);
      l.(txs := l.txs[tx.hash := r], prevOuts := l.prevOuts + map op | op in Inputs(r) :: tx.hash)
  }

  /** A transaction first seen in a block. */
  function AppendMined(l: Ledger, tx: Tx, key: BlockTxKey, received: int): Ledger {
    l.(mined := l.mined[key := FreshRecord(tx, key.index, received)],
       deltas := l.deltas[key.height := BlockDelta(l.deltas, key.height)])
  }

  // ---------------------------------------------------------------- credits

  /** The credit list of r grown to hold index i. */
  function GrownCredits(cs: seq<Option<Credit>>, i: nat): (r: seq<Option<Credit>>)
    ensures |r| == if i < |cs| then |cs| else i + 1
  {
    if i < |cs| then cs else cs + seq(i + 1 - |cs|, _ => None)
  }

  function WithCredit(r: TxRecord, i: nat, change: bool): TxRecord {
    r.(credits := GrownCredits(r.credits, i)[i := Some(Credit(change, None))])
  }

  /** Records output i of a transaction as spendable by the wallet.  A credit
      already recorded is left alone. */
  function AddCredit(l: Ledger, t: TxRef, i: nat, change: bool): Result<Ledger>
    requires LiveTx(l, t)
  {
    var r := RecordAt(l, t);
    if |r.tx.outputs| <= i then Err(NoSuchOutput)
    else if HasCredit(r, i) then Ok(l)
    else if t.key == UNMINED then Ok(l.(txs := l.txs[t.hash := WithCredit(r, i, change)]))
    else
      var d := BlockDelta(l.deltas, t.key.height);
      var v := r.tx.outputs[i];
      Ok(l.(mined := l.mined[t.key := WithCredit(r, i, change)],
            unspent := l.unspent[OutPoint(t.hash, i) := t.key],
            deltas := l.deltas[t.key.height :=
              if r.index == 0 then d.(reward := d.reward + v) else d.(spendable := d.spendable + v)]))
  }

  // ----------------------------------------------------------------- debits

  datatype Marked = Marked(ledger: Ledger, amount: int)

  /** Marking credits leaves transactions, the pool and block amounts alone. */
  ghost predicate OnlyLinksChanged(l: Ledger, l': Ledger) {
    && l'.txs == l.txs && l'.deltas == l.deltas && l'.prevOuts == l.prevOuts && l'.mined.Keys == l.mined.Keys
    && forall k :: k in l.mined ==> l'.mined[k].tx == l.mined[k].tx && l'.mined[k].debits == l.mined[k].debits
  }

  /** Marks one previous credit as spent by t.  A credit t already spends is
      skipped; one spent by another transaction is an error. */
  function MarkOne(l: Ledger, c: CreditRef, t: TxRef): (r: Result<Marked>)
    ensures r.Ok? ==> OnlyLinksChanged(l, r.value.ledger)
  {
    if !c.Mined() then Ok(Marked(l.(spentUnconf := l.spentUnconf[c.Op() := t.hash]), 0))
    else if !IsCredit(l.mined, c.Key()) then Err(OutOfRange)
    else match SpentBy(l.mined, c.Key())
      case Some(k) => if k == t.key then Ok(Marked(l, 0)) else Err(InconsistentStore)
      case None =>
        var marked := l.(mined := Relink(l.mined, {c.Key()}, Some(t.key)), unspent := l.unspent - {c.Op()});
        Ok(Marked(if t.key == UNMINED then PoolSpends(marked, c, t.hash) else marked,
                  OutValue(l.mined[c.tx.key], c.out)))
  }

  /** The pool's spend maps record that h spends c. */
  function PoolSpends(l: Ledger, c: CreditRef, h: Hash): Ledger {
    if c.Mined() then l.(spentOuts := l.spentOuts[c.Key() := h], spentKeys := l.spentKeys[c.Op() := c.Key()])
    else l.(spentUnconf := l.spentUnconf[c.Op() := h])
  }

  function MarkSpent(l: Ledger, cs: seq<CreditRef>, t: TxRef): (r: Result<Marked>)
    ensures r.Ok? ==> OnlyLinksChanged(l, r.value.ledger)
  {
    if cs == [] then Ok(Marked(l, 0)) else
    var n := |cs| - 1;
    match MarkSpent(l, cs[..n], t)
    case Err(e) => Err(e)
    case Ok(m) =>
      match MarkOne(m.ledger, cs[n], t)
      case Err(e) => Err(e)
      case Ok(m') => Ok(Marked(m'.ledger, m.amount + m'.amount))
  }

  function AllPoolSpends(l: Ledger, cs: seq<CreditRef>, h: Hash): Ledger {
    if cs == [] then l else PoolSpends(AllPoolSpends(l, cs[..|cs|-1], h), cs[|cs|-1], h)
  }

  function Keys(cs: seq<CreditRef>): (r: seq<BlockOutputKey>)
    ensures |r| == |cs|
  {
    seq(|cs|, i requires 0 <= i < |cs| => cs[i].Key())
  }

  /** The credit that input op spends, if the wallet has it unspent. */
  function FindCredit(l: Ledger, op: OutPoint): Result<Option<CreditRef>> {
    if op in l.unspent then
      var k := l.unspent[op];
      if k !in l.mined then Err(MissingBlockTx)
      else Ok(Some(CreditRef(TxRef(k, l.mined[k].tx.hash), op.index)))
    else if op.hash in l.txs && HasCredit(l.txs[op.hash], op.index) && op !in l.spentUnconf then
      Ok(Some(CreditRef(TxRef(UNMINED, op.hash), op.index)))
    else Ok(None)
  }

  function FindCredits(l: Ledger, ins: seq<OutPoint>): Result<seq<CreditRef>> {
    if ins == [] then Ok([]) else
    var n := |ins| - 1;
    match FindCredits(l, ins[..n])
    case Err(e) => Err(e)
    case Ok(cs) =>
      match FindCredit(l, ins[n])
      case Err(e) => Err(e)
      case Ok(None) => Ok(cs)
      case Ok(Some(c)) => Ok(cs + [c])
  }

  function SetDebits(l: Ledger, t: TxRef, d: Debits): Ledger
    requires LiveTx(l, t)
  {
    if t.key == UNMINED then l.(txs := l.txs[t.hash := l.txs[t.hash].(debits := Some(d))])
    else l.(mined := l.mined[t.key := l.mined[t.key].(debits := Some(d))])
  }

  function Charge(deltas: map<int, Amounts>, height: int, amount: int): map<int, Amounts> {
    var d := BlockDelta(deltas, height);
    deltas[height := d.(spendable := d.spendable - amount)]
  }

  /** Records for a transaction without debits that it spends the credits cs. */
  function FirstDebits(l: Ledger, t: TxRef, cs: seq<CreditRef>): Result<Ledger>
    requires LiveTx(l, t)
  {
    match MarkSpent(l, cs, t)
    case Err(e) => Err(e)
    case Ok(m) =>
      if t.key == UNMINED then
        Ok(AllPoolSpends(SetDebits(m.ledger, t, Debits(m.amount, [])), cs, t.hash))
      else
        Ok(SetDebits(m.ledger.(deltas := Charge(m.ledger.deltas, t.key.height, m.amount)), t,
            Debits(m.amount, Keys(cs))))
  }

  function AddDebits(l: Ledger, t: TxRef, cs: seq<CreditRef>): Result<Ledger>
    requires LiveTx(l, t)
  {
    var r := RecordAt(l, t);
    if r.debits.Some? then
      if t.key == UNMINED then Ok(AllPoolSpends(l, cs, t.hash))
      else if r.debits.value.spends == [] then Ok(SetDebits(l, t, r.debits.value.(spends := Keys(cs))))
      else Ok(l)
    else if cs != [] then FirstDebits(l, t, cs)
    else match FindCredits(l, r.tx.inputs)
      case Err(e) => Err(e)
      case Ok(found) => FirstDebits(l, t, found)
  }
}
