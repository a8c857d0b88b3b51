/** The values a transaction store is made of: transactions, the keys that name
    mined transactions and their outputs, and the records kept for each
    transaction. */
module TxTypes {

  datatype Option<+T> = None | Some(value: T)

  /** Why an operation of the store gave up. */
  datatype Error =
    | IndexUnset
    | IndexSet
    | DuplicateInsert
    | InconsistentStore
    | MissingBlock
    | MissingBlockTx
    | MissingDebits
    | MissingCredit
    | NoSuchOutput
    | OutOfRange      // the index expression panics

  datatype Result<+T> = Ok(value: T) | Err(error: Error)

  /** A transaction hash.  Hashes are numbered so that a transaction always
      carries a larger number than the hashes its inputs commit to: no two
      transactions can commit to each other. */
  type Hash = nat

  datatype OutPoint = OutPoint(hash: Hash, index: nat)

  datatype RawTx = RawTx(hash: Hash, inputs: seq<OutPoint>, outputs: seq<int>)

  predicate Commits(t: RawTx) {
    forall i :: 0 <= i < |t.inputs| ==> t.inputs[i].hash < t.hash
  }

  type Tx = t: RawTx | Commits(t) witness RawTx(0, [], [])

  /** The place of a mined transaction: its index within the block at a height. */
  datatype BlockTxKey = BlockTxKey(index: int, height: int)

  /** The key that stands for "some unconfirmed transaction". */
  const UNMINED := BlockTxKey(0, -1)

  /** The index of a transaction that is not in a block. */
  const INDEX_UNKNOWN := -1

  datatype BlockOutputKey = BlockOutputKey(tx: BlockTxKey, out: nat)

  datatype Credit = Credit(change: bool, spentBy: Option<BlockTxKey>)

  datatype Debits = Debits(amount: int, spends: seq<BlockOutputKey>)

  datatype TxRecord = TxRecord(
    tx: Tx,
    index: int,
    debits: Option<Debits>,
    credits: seq<Option<Credit>>,
    received: int)

  /** Net amounts a block contributes: spendable at once, and coinbase reward. */
  datatype Amounts = Amounts(spendable: int, reward: int)

  predicate HasCredit(r: TxRecord, i: nat) {
    i < |r.credits| && r.credits[i].Some?
  }

  predicate NoDup<T(==)>(s: seq<T>) {
    forall i, j :: 0 <= i < j < |s| ==> s[i] != s[j]
  }
}
