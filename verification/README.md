# btcwallet, modelled in Dafny

A model of the parts of btcwallet where several structures have to agree with
each other, and proofs about it.

**The transaction store.**  `Ledgers` and `LedgerOps` describe the store as one
value, `LedgerInv` and `Balances` say when it is in order, and one file per
operation shows what that operation keeps: inserts, credits, debits, mining,
rollback and the removal of conflicts.  `Runs` puts them together for whole
runs, `ReorgMarks` says what mining followed by a reorganisation changes, and
`BalanceProof` how the balance from block amounts compares with the sum over
unspent credits.  `Provenance` and `Histories` say that each record is what the
calls told, and what a call leaves of the others.  `Stores` is the store as the program keeps it - a class with the
block list, its two indexes and the maps, updated in place by loops - and each
method is proved to carry out the ledger operation; `StoreRuns` carries the
whole-run properties over to the class.

**Its file.**  `ByteCodes`, `Codec` and `StoreCodec` are the encoding and
decoding functions; `StoreRoundTrip` proves that one undoes the other and that
the unwritten indexes come back, and `Layout` says by position and value which
bytes are written and read; `StoreIO` has the stream readers and writers, proved
against those functions with their byte counts.

**The key store.**  `KeyChain` holds the chain of keys over an abstract curve
(SEC 2, section 2.4.1), hash and cipher (NIST SP 800-38A, section 6.3), `KeyStores`
the key store class, `KeySessions` whole sessions, `ToyKeys` an instance of the
laws, `KeyFile` the file entries and `RecentWindow` the window of recent blocks.

**Smaller cores.**  `Rescans` (batches of rescan jobs), `DiskSyncs` (the
scheduler of file writes), `CoinSelection` and `FeeSearch` (building a
transaction).

Where the code falls short of what its comments say, the condition under which
it does not is proved, mostly as an if-and-only-if, and `Departures` has
concrete stores for the transaction store's cases.

## How to read a state

- A mined transaction is known by block index and height, an unconfirmed one by
  its hash.  Hashes are numbered so that a transaction comes after what it
  spends; nothing else is assumed of them but that different transactions have
  different hashes.
- An unconfirmed credit is spent when it is marked or the pool records a spender
  for it; spending it does not mark it.
- `Linked` is two-way spend tracking, `UnspentComplete` the other half of
  "`unspent` is the scan", `Accounted` that the amounts are right, and
  `Consistent` is `Linked` with `UnspentComplete`.
- `Proper` in `Runs` lists what each call needs: debits against unspent inputs,
  parents mined before children, no unconfirmed double spends, one-block
  rollbacks without coinbase credits, conflicts that head a tree.  `Frugal`
  excludes mining a transaction with spent outputs, `Peaceful` a conflict
  removal that frees mined credits.  Each of these conditions has a
  lemma that shows it is needed, but for the one that debits are not recorded
  twice.

## Model

| member | source | states |
|---|---|---|
| Runs.RunsStayLinked | txstore/tx.go:196-210 | In every run of the interface from an empty store whose calls obey the stated conditions, no call fails and spend tracking is two-way at the end: a mined credit names a mined spender exactly when that spender lists it, once; it names "unconfirmed" exactly when the pool map has it; the two pool maps are in bijection and lead to live unconfirmed records with that input; and, unless a removed conflict freed a mined credit, `unspent` is exactly the scan of unspent mined credits |
| Runs.StepKeepsLinks | txstore/tx.go:498-564 | One call of any kind (unconfirmed insert, block insert with or without a conflict, credit, debit, rollback) succeeds under its condition and keeps all of the above |
| Runs.RunsStayAccounted | txstore/doc.go:40-49 | In every such run that never mines a transaction with already spent outputs, each block's amounts are its credits minus its debits (coinbase credits apart), each mined debit is the value of the credits it lists, and each debit of an unconfirmed transaction that spends no unconfirmed output is the value of the mined credits it spends |
| Runs.StepKeepsAccounts | txstore/tx.go:498-564 | One such call keeps the amounts right |
| Runs.BalanceOverRuns | txstore/tx.go:1172-1241 | After any such run the balance from block amounts equals the sum over every recorded credit that nothing spends and that has enough confirmations, at every depth and every height no block exceeds at which spent coinbases are mature; at depth 0 it is larger by exactly the value of the unconfirmed credits that the pool spends without marking them |
| Runs.RemainderOverRuns | rpcserver.go:1552-1566 | After any such run with non-negative outputs the balance is never negative and never grows with the depth asked for, from any depth to any greater one; so the unconfirmed remainder is never negative |
| Histories.RunsTellNothingElse | txstore/tx.go:498-799 | After any such run every record holds a transaction exactly as some call inserted it, was received when some insert of it said, and has a credit, with its change flag, or debits only where some call recorded them |
| Histories.RunsForgetNothing | txstore/tx.go:498-564 | What the store has recorded of a transaction at any point of such a run - the transaction, its credits with their flags, its debits - it has at the end, unless a later call mines a transaction that conflicts with it or detaches the block of which it is the coinbase |
| Histories.StepFaithful | txstore/tx.go:498-564 | One call of any kind brings only the record it tells of, and of every other record loses nothing and adds nothing: it moves it or changes who spends what, or takes it out as a conflict or as the coinbase of a detached block |
| Provenance.InsertMinedRecords | txstore/tx.go:523-563 | An insert into a block that succeeds leaves the known record, or moves the unconfirmed one with its transaction, credits and debits, or records the transaction as given without credits and debits, the first conflict and its descendants leaving the pool; all other records keep transaction, flags, amounts and time |
| Provenance.StepRecords | txstore/tx.go:498-941 | The same said exactly for each kind of call: which records exist afterwards, at which place, and what each holds |
| BalanceProof.BalanceDifference | txstore/tx.go:1172-1241 | On any linked, accounted ledger the balance from block amounts differs from the sum over unspent credits by exactly two things: less the confirmed coinbase credits spent before they matured, and at depth 0 plus the unconfirmed credits spent without being marked |
| BalanceProof.BalanceIsScanIff | txstore/tx.go:1225-1238 | With spent coinbases mature, the two balances agree if and only if the depth is not 0 or the unconfirmed credits spent without being marked are worth nothing |
| BalanceProof.ScanShrinks | txstore/tx.go:1168-1171 | With non-negative outputs the sum over unspent credits, and what the balance overlooks, are non-negative and shrink as the depth grows |
| BalanceProof.CountableIs | txstore/tx.go:1149-1187 | The mined credits that make up the balance are exactly the unspent ones at or below the chain height with the confirmations asked for - any when none is asked for - and, at index 0 of their block, with at least 100 |
| ReorgMarks.MineThenRollback | txstore/tx.go:409-489 | Mining any set of unconfirmed transactions that do not spend each other into blocks above the chain and rolling back below them gives back the same ledger - every map, index entry, spent-by link, debit record and block amount, in whatever order the detached transactions are visited - but for one thing: their credits which the pool spends are marked; so it is the very same ledger if and only if all of these were marked before |
| ReorgTheorem.MarkedComeBack | txstore/tx.go:802-930 | When those credits are marked, the ledger comes back exactly |
| ReorgMarks.MoveAllMarked | txstore/tx.go:446-468 | Mining does the same whether the credits were marked before or not |
| RollbackProof.RollbackSucceedsIff | txstore/tx.go:802-930 | A rollback of a linked store succeeds if and only if no detached transaction spends an output of a detached block |
| RollbackProof.RollbackKeepsLinks | txstore/tx.go:802-930 | A rollback that meets this, without coinbase credits and double spends among what returns, keeps every link and the exactness of `unspent` |
| CoinbaseRollback.RollbackKeepsLinksIff | txstore/tx.go:823-834 | A rollback that succeeds leaves the store linked if and only if no detached coinbase has a credit, because coinbases are skipped without cleaning up, and the transactions that return share no input with each other or with the pool, because returning checks for no double spend |
| RollbackProof.RollbackNeeds | txstore/tx.go:880-895 | A rollback that succeeds found every output a detached transaction spends below the cut |
| ReturnProof.ReturnTxIs | txstore/tx.go:829-926 | Visiting credit by credit and debit by debit returns a detached record to the pool in one stated step: its credits leave `unspent`, its pool spenders move to the unconfirmed map, and the mined credits it spends are marked spent by the pool |
| ReturnLinks.UnmineKeepsLinks | txstore/tx.go:829-926 | Returning one detached record keeps every link of what is left |
| PoolAccounts.RollbackAccounts | txstore/tx.go:802-930 | A rollback keeps block amounts, mined debits and unconfirmed debits right |
| Provenance.RollbackRecords | txstore/tx.go:802-930 | A rollback that succeeds leaves exactly the mined records below the height and adds exactly the others, coinbases excepted, to the pool, each with its transaction, time, flags and amount |
| MoveProof.MoveKeepsLinks | txstore/tx.go:409-489 | Mining an unconfirmed transaction whose parents are mined keeps every link two-way and `unspent` exact |
| MoveProof.MoveKeepsLinksIff | txstore/tx.go:409-489 | Mining an unconfirmed transaction at a free place keeps every link if and only if none of its inputs is still unconfirmed and none is mined higher |
| MoveAccounts.MoveKeepsAccounts | txstore/tx.go:454-486 | Mining a transaction with unspent outputs keeps all amounts right |
| MoveAccounts.MoveAccountsIff | txstore/tx.go:464-486 | Mining a transaction keeps all amounts right - blocks, mined debits and unconfirmed debits - if and only if those of its outputs that are already spent are worth nothing in total, because no amount is added for them, and the unconfirmed spenders of its outputs count them in their debits |
| InsertProof.InsertUnminedKeepsLinksIff | txstore/tx.go:515-521 | An unconfirmed insert, which checks for no double spend, keeps every link if and only if the transaction is already in the pool, or is not mined and shares no input with the pool |
| InsertProof.AppendKeepsLinksIff | txstore/tx.go:552-563 | An insert of a new transaction into a free place of a block keeps every link if and only if the transaction is not recorded elsewhere |
| InsertProof.AddCreditKeepsLinks | txstore/tx.go:762-799 | Recording a credit always keeps every link and `unspent` exact |
| Accounting.AddCreditAccounts | txstore/tx.go:779-798 | Recording a credit keeps the amounts right: the coinbase's go to the reward, all others to the spendable amount |
| Provenance.CreditRecords | txstore/tx.go:742-799 | Recording a credit sets that one output, with the change flag given, unless it is a credit already; no other output and no other record changes |
| Accounting.AppendAccounts | txstore/tx.go:318-351 | A new record in a new or old block keeps the amounts right |
| DebitRuns.FirstDebitsKeepLinks | txstore/tx.go:587-634 | Recording debits against distinct unspent credits among the inputs succeeds and keeps every link and `unspent` exact, for mined and for unconfirmed spenders |
| DebitRuns.PoolDebitsKeepLinks | txstore/tx.go:699-740 | Marking one credit after the other as spent by an unconfirmed transaction keeps every link |
| DebitRuns.MinedDebitsKeepLinks | txstore/tx.go:699-740 | The same for a mined transaction: its list of spends and the credits' spenders match when the loop is done |
| DebitNeeds.FirstDebitsIff | txstore/tx.go:587-634 | Recording first debits against live credits succeeds and keeps every link if and only if the credits are unspent inputs and, for a mined transaction, different, mined no higher than it, and it is no coinbase; an unconfirmed one may be given a credit twice |
| DebitNeeds.PoolDebitsOnce | txstore/tx.go:699-740 | Recording a credit repeatedly for an unconfirmed transaction does what recording it once does, in state and in amount |
| DebitRuns.FindCreditsSpend | txstore/tx.go:638-694 | Every credit found for a transaction's inputs is live, unspent and among those inputs, and on a linked store the search never fails |
| DebitAccounts.FirstDebitsAccounts | txstore/tx.go:587-634 | Recording debits keeps the amounts right: the debited total is the value of the mined credits spent, and a mined spender's block is charged it |
| Provenance.FirstDebitsAre | txstore/tx.go:587-634 | The debits recorded are worth the outputs of the mined credits among those given, unconfirmed ones counting nothing; a mined spender lists the credits' keys in the order given, an unconfirmed one none |
| Provenance.FoundInOrder | txstore/tx.go:638-694 | The credits found come in the order of the inputs that spend them |
| Provenance.SpendsInOrder | txstore/tx.go:423-445 | The spends a moved transaction lists come in the order of its inputs |
| Cascade.ConflictGone | txstore/tx.go:983-1041 | Removing an unconfirmed transaction succeeds if and only if the marked credits of it and its descendants all have a recorded spender and no transaction spends two of them; then exactly it and those descendants leave every pool map, and exactly the mined credits they spent lose their spender |
| Cascade.SpendersGone | txstore/tx.go:986-1006 | The loop over a transaction's first n outputs succeeds under the same condition restricted to them, and removes exactly what descends from them |
| Runs.RemovalIff | txstore/tx.go:983-1041 | On a linked store the removal succeeds and leaves the store linked if and only if the transaction heads such a tree and nothing outside the tree spends from it or is marked as spent by it |
| Runs.InsertConflictIs | txstore/tx.go:544-563 | A new mined transaction that conflicts with the pool removes the first conflict with its descendants, nothing else, and is then recorded |
| ConflictLinks.RemoveKeepsLinksIff | txstore/tx.go:1008-1040 | Taking a set of transactions out of the pool keeps every link if and only if none that stays spends an output of the set or is marked spent by it |
| ConflictLinks.RemoveUnmarkedIff | txstore/tx.go:703-706 | Because spending an unconfirmed output does not mark it, removing a record without marked credits removes it alone, and the links survive if and only if nothing spends from it |
| ConflictLinks.RemoveKeepsUnspentIff | txstore/tx.go:1014-1021 | `unspent` stays the exact scan after a removal if and only if no removed transaction spent a mined credit, because a freed credit is not listed again |
| PoolAccounts.RemoveAccounts | txstore/tx.go:1008-1040 | Removing any set of unconfirmed transactions keeps the amounts right |
| Departures.MiningSpentParent | txstore/tx.go:464-477 | A linked, accounted two-transaction store that mines the parent of a spent output and then reports a balance of -5 where the scan gives 0 |
| Departures.SpentOutputCounted | txstore/tx.go:1225-1238 | A linked, accounted store with one spent unconfirmed output that reports a balance of 5 at depth 0 where the sum over unspent credits is 0 |
| Departures.SpentOutputListed | txstore/tx.go:1076-1085 | On it the spent output is among those listed as unspent |
| Departures.UnmarkedComesBackMarked | txstore/tx.go:464-468 | Mining its parent and rolling back does not give the store back |
| Departures.OrphanLeft | txstore/tx.go:983-1041 | A removal that leaves the spender of a removed output behind |
| Departures.DiamondFails | txstore/tx.go:992-996 | A linked store on which removing a conflict is an error |
| Departures.FreedCreditUnlisted | txstore/tx.go:1019-1020 | A consistent store whose `unspent` map is incomplete after a removal |
| Departures.TwoBlockRollbackFails | txstore/tx.go:802-930 | A linked store on which detaching two blocks at once is an error |
| Departures.CoinbaseEntryStays | txstore/tx.go:825-827 | A consistent store that a rollback of a coinbase leaves unlinked |
| Departures.CoinbaseMatures | txstore/tx.go:1184-1188 | A coinbase of 5 mined at height 5 adds nothing to the balance at height 103, its 99th confirmation, and 5 at height 104 |
| Departures.SharedInputReturns | txstore/tx.go:829-834 | A consistent store, with an unconfirmed transaction inserted that the rules allow, on which a rollback leaves two unconfirmed transactions with the same input |
| Departures.SecondConflictStays | txstore/tx.go:962-977 | A mined transaction that conflicts with two others and leaves the second in the pool |
| StoreRuns.Serve | txstore/tx.go:498-564 | One request in order to the store class does to its ledger what the call stands for, leaves it linked, keeps `unspent` the exact scan unless a conflict frees a mined credit, and keeps the amounts right unless spent outputs are mined |
| StoreRuns.Open | txstore/tx.go:257-269 | A new store is empty, consistent and accounted for |
| Stores.Store.InsertTx | txstore/tx.go:498-564 | The four cases by index and block: the two argument errors change nothing; otherwise the new state is that of the ledger operation, or both fail. The handle returned is current; a new record holds the transaction given, no credits, no debits and the earlier of the block's time and now; a known one keeps its own; other records keep theirs unless they leave as a conflict; a new block is recorded as described, after the others |
| Stores.Store.MoveMinedTx | txstore/tx.go:409-489 | The in-place loops over inputs and credits carry out exactly the one-step move of the ledger |
| Stores.Store.MoveMinedInput | txstore/tx.go:423-445 | One input: the pool's entry for a mined credit becomes a listed spend of the moved record |
| Stores.Store.MoveMinedCredit | txstore/tx.go:458-478 | One credit: a spent one moves to the mined spend maps, a free one becomes unspent and adds its value |
| Stores.Store.AddCredit | txstore/tx.go:762-799 | Records the credit with its change flag as the ledger does, touching no other output and no other record, or reports the missing output and changes nothing |
| Stores.SetCredit | txstore/tx.go:742-760 | Grows the list of credits to the index and sets it; fails exactly when it is set already |
| Stores.Store.AddDebits | txstore/tx.go:587-634 | Fails exactly when the ledger operation does, otherwise reaches its state: with debits recorded before, without, and with the credits looked up; every record keeps its transaction, flags and time |
| Stores.Store.MarkOutputSpent | txstore/tx.go:699-740 | Marks one credit, skips one this transaction spends already, and fails on one another transaction spends |
| Stores.Store.FindPreviousCredits | txstore/tx.go:638-694 | Finds the credits the inputs spend, in input order |
| Stores.Store.RemoveConflict | txstore/tx.go:983-1041 | The recursion over the class reaches exactly the state of the ledger operation, or both fail, and moves no block |
| Stores.Store.RemoveRecord | txstore/tx.go:1008-1040 | The loop over inputs takes one record out of every pool map |
| Stores.Store.FindDoubleSpend | txstore/tx.go:970-977 | Finds the spender recorded for the first input that has one, and none exactly when no input has one |
| Stores.Store.RemoveDoubleSpends | txstore/tx.go:962-968 | Removes that one conflict, or changes nothing when there is none |
| Stores.Store.Rollback | txstore/tx.go:802-930 | Fails exactly when the ledger's rollback does, visiting the detached blocks in order, otherwise reaches its state; the blocks below stay as they are described |
| Stores.Store.ReturnRecord | txstore/tx.go:829-926 | One detached record returned to the pool, with the loops over its credits and its spends |
| Stores.SwapDebits | txstore/tx.go:932-941 | Replaces the first listing of a spend, and fails exactly when it is not listed |
| Stores.SwapSpendMissing | txstore/tx.go:932-941 | Replacing a spend that is not listed is an error |
| Stores.Store.Balance | txstore/tx.go:1172-1241 | The loops over blocks, young debits, pool spends and pool credits add up to the balance from amounts; on an accounted ledger with spent coinbases mature that is the sum over unspent credits and, at depth 0, the unconfirmed credits spent without being marked |
| BalanceLoops.SharesAdd | txstore/tx.go:1183-1210 | What the loop adds for each block, summed over the chain, is the amounts of confirmed and of mature blocks less what young transactions spend from confirmed credits |
| Stores.Store.UnspentOutputs | txstore/tx.go:1044-1089 | Never fails on a linked store, lists no output twice and only credits of the wallet; all it lists are unspent if and only if no unconfirmed credit is spent without being marked, and it lists every unspent one when `unspent` is complete |
| Stores.Store.LookupBlockTx | txstore/tx.go:278-287 | Finds the record at a key, or reports the missing block or the missing transaction |
| Stores.Store.BlockCollectionForInserts | txstore/tx.go:318-351 | Finds the block of a height, appends a new highest one, or inserts a lower one by re-slicing: the block list and the height index in each case, and in the first two the ledger stays mirrored |
| Blocks.MirrorsNewRecord | txstore/tx.go:360-390 | Appending a record keeps the two block indexes in step with the records by key |
| Blocks.MirrorsCut | txstore/tx.go:802-808 | Cutting the block list leaves exactly the records and amounts below the cut |
| Detaching.DetachedKeys | txstore/tx.go:803-808 | The blocks from the first at or above the height on hold exactly the transactions to detach, each once |
| Splice.Insert | txstore/tx.go:332-384 | The insertion of a block, or of a transaction in its block, below the last one on the shared backing array: what the list and its index become |
| Splice.InsertKeepsIff | txstore/tx.go:332-384 | Inserting at a new place keeps all other elements findable if and only if the place is above the last one's; otherwise the next higher element is overwritten |
| Splice.InsertBlockKeepsIff | txstore/tx.go:332-343 | A block of a new height keeps all other blocks findable if and only if it is above them all |
| Splice.InsertRecordKeepsIff | txstore/tx.go:369-384 | A transaction new to its block keeps the block's other transactions findable if and only if its index is above the last one's |
| StoreRoundTrip.StoreReadsBack | txstore/serialization.go:61-188 | Reading what was written for a linked store, followed by any bytes, gives its blocks, both block indexes and the pool back exactly, unconfirmed indexes aside, with `unspent` rebuilt as the exact scan, and leaves those bytes |
| StoreRoundTrip.PoolReadsBack | txstore/serialization.go:865-1130 | The unconfirmed maps read back from any order they were written in, `previousOutpoints` rebuilt from the inputs |
| StoreRoundTrip.UnspentRebuilt | txstore/serialization.go:110-128 | Scanning the credits of the blocks read gives exactly the unspent mined credits: the `unspent` map that was not written if and only if that was complete, so reading repairs what a conflict removal loses |
| StoreRoundTrip.PoolUnchangedIff | txstore/serialization.go:391-399 | The pool reads back unchanged if and only if it is empty: an unconfirmed index of -1 reads back as 2^32-1 |
| StoreCodec.BlockReadsBack | txstore/serialization.go:194-343 | A block reads back with its records, amounts, time and index from block positions, leaving what follows |
| StoreCodec.HeightsRebuilt | txstore/serialization.go:107-108 | The height index rebuilt while reading is the one the store had |
| StoreCodec.IndexesRebuilt | txstore/serialization.go:194-278 | The index from block positions is rebuilt from the records |
| Codec.RecordReadsBack | txstore/serialization.go:379-733 | A transaction record reads back up to the index of an unconfirmed one |
| Codec.CreditReadsBack | txstore/serialization.go:484-570 | A missing, spent or unspent credit reads back, flags and spender key included |
| Codec.DebitsReadBack | txstore/serialization.go:409-470 | Debits read back, amount and list of spends |
| Codec.TxKeyReadsBack | txstore/serialization.go:814-862 | A transaction key reads back, height -1 included |
| Codec.OutputKeyReadsBack | txstore/serialization.go:765-812 | An output key reads back |
| Codec.AllReadBack | txstore/serialization.go:95-129 | If every element reads back and leaves what follows, so does a counted list of them |
| ByteCodes.Int32RoundTrip | txstore/serialization.go:842-862 | A signed 32-bit height reads back from its four bytes; `Layout.ByteAt` says which bytes they are |
| ByteCodes.Int64RoundTrip | txstore/serialization.go:281-343 | A signed 64-bit amount or time reads back from its eight bytes; `Layout.ByteAt` says which bytes they are |
| Layout.ByteAt | txstore/serialization.go:56-57 | Byte i of a number written in n bytes is its digit of weight 256 to the i, lowest first, in two's complement for a negative one |
| Layout.DigitsOf | txstore/serialization.go:56-57 | Any bytes are those of the number read from them, so no other bytes are read as it |
| Layout.KeyLies | txstore/serialization.go:842-862 | A transaction key is its block index in four bytes, then its height in four |
| Layout.OutputKeyLies | txstore/serialization.go:791-812 | An output key is the transaction key and then, from byte 8, the output index in four |
| Layout.CreditLies | txstore/serialization.go:656-718 | A missing credit is one zero byte; any other is a one, the change flag, a zero, and whether it is spent, with the spender's key from byte 4 |
| Layout.DebitsLie | txstore/serialization.go:612-655 | No debits are one zero byte; others are a one, the amount in bytes 1 to 8, the count in bytes 9 to 12, and the keys spent, twelve bytes each |
| Layout.RecordLies | txstore/serialization.go:591-733 | A record is its index in four bytes, the transaction, the debits, the counted credits and, in the last eight bytes, the time |
| Layout.HeaderLies | txstore/serialization.go:281-320 | A block starts with its hash in bytes 0 to 31, its time from byte 32, height from 40, spendable amount from 44 and reward from 52 |
| Layout.SpentOutLies | txstore/serialization.go:1058-1091 | A spent mined output is its outpoint in 36 bytes, its transaction's key from byte 36 and the spender's hash from byte 44 |
| Layout.SpentInLies | txstore/serialization.go:1102-1121 | A spent unconfirmed output is its outpoint in 36 bytes and the spender's hash |
| Layout.StoreLies | txstore/serialization.go:146-188 | A file is the version 4 and the number of blocks in four bytes each, the blocks one after the other, and the pool's three counted lists |
| Layout.VersionRead | txstore/serialization.go:67-76 | A file is refused as too old exactly when the number in its first four bytes is below 4; any other number there changes nothing |
| Layout.KeyRead | txstore/serialization.go:814-838 | A key is read from any eight bytes, and is the one that lies there; fewer are too short |
| Layout.CreditRead | txstore/serialization.go:484-568 | A credit is read from any bytes that hold one, whatever the unused byte is, and from no others; which error is given when |
| Layout.DebitsRead | txstore/serialization.go:409-470 | Debits are read from any bytes that hold some, and from no others; which error is given when |
| Layout.HeaderRead | txstore/serialization.go:194-243 | The five fields of a block's start are read from any 60 bytes, and are those that lie there |
| Layout.SpentOutRead | txstore/serialization.go:903-955 | A spent mined output is read from any 76 bytes whose spender is among the transactions read before; which error is given otherwise |
| Layout.SpentInRead | txstore/serialization.go:968-1000 | The same for a spent unconfirmed output and any 68 bytes |
| StoreIO.ReadStore | txstore/serialization.go:61-143 | The reader that consumes the stream piece by piece returns what the decoding function returns, errors included, and counts exactly the bytes consumed; the `Read` lemmas of `Layout` say what is read from which bytes |
| StoreIO.WriteStore | txstore/serialization.go:146-188 | The writer fails exactly when the two pool maps disagree, otherwise writes exactly the encoding and counts its bytes; of a linked store whose numbers fit, every field then lies at its place behind what was written before |
| StoreIO.LinkedMapsMatch | txstore/serialization.go:1044-1090 | On a linked store the two pool maps agree, so writing never fails |
| StoreIO.SaveAndLoad | txstore/serialization.go:61-188 | Writing a linked store and reading it back returns its fields, with `unspent` complete and the same if and only if it was, and leaves the trailing bytes |
| StoreIO.ReadBlock | txstore/serialization.go:194-278 | Reading a block into fields and indexes, with its counted loop |
| StoreIO.ReadRecord | txstore/serialization.go:379-588 | Reading a record, with its counted loops over debits and credits |
| StoreIO.ReadPool | txstore/serialization.go:865-1021 | Reading the unconfirmed store, looking each spender up among the records read, and rebuilding `previousOutpoints` |
| KeyChain.ChainsMatch | keystore/keystore.go:184-256 | The public key of the next private key is the next public key, the multiplier being the hash of the key with the chain code xored in |
| KeyChain.ChainsMatchAt | keystore/keystore.go:184-256 | The same for every number of steps from the root; `KeyChain.ChainProduct` says what the keys are |
| KeyChain.ChainProduct | keystore/keystore.go:184-256 | The nth public key is that of the root key times the product, over the n keys before it, of each key's hash xored with the chain code, reduced by the order |
| KeyChain.StoredKeys | keystore/keystore.go:1107-1118 | In any store of a chain the public key found at each index is that of the root key times the product over the keys found at the indexes before, and the map key is its address |
| KeyChain.OwnMultiplier | keystore/keystore.go:200-204 | Different chain codes multiply a key by different numbers |
| KeyChain.XorTwice | keystore/keystore.go:200-204 | Xoring with a number twice changes nothing |
| KeyChain.AddKeepsChainIff | keystore/keystore.go:1107-1118 | Adding the next chain address keeps the chain and its index map if and only if its address is none of the earlier ones: a collision takes the earlier address out of the map |
| KeyStores.KeyStore.NewStore | keystore/keystore.go:574-662 | A new store is valid and locked, holds the first addresses of its chain and no others, none marked as change, if these do not collide, and has handed out none; creating it fails exactly when one of the public keys does not parse |
| KeyStores.KeyStore.Unlock | keystore/keystore.go:882-900 | Succeeds exactly with the passphrase of the current secret, unless another one happens to decrypt the root key; then every chained address has its private key and none is missing, and every address is kept with its encrypted key and change flag; on failure nothing changed |
| KeyStores.KeyStore.CreateMissingPrivateKeys | keystore/keystore.go:1165-1227 | The loop ends at the chain end with each missing private key matching the stored public key, encrypted under the current secret |
| KeyStores.KeyStore.ExtendKeypool | keystore/keystore.go:1068-1122 | Extends an unlocked chain by exactly the next public keys that parse, at most n, with their private keys, and fails exactly when one of the n does not parse |
| KeyStores.KeyStore.ExtendLockedWallet | keystore/keystore.go:1129-1163 | Extends a locked or watching chain by one public key; the addresses without a private key stay a suffix of the chain |
| KeyStores.KeyStore.NextAddr | keystore/keystore.go:1021-1058 | Hands out the address found at the next chain index, whose key `KeyChain.StoredKeys` gives, exactly when there is one left or the chain can be extended, and says where the chain ends afterwards; nothing is used up by a failure, and every address in the store is kept with its key material and change flag, unless it turns out to be the chain's next |
| KeyStores.KeyStore.ChangeAddress | keystore/keystore.go:1009-1019 | Hands out the next chain address, under the same condition, and marks it, and only it, as change |
| KeyStores.KeyStore.Lock | keystore/keystore.go:904-934 | Leaves no secret, passphrase or clear-text key in the store, and every address otherwise as it was |
| KeyStores.KeyStore.ChangePassphrase | keystore/keystore.go:945-978 | Fails exactly when some key cannot be decrypted under the current secret, which on a valid unlocked store never happens; then every key is encrypted anew under the new secret and decrypts to what it did |
| KeyStores.KeyStore.ChangeAllKeys | keystore/keystore.go:955-967 | The loop over all addresses succeeds exactly when every key can be decrypted, and then has encrypted every one anew |
| KeyStores.KeyStore.UnlockAddr | keystore/keystore.go:2366-2399 | Decrypts and keeps a private key exactly when it matches the public key, or the clear-text key held |
| KeyStores.KeyStore.ChangeEncryptionKey | keystore/keystore.go:2404-2431 | Re-encrypts one key, or fails and changes nothing |
| KeyStores.KeyStore.ImportPrivateKey | keystore/keystore.go:1355-1401 | Imports a key exactly when the store is unlocked, not watching and does not have it; it decrypts to the key given, is not marked as change, and no other address changes |
| KeyStores.KeyStore.ImportScript | keystore/keystore.go:1404-1434 | Imports a script exactly when the store is not watching and does not have it |
| KeyStores.KeyStore.ExportWatchingWallet | keystore/keystore.go:1448-1514 | A watching copy is a valid store of the same chain, index map and position, with every address's public key, index, chain code and change flag, every script, and no private keys |
| KeyStores.LockedExtensionIff | keystore/keystore.go:1158-1162 | Extending a locked store records the first missing key rightly if and only if the chain has an address besides the root: index 0 reads as "none missing" |
| KeyStores.FillKeeps | keystore/keystore.go:1191-1223 | Giving one more address its private key shortens the missing suffix by one |
| KeyStores.RekeyKeeps | keystore/keystore.go:945-978 | A store all of whose keys were re-encrypted is valid under the new secret |
| KeyStores.AllCanRekey | keystore/keystore.go:2404-2431 | On a valid unlocked store every key can be re-encrypted, so a passphrase change never stops halfway |
| KeyStores.LockKeeps | keystore/keystore.go:904-934 | Locking keeps chain and encrypted keys, and nothing is in the clear |
| KeyStores.WatchingKeeps | keystore/keystore.go:2551-2575 | Copying without private keys keeps the chain and its index map |
| KeySessions.Session | keystore/keystore.go:997-1058 | Over every interleaving of locking, unlocking, passphrase changes, imports and requests with any keypool sizes, each request is answered as a small machine of position, chain end and lock says, and the addresses handed out are the next stretch of the chain of root key and chain code, none of them twice; no address is lost on the way, and every key imported while the store was unlocked is in it |
| KeySessions.Perform | keystore/keystore.go:997-1058 | One request: its answer and the new position, chain end and lock; no address is lost, an address for change is marked so, and an importable key is in the store afterwards |
| KeySessions.AnsweredIff | keystore/keystore.go:1021-1058 | A request for an address is answered exactly when, after the requests before it, an address is left or the chain can be extended |
| KeySessions.AnswersInOrder | keystore/keystore.go:1021-1058 | The nth address answered is the nth of the chain, whatever else was asked |
| KeySessions.AllAnswered | keystore/keystore.go:1021-1058 | When public keys parse and keypools are not empty, every request for an address is answered, locked or not |
| KeySessions.NewSession | keystore/keystore.go:574-662 | The nth address a new store ever hands out is that of the root key times a product over the chain's earlier keys and the chain code, whatever else it is asked; which requests are answered is determined as well |
| KeySessions.WatchingAgrees | keystore/keystore.go:1448-1514 | A store and its watching copy hand out the same sequence: whichever was asked less gives a prefix of the other |
| KeySessions.StretchDistinct | keystore/keystore.go:1021-1058 | No stretch of a chain without collisions has an address twice |
| ToyKeys.UnlockedStore | keystore/keystore.go:574-662 | The laws asked of curve, hashes and cipher hold together: over a group of seven points a store is created and unlocked, with room for more addresses |
| ToyKeys.TwoAddresses | keystore/keystore.go:882-1058 | Such a store answers a concrete session: an address, a wrong passphrase, the right one, and the next address, added on request; with the same root key and another chain code the first address is another |
| ToyKeys.OtherChain | keystore/keystore.go:184-256 | The six keys of the second chain code, in an order of their own |
| ToyKeys.SevenRepeats | keystore/keystore.go:184-256 | The seventh key of the first is the third again: addresses that do not collide are a condition, not a law |
| KeyFile.WriteThenRead | keystore/keystore.go:679-874 | For a store with private keys and for a watching one, reading the entries written recovers the address map up to clear-text keys, the index map, the chain end, the first missing key and the set of imported addresses |
| KeyFile.SortEntries | keystore/keystore.go:793-822 | Every slot of the chained addresses is filled, with no index out of range, and every imported address follows |
| KeyFile.ReadEntries | keystore/keystore.go:740-770 | The loop over entries computes what reading them one after the other yields |
| KeyFile.AddrsBack | keystore/keystore.go:742-769 | The address map recovered has every address as it was, locked |
| KeyFile.IndexBack | keystore/keystore.go:748-751 | The chain index map recovered covers exactly -1 to the chain end, as before |
| KeyFile.LastBackIff | keystore/keystore.go:749-751 | The chain end is recovered if and only if the chain has an address besides the root: an empty pool reads back with its end at 0 |
| KeyFile.StartBack | keystore/keystore.go:756-763 | The first missing key is recovered as the smallest index of an entry that waits for its private key |
| KeyFile.ImportedBack | keystore/keystore.go:745-769 | The set of imported addresses is recovered |
| RecentWindow.RecentBlocks.SetSyncedWith | keystore/keystore.go:1268-1308 | Outside the set-back branch the window holds the last min(20, n) of the n blocks accepted consecutively; inside it, the count and height it is cut to |
| RecentWindow.WalkBack | keystore/keystore.go:1887-1920 | Walking back from a new iterator yields exactly the last of the blocks accepted consecutively, at most 20, newest first, with their heights |
| RecentWindow.StampsNext | keystore/keystore.go:1296-1307 | Dropping the oldest hash or not, the window after one more block stands for the newest blocks |
| RecentWindow.SetBackIff | keystore/keystore.go:1279-1288 | Setting back drops the matched hash itself, so every stamp left is wrong by one: the window is right if and only if nothing is left |
| Rescans.RescanBatch.Merge | rescan.go:145-155 | The batch's addresses, outpoints and height after merging any job |
| Rescans.WithJobCovers | rescan.go:145-155 | A batch with a job merged in covers the job and all it covered before; an empty one becomes the job |
| Rescans.WithJobIs | rescan.go:145-155 | It holds nothing else: per account the addresses of both in order, the outpoints of both, and the smaller height of the two |
| Rescans.MergedIs | rescan.go:145-155 | Jobs merged one after the other make a batch with exactly their addresses, account by account and in order, exactly their outpoints, and the lowest of their heights |
| Rescans.RescanManager.AddJob | rescan.go:166-188 | A job starts a rescan exactly when the running batch is empty, and is otherwise put off; its channel is told; every promise is kept if and only if the job names an account or jobs wait already, since a started job without accounts leaves its batch empty and the next job starts a second rescan |
| Rescans.RescanManager.Finished | rescan.go:200-217 | Closes one channel, never closed before, and starts the waiting batch exactly when there is one |
| Rescans.Run | rescan.go:159-233 | Over every order of submissions and finishes each submitted job has a ticket on the channel its caller got, at most one rescan runs at a time, rescans finish exactly when a finish comes while one runs, nothing closed or started is undone, and each ticket is served or waits in a batch that covers it |
| Rescans.Drain | rescan.go:159-233 | After at most two more finishes every job submitted has had its channel closed, once, after a rescan with its addresses and outpoints from its start height or below |
| Rescans.RunAndDrain | rescan.go:159-233 | After any such run and at most two more finishes, each job submitted has had its channel closed after a rescan with its addresses and outpoints from its start height or below, no later than the second finish after it was submitted; each rescan does exactly the merged work of the jobs on its channel |
| Rescans.TicketMoves | rescan.go:207-217 | A finish serves the running batch's jobs and moves the waiting ones up |
| Rescans.TicketStays | rescan.go:166-188 | A merge takes no job out of the batch that covers it |
| CoinSelection.SelectInputs | createtx.go:87-113 | Takes the shortest prefix that covers amount and fee, or reports all that is available when nothing does |
| CoinSelection.SelectFewest | createtx.go:81-113 | On descending amounts it fails exactly when the total is too small, and otherwise no choice of fewer outputs covers amount and fee |
| CoinSelection.FirstAreBest | createtx.go:203-205 | On descending amounts no k outputs are worth more than the first k |
| FeeSearch.FindFee | createtx.go:214-303 | The fee loop ends; what it finds spends exactly amount, change and fee, with change not negative, the outputs a permutation of the requested ones and the change, and no fewer eligible outputs would do. The fee covers what the size, the outputs and the permission to go free ask for; the first try is made without a fee and each later one with just the fee that the one before turned out to need |
| FeeSearch.TxToPairs | createtx.go:117-303 | Fails on a non-positive amount exactly when there is one; otherwise inputs equal outputs plus a fee that covers the transaction, every requested output is paid, or what is available falls short |
| FeeSearch.SwapLast | createtx.go:247-251 | Putting the change at a random place keeps the outputs as a multiset and their total |
| FeeSearch.LeastFeeRange | createtx.go:343-364 | With an increment up to the money limit the minimum fee lies between 0 and that limit, even when the product wraps around: a product that comes out negative asks for the increment if an output is tiny and for the limit otherwise |
| FeeSearch.LeastFeeIs | createtx.go:338-364 | Without a wrap-around a transaction of 1000 bytes or more needs one increment for each thousand bytes begun, up to the money limit, free or not; a smaller one needs nothing if it may be free and has no output under a hundredth of a coin, and otherwise one increment |
| FeeSearch.UpdateTotal | createtx.go:247-251 | Replacing one output changes the total by the difference |
| DiskSyncs.Run | disksync.go:244-315 | Over every run of events with batches that cover every account scheduled before: what was asked for is what the events say; a non-empty schedule has a flush on its way unless the flush of some event failed and nothing was scheduled since; without a failing write that never happens; and quitting, if its flush succeeds, leaves every file ever scheduled on disk at least as new as when last scheduled |
| DiskSyncs.Handle | disksync.go:256-312 | Each event keeps that nothing is lost and records exactly what it schedules; unless a write fails, flushing an account takes its files off the schedule and a batch leaves none on it; only a failing flush leaves a non-empty schedule without a live timer or an armed semaphore wait, and scheduling anything repairs that |
| DiskSyncs.DiskSyncer.SemaphoreTaken | disksync.go:258-270 | After a flush the schedule still waits if and only if nothing is left in it, because the timer is dropped even when files failed |
| DiskSyncs.DiskSyncer.WriteBatch | disksync.go:291-299 | A batch write leaves the given accounts' files, as in memory, and no others; nothing is lost if and only if the batch covered every account ever scheduled, because the whole schedule is discarded |
| DiskSyncs.DiskSyncer.Flush | disksync.go:155-171 | Succeeds exactly when it empties the schedule, and every file it took out was written as it is in memory |
| DiskSyncs.DiskSyncer.FlushAccount | disksync.go:136-153 | Takes exactly that account's files out of the schedule, written |
| DiskSyncs.DiskSyncer.Quit | disksync.go:306-311 | A last flush that succeeds leaves nothing unwritten |

## Left out

What the model takes for granted or does not follow:

- References between records: the pool's maps lead to hashes, not to shared
  records, so a record changed through an old reference is not followed.
- Handles kept across calls: a credit or transaction handle must be current when
  it is used; what a stale one does is not modelled.
- The state after an error of the transaction store, where the code stops
  halfway through its updates; only that it fails, and when, is stated.
- Overflow of amounts and heights in the transaction store, and the narrowing of
  `minConf` to 32 bits: integers are unbounded there. The fee arithmetic and the
  file format do model their widths.
- An empty and a missing list of spends are one value; so are an empty and a
  missing list of hashes in the recent-block window.
- The log line of `Rollback` that indexes the first transaction of a block: a
  block without transactions would end the program there.
- Looking up previous credits and unspent outputs concurrently: plain loops.
- The order in which maps are walked: any order, fixed when it matters.
- Transactions' wire form, script parsing and signing: an encoding that reads
  itself back and leaves what follows is a parameter.
- Curve, cipher and key derivation: parameters with stated laws (the multiples
  of the base point form a cyclic group, multiplication follows the scalars,
  decryption undoes encryption), which `ToyKeys` shows to hold together. Random
  initialisation vectors always arrive; compressed and uncompressed keys are
  not told apart; the consistency check of a key pair always passes.
- Colliding hashes and keys: the addresses a session can reach must differ, and
  no text may decrypt to the root's private key under two of the keys the
  session uses. `KeyChain.AddKeepsChainIff` says what an address collision does;
  a passphrase that decrypts the root by accident would be accepted.
- The key file below the level of its entries: header, checksums, comments, sync
  flags and the bytes of an entry.
- End of input before the first byte and in the middle of a value are one error.
- Times are whole seconds.
- Rescan progress messages, `RescanJob.Merge`, the network side of a rescan, and
  the channels themselves: a channel is a number, and submitting a job is one
  step.
- The directory swap of a batch write and crashes in it; exports of an account.
- Which outputs are eligible for a payment, sorting them, change addresses that
  cannot be had, and script checks of the finished transaction: sizes and
  free-of-fee answers of each try are arbitrary.
- JSON, RPC, configuration, accounts and the network client.

Contracts that say less than one might expect:

- Stores.Store.InsertTx: blocks must arrive in order of height and new transactions in order of index; what an insertion in the middle does to the lists is modelled apart, in `Splice` and `Stores.Store.BlockCollectionForInserts`, since it overwrites an element.
- Stores.Store.MoveMinedTx: the block must be known or the highest, for the same reason.
- Stores.Store.Balance: needs a linked ledger, on which its lookups never fail; their error returns are not followed.
- Runs.BalanceOverRuns: needs spent coinbases to be mature at the height asked about; `BalanceProof.BalanceDifference` says what the difference is otherwise.
- StoreRuns.Serve: excludes insertions in the middle of the chain or of a block, as `Stores.Store.InsertTx` does.
- MoveProof.MoveKeepsLinksIff: an unconfirmed transaction is never moved to index 0 of a block, the place of a coinbase.
- KeyFile.WriteThenRead: needs an address besides the root, as `KeyFile.LastBackIff` shows.
- KeySessions.Session: needs an address besides the root when it starts, as a keypool of one or more at creation gives, and no collision among the addresses it may come to and the keys it uses.
- KeyStores.KeyStore.ChangeAllKeys: does not say which keys were changed when it stops halfway, as the order of the map decides.
- StoreRoundTrip.StoreReadsBack: hashes, indexes, counts and amounts must fit their fields, and unconfirmed indexes are left aside, since -1 does not come back.
- FeeSearch.TxToPairs: optimal only if the eligible amounts come sorted, as the caller sorts them.
- RecentWindow.RecentBlocks.SetSyncedWith: after the set-back branch the window is no longer valid, and `RecentWindow.SetBackIff` says when it is right.
- DiskSyncs.Run: assumes batches that cover every scheduled account; `DiskSyncs.DiskSyncer.WriteBatch` shows that this is needed.
- Rescans.RescanManager.AddJob: jobs have a start height of 0 or more, as -1 stands for a batch without a height.
- Rescans.Run: jobs name at least one account; `Rescans.RescanManager.AddJob` says what happens without one.
