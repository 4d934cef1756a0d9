# GigaWallet: what its services keep, proved in Dafny

GigaWallet follows the Dogecoin block chain through a Core node, keeps the outputs of its accounts in a SQL store,
marks invoices as paid, tells listeners about it, and pays out. This project models the services that do that and
proves what holds over all their runs. `dafny verify dfyconfig.toml` checks all of it.

The model, bottom up:

- `BlockTree`: Core's blocks as a tree whose active tip may change between any two requests; consensus validity.
- `Ledger`, `Tables`: the tables as values, and what each statement makes of them.
- `Confluence`, `Lost`, `Runs`, `Examples`: the four heights of an output depend only on the chain to the best block; when
  exactly that is so, and what is left when it is not; batching; whole runs of batches, rollbacks and payments.
- `Guarantees`, `Feed`, `Growth`, `Wallet`, `Backing`, `Chainstate`, `Service`, `Recorded`, `Witnesses`, `Repeats`: heights
  bounded by the tip, paid invoices backed, the change feed, tables that grow, the match with the chain, what exactly is
  recorded of it; all of it over every interleaving of follower, BalanceKeeper, payments and the calls that create accounts and invoices.
- `Balances`, `Announced`: how each statement moves balances and amounts, and which events are sent when.
- `Store`, `Others`, `Follower`, `Keeper`: the services themselves, as classes whose methods loop over rows, pages and blocks,
  each proved against the functions above. A store transaction commits whole or leaves no trace.
- `Fees`, `FeeRounds`, `Sizes`, `Spend`, `Payable`, `Payments`, `Reservations`, `AddressPool`, `Calls`, `Creations`:
  building a transaction, which requests are refused although they could be paid, sending, reserving outputs, address pools
  under stale account copies. Amounts are in koinu.
- `Codec`, `RoundTrip`, `Layout`, `Decoder`, `Fallback`, `Scripts`: the block format, its decoder and the script templates.
- `Signals`: the dirty-flag channel between TipChaser and the follower.

Where code and documentation disagree, the model follows the code:

- `MarkPaymentsOnChain` runs its statement with list indices, not transaction ids (pkg/store/sqlite.go:884), so it
  does not do what doc/how-it-works.md:68-73 says; `Tables.MarkOnChainNeverMarks` states the difference.
- A commit holds up to eleven blocks, not ten (pkg/chaintracker/chainfollower.go:291).
- Reverting an output's spendable height also clears a spending height at or below the target
  (pkg/store/sqlite.go:1023), so a rollback is not always exact; `Runs.ConfluenceIff` says when it is.
- The transaction id is the hash of all bytes, the witness included (pkg/doge/block.go:197-200), unlike BIP 144.
- `CreateTxn` takes the account by value (pkg/txn.go:28), so the advance of the change key never reaches the store.
- `sumPayTo` floors amounts in its own loop variable only (pkg/txn.go:124); the outputs carry the amounts as given.

Where a promise fails, a lemma names the input and another the exact condition: `Runs.EarlySpendBreaksRollback` with
`Runs.ConfluenceIff` and `Chainstate.MoveMatchesIff`, `Payable.DustHides` and `Payable.FractionHides` with `Payable.HidesIff`,
`Payable.GivingUpHidesTxn` with `Payable.GivingUpIff`, `Reservations.OverlapReservesTwice` with `Reservations.ReservedTwiceIff`,
`Witnesses.LateAccount` with `Wallet.CreateAccountIff`, `Witnesses.InvoiceNotTold` with `Wallet.InvoiceAmountsIff`,
`Witnesses.InvoiceConfirmedOtherwise` with `Wallet.CreateInvoiceIff`, and `Repeats.RepeatUnbacks` with `Backing.MovePaid`.

Assumptions of the whole-service runs: every chain in the tree is valid (no
transaction twice, inputs spend earlier outputs of the same chain, none twice); blocks decode. Termination of the walk
assumes that Core keeps one tip from some request on and that the store commits again and again. The other services commit
whatever they like before each transaction of a walk; a parameter stands for it. A statement that fails
inside a transaction counts as a failed commit; shutdowns and restarts fall between commits, where every invariant holds.
In `Runs` the address and invoice tables are fixed; `Growth` says when they may grow.
The heights claims are about rows the follower created: change rows are inserted by payments with an added height of 0.
A paid height of 0 reads as unpaid in BalanceKeeper; the invariant includes that no invoice is paid at height 0.

## Model

| member | source | states |
|---|---|---|
| `Runs.ReorgConfluence` | pkg/store/sqlite.go:1012-1034 | Two runs of batches and reorg rollbacks that end at the same best block give every follower-created output the same four heights, whatever forks led there |
| `Runs.RunExact` | pkg/chaintracker/chainfollower.go:272-331 | Over every run the added and spendable heights are those read off the chain to the best block; all four are, when no output is spent before it is spendable |
| `Runs.ConfluenceIff` | pkg/store/sqlite.go:1023 | Wherever following starts, all heights are exact after every run if and only if no chain spends an output before the store makes it spendable |
| `Runs.ConfluenceAboveIff` | pkg/store/sqlite.go:1023 | After every run that never goes below the block it starts at they are exact if and only if no chain above that block does so |
| `Runs.RunSound` | pkg/store/sqlite.go:1021-1024 | On every valid tree, over every run, early spends or not: the spending and spent heights of an output are those of the chain to the best block, or both are lost while the spend is on that chain; none is ever wrong |
| `Runs.EarlySpendBreaksRollback` | pkg/store/sqlite.go:1023 | Any chain with such an early spend above any start block yields a concrete run, follow then roll back, that forgets a spend still on the chain |
| `Examples.SpentTooEarly` | pkg/store/sqlite.go:905-928 | A concrete valid chain of four blocks spends an output before it is spendable |
| `Examples.RollbackForgetsSpend` | pkg/store/sqlite.go:1022-1023 | On that chain a rollback of one block leaves heights that no fork-free run would have |
| `Runs.BatchingIndependence` | pkg/store.go:156-160 | Confirming once per batch gives every output the four heights of confirming after every block, from every state that runs can reach, those that have lost a spend included |
| `Confluence.ForwardExact` | pkg/chaintracker/chainfollower.go:358-449 | A batch of any length moves exact heights to the exact heights of the longer chain |
| `Confluence.ConfirmExact` | pkg/store/sqlite.go:905-928 | One confirmation pass completes every confirmation that fell due since the last one, and no other |
| `Confluence.RollbackExact` | pkg/store/sqlite.go:1012-1034 | A rollback to an ancestor restores the added and spendable heights of the shorter chain, on every valid tree |
| `Confluence.RollbackAllExactIff` | pkg/store/sqlite.go:1022-1024 | It restores all four exactly when no row was spent at or below the target while becoming spendable above it |
| `Confluence.GhostRowUnspent` | pkg/store/sqlite.go:1022 | A row left behind by an abandoned fork is not touched again by the chain that replaced it |
| `Lost.ForwardRow` | pkg/chaintracker/chainfollower.go:358-449 | A batch notes every spend it holds whatever was lost before, and what was lost stays lost |
| `Lost.RollbackSound` | pkg/store/sqlite.go:1021-1034 | A rollback to an ancestor restores every spend or loses it and leaves no wrong one |
| `Ledger.BlockEffect` | pkg/chaintracker/chainfollower.go:587-625 | Seen from one output, a block sets at most its two on-chain stages, in an order that survives spends inside the block, and never its reservation |
| `Recorded.ChangesListed` | pkg/chaintracker/chainfollower.go:587-625 | A change is among those of a block if and only if it is an output with that positive value and that address of a transaction of the block, or an input of one whose output number is not 0xffffffff |
| `BlockTree.HeaderNext` | pkg/chaintracker/chainfollower.go:703-713 | The next-block link Core reports leads to a child on its chain, and only the tip has none |
| `BlockTree.SpendImpliesKnown` | pkg/chaintracker/chainfollower.go:592-604 | On a valid chain a spent output was created no later than it is spent |
| `Guarantees.RollbackBounded` | pkg/store/sqlite.go:1012-1055 | A rollback bounds every output, invoice and payment height by its target, whatever the tables held |
| `Guarantees.RollbackKeepsBelow` | pkg/store/sqlite.go:1012-1055 | And keeps what is at or below it: heights of outputs as long as none before them goes, paid invoices and payments with all that is noted of them |
| `Guarantees.ForwardBounded` | pkg/chaintracker/chainfollower.go:358-449 | A batch that moves the best block up keeps all heights at or below it |
| `Guarantees.ForwardBackedIff` | pkg/store/sqlite.go:960-973 | After a forward batch over backed invoices one is paid if and only if its confirmed sum reaches its total, and the paid ones are backed by outputs confirmed at or below their paid height if and only if the old ones are without the outputs whose transactions the batch repeats; the tables need not hold all that the chain pays |
| `Guarantees.AnchoredLasts` | pkg/chaintracker/chainfollower.go:272-331 | While every row is where the chain to the best block has its transaction, a batch repeats nothing that an invoice needs |
| `Guarantees.RollbackPaidIff` | pkg/store/sqlite.go:960-973 | After a rollback an invoice is still paid if and only if it is covered, exactly when no invoice loses a paid height whose backing was confirmed by the target |
| `Guarantees.RollbackBacked` | pkg/store/sqlite.go:1036-1041 | After a rollback every invoice that is still paid is still backed |
| `Tables.MarkOnChainNeverMarks` | pkg/store/sqlite.go:879-891 | The statement runs with list indices, so with 64-character ids it changes nothing, and agrees with the documented effect exactly when there is nothing to mark |
| `Feed.IncSeqOk` | pkg/store/sqlite.go:1057-1072 | Sequence numbers stay distinct and below next_seq, and every account of a commit ends up after the cursor |
| `Feed.VisitsEachOnce` | pkg/services/balancekeeper.go:153-161 | Paging by key index visits each invoice of an account exactly once |
| `Feed.VisitNeedsDistinctKeys` | pkg/store/sqlite.go:445-475 | Of two invoices with one key index one would never be visited |
| `Feed.KeeperKeeps` | pkg/services/balancekeeper.go:75-105 | A committed batch skips no account and leaves everything at or below the cursor told: stored balances, all heights of its outputs and payments, paid states |
| `Feed.KeeperTellsAmounts` | pkg/services/balancekeeper.go:195-243 | And the remembered amounts of its invoices are those of their addresses |
| `Feed.KeeperLog` | pkg/services/balancekeeper.go:245-293 | Confirmed and unconfirmed events of each invoice keep alternating, starting with confirmed |
| `Feed.CaughtUp` | pkg/services/balancekeeper.go:245-293 | Once the cursor has reached an account, the last such event of an invoice is confirmed if and only if the invoice is paid |
| `Feed.StoredBalances` | pkg/store/sqlite.go:322-334 | Of an account the cursor has reached the stored incoming balance is the calculated one, and without a payment since it was processed so are the current and the outgoing one |
| `Feed.KeeperCatchesUp` | pkg/services/balancekeeper.go:75-105 | A keeper batch takes exactly one account off those above the cursor |
| `Growth.AddAddressesIff` | pkg/account.go:39-77 | Adding addresses keeps the table equal to what the chain says if and only if none of them was paid before on the chain to the best block |
| `Growth.AddInvoiceIff` | pkg/store/sqlite.go:905-915 | An invoice with its own number of confirmations keeps it equal if and only if outputs already at its address are as confirmed as it asks for; with the configured number they are |
| `Wallet.StartGood` | pkg/chaintracker/chainfollower.go:180-206 | The rows match the chain in all four heights, and all invariants hold, when following starts at any block, over an empty database or one with accounts and invoices to which nothing has happened |
| `Wallet.FollowerMissesNothing` | pkg/store/sqlite.go:1057-1072 | A follower commit that reports the accounts of all changed rows leaves everything an unreported account was told true |
| `Wallet.ForwardKeeps` | pkg/chaintracker/chainfollower.go:358-449 | A committed batch keeps the invariant: rows with the added and spendable heights of the chain to the best block, bounds, feed, events |
| `Wallet.ForwardStateOk` | pkg/chaintracker/chainfollower.go:272-331 | After a resync to another branch, too, a batch keeps the bounds, the rows, the feed and the events |
| `Wallet.RolledKeeps` | pkg/chaintracker/chainfollower.go:472-506 | A committed rollback to an ancestor keeps that invariant |
| `Wallet.RolledStateOk` | pkg/chaintracker/chainfollower.go:222-239 | A resync to any block on any branch keeps everything but the match with the chain: no height above the best block, rows, feed, events, told amounts |
| `Wallet.KeeperKeepsAll` | pkg/services/balancekeeper.go:75-105 | A committed keeper batch keeps that invariant |
| `Wallet.PaymentKeeps` | pkg/api.go:296-348 | Recording a payment, reserving outputs, inserting change and noting the transaction id keep the invariant and touch no invoice, account, address, cursor or event, and no height of any row there is |
| `Wallet.CreateAccountIff` | pkg/api.go:126-188 | Creating an account keeps the invariant if and only if none of its addresses was paid before |
| `Wallet.CreateInvoiceIff` | pkg/api.go:28-86 | Creating an invoice keeps the invariant if and only if the addresses that join the pool were not paid before and nothing at its own address is confirmed otherwise than it asks for |
| `Wallet.InvoiceMissesNothing` | pkg/api.go:28-86 | Creating an invoice makes nothing untrue that an account was told of the chain, whatever has arrived at its address |
| `Wallet.InvoiceAmountsIff` | pkg/api.go:28-86 | The remembered amounts stay told over it if and only if what has arrived at its address is still to be told |
| `Witnesses.LateAccount` | pkg/api.go:126-188 | A run from an empty database to a good state in which an account is created too late: its pool holds an address paid before, and the match with the chain is lost |
| `Witnesses.InvoiceNotTold` | pkg/api.go:28-86 | A run to a good state in which an invoice is created at an address whose receipt was told before: the invoice is not told of it |
| `Witnesses.InvoiceConfirmedOtherwise` | pkg/store/sqlite.go:905-915 | And one in which a new invoice asks for fewer confirmations than configured and finds an output there that should be spendable and is not |
| `Wallet.OnlyReserveReserves` | pkg/store/sqlite.go:857-863 | No batch, rollback, resync, keeper commit, insertion or creation changes a reservation |
| `Backing.ForwardPaid` | pkg/store/sqlite.go:960-973 | After a committed batch an invoice is paid if and only if its confirmed sum reaches its total, whatever accounts and invoices were created before and wherever it was resynced to; and the paid ones stay backed if and only if the batch repeats nothing they need |
| `Backing.MovePaid` | pkg/store/sqlite.go:957-973 | Of all moves of all services, resyncs to any branch included, only a batch that repeats what paid invoices need leaves one without its backing |
| `Backing.MoveAnchored` | pkg/chaintracker/chainfollower.go:272-331 | Every move that stays on its branch leaves the rows there are where the chain has their transactions, so that such a batch does not occur |
| `Repeats.RepeatUnbacks` | pkg/chaintracker/chainfollower.go:222-239 | A run from an empty database in which it does: an invoice paid on one branch, a resync to another at the same height, and a block there that adds its output again, higher |
| `Chainstate.MoveMatchesIff` | pkg/chaintracker/chainfollower.go:98-100 | Every clean move of any service keeps the stored best block matching the effects in the tables, in all four heights, if and only if it is no rollback that meets a row spent at or below its target and spendable only above it; a move is clean when it resyncs to no other branch and creates no address that was paid before and no invoice that finds outputs confirmed otherwise |
| `Chainstate.TimelyUndamaged` | pkg/store/sqlite.go:1022-1023 | No rollback does while no chain spends an output before the tables call it spendable |
| `Chainstate.MoveSound` | pkg/store/sqlite.go:1021-1034 | Every clean move keeps the spends the tables hold right: those of the chain, or lost |
| `Service.RunMatches` | pkg/chaintracker/chainfollower.go:98-100 | Over every clean run with no such rollback the committed best block always matches the effects in the tables, added, spendable, spending and spent heights alike, also when invoices are created where something has been told already |
| `Service.NeverEarlyUndamaged` | pkg/store/sqlite.go:1022-1023 | Such runs are all those in which no chain spends an output before the tables of the moment call it spendable |
| `Recorded.PaidIsRecorded` | pkg/chaintracker/chainfollower.go:605-625 | In every good state each output of positive value to a known address, in a block followed above the start, has a row with the height of the block, its value and its address, and is spendable as soon as it has the confirmations of its invoice, or else the configured ones |
| `Recorded.RecordedIsPaid` | pkg/chaintracker/chainfollower.go:605-625 | And every row the follower has added stands for such an output of such a block |
| `Recorded.SpentIsRecorded` | pkg/chaintracker/chainfollower.go:590-604 | When all spends match, an input that spends such an output in a followed block has set the height of that block, and the spend is final as soon as it has the configured confirmations |
| `Recorded.RunRecords` | pkg/chaintracker/chainfollower.go:528-576 | Over every clean run from an empty database each such output has its row with height and value, change of own payments included, and if no rollback damages a row each such input has set its spending height |
| `Recorded.RunSpenders` | pkg/store/sqlite.go:865-875 | Over every run at all a row with a spending height names a transaction that spends it, in a block at that height |
| `Recorded.SpendableAboveZero` | pkg/store/sqlite.go:585 | With confirmation counts that are not negative every spendable receipt became so above height 0 |
| `Service.RunKeeps` | pkg/chaintracker/chainfollower.go:272-331 | Over every clean run, early spends or not, the rows are those of the chain to the best block with their added and spendable heights |
| `Service.RunSound` | pkg/store/sqlite.go:1021-1034 | And their spends are those of the chain or lost |
| `Service.RunPaidIff` | pkg/store/sqlite.go:957-973 | Paid invoices are backed after every move of a run if and only if no batch of it repeats transactions of outputs they need, whatever was created, however late, and wherever it was resynced to |
| `Service.RunPaid` | pkg/store/sqlite.go:960-973 | After every such run paid invoices are backed, and any batch that follows leaves an invoice paid if and only if its confirmed sum reaches its total |
| `Service.OnBranchStay` | pkg/chaintracker/chainfollower.go:222-239 | Such runs are all those without a resync to another branch |
| `Backing.MoveNamed` | pkg/store/sqlite.go:957-973 | Every move keeps it so that a paid invoice names a block at its paid height and an unpaid one none, and every move that stays on its branch keeps that block on the chain to the best block |
| `Service.RunNamed` | pkg/store/sqlite.go:1036-1041 | The same over every run |
| `Service.RunStateOk` | pkg/chaintracker/chainfollower.go:222-239 | In every state reachable by any interleaving, resyncs to any branch and invoices at prepaid addresses included: no height above the tip, genuine rows, sound sequence numbers, no chain change missed, events alternating |
| `Service.RunAmounts` | pkg/services/balancekeeper.go:195-243 | Also the remembered amounts of invoices, if invoices are created where nothing has been told yet |
| `Service.EveryRun` | pkg/chaintracker/chainfollower.go:180-206 | All of these over every run from an empty database, accounts and invoices being created on the way, each under its own condition: bounds, rows, feed and events always; backing unless a batch repeats what paid invoices need; amounts over timely runs; the match with the chain over clean ones |
| `Service.EventsAgree` | pkg/services/balancekeeper.go:245-293 | In every reachable state, for an account the feed has reached, events alternate and end on the paid state of the invoice |
| `Service.RunBalances` | pkg/services/balancekeeper.go:107-150 | Over every run, once the feed has reached an account, its stored incoming balance is the calculated one, and so are the current and the outgoing one unless it made a payment in between: no spend and no confirmation is missed |
| `Service.CatchesUp` | pkg/services/balancekeeper.go:53-105 | While the follower commits nothing, each keeper batch takes one account off those behind and nothing else adds one |
| `Service.CatchUpRun` | pkg/services/balancekeeper.go:53-105 | As many keeper batches as there are accounts behind are always possible, and none is behind after them |
| `Store.UpdateRows` | pkg/store/sqlite.go:916-928 | An UPDATE replaces exactly the matching rows, and the returned ids are exactly their owners |
| `Store.CollectIds` | pkg/store/sqlite.go:993-1010 | Each account is numbered once, with consecutive numbers from the given one on, in the order of the list |
| `Store.WithoutEmpty` | pkg/store/sqlite.go:975-991 | The returned ids without the empty one |
| `Store.AccountMap.Add` | pkg/chaintracker/chainfollower.go:351-356 | An account keeps the number it first got; a new one gets the next number |
| `Store.AccountMap.AddIds` | pkg/chaintracker/chainfollower.go:342-349 | The same for a list of accounts, in the order of the list |
| `Store.NumberedInOrder` | pkg/store/sqlite.go:993-1010 | Of two accounts without a number the one listed first gets the lower one |
| `Store.SQLiteStore.Commit` | pkg/store/sqlite.go:617-624 | A transaction commits whole or leaves the tables as at its beginning |
| `Store.SQLiteStore.CreateUTXO` | pkg/store/sqlite.go:837-855 | Insert or overwrite an output, keeping its later heights and reservation |
| `Store.SQLiteStore.MarkUTXOSpent` | pkg/store/sqlite.go:865-875 | Mark an output spent on chain and say whose it is |
| `Store.SQLiteStore.MarkUTXOReserved` | pkg/store/sqlite.go:857-863 | Reserve an output for a payment |
| `Store.SQLiteStore.ConfirmUTXOs` | pkg/store/sqlite.go:905-928 | The two confirmation statements together are the confirmation pass of the proofs, and every changed row is reported |
| `Store.SQLiteStore.RevertUTXOs` | pkg/store/sqlite.go:1021-1034 | The four revert statements together are the rollback of the proofs, and every changed row is reported |
| `Store.SumWhere` | pkg/store/sqlite.go:322-334 | A sum over exactly the matching rows, and whether there were any |
| `Store.SQLiteStore.SumPaid` | pkg/store/sqlite.go:958-960 | The subquery sum over the confirmed outputs of an invoice, NULL over none |
| `Store.SQLiteStore.MarkInvoicesPaid` | pkg/store/sqlite.go:960-973 | Exactly the unpaid invoices whose confirmed sum reaches the total become paid, and their accounts are reported |
| `Store.SQLiteStore.MarkPaymentsOnChain` | pkg/store/sqlite.go:879-891 | One statement per index of the list |
| `Store.SQLiteStore.ConfirmPayments` | pkg/store/sqlite.go:893-903 | Payments on chain long enough are confirmed |
| `Store.SQLiteStore.IncChainSeqForAccounts` | pkg/store/sqlite.go:1057-1072 | Every listed account gets its new number |
| `Store.SQLiteStore.RevertChangesAboveHeight` | pkg/store/sqlite.go:1012-1055 | All tables are rolled back and every account with a changed row gets a fresh, distinct number |
| `Others.OthersKeep` | pkg/store/sqlite.go:227-234 | What the other services commit between the transactions of the follower leaves the chainstate alone and keeps paid invoices backed whatever it is; the told amounts if what they created was timely, and the match with the chain if it was clean |
| `Follower.ChainFollower.FollowChainToTip` | pkg/chaintracker/chainfollower.go:241-270 | Although Core may reorganise between any two requests, and the other services commit before every transaction, the walk ends once Core keeps a tip, on a block that was the tip during the walk, having added nothing to the history but applied children and rollbacks to ancestors; from a stable Core it ends on that tip. While the rows are where the chain has them it keeps paid invoices backed; it keeps the told amounts if all the others created meanwhile was timely, the rows of the chain if it was clean, and all its spends if no chain spends too early for the tables |
| `Follower.ChainFollower.Resume` | pkg/chaintracker/chainfollower.go:249-258 | The walk resumes at the best block, changing nothing, if it is still on chain, and otherwise rolls back to the fork point |
| `Follower.ChainFollower.TransactionalRollForward` | pkg/chaintracker/chainfollower.go:272-331 | One batch: progress with the position Core reported, a rollback to an ancestor, or after ten failed commits the old position and tables only the other services have changed; on a stable Core it climbs; in each case the history grows by exactly that |
| `Follower.ChainFollower.FetchBatch` | pkg/chaintracker/chainfollower.go:272-303 | The fetched blocks form a path from the best block, their changes are collected in order, a fork is noticed at the block before it, and nothing but a fork, the tip or the eleventh block ends the batch |
| `Follower.ChainFollower.ApplyBatch` | pkg/chaintracker/chainfollower.go:304-331 | Commit the fetched batch, then roll back if it met a fork |
| `Follower.ChainFollower.CommitBatch` | pkg/chaintracker/chainfollower.go:306-325 | Up to ten attempts; all of the batch is committed or none of it |
| `Follower.ChainFollower.AttemptToApplyChanges` | pkg/chaintracker/chainfollower.go:358-449 | One attempt: on success the tables are those of the whole batch over what the others committed, the record of applied blocks moves along, every invoice is paid exactly when covered if the paid ones were backed before, whatever the others created, and the match with the chain is kept if that was clean; on failure nothing of it is there |
| `Follower.ChainFollower.ApplyInTransaction` | pkg/chaintracker/chainfollower.go:358-436 | All statements of a batch together, with every changed row reported |
| `Follower.ChainFollower.ApplyUTXOChanges` | pkg/chaintracker/chainfollower.go:528-576 | Changes are applied in order and every touched account is noted |
| `Follower.ChainFollower.ProcessBlock` | pkg/chaintracker/chainfollower.go:578-628 | The changes of a block: inputs before outputs of each transaction, in block order; they are exactly its outputs of positive value to an address and its inputs that are not those of a coinbase transaction |
| `Follower.ChainFollower.FindOnChain` | pkg/chaintracker/chainfollower.go:451-463 | The descent to the first block Core has on its chain ends, at an ancestor |
| `Follower.ChainFollower.RollBackChainState` | pkg/chaintracker/chainfollower.go:451-470 | The rollback lands on an ancestor that Core had on its chain at the last request |
| `Follower.ChainFollower.RollBackChainStateToPos` | pkg/chaintracker/chainfollower.go:472-506 | Retry until committed; then tables and best block are those of the target |
| `Follower.ChainFollower.SetSyncHeight` | pkg/chaintracker/chainfollower.go:222-239 | A resync to a block at the same height changes nothing, whatever block it is; otherwise it goes to the requested block or an ancestor |
| `Keeper.BalanceKeeper.RunBatch` | pkg/services/balancekeeper.go:75-105 | One transaction takes the account with the least number above the cursor, or leaves no trace; with a working store it skips a turn only when every account is at or below the cursor; what it sends tells of every invoice of that account and of its balance what is to be told, each once, and of no other |
| `Keeper.BalanceKeeper.UpdateAccountBalance` | pkg/services/balancekeeper.go:107-150 | The stored balance and the events of one account |
| `Keeper.BalanceKeeper.SendInvoiceEvents` | pkg/services/balancekeeper.go:153-341 | Every invoice of the account is notified exactly once, in key order, and the paging loop ends |
| `Keeper.BalanceKeeper.NotifyInvoice` | pkg/services/balancekeeper.go:167-335 | The events one invoice calls for, each once or not at all: a part, the total or more than the total detected, by what was remembered and has arrived; more than the total confirmed; confirmed and unconfirmed; and what is remembered of them |
| `Keeper.BalanceKeeper.CalculateBalance` | pkg/store/sqlite.go:322-334 | The three sums of an account, which the rows below pin down statement by statement |
| `Balances.ArrivalMoves` | pkg/store/sqlite.go:837-855 | A receipt raises the incoming balance of its account by its value, change the current one, and nothing else moves |
| `Balances.ReturnMoves` | pkg/store/sqlite.go:837-855 | A receipt that a rollback took back raises the incoming balance again, change nothing |
| `Balances.UseMoves` | pkg/store/sqlite.go:857-875 | A spend or a reservation takes the value of an output off the current balance if it counts there and off no other |
| `Balances.ConfirmMoves` | pkg/store/sqlite.go:905-928 | A confirmation pass takes exactly the receipts that become spendable off the incoming balance and adds those of them that are neither spent nor reserved to the current one |
| `Balances.RevertMoves` | pkg/store/sqlite.go:1021-1034 | A rollback takes receipts added above its target off, moves those only confirmed above it from the current balance back to the incoming one, and gives back what was spent above it |
| `Balances.EachCountsOnce` | pkg/store/sqlite.go:322-334 | No output counts in both balances: they add up to all the account owns but for what is used or in no block |
| `Balances.PaymentsConfirm` | pkg/store/sqlite.go:893-903 | The outgoing balance loses exactly the payments a batch confirms |
| `Balances.PaymentsRevert` | pkg/store/sqlite.go:1043-1055 | And gets back exactly those confirmed or paid above the target of a rollback |
| `Balances.AmountsMove` | pkg/store/sqlite.go:377-380 | What arrives at an address counts as incoming for its invoice at once and not as paid |
| `Balances.AmountsConfirm` | pkg/store/sqlite.go:377-380 | A confirmation pass adds exactly what becomes spendable there to the paid amount |
| `Balances.AmountsRevert` | pkg/store/sqlite.go:377-380 | A rollback takes off what was added above its target, and off the paid amount what was confirmed above it |
| `Announced.BatchTells` | pkg/services/balancekeeper.go:160-341 | Of every invoice of the account a batch sends, by last, total and arrived amounts: the total once if and only if last < total <= arrived, a part once if and only if last < arrived < total, more than the total once if and only if last and total < arrived, and so on; of no other invoice anything |
| `Announced.BatchTellsBalance` | pkg/services/balancekeeper.go:107-150 | A balance event is sent once if the calculated balance differs from the stored one, with the calculated one, and otherwise not |
| `Announced.TotalOnce` | pkg/services/balancekeeper.go:196-205 | Over every run, after the total payment of an invoice has been announced no part and no total is announced again unless what has arrived falls below the total in between |
| `Keeper.BalanceKeeper.ListAccountsModifiedSince` | pkg/store/sqlite.go:336-368 | A page of accounts above the cursor in order, and the number of its last row |
| `Keeper.BalanceKeeper.ListInvoices` | pkg/store/sqlite.go:445-475 | A page of invoices from the cursor in key order, and 0 at the end |
| `Keeper.CursorSkipsNothing` | pkg/store/sqlite.go:336-368 | With distinct numbers no account the cursor passes is left out of the page, for any page size |
| `Keeper.TieSkips` | pkg/store/sqlite.go:341 | With a tie one account would be passed and never listed |
| `Fees.FeeMonotone` | pkg/txn.go:225-232 | More inputs never cost less, and no fee is negative |
| `Fees.FeeBounds` | pkg/txn.go:225-232 | Without a fixed fee a fee stays between the recommended minimum and the maximum |
| `Fees.FeeIs` | pkg/txn.go:204-232 | Between 0.01 coins and the maximum the fee is the estimate per 1000 bytes for 10 bytes and 148 for each input and 34 for each output, change included, to half a koinu; without an estimate or with a lower one it is 1000 koinu for each of these bytes; a positive fixed fee is rounded |
| `Fees.FeeAtLimits` | pkg/txn.go:225-232 | A fee below 0.01 coins is raised to that, and one above the maximum cut to it |
| `Sizes.SizeIsEncoding` | pkg/txn.go:204-209 | The size fees are computed from misses the encoded size by exactly the missing signature bytes less the count bytes beyond the first, so it is exact if and only if these are equal; up to 252 inputs and outputs it is never too small |
| `Sizes.FeeIsForEncoding` | pkg/txn.go:204-232 | So the fee of a transaction with full signatures is the estimate for its encoded size, to half a koinu |
| `Fees.GrowSkipsNothing` | pkg/txn.go:237-263 | Adding inputs for the fee of the current number passes over no feasible number |
| `Fees.NoneReachingNoneFeasible` | pkg/txn.go:250-252 | When the list runs out no number of inputs is feasible |
| `Fees.FirstSelection` | pkg/txn.go:49-51 | Selecting for the outputs alone passes over no feasible number |
| `Fees.FloorsAgreeIff` | pkg/txn.go:124 | The sum selected for and the sum paid out agree exactly when every amount is a whole number of koinu |
| `Spend.StoreUTXOSource.NextUnspentUTXO` | pkg/utxosource.go:59-78 | The source yields the spendable outputs of the list in order, each once, and ends exactly when all are taken |
| `Spend.GetAllUnreservedUTXOs` | pkg/store/sqlite.go:577-606 | Exactly the eligible rows of the account, each once: external before change, each by spendable height with unconfirmed last; together they are worth the current balance |
| `Spend.ListedIsCurrent` | pkg/store/sqlite.go:577-606 | What is listed is worth the current balance of the account: nothing that counts is left out |
| `Spend.FundsIff` | pkg/txn.go:142-157 | When the payees pay the fee funds are lacking if and only if the current balance is below the amounts; otherwise only if it is below them and the fee for spending all there is |
| `Spend.SumPayTo` | pkg/txn.go:117-140 | A request is accepted exactly when every amount is 0.01 coins or more, no percentage is negative, and they sum to 0 or 100 |
| `Spend.TxState.AddUTXOsUpToAmount` | pkg/txn.go:142-157 | Inputs grow to the first prefix that reaches the amount, or the whole list falls short |
| `Spend.TxState.CalculateFee` | pkg/txn.go:237-263 | On success the inputs are the shortest prefix that covers the outputs and the fee for that very length; on lack of funds no prefix does; it gives up if and only if inputs have to be added more than ten times, which takes at least eleven more inputs and never happens with a fixed fee |
| `Spend.TxState.CalculateAndDeductFee` | pkg/txn.go:267-282 | Succeeds exactly when every payee stays above dust after its share |
| `Spend.ReducedConserves` | pkg/txn.go:184-202 | What payees are left with and what was deducted add up to what was requested |
| `Spend.DeductedNear` | pkg/txn.go:187 | What is deducted misses the fee by at most half a koinu for each payee |
| `Spend.SelectedCovers` | pkg/dogecoin/libdogecoin.go:67-81 | The amount check of the library fails on selected inputs only if an amount has a fraction of a koinu |
| `Spend.CreateTxn` | pkg/txn.go:28-115 | A built transaction is balanced, free of dust and uses the fewest inputs in order; every failure has its reason, and too many attempts is the failure if and only if the request is sound and inputs have to be added more than ten times |
| `Spend.PaysAsAsked` | pkg/txn.go:53-76 | Every payee is paid in order, at the address given, what it asked for, or that less its percentage of the fee to half a koinu |
| `FeeRounds.RoundsBounded` | pkg/txn.go:237-263 | When every further output is worth twice what an input adds to the fee, the rounds are one more than it takes to halve the shortfall down to that amount |
| `FeeRounds.TooFewRounds` | pkg/txn.go:254-258 | A family of lists for which ten rounds are not enough although a number of inputs is feasible, each output being worth what an input adds to the fee or a little less |
| `Payable.PayableIff` | pkg/txn.go:28-115 | A request can be paid from the first m outputs if and only if there is a balanced transaction of them without dust, whether or not fewer outputs would do |
| `Payable.FailureIsDefinite` | pkg/txn.go:28-115 | A refused request, lack of funds and dust left to a payee are definite: no number of inputs pays |
| `Payable.HidesIff` | pkg/txn.go:78-112 | After change below dust, or inputs short of a fraction, the request can be paid if and only if it can with more inputs than were picked, deducted fees included |
| `Payable.RestDecides` | pkg/txn.go:91-96 | When every further output is worth what it adds to the fee, a request refused for dust or a fraction can be paid if and only if all outputs together leave change above dust, or some number of them leaves none, which it never does after dust or with a fraction in the sum |
| `Payable.FirstCleanDecides` | pkg/txn.go:78-112 | When the payees pay the fee, the first inputs that leave change above dust decide: it can be paid if and only if there are such and every payee stays above dust with the fee for that many |
| `Payable.GivingUpIff` | pkg/txn.go:254-258 | After too many attempts it can be paid if and only if it can with at least eleven more inputs than the first selection |
| `Payable.RestDecidesGivingUp` | pkg/txn.go:254-258 | When every output past the first selection is worth what it adds to the fee, all outputs together decide that, too |
| `Payable.DustHides` | pkg/txn.go:91-96 | A request refused for change below dust that two inputs pay |
| `Payable.DustHidesDeducted` | pkg/txn.go:91-96 | The same with the fee taken from the payee |
| `Payable.FractionHides` | pkg/dogecoin/libdogecoin.go:67-81 | A request with half a koinu refused by the amount check that two inputs pay |
| `Payable.GivingUpHidesTxn` | pkg/txn.go:254-258 | A request given up that 42 inputs pay |
| `Payable.NoGivingUp` | pkg/txn.go:237-263 | It never gives up when every output past the first selection is worth twice what an input adds to the fee and the first fee is at most 512 times that |
| `Payable.NoChoicePays` | pkg/txn.go:142-157 | When every output is worth what it adds to the fee, lack of funds is definite for every other choice of inputs, too |
| `Payable.CrumbsHide` | pkg/txn.go:142-157 | Otherwise it need not be: forty small outputs before one that pays alone |
| `Payments.PaymentConserves` | pkg/store/sqlite.go:322-334 | A payment lowers the current balance by exactly its inputs less its change, which for whole amounts is total plus fee, raises the outgoing one by the total, and leaves the incoming one |
| `Payments.FeeOfSize` | pkg/api.go:262-295 | What is paid for a transaction is the estimate for its own size, change output included, to half a koinu |
| `Payments.API.SendFundsToAddress` | pkg/api.go:262-372 | Before the reservation commits a failed call leaves no trace; afterwards payment, reservations and change are all there and the balances have moved by inputs less change and by the total, which for whole amounts are the reported amounts; the fee is the one given, or within the maximum given, or one coin; when the payees pay it, funds are lacking only if the current balance is below the amounts |
| `Payments.PaymentKeepsGood` | pkg/api.go:296-321 | A committed payment keeps every invariant of the service, the match with the chain included |
| `Reservations.SingleReservation` | pkg/api.go:276-331 | When sends do not overlap no output is ever reserved by two payments, whatever blocks and rollbacks come between and however many sends fail |
| `Reservations.ReservedTwiceIff` | pkg/api.go:276-331 | Over any run, failed sends included, an output is reserved twice exactly when at some point two sends had it selected and both went on to reserve |
| `Reservations.OverlapReservesTwice` | pkg/store/sqlite.go:857-863 | Two overlapping sends can reserve any spendable output twice |
| `Reservations.ReserveAllIsSet` | pkg/api.go:306-312 | Reserving input by input reserves exactly the selected set |
| `RoundTrip.BlockRoundTrip` | pkg/doge/block.go:71-103 | Decoding the reference encoding of any well-formed block, with or without AuxPoW and with transactions in any form, returns it and uses up exactly its bytes |
| `RoundTrip.TxBack` | pkg/doge/block.go:143-202 | The same for one transaction followed by anything |
| `RoundTrip.IdIsStandardIff` | pkg/doge/block.go:197-200 | The hashed bytes are those BIP 144 prescribes exactly when the transaction is not in the extended form |
| `RoundTrip.EncodingInjective` | pkg/doge/block.go:71-103 | No two blocks have the same encoding |
| `RoundTrip.VarBack` | pkg/doge/stream.go:73-90 | Variable-length numbers are read back as written |
| `RoundTrip.MerkleBack` | pkg/doge/block.go:115-136 | AuxPoW data is read back as written |
| `Layout.LittleEndian` | pkg/doge/stream.go:48-58 | Numbers have their least significant byte first |
| `Layout.EightBytes` | pkg/doge/stream.go:60-71 | In eight bytes the second four count 2^32 times as much |
| `Layout.CountIs` | pkg/doge/stream.go:73-90 | A count below 0xfd is one byte, and 0xfd, 0xfe and 0xff announce two, four and eight |
| `Layout.InputIs` | pkg/doge/block.go:223-234 | Where the fields of an input are |
| `Layout.OutputIs` | pkg/doge/block.go:236-245 | Where those of an output are, its value a signed number of eight bytes |
| `Layout.TxIs` | pkg/doge/block.go:143-202 | A transaction begins with its version and ends with its lock time |
| `Layout.BranchIs` | pkg/doge/block.go:129-136 | Where those of a branch are |
| `Layout.AuxIs` | pkg/doge/block.go:115-127 | And those of the AuxPoW: the branch to the coinbase comes before the branch to this chain |
| `Fallback.HeaderFields` | pkg/doge/block.go:105-113 | Where the fields of a block header are |
| `Decoder.Stream.Bytes` | pkg/doge/stream.go:26-33 | The position moves on in any case; data is returned exactly when it is there |
| `Decoder.Stream.Valid` | pkg/doge/stream.go:16-18 | The position is within the data exactly when no read ever left it |
| `Decoder.Stream.VarUint` | pkg/doge/stream.go:73-90 | Reads a variable-length number, or zero past the end |
| `Decoder.Stream.NextTx` | pkg/doge/block.go:143-202 | The nested cases of the transaction reader, for all bytes |
| `Decoder.Stream.NextWitness` | pkg/doge/block.go:174-189 | One witness stack for each input, in order |
| `Decoder.DecodeBlock` | pkg/doge/block.go:71-82 | The one check at the end is enough: on success no read left the data and all of it was used |
| `Fallback.FallbackAgrees` | pkg/chaintracker/chainfollower.go:630-650 | Whenever the AuxPoW can be read, parsing without it gives the same header and transactions, or the same failure |
| `Fallback.RawHeaderExists` | pkg/chaintracker/chainfollower.go:636-640 | A block that decodes has such a raw header inside its data |
| `Fallback.FallbackRecovers` | pkg/chaintracker/chainfollower.go:630-650 | Whatever stands between header and transactions, readable or not, the fallback recovers both |
| `Fallback.DecodeWithFallback` | pkg/chaintracker/chainfollower.go:630-650 | Normal parse first, fallback only if it fails |
| `AddressPool.CreateInvoice` | pkg/api.go:28-86 | The next external index is issued once, its address resolves to account and index, and the pool moves along; or nothing changes |
| `AddressPool.CreateAccount` | pkg/api.go:126-188 | A new account starts with two full pools; an existing one is left alone |
| `AddressPool.SaveAfterPayment` | pkg/api.go:286-297 | Saving an old copy of an account after a payment changes nothing: the advance of the change key is lost |
| `AddressPool.Account.UpdatePoolAddresses` | pkg/account.go:39-77 | Exactly the missing indices of both kinds are stored, or a duplicate makes it fail |
| `AddressPool.Account.GenerateAddresses` | pkg/account.go:80-90 | The addresses of consecutive indices |
| `AddressPool.Account.NextPayToAddress` | pkg/account.go:96-104 | The next external index, used up in this copy |
| `AddressPool.KeyStore.StoreAddresses` | pkg/store/sqlite.go:777-792 | Succeeds exactly when none of the addresses is stored yet |
| `AddressPool.KeyStore.UpdateAccount` | pkg/store/sqlite.go:742-753 | Counters in the table never go down |
| `AddressPool.GrowCovers` | pkg/account.go:47-76 | Storing the new indices keeps the address table exactly the indices below the pool counters |
| `Creations.InvoiceIsMove` | pkg/api.go:28-86 | What creating an invoice commits fits the tables: an external address of the account, a fresh key index, and new addresses only |
| `Creations.AccountIsMove` | pkg/api.go:126-188 | What creating an account commits fits the tables: its pools are new addresses of its own |
| `Creations.ChangeResolves` | pkg/account.go:107-115 | The change address of a payment is a stored internal address of the account and no invoice |
| `Calls.StaleCopiesHarmless` | pkg/api.go:262-321 | Over every order of creating accounts and invoices and of saving copies of accounts however old, the address table stays exact, pools stay full, key indices are issued once and addresses resolve |
| `Calls.SaveChangesNothing` | pkg/api.go:286-297 | Among them saving a copy that was full when it was taken changes nothing |
| `AddressPool.InvoicesResolve` | pkg/store/sqlite.go:442-445 | Invoices of an account have distinct key indices and every invoice address resolves to its account and index |
| `Signals.NoLostWakeUpIff` | pkg/chaintracker/tipchaser.go:83-96 | No run leaves the follower waiting with an empty channel after a missed announcement if and only if the channel holds at least one signal |
| `Signals.OneSlotCovers` | pkg/chaintracker/chainfollower.go:46-48 | Every run possible with one slot is possible with more, walk for walk |
| `Scripts.ClassifyScript` | pkg/doge/script.go:21-71 | The class returned is what the script is by shape, and custom only if it has none of the shapes |
| `Scripts.OneClass` | pkg/doge/script.go:21-71 | The shapes exclude each other, so the order of the tests does not matter |
| `Scripts.ScanKeys` | pkg/doge/script.go:46-64 | The greedy scan succeeds exactly when the bytes are the pushes of the announced number of keys |
| `Scripts.MultiSigIff` | pkg/doge/script.go:45-67 | A script is a multisig script exactly when its ends fit and its middle is that many keys |

## Left out

- Payments.API.SendFundsToAddress: when a payee's amount has a fraction of a koinu, what the change output holds is up to the library's own conversion and a parameter here. A change output is assumed to appear exactly when change is positive and no payee is the change address.
- Decoder.Stream.Bytes: positions are unbounded, so the wrap of the 64-bit position, out of reach for data that fits in memory, is not modelled.
- Decoder.Stream.NextTx: an extended transaction cut off before its flag byte makes the Go program panic on a nil slice; the model returns an error there.
- Spend.CreateTxn: the maximum fee is not negative, which both callers see to (pkg/api.go:267-269, pkg/api.go:392). Division by 100 and by 1000 is exact; the decimal library rounds quotients to 16 digits. Signing and the library's own errors are not part of this model.
- Spend.TxState.CalculateFee: requires the state it is called in, after the inputs for the outputs have been selected (pkg/txn.go:48).
- Keeper.BalanceKeeper.RunBatch: requires distinct key indices of the invoices of an account, which `AddressPool.InvoicesResolve` provides.
- Fallback.DecodeWithFallback: requires a raw header of at least 80 bytes and no longer than the data; the Go slices panic otherwise.
- Follower.ChainFollower.FollowChainToTip: without a settling Core or a committing store the loops of the source need not end; what one attempt keeps (`Follower.ChainFollower.AttemptToApplyChanges`) needs neither.
- Scripts.ClassifyScript: returns the hash; turning it into a Base58 address is foreign code, as are SHA-256, RIPEMD-160, key derivation (taken as injective) and the L1 library.
- AddressPool.CreateInvoice: the 32-bit width of key indices is not modelled.
- AddressPool.Account.NextPayToAddress: `NextChangeAddress` differs only in the counter it advances, and that copy is thrown away.
- Follower.ChainFollower.ProcessBlock: blocks that fail to decode and are skipped (pkg/chaintracker/chainfollower.go:581-584); block contents are given by the tree.
- Wallet.RolledStateOk: after a resync across branches the match with the chain is not claimed; heights left by the other branch stay in the tables.
- The choice of the first block on initial sync (pkg/chaintracker/chainfollower.go:180-206): `Wallet.StartGood` starts anywhere.
- PayInvoiceFromAccount: the same steps as SendFundsToAddress with one payee.
- Payment events (pkg/services/balancekeeper.go:344-414): their marking is commented out, so they repeat.
- FindUTXOLargerThan, UpdateAccountSettings and the read-only API calls: single statements that promise nothing beyond themselves.
- RPC, ZMQ, HTTP, MQTT, callbacks, loggers, configuration, retries with delays, the message bus and the conductor.
- BIP32 and WIF serialisation, KoinuToDecimal, invoice validation, chain parameters, migrations, timestamps, SQL dialects.
