# 1sat-indexer: a verified model

This project models the core of a blockchain indexer in Dafny 4.11 and proves what it is for. The
indexer follows single satoshis through the chain (origins), accounts for BSV21 tokens, keeps outputs,
spends and search indexes in Redis or Postgres, reserves inputs for broadcasts, and feeds itself from a
queue and a block subscription.

Run `dafny verify dfyconfig.toml` to check everything. No file needs anything outside this directory.

## How it is laid out

| file | what it holds |
|---|---|
| `Common.dfy`, `Keys.dfy` | outpoints, 64-bit sums, search keys |
| `Ledger.dfy` | the chain as a sequence of transactions; the walk back of one satoshi |
| `Origin.dfy`, `Indexing.dfy` | the origin parser and one ingest, as the program runs them |
| `OriginWalk.dfy`, `OriginIndex.dfy`, `OriginUnique.dfy` | the parser finds what the walk finds, over whole runs |
| `OriginRecords.dfy`, `IngestTable.dfy` | dependencies, events and map of a record; which rows an ingest stores and when it fails |
| `Broadcast.dfy` | any number of broadcasts reserving inputs, step by step |
| `Bsv21.dfy`, `Bsv21Supply.dfy` | the token balance pass, and the supply of a token over a chain |
| `SortedSets.dfy`, `RedisSearch.dfy`, `RedisSearchExact.dfy` | limited searches over several sorted sets against the plain definition |
| `RedisStore.dfy`, `RedisOwners.dfy`, `RedisEffects.dfy` | the Redis tables, the owner index and balances; what each operation does to every entry, and searches by tag over whole runs |
| `PgStore.dfy`, `PgRuns.dfy` | the Postgres tables, order of ingests, rollback |
| `InFlight.dfy` | callers sharing one remote request |
| `Queue.dfy`, `QueueDeadlock.dfy`, `QueueRemoval.dfy` | the queue dispatcher and its workers; which numbers of worker errors can leave it stuck; what it takes off the queue |
| `Scores.dfy`, `Activity.dfy`, `Audit.dfy` | height scores as 64-bit floats, grouping by transaction, audit windows |
| `Sub.dfy` | the subscription that resumes after crashes |
| `Blocks.dfy` | filling a run of headers backwards |
| `Outpoints.dfy` | the text form of an outpoint |

Code that changes state is a class or a method with loops, proved against a function on values; the
theorems are lemmas about that function. Concurrent code is a step machine on one state value: every store
call, channel operation or section under a lock is one step, and the theorems hold for every interleaving.

## Assumptions

- A chain is a sequence of transactions, each named by its position; it conserves satoshis except in a
  coinbase, never spends an output twice, and a transaction's height does not change. The transaction
  service answers truthfully or not at all, and its answers carry the mined height.
- Broadcasts: one at a time per transaction id, with distinct inputs; a store call that fails changes
  nothing; nobody else overwrites a spend, and spends seen from outside name transactions that are not
  broadcast here.
- Stores: one command is one step; encodings lose nothing; a search sees one state of the store. Redis
  lists members of equal score in the order of their text, and in the opposite order when reversed.
- Scores are rounded to 53 binary digits, ties to even. Current times are exact integers.

## What was found not to hold

For each there is a lemma with a concrete input, which comes first below, and a lemma or contract that says
exactly when the program does what was meant. That is for all inputs, with these bounds: scores up to block
2^24, limited searches over several keys when the keys give a member the same score, minted satoshis when
parents are ingested first, token inputs that total less than 2^64, and a dispatcher with at least one slot.

- Loading ancestors without parsing them (`AncestorConfig{Load: true}`) gives an output the wrong origin
  unless the parent that held its satoshi alone is stored already (`LoadOnlyGoesWrong`, `LoadOnlyExact`).
- An unmined parent (height 0) cuts the walk: the child becomes its own origin
  (`UnminedParentGoesWrong`, `UnminedAncestorCutsWalk`).
- Every BSV21 output of a transaction that is not pending ends `Valid`, because the table of reasons that
  the last loop reads is never filled (`TransferOutOfNothing`, `VerdictRightIffNoFailure`).
- A limited search for members under *all* keys can answer nothing although there are matches
  (`LimitedAndGoesWrong`, `LimitedAndIsExactIff`).
- A search that skips transaction ids fetches first and skips afterwards: with one key its page can be
  short (`OneKeyGoesWrong`, `OneKeySearchExact`), with several it can miss the best member
  (`LimitedOrGoesWrong`, `LimitedOrIsExactIff`).
- The queue dispatcher can deadlock when workers report errors while the loop waits for a slot or for the
  workers (`OneErrorDeadlocks`; `StuckByErrors` says how many errors can do it).
- A failed broadcast whose rollback fails in the store keeps its inputs reserved, and the caller is not told
  (`FailedDeleteKeepsInput`, `FailedOwnsNothingNew`).
- Broadcasting again a transaction that was accepted, and failing, frees inputs although the first broadcast
  was announced as a success (`RejectedAgainFreesInput`, `SecondAttemptKeepsIff`).
- A batch the subscription fails to write is dropped, yet the progress moves past it
  (`FailedBatchIsLost`, `CoveredIffNothingLost`).
- From block 9,007,199 on two positions can share a score (`ScoresCollide`, `ScoresCollideIff`), and a
  position can read back as the next block (`HeightReadsWrong`, `ReadsBackIffExact`); at such heights the last
  few of a thousand million positions also fall out of the mined audit window (`LastPositionIsMissed`,
  `MinedWindowIff`).
- Header filling panics when the parent of the first block is among the headers (`ParentHeaderExample`; the
  contract of `ChainFill.Blocks` says when).
- Saving an output again without one of its earlier owners leaves a stale index entry
  (`StaleOwnerStays`, `SaveKeepsIndexIff`).
- A rollback of a transaction that overwrote somebody's spend does not bring that spend back
  (`OverwrittenSpendIsLost` in `RedisOwners` and in `PgRuns`; `RollbackRestores`, `RollbackUndoes`).
- A rollback in Redis leaves its outputs under their tags, where searches still find them
  (`RolledBackStaysTagged`, `TagEntries`).
- The repository's README defines an origin as the first outpoint where a satoshi is alone; a satoshi first
  seen alone in a coinbase gets none (`MintedAloneStaysOpen`, `ParentsFirstResolves`).

## Model

| member | source | states |
|---|---|---|
| OriginIndexing.Merge | mod/bitcom/map.go:20-29 | the merged map is the second map laid over the first; neither argument changes |
| OriginIndexing.Parse | mod/onesat/origin.go:44-110 | the loop over the inputs computes exactly the specified record: origin, nonce, parent, merged map, dependencies up to the input it stops at, events |
| OriginIndexing.LocateFinds | mod/onesat/origin.go:65-95 | if known inputs hold the output's satoshi offset in input h, the running sum ends at h and nowhere else, zero-satoshi inputs included |
| OriginIndexing.LocateStops | mod/onesat/origin.go:66-69 | with an unknown input before the offset is reached, the lookup ends there with nothing |
| Indexing.TxoStore.SaveTxos | idx/pg-store/txos.go:192-289 | saving a transaction's outputs upserts one row each, in order |
| Indexing.IndexContext.ParseSpends | idx/index-context.go:88-139 | inputs come from the table, or from the remote transaction in the three ancestor modes, saving the parent's outputs if asked; stops at the first failed load |
| Indexing.IndexContext.ParseTxos | idx/index-context.go:141-163 | each output gets its 64-bit satoshi offset and the origin record parsed against the inputs |
| Indexing.IndexContext.IngestTx | idx/index-context.go:81-180 | one ingest takes the table to what the specification says, or leaves only saved parents when a load fails |
| OriginWalk.ArrivalIsUnique | mod/onesat/origin.go:66-95 | the output a satoshi was alone in before is unique |
| OriginWalk.LocatedAtHolder | mod/onesat/origin.go:65-95 | on a valid chain the lookup ends at the input that holds the satoshi, or not at all |
| OriginWalk.ParseAgrees | mod/onesat/origin.go:63-110 | parsing one output against fitting inputs gives the walk-back record, or leaves the origin open |
| OriginIndex.IngestFits | idx/index-context.go:88-180 | one ingest in any mode keeps every stored origin equal to the walk or open, provided load-only parents that matter are stored |
| OriginIndex.LoadOnlyExact | idx/index-context.go:123-129 | in load-only mode the parsed origin is right if and only if the parent that held the satoshi alone is in the table |
| OriginIndex.RunFits | idx/index-context.go:81-180 | the same over whole runs from an empty table, in any order, with repeats |
| OriginIndex.StoredOriginsAreWalks | mod/onesat/origin.go:63-110 | after any run, in any order with any re-ingests, a stored origin is the first outpoint where the satoshi was alone, the nonce is the number of one-satoshi hops since, the parent the last hop, and the map the right-biased merge along the path |
| OriginIndex.ParentsFirstSettles | idx/index-context.go:88-139 | ingesting parents first stores exactly the outputs ingested, each with its final record |
| OriginIndex.ParentsFirstResolves | mod/onesat/origin.go:44-110 | parents first, every tracked one-satoshi output gets its origin, and it is open only if the satoshi was first alone in a coinbase |
| OriginUnique.OffsetInjective | idx/index-context.go:142-158 | two one-satoshi outputs of a transaction never start at the same offset, whatever zero-satoshi outputs lie between |
| OriginUnique.BeforeInjective | mod/onesat/origin.go:66-95 | without double spends two outputs never continue the same parent |
| OriginUnique.OriginAndNonceUnique | mod/onesat/origin.go:77-80 | origin and nonce name at most one output of the chain |
| OriginUnique.PathIsSpent | mod/onesat/origin.go:66-95 | every output on a path before its last is spent by the transaction of the next |
| OriginUnique.OriginCarriedOnce | mod/onesat/origin.go:63-110 | at every point of the chain an origin is carried by at most one unspent one-satoshi output |
| OriginUnique.IndexedOriginsUnique | mod/onesat/origin.go:63-110 | both uniqueness results for what a run has stored |
| OriginUnique.UnminedAncestorCutsWalk | mod/onesat/origin.go:71 | the code's root is the root over unmined parents too, if and only if every output of that path but the last is mined; then the whole path and the parent are the same, and with them nonce and map |
| OriginUnique.UnminedParentGoesWrong | mod/onesat/origin.go:71 | a chain that ends in two unmined transactions, on which the last output is recorded as its own origin |
| OriginUnique.MintedAloneStaysOpen | mod/onesat/origin.go:63-110 | a coinbase that pays one satoshi on its own, whose stored origin is open |
| OriginUnique.LoadOnlyGoesWrong | idx/index-context.go:123-129 | a three-transaction chain on which load-only mode records a wrong origin |
| OriginRecords.SettledRecord | mod/onesat/origin.go:63-110 | with settled inputs, the record of a tracked single satoshi is the walk's; its events are the walk's origin and, if there is one, the parent, and nothing else; its dependencies are the inputs through the one that holds the satoshi, or all of them |
| OriginRecords.EventsTellRecord | mod/onesat/origin.go:72-104 | for any inputs: the outpoint event names the recorded origin, a parent event the recorded parent, and there is no other |
| OriginRecords.DepsUpToUnknown | mod/onesat/origin.go:66-70 | if none of the known inputs before the first unknown one holds the satoshi, exactly those are the dependencies |
| OriginRecords.ParentWithoutRecord | mod/onesat/origin.go:71-89 | a tracked single satoshi without a record becomes the parent and leaves the origin open |
| OriginRecords.RecordedIff | mod/onesat/origin.go:47-49 | exactly single satoshis of tracked or unmined transactions get a record |
| OriginRecords.LatestValueWins | mod/bitcom/map.go:20-29 | the map of a path has, for every key, the value of the last output of the path that sets it, and no other keys |
| OriginRecords.StoredMaps | mod/onesat/origin.go:83-88 | the same for what any run has stored, and which rows have a record at all |
| IngestTable.IngestStores | idx/index-context.go:88-180 | an ingest fails if and only if an input in no row needs the service and the service lacks it; otherwise the rows are the old ones, those of the transaction's outputs and, with parents parsed and saved, those of all outputs of each parent with an input in no row; what is left out stays as it was, also when the ingest fails part way |
| IngestTable.SavedOrigin | idx/index-context.go:157-161 | the record of a saved output is the one just parsed, or the one its row had if there is none |
| IngestTable.StepStores | idx/index-context.go:107-180 | the same for one step on a chain: which outputs have a row afterwards, with the chain's heights and satoshis |
| IngestTable.InputsAreStored | idx/index-context.go:113-122 | with parents parsed and saved every input of an ingested transaction has a row |
| Broadcasting.OthersKeepTheirs | broadcast/broadcast.go:264-287 | a step of one broadcast never takes an outpoint from another transaction, not even between the rollback's read and its delete |
| Broadcasting.AllAskedAreDeleted | broadcast/broadcast.go:268-277 | although the answers of the read come in row order, every input a failed broadcast owns is marked for deletion |
| Broadcasting.ExecutionKeepsInv | broadcast/broadcast.go:114-149 | in every interleaving each broadcast owns exactly what its place in the code says |
| Broadcasting.ReservedOwnsInputs | broadcast/broadcast.go:114-133 | past its reservation loop and not rolled back, a broadcast owns all its inputs |
| Broadcasting.ReservationsExclude | broadcast/broadcast.go:114-149 | two broadcasts that share an input are never both past their loops, sent or successful |
| Broadcasting.LogTells | broadcast/broadcast.go:103-287 | a broadcast under way is logged as an attempt, a successful one as announced; the entry of a failed one goes only if it had reserved something and could roll back |
| Broadcasting.FailedOwnsNothingNew | broadcast/broadcast.go:239-287 | a failed broadcast ends owning what it owned at its start, minus what it rolled back, or plus what it reserved if a store call of the rollback failed; nothing if and only if the rollback went through and it had owned no input that it never reached |
| Broadcasting.FailedDeleteKeepsInput | broadcast/broadcast.go:264-287 | a run in which the service rejects the transaction, the delete fails, and the input stays reserved |
| Broadcasting.SuccessIsKept | broadcast/broadcast.go:251-260 | a successful broadcast keeps all its inputs through any later steps of others |
| Broadcasting.SecondAttemptKeepsIff | broadcast/broadcast.go:114-287 | when a successful transaction is broadcast again, its inputs are all still reserved at the end if and only if the second attempt succeeds, fails before its first input, or fails to roll back; otherwise exactly the inputs it went through are free |
| Broadcasting.RejectedAgainFreesInput | broadcast/broadcast.go:239-287 | a run in which the service accepts a transaction, rejects it when it comes again, and its input ends free |
| Broadcasting.SpendStore.RollbackSpends | broadcast/broadcast.go:264-287 | the read-then-delete frees exactly the listed outpoints held by the transaction and removes its pending entry, unless nothing is listed |
| Broadcasting.SpendStore.ReserveInputs | broadcast/broadcast.go:114-133 | the loop takes exactly the inputs before the first that belongs to another transaction |
| Broadcasting.SpendStore.Broadcast | broadcast/broadcast.go:102-260 | alone, a broadcast succeeds if and only if no input is another's and the service accepts; otherwise exactly the inputs before the first conflict are freed, and the pending entry stays only if there were none |
| Bsv21Tokens.IndexContext.CollectOutputs | mod/onesat/bsv21.go:185-206 | gathers, per token id, the positions of its transfer and burn outputs in order |
| Bsv21Tokens.IndexContext.SumInputs | mod/onesat/bsv21.go:208-227 | sums valid inputs per token in 64 bits and stops at the first unknown or pending one |
| Bsv21Tokens.IndexContext.PayTokens | mod/onesat/bsv21.go:230-250 | the balance pass ends the same whatever order the tokens are taken in |
| Bsv21Tokens.IndexContext.PreSave | mod/onesat/bsv21.go:179-275 | the whole pass: with an open input every transfer or burn only gains a pending event of its token; without one it ends valid, depends on all valid inputs of its token, and takes over the description of the last of them if it gets its amount; the state of every token |
| Bsv21Tokens.PayingConserves | mod/onesat/bsv21.go:232-246 | paid outputs and remaining balance always add up to the inputs |
| Bsv21Tokens.NoFailureIffCovered | mod/onesat/bsv21.go:234-246 | no failure is recorded if and only if there is a valid input and the outputs together ask for no more; then all are paid |
| Bsv21Tokens.Balance64Exact | mod/onesat/bsv21.go:220 | the 64-bit sum is the true sum when the total fits |
| Bsv21Tokens.TokenAccounts | mod/onesat/bsv21.go:208-250 | per token: accepted outputs plus remaining balance equal the valid inputs, and the reason stays empty if and only if supplied and covered |
| Bsv21Tokens.FinishedIsPassed | mod/onesat/bsv21.go:179-275 | what the pass leaves of each output, told from the outputs and inputs alone |
| Bsv21Tokens.PaidIffAffordable | mod/onesat/bsv21.go:232-246 | an output gets its amount if and only if what the earlier ones got leaves enough; one that does not get it does not stop the later ones |
| Bsv21Tokens.ReasonTells | mod/onesat/bsv21.go:229-250 | the reason kept for a token: missing inputs if none is valid, insufficient funds if the outputs ask for more, none otherwise |
| Bsv21Tokens.VerdictRightIffNoFailure | mod/onesat/bsv21.go:229-273 | as written the output ends Valid; that verdict is right if and only if the pass met no failure for its token, that is, some valid input supplies it and the outputs together ask for no more than the inputs hold |
| Bsv21Tokens.TransferOutOfNothing | mod/onesat/bsv21.go:229-273 | a transfer with no inputs that fails the pass and ends Valid |
| Bsv21Supply.SpendingTakes | mod/onesat/bsv21.go:208-227 | spending takes exactly the valid input total of a token out of its supply |
| Bsv21Supply.GainIsDeployedAndAsked | mod/onesat/bsv21.go:114-153 | what a transaction adds to a supply is what it deploys plus, if the pass succeeds, what its outputs ask for |
| Bsv21Supply.SupplyNeverExceedsDeployment | mod/onesat/bsv21.go:114-250 | with verdicts taken from the balance pass, the valid unspent amount of a token never exceeds its deployment, on any chain without double spends |
| Bsv21Supply.InputSumsNeverWrap | mod/onesat/bsv21.go:220 | on such a chain the 64-bit sum of a transaction's valid inputs never wraps |
| Bsv21Supply.OpenInputIsPending | mod/onesat/bsv21.go:208-258 | an unknown input, or one of a token that is not settled, leaves every transfer or burn of the transaction pending, in every later state of the chain |
| SortedSets.SortListing | idx/redis-store/search.go:100-115 | sorting keeps every entry once and puts them in the order asked for |
| SortedSets.ZRange | idx/redis-store/search.go:61-66 | a limited range query answers the first entries of the window in order, equal scores by text, leaving out none that is better |
| SortedSets.FetchedIffEarly | idx/redis-store/search.go:61-66 | a limited query brings a member if and only if fewer than `limit` members of the window come before it |
| RedisSearch.BuildQuery | idx/redis-store/search.go:17-45 | the bounds admit exactly the scores strictly after From and strictly before To in the direction of the search |
| RedisSearch.Search | idx/redis-store/search.go:52-122 | the answer is the merge of one limited fetch per key: counted, sorted and cut for several keys, filtered and cut for one |
| RedisSearchExact.TallyIs | idx/redis-store/search.go:69-88 | a member's count is the number of fetched lists that hold it, its score the first one's |
| RedisSearchExact.OneKeySearchExact | idx/redis-store/search.go:71-86 | with one key the page is the first wanted members if and only if no skipped transaction id is among the first `limit` members of the window, or no wanted member comes after them |
| RedisSearchExact.OneKeyGoesWrong | idx/redis-store/search.go:71-86 | a transaction id ahead of an output makes a search for one output answer none |
| RedisSearchExact.PageOfPartIff | idx/redis-store/search.go:52-122 | a page cut from what the fetches brought is a page of the whole if and only if every member left out is no better than `limit` members brought |
| RedisSearchExact.LimitedOrIsExactIff | idx/redis-store/search.go:52-122 | when scores agree, a limited search for any of several keys answers the first wanted members of the union if and only if each wanted member that is among the first `limit` under no key is outnumbered by wanted ones that are |
| RedisSearchExact.LimitedOrGoesWrong | idx/redis-store/search.go:52-122 | two sets for which such a search never answers the best member, because a transaction id took its place in the fetch |
| RedisSearchExact.OrSearchIsExact | idx/redis-store/search.go:52-122 | a search for any of several keys answers the first wanted members of the whole union, sorted and distinct: always without a limit, and with one when scores agree and no fetch brings a member that is skipped |
| RedisSearchExact.AndSearchIsSound | idx/redis-store/search.go:91-98 | every record of a search for all keys is in the intersection under its first key's score |
| RedisSearchExact.AndSearchIsExact | idx/redis-store/search.go:91-98 | without a limit it answers the whole intersection, sorted |
| RedisSearchExact.LimitedAndIsExactIff | idx/redis-store/search.go:91-120 | when scores agree, a limited search for all keys answers the first members of the intersection if and only if at least a page of them are among the first `limit` under every key |
| RedisSearchExact.LimitedAndGoesWrong | idx/redis-store/search.go:91-120 | two sets with agreeing scores and a common member for which a search for both limited to one answers nothing |
| Keys.KeysApart | idx/keys.go:7-9 | owner keys differ from each other and from tag and event keys |
| Keys.CollectEvents | idx/redis-store/txos.go:157-174 | gathers the tag, event and owner keys of an output, skipping empty owners, in any order of the tags |
| RedisStores.RedisStore.SaveTxos | idx/redis-store/txos.go:144-215 | saves each output's row and tag values and lists it under all its keys |
| RedisStores.RedisStore.SaveSpends | idx/redis-store/txos.go:217-255 | records the spends, the inputs and the owners' activity; with no inputs it fails and changes nothing |
| RedisStores.RedisStore.SetNewSpend | idx/redis-store/txos.go:359-361 | sets a spend if and only if there is none, and says so |
| RedisStores.RedisStore.Rollback | idx/redis-store/txos.go:367-446 | frees the recorded inputs the transaction still holds and drops its rows and tag values with their owner entries; without recorded inputs it fails and changes nothing |
| RedisStores.RedisStore.FilterSpent | idx/redis-store/search.go:124-151 | keeps the outpoints without a known spend, in order, and records spends learnt elsewhere |
| RedisStores.RedisStore.SearchBalance | idx/redis-store/search.go:236-253 | sums the satoshis of the unspent members in 64 bits, and panics if and only if one of them has no row |
| RedisStores.OnlyOutputs | idx/redis-store/search.go:71-73 | with outputs only asked for, no transaction id is ever answered |
| RedisOwners.SaveKeepsIndexIff | idx/redis-store/txos.go:153-205 | saving an output keeps the owner index right if and only if no owner of its earlier row is gone |
| RedisOwners.StaleOwnerStays | idx/redis-store/txos.go:153-205 | an output saved under one owner and then under another stays listed under the first |
| RedisOwners.RunsKeepIndex | idx/redis-store/txos.go:153-446 | if owners are fixed by the outpoint, every run of saves, spends, reservations, refreshes and rollbacks keeps "listed under an owner if and only if the row names that owner" |
| RedisOwners.RollbackRestores | idx/redis-store/txos.go:367-446 | rolling back a fresh ingest restores the rows and tag values, and the spends if and only if the inputs were unspent; the owners' activity entries stay |
| RedisOwners.OverwrittenSpendIsLost | idx/redis-store/txos.go:217-446 | ingesting and rolling back a second spender leaves the input unspent, although the first had spent it |
| RedisOwners.BalanceIsHoldings | idx/redis-store/search.go:236-253 | the balance of any list of owners is the sum over the unspent rows of any of them, each once, modulo 2^64, and no listed row is missing |
| RedisEffects.SaveLists | idx/redis-store/txos.go:153-205 | saving an output lists it with exactly the score under each tag, event and non-empty owner, and leaves all other entries alone |
| RedisEffects.SaveWrites | idx/redis-store/txos.go:174-192 | its row is the one saved, its tag values are laid over those already there, and nothing else changes |
| RedisEffects.SpendLists | idx/redis-store/txos.go:217-255 | saving spends lists the transaction with exactly the score under each owner it spends from, and leaves all other entries alone |
| RedisEffects.SpendWrites | idx/redis-store/txos.go:217-255 | every output spent reads as spent by the transaction and is among its recorded inputs; all else as before |
| RedisEffects.RollbackFrees | idx/redis-store/txos.go:367-446 | a rollback frees exactly the recorded inputs that the transaction itself holds, and removes its own rows and their values only |
| RedisEffects.RollbackUnlists | idx/redis-store/txos.go:402-446 | of the sorted sets it removes exactly the entries of its rows under their owners |
| RedisEffects.RefreshRecords | idx/redis-store/search.go:124-151 | a spend learnt elsewhere is recorded if and only if it is asked for and none is on record |
| RedisEffects.UnspentInOrder | idx/redis-store/search.go:124-151 | what is left are exactly the outpoints without a spend on record or elsewhere, in their order |
| RedisEffects.TagEntries | idx/redis-store/txos.go:157-205 | after any run the set of a tag holds exactly the outputs ever saved under it, with the score of the last such save; rollbacks leave them |
| RedisEffects.RolledBackStaysTagged | idx/redis-store/txos.go:367-446 | a transaction that is ingested and rolled back, whose output has no row and is still under its tag |
| RedisEffects.UnlimitedAnswers | idx/redis-store/search.go:52-122 | an unlimited search for any of some keys answers exactly what lies strictly between the bounds under one of them, transaction ids skipped if only outputs or unspent ones are asked for |
| RedisEffects.UnlimitedAndAnswers | idx/redis-store/search.go:52-122 | and a search for all keys what lies between the bounds under each of them |
| RedisEffects.TagSearch | idx/redis-store/search.go:52-122 | over any run an unlimited search for a tag answers every output saved under it whose last score is in range, with that score, in order, and nothing else |
| PgStores.PGStore.SaveTxos | idx/pg-store/txos.go:192-370 | saving outputs runs the three upserts of each output in order |
| PgStores.PGStore.SaveSpends | idx/pg-store/txos.go:372-414 | saving spends runs the spend upsert, making stub rows with the current time as height, and the owners' log upsert |
| PgStores.PGStore.SetNewSpend | idx/pg-store/txos.go:490-504 | sets a spend if and only if there is none, and changes nothing else that can be read |
| PgStores.PGStore.UnsetSpends | idx/pg-store/txos.go:506-516 | clears the listed spends and nothing else |
| PgStores.PGStore.Rollback | idx/pg-store/txos.go:518-558 | the four statements clear the transaction's spends and delete its logs, data and rows |
| PgStores.PGStore.LogOnce | idx/pg-store/queue.go:48-60 | adds an entry if and only if there is none, and says so |
| PgStores.PGStore.Delog | idx/pg-store/queue.go:10-17 | afterwards exactly the named members of the key read as absent |
| PgRuns.ColumnsApart | idx/pg-store/txos.go:326-396 | saving outputs never changes a spend, saving spends never an output |
| PgRuns.RunLoads | idx/pg-store/txos.go:61-96 | agreeing statements leave the output that any of them wrote, in whatever order and however often they run |
| PgRuns.OutputsConverge | idx/pg-store/txos.go:299-414 | after any interleaving of the statements of compatible transactions an output reads as its transaction has it, stub rows made earlier by its spender included |
| PgRuns.SpendsConverge | idx/pg-store/txos.go:389-445 | and a spend reads as the transaction that spends the output |
| PgRuns.LogsConverge | idx/pg-store/txos.go:333-408 | after any interleaving a log entry has the score of the transaction that lists the member under that key, and is as before if none does |
| PgRuns.DataConverges | idx/pg-store/txos.go:353-366 | and a tag of an output the value its transaction gives it |
| PgRuns.LoadsWhatIsThere | idx/pg-store/txos.go:162-190 | loading tag values gives exactly those asked for that are there |
| PgRuns.OrderDoesNotMatter | idx/pg-store/txos.go:61-445 | any two interleavings, down to single statements, read the same: outputs, spends, tag values and log scores |
| PgRuns.RollbackUndoes | idx/pg-store/txos.go:518-558 | after any statements of a transaction that had left no trace, a rollback leaves outputs, data and logs as before, and spends too if and only if what it spent was unspent |
| PgRuns.IngestThenRollback | idx/ingest.go:89-101 | the same for the statements of a whole ingest with its log entries, for everything that can be read |
| PgRuns.OverwrittenSpendIsLost | idx/pg-store/txos.go:372-558 | the same in Postgres: ingesting and rolling back a second spender loses the first one's spend |
| InFlights.RunsKeepInv | jb/client.go:155-198 | at every moment of every interleaving each flight, its leader and its map entry agree |
| InFlights.OneLeaderPerUrl | jb/client.go:159-180 | between insert and delete a url has at most one leader |
| InFlights.JoinsItsUrl | jb/client.go:157-166 | whoever asks for a url is with a flight of that url from then on |
| InFlights.LeadersDeleteTheirOwn | jb/client.go:178-180 | a leader deletes its own flight and no other |
| InFlights.CompletedOnce | jb/client.go:173-181 | a flight is completed exactly once, after its result is in place |
| InFlights.FollowersGetTheBytes | jb/client.go:167-170 | every follower, even one joining between completion and delete, returns its leader's bytes, which are none after an error |
| InFlights.ResultsStay | jb/client.go:175 | a published result never changes |
| InFlights.WaitersAreServed | jb/client.go:169-181 | a waiting follower can wake up, or its leader has an enabled step that brings it nearer to completion |
| InFlights.LeadersServeWaiters | jb/client.go:159-181 | in every run, once the leader has taken the steps it had left (at most three), the waiting follower can wake up or has, whatever all others did in between |
| Dispatching.RunsKeepInv | ingest/ingest.go:559-661 | in every run at most Concurrency workers hold a slot, no transaction has two live workers, inflight is exactly the transactions whose done message is outstanding or that wait for a slot, and only ingested or missing ones were taken off the queue |
| DispatchRemovals.NextAfterIngest | ingest/ingest.go:629-653 | the next step of a worker that has ingested its transaction or could not find it: with a key and no callback it takes the transaction off the queue, unless that fails or it panics |
| DispatchRemovals.DeloggedIsOff | ingest/ingest.go:649-651 | right after that the transaction is not in the queue, and nothing else has left it |
| DispatchRemovals.QueueIs | ingest/ingest.go:559-661 | in every run the queue loses what was removed and nothing else; what arrives again is in it again |
| DispatchRemovals.DoneIsRemoved | ingest/ingest.go:607-661 | with a key and no callback, a worker that is done without a failure has taken its transaction off the queue |
| Dispatching.StuckIffBlocked | ingest/ingest.go:571-655 | the dispatcher is stuck if and only if the loop waits for a slot or a drain while every worker waits for the loop |
| Dispatching.StuckTakesErrors | ingest/ingest.go:621-655 | with at least one slot, being stuck takes a worker with an error to report; waiting for a slot, all of them |
| Dispatching.NoErrorsNoDeadlock | ingest/ingest.go:559-661 | runs in which no worker reports an error never get stuck |
| Dispatching.OneErrorDeadlocks | ingest/ingest.go:618-644 | a reachable deadlock with one slot, two transactions and one error |
| DispatchDeadlocks.StuckByErrors | ingest/ingest.go:559-661 | with at least one slot, some run with exactly n worker errors gets stuck if and only if n is at least one, within the limit if there is one, and no more than the slots if the loop stops at the first error |
| DispatchDeadlocks.FullHouseSticks | ingest/ingest.go:607-649 | one more transaction than slots in a page and an error from every worker leave the loop waiting for a slot for ever |
| DispatchDeadlocks.CancelledPageSticks | ingest/ingest.go:573-576 | a cancellation while any number of workers have errors to report leaves the loop waiting for them for ever |
| DispatchDeadlocks.LateErrorSticks | ingest/ingest.go:587-591 | the same after any number of errors that were heard, with a single one that was not |
| Scores.ScoresOrder | idx/index-context.go:16-21 | up to height 9,007,198 scores are exact, order transactions by height and position, and tell them apart |
| Scores.ScoresCollide | idx/index-context.go:16-21 | one block later two positions share a score |
| Scores.ScoresCollideIff | idx/index-context.go:16-21 | from 2^53 on and below height 2^24 - 1, two positions share a score if and only if they are the same or both lie at most one away from the same multiple of four |
| Scores.ScoreReadsBack | idx/redis-store/search.go:276-280 | heights and positions read back from exact scores, through a rounded division |
| Scores.HeightReadsBack | idx/redis-store/search.go:276 | the rounded quotient gives the right height for every position below height 2^24 |
| Scores.ReadsBackIffExact | idx/redis-store/search.go:276-280 | past the exact range a score reads back if and only if it needed no rounding |
| Scores.HeightReadsWrong | idx/redis-store/search.go:276-280 | a last position that reads back as the next block |
| Scores.TimeIsNear | idx/index-context.go:16-19 | the score of an unmined transaction is the current time to one part in 2^53 |
| Activity.SearchTxns | idx/redis-store/search.go:255-303 | one result per score in ascending order, with the first record's transaction and exactly the outputs of that score |
| Activity.ResultGathers | idx/redis-store/search.go:261-295 | for any records, a result is named after the first record of its score and holds exactly the outputs among the records of that score |
| Activity.ResultIsRight | idx/redis-store/search.go:261-295 | for mined activity a result has its transaction's height and position and exactly the outputs present |
| Activity.TransactionsInOrder | idx/redis-store/search.go:297-302 | mined activity gives exactly one result per transaction, strictly ascending by height and position |
| Audits.MinedWindowIff | ingest/ingest.go:260-266 | the window of mined transactions holds exactly those more than ten blocks deep, except positions so near the end of the last such block that rounding lifts them out |
| Audits.MinedWindowIsExact | ingest/ingest.go:260-266 | for every position but the last four of a thousand million, the window is exactly the mined transactions more than ten blocks deep |
| Audits.ArchiveTestsAgree | ingest/ingest.go:387-388 | the archive test at position 0 is exact, the one at the true position agrees with the window, and both agree below position 999,999,996 |
| Audits.LastPositionIsMissed | ingest/ingest.go:260-266 | a position deep enough that the window misses |
| Audits.WindowsAreDisjoint | ingest/ingest.go:186-193 | no entry is looked at by two audits |
| Audits.YoungBlocksAreLeftAlone | ingest/ingest.go:404-410 | a mined transaction that is not deep enough is looked at by none |
| Audits.TwoMinutesOld | ingest/ingest.go:185-193 | an attempt or an announced transaction is looked at if and only if it is more than two minutes old |
| Audits.TimesAreNoBlocks | ingest/ingest.go:402-410 | a current time, rounded, lies above the scores of all blocks |
| Subscriptions.Subscription.OnStatus | sub/sub.go:50-81 | status 199 writes and empties the buffer; 200 also records the block; the buffer is emptied even when writing fails |
| Subscriptions.RecordIff | sub/sub.go:64-76 | recording a block leaves everything through the progress queued if and only if no transaction dropped before it is missing |
| Subscriptions.FlushThenRecordIff | sub/sub.go:64-76 | at the end of one block, with nothing dropped before in the session: the progress is covered if and only if the batch is written, or all of the session's transactions through that block were queued already |
| Subscriptions.CoveredIffNothingLost | sub/sub.go:49-121 | in every run with crashes, restarts and failed batches, all block transactions from the start block through the recorded progress are queued at every moment if and only if no block is recorded over a dropped transaction that is not queued |
| Subscriptions.ProgressIsCovered | sub/sub.go:49-121 | in particular, when every batch is written, everything through the recorded progress is queued, whatever the crashes, at the progress or five blocks earlier |
| Subscriptions.FailedBatchIsLost | sub/sub.go:64-72 | a run in which a batch is not written and the restart skips it |
| Subscriptions.ScoresAreTold | sub/sub.go:87-110 | every entry of the queue was there before, or has the score of the block and position its transaction came with, or of the time it was seen unmined |
| Subscriptions.MempoolIsQueued | sub/sub.go:102-110 | an unmined transaction is queued at once under the time it was seen |
| Subscriptions.RestartsWhere | sub/sub.go:113-121 | a session starts at the first block asked for until more than six are recorded, then at the progress, or five blocks earlier if asked to |
| ChainFill.Blocks | blk/block.go:134-181 | the outcome: failed, none on the longest chain, a panic if and only if the links lead below the first entry, or entry k the ancestor at its distance, with gaps where the links end |
| ChainFill.OutcomeIs | blk/block.go:153-180 | the run ends with the last header on the longest chain, all later ones being answered and off it; a failed question before it makes the call fail, and no such header gives an empty answer |
| ChainFill.RunIsWhole | blk/block.go:153-175 | if the headers hold the chain from the block asked for through the last one on it, and none of it below, the run has no gaps, heights in order, and every block's parent before it |
| ChainFill.ParentHeaderPanics | blk/block.go:168-170 | with the parent of the first block among the headers the program panics |
| ChainFill.ParentHeaderExample | blk/block.go:168-170 | two headers for which the program panics |
| Outpoints.ParseOfPrint | lib/outpoint.go:34-53 | parsing the printed form of any 36 bytes gives back the same bytes |
| Outpoints.PrintIsInjective | lib/outpoint.go:51-53 | different outpoints print differently |
| Outpoints.PrintOfParse | lib/outpoint.go:34-53 | a text that parses is printed back unchanged if and only if it has an underscore, lower-case digits and no leading zero |
| Outpoints.HashAndNumber | lib/outpoint.go:22-25 | an outpoint made from a hash and a number has that number and parses from the reversed hash and the number |
| Outpoints.DigitsOf | lib/outpoint.go:51-53 | the printed digits: the last byte of the hash first, high digit before low; the number is read from its low byte |

## Left out

- HTTP routes, server-sent events, remote services and message encodings: answers of remote services are arbitrary inputs of the model.
- Scripts, signatures, addresses, Merkle proofs and fees: they live in a library that is not part of the repository; owners and proofs come in as given.
- The script parsers of the other indexers: each would add easy members only.
- The SQLite store: it repeats the Postgres logic, and its compare-and-set overwrites unconditionally.
- PostgreSQL search: one SQL statement per search; with several keys and no grouping it can answer a member twice.
- Tag and event entries in Redis after a rollback: rollback loads rows without tags, so it leaves those entries behind, and so does the model.
- Indexing.TxoStore.SaveTxos: does not model owners, events, log entries and the data of other tags; those are in RedisStores and PgStores.
- Indexing.IndexContext.ParseTxos: does not model owners and the data of the other indexers, which no origin depends on.
- Indexing.IndexContext.IngestTx: does not model the saving of spends, which is in RedisStores, PgStores and PgRuns.
- Broadcasting.SpendStore.RollbackSpends: does not model store errors; the steps of Broadcasting do.
- Broadcasting.SpendStore.ReserveInputs: does not model store errors and the rollback they lead to; the steps of Broadcasting do.
- Broadcasting.SpendStore.Broadcast: does not model store errors and other broadcasts; the steps of Broadcasting do. The checks of scripts and fees that come first are not modelled.
- RedisStores.RedisStore.SaveTxos: keeps only satoshis and owners of a row; publishing the events to listeners is not modelled.
- RedisStores.RedisStore.Rollback: keeps only satoshis and owners of a row.
- Broadcasting.ExecutionKeepsInv: does not model failing store calls that still take effect.
- RedisSearch.Search: does not model changes of the store between the fetches of one search.
- RedisStores.RedisStore.SearchBalance: does not model errors of the spend lookup service; the cached single-key balance is not modelled.
- Loading outputs for a search: with spends included, every output is given the first one's spend (idx/redis-store/search.go:214-216).
- PgStores.PGStore.SaveTxos: does not model the error Postgres raises when one output has the same event twice. The statements for the tag values of one output, one per tag, are one step in PgRuns.
- Loading the outputs of a transaction in Postgres: the loop never keeps an outpoint, so the call answers none (idx/pg-store/txos.go:151-159).
- Postgres batches: only the first result of a batch of log entries is looked at (idx/pg-store/queue.go:42-45); Subscriptions takes writing a batch as one step that succeeds or fails.
- InFlights.FollowersGetTheBytes: errors of a shared fetch reach the leader only, so nothing is said about the followers' errors.
- Dispatching.RunsKeepInv: does not model a remote call that never returns, nor what the ingest itself writes. A page is any list of queued transactions: its length and its order by score are not parameters. Leaving the wait group and being ready to send the done message are one step.
- DispatchDeadlocks.StuckByErrors: the runs it shows take pages as long as they need, so it does not say which numbers of errors suffice under a given page size.
- Audits.WindowsAreDisjoint: takes times in nanoseconds as exact; their rounding to 53 digits is not modelled.
- The no-proof branch of the mempool audit rolls back whatever the age of the entry; only the windows of the audits are modelled.
- Changing heights: re-ingesting a transaction after a reorganisation at another height is not modelled.
