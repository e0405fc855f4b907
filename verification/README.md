# What is proved about the Hydra payment demo

The repository moves value between Hydra heads. Four of its parts are modelled here, each as
the code has it, and the promises that span their functions are proved for all inputs, all runs
and all interleavings.

**The transaction signer.** `node-commit-utils.ts` signs a transaction by walking its CBOR bytes
and splicing a vkey witness into the witness set. `cbor.dfy` has the data items of RFC 8949 as
trees that keep every head as it was written, and their encoding; `cbor_walk.dfy` proves the
byte walker against it in both directions, `cbor_bytes.dfy` against the bytes of the RFC written
out, `cbor_unique.dfy` that bytes determine the item.
`witness.dfy` says what adding a witness means on trees, `witness_bytes.dfy` and
`witness_splice.dfy` prove the buffer code equal to that, `witness_room.dfy` when the result is
still one data item. `hex.dfy`, `tx_sign.dfy`, `tx_signed.dfy` and `tx_head.dfy` do the same for
whole transactions and lists of keys.

**The workflow queue.** `workflow_rows.dfy` has a row and every way a statement or transaction
writes to it. `workflow_store.dfy` and `workflow_routes.dfy` are the functions of `workflows.ts`
and the two routes over a table, with what other processes write between two statements of one
call as a parameter. `workflow_queue.dfy` is the state machine of all workers, routes, the
reconciler and operators, one statement a step; `workflow_steps.dfy` follows one workflow through
the step executor, crash by crash; `workflow_executor.dfy` is that executor as code;
`workflow_failures.dfy` has a run in which the steps come apart.

**The bridge and the lottery.** `htlc_data.dfy` has the datums and the test that recognizes
Ida's lock; `head_ledger.dfy` a head as a ledger; `bridge_runs.dfy` any number of bridge, relay
and payout runs over three heads; `bridge_books.dfy`, `bridge_results.dfy` and `bridge_locks.dfy`
what holds in all of them, `bridge_failures.dfy` runs in which Ida or a winner loses money.
`automation.dfy` is the sequential code, proved against functions made of those steps in
`automation_steps.dfy`, which also says of the starting state which answer is given when;
`automation_results.dfy` has the outputs that are made, field by field, and the whole effect of a
purchase, a relay and a payout.

**Smaller parts.** `hop_deadlines.dfy`: the timeouts of a payment over several heads.
`asset_maps.dfy`: flat and nested asset maps.

## Assumptions

- JavaScript numbers are exact integers (lengths below 2^53) and `Math.pow`, `parseFloat` are
  exact arithmetic. A read behind the end of a buffer, which yields `undefined` there, ends the
  walk with `RanOut`; what the source would go on to do with it is not modelled.
- Hashing and signatures are arbitrary functions with results of 32, 32 and 64 bytes. The request
  hash of the buy-ticket route is injective, so it is modelled as what it hashes.
- Every database statement or transaction is one atomic step. Worker ids are distinct, a process
  that has crashed does not come back under its id, and a worker runs one batch at a time, as
  `tickInFlight` in `worker.ts` sees to. The order of steps in `workflow_steps.dfy` further needs
  that leases run out only on stopped workers, and that re-queues meet rows that do not run; the
  code itself does not enforce either. Rows are never deleted.
- A head applies a transaction exactly when its inputs are unspent and its funds suffice, or
  rejects it for any reason (validity interval, preimage, signature). Fees are zero, wallets are
  balances, transaction hashes are fresh. Who locks for a buyer does it as `prepareBuyTicketDraft`
  builds it, and the hash in a workflow's payload is that of such a lock. Ida is not a
  buyer. The ticket script is parameterized with the same policy when locking and when paying out.

## Where the code does less than its comments say

- A count that is at 255 wraps: the new witness set is then no data item any more
  (`WitnessRoom.SplicedIsOneItem` is the exact condition).
- The signer takes the first byte of the transaction for the whole array head; RFC 8949 allows
  longer heads (`TxHead.RightIffOneByteHead`).
- `sendTx` resolves on the first `TxValid` message of the head's socket, whichever transaction it
  is about. Ida then may take without giving (`BridgeFailures.StrayAnswerTakes`); a run does so
  if and only if its target claim took such an answer and its source claim landed
  (`BridgeResults.TakesWithoutGiving`), and without such answers she never does
  (`BridgeResults.NeverTakeWithoutGiving`).
- The relay's lookup of its source asks for hash and receiver only, and so may find Ida's own
  unclaimed lock for the same hash (`BridgeResults.RelaySource`). Such a relay costs her the prize
  and the ticket, and leaves the payout where it is (`BridgeFailures.RelayTakesOwnLock`).
- The relay's lookup of its target asks for hash, receiver and prize. Where the prize equals the
  ticket cost, which nothing forbids, it may find the winner's own lock for the ticket
  (`BridgeResults.RelayTarget`): then Ida is paid twice and the winner not at all
  (`BridgeFailures.EqualPrizeTakesTwice`).
- A deferral's delay has no effect: the claim query takes pending rows whatever their retry time
  (`WorkflowRows.DueAgain`).
- Confirm of a payout reads the draft of the row as claimed, so the execution that submits never
  finishes (`WorkflowExecutor.PayoutNeedsAnotherExecution`).
- A request that loses the race to create a workflow gets the other's row without its payload
  being compared (second case of `WorkflowRoutes.BuyTicketPost`).
- Step writes carry no guard. A worker whose action outlasts its lease and then throws marks its
  step as failed in a workflow that another worker has finished
  (`WorkflowFailures.LateStepWrite`).
- Routes and reconciler write back the whole payload as they have read it. What was set in between
  is lost if and only if the write does not bring it itself (`WorkflowRoutes.LosesIffOverlooks`),
  and the limit on the reconciler's re-queues does not hold (`WorkflowRoutes.LimitNotKept`).
- Whole minutes per hop shrink exactly where `HopDeadlines.MinuteLess` says, and on every stretch
  upwards from a bound if and only if the bound is at least 19.995 (`HopDeadlines.ShrinksAbove`);
  at 19.9948 minutes two hops get the same (`HopDeadlines.JustBelowTwenty`).
- The empty unit comes back from the nested map as lovelace (`AssetMaps.FlatRoundTrip`).

## Model

| member | source | states |
|---|---|---|
| CborWalk.CborSkip | src/final-demo/scripts/lib/node-commit-utils.ts:56-115 | The recursive walker over the buffer returns what the walk over the bytes as a value returns, error for error; every call advances, so it ends |
| CborWalk.WalkBody | src/final-demo/scripts/lib/node-commit-utils.ts:93-114 | The loops over definite arrays and maps step over as many items as their head says |
| CborWalk.WalkOpen | src/final-demo/scripts/lib/node-commit-utils.ts:78-88 | The loops over indefinite strings, arrays and maps stop behind their break byte |
| CborWalk.ReadArgument | src/final-demo/scripts/lib/node-commit-utils.ts:63-77 | The argument of 1, 2, 4 or 8 bytes is read big-endian |
| CborWalk.SkipExact | src/final-demo/scripts/lib/node-commit-utils.ts:56-115 | The walker ends at an offset inside the buffer if and only if the bytes up to it encode one accepted item |
| CborWalk.SkipInvertsEncoding | src/final-demo/scripts/lib/node-commit-utils.ts:56-115 | For every well-formed item of RFC 8949, any nesting, any prefix and suffix: prefix length plus item length |
| CborBytes.PlainBytes | src/final-demo/scripts/lib/node-commit-utils.ts:56-115 | For every first byte, with the 1, 2, 4 or 8 bytes of the argument and their weights written out: numbers end behind it, strings as many bytes later, a tag with its content |
| CborBytes.ListBytes | src/final-demo/scripts/lib/node-commit-utils.ts:96-110 | An array ends with its last element and a map with its last value, as many as the argument says |
| CborBytes.OpenBytes | src/final-demo/scripts/lib/node-commit-utils.ts:78-88 | Without a length they end behind the first break byte that stands where an item would |
| CborBytes.OtherBytes | src/final-demo/scripts/lib/node-commit-utils.ts:60-92 | The reserved values 28 to 30 are the error; a head that is cut off runs out |
| CborWalk.WellFormedAccepted | src/final-demo/scripts/lib/node-commit-utils.ts:56-115 | Every well-formed data item of the RFC is among the items the walker accepts |
| CborWalk.PrefixFree | src/final-demo/scripts/lib/node-commit-utils.ts:56-115 | No encoding is a proper prefix of another, so item boundaries are unambiguous |
| CborUnique.Unique | src/final-demo/scripts/lib/node-commit-utils.ts:56-115 | Two accepted items with the same bytes are the same item |
| Witness.AddVKeyEffect | src/final-demo/scripts/lib/node-commit-utils.ts:117-225 | One witness more at the end; all other entries, their order and the tag 258 or its absence are kept; a new key 0 comes first and tagged |
| Witness.CountHeadVal | src/final-demo/scripts/lib/node-commit-utils.ts:157-158 | The one- or two-byte head written for a count means that count exactly below 256 |
| Witness.AddVKeyKeepsAccepted | src/final-demo/scripts/lib/node-commit-utils.ts:117-225 | With room for one more the result is again a well-counted item |
| WitnessRoom.SplicedIsOneItem | src/final-demo/scripts/lib/node-commit-utils.ts:156-203 | The spliced bytes are one data item if and only if the count that grows was below 255 |
| WitnessBytes.Set | src/final-demo/scripts/lib/node-commit-utils.ts:208-218 | A typed-array `set` appends to what has been written so far |
| WitnessBytes.Join | src/final-demo/scripts/lib/node-commit-utils.ts:206-219 | The six `set` calls with their running offset concatenate the six parts |
| WitnessBytes.InsertKeyZero | src/final-demo/scripts/lib/node-commit-utils.ts:156-172 | Header, new entry and existing entries are the encoding of the map with the entry in front |
| WitnessBytes.TagBefore | src/final-demo/scripts/lib/node-commit-utils.ts:179-183 | The three-byte test finds exactly tag 258 |
| WitnessBytes.ArrayHeader | src/final-demo/scripts/lib/node-commit-utils.ts:184-197 | Size and end of a one- or two-byte array head, or the error of the source |
| WitnessBytes.SkipElements | src/final-demo/scripts/lib/node-commit-utils.ts:198-199 | The element loop ends where the elements end |
| WitnessBytes.AppendAt | src/final-demo/scripts/lib/node-commit-utils.ts:174-220 | At key 0 the rebuilt bytes are the encoding of the map with the grown array, or the error of the tree operation |
| WitnessSplice.MapHeader | src/final-demo/scripts/lib/node-commit-utils.ts:130-143 | Size and end of a one- or two-byte map head, or the error of the source |
| WitnessSplice.HasKey0 | src/final-demo/scripts/lib/node-commit-utils.ts:145-154 | The first scan finds a key 0 if and only if the map has one, on item boundaries only |
| WitnessSplice.RewriteKeyZero | src/final-demo/scripts/lib/node-commit-utils.ts:174-224 | The second scan stops at the first key 0 too, and falls off its end exactly when there is none |
| WitnessSplice.EmptyMapCase | src/final-demo/scripts/lib/node-commit-utils.ts:118-128 | The special case for the one byte `a0` writes what the general insertion writes |
| WitnessSplice.AddVKeyToWitnessSet | src/final-demo/scripts/lib/node-commit-utils.ts:117-225 | On the bytes of any accepted item: the bytes of the tree operation or its error; the final throw of the source is unreachable |
| Hex.FromHex | src/final-demo/scripts/lib/node-commit-utils.ts:30-38 | The loop decodes pairs as `parseInt` reads them; odd lengths fail |
| Hex.AnySpelling | src/final-demo/scripts/lib/node-commit-utils.ts:30-38 | Capital or small digits, and white space around them, make no difference |
| Hex.DecodeInvertsToHex | src/final-demo/scripts/lib/node-commit-utils.ts:30-42 | Bytes survive the way through text |
| Hex.ToHexInvertsDecode | src/final-demo/scripts/lib/node-commit-utils.ts:30-42 | Text survives the way through bytes, up to case and outer white space, if and only if it holds digits only |
| TxSign.VKeyBytes | src/final-demo/scripts/lib/node-commit-utils.ts:246-255 | The 101 bytes written at their offsets are array head, key and signature in order |
| TxSign.VKeyEnc | src/final-demo/scripts/lib/node-commit-utils.ts:246-255 | Those bytes encode an array of two byte strings of 32 and 64 bytes |
| TxSign.SpliceTx | src/final-demo/scripts/lib/node-commit-utils.ts:241-268 | Everything before and after the witness set is copied; the signature is of the hash of the bytes between header and witness set |
| TxSign.SignTx | src/final-demo/scripts/lib/node-commit-utils.ts:227-268 | All outcomes, errors in their order |
| TxSign.SignTxCbor | src/final-demo/scripts/lib/node-commit-utils.ts:227-269 | The same from text to text |
| TxSigned.SignTransaction | src/final-demo/scripts/lib/node-commit-utils.ts:227-269 | For every encoded [body, witnesses, rest...] with a one-byte head: same head, body and rest byte for byte, and the witness set with one witness more |
| TxSigned.SignAllTransaction | src/final-demo/scripts/lib/node-commit-utils.ts:227-269 | Any list of keys while counts stay within 255: witnesses appended in order, each signing the same body; nothing else changes |
| TxHead.GrownSetClashes | src/final-demo/scripts/lib/node-commit-utils.ts:156-203 | A set with one witness more differs from the old one at a place that both have |
| TxHead.RightIffOneByteHead | src/final-demo/scripts/lib/node-commit-utils.ts:229-239 | For arrays below 24 elements, and indefinite ones: signing is right if and only if the head is one byte |
| WorkflowRows.DueAgain | src/final-demo/lib/workflows.ts:160-190 | When a row can be claimed again after each kind of write: leases and retry delays hold to the moment, finished rows never, deferred ones at once |
| WorkflowRows.RetryDelayDoubles | src/final-demo/lib/workflows.ts:411-412 | The retry delay doubles from two seconds up to a minute |
| WorkflowRows.DeferralDoubles | src/final-demo/lib/workflows.ts:461-474 | A deferral waits the base, twice as long at every attempt, from one second to two minutes |
| WorkflowRows.StepFields | src/final-demo/lib/workflows.ts:306-319 | A step that starts counts an attempt and the time, one that ends the time of its end |
| WorkflowQueue.RunKeeps | src/final-demo/lib/workflows.ts:68-501 | Every step of every worker, route and operator keeps the invariant of rows and tickets, and that there is one row per type and idempotency key |
| WorkflowQueue.CreatesIfFree | src/final-demo/lib/workflows.ts:68-116 | A row is created if and only if id and key are free; it has not been tried, and nobody is at it |
| WorkflowQueue.LockedRow | src/final-demo/lib/workflows.ts:134-501 | What each guarded write leaves in the row, field by field |
| WorkflowQueue.GoesOn | src/final-demo/worker.ts:18-35 | After an outcome or a lost lease the worker goes on with the rest of its batch |
| WorkflowQueue.Fencing | src/final-demo/lib/workflows.ts:134-213 | A guarded write takes effect only if no claim and no re-queue has touched the row since the claim of its execution |
| WorkflowQueue.OutcomesWithinClaims | src/final-demo/lib/workflows.ts:338-501 | Outcome writes never outnumber claims, and are one behind while the row runs |
| WorkflowQueue.AttemptsBounded | src/final-demo/lib/workflows.ts:397-442 | The attempt count is the number of recorded failures, at most the maximum plus re-queues since the last reset; failed rows have attempts left |
| WorkflowQueue.CancelledInTime | src/final-demo/lib/workflows.ts:397-442 | Without re-queues there are at most `maxAttempts` failures, and the last one cancels |
| WorkflowQueue.RowsWellFormed | src/final-demo/lib/workflows.ts:178-194 | Locked exactly while running, completed exactly when finished, retry time while failed and never when finished |
| WorkflowSteps.StepsSucceedInOrder | src/final-demo/lib/executor.ts:101-318 | In every run with crashes: confirmed implies submitted implies prepared and a persisted result; succeeded implies all three |
| WorkflowSteps.SubmitNotReplayed | src/final-demo/lib/executor.ts:82-84 | After the submit step has succeeded its action runs again only behind a re-queue that reset it |
| WorkflowSteps.OneExecution | src/final-demo/lib/workflows.ts:174-190 | At most one execution is live, and it owns the row |
| WorkflowFailures.LateStepWrite | src/final-demo/lib/executor.ts:124-165 | From every creation on there is a run, with a worker that outlives its lease, after which the workflow has succeeded and its first step has failed |
| WorkflowExecutor.Executor.ExecuteWorkflowStep | src/final-demo/lib/executor.ts:101-166 | Only this step is written: one attempt more, and the status that the end of its action earns |
| WorkflowExecutor.Executor.StepUnlessDone | src/final-demo/lib/executor.ts:173-206 | A step that was done when the row was loaded is left alone |
| WorkflowExecutor.Executor.RunSteps | src/final-demo/lib/executor.ts:211-318 | The first step whose action does not return ends the execution; every step up to it that was not done has what its action earned, and all others are untouched |
| WorkflowExecutor.Executor.Finish | src/final-demo/lib/executor.ts:578-613 | Which outcome each way of ending is turned into, and that a lost lease writes none |
| WorkflowExecutor.Executor.ExecuteWorkflow | src/final-demo/lib/executor.ts:552-614 | The whole execution: steps as their actions earn, and the whole row: succeeded with the result, failed with reason, code and the time of the next try, deferred, or left running with the last result persisted |
| WorkflowExecutor.PayoutNeedsAnotherExecution | src/final-demo/lib/executor.ts:320-362 | The execution that submits a payout ends as a failure; with a draft at claim time the relay decides |
| WorkflowStore.ClaimsInOrder | src/final-demo/lib/workflows.ts:160-213 | Under any interference: at most `limit` rows, a subsequence of the query's order |
| WorkflowStore.PickedDistinct | src/final-demo/lib/workflows.ts:160-213 | No row is claimed twice by one call |
| WorkflowStore.DueAtItsClaim | src/final-demo/lib/workflows.ts:174-192 | Under any interference: each claimed row was due at the statement that claimed it |
| WorkflowStore.ClaimsExactlyTheFirst | src/final-demo/lib/workflows.ts:160-213 | Without interference: exactly the first `limit` due rows by priority and age, all others unchanged |
| WorkflowStore.Store.ClaimDueWorkflows | src/final-demo/lib/workflows.ts:160-213 | The loop with its early end computes that, table and ids |
| WorkflowStore.Store.UpdateIf | src/final-demo/lib/workflows.ts:175-191 | An `updateMany` on one id: the count, and the one row it changes |
| WorkflowStore.Store.RefreshWorkflowLock | src/final-demo/lib/workflows.ts:134-148 | Extends a lease only while it is owned and alive, else the lock error |
| WorkflowStore.Store.SetWorkflowDraftResultLocked | src/final-demo/lib/workflows.ts:150-158 | Persists a result only under the lock |
| WorkflowStore.Store.MarkWorkflowSucceededLocked | src/final-demo/lib/workflows.ts:338-356 | Success only under the lock; the row then has the result and the time, and no lease, delay or error |
| WorkflowStore.Store.MarkWorkflowFailedLocked | src/final-demo/lib/workflows.ts:397-442 | Read and write with anything in between: the count read is the one written, and only under the lock at both |
| WorkflowStore.Store.MarkWorkflowDeferredLocked | src/final-demo/lib/workflows.ts:450-501 | The same for a deferral, whose delay comes from the step's attempts, read in a statement of its own, with anything before and after it |
| WorkflowStore.Store.RetryWorkflowNow | src/final-demo/lib/workflows.ts:228-297 | All refusals in their order; the re-queue or reset is decided on the row read, and written to the row as it is then; a reset forgets result, steps and attempts |
| WorkflowStore.EveryOneDecided | src/final-demo/lib/workflows.ts:570-594 | The four decisions of the reconciler exclude each other and leave nothing out |
| WorkflowStore.RequeuesIff | src/final-demo/lib/workflows.ts:542-594 | Which rows it queues again: artifacts and preimage there, not both claims on record, the limit not reached |
| WorkflowStore.Store.ReconcileBuyTicketClaims | src/final-demo/lib/workflows.ts:555-651 | Under any interference: scanned is re-queued plus the three skip counts, each counting its decision over the scanned part, which ends with the limit; exactly the decided rows are re-queued, each with the payload that the query returned |
| WorkflowRoutes.FindWorkflowByIdempotency | src/final-demo/lib/workflows.ts:299-304 | Finds a row of that type and key if and only if there is one |
| WorkflowRoutes.CreateWorkflow | src/final-demo/lib/workflows.ts:68-116 | Creates only if neither the lookup nor the insert meets a row of that key, and else returns that row |
| WorkflowRoutes.BuyTicketPost | src/final-demo/app/api/workflows/buy-ticket/route.ts:114-217 | Replay, mismatch, patch with re-queue, and creation, and the table after each; the payload then has, field by field, what the request has sent, and else what was read |
| WorkflowRoutes.NormalizedIff | src/final-demo/app/api/workflows/buy-ticket/route.ts:33-50 | Two requests have the same hash if and only if they differ in white space, and in case where it does not matter, alone |
| WorkflowRoutes.HtlcSubmitPost | src/final-demo/app/api/hydra-ops/htlc/submit/route.ts:22-86 | Transaction, reference and preimage are stored under their own names, all else stays as read; a row that was running keeps its lease, any other is queued again; nothing happens when nothing is new |
| WorkflowRoutes.ReconcilerEnacts | src/final-demo/lib/workflows.ts:570-618 | The reconciler does to the table what its event does to the row it has read, as both routes do by their contracts |
| WorkflowRoutes.PromiseStays | src/final-demo/app/api/workflows/buy-ticket/route.ts:147-177 | What the request asked for never changes, whatever was read when |
| WorkflowRoutes.LosesIffOverlooks | src/final-demo/app/api/workflows/buy-ticket/route.ts:136-164 | A write of a route or the reconciler unsets something if and only if it was set after that write's read, and the write does not bring it |
| WorkflowRoutes.PayloadHistory | src/final-demo/app/api/hydra-ops/htlc/submit/route.ts:32-60 | From any point of any run on, what has been set stays set while no write overlooks it |
| WorkflowRoutes.CounterCounts | src/final-demo/lib/workflows.ts:596-601 | The counter in the payload never exceeds the reconciler's re-queues, and equals them while every write meets the counter it has read |
| WorkflowRoutes.ReconcilerStops | src/final-demo/lib/workflows.ts:591-594 | Under the same condition the reconciler re-queues a row at most `maxRequeues` times |
| WorkflowRoutes.AtomicIsFresh | src/final-demo/lib/workflows.ts:555-601 | Both conditions hold where every write follows its read at once |
| WorkflowRoutes.LimitNotKept | src/final-demo/lib/workflows.ts:591-601 | Without it: for every number there is a run with that many re-queues under a limit of one, in which the buy-ticket route writes what it read before each of them |
| HtlcData.RecognizedIff | src/final-demo/lib/services/ticket-service.ts:145-204 | Which datums are recognized, field by field, with no timeout among them |
| HtlcData.MatchIffSamePurchase | src/final-demo/lib/services/ticket-service.ts:145-204 | A lock made at any time is recognized at any other, by exactly the same purchase |
| BridgeLocks.AtMostOneLock | src/final-demo/lib/services/ticket-service.ts:206-308 | After any sequence of calls, spendings and outputs of others there is at most one unspent lock per purchase, and those that others made to match it |
| BridgeLocks.EnsureTwiceIsOnce | src/final-demo/lib/services/ticket-service.ts:250-308 | After a call there is exactly one, and calling again at any time changes nothing |
| HeadLedger.ClaimConserves | src/final-demo/lib/services/ticket-service.ts:324-366 | A claim moves value and makes none |
| HeadLedger.PayWinnerConserves | src/final-demo/lib/hydra/ops-pay-random-winner.ts:307-333 | So does a payout |
| BridgeRuns.HeadsConserve | src/final-demo/lib/services/ticket-service.ts:279-366 | The lovelace of every head is the same after every run |
| BridgeBooks.StepsKeep | src/final-demo/lib/services/ticket-service.ts:368-549 | In every run: outputs look as their makers built them, and each claim spends an output of the kind its run is meant to spend |
| BridgeBooks.BooksBalance | src/final-demo/lib/hydra/ops-pay-random-winner.ts:401-506 | Bridges, relays and payouts together: Ida's wallets and open locks differ from the start by what her claims were worth |
| BridgeResults.TicketBooks | src/final-demo/lib/services/ticket-service.ts:432-566 | The bridge alone: funds on all heads plus open head-B locks are the initial sum plus ticket cost times source claims minus target claims |
| BridgeResults.FindsOwnHash | src/final-demo/lib/services/ticket-service.ts:368-405 | Every lookup finds locks for Ida under the hash of its run, of the transaction it asks for, and for the prize where it asks for it |
| BridgeResults.ClaimsOwnHash | src/final-demo/lib/hydra/ops-pay-random-winner.ts:414-445 | In every run: what is claimed, as target and as source, is locked by the hash of the run that claims it |
| BridgeResults.NeverTakeWithoutGiving | src/final-demo/lib/services/ticket-service.ts:508-549 | For each hash, bridge and relay: no more outputs locked by it are claimed as sources than as targets and stray answers, and no more than as targets without those |
| BridgeResults.TakesWithoutGiving | src/final-demo/lib/hydra/ops-handler.ts:46-52 | Run by run: it takes without giving if and only if its target claim took another transaction's answer and its source claim landed |
| BridgeFailures.StrayAnswerTakes | src/final-demo/lib/hydra/ops-handler.ts:46-52 | From every start with the money there is a run in which a stray answer makes Ida take without giving |
| BridgeResults.LotteryPaysOnce | src/final-demo/lib/hydra/ops-pay-random-winner.ts:261-346 | In every run: paid at most once, the prize leaves exactly then, and the control token stays in the one continuing output |
| BridgeResults.RelaySource | src/final-demo/lib/hydra/ops-pay-random-winner.ts:414-417 | The relay has found the payout if and only if the output asks for Ida's address; else it is her own lock |
| BridgeFailures.RelayTakesOwnLock | src/final-demo/lib/hydra/ops-pay-random-winner.ts:414-417 | From every start with the money there is a run whose relay takes her own lock, and costs her ticket and prize while the payout stays |
| BridgeResults.RelayTarget | src/final-demo/lib/hydra/ops-pay-random-winner.ts:441-445 | The target it has found is her lock if and only if the output asks for another address than hers, always so where cost and prize differ |
| BridgeFailures.EqualPrizeTakesTwice | src/final-demo/lib/hydra/ops-pay-random-winner.ts:441-445 | From every start with the money where cost and prize are the same there is a run that pays Ida twice and the winner not at all |
| Automation.Service.LookUp | src/final-demo/lib/services/ticket-service.ts:256-276 | The first output that the lookup accepts, or none if there is none |
| Automation.Service.EnsureHeadBIdaLock | src/final-demo/lib/services/ticket-service.ts:206-308 | Fails if and only if nothing matches and the money or the submission fails; else reuses the first match and leaves the head alone, or locks, with every field of lock, ticket and payout stated |
| Automation.Service.ClaimIdaHtlcOnHead | src/final-demo/lib/services/ticket-service.ts:324-366 | When it returns, given that a claim lands only until 20 minutes before the timeout, what the run has spent, and wallets and outputs of the head afterwards |
| Automation.Service.DetectPair | src/final-demo/lib/services/ticket-service.ts:407-430 | Goes on exactly when both locks are there |
| AutomationSteps.TargetMissing | src/final-demo/lib/services/ticket-service.ts:407-430 | After a lock that did not fail, the target is missing if and only if it was sent, rejected, and taken for done on a stray answer |
| Automation.Service.ClaimPair | src/final-demo/lib/services/ticket-service.ts:508-549 | Claims the target, looks at the source again, and claims it, each with its own end: answer and state are the function whose meaning `AutomationSteps.BuyVerdict` gives |
| AutomationSteps.BuyVerdict | src/final-demo/lib/services/ticket-service.ts:432-566 | Which answer is given when, and what has been claimed then, said of the starting state alone: lock or money, source, target, time left, and the ends of the three submissions |
| AutomationResults.BuySucceeds | src/final-demo/lib/services/ticket-service.ts:432-566 | With money, a source and all submissions applied: the normal end if and only if both locks have more than 20 minutes left, and then the buyer's ticket is on head B, paid by Ida, and she has its cost on the buyer's head |
| Automation.ValidOrderIff | src/final-demo/lib/services/ticket-service.ts:64-79 | Which orders are refused at once |
| Automation.Service.BuyTicket | src/final-demo/lib/services/ticket-service.ts:432-566 | All errors in their order, each exactly under its condition, and claims as they say; the success case above, with timeouts counted from the clock in minutes of the order |
| Automation.Service.PickTickets | src/final-demo/lib/hydra/ops-pay-random-winner.ts:115-127 | The tickets of this lottery in their order |
| AutomationResults.EligibleIff | src/final-demo/lib/hydra/ops-pay-random-winner.ts:92-127 | Eligible if and only if at the ticket script and naming this lottery, up to white space, case and a leading 0x |
| AutomationResults.TwoMinutes | src/final-demo/lib/hydra/ops-pay-random-winner.ts:270-284 | Too early exactly before two minutes after the close |
| AutomationResults.PaidIsWinnerPaid | src/final-demo/lib/hydra/ops-pay-random-winner.ts:307-333 | The payout on head B: the prize under the lock that the ticket carried, the lottery less the prize and marked, all other outputs as before |
| Automation.Service.SubmitPayRandomLotteryWinner | src/final-demo/lib/hydra/ops-pay-random-winner.ts:247-399 | An unpaid lottery, two minutes after its close, with the prize and a ticket pays the drawn ticket if the transaction lands; else which refusal it is, in their order, and that nothing changes |
| AutomationSteps.RelayVerdict | src/final-demo/lib/hydra/ops-pay-random-winner.ts:401-506 | Which answer the relay gives when, and what has been claimed then, said of the starting state: source, target or the money for one, time left, and the ends of the submissions |
| AutomationResults.RelaySucceeds | src/final-demo/lib/hydra/ops-pay-random-winner.ts:401-506 | With a source, no target, money and all submissions applied: the normal end if and only if the source has more than 20 minutes left, which its lock for the winner then has too; the winner has the prize, and Ida the payout |
| Automation.Service.RelayPayRandomLotteryWinner | src/final-demo/lib/hydra/ops-pay-random-winner.ts:401-506 | The same of the code, on the winner's head; up to the claims nothing is claimed, and a normal end has given first |
| HopDeadlines.MinuteLess | src/client/lib/use-payment-orchestration.ts:139-144 | The next hop gets at least one whole minute less, after both roundings, if and only if 95 times the minutes of this one, plus a half, is below 100 times its whole minutes |
| HopDeadlines.ShrinksFrom | src/client/lib/use-payment-orchestration.ts:139-144 | That is so from 19.995 minutes up |
| HopDeadlines.ShrinksAbove | src/client/lib/use-payment-orchestration.ts:139-144 | And no lower bound is enough |
| HopDeadlines.JustBelowTwenty | src/client/lib/use-payment-orchestration.ts:139-144 | At 19.9948 minutes it does not |
| HopDeadlines.HopLess | src/client/lib/use-payment-orchestration.ts:139-144 | The same for hop k and hop k+1 of any base |
| HopDeadlines.NextShare | src/client/lib/use-payment-orchestration.ts:139-144 | The first hop gets the base, each next one 95 hundredths of the one before |
| HopDeadlines.DeadlineMinutes | src/client/app/api/hydra/[headRoute]/htlc/claim/route.ts:126-132 | Deadline and claim window of a hop in minutes after its lock |
| HopDeadlines.ExecuteStep | src/client/lib/use-payment-orchestration.ts:324-379 | The first attempt that works counts; none if and only if none works before a cancellation |
| HopDeadlines.ExecutePayment | src/client/lib/use-payment-orchestration.ts:231-413 | Hops are locked in order, each confirmed before the next, each with the deadline of its place; all of them if and only if every hop passes, and else why it was aborted or thrown at the first that does not |
| HopDeadlines.MinuteIsInTime | src/client/app/api/hydra/[headRoute]/htlc/lock/route.ts:102 | Locks that follow within a minute, while the hop before shrinks, as from 19.995 minutes up, follow in time |
| HopDeadlines.ClaimsNest | src/client/app/api/hydra/[headRoute]/htlc/claim/route.ts:126-132 | Then any moment valid for claiming a later hop is valid for every earlier one |
| HopDeadlines.TooLate | src/client/app/api/hydra/[headRoute]/htlc/claim/route.ts:126-132 | And for two neighbouring hops only then |
| AssetMaps.AssetsToDataPairs | src/final-demo/lib/hydra/ops-utils.ts:43-57 | In any order of the entries: every unit's quantity under its policy and name, and nothing else |
| AssetMaps.DataPairsToAssets | src/final-demo/lib/hydra/ops-utils.ts:59-82 | In any order of policies and names: every quantity under its unit, and nothing else |
| AssetMaps.Units | src/final-demo/lib/hydra/ops-utils.ts:43-82 | A unit is 56 digits of policy and a name, or lovelace |
| AssetMaps.FlatRoundTrip | src/final-demo/lib/hydra/ops-utils.ts:43-82 | Flat, nested, flat is the same again if and only if there is no empty unit |
| AssetMaps.NestedRoundTrip | src/final-demo/lib/hydra/ops-utils.ts:43-82 | Nested, flat, nested is the same again if and only if no inner map is empty and policies and names can be told apart |

## Left out

- TxHead.RightIffOneByteHead: does not decide arrays of 24 and more elements with a longer head. A transaction has four, and for a count byte that happens to read as a tag the question turns on hash collisions.
- Automation.Service.BuyTicket: leaves out the probes of both heads, the mode switch and the format of preimages, all of which throw before anything is claimed.
- WorkflowSteps.StepsSucceedInOrder: does not cover workers that outlive their lease, for which it is false, nor re-queues of running rows.
- WorkflowSteps.SubmitNotReplayed: the same restriction.
- WorkflowSteps.OneExecution: the same restriction.
- Hex.FromHex: lower-cases ASCII letters only; other letters are never digits, but one of them lower-cases to two characters.
- Truncated and malformed CBOR: the indefinite loops of the source need not end there.
- The fallback branch of `executeWorkflow` for other workflow types, which no type reaches, and head operations by child processes.
- Workflow events, error codes derived from messages, queue counters and health snapshots: they are written and never read back by the queue.
- Exactly one ticket or payout per purchase: a crash between the two claims makes the next run lock a second time.
- Refunds: no code of the final demo builds one. Minting and closing lotteries, fees, tokens other than the control token.
- The final claim of a client payment (`waitForHtlcClaimed` reads an absent output as a claimed one), vesting outputs, and amounts in floating point.
- Non-integer quantities in nested asset maps, which throw.
- User interface, wallet connectors, HTTP and WebSocket plumbing, configuration, key files, and the opening of heads.
