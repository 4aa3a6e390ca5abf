# Lotus block polling and block-with-receipts getter

This project models the block acquisition core of the FEVM/Lotus block
producer in Dafny and proves what it promises.

- `LotusBlockGetter` (`lotus_block_getter.dfy`) fetches one block and looks
  up every transaction's receipt. A lookup that throws is retried at once with
  `errorCount + 1`. Once `errorCount >= maxRetries` it rethrows. A `null`
  receipt means "absent": it is not an error and the transaction is dropped.
  The block keeps, in block order, the transactions whose receipt was found.
  The first exhausted lookup aborts the whole block.
- `LotusBlockPoller` (`lotus_block_polling.dfy`) is a class. Its fields are
  the live session token `pollingId`, the `clock` that mints tokens, and the
  observer calls made so far (`events`). `Subscribe` makes a fresh token live.
  `Unsubscribe` clears it. `StartBlockPolling` is the session loop. Each pass
  asks for the head and walks heights `lastBlockNumber + 1 .. latest` in
  ascending order:
  - a fetched block is emitted with `next` and becomes the cursor;
  - a null round (the node's message "Returned error: requested epoch was a
    null round") becomes the cursor silently;
  - any other `Error` is reported with `error` and the cursor stays;
  - a thrown non-`Error` is swallowed.
  The loop stops once its token is not the live one. An error from the head
  query is reported once and ends the session.

The node client and the timing are an oracle:
- `Eth` gives the block reply per block number and call number, and the
  receipt reply per hash and attempt number.
- `PassOracle` gives, for one pass, the head, the fetch outcome per height,
  and what another caller did (`Quiet`, `Unsubscribed`, `Resubscribed`)
  while the head query or each fetch was in flight. Those concurrent calls
  are applied through the class's own `Subscribe` and `Unsubscribe`.

`Subscribe`, `Unsubscribe` and the constructor state their new fields
directly. The loop methods are proved against pure functions: `Step` is one
height, `Walk` the `for` loop, `Pass` one iteration of the `while` loop, and
`Session` the whole loop. The lemmas state the source's promises about those
functions.

Two consequences of the code are worth knowing:
- The comment at internal/block_subscription/lotus_block_polling.ts:72-73
  says a block is not emitted once a new subscription was made while it was
  fetched. The token is checked only after a fetch that succeeded (lines
  74-76). The `catch` at lines 80-91 runs without a check, so a fetch that
  fails with a non-null-round error after the session was replaced is still
  reported to the observer (`SupersededFailureStillReported`).
- A block that failed with an error other than a null round leaves the
  cursor where it was (lines 86-90). It is skipped for good only when a later
  height in the same pass moves the cursor (lines 79 and 84). Otherwise the
  next pass starts at the cursor plus one (line 68) and fetches it again
  (`FailedHeightRetriedIffNoLaterAdvance`).

## Model

| member | source | states |
|---|---|---|
| `LotusBlockGetter.GetLotusTransactionReceipt` | internal/block_getters/lotus_block_getter.ts:62-78 | a failed lookup rethrows exactly what the last permitted attempt (number `max(errorCount, maxRetries)`) threw |
| `LotusBlockGetter.LookupSettlesAtFirstNonThrow` | internal/block_getters/lotus_block_getter.ts:62-77 | the first attempt within the retry budget that does not throw decides the lookup: a receipt is returned formatted, and `null` gives "absent" with no retry and no error |
| `LotusBlockGetter.LookupFailsWhenEveryAttemptThrows` | internal/block_getters/lotus_block_getter.ts:71-76 | if every attempt up to `maxRetries` throws, the lookup fails with the last attempt's error |
| `LotusBlockGetter.LookupMakesAtMostMaxRetriesPlusOneAttempts` | internal/block_getters/lotus_block_getter.ts:71-76 | the result depends only on attempts `0..maxRetries`, so at most `maxRetries + 1` attempts are made (one when `maxRetries` is 0) |
| `LotusBlockGetter.KeptTransactions` | internal/block_getters/lotus_block_getter.ts:29-41 | the kept transactions are no more than the block's, and each one is a block transaction merged with the receipt found for its own hash |
| `LotusBlockGetter.FirstReceiptFailure` | internal/block_getters/lotus_block_getter.ts:31-32 | no lookup failure is reported exactly when every transaction's lookup succeeded |
| `LotusBlockGetter.KeptIncludesEveryFoundReceipt` | internal/block_getters/lotus_block_getter.ts:31-40 | every transaction whose lookup found a receipt is in the block, merged with that receipt |
| `LotusBlockGetter.FirstFailureIsEarliest` | internal/block_getters/lotus_block_getter.ts:31-32 | the error that aborts a block is the one of its earliest failing lookup in block order |
| `LotusBlockGetter.GetBlockWithTransactionReceipts` | internal/block_getters/lotus_block_getter.ts:25-47 | the result is decided by the first getBlock call alone: its failure propagates unretried; an exhausted receipt lookup aborts the block with no partial result; otherwise the block holds, in order, exactly the transactions whose receipt was found; the result equals `BlockResult` |
| `LotusBlockGetter.BlockFetchedOnce` | internal/block_getters/lotus_block_getter.ts:26 | getBlock is called once: two clients that agree on the receipt replies and on the first getBlock call give the same result, whatever a second call would return |
| `LotusBlockGetter.SameReceiptsSameAssembly` | internal/block_getters/lotus_block_getter.ts:29-41 | the kept transactions and the aborting failure depend on the client's receipt replies alone |
| `LotusBlockPolling.Interleave` | internal/block_subscription/lotus_block_polling.ts:32-54 | a concurrent `subscribe` or `unsubscribe` leaves no earlier token live, never moves the clock back, and keeps every issued token below the clock |
| `LotusBlockPolling.Step` | internal/block_subscription/lotus_block_polling.ts:69-92 | one height makes at most one observer call, appended after the earlier ones, moves the cursor to no further than that height, never moves the clock back, and a `next` it makes is for that height, which becomes the cursor |
| `LotusBlockPolling.Walk` | internal/block_subscription/lotus_block_polling.ts:68-94 | the `for` loop makes at most one observer call per height, only appends calls, keeps its cursor between the start cursor and the last height, and never moves the clock back |
| `LotusBlockPolling.Pass` | internal/block_subscription/lotus_block_polling.ts:61-94 | a pass only appends observer calls, never lowers the cursor or the clock, and lets an error escape the loop body exactly when the head query threw (a stale token also ends the loop, through the loop condition) |
| `LotusBlockPolling.Session` | internal/block_subscription/lotus_block_polling.ts:58-101 | the session loop only appends observer calls and never lowers the cursor or the clock, so a token minted after it is above every token issued before |
| `LotusBlockPolling.EventsAt` | internal/block_subscription/lotus_block_polling.ts:78-91 | a height yields at most one observer call; it is a `next` exactly when the fetch succeeded, and none when the height is a null round or the throw is not an `Error` |
| `LotusBlockPolling.StepEmitsInOrder` | internal/block_subscription/lotus_block_polling.ts:78-79 | a `next` at a height is for that height, which becomes the cursor |
| `LotusBlockPolling.WalkEmitsInOrder` | internal/block_subscription/lotus_block_polling.ts:68-94 | within one pass the emitted heights strictly increase and lie between the start cursor and the final cursor |
| `LotusBlockPolling.PassEmitsInOrder` | internal/block_subscription/lotus_block_polling.ts:61-94 | a whole pass emits strictly increasing heights above the cursor it started from |
| `LotusBlockPolling.SessionEmitsInOrder` | internal/block_subscription/lotus_block_polling.ts:58-95 | within one session the cursor never decreases and the emitted block numbers strictly increase, all after the start cursor and none past the final cursor |
| `LotusBlockPolling.QuietStep` | internal/block_subscription/lotus_block_polling.ts:69-92 | with nobody else subscribing, a height moves the cursor to itself exactly when it succeeded or is a null round, and appends its own observer calls |
| `LotusBlockPolling.QuietWalkEvents` | internal/block_subscription/lotus_block_polling.ts:68-94 | a walk nobody interrupts makes exactly the per-height observer calls, in height order, and the session stays live |
| `LotusBlockPolling.QuietWalkCursor` | internal/block_subscription/lotus_block_polling.ts:68-94 | a walk nobody interrupts leaves the cursor at the highest height that succeeded or was a null round, or where it was if none did |
| `LotusBlockPolling.QuietPassWalks` | internal/block_subscription/lotus_block_polling.ts:61-68 | when nobody subscribed or unsubscribed during the head query and the head is above the cursor, a pass walks heights `lastBlockNumber + 1 .. latest` |
| `LotusBlockPolling.FailedHeightReported` | internal/block_subscription/lotus_block_polling.ts:86-90 | in a pass where nobody subscribed or unsubscribed during the head query or any fetch, a non-null-round `Error` at a height reaches the observer as an `error` call |
| `LotusBlockPolling.FailedHeightRetriedIffNoLaterAdvance` | internal/block_subscription/lotus_block_polling.ts:68-90 | in a pass where nobody subscribed or unsubscribed during the head query or any fetch, the cursor stays below a height that failed with another error, so the next pass fetches it again, exactly when no later height of the pass succeeded or was a null round |
| `LotusBlockPolling.IdlePass` | internal/block_subscription/lotus_block_polling.ts:64-68 | when the head is not above the cursor the pass emits nothing and leaves the cursor unchanged |
| `LotusBlockPolling.SupersededFetchNotEmitted` | internal/block_subscription/lotus_block_polling.ts:70-76 | a block fetched while another caller replaced or cleared the session is not emitted, the cursor stays, and the session's loop ends |
| `LotusBlockPolling.SupersededFailureStillReported` | internal/block_subscription/lotus_block_polling.ts:80-90 | a non-null-round `Error` from a fetch is reported even when the session was replaced while it was in flight |
| `LotusBlockPolling.InterruptedHeadEmitsNothing` | internal/block_subscription/lotus_block_polling.ts:60-68 | when another caller subscribed or unsubscribed during the head query, the pass fetches and emits nothing and the session is no longer live |
| `LotusBlockPolling.WalkEmitsOnlyQuietFetches` | internal/block_subscription/lotus_block_polling.ts:68-79 | a walk emits a block only if nobody subscribed or unsubscribed while it or any earlier height of the walk was fetched, so after another caller does either the old session emits no further `next` |
| `LotusBlockPolling.SupersededSilentFetchEndsWalk` | internal/block_subscription/lotus_block_polling.ts:68-91 | a null round, or a throw that is not an `Error`, during which another caller subscribed or unsubscribed makes no observer call and ends the walk at the loop condition |
| `LotusBlockPolling.StaleSessionRunsNoPass` | internal/block_subscription/lotus_block_polling.ts:60 | a session whose token is no longer live, or whose body threw, runs no further pass |
| `LotusBlockPolling.HeadFailureEndsSession` | internal/block_subscription/lotus_block_polling.ts:97-101 | an error from the head query yields one `error` call and ends the session; later passes never run |
| `LotusBlockPolling.IdlePassesThenThreeBlocks` | internal/block_subscription/lotus_block_polling.ts:60-79 | with start block 6 and heads 5, 5, 5, 8, the observer receives blocks 6, 7, 8 in that order, once each, and the cursor ends at 8 |
| `LotusBlockPolling.NullRoundSkippedSilently` | internal/block_subscription/lotus_block_polling.ts:83-85 | a null round at 7 between good blocks 6 and 8 gives blocks 6 and 8, no error, and the next pass resumes at 9 |
| `LotusBlockPolling.OtherErrorSkipsBlock` | internal/block_subscription/lotus_block_polling.ts:86-90 | another error at 7 between good blocks 6 and 8 gives block 6, one error, then block 8; the cursor ends at 8, so block 7 is skipped for good |
| `LotusBlockPolling.LotusBlockPoller.constructor` | internal/block_subscription/lotus_block_polling.ts:13-22 | a new poller has no live session and has made no observer call |
| `LotusBlockPolling.LotusBlockPoller.Subscribe` | internal/block_subscription/lotus_block_polling.ts:32-38 | mints a token above every token issued before and makes it the live one, so the previous session's loop condition becomes false |
| `LotusBlockPolling.LotusBlockPoller.Unsubscribe` | internal/block_subscription/lotus_block_polling.ts:51-54 | clears the live token, returns true, and changes nothing else |
| `LotusBlockPolling.LotusBlockPoller.Interleaved` | internal/block_subscription/lotus_block_polling.ts:32-54 | a concurrent caller's `subscribe` or `unsubscribe` changes the fields as `Interleave` says |
| `LotusBlockPolling.LotusBlockPoller.RunPass` | internal/block_subscription/lotus_block_polling.ts:61-94 | one iteration of the `while` loop leaves the poller and the cursor as `Pass` says |
| `LotusBlockPolling.LotusBlockPoller.PollHeights` | internal/block_subscription/lotus_block_polling.ts:68-94 | the `for` loop, including its `break`, leaves the poller and the cursor as `Walk` says |
| `LotusBlockPolling.LotusBlockPoller.StartBlockPolling` | internal/block_subscription/lotus_block_polling.ts:56-102 | the session loop started at `startBlock - 1` leaves the poller as `Session` says |

## Left out

- internal/block_getters/lotus_block_getter_worker.ts is not part of this model. It is worker-thread plumbing: process exit, a WebSocket provider, and messages posted back with the request's `callBackId`.
- public/block_producers/lotus_block_polling_producer.ts is not part of this model. It only wires the poller and the getter to a database, an encoder and the producer base class.
- The node client (`eth.getBlock`, `eth.getTransactionReceipt`, `getLatestBlockNumber`) is an oracle, not an implementation. The block reply is indexed by block number and call number. The receipt reply is indexed by hash and attempt number, so a hash that appears twice in one block sees the same replies.
- The base-class formatters (`formatTransactionReceipt`, `formatTransactionObject`, `formatBlockWithTransactions`) and `BlockProducerError.createUnknown` are opaque constructors.
- `getBlockWithTransactionReceipts` accepts a block number or a string tag in the source; the model takes only numbers.
- Real asynchrony is not modelled. A concurrent `subscribe` or `unsubscribe` is an oracle flag per awaited call. One flag stands for all the calls made during one await, by their net effect on the live token: a `subscribe` followed by an `unsubscribe` is `Unsubscribed`. The clock then advances by fewer steps than the real calls would take, which changes no token comparison the loop makes. `subscribe` does not await its loop, so the model's `Subscribe` returns the minted token and the loop runs as a separate `StartBlockPolling` call with that token.
- The `catch` in `subscribe` is left out: an async function returns a promise and does not throw synchronously, so that branch cannot run.
- LotusBlockPolling.LotusBlockPoller.Subscribe: the token comes from a counter that always advances. `Date.now()` has millisecond resolution and can return the same value twice, which the model does not capture.
- The `setTimeout` sleep of `blockPollingTimeout` milliseconds is a step that changes no state. It is also an await, so another caller may subscribe or unsubscribe during it. The model folds such calls into the head query's flag `duringHead`. That is sound because the sleep runs only when the head is not above the cursor, and then the walk after it fetches nothing. `blockPollingTimeout` is kept as a field but plays no other part.
- LotusBlockPolling.LotusBlockPoller.StartBlockPolling: the source loop runs until its token changes or an error escapes. The model runs at most one pass per oracle entry, so it describes every finite prefix of a session.
- The observer's `next` and `error` are assumed not to throw. In the source, a throw from `next` inside the per-height `try` would be handled like a failed fetch.
- The observer's `next` and `error` are assumed not to call `subscribe` or `unsubscribe` synchronously. Concurrent calls are modelled only while an awaited call is in flight. An `unsubscribe` made from inside `next` would stop the `for` loop before the next fetch, through its condition at internal/block_subscription/lotus_block_polling.ts:68. The model cannot express that case.
- Logging (`Logger`, `console.log`) is left out.
- `Event.Next` records the loop height beside the block so that ordering can be stated. The observer itself receives only the block.
