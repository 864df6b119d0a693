# Deposit relayer — a Dafny model of the relay state machine

The relayer watches the bridge contracts of several source chains for
`Deposit` events and settles each deposit on the destination chain by calling
`processBridgeDeposit`. This project models the deterministic core of
`index.js` once the chain I/O is made an input:

- **Poller** (`pollChainForEvents`): from the chain head and the stored
  cursor, compute the scan range `[max(lastBlock + 1, head - 100), head]`.
  A missing cursor, or a stored cursor of 0 (the source tests with `||`),
  defaults to `head - 10`. An empty range is a no-op. The events in the range
  are handled in order. After that the cursor becomes the head. An error from
  the head query, the event query or the event loop skips the cursor update.
- **Deposit identifier**: the hash of `(chainId, sender, amount, txHash)`.
  The hash is a function-valued parameter `hash: Preimage -> Id`, so nothing
  is assumed about keccak-256 beyond it being a function. The error path
  recomputes the identifier from `args[0]` and `args[2]`, and the model proves
  this gives the preimage admission used.
- **Admission** (`processedDeposits`, `processingDeposits`): an identifier in
  either set is skipped. Otherwise it is marked in flight and settled. A normal
  return moves it to completed. A thrown error only removes it from the
  in-flight set, so a later event with the same identifier is admitted again.
- **Settlement classification** (`processBridgeOnQIE`): the destination
  chain's answer is an input, `Confirmed | Rejected(message)`. A rejection
  whose message contains `tx already in mempool` or `already processed` is
  absorbed as a normal return. Every other rejection is rethrown. Substring
  search (`Strings.Includes`) is proved equal to a reference definition of
  "occurs somewhere".

State is an immutable record: one cursor map and the two sets. A poll is a
pure function of the state, the chain id, the head reply and the event-query
reply. Each delivered log pairs the decoded event with the destination chain's
answer, which is consulted only if the event is admitted. `Poller.Run` chains
polls one after the other.

Source behaviours kept as written:

- **Cursor advance after failed settlements.** The cursor advances even when
  individual settlements threw, because `processDepositEvent` catches those
  errors. A deposit whose settlement keeps failing is therefore not rescanned
  once its block has been passed.
- **A stored cursor of 0 counts as missing.** The cursor is 0 when the head
  was 0 at the last completed scan. The next scan then starts at `head - 9`
  rather than at block 1. With head 1000 it covers [991, 1000], so blocks 1 to
  990 are never read (`Poller.ZeroCursorCountsAsMissing`). The no-rescan and
  no-gap guarantees are stated for non-zero cursors only.
- **Undecodable logs.** A log the query returns without decoded `args` makes
  the handler's destructuring throw. Its error path reads `event.args[0]`
  again and throws too. That error escapes `processDepositEvent` and ends the
  loop, so the cursor is not updated, while earlier events' effects on the
  sets are kept. This follows the code. Were every per-deposit error
  caught inside the handler, this path would not exist.

## Model

| member | source | states |
|---|---|---|
| Strings.Includes | index.js:136-140 | the executable search is true exactly when the pattern occurs at some offset of the message (reference definition `Contains`) |
| Settlement.Settle | index.js:134-146 | settlement returns normally iff the transaction confirmed or the rejection message contains `tx already in mempool` or `already processed`; otherwise the same message is rethrown |
| Settlement.MarkerAnywhereIsAbsorbed | index.js:136-143 | a rejection with either marker anywhere in its text (any prefix, any suffix) is absorbed |
| Settlement.OtherRejectionsRethrown | index.js:144-145 | a rejection mentioning neither marker reaches the caller as the same error |
| Deposits.ReleasePreimage | index.js:98-107 | the preimage rebuilt in the error handler from the positional `args[0]`, `args[2]` (read through `Deposits.ArgAt`, in the ABI order of index.js:18) equals the one admission hashed, so release frees exactly the admitted identifier |
| Deposits.IdIgnoresTokenAndDestination | index.js:66-74 | events agreeing on sender, amount and tx hash on one chain get the same identifier, whatever their token and destination chain |
| Deposits.IdIdentifiesDeposit | index.js:69-74 | the identifier `DepositId` is `hash(AdmissionPreimage(...))` over (chainId, sender, amount, txHash); with a collision-free hash, two events on one chain get equal identifiers iff their sender, amount and tx hash are equal |
| Admission.Admit | index.js:76-82 | admitted iff the identifier is in neither set; turned away as completed iff it is in `processed`; a refusal changes nothing; admission adds only this identifier to the in-flight set; the sets stay disjoint |
| Admission.Complete | index.js:94-96 | the identifier ends completed and not in flight; no other completed identifier is lost or added; disjointness kept |
| Admission.Release | index.js:107 | the identifier leaves the in-flight set; completed set untouched; disjointness kept |
| Admission.NoDoubleAdmission | index.js:77-82 | an admitted identifier is refused as in flight if admitted again before completion or release |
| Admission.CompletedNeverReadmitted | index.js:77-79 | a completed identifier is always refused as completed |
| Admission.ReleasedIsEligibleAgain | index.js:98-107 | a released identifier that was not completed is admitted again |
| Relay.ProcessDepositEvent | index.js:64-109 | no call iff the identifier is completed or in flight (then nothing changes); otherwise exactly one call, carrying the deposit id, the sender as recipient, the amount, the source chain id and the source token (index.js:92), with the classified outcome; returned ⇒ completed and not in flight; thrown ⇒ neither completed nor in flight; the in-flight set ends as it began; only an undecodable log escapes, changing nothing |
| Relay.EscapeIsFinal | index.js:49-51 | after an error escapes the loop, later events in the batch have no effect |
| Relay.EscapesIffUndecodable | index.js:64-108 | the event loop is aborted exactly when the batch contains an undecodable log |
| Relay.HandleEvents | index.js:48-51 | the awaited loop over the events, stopping at an escaped error, computes exactly the reference `ProcessBatch`, which is the definition `Poller.Poll` uses |
| Relay.BatchEffect | index.js:49-51 | over a batch the in-flight set ends unchanged, the completed set grows by exactly the identifiers whose settlement returned, and the sets stay disjoint |
| Relay.BatchNeverResubmits | index.js:76-82 | no call in a batch targets an identifier completed or in flight at its start, and none repeats an identifier whose earlier settlement returned |
| Relay.FailedDepositIsRetried | index.js:98-107 | after a thrown settlement, a later event with the same identifier is submitted again |
| Relay.CompletedDepositNotResubmitted | index.js:76-96 | after a returned settlement, a later event with the same identifier makes no call |
| Poller.ScanStart | index.js:36-38 | for a non-zero stored cursor c the scan starts after c, at most 100 blocks behind the head, and at one of those two bounds; for a missing or zero cursor it starts at head − 9 |
| Poller.Poll | index.js:30-62 | head/event query errors leave the state untouched; an empty range is a no-op; otherwise the batch is handled, the cursor becomes the head unless an error escaped the loop; other chains' cursors never change; no cursor decreases or disappears; a scanned range ends at most at the head, starts within 100 blocks of it, and for a non-zero stored cursor starts after that cursor |
| Poller.PollTrackerEffect | index.js:44-54 | one poll leaves the in-flight set unchanged, grows the completed set by exactly the returned settlements, keeps disjointness, and never resubmits a completed or in-flight identifier |
| Poller.CursorKeptUnlessScanned | index.js:44-56 | with a non-empty range and a successful query, the scan completes (and the cursor moves) iff no log in the batch is undecodable |
| Poller.NoGapUnlessClamped | index.js:36-42 | with a non-zero stored cursor, the scan starts right after it, or exactly 100 blocks behind the head and beyond the cursor (the lookback drop) |
| Poller.CursorAdvancesToHead | index.js:38-54 | a completed scan ends at the head and sets the cursor to it; any other ending leaves all cursors; a changed cursor strictly increases |
| Poller.ZeroCursorCountsAsMissing | index.js:36 | a stored cursor of 0 with head 1000 scans [991, 1000], like a chain with no cursor: the start is neither cursor + 1 nor head − 100, so blocks 1 to 990 are skipped |
| Poller.ScenarioCursorBehindHead | index.js:35-54 | cursor 90, head 105: range [91, 105] scanned, cursor becomes 105 |
| Poller.ScenarioLookbackClamp | index.js:38-46 | cursor 5, head 1000: range clamped to [900, 1000] |
| Poller.ScenarioNewDepositSettled | index.js:44-54 | a new deposit in the scanned range is settled once, with its id, depositor, amount, chain and token |
| Poller.RunInvariants | index.js:25-54 | over any sequence of polls: cursors never decrease or disappear, the sets stay disjoint, the in-flight set ends as it began (empty from a fresh start), completed identifiers are kept, and no identifier is submitted after its settlement returned |

## Left out

- ethers providers, `Contract` and `Wallet` construction, `queryFilter`, transaction submission and `tx.wait()` are network I/O. Their results are the inputs `HeadReply`, `LogsReply` and `Submission`.
- keccak-256 and ABI encoding are foreign library calls. The identifier is `hash(Preimage)` for an arbitrary function `hash`.
- The `setInterval` loop and overlapping polls of the same chain are concurrency. Polls are modelled one at a time (`Poller.Run`). In that model the in-flight set is observable only between admission and completion inside one event.
- Logging, `formatUnits` and the `could not coalesce` filter only affect console output.
- Configuration from environment variables, the chain registry constants and the startup private-key check with `process.exit` are process bootstrap.
- Price-oracle reconciliation has no code in `index.js`.
- The scan range is an integer pair. How ethers interprets a negative `fromBlock` on a young chain is a library detail and is not modelled.
- An error object without a `message` property is not modelled. Every rejection carries a message string.
- Poller.NoGapUnlessClamped: holds only for a non-zero stored cursor. A stored 0 (the head was 0 at the last scan) is read as missing by the `||` at index.js:36, and the next scan skips blocks 1 to head − 10 (`Poller.ZeroCursorCountsAsMissing`).
