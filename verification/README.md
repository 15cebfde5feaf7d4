# Verified model of the AI runtime's journal, budget and protocols

The repository's AI runtime lets agents use language models through one broker.  The broker
keeps an encrypted history of every inference, spends at most 30 US dollars of a shared
acceptance budget, decodes provider streams, and takes part in two small protocols: Admin
publishes model profiles to it, and a ChatGPT account is connected to and withdrawn from it.
This project models those parts and proves what they are for.

- **The journal and its budget** (`Journal`, `Steps`, `Budget`, `Vault`).  Every journal method
  edits a copy of the vault's state and commits all of it or nothing, so a method is one atomic
  step: a function in `Steps` from a state to an answer and possibly a new state.  The class
  `Vault` makes the same edits step by step, as the source does, and is proved against those
  functions.  `Invariants`, `Preservation` and `Runs` prove what holds after every history of
  calls, failed commits, crashes, restarts and changes of configuration; `Histories`,
  `Authority`, `Admission`, `Effects`, `Continuity`, `Lineage`, `Receipts`, `Recovery` and `Paging`
  prove statements about whole histories; many are exact conditions in terms of the records alone,
  and `Effects` says in the same terms what each call writes.
- **Conversations** (`Inference`).  The one-pass check is a loop over messages; it is proved to
  decide a grammar, and continuing a valid conversation by tool results keeps it valid.
- **Provider streams** (`Stream`, `Splitting`, `EventStream`, `Frames`, `Output`, `Turns`, `Assembly`).  The decoders
  work byte by byte on mutable fields; their result is proved independent of how the bytes were
  cut, related to section 9.2.6 of the WHATWG HTML Living Standard, and acceptable to the journal.
- **Money** (`Decimal`, `Money`, `Pricing`).  Decimal texts, rounding, ceilings and receipts.
- **Protocols** (`Publication`, `Publishing`, `Login`, `Logins`).  Transactions and handler
  phases as atomic steps, and every interleaving of them with crashes and lost messages.
- **Concrete runs** (`Witnesses`).  Where a promise fails, a run in which it does.

Strings are sequences of UTF-8 code units, identifiers are natural numbers with 0 as the nil
identifier, instants are nanoseconds.  Digests, serialised sizes, JSON parsing, JSON Schema
checks and fingerprints are the fields of `Externals.Libraries`; every theorem holds for every
choice of them, so none relies on fingerprints being injective.

## Where the code and its promises differ

- Restart recovery fails for good when an interrupted run has used up its 16384 events, because
  the closing event does not fit (`Recovery.RestartSucceeds`, `Recovery.FullLogIsStuck`;
  `Witnesses.RestartCanFail` is a history that gets there).
- The budget summary cannot be read once the commitment exceeds 64 bits, although the comment at
  backend/ai-runtime/src/budget.rs:146-147 keeps readback available.  Receipts are not bounded by
  their ceilings, so two overruns are enough (`Recovery.ReachableSummary`, `Witnesses.SummaryCanFail`).
- A cancelled login whose answer arrives late overwrites the revocation made by a withdrawal and,
  unconfirmed, keeps every new login from starting (`Logins.RevokedChanges`,
  `Logins.LateCancelBlocksLogins`; `Logins.LateCancelHappens` is such a run).
- A withdrawal revokes a login but not its native id.  The completion handler takes any native id
  for a login that is still waiting for one, so the late success of a withdrawn login connects
  the account when a newer login has just begun (`Logins.LateCompletionConnects` gives the exact
  condition, `Logins.LateCompletionHappens` a run).
- A receipt above its ceiling needs two free events.  With one left it is refused, its charge stays
  out of the ledger and paid dispatch stays open (`Receipts.OverrunNeedsTwoEvents`,
  `Witnesses.OverrunCanBeLost`).
- On a stream that fails, what was delivered before the failure depends on the cuts
  (`Splitting.DeliveryIsAPrefix`, `Splitting.DeliveryDependsOnTheCut`).
- The decoder ends lines at line feeds only.  It cuts the lines of the standard exactly when no
  carriage return stands alone (`EventStream.LinesAgree`).

## Model

| member | source | states |
|---|---|---|
| Runs.ReachableInv | backend/ai-runtime/src/inference_journal.rs:1104-1580 | After every history of calls, lost commits, restarts and configuration changes: each stored state is the replay of its log, event i has sequence i+1, logs stay within 16384 events, each run has exactly the reservation its state allows, exposure is bounded, tasks are fenced, continuations are linked. |
| Runs.LaterExtends | backend/ai-runtime/src/inference_journal.rs:1060-1079 | Every later state extends every earlier one: requests and assignments never change, logs are only appended to, ended runs stay ended, no run becomes prepared again, reservations keep their terms and receipts are final. |
| Histories.LogsReplay | backend/ai-runtime/src/inference_journal.rs:1060-1079 | At every moment of every history the stored state of a run is the replay of its log, event k has sequence k+1, and the log has between 1 and 16384 events. |
| Preservation.IntentIsSecond | backend/ai-runtime/src/inference_journal.rs:1317-1324 | In a log that replays, a dispatch intent can only be the second event. |
| Histories.OneIntentPerLog | backend/ai-runtime/src/inference_journal.rs:1317-1324 | At every moment of every history a run's log has at most one dispatch intent, as its second event. |
| Histories.NothingBeforeDispatch | backend/ai-runtime/src/inference_journal.rs:1424-1512 | No text, tool call, outcome or loss is ever recorded for a request that was not dispatched before. |
| Histories.AtMostOneDispatch | backend/ai-runtime/src/inference_journal.rs:1231-1325 | Over any history with crashes and restarts, the call that permits provider I/O succeeds at most once per request. |
| Histories.NoWayBack | backend/ai-runtime/src/inference_journal.rs:929-937 | Between any two moments of a history a run never returns to Prepared, an ended run keeps its end state, and its log only grows. |
| Histories.Coupling | backend/ai-runtime/src/inference_journal.rs:1301-1316 | Which reservation each state of a paid run goes with, that a ChatGPT run has none, and that an overrun has exactly one matching notice in the log of its run. |
| Histories.DispatchIsCovered | backend/ai-runtime/src/openrouter_request.rs:52-96 | A paid dispatch happens only under a current connection and proof, inside the model's window, with a reservation whose tokens cover the request as sent and its output reserve. |
| Admission.NativeDispatch | backend/ai-runtime/src/inference_journal.rs:1231-1325 | At any moment of a history a ChatGPT run is dispatched exactly under a grant in force that it was given to, while prepared, with the deployed adapter, the registered connection, the evidence of what was registered, and bytes, framing and reserve within the window. |
| Admission.PaidDispatch | backend/ai-runtime/src/openrouter_request.rs:52-96 | The same for a paid run, which also needs a fresh quote covering the request as sent with its prices, and a ledger without overrun that has room for the quoted amount. |
| Admission.Admission | backend/ai-runtime/src/inference_journal.rs:1105-1203 | A request is newly admitted exactly if it is acceptable in every part, agrees with the binding of its root task, every other run of its task leaves room, and a connected registered revision offers it. |
| Admission.RootsAgree | backend/ai-runtime/src/inference_journal.rs:1038-1043 | Over any history all runs of a root task agree in workspace, owner, project and profile revision. |
| Admission.OtherOwnersAreForbidden | backend/ai-runtime/src/inference_journal.rs:1139-1146 | A new request that disagrees with any earlier run of its root task is forbidden, unless refused before. |
| Admission.StrangersLearnNothing | backend/ai-runtime/src/inference_journal.rs:1336-1360 | Without the grant of a run, dispatch, cancellation, continuation and a repeated request answer as for a run that does not exist. |
| Admission.Cancellation | backend/ai-runtime/src/inference_journal.rs:1396-1422 | When a cancellation is accepted, and which state it leads to from each. |
| Admission.Deltas | backend/ai-runtime/src/inference_journal.rs:1424-1459 | A delta is taken exactly if it is the recorded one or the next event of an attempt, not empty, within 65536 bytes, with room in the log. |
| Admission.LostOutcomes | backend/ai-runtime/src/openrouter_transport.rs:431-457 | A lost outcome is recorded exactly for an attempt whose log has room, or was already. |
| Admission.ProviderIds | backend/ai-runtime/src/openrouter_transport.rs:401-428 | A provider id is taken exactly in its shape, for a paid run past its preparation, once. |
| Admission.LateBilling | backend/ai-runtime/src/openrouter_transport.rs:460-496 | Late billing is accounted exactly for the recorded id and model of a stopped paid run. |
| Admission.Registering | backend/ai-runtime/src/publication.rs:28-120 | A new revision is registered exactly if it is the profile of valid evidence held under the same connection, and its number is free. |
| Effects.EveryStep | backend/ai-runtime/src/inference_journal.rs:1105-1580 | In every history a call answered as written was durable and changed exactly the named records, each into what is written out for it; every other call changed nothing. |
| Lineage.ReasoningIsInherited | backend/ai-runtime/src/inference_tools.rs:177-181 | At every moment of every history a child's private reasoning is its parent's and, exactly when the parent's turn had some, that of the parent's turn at its place; a run without parent has none. |
| Lineage.ChainsRemember | backend/ai-runtime/src/inference_tools.rs:177-181 | Along a chain from a run without parent, each run holds the reasoning of exactly the turns before it, each at its place. |
| Lineage.Continuation | backend/ai-runtime/src/inference_tools.rs:131-253 | A waiting run is continued exactly if each call is answered once, by the holder of its grant, while there is room and its provider is connected. |
| Lineage.TurnIsAppended | backend/ai-runtime/src/inference_tools.rs:169-181 | The new conversation is the parent's, then its turn, then for each call in order what its result says. |
| Histories.ExposureBound | backend/ai-runtime/src/budget.rs:170-210 | Commitment is at most 30,000,000 microdollars plus what receipts exceeded their ceilings by, so within the limit while there is no overrun. |
| Histories.QuietStepsKeepCommitment | backend/ai-runtime/src/inference_journal.rs:1396-1461 | Cancelling, deltas, lost outcomes, restarts, continuations and receipts without a cost leave the committed amount unchanged. |
| Histories.DispatchCommitsCeiling | backend/ai-runtime/src/budget.rs:170-225 | A paid dispatch raises the commitment by exactly its ceiling, ends within the limit, and requires that there was no overrun. |
| Histories.ReceiptReplacesCeiling | backend/ai-runtime/src/budget.rs:258-287 | A first receipt replaces the ceiling by the actual cost in the commitment and changes nothing else. |
| Histories.OverrunStopsPaidDispatch | backend/ai-runtime/src/budget.rs:146-152 | Once any receipt exceeded its ceiling, no later paid dispatch in the history succeeds. |
| Authority.ChangesAreAuthorized | backend/ai-runtime/src/inference_journal.rs:1053-1058 | In any history a run or reservation changes only in a durable step about it, and a step under a grant only if the grant is current and owns the run it leaves. |
| Authority.FencedOffWritesNothing | backend/ai-runtime/src/inference_journal.rs:1147-1163 | Whatever is admitted, dispatched, cancelled or continued under a grant, no run of the task was ever given out under a newer token, or under the same token to another machine or execution. |
| Authority.TokensNeverGoDown | backend/ai-runtime/src/inference_journal.rs:1147-1163 | On one task, the tokens of the grants under which anything is written never decrease over a history, and equal tokens mean the same execution and machine. |
| Authority.EventsAreStamped | backend/ai-runtime/src/inference_journal.rs:1060-1079 | Every event of every log carries the time of the call that recorded it. |
| Histories.TasksAreFenced | backend/ai-runtime/src/inference_journal.rs:1147-1163 | At every moment the unfinished runs of a task share execution, machine and token, and that token is the greatest on the task. |
| Preservation.ContinueFences | backend/ai-runtime/src/inference_tools.rs:199-252 | A continuation skips the fencing check and still keeps fencing, because the waiting parent holds the task. |
| Continuity.DeltaOnce | backend/ai-runtime/src/inference_journal.rs:1424-1459 | A recorded delta sent again later is accepted without effect; another text for its sequence is refused. |
| Continuity.ReceiptOnce | backend/ai-runtime/src/inference_journal.rs:1461-1512 | A terminal receipt repeated later is accepted, without effect, exactly when outcome and cost agree with the record; the run stays ended as received and a reported cost stays the recorded one. |
| Continuity.TurnOnce | backend/ai-runtime/src/inference_tools.rs:73-96 | A tool turn repeated later is accepted, without effect, exactly when its cost agrees with the record. |
| Continuity.AdmittedOnce | backend/ai-runtime/src/inference_journal.rs:1105-1138 | A request id is admitted at most once; the same request under the same assignment reads back. |
| Continuity.ContinuedOnce | backend/ai-runtime/src/inference_tools.rs:186-197 | The same continuation repeated at any later moment, under a renewed grant of the same assignment, reads back and changes nothing. |
| Continuity.LostOutputNeverCompletes | backend/ai-runtime/src/openrouter_transport.rs:460-496 | Billing of a lost stream ends the run as cancelled or failed, never as completed, with the billed cost recorded. |
| Continuity.ContinuationValidates | backend/ai-runtime/src/inference_tools.rs:150-185 | For a waiting run the results are accepted exactly when they answer each call once and the conversation stays within 4096 messages; the extended conversation is then always valid. |
| Continuity.AnsweredIsBijection | backend/ai-runtime/src/inference_tools.rs:155-168 | The size and membership checks hold exactly when the answered ids are the ids called. |
| Continuity.ChainGrows | backend/ai-runtime/src/inference_tools.rs:169-185 | Along a chain of continuations each conversation is a proper prefix of every later one, under one assignment, profile and registration. |
| Continuity.ChainsEnd | backend/ai-runtime/src/inference_tools.rs:199-252 | Chains of continuations have no cycles and at most 4096 runs. |
| Continuity.LinksAreInverse | backend/ai-runtime/src/inference_tools.rs:236-251 | A run is submitted exactly when it has a continuation, parent and child links are inverse to each other, and no parent has two children. |
| Continuity.StoredRunsEncode | backend/ai-runtime/src/openrouter_request.rs:98-187 | Encoding a stored run never fails for its binding, its conversation or its private reasoning history. |
| Recovery.RestartSucceeds | backend/ai-runtime/src/inference_journal.rs:1554-1580 | Recovery succeeds exactly when no interrupted run has a full log; holding the reservation of an interrupted run never fails. |
| Recovery.RestartOnce | backend/ai-runtime/src/inference_journal.rs:1554-1580 | A recovery closes exactly the runs that were midway, as unknown, marks the reservations of the paid ones uncertain, touches nothing else and refunds nothing; repeated it returns 0 without a change. |
| Recovery.FullLogIsStuck | backend/ai-runtime/src/inference_journal.rs:1556-1580 | A run in flight with a full log stays so for ever, and every later recovery fails. |
| Recovery.ReachableSummary | backend/ai-runtime/src/budget.rs:90-144 | Every summary of a reachable ledger passes the reader's check, and it can be read exactly while the commitment fits in 64 bits. |
| Paging.PagesAreAPrefix | backend/ai-runtime/src/inference_journal.rs:1362-1394 | Pages read while the log grows are together always exactly the events before the cursor, none skipped or repeated. |
| Paging.PagingEnds | backend/ai-runtime/src/inference_journal.rs:1362-1394 | On a log that no longer grows, following the cursor ends with the complete rest of the log. |
| Paging.PagesGiven | backend/ai-runtime/src/inference_journal.rs:1362-1394 | A page is given exactly to the holder of the grant, for a cursor within the log or just behind it and a size of 1 to 200, and holds what is there; anyone else is refused alike. |
| Vaults.Vault.PrepareInference | backend/ai-runtime/src/inference_journal.rs:1105-1203 | Admission checks, fencing loop and registry search in place; result and new state are those of the specified step, and the invariants are kept. |
| Vaults.Vault.DispatchInferenceOnce | backend/ai-runtime/src/inference_journal.rs:1231-1325 | Reservation, dispatch mark and intent are written in one commit or not at all. |
| Vaults.Vault.CancelInference | backend/ai-runtime/src/inference_journal.rs:1396-1422 | Cancelling in place: before dispatch and while waiting for tools it ends the run, otherwise it only records the wish. |
| Vaults.Vault.RecordDelta | backend/ai-runtime/src/inference_journal.rs:1424-1459 | One delta appended at its expected sequence, or read back, or refused without a change. |
| Vaults.Vault.FinishInference | backend/ai-runtime/src/inference_journal.rs:1461-1512 | Receipt, overrun notice, terminal event and end state are written together. |
| Vaults.Vault.ReconcileInferenceCost | backend/ai-runtime/src/inference_journal.rs:1514-1552 | A late billing readback settles an ended run once and notices an overrun. |
| Vaults.Vault.ReconcileRestart | backend/ai-runtime/src/inference_journal.rs:1554-1580 | The loop over all runs, in any order, recovers each interrupted run and commits once. |
| Vaults.Vault.FinishInferenceTools | backend/ai-runtime/src/inference_tools.rs:39-128 | A tool turn is checked, accounted and recorded in one commit; a wanted cancellation ends the run at once. |
| Vaults.Vault.ContinueInferenceTools | backend/ai-runtime/src/inference_tools.rs:131-253 | Parent and child are written together; results are taken out of the map without ever missing one. |
| Vaults.Vault.PushTurn | backend/ai-runtime/src/inference_tools.rs:169-181 | The messages appended are the assistant turn and one result per call in call order, each found in the map when its turn comes. |
| Vaults.Vault.MarkInferenceUnknown | backend/ai-runtime/src/openrouter_transport.rs:431-457 | A lost outcome keeps the whole reservation as uncertain. |
| Vaults.Vault.RecordGenerationId | backend/ai-runtime/src/openrouter_transport.rs:401-428 | The provider's id of a run is set at most once. |
| Vaults.Vault.ReconcileGenerationReceipt | backend/ai-runtime/src/openrouter_transport.rs:460-496 | Only a receipt for the recorded generation and model of a stopped run is settled. |
| Vaults.Vault.RegisterProfile | backend/ai-runtime/src/publication.rs:28-120 | A candidate is registered once, only as the profile that the runtime's own evidence yields, and under a revision number not yet taken. |
| Vaults.Vault.InferenceEvents | backend/ai-runtime/src/inference_journal.rs:1362-1394 | The page is the slice of the log at the cursor, within its limits. |
| Vaults.FindReceipt | backend/ai-runtime/src/inference_journal.rs:1476-1481 | Searching from the end finds the last receipt of a log. |
| Budget.CeilingCovers | backend/ai-runtime/src/budget.rs:38-60 | A ceiling is accepted exactly for a fresh quote that fits into 64 bits; it is the least whole number of microdollars covering the estimate, at least 1, and the 128-bit arithmetic never overflows. |
| Budget.SummaryIsValid | backend/domain/src/ai.rs:134-168 | Every summary of a sound ledger passes the reader's own check: parts add up, counts are zero exactly when amounts are, amounts print canonically. |
| Budget.SummaryReports | backend/ai-runtime/src/budget.rs:90-144 | When there is a summary, and that it reports what was billed, held and in doubt by the status of each entry, how many requests that is, and what is left. |
| Budget.PartsAddUp | backend/ai-runtime/src/budget.rs:90-144 | Settled and reserved amounts partition the commitment and the uncertain amount is part of the reserved one. |
| Budget.BudgetLedger.GetSummary | backend/ai-runtime/src/budget.rs:90-144 | The two loops with checked additions compute the totals over the ledger in any order, and fail exactly when the specification does. |
| Budget.BudgetLedger.GetCommitted | backend/ai-runtime/src/budget.rs:154-168 | The fold with checked additions is the total commitment, or an error when it does not fit or a receipt is missing. |
| Budget.BudgetLedger.ReserveRequest | backend/ai-runtime/src/budget.rs:170-210 | A new reservation is made only within the limit and never after an overrun; an identical one reads back; otherwise nothing changes. |
| Budget.BudgetLedger.SettleReceipt | backend/ai-runtime/src/budget.rs:258-287 | A receipt closes an open reservation as settled or as an overrun, repeats without effect, and conflicts with another one. |
| Budget.ReservesWhen | backend/ai-runtime/src/budget.rs:170-210 | When a reservation is made, what it holds, and when it is read back, by the status of each entry and the quoted amount. |
| Budget.EntriesMove | backend/ai-runtime/src/budget.rs:212-287 | From which statuses an entry is dispatched, held, cancelled and settled, and what becomes of it. |
| Domain.ReadersCheck | backend/domain/src/ai.rs:134-168 | A reader accepts exactly the summaries that are printed from amounts that add up. |
| Domain.ContextFits | backend/domain/src/ai.rs:224-263 | The context checks hold exactly when input and reserve fit into the configured window, the window into the model's limit and the reserve into its output. |
| Inference.ConversationIsGrammar | backend/domain/src/inference.rs:146-272 | The one-pass check accepts exactly the conversations in which call ids are unique and each assistant turn is followed at once by one answer per call, with tools and names as written out. |
| Inference.ScanMessages | backend/domain/src/inference.rs:229-271 | The loop with its seen and pending sets decides the pass over all messages. |
| Inference.ContinuationKeepsValidity | backend/ai-runtime/src/inference_tools.rs:169-185 | Extending a valid conversation by accepted calls and one result for each stays valid, unless it exceeds 4096 messages. |
| Inference.ValidateReturnedTools | backend/domain/src/inference.rs:164-191 | Calls are accepted exactly when they are declared, well formed, distinct and new to the conversation. |
| Inference.ReturnedToolsAre | backend/domain/src/inference.rs:164-191 | Calls are accepted exactly if there are 1 to 128, each well named, with an object as arguments, of a declared tool, under a new id. |
| Inference.SchemasAreLocalAndShallow | backend/domain/src/inference.rs:146-161 | A schema is accepted exactly when it is nested at most 32 deep and refers to nothing outside itself. |
| Money.ScaledDecimalExact | backend/ai-runtime/src/openrouter_transport.rs:500-551 | A price text is accepted with an amount exactly when it is a numeral in range and the amount is the ceiling of the number times the power of ten. |
| Money.PriceRoundTrip | backend/ai-runtime/src/openrouter_request.rs:208-218 | Every 64-bit rate printed as a price per million tokens reads back as itself. |
| Pricing.OneRowPerModel | backend/ai-runtime/src/openrouter_pricing.rs:50-66 | A snapshot is taken from the only row of the catalogue that names the model. |
| Pricing.SnapshotAccepted | backend/ai-runtime/src/openrouter_pricing.rs:67-106 | A snapshot is taken exactly of prices of tokens only, in which cached input costs no more than input and everything else is free. |
| Pricing.EstimateAccepted | backend/ai-runtime/src/openrouter_pricing.rs:119-139 | An estimate has the terms of the snapshot and is given exactly while they are fresh. |
| Pricing.BillsAccepted | backend/ai-runtime/src/openrouter_transport.rs:365-398 | A billing record is accepted exactly for the generation and model asked for, streamed, on the broker's key, ended in a known way, with a readable total. |
| Pricing.SnapshotBounds | backend/ai-runtime/src/openrouter_pricing.rs:67-101 | The rates are the ceilings of the listed prices, and no cache price exceeds the input rate. |
| Pricing.CeilingCoversBills | backend/ai-runtime/src/openrouter_pricing.rs:119-139 | The ceiling of an estimate covers the exact cost of every bill within its tokens, however much of the input was cached. |
| Pricing.CeilingIsTight | backend/ai-runtime/src/budget.rs:38-60 | The ceiling exceeds the exact cost by less than a thousandth of a microdollar per token and one microdollar. |
| Pricing.HonestReceiptsSettle | backend/ai-runtime/src/budget.rs:258-287 | A provider that bills at most the catalogue price of tokens within the estimate never causes an overrun. |
| Pricing.ReceiptsRoundUp | backend/ai-runtime/src/openrouter_transport.rs:365-398 | A billing record is read for the generation and model asked for, and its total is rounded up to microdollars. |
| Streams.Decoder.FeedChunk | backend/ai-runtime/src/openrouter_stream.rs:57-116 | The byte loop on mutable buffers gives the frames and the state of the specified decoder; after a failure it stays failed. |
| Streams.Decoder.TakeEvent | backend/ai-runtime/src/openrouter_stream.rs:118-207 | One event updates generation, finish reason, usage and end marker as specified, or fails with the specified error. |
| Frames.DeliveredFramesAreWellFormed | backend/ai-runtime/src/openrouter_stream.rs:118-207 | For every cut of every accepted stream, each frame names the model asked for, all carry one id, each has at most one choice at index 0, nothing is said after the end, usage comes once and not before the end, and the final mark comes last. |
| Frames.EventsAccepted | backend/ai-runtime/src/openrouter_stream.rs:118-207 | A list of events is accepted exactly if its payloads stand for such frames. |
| Frames.LinesAccepted | backend/ai-runtime/src/openrouter_stream.rs:83-108 | A line is accepted exactly if it ends an event that may come next, adds data within 262144 bytes, or is a comment, event name, id or retry time. |
| Frames.BytesAccepted | backend/ai-runtime/src/openrouter_stream.rs:78-114 | A byte is accepted exactly if it completes an acceptable line or finds room in it; after the final mark only white space is. |
| Frames.StreamsEnd | backend/ai-runtime/src/openrouter_stream.rs:209-219 | When a stream is finished, and which model names may be asked for. |
| Frames.ProviderErrors | backend/ai-runtime/src/openrouter_stream.rs:130-138 | What the error member of an event means, by its status code. |
| Splitting.SplittingIsInvisible | backend/ai-runtime/src/openrouter_stream.rs:68-116 | For every way of cutting a stream all chunks are accepted exactly when the whole is, with the same frames, state and, within the size bound, error. |
| Splitting.DeliveryIsAPrefix | backend/ai-runtime/src/openrouter_stream.rs:57-66 | On a failing stream any cut delivers a prefix of what the finest cut delivers. |
| Splitting.DeliveryDependsOnTheCut | backend/ai-runtime/src/openrouter_stream.rs:57-66 | Cut before its failing part a stream delivers the frames before it, fed whole it delivers none; the two agree exactly when there were no frames. |
| EventStream.DecodesFeedLines | backend/ai-runtime/src/openrouter_stream.rs:79-116 | Whatever is accepted, the frames are those of the events that the standard dispatches on the lines cut at line feeds. |
| EventStream.DecodesTheStandard | backend/ai-runtime/src/openrouter_stream.rs:79-116 | Without lone carriage returns the decoder is a strict subset of the standard, less leading empty data lines and events without data. |
| EventStream.LinesAgree | backend/ai-runtime/src/openrouter_stream.rs:83-88 | The decoder cuts the lines of the standard exactly when every carriage return is followed by a line feed. |
| Outputs.OutputDecoder.FeedChunk | backend/ai-runtime/src/openrouter_output.rs:85-161 | The loop over frames accumulates text, tool fragments, reasoning and usage as specified; after a failure it stays failed. |
| Outputs.OutputDecoder.Finish | backend/ai-runtime/src/openrouter_output.rs:205-250 | A turn is built only from a finished stream, consecutive complete tool fragments and allowed output. |
| Assembly.TurnsAreAssembled | backend/ai-runtime/src/openrouter_output.rs:85-203 | For every way the bytes arrive, a turn has the texts of the deltas in order, the reasoning and its details in order, and for each index the name, arguments and only id sent under it; its id and usage are those of the frames. |
| Assembly.ResponsesAccepted | backend/ai-runtime/src/openrouter_output.rs:96-203 | A response is received exactly if the stream is accepted and each delta may come after those before it, as written out. |
| Assembly.TurnsAccepted | backend/ai-runtime/src/openrouter_output.rs:205-250 | A received response becomes a turn exactly if the stream is finished, no more was spent than reserved, and the assembled calls and text are what the request allows. |
| Turns.OutputSplittingIsInvisible | backend/ai-runtime/src/openrouter_output.rs:85-161 | The visible deltas, the final state and the acceptance do not depend on how the bytes were cut. |
| Turns.TextIsWhatWasShown | backend/ai-runtime/src/openrouter_output.rs:148-154 | For every way the bytes of a response arrive, the text of the decoded turn is the concatenation of all visible deltas. |
| Turns.DecodersAgree | backend/ai-runtime/src/openrouter_output.rs:96-119 | After any chunks fed to a fresh decoder and accepted, the ids, finish reason and usage kept for the turn are those the stream was checked against, the reasoning is valid and the text is what was shown. |
| Turns.FinishedTurns | backend/ai-runtime/src/openrouter_output.rs:205-250 | Whatever chunks led to a finished stream, nothing is missing; a turn is refused exactly for too much output, incomplete fragments or output the request does not allow. |
| Receipts.DecodedTurnsAreAccepted | backend/ai-runtime/src/inference_tools.rs:47-128 | At any moment of a history a tool turn decoded from any chunks for an open paid run passes every check of the journal and is recorded exactly when its event is small enough and the log has room. |
| Receipts.ReceiptIsRecorded | backend/ai-runtime/src/inference_journal.rs:1461-1512 | At any moment of a history a terminal receipt is recorded exactly when the run is open, the cost is one its provider reports, and the log has room for the receipt and the notice of an overrun; an ended run accepts only its own receipt. |
| Receipts.TurnIsRecorded | backend/ai-runtime/src/inference_tools.rs:39-128 | At any moment of a history a tool turn of an open run is recorded exactly if its calls are acceptable and taken by their tools, its reasoning may be kept, the cost is one its provider reports and its events fit. |
| Receipts.CostIsRecorded | backend/ai-runtime/src/inference_journal.rs:1514-1552 | A late cost is recorded exactly for a dispatched paid run that has ended or waits for tools, which has this cost already or none and room for it. |
| Receipts.OverrunNeedsTwoEvents | backend/ai-runtime/src/inference_journal.rs:1060-1102 | With one event left in the log of an open paid run a receipt is refused, and changes nothing, exactly when its cost exceeds the ceiling. |
| Publication.AiStore.Prepare | backend/infra/src/ai.rs:215-296 | One transaction admits a candidate only against the current draft, evidence and active revision, with a revision number above all earlier ones. |
| Publication.AiStore.Complete | backend/infra/src/ai.rs:334-389 | One transaction activates exactly the acknowledged pending candidate, or reads back, or changes nothing. |
| Publication.AiStore.Reject | backend/infra/src/ai.rs:398-427 | Only a pending candidate is rejected; a rejection repeats without effect. |
| Publication.AddCandidate | backend/infra/src/ai.rs:262-293 | A new candidate keeps revision numbers unique, is the only pending one and the newest, and leaves the active revision a published one. |
| Publication.CompletionConflicts | backend/infra/src/ai.rs:357-378 | The active revision is always the one expected by the pending candidate; completion is refused exactly for a changed draft or expired evidence. |
| Publication.PreparesWhen | backend/infra/src/ai.rs:215-296 | When a candidate is newly prepared, what is stored then, and when it is read back, in every term of the request. |
| Publication.CompletesWhen | backend/infra/src/ai.rs:334-389 | When an acknowledgement completes a pending candidate, and what is stored then. |
| Publication.RejectsWhen | backend/infra/src/ai.rs:398-427 | When a candidate is rejected, and that nothing else changes. |
| Publication.SavesWhen | backend/infra/src/ai.rs:164-204 | When a draft is saved, and what it becomes. |
| Publishing.EveryInterleaving | backend/server/src/ai_publication_worker.rs:36-130 | Over all interleavings of transactions, reconcilers, late and repeated requests and crashes: receipts are for prepared candidates and nothing is published without its receipt. |
| Publishing.PublishedMeansRegistered | backend/server/src/ai_publication_worker.rs:36-130 | A published operation has the runtime's receipt for exactly the prepared request. |
| Publishing.OrphansStayOrphans | backend/infra/src/ai.rs:398-427 | A rejected operation stays rejected, its revision never becomes active, and no other operation gets its number. |
| Publishing.NoRevisionCollision | backend/ai-runtime/src/publication.rs:52-68 | No request ever sent can meet its revision number under another operation, or another registration under its own. |
| Publishing.ActiveNeverGoesBack | backend/infra/src/ai.rs:379-386 | The active revision strictly increases with every change, and at most one operation is pending. |
| Publishing.PendingUntilDecided | backend/server/src/ai_publication_worker.rs:36-167 | In every course of events a pending operation is decided by exactly these moves: Admin's rejection, a confirmed absence with expired evidence, a definitive refusal, a withdrawn or replaced connection, a completion refused for a changed draft or expired evidence, or a durable completion; anything else leaves it pending. |
| Publishing.WorkersProceed | backend/server/src/ai_publication_worker.rs:36-167 | In every course a worker sends a request only after the runtime has confirmed that it holds none of it, while its evidence is valid, and goes on to completion only under a connection that stands and works; nothing else is ever sent. |
| Publishing.PreparedRegisters | backend/ai-runtime/src/publication.rs:69-110 | While its evidence is valid and the runtime still holds it under the same connection, what Admin prepared is registered. |
| Login.AccountVault.Disconnect | backend/ai-runtime/src/http.rs:770-819 | One commit withdraws the connection, opens the withdrawal and revokes every login that could still complete. |
| Login.AccountVault.Expire | backend/ai-runtime/src/http.rs:920-938 | Exactly the overdue pending logins become expiring. |
| Login.AccountVault.Checkpoint | backend/ai-runtime/src/http.rs:1042-1085 | The login that a completion concerns is found, and expired, completed or failed as specified; without one nothing changes. |
| Login.AccountVault.Reconcile | backend/ai-runtime/src/http.rs:871-917 | The two loops of startup decide every login and withdrawal, or fail without a change. |
| Login.StartupWrites | backend/ai-runtime/src/http.rs:885-917 | Startup ends each undecided login as expired or interrupted, completes each ChatGPT withdrawal and changes nothing else. |
| Logins.EveryInterleaving | backend/ai-runtime/src/http.rs:364-960 | Over all interleavings of handler phases, credential changes, crashes and restarts with or without a native client, the login and withdrawal invariants hold and no operation id is used for two things. |
| Logins.EveryMove | backend/ai-runtime/src/http.rs:364-960 | In every course each move changes the accounts exactly as a table without handlers says: the integrity checks of the second phases are left out of it, because they never fail. |
| Logins.LoginsExcludeConnections | backend/ai-runtime/src/http.rs:578-675 | At most one login is starting or pending, a connection excludes it, and an unfinished withdrawal excludes both. |
| Logins.StartupDecidesEverything | backend/ai-runtime/src/http.rs:869-917 | Startup never meets a connection beside an unfinished withdrawal; it fails exactly when the native account contradicts the vault, and otherwise leaves nothing undecided. |
| Logins.HandlersFindTheirRecords | backend/ai-runtime/src/http.rs:735-757 | The integrity errors of the second phases are unreachable, and so is the conflict of a cancellation with a completed login. |
| Logins.WithdrawnStaysWithdrawn | backend/ai-runtime/src/http.rs:759-837 | Any connection held after a withdrawal began was installed, and kept since, by the completion of a login that itself began after the withdrawal and before that completion. |
| Logins.LateCompletionConnects | backend/ai-runtime/src/http.rs:1042-1085 | A late success for a native id that belongs to no live login connects the account exactly while a newer unexpired login waits for its own native id. |
| Logins.LateCompletionHappens | backend/ai-runtime/src/http.rs:1042-1085 | A run in which the success of a withdrawn login connects a newer one. |
| Logins.CompletionsFindOne | backend/ai-runtime/src/http.rs:1048-1055 | A completion concerns at most one login, so the order of the search does not matter. |
| Logins.RevokedChanges | backend/ai-runtime/src/http.rs:735-757 | A revoked login changes exactly when a cancellation begun before the withdrawal writes its answer. |
| Logins.LateCancelBlocksLogins | backend/ai-runtime/src/http.rs:603-631 | After an unconfirmed late cancellation of a revoked login no new login can begin. |
| Logins.LateCancelHappens | backend/ai-runtime/src/http.rs:705-757 | A run in which this happens. |
| Witnesses.RestartCanFail | backend/ai-runtime/src/inference_journal.rs:1556-1580 | A concrete history after which recovery fails. |
| Witnesses.DeltasFillTheLog | backend/ai-runtime/src/inference_journal.rs:1424-1459 | Any history with a run in flight is continued by one-byte deltas to a log of any length up to the full one. |
| Witnesses.OverrunCanBeLost | backend/ai-runtime/src/inference_journal.rs:1461-1512 | A concrete history after which the charge for a paid request in flight is refused and paid dispatch stays open. |
| Witnesses.SummaryCanFail | backend/ai-runtime/src/budget.rs:90-168 | A concrete history in which two paid requests are dispatched and billed, after which the budget has no readable summary. |

## Left out

- Encryption, file locks, fsync and path checks of the vault: a commit replaces the whole state or fails and changes nothing.
- The direct paid-request helpers at backend/ai-runtime/src/vault.rs:270-313, which settle ids outside the journal and would break the coupling of runs and reservations.
- Ed25519 verification of grants: a grant is an already verified record with its validity window.
- HTTP, timeouts, the native Codex process, its RPC loop and filesystem isolation; what they answer is a parameter of the step that follows.
- SQL: each publication transaction is one atomic step; audit rows and the per-model context table are not modelled.
- JSON: a JSON number is the text that serde_json prints for it, so the rounding of numbers to binary floating point before printing is outside the model.
- Unicode: white space and control characters are the ASCII ones.
- Pricing.SnapshotBounds: which of two wrong catalogue dimensions is reported first is not modelled; an unreadable one is reported before an uncovered one.
- Logins.EveryInterleaving: a cancellation names the login it found; which one the handler's search by operation or native id meets first is left open.
- Login.AccountVault.EnterCredential: the shape of a credential text and its digest are not modelled; the digest is a parameter.
- Vaults.Vault.ReconcileRestart: the order in which runs are visited is left open, which no result depends on.
- Publishing.EveryInterleaving: Admin's reading of the registry before completion is a separate step, as in the source, so the connection may change in between; dispatch checks it again.
- Renewal of authorizations while a response streams, the health worker, messaging, the service registry and the frontend: plumbing with only easy claims.
