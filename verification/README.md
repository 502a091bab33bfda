# A verified model of the chat backend

This project models the turn engine of the chat backend and the money beneath it, the two billing
webhooks that credit wallets, and six smaller mechanisms around them, and proves what they keep. All
statements are for every input, every oracle answer, every run of requests or every interleaving of
statements, as their contracts say.

`dafny verify dfyconfig.toml` checks the whole project.

## How it is built

- `Wallet` is the idempotent ledger of one user, as a class over its rows and as functions; `LedgerRaces`
  takes its statements apart and interleaves transactions under READ COMMITTED, with unique-key waits
  and the wallet row lock.
- `Records`, `Repository`, `Policy` and `Engine` describe one chat request as a function of the tables,
  of fresh ids, and of oracles for everything outside (model replies, argument validation, tool
  handlers, image generation). `Engine` also records every state that is committed and every history
  that is sent to the model. `ChatRepositories` and `Orchestrator` are the same code in its own form:
  objects whose methods loop, update fields, commit and roll back, each proved equal to its function.
- `Money`, `History`, `Pairing` and `Growth` hold the invariants; `TurnSafety`, `Conversation`, `Billing`,
  `Responses` and `Replies` carry them through a request; `ToolOutcomes`, `Transcript`, `Stops` and
  `KeyRejection` say what a request does in terms of the oracles' answers, the fields of the account and
  the rows alone; `Runs`, `PairedRuns`, `StoredAnswers`, `Replays`, `ToolResults`, `Restore` and
  `TemporaryChat` state the results over runs of requests, and `Scenarios` and `Shortfall` hold concrete
  runs in which their conditions fail.
- `CloudPayments` with `PaymentSelection` and `SubscriptionExpiry`, `Adapty`, `SchemaCleaner`, `RateLimit`,
  `PageWalk`, `RefreshTokens`, `ContextBlock` with `SettingSurvival`, and `Wire` stand beside the engine.

A temporary chat is the same request on an in-memory repository: `Orchestrator.UnitOfWork` holds both
repositories and sends every chat statement to one of them. Its rollback undoes the database but not that
memory, and its invariant says that the tables are those the request began with.

External wallet calls use keys that are not generated ids, so they never charge a turn; generated ids are
numbers handed out once.

## Where code and comments part

The model follows the code.

- A reply cut at the output limit is stored with its unfinished tool_use blocks and sent again on later
  turns, although the docstring at src/app/chat/orchestrator.py:1520-1527 says they are excluded. Hence
  the second half of the guard in `PairedRuns.Guarded`.
- The replay test at src/app/chat/orchestrator.py:909 reads rows that the barrier query has just
  refreshed, so it always holds there. A replay answers with the first assistant step of the turn behind
  the result of the batch's first call (`Replays.ReplayRepeats`), under the status of an answer
  (src/app/chat/orchestrator.py:2252-2274) even if that step was cut off or asks for a tool. So it need not
  repeat the original response, of which the comment at src/app/chat/orchestrator.py:2267-2268 speaks
  (`Replays.RedeliveryRepeatsFirst` says when it does), it may show what nobody has paid for
  (`Replays.ShownAnswerIsPaid`, `Scenarios.UnpaidReplay`), and a batch that names an answered call first
  can keep a turn from going on (`ToolResults.ClosedBarrierMerges`, `Scenarios.MergedReplays`).
- Images are debited and committed before the text debit, so a turn may end `credits_empty` with its
  images paid (`Runs.ChargedAsWhole`, `Shortfall.ImagePaidTurnBlocked`).
- Truncation removes steps by position and tool calls by turn. It is an exact undo only under the
  condition of `Restore.EditUndoes`; `Restore.StraddlingEditLosesCall` shows an input where it is not, and
  `Scenarios.InterleavedReached` a run that gets there.
- A new subscription payment sets the expiry even if the stored one is later
  (`SubscriptionExpiry.ExpiryShortens`).
- Adapty events of one billing period with different tiers: the first one that pays is credited, the
  others raise on every delivery (`Adapty.FailsExactly`).
- Speaking again before a handed-over call is answered is not refused, and sends its tool_use without a
  result (`Scenarios.UnguardedSends`).
- A policy-blocked request still commits its user step and its truncation (`Responses.BlockedCommits`,
  `Shortfall.BlockedEdit`).
- Attachments are injected into the last message of the user role, which on a continuation is a tool
  result (`Wire.InjectAt`).
- A sliding window is half-open: two admitted attempts may lie exactly one window apart
  (`RateLimit.ClosedWindowBound`).
- A payment whose configured amount is not positive raises on every delivery and blocks the payments
  behind it (`CloudPayments.PassCompletes`).

## Model

| member | source | states |
|---|---|---|
| `Wallet.WalletService.Consume` | src/app/wallet/service.py:94-172 | the state and verdict after the insert-first debit: applied once, replayed on the same key, kind and amount, conflict on another, insufficient when the balance is short (its row then stays until a rollback) |
| `Wallet.WalletService.Grant` | src/app/wallet/service.py:174-236 | the state and verdict after a credit, with the same three cases |
| `Wallet.WalletService.InsertOnConflictDoNothing` | src/app/wallet/service.py:112-134 | a row is inserted exactly when no row has its key |
| `Wallet.PerformSound` | src/app/wallet/service.py:94-236 | a completed operation keeps balance = credits - debits >= 0 and one row per key; exactly `Insufficient` breaks it; repeating a completed operation changes nothing and replays |
| `Wallet.UniqueKeysMeaning` | src/app/models/tables.py:122-129 | the recursive form of the unique index means that no two rows share a key |
| `Wallet.FindStable` | src/app/wallet/service.py:63-72 | what is recorded under a key never changes when the ledger grows |
| `Wallet.DebitVerdict` | src/app/wallet/service.py:94-172 | what a debit is answered, by the rows: an equal row replays it, another row under its key or an amount that is not positive conflicts, a new one is applied exactly when the balance covers it |
| `Wallet.CreditVerdict` | src/app/wallet/service.py:174-236 | the same of a credit, which is never insufficient |
| `Stops.OutsideAnswers` | src/app/wallet/service.py:94-236 | external wallet and settings requests, by the ledger rows: replays change nothing, a new one moves the balance by its amount and leaves its row, what is refused leaves none |
| `LedgerRaces.CommittedStateIsSerial` | src/app/wallet/service.py:112-152 | every committed state of every statement-by-statement interleaving equals the committed operations executed one after another from an empty wallet, so balance = credits - debits >= 0 and keys are unique under concurrency |
| `LedgerRaces.FailedNeverCommits` | src/app/db.py:47-56 | reads back the commit guard of the transition system, in which the flag set by a raising operation bars the commit: such a transaction can only disappear by a rollback |
| `Runs.ChargeConservation` | src/app/chat/orchestrator.py:1466-1490 | in every state committed in any run, with mid-turn commits, rollbacks, retries and edits, the debits of a turn are cost x its stored images plus 1 exactly if a final step was committed for it under the debit plan |
| `Runs.ChargedAsWhole` | src/app/chat/orchestrator.py:1466-1490 | in every such state, at a positive image price, a turn is charged for its final step and all its images, or not at all, exactly when its final step was billed or it stored no image |
| `Shortfall.ImagePaidTurnBlocked` | src/app/chat/orchestrator.py:2054-2108 | the other case happens: a subscriber with one credit gets an image, pays for it, and the turn ends `credits_empty` without a final step |
| `Shortfall.BlockedEdit` | src/app/chat/orchestrator.py:685-819 | a user whose trial is used sends and then edits a message: both requests are blocked, the first message is stored and then replaced |
| `Runs.LedgerAlwaysSound` | src/app/chat/orchestrator.py:1478-1482 | in every such state the wallet is non-negative, equals its ledger, and has one row per key |
| `Runs.OneLifetimeTrial` | src/app/chat/orchestrator.py:484-495 | over any run across a user's sessions at most one final step is ever committed under the trial plan, and only with the trial marked used |
| `Runs.AnsweredOnce` | src/app/chat/repository.py:222-251 | in every committed state a tool call is pending iff no tool step carries its id, otherwise exactly one does, in the call's own turn and with the call's status and result |
| `Runs.ExecKeeps` | src/app/chat/orchestrator.py:560-964 | one request of any kind keeps the database invariant, and every state it commits satisfies it and only adds account rows |
| `TurnSafety.LoopKeeps` | src/app/chat/orchestrator.py:1201-1410 | every commit of a generation loop, whatever the model replies and wherever it stops, keeps the row and money invariants |
| `TurnSafety.ExecuteImageKeeps` | src/app/chat/orchestrator.py:2054-2108 | debit, image row and tool step keep them; an insufficient debit leaves the last committed state |
| `Money.ChargeKeepsAccount` | src/app/chat/orchestrator.py:2067-2096 | an image debit under its call id together with its image row keeps every turn's balance |
| `Money.BilledFinalKeepsAccount` | src/app/chat/orchestrator.py:1466-1490 | a final step with its one-credit debit does, first time or replayed |
| `Money.OutsideKeepsAccount` | src/app/wallet/service.py:94-236 | wallet calls under external names charge no turn |
| `Billing.RunSettles` | src/app/chat/orchestrator.py:1466-1504 | a request records a final step exactly if it answers with one, under the plan of its policy check; cut, blocked, failed and handed-off requests leave the trial as it was |
| `Billing.ToolResultSettles` | src/app/chat/orchestrator.py:905-949 | the same for a continuation, under the plan of its own policy check |
| `Billing.TemporarySettles` | src/app/chat/ephemeral_repository.py:52-188 | a temporary run settles like any other |
| `Billing.CreditsAnswersArePaid` | src/app/chat/orchestrator.py:1466-1504 | what a generation answers in credits mode, in a run, a temporary run or a continuation after a hand-off, is paid in the account it leaves: a one-credit debit under the turn's key, or the trial, which this very request then spent; replayed replies are not generated and not covered here |
| `Billing.AnswerWasAllowed` | src/app/chat/orchestrator.py:905-949 | only a request whose own policy check passed answers |
| `StoredAnswers.StoredAnswersArePaid` | src/app/chat/orchestrator.py:1466-1490 | after any run of a new user, every uncut tool-free reply stored in a credits-mode session has been paid for |
| `Replays.PaidExactly` | src/app/chat/orchestrator.py:1466-1490 | after any run of a new user, a credits-mode turn that still has a tool call, and so can be replayed, has been paid for exactly when its session holds an uncut tool-free reply of it |
| `Replays.ShownAnswerIsPaid` | src/app/chat/orchestrator.py:2252-2274 | who has paid for what is shown as an assistant message in credits mode: a generated answer is paid; a replayed reply is exactly when, in the tables before the request, the turn has an uncut tool-free reply |
| `Scenarios.UnpaidReplay` | src/app/chat/orchestrator.py:905-911 | a run of a new user in which a cut continuation is shown as an answer on redelivery and nobody has paid for it |
| `Replays.ReplaysExactly` | src/app/chat/orchestrator.py:905-911 | a batch is answered by a replay exactly when it leaves no client call pending and the stored chat has an assistant step of the turn behind the result of its first call |
| `Replays.ReplayRepeats` | src/app/chat/repository.py:325-363 | a replay calls no model, leaves the account as it was, and its text is that of the first assistant step of the turn behind the result of the batch's first call in the stored chat |
| `Replays.RedeliveryRepeatsFirst` | src/app/chat/orchestrator.py:905-911 | a batch delivered again right after its generation answered or was cut off replays the first reply of that generation; this is the original text exactly when the two texts are equal, in particular after a single model call |
| `Policy.WhoGetsIn` | src/app/policy/engine.py:92-118 | who is allowed, in both modes, both directions; the reasons of the others are `Policy.ReasonNamesObstacle` |
| `Policy.AllowedPlan` | src/app/policy/engine.py:92-118 | an allowed credits-mode turn is never free, an allowed BYOK turn always is |
| `Policy.ReasonNamesObstacle` | src/app/policy/engine.py:92-118 | for each reason exactly the users who are refused for it, by subscription, trial, balance and key |
| `Policy.RemovingObstacle` | src/app/policy/engine.py:92-118 | taking away what the reason names gets the user in, or past that reason |
| `Stops.OutcomeExplained` | src/app/chat/orchestrator.py:1257-1410 | why a request that gets to its policy check ends as it does: it is refused without a model call exactly when the account's fields give a reason, and for that one; otherwise every reply but the last asked for server-side tools only, and the outcome is accounted for by the last one, the blocks in it, the rounds used and the balance |
| `Stops.RunTurnedAway` | src/app/chat/orchestrator.py:699-705 | a run never gets to its generation exactly when it edits a message that its session does not have; nothing is left of it |
| `Stops.RunTargets` | src/app/chat/repository.py:111-128 | a run works on the session it names exactly if that exists and has not expired, else on an empty new one in the mode it asks for |
| `Stops.ResultsTurnedAway` | src/app/chat/orchestrator.py:836-858 | a batch of results is refused for its first misfit: an unknown call, or one of another turn; an empty batch is invalid |
| `Stops.WaitsForOpen` | src/app/chat/orchestrator.py:875-903 | a batch that fits is stored, and then waits for exactly the client calls of the turn that still have no result, if there are any, without a model call |
| `KeyRejection.OnlyRejectionMarks` | src/app/chat/orchestrator.py:1312-1319 | a generation marks the user's own key as expired exactly when its last model call was rejected under that key, and is then answered `byok_invalid`; otherwise key and subscription stay as they were at every commit |
| `KeyRejection.RejectedKeyBlocks` | src/app/policy/engine.py:98-106 | the next request under the rejected key is answered `byok_invalid` without a model call, from any session or temporary chat |
| `History.CutKeepsChat` | src/app/chat/repository.py:253-302 | truncation keeps the call/step invariants of what remains, interleaved turns or not |
| `History.AnswerKeepsChat` | src/app/chat/orchestrator.py:991-1028 | completing a pending call with its tool step keeps them |
| `Repository.TruncateKeepsPrefix` | src/app/chat/repository.py:253-302 | an edit is refused exactly when no user step has that turn; otherwise exactly the steps before its first user step remain, and on sequential turns exactly their calls |
| `Repository.CutExact` | src/app/chat/repository.py:288-298 | the calls kept are exactly those of the surviving turns precisely when no call's turn has steps on both sides of the cut |
| `Pairing.ScanDecidesPaired` | src/app/chat/orchestrator.py:877-903 | the declarative pairing condition (every tool_use answered exactly once, by its provider id, before the next speaker, and no other result) is decided by one pass |
| `History.GuardDecidesReady` | src/app/chat/orchestrator.py:1277-1321 | an intact history is paired exactly when no call is unanswered and no stored reply was cut off inside a tool_use |
| `Conversation.GenerationPairs` | src/app/chat/orchestrator.py:1277-1392 | each history a generation sends is paired exactly when the one it starts from is, and every state it commits stays consistent |
| `PairedRuns.RunSendsPaired` | src/app/chat/orchestrator.py:685-819 | for every run on an intact session: each history sent is paired iff the table-checkable guard holds, and then every committed state is intact again |
| `PairedRuns.ResultSendsPaired` | src/app/chat/orchestrator.py:821-964 | the same for a tool-result continuation |
| `PairedRuns.EveryCallPaired` | src/app/chat/orchestrator.py:1277-1392 | over any guarded run from a new user, every history in every model call is paired |
| `PairedRuns.EditIsReady` | src/app/chat/repository.py:253-302 | cutting an intact history at any user step leaves a paired history with no pending call |
| `Scenarios.UnguardedSends` | src/app/chat/orchestrator.py:1506-1572 | the guard is needed: a new user whose first answer is cut off inside a tool_use, or hands a call over, and who then speaks again, has an unpaired history sent |
| `PairedRuns.TemporarySendsPaired` | src/app/chat/ephemeral_repository.py:52-188 | a temporary chat seeded with texts only ever sends paired histories |
| `Responses.ResponseAgrees` | src/app/chat/orchestrator.py:1257-1410 | tools and images in a response are, in order, exactly the tool steps and image rows its loop committed; the text of an answer or cut reply is that of the step stored last; calls handed over are exactly the pending ones; at most MAX_SERVER_TOOL_ROUNDS + 1 model calls, each on a committed history with no client call of the turn pending |
| `ToolOutcomes.CallsTellTheTruth` | src/app/chat/orchestrator.py:1574-2108 | in every state a request commits, each call its generation added belongs to a block of a stored reply, holds the validated arguments (the raw input only for an invalid quiz), and shows in its row and its tool step exactly what its handler returned for them, or the fixed code of an image that was refused or failed; each image row and each debit added belongs to an image call whose bytes were made, at its price, or is the one credit of the final step; every other call cost nothing |
| `Transcript.RepliesStoredVerbatim` | src/app/chat/orchestrator.py:1277-1400 | in every committed state, what stands behind the history a generation began with is, word for word and in order, what the model answered to the histories it was sent, and tool steps; the last state holds every reply but perhaps the last |
| `Transcript.RunBeginsWith` | src/app/chat/orchestrator.py:685-819 | the history a run begins with: the session's, or its part before the edited message, or the transcript of a temporary chat, and behind it the new message with its hidden prompt, in a new turn |
| `Transcript.ResultsStoredVerbatim` | src/app/chat/orchestrator.py:862-873 | a batch adds one tool step, with exactly the item's result and error, for each item that is the first for a waiting call, in batch order, and no other step |
| `Records.MessagesReadBack` | src/app/chat/orchestrator.py:1139-1199 | the model sees what is stored: each message reads back as its step, but for the hidden prompt at the end of a user message and the cut-off mark |
| `Records.ToolsInOrder` | src/app/chat/orchestrator.py:1590-1640 | the tools of a reply come in block order |
| `Records.TextInOrder` | src/app/chat/orchestrator.py:1323-1392 | so do the pieces of its text |
| `Replies.RequestReplies` | src/app/chat/orchestrator.py:1323-1410 | the text of any generated response, hand-offs included, is that of the last reply stored, with only tool steps behind it; the calls handed over are those of its client tool_use blocks in block order, with their names, arguments and provider ids; the first reply stands right behind the history the generation began with |
| `Responses.BlockedCommits` | src/app/chat/orchestrator.py:685-819 | a request blocked by the policy check commits exactly its edit and message, or its results, and nothing else |
| `Responses.OthersSendNothing` | src/app/chat/orchestrator.py:685-819 | a request that does not reach generation calls no model and reports no tool, image or answer |
| `Growth.LoopGrew` | src/app/chat/orchestrator.py:1257-1410 | every commit of a loop extends the state it started from: old calls unchanged, only steps of its turn appended, fresh call ids |
| `Growth.SentBound` | src/app/chat/orchestrator.py:1277-1410 | at most n model calls in n rounds, earlier ones kept |
| `ToolResults.DeliveriesSettle` | src/app/chat/orchestrator.py:859-903 | after any deliveries for a turn, with the generations they trigger, every call holds the first item of the whole stream for it if it was pending, else what it held |
| `ToolResults.SplitIndependent` | src/app/chat/orchestrator.py:859-903 | splitting, repeating or overlapping batches gives the same statuses and results whenever each call's first item is the same |
| `ToolResults.ClosedBarrierMerges` | src/app/chat/orchestrator.py:859-949 | a batch that leaves a client call pending, and the next one, give the database and response of the merged batch, generation included, exactly when a client call stays pending, or in the stored chat the turn went on behind the results of both batches' first calls with equal texts, or behind neither |
| `Scenarios.MergedReplays` | src/app/chat/orchestrator.py:905-911 | a reached session in which the merged batch replays a stored reply and the turn does not go on, while the split one, or the same items in the other order, generates |
| `ToolResults.LateResultIgnored` | src/app/chat/repository.py:222-251 | results for answered calls change neither rows nor steps |
| `Restore.EditUndoes` | src/app/chat/orchestrator.py:693-700 | in any run whose earlier edits were clean, editing a turn restores exactly the history that turn's request extended, precisely when in the tables no tool call's turn has steps on both sides of the cut |
| `Restore.CutRestoresExactly` | src/app/chat/repository.py:288-298 | cutting a grown history at an earlier length gives the earlier history, under exactly that condition, when a turn goes on only through a call it had |
| `Restore.EditSendsBefore` | src/app/chat/orchestrator.py:693-819 | the first history sent after such an edit is the restored one plus the new user step |
| `Restore.StraddlingEditLosesCall` | src/app/chat/repository.py:288-298 | the condition is needed: a concrete late result and edit leave a tool_use that no row remembers |
| `Scenarios.InterleavedReached` | src/app/chat/orchestrator.py:685-964 | that history is reached by a new user in three requests without any edit, and editing its second message does not give back the history that message extended |
| `TemporaryChat.TemporaryRefinesStored` | src/app/chat/ephemeral_repository.py:52-188 | with the same oracles and no client tool named, a temporary chat and a stored session with the same history send the same message lists, reach the same outcome and commit the same accounts |
| `TemporaryChat.ServeTwins` | src/app/chat/orchestrator.py:590-606 | the same of the objects: one request served on the stored tables, one on the repository in memory |
| `Orchestrator.ServeTemporary` | src/app/chat/orchestrator.py:590-606 | a temporary run on the in-memory repository has the trace of its function, and the chat tables, read back after it, hold the rows they held before |
| `ChatRepositories.ChatRepository.AddStep` | src/app/chat/repository.py:134-152 | appends one step at the end of its session and touches no other session |
| `ChatRepositories.ChatRepository.CreateToolCall` | src/app/chat/repository.py:168-189 | adds a pending call to its session |
| `ChatRepositories.ChatRepository.CompleteToolCall` | src/app/chat/repository.py:222-251 | pending to completed or errored, once; says whether it did |
| `ChatRepositories.ChatRepository.TruncateFromMessageStep` | src/app/chat/repository.py:253-302 | rows after truncation and the number of deleted steps, at least one; or nothing when the turn has no user step |
| `ChatRepositories.ChatRepository.NextStepAfter` | src/app/chat/repository.py:325-363 | first assistant step after the call's result, the latest one when that result is missing |
| `Orchestrator.ChatOrchestrator.BuildMessages` | src/app/chat/orchestrator.py:1173-1199 | one message per step of the repository in use, the hidden prompt appended as a last block |
| `ChatRepositories.EphemeralChatRepository.AddStep` | src/app/chat/ephemeral_repository.py:116-136 | appends to a list in memory, as the stored repository does to the table |
| `ChatRepositories.EphemeralChatRepository.CreateToolCall` | src/app/chat/ephemeral_repository.py:142-162 | the same, with row objects in a dictionary |
| `ChatRepositories.EphemeralChatRepository.CompleteToolCall` | src/app/chat/ephemeral_repository.py:176-188 | the same, setting the row object's fields in place and touching no other row |
| `Orchestrator.UnitOfWork.ApplyToolResult` | src/app/chat/orchestrator.py:991-1028 | on either repository: the call completed and its tool step stored, once |
| `Orchestrator.UnitOfWork.Rollback` | src/app/db.py:47-56 | tables, wallet and user rows go back to the last commit, a temporary chat's memory does not |
| `Orchestrator.ChatOrchestrator.ExecuteImageGenerateTool` | src/app/chat/orchestrator.py:1952-2108 | the block of an image call: degrade, debit, rollback-and-block, or store |
| `Orchestrator.ChatOrchestrator.HandleToolUse` | src/app/chat/orchestrator.py:1574-1765 | all tool_use blocks in order, server-side ones executed, client ones handed over |
| `Orchestrator.ChatOrchestrator.FinalizeAssistant` | src/app/chat/orchestrator.py:1426-1504 | final step and billing in one transaction |
| `Orchestrator.ChatOrchestrator.HandleMaxTokens` | src/app/chat/orchestrator.py:1506-1572 | the cut reply is stored and committed without billing |
| `Orchestrator.ChatOrchestrator.GenerateLoop` | src/app/chat/orchestrator.py:1201-1410 | the loop over rounds as written equals its specification, whose properties are proved above |
| `Orchestrator.ChatOrchestrator.Run` | src/app/chat/orchestrator.py:560-819 | truncation, user step, policy, generation |
| `Orchestrator.ServeChat` | src/app/db.py:47-56 | a request served by the orchestrator objects, commit on success and rollback on error included, has exactly the trace about which everything above is proved, and what the tables of all sessions hold afterwards is its database effect |
| `Orchestrator.ChatOrchestrator.ResolveItems` | src/app/chat/orchestrator.py:849-871 | every item names a call of the session, all of one turn, or the first misfit's error |
| `Orchestrator.ChatOrchestrator.ToolResult` | src/app/chat/orchestrator.py:821-964 | resolution, application, barrier, replay or continuation |
| `CloudPayments.ApplyKeepsBijection` | src/app/billing_cloudpayments/service.py:263-371 | at every commit journal rows and `cp-txn:` credits are one to one and wallets sound; a payment fails exactly when its amount is not positive |
| `CloudPayments.RedeliveryConverges` | src/app/billing_cloudpayments/service.py:212-222 | after any pattern of deliveries that died part-way, one full delivery gives the journal, credits and plans of a single clean one |
| `CloudPayments.SelectionStable` | src/app/billing_cloudpayments/verify.py:145-193 | a later callback selects the same payments from the same list exactly when none of them has left the freshness window; otherwise strictly fewer |
| `CloudPayments.CallbacksConverge` | src/app/billing_cloudpayments/service.py:187-222 | while every payment stays fresh, failed callbacks followed by a complete one converge to the first complete one, although each selects at its own time |
| `CloudPayments.SelectCreditablePayments` | src/app/billing_cloudpayments/verify.py:145-193 | the filtering loop computes the selection |
| `PaymentSelection.SelectedItems` | src/app/billing_cloudpayments/verify.py:145-193 | the selection is exactly the items whose trimmed, lowered status is a paid one, whose date is inside the window and whose id, code and type are not blank, in list order, one payment with its trimmed fields each |
| `PaymentSelection.SelectedExactly` | src/app/billing_cloudpayments/verify.py:145-193 | membership in the selection both ways, over the fields of the items |
| `PaymentSelection.OnlyPaidIsCredited` | src/app/billing_cloudpayments/service.py:212-371 | over any callbacks, with crashes and retries, every journal row and every credit added stems from a paid and then fresh item of the verified list, under its id and at the price of its product |
| `PaymentSelection.PaidIsCredited` | src/app/billing_cloudpayments/service.py:212-371 | conversely a completed callback leaves the credit of every paid, fresh item that is worth something and was not journaled before |
| `Strings.TrimMeans` | src/app/billing_cloudpayments/verify.py:166-190 | trimming takes whitespace off both ends, all of it, and nothing else |
| `CloudPayments.FurtherPassIsIdle` | src/app/billing_cloudpayments/service.py:212-222 | a further delivery credits nothing and changes nothing, expiry dates included |
| `CloudPayments.PassCompletes` | src/app/billing_cloudpayments/service.py:263-371 | a delivery completes exactly when no payment is stuck (non-positive amount, not covered by a journal row old or new) |
| `SubscriptionExpiry.ExpiryShortens` | src/app/billing_cloudpayments/service.py:405-423 | a payment shortens the expiry exactly when it is a subscription with a positive amount, not yet in the journal, whose own expiry is earlier than the stored one |
| `SubscriptionExpiry.DeliveryDecidesPlan` | src/app/billing_cloudpayments/service.py:263-371 | after a delivery the plan is that of the last subscription payment that newly entered the journal before the delivery stopped, and the old one if there is none |
| `SubscriptionExpiry.DeliveryShortens` | src/app/billing_cloudpayments/service.py:212-222 | a delivery shortens the expiry exactly when that payment exists and expires earlier than the stored plan |
| `SubscriptionExpiry.ExpiryCanShorten` | src/app/billing_cloudpayments/service.py:405-423 | one such shop and pair of payments: a year, then a week |
| `CloudPayments.WebhookService.ApplyPayment` | src/app/billing_cloudpayments/service.py:263-371 | one payment as one transaction, rolled back as a whole on an exception |
| `CloudPayments.WebhookService.CreditAll` | src/app/billing_cloudpayments/service.py:212-222 | the loop over payments, up to an exception or a crash anywhere |
| `Adapty.RepeatsChangeNothing` | src/app/billing_adapty/service.py:204-355 | any event stream leaves the journal, ledgers and subscriptions that the stream without its repeats leaves, conflicting grants included |
| `Adapty.PeriodCreditedOnce` | src/app/billing_adapty/service.py:332-350 | of the granting events of a billing period exactly those took effect whose amount is the one on record |
| `Adapty.OneCreditPerPeriod` | src/app/billing_adapty/service.py:332-350 | each (user, transaction) has at most one ledger row |
| `Adapty.FailsExactly` | src/app/wallet/service.py:174-236 | an event raises exactly when it is a new granting one and its amount is not positive or its period has a ledger row of another amount; then nothing changes |
| `Adapty.FirstPayingIsCredited` | src/app/billing_adapty/service.py:332-350 | over any stream the ledger row of a period is the one there was, or else the credit of the first paying event of the period |
| `Adapty.GrantsTakeEffect` | src/app/billing_adapty/service.py:332-350 | from an empty journal, a granting event of a stream took effect exactly when its amount is positive and equals the one its period's first paying event settled |
| `Adapty.OtherTierFails` | src/app/wallet/service.py:207-208 | two events of one transaction with different tiers: the second raises and leaves nothing |
| `Adapty.WebhookService.Deliver` | src/app/billing_adapty/service.py:204-275 | journal row, subscription and credit of one event, or none of them; what these are is told by the four rows below |
| `Adapty.WebhookService.DeliverAll` | src/app/billing_adapty/service.py:204-355 | a stream delivered event by event leaves the state that the stream results speak of |
| `Adapty.SubscriptionFollows` | src/app/billing_adapty/service.py:286-330 | after an event that took effect a granting one leaves its user active with its product and date, an ending one leaves the status expired with plan and date untouched, any other changes nothing; no other user is touched |
| `Adapty.OthersIgnored` | src/app/billing_adapty/service.py:124-203 | ignored is exactly an event of a kind that is not understood or of no user of ours; it leaves no trace |
| `Adapty.PeriodIsTransaction` | src/app/billing_adapty/service.py:242-242 | after a granting event that took effect the ledger has its credit under the key of its own transaction, without one of the original transaction, else of the event id; it is new exactly if no row had that key |
| `Adapty.EveryRenewalPays` | src/app/billing_adapty/service.py:332-355 | two granting events with different transactions, new to journal and ledger, add exactly two rows and both amounts, whatever original transaction they share |
| `SchemaCleaner.CleaningOnlyRelaxes` | src/app/chat/tools.py:616-659 | every value valid under a schema is valid under its cleaned form, through properties, items, anyOf, additionalProperties and references into $defs, for any meaning of the other keywords, when no node has patternProperties beside additionalProperties or prefixItems beside items |
| `SchemaCleaner.PatternClash` | src/app/chat/tools.py:616-659 | the first exclusion is needed: a value becomes invalid |
| `SchemaCleaner.PrefixClash` | src/app/chat/tools.py:616-659 | so is the second |
| `SchemaCleaner.CleanIsStrict` | src/app/chat/tools.py:599-613 | only allowlisted keywords remain, at every depth |
| `SchemaCleaner.StrictIsFixed` | src/app/chat/tools.py:616-659 | a schema is unchanged exactly when it has nothing but allowlisted keywords at every depth |
| `SchemaCleaner.CleanIsIdempotent` | src/app/chat/tools.py:616-659 | cleaning twice is cleaning once |
| `SchemaCleaner.CleanKeepsDeclared` | src/app/chat/tools.py:637-641 | exactly the declared property names stay declared |
| `SchemaCleaner.CleanNames` | src/app/chat/tools.py:634-636 | a keyword remains exactly if it is allowed |
| `SchemaCleaner.AllowlistIs` | src/app/chat/tools.py:599-613 | the keywords that remain, written out, `required` among them; `type`, `required`, `description`, `enum`, `const` and `$ref` keep their value |
| `SchemaCleaner.CleanForOpenAiStrict` | src/app/chat/tools.py:616-659 | the loop that fills the new dictionary computes the cleaned schema |
| `RateLimit.WindowBound` | src/app/api_gateway/rate_limit.py:33-44 | for non-decreasing times, every half-open window of the configured length contains at most `limit` admitted attempts |
| `RateLimit.ClosedWindowBound` | src/app/api_gateway/rate_limit.py:38-44 | a closed window holds the admitted attempts of the half-open one and those exactly at its left end: at most twice the limit, and more than the limit only if some were admitted at both ends |
| `RateLimit.ClosedWindowExceeds` | src/app/api_gateway/rate_limit.py:38-38 | two admitted attempts in one closed window under a limit of one |
| `RateLimit.AttemptKeeps` | src/app/api_gateway/rate_limit.py:33-44 | the stored set is always exactly the attempts, admitted or not, of the last window, whether or not the key expired |
| `RateLimit.Limiter.Allow` | src/app/api_gateway/rate_limit.py:33-44 | the pipeline's verdict is the window's |
| `RateLimit.Limiter.EnforceChatLimits` | src/app/api_gateway/rate_limit.py:47-66 | a request that passes was let in under every key it was checked for |
| `PageWalk.WalkIsComplete` | src/app/chats/repository.py:86-162 | over a fixed table and any page sizes of at least one, following the cursors ends and lists every matching chat exactly once in (pinned, updated_at, id) descending order |
| `PageWalk.PagesAreFull` | src/app/chats/repository.py:86-162 | a page is as long as asked for, or else the last one, and exactly the last one has no cursor |
| `PageWalk.RestIsSuffix` | src/app/chats/repository.py:123-147 | what the keyset condition leaves is what is listed behind the cursor, in the same order |
| `PageWalk.CursorRoundTrip` | src/app/chats/cursor.py:27-45 | decoding an encoded cursor gives it back |
| `RefreshTokens.LiveConserved` | src/app/auth/service.py:270-322 | the live tokens of a chain grow by one per sign-in, stay constant under a successful refresh, become zero at a detected reuse; other chains are untouched |
| `RefreshTokens.RefreshAccepts` | src/app/auth/service.py:270-313 | a refresh succeeds exactly for a known, unused, unrevoked, unexpired token, which is used from then on |
| `RefreshTokens.RefusalNamesObstacle` | src/app/auth/service.py:270-313 | which refused token gets which answer: unknown, exchanged before, revoked, out of time; only a reuse changes anything |
| `RefreshTokens.FreshTokenLasts` | src/app/auth/service.py:109-137 | a token issued at `now` by a sign-in or a refresh is live and its owner's; whatever happens afterwards it is exchanged at every time before `now` + ttl unless exchanged or revoked meanwhile, and at none from then on |
| `RefreshTokens.WhoSignsIn` | src/app/auth/service.py:68-268 | who a sign-in is: the owner of a known device, the user of a known identity, for a new identity the device's owner if no identity has that user, else a user nothing referred to before; nobody else's device or identity moves |
| `RefreshTokens.ExchangedOnce` | src/app/auth/service.py:289-313 | over any run no token is exchanged twice or after its revocation |
| `RefreshTokens.ReuseEndsChain` | src/app/auth/service.py:289-294 | after a detected reuse no token the chain had by then is ever accepted |
| `RefreshTokens.IdentitiesKept` | src/app/auth/service.py:190-268 | an Apple identity keeps its user for good, no two share one, and the device follows it |
| `RefreshTokens.AuthService.RegisterOrToken` | src/app/auth/service.py:139-151 | find-or-create and a fresh pair |
| `RefreshTokens.AuthService.SignInWithApple` | src/app/auth/service.py:153-188 | identity resolution, device binding and a fresh pair |
| `RefreshTokens.AuthService.RefreshPair` | src/app/auth/service.py:270-313 | rotation, rejection or chain revocation |
| `RefreshTokens.AuthService.RevokeChain` | src/app/auth/service.py:315-322 | exactly the chain's tokens are revoked |
| `ContextBlock.StripRoundTrip` | src/app/chats/repository.py:34-47 | stripping the composed text gives the message back (empty if it was blank, whole even if it starts with the anchor) exactly when no rendered value holds a `]`; otherwise nothing is removed |
| `ContextBlock.PlainMessage` | src/app/chat/orchestrator.py:226-240 | without settings the text is the message, and only one that itself matches the pattern is touched |
| `SettingSurvival.WhichSurvive` | src/app/chat/orchestrator.py:168-222 | the settings in a block are exactly the acceptable ones of the five known names, by their enums, lengths and characters, each with its normalized value, in the fixed order, once |
| `SettingSurvival.SanitizeMeans` | src/app/chat/orchestrator.py:157-165 | sanitizing takes out delimiters and collapses whitespace to single spaces, and keeps every other character in order |
| `ContextBlock.BlockReadsBack` | src/app/chat/orchestrator.py:157-223 | no value smuggles a delimiter: the block reads back as exactly the surviving settings |
| `ContextBlock.RenderContextBlock` | src/app/chat/orchestrator.py:200-223 | the rendering loop over the fixed key order |
| `Wire.BuildMessages` | src/app/chat/orchestrator.py:1173-1199 | messages share their steps' lists except where a hidden block is appended to a new one; nothing that existed is modified |
| `Wire.CreateMessage` | src/app/chat/anthropic_client.py:314-324 | attachments go into a new list of the last user-role message, never into the shared one |
| `Wire.SendRounds` | src/app/chat/orchestrator.py:1276-1321 | however many rounds, each call sends exactly what the steps say; attachments reach the first call only |
| `Wire.OneHiddenBlock` | src/app/chat/orchestrator.py:1182-1185 | one hidden block, last, after the stored content |
| `Wire.SentSays` | src/app/chat/anthropic_client.py:211-249 | what the provider is sent says what is stored: each step its own blocks under its own role, and the attachments once, behind the last step that is not a reply |
| `Wire.NormalizePayload` | src/app/chats/service.py:174-221 | the history view is a function of the visible content alone, built on a deep copy; the prompt and provider id are gone |
| `Wire.ViewShows` | src/app/chats/service.py:175-271 | what a user sees, block by block: only the first text of a user step loses its settings block, inputs and outputs are as stored, ids and tool names are the domain ones wherever these are known |
| `Wire.HistoryShowsMessage` | src/app/chats/service.py:223-234 | the history shows the message the user wrote, without its settings block, exactly when no rendered value holds a `]` |

## Left out

- Overlapping requests on one session: requests of a user follow one another in `Runs`; only
  `LedgerRaces` interleaves transactions.
- Provider adapters: that the tool_use ids of a reply are distinct and that an `end_turn` reply carries
  none is assumed (`Conversation.WorldOk`); usage counts, model choice, prompts and provider tool names
  are not part of this model. Of the two adapters only the Anthropic message building is modelled.
- `Engine`: BYOK key decryption and its failures, workspace context, session titles, step ids, token
  usage, audit payloads and quiz payloads are left out; whether a session has expired is an input; the
  `cut` flag of a step repeats what its audit row says; `touch_session` has no effect on what is proved.
- `TemporaryChat.TemporaryRefinesStored`: compares requests whose generated ids coincide, since ids are
  numbers here.
- `Restore.EditUndoes`: what an edit does after an unclean edit is not characterised beyond
  `History.CutKeepsChat` and `Repository.CutExact`.
- Image expiry and its sweep: images are counted as ever stored.
- `site.*` handlers, website and workspace services, routers, schemas, logging, metrics.
- `CloudPayments`: request parsing, user resolution and the verification call are left out; the verified
  list of a callback is an input, its timestamps arrive parsed, and its processing time is a parameter.
- `Adapty`: body parsing is left out; an event arrives parsed, with its user or none.
- `SchemaCleaner.CleaningOnlyRelaxes`: references are followed into `$defs` of the root only, any other
  reference has an arbitrary fixed meaning; where `properties`, `$defs` or `anyOf` do not hold the map or
  list the code iterates over, the code raises and the model says nothing.
- `RateLimit`: Redis errors (the limiter then lets everything through) and clock skew between Redis and
  the service.
- `PageWalk`: the database's ORDER BY is taken as the ordering of the matching rows; search, previews
  and naive timestamps are left out; ISO, UUID and base64 formatting are assumed to be invertible.
- `RefreshTokens`: access tokens, Apple verification and the unconfigured-issuer error are left out;
  presenting a secret is presenting its row, as hashes of random secrets do not collide.
- `Wire`: steps-view, previews and the OpenAI adapter's wire format.
- `Policy`: how the stored subscription becomes effective (src/app/policy/loader.py:39-50) is an input.
