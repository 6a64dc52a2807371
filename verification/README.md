# Verified model of a single-instance AI gateway

This project models the parts of the gateway whose mistakes cost money, lose requests or corrupt answers, and proves
their promises for every input, run or reachable state.

- **Batch image jobs and held funds** (`Money`, `BatchPricing`, `BatchState`, `BatchLedger`, `BatchRun`,
  `BatchStranded`, `BatchStore`, `BatchRequest`). Database transactions are atomic functions over rows. A run
  interleaves clients, the one worker, crashes at any point between two effects, the provider and the outside world.
- **Admission control** (`Admission`, `AdmissionRun`). Threads step over shared counters; the broadcast channel is a
  generation number, closed once a later one exists.
- **At-most-once execution** (`Idempotency`, `ImageTasks`). Durable records under claims, completions and crashes.
- **Protocol converters** (`ChatWire`; `JsonInput`, `AnthropicChat`, `AnthropicAgreement`, `AnthropicPlay`,
  `AnthropicStream`; `ResponsesChat`, `ResponsesAgreement`, `ResponsesEvents`, `ResponsesFinal`, `ResponsesOrder`,
  `ResponsesSwapped`; `ChatParts`, `MessagesChat`, `MessagesLegal`, `MessagesRoundTrip`, `MessagesRun`,
  `MessagesBlocks`). Streams of events, the chunks they produce, and what a client
  has after reading them, compared with the one-shot conversion of the same answer.
- **Small cores**: `GroupFallback` (graph edits), `SearchMeter` and `ImageMeter` (cumulative metering),
  `CompositeRoute` (order-independent choice), `ProbePaging` (paged top 20), `Rectifier` (one corrective edit).

Where the source updates an object, a class here does the same and its methods are tied to specification functions;
the theorems are about those functions and about runs of them. `Runs`, `Sums` and `Sequences` hold shared
lemmas.

## What the proofs found

1. A batch job's hold stays frozen for good in exactly these cases: a crash between the commit to "uploading" and the
   create call (`BatchStranded.CrashStrands`); a create call that the provider refuses or never receives, or answers
   with an unsafe name (`LostCallStrands`); a provider job that leaves the listing before it was bound, or that the
   provider no longer answers for; a recorded cancel that the provider refuses, since every later cycle stops at the
   cancel call before the poll (`RefusedCancelStrands`), as happens when the user cancels a job that has already ended
   (`LateCancelStrands`); a final state unknown to the worker (`UnknownStateStrands`); and an output with an unsafe
   reference, that cannot be fetched or parsed, or that names an unknown item or one item twice (`BadOutputStrands`).
   Otherwise, in every reachable state, the job can still reach a final status
   (`BatchStranded.CanFinishUnlessStranded`).
2. The updates to "running" and to "indexing" carry no status guard. They keep the books exactly when the row is still
   open (`BatchLedger.UnguardedUpdates`); the worker's mutex is what keeps them there.
3. Losing the instance lock closes no wake channel, so a request can sleep beside a free slot until its timer
   (`AdmissionRun.LostInstanceLeavesSleeper`); and an attempt that gave a slot back wakes itself at once
   (`AdmissionRun.GivingBackWakesItself`).
4. The Anthropic stream and one-shot conversions agree exactly when no block carries text of another kind and a custom
   tool's object has a string as its last member "input" with no later spelling of that name ending on another text. A
   null input and a stray text field are concrete disagreements (`AnthropicStream.NullInputParts`,
   `AnthropicStream.StrayTextParts`).
5. The Responses stream gives every listed part exactly its final text, but joins a field's parts in arrival order. The
   client is told the same pieces in the same order as by the one-shot conversion exactly when no event adds text to a
   part before one that already has text, tools are first mentioned in output order, and everything said is listed
   (`ResponsesOrder.OrderlyExactly`; `ResponsesSwapped.SwappedPartsDiffer` reads "ba" for "ab"). The finish reason
   differs exactly when a mentioned tool is missing from a completed output listing none
   (`ResponsesOrder.FinishAgreesExactly`).
6. A Messages trace takes one block for every change between text and thinking. An answer alternating n times is told in
   full, and the native converter accepts it exactly when n is at most 4096 (`MessagesBlocks.AlternationLimit`); apart
   from that and the size limit a trace is always accepted.
7. A frame of search events seen again later changes nothing exactly when it does not complete an unnamed call
   (`SearchMeter.RepeatChangesNothing`); the per-frame limit of 20000 never decides anything
   (`SearchMeter.FrameLimitIsRedundant`).
8. A request that carries a copy of its group loaded before later edits can take a second hop, and can end in the
   "invalid chain" branch, which is unreachable with a current copy (`GroupFallback.OneHop`, `GroupFallback.CopyHops`).

## Model

| member | source | states |
|---|---|---|
| `Money.FixedNearest` | internal/app/batch_images.go:210-234 | A stored amount is within half a unit of the exact one. |
| `Money.To8IsRounded` | internal/app/batch_images.go:384-385 | The integer form of an eight-place amount is the rounding of the exact value. |
| `Money.To8Monotone` | internal/app/batch_images.go:384-385 | Rounding to eight places keeps order, so a cost within a hold stays within it when both are moved. |
| `BatchPricing.TotalIsRounded` | internal/app/batch_images.go:226-234 | Rounding the product of a rounded price and a count changes nothing. |
| `BatchPricing.HoldCoversEveryOutcome` | internal/app/batch_images.go:191-241 | For any accepted pricing, every number of successes up to the item count costs at most the hold, in both precisions, and the hold rate is at least the discount. |
| `BatchRequest.Normalize` | internal/app/batch_images_provider.go:42-146 | A request is accepted exactly when every item is valid, copies number at most 200 and no two expanded identities coincide; the result lists the copies in order. |
| `BatchRequest.NormalizedIsWellPriced` | internal/app/batch_images_provider.go:42-146 | An accepted request with an accepted price meets everything the ledger asks of a submission. |
| `BatchRequest.FindProviderBatch` | internal/app/batch_images_provider.go:332-365 | Recovery answers exactly when the listing ends within the page limit and names at most one job with this display name, and then gives that job or nothing. |
| `BatchStore.Store.BatchBalance` | internal/app/batch_images.go:358-410 | Hold, capture and release as one transaction: claims, amounts and balances move together or nothing does. |
| `BatchStore.Store.SubmitBatchImage` | internal/app/batch_images.go:243-356 | A submission replays, refuses or creates a job with its hold, all or nothing. |
| `BatchStore.Store.FailBatchImage` | internal/app/batch_images_worker.go:248-279 | Giving a job up releases its hold once, or refuses while results exist. |
| `BatchStore.Store.IndexBatchImage` | internal/app/batch_images_worker.go:280-354 | Indexing gives every item its outcome and bill and counts them, or refuses an unexpected or repeated line. |
| `BatchStore.Store.SettleBatchImage` | internal/app/batch_images_worker.go:355-397 | Settlement captures the counted cost once and completes the job. |
| `BatchStore.CollectResults` | internal/app/batch_images_worker.go:285-311 | Result lines are accepted exactly when each names an expected item and none twice, and then give each item its count. |
| `BatchLedger.FinalizeAccepted` | internal/app/batch_images.go:358-410 | Finalizing an outstanding hold within its amount is never refused, and moves exactly the hold and the cost. |
| `BatchLedger.FailKeepsLedger` | internal/app/batch_images_worker.go:248-279 | Releasing is refused exactly while results are being indexed or settled, keeps the books and changes no one's worth. |
| `BatchLedger.SettleKeepsLedger` | internal/app/batch_images_worker.go:355-397 | Settlement succeeds exactly from settling or completed, keeps the books and charges the sum of the item bills. |
| `BatchLedger.IndexKeepsLedger` | internal/app/batch_images_worker.go:326-352 | Indexing counts every item once, bills the successful ones and keeps the books. |
| `BatchLedger.IndexedSums` | internal/app/batch_images_worker.go:326-345 | The item bills add up to the unit price times the successes. |
| `BatchLedger.SubmitKeepsLedger` | internal/app/batch_images.go:243-356 | A submission is a unique replay, a refusal that changes nothing, or a new job whose whole hold moved to the frozen balance. |
| `BatchLedger.UnguardedUpdates` | internal/app/batch_images_worker.go:219-232 | The unguarded status updates keep the books if and only if the row is open. |
| `BatchRun.StepKeepsInv` | internal/app/batch_images_worker.go:86-239 | Every step of client, worker, crash, provider and outside world keeps the invariant. |
| `BatchRun.Conservation` | internal/app/batch_images.go:358-410 | After every run a user's frozen balance is exactly the unfinalized holds, and balance, frozen and captured together change only from outside. |
| `BatchRun.FinalizedExactlyOnce` | internal/app/batch_images_worker.go:248-279 | After every run an open job is only held, a completed one only captured for the sum of its bills, a failed or cancelled one only released; deletion keeps the one claim. |
| `BatchRun.CreatedAtMostOnce` | internal/app/batch_images_worker.go:128-196 | The create call is sent at most once per job, the provider holds at most one job for it, and a release means none was sent or the provider ended it empty. |
| `BatchRun.FinalJobNeverDispatched` | internal/app/batch_images_worker.go:128-176 | Once final, no later step sends a job's create call. |
| `BatchRun.ClosingNeverRefused` | internal/app/batch_images_worker.go:365-395 | In every reachable state settling succeeds for exactly the item bills, and a job without results can be given up. |
| `BatchStranded.StrandedForever` | internal/app/batch_images_worker.go:169-235 | A stranded job stays stranded in every continuation and its hold stays frozen. |
| `BatchStranded.CanFinishUnlessStranded` | internal/app/batch_images_worker.go:128-239 | A job can still reach a final status if and only if it is not stranded: uploading with no call under way and no usable provider job listed; bound to a job that is no longer answered, ended in an unknown state or succeeded with an unusable output, or whose recorded cancel is refused; or waiting for an unusable output. |
| `BatchStranded.CrashStrands` | internal/app/batch_images_worker.go:165-173 | A crash between the commit and the create call strands a job. |
| `BatchStranded.LostCallStrands` | internal/app/batch_images_worker.go:170-190 | So does a create call that is refused or does not arrive. |
| `BatchStranded.BadOutputStrands` | internal/app/batch_images_worker.go:221-311 | So does an output with an unsafe reference, an unreadable file, or a line for an unknown or repeated item. |
| `BatchStranded.RefusedCancelStrands` | internal/app/batch_images_worker.go:199-211 | A recorded cancel that the provider refuses strands a bound job whatever the provider's job has done: the cancel call comes before the poll, and an intent is never withdrawn. |
| `BatchStranded.LateCancelStrands` | internal/app/batch_images_worker.go:199-211 | A job whose provider job has ended and refuses to be cancelled could have been closed, until the user records a cancel. |
| `BatchStranded.UnknownStateStrands` | internal/app/batch_images_worker.go:212-238 | A provider job that ends in a state the worker does not know strands the job bound to it. |
| `Admission.Gateway.TakeSlot` | internal/app/gateway.go:593-604 | A slot is taken exactly when admission is open and the counter is below the limit. |
| `Admission.Gateway.ReleaseSlot` | internal/app/gateway.go:606-615 | A release lowers the counter and wakes every waiter. |
| `Admission.Gateway.StopAdmission` | internal/app/concurrency.go:41-49 | Stopping closes the wake channel and admits nothing more. |
| `Admission.Gateway.ChooseAccount` | internal/app/gateway.go:558-592 | Exactly one slot is kept if an account is selected and none otherwise; it is the first that fits, has room and passes the recheck, a busy answer names the first full one, and a failure means that one that fits and has room could not be rechecked. |
| `Admission.TakeReleaseCancels` | internal/app/gateway.go:593-615 | Taking and giving back leaves every counter as it was. |
| `AdmissionRun.AdmissionAccounting` | internal/app/concurrency.go:67-133 | After every run each counter equals the slots out, each queue counter the threads registered, within 20 per user, 100 per account and 128 in all. |
| `AdmissionRun.NoLostWakeup` | internal/app/concurrency.go:87-133 | A request asleep on an open channel has every slot it was refused still taken, unless the instance lock was lost. |
| `AdmissionRun.LostInstanceLeavesSleeper` | internal/app/concurrency.go:51-61 | With the lock lost, a request can sleep on an open channel beside a free slot. |
| `AdmissionRun.GivingBackWakesItself` | internal/app/concurrency.go:87-133 | A request whose attempt gave a slot back can wake at once. |
| `AdmissionRun.ShutdownDrains` | internal/app/concurrency.go:41-61 | After the stop every sleeper can wake, nothing is admitted, and a request at the top of its loop leaves. |
| `AdmissionRun.GrantsWithinLimit` | internal/app/gateway.go:593-604 | Every grant adds one slot within the limit it was asked with. |
| `Idempotency.ResponseWriter.Write` | internal/app/gateway_idempotency.go:27-39 | The stored body is the concatenation of all writes, or nothing once it exceeds the limit. |
| `Idempotency.Records.ClaimRequest` | internal/app/gateway_idempotency.go:50-120 | A claim gives the outcome the record calls for and writes a row only when it wins. |
| `Idempotency.ExecutionsNeverOverlap` | internal/app/gateway_idempotency.go:71-120 | Of two executions of one key, the earlier completed and expired before the later was claimed. |
| `Idempotency.NeverStolen` | internal/app/gateway_idempotency.go:71-120 | An interrupted execution holds its key for good: every later claim is refused. |
| `Idempotency.ReplayIsFaithful` | internal/app/gateway_idempotency.go:90-120 | Until expiry an equal request gets the recorded bytes, or a conflict if too large; another gets a conflict; nothing changes. |
| `Idempotency.CompletionIsOwn` | internal/app/gateway_idempotency.go:126-154 | A completion changes its own row and no other. |
| `ImageTasks.TaskStore.AdmitTask` | internal/app/image_tasks.go:201-208 | A task is admitted exactly when fewer than 32 are pending. |
| `ImageTasks.StepKeepsInv` | internal/app/image_tasks.go:285-343 | Every step keeps the invariant and moves records only forward. |
| `ImageTasks.TaskDispatchedAtMostOnce` | internal/app/image_tasks.go:262-339 | Under any steps and crashes a task is sent at most once, the pending set is exactly the tasks in progress, and a completed task was sent and its receipt applied. |
| `ImageTasks.InterruptedNeverResent` | internal/app/image_tasks.go:300-339 | A task found past the queue is never sent again. |
| `ImageTasks.CrashLeavesNoResend` | internal/app/image_tasks.go:262-277 | After a crash every task past the queue is in that position. |
| `AnthropicAgreement.StreamAgrees` | internal/app/chat_anthropic.go:375-575 | After any accepted events the records, the message they spell and what the client has read agree. |
| `AnthropicStream.AnthropicChatStream.Response` | internal/app/chat_anthropic.go:577-627 | The one-shot conversion accepts exactly the acceptable messages and joins their texts, thoughts and tool values. |
| `AnthropicAgreement.StepAgrees` | internal/app/chat_anthropic.go:375-575 | Each accepted event keeps stream, spelled message and client in agreement, with at most the last block open. |
| `AnthropicAgreement.AtMostOneOpen` | internal/app/chat_anthropic.go:375-378 | No two blocks are ever open. |
| `AnthropicAgreement.StreamIsAcceptable` | internal/app/chat_anthropic.go:473-627 | A finished stream spells a message the one-shot conversion accepts. |
| `JsonInput.ReadingsAgree` | internal/app/chat_anthropic.go:427-441 | The two readings of a tool object give the same text if and only if its last member "input" is a string that no later spelling overrides with another text. |
| `AnthropicAgreement.StreamMeetsOneShot` | internal/app/chat_anthropic.go:473-627 | Stream and one-shot conversion give the same message if and only if every block is clean. |
| `AnthropicAgreement.CleanMeetsOneShot` | internal/app/chat_anthropic.go:473-627 | That clean blocks suffice holds of any reading of JSON texts. |
| `AnthropicPlay.WholePlays` | internal/app/chat_anthropic.go:375-575 | A message sent block by block under any fragmentation is accepted if and only if blocks are well formed, identities distinct, limits kept and the stop reason known. |
| `AnthropicPlay.FragmentationIsInvisible` | internal/app/chat_anthropic.go:473-627 | Two fragmentations of one clean message are both accepted and give the one-shot message. |
| `AnthropicStream.AcceptableIsPlayable` | internal/app/chat_anthropic.go:577-613 | The one-shot demands are those of a stream that sends each block whole. |
| `AnthropicStream.NullInputParts` | internal/app/chat_anthropic.go:432-441 | A custom tool with a null input makes the two conversions differ. |
| `AnthropicStream.StrayTextParts` | internal/app/chat_anthropic.go:600-601 | A text field on a thinking block makes the two conversions differ. |
| `ResponsesChat.ResponseChatStream.HandleEvent` | internal/app/chat_responses.go:458-623 | Each event is handled as specified, and what it returns is exactly what it adds to the log. |
| `ResponsesAgreement.RunAgrees` | internal/app/chat_responses.go:487-620 | In every accepted run each key's deltas spell its stored text, the size is the text sent, and the client has exactly the announced tools at dense one-to-one positions. |
| `ResponsesAgreement.SizeIsTotal` | internal/app/chat_responses.go:487-560 | The counted size is the total length of all stored texts. |
| `ResponsesEvents.SaidIsSent` | internal/app/chat_responses.go:487-549 | What has been sent for a part is what the events said of it: deltas appended, whole texts replacing. |
| `ResponsesEvents.ToolsAsSeen` | internal/app/chat_responses.go:511-540 | Tools are announced once each, in the order the events first mention them. |
| `ResponsesFinal.HandleExtends` | internal/app/chat_responses.go:511-549 | No accepted event changes a tool's identity or position or takes back text. |
| `ResponsesFinal.TerminalIsExact` | internal/app/chat_responses.go:607-620 | At the terminal event every listed part has been sent in exactly its final text, whatever came before. |
| `ResponsesOrder.FinishAgreesExactly` | internal/app/chat_responses.go:355-369 | The two finish reasons agree if and only if the answer is incomplete, no event mentioned a tool, or some tool is listed. |
| `ResponsesOrder.OrderlyExactly` | internal/app/chat_responses.go:371-424 | The client is told the same pieces in the same order as by the one-shot conversion if and only if the events give text and mention tools in output order and say nothing the terminal output does not list. |
| `ResponsesOrder.OneShotJoins` | internal/app/chat_responses.go:371-424 | Those pieces joined are the one-shot texts. |
| `ResponsesOrder.OrderlyMeetsOneShot` | internal/app/chat_responses.go:371-424 | Such a stream leaves the client with exactly the one-shot message. |
| `ResponsesSwapped.SwappedPartsDiffer` | internal/app/chat_responses.go:487-509 | An accepted stream with parts out of order reads "ba" where the one-shot conversion gives "ab". |
| `ChatParts.ObserveKeeps` | internal/app/responses_chat.go:742-902 | Every accepted Chat frame keeps one part per text kind, distinct tool identities and a covering size, and parts only grow. |
| `MessagesRun.PartsSay` | internal/app/responses_chat.go:710-740 | Each text part holds exactly what the frames said of its kind. |
| `MessagesRun.ToolsSay` | internal/app/responses_chat.go:838-873 | Each tool's arguments are its fragments in order, however the frames interleave tools. |
| `MessagesChat.ChatMessagesStream.ObserveFrame` | internal/app/messages_chat.go:357-396 | A frame is observed and told exactly as specified. |
| `MessagesChat.ChatMessagesStream.Finish` | internal/app/messages_chat.go:397-446 | The end is refused without a finish reason or with a bad tool, and otherwise gives the closing events, the whole content and the stop reason. |
| `MessagesLegal.TraceIsWhole` | internal/app/messages_chat.go:357-446 | Every finished trace is one message played block by block: indices 0, 1, 2 and so on, each block stopped before the next and all before the stop reason. |
| `MessagesRoundTrip.EachPartSent` | internal/app/messages_chat.go:371-394 | What was sent for each part is its text. |
| `MessagesRoundTrip.NativeAccepts` | internal/app/chat_anthropic.go:375-575 | The native converter accepts a trace if and only if its blocks and size are within its limits. |
| `MessagesRoundTrip.ClientReads` | internal/app/messages_chat.go:357-446 | An accepted trace gives the client the text and thinking in the order sent, every tool with its whole input, and the mapped finish reason. |
| `MessagesRoundTrip.FinishBack` | internal/app/messages_chat.go:433-443 | The stop reason maps back to the finish reason, except that a stop with tools becomes tool calls. |
| `MessagesRun.EveryRunIsRunnable` | internal/app/messages_chat.go:357-446 | Every complete run meets the terms of the trace theorems. |
| `MessagesRun.EveryRunRoundTrips` | internal/app/messages_chat.go:357-446 | For every complete run whose trace is accepted, Chat to Messages and back gives the upstream's reasoning, tools and finish reason, and its text, or its refusal where there is no text. |
| `MessagesRun.SizeNeverRefuses` | internal/app/messages_chat.go:413-430 | A run whose tools all have arguments never makes a trace too long. |
| `MessagesBlocks.RunSpeaks` | internal/app/messages_chat.go:357-396 | What a run tells is what its frames say, frame by frame, kinds that appeared earlier first. |
| `MessagesBlocks.BlocksAreTurns` | internal/app/messages_chat.go:376-390 | The text blocks of a run number the changes between text and thinking in what its frames say. |
| `MessagesBlocks.EveryRunReadsAsSaid` | internal/app/messages_chat.go:357-446 | Whatever an accepted run holds, a refusal beside text included, the client reads back what the frames said in the order told. |
| `MessagesBlocks.AlternationLimit` | internal/app/chat_anthropic.go:375-378 | An answer alternating n times between reasoning and text is told as n blocks, and the native converter accepts it if and only if n is at most 4096. |
| `GroupFallback.GroupStore.Validate` | internal/app/group_fallback.go:15-47 | The walk gives the specified verdict. |
| `GroupFallback.SavedChainMeans` | internal/app/group_fallback.go:27-46 | A saved group's chain is accepted if and only if it ends within 32 hops over usable targets. |
| `GroupFallback.EditKeepsInv` | internal/app/groups.go:437-473 | Every create, update and delete keeps the pointers acyclic and every live target open to all clients. |
| `GroupFallback.EditsKeepInv` | internal/app/groups.go:246-296 | So does every sequence of edits from an empty installation. |
| `GroupFallback.OneHop` | internal/app/group_fallback.go:64-104 | In any such state a request with a current copy of its group takes at most one hop, the chain branch is never taken, and the outcome depends only on the group and its target. |
| `GroupFallback.CopyHops` | internal/app/group_fallback.go:64-104 | With any earlier copy it takes at most two, the second exactly when the target has become restricted since, and the chain branch exactly when that target falls back to the group itself. |
| `GroupFallback.GroupStore.ResolveGroup` | internal/app/group_fallback.go:75-102 | In any graph the walk ends and gives the specified outcome. |
| `SearchMeter.HostedSearchMeter.ObserveFrame` | internal/app/grok_hosted_search.go:69-165 | A frame is accepted exactly as specified and then updates the meter as specified. |
| `SearchMeter.CountMeans` | internal/app/grok_hosted_search.go:61-164 | After any accepted run the count is given by sets and maxima over the frames, within 10000. |
| `SearchMeter.NeverDecreases` | internal/app/grok_hosted_search.go:61-164 | The count never decreases. |
| `SearchMeter.AcceptedExactly` | internal/app/grok_hosted_search.go:61-164 | A run is accepted if and only if each frame is well formed and the count of the whole run is at most 10000. |
| `SearchMeter.OrderDoesNotMatter` | internal/app/grok_hosted_search.go:61-164 | The same frames in another order are accepted alike and leave the same meter. |
| `SearchMeter.RepeatChangesNothing` | internal/app/grok_hosted_search.go:98-145 | Any frame of a run seen again at any later time is accepted and changes nothing if and only if it does not complete an item without an identity. |
| `SearchMeter.UnnamedCountsAgain` | internal/app/grok_hosted_search.go:133-134 | A repeated item without an identity counts again. |
| `SearchMeter.FrameLimitIsRedundant` | internal/app/grok_hosted_search.go:142-144 | What the frame limit refuses would be refused for its count anyway. |
| `SearchMeter.CountIsExact` | internal/app/grok_hosted_search.go:61-164 | When calls are named, one output lists them all and no usage figure is larger, the count is the number of distinct completed calls. |
| `ImageMeter.ImageObservation.Observe` | internal/app/gemini_images.go:306-324 | A frame is accepted if and only if the merged counts stay within 64, in any visiting order, and then the images are the merged ones. |
| `ImageMeter.MergeIsLargest` | internal/app/gemini_images.go:306-324 | Each identity's count is the largest any frame gave it. |
| `ImageMeter.OrderDoesNotMatter` | internal/app/gemini_images.go:306-324 | Runs with the same largest counts have the same images and total. |
| `ImageMeter.RunIsLargest` | internal/app/gemini_images.go:306-324 | A run is accepted if and only if its largest counts add up to at most 64, and then exactly those are kept. |
| `ImageMeter.ReorderedRun` | internal/app/gemini_images.go:306-324 | Two runs with the same largest counts are accepted alike and keep the same images. |
| `ImageMeter.CountOutputs` | internal/app/gemini_images.go:286-294 | A frame's images are counted per identity and refused beyond 64. |
| `CompositeRoute.BetterIsTransitive` | internal/app/composite.go:167-181 | The route order is transitive on candidates. |
| `CompositeRoute.BetterIsStrict` | internal/app/composite.go:167-181 | It is irreflexive, asymmetric and total on distinct identities. |
| `CompositeRoute.BestIsTheWinner` | internal/app/composite.go:126-140 | The fold finds exactly the candidate that beats all others. |
| `CompositeRoute.OrderDoesNotMatter` | internal/app/composite.go:126-140 | The same routes in another order give the same result. |
| `CompositeRoute.OwnersMean` | internal/app/composite.go:107-116 | A model has no owner, its one platform, or the empty mark exactly when none, one, or at least two platforms offer it. |
| `CompositeRoute.Resolve` | internal/app/composite.go:126-165 | The decision is route, owner, detector or refusal in that order. |
| `CompositeRoute.RoutingAccounts` | internal/app/gateway.go:253-267 | The accounts are those of the exact rule, else of the longest covering prefix, in any visiting order. |
| `CompositeRoute.LongestIsUnique` | internal/app/gateway.go:253-267 | The longest covering prefix is unique. |
| `ProbePaging.SelectProbes` | internal/app/billing_probe.go:550-590 | The paged scan ends and keeps exactly the 20 earliest due accounts of the whole table. |
| `ProbePaging.SortTruncated` | internal/app/billing_probe.go:579-585 | Sorting and truncating page by page is sorting and truncating everything. |
| `ProbePaging.EarliestMeans` | internal/app/billing_probe.go:579-585 | What is kept is due, in order, as many as fit, and nothing left out comes before anything kept. |
| `Rectifier.Rectify` | internal/app/anthropic_policy.go:264-362 | The settings, the model and the message select the repair, and the loops make exactly that edit and report it. |
| `Rectifier.RectifyOnce` | internal/app/anthropic_policy.go:264-362 | After one edit the same message calls for no further one. |
| `Rectifier.ReportsChanges` | internal/app/anthropic_policy.go:264-362 | A change is reported if and only if one is made. |
| `Rectifier.SurvivorsWithin` | internal/app/anthropic_policy.go:285-311 | Every block that is neither thinking nor empty is still there, unchanged and in order. |
| `Rectifier.OthersStay` | internal/app/anthropic_policy.go:285-311 | The blocks that are neither thinking nor text are exactly the same sequence. |
| `Rectifier.ContentsStayNonempty` | internal/app/anthropic_policy.go:306-309 | No content list is left empty. |
| `Rectifier.BudgetBelowLimit` | internal/app/anthropic_policy.go:338-355 | The repaired thinking budget is below the output limit. |

## Left out

- AnthropicStream.AnthropicChatStream.Response: usage and model fields are not part of the result; a null entry of the content list, refused like an unsupported block, is represented as one.
- AnthropicAgreement.StreamMeetsOneShot: assumes of the JSON library that a text inside an object is shorter than the object's own text (`JsonInput.Codec.Lawful`).
- BatchStranded.CanFinishUnlessStranded: every job gets its turn (the source takes the 32 least recently updated rows of a cycle, and finished rows whose clean-up keeps failing stay among them), a listing is answered in full within its page limit, and the account a job is bound to can always be restored.
- AdmissionRun.NoLostWakeup: timers, client disconnects and pings appear only as ways to leave the loop.
- ImageTasks.TaskDispatchedAtMostOnce: encryption of stored requests and the receipt's own bookkeeping are not part of this model; applying a receipt is idempotent per request.
- BatchRequest.Normalize: the request-level checks of model, names, size, aspect ratio and metadata, reference images, trimming of spaces and the difference between characters and bytes in length limits.
- BatchRun.Conservation: the worker's mutex is assumed to exclude other workers; two instances running at once are not modelled, nor is input-file deletion.
- Rectifier.Rectify: lower-casing and trimming of the model, the message and the patterns; a body that is not a JSON object is returned unchanged by the source and not represented.
- CompositeRoute.Resolve: the table that guesses a platform from a model's name is an input.
- The limit of 32 unfinished batch jobs per user: its lock is per API key while its count is per user, so it is not an invariant.
- JSON and SSE text, HTTP handlers, SQL text, Redis calls, retries and file transfer: events and rows are decoded values and each transaction is one step.
- The Responses event form of the Chat parts stream, whose quiet form `ChatParts` models; and the Gemini converter, an easier sibling.
- Candidate sorting before account choice, account health, pricing catalogues, voice and video endpoints, and administration pages.
