# Notifier: a verified model

The notifier accepts notifications over an API, stores each as a Postgres row, and delivers it through an SMS, e-mail
or push provider. Between the two a notification is carried: by the creating request, by the row's `scheduled` status,
by the scheduler's batch, by one of three Redis streams, by the consumer group's pending list and a worker, by the
delayed sorted set, or by the batch the delayed processor popped. This project models that pipeline, the rate limiter,
the paginated listing and the delayed set, and proves what they guarantee.

Verify everything with `dafny verify dfyconfig.toml`.

## How it is built

- `Domain`, `Table`, `MemberCodec`, `Retry`: rows, inserts under the unique indexes, the text of a delayed member and
  its parser, back-off.
- `Pipeline`: the step system. Each database or Redis command is one atomic step; every client, scheduler, worker and
  delayed processor has its own program counter; all interleave freely. The provider's answer and the clock are free.
- `Agreement`, `Carriers`, `Books`, `Conservation`, `NoLoss`: the inductive invariants, one step at a time.
- `Guarantees`, `Timeline`, `StableCancel`, `Drain`, `Settlement`, `Recovery`, `Races`: what they mean for whole runs,
  which notifications can still be brought to an end and which ends are final, and runs that show where stronger
  promises fail.
- `RateLimit`, `Pagination`, `DelayedSet`: the sliding-window limiter, keyset pagination, and the delayed sorted set.
- `Repositories`, `Queues`, `Services`, `Workers`: classes with the shape of the Go types, whose methods run one call
  by itself. `Alone` says what such a call does to the stores and proves that it is the composition of the pipeline's
  steps.

Fields marked as history (`History`, `handed`) are read by no code; they record sends, handled failures, statuses
ever written and promotions, because a status in a row can be overwritten.

## Fault model

- Configuration A: calls to Postgres and Redis succeed, one delayed processor runs, ClaimStale never runs, workers may
  stop at any step and for good. Uniqueness, bounds, outcomes, spacing and progress are proved here.
- Configuration B: calls succeed, any number of delayed processors, workers may stop at any step, and ClaimStale may
  give any pending entry to any idle worker at any time. That nothing is lost is proved here. Agreement of carriers
  with rows, scheduled promotion, unique keys and final cancellations hold in this configuration too, and with one
  running worker everything can still be decided.

## Where code and documentation disagree

The code is what is modelled.

- `README.md:22` promises crash recovery through XAUTOCLAIM. `ClaimStale` is never called; `Races.StoppedWorkerStrands`
  shows that a stopped worker's message then stays where it is, and
  `Drain.CanSettleIff` that exactly these notifications can no longer settle. With ClaimStale they could
  (`Recovery.EverythingCanBeDecided`).
- `README.md:23` says that workers drain high before normal before low. XREADGROUP's COUNT applies to each stream;
  `Queues.OvertakesIff` says, for any two of the streams, exactly when an entry of one is read while entries of the
  other stay unread.
- `internal/queue/producer.go:51-52` calls the pop atomic. It is a range and then a removal: safe with one processor
  (`Guarantees.PopNeitherDropsNorDuplicates`), and only then (`Races.OneCarrierIff`).
- `internal/service/notification.go:116` expects the scheduler to pick up a row whose enqueue failed. The scheduler
  claims only `scheduled` rows, so it does not: `Settlement.FailedEnqueueIsForgotten`.
- Terminal statuses are not absorbing, since UpdateStatus is unconditional: `Races.DeliveredThenQueued`,
  `Races.CancelledThenDelivered`. `StableCancel.CancelIsFinalIff` and `StableCancel.TerminalIsFinalIff` say exactly
  when a cancellation, and any terminal status, is final; in configuration A the latter comes down to
  `StableCancel.OutcomeIsFinalIff`.
- The comment at `internal/delivery/retry.go:8` mentions jitter; there is none.
- The limiter's sorted set undercounts when two admissions in a window draw the same member;
  `RateLimit.NextAnswerIff` says exactly when it does not.

## Model

| member | source | states |
|---|---|---|
| Guarantees.OneCarrierAlways | internal/worker/dispatcher.go:104-286 | In every configuration A run, over all interleavings and with workers stopping anywhere, no notification ever has two runnable carriers |
| Guarantees.PopNeitherDropsNorDuplicates | internal/queue/producer.go:53-79 | In every configuration A run, whatever happened between the range and the removal of a pop, the removal takes exactly the ranged members out of the set and leaves each with the popping processor as its only carrier |
| Guarantees.RemovesBatch | internal/queue/producer.go:70-76 | The removal deletes exactly the rest of the ranged batch and changes nothing else |
| Guarantees.AttemptsAccounted | internal/worker/dispatcher.go:178-194 | Sends never exceed max(1, max_retries), recorded attempts are numbered 1, 2, 3, ... although the number comes from an old snapshot, all but the last failed, and attempt_count equals the recorded attempts plus one exactly while a worker is between its two writes |
| Guarantees.ExactlyOneOutcome | internal/worker/dispatcher.go:145-243 | A notification without a carrier has exactly one outcome: one success, the last attempt, and no dead letter; or exactly max(1, max_retries) failures and one dead letter; or cancelled with neither; or, only when no provider serves its channel, failed without a send |
| Guarantees.RetriesAreSpaced | internal/worker/dispatcher.go:215-224 | Attempt k starts no earlier than the back-off of k-1 after the failure of attempt k-1 was handled, hence at least 2^k - 2 seconds, or 510 + 300(k - 9) beyond nine, after the first failure was handled |
| Conservation.StepInv | internal/worker/dispatcher.go:104-286 | Every configuration A step keeps the invariant that places each notification's only carrier and ties its books to that place |
| Conservation.BusyInv | internal/worker/dispatcher.go:153-243 | Each command of processMessage keeps the invariant although the row snapshot it works from may be stale |
| Conservation.RemoveInv | internal/queue/producer.go:70-76 | The removal half of a pop keeps the invariant, from any state in between |
| NoLoss.NothingIsLost | internal/worker/dispatcher.go:104-243 | In every configuration B run each accepted notification has been marked delivered, failed or cancelled, or still has work that has not been handed off |
| NoLoss.EveryStepLosesNone | internal/queue/consumer.go:101-137 | Every step, including a stop and a reclaim, keeps that invariant: an ack only ever follows a terminal write or a ZADD |
| Timeline.CarriersMatchRows | internal/queue/producer.go:21-48 | In every run each stream entry names an existing row, has its channel and is in the stream of its priority, and each delayed or popped member is the text of an existing row, however often it has been through the delayed set |
| Agreement.StepAgrees | internal/worker/dispatcher.go:272-284 | Every step, with any number of processors and with ClaimStale, keeps streams, pending lists, delayed set and process memory in agreement with the rows |
| Timeline.ScheduledPromotion | internal/repository/notification.go:243-256 | With any number of schedulers a scheduled notification is promoted at most once, never re-enters `scheduled`, keeps its scheduled_at, and no send begins before it |
| Timeline.KeysStayUnique | migrations/001_create_notifications.up.sql:28-29 | In every run non-empty idempotency keys are unique among all rows |
| Timeline.StepSends | internal/worker/dispatcher.go:158-172 | No step adds to a notification's sends except a worker that routes its row to a provider |
| StableCancel.CancelIsFinalIff | internal/repository/notification.go:224-231 | A successful Cancel is final (the status stays cancelled and no send begins, in every continuation, and equally in every one without ClaimStale) if and only if Create has returned for the id and no running worker is between its row read and its last status write |
| StableCancel.TerminalIsFinalIff | internal/repository/notification.go:192-216 | In every reachable state of configuration B a row's terminal status is final in the same sense if and only if no creating client has still to process the notification and every running worker that holds it can only write that same status and begins no send |
| StableCancel.OutcomeIsFinalIff | internal/repository/notification.go:192-216 | In configuration A a row that reads `delivered` or `failed` reads so in every continuation, and begins no further send, if and only if no creating client has still to process the notification |
| StableCancel.RunLasts | internal/worker/dispatcher.go:136-154 | From a row at a terminal status that nobody under way can disturb, every run keeps the status, keeps it undisturbed and begins no send |
| StableCancel.ClientOverwrites | internal/service/notification.go:113-123 | A creating loop that has still to process the id ends up writing `queued` over anything |
| StableCancel.WorkerOverwrites | internal/worker/dispatcher.go:153-224 | A running worker that holds the row and is not confined to writing the status it has can, without ClaimStale, overwrite it or begin a send |
| Drain.StepLowers | internal/worker/dispatcher.go:104-286 | Without creates no step raises a measure of remaining attempts and carrier stages, and every step that moves a carrier lowers it strictly |
| Drain.MovesAreBounded | internal/worker/dispatcher.go:104-286 | From every reachable configuration A state there is one bound on how often carriers can still move, over all interleavings without creates |
| Drain.EverythingCanSettle | internal/worker/scheduler.go:54-72 | From every state of a configuration A run with a scheduler, a delayed processor and one running worker, whichever workers have stopped and however the provider answers state by state, the loops alone bring every notification to an outcome with no carrier left, except those whose message a stopped worker holds |
| Drain.CanSettleIff | internal/queue/consumer.go:106-137 | Without ClaimStale and with every loop staffed, a notification can still settle exactly when no stopped worker holds its message |
| Drain.CarrierAdvances | internal/worker/dispatcher.go:78-102 | Whatever carries a notification, unless it is a stopped worker, the loops can lower the measure, however the provider answers |
| Races.DeliveredThenQueued | internal/service/notification.go:113-123 | A run in which `delivered` is overwritten by Create's late `queued` |
| Races.CancelledThenDelivered | internal/worker/dispatcher.go:153-156 | A run in which a successful Cancel is followed by a send and `delivered` |
| Races.Delivers | internal/worker/dispatcher.go:153-204 | A worker that is past its row read and answered with success writes `delivered`, whatever the row says by then |
| Races.TwoProcessorsDuplicate | internal/queue/producer.go:53-79 | Two delayed processors that range before either removes give every notification of the common batch two carriers |
| Races.TwoProcessorsFail | internal/queue/producer.go:53-79 | A run from empty stores with two delayed processors: one failed send and its back-off, and the race gives the notification two carriers |
| Races.OneCarrierIff | cmd/notifier/main.go:149 | Given a worker and a served channel, every run without ClaimStale keeps at most one carrier per notification exactly when at most one delayed processor is started |
| Races.StoppedWorkerStrands | internal/queue/consumer.go:106-137 | Without ClaimStale a message held by a stopped worker stays its notification's only carrier in every continuation, and nothing more is sent |
| Settlement.SettledIsFinal | internal/worker/dispatcher.go:145-243 | A configuration A notification without a carrier has none in any continuation: its sends, attempts, dead letters and outcome stay as they are |
| Settlement.StepKeepsRecord | internal/worker/dispatcher.go:153-243 | No step, of any process, changes a notification's sends, attempts, attempt_count, dead letters or its marks of delivery and failure, unless a worker acts on that notification |
| Settlement.FailedEnqueueIsForgotten | internal/service/notification.go:113-123 | When Create's enqueue fails the notification has no carrier in any continuation, whatever schedulers run and however many enqueues failed before or fail later: nothing is ever sent for it and it is never marked delivered or failed |
| Settlement.OneCarrierDespiteFailures | internal/service/notification.go:113-123 | However many enqueues of creating clients fail, and whenever, no notification ever has two carriers |
| Recovery.EverythingCanBeDecided | internal/queue/consumer.go:106-137 | From every configuration B state with a scheduler, a processor and one running worker, ClaimStale and the loops can bring every notification to a decision, however the provider answers state by state and wherever other workers stopped |
| Recovery.StreamAdvances | internal/worker/dispatcher.go:78-102 | An entry that is unread or pending can be read or reclaimed and worked on, after which its notification is decided or has counted another attempt with some left |
| Recovery.ProcessorLands | internal/worker/dispatcher.go:261-286 | A delayed or popped member can be brought back onto a stream, batch by batch, without another attempt |
| Table.BatchAllOrNone | internal/repository/notification.go:64-108 | A batch is stored exactly when no id or non-empty key in it is taken or repeated, and then exactly its rows are added |
| Alone.StreamsGain | internal/service/notification.go:199-213 | Enqueuing a batch adds to each stream exactly the batch's unscheduled items of its priority, once each and in request order, and changes nothing else in Redis |
| Alone.EnqueuedRows | internal/service/notification.go:199-213 | Afterwards exactly the enqueued rows read `queued` and every other row is as it was |
| Alone.CreateAlone | internal/service/notification.go:193-213 | The pipeline's steps of one create, run alone, come to that |
| Alone.PollAlone | internal/worker/scheduler.go:54-72 | The pipeline's steps of one poll, run alone: the claimed rows turn `pending` and then each is enqueued |
| Alone.PollFills | internal/worker/scheduler.go:67-71 | A poll adds to each stream exactly the claimed items of its priority, in order, and changes nothing else in Redis |
| Alone.RedeliveryIsEnqueue | internal/worker/dispatcher.go:272-285 | Putting a batch of delayed members back on the streams is the same as enqueuing the notifications they name |
| Alone.PromotedRows | internal/repository/notification.go:243-256 | A claim turns exactly the claimed rows `pending` |
| Alone.BatchAlone | internal/worker/dispatcher.go:261-286 | The pipeline's steps of one delayed batch, run alone: the batch leaves the set and each member is put back on a stream |
| Alone.MessageAlone | internal/worker/dispatcher.go:104-243 | The pipeline's steps of one processMessage, run alone, come to Handled |
| Alone.HandledOutcome | internal/worker/dispatcher.go:135-243 | What one processMessage leaves behind: the entry is acked; an open notification's row, attempts, delayed entry and dead letter per provider, answer and attempts left; a missing or finished one and all others untouched |
| Repositories.NotificationRepository.Create | internal/repository/notification.go:27-62 | The row is stored, or nothing changes and the conflict is named: duplicate id or idempotency key |
| Repositories.NotificationRepository.CreateBatch | internal/repository/notification.go:64-108 | Every row or none, and every row exactly when no id or non-empty key is taken or repeated |
| Repositories.NotificationRepository.UpdateStatus | internal/repository/notification.go:192-216 | The status changes whatever it was, and not-found is reported exactly for a missing row |
| Repositories.NotificationRepository.Cancel | internal/repository/notification.go:224-241 | A pending, scheduled or queued row becomes cancelled and differs in nothing else; on a processing, delivered, failed or cancelled one the error is cannot-cancel, on none not-found, and nothing changes |
| Repositories.NotificationRepository.SelectDue | internal/repository/notification.go:249-253 | The selection is distinct rows that read `scheduled` with scheduled_at now or before: all such rows when fewer than the limit come back, and otherwise limit of them, none left out being scheduled earlier than one selected |
| Repositories.NotificationRepository.FetchScheduledDue | internal/repository/notification.go:243-273 | An uncontended claim takes exactly such a selection, promotes each row once and returns it as promoted |
| Services.NotificationService.Create | internal/service/notification.go:50-126 | The error is exactly the first of: not well-formed, a channel or priority text that is none of the three, bad content, id stored, non-empty key stored. Without one the only new row has the request's key, schedule, channel, priority and retry limit (or the default) and no attempts, and reads `scheduled` or `queued`; an unscheduled request's entry, with its channel's text, ends the stream its priority names. With one nothing changes |
| Services.NotificationService.CreateBatch | internal/service/notification.go:128-220 | Ill-formed, larger than 1000, the first request that is not acceptable, or an id or non-empty key stored or repeated: each rejected with its own error and nothing changed; otherwise exactly one row per request, as requested, and each stream gains the entries asked for, in request order |
| Services.InsertableIsUnused | internal/repository/notification.go:64-108 | A batch can be inserted exactly when no id is stored or repeated and no non-empty key is |
| Services.NotificationService.Cancel | internal/service/notification.go:230-236 | A pending, scheduled or queued row becomes cancelled and differs in nothing else; on a processing, delivered, failed or cancelled one the error is cannot-cancel, on none not-found, and nothing changes |
| Queues.OvertakesIff | internal/queue/consumer.go:72-98 | For any two streams: a read returns an entry of one while entries of the other stay unread exactly when it finds two unread entries in the other and an unread one in the first |
| Queues.Broker.Enqueue | internal/queue/producer.go:21-35 | One entry is appended to the stream named high, normal or low by the text, and to none of the three for any other text |
| Queues.Broker.EnqueueDelayed | internal/queue/producer.go:39-49 | The member spelled id:channel:priority, in the nine spellings there are, gets the score and every other member keeps its own; the set stays in Redis order |
| Queues.Broker.PopDelayedDue | internal/queue/producer.go:53-79 | Run alone, a pop returns the first min(count, due) due members of the set in order and leaves exactly the rest |
| Queues.Broker.ReadMessages | internal/queue/consumer.go:57-99 | Returns the next entries of each stream, up to count from each, high then normal then low; the cursors move past them and they become pending |
| Queues.NewMessagesAre | internal/queue/consumer.go:72-98 | From one stream a read returns the next entries in order: all that are unread, or count of them when count is positive and more are unread |
| Queues.HandedOverIs | internal/queue/consumer.go:72-79 | The stream's cursor moves past exactly what was returned, exactly that becomes pending, and nothing else in Redis changes |
| Queues.ReadIsHandOut | internal/queue/consumer.go:72-98 | With count 1 that is the pipeline's read step |
| Workers.Scheduler.Poll | internal/worker/scheduler.go:54-72 | Claims such a selection and appends for each claimed row, in order, an entry to the stream of its priority that spells its channel |
| Alone.FetchIff | internal/repository/notification.go:243-256 | An idle scheduler may claim exactly distinct rows that read `scheduled` with scheduled_at now or before, and any of them |
| Workers.Dispatcher.Admit | internal/worker/dispatcher.go:118-133 | The verdict, and the calls added to the channel's history, are those of asking the limiter call by call until one is allowed or fails |
| Workers.GateAdmits | internal/worker/dispatcher.go:118-133 | That is: admitted exactly when some call fails or is allowed by the limiter after every earlier call was refused, and the limiter has seen exactly the calls up to there |
| Workers.Dispatcher.ProcessMessage | internal/worker/dispatcher.go:104-243 | Nothing happens unless the limiter's verdict admits the message; then a missing, delivered, cancelled or failed notification only has its entry acked, and for any other row, attempts, delayed set and dead letters stand as the outcome says |
| Workers.Dispatcher.ProcessDelayedBatch | internal/worker/dispatcher.go:261-286 | Pops all due members when at most fifty are due and otherwise fifty, lowest scores first, and puts each that parses back on a stream; the batch is one the pipeline's processor may range |
| MemberCodec.ParseMember | internal/worker/dispatcher.go:288-310 | The scanning loop computes the split at the first two colons, or nothing |
| MemberCodec.ParseSucceeds | internal/worker/dispatcher.go:288-310 | It succeeds exactly on two or more colons with something after the second, and joining its parts gives the input back |
| MemberCodec.ParseInvertsJoin | internal/worker/dispatcher.go:288-310 | It inverts the member format for every colon-free id and channel and non-empty priority |
| MemberCodec.JoinInjective | internal/queue/producer.go:40-40 | The format is injective there |
| MemberCodec.DecodeInvertsMember | internal/worker/dispatcher.go:272-284 | Decoding the member of a notification gives its id, channel and priority back, UUID text included |
| MemberCodec.MemberInjective | internal/queue/producer.go:40-45 | Distinct notifications never share a member, so a ZADD moves no other |
| MemberCodec.UuidRoundTrip | internal/worker/dispatcher.go:278-278 | Parsing the canonical text of any UUID gives it back |
| Retry.BackoffShape | internal/delivery/retry.go:10-20 | The delay never shrinks with the attempt and is 300 seconds exactly from the ninth on |
| Retry.TotalBackoffClosedForm | internal/delivery/retry.go:10-20 | The delays before attempt k add up to 2^k - 2 seconds, or 510 + 300(k - 9) beyond nine |
| DelayedSet.PopTakesLowest | internal/queue/producer.go:53-79 | Range and removal together take the min(count, due) lowest members with score at most now, in score order, and leave the rest unchanged |
| DelayedSet.DrainsInOrder | internal/worker/dispatcher.go:261-286 | Pops at a fixed clock reading return each due member once and in score order, and leave none after ceil(due / count) pops and not before |
| DelayedSet.PopsTakePrefix | internal/queue/producer.go:53-79 | The first n pops return exactly the first n * count due members |
| DelayedSet.PopIsDueBatch | internal/queue/producer.go:56-60 | A pop with a positive count is one of the batches the pipeline lets a processor range |
| DelayedSet.PopSize | internal/queue/producer.go:56-68 | A pop returns all due members when there are at most count, and otherwise exactly count of them |
| DelayedSet.TextBelowIff | internal/queue/producer.go:56-60 | Members of equal score come in byte order |
| DelayedSet.ZAddSets | internal/queue/producer.go:41-44 | Adding a member sets its score, replacing an old one, and leaves every other score |
| DelayedSet.ZAddKeeps | internal/queue/producer.go:41-44 | The set stays in order, with every member once |
| DelayedSet.ZRemTakes | internal/queue/producer.go:70-76 | Removing members takes exactly those |
| RateLimit.RunScript | internal/ratelimit/limiter.go:14-31 | The Lua commands compute Script |
| RateLimit.Limiter.Allow | internal/ratelimit/limiter.go:49-58 | The answer is the next one of the script's history on its channel; with an orderly clock and fresh members it is: fewer than max admitted in the last window; other channels are untouched |
| RateLimit.KeyRemembers | internal/ratelimit/limiter.go:19-29 | Pruned and expired as it is, the key holds exactly the members admitted within the window |
| RateLimit.ScriptRefinesRule | internal/ratelimit/limiter.go:14-31 | With non-decreasing times and fresh members the script gives the same answers as: admit if and only if fewer than max were admitted in (now - window, now] over the full history |
| RateLimit.NextAnswerIff | internal/ratelimit/limiter.go:22-27 | Without assuming fresh members: the next answer is the rule's for every max exactly when no two admissions in the window drew the same member, and for the max in use it is wrong exactly when the distinct members are fewer than max and the admissions are not |
| RateLimit.RepeatedMemberIsUnlimited | internal/ratelimit/limiter.go:26-26 | If the suffix repeats within one millisecond, a limit of two lets any number of requests through |
| RateLimit.LimiterBounds | internal/ratelimit/limiter.go:14-31 | No interval of n windows, wherever it starts, sees more than n * max admissions |
| RateLimit.LimiterIsOptimal | internal/ratelimit/limiter.go:19-31 | After every prefix the limiter has admitted at least as many requests as any other choice that keeps every window within max |
| Pagination.Repository.List | internal/repository/notification.go:120-190 | The page holds rows of the table that match the filter and are older than the cursor, newest first by created_at and then id; at most fifty, or the limit if that is between 1 and 100; the next cursor is the last item's key, on a full page, exactly when more rows match |
| Pagination.Repository.BuildWhere | internal/repository/notification.go:125-153 | The clause built condition by condition, with its numbered placeholders and arguments, says exactly what the filter says |
| Pagination.SaysMore | internal/repository/notification.go:129-148 | Appending a condition and its arguments adds exactly that condition and leaves earlier placeholders as they were |
| Pagination.WalkIsTable | internal/repository/notification.go:155-188 | For every filter and limit the walk ends, its pages concatenate to exactly the matching rows, newest first by created_at and then id, every page but the last is full, and the cursor is missing exactly at the end |
| Pagination.WalkWhileWriting | internal/repository/notification.go:144-188 | With any changes to the table between fetches, what a walk shows is strictly newest first, without repeats, and every row that exists and matches at every fetch is shown exactly once |
| Pagination.ListedIsReal | internal/repository/notification.go:155-188 | Every row shown was in the table and matched when its page was fetched |
| Pagination.CursorLeavesRest | internal/repository/notification.go:144-148 | A cursor taken from a matching row leaves exactly the matching rows behind it |

## Left out

- Failed calls: every Postgres and Redis command succeeds, except the enqueues of creating clients in Settlement.FailedEnqueueIsForgotten and Settlement.OneCarrierDespiteFailures. Any other failed Enqueue or EnqueueDelayed is only logged by the code and loses the carrier, and so does a failed GetByID (internal/worker/dispatcher.go:136-142), which acks the message; the claims about carriers do not extend to these.
- Restart or panic of the scheduler, of the delayed processor between pop and enqueue, and of a client between insert and enqueue: outside the fault model, and such a crash does lose the carrier.
- ClaimStale's idle threshold and its count of ten per stream: the reclaim step may take any set of pending entries at any time, which allows every choice they make.
- The limiter inside the pipeline's worker loop: it only delays a message, and the pipeline allows any delay; Workers.Dispatcher.ProcessMessage has it. That a cancelled context abandons an unacked message is the pipeline's stop step.
- Malformed notification ids in streams: Enqueue only ever writes the text of a UUID, so processMessage's parse error branch is not modelled, and stream entries hold the id itself.
- MemberCodec.DecodeInvertsMember: uuid.Parse also accepts other spellings of a UUID; only the canonical one is modelled, which is the one String writes.
- Streams that no group reads: Queues.Broker.Enqueue with a priority text other than high, normal or low changes none of the three streams, and the stray stream is not modelled.
- Race-free single calls: the methods of Repositories, Queues, Services and Workers describe one call with nothing beside it; interleavings are the step system's. Rows locked by another claim (SKIP LOCKED) are the Fetch step's free choice of due rows.
- Pagination.Repository.List: recipients, bodies and other columns a page carries but neither filters nor orders by; the cursor_time and cursor_id query parameters belong to the handlers.
- Columns without influence on the pipeline: recipient, subject, body, template, error texts, delivered_at, updated_at, status code, duration.
- Request validation, template rendering and content checks: foreign code; the service takes their verdicts as inputs, and a batch stops at the first bad item.
- Provider.Send: an arbitrary success or failure.
- Real time, blocking reads, tickers, jitter: the clock is a free non-decreasing reading; the limiter's results assume one clock for all callers.
- HTTP handlers, middleware, WebSocket broadcast, metrics, tracing, logging, configuration, template storage, reading the dead-letter queue: no property beyond a single branch.
