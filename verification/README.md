# Verification model of the LLM gateway

This project models the parts of the gateway in `services/proxy` that decide what a request costs
and what reaches whom, together with the mock providers in `services/provider-mock` whose
streams it has to read, and proves properties of them with Dafny. `dafny verify dfyconfig.toml`
checks everything.

- **The token ledger** (`UsageWindows`, `TokenTable`, `TokenLedger`, `LedgerInvariants`,
  `LedgerTheorems`, `LedgerOrphans`, `LedgerQuota`, `TokenReservations`). Callers, queue workers, the usage table and
  the queue with its dead-letter queue form one state machine. Its step function is total and takes
  every choice of the environment as part of the action: the fate of a transaction, redelivery, a
  crash before a delete, a failed enqueue. A run is any sequence of actions, and the theorems hold
  for every run. The store is assumed to do three things: a transaction is atomic, its conditions
  are evaluated on the current rows, and a cancelled one changes nothing. The methods of
  `TokenReservationManager` are the source's loops; between their steps others take any steps.
- **Request documents** (`JsonGrammar`, `JsonGuard`, `JsonValues`, `OpenAiRequests`,
  `RequestBudget`). The byte scanner is related to the grammar of RFC 8259 (sections 2, 4, 5 and 7),
  written as text trees with arbitrary whitespace. The rewriting of OpenAI requests, the inspection
  of Anthropic requests, the image counters and the budget sum work on document trees.
- **Event streams** (`Sse`, `UsageRecorders`, `MockStreams`, `MockProviders`, `StreamedAnswers`). Framing as coded, the
  usage recorders, the streams the mock servers print, what the proxy charges and a client reads. The
  parser is not the one of the WHATWG HTML standard and no conformance is claimed.
- **Concurrent protocols** (`RequestBody`, `ProviderDrain`, `ActiveStreams`, `RateLimit`). State
  machines with an adversarial scheduler, and the loops and classes they abstract.

Findings worth knowing:

- Days nest in weeks for every `u64` instant: the saturating addition never moves an instant to
  another week (`UsageWindows.DaysNestInWeeks`), so the weekly sums need no side condition.
- Rewriting an OpenAI request twice is the same as once only while the forced `stream_options` still
  fit 64 KiB, and they can grow in two ways: by the member that is forced into them
  (`OpenAiRequests.OptionsCanOutgrowTheLimit`) and by numbers that serde_json spells longer
  (`OpenAiRequests.RespelledNumbersCanOutgrowTheLimit`). They stay the same only if serde_json reads
  its own spelling of every number exactly.
- A window's count can outgrow `u64`, after which it cannot be read back
  (`LedgerQuota.CountCanOutgrowU64`).
- A reservation is left to nobody in exactly four ways: its commit is not answered, its request
  vanishes before it reconciles or while it does, or its job is neither done nor queued
  (`LedgerOrphans.ReservedRowsHaveOwners`, with a run for each). It then stays booked for good
  (`LedgerOrphans.OrphansStayReserved`).
- A request body whose pump is dropped with the runtime ends like a complete one
  (`RequestBody.AbortedPumpLooksFinished`).
- Without a requested stream error streamed and plain answers cost the same; with one the Anthropic
  stream is charged the single output token its first event reports, and the OpenAI stream nothing,
  which charges the budget.
- A `"type": "image"` member at the top level of an Anthropic request is not counted
  (`RequestBudget.TopLevelImageIsNotCharged`), and a request small enough to be spooled cannot
  overflow the OpenAI image counter (`RequestBudget.OverflowNeedsHugeLimit`).
- A spool limit of 2^64 - 1 would not limit anything, because the sum it is compared with saturates
  there (`RequestBudget.LimitedSpoolWriter.Write`); the limit in use is 256 MiB.
- Twice the rate limit within two seconds is reached for every limit and every window of at least two
  seconds (`RateLimit.TwiceTheLimitIsReached`).

## Model

| member | source | states |
|---|---|---|
| `LedgerTheorems.BooksAlwaysBalance` | services/proxy/src/token_reservation.rs:177-219 | in every reachable state a usage row has tokens = consumed + reserved, reserved = outstanding budgets naming the window, consumed = charges of completed reservations plus recorded usage; none is negative, so a count is rejected on reading only if it exceeds `u64` |
| `LedgerTheorems.WeeklyRowIsSumOfDays` | services/proxy/src/token_usage.rs:357-381 | in every reachable state each of the three counters of a weekly row is the sum of that counter over the seven daily rows of the week, for every `u64` instant |
| `LedgerTheorems.OutcomesAreFinal` | services/proxy/src/token_reservation.rs:476-528 | no step removes a reservation or marker row or rewrites a completed one |
| `LedgerTheorems.OutcomesStayFinal` | services/proxy/src/token_reservation.rs:447-474 | the same over any continuation of a run, so a read that sees `completed` stays true |
| `LedgerTheorems.ChargedAtMostOnce` | services/proxy/src/token_reservation.rs:330-445 | over any run with duplicate deliveries, retries, crashes and lost replies, at most one step completes a given reservation |
| `LedgerTheorems.ChargesAreTheJobsOwn` | services/proxy/src/token_usage.rs:100-163 | a completed row carries the charge of the one job its reservation became; a usage job is logged once if its marker exists and not at all otherwise |
| `LedgerTheorems.SettledJobsAreInert` | services/proxy/src/token_reservation.rs:385-445 | submitting any copy of a settled job changes neither table nor usage and never claims to have committed |
| `LedgerTheorems.SettledJobsReportSuccess` | services/proxy/src/token_reservation.rs:447-474 | a resubmitted settled job that is answered and can read reports success through the completed check |
| `LedgerOrphans.ReservedRowsHaveOwners` | services/proxy/src/token_reservation.rs:60-171 | in every run a row still reserved is held by a request, or its job is in a task's hands or in an undeleted message, unless some step left it behind: a commit whose reply was lost, a request that vanished before or while reconciling, or a job neither done nor queued |
| `LedgerOrphans.StepKeepsCarriers` | services/proxy/src/token_reservation.rs:311-328 | every other step hands a reserved reservation on to somebody |
| `LedgerOrphans.OrphansStayReserved` | services/proxy/src/token_reservation.rs:330-445 | a reservation that was left behind stays reserved, with nobody to settle it, in every later state |
| `LedgerOrphans.LostReplyOrphans` | services/proxy/src/token_reservation.rs:130-159 | a run that leaves one behind: the reply to its commit is lost |
| `LedgerOrphans.VanishedRequestOrphans` | services/proxy/src/anthropic.rs:319-346 | a run that leaves one behind: its request vanishes before reconciling |
| `LedgerOrphans.AbandonedCallerOrphans` | services/proxy/src/token_reservation.rs:650-676 | a run that leaves one behind: its request vanishes while reconciling |
| `LedgerOrphans.FailedEnqueueOrphans` | services/proxy/src/token_reservation.rs:315-327 | a run that leaves one behind: its job is neither done nor queued |
| `LedgerTheorems.NoChargeIsLost` | services/proxy/src/token_reservation.rs:311-328 | once `reconcile` returned Ok, in every later state the effect is in the table or an equal job is in the queue or the dead-letter queue |
| `LedgerTheorems.DeletedMessagesAreSettled` | services/proxy/src/token_reconciliation.rs:135-172 | a deleted message has its effect in the table |
| `LedgerTheorems.JobsCanAlwaysSettle` | services/proxy/src/token_reservation.rs:330-445 | from every state that keeps the invariant one undisturbed submission settles an issued job: no row ever refuses its own job for good |
| `LedgerTheorems.LimitRefusalsAreTrue` | services/proxy/src/token_reservation.rs:560-579 | a refusal over the limit is given only when one of the two windows has no room, and an evaluated submission is refused exactly then |
| `LedgerTheorems.UsageIsRecorded` | services/proxy/src/token_usage.rs:82-99 | usage whose recording is evaluated is logged once and added to both windows, always without enforcement, and with it exactly when both windows have room; otherwise nothing happens |
| `LedgerQuota.LimitIsKept` | services/proxy/src/token_reservation.rs:200-212 | a limited window never exceeds its limit plus the overage of completed reservations plus usage recorded without a limit, in any interleaving |
| `LedgerQuota.QuotaIsNeverExceeded` | services/proxy/src/token_reservation.rs:608-618 | if no response exceeded its budget and nothing was recorded without a limit, the quota is never exceeded |
| `LedgerQuota.LimitedCountReadsBack` | services/proxy/src/token_usage.rs:391-400 | under the same conditions the count of a limited window always reads back as a `u64` |
| `LedgerQuota.OverageIsNotRefused` | services/proxy/src/token_reservation.rs:476-528 | a reconciliation of a reserved row always commits, whatever the limits, and moves both counts by the charge less the budget |
| `LedgerQuota.LimitIsReached` | services/proxy/src/token_reservation.rs:60-171 | the bound is attained: for every limit that the other window admits and every overage for which the sum is a `u64` there is a reachable state whose count is the limit plus the overage |
| `LedgerQuota.CountCanOutgrowU64` | services/proxy/src/token_usage.rs:391-400 | a reachable state whose window count is 2(2^64 - 1) and cannot be read back: two reservations of one token, each charged 2^64 - 1 |
| `LedgerQuota.StepKeepsQuotas` | services/proxy/src/token_usage.rs:308-355 | every step keeps every limited window within that bound |
| `LedgerInvariants.StepKeepsInv` | services/proxy/src/token_reservation.rs:273-445 | every step of any caller, worker or queue keeps the ledger invariant: balanced books, each job copy agreeing with the row it will settle, finished tasks settled, acknowledged jobs surviving |
| `LedgerInvariants.RunKeepsInv` | services/proxy/src/token_reservation.rs:273-445 | so does every run |
| `LedgerInvariants.PostingKeepsBalance` | services/proxy/src/token_usage.rs:308-355 | writing both windows of one instant together with one reservation or marker row keeps every window of every user balanced |
| `LedgerInvariants.ReserveTxPosts` | services/proxy/src/token_reservation.rs:107-131 | the three-row reservation transaction holds exactly when both limits have room and the id is new, and posts the budget to both windows |
| `LedgerInvariants.ReconcileTxPosts` | services/proxy/src/token_reservation.rs:338-384 | the reconciliation transaction holds exactly when the row is still reserved, and posts the adjustment, releases the budget and completes the row |
| `LedgerInvariants.UsageTxPosts` | services/proxy/src/token_usage.rs:111-145 | the usage transaction holds exactly when its marker is absent, and posts the tokens together with the marker |
| `LedgerInvariants.UsageWritesPost` | services/proxy/src/token_usage.rs:165-222 | recording usage holds exactly when both limits have room, and posts the tokens to both windows |
| `LedgerInvariants.JobOfHeldReservation` | services/proxy/src/token_reservation.rs:650-676 | the job a reservation turns into carries the budget and the windows of the row the reservation made, and charges the reported tokens, or the budget when none are reported; there is no job exactly for a reservation without a row and without a report |
| `TokenReservations.TokenReservationManager.Reserve` | services/proxy/src/token_reservation.rs:60-171 | a tracked reservation is returned only if one transaction added the budget to both counts of both windows and wrote the new row, and nothing else, on the table as others had left it; after the first submission the last answer decides, on the table it was given for: a reservation exactly when it was evaluated with room in both windows and a new id, `LimitExceeded` exactly when it was evaluated without room or named a window that was full, and otherwise `WriteFailed`; every earlier answer was a conflict or throttling that named no full window, and such an answer ends the call only after four; `InvalidBudget` exactly for a zero budget; without limits nothing is written; on `LimitExceeded` this call changed nothing, and on `WriteFailed` nothing either, except exactly when the last reply was lost after the commit: then the reservation is booked and nobody holds it; k retries sleep between 25(2^k - 1) and 50(2^k - 1) ms |
| `TokenReservations.TokenReservationManager.AttemptReservation` | services/proxy/src/token_reservation.rs:111-159 | committed means both counts of both windows grew by the budget, the row is new and no other row changed; cancelled means nothing changed; unanswered means nothing or a booking that nobody holds |
| `TokenReservations.ReserveTxBooks` | services/proxy/src/token_reservation.rs:107-131 | that is what the transaction writes, whenever its conditions hold |
| `TokenReservations.ReservationReplies` | services/proxy/src/token_reservation.rs:552-579 | how a reply to a reservation is classified, told by the windows and the outcome: committed exactly when evaluated with room and a new id, limit exceeded exactly when evaluated without room or naming a full window, retried exactly when it names a conflict or throttling and no full window |
| `TokenReservations.ReconciliationReplies` | services/proxy/src/token_reservation.rs:530-550 | how a reply to a settlement is classified: a conflict or throttling that does not blame the reservation row is retried while attempts remain, only such codes are, and only an evaluation or a blamed row leads to success or to the completed check |
| `TokenReservations.SettledJobIsChecked` | services/proxy/src/token_reservation.rs:402-413 | an answer that meets the job's own outcome, or blames the row for it, leads to the completed check |
| `TokenReservations.SettledStaysReadable` | services/proxy/src/token_reservation.rs:447-474 | what is settled reads as settled in every later state of a run |
| `TokenReservations.TokenReservationManager.AttemptReconciliation` | services/proxy/src/token_reservation.rs:385-445 | one turn of the loop is a run in which this task deletes and queues nothing; it ends succeeded, and then the job's effect is in the table, or failed, or with an attempt left; an attempt that is evaluated, or refused for the job's own outcome, and can be read succeeds; a conflict or throttling that does not blame the row leads to another attempt while one is left, and nothing else does |
| `TokenReservations.TokenReservationManager.ReconcileReservation` | services/proxy/src/token_reservation.rs:330-445 | the loop always returns, so what follows it is unreachable; success means the row is completed with the job's charge, and is owed whenever some attempt is evaluated and can be read after attempts that had to be repeated; it retries only conflicts and throttling, and fails before the fourth attempt only on an answer that does not oblige a retry; same sleep bounds |
| `TokenReservations.TokenReservationManager.RecordReconciliation` | services/proxy/src/token_usage.rs:100-163 | one submission and a look at the marker if cancelled; success means the marker is in the table, or that there were no tokens, which succeed at once; an evaluated submission that can be read succeeds, an unanswered one does not |
| `TokenReservations.TokenReservationManager.ProcessReconciliation` | services/proxy/src/token_reservation.rs:273-309 | dispatches to either: success means the effect is in the table, and is owed whenever the attempts allow it |
| `TokenReservations.TokenReservationManager.Reconcile` | services/proxy/src/token_reservation.rs:311-328 | Ok means acknowledged, and settled or queued at that moment; a settlement that the attempts allow is reported without queueing anything; otherwise the job is queued: an error means that the queue refused it, or did not answer and then the job waits there, or that the message id was taken; no job and no write for an untracked reservation without a count |
| `TokenReservations.TokenReservationManager.ProcessMessage` | services/proxy/src/token_reconciliation.rs:135-172 | success means the effect is in the table, is owed whenever the attempts allow it, and only then is the message deleted: a failing call is a run in which this worker deletes and queues nothing |
| `Prelude.DecimalRoundTrip` | services/proxy/src/token_usage.rs:391-400 | what `to_string` writes, parsing reads back |
| `UsageWindows.CountReadsBack` | services/proxy/src/token_usage.rs:391-400 | a stored count is read back exactly when it fits a `u64`, and rejected otherwise |
| `UsageWindows.KeyFamiliesAreDisjoint` | services/proxy/src/token_reservation.rs:83-100 | daily, weekly, reservation and marker keys never meet, whatever the ids |
| `UsageWindows.FamiliesExclude` | services/proxy/src/token_usage.rs:107-110 | no sort key at all belongs to two of the families |
| `UsageWindows.DayKeysAreDistinct` | services/proxy/src/token_usage.rs:357-362 | different days have different keys |
| `UsageWindows.WeekKeysAreDistinct` | services/proxy/src/token_usage.rs:364-369 | different weeks have different keys |
| `UsageWindows.DaysNestInWeeks` | services/proxy/src/token_usage.rs:364-369 | the week of an instant is (day + 3) / 7 for every `u64`, including where the addition saturates |
| `UsageWindows.WindowStartsBelongToTheirWindow` | services/proxy/src/token_usage.rs:371-381 | a window start lies in the window of its instant, at or before it and less than a window away |
| `JsonGuard.AcceptsWithinLimits` | services/proxy/src/openai_request.rs:485-547 | on every well-formed JSON text (RFC 8259, any whitespace) the scanner accepts exactly when nesting is at most 128 and every key at most 8192 raw bytes, and then ends outside any string with nothing open |
| `JsonGuard.ScanSplits` | services/proxy/src/openai_request.rs:485-547 | scanning two pieces in turn is scanning their concatenation |
| `JsonGuard.ScanText` | services/proxy/src/openai_request.rs:489-516 | inside a string only the raw length counts, escapes included |
| `JsonGuard.ScanValue` | services/proxy/src/openai_request.rs:485-547 | a value is accepted exactly within the remaining depth and key limits and leaves the stack as it was |
| `JsonGuard.JsonKeyLimitReader.PushContainer` | services/proxy/src/openai_request.rs:549-558 | pushes, or refuses at depth 128 and changes nothing |
| `JsonGuard.JsonKeyLimitReader.Inspect` | services/proxy/src/openai_request.rs:485-547 | the byte loop over the reader's fields computes the scanner |
| `JsonGuard.JsonKeyLimitReader.ReadDocument` | services/proxy/src/openai_request.rs:561-567 | a document read in any chunks is accepted exactly within the limits |
| `OpenAiRequests.AcceptedRequests` | services/proxy/src/openai_request.rs:162-297 | a request is accepted exactly when each control member occurs at most once and fits 64 KiB, the effective limit is a positive `u64`, and streaming options are null or an object that serde_json can read and whose numbers, as it spells them, struson takes |
| `OpenAiRequests.RefusalsAreTrue` | services/proxy/src/openai_request.rs:162-297 | every refusal says what is wrong, in both directions: the first control in reading order that is repeated, or too large, by name; else unreadable options, options that are no object, a number that is not passed on, a limit that is not positive, by name; or that there is no object |
| `OpenAiRequests.RewritingKeepsMeaning` | services/proxy/src/openai_request.rs:162-297 | the output keeps all other members with values and order, has each control at most once, and carries a positive limit equal to the reported one: the one written, `max_completion_tokens` before `max_tokens`, or the default when the request has neither; `max_tokens` alone stays alone |
| `OpenAiRequests.OptionsKeepMeaning` | services/proxy/src/openai_request.rs:342-361 | when streaming, `include_usage` is true and every other option means what it meant; otherwise the options are untouched |
| `OpenAiRequests.TwiceIsOnce` | services/proxy/src/openai_request.rs:162-297 | rewriting a rewritten request gives the same document and metadata exactly when it does not stream, or its options with usage forced fit 64 KiB and spell their numbers as serde_json does; otherwise it is refused, for their size or for a number that a parser does not take, or only respells those numbers |
| `OpenAiRequests.OptionsCanOutgrowTheLimit` | services/proxy/src/openai_request.rs:342-361 | a request whose options outgrow the limit by the forced member: rewriting it succeeds once and fails the second time |
| `OpenAiRequests.RespelledNumbersCanOutgrowTheLimit` | services/proxy/src/openai_request.rs:342-361 | a request whose options outgrow the limit by respelling: `1e2` fifteen thousand times becomes `100.0` |
| `OpenAiRequests.RespelledNumberCanBeRefused` | services/proxy/src/openai_request.rs:363-386 | `10e99` in the options is spelled `1e100`, which is no longer taken: the request is refused |
| `OpenAiRequests.ReadMembers` | services/proxy/src/openai_request.rs:183-235 | the reading loop captures the controls and passes everything else on |
| `OpenAiRequests.TransformJson` | services/proxy/src/openai_request.rs:162-297 | the whole pass computes the specified rewriting, including which error comes first, which `RewritingKeepsMeaning` and `RefusalsAreTrue` state on the request |
| `JsonValues.CanonicalFieldsKeepMap` | services/proxy/src/openai_request.rs:342-361 | parsing into a sorted map and writing it out keeps what every name means: the last value given to it |
| `JsonValues.CanonicalIsReadable` | services/proxy/src/openai_request.rs:342-361 | under the same condition what was read can be read again after writing, and its numbers are final |
| `JsonValues.CanonicalIsFinal` | services/proxy/src/openai_request.rs:342-361 | doing so twice is doing so once, if serde_json spells a number it has spelled the same way again |
| `JsonValues.LeftAlone` | services/proxy/src/openai_request.rs:342-361 | a sorted readable document is left alone exactly when every number in it is spelled that way |
| `RequestBudget.CountAnthropicImages` | services/proxy/src/anthropic_request.rs:160-223 | the recursive counter is the number of `"type": "image"` members anywhere in the tree, or overflow exactly when that exceeds `u64` |
| `RequestBudget.CountOpenAiImages` | services/proxy/src/openai_request.rs:83-145 | the recursive counter is the number of `image_url` members anywhere in the tree, or overflow exactly when that exceeds `u64` |
| `RequestBudget.InspectRequest` | services/proxy/src/anthropic_request.rs:95-158 | accepts exactly one positive `max_tokens`, at most one boolean `stream` and a countable number of images; reports them; every refusal names the first fault in reading order, or at the end the missing limit |
| `RequestBudget.AcceptedImages` | services/proxy/src/anthropic_request.rs:107-140 | the images charged are those of the whole document except a `"type": "image"` member at its top level |
| `RequestBudget.TopLevelImageIsNotCharged` | services/proxy/src/anthropic_request.rs:107-140 | an accepted request that holds one image and is charged for none |
| `RequestBudget.TokenBudget` | services/proxy/src/openai_request.rs:147-160 | the checked sum is bytes + 32768 x images + limit exactly, or refused exactly when that exceeds `u64` |
| `RequestBudget.PrepareAnthropic` | services/proxy/src/anthropic_request.rs:65-78 | the prepared budget is that sum and positive, so it is never refused as empty; overflow is the only refusal of an accepted request, and any other refusal is that of the inspection |
| `RequestBudget.PrepareOpenAi` | services/proxy/src/openai_request.rs:41-81 | rewriting, counting the rewritten document and adding up give that sum, positive, or the error of the step that fails, where a document with another fault may meet the spool limit first if more than that is written by then |
| `RequestBudget.OverflowNeedsHugeLimit` | services/proxy/src/openai_request.rs:147-160 | for a spooled request the image counter cannot overflow, and the budget overflows only for a requested limit near 2^64 |
| `RequestBudget.LimitedSpoolWriter.Write` | services/proxy/src/anthropic_request.rs:241-252 | a write is taken exactly when its whole input fits the limit or the limit is 2^64 - 1, and appends what the file took |
| `RequestBudget.LimitedSpoolWriter.WriteAll` | services/proxy/src/anthropic_request.rs:50 | with a file that takes any part at a time, all of the input is written or none |
| `RequestBudget.LimitedSpoolWriter.Copy` | services/proxy/src/anthropic_request.rs:47-53 | a body in any chunks is spooled whole exactly when it is within the limit, otherwise only a prefix is kept |
| `Sse.EventBuffer.TakeNextEvent` | services/proxy/src/sse.rs:3-17 | searching five separators, keeping the earliest and draining takes the bytes before the first separator and leaves those after it |
| `Sse.SeparatorsAreUnambiguous` | services/proxy/src/sse.rs:1-13 | at most one of the five separators starts at any position, so the choice among equal positions never matters |
| `Sse.FirstMatchStays` | services/proxy/src/sse.rs:3-13 | the first match, with its separator, stays the first match when more bytes arrive |
| `Sse.EventsSplit` | services/proxy/src/sse.rs:3-17 | the events and leftover of a + b are those of a followed by those of a's leftover + b |
| `Sse.ChunkingIsInvisible` | services/proxy/src/anthropic.rs:376-382 | for every cutting of a stream into chunks, the events and the buffer are those of the whole stream |
| `Sse.EndingsDoNotMatter` | services/proxy/src/sse.rs:19-28 | the data of an event is that of its lines, for any mixture of CR, LF and CRLF between them |
| `Sse.ManyLinesAreRead` | services/proxy/src/sse.rs:19-28 | the data of an event whose text is spread over several data lines is that text, line for line, whichever endings separate them |
| `Sse.FramedBodiesAreRead` | services/proxy/src/sse.rs:3-17 | bodies without separators, each followed by a blank line, are exactly the events read back |
| `UsageRecorders.AnthropicStreamUsageRecorder.ObserveChunk` | services/proxy/src/anthropic.rs:296-298 | after any chunks the recorder knows what the bytes seen, as one piece, would tell it |
| `UsageRecorders.AnthropicStreamUsageRecorder.RecordObservedUsage` | services/proxy/src/anthropic.rs:300-316 | hands over the reservation with the charge of everything seen, and keeps none |
| `UsageRecorders.AnthropicStreamUsageRecorder.Drop` | services/proxy/src/anthropic.rs:319-346 | hands over a reservation that was not recorded, with the charge of everything seen; nothing after recording or without a runtime |
| `UsageRecorders.AnthropicAfterAppend` | services/proxy/src/anthropic.rs:376-435 | usage after two runs of events is usage after their concatenation |
| `UsageRecorders.OpenAiStreamUsageRecorder.ObserveChunk` | services/proxy/src/openai.rs:349-357 | the same for OpenAI |
| `UsageRecorders.OpenAiStreamUsageRecorder.RecordObservedUsage` | services/proxy/src/openai.rs:359-373 | the same for OpenAI |
| `UsageRecorders.OpenAiStreamUsageRecorder.Drop` | services/proxy/src/openai.rs:376-399 | the same for OpenAI |
| `UsageRecorders.OpenAiAfterAppend` | services/proxy/src/openai.rs:349-357 | the last reported usage of two runs of events is that of their concatenation |
| `UsageRecorders.UsageTellsTotal` | services/proxy/src/openai.rs:240-257 | usage reports a total exactly when it carries one, or has both counts and their sum is a `u64`; then it is that one or that sum |
| `UsageRecorders.AnthropicAnswersAreCharged` | services/proxy/src/anthropic.rs:183-207 | an answer with a client error costs nothing whatever it says; any other costs the sum of its counts, or the budget if it has none |
| `UsageRecorders.OpenAiAnswersAreCharged` | services/proxy/src/openai.rs:214-220 | an answer with a client error costs nothing whatever it says; any other costs n exactly when its document tells the total n |
| `MockStreams.SplitText` | services/provider-mock/src/mock_stream.rs:54-68 | n pieces that concatenate to the text, sizes non-increasing and differing by at most one |
| `MockStreams.ChunksFit` | services/provider-mock/src/anthropic.rs:461-471 | ceil(len / ceil(len / n)) is at most n |
| `MockStreams.SplitToolInput` | services/provider-mock/src/anthropic.rs:461-471 | n pieces that concatenate to the input: resizing only pads |
| `MockStreams.DurationIsValid` | services/provider-mock/src/mock_control.rs:61-78 | the checked product accepts exactly streams of at most an hour |
| `MockStreams.FromHeaders` | services/provider-mock/src/mock_control.rs:23-58 | a control is accepted exactly with 1 to 10000 pieces, an error position within them, a delay of at most a minute and at most an hour of delays in all, and then carries the given values or the defaults |
| `MockStreams.DelayedByteStream.PollNext` | services/provider-mock/src/mock_stream.rs:27-52 | events come out in order with one sleep each, however the stream is polled; a poll waits exactly while its sleep has not elapsed |
| `MockProviders.PrintedEventsAreRead` | services/provider-mock/src/anthropic.rs:473-475 | for every re-chunking of a printed stream the proxy takes out the printed events in order, with nothing left over, and reads back every payload |
| `MockProviders.BodyCarriesPayload` | services/provider-mock/src/openai.rs:633-635 | the data of a printed event is the printed payload |
| `MockProviders.AnthropicEventLog.AppendContent` | services/provider-mock/src/anthropic.rs:330-406 | the two append functions fill the vector with the specified stream, cut short where an error was requested |
| `MockProviders.AnthropicEventLog.AppendStreamErrorIfRequested` | services/provider-mock/src/anthropic.rs:408-428 | appends the error event exactly at the requested position |
| `MockProviders.AnthropicStreamingEvents` | services/provider-mock/src/anthropic.rs:299-328 | the events are the specified stream over pieces of the response text or tool input |
| `MockProviders.AnthropicStreamIsChargedExactly` | services/proxy/src/anthropic.rs:388-435 | for every control, piece list and re-chunking the proxy charges exactly the counts of the control |
| `MockProviders.AnthropicChargeIsLastTold` | services/proxy/src/anthropic.rs:376-435 | for any printed stream of any documents and any re-chunking the charge is the sum of the latest count told of each of the four kinds, or the budget when none is told |
| `StreamedAnswers.AnthropicAnswerIsWhole` | services/provider-mock/src/anthropic.rs:330-406 | however the printed stream is re-chunked, a client puts together from its deltas exactly the answer's pieces, or those before a requested error |
| `MockProviders.AnthropicStreamingCostsTheSame` | services/provider-mock/src/anthropic.rs:177-194 | the streamed charge equals the non-streaming charge exactly when no mid-stream error was requested |
| `MockProviders.AnthropicStreamIsBounded` | services/provider-mock/src/anthropic.rs:299-459 | a stream over n pieces has at most n + 5 events |
| `MockProviders.AnthropicSleepsAtMostAnHour` | services/provider-mock/src/mock_control.rs:61-78 | for every accepted set of headers, however the stream is polled, it sleeps at most an hour in all |
| `MockProviders.OpenAiEventLog.AppendContent` | services/provider-mock/src/openai.rs:377-466 | fills the vector, replacing the opening chunk for tool calls, and reports whether it ended with an error |
| `MockProviders.OpenAiEventLog.AppendStreamErrorIfRequested` | services/provider-mock/src/openai.rs:468-486 | appends the error event exactly at the requested position |
| `MockProviders.OpenAiStreamingEvents` | services/provider-mock/src/openai.rs:346-375 | the events are the specified stream over pieces of the response text or tool arguments |
| `MockProviders.OpenAiStreamIsChargedExactly` | services/proxy/src/openai.rs:432-441 | the proxy charges the reported total when usage is included and the stream ends well, and otherwise finds nothing to charge |
| `MockProviders.OpenAiChargeIsLastTotal` | services/proxy/src/openai.rs:240-257 | for any printed stream of any documents and any re-chunking the charge is n exactly when n is the total told by the last event that tells one, a total of its own or the sum of its two counts, and the budget exactly when none does |
| `StreamedAnswers.OpenAiAnswerIsWhole` | services/provider-mock/src/openai.rs:377-466 | however the printed stream is re-chunked, a client puts together from its deltas exactly the answer's pieces, or those before a requested error |
| `MockProviders.OpenAiStreamingCostsTheSame` | services/provider-mock/src/openai.rs:282-330 | the streamed charge equals the non-streaming charge exactly when usage is included and no error was requested |
| `MockProviders.OpenAiStreamIsBounded` | services/provider-mock/src/openai.rs:346-466 | a stream over n pieces has at most n + 4 events |
| `MockProviders.OpenAiSleepsAtMostAnHour` | services/provider-mock/src/mock_control.rs:61-78 | for every accepted set of headers, however the stream is polled, it sleeps at most an hour in all |
| `RequestBody.BodyIsReadFaithfully` | services/proxy/src/request_body.rs:31-88 | over every interleaving of pump, deadline and reads of any sizes: the bytes read are a prefix of the body; a clean first end means all of it, unless the runtime dropped the pump; a pump failure is told before any clean end and once, as a time-out only after the deadline and as bad data only of a body that failed; at most 4 sections of at most 16 KiB are queued |
| `RequestBody.LateBodyTimesOut` | services/proxy/src/request_body.rs:40-60 | once the deadline has passed with a chunk still to come, the first end the reader meets in any continuation is a time-out, unless the runtime drops the pump |
| `RequestBody.AbortedPumpLooksFinished` | services/proxy/src/request_body.rs:23-29 | the exception is real: for every body and every number of its chunks there is a run in which the pump is dropped after them and the reader meets a clean end |
| `RequestBody.StepKeepsInv` | services/proxy/src/request_body.rs:31-151 | every step keeps the books of the pipe: read + ahead of the reader + unsent = taken from the body |
| `RequestBody.ReadTakesFromAhead` | services/proxy/src/request_body.rs:119-151 | a read takes what it returns from the front of what lies ahead and loses nothing, and takes as much as the caller has room for and the section at hand holds |
| `RequestBody.ReadMeetsTheEnd` | services/proxy/src/request_body.rs:131-143 | a read meets the end of the input exactly when nothing lies ahead and the pump is gone, and then takes the error |
| `RequestBody.ChannelReader.Read` | services/proxy/src/request_body.rs:119-151 | the reading loop over the reader's fields computes that step and fills the front of the output only |
| `RequestBody.Sections` | services/proxy/src/request_body.rs:62 | the sections of a chunk are non-empty, at most 16 KiB, and concatenate to it |
| `RequestBody.SectionsAreFull` | services/proxy/src/request_body.rs:62 | all sections of a chunk but the last are 16 KiB long |
| `ActiveStreams.CounterIsExact` | services/proxy/src/streams.rs:21-73 | with stale loads and spuriously failing exchanges, in every run the counter is the number of unreleased guards, between 0 and the maximum, and a refusal means all slots were taken at some moment |
| `ActiveStreams.FreeSlotCanBeTaken` | services/proxy/src/streams.rs:21-44 | a free slot is taken by a fresh load and one undisturbed exchange |
| `ActiveStreams.FinishThenDropReleasesOnce` | services/proxy/src/streams.rs:81-98 | finishing and then dropping a guard gives its slot back once |
| `ActiveStreams.ActiveStreamTracker.TryStartStream` | services/proxy/src/streams.rs:21-69 | takes a slot exactly when one is free, after any number of spurious failures |
| `ActiveStreams.ActiveStreamGuard.Release` | services/proxy/src/streams.rs:86-91 | the first release gives the slot back, a later one does nothing |
| `RateLimit.WindowsAreLimited` | services/proxy/src/rate_limit.rs:36-83 | in every run of concurrent callers, with updates repeated after lost replies, the requests accepted in one window never exceed the limit, and a refusal means the window is full |
| `RateLimit.SpansAreLimited` | services/proxy/src/rate_limit.rs:36-96 | over any span no longer than the window the accepted requests never exceed twice the limit |
| `RateLimit.TwiceTheLimitIsReached` | services/proxy/src/rate_limit.rs:92-96 | the bound is tight: for every limit and every window of at least two seconds, two seconds around an edge can take twice the limit |
| `RateLimit.SecondsAreLimited` | services/proxy/src/rate_limit.rs:36-96 | a single second, so a window of one second, takes the limit once |
| `RateLimit.BurstIsAccepted` | services/proxy/src/rate_limit.rs:36-83 | a burst within the limit on an empty window is accepted whole |
| `RateLimit.RowsOutliveTheirWindow` | services/proxy/src/rate_limit.rs:98-100 | in every run a stored row stays exactly a whole window longer than its own if the clock can count that far, and otherwise as long as it can count |
| `RateLimit.RoomIsUsed` | services/proxy/src/rate_limit.rs:44-83 | a request whose window has room, answered at once, is accepted |
| `RateLimit.SpanMeetsTwoWindows` | services/proxy/src/rate_limit.rs:92-96 | an instant within a window's length of another falls in the same window or the next |
| `RateLimit.RateLimitStore.CheckAndRecord` | services/proxy/src/rate_limit.rs:36-89 | one conditional increment that sets the row's TTL: accepted exactly when answered with room, and counted unless lost before |
| `RateLimit.NewLimiter` | services/proxy/src/rate_limit.rs:22-34 | limit and window are the given ones, or one instead of zero |
| `ProviderDrain.RecordingIsComplete` | services/proxy/src/anthropic.rs:209-282 | in every run the client gets a prefix of the provider's chunks in order, the recorder a prefix that contains it, and a finished task the whole stream unless it stopped early, which takes a cancellation or a provider failure; a client that stays is sent all of it, and after a failure of the provider all that was recorded and then the failure, unless a shutdown cuts in |
| `ProviderDrain.ReservationIsHandedOverOnce` | services/proxy/src/openai.rs:259-399 | the reservation is handed over at most once, with the charge of all that was recorded, exactly once by a task that finishes, and the slot is held until then |
| `ProviderDrain.GoneClientNeverBlocks` | services/proxy/src/anthropic.rs:225-278 | once the client is gone a running task, wherever it waits, can record the rest, hand over the charge of all it recorded and finish without another step of the client |
| `ProviderDrain.StepForwards` | services/proxy/src/anthropic.rs:236-270 | every step keeps what was passed to the client a prefix of what was recorded |
| `ProviderDrain.Drain` | services/proxy/src/anthropic.rs:219-275 | the loop over the recorder: what it hands over is the charge of exactly the results it took; it takes all of them unless stopped, interrupted or broken; it sends the client exactly what it took up to the first send that fails, a failure of the provider last, and a client that takes everything all data and then that failure |

## Left out

- AWS, HTTP and axum calls, logging, metrics, secrets, configuration and error-to-status mapping: the store, the queue, the clocks and the provider are parameters or actions.
- Deletion of rows by TTL, expiry of queue messages and limits that change in mid-window: rows are assumed present and each engineer's limits fixed for a run. Reconciliation does not refresh the TTL of usage rows.
- The idempotency window of `client_request_token`, and resubmission inside the SDK: exactly-once comes from the conditional writes alone.
- The soft pre-check `check_limits`: it writes nothing and decides nothing about the ledger.
- Randomness of identifiers: an untracked reservation is assumed to get a completion token not used before; a reused reservation id is handled by its condition.
- Serialisation of jobs to queue messages, messages without a body and the batch loop of the worker: a worker takes one decoded message at a time, any number of workers at once.
- The 38-digit range of table numbers: counters are unbounded integers, read back through `u64`.
- struson and serde_json: documents are the trees they hand over, nested no deeper than they accept; strings are opaque, and numbers that are not `u64` values are too, except for how serde_json spells them after reading them once and twice and whether struson, which refuses large exponents, passes each spelling on; these are given with the number. struson does not respell.
- Invalid UTF-8 and Unicode white space in event data: bytes are kept as they are and only ASCII white space is trimmed.
- `UsageRecorders.AnthropicUsage.TotalTokens`: the sum is unbounded, while the source adds `u64` values and assumes that they fit; the mock's counts always do.
- MockProviders.AnthropicChargeIsLastTold: the same sum, unbounded; and a `[DONE]` marker, which this provider does not send, is not among its events.
- MockProviders.PrintedEventsAreRead: assumes of JSON only that a document is written on one line starting with its brace and parses back to the same map.
- MockProviders.AnthropicEventLog.AppendContent: the text and tool variants are one method, since they differ only in the block they describe; validation of mock requests and HTTP errors is not part of this model.
- MockStreams.FromHeaders: header values are taken as parsed; the texts of its errors are not modelled.
- RequestBudget.PrepareOpenAi: whether a document with a fault, of which more is written than the spool takes, meets the spool limit or the fault first depends on buffering and is a parameter.
- ProviderDrain.Drain: written for the Anthropic recorder; the OpenAI task has the same body, and the state machine covers both.
- ActiveStreams.ActiveStreamTracker.TryStartStream: the class is sequential, and its borrowed and owned variants are one; interference is in the state machine.
- RateLimit.WindowsAreLimited: removal of expired counters is not modelled, and a request belongs to the window of its clock reading.
- RequestBody.ChannelReader.Read: a receive that would wait ends the call with `Blocked`, and the scheduler calls again.
- Header filtering, API keys, health checks, the infrastructure stacks and the integration scripts: declarative or single-branch code that would only add easy members.
