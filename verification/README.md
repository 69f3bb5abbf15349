# A Dafny model of the SMTP-to-MAX relay

The relay takes mail over SMTP, resolves the recipient to chats of the MAX messenger, posts the
text in chunks and the attachments as files through a rate limiter, and keeps failed deliveries in
a retry queue that survives restarts. This project models those parts in Dafny and proves what
they guarantee together. `dafny verify dfyconfig.toml` checks all of it.

| module (file) | models |
|---|---|
| `DlqItems`, `DlqStore`, `DlqWorker`, `DlqAdmin` | the retry queue: its items, the file-backed store as a class, the worker's round, manual replays |
| `DlqProtocol` | the queue as a state machine: mail, worker, administrators, every try of every relay call, failing writes and crashes, interleaved in any order |
| `DlqSends` | what the messenger gets to see in a run, and when a mail is accepted exactly once |
| `DlqPaths`, `DlqRuns` | series of steps, and runs in which a promise ends |
| `DlqFailures` | runs in which one mail fails again and again: the spacing of its tries, and tries that come back |
| `DlqAcks`, `DlqTries` | what the acknowledgement of a queued failure is worth in everything that may follow: a delivery, or at least a try |
| `EndToEnd` | a reply to DATA read together with a run of the queue; worker, administrators and relay service as steps of the machine |
| `Backoff` | the retry delay, an int64 shift that really wraps |
| `Delivery`, `RelayService` (Relay.dfy) | the fan-out of one mail over targets, chunks and attachments; bounded retries; queueing; counters |
| `Splitter`, `Utf8` | cutting a long text without breaking characters; strings in a JSON file |
| `RateLimiter` | token bucket and wait queue, as atomic steps of many callers, and the class: one send, with arbitrary steps of all other callers in between, is a way through those steps |
| `SmtpData`, `SmtpSession` (Smtp.dfy) | reading message data and the command loop |
| `Text`, `Addresses` (Recipients.dfy), `AliasStore` | recipient addresses, their printer, the editable alias table |
| `Metrics` | counters, the delivery map, the capped event list, the report and its rankings |
| `Support` | options and results, library sorting, sums over maps |

How the outside world appears:

- Times are integers. Clock readings, new item ids (fresh in the table), random draws and the
  outcome of writing the file are inputs or arbitrary choices.
- The file is the list of items last renamed into place. A write either replaces it by the whole
  table or leaves it alone, while the table in memory has changed already.
- SHA-256 is taken to be free of collisions: a digest is modelled by the text it was computed from.
- The e-mail parser is an arbitrary function from bytes to a text and attachments, or an error. The
  MAX client is a sender that may accept or refuse anything; each call is logged.
- Locks make the store's, the parser's and the collector's methods atomic. In the protocol every relay
  call, for arriving mail and for replays, begins, makes its tries one by one and returns, each a step
  of its own, so that anything may happen in between; a crash cuts off the calls under way, while what
  the messenger has seen of them stays. The alias table a call resolves its address with is arbitrary.
- Go strings and byte slices are sequences of characters below 256.

Results that say where a promise of the code ends are stated as equivalences: which configurations keep
retry delays exact and growing (`AlwaysIdealIff`, `MonotoneIff`, a check of 63 shifts), which keep the
jittered delay in its band (`JitterStaysInBandIff`) and the tries of a mail spaced in every run
(`AlwaysSpacedIff`), when a failed manual replay keeps items unique, in one step and over whole runs
(`RetryKeepsUniqueIff`, `UniqueIff`), when a done item stays done (`DoneStaysIff`), when an item is
shown as being processed while the worker does not hold it (`StrandedIff`), when an item that is out of
tries gets some back (`ExhaustedStaysIff`), which recipients a file gives back as they were
(`JsonKeepsIff`), when an acknowledged failure is sure to be sent again before it is done
(`WorthADeliveryIff`) and sure of a try of its own before it is done or given up (`SureOfATryIff`),
when a mail is accepted exactly once (`ExactlyOnceIff`), when a session takes its commands from outside
the message data (`CommandsOutsideDataIff`), which lines are commands and which inputs hold a message
(`CommandIff`, `MessageIff`), when the queue depth exceeds the capacity (`DepthExact`), from which
limit on the splitter keeps characters whole (`ValidPartsIff`), when adding and removing alias targets
cancel out (`AddRemoveRestoresIff`), when stored names and printed addresses lead to their chats and
chat ids can be used (`AcceptedGroupResolvesIff`, `PrintedAddressResolvesIff`,
`AcceptedTargetUsableIff`), and at which rates the refill interval is exact (`RateIsExactIff`). Where
the promise fails there is a witness: a configuration for the delays, a run of the limiter, an input
for the session, a chat id, and whole runs of the queue for duplicates, reopened and stranded items,
repeated deliveries, picks that come too early, tries that come back and a second mail that is lost.

Behaviour of the code that a reader may not expect, and that the model keeps:

- `PickDue` marks items as processing before it writes the file. If the write fails the worker gets
  nothing and the items stay stuck until a restart or a manual replay (`FailedPickStrands`,
  `FailedPickHappens`).
- Delivery is at least once: after a failed send everything is sent again on retry; a delivery whose
  record is lost is made again (`SentTwice`); and so is one that a crash cuts off, even after
  everything was accepted (`CutOffSendsTwice`).
- A refused mail that comes in again while a replay of its first copy is under way, or while its nil
  answer is still to be recorded, is merged into that copy and then marked done without being sent
  again (`LostSecondMail`). If the first copy's last try has failed, both are given up (`LastTryLost`).
- If the write that records an item's last failure fails and the process crashes, the item waits for
  that try again (`LostFailureRevives`).
- After a message that is too large the session goes on inside the message data and takes its lines
  for commands (`CommandsOutsideDataIff`, `BodyIsExecuted`, `SampleSession`).
- A chat id with more digits than int64 holds is accepted as a recipient and as an alias target, but
  no message can be sent to it (`HugeIdAccepted`).
- A finished DATA does not clear the recipients; MAIL FROM and RSET do.
- `queueDepth` may exceed the queue's capacity for a moment, because the slot is freed before the
  depth is lowered (`DepthExact`, `DepthOverCapacity`).
- The receiver drops one dot of a line only if the line starts with two. Section 4.5.2 of RFC 5321
  would drop a single leading dot as well; every sender that stuffs dots is unaffected
  (`DataRoundTrip`).

## Model

| member | source | states |
|---|---|---|
| `DlqItems.FingerprintIdentifies` | internal/dlq/store.go:302-305 | two payloads have the same fingerprint if and only if recipient and message are the same, although recipients may contain the separator |
| `DlqItems.PreHashSample` | internal/dlq/store.go:302-305 | the hashed text is the recipient, a bar and the message in lower-case hexadecimal |
| `DlqItems.DecodeSnapshot` | internal/dlq/store.go:262-300 | a file that lists exactly the items of a table, in any order, reads back as that table |
| `DlqItems.LastEntryCounts` | internal/dlq/store.go:266-274 | of entries with the same id the last one counts |
| `DlqStore.NewFileStore` | internal/dlq/store.go:61-67 | fails exactly if there is a file that cannot be read or decoded; else the store shows the file's items as loading leaves them |
| `DlqStore.FileStore.constructor` | internal/dlq/store.go:266-275 | a store on a readable file shows its items, with processing turned to pending and missing fingerprints filled in |
| `DlqStore.FileStore.Load` | internal/dlq/store.go:266-274 | the same for the loading loop; later entries win |
| `DlqStore.FileStore.PersistLocked` | internal/dlq/store.go:278-300 | after success the file stands for exactly the table, oldest item first; after a failure it is untouched |
| `DlqStore.FileStore.Enqueue` | internal/dlq/store.go:69-110 | touches one live copy of the payload if there is any, else adds one pending item; answers an error exactly when the write fails, with the table changed all the same |
| `DlqItems.EnqueuedMeans` | internal/dlq/store.go:73-109 | field by field, what a new item is and what may have become of an earlier one |
| `DlqStore.FileStore.DueInOrder` | internal/dlq/store.go:115-129 | the earliest due ids in order of retry time: the limit or all that are due, whichever is less; ten if there is no limit |
| `DlqItems.PicksMeans` | internal/dlq/store.go:115-129 | what any choice of ids to pick means on the fields: waiting items whose time has come, the earliest first, as many as the limit allows |
| `DlqStore.FileStore.MarkProcessing` | internal/dlq/store.go:130-137 | the chosen items are processing now and returned in order; no other item changes |
| `DlqStore.FileStore.PickDue` | internal/dlq/store.go:112-144 | picks the earliest due items, the limit or all that are due, whichever is less, and changes only them, also when the write fails and nothing is returned |
| `DlqStore.FileStore.MarkDone` | internal/dlq/store.go:146-157 | the whole effect on table and file, unknown ids and failing writes included |
| `DlqStore.FileStore.MarkRetry` | internal/dlq/store.go:159-179 | counts the attempt and either gives up at the limit or schedules the next one; the whole effect on table and file |
| `DlqWorker.Worker.ReplayOne` | internal/dlq/worker.go:60-93 | one relay call with the item's own payload, then done or one more counted failure with a delay from the backoff; only that item changes; the file is the new table or as it was |
| `DlqWorker.FailureWaits` | internal/dlq/worker.go:83-91 | a failed replay counts once, gives up just at the limit, and else waits for the backoff of the failures so far and a jitter |
| `DlqWorker.Worker.ReplayAll` | internal/dlq/worker.go:64-94 | every item of the batch is relayed once, in order, and marked by its own outcome; each counter counts its outcomes; the file is the table as of the last mark that was written |
| `DlqWorker.Worker.RunOnce` | internal/dlq/worker.go:56-95 | one round: the picked items are handled once each, after a good write as many as the batch size or all that are due, whichever is less; nothing else changes, counters and file included; after a failed pick nothing is relayed |
| `EndToEnd.RoundIsSteps` | internal/dlq/worker.go:56-95 | whatever a round does to table, file and relay calls, the protocol does in a pick, and a whole call and a mark for every item, at every pattern of failing writes |
| `DlqWorker.RoundSpends` | internal/dlq/worker.go:56-95 | every relay call of a round uses up at least one of the tries left, and a round leaves nothing in processing |
| `DlqWorker.RoundsDrain` | internal/dlq/worker.go:36-95 | over any series of late enough rounds, relay calls plus tries left never exceed the tries at the start; after as many rounds as tries no item is live |
| `DlqAdmin.Admin.Replay` | internal/dlq/admin.go:52-79 | replays the item that the trimmed id names, of any status, once with its own payload and marks it by the outcome; unknown and blank ids change nothing |
| `DlqAdmin.FailureWaits` | internal/dlq/admin.go:68-74 | a failed manual replay counts once, gives up just at the limit, and else waits for the backoff of the failures so far |
| `EndToEnd.ReplayIsSteps` | internal/dlq/admin.go:52-79 | whatever a replay of an item does to table, file and relay calls, the protocol does in a fetch, a whole call and a mark |
| `DlqAdmin.Admin.SpentForGood` | internal/dlq/admin.go:60-79 | whatever manual replays follow one another and whatever they answer, an item that is out of tries never waits again and keeps its retry time |
| `DlqAdmin.Admin.List` | internal/dlq/store.go:227-247 | the most recently touched items, newest first, cut to the limit or to 20 |
| `DlqAdmin.Admin.Select` | internal/dlq/admin.go:135-145 | the first items of the wanted status in the listing, up to the limit |
| `DlqAdmin.ListingChoice` | internal/dlq/admin.go:135-145 | what is selected from a listing are the newest items of the wanted status, all of them if the limit is not reached |
| `DlqAdmin.ParseModeIff` | internal/dlq/admin.go:161-173 | nothing or only_pending asks for waiting items, only_failed for those given up, in any case of the letters; anything else is refused |
| `DlqAdmin.Admin.ReplaySelected` | internal/dlq/admin.go:150-158 | every selected item is relayed once, in order, and marked by its own outcome; the successes reported are the deliveries whose result was saved; the file is the table as of the last mark that was written |
| `DlqAdmin.Admin.ReplayBatch` | internal/dlq/admin.go:124-173 | refuses a bad limit or mode without touching anything, else runs one replay after the other for the ids of exactly such a choice and reports how many deliveries were made and saved; if no id has surrounding white space, every chosen item is relayed once |
| `DlqAdmin.ConfirmedIs` | internal/dlq/admin.go:150-158 | the successes reported are the answers that tell of a delivery whose result was saved |
| `DlqProtocol.StepChanges` | internal/dlq/store.go:69-179 | every step but a crash makes one of five permitted changes to the table and leaves the file as it was or equal to the new table |
| `DlqProtocol.FailedSendIsQueued` | internal/relay/service.go:108-116 | a queued failure leaves a live item with exactly its recipient and message, keeps all other items, and keeps items unique |
| `DlqProtocol.RunIsSafe` | internal/dlq/store.go:69-300 | in every reachable state table, file and acknowledged items agree on payloads, and worker and administrators hold items the table has |
| `DlqProtocol.DoneMeansDelivered` | internal/dlq/worker.go:76-80 | in every run, a done item was delivered in full by a relay call on exactly its recipient and message |
| `DlqProtocol.RunIsJustified` | internal/dlq/admin.go:68-75 | in every run, every done item in memory or in the file, and every answer still to be recorded, has its nil relay call |
| `DlqProtocol.AckedNeverLost` | internal/dlq/store.go:105-109 | an item whose Enqueue succeeded is in memory and in the file, unchanged in recipient and bytes, after whatever follows |
| `DlqProtocol.FileIsLastSave` | internal/dlq/store.go:278-300 | the file is always the table as the last successful write left it |
| `DlqProtocol.BudgetHolds` | internal/dlq/store.go:159-179 | with a positive limit, waiting items have tries left and failed ones have none, in every run with replays and restarts |
| `DlqProtocol.ExhaustedForGood` | internal/dlq/store.go:166-176 | without failing writes an item out of tries never waits or runs again, whatever replays and crashes follow |
| `DlqProtocol.ExhaustedStaysIff` | internal/dlq/store.go:159-179 | a step gives an item out of tries new ones exactly when it is a crash and the file does not know of the last try |
| `DlqFailures.LostFailureRevives` | internal/dlq/store.go:174-178 | for every positive limit and every mail that may be refused, a run in which an item that was given up waits again: the write of its last failure failed and the process crashed |
| `DlqProtocol.NoDuplicates` | internal/dlq/store.go:73-88 | in every run without manual replays, at most one live item for a recipient and message, in memory and in the file |
| `DlqProtocol.RetryKeepsUniqueIff` | internal/dlq/admin.go:68-74 | exactly when a failed manual replay keeps live items unique |
| `DlqProtocol.UniqueIff` | internal/dlq/store.go:73-88 | in a run with manual replays live items are unique in every state if and only if no step records a failed replay of an item that is not live, has tries left and has a live twin |
| `DlqRuns.ManualReplayDuplicates` | internal/dlq/admin.go:60-74 | under every setup that allows a second try and for every mail that the messenger may refuse, some run ends with two live items for it |
| `DlqRuns.FailedReplayReopens` | internal/dlq/admin.go:68-74 | and some run in which a done item waits again after a failed manual replay |
| `DlqRuns.CrashReopens` | internal/dlq/store.go:153-156 | and some run in which it does so after the write of its delivery failed and the process crashed |
| `DlqRuns.SetupExists` | internal/relay/service.go:42-157 | a concrete setup and mail of that kind, so those runs exist |
| `DlqSends.CallsKeepToPlan` | internal/relay/service.go:88-156 | in every run, what the messenger accepted of a call is the first part of the call's plan, be it finished, under way or cut off by a crash; after a nil answer it is the whole plan |
| `DlqSends.ExactlyOnceIff` | internal/relay/service.go:88-156 | in every run, what the messenger accepted for a payload that some call answered nil for is exactly that call's plan if and only if no other call about it, finished, under way or cut off, got anything accepted |
| `DlqRuns.CutOffSendsTwice` | internal/dlq/worker.go:76-80 | for every setup and every mail that may be refused, a run in which one call only answers nil and yet everything is accepted twice: the process dies in mid-send, the item is pending again and is sent again |
| `DlqRuns.SentTwice` | internal/dlq/worker.go:76-80 | and some run in which two calls for one mail answer nil, because the record of the first is lost |
| `DlqAcks.DoneMeansDeliveredSince` | internal/dlq/store.go:73-88 | if no such replay had begun and was unrecorded when a failure was acknowledged for an item, the item done later was delivered in full by a call that began after the acknowledgement |
| `DlqAcks.WorthADeliveryIff` | internal/dlq/store.go:73-88 | over all continuations of a run that ends with an acknowledgement: done always means delivered by a call begun since, exactly when no replay of the item has begun that may still be recorded as delivered: one whose mail parses and resolves and whose send has tries left, or whose nil answer waits |
| `DlqAcks.LostSecondMail` | internal/dlq/store.go:73-88 | for every setup and every mail that may be refused, a run without manual replays and failing writes that marks an acknowledged item done with no successful call begun since; both while the worker's call is under way and while its answer is to be recorded |
| `DlqTries.SureOfATryIff` | internal/dlq/store.go:73-88 | over all continuations: done or given up always means that a call about the mail which began since has returned, and that the messenger has seen a try of it unless its address did not resolve or its mail did not parse; exactly when that holds and the replays of the item still to be recorded, failing all, leave it a try |
| `DlqTries.LastTryLost` | internal/dlq/store.go:166-176 | where one try is all an item has, a run in which an acknowledged mail is given up with no call at all begun since |
| `DlqProtocol.DoneStaysIff` | internal/dlq/admin.go:52-79 | a step ends the done status exactly when it records a failed replay of the item or crashes onto a file that does not have it as done |
| `DlqProtocol.DoneIsFinal` | internal/dlq/store.go:146-157 | in every run without manual replays and failing writes, done is final |
| `DlqProtocol.FailedPickStrands` | internal/dlq/store.go:130-142 | when the write in a pick fails, the picked items stay processing and are not held by the worker until a restart or the record of a manual replay |
| `DlqProtocol.StrandedIff` | internal/dlq/store.go:130-142 | in every run an item is processing and not held by the worker if and only if a pick of it could not be saved, and no restart and no record of a manual replay of it came since |
| `DlqRuns.FailedPickHappens` | internal/dlq/store.go:138-142 | a run in which that happens, for every setup and every mail that may be refused |
| `DlqProtocol.PicksAreSpaced` | internal/dlq/worker.go:87-88 | if no delay that is ever waited for overflows with its jitter: in runs without manual replays and failing writes, no pick comes earlier after the n-th failure than the backoff for n |
| `DlqFailures.AlwaysSpacedIff` | internal/dlq/worker.go:87-132 | where a mail can be refused at all, that holds of all those runs if and only if none of the delays for the failures an item survives, at most 64 numbers, overflows with its jitter |
| `DlqFailures.LargeCapIsFine` | internal/dlq/worker.go:109-132 | five tries from one second on meet the condition even under the largest cap, which does not fit together with the jitter |
| `Backoff.DelayInRange` | internal/dlq/admin.go:189-204 | for every base, cap and attempt the wrapped delay lies between the smaller of base and cap, and the cap |
| `Backoff.DelayExactIff` | internal/dlq/admin.go:199-203 | exactly when the delay of one attempt is the doubled and capped one over unbounded integers |
| `Backoff.IdealDoubles` | internal/dlq/admin.go:189-204 | the delay meant: the base, one second if none is given, doubled with every attempt up to the cap, five minutes if none is given |
| `Backoff.AlwaysIdealIff` | internal/dlq/admin.go:189-204 | every attempt is exact if and only if base and cap pass a check of the first 63 shifts |
| `Backoff.MonotoneIff` | internal/dlq/admin.go:189-204 | later attempts never wait less if and only if base and cap pass that check |
| `Backoff.DelayIsIdeal` | internal/dlq/admin.go:189-204 | if 2^s divides the base and the rest times the cap fits in int64, every attempt is exact |
| `Backoff.DelayMonotone` | internal/dlq/admin.go:189-204 | then later attempts never wait less |
| `Backoff.DefaultConfigIsSafe` | internal/dlq/worker.go:110-117 | the default base and cap are such a configuration |
| `Backoff.UnsafeConfigShrinks` | internal/dlq/admin.go:199-203 | a base and cap for which the 63rd delay wraps and is shorter than the 62nd |
| `Backoff.WorkerNextDelay` | internal/dlq/worker.go:109-133 | the worker's own computation is the administrator's delay plus jitter, truncated to int64 |
| `Backoff.JitterStaysInBandIff` | internal/dlq/worker.go:109-133 | at all attempts and draws the jittered delay lies in [delay, delay + jitter) if and only if cap and jitter together fit in int64 |
| `Backoff.JitterWrapsNegative` | internal/dlq/worker.go:128-132 | a configuration for which the jittered delay comes out negative |
| `Utf8.CutAtStart` | internal/relay/service.go:197-199 | valid UTF-8 may be cut before any byte that is no continuation byte |
| `Utf8.StartNearby` | internal/relay/service.go:197-199 | at most three steps back from any byte of valid UTF-8 a character starts |
| `Utf8.CharLenIff` | internal/relay/service.go:197-199 | a text begins with a character of some length if and only if it begins with the UTF-8 form, of that length, of a code point |
| `Utf8.JsonKeepsIff` | internal/dlq/store.go:262-289 | a string comes back from JSON as it was if and only if it is valid UTF-8; what becomes of the others is valid, so a second restart changes nothing more |
| `Splitter.BestTextSplit` | internal/relay/service.go:191-208 | the back-off loop finds the specified cut, which is positive and within the limit |
| `Splitter.SplitTextMessage` | internal/relay/service.go:174-189 | the splitting loop terminates with the specified parts for every limit |
| `Splitter.SplitConcat` | internal/relay/service.go:174-189 | the parts join up to the text |
| `Splitter.SplitFits` | internal/relay/service.go:180-187 | no part exceeds the limit, and none is empty unless the text is |
| `Splitter.ValidPartsIff` | internal/relay/service.go:196-202 | all valid texts split into valid parts exactly for limits of at least 4 bytes |
| `Splitter.LongPartsIff` | internal/relay/service.go:196-207 | for limits of 2 or more, every part but the last is longer than half the limit for all valid texts exactly from 7 bytes on |
| `Splitter.PartCount` | internal/relay/service.go:174-208 | (parts - 1) * (limit/2 + 1) < length, for valid texts and limits of at least 7 |
| `Splitter.PrefersSpace` | internal/relay/service.go:204-206 | if white space lies in the second half of the window, the part ends with the last one there |
| `Splitter.CutIs` | internal/relay/service.go:191-207 | the cut is behind the last line feed, carriage return, tab or space of the second half of the window, or at its end, the last place up to the limit that is no continuation byte |
| `Delivery.TextsAreLarge` | internal/relay/service.go:89 | valid text goes out in pieces of at most 4000 bytes, each but the last of more than 2000; one of up to 4000 bytes stays whole |
| `Delivery.AcceptedOfRun` | internal/relay/service.go:88-156 | a finished run was accepted exactly as planned, a failed one up to a strict prefix of the plan |
| `Delivery.ExecutesAt` | internal/relay/service.go:210-236 | every send tried is the planned one, tried between once and the bound, and all but the last were accepted |
| `Delivery.PlanReachesAll` | internal/relay/service.go:88-156 | carrying out the plan gives every target, in turn, texts that join up to the full text followed by all attachments |
| `RelayService.Service.SendWithRetry` | internal/relay/service.go:210-236 | stops at the first accepted try; a send that keeps failing is tried exactly MaxSendRetries + 1 times, once if that setting is negative, or once more than the context lasts for waits, if that is less; nil exactly if one try was accepted |
| `RelayService.Service.SendAll` | internal/relay/service.go:89-120 | a loop over sends runs over them in order and stops at the first failure; files sent are counted |
| `RelayService.Service.DeliverAll` | internal/relay/service.go:88-156 | the loop over targets runs over the whole plan or stops at its first failure and names its chat; the targets counted and recorded as delivered are those whose whole plan was accepted, and a text is counted without its target only if a file failed |
| `RelayService.DoneTargetsMeans` | internal/relay/service.go:88-156 | after a nil answer those are all targets, after a send failure fewer than all, otherwise none |
| `RelayService.EventsAreBooked` | internal/relay/service.go:58-152 | the recorded events: one for each target that got everything, in order, and after an error one for the target that refused, for the first one if the message did not parse, for none if the address did not |
| `Delivery.TextsAreCounted` | internal/relay/service.go:116-118 | the texts counted are the targets that accepted all their texts, be it that a file failed later |
| `Delivery.FilesAreAccepted` | internal/relay/service.go:145-147 | the files counted are those the sender accepted |
| `RelayService.Service.FailSend` | internal/relay/service.go:103-117 | a failure is counted and recorded under its chat and, outside a replay, queued; an unwritable queue shows in the error |
| `RelayService.Service.Relay` | internal/relay/service.go:42-157 | nil exactly after the whole plan; the whole effect on send log, queue, file, counters and recorded deliveries in all four outcomes, the last two as a function of what was accepted; if the context lasts, a failure ends the log with exactly MaxSendRetries + 1 refused tries of one send; a replay never touches the queue |
| `EndToEnd.RelayIsSteps` | internal/relay/service.go:42-157 | whatever a call outside a replay does to the queue, its file and the messenger, the protocol does in a beginning, its tries and a return |
| `RelayService.RelayTrace` | internal/relay/service.go:42-157 | nil means every resolved target accepted the whole mail; a send failure means a strict prefix; any other error means nothing was tried |
| `RelayService.Service.RelaySeries` | internal/relay/service.go:42-157 | after any series of relay calls on a fresh collector: received - failed is the number of nil answers, relayed the number of targets that accepted their whole plan, texts and files what was accepted of them, queue entries the failures queued, and the delivery map adds up to relayed targets and to failures |
| `Metrics.Collector.ObserveDelivery` | internal/metrics/collector.go:84-98 | the normalized event joins the history, the map counts it, and the retained events stay the last 50000 |
| `Metrics.CollectorAddsUp` | internal/metrics/collector.go:84-98 | the entries of the delivery map add up to the delivered and undelivered events ever observed |
| `Metrics.LastNAppend` | internal/metrics/collector.go:94-97 | cutting the capped list after each append keeps the last n of the whole history |
| `Metrics.Retained` | internal/metrics/collector.go:94-97 | a collector retains its last 50000 events |
| `Metrics.TallyIs` | internal/metrics/collector.go:92-93 | the delivery map has each key exactly as often as it has occurred |
| `Metrics.Aggregate` | internal/metrics/collector.go:259-288 | the aggregation loop computes the summary of the events since a time |
| `Metrics.SummaryBalanced` | internal/metrics/collector.go:259-288 | headline numbers, addresses, recipients and per-recipient statistics of every summary add up |
| `Metrics.SummaryCounts` | internal/metrics/collector.go:259-288 | each number of the report, in total, of an address and of a recipient, is the number of events of that kind that are not older than the time, and of no others |
| `Metrics.LabelSamples` | internal/metrics/collector.go:353-363 | how a recipient is labelled, with and without a name and an id |
| `Metrics.TopK` | internal/metrics/collector.go:370-385 | the first k entries of a complete ranking of the map |
| `Metrics.RankingUnique` | internal/metrics/collector.go:375-380 | there is only one such ranking, so map order does not matter |
| `Metrics.RankingMeans` | internal/metrics/collector.go:375-380 | larger counts come first, equal ones by their keys in byte order |
| `RateLimiter.RunKeepsInv` | internal/max/limited_sender.go:121-179 | in every interleaving: tokens + grants = burst + refills, slots within capacity, depth = callers between +1 and -1, grants = sends made or due, drops = timeouts made or due |
| `RateLimiter.GrantsBounded` | internal/max/limited_sender.go:107-168 | over any stretch of any run, grants are at most a full bucket plus the ticks in it |
| `RateLimiter.BucketFills` | internal/max/limited_sender.go:107-119 | over a stretch of any run without grants every tick adds a token until the bucket is full; from an empty one on, k ticks leave k tokens or a full bucket |
| `RateLimiter.CountersCount` | internal/max/limited_sender.go:107-168 | in every run each counter is the number of its steps: refills the ticks that found room, drops the full queues and timeouts, rate-limited calls those and the waits that got a token |
| `RateLimiter.QuietState` | internal/max/limited_sender.go:93-168 | with no caller in flight no slot is taken, the depth is 0, every token became one send and every drop one timeout error |
| `RateLimiter.LeavingNeverBlocks` | internal/max/limited_sender.go:145-148 | the deferred receive never blocks and the clamp at zero never acts |
| `RateLimiter.DepthExact` | internal/max/limited_sender.go:134-148 | depth plus callers that have only taken their slot equals slots plus callers that have only freed it; so the depth exceeds the capacity if and only if the latter outnumber the former and the free slots together |
| `RateLimiter.DepthOverCapacity` | internal/max/limited_sender.go:134-148 | steps that lead to a depth of capacity plus one |
| `RateLimiter.DepthExcess` | internal/max/limited_sender.go:145-148 | the depth is never negative and exceeds the capacity by at most the callers that have freed their slot only |
| `RateLimiter.ExecIsRun` | internal/max/limited_sender.go:107-168 | whatever steps the limiter has taken form a run, so all of the above holds of it |
| `RateLimiter.NewRateLimitedSender` | internal/max/limited_sender.go:48-91 | without a positive rate there is no limiter; else defaults applied and the interval set |
| `RateLimiter.RateLimitedSender.constructor` | internal/max/limited_sender.go:65-83 | the bucket full, the queue empty, the protocol at its start |
| `RateLimiter.RateLimitedSender.Refill` | internal/max/limited_sender.go:107-119 | a tick of the protocol: one token more unless the bucket is full |
| `RateLimiter.RateLimitedSender.FastPath` | internal/max/limited_sender.go:126-132 | whichever ready case is taken is an enabled step, with its answer; the default only if none is ready |
| `RateLimiter.RateLimitedSender.Queue` | internal/max/limited_sender.go:134-143 | takes a slot exactly if there is room, else drops and counts it |
| `RateLimiter.RateLimitedSender.UpdateQueueDepth` | internal/max/limited_sender.go:170-179 | changes the depth by exactly the delta, as a step of the protocol |
| `RateLimiter.RateLimitedSender.Wait` | internal/max/limited_sender.go:150-167 | the final select answers by an enabled step: cancelled only if the context is done, timeout only if the timer has fired, granted only with a token |
| `RateLimiter.RateLimitedSender.ReleaseSlot` | internal/max/limited_sender.go:145-146 | the receive of the deferred function is always enabled |
| `RateLimiter.RateLimitedSender.Others` | internal/max/limited_sender.go:93-168 | any number of enabled steps of other callers, ticks and cancellations, which leave a caller where it is |
| `RateLimiter.RateLimitedSender.Acquire` | internal/max/limited_sender.go:121-168 | among any steps of others, takes one of the four ways through the selects and the deferred function, in the source's order, and answers accordingly |
| `RateLimiter.RateLimitedSender.Finish` | internal/max/limited_sender.go:94-104 | the wrapped sender's log grows by one call of this caller after a grant and not otherwise |
| `RateLimiter.RateLimitedSender.Send` | internal/max/limited_sender.go:93-105 | a whole send among any others is an arrival, one way through acquire and one use of its answer, and reaches the wrapped sender once if granted and never otherwise |
| `RateLimiter.RateIsExactIff` | internal/max/limited_sender.go:78-81 | RPS intervals fit in a second, no more and no fewer, exactly when rounding loses less than one interval |
| `RateLimiter.RateIsExact` | internal/max/limited_sender.go:78-81 | which holds whenever RPS squared is at most 10^9 |
| `SmtpData.ReadData` | internal/smtp/server.go:199-218 | the reading loop gives the specified result and leaves the specified rest unread, for every input |
| `SmtpData.MessageIff` | internal/smtp/server.go:199-218 | for every input: a message is returned if and only if some line is a dot alone, with CR and LF or LF, and the lines before it, each with one of two leading dots taken off, fit the limit; it is what they say, and reading stops behind that line |
| `SmtpData.TerminatorEnds` | internal/smtp/server.go:206 | the same with both terminators written out behind a dot-stuffed message |
| `SmtpData.StuffMeans` | internal/smtp/server.go:209-211 | what the sender's side does to a line |
| `SmtpData.DataRoundTrip` | internal/smtp/server.go:199-218 | a dot-stuffed message of whole lines is read back exactly, with the rest unread, if and only if it fits the limit |
| `SmtpData.ReadStopsInside` | internal/smtp/server.go:199-218 | reading stops right behind the terminator unless the message is too large, and then inside the message |
| `SmtpData.AcceptedFits` | internal/smtp/server.go:209-217 | whatever arrives, an accepted message fits the limit and consists of whole lines |
| `SmtpSession.Session.RelayAll` | internal/smtp/server.go:157-163 | recipients are relayed in order with the same message up to the first failure |
| `SmtpSession.Session.HandleData` | internal/smtp/server.go:146-169 | reply, data read and relay calls of DATA in all its outcomes |
| `SmtpSession.Session.HandleRcpt` | internal/smtp/server.go:126-144 | the recipient is added exactly if the reply is 250, which needs a path, the served domain and an address that parses |
| `SmtpSession.Session.HandleCommand` | internal/smtp/server.go:106-183 | every command gets its reply and changes the recipients as specified |
| `SmtpSession.Session.HandleConn` | internal/smtp/server.go:80-185 | every line of the input is answered in turn, its data being what follows it, until QUIT or the end of the input; the recipients are those accepted since the last MAIL FROM or RSET and all replies are proper |
| `SmtpSession.CommandIff` | internal/smtp/server.go:101-183 | for every line and each of the nine commands, the trimmed line is read as it if and only if it begins with the word, or is it, in any case of the letters |
| `SmtpSession.SessionObeys` | internal/smtp/server.go:101-183 | in every session, in any case of the letters: MAIL FROM: and RSET leave no recipients; RCPT TO: adds its path exactly with a 250, which it gets only if that can be relayed to; no other line changes the recipients; QUIT ends the session; each line gets its reply |
| `SmtpSession.RcptReplyIff` | internal/smtp/server.go:126-144 | 501 if and only if there is no path; 250 if and only if the path ends with the served domain in any case and parses; else 550 |
| `SmtpSession.PathIs` | internal/smtp/server.go:193-197 | the path is the argument without outer white space, angle brackets, and white space inside them |
| `SmtpSession.DataReplyMeans` | internal/smtp/server.go:146-169 | in a session on an input with a stuffed message behind DATA: 250 if and only if it fits and every recipient was relayed exactly it with nil; 451 if and only if a prefix was and then exactly one failed; the next command is read behind the terminator |
| `SmtpData.SkippedIff` | internal/smtp/server.go:199-218 | reading takes exactly the message if and only if its first lines are not more text than the limit with something behind them |
| `SmtpSession.CommandsOutsideDataIff` | internal/smtp/server.go:146-156 | a session takes its commands from outside the message data all along if and only if no message behind a DATA with recipients begins with more text than the limit and goes on behind it |
| `SmtpSession.BodyIsExecuted` | internal/smtp/server.go:146-156 | for every limit, accepted recipient and line beyond the limit, a session that obeys RSET in the second line of the message |
| `SmtpSession.BodyIsOverlong` | internal/smtp/server.go:146-156 | whose message is one of those the equivalence speaks of |
| `SmtpSession.SampleSession` | internal/smtp/server.go:146-156 | one such session on a concrete input of five lines with no room at all |
| `EndToEnd.ReplyMeansDelivery` | internal/smtp/server.go:146-169 | a session and a run of the queue with its relay calls: 250 for a stuffed message if and only if it fits and was delivered in full for every recipient; after a 451 it was so for the first ones, the next one's failure is kept in table and file for good if it was queued without error, and the others were not tried |
| `EndToEnd.SessionHasRun` | internal/smtp/server.go:157-163 | such a run exists for every session and all answers the relay service may give: from any state of the queue on, its calls are steps one after the other |
| `Text.ParseFormat` | internal/max/bot_sender.go:122-128 | every int64 survives printing and parsing |
| `Text.ParseIntIff` | internal/max/bot_sender.go:122-128 | a number is digits, perhaps behind a sign, and fits into 64 bits |
| `Text.DecimalDigits` | internal/max/bot_sender.go:122-128 | numbers are written in decimal |
| `Text.DecimalValue` | internal/max/bot_sender.go:122-128 | and read in decimal |
| `Text.TrimSpaceIs` | internal/recipient/parser.go:45 | the six ASCII white space characters go from both ends, and nothing else |
| `Text.LowerIff` | internal/recipient/parser.go:45 | texts are the same in lower case if and only if they differ in the case of letters only |
| `Text.SplitIff` | internal/recipient/parser.go:46 | the fields of a split are the only ones free of the separator that glue to the text |
| `Addresses.PrintedAddressResolvesIff` | internal/max/bot_help.go:128-153 | for every int64 chat id, the printed address resolves exactly when the domain is not blank and has no '@', to that chat with the right silent flag, or to the targets of an alias that has taken its local part |
| `Addresses.AcceptedIdUsableIff` | internal/max/bot_sender.go:122-128 | an accepted chat id parses as int64 if and only if its number fits, and then to that number |
| `Addresses.ParseOneLocal` | internal/recipient/parser.go:44-102 | what an address with a local part that is no alias parses to, the three kinds of error included |
| `Addresses.ParseNoSign` | internal/recipient/parser.go:44-49 | without a sign there is no address |
| `Addresses.CaseMakesNoDifference` | internal/recipient/parser.go:44-102 | addresses that differ in the case of letters only mean the same |
| `Addresses.TargetIs` | internal/recipient/parser.go:74-95 | the field before the first dot names the chat, and posting is silent if and only if another field is "silent" |
| `Addresses.ChatIdIff` | internal/recipient/parser.go:255-288 | a base stands for a chat if and only if it is "chatid" and digits, perhaps behind a minus sign |
| `Addresses.ChatIdError` | internal/recipient/parser.go:255-288 | which of the four errors any other base gives |
| `Addresses.TargetsInOrder` | internal/recipient/parser.go:74-95 | several targets are taken in order |
| `Addresses.FirstBadDecides` | internal/recipient/parser.go:82-85 | and the first that means nothing decides |
| `Addresses.JoinSample` | internal/recipient/parser.go:67 | the local parts an address stands for are noted with commas between them |
| `AliasStore.Parser.Parse` | internal/recipient/parser.go:44-102 | the parsing loop gives the specified answer, the first error included |
| `AliasStore.Parser.ValidateAliasTarget` | internal/recipient/parser.go:104-115 | accepts exactly the targets whose base is a chat id |
| `AliasStore.AcceptedIff` | internal/recipient/parser.go:104-115 | a target is accepted if and only if its base is a chat's, whatever its flags |
| `AliasStore.Parser.SetAliasGroup` | internal/recipient/parser.go:117-133 | the whole new table, ignored calls included |
| `AliasStore.Parser.AddAliasTargets` | internal/recipient/parser.go:135-171 | the new table: ordered union under the normalized name |
| `AliasStore.Parser.RemoveAliasTargets` | internal/recipient/parser.go:173-205 | the new table: ordered difference, and an emptied name disappears |
| `AliasStore.Parser.DeleteAlias` | internal/recipient/parser.go:207-215 | the new table without the name |
| `AliasStore.NormalizeAliasTargets` | internal/recipient/parser.go:227-242 | the normalized targets in order, without blanks and repetitions |
| `AliasStore.NormalizeOrder` | internal/recipient/parser.go:227-242 | what is named first comes first |
| `AliasStore.EditMeans` | internal/recipient/parser.go:117-215 | each edit touches the entry of its name only, which then holds what was named, or gains it, or loses it, or is gone; blanks do nothing |
| `AliasStore.UnionOrder` | internal/recipient/parser.go:151-166 | added targets go to the end, in their order |
| `AliasStore.MinusOrder` | internal/recipient/parser.go:190-197 | those left keep their order |
| `AliasStore.EditsKeepGood` | internal/recipient/parser.go:117-215 | any series of edits keeps every name mapped to a non-empty list of distinct normalized targets |
| `AliasStore.AddRemoveRestoresIff` | internal/recipient/parser.go:135-205 | adding and then removing targets restores the exact table if and only if the call is ignored or none of them was there |
| `AliasStore.AcceptedGroupResolvesIff` | internal/recipient/parser.go:104-133 | a group of accepted targets set under a name resolves for mail to that name, to exactly their chats and silent flags, if and only if neither the name nor the domain contains an '@' |
| `AliasStore.AcceptedTargetUsableIff` | internal/recipient/parser.go:104-115 | the chat id of an accepted target can be sent to if and only if its number fits int64 |
| `AliasStore.HugeIdAccepted` | internal/recipient/parser.go:104-115 | every number beyond int64 is accepted as a target all the same |
| `AliasStore.EditsKeepResolving` | internal/recipient/parser.go:104-215 | the same for every name in a table after any series of edits with accepted targets |

## Left out

- MIME parsing and the MAX client: an arbitrary parser function and a sender that may answer anything.
- Sends that reach a chat although the client reports an error: a try counts as accepted if it returned nil.
- Composing the text from subject, sender and body (with its fallbacks and tag stripping): part of the arbitrary parser function.
- JSON text, directories, the temporary file and SHA-256 itself: a file is a list of items, a digest the text it stands for.
- DlqProtocol.AckedNeverLost: recipients are taken to be valid UTF-8, which a restart gives back as they were (`Utf8.JsonKeepsIff`); of others the file keeps U+FFFD for every stray byte, and the old fingerprint.
- DlqProtocol.NoDuplicates: likewise; a recipient that a restart has changed may become the same as another live one's.
- Status words other than the four, which a hand-edited file could contain.
- Wall-clock time, deadlines and context cancellation: arbitrary choices; the attempt timeout of the worker is one more way for a relay call to fail.
- Saturation of Go's time addition, and wrap-around of attempt and metric counters: unbounded integers.
- Unicode case folding and white space: ASCII only, in addresses, aliases and commands.
- `Stats`, `OldestPendingAge`, `Get`, `Summary`, `Show`, `ReplayDry` and the wording of answers: read-only and flat.
- Latency histograms, label escaping, the metrics page and `topRecipientStats` (which ranks like `topK`).
- `SnapshotAliases` and the alias file; locks are modelled as atomic methods.
- Missing collaborators: the collector is always there (the queue may be absent), as are the stores and relay functions of worker and administrator, and the relay service and its parser in a session.
- A queue whose worker or administrator does not bypass it on replay: replays always bypass, as the program is wired.
- RelayService.Service.Relay: the text is cut once, not once a target, which gives the same parts; a context is done at no wait between tries or may be done at any, which `lasting` tells apart.
- RelayService.Service.RelaySeries: models no loop of the program; it is the observer that the accounting laws speak about.
- EndToEnd.RoundIsSteps: a round of the class runs undisturbed; what others do between its steps is in the protocol only.
- RateLimiter.RateLimitedSender.Wait: the timer may fire at any moment, so nothing is said about how long a caller waits; a drop and its two counters are one step.
- SmtpSession.Session.HandleConn: read errors end the session like the end of input, without the 421 reply; reply texts are reduced to their codes; deadlines and the session limit are left out.
- SmtpSession.Session.HandleRcpt: the alias table of the moment is a parameter.
- Sockets, HTTP handlers, configuration, logging, tracing, version strings, bot commands, admin confirmation and attachment names: no deep invariant.
