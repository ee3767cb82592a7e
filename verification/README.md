# Femboy API: models and proofs

Femboy API is a gateway in front of large-language-model providers. This project models its
state machines in Dafny and proves what they promise.

| file | what it models |
|---|---|
| `Utf16.dfy`, `Sse.dfy`, `SseFormat.dfy` | the incremental event-stream parser and the printer (sections 9.2.5 and 9.2.6 of the WHATWG HTML Living Standard) |
| `SseLenient.dfy`, `SseMemory.dfy` | streams as other programs write them, and the bound on what the parser holds |
| `AnthropicStream.dfy`, `AnthropicRoundTrip.dfy`, `AnthropicWire.dfy` | the framer that turns OpenAI chunks into an Anthropic event tree, a checker for such trees, the translator back, and the whole way over the wire |
| `TranslatorMeaning.dfy` | what the translator makes of any event sequence |
| `MessageConversion.dfy`, `ConversionRoundTrip.dfy`, `ConversionMeaning.dfy` | requests converted between the two dialects, the round trip, and what each part becomes |
| `Sums.dfy`, `QuotaLedger.dfy`, `LedgerRuns.dfy`, `LedgerCharges.dfy` | the durable quota ledger and redemption codes, runs of their transactions, and what each of them charges |
| `LeasedQueue.dfy`, `SettlementReplay.dfy`, `SettlementCharges.dfy` | a queue drained by many workers under an expiring lock, the settlement outbox on it, and what replays charge |
| `UsageLedger.dfy`, `UsageTotals.dfy`, `UsagePersist.dfy`, `UsageFlush.dfy` | usage rows and hourly rollups, writing a batch month by month, and the usage buffer drained the same way |
| `CoordinationList.dfy`, `Coordinator.dfy` | Redis lists kept as positioned documents beside a TTL reaper |
| `TokenBucket.dfy`, `ZsetLimiters.dfy` | the token bucket, the sliding window and the concurrency gate |
| `RelayRun.dfy`, `RelayDelivery.dfy` | one relayed request: request thread, pull and cancel callbacks interleaving at their awaits, and what its client is sent |
| `Election.dfy`, `Retry.dfy`, `RetryOutcomes.dfy` | tiers, the weighted draw, selection with a fresh read, the retry loop and how it ends |
| `JsonBounds.dfy` | the explicit-stack bounds walk and the removal of dangerous keys |
| `Options.dfy`, `Numbers.dfy`, `Sorting.dfy` | optional values, rounding up, counting, sorting downwards |
| `Addresses.dfy`, `Cidr.dfy`, `AddressTexts.dfy` | address parsing and CIDR containment (section 2.2 of RFC 4291, section 3.1 of RFC 4632) |

Where the program changes state step by step, the model does too: a class with the program's
variables, and methods with its branches and loops, each proved against a specification function
of the old state. The theorems are then about those functions, over every input, every run or
every interleaving; what the functions compute is said again in the terms of their inputs, as folds,
texts and numbers.

## Assumptions

- A transaction or a store script is one atomic step. It may fail before it commits, or commit and
  lose its answer; the ledger and the usage store model both.
- Random lock owners, list generations, set members and request ids are fresh.
- One clock, which does not run backwards, is read by callers and store.
- Writing and reading back gives the same value, for each JSON text and each number the results speak of.
- Numbers are mathematical integers and reals; the safe-integer guards the code has are modelled
  as branches.
- In a relay run the pure helpers between two awaits (pricing, usage normalisation, framing) do not
  throw.
- Upstream answers, key lookups, database reads, clock checks and random draws of the retry loop are
  parameters, free to answer anything.

## Where code and text differ

The code is followed in each case.

- Lines 210-213 of `lib/transform/sse.ts` say it themselves: an unterminated final block is emitted,
  where section 9.2.6 discards it; an event with no data is dispatched too.
- Lines 126-129 of `docs/COST.md` say a leaked reservation expires after 15 minutes, and journal rows after a
  week. The code only refuses to replay an expired reservation id (`LedgerRuns.ExpiredHoldStays`); a hold is
  pending exactly until a completion of its owner's commits (`LedgerRuns.PendingUntilClosed`), and its row is
  kept (`LedgerRuns.RunContinues`).
- Line 187 of `lib/relay/pipeline.ts` says the usage row is written exactly once. A buffered answer
  whose settlement fails attempts a second row, for the same request id: exactly then
  (`RelayRun.SecondRowExactly`), and such runs exist (`RelayRun.SecondRowHappens`). The second is
  no second charge (`UsageLedger.RedeliveryChangesNothing`).
- Lines 231-232 of `lib/usage/index.ts` say a rollup failure is swallowed. Rollups are in the row's own
  transaction, so they fail or commit with it.
- The sliding window counts ids (`ZsetLimiters.NoWindowOverflows`). It counts admissions exactly where no id
  was admitted twice (`ZsetLimiters.AdmissionsPerId`), and bounds them there
  (`ZsetLimiters.NoWindowHoldsMore`); one id that asks n times is admitted n times
  (`ZsetLimiters.RepeatedIdSlipsThrough`).

## Model

| member | source | states |
|---|---|---|
| Utf16.Utf8LenPrefix | lib/transform/sse.ts:128-130 | A prefix of a text never needs more UTF-8 bytes than the text, surrogate pairs cut in two included: what makes an early size refusal agree with a late one |
| Utf16.Utf8LenSplits | lib/transform/sse.ts:128-130 | The UTF-8 size of a text is the sum of its parts wherever it is cut, but inside a surrogate pair |
| Utf16.Utf8LenOfUnits | lib/transform/sse.ts:128-130 | One byte below 0x80, two below 0x800, three for any other unit, four for a surrogate pair |
| Sse.SseParser.constructor | lib/transform/sse.ts:100-108 | A new parser holds no text and no fields |
| Sse.SseParser.Dispatch | lib/transform/sse.ts:110-125 | An event is emitted exactly when a field was seen since the last one; the last event id alone survives it |
| Sse.SseParser.HandleLine | lib/transform/sse.ts:127-177 | One line does to fields, events and the size checks what the reference line reader says, on every branch |
| Sse.SseParser.Push | lib/transform/sse.ts:180-201 | A push drains exactly the lines that are certainly finished, keeps the rest, and throws on an over-long line, event or remainder |
| Sse.SseParser.Flush | lib/transform/sse.ts:203-215 | Flush reads the held remainder as a last line and emits an unterminated final event |
| Sse.Join | lib/transform/sse.ts:114 | Data lines are joined by LF, none dropped |
| Sse.Feed | lib/transform/sse.ts:180-215 | Pushing chunks one after the other and flushing is the run the theorems below speak about |
| Sse.FinishAfterDrain | lib/transform/sse.ts:184-193 | Draining a first part early changes nothing of what the whole text reads as |
| Sse.HeldIsOneLine | lib/transform/sse.ts:186-187 | What a push holds back is at most one unfinished line, with at most its CR |
| Sse.OverfullThrows | lib/transform/sse.ts:195-199 | Refusing an over-long remainder early is right: whatever follows, the whole text would have been refused |
| Sse.RunReadsConcat | lib/transform/sse.ts:180-215 | From any held text and fields, a run over chunks equals reading their concatenation |
| Sse.ChunksReadAsText | lib/transform/sse.ts:180-215 | Every cutting of a text into pushes, between CR and LF included, gives the one-shot reading of the text or the same refusal |
| Sse.ChunkIndependence | lib/transform/sse.ts:180-215 | Two cuttings of one text give the same events or both throw |
| SseMemory.MemoryIsBounded | lib/transform/sse.ts:9-11 | However much is pushed and however it is cut, the held text is at most one unit longer than the limit and the data collected for one event within it |
| SseMemory.PushAll | lib/transform/sse.ts:180-201 | Pushes through the parser object are the pushes the memory bound speaks about |
| SseFormat.FormatSse | lib/transform/sse.ts:58-70 | The printer writes the terminated lines of the frame: comment, id, event, retry, data, blank |
| SseFormat.FormatBody | lib/transform/sse.ts:66-68 | Every payload line gets its own data prefix |
| SseFormat.OneLineHasNoBreaks | lib/transform/sse.ts:42-45 | A field value never carries a line break into the frame |
| SseFormat.OneLineOfRun | lib/transform/sse.ts:42-45 | A run of CR and LF inside a field value becomes exactly one space |
| SseFormat.JoinSplit | lib/transform/sse.ts:47-49 | Splitting a payload at CR, LF and CRLF and joining it by LF normalises its breaks and changes nothing else |
| SseFormat.ReadTerminated | lib/transform/sse.ts:58-70 | Printed lines are read back as exactly those lines |
| SseFormat.ReadFrame | lib/transform/sse.ts:58-70 | One frame within the size caps reads back as its comment and its event; outside them it throws |
| SseFormat.PrintedReadsBack | lib/transform/sse.ts:58-70 | Frames printed one after the other and cut anywhere read back as exactly the expected events when each is within the caps, and throw otherwise |
| SseFormat.OneEventPerFrame | lib/transform/sse.ts:51-70 | Comment-free frames with a field read back one for one, with data equal up to CR and CRLF becoming LF and the same names: no payload opens or closes a frame |
| SseFormat.OneLineUnchanged | lib/transform/sse.ts:42-45 | A name without breaks is printed as it is |
| SseFormat.PrintedPlainly | lib/transform/sse.ts:58-70 | For one-line values the frame is written, character by character, as comment, id, event, retry, data and a blank line, absent and empty names left out |
| SseFormat.LabelledStep | lib/transform/sse.ts:146-176 | In any state a line "name: value" adds a data line, sets event, id or retry, or is ignored, by its name; an id with NUL is ignored, data over the limit throws, and so does an over-long line |
| SseLenient.LooseReadsAlike | lib/transform/sse.ts:144-149 | A line without the optional space after its colon, or without colon and value, reads as the spaced line does; each is held to the size limit by its own length |
| SseLenient.AnyEndsCut | lib/transform/sse.ts:184-193 | Lines ended by any mix of CR, LF and CR LF are cut into exactly those lines; what follows the last end is a line unless it is empty |
| SseLenient.LenientReadsBack | lib/transform/sse.ts:94-217 | Frames written leniently, line by line, with any line ends and cut anywhere, read as exactly the events of the frames as printed |
| AnthropicStream.AnthropicFramer.constructor | lib/transform/framing.ts:137-143 | A new framer has no open block, stop reason "end_turn" and is not closed |
| AnthropicStream.AnthropicFramer.FrameText | lib/transform/framing.ts:168-180 | Text opens its block at the next index once, then appends to it |
| AnthropicStream.AnthropicFramer.FrameCall | lib/transform/framing.ts:182-208 | A tool-call fragment opens a block on first sight of its index, with a made-up id where none came, then appends its arguments |
| AnthropicStream.AnthropicFramer.Frame | lib/transform/framing.ts:164-212 | A chunk becomes the events of its text and its fragments in order, and moves the stop reason |
| AnthropicStream.AnthropicFramer.FrameCalls | lib/transform/framing.ts:182-208 | The fragments of a chunk are framed one after the other |
| AnthropicStream.AnthropicFramer.IndexesToClose | lib/transform/framing.ts:218-222 | The blocks to close are exactly all indexes handed out, newest first |
| AnthropicStream.AnthropicFramer.Finish | lib/transform/framing.ts:214-234 | Finishing closes every open block, newest first, then the message; a second finish writes nothing |
| AnthropicStream.CallStepsKeepIndexes | lib/transform/framing.ts:186-191 | Block indexes are handed out once each, consecutively from 0 |
| AnthropicStream.SortedIsCountdown | lib/transform/framing.ts:219-224 | Sorted for closing, the open indexes count down to 0 without gap or repeat |
| Sorting.Countdown | lib/transform/framing.ts:222 | As many different indexes as there are below a bound, sorted downwards, count down to 0 |
| AnthropicStream.ChunkStepAccepted | lib/transform/framing.ts:164-212 | What one chunk writes is accepted after what was written before |
| AnthropicStream.FinishAccepted | lib/transform/framing.ts:214-234 | Wherever the upstream stopped, finishing completes the event tree |
| AnthropicStream.FrameStream | lib/transform/framing.ts:137-234 | A whole stream through the framer object is well-formed and is what the theorems below speak about |
| AnthropicStream.FramedIsWellFormed | lib/transform/framing.ts:128-136 | For every sequence of chunks an independent checker accepts the stream: message_start first, fresh consecutive indexes, deltas only to open blocks of their kind, each block closed once, message_stop last |
| AnthropicRoundTrip.StreamTranslator.HandleEvent | lib/transform/anthropic.ts:510-610 | Each Anthropic event yields the chunks, tool indexes, token counts and end mark of the reference translator |
| AnthropicRoundTrip.StreamTranslator.ReportUsage | lib/transform/anthropic.ts:612-623 | The usage reported is that of the translator state the theorem on its meaning speaks about |
| AnthropicRoundTrip.TranslateStream | lib/transform/anthropic.ts:485-629 | A whole stream through the translator object is what the round trip speaks about |
| AnthropicRoundTrip.HeardIsTranslated | lib/transform/anthropic.ts:510-610 | Reading event by event is reading the translated chunk stream |
| TranslatorMeaning.Vocabularies | lib/transform/anthropic.ts:40-70 | Both vocabulary maps, word by word: any further stop reason is a stop, any further finish reason an end of turn |
| TranslatorMeaning.TranslatedTells | lib/transform/anthropic.ts:477-629 | For every event sequence the translated chunks read as: the text deltas joined, the thinking deltas joined, each tool call with the fragments of the block it was opened at, the last stop reason in the other vocabulary or "error"; done exactly after a stop reason, a stop or an error; and the usage is that of the last message_start and last output count, cache reads and writes added to the prompt |
| AnthropicRoundTrip.KnownCallSim | lib/transform/anthropic.ts:554-567 | A further fragment of a call reaches the same call on the far side |
| AnthropicRoundTrip.NewCallSim | lib/transform/anthropic.ts:523-541 | The first fragment of a call opens it at the next place on both sides, with its id and name |
| AnthropicRoundTrip.ChunkSim | lib/transform/framing.ts:164-212 | Framing and translating one chunk keeps sender and reader in step |
| AnthropicRoundTrip.FinishBack | lib/transform/anthropic.ts:40-70 | The finish reason after both vocabulary maps |
| AnthropicRoundTrip.FramedTranslatesBack | lib/transform/anthropic.ts:485-629 | Framing OpenAI chunks and translating them back keeps the text, every tool call with id, name and arguments renumbered by first appearance, the mapped finish reason and the output tokens; reasoning is dropped |
| AnthropicWire.PrintedEventsReadBack | lib/transform/framing.ts:145-147 | Events printed as frames, cut anywhere, are parsed as exactly the events that were printed |
| AnthropicWire.WireRoundTrip | lib/transform/framing.ts:137-234 | From OpenAI chunks through framing, printing, any cutting, parsing and translating back: text, tool calls, finish reason and output tokens arrive |
| QuotaLedger.Ledger.Reserve | lib/quota/index.ts:86-140 | A reservation commits wholly or leaves the ledger as it was; a lost answer leaves the committed hold |
| QuotaLedger.Ledger.ReserveInside | lib/quota/index.ts:91-139 | An id in the journal is replayed or refused without a debit; otherwise user, limited token and journal move together or not at all |
| QuotaLedger.Ledger.CompleteReservation | lib/quota/index.ts:142-183 | A completion validates its charge, commits once, and may lose its answer |
| QuotaLedger.Ledger.CompleteInside | lib/quota/index.ts:149-182 | Only a pending reservation of this owner is closed: the difference is refunded or charged on, to a limited token too, and the journal row keeps kind and amount |
| QuotaLedger.Ledger.Redeem | lib/admin/catalog.ts:263-296 | Claim and credit commit together or neither does |
| LedgerRuns.ReserveEffect | lib/quota/index.ts:86-140 | Whatever fails, a reservation step does nothing or takes exactly one hold |
| LedgerRuns.CompleteEffect | lib/quota/index.ts:142-183 | Whatever fails, a completion step does nothing or closes exactly one pending hold |
| LedgerRuns.StepConserves | lib/quota/index.ts:86-183 | No transaction creates or loses money of any user; creating or editing an account moves its total by exactly the amount put in |
| LedgerRuns.RunConserves | lib/quota/index.ts:86-183 | Over every run, faults included, quota + usedQuota + pending holds - redeemed credits moves only by opening balances and operators' edits, for every user |
| LedgerRuns.RedeemConserves | lib/admin/catalog.ts:263-296 | A redemption credits exactly the claimed amount to the redeemer |
| LedgerRuns.RunKeepsCap | lib/quota/index.ts:110-138 | Until a token is deleted, the cap left on it plus its limited holds and charges moves only by its opening cap and operators' edits, whatever flips of unlimitedQuota the run holds |
| LedgerRuns.RunContinues | lib/quota/index.ts:97-104 | A reservation keeps its owner and hold for ever, and once closed it keeps everything |
| LedgerRuns.PendingUntilClosed | lib/quota/index.ts:142-183 | A hold is pending after a run exactly when no step of it was its owner's completion, within bounds, that committed: neither time nor retries nor edits close it |
| LedgerRuns.ExpiredHoldStays | lib/quota/index.ts:95-104 | A hold asked for again once it has expired is refused as invalid; it stays pending and its debit stays |
| LedgerRuns.ReplayChangesNothing | lib/quota/index.ts:155-157 | After the first completion that committed, any later finalize, release or replay leaves every balance unchanged, at any later point of any run |
| LedgerRuns.AmbiguousCommit | lib/quota/index.ts:202-215 | A completion whose answer was lost after commit has settled: replaying it changes nothing |
| LedgerRuns.ReserveOnce | lib/quota/index.ts:95-104 | Asking again under an id in the journal never debits again |
| LedgerRuns.CodeCreditsOnce | lib/admin/catalog.ts:271-285 | A used code stays used by its redeemer and credits nobody again, over every run |
| LedgerRuns.RunStaysAbove | lib/quota/index.ts:117-125 | A balance never falls below its floor less the overshoots |
| LedgerRuns.DebtIsOvershoot | lib/quota/index.ts:117-125 | From an empty journal, a balance is never below minus the sum of amount - reserved over applied reservations that overshot |
| LedgerCharges.ReservationAnswers | lib/quota/index.ts:86-140 | A new hold of the amount rounded up, at least one, is granted exactly to an active, migrated account whose balance, and key cap if it has one, cover it, and taken from exactly those; any other is refused with the reason, in the order of the checks, and nothing moves |
| LedgerCharges.ReplayAnswers | lib/quota/index.ts:95-104 | An id in the journal answers with its hold exactly to its owner, for the same amount, while it is pending and not expired |
| LedgerCharges.MalformedRefused | lib/quota/index.ts:40-47 | Amounts that are negative, not finite or unsafe, and ids empty or over 128 characters, are refused; nothing is reserved in degraded mode |
| LedgerCharges.CompletionAnswers | lib/quota/index.ts:142-183 | A completion closes the caller's own pending hold and charges exactly the measured amount, rounded up: balance, spent totals of user and key, cap, request count, journal row and answer; anything else is left alone and answered as not applied |
| LedgerCharges.MalformedChargeRefused | lib/quota/index.ts:148 | A charge that is negative, not finite or unsafe is refused and changes nothing |
| LedgerCharges.ChargedAsClosed | lib/quota/index.ts:149-182 | After any run the journal row of a closed hold carries the amount, rounded up, and the kind of the completion that closed it, and that completion charged it |
| LedgerCharges.SpentIsTheCharges | lib/quota/index.ts:165-181 | Over every run the spent total of a user, and of a key until its deletion, grows by exactly the amounts of the holds closed in it |
| LedgerCharges.RedemptionCredits | lib/admin/catalog.ts:263-296 | A code is claimed exactly while it is unused and unexpired, its amount is valid and the sum stays safe, by an enabled, migrated account; the credit is its amount rounded up |
| LedgerCharges.OperatorsEdit | lib/admin/store.ts:158-242 | A new account opens with its amount rounded up; an edit sets a new amount, unless another one than the present was expected |
| LeasedQueue.AckTrimsPeeked | lib/redis/scripts.ts:55-59 | An acknowledgement removes exactly the peeked prefix, or nothing when the lock is no longer its worker's |
| LeasedQueue.StepKeepsInv | lib/usage/index.ts:185-215 | Every step of every worker keeps: what the lock owner peeked is the front of the queue, and nothing pushed is missing |
| LeasedQueue.NothingLost | lib/usage/index.ts:178-215 | In every interleaving of workers, pushes, lease expiries and crashes, each pushed item is still queued or already committed |
| LeasedQueue.AckIsExact | lib/redis/scripts.ts:55-59 | In every run an acknowledgement trims what its worker peeked, or leaves queue and lock alone |
| LeasedQueue.UndisturbedFlush | lib/usage/index.ts:185-215 | A worker that keeps its lock empties its batch from the front, keeps whatever was pushed before and after it committed, and frees the lock |
| LeasedQueue.LiveLockStays | lib/redis/scripts.ts:55-70 | While a lock is live nobody else takes or frees it: only its owner's acknowledgement or release, or its expiry, ends it; a worker that finds it live does nothing |
| LeasedQueue.FreeLockIsTaken | lib/usage/index.ts:187-190 | A worker that finds no live lock owns it for its whole time to live |
| SettlementReplay.AnsweredIsSettled | lib/quota/index.ts:202-215 | An answered completion by the owner has closed the hold |
| SettlementReplay.OutboxStepKeepsInv | lib/quota/index.ts:189-239 | Every ledger, outbox and worker step keeps each buffered settlement queued or settled |
| SettlementReplay.NoSettlementLost | lib/quota/index.ts:202-239 | Whatever crashes, lost answers, expired leases and overlapping workers a run holds, a buffered settlement is still buffered or its own hold is no longer pending |
| SettlementReplay.OutboxAckIsExact | lib/quota/index.ts:222-239 | In every run an acknowledgement takes exactly the settlements its worker replayed, or nothing |
| SettlementReplay.OutboxConserves | lib/quota/index.ts:189-239 | Finalizing, releasing and replaying move no money: over every run a user's total changes only by what operators put in |
| SettlementReplay.ReplaySettlesAll | lib/quota/index.ts:229-235 | A flush that gets through its batch has settled every entry of it |
| SettlementReplay.ReplaysEnableCommit | lib/quota/index.ts:227-235 | In every run, a worker whose replays were all answered may acknowledge, whatever steps of others fell between them |
| SettlementReplay.SettlementStore.FlushQuotaSettlements | lib/quota/index.ts:222-239 | One flush completes its batch in order, trims it only if all were answered, stops at the first failure or entry without its ids keeping the buffer, and always gives back the lock |
| SettlementReplay.SettlementStore.AckUsage | lib/redis/scripts.ts:55-59 | Trim and unlock happen only for the live owner |
| SettlementReplay.SettlementStore.ReleaseLock | lib/redis/scripts.ts:68-70 | Unlocking happens only for the live owner |
| SettlementCharges.FinalizingCompletes | lib/quota/index.ts:189-216 | Finalizing completes with the measured amount, as a release exactly when that is nothing, and releasing with nothing; exactly an unconfirmed completion is buffered, at the end, if the buffer is reached |
| SettlementCharges.ReplayCharges | lib/quota/index.ts:227-235 | A batch replayed to its end charged every hold still pending exactly what its first entry measured, rounded up, as a release exactly when that was nothing |
| SettlementCharges.UnnamedStopsReplay | lib/quota/index.ts:231-232 | A batch with an entry lacking one of its ids is never replayed to its end |
| UsageLedger.RollupIdInjective | lib/usage/index.ts:247-248 | Two rollup ids are equal only for the same scope, key and hour, whatever colons a key holds |
| UsageLedger.AdmitAllAt | lib/usage/index.ts:159-163 | Under every month and request id a delivery leaves the row already there, else its first row |
| UsageLedger.RedeliveryChangesNothing | lib/usage/index.ts:131-137 | Delivering rows again changes nothing |
| UsageLedger.InsertKeepsRollups | lib/usage/index.ts:234-263 | Inserting a new row and counting it in its four scopes keeps every counter equal to the fold over the rows |
| UsageLedger.DeliveryKeepsRollups | lib/usage/index.ts:157-164 | One committed delivery keeps every counter equal to the fold |
| UsageLedger.RollupsAreTheFold | lib/usage/index.ts:138-176 | After any number of overlapping or repeated deliveries every rollup counter is the fold over the distinct persisted rows of its scope, key and hour |
| UsageTotals.RollupsByName | lib/usage/index.ts:234-263 | The documents user:KEY:HOUR, channel:KEY:HOUR, model:KEY:HOUR and global:all:HOUR hold the requests, failures, quota and tokens of the hour's rows of that user, channel or billed model, and of all rows |
| UsageTotals.OneRowPerRequest | lib/usage/index.ts:159-163 | After any delivery every request delivered has one row in its month, filed under its own id: the one it had, else one delivered for it |
| UsagePersist.UsageStore.IncrementRollups | lib/usage/index.ts:234-263 | A row is counted once in each of its scopes, none for an empty key |
| UsagePersist.UsageStore.PersistBucket | lib/usage/index.ts:157-164 | A month's rows commit with their counters or neither does; rows already there are skipped |
| UsagePersist.UsageStore.PersistWithRetry | lib/usage/index.ts:155-171 | The write is answered, and the rows are in, exactly as the faults say: a lost race is retried at most twice, any other fault ends it |
| UsagePersist.AnsweredExactly | lib/usage/index.ts:155-171 | A write is answered exactly when at most two lost races are followed by a clean attempt, and commits exactly when that attempt commits, answered or not |
| UsagePersist.UsageStore.Persist | lib/usage/index.ts:138-176 | Success exactly when every month is answered, and then exactly the first row per key is in; on failure exactly the months before, and the failing one when it committed, are in |
| UsagePersist.AllMonthsWritten | lib/usage/index.ts:150-173 | Writing month by month gives every key what one delivery of the whole batch gives it |
| UsagePersist.GroupByMonth | lib/usage/index.ts:141-148 | Months in order of appearance, each with its rows in order, none lost |
| UsageFlush.PersistedIsWritten | lib/usage/index.ts:209-210 | Once a batch is persisted, each of its rows that parses is in the ledger, so the batch may be acknowledged |
| UsageFlush.AdmissionsEnableCommit | lib/usage/index.ts:209-210 | A worker whose rows were all admitted may acknowledge, in whatever transactions they were and whatever steps of others fell between them |
| UsageFlush.UsageStepKeepsInv | lib/usage/index.ts:113-215 | Every recorder, commit and worker step keeps each recorded row buffered or written |
| UsageFlush.NoUsageLost | lib/usage/index.ts:178-215 | In every interleaving of recorders, commits, expiring leases and dying workers, each recorded row is still buffered or its request has a row in its month |
| UsageFlush.UsageBuffer.RecordUsage | lib/usage/index.ts:113-129 | A row is buffered, or when the buffer cannot be reached written straight through, and that succeeds exactly as the faults say |
| UsageFlush.UsageBuffer.FlushUsageBuffer | lib/usage/index.ts:185-215 | One flush persists the batch's valid rows as far as the faults allow, trims the whole batch exactly when all of it was answered, and gives back the lock |
| UsageFlush.UsageAckIsExact | lib/usage/index.ts:178-184 | In every run an acknowledgement takes exactly the batch its worker persisted, or nothing |
| UsageFlush.UsageBuffer.ValidRows | lib/usage/index.ts:197-208 | Corrupt entries are skipped and poison nothing |
| CoordinationList.FoundSlice | lib/redis/mongo.ts:191-194 | A range read over full positions returns exactly that slice of the list |
| CoordinationList.SoundExcept | lib/redis/mongo.ts:150-202 | Changing one key's documents leaves every other key sound and what it was |
| CoordinationList.OtherCellsKept | lib/redis/mongo.ts:66-84 | No operation on one key is seen through another |
| CoordinationList.TimeKeepsSound | lib/redis/mongo.ts:69-72 | Time alone turns expired keys absent and changes nothing else |
| CoordinationList.ReaperIsUnseen | lib/redis/mongo.ts:66-84 | A reaper deleting any expired key documents and rows, in any order, cannot be told from one that never ran |
| Coordinator.Coordinator.constructor | lib/redis/mongo.ts:62-64 | An empty store is sound |
| Coordinator.Coordinator.Load | lib/redis/mongo.ts:66-74 | An expired key is removed with its rows and read as absent; no value changes |
| Coordinator.Coordinator.Remove | lib/redis/mongo.ts:76-79 | The key document and all its rows go |
| Coordinator.Coordinator.InsertAll | lib/redis/mongo.ts:163-168 | Rows are added one position after the other; it fails exactly when a position is not a safe integer |
| Coordinator.Coordinator.Push | lib/redis/mongo.ts:161-171 | RPUSH and LPUSH append to the abstract list and answer its length, or change nothing: for a scalar, or exactly when a position would not be a safe integer |
| Coordinator.Coordinator.Narrow | lib/redis/mongo.ts:197-201 | Dropping the rows outside a range and moving head and tail leaves exactly the values inside |
| Coordinator.Coordinator.LLen | lib/redis/mongo.ts:159-160 | LLEN is the length of the abstract list |
| Coordinator.Coordinator.LPop | lib/redis/mongo.ts:172-185 | LPOP takes a prefix of the abstract list and deletes an emptied key; its "inconsistent" error is unreachable |
| Coordinator.Coordinator.LRange | lib/redis/mongo.ts:186-195 | LRANGE is the clamped slice of the abstract list; its "inconsistent" error is unreachable |
| Coordinator.Coordinator.LTrim | lib/redis/mongo.ts:196-201 | LTRIM leaves exactly the clamped slice, and deletes the key when that is empty |
| Coordinator.Coordinator.Expire | lib/redis/mongo.ts:113-125 | Expiry moves with the key and every row of its live generation; a non-positive duration deletes |
| Coordinator.Coordinator.Del | lib/redis/mongo.ts:96-103 | DEL leaves the key absent and counts only a live one |
| Coordinator.Coordinator.RunReaper | lib/redis/mongo.ts:66-84 | Running the reaper between any two operations keeps soundness and every value |
| Coordinator.Coordinator.Tick | lib/redis/mongo.ts:69-72 | The clock moving keeps soundness |
| Coordinator.StaleRowsUnseen | lib/redis/mongo.ts:157-158 | Rows of an earlier generation of a key are never seen, present or deleted |
| Coordinator.ListCellsAreNotEmpty | lib/redis/mongo.ts:182-183 | A live list is never empty |
| Coordinator.QueueCommands | lib/redis/mongo.ts:186-201 | The LRANGE and LTRIM the flush workers send are the prefix and the rest of their queue |
| Coordinator.SliceSpelled | lib/redis/mongo.ts:186-199 | An index pair names the positions between both, inclusively; negative indexes count from the end, and both are clamped to the list |
| Coordinator.SeenUntilExpiry | lib/redis/mongo.ts:66-74 | A key is seen exactly while it has a document without expiry or with one still to come |
| Coordinator.RoomSpelled | lib/redis/mongo.ts:163-165 | A push succeeds in its positions exactly when every one it takes is a safe integer |
| RelayRun.Relay.ReleaseTheLease | lib/relay/pipeline.ts:154-158 | The lease is released on the first call and never again |
| RelayRun.Relay.SettleStart | lib/relay/pipeline.ts:187-207 | Only the first settle finalizes, and it takes the hold from the refund path |
| RelayRun.Relay.SettleResume | lib/relay/pipeline.ts:205-237 | After finalizing, fault or not, tokens are charged, usage is recorded and the lease released, in that order |
| RelayRun.Relay.CatchError | lib/relay/pipeline.ts:463-464 | The catch path releases exactly when the hold is still the request's |
| RelayRun.Relay.Finish | lib/relay/pipeline.ts:362-384 | A stream is finished at most once and settles what it finished |
| RelayRun.Relay.ResumeStarting | lib/relay/pipeline.ts:165-188 | Before the hold, any failure goes to the catch path; success takes the hold |
| RelayRun.Relay.ResumeRelaying | lib/relay/pipeline.ts:243-390 | Retry failure, missing body, bad JSON, failed conversion, buffered answer and stream each take their own exit |
| RelayRun.Relay.ResumeFailing | lib/relay/pipeline.ts:309-314 | Every failing exit releases the lease before it throws |
| RelayRun.Relay.ResumeMainSettle | lib/relay/pipeline.ts:324-335 | A buffered answer is returned only after its settlement |
| RelayRun.Relay.ResumePull | lib/relay/pipeline.ts:392-445 | Each read answer takes its branch: an error note, a payload or nothing is written, and the stream goes on, waits for the next pull, or ends; nothing happens after it was finished elsewhere |
| RelayRun.Relay.ResumePullSettle | lib/relay/pipeline.ts:373-384 | The controller is closed only if nobody cancelled, and errored on a settlement fault |
| RelayRun.Relay.CancelStream | lib/relay/pipeline.ts:447-459 | Cancelling marks the stream finished before it settles |
| RelayRun.Relay.ResumeCancel | lib/relay/pipeline.ts:451-459 | The cancel callback ends when its settlement does |
| RelayRun.StepKeepsInv | lib/relay/pipeline.ts:137-492 | Every step of request thread, pull and cancel keeps the run's invariant |
| RelayRun.RunIsSafe | lib/relay/pipeline.ts:152-237 | In every interleaving hold and lease are each given up at most once, nothing is released once settling began, and no closed or cancelled stream is written to |
| RelayRun.FinishedRunIsResolved | lib/relay/pipeline.ts:303-492 | A run that is over attempted exactly one of finalize or release if it had a hold, released its lease exactly once, and recorded usage |
| RelayRun.SecondRowExactly | lib/relay/pipeline.ts:187-236 | A finished run attempts a second usage row exactly when it is buffered and its finalize call, after five awaits that went well, was answered with a fault |
| RelayRun.SecondRowHappens | lib/relay/pipeline.ts:463-489 | Such a run exists |
| RelayRun.Drive | lib/relay/pipeline.ts:137-492 | The object driven through any events is the run the theorems speak about |
| RelayRun.EveryRunCanEnd | lib/relay/pipeline.ts:137-492 | No reachable state is stuck: answering what is awaited and hanging up ends the run |
| RelayDelivery.StreamDelivers | lib/relay/pipeline.ts:386-459 | In every run of a stream the client is sent the head and then, in order, what each live read puts on it; the stream is over exactly when a live read failed, ended, could not be translated or was the last item, or the client hung up, and is settled with the status of the first of these |
| RelayDelivery.UndisturbedStream | lib/relay/pipeline.ts:386-445 | Nobody interfering, every item of the upstream is handed on, whatever their number, then the stream settles once with the status of its last read, and closes, or errors when finalizing failed |
| RelayDelivery.RequestFollowsAnswers | lib/relay/pipeline.ts:165-390 | For any answers a finished request took a hold exactly when its first three awaits went well, finalized it exactly when the upstream call, and for a buffered answer its reading, went well too, released it otherwise, and returned exactly when finalizing went well |
| TokenBucket.BucketKey.TokenBucket | lib/redis/scripts.ts:92-119 | One call reads the refilled level, takes the cost if it is covered, and stores level, time and expiry; the answer carries the delay |
| TokenBucket.LimitOutlastsRefill | lib/ratelimit/index.ts:75-86 | The time to live the caller chooses outlasts a refill from empty, for every positive limit |
| TokenBucket.ExpiredIsFull | lib/redis/scripts.ts:103-106 | A key that expired would have been full |
| TokenBucket.AdmittedBounded | lib/redis/scripts.ts:92-119 | From any state, admitted cost is at most the level plus the refill |
| TokenBucket.IntervalBound | lib/ratelimit/index.ts:75-86 | Whatever came before, the cost admitted between two moments is at most capacity + refill * seconds |
| TokenBucket.AskAll | lib/redis/scripts.ts:92-119 | Any requests through the key give the answers the theorems speak about |
| TokenBucket.ExpiryIsUnobservable | lib/redis/scripts.ts:117-118 | Losing the key at its expiry never changes an answer of any run |
| TokenBucket.RetryIsExact | lib/redis/scripts.ts:112-116 | A refused request that comes back undisturbed is admitted exactly from the returned delay on, and never if it costs more than the capacity |
| TokenBucket.TakeSpelled | lib/redis/scripts.ts:101-118 | One call in numbers: the stored tokens with refill * seconds, up to the capacity, or a full bucket when the key is gone, cover the cost or not; what is left is stored and floored into the answer |
| TokenBucket.LimitGains | lib/ratelimit/index.ts:75-86 | A per-minute limit is the capacity and refills by a sixtieth of it each second |
| TokenBucket.AdmitsExactlyConforming | lib/redis/scripts.ts:92-119 | From a full bucket every request of a run is let through exactly when, from each request on, the costs stay within the capacity plus the refill since then |
| ZsetLimiters.ZsetKey.RunSlidingSuccess | lib/redis/scripts.ts:142-157 | Trim, count, add and expire as one script |
| ZsetLimiters.ZsetKey.RunConcurrency | lib/redis/scripts.ts:60-67 | Trim, count, add and expire as one script |
| ZsetLimiters.Lease.Release | lib/ratelimit/index.ts:218-230 | A lease sends one removal of its own member, however often it is released |
| ZsetLimiters.TrimIsRecent | lib/redis/scripts.ts:60-62 | Trimming and key expiry drop nothing that is still recent |
| ZsetLimiters.NoWindowOverflows | lib/ratelimit/index.ts:168-184 | In every run no window of the configured length, wherever it ends, holds admissions of more ids than the limit |
| ZsetLimiters.NoWindowHoldsMore | lib/ratelimit/index.ts:168-184 | A window in which no id was admitted twice holds at most the limit of admissions, counted request by request |
| ZsetLimiters.AdmissionsPerId | lib/redis/scripts.ts:142-157 | A window holds at least as many admissions as different ids, and as many exactly when no id was admitted twice in it |
| ZsetLimiters.AdmitsExactlyBelowLimit | lib/redis/scripts.ts:151-156 | After any run a request is admitted exactly when fewer ids than the limit were admitted in the window |
| ZsetLimiters.RepeatedIdSlipsThrough | lib/redis/scripts.ts:154 | Ids must differ: for every n, one id that asks n times at once is admitted n times in one window, whatever the limit above one |
| ZsetLimiters.AskAll | lib/redis/scripts.ts:142-157 | Any requests through the key get exactly the answers of the window run the theorems speak about, and leave its key |
| ZsetLimiters.RunGate | lib/redis/scripts.ts:60-67 | Any acquisitions and releases through the key are the gate run the theorems speak about |
| ZsetLimiters.GateNeverOverflows | lib/ratelimit/index.ts:195-229 | At every moment of every run at most the limit of leases are unexpired and unreleased |
| ZsetLimiters.GateRefusesExactly | lib/redis/scripts.ts:61-63 | A lease is refused exactly when the limit of unexpired members is unremoved |
| ZsetLimiters.ReleaseEndsOnlyItsOwn | lib/ratelimit/index.ts:188-194 | A late, repeated or lost release ends no lease but its own |
| JsonBounds.ChildrenMeasure | lib/util/json.ts:81-83 | A value's size and depth are one more than its children's |
| JsonBounds.PushAll | lib/util/json.ts:88 | Pushing children adds exactly their size and depth to what is left to visit |
| JsonBounds.AssertJsonLimits | lib/util/json.ts:66-90 | The walk accepts exactly the values within both limits, names a limit that is broken when it refuses, terminates, and never has more than maxNodes entries waiting |
| JsonBounds.JsonDepth | lib/util/json.ts:93-111 | The iterative depth is the nesting depth |
| JsonBounds.SanitizedIsClean | lib/util/json.ts:50-64 | No forbidden key is left at any depth |
| JsonBounds.SanitizingIsIdempotent | lib/util/json.ts:50-64 | Sanitising changes exactly the values that hold a forbidden key, and only once |
| JsonBounds.SanitizingShrinks | lib/util/json.ts:50-64 | Sanitising never increases size or depth |
| JsonBounds.FieldsSurvive | lib/util/json.ts:57-60 | A field survives exactly when its key is allowed, with its own value sanitised |
| JsonBounds.SanitizeParsed | lib/util/json.ts:44-48 | A value is refused exactly outside the limits; what is returned is clean and within them |
| JsonBounds.SanitizedPassesAgain | lib/util/json.ts:44-48 | What passed once passes again, unchanged |
| MessageConversion.ToAnthropicBlocks | lib/transform/anthropic.ts:79-113 | Each understood part becomes its block, in order; empty and unknown parts vanish |
| MessageConversion.TurnList.AppendMessage | lib/transform/anthropic.ts:268-279 | A message of the last turn's role is pushed into that turn, any other opens one |
| MessageConversion.TurnList.Add | lib/transform/anthropic.ts:192-231 | One message goes to the system field, to a user turn as a tool result, or to its own role's turn |
| MessageConversion.OpenaiToAnthropicMessages | lib/transform/anthropic.ts:188-231 | Messages are folded in order; the first unknown role refuses the request |
| MessageConversion.OpenaiToAnthropicRequest | lib/transform/anthropic.ts:188-266 | The message loop and the other fields produce exactly the conversion whose shape and round trip are proved below, or its refusal |
| MessageConversion.AddMessagesKeep | lib/transform/anthropic.ts:268-279 | Adding messages keeps roles alternating and adds exactly their blocks under their roles |
| MessageConversion.SystemStaysApart | lib/transform/anthropic.ts:206-209 | System messages leave no trace in the turns, other messages none in the system field |
| MessageConversion.ConvertedShape | lib/transform/anthropic.ts:180-279 | A request is refused exactly for an unknown role; otherwise its turns strictly alternate, are non-empty and hold exactly the messages' blocks in order under their roles, with only system and developer messages in the system field |
| MessageConversion.FromAnthropicBlocks | lib/transform/anthropic.ts:115-150 | Texts and thoughts are concatenated and tool uses collected, in order |
| MessageConversion.ConvertTurn | lib/transform/anthropic.ts:370-402 | Tool results come first as messages of their own, then what the turn says, if anything |
| MessageConversion.AnthropicToOpenaiRequest | lib/transform/anthropic.ts:347-427 | The turn loop and the other fields produce exactly the conversion whose round trip is proved below, or its refusal |
| MessageConversion.ConvertedIsAccepted | lib/transform/anthropic.ts:347-427 | What the converter makes of an accepted Anthropic request is never refused on the way back |
| ConversionMeaning.ImageKeepsUrl | lib/transform/anthropic.ts:92-104 | An image URL can be told back from the image it becomes, and what is sent as base64 has a media type |
| ConversionMeaning.DataUrlIsSplit | lib/transform/anthropic.ts:95-101 | Every base64 data URL is split into its media type and its data |
| ConversionMeaning.ContentSpelled | lib/transform/anthropic.ts:79-113 | The blocks of a content stand for its texts and images that are not empty, all of them, in order, and nothing else |
| ConversionMeaning.KnownRoles | lib/transform/anthropic.ts:29 | Exactly six roles are known |
| ConversionMeaning.MessageSpelled | lib/transform/anthropic.ts:193-231 | A message gives its turn nothing if it is the system's, a result block if a tool's, its content's blocks if anyone else's, with an assistant's tool uses after them |
| ConversionMeaning.CallsSpelled | lib/transform/anthropic.ts:219-227 | Every tool call becomes one tool use in its place with its id, or a made-up one, its name and its arguments |
| ConversionMeaning.ArgumentsSpelled | lib/transform/anthropic.ts:281-291 | Arguments that are an object stay; the text of an object within the limits is parsed and sanitised; anything else is an empty object |
| ConversionMeaning.FieldsToAnthropic | lib/transform/anthropic.ts:233-263 | max_tokens, else max_completion_tokens, else 4096; a stop text becomes a list of one; a named tool choice without name is dropped |
| ConversionMeaning.ToolsKept | lib/transform/anthropic.ts:249-261 | Every tool keeps its place, name and description; a schema that is no object becomes an empty object schema |
| ConversionMeaning.TextInOrder | lib/transform/anthropic.ts:123-131 | Texts are joined in order; thoughts and tool uses stay out of them |
| ConversionMeaning.ThoughtsInOrder | lib/transform/anthropic.ts:132-134 | Thoughts are joined in order |
| ConversionMeaning.CallsInOrder | lib/transform/anthropic.ts:135-144 | Each tool use becomes a call in order, its input as JSON text, no input as an empty object |
| ConversionMeaning.TurnSpelled | lib/transform/anthropic.ts:369-395 | A turn becomes its tool results as messages of their own and then one message with its text and calls, unless it has neither text nor call nor thought |
| ConversionMeaning.ResultsSpelled | lib/transform/anthropic.ts:371-384 | Each tool result becomes a tool message in order, with its id and its text or joined texts |
| ConversionMeaning.SystemSpelled | lib/transform/anthropic.ts:351-360 | The system field is the leading system message unless it is empty |
| ConversionMeaning.LinesJoined | lib/transform/anthropic.ts:357-359 | System texts are joined by line feeds |
| ConversionMeaning.FieldsToOpenai | lib/transform/anthropic.ts:397-405 | max_tokens or 4096, and the stop sequences as a list |
| ConversionRoundTrip.UserReturns | lib/transform/anthropic.ts:370-402 | A normal user turn comes back as that turn |
| ConversionRoundTrip.AssistantReturns | lib/transform/anthropic.ts:388-402 | A normal assistant turn comes back as that turn, tool inputs included |
| ConversionRoundTrip.SystemReturns | lib/transform/anthropic.ts:351-360 | The system field comes back and adds no turn |
| ConversionRoundTrip.ConversionRoundTrips | lib/transform/anthropic.ts:188-279 | A normal-form Anthropic request is unchanged by the way to OpenAI and back |
| Sorting.SortDown | lib/routing/election.ts:38 | Distinct priorities, or block indexes, are sorted strictly decreasing, none lost |
| Election.GroupByPriority | lib/routing/election.ts:31-37 | The map holds, per priority seen, its candidates in order; its keys are remembered once each |
| Election.TiersPartition | lib/routing/election.ts:30-39 | The tiers are an order-preserving partition by priority, strictly decreasing, none empty |
| Election.TiersOf | lib/routing/election.ts:30-39 | The grouping map, sorted, gives exactly those tiers |
| Election.StopsInShare | lib/routing/election.ts:52-57 | The walk stops at a candidate exactly for the cursors in its stretch of the total |
| Election.FallbackUnreachable | lib/routing/election.ts:41-47 | No draw below 1 reaches the fallback after the walk |
| Election.DrawnByShare | lib/routing/election.ts:52-58 | Of the whole cursors below the total, as many draw a candidate as its share of max(0, weight) + 10, exactly when that is whole and within one otherwise, and at least ten: none starves |
| Election.DrawnExactly | lib/routing/election.ts:48-59 | In a tier of several the draw is the candidate in whose stretch of the summed shares the cursor falls |
| Election.ScaledSpelled | lib/routing/election.ts:53 | The cursor is the random number times the total |
| Election.SharesSpelled | lib/routing/election.ts:52-55 | Along a tier the summed share grows by each candidate's weight, not below zero, and ten |
| Election.WeightedPick | lib/routing/election.ts:48-59 | The subtracting loop draws the candidate whose stretch holds the cursor, and the only candidate of a tier of one |
| Election.ElectedHolds | lib/routing/election.ts:67-86 | The draw is made in the tier of the attempt, or in the last; the preferred channel wins on the first attempt exactly when it is in the top tier |
| Election.ElectFrom | lib/routing/election.ts:67-86 | The election gives that candidate, and none only for no candidates |
| Retry.RetryableStatuses | lib/http/errors.ts:316-327 | The retried statuses are exactly 100-599 without 2xx, 400, 408, 504 and 524 |
| Retry.ElectAndVerify | lib/routing/index.ts:89-125 | A candidate is returned only after a fresh read confirmed it; none means every candidate, or eight different ones, were elected, read and refused; a fault of a read ends the search |
| Retry.SelectChannel | lib/routing/index.ts:49-87 | A selected channel is listed, untried, behind no open breaker and freshly confirmed; none is selected only when every such candidate, or eight of them, were read and refused; otherwise a read of such a candidate failed |
| Retry.WithChannelRetry | lib/routing/retry.ts:80-164 | The outcome, the channels on the way and the calls are exactly those the world forces; at most maxAttempts calls, on pairwise distinct channels, each freshly confirmed, none after a failure not worth another channel; the result is the first success, a recorded failure, or the fault that broke a selection, or says the client left or nothing is selectable |
| Retry.RetriesAreBounded | lib/routing/retry.ts:80-164 | Those bounds hold of every way the checks, selections and answers can go |
| Retry.OutcomeIsForced | lib/routing/retry.ts:80-164 | A world forces one outcome, one list of channels and so one list of calls |
| RetryOutcomes.FinalIsNotRetried | lib/routing/retry.ts:64-72 | A failure is not retried exactly when it is a malformed body, a 499, an upstream status outside 100-599 or in 200-299, 400, 408, 504 or 524, or has no upstream status and is not marked retryable |
| RetryOutcomes.EndsExactly | lib/routing/retry.ts:80-164 | The outcome of every path in the world's own answers: success of the last call, its failure at once when final, its failure when attempts or time are used up, an abort when the client left, or what the next selection came to |
| RetryOutcomes.GivesUpExactly | lib/routing/retry.ts:142 | A request gives up as not worth another channel exactly when its last call failed for good |
| RetryOutcomes.GoesOn | lib/routing/retry.ts:142-160 | Any other failure with attempts and time left and no abort is followed by the channel selected next |
| RetryOutcomes.ChosenAreOpen | lib/routing/index.ts:117-119 | Every channel called was found in its own attempt enabled, open to the caller's group and with the model |
| RetryOutcomes.SelectionElects | lib/routing/index.ts:49-122 | The channel of an attempt, and those read in vain before it, are elected in turn, with the attempt's number, affinity and draws, among the untried channels behind no open breaker |
| Addresses.ParseIpv4 | lib/auth/cidr.ts:12-29 | Accepts exactly four decimal octets without leading zeros |
| Addresses.ParseGroup | lib/auth/cidr.ts:37-48 | A group is one to four hex digits, or a dotted tail in last place only |
| Addresses.EmitGroups | lib/auth/cidr.ts:34-54 | Fails exactly for a malformed or overflowing list; otherwise writes its bytes at the offset and touches nothing else |
| Addresses.AssembleHalves | lib/auth/cidr.ts:78-92 | The buffers are laid front and back with zeros between, refused when no group is left for "::" |
| Addresses.ParseIpv6 | lib/auth/cidr.ts:56-93 | The text between brackets and before a zone is read with at most one "::", both halves laid into sixteen bytes, or refused: the reading the theorems below speak about |
| Addresses.IpToBytes | lib/auth/cidr.ts:100-116 | An address is 4 bytes, 16 bytes, or nothing |
| Addresses.JoinedSplits | lib/auth/cidr.ts:68-75 | Splitting a joined list of groups gives the groups back |
| Addresses.CompressionExpands | lib/auth/cidr.ts:63-92 | A "::" text of hex groups, however many, parses exactly when fewer than eight are there, and to the bytes of its zero-expanded form |
| Addresses.MappedIsIpv4 | lib/auth/cidr.ts:95-116 | An IPv4-mapped IPv6 text is the IPv4 address: a v4 rule still matches that client |
| AddressTexts.Ipv4IsDotted | lib/auth/cidr.ts:12-29 | A text is an IPv4 address exactly when it is its four bytes in decimal without leading zeros, joined by dots |
| AddressTexts.FourHexDigits | lib/auth/cidr.ts:47-50 | A group of four hex digits is two bytes, the higher first |
| AddressTexts.HexDigitIsPlace | lib/auth/cidr.ts:31 | A hex digit of either case counts as its place in the row of digits |
| AddressTexts.LeadingZeroOmitted | lib/auth/cidr.ts:31 | Leading zeros of a group may be left out |
| AddressTexts.FullTextIsBytes | lib/auth/cidr.ts:56-93 | The eight groups of sixteen bytes, written out, are read as those bytes |
| AddressTexts.MalformedGroupRefused | lib/auth/cidr.ts:37-48 | One group that is neither one to four hex digits nor a dotted quad in last place refuses the text |
| AddressTexts.TwoPairsRefused | lib/auth/cidr.ts:64-65 | A text with two "::" is refused |
| AddressTexts.TextIsAddress | lib/auth/cidr.ts:95-116 | The usual text of four or sixteen bytes is read as them, an IPv4-mapped one as its IPv4 address |
| AddressTexts.SpaceAroundIgnored | lib/auth/cidr.ts:100-101 | White space around an address or a rule does not count |
| Cidr.ParseCidr | lib/auth/cidr.ts:125-143 | A rule is an address with a prefix length of at most its width, or its full width |
| Cidr.MaskIsBitwise | lib/auth/cidr.ts:158-160 | The arithmetic mask is the bitwise mask on bytes |
| Cidr.WholeBytes | lib/auth/cidr.ts:153-156 | Agreeing on whole bytes is agreeing after division by the rest |
| Cidr.SplitByte | lib/auth/cidr.ts:157-160 | Agreeing under the mask of a split byte is agreeing after division by the rest |
| Cidr.CidrContains | lib/auth/cidr.ts:146-161 | Holds exactly when both parse, are of one family and agree after integer division by 2^(width - bits) |
| Cidr.Matches | lib/auth/cidr.ts:150-161 | The byte and mask comparison decides the same block |
| Cidr.MatchesAnyCidr | lib/auth/cidr.ts:164-169 | True exactly when some rule contains the address |
| Cidr.WiderBlock | lib/auth/cidr.ts:146-161 | A shorter prefix is the longer one divided further |
| Cidr.NestedOrDisjoint | lib/auth/cidr.ts:146-161 | Of two rules the longer lies inside the shorter, or no address is in both |
| AddressTexts.RuleReadsBack | lib/auth/cidr.ts:125-143 | "address/bits" is read as that rule exactly when the prefix length is within the width |
| AddressTexts.BareRule | lib/auth/cidr.ts:130-133 | An address without a prefix length is the rule of that one address |
| AddressTexts.RuleContains | lib/auth/cidr.ts:146-161 | The written rule contains the written address exactly when both are of one family and lie in one block of the rule's size |
| AddressTexts.NetworkSpelled | lib/auth/cidr.ts:146-161 | The block is the address as a big-endian number divided by two to the power of the remaining bits |
| AddressTexts.AnyRuleMatches | lib/auth/cidr.ts:164-169 | A list of rules matches exactly when one of them contains the address |

## Left out

- Interface pages, route handlers, sessions, OAuth, password hashing, encryption, DNS checks, fetches and timers: presentation, cryptography and I/O.
- Pricing and usage normalisation: mostly one floating-point expression; charges are inputs of the ledger.
- Rounding: bucket levels, random draws and cursors are reals, where the program has doubles.
- Concurrent flush workers inside the imperative flush methods: the methods run undisturbed; interleaving, crashes and lapsing leases are in the step systems `LeasedQueue`, `SettlementReplay` and `UsageFlush`.
- SettlementReplay.SettlementStore.FlushQuotaSettlements: does not model an entry that is not JSON, which makes the flush throw like one without its ids.
- UsageFlush.UsageBuffer.RecordUsage: does not model how a row is computed from its request; month and hour are fields of the row.
- UsageLedger.RedeliveryChangesNothing: does not model the time to live of usage rows; a row redelivered after its 180 days would be counted again.
- LedgerRuns.RunConserves: does not cover the migration that overwrites balances and caps of an earlier ledger version.
- Coordinator.Coordinator.Push: does not model the argument count, key length and value size guards, which refuse a command before it reads anything.
- Coordinator.Coordinator.LRange: does not model the parsing of index texts to integers.
- Hashes, sorted sets and scalars of the coordination store: kept as one opaque document; the limiters and the lock are modelled on the store's commands instead.
- The fixed window limiter, the health and next-key scripts, and the superseded reserve, settle and release scripts: easier than the three limiters modelled.
- TokenBucket.IntervalBound: is for one limit; a limit changed in mid-run is not covered.
- AnthropicStream.AnthropicFramer.Frame: yields events where the program writes their frames; `AnthropicWire` prints them.
- AnthropicRoundTrip.StreamTranslator.HandleEvent: does not model the chunk envelope (id, time, model) or the error text, which are constants of the stream.
- The OpenAI and Gemini framers and translators: no state, or less of it than the Anthropic ones.
- MessageConversion.OpenaiToAnthropicRequest: does not model the sanitising of the whole body before conversion, so a body near the node limit, which may pass one way and not the other, is not covered; tool arguments are bounded and sanitised.
- MessageConversion.AnthropicToOpenaiRequest: does not model that sanitising either.
- MessageConversion.ToAnthropicBlocks: one name stands for every made-up tool id.
- Response conversion and usage maps: field copies.
- RelayRun.StepKeepsInv: does not model deadlines or the client's abort before the response; they are failures of the awaited call.
- Retry.WithChannelRetry: does not model which key is picked, affinity writes or back-off lengths.
- Cidr.CidrContains: the mask is arithmetic on numbers; `Cidr.MaskIsBitwise` ties it to the bitwise one.
- Addresses.IpToBytes: characters outside the basic plane are one character where the program sees two, which matters only for the length of a zone.
