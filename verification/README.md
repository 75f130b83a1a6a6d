# Verified model of Paseka's durable logs, projections and coordinators

Paseka writes down what its agents decided, publishes it to a broker, and has to survive being stopped between the
two. This project models that machinery in Dafny and proves what it promises: the deferred event queue with its
recording publisher and its verifier, the write-ahead record of a cue, the race for a trail's honey seed, the
normalisation and paging of transcripts, two lock-based coordinators, and a few loops whose arithmetic is easy to
get wrong. `dafny verify dfyconfig.toml` checks everything.

## How it is modelled

**Logs, crashes and retries** (`Journal`, `Station`, `Deferred`, `FlushHistory`, `FlushOrder`, `FlushVerify`, `Emit`,
`CueIngress`, `CueOrder`, and, for what a call's answer is worth, `FlushAnswers`, `EmitAnswers`, `CueAnswers`). A
`State` holds what is durable for one run: the pending file, the trail's record, the run's audit log, the broker's
stream, the trail's origin, the cue records. Every durable step consumes one answer of the environment, its *fate*: all
of it happened, nothing happened and an error came back, or all of it happened and yet an error came back. A step whose fate is
missing is where the process died. Every point between two durable steps is therefore the end state of some attempt,
and a theorem over all lists of attempts with all lists of fates is a theorem about every reachable point of every
interrupted and retried call. Each source method is a Dafny method on the class `Station`, with the source's branches
and loops, proved equal to a function on `State`; the histories are proved about the function.

**Races** (`EnergySeed`, `SeedAnswers`, `ChromeHub`, `AdapterProber`). Processes, requests or goroutines with a program counter, and
a scheduler that picks who moves next and what the environment answers. Critical sections are atomic. The invariants
hold after every list of moves; the class methods beside them are the sections as code.

**Transformations** (`Transcript`, `TranscriptParts`, `Dialogue`, `DialoguePages`, `Paging`, `ToolResults`, `Verify`,
`CommandLine`, `TraceTitle`, `Topology`, `Itoa`). Loops with their variables, each proved against a function of the input, and the promises proved about that
function. Where Go's strings matter as bytes (`Utf8`) they are bytes; elsewhere a string is a sequence of code points.
64-bit overflow is modelled where it can show (`TranscriptWindow.bounds`, `itoa`).

## What the code does and its documentation does not say

- Rewriting the pending file is not atomic (`internal/runs/pending.go:78-104` truncates and then writes).
  `CrashSafeFifo` says that the queue is kept whole exactly when no rewrite was cut short in any attempt
  (`NeverCut`); `CutRewriteLosesEvents` gives the run in which one is. Half a line left by an
  append or a rewrite stops the run's queue for good, discards included (`HalfLineIsForGood`, `SpoiltQueueStays`).
- A flush need not have a broker: a colony without one flushes through `LocalPublisher`
  (`internal/bus/deferred.go:321-326`). What left the queue is then in the trail's record, in order
  (`RecordedInOrder`), and not on the stream; `StreamHoldsWhatLeftIff` is exact about the publishers.
- Appending to the trail's record is best effort for a client (`internal/bus/client.go:104-147`). Record and stream
  agree as long as no append is refused; `DivergesExactlyWhenTheRecordIsRefused` says of one publish, and
  `HistoryRunsAheadIff` of any history, exactly when something is on the stream alone; `NeverAheadIff` says through
  which publishers, and with which of them possibly refused, nothing ever is.
- An event that is none of the four domain types is popped from the queue without being recorded or published
  (`HeadOnStreamIffClient`).
- `internal/energy/seed.go:22-23` speaks of exactly one observation. One seed wins, but two callers that both read it
  unpublished both send it (`RacingCallersObserveTwice`). `MostObservations` gives the exact maximum,
  `AtMostOneObservationIff` the exact condition, and `LaterCallObservesNothing` what holds of calls one after another.
- The published flags of seeds and cues are also raised by publishers that never reach a broker, although
  `ConfirmsPublication` exists to tell them apart. `PublishedMeansObservedIff` is exact about the callers of a seed,
  `FlagsAreTrueIffTheBrokerConfirms` about one first publication of a cue, `FlagsHoldIff` about its whole history.
- A cue replayed through such a publisher and then through a client can also reach the stream out of order, or
  without its observation; `OrderHoldsIff` says exactly when it cannot.
- `TranscriptWindow.bounds` adds offset and limit in 64 bits; `BoundsAreASliceIffNoOverflow` is the exact condition.
- The dialogue does not depend on the mask over the whole window, but a page counts the turns its mask kept:
  `PagesDependOnTheMask` shows two first pages that differ, `FirstPagesAgreeIff` says exactly when they agree.
- The splitter widens every octet from 0x80 on to two and drops empty arguments; `SplitReturnsTheArguments` is exact.
  It trims characters and splits octets: a longer white-space character outside quotes is lost at the ends of a line
  (`WideSpaceIsLost`) and part of a word within it; `SplitInvertsQuoting` is exact about that.
- `itoa` prints `-` for the least 64-bit integer and writes outside its buffer beyond 16 characters;
  `SafeExactlyWhenItFits` and `PrintedReadsBack` are exact.

## Model

| member | source | states |
|---|---|---|
| Stations.Station.RewritePending | internal/runs/pending.go:78-112 | the pending file after a rewrite or a removal: replaced, untouched, or cut short after truncation, with the error each reports |
| Stations.Station.MintEventId | internal/bus/deferred.go:136-149 | a minted id is non-empty and held by no durable place, or the random source failed |
| Stations.Station.Record | internal/bus/record.go:25-43 | the record gains the event of its own trace, and nothing for blank traces, unknown types or a missing colony root |
| Stations.Station.EnsureOrigin | internal/runs/trail_origin.go:73-110 | the first origin written stays |
| Stations.Station.PublishEvent | internal/bus/client.go:104-147 | admission, then the record, best effort, then the broker, for each kind of publisher |
| Stations.Station.Admit | internal/bus/client.go:108-119 | binding a trail that has not started: configuration, then origin, the run's own trail or another, with which of the two failed |
| Stations.Station.AppendRunAudit | internal/bus/event_emit.go:264-288 | the audit log of the run the event names, which must exist, gains the event |
| Stations.Station.QueuePending | internal/runs/pending.go:24-46 | the queue grows at its end; an append cut short within its line spoils the file, and nothing is queued behind half a line |
| Stations.Station.SaveInvocation | internal/runs/cue_invocations.go:87-105 | a cue record is replaced whole or not at all |
| Journal.PublishEffect | internal/bus/client.go:104-147 | whatever a publish answers, the stream gained at most this one event, and success through a connected client means it did if its type is a domain type |
| Journal.PublishRecords | internal/bus/record.go:25-57 | success through the file-only publisher, or through a client no append is refused to, means the record gained the event |
| Journal.RewriteEffect | internal/runs/pending.go:78-112 | a rewrite leaves the old queue or all of the new one exactly when it is not cut short, a proper prefix otherwise, and all of the new one when it reports success |
| Deferred.NameHead | internal/bus/deferred.go:129-154 | a missing identity is minted and put back in the queue before anything is published |
| Deferred.PublishHead | internal/bus/deferred.go:155-200 | stamp, check file references, publish, audit, pop: what is durable after each way of stopping |
| Deferred.Flush | internal/bus/deferred.go:79-209 | the whole call, with its early answers, its discard branch and its loop |
| Deferred.IdentifyMints | internal/bus/deferred.go:129-154 | the queue changes only if its head lacked an identity; the one minted is fresh, and the queue is put back whole exactly when the rewrite is not cut short |
| Deferred.IdentifyEffect | internal/bus/deferred.go:129-154 | a flush goes on only with an identified head at the front of the same queue, and answers only with the queue untouched |
| Deferred.FlushAccounts | internal/bus/deferred.go:79-209 | for a call that returns without a Go error, what left the front of the queue is exactly published plus discarded, the rest is the same queue, and OK means empty |
| Deferred.DiscardTouchesNoLog | internal/bus/deferred.go:104-114 | a discard changes neither stream nor record nor audit log, and empties the queue or leaves it |
| FlushOrder.CrashSafeFifo | internal/bus/deferred.go:127-201 | over any history of failed and crashed flushes through any publishers: stream, record and audit log replay the queue in its order, each event under one identity, ahead of the queue by at most its head; of the events that left, the stream misses none sent through a client, the record none of an attempt that records, the audit log none of the run's own; the rest is still queued, all of it exactly when no rewrite of the file was cut short |
| FlushOrder.FifoByIdentity | internal/bus/deferred.go:127-201 | through clients, first occurrences by id on the stream are those of the events that left the queue, in order, followed at most by the head's; no two events share an id |
| FlushOrder.RecordedInOrder | internal/bus/record.go:45-57 | through the file-only publisher, whatever its environment answers, first occurrences by id in the trail's record are those of the events that left, in order, followed at most by the head's; the same for a client no append is refused to |
| FlushOrder.StreamHoldsWhatLeftIff | internal/bus/deferred.go:319-326 | every domain event that left is on the stream, in every history with these publishers, exactly when none of them is file-only |
| FlushOrder.HeadOnStreamIffClient | internal/bus/deferred.go:155-200 | a head that leaves the queue was put on the stream exactly when the publisher is a client and the event is of a domain type; one that is not leaves without a record either |
| FlushHistory.MintKeepsApart | internal/bus/deferred.go:129-154 | a minted identity is shared with no other event of the queue's history, as long as some durable place knows those that left |
| FlushHistory.RetryKeeps | internal/bus/deferred.go:127-201 | the invariant behind all of these, at every point of every history, with the same exact condition for wholeness |
| FlushOrder.SuccessDrains | internal/bus/deferred.go:203-208 | an OK flush leaves an empty queue |
| FlushOrder.CutRewriteLosesEvents | internal/runs/pending.go:78-104 | the run in which a cut-short rewrite loses an event for good, whatever is retried |
| FlushAnswers.HeadRefusedIffWanting | internal/bus/deferred.go:155-259 | whatever the state, the publisher and the answers to come: a head is refused as file_ref_missing, with nothing done, exactly when its kind announces files and its payload does not decode, names none, or names one that is blank or not there |
| FlushAnswers.FlushHeedsFiles | internal/bus/deferred.go:127-201 | for any answers, a flush published only events whose files were there when it looked, and speaks of missing files only with such an event left at the front |
| FlushAnswers.UnhinderedFlushDelivers | internal/bus/deferred.go:79-209 | with nothing else in the way a flush delivers the queue exactly up to the first event that wants files, each once, in order, identified and stamped, to the audit log and its domain events to record and stream, binding a new trail; OK exactly if there is no such event |
| FlushAnswers.EveryRefusalHasItsName | internal/bus/deferred.go:155-200 | for any answers of record, broker, audit log and rewrite: which error or success the turn ends with, which logs gained the event, and whether it is still queued |
| FlushAnswers.CutShortHead | internal/runs/pending.go:86-103 | a rewrite cut short behind the logs leaves what had been written of the queue, half a line included, and a failed call |
| FlushAnswers.EveryAnswerIsNamed | internal/bus/deferred.go:79-125 | OK is the answer without an error and leaves no queue; run_not_found and nats_not_configured are given exactly for a missing run directory and a missing publisher with something to send, and change nothing; a spoilt queue is not answered for |
| Verify.ReadRecord | internal/bus/verify.go:84-98 | the loop over the record gathers identities, first occurrences and events without identity |
| Verify.MatchStream | internal/bus/verify.go:99-113 | the loop over the stream splits first occurrences by whether the record has them |
| Verify.VerifyTrace | internal/bus/verify.go:61-131 | the report is the comparison of the two logs, and refused for blank arguments or an unreadable side |
| Verify.CompareIsSetAlgebra | internal/bus/verify.go:84-129 | for any logs with any duplicates: both, local-only and bus-only are the intersection and the two differences of the id sets, free of duplicates and sorted; the counts add up; diverged iff the stream is complete and the id sets differ |
| Verify.RowsAreFirstLines | internal/bus/verify.go:84-118 | every row has id, type, kind, agent and time of the first line that carries its id, the stream's for both and bus-only, the record's for local-only |
| Verify.ReportIsOrdered | internal/bus/verify.go:143-151 | rows come by time to the millisecond and then by id in dictionary order |
| Order.StringLessIsDictionary | internal/bus/verify.go:149 | the order of strings is decided at the first character that differs, a proper prefix first |
| Verify.UnverifiableHoldsEveryUnnamed | internal/bus/verify.go:86-129 | every event without identity of both logs is reported, ordered by time and stably |
| FlushVerify.FlushMeetsVerify | internal/bus/verify.go:61-131 | at every point of every interrupted and retried flush a complete verification finds nothing on the stream alone and at most the queue's head in the record alone |
| FlushVerify.SuccessfulFlushAgrees | internal/bus/verify.go:44-46 | after an OK flush the logs do not diverge |
| FlushVerify.DivergesExactlyWhenTheRecordIsRefused | internal/bus/client.go:104-147 | for any answers, a new trail or not, an event tried before or not: from logs with nothing on the stream alone, a client's publish puts something there exactly when the broker took an event the record did not hold and an append was refused |
| FlushVerify.PublishRunsAheadIff | internal/bus/client.go:104-147 | the same of any publisher and any event, read off the two logs |
| FlushVerify.HistoryRunsAheadIff | internal/bus/verify.go:61-131 | over any history through any publishers the verifier finds something on the stream alone exactly when some event reached the broker in one attempt and the record in none |
| FlushVerify.NeverAheadIff | internal/bus/client.go:104-147 | for any list of publishers, each with or without leave for the disk to refuse it appends: no history of such attempts, from logs with nothing on the stream alone, puts anything there exactly when none of them is a connected client that keeps no record or may be refused one |
| Emit.Process | internal/bus/event_emit.go:22-222 | the deferred, dry-run and live paths, with every refusal under its own name |
| Emit.QueueEvent | internal/bus/deferred.go:211-228 | deferring files the event with the run it names, which must exist |
| Emit.SendNow | internal/bus/event_emit.go:137-212 | the live path: admission, audit log, and only then the publish |
| Emit.LiveEffect | internal/bus/event_emit.go:184-212 | an event of this run that a live emit put on the stream was in the audit log first |
| Emit.LiveOnlyKindsStayLive | internal/bus/deferred.go:17-57 | in any sequence of emits, flushes and discards no deny-listed kind is queued or reaches the stream by a flush, and every live-emitted event of the run on the stream is in its audit log |
| EmitAnswers.OkMeansDone | internal/bus/event_emit.go:70-222 | for any answers, an emit that answers OK did exactly what its mode promises: a dry run nothing; a deferral filed the stamped event at the end of its run's queue; a live emit audited it and, through a client, put it on the stream |
| EmitAnswers.LiveRefusalsHaveNames | internal/bus/event_emit.go:184-212 | for any answers of audit log, record and broker: audit_log_failed keeps the event from record and stream, publish_failed reports the broker, the record's refusal is silent, and which logs gained the event |
| EmitAnswers.NewTrailIsBoundFirst | internal/bus/event_emit.go:148-182 | a new trail is bound first, to configuration and origin; either failure has its name and nothing is sent, and a bound trail goes on as before |
| EmitAnswers.DeferRefusalsHaveNames | internal/bus/event_emit.go:78-125 | defer_denied, run_required and defer_failed, and exactly when the event is queued |
| EmitAnswers.SteeringIsNeverDeferred | internal/bus/deferred.go:15-57 | a deferral is denied exactly for the eleven kinds, whatever white space is around them |
| EmitAnswers.SpoiltQueueStays | internal/runs/pending.go:49-76 | with half a line in the pending file no emit, flush or discard ever changes the queue again, and no flush sends anything |
| EmitAnswers.HalfLineIsForGood | internal/runs/pending.go:24-46 | an append cut short within its line is reported as defer_failed and leaves such a file |
| CueIngress.PublishRecorded | internal/cues/ingress.go:95-135 | origin, record, observation, flag, then the events |
| CueIngress.PublishRest | internal/cues/ingress.go:121-133 | the loop over the events: skip what is flagged, publish, flag, save |
| CueIngress.Republish | internal/cues/ingress.go:141-157 | a recorded invocation is published from its record and reported as it was first; without publisher, colony root or record nothing happens |
| CueIngress.CueReplayIsSafe | internal/cues/ingress.go:95-157 | over any crash and retry history of publish and republish, through any publishers: nothing on the stream before record and origin are on disk; the recorded flags are a prefix with the observation first; no other record and no existing origin changes; and when no attempt goes through a file-only or no-op publisher, first occurrences follow the script and whatever is flagged was sent |
| CueIngress.ReplayMintsNothing | internal/cues/ingress.go:141-157 | through any publishers the stream gains no id the script does not have, so distinct ids never exceed one plus the recorded events |
| CueOrder.ReplayKeepsOrder | internal/cues/ingress.go:141-157 | first occurrences by id are a prefix of observation-then-events when those have different ids and no file-only or no-op attempt comes before one that reaches the broker |
| CueOrder.OrderHoldsIff | internal/cues/ingress.go:95-157 | for any list of publishers: every history of attempts through them, from any state, reaches the stream in the script's order exactly when none that flags without sending comes before one that reaches the broker |
| CueOrder.FlagsHoldIff | internal/cues/ingress.go:95-157 | for any list of publishers: every history of attempts through them leaves only flags that are true of the stream exactly when none of them flags without sending |
| CueIngress.OriginNeverChanges | internal/cues/ingress.go:26-47 | a trail's origin outlives every later attempt, through any publisher |
| CueIngress.UnconfirmedPublisherFlagsAnyway | internal/cues/ingress.go:95-135 | a publisher that reaches no broker sends nothing, and success still flags everything |
| CueIngress.FlagsAreTrueIffTheBrokerConfirms | internal/cues/ingress.go:95-135 | after one first publication that reports success the flags are true of the stream exactly when the publisher reaches the broker |
| CueIngress.BuiltInvocation | internal/cues/ingress.go:49-87 | a new invocation is unflagged, carries the observation before its events, announces exactly their ids, proves its own origin, and reports trace, invocation, first task and first event, however far publication got |
| CueAnswers.OkReplayFlagsEverything | internal/cues/ingress.go:137-170 | however far the record had got and whatever is answered: a replay that reports success has every flag on disk and returns what the first publication would have, and one that does not returns nothing |
| CueAnswers.OkMeansAllOnStream | internal/cues/ingress.go:95-157 | after any history without a file-only or no-op publisher, an attempt that reports success means that observation and events are all on the stream |
| CueAnswers.UnhinderedReplaySendsTheRest | internal/cues/ingress.go:95-157 | with nothing in the way a replay sends exactly the publications that were not flagged, once and in order, flags them all, and proves the origin if there was none |
| CueAnswers.UnhinderedPublicationSendsAll | internal/cues/ingress.go:95-135 | a first publication the whole of them |
| EnergySeed.SeedAgreement | internal/energy/seed.go:29-131 | in every interleaving with crashes whoever acts on a seed acts on the winner, every new observation carries it, and a legacy allocation stays unobserved |
| EnergySeed.WinnerNeverChanges | internal/taskledger/energy.go:26-56 | once a seed is recorded its id and budget stay, and its flag is never lowered |
| EnergySeed.PublishedMeansObservedIff | internal/energy/seed.go:102-131 | from callers that have not started, every interleaving keeps "published means the broker holds the observation" exactly when there is nothing to send, or the observation is there already, or no caller publishes through a file-only publisher |
| EnergySeed.AtMostOneEach | internal/energy/seed.go:102-131 | no interleaving from any point makes more observations than there are processes that may still send one |
| EnergySeed.MostObservations | internal/energy/seed.go:102-131 | and some interleaving makes exactly as many |
| EnergySeed.AtMostOneObservationIff | internal/energy/seed.go:22-131 | from callers that have not started, every interleaving observes at most once exactly when there is nothing to send (legacy allocation, observed seed, only repairers of an unseeded trail) or at most one caller publishes through the broker |
| EnergySeed.LaterCallObservesNothing | internal/energy/seed.go:29-131 | a call that starts after another returned a published seed observes nothing |
| EnergySeed.NothingAfterPublished | internal/energy/seed.go:102-131 | among racing callers nothing is observed after publication except by those already sending |
| EnergySeed.RacingCallersObserveTwice | internal/energy/seed.go:22-131 | the interleaving in which the one winner is observed twice |
| SeedAnswers.WinnerIsWhatSomebodyAskedFor | internal/energy/seed.go:29-79 | in every interleaving the winning seed has the budget that some caller requested, or read from its colony's manifest, and was granted when nothing was recorded, and the id minted for that grant |
| SeedAnswers.EveryCallerIsToldTheWinner | internal/energy/seed.go:29-131 | in every interleaving a caller that returns a seed returns the winner, as published only if it is, or the empty one of a legacy allocation |
| SeedAnswers.RequestSeeds | internal/energy/seed.go:29-41 | an undisturbed request allocates its budget, announces it through the publisher there is, and returns it |
| SeedAnswers.EnsuringSeedsTheDefault | internal/energy/seed.go:70-79 | an unseeded trail gets the manifest's budget, or twelve if that is none |
| SeedAnswers.AnyCallerRepairs | internal/energy/seed.go:57-100 | a recorded seed that is not published is announced by any caller that comes, under its own id and budget |
| SeedAnswers.NothingToSeed | internal/energy/seed.go:57-69 | a published seed and a legacy allocation are left alone and reported without an error, whatever else is answered |
| EnergySeed.TrailLedger.SeedTrail | internal/energy/seed.go:29-41 | the recorded winner, nothing for a legacy allocation, or a new seed, then its observation |
| EnergySeed.TrailLedger.EnsureSeeded | internal/energy/seed.go:46-79 | repair of an unpublished seed, or a seed at the colony's default |
| EnergySeed.TrailLedger.PublishPendingSeedObservation | internal/energy/seed.go:84-100 | only an unpublished recorded seed is observed |
| EnergySeed.TrailLedger.PublishRecordedSeed | internal/energy/seed.go:102-131 | send, then mark, each of which may fail or be the last thing done |
| EnergySeed.TrailLedger.MarkSeed | internal/taskledger/energy.go:68-82 | marking is refused for another seed's id and idempotent |
| Transcripts.TruncateRunes | internal/adapters/transcript.go:496-504 | cut exactly when a positive limit is exceeded, to that many runes followed by an ellipsis |
| Transcripts.NormalizeTranscript | internal/adapters/transcript.go:278-372 | the loops over turns and parts with mask, redaction, caps and the page step, and the panic of a slice whose end has overflowed |
| Transcripts.BoundsAreASliceIffNoOverflow | internal/adapters/transcript.go:374-390 | the computed bounds are a slice exactly when offset plus limit fits 64 bits |
| TranscriptParts.TranscriptTellsTheProvider | internal/adapters/transcript.go:278-372 | for any mask, caps and window: the turns and parts the mask keeps, in the provider's order, tool inputs and outputs, text and reasoning redacted first and capped then, hidden payloads empty, an empty status unknown; of these the page asked for; truncated exactly if the provider said so or something shown was longer than its cap |
| TranscriptParts.TurnsThatAreKept | internal/adapters/transcript.go:286-343 | which turns the mask keeps, by role and by what their parts hold |
| TranscriptParts.WindowStarts | internal/adapters/transcript.go:374-410 | an explicit offset decides where a page starts, clamped to the turns there are; without one the cursor, if it is one |
| TranscriptParts.RolesAreFolded | internal/adapters/transcript.go:286 | a role is recognised in any case and with any white space around it |
| Dialogue.ProjectDialogue | internal/adapters/dialogue.go:55-103 | the nested loops over turns and parts |
| Dialogue.DialogueIsTheConversation | internal/adapters/transcript.go:278-343 | over the whole window the dialogue is the provider's own conversation, redacted and capped, under every mask that lets text (and reasoning, if shown) through |
| Dialogue.RawPartsSpeak | internal/adapters/dialogue.go:55-103 | parts that were neither redacted nor cut project to what was said in them |
| Dialogue.PresetsAgree | internal/adapters/dialogue.go:44-103 | the presets that carry text give the same dialogue, and those that carry reasoning the same dialogue with it |
| Dialogue.PagesDependOnTheMask | internal/adapters/transcript.go:333-343 | a first page that shows the conversation under one preset and nothing under another |
| DialoguePages.FirstPagesAgreeIff | internal/adapters/transcript.go:278-372 | two masks show the same first page, of whatever size, exactly when every turn that shows something has as many kept turns before it under both |
| DialoguePages.FirstPagesOfPresetsAgreeIff | internal/adapters/transcript.go:145-159 | for nested masks, as the presets are: exactly when no turn only the wider one keeps comes before a turn that shows something |
| DialoguePages.DifferentKeepsMayBalance | internal/adapters/transcript.go:278-372 | for masks that are not nested the counts matter and not the turns |
| Paging.CursorRoundTrip | internal/adapters/transcript.go:396-410 | decode inverts encode on every offset of a 64-bit int |
| Paging.PagingIsLossless | internal/adapters/transcript.go:349-410 | following the cursors from the start visits the whole-window result exactly, each turn once, and ends with a page that promises no more |
| ToolResults.IndexCalls | internal/adapters/transcript.go:473-481 | the nested loops that index tool parts by call id |
| ToolResults.IndexHoldsTheLastCarrier | internal/adapters/transcript.go:473-481 | the index holds the last part carrying an id |
| ToolResults.IndexHoldsOnlyCarriers | internal/adapters/transcript.go:473-481 | whatever the index holds is the last carrier of its id |
| ToolResults.FoldResults | internal/adapters/transcript.go:482-491 | every indexed call ends with the folded output and status of all the results |
| ToolResults.OutputIsTheLastMatch | internal/adapters/transcript.go:482-487 | that output is the last matching result's, the call's own if none matches |
| ToolResults.StatusIsTheLastNonEmptyMatch | internal/adapters/transcript.go:488-490 | that status is the last non-empty matching one, the call's own if there is none |
| ToolResults.AttachToolResults | internal/adapters/transcript.go:469-492 | only the last part of each call id changes, in place, and only so |
| ChromeHubs.OneLoopForAll | internal/console/chrome.go:62-113 | in every interleaving at most one loop is live, running says exactly whether one is, and a registered subscriber has one |
| ChromeHubs.RegisteredUntilItLeaves | internal/console/chrome.go:62-83 | a subscriber is registered from when it registers until it unsubscribes and never afterwards, whatever the others and the loop do |
| ChromeHubs.LoopOutlivesItsSubscribers | internal/console/chrome.go:99-113 | while anyone is registered the loop is neither stopped nor replaced |
| ChromeHubs.NextTickEndsADesertedLoop | internal/console/chrome.go:102-109 | with nobody left and nobody coming, the loop's next tick ends it |
| ChromeHubs.ChromeHub.Register | internal/console/chrome.go:65-70 | the section that registers and starts the loop if none runs |
| ChromeHubs.ChromeHub.Unsubscribe | internal/console/chrome.go:78-82 | the returned closure, harmless when called again |
| ChromeHubs.ChromeHub.Tick | internal/console/chrome.go:102-112 | one round of the loop: it goes on exactly if somebody is registered |
| AdapterProbers.SingleFlight | internal/console/adapters.go:118-149 | never two requests inside the run; a valid cache holds what a run measured before its request was cancelled; a plain request ran only after seeing the cache invalid with runMu in hand |
| AdapterProbers.AnswersAreMeasured | internal/console/adapters.go:118-149 | every answer is the request's own measurement or, for a plain one, what an uncancelled run left |
| AdapterProbers.ValidStaysValid | internal/console/adapters.go:143-147 | the cache never becomes invalid again |
| AdapterProbers.AValidCacheEndsPlainRuns | internal/console/adapters.go:126-137 | once the cache is valid no plain request starts a run |
| AdapterProbers.AdapterProber.Check | internal/console/adapters.go:119-125 | the fast path under the mutex |
| AdapterProbers.AdapterProber.Recheck | internal/console/adapters.go:127-137 | the second look while holding runMu |
| AdapterProbers.AdapterProber.Snapshot | internal/console/adapters.go:118-149 | answer, cache and runs of an undisturbed call, for plain, forced and cancelled requests |
| AdapterProbers.AdapterProber.Run | internal/console/adapters.go:155-171 | whatever order the goroutines finish in, row i has target i's name and binary and what probing it found |
| CommandLines.SplitCommandLine | internal/colony/command.go:197-236 | the byte loop with its three variables |
| CommandLines.NoEmptyArgs | internal/colony/command.go:206-212 | no input yields an empty argument |
| CommandLines.FailsIffAQuoteIsOpen | internal/colony/command.go:231-233 | the split fails exactly when some quote of the given string has no closing one |
| CommandLines.SplitInvertsQuoting | internal/colony/command.go:197-236 | arguments written as bare and quoted stretches of any octets, with any white octets around, come back, octets widened, empty ones dropped, exactly when trimming the line takes nothing but white octets |
| CommandLines.AsciiEndsTrimToBlanks | internal/colony/command.go:198 | which it does when outer gaps and the outer octets of the first and last word are ASCII |
| CommandLines.WideSpaceIsLost | internal/colony/command.go:197-236 | an ideographic space outside quotes is a word to the loop and nothing after trimming |
| CommandLines.RunesAreEncoded | internal/colony/command.go:222-228 | what is written for an octet is the encoding of the code point of that number, and white octets are white code points |
| CommandLines.SplitReturnsTheArguments | internal/colony/command.go:197-236 | of such a line they come back unchanged exactly when all are ASCII and none is empty |
| TraceTitles.Shrink | internal/cues/run.go:363-366 | the loop ends with the longest well-formed prefix within the cap |
| TraceTitles.LongestPrefixLosesThree | internal/cues/run.go:363-366 | of a well-formed title that prefix gives up at most three octets, and stops at the last character boundary |
| TraceTitles.ClippedTitle | internal/cues/run.go:359-368 | a clipped well-formed title is its longest tight, well-formed prefix within the cap, empty only if the title was |
| TraceTitles.LongTitleVanishes | internal/cues/run.go:359-368 | of a long title nothing is left exactly when its first octets are no character |
| TraceTitles.StandingTraceTitle | internal/cues/run.go:351-357 | the clipped description, or the clipped id when the description is blank |
| TraceTitles.StandingTitle | internal/cues/run.go:351-368 | the longest tight, well-formed prefix within the cap of the description, or of the id when that is blank; empty exactly when both are |
| Utf8.CutValid | internal/cues/run.go:364-366 | a well-formed string can be cut at a character boundary and nowhere else (section 4 of RFC 3629) |
| Utf8.CharsAreEncodings | internal/cues/run.go:364 | the characters are exactly the encodings of code points other than surrogates (section 3 of RFC 3629) |
| Utf8.SpacesAreSpaces | internal/cues/run.go:367 | white space on octets is white space on code points |
| Topologies.SortedMapKeys | internal/colony/topology.go:264-274 | whatever order a map is walked in, its sorted keys are the same |
| Topologies.MatchLess | internal/colony/topology.go:247-262 | the map comparison is the dictionary order of size and sorted pairs |
| Topologies.MatchesInOrder | internal/colony/topology.go:247-262 | the smaller map comes first; of two of a size the one that is less at the first of the sorted pairs that differ |
| Topologies.FieldsDecide | internal/colony/topology.go:219-243 | the first of kind, ends, bee, dispatch, implied, intent and matches that differs decides, an implied edge first |
| Topologies.EdgeBefore | internal/colony/topology.go:219-243 | the comparator is the dictionary order of the edge's key |
| Topologies.EdgeLessIsStrictTotal | internal/colony/topology.go:218-262 | the comparator is a strict total order on edge values |
| Topologies.OneCanonicalOrder | internal/colony/topology.go:218-245 | any sorted permutation of the same edges is the same sequence |
| Topologies.SortTopologyEdges | internal/colony/topology.go:218-245 | the slice is left in that order, in place |
| IntegerLog.Itoa | internal/adapters/log.go:129-149 | digits and sign written backwards into sixteen bytes, or a write outside them |
| IntegerLog.SafeExactlyWhenItFits | internal/adapters/log.go:137-147 | no write outside the buffer exactly for fifteen digits with a sign and sixteen without (and for the least integer) |
| IntegerLog.PrintedReadsBack | internal/adapters/log.go:129-149 | what is printed parses back to the number, the least integer alone excepted |
| IntegerLog.NoLeadingZero | internal/adapters/log.go:138-147 | no leading zeros, and a sign only in front of negative numbers |

## Left out

- NATS transport, replay budget and connection handling: `complete` is an input of the comparison, the broker an answer per publish.
- JSON and YAML codecs: `kind` and the file references of a payload are fields of the event, a payload that does not decode is `Malformed`.
- Two flushers on one run, and appends while a flush runs: the source rewrites the queue from memory and excludes neither.
- Torn lines in the trail's record or the audit log, and their sequence numbers.
- Read errors of the pending file other than a half-written last line, and read errors of cue records.
- What binding another trace leaves in that trace's own trail, and the contents of a trail's configuration.
- `PendingSummary`, `InspectPending` and the other queue views: each is settled by reading one body.
- `energy.Add`, `Consume`, `Stipend`, the wait loops and the ledger's own `Apply`.
- Redaction: `redact.Text` is an arbitrary total function on strings.
- Lower-casing of roles, as far as it yields letters that are not ASCII; no such role is visible under any mask.
- `ResolveTranscript` and its timeout, `ProjectToolInputs`, `ProjectToolCalls` and `summarizeToolInput`.
- Event times are numbers; the source compares their printed form, which orders alike for four-digit years.
- The frames and channels of the chrome hub: the model is of its life cycle, and no claim is made that a new subscriber sees the newest frame.
- That a waiting request never probes again: the source fills the cache after it has released the run lock.
- Commands: `${VAR}` substitution, which has no order of its own, and the YAML forms.
- The rest of a topology: its events, its bees and its drawing.
- Topologies.SortTopologyEdges: an insertion sort stands for the inside of `sort.Slice`; any other sort gives the same by `OneCanonicalOrder`.
- AdapterProbers.AdapterProber.Run: the goroutines' writes are taken one at a time, in any order.
- FlushVerify.FlushMeetsVerify: assumes a client and that no append to the trail's record is refused, without which it is false; `HistoryRunsAheadIff` and `NeverAheadIff` are exact.
