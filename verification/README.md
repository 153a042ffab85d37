# Verified models of Cuckoo's protocols

Cuckoo is a hub between people and agents. These Dafny modules model the parts of it
where many parties write the same thing at once, or where one form of a thing must keep
the meaning of another, and prove what they promise. `dafny verify dfyconfig.toml` checks
everything.

| file | what it models |
|---|---|
| `stream_store.dfy` | the Redis buffer of a streamed reply: open, the append script, remove |
| `streaming.dfy` | the race between an agent's finish, a person's stop and the hub's sweeper over one streamed message, a step at a time |
| `stream_service.dfy` | the loops of the sweeper and of a person's stop |
| `sends.dfy` | idempotent sends, racing retries, the outbox written with each message |
| `socket.dfy` | an event's way over an agent's socket: leases, the Python agent's memory, acknowledgements |
| `retries.dfy` | webhook attempts, their delays and their bound |
| `hub.dfy` | the live-update hub, with any number of threads; and the same as one object |
| `ratelimit.dfy` | the token bucket, over real numbers |
| `cadence.dfy` | when a schedule runs: normalising, searching forward and back, misses |
| `cron.dfy` | the runtime's translation of a cadence to a cron line and back |
| `schedules.dfy` | a schedule written by its person, its agent and their time zone |
| `routines.dfy` | the runtime's copy of a schedule, kept in step by events |
| `media.dfy`, `reader.dfy` | uploads and deletions sharing rows and bytes; reading under a limit |
| `retention.dfy` | the sweeps of expired messages and of files over budget |
| `ids.dfy` | base32 identifiers |
| `wrappers.dfy` | options and sequences without repetition |

A concurrent protocol is a state, a function for each step, and `Run`, which applies any
sequence of steps in any order; a step that is not enabled changes nothing, so a theorem
about `Run` holds over every interleaving. A database statement or transaction, and a
Redis script or command, is one step. Loops and objects that the code updates in place are
methods and classes, tied by their contracts to the functions the theorems are about.

## What the proofs found

Where the code does not meet what its comments say, the model follows the code; a lemma
gives a run that shows it, and where the failure has a condition another lemma gives the
exact one.

- A person's stop promises that no further word appears. The buffer is made after the
  message's own transaction, so a stop that lands between them is followed by a buffer
  that still accepts words (`StopBeforeOpenIsNotSealed`; exactly when:
  `StopSealsIfOpened`).
- The sweeper drops a stream's buffer on any error, also when the stream is still being
  written; the agent's own finish then stores nothing and does not say it was cut
  (`SweeperErrorLosesText`, `FailedSweepDropsText`; exactly when: `TextIsWholeExactly`).
- The sweep counts a stream twice when it is both idle and old, and counts streams already
  finished (`SweepCountsTwice`; exactly when: `SweepCountExactly`).
- A file of exactly its kind's limit is refused unless its source reports its end together
  with its last bytes (`ExactlyTheLimit`).
- A subscription made after the hub closed is never told (`LateExists`, `LateIsNeverTold`).
- The limiter pays a clock that goes back twice (`BackwardClock`; exactly when the limit
  holds: `LimitHoldsExactly`; what holds for any clock: `AdmittedAtMost`).
- An outcome recorded after its lease ran out can shrink a delay and exceed 29 failures
  (`LateRecordShrinksDelay`, `LateRecordsExceedTheBound`; exactly when:
  `DelaysGrowExactly`, `BoundHoldsExactly`).
- A routine is meant to pause after three failures running. Claiming one that repeats
  clears the count before every run, so only a one-off ever gives up (`GivesUpExactly`).
- Agents' updates, time-zone moves and tagged messages read a schedule before they write,
  so one begun before a person's pause can undo it or speak through it
  (`ConfirmationUndoesThePause`, `MoveUndoesThePause`, `MessageSlipsThrough`; exactly
  when: `PauseHoldsExactly`). An agent cannot resume a pause it made itself
  (`AgentCannotResumeItsOwnPause`).
- A schedule set deliberately to another place is meant to stay there while its person
  travels. It does until they come to that place and go on; from then on it moves with
  them, and does not come back (`ThereAndBackAgain`; exactly when and where to:
  `JourneyMoves`).
- An insert that is committed and yet reported as failed leaves a media row without bytes
  (`LostInsertLosesTheBytes`; exactly when: `BytesKeptExactly`).
- A day's name that is none can be accepted beside one it lower-cases to, and two
  spellings of one day are refused (`NoDayAccepted`, `TwoSpellingsRefused`; exactly when:
  `WeeklyAcceptedWhen`).
- A new routine with an empty zone takes a default that the next event takes away
  (`EmptyZoneDrifts`); the hub never sends an empty zone.
- The agent's memory keeps an id's place when it is remembered again
  (`RememberingAgainIsNotRefreshing`); `OutlastsTheNext` says how long one is kept.

## Model

| member | source | states |
|---|---|---|
| Streaming.FinishedOnce | server/internal/conversations/streaming.go:130-196 | over every interleaving a streamed message completes at most once; its outbox is one winner's fan-out, each agent once and never the sender; the marks say who finished it; stopped implies truncated |
| Streaming.FinishIsFinal | server/internal/store/queries/messages.sql:16-26 | once complete, no later step changes the text, buttons, marks or outbox |
| Streaming.WinnerTellsTheOthers | server/internal/conversations/deliveries.go:22-62 | the winning transaction tells exactly the other agents then in the conversation |
| Streaming.CommitDecides | server/internal/conversations/streaming.go:149-196 | exactly what the winning transaction writes: the text or its first 8000 characters, the buttons, and both marks; and a transaction that does not win writes nothing |
| Streaming.LosersAnswer | server/internal/conversations/streaming.go:200-254 | what becomes of a finish that did not win or met an error, the sweeper's included |
| Streaming.AnswersAgree | server/internal/conversations/streaming.go:170-216 | every answer to any finish, then and later, is the winner's text, buttons and marks |
| Streaming.FinishingAgain | server/internal/conversations/streaming.go:200-216 | finishing a finished stream answers its own agent with it, refuses any other, and changes nothing |
| Streaming.FinalText | server/internal/conversations/streaming.go:135-153 | the text is a prefix of the accepted deltas, and all of those accepted before the winner read, cut at 8000 characters, exactly when a buffer was found or there was nothing to find; truncated then says whether a cut lost anything |
| Streaming.TextIsWhole | server/internal/conversations/streaming.go:130-254 | in every run in which no buffer lapses and none of the hub's own finishes meets an error, the text is everything accepted before the winner read, cut at 8000 characters, and truncated says whether the cut lost anything or the agent did not finish |
| Streaming.TextIsWholeExactly | server/internal/conversations/streaming.go:225-254 | over all runs the text is whole exactly when buffers do not lapse and the hub's finishes meet no error; errors met by agents and persons do no harm |
| Streaming.LapseLosesText | server/internal/conversations/streams.go:36-39 | a run in which a buffer's expiry costs a live stream its text |
| Streaming.RefusedOnlyWhenTooLong | server/internal/conversations/streams.go:32-36 | no delta is refused as too long while the whole text fits in 8000 characters |
| Streaming.AppendsExactly | server/internal/conversations/streams.go:97-147 | in every run a delta of the message's own agent, not empty and without a NUL, is appended exactly when its buffer is there and everything accepted and the delta fit in 32,000 octets; any other changes nothing |
| StreamStore.OctetsOf | server/internal/conversations/streams.go:32-36 | a character counts as one to four octets, by the seven, eleven, sixteen and twenty-one bits section 3 of RFC 3629 gives them |
| StreamStore.TooLongIsTooLong | server/internal/conversations/streams.go:32-36 | the byte limit is never reached before the character limit, by the four-byte bound of section 3 of RFC 3629 |
| Streaming.BufferNeverReturns | server/internal/conversations/streams.go:81-147 | a buffer once made and gone never reappears, and nothing more is accepted |
| Streaming.SealedExactly | server/internal/conversations/streams.go:81-147 | a message takes no further word exactly when its buffer was made and is gone, or is full |
| Streaming.StopSealsIfOpened | server/internal/conversations/stop.go:30-38 | at the end of a finish, no further word is possible exactly when the buffer had been made |
| Streaming.StopBeforeOpenIsNotSealed | server/internal/conversations/messages.go:142-189 | a run in which a stopped, complete reply still accepts a word |
| Streaming.SweeperErrorLosesText | server/internal/conversations/streaming.go:225-254 | a run in which a failed sweep costs a live stream its text |
| Streaming.ToldStopped | server/internal/conversations/stop.go:101-113 | an agent is told its reply was stopped exactly when a person's stop completed it |
| Streaming.ClampText | server/internal/conversations/streaming.go:318-327 | a prefix of at most 8000 characters, with a mark exactly when anything was lost |
| Streaming.PressTakesTheButton | server/internal/conversations/messages.go:366-376 | at any time a press that has read the finished message takes its button and leaves every word |
| StreamStore.Store.Append | server/internal/conversations/streams.go:81-147 | the script appends to this buffer alone, or refuses and leaves everything as it was |
| StreamStore.Store.Open | server/internal/conversations/streams.go:79-95 | an empty buffer for this stream and its place among the active ones |
| StreamStore.Store.Remove | server/internal/conversations/streams.go:181-190 | this buffer and its place, and nothing else |
| StreamService.Service.FinishStream | server/internal/conversations/streaming.go:130-216 | one finish of one row, with any error it may meet: what it writes and answers; exactly one outbox row for each agent of the conversation but its own; its buffer gone; and nothing at all when an error came first or the row was not live |
| StreamService.Service.SweepStreams | server/internal/conversations/streaming.go:225-254 | the loop, with any errors its finishes meet, comes to the sweep function's rows, buffers, outbox and count |
| StreamService.SweepWithoutErrors | server/internal/conversations/streaming.go:225-254 | when no finish meets an error every listed stream is finished from its buffer and no other row touched; the agents told are exactly the others in each finished message's conversation, once each; bookkeeping is forgotten for all but what had been finished before |
| StreamService.FailedSweepDropsText | server/internal/conversations/streaming.go:244-250 | a live stream whose finish meets an error loses its buffer and goes on streaming |
| StreamService.Service.FanOut | server/internal/conversations/deliveries.go:22-62 | the loop adds exactly one row for each agent of the message's conversation but its own |
| StreamService.SweepCountExactly | server/internal/conversations/streaming.go:225-254 | the count is what the sweep newly finished exactly when nothing owned was listed twice or already complete |
| StreamService.SweepCountsTwice | server/internal/conversations/streaming.go:225-254 | one live stream in both listings is counted as two |
| StreamService.Service.Stop | server/internal/conversations/stop.go:42-99 | the loops end every listed reply and tell the other agents of each, return those stopped, and ask every agent to stop, naming the last reply stopped of its own |
| StreamService.Service.EndReplies | server/internal/conversations/stop.go:58-78 | the first loop of a stop |
| Sends.OneMessagePerKey | server/internal/conversations/messages.go:85-197 | over every interleaving, two sends under one key that succeed are in one conversation and answer one message, and at most one says created |
| Sends.NeverTwoMessages | server/internal/store/migrations/00005_idempotency.sql:17-23 | never two messages under one sender's key; a send refused for reusing a key has one elsewhere |
| Sends.RetryCostsNothing | server/internal/conversations/messages.go:85-92 | a retry of a stored send is answered at its first look-up, with nothing stored and no limit asked, or refused if in another conversation |
| Sends.EveryAgentOnce | server/internal/conversations/deliveries.go:22-62 | at every point, exactly one outbox row for each complete message and each agent its completion told, and none for a stream |
| Sends.ToldOnce | server/internal/conversations/messages.go:142-163 | whom a message tells is settled once, in its transaction: the agents of its conversation then, but its sender |
| Sends.FanOut | server/internal/conversations/deliveries.go:22-62 | the loop writes those rows, pending for agents with a backend and failed for the others, touches no other message's, and returns the waiting agents once each |
| Sends.SummaryMeaning | server/internal/conversations/deliveries.go:91-103 | waiting exactly when some backend is, failed exactly when none has it, delivered exactly when none waits and one has it |
| Sends.TheTickIsFinal | server/internal/store/queries/deliveries.sql:69-97 | a status no longer waiting is the last the sender sees, whatever happens later |
| Sends.RowsSayWhoIsBound | server/internal/conversations/deliveries.go:27-57 | in any run a new row says pending for an agent that has a backend and failed for one that has none; a row stays, and only settling it while pending changes it |
| Sends.AdmittedIsStored | server/internal/conversations/messages.go:94-197 | a send the limiter admits stores its own message and answers it created, unless its key has been taken; one it does not admit stores nothing |
| Sends.LoserFindsTheWinner | server/internal/conversations/messages.go:164-183 | a send that meets the index answers the message that holds its key, or is refused if that is in another conversation, and is never left unanswered |
| AgentSocket.DeliveredMeansHandled | sdk/python/cuckoo/agent.py:199-281 | for any pushes, lost leases, reconnects, restarts, failures and acknowledgements, an event marked delivered had a handler complete; or is a message whose handler a person's stop ended, of its own conversation by cancelling it, or of one it wrote to, by the hub refusing the reply; or is of a kind with no handler |
| AgentSocket.FailuresStayPending | sdk/python/cuckoo/agent.py:260-270 | an event whose every handler failed is not delivered, remembered or acknowledged |
| AgentSocket.NothingIsStuck | server/internal/delivery/delivery.go:127-156 | from every reachable state a pending event with a handler can still be handled and delivered |
| AgentSocket.BeginDecides | sdk/python/cuckoo/agent.py:199-246 | which events are answered at once, which call a handler, and which are remembered |
| AgentSocket.StopFlagsAll | sdk/python/cuckoo/agent.py:283-294 | a stop flags every handler running for a message of its conversation and no other |
| AgentSocket.EndDecides | sdk/python/cuckoo/agent.py:214-270 | in every run, an ending leaves the event remembered and about to be acknowledged exactly when the handler completed or, for a message, a person's stop ended it |
| AgentSocket.StoppedWorkIsOver | sdk/python/cuckoo/agent.py:247-270 | from every reachable state, message work that a stop ends is remembered, and its acknowledgement makes it delivered |
| AgentSocket.LateAckIsLost | sdk/python/cuckoo/agent.py:272-276 | an acknowledgement on a connection that is gone does nothing |
| AgentSocket.PushedOnceALease | server/internal/store/queries/deliveries.sql:44-67 | over any run an event is pushed no more often than its lease runs out, plus once |
| AgentSocket.PushedWhenDue | server/internal/store/queries/deliveries.sql:44-67 | to a connected socket, an event neither settled nor leased is pushed, and a settled one is not |
| AgentSocket.WireAddsNothing | server/internal/delivery/delivery.go:127-175 | over any run an event is taken up no more often than it is pushed, and an acknowledgement read no more often than it is sent |
| AgentSocket.ConnectionsAreApart | sdk/python/cuckoo/agent.py:272-276 | what a broken connection loses and keeps; no task begun before a new connection answers over it; a restart forgets tasks and memory |
| AgentSocket.OutlastsTheNext | sdk/python/cuckoo/agent.py:278-281 | a remembered id is kept for as many newer ids as the thousand leaves |
| AgentSocket.RememberingAgainIsNotRefreshing | sdk/python/cuckoo/agent.py:278-281 | remembering a known id again does not keep it longer |
| AgentSocket.Agent.Remember | sdk/python/cuckoo/agent.py:278-281 | the loop over the ordered dictionary is the memory function |
| AgentSocket.Agent.MarkStopped | sdk/python/cuckoo/agent.py:305-308 | the same for stopped messages |
| AgentSocket.Agent.Handle | sdk/python/cuckoo/agent.py:199-270 | through the handler's branches, said of its kind, its ending and a stop: an event is remembered and acknowledged exactly when it was known, its kind has no handler, its handler completed, or it is a message a person stopped |
| AgentSocket.Agent.StopRunning | sdk/python/cuckoo/agent.py:292-294 | the loop flags and cancels every handler of the conversation and of no other |
| HubThreads.NeverPanics | server/internal/realtime/hub.go:50-167 | for any number of threads, no step sends on a closed channel or closes one twice |
| HubThreads.WaitMeansAllDetached | server/internal/realtime/hub.go:148-167 | Wait's test holds exactly when every subscription ever made is detached |
| HubThreads.NoGaps | server/internal/realtime/hub.go:105-128 | with one dispatcher and distinct recipients, what each connection has received is a gap-free run of the events due to it since it subscribed, and with what its channel holds all of them while it is registered |
| HubThreads.DueGrows | server/internal/realtime/hub.go:103-121 | where what is due to a connection is every event dispatched from then on that names its person, in order |
| HubThreads.TakesTheNext | server/internal/realtime/hub.go:113-121 | in every run a connection receives events in the order they were sent to it, each once, the oldest waiting first |
| HubThreads.SubscribeJoins | server/internal/realtime/hub.go:63-75 | a new subscription is registered for its person, with an empty channel, and no other is touched |
| HubThreads.SendDecides | server/internal/realtime/hub.go:113-121 | an event goes last into a channel holding fewer than sixty-four, and otherwise its connection is noted as slow |
| HubThreads.UnlockClosesTheSlow | server/internal/realtime/hub.go:122-128 | and the dispatch goes on to close exactly those |
| HubThreads.DoneMeansClosed | server/internal/realtime/hub.go:50-62 | whenever any thread is done with a subscription its channel is closed, and, by Subscription.Close, it is detached |
| HubThreads.ClosedSendsNothing | server/internal/realtime/hub.go:103-112 | once the hub is closed nothing goes into any channel |
| HubThreads.CloseReachesAllBefore | server/internal/realtime/hub.go:130-146 | when the first Close has finished, whatever is still registered and untold subscribed after it |
| HubThreads.LateIsNeverTold | server/internal/realtime/hub.go:63-75 | a late subscription stays untold whatever follows, unless somebody closes it or the hub again |
| HubThreads.LateExists | server/internal/realtime/hub.go:63-75 | a run with one |
| LiveHub.Hub.SendTo | server/internal/realtime/hub.go:105-128 | the loop gives the event to every channel of the person with room, and returns exactly those without |
| LiveHub.Hub.Dispatch | server/internal/realtime/hub.go:103-128 | over everyone named each connection is given the event as often as there is room, and exactly those that ever had none are detached and shut |
| LiveHub.GivenWhatFits | server/internal/realtime/hub.go:113-121 | a channel offered an event several times holds it behind what it held as often as it fits, and is slow exactly when that is less often than offered |
| LiveHub.Hub.CloseSubscription | server/internal/realtime/hub.go:50-86 | one subscription is detached and shut, no other touched |
| LiveHub.Hub.Subscribe | server/internal/realtime/hub.go:63-75 | one empty channel more, for that person |
| LiveHub.Hub.Close | server/internal/realtime/hub.go:130-146 | every connected channel is shut, none detached |
| LiveHub.Hub.AllDetached | server/internal/realtime/hub.go:153-160 | the test of Wait holds exactly when nothing is registered |
| RateLimit.AdmittedBetween | server/internal/ratelimit/ratelimit.go:56-85 | by a clock that does not go back, the calls admitted from one to a later one number at most Burst plus Rate for each second between |
| RateLimit.AdmittedAtMost | server/internal/ratelimit/ratelimit.go:56-85 | by any clock, at most Burst plus Rate for every second it moved forward |
| RateLimit.AdmittedExactlyWhen | server/internal/ratelimit/ratelimit.go:56-85 | by a clock that does not go back, a call is admitted exactly when, with it, the calls admitted since each earlier one are within Burst plus Rate for every second since: the bucket lets through all that the limit allows |
| RateLimit.LimitHoldsExactly | server/internal/ratelimit/ratelimit.go:56-85 | every policy keeps its limit over a sequence of calls, whatever came before, exactly when the clock moves forward over them no further, all told, than from the first to the last |
| RateLimit.CallKeepsGood | server/internal/ratelimit/ratelimit.go:70-82 | stored tokens stay within zero and Burst |
| RateLimit.RetryIsExact | server/internal/ratelimit/ratelimit.go:73-84 | after a refusal, a call later by a wait is admitted exactly when the wait is at least the retry time |
| RateLimit.NoBurst | server/internal/ratelimit/ratelimit.go:71-80 | a policy of no burst never admits a call |
| RateLimit.RefusalDelaysNobody | server/internal/ratelimit/ratelimit.go:73-84 | a refused call changes no later answer |
| RateLimit.ForgettingExactly | server/internal/ratelimit/ratelimit.go:83 | forgetting a bucket is unobservable at a time exactly when it has filled up by then |
| RateLimit.ExpiryUnobservable | server/internal/ratelimit/ratelimit.go:62-84 | buckets whose keys expire answer every call sequence as ones that never forget |
| RateLimit.BackwardClock | server/internal/ratelimit/ratelimit.go:70-71 | three calls on a bucket of one that a backward clock lets through twice |
| RateLimit.Redis.Allow | server/internal/ratelimit/ratelimit.go:56-101 | the script as it reads, refills, spends and writes back, for this key alone |
| Retries.RetriesAreBounded | server/internal/delivery/schedule.go:9-38 | when outcomes are recorded within their leases, delays never shrink and at most 29 failures are recorded, whatever leases were lost |
| Retries.RetryWithinTheDay | server/internal/delivery/schedule.go:24-38 | no retry is set later than 24 hours after creation, and a finished delivery stays as it is |
| Retries.OutcomesSay | server/internal/delivery/worker.go:185-224 | a success delivers a pending row, a lost binding fails it, and a refusal sets a retry after 1, 5, 30, 120, 600 and then 3600 seconds exactly when that is within a day of creation, and fails it otherwise |
| Retries.ClaimedWhenDue | server/internal/store/queries/deliveries.sql:16-42 | a row is leased for thirty seconds exactly when it is pending and due, and expires exactly when pending for more than a day |
| Retries.LateRecordShrinksDelay | server/internal/delivery/worker.go:207-224 | a run of an outcome recorded as its lease ends that sets a shorter delay than the one before |
| Retries.LateRecordsExceedTheBound | server/internal/delivery/worker.go:207-224 | late records reaching more than 29 failures |
| Retries.BoundHoldsExactly | server/internal/delivery/worker.go:185-224 | at most 29 failures in every run of workers that record less than so long after claiming, exactly when that is no longer than a lease |
| Retries.DelaysGrowExactly | server/internal/delivery/worker.go:185-224 | delays never shrink in every such run, on the same condition exactly |
| Retries.Worker.RecordAll | server/internal/delivery/worker.go:138-143 | the loop gives each attempt's outcome to its own row and touches no other |
| Retries.Worker.Record | server/internal/delivery/worker.go:185-224 | what one attempt's outcome does to its pending row, which `OutcomesSay` spells out |
| Cadences.NextIsTheFirst | server/internal/conversations/cadence.go:125-141 | in every zone that shows the cadence's own clock time on every day and whose date never goes back, Next exists exactly when some weekday is allowed, is a run after t, and no run after t is earlier |
| Cadences.PreviousIsTheLast | server/internal/conversations/cadence.go:143-159 | the same backwards |
| Cadences.ThereAndBack | server/internal/conversations/cadence.go:125-159 | each search leads back from the other's answer |
| Cadences.NothingBetween | server/internal/conversations/cadence.go:125-159 | no run lies strictly between the two |
| Cadences.OnceRuns | server/internal/conversations/cadence.go:126-168 | a one-off's next run before its instant, and its previous from then on, is that instant, and there is neither if its zone or date cannot be read; nothing is shown of one paused or deleted |
| Cadences.FutureExactly | server/internal/conversations/schedules.go:364-374 | a cadence is refused as past exactly when it is a one-off whose instant is not later than now |
| Cadences.RunsOnItsDays | server/internal/conversations/cadence.go:106-116 | daily on every day, weekdays on all but Saturday and Sunday, weekly on the days named |
| Cadences.WeekFromThursday | server/internal/conversations/cadence.go:42 | days count in weeks from Thursday the first of January 1970 |
| Clock.ClockReads | server/internal/conversations/cadence.go:59-61 | each minute of the day is read from its own writing and from no other |
| Cadences.AcceptedLive | server/internal/conversations/cadence.go:53-93 | every accepted cadence runs on some day |
| Cadences.Next | server/internal/conversations/cadence.go:126-141 | the loop is the search function |
| Cadences.Previous | server/internal/conversations/cadence.go:144-159 | the loop is the search function |
| Cadences.FixedZoneOk | server/internal/conversations/cadence.go:118-123 | a zone of one offset meets what the search relies on, for every clock time |
| Cadences.ChangingZoneOk | server/internal/conversations/cadence.go:118-123 | so does a zone of changing offset for every clock time it shows every day, whatever other times it skips, if no change takes the date back |
| Cadences.ForwardZoneOk | server/internal/conversations/cadence.go:118-123 | a zone whose clocks go forward meets it exactly for the clock times that are never skipped or lie further into the day than what is skipped |
| Cadences.BackZoneOk | server/internal/conversations/cadence.go:118-123 | a zone whose clocks go back meets it for every clock time exactly when the date does not go back with them |
| Cadences.Normalized | server/internal/conversations/cadence.go:53-93 | which cadences are accepted, and their written form |
| Cadences.WeeklyAcceptedWhen | server/internal/conversations/cadence.go:69-80 | for every spelling, days are accepted exactly when there is one, each counts as a day somebody names outright, and no day is spelled in two ways that lower-casing tells apart |
| Cadences.PlainAcceptedWhen | server/internal/conversations/cadence.go:69-80 | with neither odd letter among them, exactly when there is one and each is a day |
| Cadences.NoDayAccepted | server/internal/conversations/cadence.go:73-78 | a name that is no day accepted beside one |
| Cadences.TwoSpellingsRefused | server/internal/conversations/cadence.go:73-78 | two spellings of one day refused |
| Cadences.NormalizedKeepsTheDays | server/internal/conversations/cadence.go:51-76 | normalising keeps exactly the days named |
| Cadences.AcceptedAgain | server/internal/conversations/cadence.go:51-93 | the form an accepted cadence is kept in is itself accepted |
| Cadences.NormalizedOnce | server/internal/conversations/cadence.go:51-76 | normalising days that have been normalised changes nothing |
| Cadences.UniqueLower | server/internal/conversations/cadence.go:95-104 | the loop collects each lower-cased name once |
| Cadences.MissedExactly | server/internal/conversations/schedules.go:75-91 | a miss is told from exactly ten minutes past the first due time later than a minute after the last run, and names the latest due time ten minutes old; a schedule never run counts from its creation |
| Cadences.OnceMissed | server/internal/conversations/schedules.go:75-91 | when a one-off is missed |
| Cadences.NextRunShown | server/internal/conversations/schedules.go:63-73 | the next run shown is the first of all after now, and none for a schedule paused or deleted |
| Cron.CronMeansTheCadence | runtime/src/cadence.ts:22-38 | the line of a daily, weekdays or weekly cadence fires at exactly the local times and days the hub runs it |
| Cron.PrintedLine | runtime/src/cadence.ts:22-32 | a line is its minute, its hour, and the days, in cron's order and without leading zeros |
| Cron.PrintedDate | runtime/src/cadence.ts:33-36 | and a one-off's, its minute, hour, day and month |
| Cron.OneOffMeaning | runtime/src/cadence.ts:33-36 | a one-off's line fires on its day and month in every year |
| Cron.RoundTrip | runtime/src/cadence.ts:22-54 | reading back a printed cadence gives it again exactly when its days are distinct |
| Cron.BackFromCron | runtime/src/cadence.ts:22-54 | reading back a cadence's own line gives its kind, time and zone, and a weekly one's days each once, in the order they first come |
| Cron.ShownMeansTheCadence | runtime/src/cadence.ts:40-54 | every line accepted means what its cadence means to the hub |
| Cron.ReprintingKeepsTheRuns | runtime/src/cadence.ts:22-54 | printing an accepted line again keeps every time it fires |
| Schedules.PauseHoldsExactly | server/internal/conversations/schedules_agent.go:88-150 | agents and time-zone moves leave a pause alone and speak for nothing exactly when no write decided on before it would undo it or speak |
| Schedules.PersonsPauseStands | server/internal/conversations/schedules.go:221-271 | a pause made with nothing in flight stands against any overlapping calls |
| Schedules.ConfirmationUndoesThePause | server/internal/conversations/schedules_agent.go:120-137 | an agent's confirmation read before a pause undoes it |
| Schedules.MoveUndoesThePause | server/internal/conversations/schedules.go:411-441 | a move read before a pause undoes it |
| Schedules.MessageSlipsThrough | server/internal/conversations/schedules_agent.go:187-215 | a tagged message checked before a pause is accepted after it |
| Schedules.AgentCannotResumeItsOwnPause | server/internal/conversations/schedules_agent.go:120-132 | an agent's own pause refuses the agent's resume |
| Schedules.PersonDecides | server/internal/conversations/schedules.go:251-266 | what each person's update leaves: paused, active, words, the title made from new words, and cadence; and when it writes nothing |
| Schedules.AgentsMoveOneWay | server/internal/conversations/schedules_agent.go:88-185 | over any sequence of agents' calls a schedule only goes from waiting to running to paused, a deletion stands, and calls of other agents or about other chats might as well not have been made |
| Schedules.AgentsChangeWhatTheyName | server/internal/store/queries/schedules.sql:20-29 | over any sequence of agents' calls, a column none of them names stays as it was |
| Schedules.AgentWritesWhatItNames | server/internal/conversations/schedules_agent.go:88-150 | exactly which updates of an agent are accepted, and that what one names is written and nothing else |
| Schedules.LastWordStands | server/internal/conversations/schedules_agent.go:88-150 | what an accepted update names stands through any later calls that do not name it |
| Schedules.WhoMayDeleteOrSpeak | server/internal/conversations/schedules_agent.go:152-220 | exactly whose deletions delete, and which tagged messages pass |
| Schedules.AgentsNeverMakeItWait | server/internal/conversations/schedules_agent.go:120-137 | overlapping agents' calls may undo each other's pauses, and never leave a schedule waiting that was not |
| Schedules.JourneyMoves | server/internal/conversations/schedules.go:403-441 | after any journey a schedule is set to where it ends if its zone was ever left on the way, and is where it was otherwise; its time, days and words stay, a pause stays, and any other waits again exactly if it moved |
| Schedules.ThereAndBackAgain | server/internal/conversations/schedules.go:403-406 | a journey home restores a schedule exactly when it was set at home or its zone was never left |
| Schedules.TitleFits | server/internal/conversations/schedules.go:385-393 | a title is the instruction's first line, or its first fifty-nine characters and a mark if that is longer than sixty |
| Schedules.DeleteIsFinal | server/internal/store/queries/schedules.sql:20-35 | a deleted schedule never changes, and no tagged message is accepted after it exactly when none had passed its check |
| Schedules.Table.UpdateSchedule | server/internal/conversations/schedules.go:224-345 | a person's change to a live schedule of the chat they name, and its event, together |
| Schedules.Table.MoveSchedules | server/internal/conversations/schedules.go:411-441 | the loop moves every listed schedule, keeps pauses, and tells each agent |
| Schedules.Table.DeleteSchedule | server/internal/conversations/schedules.go:273-345 | a person's delete of a live schedule of the chat they name, and its event, together, once |
| Schedules.Table.AgentCalls | server/internal/conversations/schedules_agent.go:88-185 | an update or delete by the agent that holds the schedule, in its chat, as planned, and no event; anyone else's finds nothing |
| RoutineTable.RoutineFollowsTheSnapshot | runtime/src/schedules.ts:91-147 | events in order leave a routine that depends on the last snapshot only, present exactly when since the last deletion the schedule was ever not paused; repeating the last event changes nothing |
| RoutineTable.EventPutsRight | runtime/src/schedules.ts:91-147 | whatever had happened to the routine in between, one valid event puts it right |
| RoutineTable.EventAnswers | runtime/src/schedules.ts:91-147 | which events are refused, which thrown to be tried again, and which confirmed to the hub; a refused or thrown one changes nothing, a deletion only its own agent's routine |
| RoutineTable.Routines.ApplyChange | runtime/src/schedules.ts:91-137 | through the table's own operations: this schedule's routine as the event says, every other's untouched, at most one routine a schedule |
| RoutineTable.HubAndRuntimeAgree | runtime/src/schedules.ts:128-136 | a person's change, told and answered, leaves hub and runtime agreed: nothing waiting, one paused exactly when the other is, the same words and times |
| RoutineTable.GivesUpExactly | runtime/src/routines.ts:158-221 | failing passes pause a routine exactly when it is a one-off and they are three |
| RoutineTable.EmptyZoneDrifts | runtime/src/routines.ts:75 | repeating an event is harmless exactly when it names a zone |
| RoutineTable.Routines.RecordFailure | runtime/src/routines.ts:208-221 | a failure counted, and the pause past three |
| RoutineTable.Routines.FindByHubId | runtime/src/routines.ts:99-104 | the one routine of a schedule, if there is one |
| RoutineTable.Routines.Create | runtime/src/routines.ts:64-97 | a routine more, in the default zone if none is named, or nothing if its line cannot be read |
| RoutineTable.Routines.Change | runtime/src/routines.ts:119-135 | a new shape and no failures, paused as before, or nothing |
| RoutineTable.Routines.Resume | runtime/src/routines.ts:137-146 | running again with no failures, or nothing |
| RoutineTable.Routines.Delete | runtime/src/routines.ts:230-236 | gone exactly when it was that agent's |
| MediaFiles.RowsHaveTheirBytes | server/internal/media/service.go:77-193 | at every point of uploads, sweeps and crashes each row's key and small copy have bytes, which with its size are its whole source; no source over 16 MiB, or 64 MiB for videos and other files, nor one empty or broken off, has a row |
| MediaFiles.LostInsertLosesTheBytes | server/internal/media/service.go:135-140 | an insert committed but reported failed leaves a row without bytes |
| MediaFiles.BytesKeptExactly | server/internal/media/service.go:135-140 | over all runs every row has its bytes exactly when a failed insert never left a row |
| MediaFiles.ClaimedOnce | server/internal/store/queries/media.sql:15-26 | which message carries a file is settled once |
| MediaFiles.UploadGoesThrough | server/internal/media/service.go:77-193 | from every reachable state an upload below its kind's limit that nothing fails is recorded whole, a picture with its small copy if one was made |
| MediaFiles.RefusedBeforeStoring | server/internal/media/service.go:77-150 | an upload refused for its first bytes, and a picture refused at all for its size or its end, leaves not even a part |
| MediaFiles.ClaimsAndDeletionsTake | server/internal/store/queries/media.sql:15-26 | a claim takes every unclaimed file it names, a deletion every row, with all its keys, and neither any other |
| MediaFiles.NothingLeftBehind | server/internal/media/service.go:334-344 | in runs where nothing is stranded, what is stored in the end is exactly what the rows name |
| MediaFiles.Library.Upload | server/internal/media/service.go:77-193 | one upload: exactly when it succeeds, and what it leaves either way |
| MediaFiles.Library.SweepUnclaimed | server/internal/media/service.go:280-296 | rows at once, then exactly their bytes |
| GuardedReading.ReadAll | server/internal/media/reader.go:13-39 | however reads are split, the whole source within the limit, or which error |
| GuardedReading.GuardedReader.Read | server/internal/media/reader.go:25-39 | one guarded read: what it passes through, counts and refuses |
| GuardedReading.PutStream | server/internal/media/service.go:184-193 | the size recorded is the whole source's |
| GuardedReading.ReadLimited | server/internal/media/reader.go:41-49 | a picture's bytes whole, or which error |
| GuardedReading.ExactlyTheLimit | server/internal/media/reader.go:25-39 | a source of exactly the limit passes exactly when it reports its end with its last bytes |
| Retention.BudgetKept | server/internal/retention/sweep.go:89-135 | afterwards everyone is within the budget, and the files removed are the shortest oldest-first run that achieves it |
| Retention.Files.SweepBudget | server/internal/retention/sweep.go:91-135 | the loops over owners and batches do that, terminate, delete exactly the removed files' bytes, and count the rows removed |
| Retention.Files.SweepOwner | server/internal/retention/sweep.go:104-134 | one owner, across any number of batches of 500 |
| Retention.OthersKeepTheirBytes | server/internal/retention/sweep.go:137-149 | rows that stay keep their bytes |
| Retention.BytesGoWithTheirFiles | server/internal/retention/sweep.go:104-149 | the bytes deleted are exactly those of the files removed, small copies and all |
| Retention.History.SweepMessages | server/internal/retention/sweep.go:35-75 | the loop removes exactly the expired messages, their files' rows and those files' bytes |
| Retention.WhatTheWindowLeaves | server/internal/retention/sweep.go:35-75 | messages still being written or not older than the window stay, in order, with their files and bytes, and no others' |
| Ids.ParseUndoesFormat | server/internal/domain/id.go:50-77 | parsing undoes formatting for every identifier and prefix, and refuses every other prefix |
| Ids.AcceptedExactly | server/internal/domain/id.go:57-77 | which strings parse |
| Ids.FormatUndoesParse | server/internal/domain/id.go:50-77 | formatting undoes parsing exactly for the spelling whose last digit is a multiple of four |
| Ids.FourSpellings | server/internal/domain/id.go:57-77 | two strings parse alike exactly when they differ in no more than the last two bits |
| Ids.StringsSortAsBytes | server/internal/domain/id.go:28-53 | formatted identifiers compare as strings exactly as their bytes do |
| Bits.UnpackPack | server/internal/domain/id.go:31-33 | regrouping bits as in section 6 of RFC 4648 loses none and adds only zeros |

## Left out

- Postgres, Redis and blob storage: a statement, transaction, script or command is one
  atomic step with the guard its query states. A failed insert is taken to leave no row,
  except in `LostInsertLosesTheBytes`.
- Removing a stream's buffer is taken to succeed; the code only logs a failure.
- Signatures, notifications, push, HTTP, handlers, mail, configuration, the mobile app,
  the website and the command line.
- Invalid UTF-8: text is a sequence of code points.
- Sends with attachments or a schedule tag: their checks come before the key is looked up,
  so a retry of one may be refused. `sends.dfy` models neither.
- The order of a replayed batch, and the loading of envelopes (`delivery.go`).
- The Python agent's handlers are steps that end somehow. The TypeScript agent, which remembers an event before
  handling it, is not part of this model.
- Webhook signing, endpoints and the health of bindings.
- Dates are read by a function of the caller's, as are zone files. Go leaves open how it
  reads a clock time that daylight saving skips; `ForwardZoneOk` takes one of its two
  readings, the one that comes out earlier.
- Errors that end a person's stop part of the way through.
- Upper case, lower case and folding are modelled for the Latin letters and for the two
  others that can meet a day's name.
- Validation of titles and instructions, and the limit of ten schedules a chat.
- Next-run times in the routines table, the daily budget for speaking first, and routines
  that have no schedule on the hub.
- Retries of the runtime's jobs out of queue order.
- The budget sweep is modelled with nobody uploading at the same time, and message
  expiry with nobody sending.
- Claims of media by messages and profiles, beyond what a sweep's guard reads.
- Retries.RetriesAreBounded: asks that outcomes be recorded within their leases, because
  without that the bound is false, as `BoundHoldsExactly` says.
