# Verified model of the weather agent and its broker

The repository is a Go service. An agent process keeps conversations in memory and answers
questions with a language model and tools; a broker gives each session an agent in its own
sandbox, samples the agents' token counters, and stops serving when the day's budget is spent.
This project models the stateful parts in Dafny and proves what holds over all their runs.

Each Go type whose methods change its fields is a class with those fields. Its methods are proved
against functions on values (`Ledger`, `Levels`, `Table`, `History`), and the results about runs
are lemmas on those functions. Where the Go code runs concurrently, a module gives the atomic steps
and the lemmas quantify over every interleaving of them.

| module | subject |
|---|---|
| `BudgetLedger`, `UsagePoller`, `UsageCounters`, `TokenConservation`, `SampledSpending`, `PolledRuns` | the agents' counters, the poller, the daily ledger, and where every token goes, from atomic accesses to booked days |
| `RateLimit`, `RateWindows`, `RateReaping` | the token bucket, the window rule it implements, and when its reaper can be noticed |
| `ModelStream`, `AgentLoop`, `AgentHistory`, `AgentTranscript`, `GoSlice` | one model call, the tool-use loop on Go slices, the conversations and event streams it can produce, and what they keep of the replies |
| `ChatServer`, `SerialChats`, `SessionStore` | one request, interleaved requests on shared backing arrays, sessions with a TTL |
| `SandboxProvider`, `SandboxOwnership` | the session-to-sandbox map, and who owns each sandbox when critical sections interleave |
| `BrokerGate` | the order of checks in front of an agent, and a day on which the budget is spent |
| `Utf8`, `TruncateResult` | cutting tool results |
| `Events`, `Automata`, `Json`, `ServerSentEvents` | the frames on the wire, and their reader |
| `Sums`, `Wrappers` | sums of maps and sequences, option and result types |

## Main results

- **Tokens.** At every moment of every run the true spend of all agents is what the ledgers of all
  days hold, plus growth not yet polled, plus what departed agents took along, plus what replacement
  agents have overtaken (`TokenConservation.TokensAreConserved`). Nothing is counted twice. The same
  holds with the counters taken apart into atomic additions and torn reads
  (`SampledSpending.CountersAreConserved`, a refinement), and a poll is a run of the same system
  (`PolledRuns.PollIsARun`). A sample
  is booked exactly unless it is the first of a replacement that has reached its predecessor's last
  value (`SampleIsExactUnlessOvertaking`, both directions).
- **Rate.** Without reaps a request is admitted if and only if it keeps every window of its key's
  admissions within burst + rate * time (`RateWindows.AdmissionIsExact`). Reaping can never be
  noticed if and only if the limiter is disabled, or the burst is at least one and the bucket refills
  within the truncated refill time plus one nanosecond (`RateReaping.ReapingIsInvisibleExactly`); for
  rates below a billion a minute, if and only if the rate divides 60 * burst. In general a reap adds
  less than one second's refill.
- **Replies.** A run keeps the whole message of each attempt that decides a turn and, for each of its
  tool calls, what the tool gave back, unaltered up to the cap; it counts what these messages used
  (`AgentTranscript.RunTranscript`). What is shown is what is kept (`ShownIsKept`).
- **Conversations.** Whatever running requests append to the shared backing array, a session's
  history is the fold of the successful runs in lock order (`SerialChats.HistoryIsSerial`). Tool
  calls are answered one for one if and only if no run was ended by a reply that calls tools and
  stops for another reason than tool use (`AgentHistory.ConversationIsPairedExactly`).
- **Sandboxes.** Every sandbox ever created has one owner at any time, and none is deleted twice
  (`SandboxOwnership.CreatedClaimsPartition`). A session left alone loses its sandbox exactly at the
  first reap more than a TTL after its last use (`EvictedExactly`). A sandbox is leaked exactly when an overlapping first
  request of the same session fills the map in between (`OverwritesExactly`).
- **Wire.** Reading any written stream as a browser does gives back the same events, and a cut
  connection gives a prefix of them (`ServerSentEvents.StreamReadsBack`, `CutStreamsReadAPrefix`).

## Where the code and its documentation differ

The model follows the code.

- `internal/broker/budget.go:19-20` says that sandboxes coming and going do not double-count. That
  is proved. They can lose tokens, however: a replacement that has overtaken the old value is booked
  for the difference only (`TokenConservation.OvertakingLosesTokens`).
- `internal/ratelimit/ratelimit.go:69-70` says that a dropped bucket carries no state. That holds
  for the configurations of `RateReaping.ReapingIsInvisibleForIntegers` and for no others, because line
  79 drops the fraction of a second, and because a burst below one never lets a known key in again.
  Seven requests a minute with a burst of five is a configuration for which it fails
  (`RateReaping.SevenPerMinuteIsVisible`).
- `internal/broker/sandbox.go:17-18` says that idle sandboxes are deleted. One that a second,
  overlapping first request overwrites is never deleted by these paths (`OverlappingAcquiresLeak`).
- `README.md:46-47` says that `error` means a failed turn. After the step limit the code emits an
  error and then done, and commits the turn. `ChatServer.ErrorMeansFailureExactly` says for which replies
  of the model that is so, and `ChatServer.StepLimitShowsError` is a case. The same table gives `{}` as the data of `done`; the
  agent writes `{"type":"done"}`, only the broker's degraded answer writes `{}`.
- Tool calls stay unanswered for good if the model calls a tool and stops for another reason than
  `tool_use` (`AgentHistory.OpenStaysOpen`); `AgentHistory.TokenLimitCutsOff` is such a conversation.
- `README.md:69` gives 90 seconds as the default request timeout, `internal/config/config.go:50`
  gives 120. No result here depends on it.

## Model

| member | source | states |
|---|---|---|
| `TokenConservation.TokensAreConserved` | internal/broker/budget.go:16-69 | true spend of all agents = all daily totals + unpolled growth of listed agents + what departed agents took along + what replacements overtook, in every reachable state; so the ledgers never exceed the spend |
| `TokenConservation.NoAgentIsBookedTwice` | internal/broker/budget.go:18-20 | over all days together no agent is booked for more than it spent |
| `TokenConservation.SampleIsExactUnlessOvertaking` | internal/broker/budget.go:41-57 | a sample books the agent's own growth since its last sample, across midnight too, if and only if it is not the first sample of a replacement that has reached the old agent's value |
| `TokenConservation.DaysPartitionTheLog` | internal/broker/budget.go:101-108 | each day's total is the sum of what was booked on that day; finished days are in order and distinct |
| `TokenConservation.SpentExactly` | internal/broker/budget.go:73-81 | a check on a day finds the budget spent if and only if there is one and at least as much has been booked on that day |
| `TokenConservation.SettledReplacementLosesNothing` | internal/broker/budget.go:59-69 | if a key gets a new agent only after a whole poll without it, nothing is lost to replacement |
| `TokenConservation.OvertakingLosesTokens` | internal/broker/budget.go:49-56 | a run in which 250 tokens are spent and seen and 150 are booked |
| `TokenConservation.StepKeepsShape` | internal/broker/usage.go:52-65 | through every step of agents, provider, poll and day change, the value the ledger holds for a key is the last sample of the agent it came from, and no replaced agent is sampled after its successor |
| `SampledSpending.CountersAreConserved` | internal/usage/usage.go:35-58 | the conservation equation with each agent's true counter being what its atomic counters hold and each sample a torn read of them |
| `SampledSpending.RunRefines` | internal/broker/usage.go:52-65 | every run with atomic accesses and reads under way is a run of the coarser system, in which a fetch yields a value between the last sample and the true counter |
| `SampledSpending.FinishRefines` | internal/broker/usage.go:58-63 | a torn read begun after the agent's last sample is at least that sample and at most the true counter when it ends |
| `PolledRuns.PollIsARun` | internal/broker/usage.go:52-65 | a poll that meets each listed agent once, on any days, is the run begin, fetch and record or fail for each, end; it leaves the ledger as PollOnce does, with input and output booked together on the day of the visit |
| `PolledRuns.PolledTokensAreConserved` | internal/broker/usage.go:52-65 | after such a poll in any reachable world the ledgers balance with the true spend |
| `PolledRuns.PollAfterMidnight` | internal/broker/budget.go:101-108 | the first poll of a day books on that day, from zero |
| `BudgetLedger.BudgetTracker.constructor` | internal/broker/budget.go:31-39 | a tracker starts on the current day with nothing booked |
| `BudgetLedger.BudgetTracker.Record` | internal/broker/budget.go:44-57 | the whole new ledger: the day rolled, the delta booked, the sample remembered |
| `BudgetLedger.BudgetTracker.Prune` | internal/broker/budget.go:61-69 | exactly the inactive keys are dropped, in whatever order the map is visited |
| `BudgetLedger.BudgetTracker.Exceeded` | internal/broker/budget.go:73-81 | true if and only if there is a budget and today's total has reached it; a disabled budget changes nothing, an enabled one rolls the day |
| `BudgetLedger.BudgetTracker.Snapshot` | internal/broker/budget.go:84-99 | remaining is 0 exactly when the budget is exceeded, otherwise used + remaining = budget; -1 when disabled |
| `BrokerGate.GateIsSticky` | internal/broker/budget.go:73-81 | once a check of a day finds the budget spent, so does every later check of that day, by a chat or on its own, through any records, prunes, reads and requests |
| `BrokerGate.Server.HandleChat` | internal/broker/server.go:58-141 | Acquire is called exactly for valid requests with budget left; one metric for each valid request, ok only if the proxy passed the reply on, and none if the proxy aborts in the middle of one |
| `BrokerGate.DegradedForTheDay` | internal/broker/server.go:86-93 | after one degraded chat, no later act of that day calls Acquire, whatever requests, polls, prunes and reads there are |
| `UsagePoller.Poller.PollOnce` | internal/broker/usage.go:52-65 | the ledger after a poll: every fetched sample recorded, failed ones skipped, and every listed key kept whether or not its fetch failed |
| `UsagePoller.FailedFetchesOnlyDefer` | internal/broker/usage.go:52-65 | whichever fetches of any polls fail, with targets that come and go from poll to poll, the totals of a day differ by exactly the growth not yet seen, now or when a key was dropped |
| `UsagePoller.FailuresLoseNothing` | internal/broker/usage.go:52-65 | while sessions open but none closes, the totals differ by the growth still to be seen, and once the last samples agree again the ledgers are equal |
| `UsagePoller.FailedKeysKeepTheirSample` | internal/broker/usage.go:54-64 | through a poll in which a key's fetches fail, its last sample is kept unchanged if and only if the key is listed |
| `UsagePoller.HiddenReplacement` | internal/broker/budget.go:49-56 | a failed fetch that hides a replacement changes the ledger if and only if the next sample has reached the old value |
| `UsageCounters.Record` | internal/usage/usage.go:35-44 | each counter grows by its own amount, requests by one; a nil tracker does nothing |
| `UsageCounters.Snapshot` | internal/usage/usage.go:47-58 | all counters, or zeros for a nil tracker |
| `UsageCounters.NothingIsLost` | internal/usage/usage.go:35-44 | in every interleaving of atomic additions the counters are the sum of the additions made so far |
| `UsageCounters.TornReadIsBounded` | internal/usage/usage.go:47-58 | every field of a snapshot lies between its values when the read began and when it ended |
| `UsageCounters.DisjointReadsAreMonotone` | internal/usage/usage.go:47-58 | snapshots that do not overlap are ordered in every field, so samples of one agent never take the ledger's counter-reset branch |
| `UsageCounters.QuietTotals` | internal/usage/usage.go:33-44 | when all recorders have finished, each counter is the sum of what they had to record |
| `UsageCounters.QuietSampleIsTheSpent` | internal/usage/usage.go:35-58 | then a sample, input plus output, is that of all recorded responses together, with no cached tokens |
| `RateLimit.Limiter.Allow` | internal/ratelimit/ratelimit.go:39-67 | the answer, and all buckets afterwards: only the key's own changes |
| `RateLimit.Limiter.Reap` | internal/ratelimit/ratelimit.go:71-85 | exactly the buckets idle for longer than the truncated refill time are dropped |
| `RateLimit.Bucket.Take` | internal/ratelimit/ratelimit.go:55-66 | a token is taken if and only if one is there after refilling, never more than the burst |
| `RateWindows.AdmissionIsExact` | internal/ratelimit/ratelimit.go:39-67 | in a run without reaps, admitted if and only if the key is new or all its windows stay within burst + rate * time (a burst below 1 admits a first request only) |
| `RateWindows.BucketIsHeadroom` | internal/ratelimit/ratelimit.go:55-66 | the tokens in a bucket are the least room left over all windows of the key's admissions; with reaps, never more than that plus the truncated slack |
| `RateWindows.NoWindowExceeds` | internal/ratelimit/ratelimit.go:18-19 | in any run with reaps, no window admits more than burst + rate * (time + slack for each reap of the key inside it) |
| `RateWindows.SlackIsAFraction` | internal/ratelimit/ratelimit.go:78-79 | the slack is the fraction of a second that truncation drops |
| `RateWindows.WipeMintsSlack` | internal/ratelimit/ratelimit.go:78-84 | a dropped bucket lacks less than one second's refill of being full |
| `RateWindows.WholeRefillHasNoSlack` | internal/ratelimit/ratelimit.go:78-79 | no slack when the rate divides 60 * burst |
| `RateReaping.ReapingIsInvisibleExactly` | internal/ratelimit/ratelimit.go:69-85 | for every configuration, no request of any run is answered differently because of reaps if and only if the limiter is disabled, or the burst is at least one and the bucket refills within the truncated refill time and one nanosecond |
| `RateReaping.ReapingIsInvisibleForIntegers` | internal/ratelimit/ratelimit.go:28-35 | the same on the two integers a limiter is made from: a billion times the remainder of 60 * burst by the rate is at most the rate |
| `RateReaping.WholeSecondsAreInvisibleExactly` | internal/ratelimit/ratelimit.go:69-79 | for rates below a billion a minute, reaping is invisible if and only if the rate divides 60 * burst |
| `RateReaping.SevenPerMinuteIsVisible` | internal/ratelimit/ratelimit.go:78-79 | a configuration for which a reap changes an answer |
| `RateReaping.SmallBurstIsVisible` | internal/ratelimit/ratelimit.go:48-53 | with a burst below one a reap always can, because only unknown keys are admitted |
| `RateReaping.KeptRunIsSame` | internal/ratelimit/ratelimit.go:69-85 | if it does not, the limiter with reaps and the one without differ at all times only in keys whose bucket is full |
| `RateReaping.TruncatesTowardsZero` | internal/ratelimit/ratelimit.go:79 | the refill time in seconds loses its fraction towards zero, for negative bursts too |
| `RateReaping.ReapsExactly` | internal/ratelimit/ratelimit.go:78-84 | a bucket is dropped exactly when it was last asked for longer ago than 60 * burst / rate whole seconds |
| `RateReaping.SlowRefillIsVisible` | internal/ratelimit/ratelimit.go:78-84 | if the refill takes longer, two bursts around one reap are answered differently |
| `ModelStream.Stream` | internal/agent/agent.go:187-226 | at most two attempts; a success exactly if the last one is complete and fits together, busy exactly if it failed with 429; all text shown comes from it and, on success, is the text of the message returned; the loop without a bound ends |
| `ModelStream.ResultExactly` | internal/agent/agent.go:199-217 | for each ending of an attempt, whether the call succeeds, with which message, or which error it returns |
| `ModelStream.DecidingExactly` | internal/agent/limits.go:40-53 | a second attempt is made if and only if the first fits together, failed with a status of 500 or more or in transport with time left, has shown nothing and is not cancelled while waiting |
| `ModelStream.BrokenExactly` | internal/agent/agent.go:200-202 | accumulating fails exactly if some chunk does not fit the message before it |
| `ModelStream.BlocksAreTheStream` | internal/agent/agent.go:198-209 | the message has the blocks the stream began, with their ids and names, and all the input that came for its tool calls |
| `ModelStream.LastReportCounts` | internal/agent/agent.go:133 | the stop reason and usage of a message are those of its last report |
| `ModelStream.PlayOut` | internal/agent/agent.go:196-209 | one attempt: the message accumulated and the text emitted so far, also when accumulating fails midway |
| `ModelStream.TokensAreTheText` | internal/agent/agent.go:203-207 | the text emitted by an attempt is the text of the message it accumulates |
| `GoSlice.Append` | internal/agent/agent.go:99 | append extends what the result shows and leaves what the argument shows, in place or in a fresh array |
| `AgentLoop.Run` | internal/agent/agent.go:95-185 | the history returned, the error and the events are those of the turn-by-turn definition, and the caller's slice still shows what it did |
| `AgentLoop.TakeTurn` | internal/agent/agent.go:127-158 | one turn: at most one assistant message and one message of results are appended, in this order |
| `AgentLoop.AnswerTools` | internal/agent/agent.go:147-157 | each tool call in order gets a start event, a done event and a truncated result under its own id |
| `AgentLoop.RecordUsage` | internal/agent/agent.go:133-138 | a response's usage is added to the process's counters and to the run's own, alike |
| `AgentTranscript.RunTranscript` | internal/agent/agent.go:95-158 | the conversation after a run, told from the replies: the question, the whole message of each deciding attempt, which is complete, and for each of its tool calls the tool's own reply and error flag under the call's id; turns go on exactly on tool_use; usage counted is the sum over these messages; a run fails exactly at a deciding attempt that does not succeed |
| `AgentTranscript.ShownIsKept` | internal/agent/agent.go:104-184 | a run without error adds the same text and the same tool calls, by name, to the stream and to the conversation |
| `AgentHistory.ConversationIsPairedExactly` | internal/agent/agent.go:138-158 | every conversation answers all its tool calls, once each in order and nothing else, if and only if none of its runs was ended by a reply that calls tools and has another stop reason than tool_use |
| `AgentHistory.TokenLimitCutsOff` | internal/agent/agent.go:138-143 | a conversation that is not paired: one question whose first reply is a tool call stopped by the token limit |
| `AgentHistory.RunsOutExactly` | internal/agent/agent.go:104-145 | a run ends at the step limit if and only if every reply it asked for called for tools until no turn was left |
| `AgentHistory.StepLimitIsCommitted` | internal/agent/agent.go:179-185 | then the user sees the step-limit error and then done, and the exchange is committed, at any limit |
| `AgentHistory.DisciplinedConversationIsPaired` | internal/agent/agent.go:140-158 | so it always does when the model calls tools only with the tool_use stop reason, at the turn limit too |
| `AgentHistory.OpenStaysOpen` | internal/agent/agent.go:138-143 | a tool call left unanswered once is never repaired by later questions |
| `AgentHistory.ConversationIsBounded` | internal/agent/limits.go:65-69 | no tool result in any conversation exceeds the cap by more than the notice |
| `AgentHistory.RunAttempts` | internal/agent/agent.go:104 | a question costs at most two model calls for each allowed turn |
| `AgentHistory.LoopShows` | internal/agent/agent.go:104-184 | the events of a run are text and closed tool calls, then done, or the step-limit error and done, or nothing when it fails |
| `AgentHistory.LoopIgnoresShown` | internal/agent/agent.go:95-185 | the outcome does not depend on what was emitted before |
| `ChatServer.HandleChat` | internal/server/server.go:132-199 | a valid request commits a successful run and leaves the history element for element as it was after a failed one, counting what its replies used in both cases; a refused request changes, emits and counts nothing |
| `ChatServer.StreamsFollowTheGrammar` | internal/server/server.go:159-197 | every streamed reply is text and closed tool calls followed by one done (after at most the step-limit error) or by one error and no done |
| `ChatServer.ErrorMeansFailureExactly` | internal/server/server.go:180-197 | an error event is shown if and only if the run fails, and then nothing is kept, or the replies run out of turns, and then the exchange is kept |
| `ChatServer.StepLimitShowsError` | internal/agent/agent.go:179-185 | a question that is answered with an error and kept: one turn allowed, one tool call |
| `SerialChats.HistoryIsSerial` | internal/server/server.go:164-197 | in every interleaving of requests on one session that append their turns one by one into shared arrays, the history is the fold of the finished runs in lock order, failed ones adding nothing; in particular what a request commits is what its run returns |
| `SerialChats.RunningSlicesAreStable` | internal/server/server.go:164-167 | a step of another request never changes the slice a running one works on |
| `SerialChats.NobodyWaitsForNobody` | internal/server/server.go:165-167 | the mutex is never lost: when no request runs, every waiting one can go ahead |
| `SessionStore.Store.Get` | internal/session/session.go:39-50 | the table afterwards: a known id keeps its session and is marked seen, an unknown one gets a new empty session |
| `SessionStore.Store.Reap` | internal/session/session.go:54-66 | exactly the sessions idle longer than the TTL are removed, and counted |
| `SessionStore.GetsWithinTtlAgree` | internal/session/session.go:39-66 | two calls for an id at most a TTL apart return the same session, however reaps interleave |
| `SessionStore.OverlappingRequestsShareASession` | internal/server/server.go:164-167 | requests for one id that each end within a TTL of their own call and overlap in time run on one session, so its mutex orders them |
| `SessionStore.ChainOfGetsAgrees` | internal/session/session.go:39-50 | a conversation used at least once per TTL is kept as long as that lasts |
| `SessionStore.NextGetReturnsTheSameExactly` | internal/session/session.go:54-66 | the next call for an id returns the same session if and only if no reap in between came more than a TTL after the last one |
| `SandboxProvider.Provider.Acquire` | internal/broker/sandbox.go:74-102 | uninterrupted: a known session is only touched; an unknown one gets the new sandbox, or nothing on failure; a sandbox without an address is given up for deletion |
| `SandboxProvider.Provider.Lookup` | internal/broker/sandbox.go:75-82 | the first critical section: the session's address if it has one, and only its time changed |
| `SandboxProvider.Provider.Insert` | internal/broker/sandbox.go:96-98 | the second critical section: the entry is replaced whether or not there is one by now |
| `SandboxProvider.Provider.Targets` | internal/broker/sandbox.go:105-113 | the address of every session and of no other |
| `SandboxProvider.Provider.Release` | internal/broker/sandbox.go:116-127 | a known session is removed and its own claim requested for deletion; an unknown one changes nothing |
| `SandboxProvider.Provider.Reap` | internal/broker/sandbox.go:135-151 | exactly the idle sessions are removed and each of their claims is requested for deletion once, in any order |
| `SandboxOwnership.CreatedClaimsPartition` | internal/broker/sandbox.go:74-151 | in every interleaving each created sandbox is in flight, mapped, about to be deleted, requested for deletion or overwritten: exactly one of these and once, with no two sessions or requests sharing one |
| `SandboxOwnership.NoOverlapNoLeak` | internal/broker/sandbox.go:74-102 | nothing is overwritten while no two first Acquires of one session overlap |
| `SandboxOwnership.OverwritesExactly` | internal/broker/sandbox.go:96-98 | an Acquire that missed its session overwrites a sandbox if and only if another one filled the session since and it was neither released nor reaped again |
| `SandboxOwnership.OverwrittenIsNeverDeleted` | internal/broker/sandbox.go:116-151 | an overwritten sandbox is never mapped again, nor requested for deletion |
| `SandboxOwnership.InUseIsKept` | internal/broker/sandbox.go:74-82 | in every interleaving, a session used at some time keeps its sandbox, which nobody is about to delete, until it is released, mapped anew or reaped more than a TTL later |
| `SandboxOwnership.EvictedExactly` | internal/broker/sandbox.go:135-151 | in every interleaving, a session used at some time and left alone since keeps its entry if and only if no reap has come more than a TTL later; otherwise its sandbox is about to be deleted or its deletion requested |
| `SandboxOwnership.ReapTakesTheIdle` | internal/broker/sandbox.go:135-145 | a reap takes out exactly the sessions last seen more than a TTL before it and dooms their claims |
| `SandboxOwnership.AddressesAreTheSessionsOwn` | internal/broker/sandbox.go:84-98 | the address under a session is always that of a sandbox created for this session, under its claim |
| `SandboxOwnership.AcquireEnds` | internal/broker/sandbox.go:84-98 | an Acquire that failed or has inserted its entry holds no sandbox any more |
| `SandboxOwnership.QuietProviderDeletesAllButTheOverwritten` | internal/broker/sandbox.go:17-18 | with no session and no request left, each sandbox ever created has been requested for deletion once, or was overwritten |
| `SandboxOwnership.OverlappingAcquiresLeak` | internal/broker/sandbox.go:74-98 | a run of two overlapping requests after which one sandbox is left behind for good |
| `TruncateResult.TruncateToolResult` | internal/agent/limits.go:74-85 | the loop finds the last character start at or below the cap and appends the notice for that cut |
| `TruncateResult.TruncatedIsFaithful` | internal/agent/limits.go:74-85 | a text within the cap is unchanged; above it the result reads back as a beginning of the text with the cut and the full length |
| `TruncateResult.CutKeepsUtf8` | internal/agent/limits.go:71-81 | valid text is cut at most three bytes below the cap, at the last place where both halves are valid, and the result is valid UTF-8 |
| `TruncateResult.TruncatedIsBounded` | internal/agent/limits.go:65-69 | any result, valid or not, is at most 200 bytes over the cap |
| `TruncateResult.NoticeReadsBack` | internal/agent/limits.go:82-84 | the text kept and both counts can be read back from a truncated result, whatever the text |
| `Utf8.StartsAreBoundaries` | internal/agent/limits.go:79 | in valid UTF-8 the rune starts are exactly the places where the text can be cut |
| `ServerSentEvents.Response.WriteEvent` | internal/server/server.go:228-237 | one frame is appended, and the body reads back as exactly the events written so far |
| `ServerSentEvents.StreamReadsBack` | internal/server/server.go:228-237 | parsing the frames of any events gives the same events in the same order |
| `ServerSentEvents.MessageReads` | internal/agent/agent.go:37-43 | a field other than the type is in the JSON exactly if it is not empty, omitted ones read back as empty, and the type in the JSON is the name of the frame |
| `ServerSentEvents.CutStreamsReadAPrefix` | internal/server/server.go:228-237 | a stream cut at any character gives a prefix of its events |
| `ServerSentEvents.Response.WriteDegrade` | internal/broker/server.go:160-173 | the two frames are appended, and on a fresh response the body reads as one error and done |
| `ServerSentEvents.DegradeReadsBack` | internal/broker/server.go:160-173 | the degraded answer reads as one error with its message, then done |
| `ServerSentEvents.DegradeIsTwoFrames` | internal/broker/server.go:168-169 | the frames written out by hand have the form of the agent's frames |
| `ServerSentEvents.RestingJsonIsAnObject` | internal/broker/server.go:168 | the hand-written JSON of the degraded answer is what encoding its two fields gives |
| `Json.ObjectReadsBack` | internal/server/server.go:231 | decoding by section 7 of RFC 8259 inverts encoding for every record of strings |
| `Json.MembersAreOneLine` | internal/server/server.go:231-236 | encoded text has no raw line break, control character or markup, so it fits on one data line |

## Left out

- HTTP: routing, headers, health and usage routes, request decoding beyond accepted or refused, and the reverse proxy.
- The model SDK, the MCP client and the cluster client are oracles: replies are arbitrary finite chunk sequences with any ending, a tool call returns any text, creating a sandbox fails or returns a claim name not returned before.
- The SDK's accumulation of chunks is restated in `ModelStream.Accumulate`: a stream begins with one message start, blocks start without text, and deltas extend the last block.
- The fetch of a counter looks at no HTTP status (`internal/broker/usage.go:76-86`). The conservation results assume that a reply that decodes is the true counter of the agent that answers at the URL, which serves the key the URL was listed under: the agent listed when the poll began, or one that is listed for the key when it answers.
- `json.Marshal` and `fmt.Fprintf` are restated for records of strings; texts are Unicode scalar values, so Go's replacement of invalid UTF-8 in events is not modelled. Retry fields of an event stream do not change what is received and are ignored.
- `UsagePoller.FailedFetchesOnlyDefer`: is about the polls of one day in which no agent's samples go back. Across midnight a deferred sample is booked on the later day, and a replacement hidden by a failure is `HiddenReplacement`; `PolledRuns.PolledTokensAreConserved` covers both.
- Arithmetic: float64 rounding in the limiter (real numbers), and overflow of counters and times (unbounded integers). Clocks do not go back.
- Mutexes, tickers and goroutines appear as the atomic steps they separate; a mutex is not assumed to be fair.
- `SandboxProvider.Provider.Acquire`: its contract is for a call that nothing interrupts; the two critical sections interleaved are module `SandboxOwnership`.
- `SandboxOwnership.CreatedClaimsPartition`: counts requests for deletion, not whether the cluster carries them out, and does not cover `Close`, which asks the SDK to delete everything.
- `SerialChats.HistoryIsSerial`: memory is a list of arrays with in-place append, one step per append; which turns a request appends is given by the contract of `AgentLoop.Run`, that they end up in its slice undisturbed is proved.
- The number of live sessions (`Len`), which is the size of the map.
- The metrics, traces and logs of `Run` and both `handleChat`s, except the broker's chat outcome.
- `convertTools`, `resultText`, `clientIP`, `userErrorText`, `UserMessage`, `retryAfter`, `DirectProvider`, configuration and both `main` functions: single-branch code that would add easy members.
