# Verification of the gateway's scheduling, streaming and store logic

A Dafny model of four parts of the gateway, with proofs of what they promise.

- **Key scheduling.** `SmoothRoundRobin` states one pick of smooth weighted round robin as a
  relation that leaves the tie-break open, and proves its fairness. `KeyScheduler` is the pool
  with its concurrency caps, cooling and dead keys; `LuaScheduler` is the acquire script of the
  Redis mode; both are shown to make such picks. `KeyHistory` judges the pool by the operations and
  the answers that came before. `KeyAffinity` binds conversations to keys.
- **Streaming.** `Chunks` are decoded OpenAI chunks. `ClaudeStream`, `GeminiStream` and
  `ResponsesStream` say what the three translators do, each judged by an independent strict client
  that reads the events; `ClaudeTranslator`, `GeminiTranslator` and `ResponsesTranslator` are the
  objects that do it in place. `ResponsesOutputIndexes` and `ResponsesEquivalence` hold the two
  theorems about numbering and about streaming against non-streaming; `ResponsesObject` is what
  the non-streaming side renders. `ClaudeHeader`, `GeminiHeader` and `ResponsesContents` say what
  the events, objects and messages hold, in terms of the chunks alone. `SseFraming` is the printer and the parser of server-sent events
  (section 9.2.6 of the WHATWG HTML Living Standard, with the deviations that its head names),
  `Relay` the loop between parser and translator, `EndToEnd` their composition from bytes to
  client events, `StreamReports` what a translator reports to the retry loops. `ChunkJson` decodes
  JSON trees into chunks, `StreamGuard` is the inspection of a stream's first bytes, `StreamDrain` the reader and main loop that drain a
  body, as a step system over all interleavings. `RequestLoop` holds the retry loops around
  upstream calls, against a world that answers as it likes.
- **The linked store.** `StoreData` holds keys, proxies and core profiles and the invariant of
  their references. `CorePorts` allocates local ports in place, `CoreSync` synchronizes managed
  proxies with profiles, `ProxyGrouping` ranks the members of a group and shares keys among
  them. `StoreOps` says what every mutator does, `StoreInvariant` proves that each of them keeps
  the invariant, `StoreEffects` tells what becomes of every record under a change, `StoreImports`
  what the two bulk imports add, `CoreLooks` what the start of the core makes of profiles and
  proxies, and `GatewayStore` has the mutators as methods of a store that changes in place, and the
  transaction that runs them on a copy.
- **Proxy failover.** `ProxyFailover` is the table of runtime redirects and the choice of a
  replacement.

Where a class changes state, its methods are proved against a specification function of the old
state (`View() == Spec(old(View()))`), and the theorems are about those functions. Beside the
theorems about runs there are lemmas that tell what an operation comes to without naming the
functions that define it: in terms of histories, of chunks, of the records of the store, and of what
a client is shown. Folds over
sequences take the last element off, because the code appends. `Text` and `Sorting` stand for the
few library functions that the code relies on.

## Findings

Where the code does less than its comments or its callers suggest, the model follows the code, and
the condition under which the promise holds is proved to be exact:

- No translator's Consume looks at whether the stream was finished, and the relay reads on behind
  [DONE]. The traces are well-formed exactly when nothing that emits arrives there
  (`ClaudeStream.TraceGrammar`, `GeminiStream.TraceGrammar`, `ResponsesStream.TraceGrammar`).
- A payload that does not decode makes the relay return without finishing the stream
  (pkg/gateway/stream_live_compat.go:463, 474), although its caller takes it to be finished (198-203).
  A Claude or Gemini client is content exactly when nothing was emitted before that, or the stream
  had its [DONE] already (`EndToEnd.ClaudeEndToEnd`, `EndToEnd.GeminiEndToEnd`); otherwise it keeps an
  open message (`EndToEnd.BrokenStreamStaysOpen`). A Responses client is sent response.failed, which
  is one event too many exactly when the stream had ended with something sent
  (`EndToEnd.ResponsesEndToEnd`).
- Gemini arguments that arrive only behind [DONE] make the stream count as not empty, so the
  client gets nothing and no other key is tried (`StreamReports.GeminiReportExact`).
- The message of a Responses stream always has output index 0; it collides with the first function
  call exactly when a tool fragment comes before the first text
  (`ResponsesOutputIndexes.OutputIndexes`).
- A streamed Responses object has a message item for any text that is not empty, the rendered one
  for text that is not blank or when there are no calls; the two agree exactly when these coincide
  (`ResponsesEquivalence.StreamEqualsResult`).
- The lines that fill in the id of a call from a later fragment (pkg/gateway/responses.go:564-566)
  never fire, because the first fragment makes an id up. Object and stored message differ from the
  rendered ones exactly when some first fragment lacks the id (`ResponsesEquivalence.LateIdIsLost`).
- The guard does not see an unterminated last line, although the relay dispatches it at the end of
  the input (`StreamGuard.CutAlike`, `StreamGuard.UnterminatedLineEscapes`).
- A failover whose replacement was itself redirected to the failed proxy leaves everything at the
  failed proxy (`ProxyFailover.OriginAbandoned`); two proxies that fail one after the other come to
  this once the first has cooled down (`ProxyFailover.FailoverInACircle`).
- A backoff that is cut short leaves the retry loop after a transport error, but only the switch
  after a transient status (`RequestLoop.CutCallEndsAttempt`).
- The answer "" stands for "no key", but a key of that name can be added. The Go scheduler then
  leases it unseen, exactly when it is the first best key (`KeyScheduler.LeakCondition`); the script
  takes no lease, but the weights it has added stay (`LuaScheduler.AgreesUnlessNameless`,
  `LuaScheduler.NamelessCreatesCredit`). The handlers of the administration refuse a blank key
  (pkg/gateway/admin.go:551-563), so this concerns direct callers of AddKey only; without such a key
  nothing leaks (`KeyScheduler.NamedRunNeverLeaks`).
- A cooling entry is dropped as soon as some operation sees a later time. If the clock is then set
  back, the key is leased while it should cool, and only then (`KeyHistory.CoolingKeyLeasedExactly`).

## Model

| member | source | states |
|---|---|---|
| SmoothRoundRobin.PickConserves | pkg/scheduler/redis.go:174-200 | a pick, by whatever tie-break, leaves the sum of all current weights unchanged |
| SmoothRoundRobin.PrefixFairness | pkg/scheduler/redis.go:174-200 | after t all-eligible picks over n keys of total weight T each current weight is above -T and at most (n-1)T, and key i was picked at least t*w/T-(n-1) and fewer than t*w/T+1 times |
| SmoothRoundRobin.NoStarvation | pkg/scheduler/redis.go:174-200 | a key that is passed over m times in a row has m*w < n*T, so no key waits n*T/w picks |
| SmoothRoundRobin.ExactPeriod | pkg/scheduler/redis.go:174-200 | with positive whole weights summing to T, T picks from fresh choose each key exactly its weight times and bring every current weight back to 0 |
| SmoothRoundRobin.CreditBalance | pkg/scheduler/redis.go:174-200 | the current weight of a key is what it has earned minus T for each of its picks |
| KeyScheduler.WinnerIsFirstMaximum | pkg/scheduler/redis.go:177-196 | the selection loop finds the first eligible key with the greatest bumped weight, and nothing exactly when no key is eligible |
| KeyScheduler.AcquireChoice | pkg/scheduler/redis.go:160-201 | an acquire picks an active key that is neither dead nor cooling and below the cap, returns none exactly when there is none, and its pick is a smooth weighted round robin pick |
| KeyScheduler.CreditConserved | pkg/scheduler/redis.go:141-371 | no operation changes the sum of current weights, except that MarkDead takes away the dead key's share and Reset drops everything |
| KeyScheduler.NamesKept | pkg/scheduler/redis.go:141-158 | every operation keeps the active keys' names distinct |
| KeyScheduler.LeaseCounters | pkg/scheduler/redis.go:160-371 | in every run with a constant cap each counter stays between 0 and the cap and never exceeds the leases outstanding; it equals them unless the key was marked dead or the pool reset |
| KeyScheduler.LeaseCountersFromEmpty | pkg/scheduler/redis.go:137-371 | the same from an empty pool, with no assumption on the state |
| KeyScheduler.FairRunIsRoundRobin | pkg/scheduler/redis.go:160-201 | acquires that find every key eligible form a run of the abstract round robin, whatever releases, specific acquires and coolings come between |
| KeyScheduler.SchedulerPeriod | pkg/scheduler/redis.go:160-201 | the exact period for the scheduler itself |
| KeyScheduler.SchedulerFairness | pkg/scheduler/redis.go:160-201 | the fair share at every prefix for the scheduler itself |
| KeyScheduler.Scheduler.constructor | pkg/scheduler/redis.go:128-135 | an empty pool |
| KeyScheduler.Scheduler.AddKey | pkg/scheduler/redis.go:141-158 | a known key gets the new weight and keeps its current weight; a new key is appended with current weight 0 |
| KeyScheduler.Scheduler.CleanupExpired | pkg/scheduler/redis.go:429-466 | exactly the coolings that end before now are dropped |
| KeyScheduler.Scheduler.SelectKey | pkg/scheduler/redis.go:174-194 | the loop bumps every eligible key and finds the first maximum and the eligible total |
| KeyScheduler.Scheduler.AcquireKey | pkg/scheduler/redis.go:160-201 | the pool afterwards and the key returned are those of the specified acquire |
| KeyScheduler.Scheduler.TryAcquireSpecificKey | pkg/scheduler/redis.go:218-259 | a lease of this key is granted exactly when it is active, not dead, not cooling and below the cap; nothing else changes but expired coolings |
| KeyScheduler.Scheduler.ReleaseKey | pkg/scheduler/redis.go:279-292 | a positive counter goes down by one; the empty name and an idle key change nothing |
| KeyScheduler.Scheduler.MarkCooling | pkg/scheduler/redis.go:294-306 | the key cools until the given time |
| KeyScheduler.Scheduler.MarkDead | pkg/scheduler/redis.go:308-326 | the key is dead, and its current weight and counter are gone |
| KeyScheduler.Scheduler.Reset | pkg/scheduler/redis.go:337-349 | nothing is left |
| KeyScheduler.PickIsFirstBest | pkg/scheduler/redis.go:174-196 | an acquire picks the i-th key if and only if it is available, no available key has more bumped credit, and no earlier one as much |
| KeyScheduler.LeakCondition | pkg/scheduler/redis.go:160-200 | an acquire answers "" and yet changes a counter if and only if an available key named "" has the first greatest bumped credit |
| KeyScheduler.NamedRunNeverLeaks | pkg/scheduler/redis.go:141-371 | a run that adds no key named "" reaches no pool from which an acquire leaks |
| KeyHistory.GrantedExactly | pkg/scheduler/redis.go:218-259 | after any history from an empty pool: a request for one key is granted if and only if that key was added, was not marked dead since, does not cool at this time, and has fewer leases out than the cap, at least 1 |
| KeyHistory.AcquiredExactly | pkg/scheduler/redis.go:160-201 | after any history: an acquire answers with such a key, and with none only if there is none |
| KeyHistory.DeadKeyIsNotLeased | pkg/scheduler/redis.go:308-326 | after a key was marked dead no operation leases it, whatever but a reset comes in between |
| KeyHistory.CoolingKeyIsNotLeased | pkg/scheduler/redis.go:294-306 | until the time given a cooling key is leased by no operation, unless it is given another time or the pool is reset |
| KeyHistory.CoolingStaysExactly | pkg/scheduler/redis.go:167-172 | a key cools as told if and only if no operation has looked at the table at a later time since |
| KeyHistory.CoolingKeyLeasedExactly | pkg/scheduler/redis.go:167-172 | if the clock is set back, a key is leased while it cools if and only if some operation has seen a time after the one given |
| KeyHistory.HistoryWeights | pkg/scheduler/redis.go:141-158 | the keys of the pool are those added, in the order of their first addition, each with its last weight |
| KeyHistory.HistoryTold | pkg/scheduler/redis.go:160-349 | dead marks, cooling times and counters are those that the history tells |
| LuaScheduler.Script.Visit | pkg/scheduler/redis.go:27-53 | one round of the script's loop keeps its variables those of the Go loop after as many keys |
| LuaScheduler.Script.Bump | pkg/scheduler/redis.go:25-53 | the script's loop over the score order makes the same selection as the Go loop |
| LuaScheduler.Script.Acquire | pkg/scheduler/redis.go:20-64 | the script answers what the Go scheduler would answer for the keys in score order; it leaves the same credits and counters, unless the winner has no name: then it has only bumped |
| LuaScheduler.AgreesUnlessNameless | pkg/scheduler/redis.go:56-64 | credits and counters are those of the Go scheduler if and only if no key named "" is the first best one |
| LuaScheduler.NamelessCreatesCredit | pkg/scheduler/redis.go:56-58 | a winner without a name takes no lease and pays nothing back, so that the eligible weight is added to the sum of current weights |
| LuaScheduler.CallsAreRoundRobin | pkg/scheduler/redis.go:20-64 | calls of the script that find every key usable form a run of the abstract round robin, whatever other commands do to leases, coolings and dead keys in between |
| LuaScheduler.ScriptPeriod | pkg/scheduler/redis.go:20-64 | the exact period for the script |
| LuaScheduler.ScriptFairness | pkg/scheduler/redis.go:20-64 | the fair share at every prefix for the script |
| KeyAffinity.Affinity.Refresh | pkg/gateway/proxy.go:83-95 | an existing binding stays unless the refresh is forced; other conversations are untouched |
| KeyAffinity.Affinity.Clear | pkg/gateway/proxy.go:97-99 | only a binding to this very key is dropped |
| KeyAffinity.Affinity.AcquireQueued | pkg/gateway/proxy.go:131-187 | the first answer of the polls that names a key, with a default cap of 3; one lease of it is taken, and none of any other named key |
| KeyAffinity.Affinity.AcquirePreferred | pkg/gateway/proxy.go:64-81 | the bound key is reused if and only if the scheduler grants it; otherwise the first answer of the polls is taken; exactly one lease of the key returned and none of any other named key |
| KeyAffinity.AcquireTakesOne | pkg/scheduler/redis.go:198-200 | an acquire raises the counter of the key it answers by one, that of "" exactly when it leaks, and no other |
| KeyAffinity.EmptyNameLeaks | pkg/scheduler/redis.go:154-200 | a pool that meets the condition of LeakCondition: its only key has an empty name |
| ClaudeStream.SummaryMeaning | pkg/gateway/stream_live_compat.go:709-751 | tool blocks are kept once per index, in order of first appearance, with all argument fragments joined |
| ClaudeStream.ChoicesKeep | pkg/gateway/stream_live_compat.go:534-595 | while chunks come in, the client that reads the events has exactly the text and the kept tool fragments consumed so far |
| ClaudeStream.FinishBegun | pkg/gateway/stream_live_compat.go:597-642 | Finish stops every open block once, then sends message_delta and message_stop, and the client has everything |
| ClaudeStream.CompleteStream | pkg/gateway/stream_live_compat.go:534-751 | for every chunk sequence: no event at all when there is neither text nor a kept fragment, otherwise an accepted trace whose text and tool inputs are those of the chunks |
| ClaudeStream.TraceGrammar | pkg/gateway/stream_live_compat.go:534-642 | for every run: the trace is well-formed if and only if no text, argument or new tool arrives behind the first Finish; further Finish calls change nothing |
| ClaudeStream.LateTextBreaksTheTrace | pkg/gateway/stream_live_compat.go:544-561 | one more text fragment behind [DONE] breaks the trace, because Consume does not look at finished |
| ClaudeTranslator.Translator.constructor | pkg/gateway/stream_live_compat.go:509-517 | a translator that has consumed and sent nothing |
| ClaudeTranslator.Translator.Emit | pkg/gateway/stream_live_compat.go:753-781 | the event is appended to the output |
| ClaudeTranslator.Translator.EnsureStarted | pkg/gateway/stream_live_compat.go:662-682 | message_start is sent once |
| ClaudeTranslator.Translator.EnsureTextBlock | pkg/gateway/stream_live_compat.go:684-699 | a text block is opened unless one is open |
| ClaudeTranslator.Translator.CloseTextBlock | pkg/gateway/stream_live_compat.go:701-707 | an open text block is stopped |
| ClaudeTranslator.Translator.ConsumeToolCall | pkg/gateway/stream_live_compat.go:709-751 | the tool block of the index is opened or completed and gets the arguments |
| ClaudeTranslator.Translator.ConsumeToolCalls | pkg/gateway/stream_live_compat.go:584-588 | all fragments of a choice in order |
| ClaudeTranslator.Translator.ConsumeCalls | pkg/gateway/stream_live_compat.go:566-589 | fragments that are all blank are dropped; otherwise the text block is closed first |
| ClaudeTranslator.Translator.ConsumeText | pkg/gateway/stream_live_compat.go:545-565 | text goes to an open text block |
| ClaudeTranslator.Translator.ConsumeChoice | pkg/gateway/stream_live_compat.go:544-593 | text before tools before the finish reason |
| ClaudeTranslator.Translator.NoteChunk | pkg/gateway/stream_live_compat.go:535-543 | model and id stick once they are not blank, usage is replaced |
| ClaudeTranslator.Translator.ConsumeChoices | pkg/gateway/stream_live_compat.go:544-594 | the choices of a chunk in order |
| ClaudeTranslator.Translator.Consume | pkg/gateway/stream_live_compat.go:534-595 | the state after a chunk is the specified one |
| ClaudeTranslator.Translator.CloseToolBlock | pkg/gateway/stream_live_compat.go:616-624 | a tool block is stopped unless it is closed |
| ClaudeTranslator.Translator.CloseToolBlocks | pkg/gateway/stream_live_compat.go:615-625 | all tool blocks in order of first appearance |
| ClaudeTranslator.Translator.Finish | pkg/gateway/stream_live_compat.go:597-642 | the state after Finish is the specified one |
| ClaudeTranslator.AnyMeaningful | pkg/gateway/stream_live_compat.go:568-574 | whether some fragment of the choice has a field that is not blank |
| ClaudeHeader.DeltaMeaning | pkg/gateway/stream_live_compat.go:627-637 | for every chunk sequence that emits: the last event but one gives the stop reason of the last finish reason that is not empty (tool_use for tool_calls, end_turn for length, stop and none, any other as it is) and the completion tokens of the last usage, or 100 |
| ClaudeHeader.StartMeaning | pkg/gateway/stream_live_compat.go:662-682 | for every chunk sequence: message_start has the first id and the first model that are not blank up to the chunk that starts it, and the prompt tokens of the last usage so far, or 100 |
| ClaudeHeader.ToolMeaning | pkg/gateway/stream_live_compat.go:709-751 | the j-th tool block is that of the j-th index to appear: it has the id and the name of its first fragment, or toolu_ and tool_ with the index, and all arguments joined |
| Chunks.KeptMeaning | pkg/gateway/stream_live_compat.go:566-583 | the fragments of a choice are dropped if and only if white space is all that is in any field of any of them |
| Sorting.SortedSorts | pkg/gateway/stream_live_compat.go:836-836 | the sorted indices are strictly ascending and are the same indices |
| GeminiStream.GatherMeaning | pkg/gateway/stream_live_compat.go:806-820 | per tool index the first non-empty name and every argument fragment are gathered |
| GeminiStream.KeysSentMeaning | pkg/gateway/stream_live_compat.go:836-840 | function calls go out once per tool index that occurred, in ascending order |
| GeminiStream.FinishDelivers | pkg/gateway/stream_live_compat.go:828-881 | Finish sends one function call per gathered index and then the final event |
| GeminiStream.CompleteStream | pkg/gateway/stream_live_compat.go:783-881 | for every chunk sequence: no event without text and arguments, otherwise an accepted trace with exactly the text and with every fragment kept |
| GeminiStream.TraceGrammar | pkg/gateway/stream_live_compat.go:783-881 | for every run: the trace is well-formed if and only if no text arrives behind the first Finish |
| GeminiHeader.FinalMeaning | pkg/gateway/stream_live_compat.go:856-881 | for every chunk sequence that emits: the final event gives STOP for length, tool_calls, stop and none, and otherwise the upper-case reason, of the last finish reason that is not empty; and the counts of the last usage |
| GeminiHeader.EventsNameTheModel | pkg/gateway/stream_live_compat.go:783-881 | whatever is done to the translator, every event names the requested model |
| GeminiTranslator.Translator.constructor | pkg/gateway/stream_live_compat.go:512-518 | a translator that has consumed and sent nothing |
| GeminiTranslator.Translator.Emit | pkg/gateway/stream_live_compat.go:898-922 | the event is appended to the output and the translator has started |
| GeminiTranslator.Translator.GatherToolCall | pkg/gateway/stream_live_compat.go:806-820 | a fragment is gathered under its index |
| GeminiTranslator.Translator.ConsumeToolCalls | pkg/gateway/stream_live_compat.go:806-821 | all fragments of a choice in order |
| GeminiTranslator.Translator.ConsumeChoice | pkg/gateway/stream_live_compat.go:790-824 | text goes out at once, fragments are gathered |
| GeminiTranslator.Translator.ConsumeChoices | pkg/gateway/stream_live_compat.go:790-825 | the choices of a chunk in order |
| GeminiTranslator.Translator.Consume | pkg/gateway/stream_live_compat.go:783-826 | the state after a chunk is the specified one |
| GeminiTranslator.Translator.EmitCalls | pkg/gateway/stream_live_compat.go:837-861 | one function call per sorted index |
| GeminiTranslator.Translator.Finish | pkg/gateway/stream_live_compat.go:828-881 | the state after Finish is the specified one |
| ResponsesObject.NormalizeIdempotent | pkg/gateway/responses.go:720-734 | normalizing arguments twice is normalizing them once |
| ResponsesObject.BuildResponse | pkg/gateway/responses.go:116-166 | the response object of a whole result is the specified one |
| ResponsesObject.BuildAssistant | pkg/gateway/responses.go:177-204 | the stored assistant message of a whole result is the specified one |
| ResponsesStream.GatherTool | pkg/gateway/responses.go:534-583 | per tool index: the first fragment's id, the first non-empty name, all arguments joined |
| ResponsesStream.ChoicesKeep | pkg/gateway/responses.go:304-343 | while chunks come in, the client shows one item for the text and one for each tool index, with exactly what was consumed |
| ResponsesStream.FinishDelivers | pkg/gateway/responses.go:353-466 | Finish closes every item once with its joined text or normalized arguments, completes the response and stores it |
| ResponsesStream.CompleteStream | pkg/gateway/responses.go:304-466 | for every chunk sequence: no event without text and fragments, otherwise an accepted trace that ends with response.completed and [DONE] and delivers everything |
| ResponsesStream.TraceGrammar | pkg/gateway/responses.go:304-466 | for every run: the trace is well-formed if and only if nothing that emits arrives behind the first Finish |
| ResponsesStream.FailedStream | pkg/gateway/responses.go:468-492 | an error before the end of the stream leaves an accepted trace that ends with response.failed and its message, and [DONE] |
| ResponsesStream.FailedTooLate | pkg/gateway/responses.go:276-277 | an error behind the end of the stream, and behind whatever follows it, spoils the trace if and only if the stream had anything to send before its end |
| ResponsesContents.CallsArePassedOn | pkg/gateway/responses.go:410-446 | for every chunk sequence and tool index: the client is given the joined arguments as {} if they are blank, as they print if they are JSON, and otherwise as they came |
| ResponsesContents.StreamedObject | pkg/gateway/responses.go:585-634 | the object that ends a stream has the model, the counts of the last usage, the trimmed text, and the calls by ascending index with their arguments passed on likewise |
| ResponsesContents.StreamedItems | pkg/gateway/responses.go:585-634 | every item of that object is one that the client was shown, with the same id, call, name and arguments, or text |
| ResponsesContents.StreamedMessage | pkg/gateway/responses.go:692-718 | the stored message has the trimmed text and the same calls |
| ResponsesContents.RenderedObject | pkg/gateway/responses.go:116-166 | the object of a whole result, told field by field: the message item if there is text or no call, then the calls with their arguments passed on |
| ResponsesContents.RenderedMessage | pkg/gateway/responses.go:177-204 | the stored message of a whole result, told field by field |
| ResponsesContents.CallsAreDone | pkg/gateway/responses.go:409-446 | the calls are done once each, by ascending tool index |
| ResponsesContents.ContentMeaning | pkg/gateway/responses.go:304-343 | the translator has seen content if and only if some choice had text or a fragment that is not blank |
| ResponsesContents.EventsNameTheModel | pkg/gateway/responses.go:304-492 | whatever is done to the translator, created, completed and failed name the requested model |
| ResponsesOutputIndexes.BareMeaning | pkg/gateway/responses.go:684-690 | some function calls are numbered from 0 exactly when a tool fragment comes before the first text |
| ResponsesOutputIndexes.OutputIndexes | pkg/gateway/responses.go:494-548 | the items' output indices are pairwise distinct if and only if no tool fragment comes before the first text of a stream with text |
| ResponsesEquivalence.StreamEqualsResult | pkg/gateway/responses.go:116-212 | for every fragmentation of a message: the streamed object equals the rendered one, up to made-up ids, if and only if both or neither have a message item and the first fragment of every call carries its id; the stored assistant messages agree if and only if all calls are of type function or of none and their ids come first |
| ResponsesEquivalence.BlankTextBesideACallDiffers | pkg/gateway/responses.go:123-139 | blank text beside a tool call: the stream renders a message item, the whole result does not |
| ResponsesEquivalence.LateIdIsLost | pkg/gateway/responses.go:564-566 | a call whose id comes with its second fragment keeps a made-up id, in the object and in the stored message |
| ResponsesTranslator.Translator.constructor | pkg/gateway/responses.go:288-302 | a translator that has consumed and sent nothing |
| ResponsesTranslator.Translator.Write | pkg/gateway/responses.go:664-681 | the event is appended to the output |
| ResponsesTranslator.Translator.EmitEvent | pkg/gateway/responses.go:636-682 | response.created precedes the first event |
| ResponsesTranslator.Translator.StartMessage | pkg/gateway/responses.go:498-500 | the message item gets index 0 and a new id |
| ResponsesTranslator.Translator.EnsureMessageItem | pkg/gateway/responses.go:494-532 | the message item and its part are added once |
| ResponsesTranslator.Translator.ConsumeText | pkg/gateway/responses.go:312-327 | text goes to the message item |
| ResponsesTranslator.Translator.StartCall | pkg/gateway/responses.go:534-546 | a new function call gets the next output index and its ids |
| ResponsesTranslator.Translator.OpenCall | pkg/gateway/responses.go:534-566 | the first fragment for an index adds its item |
| ResponsesTranslator.Translator.AddArguments | pkg/gateway/responses.go:567-582 | a fragment may fill in the name, and its arguments are sent on |
| ResponsesTranslator.Translator.TakeFragment | pkg/gateway/responses.go:534-583 | a fragment for a new or known index |
| ResponsesTranslator.Translator.ConsumeToolCall | pkg/gateway/responses.go:329-337 | a fragment that is not blank counts as content; all are consumed |
| ResponsesTranslator.Translator.ConsumeToolCalls | pkg/gateway/responses.go:328-337 | all fragments of a choice in order |
| ResponsesTranslator.Translator.ConsumeChoice | pkg/gateway/responses.go:311-341 | text before tools before the finish reason |
| ResponsesTranslator.Translator.ConsumeChoices | pkg/gateway/responses.go:311-342 | the choices of a chunk in order |
| ResponsesTranslator.Translator.Consume | pkg/gateway/responses.go:304-343 | the state after a chunk is the specified one |
| ResponsesTranslator.Translator.CloseMessage | pkg/gateway/responses.go:361-405 | text, part and message are done with the joined text |
| ResponsesTranslator.Translator.CloseCall | pkg/gateway/responses.go:407-438 | arguments and item are done with the normalized arguments |
| ResponsesTranslator.Translator.CloseCalls | pkg/gateway/responses.go:406-438 | all calls in ascending order of their indices |
| ResponsesTranslator.Translator.BuildResponseObject | pkg/gateway/responses.go:585-634 | the object is the specified one |
| ResponsesTranslator.Translator.AssistantConversationMessage | pkg/gateway/responses.go:698-718 | the assistant message is the specified one |
| ResponsesTranslator.Translator.Complete | pkg/gateway/responses.go:440-465 | object and message are stored, then response.completed and [DONE] are sent |
| ResponsesTranslator.Translator.Finish | pkg/gateway/responses.go:353-466 | the state after Finish is the specified one |
| ResponsesTranslator.Translator.Error | pkg/gateway/responses.go:468-492 | response.failed and [DONE] are sent |
| SseFraming.ScanAppend | pkg/gateway/stream_live_compat.go:339-342 | parsing depends on the concatenated bytes only, not on where reads cut them |
| SseFraming.PrintThenParse | pkg/gateway/stream_live_compat.go:342-377 | frames of any fields, each line ended by \n or \r\n as one likes: the parser returns what the data lines of each frame say together, trimmed one by one and joined by newlines, unless that is blank |
| SseFraming.OpenFrameCounts | pkg/gateway/stream_live_compat.go:470-477 | a last frame that no empty line ends counts as well |
| SseFraming.LastLineCounts | pkg/gateway/stream_live_compat.go:457-477 | whether the last line is terminated makes no difference |
| SseFraming.WrittenCarries | pkg/gateway/stream_live_compat.go:753-781 | an event as the gateway writes it carries its payload |
| SseFraming.KeepAliveIsSilent | pkg/gateway/stream_live_compat.go:367-377 | a keep-alive comment carries nothing |
| Text.SpaceMeaning | pkg/gateway/stream_live_compat.go:345-345 | white space by its code points, as strings.TrimSpace takes it |
| SseFraming.ParseDispatches | pkg/gateway/stream_live_compat.go:342-359 | every payload dispatched is trimmed and not empty, whatever the input |
| SseFraming.ParsePrintParse | pkg/gateway/stream_live_compat.go:342-377 | payloads that were parsed, printed and parsed again are the same |
| Relay.EarlyFailure | pkg/gateway/stream_live_compat.go:356-358 | a payload that does not decode decides the result, whatever follows it |
| Relay.LineReader.ReadString | pkg/gateway/stream_live_compat.go:396-398 | the next line with its terminator, or what is left at the end, whatever the pieces are |
| Relay.FlushData | pkg/gateway/stream_live_compat.go:342-359 | pending data lines become one trimmed payload, which is fed, finishes the stream or fails |
| Relay.HandleLine | pkg/gateway/stream_live_compat.go:458-468 | an empty line flushes, a data line is kept, others are ignored |
| Relay.HandleEnd | pkg/gateway/stream_live_compat.go:470-491 | an unterminated last line counts; what is pending is flushed and the stream finished, unless an orderly end meets a payload that does not decode |
| Relay.Run | pkg/gateway/stream_live_compat.go:339-494 | what the relay does to a translator is a function of the bytes consumed: all of them, or whole lines up to an interruption |
| Relay.DispatchAll | pkg/gateway/stream_live_compat.go:342-359 | payloads that are all understood are dispatched one by one |
| Relay.DispatchUntil | pkg/gateway/stream_live_compat.go:356-358 | the first payload that is not understood ends the dispatching |
| EndToEnd.SplitAtEnd | pkg/gateway/stream_live_compat.go:353-354 | whatever the relay does to a translator is chunks, the first End and a rest, or chunks alone |
| EndToEnd.RelayFinishes | pkg/gateway/stream_live_compat.go:470-491 | a stream that does not fail is finished |
| EndToEnd.RelayFailsExactly | pkg/gateway/stream_live_compat.go:427-491 | from the bytes, for every ending: the relay fails if and only if some payload whose errors count is not understood; the pending payload counts at an orderly end only |
| EndToEnd.RelayFails | pkg/gateway/stream_live_compat.go:461-475 | then it has dispatched the payloads before the first such one, and not finished the stream |
| EndToEnd.RelaySucceeds | pkg/gateway/stream_live_compat.go:470-491 | otherwise it has dispatched the payloads, as far as they are understood, and finished the stream, however it ends |
| EndToEnd.ClaudeEndToEnd | pkg/gateway/stream_live_compat.go:339-751 | for all bytes, decoders and endings: the client is content if and only if the stream was finished and nothing behind its first end emits, or it was given up before anything was emitted; a content client has the text and tools of the chunks |
| EndToEnd.GeminiEndToEnd | pkg/gateway/stream_live_compat.go:339-881 | the same for Gemini, where an unfinished stream leaves a content client exactly when it carried no text |
| EndToEnd.ResponsesEndToEnd | pkg/gateway/responses.go:258-286 | the same for Responses, where a failure is reported by response.failed and is well-formed unless it comes behind the end of a stream that had something to send |
| ClaudeStream.UnfinishedStream | pkg/gateway/stream_live_compat.go:461-475 | without an end the message stays open as soon as anything was sent |
| EndToEnd.CleanStreamServesClaude | pkg/gateway/stream_live_compat.go:339-751 | bytes that carry chunks, with or without [DONE], serve a Claude client |
| EndToEnd.CleanStreamServesGemini | pkg/gateway/stream_live_compat.go:339-881 | and a Gemini client |
| EndToEnd.CleanStreamServesResponses | pkg/gateway/responses.go:258-286 | and a Responses client |
| EndToEnd.PrintedStreamCarries | pkg/gateway/stream_live_compat.go:342-377 | chunks printed as frames, with keep-alive comments between, arrive as these chunks |
| EndToEnd.BrokenStreamStaysOpen | pkg/gateway/stream_live_compat.go:198-203 | a frame with text followed by one that does not decode leaves Claude and Gemini clients with an open message, and a Responses client with response.failed |
| EndToEnd.CutJsonStaysOpen | pkg/gateway/stream_live_compat.go:198-203 | such bytes: JSON that is cut off behind a greeting |
| StreamReports.StartedMeansSent | pkg/gateway/stream_live_compat.go:188-193 | whatever the relay did, a translator has started if and only if it has sent something |
| StreamReports.EmptyMeansNothingSent | pkg/gateway/stream_live_compat.go:188-193 | for Claude and Responses an empty stream is reported if and only if nothing was sent and nothing failed |
| StreamReports.GeminiReportExact | pkg/gateway/stream_live_compat.go:816-819 | for Gemini the report of a finished stream agrees with what was sent if and only if the chunks had substance, or what follows the end carries text, or it carries no arguments |
| StreamReports.GeminiLateArguments | pkg/gateway/stream_live_compat.go:816-819 | a stream for which they do not agree: arguments behind [DONE] only |
| StreamReports.FallbackSendsNothing | pkg/gateway/stream_live_compat.go:217-219 | the silent fallback finishes an unused translator, which sends nothing |
| StreamReports.ProtocolsAreCandid | pkg/gateway/stream_live_compat.go:183-203 | the report of each translator tells by its flags whether the relay failed and whether it has sent anything when it calls the stream empty |
| StreamGuard.Inspect | pkg/gateway/stream_guard.go:11-52 | the verdicts are whether the payloads that the guard cuts hold something meaningful, and whether [DONE] is among them |
| StreamGuard.InspectLine | pkg/gateway/stream_guard.go:34-50 | one line of the scanner's loop |
| StreamGuard.InspectPayload | pkg/gateway/stream_guard.go:18-32 | one flush of the scanner's pending lines |
| StreamGuard.CutAlike | pkg/gateway/stream_guard.go:34-50 | the guard cuts exactly the relay's payloads if and only if no unterminated last line leaves something pending, and otherwise misses exactly that payload |
| StreamGuard.TerminatedCutAlike | pkg/gateway/stream_guard.go:34-50 | on bytes that end with a newline guard and relay cut the same payloads |
| StreamGuard.UnterminatedLineEscapes | pkg/gateway/stream_guard.go:37-39 | a last line without a newline escapes the guard, yet the relay dispatches it |
| ChunkJson.ChunkRoundTrip | pkg/gateway/stream_live_compat.go:18-47 | decoding undoes encoding: every field of a chunk is read from the key under which an upstream writes it |
| ChunkJson.UsageReports | pkg/gateway/stream_live_compat.go:22-22 | a usage reports the number that the last field of a key gives |
| StreamGuard.HasDeltaMeaning | pkg/gateway/stream_guard.go:97-121 | a value is meaningful if and only if some path of fields, without a role at its first step where that is skipped, leads to something that is neither null nor empty |
| StreamGuard.TreeMeaning | pkg/gateway/stream_guard.go:73-93 | an object counts if and only if it reports an error or lists a choice whose message or delta leads to something besides a role |
| StreamGuard.EncodedVerdict | pkg/gateway/stream_guard.go:54-95 | a chunk as an upstream writes it counts as meaningful if and only if some choice has text or a tool call fragment |
| StreamGuard.SurfacedPayload | pkg/gateway/stream_guard.go:66-75 | a payload that is no JSON object, or that reports an error, counts as meaningful |
| StreamGuard.PayloadDecodesSilent | pkg/gateway/stream_guard.go:54-128 | a payload without meaning decodes, if at all, into a chunk without text and without tool fragments |
| StreamGuard.VerdictIsSound | pkg/gateway/stream_guard.go:11-128 | nothing meaningful on bytes that end with a newline means that none of the three translators emits anything on them |
| StreamDrain.StepKeeps | pkg/gateway/stream_drain.go:51-120 | every step of reader and main loop keeps the protocol's invariant |
| StreamDrain.Safety | pkg/gateway/stream_drain.go:51-120 | in every interleaving the callback gets the results read, in order and without a gap, all of them if the end of the body is reported; at most one result is dropped; the return comes after the reader has gone and its buffer is back once |
| StreamDrain.EndingIsExplained | pkg/gateway/stream_drain.go:84-120 | in every run: end of body and upstream error are reported only if a Read has returned them, a timeout exactly if there was one, a cancelled context if it was cancelled or the callback refused |
| StreamDrain.ProcessMeaning | pkg/gateway/stream_drain.go:98-120 | a result with data goes on only if the callback wants more; then, and without data, its error decides |
| StreamDrain.RefusalEnds | pkg/gateway/stream_drain.go:98-108 | a callback that refuses data gets no more, and the drain ends as cancelled |
| StreamDrain.ExitAdvances | pkg/gateway/stream_drain.go:84-91 | once the main loop returns, every step decreases an explicit measure and delivers nothing |
| StreamDrain.ExitNeverBlocks | pkg/gateway/stream_drain.go:84-91 | until the exit is over somebody can move, unless Read does not return from the closed body |
| StreamDrain.ExitTerminates | pkg/gateway/stream_drain.go:84-91 | at most eight steps happen after the main loop has decided to return |
| StreamDrain.ExitCompletes | pkg/gateway/stream_drain.go:84-91 | if Read returns, the exit reaches its end |
| StreamDrain.NothingLeftBehind | pkg/gateway/stream_drain.go:84-91 | after the return nothing can move any more |
| CorePorts.FirstPass | pkg/gateway/core_xray_manager.go:369-376 | claims are noted, the last claimant of a port winning |
| CorePorts.NextFree | pkg/gateway/core_xray_manager.go:385-397 | the search ends at the first port not in use |
| CorePorts.AllocateInPlace | pkg/gateway/core_xray_manager.go:369-400 | the profiles in place become the specified allocation |
| CorePorts.NewPortBound | pkg/gateway/core_xray_manager.go:385-397 | a new port is at most 21000 + n for n profiles, because the other profiles own at most n - 1 ports |
| CorePorts.Allocation | pkg/gateway/core_xray_manager.go:369-400 | every profile ends with a positive port of its own; the last claimant keeps its port, every other gets one of 21001 to 21000 + n; nothing else changes |
| CorePorts.AllocationIdempotent | pkg/gateway/core_xray_manager.go:369-400 | allocating again changes nothing |
| CoreSync.ChooseMeaning | pkg/gateway/core_xray_manager.go:416-427 | a profile chooses the proxy that is managed for it, and none exactly when there is none |
| CoreSync.SyncBijection | pkg/gateway/core_xray_manager.go:402-464 | afterwards every profile has exactly one managed proxy, which it links to and which mirrors its name, port and status, and no managed proxy is an orphan |
| CoreSync.SyncRest | pkg/gateway/core_xray_manager.go:465-491 | unmanaged proxies stay as they are and in order, exactly the keys of removed proxies are unbound, and there are as many managed proxies as profiles |
| CoreSync.SyncKeeps | pkg/gateway/core_xray_manager.go:402-492 | the synchronization keeps the invariant of the store |
| CoreSync.SyncAgain | pkg/gateway/core_xray_manager.go:402-492 | a second synchronization changes only times |
| CoreSync.LinkComesFirst | pkg/gateway/core_xray_manager.go:416-420 | a link to a stored proxy is followed, whether or not that proxy is managed for the profile |
| CoreLooks.StartedCore | pkg/gateway/core_xray_manager.go:315-325 | after the start of the core: a profile is enabled if it was and the core supports it, and listens on its own port, kept by the last claimant and otherwise one of 21001 to 21000 + n; its proxy is [XRAY] and its name in group XRAY at 127.0.0.1 on that port, and is the one it had before, with its country and tests, or a new one |
| ProxyGrouping.HealthierIsAnOrder | pkg/gateway/proxy_grouping.go:20-57 | the comparison of members is a strict weak order |
| ProxyGrouping.ConditionCounts | pkg/gateway/proxy_grouping.go:59-70 | working before failing before untried before disabled |
| ProxyGrouping.TimeCounts | pkg/gateway/proxy_grouping.go:28-35 | in the same condition the faster one first, one that took some time before one that took none |
| ProxyGrouping.TestTimeCounts | pkg/gateway/proxy_grouping.go:36-43 | among equally fast ones the one tested later |
| ProxyGrouping.RecordAndNameCount | pkg/gateway/proxy_grouping.go:44-56 | then more successes on record, then the group's and the name's order in the dictionary |
| ProxyGrouping.SuccessesAreCounted | pkg/gateway/proxy_grouping.go:86-94 | the successes on record are counted |
| ProxyGrouping.LessMeaning | pkg/gateway/proxy_grouping.go:53-56 | the comparison of strings is the order of a dictionary |
| ProxyGrouping.MemberMeaning | pkg/gateway/proxy_grouping.go:96-105 | a member is enabled, and its group has the name asked for but for case and white space around it |
| ProxyGrouping.WeightMeaning | pkg/gateway/proxy_grouping.go:158-176 | the weight is 4 for a last test of at most 100 ms, 3 for at most 300, 2 for a slower one, 1 if none succeeded, and 0 if disabled |
| ProxyGrouping.RankedMembersMeaning | pkg/gateway/proxy_grouping.go:96-113 | the ranked members are the enabled proxies of the group, each once |
| ProxyGrouping.SortedMembers | pkg/gateway/proxy_grouping.go:96-113 | the members of the group, ranked by health |
| ProxyGrouping.Assign | pkg/gateway/proxy_grouping.go:137-156 | the keys take the weighted list in turn |
| ProxyGrouping.WeightedBinding | pkg/gateway/proxy_grouping.go:137-176 | of k keys over total weight W a member of weight w gets at least (k div W)*w and at most (k div W)*w + min(w, k mod W) |
| ProxyGrouping.BindingConserves | pkg/gateway/proxy_grouping.go:137-156 | every key gets a member and the shares add up to k |
| ProxyGrouping.AnyRankingIsFair | pkg/gateway/proxy_grouping.go:96-176 | however members that compare equal are ordered: every key gets an enabled member of the group, each member its share by weight, and the shares add up |
| StoreInvariant.CreateKeyKeeps | pkg/gateway/admin.go:129-140 | adding a key keeps the invariant |
| StoreInvariant.ImportKeysKeeps | pkg/gateway/admin_api_key_import.go:55-94 | the bulk import of keys keeps it |
| StoreInvariant.UpdateKeyKeeps | pkg/gateway/admin.go:184-216 | updating a key keeps it |
| StoreInvariant.DeleteKeyKeeps | pkg/gateway/admin.go:608-619 | deleting a key keeps it |
| StoreInvariant.UniqueListMeaning | pkg/gateway/admin_key_proxy_bind.go:160-175 | every non-zero id once, in ascending order |
| StoreInvariant.BindKeysKeeps | pkg/gateway/admin_key_proxy_bind.go:96-158 | a bulk binding binds only to stored proxies |
| StoreInvariant.GroupBindingIsFair | pkg/gateway/admin_key_proxy_bind.go:111-149 | exactly the keys asked for are bound to members of the group, each member getting its share by weight |
| StoreInvariant.AddProxyKeeps | pkg/gateway/admin_proxies.go:262-267 | a new proxy with the next id keeps the invariant |
| StoreInvariant.EditProxyKeeps | pkg/gateway/admin_proxies.go:287-325 | editing an unmanaged proxy keeps it |
| StoreInvariant.DeleteProxyKeeps | pkg/gateway/admin_proxies.go:602-620 | deleting a proxy unbinds its keys |
| StoreInvariant.DeleteProxiesKeeps | pkg/gateway/admin_proxies.go:460-499 | bulk deletion unbinds the keys of what it deletes |
| StoreInvariant.CleanupKeeps | pkg/gateway/free_proxy_import.go:809-851 | the cleanup unbinds the keys of what it removes |
| StoreInvariant.UpsertKeeps | pkg/gateway/free_proxy_import.go:737-790 | importing or refreshing a free proxy keeps the invariant |
| StoreInvariant.CreateProfileKeeps | pkg/gateway/admin_core_profiles.go:162-167 | a new profile has no proxy yet |
| StoreInvariant.ImportProfilesKeeps | pkg/gateway/core_import.go:84-111 | the bulk import of profiles, which allocates ports first, keeps the invariant |
| StoreInvariant.EditProfileKeeps | pkg/gateway/admin_core_profiles.go:188-190 | editing a profile keeps its link |
| StoreInvariant.DeleteProfilesKeeps | pkg/gateway/admin_core_profiles.go:419-469 | profiles go together with their proxies, whose keys are unbound |
| StoreInvariant.SyncRuntimeKeeps | pkg/gateway/core_xray_manager.go:315-325 | the runtime mutator keeps the invariant |
| StoreInvariant.RuntimePorts | pkg/gateway/core_xray_manager.go:315-325 | every profile has its own managed proxy on its own positive port |
| StoreInvariant.CommitKeeps | pkg/db/db.go:409-429 | one transaction keeps the invariant, whether it goes through or fails |
| StoreInvariant.RunKeeps | pkg/db/db.go:409-429 | over every sequence of changes every key is unbound or bound to a stored proxy, ids are unique and below their counters, and links are sound |
| StoreInvariant.RunThenSync | pkg/gateway/core_xray_manager.go:315-325 | after any sequence of changes the runtime mutator restores the bijection and distinct ports |
| StoreImports.ImportedKeysAreNew | pkg/gateway/admin_api_key_import.go:55-94 | an import leaves the stored keys as they are and appends keys that were not stored before, each once, with consecutive ids |
| StoreImports.ReadableKeysAreStored | pkg/gateway/admin_api_key_import.go:65-92 | afterwards the key of every readable line is stored |
| StoreImports.ImportedProfilesAreNew | pkg/gateway/core_import.go:84-111 | an import leaves the stored profiles in front, with ports allocated, and appends profiles that connect to where no other does, with consecutive ids |
| StoreImports.ValidNodesAreStored | pkg/gateway/core_import.go:92-109 | afterwards a stored profile connects to where each valid node does |
| StoreImports.ImportedKeysAreAsked | pkg/gateway/admin_api_key_import.go:55-94 | every imported key has the secret and the weight of a line, its name or NVIDIA- and the id in four digits, the next id, and is active and unbound |
| StoreImports.ImportedProfilesAreAsked | pkg/gateway/core_import.go:92-109 | every imported profile is that of a node, with the next id and no proxy |
| StoreEffects.EffectOfChange | pkg/db/db.go:409-429 | each change is refused exactly for the reasons given and then changes nothing; otherwise every stored record has become what is told of it, in order, and the new records follow |
| StoreEffects.CreateKeyTells | pkg/gateway/admin.go:97-140 | refused for a blank name or key, a weight that is not positive or an unknown proxy; otherwise one active key more, with trimmed fields |
| StoreEffects.UpdateKeyTells | pkg/gateway/admin.go:184-216 | the fields given are replaced, a blank key leaves the stored one |
| StoreEffects.DeleteKeyTells | pkg/gateway/admin.go:608-619 | the key is gone, the others stay as they are |
| StoreEffects.BindKeysTells | pkg/gateway/admin_key_proxy_bind.go:96-158 | the keys asked for are bound to the proxy, no others |
| StoreEffects.CreateProxyTells | pkg/gateway/admin_proxies.go:262-267 | one manual proxy more |
| StoreEffects.EditProxyTells | pkg/gateway/admin_proxies.go:287-325 | refused for a managed proxy or fields that are not valid; otherwise the given fields are replaced |
| StoreEffects.DeleteProxyTells | pkg/gateway/admin_proxies.go:602-620 | refused for a managed proxy; otherwise it is gone and its keys are unbound |
| StoreEffects.DeleteProxiesTells | pkg/gateway/admin_proxies.go:460-499 | refused if one of them is managed or none is stored; otherwise they are gone and their keys unbound |
| StoreEffects.UpsertTells | pkg/gateway/free_proxy_import.go:737-790 | the first proxy at the same place gets the test, and its looks if it is automatic; without one there is one automatic proxy more |
| StoreEffects.ImportMeaning | pkg/gateway/free_proxy_import.go:737-790 | the counter that goes up says new, automatic or somebody else's |
| StoreEffects.CleanupTells | pkg/gateway/free_proxy_import.go:809-851 | exactly the automatic proxies go whose last test failed or is missing, where that is asked for, or took longer than the positive limit; their keys are unbound |
| StoreEffects.CleanupCounts | pkg/gateway/free_proxy_import.go:809-851 | each proxy that goes is counted once, as failed or as slow |
| StoreEffects.UnboundAreCounted | pkg/gateway/core_xray_manager.go:477-483 | the count of unbound keys |
| StoreEffects.CreateProfileTells | pkg/gateway/admin_core_profiles.go:162-167 | one profile more, without a proxy |
| StoreEffects.EditProfileTells | pkg/gateway/admin_core_profiles.go:737-753 | the fields given are replaced |
| StoreEffects.DeleteProfilesTells | pkg/gateway/admin_core_profiles.go:419-469 | the profiles and their proxies are gone and the keys unbound |
| StoreEffects.MissingCounters | pkg/db/db.go:736-780 | a counter that is missing becomes the one just behind the ids in use |
| GatewayStore.MutableStore.constructor | pkg/db/db.go:434-450 | a copy of the store |
| GatewayStore.MutableStore.ValidateReference | pkg/gateway/proxy_pool.go:542-552 | zero and the ids of stored proxies are valid references |
| GatewayStore.MutableStore.CreateKey | pkg/gateway/admin.go:97-140 | a valid key is appended with the next id; blank fields, a weight that is not positive and dangling references are refused |
| GatewayStore.MutableStore.ImportKeys | pkg/gateway/admin_api_key_import.go:55-94 | each readable line with a key that is not stored yet appends one; both counts are right |
| GatewayStore.MutableStore.UpdateKey | pkg/gateway/admin.go:184-216 | the given fields of the first key with the id are changed, or an error is reported |
| GatewayStore.MutableStore.DeleteKey | pkg/gateway/admin.go:608-619 | the first key with the id is gone |
| GatewayStore.MutableStore.UnbindKeys | pkg/gateway/core_xray_manager.go:477-483 | exactly the keys of removed proxies are unbound, and they are counted |
| GatewayStore.MutableStore.RebindKeys | pkg/gateway/admin_key_proxy_bind.go:139-149 | exactly the keys of the assignment are rebound |
| GatewayStore.MutableStore.BindKeys | pkg/gateway/admin_key_proxy_bind.go:96-158 | the specified binding, or an error |
| GatewayStore.MutableStore.CreateProxy | pkg/gateway/admin_proxies.go:262-267 | the proxy is appended with the next id |
| GatewayStore.MutableStore.EditProxy | pkg/gateway/admin_proxies.go:287-325 | an unmanaged, valid edit is applied; otherwise an error |
| GatewayStore.MutableStore.DeleteProxy | pkg/gateway/admin_proxies.go:602-620 | an unmanaged proxy is gone and its keys are unbound; otherwise an error |
| GatewayStore.MutableStore.SelectKept | pkg/gateway/admin_proxies.go:475-485 | what stays, unless something to be deleted is managed |
| GatewayStore.MutableStore.DeleteProxies | pkg/gateway/admin_proxies.go:460-499 | unmanaged proxies with these ids are gone, and both counts are right; otherwise an error |
| GatewayStore.MutableStore.CreateProfile | pkg/gateway/admin_core_profiles.go:162-167 | the profile is appended with the next id |
| GatewayStore.MutableStore.AllocatePorts | pkg/gateway/core_xray_manager.go:369-400 | the allocation, for the profiles of the store |
| GatewayStore.MutableStore.ImportProfiles | pkg/gateway/core_import.go:84-111 | ports are allocated, and each valid node that is not known yet is appended; both counts are right |
| GatewayStore.MutableStore.EditProfile | pkg/gateway/admin_core_profiles.go:737-753 | a valid edit of the first profile with the id; otherwise an error |
| GatewayStore.MutableStore.SelectProfiles | pkg/gateway/admin_core_profiles.go:433-449 | what stays, and the proxies of what goes |
| GatewayStore.MutableStore.KeepProxies | pkg/gateway/admin_core_profiles.go:451-459 | the proxies not to be removed, in order |
| GatewayStore.MutableStore.DeleteProfiles | pkg/gateway/admin_core_profiles.go:419-469 | the profiles, their proxies and the bindings to these are gone, and all three counts are right |
| GatewayStore.MutableStore.FindEndpoint | pkg/gateway/free_proxy_import.go:738-741 | the first proxy with this endpoint |
| GatewayStore.MutableStore.UpsertFree | pkg/gateway/free_proxy_import.go:737-790 | a known endpoint is refreshed, a new one imported, and the counter that goes up is the right one |
| GatewayStore.MutableStore.Cleanup | pkg/gateway/free_proxy_import.go:809-851 | exactly the automatic proxies that failed or were too slow are gone and their keys unbound, with the right counts of each |
| GatewayStore.MutableStore.IndexProxies | pkg/gateway/core_xray_manager.go:406-413 | the indices by id and by profile, the last proxy winning |
| GatewayStore.MutableStore.AdoptProxy | pkg/gateway/core_xray_manager.go:415-464 | one profile gets its proxy |
| GatewayStore.MutableStore.RemoveOrphans | pkg/gateway/core_xray_manager.go:465-485 | managed proxies without a profile are gone and their keys unbound |
| GatewayStore.MutableStore.CountManagedProxies | pkg/gateway/core_xray_manager.go:486-491 | the number of managed proxies |
| GatewayStore.MutableStore.AdoptProxies | pkg/gateway/core_xray_manager.go:414-464 | every profile gets its proxy |
| GatewayStore.MutableStore.SyncManaged | pkg/gateway/core_xray_manager.go:402-492 | the store afterwards is the specified one, and the count is returned |
| GatewayStore.MutableStore.DisableIncompatibleProfiles | pkg/gateway/core_xray_manager.go:327-341 | profiles that the core cannot run are disabled |
| GatewayStore.MutableStore.SyncRuntime | pkg/gateway/core_xray_manager.go:315-325 | allocation, disabling and synchronization, in this order |
| GatewayStore.MutableStore.Normalize | pkg/db/db.go:736-780 | counters that are missing start behind the ids in use |
| GatewayStore.MutableStore.Mutate | pkg/db/db.go:423-425 | whichever mutator it is, it meets its specification |
| GatewayStore.Database.UpdateStore | pkg/db/db.go:409-429 | a mutator that reports an error leaves the store as it was, even if it had changed its copy; otherwise the normalized copy takes its place; the invariant is kept |
| ProxyFailover.FlatAfter | pkg/gateway/proxy_pool.go:296-323 | a failover keeps redirects flat |
| ProxyFailover.RedirectsStayFlat | pkg/gateway/proxy_pool.go:296-323 | for a fixed table with one URL per id, after any sequence of failovers no redirect leads to a proxy that is itself redirected to another |
| ProxyFailover.LookupIsFinal | pkg/gateway/proxy_pool.go:454-469 | looking up what a lookup found finds the same proxy |
| ProxyFailover.OriginAbandoned | pkg/gateway/proxy_pool.go:296-323 | after a failover some id resolves to the origin if and only if the chosen replacement itself resolves to it |
| ProxyFailover.FailoverInACircle | pkg/gateway/proxy_pool.go:301-303 | of two managed proxies one fails, its cooling runs out, and the other fails: the promotion leaves both at the one that has just failed |
| ProxyFailover.SelectedIsBest | pkg/gateway/proxy_pool.go:332-385 | a replacement is found exactly when an eligible proxy exists, and none is better by result, latency and id |
| ProxyFailover.ReplacementMeaning | pkg/gateway/proxy_pool.go:332-385 | the replacement is the one proxy preferred to all others that could take over: better tested, or else faster, or else with the lower id; there is none exactly if no other managed, enabled proxy with a URL is not cooling |
| ProxyFailover.FailoverChanges | pkg/gateway/proxy_pool.go:296-323 | the origin and all that were redirected to it resolve to the stand-in from now on, by id and by URL, the origin cools for ten minutes, and nothing else changes |
| ProxyFailover.FailoverTable.SetFailover | pkg/gateway/proxy_pool.go:296-323 | the three tables afterwards are the specified ones |
| ProxyFailover.FailoverTable.MoveByID | pkg/gateway/proxy_pool.go:313-317 | every redirect by id that led to the origin leads to the replacement |
| ProxyFailover.FailoverTable.MoveByURL | pkg/gateway/proxy_pool.go:318-322 | the same for redirects by URL |
| ProxyFailover.FailoverTable.CheckCooling | pkg/gateway/proxy_pool.go:279-294 | whether the proxy is cooling; only expired entries are dropped |
| ProxyFailover.FailoverTable.Select | pkg/gateway/proxy_pool.go:332-385 | the choice is the specified one |
| ProxyFailover.FailoverTable.Promote | pkg/gateway/proxy_pool.go:387-398 | the failover to the chosen proxy, or no change but for expired coolings |
| RequestLoop.FreeMeansReleased | pkg/gateway/proxy.go:423-465 | a request that holds no lease at its end has released each acquired key exactly once |
| RequestLoop.LastCallIsFirstStop | pkg/gateway/proxy.go:770-854 | the calls of an attempt end at the first conclusive one, and within the budget |
| RequestLoop.CutCallEndsAttempt | pkg/gateway/proxy.go:786-846 | when a backoff is cut with budget left, the call ends the attempt if and only if it was a transport error or an empty answer; after a transient status the loop goes on |
| RequestLoop.AttemptMeaning | pkg/gateway/proxy.go:764-861 | for every world: an attempt calls until a reply cannot pass, the budget is used up, or a backoff is cut that does not follow a server error; 401, 403, 429 and failures that never passed are for another key, any other answer is for the client as it came, the rest is a 502 |
| RequestLoop.BudgetMeaning | pkg/gateway/upstream_error_policy.go:79-95 | 6 attempts and 3 calls for each by default, and otherwise one more than configured |
| RequestLoop.ExecuteJSON | pkg/gateway/proxy.go:766-861 | the outcome is that of the first conclusive call, the calls are counted exactly, and the key is cooled exactly after 429 and killed exactly after 401 and 403 |
| RequestLoop.DecidingIsFirst | pkg/gateway/proxy.go:423-505 | the attempt that decides is the first that does not go on to the next |
| RequestLoop.KeylessMeaning | pkg/gateway/proxy.go:424-454 | a client that has gone and a full queue decide, an error of the scheduler does not |
| RequestLoop.AnswerMeaning | pkg/gateway/proxy.go:455-485 | with a key the last reply counts: the request goes on if it rejects the key, if only passing failures came back, or if it is no success and has no body; otherwise the client gets its status, or 502 |
| RequestLoop.ExecuteNonStream | pkg/gateway/proxy.go:409-520 | for every world: the result is that of the first attempt that decides, or the fallback or the error if none does, and no key is acquired behind it; at most one lease at a time and each released once; at most the attempt budget times the call budget upstream calls |
| RequestLoop.OpenStream | pkg/gateway/stream_live_compat.go:222-319 | the outcome of opening a stream is that of the first conclusive call, the calls are counted exactly, and the key is cooled exactly after 429 and killed exactly after 401 and 403 |
| RequestLoop.OpeningMeaning | pkg/gateway/stream_live_compat.go:222-319 | a stream is opened if and only if the last reply is an answer below 400; another key is tried after 401, 403, 429 and failures that never passed |
| RequestLoop.AcquireAndOpen | pkg/gateway/stream_live_compat.go:128-143 | the key is acquired and held while a stream is opened with it |
| RequestLoop.RelayStream | pkg/gateway/stream_live_compat.go:177-191 | the translator's events are sent while the key is held, and then it is released |
| RequestLoop.TryStream | pkg/gateway/stream_live_compat.go:128-200 | whatever comes of the opening, the key is released once; events are sent only if a stream was opened |
| RequestLoop.StreamMeaning | pkg/gateway/stream_live_compat.go:104-203 | a stream decides if the last reply is an answer below 400 and something comes of the stream; so do a client that has gone and a full queue, and nothing else |
| RequestLoop.ResponseMeaning | pkg/gateway/responses.go:218-286 | for Responses also an error of the opening decides, unless another key may do better |
| RequestLoop.ExecuteCompatStream | pkg/gateway/stream_live_compat.go:104-220 | for every world and all translators: the result is that of the first attempt that decides; lease and call accounting as above, each branch releasing the key; events of at most one translator, that of the attempt that ended the request |
| RequestLoop.ExecuteResponsesStream | pkg/gateway/responses.go:214-286 | the same for the Responses stream, whose attempts are not extended and whose failure is reported by the same translator |

## Left out

- Time: clock readings are arguments; generated ids are numbered readings of the clock, so that two readings in one nanosecond, which would make two equal ids, do not occur.
- Integer widths: ids, counters and ports are unbounded; weights are exact reals, so that rounding of current weights does not occur.
- Redis: keys that expire, errors of the connection and concurrent scripts; of the Lua scripts only the acquire script.
- Locks: the scheduler, the store and the failover table are modelled one operation at a time, as their mutexes make them.
- Writer failures: writes to the client succeed, so Consume and Finish never fail.
- Claude and Gemini error events: the relay and the request loop never call Error on these two translators.
- Finish reasons: the upper-case form of an unknown Gemini finish reason is a constructor, not computed.
- JSON text: decoding a payload into a tree, and normalizing arguments, are parameters with the laws that printed JSON is trimmed and reads back as itself; object keys are compared exactly, objects do not repeat keys, and numbers are whole.
- GeminiTranslator.Translator.EmitCalls: function calls carry the joined text of their arguments, not its decoding.
- ResponsesObject.BuildResponse: the response id and the creation time, which are given to it and copied.
- ResponsesTranslator.Translator.BuildResponseObject: the same two.
- ResponsesEquivalence.StreamEqualsResult: the response id, the creation time and the request messages in front of the stored assistant message are the same on both sides and not modelled.
- Relay.Run: keep-alive comments written while waiting are not part of the translator's trace; the reader is a sequence of pieces and an orderly or disorderly end.
- RequestLoop.ExecuteNonStream: the semantic cache, usage accounting, diagnostics, response headers and the recovery of network paths, none of which decides whether a call is made.
- RequestLoop.ExecuteJSON: the model-list endpoint, for which an empty completion is not looked for.
- KeyAffinity.Affinity.AcquirePreferred: the restoring of cooling and dead keys before waiting, which reloads the pool from the store.
- KeyAffinity.Affinity.Refresh: bindings that have expired, which count as absent.
- ProxyGrouping.SortedMembers: members that compare equal keep their stored order, where the library's sort leaves their order open; ProxyGrouping.AnyRankingIsFair is for any order; case folding is that of ASCII letters.
- GatewayStore.MutableStore.ImportKeys: which lines can be read is given; a stored key that does not decrypt makes the source report an error.
- GatewayStore.MutableStore.ImportProfiles: which nodes are valid, and their fingerprints, are given.
- GatewayStore.MutableStore.EditProxy: user name and password.
- GatewayStore.MutableStore.DisableIncompatibleProfiles: the remark that is appended to a disabled profile.
- GatewayStore.MutableStore.Normalize: the normalization of text fields.
- Text normalization of stored records: stored text is taken to be normalized already, as the transaction leaves it; of the profile's normalization only the local port is modelled.
- StoreOps: the mutators that touch neither ids nor references nor links: status changes, test records, logs, schedules, master keys and system settings.
- GatewayStore.Database.UpdateStore: the files behind the cached store, and writes that fail.
- The other half of proxy.go and the synthetic stream builders: the byte passthrough of OpenAI streams and streams made up from whole answers.
- HTTP, transports, share-link parsing, encryption, health reports, the frontend and process control.
