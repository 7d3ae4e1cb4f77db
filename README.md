# TravelAgent plan–execute core, modelled in Dafny

TravelAgent answers travel questions with a LangGraph workflow. A router sends a question either to
a direct answer or to a planner. The planner writes a list of steps. An executor searches for the
first step and records `(task, summary)`. A reflect stage then either gives the final answer or
hands back the remaining plan.

The state of a turn is `PlanExecuteState`. Each stage returns a partial update. The graph merges it
field by field: `past_steps` and `messages` are appended, and every other field is overwritten.

This project models that core:

- `plan_state.dfy`: the state, the update dictionary and the merge rule.
- `nodes.dfy`: the stage bodies of the asynchronous revision.
- `main_graph.dfy`: the first revision, with its own stage bodies and transition table.
- `async_workflow.dfy` and `async_function.dfy`: the asynchronous transition table and its decision
  functions.
- `graph_builder.dfy`: the graph builder the tables are written with, as a class.
- `engine.dfy`: a fuelled interpreter that runs either table.
- `assistant_service.dfy`: the service that initialises the workflow lazily, starts a turn on a
  stored thread, and turns node outputs into stream events or into one result.
- `id_util.dfy`: the Snowflake id generator.
- `api_client.dfy`: the browser client's thread-id and user-id bookkeeping and its server-sent-event
  line parser.
- `text.dfy` and `wrappers.dfy`: Python's `str.strip` and slicing, and the Option/Result types.

The collaborators a stage calls are replaced by their outcomes, passed in as values. These are the
language model, the JSON parse of its reply, the search tool and the memory stages. In `engine.dfy`
one `Env` value is used per stage visit. The list of `Env` values is also the fuel, because the
executor ↔ reflect cycle has no bound of its own.

The clock of the id generator is a list of readings. `Math.random()` is a real number in [0, 1).
A streamed HTTP body is a list of decoded text chunks, plus how reading ends. `JSON.parse` is a
function parameter.

The executor → reflect edge is unconditional (graph/async_workflow.py:55). So reflect runs after a
failed search too, and the failure text the executor put in `response` ends the turn.
`Engine.SearchFailureEndsAtReflect` states this.

The asynchronous workflow imports its stage bodies from `graph/async_nodes.py`, which is not part of
this model. The model assumes they behave like the bodies of `graph/nodes.py` and uses those.
The memory stages are opaque updates. The summary call of the asynchronous executor is modelled as
`async_abstract` (graph/async_function.py:26-32): the reply's parsed JSON object is an input, and the
step records its "summary" value, or "" when that key is missing.

## Model

| member | source | states |
|---|---|---|
| PlanState.MergeAppendsHistory | graph/async_config.py:116-119 | merging an update appends its `past_steps` and `messages` to the old lists, so the old history is a prefix of the new |
| PlanState.MergeOverwrites | graph/async_config.py:113-121 | question, plan, response, route, user_id and memories take the update's value when it mentions them and are unchanged otherwise |
| PlanState.MergeNothing | graph/async_config.py:112-121 | an empty update leaves the state unchanged |
| PlanState.MergeCombine | graph/async_config.py:112-121 | two merges in a row equal one merge of the combined update |
| PlanState.MergeFullDict | graph/async_config.py:112-121 | writing a whole state over another replaces every plain field and appends both list fields |
| Text.TrimLeft | graph/nodes.py:25 | the result is a suffix of the input, what it drops is white space, and it does not start with white space |
| Text.TrimRight | graph/nodes.py:25 | the result is a prefix of the input, what it drops is white space, and it does not end with white space |
| Text.StripEmptyIffBlank | graph/nodes.py:133 | `s.strip() == ""` exactly when `s` is all white space |
| Text.StripIsTrimmedSlice | graph/nodes.py:25 | a non-empty stripped string is a slice of the input that neither starts nor ends with white space |
| Text.Prefix | main_graph.py:89 | `res[:50]` has length min(len, 50) and is a prefix of `res` |
| Nodes.ClassifyRoute | graph/nodes.py:23-32 | the route is always "planner" or "direct_answer"; a parsed, stripped valid route is kept; an unparsable reply or any other value becomes the fallback |
| Nodes.RouterNode | graph/nodes.py:15-35 | the update mentions only `route`, the merged route is a branch label, and an unparsable reply gives "direct_answer" |
| Nodes.DirectAnswerNode | graph/nodes.py:38-48 | the merged state has the answer as response and the user/assistant pair appended to messages; nothing else changes |
| Nodes.PlannerNode | graph/nodes.py:51-71 | a parsed plan replaces `plan`; a parse failure sets it to `[]`; nothing else changes |
| Nodes.ExecutorNode | graph/nodes.py:74-106 | an empty plan sets `response` to ""; a failed search sets it to "搜索失败：" + error; a successful one appends `(plan[0], summary)` and drops the first step |
| Nodes.Answers | graph/nodes.py:133 | reflect answers exactly when the reply's response is not blank |
| Nodes.ReflectNode | graph/nodes.py:109-139 | a non-blank answer sets response, clears the plan and appends the exchange to messages; otherwise only the plan becomes `next_plan`; a parse failure counts as an empty reply |
| Nodes.PastStepsTextAppend | graph/nodes.py:112-114 | the history text of concatenated step lists is the concatenation of their texts |
| Nodes.FormatPastSteps | graph/nodes.py:112-114 | the loop builds exactly the history text of all past steps |
| Nodes.MessagesGrowth | graph/nodes.py:48 | direct_answer adds two messages; router, planner and executor add none; reflect adds two exactly when it answers |
| Graph.StageNameInjective | graph/async_workflow.py:25-31 | distinct stages are registered under distinct node names |
| Graph.StateGraph.constructor | graph/async_workflow.py:22 | a new graph has no nodes, edges or branches |
| Graph.StateGraph.AddNode | graph/async_workflow.py:25-31 | adds one node and changes nothing else |
| Graph.StateGraph.AddEdge | graph/async_workflow.py:34-67 | adds one static edge, idempotently, and changes nothing else |
| Graph.StateGraph.AddConditionalEdges | graph/async_workflow.py:40-47 | records the decision function and its label → stage map for the source and changes nothing else |
| MainGraph.RouterNode | main_graph.py:50-69 | the merged route is a branch label; an unparsable or invalid reply falls back to "planner" |
| MainGraph.DirectAnswerNode | main_graph.py:72-78 | only `response` changes; no message is recorded |
| MainGraph.PastInfoLines | main_graph.py:89 | one context line per past step, in order |
| MainGraph.PastStepsContext | main_graph.py:86-90 | the context is empty exactly when there are no past steps, and otherwise starts with the known-history header |
| MainGraph.PastInfoLineTruncates | main_graph.py:89 | each line carries at most the first 50 characters of the result, followed by "..." |
| MainGraph.PlannerNode | main_graph.py:81-108 | a parsed plan replaces `plan`; a parse failure gives `[]` |
| MainGraph.ExecutorNode | main_graph.py:111-144 | like the asynchronous executor, but the step records the raw search result, not a summary |
| MainGraph.ReflectNode | main_graph.py:147-189 | a non-blank answer sets response and clears the plan without recording messages; otherwise only the plan is replaced |
| MainGraph.RouteByIntent | main_graph.py:192-194 | a valid stored route is followed; anything else goes to "planner" |
| MainGraph.ShouldEnd | main_graph.py:197-202 | the turn ends exactly when `response` is non-empty |
| MainGraph.BuildWorkflow | main_graph.py:205-234 | the built graph has exactly the five registered nodes, the static edges and the two conditional branches of the table |
| MainGraph.NextFollowsTable | main_graph.py:213-234 | from every registered stage and START, the successor the model takes is the only target the table gives for the decision's label |
| AsyncFunction.AsyncRouteByIntent | graph/async_function.py:12-15 | a valid stored route is followed; anything else goes to "planner" |
| AsyncFunction.AsyncShouldEnd | graph/async_function.py:18-23 | the turn ends exactly when `response` is non-empty |
| AsyncFunction.WhitespaceResponseEnds | graph/async_function.py:18-23 | every non-empty, all-whitespace response ends the turn, although reflect would not count it as an answer |
| AsyncWorkflow.BuildAsyncWorkflow | graph/async_workflow.py:22-67 | the built graph has exactly the seven registered nodes, the static edges and the two conditional branches of the table |
| AsyncWorkflow.NextFollowsTable | graph/async_workflow.py:34-67 | the successor the model takes is the only target the table gives; after the router, the next node is named by the route |
| Engine.Entry | graph/async_workflow.py:34 | START leads to memory_retrieve (router in the first revision) whatever the state |
| Engine.RunFrom | graph/async_workflow.py:34-67 | a run records one stage and one update per Env consumed, and never more than the fuel |
| Engine.ExecutorRecordsSummary | graph/async_function.py:29 | a successful search records `(plan[0], summary)` with the summary object's "summary" value, or "" when the key is missing, and drops the task from the plan |
| Engine.RunKeepsHistory | graph/async_config.py:116-119 | a whole run never loses past steps or messages |
| Engine.RunAppendsSteps | graph/async_config.py:116 | the final past steps are the initial ones followed by the steps of the run's updates, in order |
| Engine.PathStopsAtEndOnly | graph/async_workflow.py:51 | a stage whose only successor is END is the last stage of a finished run |
| Engine.AsyncTurnShape | graph/async_workflow.py:34-67 | a finished turn runs memory_retrieve, router, then either direct_answer, memory_save or planner, an executor/reflect cycle, memory_save |
| Engine.AsyncTurnVisitsOnce | graph/async_workflow.py:34-67 | memory_retrieve, router and memory_save occur once each; the middle holds only planner, executor, reflect and direct_answer |
| Engine.MainTurnShape | main_graph.py:213-234 | a finished turn runs router, then direct_answer, or planner and an executor/reflect cycle |
| Engine.SearchFailureEndsAtReflect | graph/nodes.py:91-96 | after a failed search, reflect still runs, and the turn then leaves the loop |
| Engine.EmptyPlanNeverEnds | graph/nodes.py:77-79 | with an empty plan and a reflect that keeps answering nothing, the loop never reaches END |
| Engine.AsyncTurnRecords | graph/nodes.py:133-135 | a finished turn has appended the question and its final response as a user/assistant pair, or ends on the search-failure text with the history unchanged |
| Engine.DirectAnswerTurn | graph/async_workflow.py:50-51 | a direct-answer turn visits exactly four stages, answers, appends two messages and leaves plan and past steps alone |
| Service.InitApp | service/assistant_service.py:28-51 | the app is persistent exactly when POSTGRES_URI is set and no setup step raises |
| Service.InitPool | service/assistant_service.py:30-45 | with a set URI the pool is created and opened; it is left as it was when the import or the pool constructor raises, created but not open when open() raises, and created and open when a later step (saver, setup, compile) raises |
| Service.InitCheckpointer | service/assistant_service.py:37-45 | the checkpointer exists once the saver was built, even when setup or compile raises later |
| Service.TurnStartKeepsHistory | service/assistant_service.py:71-80 | starting a turn on a stored thread keeps its past steps and messages and resets plan, response, route and memories |
| Service.EventForAsWritten | service/assistant_service.py:87-130 | as written, the executor event always carries `past_step: None` |
| Service.EventFor | service/assistant_service.py:87-130 | end, router and planner events carry the output's values or their defaults; executor carries the step list; reflect and direct_answer emit a chunk exactly when the response is non-empty; other nodes emit nothing |
| Service.ExecutorEventDropsStep | service/assistant_service.py:115 | for an executor output holding a step, the as-written event drops it and the corrected one reports it |
| Service.StageEventByName | service/assistant_service.py:87-130 | the event of a stage, as written and corrected, is the event of its node name |
| Service.StreamEvents | service/assistant_service.py:85-87 | a run yields at most one event per node output |
| Service.AsWrittenDropsSteps | service/assistant_service.py:85-130 | the code's stream has the corrected stream's events in the same order, except that every executor event carries None |
| Service.AsWrittenReportsNoSteps | service/assistant_service.py:111-116 | the code's stream reports no step, whatever the outputs hold |
| Service.StreamOmitsAppendedSteps | service/assistant_service.py:111-116 | in a streamed run the corrected stream reports exactly the steps appended to `past_steps`, and the code's stream reports none of them |
| Service.StreamReportsSteps | service/assistant_service.py:111-116 | with the corrected executor event, the steps the executor events report are exactly the steps the run appended to `past_steps` |
| Service.ProjectResult | service/assistant_service/assistant_service.py:85-90 | the result carries the thread id; missing response, route and memories default to "", "" and [] |
| Service.ProjectFinalState | service/assistant_service/assistant_service.py:85-90 | for a final state, the one-shot result reads its response, route and memories, and agrees with the end event `EventFor` would build from the same dictionary |
| Service.AssistantService.constructor | service/assistant_service.py:12-17 | a new service is not initialised and holds no app, pool or checkpointer |
| Service.AssistantService.EnsureInitialized | service/assistant_service.py:19-54 | initialisation happens once; afterwards the flag is set and app, pool and checkpointer are those of the setup outcome |
| Service.AssistantService.Close | service/assistant_service.py:56-61 | closing drops the pool and nothing else; without a pool it does nothing |
| Service.AssistantService.Save | service/assistant_service.py:82-85 | only a persistent app stores the final state under the thread id |
| Service.AssistantService.Chat | service/assistant_service/assistant_service.py:62-90 | a finished run returns the projection of its final state; a run that runs out of fuel returns nothing; app, pool and checkpointer are those of the initialisation, and a persistent app saves the run's final state under the thread |
| Service.AssistantService.ChatStream | service/assistant_service.py:63-130 | the events are the code's events (executor events carrying None) of the run started from the stored thread; app, pool and checkpointer are those of the initialisation, and a persistent app saves the run's final state under the thread |
| Service.ResumeKeepsHistory | service/assistant_service.py:71-85 | the turn after a saved turn on the same thread starts with that turn's final past steps and messages, so the earlier histories are prefixes of it |
| IdUtil.Constants | utils/id_util.py:8-21 | the masks are 2^bits − 1 and the shifts are 12, 17 and 22 |
| IdUtil.AndMask | utils/id_util.py:39 | `x & (2^k − 1)` is `x mod 2^k` |
| IdUtil.ComposeIsOr | utils/id_util.py:45 | OR-ing the shifted fields equals adding them |
| IdUtil.Unpack | utils/id_util.py:45 | sequence, worker, datacenter and timestamp offset can each be read back from the id |
| IdUtil.ComposeMonotone | utils/id_util.py:45 | a later timestamp, or the same timestamp with a larger sequence, gives a larger id |
| IdUtil.TilNext | utils/id_util.py:27-31 | the reading returned is the first one later than `last_ts`: every reading before it is at most `last_ts`, and the readings after it are left; when none is later, every reading was at most `last_ts` |
| IdUtil.NextIdAdvances | utils/id_util.py:33-45 | an id is issued at a timestamp no earlier than the last; the sequence increments within a millisecond and restarts at 0 in a new one |
| IdUtil.NextIdIncreases | utils/id_util.py:33-45 | every issued id is larger than the previous one |
| IdUtil.SuccessiveIdsIncrease | utils/id_util.py:33-45 | two successive calls return strictly increasing ids |
| IdUtil.SnowflakeIdWorker.constructor | utils/id_util.py:7-22 | the ids are masked to 5 bits, the sequence is 0 and the last timestamp is −1 |
| IdUtil.SnowflakeIdWorker.TimeGen | utils/id_util.py:24-25 | consumes one clock reading |
| IdUtil.SnowflakeIdWorker.TilNextMillis | utils/id_util.py:27-31 | the loop returns what `TilNext` specifies and consumes the readings it read |
| IdUtil.SnowflakeIdWorker.GetId | utils/id_util.py:33-37 | the returned id and the new fields are those of `NextId` on the old fields |
| IdUtil.SnowflakeIdWorker.StepSequence | utils/id_util.py:38-45 | the id, the new fields and the remaining readings are those of `Advance` on the old fields: the sequence goes up modulo 4096 in the same millisecond and restarts at 0 in a new one, a wrap waits for a later reading |
| ApiClient.ParseDecimal | ahead/js/api.js:24-27 | a stored generated id is read back by parseInt as the same number |
| ApiClient.UserIdKeptOrGenerated | ahead/js/api.js:21-28 | a stored non-empty id is kept; otherwise one in [0, 999999] is generated, stored and returned |
| ApiClient.UserIdKeepsThread | ahead/js/api.js:21-28 | getUserId leaves the stored thread id alone |
| ApiClient.StoredThreadId | ahead/js/api.js:34-36 | the thread id is the stored one, or "" when none is stored |
| ApiClient.SplitJoin | ahead/js/api.js:132 | splitting at '\n' loses nothing: joining the pieces gives the text back |
| ApiClient.SplitAppend | ahead/js/api.js:131-133 | splitting a concatenation gives the complete pieces of the first part, then the split of its last piece continued by the second |
| ApiClient.BufferIsTextAfterLastNewline | ahead/js/api.js:131-133 | the buffer keeps exactly the text after the last '\n', which holds no newline |
| ApiClient.LineEffects | ahead/js/api.js:136-153 | lines without "data: " are ignored; "[DONE]" completes and stops; an unparsable payload is skipped; a truthy thread_id is saved; content, else response, goes to onChunk |
| ApiClient.LinesCompleteLast | ahead/js/api.js:135-141 | within a chunk's lines, onComplete happens only at "[DONE]", once, as the last effect |
| ApiClient.LinesEffectsAppend | ahead/js/api.js:135 | handling two line lists in a row is handling their concatenation, and nothing runs after "[DONE]" |
| ApiClient.StreamIsFramed | ahead/js/api.js:123-156 | chunk boundaries do not matter: the stream's effects are those of the complete lines of the concatenated text |
| ApiClient.FramedCompletesOnce | ahead/js/api.js:126-141 | exactly one of onComplete or onError ends the stream, and nothing follows it |
| ApiClient.PartialTailIgnored | ahead/js/api.js:126-129 | a partial line left in the buffer at the end of the stream is discarded |
| ApiClient.ChatStreamShape | ahead/js/api.js:100-161 | a failed request calls only onError; otherwise the effects are the framing of the whole body, ending in one onComplete or onError |
| ApiClient.ApplySavesKeepsUser | ahead/js/api.js:144-146 | after every saved thread id, storage and field agree, the id is the old one or one that was saved, and the user id is untouched |
| ApiClient.TravelAgentApi.constructor | ahead/js/api.js:11-15 | the client adopts the stored or generated user id and the stored thread id |
| ApiClient.TravelAgentApi.GetUserId | ahead/js/api.js:21-28 | storage and result are those `UserIdKeptOrGenerated` describes |
| ApiClient.TravelAgentApi.GetThreadId | ahead/js/api.js:34-36 | returns the stored thread id or "" |
| ApiClient.TravelAgentApi.SaveThreadId | ahead/js/api.js:42-47 | a truthy id is stored and adopted; anything else changes nothing |
| ApiClient.TravelAgentApi.ClearThreadId | ahead/js/api.js:52-55 | removes the stored thread id and sets the field to "" |
| ApiClient.TravelAgentApi.ChatStream | ahead/js/api.js:100-161 | the callbacks are invoked as the stream specification says, and the thread id and storage follow its saves |
| ApiClient.TravelAgentApi.HandleLines | ahead/js/api.js:135-155 | the loop over a chunk's complete lines has the effects of those lines and stops at "[DONE]" |
| ApiClient.TravelAgentApi.HandleLine | ahead/js/api.js:136-153 | one line has its specified effects, and its thread id is saved |
| ApiClient.Generated | ahead/js/api.js:24 | `Math.floor(Math.random() * 1000000)` lies in [0, 999999] |

## Left out

- The language model, `parse_llm_json`, the Tavily search and the summary call are foreign or network calls. Their outcomes are inputs.
- A raise from a collaborator call that no `try` guards is not modelled. These are `router_llm.invoke` (graph/nodes.py:22), the executor's query `llm.invoke` (graph/nodes.py:86), `abstract` (graph/nodes.py:100) and the `llm.invoke` calls of direct_answer, planner and reflect (graph/nodes.py:47, 61, 124). Such a raise would abort the run, and the streaming chat (service/assistant_service.py:85-130), which has no `try`, would raise mid-turn. Every modelled call returns an outcome.
- The `__end__` branch of the streaming chat (service/assistant_service.py:88-98) never fires in the model. A run records no output for END, as in LangGraph's "updates" stream, which yields only node outputs. So the modelled stream never carries an end event, and a client would never receive one.
- `graph/async_nodes.py` is not part of this model. The asynchronous stages use the bodies of `graph/nodes.py`, and the memory stages are opaque updates.
- The memory store (`graph/memory_rag.py`, `graph/async_memory_rag.py`) is database I/O and is not modelled.
- `profile_node` (graph/nodes.py:141-183) is database I/O and is not modelled.
- The LangGraph checkpointer is an external library. It is modelled as a map from thread id to the last final state.
- The `asyncio.Lock` in `_ensure_initialized` and the `threading.Lock` in `get_id` are concurrency. Only the sequential behaviour is modelled.
- The recursion limit of LangGraph is not visible in the source. `Engine.RunFrom` uses explicit fuel instead.
- Engine.RunFrom: a run that runs out of fuel is reported as `OutOfFuel`. LangGraph would raise a recursion error instead.
- Service.AssistantService.Chat: a turn that runs out of fuel returns no result rather than raising.
- `main_graph.py` has a narrower state without `messages`, `user_id` and `memories`. The shared state record is used, and its stages never write those fields.
- The two service files have identical initialisation, close and initial state. These are modelled once.
- IdUtil.ComposeIsOr: OR equals addition is proved for a non-negative timestamp offset only. Python's `|` on a negative offset is not modelled bit by bit, so for a clock before the epoch the id is taken as the sum.
- IdUtil.SnowflakeIdWorker.GetId: when the clock readings run out inside `_til_next_millis`, the model returns no id. The source would keep reading the clock.
- `time.time()` and its float-to-millisecond conversion are not modelled. The clock is a list of integer readings.
- `Math.random()` is not modelled. Its value is a parameter in [0, 1).
- `TextDecoder` is not modelled. The stream is a list of already decoded chunks.
- The `fetch` call, the request body and the error message built from a failed response are not modelled. Only "the request failed" is.
- ApiClient.LineEffects: JSON values that are not strings (a numeric `content`, say) are not modelled. A payload whose fields cannot be read counts as a parse failure.
- The callbacks are assumed not to throw. An `onChunk` that throws (ahead/js/api.js:149) is caught by the inner `catch` (api.js:151-153); that line's chunk is skipped like a parse failure, after its thread id was saved, and the loop goes on. An `onComplete` that throws (api.js:127, 139) reaches the outer `catch` (api.js:157-159), so `onError` would run after it.
- ApiClient.FramedCompletesOnce: "exactly one of onComplete or onError" holds only for callbacks that return normally; a throwing `onComplete` would be followed by `onError`.
- `chat` (ahead/js/api.js:62-91) is the non-streaming request. It is not part of this model.
- `parseInt` skips leading ECMAScript white space, reads an optional sign and reads `0x` hexadecimal. Values beyond the safe integer range are not modelled (numbers are unbounded).

## Findings

| source | as written | input that shows it | evidently intended | confidence | as-written member | corrected member |
|---|---|---|---|---|---|---|
| service/assistant_service.py:115 | the executor event reads the key "past_step", but the executor writes "past_steps", so the event always carries None | an executor output `{"past_steps": [(task, summary)], "plan": []}` | the event reports the recorded steps under "past_steps" | not executed | Service.ExecutorEventDropsStep | Service.StreamReportsSteps |
