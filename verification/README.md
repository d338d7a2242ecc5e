# wechat-agent task orchestration, modelled in Dafny

This project models the task-orchestration core of wechat-agent, a desktop automation agent.

- **The store.** `TaskManager` (src/core/task_manager.ts) keeps one task. A task is an ordered, mutable plan of steps with a cursor. Completing a step advances the cursor. New steps are spliced in at the cursor.
- **The agent.** `AgentCore` (src/core/agent_core.ts) creates a task whose only step is an `analyze` step. Its loop then runs until the task is complete:
  1. take the current step;
  2. adjust the window;
  3. dispatch the step to its handler;
  4. complete the step (as failed, ending the loop, if the handler threw);
  5. pause `DELAY_STEP` ms.
- **Analyze steps.** An analyze step asks the AI oracle about the screen. Its suggested actions are filtered, mapped to step drafts and inserted into the plan.

Files and modules:

| file | module | models |
|---|---|---|
| `json.dfy` | `Wrappers`, `Json` | JavaScript values: truthiness, `?.`, `\|\|`, `Number()` coercion, `for`/`for...of` bounds |
| `collaborators.dfy` | `UiConstants`, `Collaborators` | the screen constants, the calls the core makes as trace events, and the world that decides which call throws and what the oracle answers; `Perform` is a sequence of awaited calls |
| `task_types.dfy` | `TaskTypes` | `Task`, `TaskStep`, `TaskStatus` of src/types/task.ts |
| `task_manager.dfy` | `TaskStore` | the store as functions on task values, their lemmas, and the class `TaskManager`, whose methods update its fields in place and are proved to agree with those functions |
| `plan_expansion.dfy` | `PlanExpansion` | the filter/map of `action_suggestion.steps` in `handleAnalyze` |
| `dispatch.dfy` | `StepDispatch` | what `executeStep` does with one step: calls, outcome, inserted drafts |
| `orchestration.dfy` | `Orchestration` | the loop of `start` as a function of the world, and what it guarantees |
| `agent_core.dfy` | `Agent` | the class `AgentCore`: handlers and `start` as imperative methods over a call trace, proved to follow the functions above |

Behaviour of the code that the model keeps as it is:

- **Unknown step types.** A step type the switch of `executeStep` does not list makes no call, even when its params carry coordinates: the `default` branch only logs (`StepDispatch.NoCoordinateFallback`).
- **Malformed suggestions.** A malformed suggestion list fails the analyze step. A truthy `steps` that is not an array has no `filter` and throws. A null entry throws when its `action` is read. `PlanExpansion.Expand` returns a `TypeError` in both cases.
- **The `coordinate` key.** A tap suggestion's params gain `x` and `y` and keep their `coordinate` key (`PlanExpansion.ExpandExample`).
- **Failed is terminal only in the loop.** The store does not protect a failed step or task: a later successful completion overwrites it (`TaskStore.FailedIsNotTerminalInStore`). The loop never does that, because it breaks right after a failure (`Orchestration.RunEnds`).
- **Insertion before completion.** `handleAnalyze` inserts while the cursor still points at the analyze step, and the loop then completes "the current step". So the first suggested step is marked completed without ever being dispatched, and the analyze step stays pending and runs again after the other suggestions. This is the behaviour of the code, and `TaskStore.InsertedStepCompletedUndispatched` and `Orchestration.AnalyzeRoundSkipsFirstSuggestion` state it.

## Model

| member | source | states |
|---|---|---|
| Json.Iterations | src/core/agent_core.ts:241-244 | `for (let i = 0; i < v; i++)` runs exactly `n` times: `i < v` holds for a counter `i >= 0` iff `i < n`, where `v` is read as `Number(v)` (a one-element array through its element's string form) and NaN gives zero rounds |
| Collaborators.Perform | src/core/agent_core.ts:174-222 | awaited calls made in order: the calls made are a prefix of the list, all of it when it ends normally, and a throw is the last call made, the one the world made fail |
| Collaborators.PerformCharacterized | src/core/agent_core.ts:174-222 | a call sequence ends normally iff every call succeeds; when it throws, every call before the last succeeded |
| Collaborators.PerformSplit | src/core/agent_core.ts:174-222 | calls `a` then `b`: `b` is made only when `a` ended normally, and then after `a` |
| Collaborators.PerformThrowsEarly | src/core/agent_core.ts:174-222 | once a prefix throws, no later call is ever made |
| Collaborators.PerformStopsAtFailure | src/core/agent_core.ts:174-222 | the first call that throws ends the sequence, whatever follows it |
| Collaborators.PerformMakesHandlerCalls | src/core/agent_core.ts:166-372 | a handler whose calls actuate or perceive only ever makes such calls, even when it stops early |
| TaskStore.CreateSpec | src/core/task_manager.ts:10-31 | a new task has the given goal and steps in order, each pending and without a result, cursor 0, status pending, and identifiers all distinct |
| TaskStore.CompleteWithoutCurrentStep | src/core/task_manager.ts:47-51 | with no current step, completion changes nothing |
| TaskStore.CompleteSuccess | src/core/task_manager.ts:53-62 | success marks only the current step completed with its result, advances the cursor by one, and sets the status completed iff the plan is exhausted, running otherwise |
| TaskStore.CompleteFailure | src/core/task_manager.ts:53-65 | failure marks only the current step failed with the error, sets the task failed, and leaves the cursor |
| TaskStore.CompletePreservesInv | src/core/task_manager.ts:47-66 | completion keeps the cursor within the plan, `completed` only at the end, and identifiers unique |
| TaskStore.FailedIsNotTerminalInStore | src/core/task_manager.ts:47-66 | the store does not make `failed` terminal: a later successful completion overwrites the failed step and status |
| TaskStore.InsertAtCursor | src/core/task_manager.ts:71-86 | insertion keeps the history before the cursor and the scheduled steps after the new ones, does not move the cursor, and makes the first new step current |
| TaskStore.InsertStatus | src/core/task_manager.ts:88-91 | insertion reopens a completed task as running and leaves any other status, failed included, unchanged |
| TaskStore.InsertExample | src/core/task_manager.ts:85-86 | plan [A, B, C] with the cursor at B, after inserting [X, Y], is [A, X, Y, B, C] with X current |
| TaskStore.InsertReopensCompleted | src/core/task_manager.ts:85-91 | inserting into an exhausted, completed task makes it running with the new step current |
| TaskStore.InsertPreservesInv | src/core/task_manager.ts:71-86 | inserted steps take fresh identifiers, so all identifiers stay distinct and the cursor stays valid |
| TaskStore.SpliceKeepsIdsDistinct | src/core/task_manager.ts:74-86 | splicing steps numbered from a fresh counter value into steps with distinct, older identifiers keeps every identifier distinct |
| TaskStore.InsertedStepCompletedUndispatched | src/core/agent_core.ts:76-78 | inserting at the analyze step and then completing it marks the first inserted step completed, moves the analyze step after the insertions, and makes the second insertion (or the analyze step again) current |
| TaskStore.TaskManager.constructor | src/core/task_manager.ts:5 | a new store has no task |
| TaskStore.TaskManager.CreateTask | src/core/task_manager.ts:10-31 | replaces the store's task by the new one built from the drafts, drawing fresh identifiers, and keeps the store invariant |
| TaskStore.TaskManager.GetCurrentTask | src/core/task_manager.ts:33-35 | returns the task iff there is one, with its current fields |
| TaskStore.TaskManager.GetCurrentStep | src/core/task_manager.ts:37-42 | returns a step iff there is a task and the cursor is inside the plan, and then the step at the cursor |
| TaskStore.TaskManager.CompleteCurrentStep | src/core/task_manager.ts:47-66 | updates the fields in place to exactly the completed task, draws no identifier, and keeps the store invariant |
| TaskStore.TaskManager.InsertNextSteps | src/core/task_manager.ts:71-92 | splices the fresh steps in place at the cursor, drawing one identifier per step, and keeps the store invariant; a no-op without a task |
| TaskStore.TaskManager.IsTaskComplete | src/core/task_manager.ts:94-100 | true iff there is no task or its status is completed or failed |
| PlanExpansion.KeepSuggestions | src/core/agent_core.ts:343 | the filter throws a TypeError iff an entry is null or undefined; otherwise every kept entry has a truthy action other than "END" |
| PlanExpansion.KeepSingle | src/core/agent_core.ts:343 | one entry is kept iff it passes the test |
| PlanExpansion.KeepAppend | src/core/agent_core.ts:343 | filtering works piecewise and keeps order: filtering `a + b` is filtering `a`, then `b` |
| PlanExpansion.WithCoordinates | src/core/agent_core.ts:349-354 | writing `x`/`y` into the params throws a TypeError iff the params are a primitive |
| PlanExpansion.ToDraft | src/core/agent_core.ts:344-362 | a draft's type is the suggestion's action and its description is `s.description` or the default text; its params are `s.params \|\| {}`, and for a tap with a coordinate pair and object params they also get `x` and `y` from the pair; the callback throws, with a TypeError, iff it is a tap with a pair whose params are a primitive |
| PlanExpansion.MapDrafts | src/core/agent_core.ts:344-363 | the map succeeds iff every callback does, and then yields one draft per kept entry, in order |
| PlanExpansion.Expand | src/core/agent_core.ts:341-363 | expanding an oracle result fails only with a TypeError |
| PlanExpansion.ExpandWithoutSuggestions | src/core/agent_core.ts:341 | a missing or falsy `action_suggestion` or `steps` yields no drafts and no error |
| PlanExpansion.ExpandKeepsOrderedActions | src/core/agent_core.ts:342-363 | the drafts are, one to one and in order, the callback's drafts of the kept suggestions, each typed by its truthy, non-"END" action |
| PlanExpansion.ExpandNeverSchedulesEnd | src/core/agent_core.ts:343 | no expanded draft is of type "END" or has a falsy type |
| PlanExpansion.TapNestedCoordinateWins | src/core/agent_core.ts:348-351 | a tap's `params.coordinate` pair becomes `params.x`/`params.y` |
| PlanExpansion.TapTopLevelCoordinate | src/core/agent_core.ts:345-355 | without a nested array pair (no `coordinate` in the params, or one that is not an array), a tap's top-level `coordinate` becomes `params.x`/`params.y`, written into `{}` when the suggestion has no params |
| PlanExpansion.KeepExample | src/core/agent_core.ts:343 | the filter keeps the tap suggestion and drops the "END" entry |
| PlanExpansion.DraftExample | src/core/agent_core.ts:344-362 | a tap suggestion with a nested pair becomes a tap draft whose params gain `x` and `y` and the default description |
| PlanExpansion.ExpandExample | src/core/agent_core.ts:341-363 | the suggestions `[tap with coordinate [5, 9], END]` expand to exactly one tap draft with `x = 5`, `y = 9` |
| StepDispatch.BrowseCalls | src/core/agent_core.ts:244-264 | `n` rounds of browsing make `2n` calls |
| StepDispatch.BrowseCallsAppend | src/core/agent_core.ts:244-264 | `a + b` rounds of browsing are `a` rounds followed by `b` rounds |
| StepDispatch.BrowseCallsShape | src/core/agent_core.ts:248-262 | round `i` analyzes the feed then scrolls down by 1000, so the calls alternate |
| StepDispatch.BrowseTurn | src/core/agent_core.ts:244-264 | after `i` successful rounds, round `i` ends browsing at its feed analysis or its scroll if that throws, and otherwise one more round has succeeded |
| StepDispatch.BrowseFeedFails | src/core/agent_core.ts:251-255 | a throwing feed analysis ends browsing with that call |
| StepDispatch.BrowseScrollFails | src/core/agent_core.ts:262 | a throwing scroll ends browsing with that call |
| StepDispatch.BrowseRoundSucceeds | src/core/agent_core.ts:244-263 | a round whose two calls succeed extends the successful prefix |
| StepDispatch.StraightCallsAreHandlerCalls | src/core/agent_core.ts:98-164 | the fixed-call handlers only tap, type, scroll and perceive |
| StepDispatch.ReadQuota | src/core/agent_core.ts:287-289 | the loop over unread chats never opens more chats than there are |
| StepDispatch.ReadQuotaStep | src/core/agent_core.ts:289 | `processed >= limit` stops the loop exactly when the quota is used up, and each opened chat uses one |
| StepDispatch.ReadAll | src/core/agent_core.ts:295-304 | reading chats makes two calls per chat |
| StepDispatch.ReadChatsCalls | src/core/agent_core.ts:287-310 | the chat loop makes at most two calls per chat within its quota, only handler calls, and a throw is its last call |
| StepDispatch.ReadUnreadResult | src/core/agent_core.ts:281-310 | after the find call, the step makes only handler calls, and a collaborator error is the last call made, the one the world made fail |
| StepDispatch.ReadChatsInOrder | src/core/agent_core.ts:287-310 | without null chats, the loop opens the chats up to the quota one after the other, in the oracle's order |
| StepDispatch.ReadChatsStep | src/core/agent_core.ts:288-310 | if the rest of the loop opens the remaining chats in order, the whole loop opens the first chat and then those |
| StepDispatch.CheckNewMessages | src/core/agent_core.ts:267-311 | checking messages starts with the find-unread call, makes only handler calls, and a throw is its last call |
| StepDispatch.CheckNewMessagesCases | src/core/agent_core.ts:267-289 | a throwing find call, a null result, an empty list and a non-iterable list end the step at once, each with its outcome; otherwise the chat loop follows |
| StepDispatch.Handle | src/core/agent_core.ts:98-164 | only an analyze step that ends normally inserts steps; a thrown collaborator error is the last call made; handlers never adjust the window or pause |
| StepDispatch.NoCoordinateFallback | src/core/agent_core.ts:161-162 | an unlisted type makes no call and succeeds, even with coordinates in its params |
| StepDispatch.TapNeedsBothCoordinates | src/core/agent_core.ts:140-144 | a tap step taps iff both `x` and `y` are truthy, and then at exactly those values |
| StepDispatch.ScrollDefaultMagnitude | src/core/agent_core.ts:152-159 | a scroll without a magnitude scrolls by 500 |
| StepDispatch.InputNeedsText | src/core/agent_core.ts:146-150 | an input step types iff its `text` is truthy, then exactly that text, and inserts nothing |
| StepDispatch.ScrollNeedsDirection | src/core/agent_core.ts:152-159 | a scroll step scrolls iff its `direction` is truthy, then once in that direction by `magnitude \|\| 500`, and inserts nothing |
| StepDispatch.NavigateToTabs | src/core/agent_core.ts:224-238 | each of the four tabs is one tap at its fixed position; every other target, except the names an object inherits, makes no call and succeeds |
| StepDispatch.NavigateToInheritedMember | src/core/agent_core.ts:231-234 | every target named like an `Object.prototype` member (`constructor`, `toString`, `__proto__`, …) passes the lookup and taps at undefined coordinates |
| StepDispatch.BrowseDefaultsToThreeRounds | src/core/agent_core.ts:241-264 | without a count, browsing is three rounds, six calls, whatever the world answers, and all six are made when they succeed |
| StepDispatch.BrowseWithoutCount | src/core/agent_core.ts:241-244 | a missing or falsy count means the browse handler makes exactly three rounds of calls |
| StepDispatch.BrowseWithUnreadableCount | src/core/agent_core.ts:241-244 | any count that converts to NaN makes browsing make no call and succeed |
| StepDispatch.BrowseWithWrappedCount | src/core/agent_core.ts:241-244 | a count given as `["2"]` browses two rounds, as `i < ["2"]` compares with 2 |
| StepDispatch.NoUnreadChats | src/core/agent_core.ts:281-285 | an unread list that is missing, falsy or of length 0 ends the step normally after the one find call |
| StepDispatch.CheckNewMessagesRespectsLimit | src/core/agent_core.ts:268-289 | with a numeric limit `n` (5 by default), checking messages makes at most `1 + 2n` calls |
| StepDispatch.AnalyzeAsksWithInstruction | src/core/agent_core.ts:331-335 | an analyze step makes one perception call with `params.instruction`, or the description when that is falsy |
| StepDispatch.AnalyzeInsertsExpansion | src/core/agent_core.ts:335-371 | an analyze step ends normally iff the answer expands, inserts exactly the expansion, and otherwise throws the expansion's error |
| Orchestration.InitialSteps | src/core/agent_core.ts:47-53 | a task starts with exactly one step, of type analyze, whose params carry the instruction and nothing else |
| Orchestration.RunStopsEarly | src/core/agent_core.ts:60-73 | the loop ends at once on a complete task, when out of rounds, without a current step, or when adjusting the window throws (outer catch) |
| Orchestration.RunContinues | src/core/agent_core.ts:60-89 | a round that goes on is followed by the rest of the loop |
| Orchestration.RunStops | src/core/agent_core.ts:60-89 | a round that stops ends the loop there |
| Orchestration.RoundDispatches | src/core/agent_core.ts:75-88 | a dispatched step that throws is completed as failed and ends the loop; otherwise it is completed and the loop pauses `DELAY_STEP` ms |
| Orchestration.InitialTaskSettled | src/core/agent_core.ts:47-54 | the new task is unfinished, its analyze step is current, and identifiers are unique |
| Orchestration.FirstAnalyzeUsesInstruction | src/core/agent_core.ts:331 | the first oracle call carries the user's instruction, and the description only when the instruction is empty |
| Orchestration.SettledHasCurrentStep | src/core/agent_core.ts:60-62 | at the head of the loop an unfinished task always has a current step |
| Orchestration.InsertKeepsSettled | src/core/task_manager.ts:85-91 | insertion at the cursor keeps history completed and the rest pending |
| Orchestration.CompleteKeepsSettled | src/core/task_manager.ts:56-62 | a successful completion keeps history completed and the rest pending |
| Orchestration.FailKeepsHistory | src/core/task_manager.ts:53-65 | a failed completion leaves the history, the failed step with its error, and pending steps after it |
| Orchestration.RoundKeepsSettled | src/core/agent_core.ts:60-89 | one round never meets a missing step, and it either goes on from a settled plan, aborts with the plan untouched, or stops with the plan failed at its cursor |
| Orchestration.StepKeepsSettled | src/core/agent_core.ts:75-83 | after a dispatched step the plan is failed at its cursor if it threw and settled otherwise, with identifiers unique |
| Orchestration.RunEnds | src/core/agent_core.ts:60-89 | the loop never breaks for want of a step; it finishes only with every step completed; failure is terminal at loop level; the trace only grows |
| Orchestration.StartEnds | src/core/agent_core.ts:41-96 | `start` ends finished with every step completed, or failed at a step, or aborted or out of rounds with an unfinished plan, and identifiers stay unique |
| Orchestration.StartRuns | src/core/agent_core.ts:47-60 | `start` is the loop on the task it just created |
| Orchestration.AnalyzeRoundSkipsFirstSuggestion | src/core/agent_core.ts:72-88 | a round on an analyze step with suggestions makes only the window, perception and pause calls, yet completes the first suggestion and leaves the analyze step pending after the others |
| Orchestration.UnknownStepsOnlyAdjustAndPause | src/core/agent_core.ts:72-88 | a round on an unknown step type only adjusts the window and pauses, and completes the step |
| Agent.AgentCore.constructor | src/core/agent_core.ts:17-22 | a new agent owns an empty store and has made no call |
| Agent.AgentCore.Call | src/core/agent_core.ts:72 | an awaited collaborator call is recorded and throws iff the world says so |
| Agent.AgentCore.Ask | src/core/agent_core.ts:334-335 | a perception call is recorded and, unless it throws, returns the world's answer |
| Agent.AgentCore.HandleCheckSentMessages | src/core/agent_core.ts:166-172 | makes the one verification call |
| Agent.AgentCore.HandleSearchContact | src/core/agent_core.ts:174-200 | makes exactly the search calls, stopping at the first that throws |
| Agent.AgentCore.HandleEnterChat | src/core/agent_core.ts:202-207 | taps the first search result |
| Agent.AgentCore.HandleTypeText | src/core/agent_core.ts:209-215 | taps the input area and types the content when truthy, stopping at a throw |
| Agent.AgentCore.HandleClickSend | src/core/agent_core.ts:217-222 | taps the send button |
| Agent.AgentCore.HandleNavigateTo | src/core/agent_core.ts:224-238 | taps the target's tab when found, and makes no call otherwise |
| Agent.AgentCore.HandleBrowseMoments | src/core/agent_core.ts:240-265 | its loop makes the browsing calls of the count's rounds, stopping at the first throw |
| Agent.AgentCore.HandleCheckNewMessages | src/core/agent_core.ts:267-311 | makes exactly the calls and ends exactly as checking messages does |
| Agent.AgentCore.HandleUnreadResult | src/core/agent_core.ts:281-310 | what follows the find call makes exactly the calls, and ends exactly, as the function of the answer says |
| Agent.AgentCore.ReadUnread | src/core/agent_core.ts:287-310 | its loop over the unread chats makes exactly the chat loop's calls and ends as it does |
| Agent.AgentCore.OpenChat | src/core/agent_core.ts:295-304 | taps the chat, then extracts its content, stopping at a throw |
| Agent.AgentCore.HandleGetContactChatRecords | src/core/agent_core.ts:313-328 | makes the one extraction call |
| Agent.AgentCore.HandleAnalyze | src/core/agent_core.ts:330-372 | makes the analyze call, and inserts the expansion into the store exactly when it is non-empty |
| Agent.AgentCore.ExecuteStep | src/core/agent_core.ts:98-164 | runs the step's handler: the calls, the outcome and the store afterwards are those of `Handle` |
| Agent.AgentCore.ExecuteStraight | src/core/agent_core.ts:99-134 | the fixed-call cases make exactly their calls |
| Agent.AgentCore.ExecutePrimitive | src/core/agent_core.ts:140-163 | the tap, input and scroll cases and unlisted types make exactly their calls, stopping at a throw; their guards are those `TapNeedsBothCoordinates`, `InputNeedsText` and `ScrollNeedsDirection` state |
| Agent.AgentCore.Start | src/core/agent_core.ts:41-96 | creates the task and runs the loop in place; its calls, final store and exit are those of the loop function |
| Agent.AgentCore.RunRound | src/core/agent_core.ts:61-88 | one loop body updates the trace and the store exactly as a round does, and reports whether the loop ends |

The functions below define the model and carry no contract of their own.
The rows named after each one state what they promise.

- `TaskStore.Create` (src/core/task_manager.ts:10-31): `TaskStore.CreateSpec`, `Orchestration.InitialTaskSettled`.
- `TaskStore.CurrentStep` (src/core/task_manager.ts:37-42): `TaskStore.TaskManager.GetCurrentStep`, `Orchestration.SettledHasCurrentStep`.
- `TaskStore.Complete` (src/core/task_manager.ts:47-66): `TaskStore.CompleteWithoutCurrentStep`, `TaskStore.CompleteSuccess`, `TaskStore.CompleteFailure`, `TaskStore.CompletePreservesInv`, `TaskStore.FailedIsNotTerminalInStore`.
- `TaskStore.Insert` (src/core/task_manager.ts:71-92): `TaskStore.InsertAtCursor`, `TaskStore.InsertStatus`, `TaskStore.InsertExample`, `TaskStore.InsertReopensCompleted`, `TaskStore.InsertPreservesInv`.
- `TaskStore.IsComplete` (src/core/task_manager.ts:94-100): `TaskStore.TaskManager.IsTaskComplete`, `Orchestration.RunEnds`.
- `StepDispatch.StraightCalls` (src/core/agent_core.ts:98-164): `StepDispatch.StraightCallsAreHandlerCalls`, `StepDispatch.NoCoordinateFallback`, `StepDispatch.TapNeedsBothCoordinates`, `StepDispatch.InputNeedsText`, `StepDispatch.ScrollNeedsDirection`, `StepDispatch.ScrollDefaultMagnitude`.
- `StepDispatch.SearchContactCalls` (src/core/agent_core.ts:174-200): `Agent.AgentCore.HandleSearchContact`.
- `StepDispatch.TypeTextCalls` (src/core/agent_core.ts:209-215): `Agent.AgentCore.HandleTypeText`.
- `StepDispatch.NavigateToCalls` (src/core/agent_core.ts:224-238): `StepDispatch.NavigateToTabs`, `StepDispatch.NavigateToInheritedMember`.
- `StepDispatch.BrowseRound` (src/core/agent_core.ts:248-262): `StepDispatch.BrowseCallsShape`, `StepDispatch.BrowseTurn`, `StepDispatch.BrowseRoundSucceeds`.
- `StepDispatch.ReadChats` (src/core/agent_core.ts:287-310): `StepDispatch.ReadChatsCalls`, `StepDispatch.ReadChatsInOrder`, `StepDispatch.ReadChatsStep`, `StepDispatch.CheckNewMessagesRespectsLimit`.
- `StepDispatch.Analyze` (src/core/agent_core.ts:330-372): `StepDispatch.AnalyzeAsksWithInstruction`, `StepDispatch.AnalyzeInsertsExpansion`.
- `Orchestration.Round` (src/core/agent_core.ts:60-89): `Orchestration.RoundDispatches`, `Orchestration.RoundKeepsSettled`, `Agent.AgentCore.RunRound`.
- `Orchestration.Run` (src/core/agent_core.ts:60-89): `Orchestration.RunStopsEarly`, `Orchestration.RunContinues`, `Orchestration.RunStops`, `Orchestration.RunEnds`.
- `Orchestration.Start` (src/core/agent_core.ts:41-96): `Orchestration.StartEnds`, `Orchestration.StartRuns`, `Agent.AgentCore.Start`.
- `TaskStore.Fresh` (src/core/task_manager.ts:14-18 and 74-78): `TaskStore.CreateSpec`, `TaskStore.InsertAtCursor`, `TaskStore.InsertExample`, `TaskStore.SpliceKeepsIdsDistinct`.
- `PlanExpansion.Kept` (src/core/agent_core.ts:343): `PlanExpansion.KeepSuggestions`, `PlanExpansion.KeepSingle`, `PlanExpansion.ExpandNeverSchedulesEnd`.
- `PlanExpansion.Describe` (src/core/agent_core.ts:361): `PlanExpansion.ToDraft`, `PlanExpansion.DraftExample`.
- `PlanExpansion.TapCoordinates` (src/core/agent_core.ts:348-355): `PlanExpansion.ToDraft`, `PlanExpansion.TapNestedCoordinateWins`, `PlanExpansion.TapTopLevelCoordinate`.
- `StepDispatch.NavigationTap` (src/core/agent_core.ts:226-234): `StepDispatch.NavigateToTabs`, `StepDispatch.NavigateToInheritedMember`.
- `StepDispatch.BrowseCount` (src/core/agent_core.ts:241): `StepDispatch.BrowseWithoutCount`, `StepDispatch.BrowseWithUnreadableCount`, `StepDispatch.BrowseWithWrappedCount`.
- `StepDispatch.ReadCalls` (src/core/agent_core.ts:292-304): `StepDispatch.ReadAll`, `StepDispatch.ReadChatsStep`, `Agent.AgentCore.OpenChat`.
- `Json.Iterate` (the `for...of` over the unread chats, src/core/agent_core.ts:288): `StepDispatch.CheckNewMessagesCases`, `StepDispatch.ReadUnreadResult`.
- `Json.Truthy`, `Json.Or`, `Json.Get` and `Json.ToNumber` are JavaScript's own truthiness, `||`, property access and `Number()`. The rows that rely on them state them at their use sites: `Json.Iterations`, `StepDispatch.BrowseWithUnreadableCount`, `StepDispatch.BrowseWithWrappedCount`, `StepDispatch.TapNeedsBothCoordinates`, `PlanExpansion.ToDraft`.

## Left out

- Agent.AgentCore.Start: runs at most `fuel` rounds and then exits with `OutOfFuel`. The source loop has no bound, because the oracle can keep suggesting steps.
- Logging (`console.log`/`warn`/`error`) is not modelled, nor `JSON.stringify` of results. Reading `chat.name` on a null chat is kept, because it throws.
- Converting a value to a primitive never throws in the model. In JavaScript, an object with an own `toString` that is not a function (for example a suggested `action` of `{"toString": 0}`) has no way to yield a primitive, because its inherited `valueOf` returns the object itself. Such an object then makes a template literal, a `<` or `>=` against a number, or a property key throw a TypeError. `Json.ToNumber`, `PlanExpansion.Describe` and `StepDispatch.NavigationTap` convert such values without throwing, and the logging lines that interpolate them are not modelled. The affected sites in src/core/agent_core.ts are:
  - 67 and 69: step logging, where the throw would end `start` through its outer catch at 93-95;
  - 232: the navigation lookup;
  - 242 and 244: the browse count;
  - 269 and 289: the message limit;
  - 292 and 306: the chat name, where a throw at 292 comes before the tap, which `StepDispatch.ReadCalls` and `Agent.AgentCore.OpenChat` make anyway;
  - 332: the analyze instruction, where the throw comes before the perception call, which `StepDispatch.Analyze` and `Agent.AgentCore.HandleAnalyze` make anyway;
  - 361: the default description.
- Handler-internal waits are not modelled: `DELAY_SEARCH`, the 1000, 1500 and 2000 ms pauses of browsing and reading. Only the loop's `DELAY_STEP` pause is an event.
- Prompt files are not modelled. A prompt is its file name and substitutions; its contents, and the empty prompt a failed load yields, are not.
- Screen capture and the oracle call are one perception event. Either can throw, and the model does not say which.
- Identifiers come from a counter instead of uuid v4. `createdAt` (`Date.now()`) is left out.
- Numbers are integers. Floats and NaN arithmetic are not modelled. `Number()` reads only plain decimal digit strings; signs, exponents and whitespace make it NaN. The same reading applies to the string form of a one-element array.
- A non-string navigation target is treated as not found. JavaScript would convert it to a string key, so an array `["chat"]` would reach the chat tab.
- A non-string suggested action gets the default description " visión suggested " with nothing after it. JavaScript would append `String(action)`.
- When the tap coordinates are written into an array-valued `params`, that write is dropped.
- A thrown value is recorded as the `Error` that caused it. Non-`Error` thrown values and their `message` are not modelled.
- Not part of this model: src/core/task_planner.ts, src/index.ts, and the collaborators' own code (src/core/robot_service.ts, src/core/screen_capturer.ts, src/core/ai_client.ts). They are external collaborators, represented only by the world.
