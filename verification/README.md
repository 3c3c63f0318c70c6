# Agent step memory, modelled in Dafny

This project models the step memory of an agent run, `src/smolagents/memory.py`:

- the typed steps an agent records (system prompt, task, planning, action and critic review);
- how each step turns into chat messages for the next model call, in full or in summary mode;
- the flat records that `dict()` exports;
- the `AgentMemory` container with its reset, its full and succinct dumps, and its replay;
- the critic extension grafted onto `ActionStep`, which gives every action step a list of critic steps and appends their messages after the step's own.

Modules, one per concern:

- `Wrappers` (`Option`) and `Lists` (concatenation of groups) are shared helpers.
- `Strings` models Python's `str.strip()`.
- `Messages` models roles, content parts and messages.
- `Steps` models the step kinds and their records.
- `Rendering` models each step kind's `to_messages`.
- `Graft` models the critic extension and the rendering of any step.
- `Memory` models `AgentMemory` and the replay events.

Where the source builds a list by successive appends, there is a method that does the same and is proved equal to a function. Those methods are `TaskToMessages`, `PlanningToMessages`, `ActionToMessages`/`AppendToolResults`, `ExtendWithCritics`, `Replay` and `LogStep`. The function states the result, and the lemmas state its properties. `AgentMemory` is a class whose `steps` field `Reset` reassigns.

Python values that the core only stores or passes on are abstract types: float times, `ChatMessage`, arbitrary values and `AgentError`. Two helpers outside this file appear in records as uninterpreted terms: `make_json_serializable(x)` as `FSerialized(x)` and `error.dict()` as `FErrorDict(e)`. Python's `str()` of the tool-call list and of an error is a parameter, the `Show` record. The clock read by `CriticStep.__init__` is the parameter `now`.

### Where the code and its written description differ

The model follows the code in each of these cases.

- **Observation without a tool call.** The description says the call-id line is dropped when there are no tool calls. The code indexes `tool_calls[0]` unguarded (memory.py:109). It therefore raises `TypeError` when `tool_calls` is None and `IndexError` when it is `[]`. `ActionMessages` returns `Raised(...)` in exactly those cases.
- **Installing the patch twice.** The description asks for an idempotent patch. The code wraps the current `to_messages` again, so a second installation appends the critic messages a second time. See `PatchedTwice` and `PatchNotIdempotent`.
- **Model output in summary mode.** An example in the description lists the model output among the summary-mode messages. The code drops it in summary mode (memory.py:84). See `SummaryDropsModelOutput`.
- **The input echo.** The patched `to_messages` accepts only `summary_mode`, so the input echo can no longer appear through the public method. See `PatchedNeverEchoes`.
- **The critic step's record.** `CriticStep` is not itself a dataclass. `dict()` reflects over the fields of `MemoryStep`, which has none, so its record is empty.

## Model

| member | source | states |
|---|---|---|
| Strings.StripShape | src/smolagents/memory.py:86 | `strip()` yields a slice of its input with only whitespace removed on both sides, and the result neither starts nor ends with whitespace |
| Strings.StripIdempotent | src/smolagents/memory.py:155 | stripping an already stripped text changes nothing |
| Messages.RoleNamed | src/smolagents/memory.py:18-20 | a role string is resolved only to the role whose wire value it is |
| Messages.WireRoundTrip | src/smolagents/memory.py:18-20 | every role is found again from its wire string |
| Steps.NewCriticStep | src/smolagents/memory.py:248-265 | a missing start time is taken from the clock and missing input messages become `[]`; every other argument is stored unchanged |
| Steps.ToolCallRecord | src/smolagents/memory.py:29-37 | a call's record has exactly the keys id, type and function; type is "function"; function holds exactly name and the serialized arguments |
| Steps.ToolCallRecords | src/smolagents/memory.py:68 | one record per tool call, in call order |
| Steps.ActionRecord | src/smolagents/memory.py:64-78 | an action's record has exactly the eleven fixed keys |
| Steps.ActionRecordRenames | src/smolagents/memory.py:66-71 | the step number is filed under "step"; there are no step_number, observations_images or critic_steps keys; the input messages are kept as given |
| Steps.ActionRecordValues | src/smolagents/memory.py:68-77 | tool_calls holds one call record per call in order; error is None exactly when there is no error and is otherwise its record; action_output is serialized |
| Steps.ActionRecordToolCalls | src/smolagents/memory.py:68 | None and the empty list both record `[]`; observed images never affect the record |
| Steps.StepRecord | src/smolagents/memory.py:42-43 | an action uses its fixed-key record; a critic step's record is empty; a planning record holds the input messages, while task and system-prompt records have none |
| Rendering.SystemPromptMessages | src/smolagents/memory.py:186-189 | empty exactly in summary mode; otherwise one SYSTEM message with the stripped prompt |
| Rendering.ImageParts | src/smolagents/memory.py:175-177 | one image part per image, in list order |
| Rendering.TaskMessages | src/smolagents/memory.py:173-179 | always exactly one USER message made of parts |
| Rendering.TaskMessageParts | src/smolagents/memory.py:174-179 | the parts are the "New task:\n" text and then one image part per task image, in order; None and `[]` give no images |
| Rendering.TaskToMessages | src/smolagents/memory.py:173-179 | the append loop over the task images builds exactly `TaskMessages` |
| Rendering.PlanningMessages | src/smolagents/memory.py:151-165 | the stripped facts message always comes first; the stripped plan follows only outside summary mode; the length is 1 in summary mode and 2 otherwise |
| Rendering.PlanningSummaryIsPrefix | src/smolagents/memory.py:151-165 | the summary rendering is the first message of the full rendering |
| Rendering.PlanningToMessages | src/smolagents/memory.py:151-165 | the appends build exactly `PlanningMessages` |
| Rendering.ActionMessages | src/smolagents/memory.py:80-140 | rendering raises exactly when there are observations but no first tool call: TypeError for None, IndexError for `[]` |
| Rendering.ActionToMessages | src/smolagents/memory.py:80-100 | the guarded appends produce exactly `ActionMessages`, including the raised cases |
| Rendering.AppendToolResults | src/smolagents/memory.py:102-140 | after the model-side messages it appends the observation, error and images messages in turn, or raises as `ActionMessages` does |
| Rendering.EnabledSlots | src/smolagents/memory.py:82-126 | a slot is kept exactly when it is among the given slots and its guard holds |
| Rendering.SlotMessages | src/smolagents/memory.py:80-140 | one message per slot, in slot order |
| Rendering.StageExtends | src/smolagents/memory.py:80-140 | one more guarded append adds the slot's message at the end exactly when its guard holds |
| Rendering.ToolSlotsIgnoreFlags | src/smolagents/memory.py:102-139 | the observation, error and images guards read neither summary mode nor the echo flag |
| Rendering.ModelTurnSlots | src/smolagents/memory.py:81-100 | the first three appends give the messages of the enabled slots among echo, output and dump, in that order |
| Rendering.ToolTurnSlots | src/smolagents/memory.py:102-139 | the last three appends complete those into the messages of all enabled slots, in the fixed order |
| Rendering.ActionFollowsSlotOrder | src/smolagents/memory.py:80-140 | the result is one message per enabled slot, in the fixed order echo, output, dump, observation, error, images, and none for the others |
| Rendering.SummaryDropsModelOutput | src/smolagents/memory.py:84 | summary mode gives what full mode gives for the same step without model output |
| Rendering.SummaryModelTurn | src/smolagents/memory.py:82-100 | for the model-side messages, summary mode is the same as full mode without model output |
| Rendering.ToolTurnReads | src/smolagents/memory.py:102-139 | the tool-side messages depend only on the tool calls, observations, error and observed images |
| Rendering.ObservedImagesLast | src/smolagents/memory.py:126-139 | a USER message appears exactly when the image list is non-empty, and it is then the last message: the header followed by the images |
| Rendering.EchoOnlyWhenShown | src/smolagents/memory.py:82-83 | without the echo flag no message carries the raw input messages |
| Rendering.ErrorTextCallId | src/smolagents/memory.py:114-124 | the error text starts with "Call id: " exactly when there is a first tool call, and then with that call's id line; otherwise it starts with "Error:\n"; it always ends with the retry advice |
| Rendering.Abbreviate | src/smolagents/memory.py:282 | feedback of at most 200 characters is kept whole; longer feedback becomes its first 200 characters plus "..." |
| Rendering.CriticMessage | src/smolagents/memory.py:279-291 | the raw role string "assistant" is the ASSISTANT role, and the content is a plain string |
| Rendering.CriticSummaryLine | src/smolagents/memory.py:277-284 | the summary line is an ASSISTANT message with plain content |
| Rendering.CriticMessages | src/smolagents/memory.py:267-293 | every message is ASSISTANT with plain content; summary mode gives exactly the summary line; full mode gives one message, `"[Critic Review] "` plus the whole feedback, exactly when the reply dictionary is present and non-empty, and none otherwise |
| Rendering.CriticStatusShowsVerdict | src/smolagents/memory.py:278-282 | the summary starts with its status prefix, and starts with the ACCEPTED prefix exactly when the critic accepted |
| Rendering.CriticSummaryFeedback | src/smolagents/memory.py:282 | after the prefix comes the whole feedback when it is at most 200 characters long; otherwise it is 203 characters holding the first 200 characters of feedback and ending in "..." |
| Graft.NewActionStep | src/smolagents/memory.py:311-318 | a newly constructed action step keeps its fields and has no critic steps |
| Graft.CriticGroups | src/smolagents/memory.py:328-329 | one group of messages per critic step, in step order |
| Graft.PatchedMessages | src/smolagents/memory.py:323-332 | the patched rendering raises exactly when the base rendering without the echo flag raises |
| Graft.PatchedToMessages | src/smolagents/memory.py:323-332 | the wrapper (base call, then the critic loop) produces exactly `PatchedMessages` |
| Graft.ExtendWithCritics | src/smolagents/memory.py:327-330 | the loop appends each critic step's messages in step order, and appends nothing when there are no critic steps |
| Graft.CriticTailSnoc | src/smolagents/memory.py:328-330 | one more critic step appends its own messages at the end |
| Graft.CriticTailLast | src/smolagents/memory.py:328-330 | the critic messages end with those of the last critic step |
| Graft.CriticTailAppend | src/smolagents/memory.py:328-330 | the critic messages of two lists of critic steps are those of each list in turn |
| Graft.CriticTailAtMostOnePerStep | src/smolagents/memory.py:277-293 | each critic step contributes at most one message |
| Graft.SummaryLines | src/smolagents/memory.py:277-284 | one summary line per critic step, in order |
| Graft.CriticTailSummary | src/smolagents/memory.py:328-330 | in summary mode the critic messages are exactly one summary line per critic step, in order |
| Graft.CriticTailIsAssistantText | src/smolagents/memory.py:279-291 | every appended critic message is an ASSISTANT message with plain content |
| Graft.PatchedExtendsBase | src/smolagents/memory.py:323-332 | the base messages are kept unchanged as a prefix, and everything after them is the critic messages |
| Graft.FreshStepRendersBase | src/smolagents/memory.py:313-316 | a newly constructed step renders exactly as the base rendering does |
| Graft.PatchedIgnoresInput | src/smolagents/memory.py:323-324 | the patched rendering does not depend on the model input messages |
| Graft.HiddenInputModelTurn | src/smolagents/memory.py:82-83 | without the echo flag, the model-side messages do not depend on the input messages |
| Graft.PatchedNeverEchoes | src/smolagents/memory.py:323-324 | no message of the patched rendering is the input echo |
| Graft.PatchNotIdempotent | src/smolagents/memory.py:321-334 | a second installation appends the critic messages again, so with any critic messages the result differs |
| Graft.StepMessages | src/smolagents/memory.py:45-46 | only an action step can raise, and only when its observation cannot be rendered; a critic step renders as `CriticMessages` |
| Memory.StepGroups | src/smolagents/memory.py:217-231 | one group of replay events per step, in step order |
| Memory.Succinct | src/smolagents/memory.py:202 | the keys are those of the record without "model_input_messages", and the values are unchanged |
| Memory.AgentMemory.constructor | src/smolagents/memory.py:193-195 | the memory holds the given system prompt and no steps |
| Memory.AgentMemory.Reset | src/smolagents/memory.py:197-198 | the steps become empty, the system prompt is unchanged, and both dumps become empty |
| Memory.AgentMemory.FullSteps | src/smolagents/memory.py:205-206 | one record per step, in step order |
| Memory.AgentMemory.SuccinctSteps | src/smolagents/memory.py:200-203 | one record per step, in step order, each without the model input |
| Memory.AgentMemory.Replay | src/smolagents/memory.py:208-231 | the replay loop logs the header line and then each step's events in step order |
| Memory.LogStep | src/smolagents/memory.py:218-231 | the branch chain logs exactly the events of that step's kind |
| Memory.ReplaySnoc | src/smolagents/memory.py:217 | one more step appends its own events at the end |
| Memory.ReplayAppend | src/smolagents/memory.py:217 | the replay of two step lists is the replay of each in turn |
| Memory.ReplayLast | src/smolagents/memory.py:217 | the replay ends with the events of the last step |
| Memory.StepRuleCount | src/smolagents/memory.py:223-228 | an action or planning step logs exactly one rule; other steps log none |
| Memory.BracketedRuleCount | src/smolagents/memory.py:223-231 | the rule, optional dump and output of an action or planning step hold one rule |
| Memory.ReplayRuleCount | src/smolagents/memory.py:217-231 | the replay logs exactly as many rules as there are action and planning steps |
| Memory.BriefReplayHasNoDetail | src/smolagents/memory.py:218-230 | outside detailed mode no message dump and no system prompt is logged |
| Memory.BracketedDetailOnly | src/smolagents/memory.py:223-231 | removing the dump from a detailed action or planning group gives the brief group |
| Memory.StepDetailOnly | src/smolagents/memory.py:218-231 | removing the detail events from a step's detailed events gives its brief events |
| Memory.DetailedReplayAddsOnlyDetail | src/smolagents/memory.py:217-231 | the detailed replay is the brief replay with only message dumps and system prompts added |
| Memory.SuccinctDropsOnlyInput | src/smolagents/memory.py:200-206 | each succinct record lacks "model_input_messages" and otherwise has the same keys and values as the full record |

## Left out

- Rendering of log output (`AgentLogger` in `src/smolagents/monitoring.py`) is not part of this model. The replay produces abstract events, one per logger call, and the text of a rule such as "Step 3" or "Step None" is kept as its step number.
- `make_json_serializable` and `AgentError.dict()` are not part of this model. They appear as uninterpreted record values.
- Python `str()` of a list of tool-call dictionaries and of an `AgentError` is a parameter (`Show`), not a definition.
- `time.time()` is the `now` parameter of `NewCriticStep`. Times and durations are never computed with.
- The reflective `dataclasses.asdict` of the other step kinds keeps nested values as they are. It does not convert nested dataclasses to dictionaries.
- The monkey-patching mechanics are not modelled: the rebinding of class attributes, the `hasattr` test and the installation at import time. Only the composed constructor and rendering are. As a consequence, the model omits that the patched `to_messages` would reject a `show_model_input_messages` keyword argument.
- `CriticStep.__str__` is display-only and not modelled.
- `MessageRole` comes from `smolagents.models`, which is not part of this model. The four roles and their wire strings are written out here.
- The list mutation in the source (`append`, `extend`) is modelled as reassignment of sequence values. No list is shared between steps in the modelled code, so aliasing plays no part.
