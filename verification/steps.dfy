/**
 * The step records of an agent run and their flat key/value form
 * (`dict()`). The five step kinds form one closed sum type, `Step`.
 */
module Steps {
  import opened Wrappers
  import opened Messages

  /** A float timestamp or duration; copied around, never computed with. */
  type Time(==)
  /** A `ChatMessage` returned by the model; stored and copied, never inspected. */
  type ChatMessage(==)
  /** An arbitrary Python value: tool-call arguments, an action's output. */
  type Value(==)
  /** An `AgentError`; only its `str()` and its `dict()` export are used. */
  type AgentError(==)

  datatype ToolCall = ToolCall(name: string, arguments: Value, id: string)

  /** A critic's review of an action. `modelOutputMessage` is the critic
      model's reply as a dictionary, `None` when there was none. */
  datatype CriticStep = CriticStep(
    startTime: Time,
    endTime: Option<Time>,
    duration: Option<Time>,
    modelInputMessages: seq<Message>,
    modelOutputMessage: Option<map<string, Value>>,
    feedback: string,
    accepted: bool)

  /** The declared (dataclass) fields of an action step. */
  datatype ActionFields = ActionFields(
    modelInputMessages: Option<seq<Message>>,
    toolCalls: Option<seq<ToolCall>>,
    startTime: Option<Time>,
    endTime: Option<Time>,
    stepNumber: Option<int>,
    error: Option<AgentError>,
    duration: Option<Time>,
    modelOutputMessage: Option<ChatMessage>,
    modelOutput: Option<string>,
    observations: Option<string>,
    observationsImages: Option<seq<ImageRef>>,
    actionOutput: Value)

  /** An action step: its declared fields plus the `critic_steps` attribute
      that the critic extension grafts onto every instance. */
  datatype ActionStep = ActionStep(fields: ActionFields, criticSteps: seq<CriticStep>)

  datatype PlanningStep = PlanningStep(
    modelInputMessages: seq<Message>,
    modelOutputMessageFacts: ChatMessage,
    facts: string,
    modelOutputMessagePlan: ChatMessage,
    plan: string)

  datatype TaskStep = TaskStep(task: string, taskImages: Option<seq<ImageRef>>)

  datatype SystemPromptStep = SystemPromptStep(systemPrompt: string)

  datatype Step =
    | SystemPrompt(systemPromptStep: SystemPromptStep)
    | Task(taskStep: TaskStep)
    | Planning(planningStep: PlanningStep)
    | Action(actionStep: ActionStep)
    | Critic(criticStep: CriticStep)

  /** `CriticStep(...)`: a missing start time is taken from the clock (`now`),
      missing input messages become the empty list, the rest is kept. */
  function NewCriticStep(
    startTime: Option<Time>, endTime: Option<Time>, duration: Option<Time>,
    modelInputMessages: Option<seq<Message>>, modelOutputMessage: Option<map<string, Value>>,
    feedback: string, accepted: bool, now: Time): (c: CriticStep)
    ensures startTime.Some? ==> c.startTime == startTime.value
    ensures startTime.None? ==> c.startTime == now
    ensures modelInputMessages.None? ==> c.modelInputMessages == []
    ensures modelInputMessages.Some? ==> c.modelInputMessages == modelInputMessages.value
    ensures c.endTime == endTime && c.duration == duration
    ensures c.modelOutputMessage == modelOutputMessage
    ensures c.feedback == feedback && c.accepted == accepted
  {
    CriticStep(
      if startTime.Some? then startTime.value else now,
      endTime, duration,
      if modelInputMessages.Some? then modelInputMessages.value else [],
      modelOutputMessage, feedback, accepted)
  }

  // ---------------------------------------------------------------------
  // Records: the values of the dictionaries that `dict()` returns.
  // ---------------------------------------------------------------------

  /** A value in a step record. `FSerialized(v)` stands for
      `make_json_serializable(v)` and `FErrorDict(e)` for `e.dict()`: both
      are helpers outside this model, kept as uninterpreted applications. */
  datatype Field =
    | FNone
    | FText(text: string)
    | FInt(number: int)
    | FTime(time: Time)
    | FList(items: seq<Field>)
    | FDict(entries: map<string, Field>)
    | FMessages(messages: seq<Message>)
    | FChat(chat: ChatMessage)
    | FSerialized(value: Value)
    | FErrorDict(error: AgentError)

  type Record = map<string, Field>

  /** Python's `str()` of the two values whose text the core embeds in
      messages: a list of tool-call dictionaries, and an `AgentError`. */
  datatype Show = Show(toolCalls: seq<Field> -> string, error: AgentError -> string)

  function OptText(o: Option<string>): Field {
    if o.Some? then FText(o.value) else FNone
  }

  function OptInt(o: Option<int>): Field {
    if o.Some? then FInt(o.value) else FNone
  }

  function OptTime(o: Option<Time>): Field {
    if o.Some? then FTime(o.value) else FNone
  }

  function OptChat(o: Option<ChatMessage>): Field {
    if o.Some? then FChat(o.value) else FNone
  }

  function OptMessages(o: Option<seq<Message>>): Field {
    if o.Some? then FMessages(o.value) else FNone
  }

  /** `ToolCall.dict()`: the function-call wire shape. */
  function ToolCallRecord(tc: ToolCall): (r: Field)
    ensures r.FDict? && r.entries.Keys == {"id", "type", "function"}
    ensures r.entries["id"] == FText(tc.id) && r.entries["type"] == FText("function")
    ensures r.entries["function"].FDict? && r.entries["function"].entries.Keys == {"name", "arguments"}
    ensures r.entries["function"].entries["name"] == FText(tc.name)
    ensures r.entries["function"].entries["arguments"] == FSerialized(tc.arguments)
  {
    FDict(map[
      "id" := FText(tc.id),
      "type" := FText("function"),
      "function" := FDict(map["name" := FText(tc.name), "arguments" := FSerialized(tc.arguments)])])
  }

  /** `[tc.dict() for tc in calls]`. */
  function ToolCallRecords(calls: seq<ToolCall>): (r: seq<Field>)
    ensures |r| == |calls| && forall i :: 0 <= i < |calls| ==> r[i] == ToolCallRecord(calls[i])
  {
    seq(|calls|, i requires 0 <= i < |calls| => ToolCallRecord(calls[i]))
  }

  /** The tool calls of an action, `[]` standing for both None and the empty list. */
  function CallsOf(a: ActionFields): seq<ToolCall> {
    if a.toolCalls.Some? then a.toolCalls.value else []
  }

  const InputMessagesKey: string := "model_input_messages"

  const ActionRecordKeys: set<string> := {
    "model_input_messages", "tool_calls", "start_time", "end_time", "step", "error",
    "duration", "model_output_message", "model_output", "observations", "action_output"}

  /** `ActionStep.dict()`: a fixed set of keys, not a field dump. The step
      number is filed under "step"; observed images and grafted critic steps
      are not recorded. */
  function ActionRecord(a: ActionFields): (r: Record)
    ensures r.Keys == ActionRecordKeys
  {
    map[
      "model_input_messages" := OptMessages(a.modelInputMessages),
      "tool_calls" := FList(if a.toolCalls.Some? && |a.toolCalls.value| > 0
                            then ToolCallRecords(a.toolCalls.value) else []),
      "start_time" := OptTime(a.startTime),
      "end_time" := OptTime(a.endTime),
      "step" := OptInt(a.stepNumber),
      "error" := if a.error.Some? then FErrorDict(a.error.value) else FNone,
      "duration" := OptTime(a.duration),
      "model_output_message" := OptChat(a.modelOutputMessage),
      "model_output" := OptText(a.modelOutput),
      "observations" := OptText(a.observations),
      "action_output" := FSerialized(a.actionOutput)]
  }

  /** `step.dict()` for every kind. Steps other than actions use the
      inherited reflective dump: one key per declared dataclass field, with
      the field's value (nested dataclass values are not converted here).
      `CriticStep` is not itself a dataclass, so the dump sees only the
      fields of the base class, which has none. */
  function StepRecord(step: Step): (r: Record)
    ensures step.Action? ==> r == ActionRecord(step.actionStep.fields)
    ensures step.Critic? ==> r == map[]
    ensures step.Planning? ==> InputMessagesKey in r
    ensures step.Task? || step.SystemPrompt? ==> InputMessagesKey !in r
  {
    match step
    case SystemPrompt(s) => map["system_prompt" := FText(s.systemPrompt)]
    case Task(t) =>
      map["task" := FText(t.task),
          "task_images" := if t.taskImages.Some?
                           then FList(seq(|t.taskImages.value|, i requires 0 <= i < |t.taskImages.value| => FText(t.taskImages.value[i])))
                           else FNone]
    case Planning(p) =>
      map["model_input_messages" := FMessages(p.modelInputMessages),
          "model_output_message_facts" := FChat(p.modelOutputMessageFacts),
          "facts" := FText(p.facts),
          "model_output_message_plan" := FChat(p.modelOutputMessagePlan),
          "plan" := FText(p.plan)]
    case Action(a) => ActionRecord(a.fields)
    case Critic(_) => map[]
  }

  /** The step number is filed under "step"; observed images and grafted
      critic steps are not recorded. */
  lemma ActionRecordRenames(a: ActionFields)
    ensures "step_number" !in ActionRecord(a) && "observations_images" !in ActionRecord(a)
    ensures "critic_steps" !in ActionRecord(a)
    ensures ActionRecord(a)["step"] == OptInt(a.stepNumber)
    ensures ActionRecord(a)[InputMessagesKey] == OptMessages(a.modelInputMessages)
  {
  }

  /** The tool calls are recorded one `ToolCall.dict()` per call, in order;
      the error as its own `dict()`, or None; the output serialized. */
  lemma ActionRecordValues(a: ActionFields)
    ensures var r := ActionRecord(a);
      && r["tool_calls"].FList? && |r["tool_calls"].items| == |CallsOf(a)|
      && (forall i :: 0 <= i < |CallsOf(a)| ==> r["tool_calls"].items[i] == ToolCallRecord(CallsOf(a)[i]))
      && (r["error"] == FNone <==> a.error.None?)
      && (a.error.Some? ==> r["error"] == FErrorDict(a.error.value))
      && r["action_output"] == FSerialized(a.actionOutput)
  {
  }

  /** What the record keeps of the tool calls: empty and absent lists both
      give `[]`, and the record does not depend on observed images. */
  lemma ActionRecordToolCalls(a: ActionFields, images: Option<seq<ImageRef>>)
    ensures a.toolCalls.None? || a.toolCalls == Some([]) ==> ActionRecord(a)["tool_calls"] == FList([])
    ensures ActionRecord(a) == ActionRecord(a.(observationsImages := images))
  {
  }
}
