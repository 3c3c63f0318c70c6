/**
 * `to_messages` of each step kind, as the step classes define it before the
 * critic extension is installed. Functions state the result; the methods
 * build it the way the source does, by successive appends, and are proved
 * to produce the same list.
 */
module Rendering {
  import opened Wrappers
  import opened Strings
  import opened Messages
  import opened Steps

  /** The Python exceptions that rendering can raise. */
  datatype Exception = TypeError | IndexError

  datatype Rendered = Ok(messages: seq<Message>) | Raised(exception: Exception)

  // ---------------------------------------------------------------------
  // SystemPromptStep
  // ---------------------------------------------------------------------

  function SystemPromptMessages(s: SystemPromptStep, summaryMode: bool): (r: seq<Message>)
    ensures summaryMode <==> r == []
    ensures !summaryMode ==> |r| == 1 && r[0].role == System
    ensures !summaryMode ==> r[0].content == Parts([Text(Strip(s.systemPrompt))])
  {
    if summaryMode then [] else [TextMessage(System, Strip(s.systemPrompt))]
  }

  // ---------------------------------------------------------------------
  // TaskStep
  // ---------------------------------------------------------------------

  /** The task's images; None and the empty list both contribute none. */
  function TaskImages(t: TaskStep): seq<ImageRef> {
    if t.taskImages.Some? then t.taskImages.value else []
  }

  function ImageParts(images: seq<ImageRef>): (r: seq<Part>)
    ensures |r| == |images| && forall i :: 0 <= i < |images| ==> r[i] == Image(images[i])
  {
    seq(|images|, i requires 0 <= i < |images| => Image(images[i]))
  }

  const NewTaskHeader: string := "New task:\n"

  /** One USER message: the task text, then one image part per task image,
      in list order. */
  function TaskMessages(t: TaskStep): (r: seq<Message>)
    ensures |r| == 1 && r[0].role == User && r[0].content.Parts?
  {
    [Message(User, Parts([Text(NewTaskHeader + t.task)] + ImageParts(TaskImages(t))))]
  }

  /** The task text comes first, then one image part per task image, in
      list order. */
  lemma TaskMessageParts(t: TaskStep)
    ensures var parts := TaskMessages(t)[0].content.parts;
      && |parts| == 1 + |TaskImages(t)|
      && parts[0] == Text(NewTaskHeader + t.task)
      && forall i :: 0 <= i < |TaskImages(t)| ==> parts[i + 1] == Image(TaskImages(t)[i])
  {
    var images := ImageParts(TaskImages(t));
    var parts := [Text(NewTaskHeader + t.task)] + images;
    assert TaskMessages(t)[0].content.parts == parts;
    forall i | 0 <= i < |TaskImages(t)|
      ensures parts[i + 1] == Image(TaskImages(t)[i])
    {
      assert parts[i + 1] == images[i];
    }
  }

  method TaskToMessages(t: TaskStep) returns (r: seq<Message>)
    ensures r == TaskMessages(t)
  {
    var content := [Text(NewTaskHeader + t.task)];
    if t.taskImages.Some? && |t.taskImages.value| > 0 {
      var images := t.taskImages.value;
      for i := 0 to |images|
        invariant content == [Text(NewTaskHeader + t.task)] + ImageParts(images[..i])
      {
        assert images[..i + 1] == images[..i] + [images[i]];
        content := content + [Image(images[i])];
      }
      assert images[..|images|] == images;
      assert content == [Text(NewTaskHeader + t.task)] + ImageParts(TaskImages(t));
    } else {
      assert ImageParts(TaskImages(t)) == [];
      assert content == [Text(NewTaskHeader + t.task)] + ImageParts(TaskImages(t));
    }
    r := [Message(User, Parts(content))];
  }

  // ---------------------------------------------------------------------
  // PlanningStep
  // ---------------------------------------------------------------------

  /** The facts message always comes first; the plan message follows only
      outside summary mode. */
  function PlanningMessages(p: PlanningStep, summaryMode: bool): (r: seq<Message>)
    ensures |r| == if summaryMode then 1 else 2
    ensures r[0] == TextMessage(Assistant, "[FACTS LIST]:\n" + Strip(p.facts))
    ensures !summaryMode ==> r[1] == TextMessage(Assistant, "[PLAN]:\n" + Strip(p.plan))
  {
    [TextMessage(Assistant, "[FACTS LIST]:\n" + Strip(p.facts))]
      + if summaryMode then [] else [TextMessage(Assistant, "[PLAN]:\n" + Strip(p.plan))]
  }

  /** The summary is the first message of the full rendering. */
  lemma PlanningSummaryIsPrefix(p: PlanningStep)
    ensures PlanningMessages(p, true) == PlanningMessages(p, false)[..1]
  {
  }

  method PlanningToMessages(p: PlanningStep, summaryMode: bool) returns (r: seq<Message>)
    ensures r == PlanningMessages(p, summaryMode)
  {
    r := [];
    r := r + [TextMessage(Assistant, "[FACTS LIST]:\n" + Strip(p.facts))];
    if !summaryMode {
      r := r + [TextMessage(Assistant, "[PLAN]:\n" + Strip(p.plan))];
    }
  }

  // ---------------------------------------------------------------------
  // ActionStep
  // ---------------------------------------------------------------------

  /** The six messages an action step may contribute, in output order. */
  datatype Slot = InputEcho | ModelOutput | ToolCallDump | Observation | ErrorReport | ObservedImages

  /** The source field of the slot is set (for images: set and non-empty). */
  predicate Present(slot: Slot, a: ActionFields) {
    match slot
    case InputEcho => a.modelInputMessages.Some?
    case ModelOutput => a.modelOutput.Some?
    case ToolCallDump => a.toolCalls.Some?
    case Observation => a.observations.Some?
    case ErrorReport => a.error.Some?
    case ObservedImages => a.observationsImages.Some? && |a.observationsImages.value| > 0
  }

  /** The guard of each slot: its field is present, the input echo is asked
      for, and the model output is not in summary mode. */
  predicate Enabled(slot: Slot, a: ActionFields, summaryMode: bool, showInput: bool) {
    && Present(slot, a)
    && (slot == InputEcho ==> showInput)
    && (slot == ModelOutput ==> !summaryMode)
  }

  predicate HasFirstCall(a: ActionFields) {
    a.toolCalls.Some? && |a.toolCalls.value| > 0
  }

  const RetryAdvice: string :=
    "\nNow let's retry: take care not to repeat previous errors! If you have retried several times, try a completely different approach.\n"

  const ImagesHeader: string := "Here are the observed images:"

  /** The line naming the tool call that an observation or error answers. */
  function CallIdLine(id: string): string {
    "Call id: " + id + "\n"
  }

  function ToolCallDumpText(calls: seq<ToolCall>, show: Show): string {
    "Calling tools:\n" + show.toolCalls(ToolCallRecords(calls))
  }

  function ObservationText(id: string, observations: string): string {
    CallIdLine(id) + "Observation:\n" + observations
  }

  function ErrorBody(e: AgentError, show: Show): string {
    "Error:\n" + show.error(e) + RetryAdvice
  }

  /** The text of the error message: the call-id line when there is a first
      tool call, then the error and the retry advice. */
  function ErrorText(e: AgentError, a: ActionFields, show: Show): string {
    (if HasFirstCall(a) then CallIdLine(a.toolCalls.value[0].id) else "") + ErrorBody(e, show)
  }

  function EchoMessage(inputMessages: seq<Message>): Message {
    Message(System, Echo(inputMessages))
  }

  function OutputMessage(modelOutput: string): Message {
    TextMessage(Assistant, Strip(modelOutput))
  }

  function DumpMessage(calls: seq<ToolCall>, show: Show): Message {
    TextMessage(Assistant, ToolCallDumpText(calls, show))
  }

  function ObservationMessage(id: string, observations: string): Message {
    TextMessage(ToolResponse, ObservationText(id, observations))
  }

  function ErrorMessage(text: string): Message {
    TextMessage(ToolResponse, text)
  }

  function ImagesMessage(images: seq<ImageRef>): Message {
    Message(User, Parts([Text(ImagesHeader)] + ImageParts(images)))
  }

  function SlotMessage(slot: Slot, a: ActionFields, show: Show): Message
    requires Present(slot, a)
    requires slot == Observation ==> HasFirstCall(a)
  {
    match slot
    case InputEcho => EchoMessage(a.modelInputMessages.value)
    case ModelOutput => OutputMessage(a.modelOutput.value)
    case ToolCallDump => DumpMessage(a.toolCalls.value, show)
    case Observation => ObservationMessage(a.toolCalls.value[0].id, a.observations.value)
    case ErrorReport => ErrorMessage(ErrorText(a.error.value, a, show))
    case ObservedImages => ImagesMessage(a.observationsImages.value)
  }

  /** The observation message reads the first tool call unguarded. */
  predicate ObservationRenderable(a: ActionFields) {
    a.observations.None? || HasFirstCall(a)
  }

  /** The output so far, followed by the slot's message when its guard holds. */
  function Stage(prefix: seq<Message>, slot: Slot, a: ActionFields, summaryMode: bool, showInput: bool, show: Show): seq<Message>
    requires slot == Observation ==> ObservationRenderable(a)
  {
    if Enabled(slot, a, summaryMode, showInput) then prefix + [SlotMessage(slot, a, show)] else prefix
  }

  /** The first three slots: what the model was given and what it answered. */
  function ModelTurn(a: ActionFields, summaryMode: bool, showInput: bool, show: Show): seq<Message> {
    var echo := Stage([], InputEcho, a, summaryMode, showInput, show);
    var output := Stage(echo, ModelOutput, a, summaryMode, showInput, show);
    Stage(output, ToolCallDump, a, summaryMode, showInput, show)
  }

  /** The last three slots, after `prefix`: what the tools gave back. */
  function ToolTurn(prefix: seq<Message>, a: ActionFields, show: Show): seq<Message>
    requires ObservationRenderable(a)
  {
    var observation := Stage(prefix, Observation, a, false, false, show);
    var error := Stage(observation, ErrorReport, a, false, false, show);
    Stage(error, ObservedImages, a, false, false, show)
  }

  /** The six slots, each in its turn, in their fixed order. */
  function AssembleAction(a: ActionFields, summaryMode: bool, showInput: bool, show: Show): seq<Message>
    requires ObservationRenderable(a)
  {
    ToolTurn(ModelTurn(a, summaryMode, showInput, show), a, show)
  }

  /** `ActionStep.to_messages(summary_mode, show_model_input_messages)` of the
      base class. With observations but no first tool call it raises:
      `None[0]` is a TypeError, `[][0]` an IndexError. */
  function ActionMessages(a: ActionFields, summaryMode: bool, showInput: bool, show: Show): (r: Rendered)
    ensures r.Raised? <==> !ObservationRenderable(a)
    ensures r.Raised? ==> r.exception == if a.toolCalls.None? then TypeError else IndexError
  {
    if a.observations.Some? && a.toolCalls.None? then Raised(TypeError)
    else if a.observations.Some? && |a.toolCalls.value| == 0 then Raised(IndexError)
    else Ok(AssembleAction(a, summaryMode, showInput, show))
  }

  method ActionToMessages(a: ActionFields, summaryMode: bool, showInput: bool, show: Show) returns (r: Rendered)
    ensures r == ActionMessages(a, summaryMode, showInput, show)
  {
    var messages: seq<Message> := [];
    ghost var expected: seq<Message> := [];
    if a.modelInputMessages.Some? && showInput {
      messages := messages + [EchoMessage(a.modelInputMessages.value)];
    }
    expected := Stage(expected, InputEcho, a, summaryMode, showInput, show);
    assert messages == expected;
    if a.modelOutput.Some? && !summaryMode {
      messages := messages + [OutputMessage(a.modelOutput.value)];
    }
    expected := Stage(expected, ModelOutput, a, summaryMode, showInput, show);
    assert messages == expected;
    if a.toolCalls.Some? {
      messages := messages + [DumpMessage(a.toolCalls.value, show)];
    }
    expected := Stage(expected, ToolCallDump, a, summaryMode, showInput, show);
    assert messages == ModelTurn(a, summaryMode, showInput, show);
    r := AppendToolResults(messages, a, show);
  }

  /** The second half of `ActionStep.to_messages`: the observation, error
      and observed-images messages appended to `messages`. */
  method AppendToolResults(messages: seq<Message>, a: ActionFields, show: Show) returns (r: Rendered)
    ensures !ObservationRenderable(a) ==> r == Raised(if a.toolCalls.None? then TypeError else IndexError)
    ensures ObservationRenderable(a) ==> r == Ok(ToolTurn(messages, a, show))
  {
    var result := messages;
    ghost var expected := messages;
    if a.observations.Some? {
      if a.toolCalls.None? {
        return Raised(TypeError);
      }
      if |a.toolCalls.value| == 0 {
        return Raised(IndexError);
      }
      result := result + [ObservationMessage(a.toolCalls.value[0].id, a.observations.value)];
    }
    expected := Stage(expected, Observation, a, false, false, show);
    assert result == expected;
    if a.error.Some? {
      var errorMessage := ErrorBody(a.error.value, show);
      var content := if a.toolCalls.Some? && |a.toolCalls.value| > 0
                     then CallIdLine(a.toolCalls.value[0].id) else "";
      content := content + errorMessage;
      assert content == ErrorText(a.error.value, a, show);
      result := result + [ErrorMessage(content)];
    }
    expected := Stage(expected, ErrorReport, a, false, false, show);
    assert result == expected;
    if a.observationsImages.Some? && |a.observationsImages.value| > 0 {
      result := result + [ImagesMessage(a.observationsImages.value)];
    }
    r := Ok(result);
  }

  // Properties of the action rendering

  /** The six slots in the order the source emits them. */
  const SlotOrder: seq<Slot> := [InputEcho, ModelOutput, ToolCallDump, Observation, ErrorReport, ObservedImages]

  /** The slots of `slots` whose guard holds, keeping their order. */
  function EnabledSlots(slots: seq<Slot>, a: ActionFields, summaryMode: bool, showInput: bool): (r: seq<Slot>)
    ensures forall slot :: slot in r <==> slot in slots && Enabled(slot, a, summaryMode, showInput)
  {
    if slots == [] then []
    else
      var last := slots[|slots| - 1];
      EnabledSlots(slots[..|slots| - 1], a, summaryMode, showInput)
        + if Enabled(last, a, summaryMode, showInput) then [last] else []
  }

  /** Every slot's message can be built: its field is present, and an
      observation has a first tool call to answer. */
  predicate Buildable(slots: seq<Slot>, a: ActionFields) {
    forall slot :: slot in slots ==> Present(slot, a) && (slot == Observation ==> HasFirstCall(a))
  }

  /** One message per slot, in the order of `slots`. */
  function SlotMessages(slots: seq<Slot>, a: ActionFields, show: Show): (r: seq<Message>)
    requires Buildable(slots, a)
    ensures |r| == |slots| && forall i :: 0 <= i < |slots| ==> r[i] == SlotMessage(slots[i], a, show)
  {
    seq(|slots|, i requires 0 <= i < |slots| => SlotMessage(slots[i], a, show))
  }

  /** Adding one slot to the slots considered adds its message at the end
      exactly when its guard holds. */
  lemma StageExtends(slots: seq<Slot>, slot: Slot, prefix: seq<Message>, a: ActionFields, summaryMode: bool, showInput: bool, show: Show)
    requires ObservationRenderable(a)
    requires prefix == SlotMessages(EnabledSlots(slots, a, summaryMode, showInput), a, show)
    ensures Stage(prefix, slot, a, summaryMode, showInput, show)
         == SlotMessages(EnabledSlots(slots + [slot], a, summaryMode, showInput), a, show)
  {
    var xs := slots + [slot];
    assert xs[..|xs| - 1] == slots;
  }

  /** The tool-side slots do not look at the two flags. */
  lemma ToolSlotsIgnoreFlags(prefix: seq<Message>, slot: Slot, a: ActionFields, summaryMode: bool, showInput: bool, show: Show)
    requires slot in {Observation, ErrorReport, ObservedImages} && ObservationRenderable(a)
    ensures Stage(prefix, slot, a, false, false, show) == Stage(prefix, slot, a, summaryMode, showInput, show)
  {
  }

  const ModelSlots: seq<Slot> := [InputEcho, ModelOutput, ToolCallDump]

  lemma {:induction false} ModelTurnSlots(a: ActionFields, summaryMode: bool, showInput: bool, show: Show)
    requires ObservationRenderable(a)
    ensures ModelTurn(a, summaryMode, showInput, show)
         == SlotMessages(EnabledSlots(ModelSlots, a, summaryMode, showInput), a, show)
  {
    var sm, si := summaryMode, showInput;
    var s0: seq<Slot> := [];
    var s1 := s0 + [InputEcho];
    var s2 := s1 + [ModelOutput];
    var m0: seq<Message> := [];
    StageExtends(s0, InputEcho, m0, a, sm, si, show);
    var m1 := Stage(m0, InputEcho, a, sm, si, show);
    StageExtends(s1, ModelOutput, m1, a, sm, si, show);
    var m2 := Stage(m1, ModelOutput, a, sm, si, show);
    StageExtends(s2, ToolCallDump, m2, a, sm, si, show);
    assert s2 + [ToolCallDump] == ModelSlots;
  }

  lemma {:induction false} ToolTurnSlots(a: ActionFields, summaryMode: bool, showInput: bool, show: Show)
    requires ObservationRenderable(a)
    ensures ToolTurn(SlotMessages(EnabledSlots(ModelSlots, a, summaryMode, showInput), a, show), a, show)
         == SlotMessages(EnabledSlots(SlotOrder, a, summaryMode, showInput), a, show)
  {
    var sm, si := summaryMode, showInput;
    var s3 := ModelSlots;
    var s4 := s3 + [Observation];
    var s5 := s4 + [ErrorReport];
    var m3 := SlotMessages(EnabledSlots(s3, a, sm, si), a, show);
    StageExtends(s3, Observation, m3, a, sm, si, show);
    ToolSlotsIgnoreFlags(m3, Observation, a, sm, si, show);
    var m4 := Stage(m3, Observation, a, sm, si, show);
    StageExtends(s4, ErrorReport, m4, a, sm, si, show);
    ToolSlotsIgnoreFlags(m4, ErrorReport, a, sm, si, show);
    var m5 := Stage(m4, ErrorReport, a, sm, si, show);
    StageExtends(s5, ObservedImages, m5, a, sm, si, show);
    ToolSlotsIgnoreFlags(m5, ObservedImages, a, sm, si, show);
    assert s5 + [ObservedImages] == SlotOrder;
  }

  /** `ActionStep.to_messages` emits, in the fixed slot order, exactly one
      message for each slot whose guard holds and none for the others. */
  lemma {:induction false} ActionFollowsSlotOrder(a: ActionFields, summaryMode: bool, showInput: bool, show: Show)
    requires ObservationRenderable(a)
    ensures ActionMessages(a, summaryMode, showInput, show)
         == Ok(SlotMessages(EnabledSlots(SlotOrder, a, summaryMode, showInput), a, show))
  {
    ModelTurnSlots(a, summaryMode, showInput, show);
    ToolTurnSlots(a, summaryMode, showInput, show);
  }

  /** Summary mode differs from full mode only by dropping the model output. */
  lemma SummaryDropsModelOutput(a: ActionFields, showInput: bool, show: Show)
    ensures ActionMessages(a, true, showInput, show) == ActionMessages(a.(modelOutput := None), false, showInput, show)
  {
    var b := a.(modelOutput := None);
    SummaryModelTurn(a, showInput, show);
    if ObservationRenderable(a) {
      ToolTurnReads(ModelTurn(a, true, showInput, show), a, b, show);
    }
  }

  lemma SummaryModelTurn(a: ActionFields, showInput: bool, show: Show)
    ensures ModelTurn(a, true, showInput, show) == ModelTurn(a.(modelOutput := None), false, showInput, show)
  {
    var b := a.(modelOutput := None);
    assert Stage([], InputEcho, a, true, showInput, show) == Stage([], InputEcho, b, false, showInput, show);
  }

  /** The tool-side messages read only the tool calls, the observations,
      the error and the observed images. */
  lemma ToolTurnReads(prefix: seq<Message>, a: ActionFields, b: ActionFields, show: Show)
    requires ObservationRenderable(a)
    requires a.toolCalls == b.toolCalls && a.observations == b.observations
    requires a.error == b.error && a.observationsImages == b.observationsImages
    ensures ToolTurn(prefix, a, show) == ToolTurn(prefix, b, show)
  {
  }

  /** Only the observed-images message has the USER role; it is emitted
      exactly when the image list is non-empty, and then comes last. */
  lemma {:induction false} ObservedImagesLast(a: ActionFields, summaryMode: bool, showInput: bool, show: Show)
    requires ObservationRenderable(a)
    ensures var r := ActionMessages(a, summaryMode, showInput, show).messages;
      && ((exists i :: 0 <= i < |r| && r[i].role == User) <==> Present(ObservedImages, a))
      && (Present(ObservedImages, a) ==> r[|r| - 1] == ImagesMessage(a.observationsImages.value))
  {
    ActionFollowsSlotOrder(a, summaryMode, showInput, show);
    var slots := EnabledSlots(SlotOrder, a, summaryMode, showInput);
    var r := ActionMessages(a, summaryMode, showInput, show).messages;
    if Present(ObservedImages, a) {
      assert SlotOrder[..|SlotOrder| - 1] + [ObservedImages] == SlotOrder;
      assert slots[|slots| - 1] == ObservedImages;
      assert r[|r| - 1].role == User;
    } else {
      forall i | 0 <= i < |r|
        ensures r[i].role != User
      {
        assert slots[i] in slots;
      }
    }
  }

  /** Without `show_model_input_messages` no message carries the input echo. */
  lemma {:induction false} EchoOnlyWhenShown(a: ActionFields, summaryMode: bool, show: Show)
    requires ObservationRenderable(a)
    ensures var r := ActionMessages(a, summaryMode, false, show).messages;
      forall i :: 0 <= i < |r| ==> !r[i].content.Echo?
  {
    ActionFollowsSlotOrder(a, summaryMode, false, show);
    var slots := EnabledSlots(SlotOrder, a, summaryMode, false);
    var r := ActionMessages(a, summaryMode, false, show).messages;
    forall i | 0 <= i < |r|
      ensures !r[i].content.Echo?
    {
      assert slots[i] in slots;
    }
  }

  /** The error message starts with the call-id line of the first tool
      call exactly when there is one, and always ends with the retry advice. */
  lemma ErrorTextCallId(e: AgentError, a: ActionFields, show: Show)
    ensures StartsWith(ErrorText(e, a, show), "Call id: ") <==> HasFirstCall(a)
    ensures HasFirstCall(a) ==> StartsWith(ErrorText(e, a, show), CallIdLine(a.toolCalls.value[0].id))
    ensures !HasFirstCall(a) ==> StartsWith(ErrorText(e, a, show), "Error:\n")
    ensures EndsWith(ErrorText(e, a, show), RetryAdvice)
  {
    var text := ErrorText(e, a, show);
    if HasFirstCall(a) {
      assert text == CallIdLine(a.toolCalls.value[0].id) + ErrorBody(e, show);
    } else {
      assert text[0] == 'E';
    }
    assert text == (if HasFirstCall(a) then CallIdLine(a.toolCalls.value[0].id) else "") + ("Error:\n" + show.error(e)) + RetryAdvice;
  }

  // ---------------------------------------------------------------------
  // CriticStep
  // ---------------------------------------------------------------------

  const FeedbackLimit: nat := 200

  /** The feedback as the summary shows it: cut to its first 200 characters
      plus "..." only when it is longer than that. */
  function Abbreviate(feedback: string): (r: string)
    ensures |feedback| <= FeedbackLimit ==> r == feedback
    ensures |feedback| > FeedbackLimit ==> |r| == FeedbackLimit + 3
    ensures |feedback| > FeedbackLimit ==> r[..FeedbackLimit] == feedback[..FeedbackLimit] && r[FeedbackLimit..] == "..."
  {
    if |feedback| > FeedbackLimit then feedback[..FeedbackLimit] + "..." else feedback
  }

  function StatusPrefix(accepted: bool): string {
    if accepted then "[Critic ACCEPTED] " else "[Critic REJECTED] "
  }

  const ReviewPrefix: string := "[Critic Review] "

  /** A critic message. The source writes the role as the raw string
      "assistant" and the content as a plain string; that role string names
      the ASSISTANT role. */
  function CriticMessage(text: string): (m: Message)
    ensures RoleNamed("assistant") == Some(m.role)
    ensures m.content == Plain(text)
  {
    Message(Assistant, Plain(text))
  }

  /** A dictionary is truthy when it is present and not empty. */
  predicate Truthy(reply: Option<map<string, Value>>) {
    reply.Some? && |reply.value| > 0
  }

  /** The one message of the summary: the verdict, then the feedback as
      `Abbreviate` cuts it. */
  function CriticSummaryLine(c: CriticStep): (m: Message)
    ensures m.role == Assistant && m.content.Plain?
  {
    CriticMessage(StatusPrefix(c.accepted) + Abbreviate(c.feedback))
  }

  /** `CriticStep.to_messages(summary_mode)`. */
  function CriticMessages(c: CriticStep, summaryMode: bool): (r: seq<Message>)
    ensures forall i :: 0 <= i < |r| ==> r[i].role == Assistant && r[i].content.Plain?
    ensures summaryMode ==> r == [CriticSummaryLine(c)]
    ensures !summaryMode ==> |r| == (if Truthy(c.modelOutputMessage) then 1 else 0)
    ensures !summaryMode && |r| == 1 ==> r[0].content.text == ReviewPrefix + c.feedback
  {
    if summaryMode then
      [CriticSummaryLine(c)]
    else if Truthy(c.modelOutputMessage) then
      [CriticMessage(ReviewPrefix + c.feedback)]
    else
      []
  }

  /** The status prefix of the summary message tells the verdict, both ways. */
  lemma CriticStatusShowsVerdict(c: CriticStep)
    ensures StartsWith(CriticSummaryLine(c).content.text, StatusPrefix(c.accepted))
    ensures StartsWith(CriticSummaryLine(c).content.text, StatusPrefix(true)) <==> c.accepted
  {
    var text := CriticSummaryLine(c).content.text;
    assert text[..|StatusPrefix(c.accepted)|] == StatusPrefix(c.accepted);
    if !c.accepted {
      assert text[8] == 'R';
    }
  }

  /** The summary message is the status prefix followed by the feedback,
      which is cut to its first 200 characters plus "..." only when longer. */
  lemma CriticSummaryFeedback(c: CriticStep)
    ensures var text := CriticSummaryLine(c).content.text;
      var n := |StatusPrefix(c.accepted)|;
      && (|c.feedback| <= FeedbackLimit ==> text == StatusPrefix(c.accepted) + c.feedback)
      && (|c.feedback| > FeedbackLimit ==>
            && |text| == n + FeedbackLimit + 3
            && text[n..n + FeedbackLimit] == c.feedback[..FeedbackLimit]
            && EndsWith(text, "..."))
  {
    var text := CriticSummaryLine(c).content.text;
    var n := |StatusPrefix(c.accepted)|;
    var cut := Abbreviate(c.feedback);
    assert text == StatusPrefix(c.accepted) + cut;
    if |c.feedback| > FeedbackLimit {
      assert text[n..n + FeedbackLimit] == cut[..FeedbackLimit];
      assert text[|text| - 3..] == cut[FeedbackLimit..];
    }
  }
}
