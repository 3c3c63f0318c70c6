/**
 * The critic extension of `ActionStep`: every new action step gets an
 * empty `critic_steps` list, and the public `to_messages(summary_mode)`
 * becomes the base rendering followed by the messages of each critic step.
 * Only the composed behaviour is modelled, not the rebinding of the class
 * attributes that installs it.
 */
module Graft {
  import opened Wrappers
  import opened Messages
  import opened Steps
  import opened Rendering
  import opened Lists

  /** The patched constructor: the declared fields as given, no critic steps. */
  function NewActionStep(fields: ActionFields): (s: ActionStep)
    ensures s.fields == fields && s.criticSteps == []
  {
    ActionStep(fields, [])
  }

  /** Each critic step's messages, one group per step, in order. */
  function CriticGroups(critics: seq<CriticStep>, summaryMode: bool): (r: seq<seq<Message>>)
    ensures |r| == |critics| && forall i :: 0 <= i < |critics| ==> r[i] == CriticMessages(critics[i], summaryMode)
  {
    seq(|critics|, i requires 0 <= i < |critics| => CriticMessages(critics[i], summaryMode))
  }

  /** The messages of the critic steps, one step after the other. */
  function CriticTail(critics: seq<CriticStep>, summaryMode: bool): seq<Message> {
    Concat(CriticGroups(critics, summaryMode))
  }

  /** The patched `ActionStep.to_messages(summary_mode)`. The base method is
      called without `show_model_input_messages`, so with its default, false. */
  function PatchedMessages(s: ActionStep, summaryMode: bool, show: Show): (r: Rendered)
    ensures r.Raised? <==> ActionMessages(s.fields, summaryMode, false, show).Raised?
  {
    match ActionMessages(s.fields, summaryMode, false, show)
    case Raised(e) => Raised(e)
    case Ok(base) => Ok(base + CriticTail(s.criticSteps, summaryMode))
  }

  method PatchedToMessages(s: ActionStep, summaryMode: bool, show: Show) returns (r: Rendered)
    ensures r == PatchedMessages(s, summaryMode, show)
  {
    r := ActionToMessages(s.fields, summaryMode, false, show);
    if r.Raised? {
      return;
    }
    var messages := ExtendWithCritics(r.messages, s.criticSteps, summaryMode);
    r := Ok(messages);
  }

  /** The loop of the patched method: each critic step's messages are
      appended in turn. */
  method ExtendWithCritics(messages: seq<Message>, critics: seq<CriticStep>, summaryMode: bool) returns (r: seq<Message>)
    ensures r == messages + CriticTail(critics, summaryMode)
  {
    r := messages;
    if |critics| > 0 {
      for i := 0 to |critics|
        invariant r == messages + CriticTail(critics[..i], summaryMode)
      {
        CriticTailSnoc(critics, i, summaryMode);
        ghost var before := CriticTail(critics[..i], summaryMode);
        var added := CriticMessages(critics[i], summaryMode);
        AppendAssoc(messages, before, added);
        r := r + added;
      }
      assert critics[..|critics|] == critics;
    } else {
      assert CriticTail(critics, summaryMode) == [];
    }
  }

  /** One more critic step adds its own messages at the end. */
  lemma CriticTailSnoc(critics: seq<CriticStep>, i: nat, summaryMode: bool)
    requires i < |critics|
    ensures CriticTail(critics[..i + 1], summaryMode) == CriticTail(critics[..i], summaryMode) + CriticMessages(critics[i], summaryMode)
  {
    var groups := CriticGroups(critics[..i + 1], summaryMode);
    ConcatSnoc(groups, i);
    assert groups[..i + 1] == groups;
    assert groups[..i] == CriticGroups(critics[..i], summaryMode);
  }

  lemma CriticTailLast(critics: seq<CriticStep>, summaryMode: bool)
    requires critics != []
    ensures CriticTail(critics, summaryMode)
         == CriticTail(critics[..|critics| - 1], summaryMode) + CriticMessages(critics[|critics| - 1], summaryMode)
  {
    var n := |critics| - 1;
    CriticTailSnoc(critics, n, summaryMode);
    assert critics[..n + 1] == critics;
  }

  /** The critic messages of a concatenation are those of each part in turn. */
  lemma CriticTailAppend(xs: seq<CriticStep>, ys: seq<CriticStep>, summaryMode: bool)
    ensures CriticTail(xs + ys, summaryMode) == CriticTail(xs, summaryMode) + CriticTail(ys, summaryMode)
  {
    assert CriticGroups(xs + ys, summaryMode) == CriticGroups(xs, summaryMode) + CriticGroups(ys, summaryMode);
    ConcatAppend(CriticGroups(xs, summaryMode), CriticGroups(ys, summaryMode));
  }

  /** Each critic step contributes at most one message. */
  lemma {:induction false} CriticTailAtMostOnePerStep(critics: seq<CriticStep>, summaryMode: bool)
    ensures |CriticTail(critics, summaryMode)| <= |critics|
  {
    if critics != [] {
      var n := |critics| - 1;
      CriticTailAtMostOnePerStep(critics[..n], summaryMode);
      CriticTailLast(critics, summaryMode);
    }
  }

  /** The summary lines of the critic steps, one per step, in order. */
  function SummaryLines(critics: seq<CriticStep>): (r: seq<Message>)
    ensures |r| == |critics| && forall i :: 0 <= i < |critics| ==> r[i] == CriticSummaryLine(critics[i])
  {
    seq(|critics|, i requires 0 <= i < |critics| => CriticSummaryLine(critics[i]))
  }

  /** In summary mode each critic step contributes exactly its summary
      line, at its own index. */
  lemma CriticTailSummary(critics: seq<CriticStep>)
    ensures CriticTail(critics, true) == SummaryLines(critics)
  {
    var groups := CriticGroups(critics, true);
    ConcatSingletons(groups);
  }

  /** Every critic message is an ASSISTANT message with plain-string content. */
  lemma {:induction false} CriticTailIsAssistantText(critics: seq<CriticStep>, summaryMode: bool)
    ensures forall i :: 0 <= i < |CriticTail(critics, summaryMode)| ==>
      CriticTail(critics, summaryMode)[i].role == Assistant && CriticTail(critics, summaryMode)[i].content.Plain?
  {
    if critics != [] {
      var n := |critics| - 1;
      CriticTailIsAssistantText(critics[..n], summaryMode);
      CriticTailLast(critics, summaryMode);
      var init, last := CriticTail(critics[..n], summaryMode), CriticMessages(critics[n], summaryMode);
      var r := CriticTail(critics, summaryMode);
      forall i | 0 <= i < |r|
        ensures r[i].role == Assistant && r[i].content.Plain?
      {
        if i < |init| {
          assert r[i] == init[i];
        } else {
          assert r[i] == last[i - |init|];
        }
      }
    }
  }

  /** The patched rendering keeps the base rendering as a prefix and adds
      only critic messages after it. */
  lemma PatchedExtendsBase(s: ActionStep, summaryMode: bool, show: Show)
    requires ObservationRenderable(s.fields)
    ensures var base := ActionMessages(s.fields, summaryMode, false, show).messages;
      var r := PatchedMessages(s, summaryMode, show).messages;
      && |base| <= |r|
      && r[..|base|] == base
      && r[|base|..] == CriticTail(s.criticSteps, summaryMode)
  {
  }

  /** A freshly constructed step renders exactly as the base class does. */
  lemma FreshStepRendersBase(fields: ActionFields, summaryMode: bool, show: Show)
    ensures PatchedMessages(NewActionStep(fields), summaryMode, show) == ActionMessages(fields, summaryMode, false, show)
  {
  }

  /** Through the patched method the output does not depend on the model
      input messages ... */
  lemma PatchedIgnoresInput(s: ActionStep, summaryMode: bool, show: Show, inputs: Option<seq<Message>>)
    ensures PatchedMessages(s, summaryMode, show)
         == PatchedMessages(s.(fields := s.fields.(modelInputMessages := inputs)), summaryMode, show)
  {
    var a := s.fields;
    var b := a.(modelInputMessages := inputs);
    HiddenInputModelTurn(a, summaryMode, show, inputs);
    if ObservationRenderable(a) {
      ToolTurnReads(ModelTurn(a, summaryMode, false, show), a, b, show);
    }
  }

  lemma HiddenInputModelTurn(a: ActionFields, summaryMode: bool, show: Show, inputs: Option<seq<Message>>)
    ensures ModelTurn(a, summaryMode, false, show) == ModelTurn(a.(modelInputMessages := inputs), summaryMode, false, show)
  {
    var b := a.(modelInputMessages := inputs);
    assert Stage([], InputEcho, a, summaryMode, false, show) == Stage([], InputEcho, b, summaryMode, false, show);
  }

  /** ... and no message of it is the input echo. */
  lemma PatchedNeverEchoes(s: ActionStep, summaryMode: bool, show: Show)
    ensures var r := PatchedMessages(s, summaryMode, show);
      r.Ok? ==> forall i :: 0 <= i < |r.messages| ==> !r.messages[i].content.Echo?
  {
    if ObservationRenderable(s.fields) {
      EchoOnlyWhenShown(s.fields, summaryMode, show);
      PatchedExtendsBase(s, summaryMode, show);
      CriticTailIsAssistantText(s.criticSteps, summaryMode);
    }
  }

  /** What installing the patch a second time would give: the first wrapper
      becomes the "original", and the critic messages are appended again. */
  function PatchedTwice(s: ActionStep, summaryMode: bool, show: Show): Rendered {
    match PatchedMessages(s, summaryMode, show)
    case Raised(e) => Raised(e)
    case Ok(once) => Ok(once + CriticTail(s.criticSteps, summaryMode))
  }

  /** The patch is not idempotent: a second installation repeats the critic
      messages, so the result differs as soon as there are any. */
  lemma PatchNotIdempotent(s: ActionStep, summaryMode: bool, show: Show)
    requires ObservationRenderable(s.fields)
    ensures var tail := CriticTail(s.criticSteps, summaryMode);
      PatchedTwice(s, summaryMode, show).messages == PatchedMessages(s, summaryMode, show).messages + tail
    ensures CriticTail(s.criticSteps, summaryMode) != [] ==>
      PatchedTwice(s, summaryMode, show) != PatchedMessages(s, summaryMode, show)
  {
    var once := PatchedMessages(s, summaryMode, show).messages;
    var tail := CriticTail(s.criticSteps, summaryMode);
    if tail != [] {
      assert |once + tail| > |once|;
    }
  }

  /** A step rendered as the agent renders it; only an action step can
      raise. */
  function StepMessages(step: Step, summaryMode: bool, show: Show): (r: Rendered)
    ensures r.Raised? ==> step.Action? && !ObservationRenderable(step.actionStep.fields)
    ensures step.Critic? ==> r == Ok(CriticMessages(step.criticStep, summaryMode))
  {
    match step
    case SystemPrompt(p) => Ok(SystemPromptMessages(p, summaryMode))
    case Task(t) => Ok(TaskMessages(t))
    case Planning(p) => Ok(PlanningMessages(p, summaryMode))
    case Action(a) => PatchedMessages(a, summaryMode, show)
    case Critic(c) => Ok(CriticMessages(c, summaryMode))
  }
}
