/**
 * `AgentMemory`: the system prompt of a run, fixed at construction, and
 * the list of steps recorded since the last reset, with their records and
 * a replay of them as a sequence of log events.
 */
module Memory {
  import opened Wrappers
  import opened Messages
  import opened Steps
  import opened Lists

  /** The title of a horizontal rule in the replay. */
  datatype RuleTitle =
    | StepRule(stepNumber: Option<int>)  // "Step <number>", "Step None" when unset
    | PlanningRule                       // "Planning step"

  /** One call on the logger during a replay. */
  datatype Event =
    | ConsoleLog(text: string)
    | Markdown(title: string, content: Option<string>)
    | TaskBanner(task: string, subtitle: string, level: int)
    | Rule(rule: RuleTitle)
    | MessageDump(messages: Option<seq<Message>>)

  const ReplayHeader: string := "Replaying the agent's steps:"
  const SystemPromptTitle: string := "System prompt"
  const OutputTitle: string := "Agent output:"

  /** The group of an action or planning step: its rule, the dump of the
      model input in detailed mode only, then the model output. */
  function Bracketed(rule: Event, dump: Event, output: Event, detailed: bool): seq<Event> {
    [rule] + (if detailed then [dump] else []) + [output]
  }

  /** The events one step contributes to a replay. A system prompt shows
      only in detailed mode; a critic step shows nothing. */
  function StepEvents(step: Step, detailed: bool): seq<Event> {
    match step
    case SystemPrompt(s) =>
      if detailed then [Markdown(SystemPromptTitle, Some(s.systemPrompt))] else []
    case Task(t) => [TaskBanner(t.task, "", 2)]
    case Action(a) =>
      Bracketed(Rule(StepRule(a.fields.stepNumber)), MessageDump(a.fields.modelInputMessages),
                Markdown(OutputTitle, a.fields.modelOutput), detailed)
    case Planning(p) =>
      Bracketed(Rule(PlanningRule), MessageDump(Some(p.modelInputMessages)),
                Markdown(OutputTitle, Some(p.facts + "\n" + p.plan)), detailed)
    case Critic(_) => []
  }

  /** One group of events per step, in step order. */
  function StepGroups(steps: seq<Step>, detailed: bool): (r: seq<seq<Event>>)
    ensures |r| == |steps| && forall i :: 0 <= i < |steps| ==> r[i] == StepEvents(steps[i], detailed)
  {
    seq(|steps|, i requires 0 <= i < |steps| => StepEvents(steps[i], detailed))
  }

  /** The events of the steps, each step's group in turn. */
  function ReplayEvents(steps: seq<Step>, detailed: bool): seq<Event> {
    Concat(StepGroups(steps, detailed))
  }

  /** `{key: value for key, value in record.items() if key != "model_input_messages"}` */
  function Succinct(record: Record): (r: Record)
    ensures r.Keys == record.Keys - {InputMessagesKey}
    ensures forall key :: key in r ==> r[key] == record[key]
  {
    map key | key in record && key != InputMessagesKey :: record[key]
  }

  class AgentMemory {
    var systemPrompt: SystemPromptStep
    var steps: seq<Step>

    constructor(systemPrompt: string)
      ensures this.systemPrompt == SystemPromptStep(systemPrompt)
      ensures steps == []
    {
      this.systemPrompt := SystemPromptStep(systemPrompt);
      steps := [];
    }

    /** Forgets every step; the system prompt is kept. */
    method Reset()
      modifies this
      ensures steps == [] && systemPrompt == old(systemPrompt)
      ensures FullSteps() == [] && SuccinctSteps() == []
    {
      steps := [];
    }

    /** `get_full_steps()`: one record per step, in step order. */
    function FullSteps(): (r: seq<Record>)
      reads this
      ensures |r| == |steps|
      ensures forall i :: 0 <= i < |steps| ==> r[i] == StepRecord(steps[i])
    {
      seq(|steps|, i reads this requires 0 <= i < |steps| => StepRecord(steps[i]))
    }

    /** `get_succinct_steps()`: the same records without the model input. */
    function SuccinctSteps(): (r: seq<Record>)
      reads this
      ensures |r| == |steps|
      ensures forall i :: 0 <= i < |steps| ==> r[i] == Succinct(StepRecord(steps[i]))
    {
      seq(|steps|, i reads this requires 0 <= i < |steps| => Succinct(StepRecord(steps[i])))
    }

    /** `replay(logger, detailed)`: the header line, then each step's events. */
    method Replay(detailed: bool) returns (events: seq<Event>)
      ensures events == [ConsoleLog(ReplayHeader)] + ReplayEvents(steps, detailed)
    {
      events := [ConsoleLog(ReplayHeader)];
      for i := 0 to |steps|
        invariant events == [ConsoleLog(ReplayHeader)] + ReplayEvents(steps[..i], detailed)
      {
        var group := LogStep(steps[i], detailed);
        ReplaySnoc(steps, i, detailed);
        AppendAssoc([ConsoleLog(ReplayHeader)], ReplayEvents(steps[..i], detailed), group);
        events := events + group;
      }
      assert steps[..|steps|] == steps;
    }
  }

  /** The body of the replay loop: the logger calls for one step. */
  method LogStep(step: Step, detailed: bool) returns (events: seq<Event>)
    ensures events == StepEvents(step, detailed)
  {
    events := [];
    if step.SystemPrompt? && detailed {
      events := events + [Markdown(SystemPromptTitle, Some(step.systemPromptStep.systemPrompt))];
    } else if step.Task? {
      events := events + [TaskBanner(step.taskStep.task, "", 2)];
    } else if step.Action? {
      var a := step.actionStep.fields;
      events := events + [Rule(StepRule(a.stepNumber))];
      if detailed {
        events := events + [MessageDump(a.modelInputMessages)];
      }
      events := events + [Markdown(OutputTitle, a.modelOutput)];
    } else if step.Planning? {
      var p := step.planningStep;
      events := events + [Rule(PlanningRule)];
      if detailed {
        events := events + [MessageDump(Some(p.modelInputMessages))];
      }
      events := events + [Markdown(OutputTitle, Some(p.facts + "\n" + p.plan))];
    }
  }

  /** One more step adds its own events at the end. */
  lemma ReplaySnoc(steps: seq<Step>, i: nat, detailed: bool)
    requires i < |steps|
    ensures ReplayEvents(steps[..i + 1], detailed) == ReplayEvents(steps[..i], detailed) + StepEvents(steps[i], detailed)
  {
    var groups := StepGroups(steps[..i + 1], detailed);
    assert groups[..i] == StepGroups(steps[..i], detailed);
  }

  /** The replay of a concatenation is the replay of each part in turn. */
  lemma ReplayAppend(xs: seq<Step>, ys: seq<Step>, detailed: bool)
    ensures ReplayEvents(xs + ys, detailed) == ReplayEvents(xs, detailed) + ReplayEvents(ys, detailed)
  {
    assert StepGroups(xs + ys, detailed) == StepGroups(xs, detailed) + StepGroups(ys, detailed);
    ConcatAppend(StepGroups(xs, detailed), StepGroups(ys, detailed));
  }

  /** A rule is logged for each action and planning step and nothing else. */
  function RuleCount(events: seq<Event>): nat {
    if events == [] then 0
    else RuleCount(events[..|events| - 1]) + if events[|events| - 1].Rule? then 1 else 0
  }

  function RuledSteps(steps: seq<Step>): nat {
    if steps == [] then 0
    else RuledSteps(steps[..|steps| - 1]) + if steps[|steps| - 1].Action? || steps[|steps| - 1].Planning? then 1 else 0
  }

  lemma {:induction false} RuleCountAppend(xs: seq<Event>, ys: seq<Event>)
    ensures RuleCount(xs + ys) == RuleCount(xs) + RuleCount(ys)
    decreases |ys|
  {
    if ys == [] {
      assert xs + ys == xs;
    } else {
      var n := |ys| - 1;
      var zs := xs + ys;
      assert zs[..|zs| - 1] == xs + ys[..n];
      assert zs[|zs| - 1] == ys[n];
      RuleCountAppend(xs, ys[..n]);
    }
  }

  /** The replay of a non-empty list ends with its last step's group. */
  lemma ReplayLast(steps: seq<Step>, detailed: bool)
    requires steps != []
    ensures ReplayEvents(steps, detailed)
         == ReplayEvents(steps[..|steps| - 1], detailed) + StepEvents(steps[|steps| - 1], detailed)
  {
    var n := |steps| - 1;
    ReplaySnoc(steps, n, detailed);
    assert steps[..n + 1] == steps;
  }

  lemma StepRuleCount(step: Step, detailed: bool)
    ensures RuleCount(StepEvents(step, detailed)) == if step.Action? || step.Planning? then 1 else 0
  {
    match step
    case Action(a) =>
      BracketedRuleCount(Rule(StepRule(a.fields.stepNumber)), MessageDump(a.fields.modelInputMessages),
                         Markdown(OutputTitle, a.fields.modelOutput), detailed);
    case Planning(p) =>
      BracketedRuleCount(Rule(PlanningRule), MessageDump(Some(p.modelInputMessages)),
                         Markdown(OutputTitle, Some(p.facts + "\n" + p.plan)), detailed);
    case SystemPrompt(_) =>
      assert RuleCount([]) == 0;
    case _ =>
  }

  lemma BracketedRuleCount(rule: Event, dump: Event, output: Event, detailed: bool)
    requires rule.Rule? && !dump.Rule? && !output.Rule?
    ensures RuleCount(Bracketed(rule, dump, output, detailed)) == 1
  {
    var group := Bracketed(rule, dump, output, detailed);
    var prefix := [rule] + (if detailed then [dump] else []);
    assert group[..|group| - 1] == prefix;
    assert RuleCount(group) == RuleCount(prefix);
    assert [rule][..0] == [];
    assert RuleCount([rule]) == 1;
    if detailed {
      assert prefix[..1] == [rule];
    }
  }

  /** The replay logs exactly one rule per action or planning step. */
  lemma {:induction false} ReplayRuleCount(steps: seq<Step>, detailed: bool)
    ensures RuleCount(ReplayEvents(steps, detailed)) == RuledSteps(steps)
  {
    if steps != [] {
      var n := |steps| - 1;
      ReplayRuleCount(steps[..n], detailed);
      ReplayLast(steps, detailed);
      RuleCountAppend(ReplayEvents(steps[..n], detailed), StepEvents(steps[n], detailed));
      StepRuleCount(steps[n], detailed);
    }
  }

  /** The events that only a detailed replay logs: message dumps and the
      system prompt. */
  predicate Detailing(e: Event) {
    e.MessageDump? || (e.Markdown? && e.title == SystemPromptTitle)
  }

  /** Outside detailed mode no message dump and no system prompt is logged. */
  lemma {:induction false} BriefReplayHasNoDetail(steps: seq<Step>)
    ensures forall i :: 0 <= i < |ReplayEvents(steps, false)| ==> !Detailing(ReplayEvents(steps, false)[i])
  {
    if steps != [] {
      var n := |steps| - 1;
      BriefReplayHasNoDetail(steps[..n]);
      ReplayLast(steps, false);
      var init, last := ReplayEvents(steps[..n], false), StepEvents(steps[n], false);
      var r := ReplayEvents(steps, false);
      forall i | 0 <= i < |r|
        ensures !Detailing(r[i])
      {
        if i < |init| {
          assert r[i] == init[i];
        } else {
          assert r[i] == last[i - |init|];
        }
      }
    }
  }

  /** The events without the detail ones. */
  function WithoutDetail(events: seq<Event>): seq<Event> {
    if events == [] then []
    else
      var n := |events| - 1;
      WithoutDetail(events[..n]) + if Detailing(events[n]) then [] else [events[n]]
  }

  lemma {:induction false} WithoutDetailAppend(xs: seq<Event>, ys: seq<Event>)
    ensures WithoutDetail(xs + ys) == WithoutDetail(xs) + WithoutDetail(ys)
    decreases |ys|
  {
    if ys == [] {
      assert xs + ys == xs;
    } else {
      var n := |ys| - 1;
      var zs := xs + ys;
      assert zs[..|zs| - 1] == xs + ys[..n];
      assert zs[|zs| - 1] == ys[n];
      WithoutDetailAppend(xs, ys[..n]);
      var before, last := WithoutDetail(ys[..n]), if Detailing(ys[n]) then [] else [ys[n]];
      assert WithoutDetail(xs) + before + last == WithoutDetail(xs) + (before + last);
    }
  }

  lemma BracketedDetailOnly(rule: Event, dump: Event, output: Event)
    requires !Detailing(rule) && Detailing(dump) && !Detailing(output)
    ensures WithoutDetail(Bracketed(rule, dump, output, true)) == Bracketed(rule, dump, output, false)
  {
    var full := Bracketed(rule, dump, output, true);
    assert full[..2] == [rule, dump];
    assert [rule, dump][..1] == [rule];
    assert WithoutDetail([rule]) == [rule] by {
      assert [rule][..0] == [];
    }
  }

  lemma StepDetailOnly(step: Step)
    ensures WithoutDetail(StepEvents(step, true)) == StepEvents(step, false)
  {
    match step
    case Action(a) =>
      BracketedDetailOnly(Rule(StepRule(a.fields.stepNumber)), MessageDump(a.fields.modelInputMessages),
                          Markdown(OutputTitle, a.fields.modelOutput));
    case Planning(p) =>
      BracketedDetailOnly(Rule(PlanningRule), MessageDump(Some(p.modelInputMessages)),
                          Markdown(OutputTitle, Some(p.facts + "\n" + p.plan)));
    case SystemPrompt(s) =>
      var shown := [Markdown(SystemPromptTitle, Some(s.systemPrompt))];
      assert shown[..0] == [];
    case Task(t) =>
      var banner := [TaskBanner(t.task, "", 2)];
      assert banner[..0] == [];
    case Critic(_) =>
  }

  /** The detailed replay is the brief one with the detail events added:
      removing them gives the brief replay back. */
  lemma {:induction false} DetailedReplayAddsOnlyDetail(steps: seq<Step>)
    ensures WithoutDetail(ReplayEvents(steps, true)) == ReplayEvents(steps, false)
  {
    if steps != [] {
      var n := |steps| - 1;
      DetailedReplayAddsOnlyDetail(steps[..n]);
      ReplayLast(steps, true);
      ReplayLast(steps, false);
      WithoutDetailAppend(ReplayEvents(steps[..n], true), StepEvents(steps[n], true));
      StepDetailOnly(steps[n]);
    }
  }

  /** Each succinct record is the full record with the model input removed
      and nothing else changed. */
  lemma SuccinctDropsOnlyInput(m: AgentMemory, i: int, key: string)
    requires 0 <= i < |m.steps|
    ensures InputMessagesKey !in m.SuccinctSteps()[i]
    ensures key != InputMessagesKey ==>
      (key in m.SuccinctSteps()[i] <==> key in m.FullSteps()[i])
    ensures key != InputMessagesKey && key in m.FullSteps()[i] ==>
      m.SuccinctSteps()[i][key] == m.FullSteps()[i][key]
  {
  }
}
