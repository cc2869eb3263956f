/** The workflow graph the agent compiles: decide → (retrieve → grade →
    {answer | rewrite → decide} | end), run on a message list that each step
    updates by the graph's update rule, and bounded by the graph's recursion
    limit. The graph is stated over its steps, so what it does follows from
    a few properties of them. */
module AgentGraph {
  import opened Wrappers
  import opened AgentDtos
  import opened AgentNodes

  /** How a step's returned messages combine with the state's: the state's
      list declares no reducer, so it is overwritten; an appending reducer is
      the alternative the design evidently expects. */
  datatype UpdateRule = Overwrite | Append

  function Update(rule: UpdateRule, msgs: seq<Message>, returned: seq<Message>): (r: seq<Message>)
    ensures rule.Overwrite? ==> r == returned
    ensures rule.Append? ==> |r| == |msgs| + |returned| && r[..|msgs|] == msgs && r[|msgs|..] == returned
  {
    match rule
    case Overwrite => returned
    case Append => msgs + returned
  }

  datatype Node = DecideNode | RetrieveNode | RewriteNode | AnswerNode

  /** The number of steps the graph may take before it gives up. */
  const RecursionLimit: nat := 25
  const RecursionLimitError: string :=
    "Recursion limit of 25 reached "
    + "without hitting a stop condition. "
    + "You can increase the limit by "
    + "setting the `recursion_limit` "
    + "config key."

  function ToolCallsOf(m: Message): seq<ToolCall> {
    if m.AIMessage? then m.toolCalls else []
  }

  /** The workflow's steps as the graph calls them: the decide step, the
      tool node, the grading edge, the rewrite step and the answer step. */
  datatype Steps = Steps(
    decide: (seq<Message>, nat) -> Message,
    tools: seq<Message> -> Outcome<seq<Message>>,
    grade: (seq<Message>, nat) -> Route,
    rewrite: (seq<Message>, nat) -> Outcome<Message>,
    answer: (seq<Message>, nat) -> Message)

  /** What the graph relies on from its steps. */
  ghost predicate DecideBehaves(s: Steps) {
    forall msgs, step: nat {:trigger s.decide(msgs, step)} ::
      s.decide(msgs, step).AIMessage? && |s.decide(msgs, step).toolCalls| <= 1
  }

  ghost predicate ToolsBehave(s: Steps) {
    forall msgs: seq<Message> {:trigger s.tools(msgs)} ::
      (s.tools(msgs).Ok? <==> |msgs| > 0 && msgs[|msgs| - 1].AIMessage?)
      && (s.tools(msgs).Ok? ==> |s.tools(msgs).value| == |msgs[|msgs| - 1].toolCalls|)
  }

  ghost predicate GradeBehaves(s: Steps) {
    forall msgs, step: nat {:trigger s.grade(msgs, step)} :: |msgs| < 3 ==> s.grade(msgs, step) == RewriteQuestion
  }

  ghost predicate RewriteBehaves(s: Steps) {
    forall msgs, step: nat {:trigger s.rewrite(msgs, step)} :: s.rewrite(msgs, step).Ok? <==> |msgs| > 0
  }

  ghost predicate AnswerBehaves(s: Steps) {
    forall msgs, step: nat {:trigger s.answer(msgs, step)} :: s.answer(msgs, step).AIMessage?
  }

  ghost predicate StepsBehave(s: Steps) {
    DecideBehaves(s) && ToolsBehave(s) && GradeBehaves(s) && RewriteBehaves(s) && AnswerBehaves(s)
  }

  /** A simple set of steps that behaves: the decide step never asks for a
      tool, the tool node answers one human message per call, grading always
      sends the question to be rewritten, rewriting repeats the first
      message. */
  function QuietSteps(): Steps {
    Steps((msgs: seq<Message>, step: nat) => AIMessage("", []),
          (msgs: seq<Message>) =>
            if |msgs| > 0 && msgs[|msgs| - 1].AIMessage?
            then Ok(seq(|msgs[|msgs| - 1].toolCalls|, i => HumanMessage("")))
            else Raised(""),
          (msgs: seq<Message>, step: nat) => RewriteQuestion,
          (msgs: seq<Message>, step: nat) => if |msgs| > 0 then Ok(msgs[0]) else Raised(""),
          (msgs: seq<Message>, step: nat) => AIMessage("", []))
  }

  /** Steps the graph can rely on. */
  type BehavedSteps = s: Steps | StepsBehave(s) ghost witness QuietSteps()

  /** What one step of the graph leads to: the run's end, or the next node
      and the state it sees. */
  datatype Transition = Done(outcome: Outcome<(Node, Message)>) | Next(node: Node, msgs: seq<Message>)

  /** One step of the graph: the node runs on the state, its messages are
      combined with the state by the update rule, and the edges pick the next
      node: the tool condition after deciding, the grade after retrieving,
      back to deciding after a rewrite, and the end after answering. */
  function Step(s: Steps, rule: UpdateRule, node: Node, msgs: seq<Message>, step: nat): Transition {
    match node
    case DecideNode =>
      var m := s.decide(msgs, step);
      var next := Update(rule, msgs, [m]);
      if |ToolCallsOf(next[|next| - 1])| > 0 then Next(RetrieveNode, next) else Done(Ok((DecideNode, m)))
    case RetrieveNode =>
      (match s.tools(msgs)
       case Raised(e) => Done(Raised(e))
       case Ok(results) =>
         var next := Update(rule, msgs, results);
         match s.grade(next, step)
         case GenerateAnswer => Next(AnswerNode, next)
         case RewriteQuestion => Next(RewriteNode, next))
    case RewriteNode =>
      (match s.rewrite(msgs, step)
       case Raised(e) => Done(Raised(e))
       case Ok(m) => Next(DecideNode, Update(rule, msgs, [m])))
    case AnswerNode =>
      Done(Ok((AnswerNode, s.answer(msgs, step))))
  }

  /** Runs the graph from a node: the result is the node that produced the
      final message and that message, or the error that stopped the run.
      `fuel` is the number of steps still allowed; `step` numbers the steps
      so the model may answer differently each time. */
  function Run(s: Steps, rule: UpdateRule, node: Node, msgs: seq<Message>, step: nat, fuel: nat): Outcome<(Node, Message)>
    decreases fuel
  {
    if fuel == 0 then Raised(RecursionLimitError)
    else
      match Step(s, rule, node, msgs, step)
      case Done(outcome) => outcome
      case Next(n, next) => Run(s, rule, n, next, step + 1, fuel - 1)
  }

  // ---------------------------------------------------------------------
  // The overwrite rule
  // ---------------------------------------------------------------------

  /** A run that, if it ends normally, ends with a decide step's message
      that asks for no tool. */
  predicate EndsAtDecide(r: Outcome<(Node, Message)>) {
    r.Ok? ==> r.value.0 == DecideNode && ToolCallsOf(r.value.1) == []
  }

  /** Under the overwrite rule the answer step is never reached: after a
      retrieval the state holds just the tool results, fewer than the three
      messages grading needs, so every retrieval is followed by a rewrite,
      and a run that ends normally ends with the decide step's message. */
  lemma {:induction false} OverwriteNeverAnswers(s: BehavedSteps, msgs: seq<Message>, step: nat, fuel: nat)
    ensures EndsAtDecide(Run(s, Overwrite, DecideNode, msgs, step, fuel))
    decreases fuel, 2
  {
    if fuel > 0 {
      var m := s.decide(msgs, step);
      if |ToolCallsOf(m)| > 0 {
        assert Step(s, Overwrite, DecideNode, msgs, step) == Next(RetrieveNode, [m]);
        RetrieveNeverAnswers(s, m, step + 1, fuel - 1);
      } else {
        assert Step(s, Overwrite, DecideNode, msgs, step) == Done(Ok((DecideNode, m)));
      }
    }
  }

  lemma {:induction false} RetrieveNeverAnswers(s: BehavedSteps, m: Message, step: nat, fuel: nat)
    requires |ToolCallsOf(m)| <= 1
    ensures EndsAtDecide(Run(s, Overwrite, RetrieveNode, [m], step, fuel))
    decreases fuel, 1
  {
    if fuel > 0 {
      var results := s.tools([m]);
      if results.Ok? {
        assert [m][|[m]| - 1] == m;
        assert |results.value| <= 1;
        assert s.grade(results.value, step) == RewriteQuestion;
        assert Step(s, Overwrite, RetrieveNode, [m], step) == Next(RewriteNode, results.value);
        RewriteNeverAnswers(s, results.value, step + 1, fuel - 1);
      } else {
        assert Step(s, Overwrite, RetrieveNode, [m], step) == Done(Raised(results.error));
      }
    }
  }

  lemma {:induction false} RewriteNeverAnswers(s: BehavedSteps, msgs: seq<Message>, step: nat, fuel: nat)
    ensures EndsAtDecide(Run(s, Overwrite, RewriteNode, msgs, step, fuel))
    decreases fuel, 0
  {
    if fuel > 0 {
      var r := s.rewrite(msgs, step);
      if r.Ok? {
        assert Step(s, Overwrite, RewriteNode, msgs, step) == Next(DecideNode, [r.value]);
        OverwriteNeverAnswers(s, [r.value], step + 1, fuel - 1);
      } else {
        assert Step(s, Overwrite, RewriteNode, msgs, step) == Done(Raised(r.error));
      }
    }
  }

  /** The decide step asks for a tool whatever it is shown. */
  ghost predicate AlwaysCallsTool(s: Steps) {
    forall msgs, step: nat :: |ToolCallsOf(s.decide(msgs, step))| > 0
  }

  /** Under the overwrite rule, a decide step that always asks for a tool
      keeps the graph looping through decide, retrieve and rewrite until the
      recursion limit stops it. */
  lemma {:induction false} OverwriteLoopsToLimit(s: BehavedSteps, msgs: seq<Message>, step: nat, fuel: nat)
    requires AlwaysCallsTool(s)
    ensures Run(s, Overwrite, DecideNode, msgs, step, fuel) == Raised(RecursionLimitError)
    decreases fuel, 2
  {
    if fuel > 0 {
      var m := s.decide(msgs, step);
      assert Step(s, Overwrite, DecideNode, msgs, step) == Next(RetrieveNode, [m]);
      RetrieveLoopsToLimit(s, m, step + 1, fuel - 1);
    }
  }

  lemma {:induction false} RetrieveLoopsToLimit(s: BehavedSteps, m: Message, step: nat, fuel: nat)
    requires AlwaysCallsTool(s)
    requires |ToolCallsOf(m)| == 1
    ensures Run(s, Overwrite, RetrieveNode, [m], step, fuel) == Raised(RecursionLimitError)
    decreases fuel, 1
  {
    if fuel > 0 {
      assert [m][|[m]| - 1] == m;
      var results := s.tools([m]);
      assert results.Ok? && |results.value| == 1;
      assert s.grade(results.value, step) == RewriteQuestion;
      assert Step(s, Overwrite, RetrieveNode, [m], step) == Next(RewriteNode, results.value);
      RewriteLoopsToLimit(s, results.value, step + 1, fuel - 1);
    }
  }

  lemma {:induction false} RewriteLoopsToLimit(s: BehavedSteps, msgs: seq<Message>, step: nat, fuel: nat)
    requires AlwaysCallsTool(s)
    requires |msgs| > 0
    ensures Run(s, Overwrite, RewriteNode, msgs, step, fuel) == Raised(RecursionLimitError)
    decreases fuel, 0
  {
    if fuel > 0 {
      var r := s.rewrite(msgs, step);
      assert Step(s, Overwrite, RewriteNode, msgs, step) == Next(DecideNode, [r.value]);
      OverwriteLoopsToLimit(s, [r.value], step + 1, fuel - 1);
    }
  }

  // ---------------------------------------------------------------------
  // The appending rule
  // ---------------------------------------------------------------------

  /** Under the appending rule, a decide step that asks for a tool leads to
      grading on the whole list grown by the decide step's message and the
      tool results: a relevant grade gives the answer step that list (so it
      sees the first message as the question and the last tool result as
      context), and an irrelevant one sends it to the rewrite step. */
  lemma AppendGradesWholeList(s: BehavedSteps, msgs: seq<Message>, step: nat, fuel: nat)
    requires fuel >= 3
    requires |ToolCallsOf(s.decide(msgs, step))| > 0
    ensures var withCall := msgs + [s.decide(msgs, step)];
      s.tools(withCall).Ok?
      && var after := withCall + s.tools(withCall).value;
      |after| == |msgs| + 1 + |ToolCallsOf(s.decide(msgs, step))| && after[..|msgs|] == msgs
      && (s.grade(after, step + 1) == GenerateAnswer ==>
            Run(s, Append, DecideNode, msgs, step, fuel) == Ok((AnswerNode, s.answer(after, step + 2))))
      && (s.grade(after, step + 1) == RewriteQuestion ==>
            Run(s, Append, DecideNode, msgs, step, fuel) == Run(s, Append, RewriteNode, after, step + 2, fuel - 2))
  {
    var m := s.decide(msgs, step);
    var withCall := msgs + [m];
    assert withCall[|withCall| - 1] == m;
    assert Step(s, Append, DecideNode, msgs, step) == Next(RetrieveNode, withCall);
    var after := withCall + s.tools(withCall).value;
    assert after[..|msgs|] == msgs;
    if s.grade(after, step + 1) == GenerateAnswer {
      assert Step(s, Append, RetrieveNode, withCall, step + 1) == Next(AnswerNode, after);
      assert Step(s, Append, AnswerNode, after, step + 2) == Done(Ok((AnswerNode, s.answer(after, step + 2))));
      assert Run(s, Append, AnswerNode, after, step + 2, fuel - 2) == Ok((AnswerNode, s.answer(after, step + 2)));
    } else {
      assert Step(s, Append, RetrieveNode, withCall, step + 1) == Next(RewriteNode, after);
    }
  }

  // ---------------------------------------------------------------------
  // Either rule
  // ---------------------------------------------------------------------

  predicate EndsWithModelMessage(r: Outcome<(Node, Message)>) {
    r.Ok? ==> r.value.1.AIMessage?
  }

  /** Every run that ends normally ends with a model message: only the
      decide and answer steps end a run, and both answer with one. */
  lemma {:induction false} FinalMessageIsModelMessage(s: BehavedSteps, rule: UpdateRule, node: Node, msgs: seq<Message>, step: nat, fuel: nat)
    ensures EndsWithModelMessage(Run(s, rule, node, msgs, step, fuel))
    decreases fuel
  {
    if fuel > 0 {
      var t := Step(s, rule, node, msgs, step);
      StepEndsWithModelMessage(s, rule, node, msgs, step);
      if t.Next? {
        FinalMessageIsModelMessage(s, rule, t.node, t.msgs, step + 1, fuel - 1);
      }
    }
  }

  /** A step that ends the run ends it with a model message. */
  lemma StepEndsWithModelMessage(s: BehavedSteps, rule: UpdateRule, node: Node, msgs: seq<Message>, step: nat)
    ensures var t := Step(s, rule, node, msgs, step); t.Done? ==> EndsWithModelMessage(t.outcome)
  {
  }
}
