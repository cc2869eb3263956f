/** The agent's workflow over its ports, and process_message, which seeds
    a run of the graph from the chat history and turns its outcome into an
    AgentResponse. */
module AgentWorkflow {
  import opened Wrappers
  import opened Strings
  import opened Json
  import opened Documents
  import opened AgentDtos
  import opened AgentPorts
  import opened RetrievalTool
  import opened AnswerMetadata
  import opened AgentNodes
  import opened AgentExtractor
  import opened AgentGraph

  const NoToolCallsError: string := "No AIMessage found in input"

  /** The tool node's result for one call: the retrieval tool's text for a
      well-formed retrieval call, the tool node's error message otherwise. */
  function ToolResult(ports: Ports, call: ToolCall): (m: Message)
    ensures m.ToolMessage? && m.toolCallId == call.id
  {
    if call.name == RetrieveToolName && "query" in call.args && call.args["query"].Str? then
      ToolMessage(RetrievalText(ports, call.args["query"].s), RetrieveToolName, call.id)
    else
      ToolMessage(ports.toolNodeError(call), call.name, call.id)
  }

  /** The retrieve node: one tool message per call of the last model message. */
  function RunTools(ports: Ports, msgs: seq<Message>): (r: Outcome<seq<Message>>)
    ensures r.Ok? ==> |msgs| > 0 && |r.value| == |ToolCallsOf(msgs[|msgs| - 1])|
  {
    if |msgs| == 0 || !msgs[|msgs| - 1].AIMessage? then Raised(NoToolCallsError)
    else
      var calls := msgs[|msgs| - 1].toolCalls;
      Ok(seq(|calls|, i requires 0 <= i < |calls| => ToolResult(ports, calls[i])))
  }

  /** The agent's own steps, over its ports. */
  function AgentSteps(ports: Ports): Steps {
    Steps((msgs: seq<Message>, step: nat) => Decide(ports, msgs, step),
          (msgs: seq<Message>) => RunTools(ports, msgs),
          (msgs: seq<Message>, step: nat) => Grade(ports, msgs, step),
          (msgs: seq<Message>, step: nat) => Rewrite(ports, msgs, step),
          (msgs: seq<Message>, step: nat) => Answer(ports, msgs, step))
  }

  /** The agent's decide step answers with a model message carrying at most
      one tool call. */
  lemma AgentDecideBehaves(ports: Ports)
    ensures DecideBehaves(AgentSteps(ports))
  {
  }

  /** The agent's tool node runs exactly when the last message is a model
      message, and gives one result per call. */
  lemma AgentToolsBehave(ports: Ports)
    ensures ToolsBehave(AgentSteps(ports))
  {
  }

  /** Grading needs three messages; rewriting fails only on an empty list;
      answering gives a model message. */
  lemma AgentOtherStepsBehave(ports: Ports)
    ensures GradeBehaves(AgentSteps(ports)) && RewriteBehaves(AgentSteps(ports)) && AnswerBehaves(AgentSteps(ports))
  {
  }

  lemma AgentStepsBehave(ports: Ports)
    ensures StepsBehave(AgentSteps(ports))
  {
    AgentDecideBehaves(ports);
    AgentToolsBehave(ports);
    AgentOtherStepsBehave(ports);
  }

  /** The model asks for a retrieval whatever it is shown: its reply flags a
      call and holds a well-formed one first. */
  ghost predicate ModelAlwaysCalls(ports: Ports) {
    forall prompt: string, step: nat ::
      |DecideReply(ports.generateWithTools(prompt, Arr([Prompts.RetrieverToolDefinition()]), step), ports.hashToolCall).toolCalls| == 1
  }

  /** With such a model the agent's decide step always asks for a tool. */
  lemma ModelAlwaysCallsTool(ports: Ports)
    requires ModelAlwaysCalls(ports)
    ensures AlwaysCallsTool(AgentSteps(ports))
  {
  }

  /** The agent's tool node on a model message with one call runs that call. */
  lemma RunToolsSingle(ports: Ports, msgs: seq<Message>)
    requires |msgs| > 0 && msgs[|msgs| - 1].AIMessage? && |msgs[|msgs| - 1].toolCalls| == 1
    ensures RunTools(ports, msgs) == Ok([ToolResult(ports, msgs[|msgs| - 1].toolCalls[0])])
  {
    var calls := msgs[|msgs| - 1].toolCalls;
    var r := seq(|calls|, i requires 0 <= i < |calls| => ToolResult(ports, calls[i]));
    assert |r| == 1 && r[0] == ToolResult(ports, calls[0]);
    assert r == [ToolResult(ports, calls[0])];
  }

  // ---------------------------------------------------------------------
  // process_message
  // ---------------------------------------------------------------------

  const ProcessApology: string :=
    "I apologize, but I encountered "
    + "an error while processing your "
    + "message."

  /** The workflow messages seeded from a window of the history: user and
      assistant turns, in order; other roles are dropped. */
  function Seeded(window: seq<ChatMessage>): (r: seq<Message>)
    ensures |r| <= |window|
  {
    if |window| == 0 then []
    else
      var rest := Seeded(window[..|window| - 1]);
      var h := window[|window| - 1];
      if h.role == "user" then rest + [HumanMessage(h.content)]
      else if h.role == "assistant" then rest + [AIMessage(h.content, [])]
      else rest
  }

  /** The initial message list: the seeded last five history entries, then
      the new message. */
  function SeedMessages(history: seq<ChatMessage>, message: string): seq<Message> {
    Seeded(PySliceFrom(history, -5)) + [HumanMessage(message)]
  }

  predicate ChatRole(h: ChatMessage) {
    h.role == "user" || h.role == "assistant"
  }

  function AsMessage(h: ChatMessage): Message {
    if h.role == "user" then HumanMessage(h.content) else AIMessage(h.content, [])
  }

  /** At most six messages start a run, the new one last; when every entry
      of the last five is a user or assistant turn, each becomes one message,
      in order. */
  lemma SeedMessagesShape(history: seq<ChatMessage>, message: string)
    ensures var s := SeedMessages(history, message);
      var window := PySliceFrom(history, -5);
      |s| <= 6 && s[|s| - 1] == HumanMessage(message)
      && window == history[|history| - |window|..] && |window| == (if |history| < 5 then |history| else 5)
      && ((forall k :: 0 <= k < |window| ==> ChatRole(window[k])) ==>
            s[..|s| - 1] == seq(|window|, k requires 0 <= k < |window| => AsMessage(window[k])))
  {
    var window := PySliceFrom(history, -5);
    LastK(history, 5);
    if forall k :: 0 <= k < |window| ==> ChatRole(window[k]) {
      SeededChat(window);
      var s := SeedMessages(history, message);
      assert s[..|s| - 1] == Seeded(window);
    }
  }

  lemma {:induction false} SeededChat(window: seq<ChatMessage>)
    requires forall k :: 0 <= k < |window| ==> ChatRole(window[k])
    ensures Seeded(window) == seq(|window|, k requires 0 <= k < |window| => AsMessage(window[k]))
  {
    if |window| > 0 {
      var init := window[..|window| - 1];
      assert forall k :: 0 <= k < |init| ==> init[k] == window[k];
      SeededChat(init);
    }
  }

  /** One more history entry extends the seeded messages the way the loop does. */
  lemma SeededStep(window: seq<ChatMessage>, i: nat)
    requires i < |window|
    ensures Seeded(window[..i + 1]) == Seeded(window[..i])
      + (if window[i].role == "user" then [HumanMessage(window[i].content)]
         else if window[i].role == "assistant" then [AIMessage(window[i].content, [])]
         else [])
  {
    assert window[..i + 1][..i] == window[..i];
  }

  /** The loop that seeds the message list. */
  method SeedLoop(history: seq<ChatMessage>, message: string) returns (messages: seq<Message>)
    ensures messages == SeedMessages(history, message)
  {
    messages := [];
    var window := PySliceFrom(history, -5);
    var i := 0;
    while i < |window|
      invariant 0 <= i <= |window|
      invariant messages == Seeded(window[..i])
    {
      SeededStep(window, i);
      var histMsg := window[i];
      if histMsg.role == "user" {
        messages := messages + [HumanMessage(histMsg.content)];
      } else if histMsg.role == "assistant" {
        messages := messages + [AIMessage(histMsg.content, [])];
      }
      i := i + 1;
    }
    assert window[..|window|] == window;
    messages := messages + [HumanMessage(message)];
  }

  /** The outcome of the graph run process_message starts. */
  function RunFromHistory(s: Steps, rule: UpdateRule, history: seq<ChatMessage>, message: string): Outcome<(Node, Message)> {
    Run(s, rule, DecideNode, SeedMessages(history, message), 0, RecursionLimit)
  }

  /** process_message: run the graph; answer with the final step's message
      and the ids its metadata names, or with the apology and the error. The
      response never carries retrieved chunks, and pictures stay empty. */
  method ProcessMessage(ports: Ports, s: Steps, rule: UpdateRule, message: string, chatId: Option<string>,
                        history: seq<ChatMessage>)
    returns (r: AgentResponse)
    ensures r.retrievedChunks == [] && r.pictures == []
    ensures var outcome := RunFromHistory(s, rule, history, message);
      match outcome
      case Raised(e) =>
        r.content == ProcessApology && r.chunkIdsUsed == [] && r.metadata == map["error" := Str(e)]
      case Ok((_, m)) =>
        r.content == m.content && r.chunkIdsUsed == ParseChunkIds(m.content)
        && r.metadata == map["workflow_steps" := Int(1)]
  {
    var messages := SeedLoop(history, message);
    var outcome := Run(s, rule, DecideNode, messages, 0, RecursionLimit);
    if outcome.Raised? {
      return BuildAgentResponse(ProcessApology, [], [], [], chatId, map["error" := Str(outcome.error)]);
    }
    // the stream's last chunk holds the final step's update: one message
    var finalMessages := [outcome.value.1];
    var responseContent := finalMessages[|finalMessages| - 1].content;
    var chunkIdsUsed := ParseChunkIds(responseContent);
    var chunksUsed, pictures := ExtractChunksAndPictures(ports, finalMessages, [], [], chunkIdsUsed);
    r := BuildAgentResponse(responseContent, chunksUsed, chunkIdsUsed, pictures, chatId, map["workflow_steps" := Int(|finalMessages|)]);
  }

  /** With the agent's own steps, the overwriting runtime and a model that
      always asks for a retrieval, the run process_message starts ends at the
      recursion limit, so by ProcessMessage's contract the reply is the
      apology with the recursion-limit error. */
  lemma AgentRunHitsLimit(ports: Ports, history: seq<ChatMessage>, message: string)
    requires ModelAlwaysCalls(ports)
    ensures RunFromHistory(AgentSteps(ports), Overwrite, history, message) == Raised(RecursionLimitError)
  {
    AgentStepsBehave(ports);
    ModelAlwaysCallsTool(ports);
    OverwriteLoopsToLimit(AgentSteps(ports), SeedMessages(history, message), 0, RecursionLimit);
  }

  /** process_message never returns chunks from the extractor: the final
      message is a model message, so nothing is added to the empty list. */
  lemma ExtractorAddsNothing(ports: Ports, s: Steps, rule: UpdateRule, history: seq<ChatMessage>, message: string, ids: seq<string>)
    requires StepsBehave(s)
    ensures var r := RunFromHistory(s, rule, history, message);
      r.Ok? ==> Added(ports, [r.value.1], ids) == []
  {
    FinalMessageIsModelMessage(s, rule, DecideNode, SeedMessages(history, message), 0, RecursionLimit);
    var r := RunFromHistory(s, rule, history, message);
    if r.Ok? {
      NoRetrievalNothingAdded(ports, [r.value.1], ids);
    }
  }
}
