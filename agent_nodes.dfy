/** The four steps of the agentic workflow, each a function of the message
    list it is given and of the language-model port: deciding whether to
    search, grading what the search found, rewriting the question, and
    answering from the retrieved passages. Every step catches its own
    failures, except that rewriting a question that is not there fails. */
module AgentNodes {
  import opened Wrappers
  import opened Strings
  import opened Json
  import opened AgentDtos
  import opened AgentPorts
  import opened Prompts
  import opened AnswerMetadata

  const DecideApology: string :=
    "I apologize, but I encountered "
    + "an error while processing your "
    + "request."
  const AnswerApology: string :=
    "I apologize, but I couldn't "
    + "generate an answer based on "
    + "the retrieved information."
  const DefaultDirectText: string := "I'll help you with that."
  const NoAnswerText: string := "I couldn't generate an answer."

  // ---------------------------------------------------------------------
  // Deciding whether to search
  // ---------------------------------------------------------------------

  /** The decide step's rendering of the conversation: user and model turns
      become "User: ..." and "Assistant: ..." lines, tool results are skipped. */
  function HistoryLines(msgs: seq<Message>): (r: seq<string>)
    ensures |r| <= |msgs|
  {
    if |msgs| == 0 then []
    else
      var rest := HistoryLines(msgs[..|msgs| - 1]);
      match msgs[|msgs| - 1]
      case HumanMessage(c) => rest + ["User: " + c]
      case AIMessage(c, _) => rest + ["Assistant: " + c]
      case ToolMessage(_, _, _) => rest
  }

  function RoleLine(m: Message): string {
    if m.HumanMessage? then "User: " + m.content else "Assistant: " + m.content
  }

  predicate NoToolResults(msgs: seq<Message>) {
    forall k :: 0 <= k < |msgs| ==> !msgs[k].ToolMessage?
  }

  /** Without tool results, the history has one line per message, in order. */
  lemma {:induction false} HistoryLinesOfChat(msgs: seq<Message>)
    requires NoToolResults(msgs)
    ensures HistoryLines(msgs) == seq(|msgs|, k requires 0 <= k < |msgs| => RoleLine(msgs[k]))
  {
    if |msgs| > 0 {
      var init := msgs[..|msgs| - 1];
      var last := msgs[|msgs| - 1];
      assert NoToolResults(init) by {
        forall k | 0 <= k < |init| ensures !init[k].ToolMessage? { assert init[k] == msgs[k]; }
      }
      HistoryLinesOfChat(init);
      assert !last.ToolMessage?;
      assert HistoryLines(msgs) == HistoryLines(init) + [RoleLine(last)];
    }
  }

  /** The text the prompt puts after the history: the f-string holds a
      Python-style comment, which is sent to the model verbatim. */
  const ContextComment: string := "  # Last 3 messages for context"

  const DecideHead: string :=
    "You are an intelligent assistant "
    + "that can either respond directly "
    + "to users or search for information "
    + "when needed.\n\nConversation history:\n"
  const DecideMiddle: string :=
    "  # Last 3 messages for context"
    + "\n\nCurrent user message: "
  const DecideTail: string :=
    "\n\nIf the user's question requires "
    + "specific information that you "
    + "don't have or is about document "
    + "content, use the retrieve_documents "
    + "tool to search for relevant "
    + "information.\n"
    + "If the user's question is a "
    + "general greeting, conversation, "
    + "or something you can answer "
    + "without additional context, "
    + "respond directly.\n\n"
    + "Available tools:\n- retrieve_documents: "
    + "Search for relevant documents "
    + "and information"

  /** The last three history lines, one per line. */
  function HistoryWindow(msgs: seq<Message>): string {
    Join(PySliceFrom(HistoryLines(msgs), -3), "\n")
  }

  function CurrentMessage(msgs: seq<Message>): string {
    if |msgs| > 0 then msgs[|msgs| - 1].content else ""
  }

  /** The decide step's own prompt. */
  function DecidePrompt(msgs: seq<Message>): string {
    Fill2(DecideHead, HistoryWindow(msgs), DecideMiddle, CurrentMessage(msgs), DecideTail)
  }

  /** The decide prompt is the query-or-respond template with the comment
      appended to the history; at most three history lines are shown. */
  lemma DecidePromptIsTemplate(msgs: seq<Message>)
    ensures DecidePrompt(msgs) == QueryOrRespondPrompt(HistoryWindow(msgs) + ContextComment, CurrentMessage(msgs))
    ensures |PySliceFrom(HistoryLines(msgs), -3)| <= 3
  {
    var h, m := HistoryWindow(msgs), CurrentMessage(msgs);
    var c, mid := ContextComment, QueryOrRespondMiddle;
    DecideTextsAgree();
    Regroup(QueryOrRespondHead, h, c, mid, m, QueryOrRespondTail);
    LastK(HistoryLines(msgs), 3);
  }

  lemma DecideTextsAgree()
    ensures DecideHead == QueryOrRespondHead && DecideTail == QueryOrRespondTail
    ensures DecideMiddle == ContextComment + QueryOrRespondMiddle
  {
  }

  lemma Regroup(a: string, h: string, c: string, mid: string, m: string, t: string)
    ensures a + h + (c + mid) + m + t == a + (h + c) + mid + m + t
  {
  }

  /** The id given to a tool call: `call_{hash(str(call)) % 10000}`. */
  function CallId(call: Dict, hashToolCall: Dict -> int): string {
    "call_" + NatToString(hashToolCall(call) % 10000)
  }

  /** `function_calls[0]` turned into a tool call: it must be a dictionary
      with a string "name" and a dictionary "args"; anything else raises. */
  function FirstToolCall(calls: Json, hashToolCall: Dict -> int): Option<ToolCall> {
    if calls.Arr? && |calls.a| > 0 && calls.a[0].Obj? then
      var call := calls.a[0].o;
      if "name" in call && call["name"].Str? && "args" in call && call["args"].Obj? then
        Some(ToolCall(CallId(call, hashToolCall), call["name"].s, call["args"].o))
      else None
    else None
  }

  /** The decide step's message, given the model's reply. Only a reply whose
      `has_function_call` is truthy binds a response; otherwise the step's
      handler turns the unbound name into the apology. */
  function DecideReply(reply: Outcome<Dict>, hashToolCall: Dict -> int): (m: Message)
    ensures m.AIMessage? && |m.toolCalls| <= 1
  {
    match reply
    case Raised(_) => AIMessage(DecideApology, [])
    case Ok(data) =>
      if !Truthy(Get(data, "has_function_call", Bool(false))) then AIMessage(DecideApology, [])
      else
        var calls := Get(data, "function_calls", Arr([]));
        if Truthy(calls) then
          match FirstToolCall(calls, hashToolCall)
          case Some(call) => AIMessage("", [call])
          case None => AIMessage(DecideApology, [])
        else
          match GetStr(data, "text", DefaultDirectText)
          case Some(text) => AIMessage(text, [])
          case None => AIMessage(DecideApology, [])
  }

  /** _generate_query_or_respond: the model sees the decide prompt and the
      retriever tool's declaration. */
  function Decide(ports: Ports, msgs: seq<Message>, step: nat): Message {
    DecideReply(ports.generateWithTools(DecidePrompt(msgs), Arr([RetrieverToolDefinition()]), step), ports.hashToolCall)
  }

  /** The decide step always answers with a model message carrying at most
      one tool call; it carries one exactly when the flag is truthy and the
      first entry of a non-empty call list is a well-formed call, which is
      then copied with its name and arguments; a falsy flag or a failed call
      gives the apology; a truthy flag with no calls gives the reply's text,
      "I'll help you with that." when it has none. */
  lemma DecideCases(reply: Outcome<Dict>, hashToolCall: Dict -> int)
    ensures var m := DecideReply(reply, hashToolCall);
      m.AIMessage? && |m.toolCalls| <= 1
      && (reply.Raised? ==> m == AIMessage(DecideApology, []))
      && (reply.Ok? ==>
            var flag := Get(reply.value, "has_function_call", Bool(false));
            var calls := Get(reply.value, "function_calls", Arr([]));
            (!Truthy(flag) ==> m == AIMessage(DecideApology, []))
            && (|m.toolCalls| == 1 <==>
                  Truthy(flag) && calls.Arr? && |calls.a| > 0 && calls.a[0].Obj?
                  && "name" in calls.a[0].o && calls.a[0].o["name"].Str?
                  && "args" in calls.a[0].o && calls.a[0].o["args"].Obj?)
            && (|m.toolCalls| == 1 ==>
                  m.content == "" && m.toolCalls[0].name == calls.a[0].o["name"].s
                  && m.toolCalls[0].args == calls.a[0].o["args"].o
                  && m.toolCalls[0].id == CallId(calls.a[0].o, hashToolCall))
            && (Truthy(flag) && !Truthy(calls) && "text" !in reply.value ==> m == AIMessage(DefaultDirectText, [])))
  {
  }

  // ---------------------------------------------------------------------
  // Grading the retrieved passages
  // ---------------------------------------------------------------------

  datatype Route = GenerateAnswer | RewriteQuestion

  const InlineGradingHead: string :=
    "You are a grader assessing relevance "
    + "of retrieved document content "
    + "to a user question.\n\nRetrieved "
    + "content: "
  const InlineGradingMiddle: string := "\n\nUser question: "
  const InlineGradingTail: string :=
    "\n\nIf the content contains information "
    + "related to the user question, "
    + "respond with 'yes'.\n"
    + "If the content is not relevant "
    + "or doesn't contain useful information, "
    + "respond with 'no'.\n\n"
    + "Respond with only 'yes' or 'no'."

  /** The grading step's own prompt: the last message as the retrieved
      content, the first as the question. */
  function GradePrompt(context: string, question: string): string {
    Fill2(InlineGradingHead, context, InlineGradingMiddle, question, InlineGradingTail)
  }

  /** The grading step's prompt is character for character the grading template. */
  lemma GradePromptIsTemplate(context: string, question: string)
    ensures GradePrompt(context, question) == DocumentGradingPrompt(context, question)
  {
    assert InlineGradingHead == GradingHead && InlineGradingMiddle == GradingMiddle && InlineGradingTail == GradingTail;
  }

  /** _grade_documents */
  function Grade(ports: Ports, msgs: seq<Message>, step: nat): Route {
    if |msgs| < 3 then RewriteQuestion
    else
      match ports.generateContent(GradePrompt(msgs[|msgs| - 1].content, msgs[0].content), step)
      case Raised(_) => RewriteQuestion
      case Ok(reply) => if Contains(Lower(reply), "yes") then GenerateAnswer else RewriteQuestion
  }

  /** Grading sends the workflow to the answer step exactly when there are at
      least three messages, the model call succeeds, and its lower-cased reply
      contains "yes" somewhere. */
  lemma GradeIff(ports: Ports, msgs: seq<Message>, step: nat)
    ensures Grade(ports, msgs, step) == GenerateAnswer <==>
      |msgs| >= 3
      && var reply := ports.generateContent(DocumentGradingPrompt(msgs[|msgs| - 1].content, msgs[0].content), step);
         reply.Ok? && exists j :: OccursAt(Lower(reply.value), "yes", j)
  {
    if |msgs| >= 3 {
      GradePromptIsTemplate(msgs[|msgs| - 1].content, msgs[0].content);
      var reply := ports.generateContent(DocumentGradingPrompt(msgs[|msgs| - 1].content, msgs[0].content), step);
      if reply.Ok? {
        ContainsIff(Lower(reply.value), "yes");
      }
    }
  }

  // ---------------------------------------------------------------------
  // Rewriting the question
  // ---------------------------------------------------------------------

  const RewriteNodeHead: string :=
    "Look at the input and try to "
    + "reason about the underlying "
    + "semantic intent and meaning.\n"
    + "\nOriginal question: "
  const RewriteNodeTail: string :=
    "\n\nFormulate an improved question "
    + "that would be better for searching "
    + "and finding relevant information:"

  /** The rewrite step's own prompt, which asks for a "question". */
  function RewritePrompt(originalQuestion: string): (r: string)
    ensures |r| == |RewriteNodeHead| + |originalQuestion| + |RewriteNodeTail|
    ensures r[|RewriteNodeHead|..|RewriteNodeHead| + |originalQuestion|] == originalQuestion
  {
    Fill2(RewriteNodeHead, originalQuestion, "", "", RewriteNodeTail)
  }

  /** The rewrite template asks for a "query" and is not what the rewrite
      step sends: the step's prompt is six characters longer. */
  lemma RewritePromptIsNotTemplate(q: string)
    ensures |RewritePrompt(q)| == |QueryRewritePrompt(q)| + 6
    ensures RewritePrompt(q) != QueryRewritePrompt(q)
  {
  }

  /** _rewrite_question: the model's rewrite becomes a new user message; if
      the call fails the first message is returned unchanged. With no
      messages, the handler's own indexing fails and the step raises. */
  function Rewrite(ports: Ports, msgs: seq<Message>, step: nat): (r: Outcome<Message>)
    ensures r.Raised? <==> |msgs| == 0
    ensures r.Ok? ==> r.value.HumanMessage? || r.value == msgs[0]
  {
    if |msgs| == 0 then Raised("list index out of range")
    else
      match ports.generateContent(RewritePrompt(msgs[0].content), step)
      case Ok(text) => Ok(HumanMessage(text))
      case Raised(_) => Ok(msgs[0])
  }

  // ---------------------------------------------------------------------
  // Answering
  // ---------------------------------------------------------------------

  const AnswerNodeHead: string :=
    "You are an assistant for question-answer"
    + "ing tasks. Use the following "
    + "retrieved context to answer "
    + "the question.\n\n"
    + "If you don't know the answer "
    + "based on the context, just say "
    + "that you don't know.\n"
    + "Keep the answer concise and "
    + "informative.\n\n"
    + "When you use information from "
    + "specific chunks, note the chunk "
    + "IDs (marked as [CHUNK_ID: ...]) "
    + "that you referenced.\n\n"
    + "Question: "
  const AnswerNodeMiddle: string := "\n\nContext: "
  const AnswerNodeTail: string :=
    "\n\nProvide a structured response "
    + "with:\n1. Your answer\n2. The "
    + "chunk IDs you used (if any)"

  /** The answer step's prompt: the first message as the question, the last
      as the context, each verbatim at its slot. */
  function AnswerPrompt(question: string, context: string): (r: string)
    ensures |r| == |AnswerNodeHead| + |question| + |AnswerNodeMiddle| + |context| + |AnswerNodeTail|
    ensures r[|AnswerNodeHead|..|AnswerNodeHead| + |question|] == question
    ensures r[|AnswerNodeHead| + |question| + |AnswerNodeMiddle|..][..|context|] == context
  {
    Fill2(AnswerNodeHead, question, AnswerNodeMiddle, context, AnswerNodeTail)
  }

  /** `', '.join(ids)` on what the structured reply holds: a list of strings,
      or a string (whose characters are joined); anything else raises. */
  function JoinedIds(ids: Json): Option<string> {
    match ids
    case Arr(xs) => (match AsStrList(ids) case Some(ss) => Some(Join(ss, ", ")) case None => None)
    case Str(s) => Some(Join(seq(|s|, i requires 0 <= i < |s| => [s[i]]), ", "))
    case _ => None
  }

  /** The message built from a structured reply. */
  function StructuredAnswer(data: Dict): (m: Message)
    ensures m.AIMessage? && m.toolCalls == []
  {
    match Get(data, "answer", Str(NoAnswerText))
    case Str(answer) =>
      var ids := Get(data, "chunk_ids_used", Arr([]));
      if !Truthy(ids) then AIMessage(answer, [])
      else
        (match JoinedIds(ids)
         case Some(joined) => AIMessage(answer + MetadataSuffix(joined), [])
         case None => AIMessage(AnswerApology, []))
    case _ => AIMessage(AnswerApology, [])
  }

  /** _generate_answer: a structured reply when the service offers one,
      plain text otherwise; any failure gives the apology. */
  function Answer(ports: Ports, msgs: seq<Message>, step: nat): (m: Message)
    ensures m.AIMessage? && m.toolCalls == []
  {
    if |msgs| == 0 then AIMessage(AnswerApology, [])
    else
      var prompt := AnswerPrompt(msgs[0].content, msgs[|msgs| - 1].content);
      match ports.generateStructured
      case Some(generate) =>
        (match generate(prompt, AnswerResponseSchema(), step)
         case Ok(data) => StructuredAnswer(data)
         case Raised(_) => AIMessage(AnswerApology, []))
      case None =>
        (match ports.generateContent(prompt, step)
         case Ok(text) => AIMessage(text, [])
         case Raised(_) => AIMessage(AnswerApology, []))
  }

  /** A structured reply without "answer" and without cited ids gives the
      fixed fallback text; a string answer citing a non-empty list of string
      ids gets exactly the metadata suffix naming them; a failed call gives
      the apology. */
  lemma AnswerCases(ports: Ports, msgs: seq<Message>, step: nat, data: Dict)
    requires |msgs| > 0 && ports.generateStructured.Some?
    ensures var prompt := AnswerPrompt(msgs[0].content, msgs[|msgs| - 1].content);
      var reply := ports.generateStructured.value(prompt, AnswerResponseSchema(), step);
      var m := Answer(ports, msgs, step);
      (reply.Raised? ==> m == AIMessage(AnswerApology, []))
      && (reply == Ok(data) && "answer" !in data && "chunk_ids_used" !in data ==> m == AIMessage(NoAnswerText, []))
      && (reply == Ok(data) && "answer" in data && data["answer"].Str?
          && "chunk_ids_used" in data && AsStrList(data["chunk_ids_used"]).Some?
          && |AsStrList(data["chunk_ids_used"]).value| > 0
          ==> m == AIMessage(data["answer"].s + MetadataSuffix(Join(AsStrList(data["chunk_ids_used"]).value, ", ")), []))
  {
    if "chunk_ids_used" in data && AsStrList(data["chunk_ids_used"]).Some? {
      var ids := data["chunk_ids_used"];
      assert ids.Arr? && |ids.a| == |AsStrList(ids).value|;
    }
  }
}
