/** The prompt templates of the agentic retrieval workflow, the retriever
    tool's declaration and the schema of a structured answer. */
module Prompts {
  import opened Wrappers
  import opened Json

  /** A template with two slots: fixed text, an argument, fixed text, an
      argument, fixed text. Each argument appears verbatim at its slot. */
  function Fill2(a: string, x: string, b: string, y: string, c: string): (r: string)
    ensures |r| == |a| + |x| + |b| + |y| + |c|
    ensures r[..|a|] == a
    ensures r[|a|..|a| + |x|] == x
    ensures r[|a| + |x|..|a| + |x| + |b|] == b
    ensures r[|a| + |x| + |b|..|a| + |x| + |b| + |y|] == y
    ensures r[|a| + |x| + |b| + |y|..] == c
  {
    var r := a + x + b + y + c;
    assert r[..|a|] == a;
    assert r[|a|..|a| + |x|] == x;
    assert r[|a| + |x|..|a| + |x| + |b|] == b;
    assert r[|a| + |x| + |b|..|a| + |x| + |b| + |y|] == y;
    r
  }

  const QueryOrRespondHead: string :=
    "You are an intelligent assistant "
    + "that can either respond directly "
    + "to users or search for information "
    + "when needed.\n\nConversation history:\n"
  const QueryOrRespondMiddle: string := "\n\nCurrent user message: "
  const QueryOrRespondTail: string :=
    "\n\nIf the user's question requires "
    + "specific information that you "
    + "don't have or is about document "
    + "content, use the retrieve_documents "
    + "tool to search for relevant "
    + "information.\n"
    + "If the user's question is a "
    + "general greeting, conversation, "
    + "or something you can answer "
    + "without additional context, "
    + "respond directly.\n\n"
    + "Available tools:\n- retrieve_documents: "
    + "Search for relevant documents "
    + "and information"

  /** get_query_or_respond_prompt: the history, then the current message. */
  function QueryOrRespondPrompt(conversationHistory: string, currentMessage: string): (r: string)
    ensures |r| == |QueryOrRespondHead| + |conversationHistory| + |QueryOrRespondMiddle| + |currentMessage| + |QueryOrRespondTail|
    ensures var k := |QueryOrRespondHead|;
      r[k..k + |conversationHistory|] == conversationHistory
      && r[k + |conversationHistory| + |QueryOrRespondMiddle|..][..|currentMessage|] == currentMessage
  {
    Fill2(QueryOrRespondHead, conversationHistory, QueryOrRespondMiddle, currentMessage, QueryOrRespondTail)
  }

  const GradingHead: string :=
    "You are a grader assessing relevance "
    + "of retrieved document content "
    + "to a user question.\n\nRetrieved "
    + "content: "
  const GradingMiddle: string := "\n\nUser question: "
  const GradingTail: string :=
    "\n\nIf the content contains information "
    + "related to the user question, "
    + "respond with 'yes'.\n"
    + "If the content is not relevant "
    + "or doesn't contain useful information, "
    + "respond with 'no'.\n\n"
    + "Respond with only 'yes' or 'no'."

  /** get_document_grading_prompt: the retrieved content, then the question. */
  function DocumentGradingPrompt(context: string, question: string): (r: string)
    ensures |r| == |GradingHead| + |context| + |GradingMiddle| + |question| + |GradingTail|
    ensures var k := |GradingHead|;
      r[k..k + |context|] == context
      && r[k + |context| + |GradingMiddle|..][..|question|] == question
  {
    Fill2(GradingHead, context, GradingMiddle, question, GradingTail)
  }

  const RewriteHead: string :=
    "Look at the input and try to "
    + "reason about the underlying "
    + "semantic intent and meaning.\n"
    + "\nOriginal query: "
  const RewriteTail: string :=
    "\n\nFormulate an improved query "
    + "that would be better for searching "
    + "and finding relevant information:"

  /** get_query_rewrite_prompt: the original query in its slot. */
  function QueryRewritePrompt(originalQuery: string): (r: string)
    ensures |r| == |RewriteHead| + |originalQuery| + |RewriteTail|
    ensures r[|RewriteHead|..|RewriteHead| + |originalQuery|] == originalQuery
  {
    Fill2(RewriteHead, originalQuery, "", "", RewriteTail)
  }

  const AnswerHead: string :=
    "You are a conversational chatbot "
    + "for question-answering tasks. "
    + "Use the following retrieved "
    + "context to interact with user.\n\n"
    + "If you don't know the answer "
    + "based on the context, just say "
    + "that you don't know.\n"
    + "Keep the answer concise and "
    + "informative.\n\nContext: "
  const AnswerMiddle: string := "\n\nConversation History: "

  /** get_answer_generation_prompt: the context, then the history. */
  function AnswerGenerationPrompt(history: string, context: string): (r: string)
    ensures |r| == |AnswerHead| + |context| + |AnswerMiddle| + |history| + 1
    ensures var k := |AnswerHead|;
      r[k..k + |context|] == context
      && r[k + |context| + |AnswerMiddle|..][..|history|] == history
  {
    Fill2(AnswerHead, context, AnswerMiddle, history, "\n")
  }

  /** get_retriever_tool_definition */
  function RetrieverToolDefinition(): Json {
    Obj(map[
      "name" := Str("retrieve_documents"),
      "description" := Str("Search and return information " + "from the document repository."),
      "parameters" := Obj(map[
        "type" := Str("object"),
        "properties" := Obj(map[
          "query" := Obj(map[
            "type" := Str("string"),
            "description" := Str("Search query for retrieving " + "relevant documents")])]),
        "required" := StrList(["query"])])])
  }

  /** The tool is called retrieve_documents and takes exactly one required
      argument, the string `query`. */
  lemma RetrieverToolShape()
    ensures var t := RetrieverToolDefinition();
      t.Obj? && GetStr(t.o, "name", "") == Some("retrieve_documents")
      && GetDict(t.o, "parameters").Some?
      && GetStrList(GetDict(t.o, "parameters").value, "required") == Some(["query"])
  {
    StrListRoundTrip(["query"]);
  }

  /** get_answer_response_schema */
  function AnswerResponseSchema(): Json {
    Obj(map[
      "type" := Str("object"),
      "properties" := Obj(map[
        "answer" := Obj(map[
          "type" := Str("string"),
          "description" := Str("The main answer content")]),
        "chunk_ids_used" := Obj(map[
          "type" := Str("array"),
          "items" := Obj(map["type" := Str("string")]),
          "description" := Str("List of chunk IDs used to generate " + "this answer")])]),
      "required" := StrList(["answer", "chunk_ids_used"])])
  }

  /** The answer schema requires exactly `answer` and `chunk_ids_used`, the
      latter an array of strings. */
  lemma AnswerSchemaShape()
    ensures var s := AnswerResponseSchema();
      s.Obj? && GetStrList(s.o, "required") == Some(["answer", "chunk_ids_used"])
      && GetDict(s.o, "properties").Some?
      && GetDict(GetDict(s.o, "properties").value, "chunk_ids_used").Some?
      && var ids := GetDict(GetDict(s.o, "properties").value, "chunk_ids_used").value;
         GetStr(ids, "type", "") == Some("array")
         && GetDict(ids, "items") == Some(map["type" := Str("string")])
  {
    StrListRoundTrip(["answer", "chunk_ids_used"]);
  }
}
