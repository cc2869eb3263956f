/** The agent's data-transfer records and the messages its workflow passes
    between steps. */
module AgentDtos {
  import opened Wrappers
  import opened Json
  import opened Documents

  /** One turn of a chat: who spoke ("user", "assistant", "system") and what was said. */
  datatype ChatMessage = ChatMessage(role: string, content: string, chatId: Option<string>)

  function UserMessage(content: string): (m: ChatMessage)
    ensures m.role == "user" && m.content == content
  {
    ChatMessage("user", content, None)
  }

  function AssistantMessage(content: string): (m: ChatMessage)
    ensures m.role == "assistant" && m.content == content
  {
    ChatMessage("assistant", content, None)
  }

  /** A request, written by the language model, to run a tool. */
  datatype ToolCall = ToolCall(id: string, name: string, args: Dict)

  /** The workflow's messages: a user turn, a model turn (possibly asking
      for tools), or a tool's result. */
  datatype Message =
    | HumanMessage(content: string)
    | AIMessage(content: string, toolCalls: seq<ToolCall>)
    | ToolMessage(content: string, name: string, toolCallId: string)

  /** The fields AgentResponse declares. */
  datatype AgentResponse = AgentResponse(
    content: string, retrievedChunks: seq<DocChunk>, chunkIdsUsed: seq<string>,
    pictures: seq<DocumentPicture>, metadata: Dict)

  /** Building an AgentResponse from keyword arguments: the validator keeps
      the declared fields and silently drops the others (here `chunks_used`
      and `chat_id`), so `retrieved_chunks` keeps its empty default. */
  function BuildAgentResponse(content: string, chunksUsed: seq<DocChunk>, chunkIdsUsed: seq<string>,
                              pictures: seq<DocumentPicture>, chatId: Option<string>, metadata: Dict): (r: AgentResponse)
    ensures r.retrievedChunks == []
    ensures r.content == content && r.chunkIdsUsed == chunkIdsUsed && r.pictures == pictures && r.metadata == metadata
  {
    AgentResponse(content, [], chunkIdsUsed, pictures, metadata)
  }
}
