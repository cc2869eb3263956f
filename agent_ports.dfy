/** The foreign services the agent calls, as oracles: any behaviour is
    allowed, and each call's result depends only on its arguments. The
    language-model calls also take the index of the workflow step making
    them, so the model may answer the same prompt differently on different
    steps. A result `Raised(e)` stands for an exception with message e. */
module AgentPorts {
  import opened Wrappers
  import opened Json
  import opened Documents
  import opened AgentDtos

  datatype Ports = Ports(
    /** embed_single(query) */
    embedSingle: string -> Outcome<seq<real>>,
    /** search_chunks(query=..., vector=..., size=..., index_name=...) with the
        size and index fixed by the use case */
    searchChunks: (string, seq<real>) -> Outcome<seq<DocChunk>>,
    /** get_picture(document_id=..., picture_id=..., index_name=...) with the
        index fixed by the use case */
    getPicture: (string, string) -> Outcome<Option<DocumentPicture>>,
    /** Python's hash of a string (salted per process, so left uninterpreted) */
    hash: string -> int,
    /** hash(str(tool_call)) */
    hashToolCall: Dict -> int,
    /** generate_content_with_tools(prompt, tools=...) */
    generateWithTools: (string, Json, nat) -> Outcome<Dict>,
    /** generate_content(prompt) */
    generateContent: (string, nat) -> Outcome<string>,
    /** generate_structured_content(prompt, response_schema=...), when the
        service has it */
    generateStructured: Option<(string, Json, nat) -> Outcome<Dict>>,
    /** the text of the error message a tool node returns for a tool call it
        cannot run */
    toolNodeError: ToolCall -> string)
}
