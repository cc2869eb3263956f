# MultiModalRag core, modelled in Dafny

This project models the decision logic of MultiModalRag, a retrieval-augmented
question-answering system. The system indexes converted documents (texts,
pictures, tables and chunks) in Elasticsearch. It answers chat questions through
an agentic LangGraph workflow backed by Google's generative-AI models, and
serves those answers through a Telegram bot.

Every foreign service is an oracle: a function-typed parameter whose result
is arbitrary, or `Raised(e)` for an exception with message `e`. This covers
the search store, the bulk helper, the language and embedding models, the
Telegram transport and the LangGraph runtime. The logic wrapped around those
calls is modelled as the Python code writes it and proved against
specifications.

The modules follow the source files:

- `AgentDtos`, `AgentPorts`, `Prompts`, `RetrievalTool`, `AgentNodes`,
  `AgentGraph`, `AgentExtractor`, `AnswerMetadata`, `AgentWorkflow` model the
  agentic workflow of `usecases/langgraph_agent/`.
  - The retrieval tool's passages and synthetic ids.
  - The decide, grade, rewrite and answer steps.
  - The workflow graph.
  - The metadata suffix and the regular expression that reads it back.
  - `process_message` and the chunk extractor.
- `AgentGraph` runs the graph under an explicit update rule for the message
  list (`Overwrite` or `Append`) and with fuel in place of LangGraph's
  recursion limit.
  - The state declares no reducer, so the runtime overwrites. Under
    `Overwrite` no retrieval is ever graded as relevant, so the answer step
    never runs (the `*NeverAnswers` lemmas). A run ends at a later decide
    step that asks for no tool. When the model always asks for one, the run
    ends at the recursion limit instead (the `*LoopsToLimit` lemmas and
    `AgentWorkflow.AgentRunHitsLimit`).
  - Under `Append` the grading sees the whole list (`AppendGradesWholeList`).
- The tool declaration and the answer schema that the workflow builds inline
  are textually identical to the ones in `prompts.py`, so one definition
  serves both. The decide prompt is not identical: its inline text carries
  an extra comment line. The rewrite prompt differs too: it says "question"
  where `prompts.py` says "query". Those two are defined twice.
- Chunks read back from the store carry their document items as
  dictionaries. The extractor's picture scan looks for a `label` attribute,
  which a dictionary does not have, so the scan never calls `get_picture`
  and adds no picture (`AgentExtractor.DictItemsNoPictures`).
- `ChunkManagement`, `ConversationManagement`, `ResponseFormatting`,
  `Markdown` and `LegacyBot` model the Telegram side.
  - The per-user chunk store and chat history are classes with map fields.
  - Caption truncation, message splitting, the button layout and Markdown
    escaping are modelled too.
  - The older bot's own ten-turn history comes from `telegram_bot_service.py`.
    Its truncation and splitting helpers are identical to the formatter's,
    so they are defined once.
- `Documents`, `DoclingImport`, `DocumentIndexing`, `ElasticsearchAdaptor`
  and `ElasticsearchConfig` model the indexing side.
  - Each entity is encoded to the store's JSON and decoded back, and the
    round trips are proved.
  - A converted Docling dump becomes entities.
  - Chunks are embedded one at a time or in batches of sixty.
  - Chunk-search queries and filters are built, and search results are read.
  - Index responses report success, and the client configuration is checked.
- `GenAIBaseService` models the API-key ring and the retry loop. The loop
  has per-key attempts, exponential backoff, immediate key switching on rate
  limits, and a 60-second pause on wrapping to key 0. `ExecuteWithRetry` is
  proved equal to a run specification, and the termination facts are proved
  of that specification:
  - with one key the loop ends;
  - with several keys it can never raise its documented error.
- `ChunkIdMigration` models `scripts/migrate_chunk_ids.py`: it stamps every
  chunk document with its own id, singly or in bulk batches.
- `Wrappers`, `Strings` and `Json` hold the Option and Outcome types, the
  Python string operations the code relies on, and a JSON-like value type.

## Model

| member | source | states |
|---|---|---|
| AgentDtos.BuildAgentResponse | multimodal_rag/usecases/langgraph_agent/dtos.py:41-48 | an AgentResponse built from keyword arguments keeps content, cited ids, pictures and metadata, and its retrieved_chunks is always empty, because chunks_used and chat_id are not declared fields |
| RetrievalTool.HashPart | multimodal_rag/usecases/langgraph_agent/agentic_rag.py:92 | the hash part of a synthetic id, hash(text) % 10000 with Python's floor modulo, is a natural number below 10000 |
| RetrievalTool.FirstUnderscore | multimodal_rag/usecases/langgraph_agent/agentic_rag.py:92 | in a rank's digits followed by "_", the first underscore is the one right after the digits |
| RetrievalTool.DigitsBeforeUnderscore | multimodal_rag/usecases/langgraph_agent/agentic_rag.py:92 | two ids whose digit-string prefixes are each followed by "_" can only be equal if the prefixes are equal |
| RetrievalTool.ChunkIdsDistinct | multimodal_rag/usecases/langgraph_agent/agentic_rag.py:91-92 | ids chunk_{i}_{h} of different ranks differ, whatever the texts and their hashes, so the ids of one result list are pairwise distinct |
| RetrievalTool.PassageSpelled | multimodal_rag/usecases/langgraph_agent/agentic_rag.py:95-97 | a passage is "[CHUNK_ID: id]", then "\nDocument i", then " (Headings: " + the Python list repr of the headings + ")" only when headings are non-empty, then ":\n" and the chunk text |
| RetrievalTool.ListReprSmall | multimodal_rag/usecases/langgraph_agent/agentic_rag.py:96 | a headings list prints as "[", the repr of each heading separated by ", ", and "]" (one and two headings) |
| RetrievalTool.BackslashDoubled | multimodal_rag/usecases/langgraph_agent/agentic_rag.py:96 | a backslash in a heading is printed doubled, between single quotes |
| RetrievalTool.ApostropheHeading | multimodal_rag/usecases/langgraph_agent/agentic_rag.py:96 | a heading with an apostrophe and no double quote is printed between double quotes, unescaped |
| RetrievalTool.ApostropheHeadingListed | multimodal_rag/usecases/langgraph_agent/agentic_rag.py:96 | the headings list ["It's"] prints with the heading in double quotes, as Python prints it |
| RetrievalTool.BackslashHeadingListed | multimodal_rag/usecases/langgraph_agent/agentic_rag.py:96 | a headings list holding a backslash prints it doubled, as Python prints it |
| Strings.EscapeRoundTrip | multimodal_rag/usecases/langgraph_agent/agentic_rag.py:96 | the body repr() writes between either quote decodes back to the string, so different headings never print the same |
| Strings.PlainBody | multimodal_rag/usecases/langgraph_agent/agentic_rag.py:96 | a string with no quote character, backslash, tab, newline, carriage return or hex-escaped character is written as it is |
| Strings.ApostropheInDoubleQuotes | multimodal_rag/usecases/langgraph_agent/agentic_rag.py:96 | a string with an apostrophe and otherwise plain characters is written between double quotes as it is |
| Strings.PlainInSingleQuotes | multimodal_rag/usecases/langgraph_agent/agentic_rag.py:96 | a string of plain characters without apostrophes is written between single quotes as it is |
| RetrievalTool.PassageFrame | multimodal_rag/usecases/langgraph_agent/agentic_rag.py:95-97 | every passage opens with its chunk's id line and ends with the chunk's text |
| RetrievalTool.Passages | multimodal_rag/usecases/langgraph_agent/agentic_rag.py:90-98 | one passage per chunk, in rank order, ranks counted from 1 |
| RetrievalTool.RetrievalTextKinds | multimodal_rag/usecases/langgraph_agent/agentic_rag.py:74-104 | the tool never raises: a port failure gives "Error retrieving documents: " + the error and nothing else starts that way; an empty result gives exactly "No relevant documents found for the query."; otherwise the passages joined by blank lines, starting with the first chunk's id line |
| RetrievalTool.RetrieveDocuments | multimodal_rag/usecases/langgraph_agent/agentic_rag.py:65-104 | the loop that builds formatted_content returns exactly the tool's specified reply |
| AgentExtractor.FirstRetrieveCall | multimodal_rag/usecases/langgraph_agent/agentic_rag.py:463-466 | the call found is among the message's calls and named retrieve_documents; none is found exactly when no call has that name |
| AgentExtractor.QueryFromLastCall | multimodal_rag/usecases/langgraph_agent/agentic_rag.py:460-466 | the query used is the "query" argument of the first retrieval call in the last model message that has one (each later match overwrites, and a missing argument reads as None) |
| AgentExtractor.IdMapLookup | multimodal_rag/usecases/langgraph_agent/agentic_rag.py:481-484 | in the rebuilt map, each retrieved chunk's rank-and-hash id leads back to that chunk |
| AgentExtractor.IdMapKeys | multimodal_rag/usecases/langgraph_agent/agentic_rag.py:481-484 | the rebuilt map holds the ids of the result list and nothing else |
| AgentExtractor.Selected | multimodal_rag/usecases/langgraph_agent/agentic_rag.py:487-489 | at most one chunk per cited id, each of them a value of the map |
| AgentExtractor.SelectedAllKnown | multimodal_rag/usecases/langgraph_agent/agentic_rag.py:487-489 | when every cited id is known, one chunk comes back per citation, in citation order, duplicates included |
| AgentExtractor.SelectedNoneKnown | multimodal_rag/usecases/langgraph_agent/agentic_rag.py:487-489 | cited ids the map does not know are skipped |
| AgentExtractor.FirstRetrievalResult | multimodal_rag/usecases/langgraph_agent/agentic_rag.py:454-519 | the position found is the first tool message named retrieve_documents; none is found exactly when there is no such message, so only the first is processed |
| AgentExtractor.NoRetrievalNothingAdded | multimodal_rag/usecases/langgraph_agent/agentic_rag.py:454-458 | with no tool message among the messages, nothing is added |
| AgentExtractor.CitedChunksComeBack | multimodal_rag/usecases/langgraph_agent/agentic_rag.py:481-493 | citing the ids the tool printed for some ranks gives back those chunks in citation order; citing nothing gives every retrieved chunk |
| AgentExtractor.ExtractChunksAndPictures | multimodal_rag/usecases/langgraph_agent/agentic_rag.py:443-522 | the caller's chunk list gains exactly the cited chunks of one repeated search for the first retrieval result; failures add nothing and are swallowed; after a search that ran to the end the picture list gains the scan's pictures over every used chunk, which for dictionary items is nothing, so it is unchanged |
| AgentExtractor.RepeatSearch | multimodal_rag/usecases/langgraph_agent/agentic_rag.py:468-493 | a non-empty string query is embedded and searched again, and the cited chunks (all results when none are cited) are appended; a failing port appends nothing; it reports whether the search ran to the end |
| AgentExtractor.AppendCited | multimodal_rag/usecases/langgraph_agent/agentic_rag.py:487-489 | the loop over the cited ids appends exactly the selected chunks |
| AgentExtractor.FindQuery | multimodal_rag/usecases/langgraph_agent/agentic_rag.py:460-466 | the scan over all model messages yields the specified query |
| AgentExtractor.FindRetrieveCall | multimodal_rag/usecases/langgraph_agent/agentic_rag.py:463-466 | the inner loop stops at the first retrieval call |
| AgentExtractor.BuildIdMap | multimodal_rag/usecases/langgraph_agent/agentic_rag.py:481-484 | the loop that fills chunk_id_to_chunk builds the specified map, a later rank overwriting an equal id |
| AgentExtractor.NoLookupNoPictures | multimodal_rag/usecases/langgraph_agent/agentic_rag.py:498-507 | items whose attributes call for no lookup add no picture and never call get_picture |
| AgentExtractor.DictItemsNoPictures | multimodal_rag/usecases/langgraph_agent/agentic_rag.py:495-518 | document items read back from the store are dictionaries without a label attribute, so the scan over any chunks adds nothing and cannot fail |
| AgentExtractor.PictureItemFetched | multimodal_rag/usecases/langgraph_agent/agentic_rag.py:499-518 | an item labelled as a picture (in any case) with a picture id, in a chunk with a document id, is looked up, and the picture found is appended |
| AgentExtractor.FetchFailureStops | multimodal_rag/usecases/langgraph_agent/agentic_rag.py:510-522 | a get_picture failure ends the scan: later chunks add nothing, and the pictures found before stay |
| AgentExtractor.GatherPictures | multimodal_rag/usecases/langgraph_agent/agentic_rag.py:495-518 | the loop over the used chunks appends exactly the specified pictures, stopping at a failure |
| AgentExtractor.GatherItemPictures | multimodal_rag/usecases/langgraph_agent/agentic_rag.py:499-518 | the loop over one chunk's items appends each picture found, in order, stopping at a failure |
| Prompts.Fill2 | multimodal_rag/usecases/langgraph_agent/prompts.py:8-59 | a two-slot template holds its fixed texts and both arguments verbatim, each at its position, and nothing else |
| Prompts.QueryOrRespondPrompt | multimodal_rag/usecases/langgraph_agent/prompts.py:8-23 | the conversation history and the current message appear verbatim at their slots |
| Prompts.DocumentGradingPrompt | multimodal_rag/usecases/langgraph_agent/prompts.py:26-37 | the retrieved content and the question appear verbatim at their slots |
| Prompts.QueryRewritePrompt | multimodal_rag/usecases/langgraph_agent/prompts.py:40-46 | the original query appears verbatim at its slot |
| Prompts.AnswerGenerationPrompt | multimodal_rag/usecases/langgraph_agent/prompts.py:49-59 | the context and then the history appear verbatim at their slots, followed by a final newline |
| Prompts.RetrieverToolShape | multimodal_rag/usecases/langgraph_agent/prompts.py:62-77 | the tool is named retrieve_documents and requires exactly ["query"] |
| Prompts.AnswerSchemaShape | multimodal_rag/usecases/langgraph_agent/prompts.py:80-96 | the schema requires exactly answer and chunk_ids_used, the latter an array whose items are strings |
| AgentNodes.HistoryLines | multimodal_rag/usecases/langgraph_agent/agentic_rag.py:114-119 | one "User: "/"Assistant: " line per user or model message, tool results skipped, so never more lines than messages |
| AgentNodes.HistoryLinesOfChat | multimodal_rag/usecases/langgraph_agent/agentic_rag.py:114-119 | without tool results, the history has exactly one line per message, in order |
| AgentNodes.DecidePromptIsTemplate | multimodal_rag/usecases/langgraph_agent/agentic_rag.py:122-133 | the decide step's inline prompt is the query-or-respond template filled with the last three history lines followed by the literal comment text the f-string carries, and the current message (the last message's content, "" when there is none) |
| AgentNodes.DecideTextsAgree | multimodal_rag/usecases/langgraph_agent/agentic_rag.py:122-133 | the inline prompt's fixed texts equal the template's, except for the comment text placed after the history |
| AgentNodes.DecideReply | multimodal_rag/usecases/langgraph_agent/agentic_rag.py:158-186 | the decide step always yields a model message with at most one tool call |
| AgentNodes.DecideCases | multimodal_rag/usecases/langgraph_agent/agentic_rag.py:158-186 | a tool call is emitted exactly when the flag is truthy and function_calls[0] is a well-formed call, which is copied with its name, its arguments and the id call_{hash % 10000}; a falsy flag (the unbound response) or a failed model call gives the fixed apology; a truthy flag with an empty list gives the reply's text, "I'll help you with that." when it has none |
| AgentNodes.GradePromptIsTemplate | multimodal_rag/usecases/langgraph_agent/agentic_rag.py:199-208 | the inline grading prompt is character for character the grading template of prompts.py |
| AgentNodes.GradeIff | multimodal_rag/usecases/langgraph_agent/agentic_rag.py:192-219 | grading routes to generate_answer exactly when there are at least three messages, the model call succeeds and its lower-cased reply contains "yes"; every other case, failures included, routes to rewrite_question |
| AgentNodes.RewritePrompt | multimodal_rag/usecases/langgraph_agent/agentic_rag.py:228-232 | the original question appears verbatim at its slot |
| AgentNodes.RewritePromptIsNotTemplate | multimodal_rag/usecases/langgraph_agent/agentic_rag.py:228-232 | the inline rewrite prompt is not the rewrite template: it says "question" where the template says "query", six characters longer |
| AgentNodes.Rewrite | multimodal_rag/usecases/langgraph_agent/agentic_rag.py:225-241 | the rewrite step fails only when there is no message; otherwise it yields the model's rewrite as a new user message, or the first message unchanged when the call fails |
| AgentNodes.AnswerPrompt | multimodal_rag/usecases/langgraph_agent/agentic_rag.py:249-262 | the first message's content and the last message's content appear verbatim at their slots |
| AgentNodes.StructuredAnswer | multimodal_rag/usecases/langgraph_agent/agentic_rag.py:288-302 | an answer built from a structured reply is a model message without tool calls |
| AgentNodes.Answer | multimodal_rag/usecases/langgraph_agent/agentic_rag.py:243-315 | the answer step always yields a model message without tool calls |
| AgentNodes.AnswerCases | multimodal_rag/usecases/langgraph_agent/agentic_rag.py:281-315 | a failed call gives the fixed apology; a reply with neither answer nor ids gives "I couldn't generate an answer."; a string answer with a non-empty list of string ids gets exactly "\n\n[Metadata: Used chunks: " + ids joined by ", " + "]" |
| AgentGraph.Update | multimodal_rag/usecases/langgraph_agent/agentic_rag.py:23-27 | the state's message list is declared without a reducer, so a step's returned messages replace the list; the appending rule, kept for comparison, leaves the old list as a prefix and the returned messages after it |
| AgentGraph.OverwriteNeverAnswers | multimodal_rag/usecases/langgraph_agent/agentic_rag.py:193 | under the overwrite rule a run started at the decide step that ends normally ends with a decide-step message asking for no tool, so the answer step is never reached |
| AgentGraph.RetrieveNeverAnswers | multimodal_rag/usecases/langgraph_agent/agentic_rag.py:326-350 | a run entered at the retrieve step with a single model message holding at most one tool call also ends, if it ends normally, at the decide step |
| AgentGraph.RewriteNeverAnswers | multimodal_rag/usecases/langgraph_agent/agentic_rag.py:350 | a run entered at the rewrite step also ends, if it ends normally, at the decide step |
| AgentGraph.OverwriteLoopsToLimit | multimodal_rag/usecases/langgraph_agent/agentic_rag.py:331-350 | under the overwrite rule, when the model always asks for the retrieval tool, a run from the decide step ends with the recursion-limit error |
| AgentGraph.RetrieveLoopsToLimit | multimodal_rag/usecases/langgraph_agent/agentic_rag.py:344-350 | the same from the retrieve step with one tool call |
| AgentGraph.RewriteLoopsToLimit | multimodal_rag/usecases/langgraph_agent/agentic_rag.py:350 | the same from the rewrite step on a non-empty list |
| AgentGraph.AppendGradesWholeList | multimodal_rag/usecases/langgraph_agent/agentic_rag.py:331-350 | under the appending rule a tool call leads to grading on the old list plus the call and the tool results; a relevant grade makes that list the answer step's input and the run's result, an irrelevant one hands it to the rewrite step |
| AgentGraph.FinalMessageIsModelMessage | multimodal_rag/usecases/langgraph_agent/agentic_rag.py:331-350 | under either rule, every run that ends normally ends with a model message, produced by the decide or the answer step |
| AgentGraph.StepEndsWithModelMessage | multimodal_rag/usecases/langgraph_agent/agentic_rag.py:334-349 | a single step that ends the run ends it with a model message |
| AgentWorkflow.ToolResult | multimodal_rag/usecases/langgraph_agent/agentic_rag.py:326 | the tool node answers each call with a tool message carrying that call's id |
| AgentWorkflow.RunTools | multimodal_rag/usecases/langgraph_agent/agentic_rag.py:326 | the tool node succeeds only on a non-empty list and then answers with one tool message per tool call of the last message |
| AgentWorkflow.AgentDecideBehaves | multimodal_rag/usecases/langgraph_agent/agentic_rag.py:154-186 | the agent's decide step always answers with a model message carrying at most one tool call |
| AgentWorkflow.AgentToolsBehave | multimodal_rag/usecases/langgraph_agent/agentic_rag.py:326 | the agent's tool node succeeds exactly when the last message is a model message, and then adds one tool message per call |
| AgentWorkflow.AgentOtherStepsBehave | multimodal_rag/usecases/langgraph_agent/agentic_rag.py:188-315 | the agent's grade step needs three messages to say "relevant", its rewrite step fails only on an empty list, and its answer step always answers with a model message |
| AgentWorkflow.AgentStepsBehave | multimodal_rag/usecases/langgraph_agent/agentic_rag.py:108-315 | the agent's own steps meet everything the graph lemmas assume of steps |
| AgentWorkflow.ModelAlwaysCallsTool | multimodal_rag/usecases/langgraph_agent/agentic_rag.py:158-171 | when the model's reply always flags a retrieval, the agent's decide step always asks for a tool |
| AgentWorkflow.RunToolsSingle | multimodal_rag/usecases/langgraph_agent/agentic_rag.py:326 | on a model message with exactly one call the tool node returns exactly that call's result |
| AgentWorkflow.Seeded | multimodal_rag/usecases/langgraph_agent/agentic_rag.py:378-383 | seeding never yields more messages than history entries, since roles other than user and assistant are skipped |
| AgentWorkflow.SeedMessagesShape | multimodal_rag/usecases/langgraph_agent/agentic_rag.py:378-385 | a run starts with at most six messages with the new user message last; the window is the last min(5, n) history entries, and when all of them are user or assistant turns they become the messages before it, in order |
| AgentWorkflow.SeededChat | multimodal_rag/usecases/langgraph_agent/agentic_rag.py:380-383 | a window of user and assistant turns is seeded entry by entry, each becoming a human or model message with the same content |
| AgentWorkflow.SeededStep | multimodal_rag/usecases/langgraph_agent/agentic_rag.py:379-383 | one more history entry extends the seeded messages by that entry's message, or by nothing for another role |
| AgentWorkflow.SeedLoop | multimodal_rag/usecases/langgraph_agent/agentic_rag.py:376-385 | the seeding loop builds exactly the window-of-five message list followed by the new message |
| AgentWorkflow.ProcessMessage | multimodal_rag/usecases/langgraph_agent/agentic_rag.py:359-441 | an error in the run gives the apology, no ids and the error text as metadata; otherwise the content is the final message's, the cited ids are the ones its metadata suffix names, and workflow_steps is 1; the response never carries chunks or pictures |
| AgentWorkflow.ExtractorAddsNothing | multimodal_rag/usecases/langgraph_agent/agentic_rag.py:397-424 | the final state holds a single model message, so the extractor finds no retrieval result and adds nothing |
| AgentWorkflow.AgentRunHitsLimit | multimodal_rag/usecases/langgraph_agent/agentic_rag.py:359-441 | with the agent's own steps, the overwriting runtime and a model that always asks for a retrieval, the run ends with the recursion-limit error, so the reply is the apology |
| AnswerMetadata.FirstMatchFrom | multimodal_rag/usecases/langgraph_agent/agentic_rag.py:415-416 | re.search finds the leftmost position from which "Used chunks: " is followed by a character other than ';', and None only when no such position exists |
| AnswerMetadata.RunEnd | multimodal_rag/usecases/langgraph_agent/agentic_rag.py:415 | the greedy group `[^;]+` stops at the first ';' after its start, or at the end of the text, and contains no ';' |
| AnswerMetadata.SplitJoinedIds | multimodal_rag/usecases/langgraph_agent/agentic_rag.py:297 | splitting ids joined by ", " (line 297) on "," (line 419) gives one piece per id, every piece but the first with a leading space, the last carrying any trailing text |
| AnswerMetadata.WithSuffixShape | multimodal_rag/usecases/langgraph_agent/agentic_rag.py:295-300 | an answer citing ids is followed by a blank line, "[Metadata: ", "Used chunks: ", the ids joined by ", ", and "]" |
| AnswerMetadata.NoEarlierMatch | multimodal_rag/usecases/langgraph_agent/agentic_rag.py:415-416 | when the answer itself does not contain "Used chunks: ", no occurrence starts before the one in the suffix |
| AnswerMetadata.MarkerInSuffix | multimodal_rag/usecases/langgraph_agent/agentic_rag.py:412 | an answer with the suffix written at line 300 always passes the "[Metadata:" test |
| AnswerMetadata.MatchInSuffix | multimodal_rag/usecases/langgraph_agent/agentic_rag.py:415-416 | the pattern matches at the suffix's own "Used chunks: " when the ids contain no ';' |
| AnswerMetadata.CaptureToEnd | multimodal_rag/usecases/langgraph_agent/agentic_rag.py:415-418 | when the leftmost match has no ';' after it, the group is the whole rest of the text |
| AnswerMetadata.CapturedFromSuffix | multimodal_rag/usecases/langgraph_agent/agentic_rag.py:415-418 | the group captured from an answer with the suffix of lines 295-300 is the joined ids followed by the closing "]" |
| AnswerMetadata.ParseOfGroup | multimodal_rag/usecases/langgraph_agent/agentic_rag.py:412-419 | once the marker is present and the group is known, the parsed ids are the group's comma-separated pieces, stripped |
| AnswerMetadata.ParseWithSuffix | multimodal_rag/usecases/langgraph_agent/agentic_rag.py:412-419 | for plain ids written into the suffix at lines 295-300 and an answer not mentioning "Used chunks: ", process_message reads back the cited ids in order, except that the last keeps the suffix's closing "]" |
| AnswerMetadata.StripPieces | multimodal_rag/usecases/langgraph_agent/agentic_rag.py:419 | stripping the split pieces gives the ids back, the last with "]" |
| ChunkManagement.Entry | multimodal_rag/frameworks/telegram_bot/chunk_manager.py:34-38 | the record stored for a chunk holds its text, its document id and the id it was cited under |
| ChunkManagement.EntryKeys | multimodal_rag/frameworks/telegram_bot/chunk_manager.py:34-38 | a stored record has exactly the keys "text", "document_id" and "chunk_id" |
| ChunkManagement.ZipLength | multimodal_rag/frameworks/telegram_bot/chunk_manager.py:33 | zip visits as many pairs as the shorter list has elements |
| ChunkManagement.StoredUpToKeys | multimodal_rag/frameworks/telegram_bot/chunk_manager.py:33-38 | storing pairs adds exactly the paired ids to the user's ids |
| ChunkManagement.StoredUpToKeepsOthers | multimodal_rag/frameworks/telegram_bot/chunk_manager.py:33-38 | an id that is not paired keeps its earlier record |
| ChunkManagement.StoredUpToLastWins | multimodal_rag/frameworks/telegram_bot/chunk_manager.py:33-38 | an id paired several times holds the record of the last chunk paired with it |
| ChunkManagement.ChunkManager.constructor | multimodal_rag/frameworks/telegram_bot/chunk_manager.py:12-14 | a new manager stores no user's chunks |
| ChunkManagement.ChunkManager.StoreChunks | multimodal_rag/frameworks/telegram_bot/chunk_manager.py:16-42 | with either list empty nothing changes; otherwise only the user's map changes, and it becomes the old one (or an empty one) with the zipped pairs stored in turn |
| ChunkManagement.ChunkManager.GetChunk | multimodal_rag/frameworks/telegram_bot/chunk_manager.py:44-55 | the record is returned exactly when the user and the id are both known, and None otherwise |
| ChunkManagement.ChunkManager.ClearUserChunks | multimodal_rag/frameworks/telegram_bot/chunk_manager.py:57-70 | reports whether the user had chunks, and afterwards the user has none while other users keep theirs |
| ChunkManagement.ChunkManager.GetUserChunkIds | multimodal_rag/frameworks/telegram_bot/chunk_manager.py:72-82 | lists every id stored for the user exactly once, and nothing else; an unknown user gets an empty list |
| ChunkManagement.DisplayedText | multimodal_rag/frameworks/telegram_bot/chunk_manager.py:100-102 | a text within the limit is shown whole; a longer one is cut to the limit and "..." is appended |
| ChunkManagement.FormatChunkContent | multimodal_rag/frameworks/telegram_bot/chunk_manager.py:84-108 | the display is the title with the chunk id, then the line with the document id in code style (or "Unknown"), then "**Content:**" and the cut text, and nothing else, each missing key read as its default |
| ChunkManagement.FormatStoredEntry | multimodal_rag/frameworks/telegram_bot/chunk_manager.py:96-108 | a record stored by store_chunks (lines 34-38) is displayed with its title and chunk id, then its own document id line, then its cut text |
| ChunkManagement.FormatEmptyRecord | multimodal_rag/frameworks/telegram_bot/chunk_manager.py:96-98 | a record with no keys is displayed with "Unknown" ids and "No content available" |
| ConversationManagement.TrimmedIsSuffix | multimodal_rag/frameworks/telegram_bot/conversation_manager.py:45-49 | trimming keeps the most recent messages, in order |
| ConversationManagement.TrimmedLength | multimodal_rag/frameworks/telegram_bot/conversation_manager.py:45-49 | for a positive limit the history is cut only when it is longer than the limit, and then to exactly the limit |
| ConversationManagement.TrimmedZeroKeepsAll | multimodal_rag/frameworks/telegram_bot/conversation_manager.py:46-49 | with a limit of zero the slice `[-0:]` is the whole list, so nothing is dropped |
| ConversationManagement.TrimmedEndsWithNew | multimodal_rag/frameworks/telegram_bot/conversation_manager.py:43-49 | for a non-negative limit the history after an addition ends with the new message |
| ConversationManagement.AppendedHistory | multimodal_rag/frameworks/telegram_bot/conversation_manager.py:40-49 | one addition leaves the old history's most recent messages followed by the new one, bounded by a positive limit |
| ConversationManagement.ConversationManager.constructor | multimodal_rag/frameworks/telegram_bot/conversation_manager.py:13-20 | a new manager has no histories and the given limit |
| ConversationManagement.ConversationManager.GetConversationHistory | multimodal_rag/frameworks/telegram_bot/conversation_manager.py:22-31 | the stored history, or an empty one for an unknown user |
| ConversationManagement.ConversationManager.AddMessage | multimodal_rag/frameworks/telegram_bot/conversation_manager.py:33-51 | only the user's history changes, and it becomes the old one (or an empty one) plus the message, trimmed to the limit |
| ConversationManagement.ConversationManager.AddUserMessage | multimodal_rag/frameworks/telegram_bot/conversation_manager.py:53-61 | adds a user-role message with the content |
| ConversationManagement.ConversationManager.AddAssistantMessage | multimodal_rag/frameworks/telegram_bot/conversation_manager.py:63-71 | adds an assistant-role message with the content |
| ConversationManagement.ConversationManager.ClearConversation | multimodal_rag/frameworks/telegram_bot/conversation_manager.py:73-86 | reports whether the user had a history and removes only that user's history |
| ConversationManagement.ConversationManager.GetActiveUsers | multimodal_rag/frameworks/telegram_bot/conversation_manager.py:88-94 | lists every user with a stored history exactly once |
| ConversationManagement.ConversationManager.GetConversationCount | multimodal_rag/frameworks/telegram_bot/conversation_manager.py:96-105 | the number of stored messages, zero for an unknown user |
| LegacyBot.AfterTurnShape | multimodal_rag/frameworks/telegram_bot_service.py:211-216 | after a turn at most ten messages are kept; they are the most recent ones in order, and the last two are the user's message and the reply |
| LegacyBot.TelegramBotService.constructor | multimodal_rag/frameworks/telegram_bot_service.py:48 | a new bot stores no histories |
| LegacyBot.TelegramBotService.HandleClear | multimodal_rag/frameworks/telegram_bot_service.py:171-183 | removes only the user's history and always confirms with the same reply |
| LegacyBot.TelegramBotService.HandleMessage | multimodal_rag/frameworks/telegram_bot_service.py:185-226 | the agent is asked with the stored history; on success only this user's history changes, to the last ten of the old history plus the turn, and the answer is sent; on failure nothing changes and the apology is sent |
| Markdown.EscapeChar | multimodal_rag/frameworks/telegram_bot/utils.py:11-16 | once all passes have run, an underscore has become "-", each of '*', '`' and '[' has a backslash before it, and every other character is itself |
| Markdown.EscapeMarkdown | multimodal_rag/frameworks/telegram_bot/utils.py:1-18 | the four whole-text replacements, run in order, give the character-by-character escaping of the input |
| Markdown.ReplaceCharConcat | multimodal_rag/frameworks/telegram_bot/utils.py:14-16 | one str.replace of a single character acts on the two halves of a text independently |
| Markdown.UnderscorePass | multimodal_rag/frameworks/telegram_bot/utils.py:14 | the underscore replacement yields the first stage of the per-character escaping |
| Markdown.BackslashPass | multimodal_rag/frameworks/telegram_bot/utils.py:15-16 | each backslash pass adds a backslash only before the input's own occurrences of its character, never before a backslash an earlier pass inserted |
| Markdown.EscapedHasNoUnderscore | multimodal_rag/frameworks/telegram_bot/utils.py:14 | escaped text contains no underscore |
| Markdown.EscapedLength | multimodal_rag/frameworks/telegram_bot/utils.py:12-16 | the escaped text is longer than the input by exactly one character per '*', '`' or '[' |
| Markdown.EscapedIdentity | multimodal_rag/frameworks/telegram_bot/utils.py:12-16 | text with none of '_', '*', '`', '[' comes back unchanged, existing backslashes included |
| Markdown.EscapedConcat | multimodal_rag/frameworks/telegram_bot/utils.py:12-16 | escaping a concatenation is concatenating the escapings, so every character is escaped on its own and the order is kept |
| ResponseFormatting.LastBreak | multimodal_rag/frameworks/telegram_bot/response_formatter.py:233-237 | the larger of the two rfind results is the last '.' or newline, or -1 when there is none |
| ResponseFormatting.TruncateText | multimodal_rag/frameworks/telegram_bot/response_formatter.py:226-241 | a text that fits is returned unchanged; a longer one ends with "..." and, for a limit of at least 3, fits the limit and starts with a prefix of the text; the legacy bot repeats this helper at frameworks/telegram_bot_service.py:356-371 |
| ResponseFormatting.TruncateCutPoint | multimodal_rag/frameworks/telegram_bot/response_formatter.py:232-241 | the cut is after the last break within the first max - 3 characters when that break lies past 80% of the limit, and at exactly max - 3 characters otherwise |
| ResponseFormatting.TruncateIdempotent | multimodal_rag/frameworks/telegram_bot/response_formatter.py:226-241 | truncating an already truncated text changes nothing |
| ResponseFormatting.Flush | multimodal_rag/frameworks/telegram_bot/response_formatter.py:257-284 | after a flush the piece being built is empty; an empty one emits nothing, a non-empty one adds exactly one piece after the earlier ones |
| ResponseFormatting.SplitText | multimodal_rag/frameworks/telegram_bot/response_formatter.py:243-286 | the paragraph loop with its nested sentence loop computes exactly the pieces of the paragraph and sentence splitting; the legacy bot repeats this helper at frameworks/telegram_bot_service.py:373-416 |
| ResponseFormatting.AddSentences | multimodal_rag/frameworks/telegram_bot/response_formatter.py:264-274 | the sentence loop leaves the emitted pieces and the current piece that the sentence-by-sentence definition gives |
| ResponseFormatting.FlushFits | multimodal_rag/frameworks/telegram_bot/response_formatter.py:257-259 | flushing keeps every piece within the limit |
| ResponseFormatting.SentencesKeepFit | multimodal_rag/frameworks/telegram_bot/response_formatter.py:264-274 | when every sentence fits, the sentence loop keeps every piece within the limit |
| ResponseFormatting.ParagraphKeepsFit | multimodal_rag/frameworks/telegram_bot/response_formatter.py:254-281 | one paragraph step keeps every piece within the limit when an over-long paragraph's sentences fit |
| ResponseFormatting.ParagraphsKeepFit | multimodal_rag/frameworks/telegram_bot/response_formatter.py:254-281 | the whole paragraph loop keeps every piece within the limit |
| ResponseFormatting.SplitPiecesFit | multimodal_rag/frameworks/telegram_bot/response_formatter.py:243-286 | a text that fits is one piece; otherwise, when every sentence of every over-long paragraph fits, every piece fits the limit |
| ResponseFormatting.LongSentenceEmittedWhole | multimodal_rag/frameworks/telegram_bot/response_formatter.py:264-274 | a sentence longer than the limit is emitted whole, so a text without breaks comes back as one piece over the limit |
| ResponseFormatting.ChunkButton | multimodal_rag/frameworks/telegram_bot/response_formatter.py:92-94 | a chunk's button is labelled with the page emoji and the id, and sends the id back when pressed |
| ResponseFormatting.ButtonsFor | multimodal_rag/frameworks/telegram_bot/response_formatter.py:89-95 | one button per id, in order |
| ResponseFormatting.Layout | multimodal_rag/frameworks/telegram_bot/response_formatter.py:89-95 | the ids are laid out in ceil(n / 2) rows |
| ResponseFormatting.CreateChunkButtons | multimodal_rag/frameworks/telegram_bot/response_formatter.py:73-97 | no keyboard exactly when the id list is missing or empty; otherwise the nested loops build the two-per-row layout |
| ResponseFormatting.LayoutRowSizes | multimodal_rag/frameworks/telegram_bot/response_formatter.py:89-91 | every row has one or two buttons, and only the last row can have one |
| ResponseFormatting.LayoutCons | multimodal_rag/frameworks/telegram_bot/response_formatter.py:89-95 | with more than two ids the first row holds the first two and the rest is laid out the same way |
| ResponseFormatting.LayoutFlatten | multimodal_rag/frameworks/telegram_bot/response_formatter.py:89-95 | read row by row, the buttons are the ids' buttons in order, so no id is lost, repeated or reordered |
| DoclingImport.ConvertProvenance | multimodal_rag/entities/utils.py:52-68 | an element without "prov" gets an empty list; otherwise the loop visits the entries and keeps, in order, one provenance per entry that has a "bbox", failing where Python would raise |
| DoclingImport.KeptProvsAppend | multimodal_rag/entities/utils.py:54-68 | entries are converted independently, so the list for a concatenation of entries is the concatenation of their lists |
| DoclingImport.KeptProvsLength | multimodal_rag/entities/utils.py:54-68 | for dictionary entries the list has one provenance per entry with a "bbox" and is never longer than the entries |
| DoclingImport.KeptCellsOfBoxed | multimodal_rag/entities/utils.py:171-194 | for dictionary entries there is one cell per entry with a "bbox", in order, each built from that entry |
| DoclingImport.ProvOfConverterEntry | multimodal_rag/entities/utils.py:56-67 | an entry holding only an l/t/r/b box gives that box with the TOPLEFT origin, page 1 and character span [0, 0] |
| DoclingImport.ProvWithoutBoxDropped | multimodal_rag/entities/utils.py:55 | an entry without a bounding box is dropped |
| DoclingImport.ParentRefCases | multimodal_rag/entities/utils.py:78-80 | a missing, null or empty parent gives no reference; a parent dictionary with a string "$ref" gives that reference |
| DoclingImport.RefsOfList | multimodal_rag/entities/utils.py:81-83 | a list of dictionaries gives one reference per entry, in order, "" where the entry has no "$ref" |
| DoclingImport.TextOf | multimodal_rag/entities/utils.py:70-84 | the i-th text element is numbered "<document id>_text_<i>" and carries the document id |
| DoclingImport.TextWith | multimodal_rag/entities/utils.py:70-84 | a text element carries the provenance list built for it |
| DoclingImport.PictureOf | multimodal_rag/entities/utils.py:122-138 | the i-th picture element is numbered "<document id>_picture_<i>" and carries the document id |
| DoclingImport.PictureWith | multimodal_rag/entities/utils.py:122-138 | a picture element carries the provenance list built for it |
| DoclingImport.CellWithoutBoxDropped | multimodal_rag/entities/utils.py:171-172 | a table cell entry without a bounding box is dropped |
| DoclingImport.TableOf | multimodal_rag/entities/utils.py:203-221 | the i-th table element is numbered "<document id>_table_<i>" and carries the document id |
| DoclingImport.TableWith | multimodal_rag/entities/utils.py:203-221 | a table element carries the provenance list built for it |
| DoclingImport.NullImageFails | multimodal_rag/entities/utils.py:113-120 | a picture whose "image" key holds null makes the conversion fail, because the key is checked for presence and its value is then read with get |
| DoclingImport.NullTableDataFails | multimodal_rag/entities/utils.py:167-171 | likewise a table whose "data" key holds null |
| DoclingImport.TextsShape | multimodal_rag/entities/utils.py:46-85 | when the text loop succeeds it gives one element per item, the k-th built from the k-th item, numbered k, with the document id |
| DoclingImport.PicturesShape | multimodal_rag/entities/utils.py:88-139 | the same for the picture loop |
| DoclingImport.TablesShape | multimodal_rag/entities/utils.py:142-222 | the same for the table loop |
| DoclingImport.ElementIdsDistinct | multimodal_rag/entities/utils.py:71 | elements of one kind at different positions get different ids |
| DoclingImport.NatToStringInjectiveAll | multimodal_rag/entities/utils.py:42 | different page numbers give different string keys |
| DoclingImport.Header | multimodal_rag/entities/utils.py:32-43 | the header's pages are exactly the converter's pages, each keyed by its number as a string |
| DoclingImport.ConvertTexts | multimodal_rag/entities/utils.py:46-85 | the text loop gives exactly the element-by-element conversion, or fails when one element fails |
| DoclingImport.ConvertPictures | multimodal_rag/entities/utils.py:88-139 | the same for pictures |
| DoclingImport.ConvertTables | multimodal_rag/entities/utils.py:142-222 | the same for tables |
| DoclingImport.CreateDocumentEntities | multimodal_rag/entities/utils.py:17-224 | the conversion succeeds exactly when all three loops succeed, and then returns the header and the three element lists |
| DoclingImport.NoTextsAfterFailure | multimodal_rag/entities/utils.py:47-85 | once a text element fails, the whole loop fails |
| DoclingImport.NoPicturesAfterFailure | multimodal_rag/entities/utils.py:89-139 | once a picture element fails, the whole loop fails |
| DoclingImport.NoTablesAfterFailure | multimodal_rag/entities/utils.py:143-222 | once a table element fails, the whole loop fails |
| DoclingImport.NoProvsAfterFailure | multimodal_rag/entities/utils.py:54-68 | once a provenance entry fails, the whole provenance loop fails |
| Documents.EncodeEach | multimodal_rag/entities/document.py:80 | a list of entities is written as a list of as many dictionaries |
| Documents.DecodeEach | multimodal_rag/entities/document.py:90-93 | a decoded list, when decoding succeeds, has one element per stored entry |
| Documents.EachRoundTrip | multimodal_rag/entities/document.py:90-93 | when each element decodes back from its own encoding, so does the list, in order |
| Documents.DecodeEachAll | multimodal_rag/entities/document.py:90-93 | when every entry is a dictionary that decodes, the list decodes, entry k giving element k |
| Documents.BoundingBoxRoundTrip | multimodal_rag/entities/document.py:26-34 | a bounding box written with its long names reads back as itself |
| Documents.BoundingBoxPrefersLongNames | multimodal_rag/entities/document.py:29-33 | the long side names are read when present, and the origin defaults to TOPLEFT |
| Documents.BoundingBoxShortNames | multimodal_rag/entities/document.py:29-33 | without the long names the converter's one-letter names are read |
| Documents.BoundingBoxEmpty | multimodal_rag/entities/document.py:29-33 | an empty box reads as all sides 0 with the TOPLEFT origin |
| Documents.ProvenanceRoundTrip | multimodal_rag/entities/document.py:44-52 | a provenance entry reads back as itself |
| Documents.ProvenanceEmpty | multimodal_rag/entities/document.py:47-51 | an empty entry reads as page 1, the empty box and character span [0, 0] |
| Documents.ProvListRoundTrip | multimodal_rag/entities/document.py:80-93 | a provenance list written and read back is the same list |
| Documents.OriginRoundTrip | multimodal_rag/entities/document.py:339-346 | a stored origin, present or absent, reads back as itself |
| Documents.TextScalarsRead | multimodal_rag/entities/document.py:70-99 | the ids, the text and the label written for a text element are read back unchanged |
| Documents.TextOptionalsRead | multimodal_rag/entities/document.py:76-102 | the level, the original text and the parent reference, null or not, are read back unchanged |
| Documents.TextListsRead | multimodal_rag/entities/document.py:79-104 | the provenance list and the child references are read back unchanged |
| Documents.TextRoundTrip | multimodal_rag/entities/document.py:68-105 | reading a text element back from what to_elastic_data writes gives the same element |
| Documents.TextEmptyHit | multimodal_rag/entities/document.py:87-105 | a hit without "text" gives empty ids and text, the label "text" and nothing else |
| Documents.ImageRoundTrip | multimodal_rag/entities/document.py:117-127 | image data reads back as itself |
| Documents.OptImageRoundTrip | multimodal_rag/entities/document.py:145-191 | a picture's image, present or absent, reads back as itself |
| Documents.PictureScalarsRead | multimodal_rag/entities/document.py:145-191 | the ids, the label and the parent reference written for a picture are read back unchanged |
| Documents.PictureListsRead | multimodal_rag/entities/document.py:145-191 | the captions, references, footnotes, annotations and child references are read back unchanged |
| Documents.PictureNestedRead | multimodal_rag/entities/document.py:145-191 | the provenance list and the image, present or absent, are read back unchanged |
| Documents.PictureRoundTrip | multimodal_rag/entities/document.py:145-191 | reading a picture back from what to_elastic_data writes gives the same picture, with or without an image |
| Documents.PictureEmptyHit | multimodal_rag/entities/document.py:164-191 | a hit without "picture" gives empty ids, the label "picture", no image and empty lists |
| Documents.CellSpansRead | multimodal_rag/entities/document.py:210-225 | a cell's spans and offsets are read back unchanged |
| Documents.CellRestRead | multimodal_rag/entities/document.py:210-225 | a cell's box, text and header flags are read back unchanged |
| Documents.CellRoundTrip | multimodal_rag/entities/document.py:210-225 | a table cell reads back as itself |
| Documents.EncodeGrid | multimodal_rag/entities/document.py:244-249 | a grid is written as one list per row |
| Documents.GridRoundTrip | multimodal_rag/entities/document.py:244-249 | a grid reads back as itself |
| Documents.TableDataRoundTrip | multimodal_rag/entities/document.py:237-249 | table data reads back as itself |
| Documents.OptTableDataRoundTrip | multimodal_rag/entities/document.py:267-313 | a table's data, present or absent, reads back as itself |
| Documents.TableScalarsRead | multimodal_rag/entities/document.py:267-313 | the ids, the label and the parent reference written for a table are read back unchanged |
| Documents.TableListsRead | multimodal_rag/entities/document.py:267-313 | the captions, references, footnotes, annotations and child references are read back unchanged |
| Documents.TableNestedRead | multimodal_rag/entities/document.py:267-313 | the provenance list and the table data, present or absent, are read back unchanged |
| Documents.TableRoundTrip | multimodal_rag/entities/document.py:267-313 | reading a table back from what to_elastic_data writes gives the same table, with or without cell data |
| Documents.TableEmptyHit | multimodal_rag/entities/document.py:286-313 | a hit without "table" gives empty ids, the label "table", no data and empty lists |
| Documents.DocumentScalarsRead | multimodal_rag/entities/document.py:330-359 | the origin, schema name, version and name are read back unchanged |
| Documents.DocumentDictsRead | multimodal_rag/entities/document.py:330-359 | the furniture, body and pages are read back unchanged |
| Documents.DocumentListsRead | multimodal_rag/entities/document.py:330-359 | the groups, key-value items and form items are read back unchanged |
| Documents.DocumentRoundTrip | multimodal_rag/entities/document.py:330-359 | reading a document back from what to_elastic_data writes gives the same document, with or without an origin |
| Documents.EncodeChunk | multimodal_rag/entities/document.py:383-395 | a chunk is written under "chunk", and its vector is written exactly when it is a non-empty list |
| Documents.MetaRoundTrip | multimodal_rag/entities/document.py:439-456 | chunk metadata, written at line 389, reads back as itself |
| Documents.ChunkFieldsRead | multimodal_rag/entities/document.py:459-463 | the chunk id (null included), text, document id and metadata are read back unchanged |
| Documents.ChunkVectorRead | multimodal_rag/entities/document.py:392-393 | the stored vector is the chunk's vector when that is non-empty, and absent otherwise |
| Documents.ChunkRoundTrip | multimodal_rag/entities/document.py:383-464 | reading a chunk back gives the same chunk, except that an empty vector, which is not written, comes back as None |
| Documents.ChunkEmptyHit | multimodal_rag/entities/document.py:434-464 | a hit without "chunk" gives the id "", empty text and document id, empty metadata and no vector |
| Documents.FromConverterChunk | multimodal_rag/entities/document.py:397-431 | a converter chunk becomes a chunk with the id "<document id>_chunk_<index>", the converter's text, headings and dumped items, and the given vector |
| Documents.ChunkIdsDistinct | multimodal_rag/entities/document.py:406 | two chunks of one document with different non-negative indices get different ids |
| DocumentIndexing.ResolveId | multimodal_rag/usecases/document_indexing.py:43-44 | the caller's id is used when given, a fresh one otherwise |
| DocumentIndexing.IndexDocument | multimodal_rag/usecases/document_indexing.py:36-51 | the repository receives the document unchanged, under the caller's id or a fresh one |
| DocumentIndexing.IndexChunk | multimodal_rag/usecases/document_indexing.py:53-75 | only the vector can change; the chunk is embedded exactly when embedding is asked for, a service is configured and the chunk has no vector; a failing service call propagates; the repository sees the updated chunk under the caller's id or a fresh one |
| DocumentIndexing.BatchTexts | multimodal_rag/usecases/document_indexing.py:91-94 | a batch holds the texts of the next sixty chunks, or of all that remain when fewer are left, in order |
| DocumentIndexing.Assigned | multimodal_rag/usecases/document_indexing.py:98-99 | assigning a batch's vectors keeps the number of chunks |
| DocumentIndexing.EmbedFromStep | multimodal_rag/usecases/document_indexing.py:92-99 | a successful batch is that batch's call followed by the run over the updated chunks from the next batch on |
| DocumentIndexing.EmbedFromKeepsOthers | multimodal_rag/usecases/document_indexing.py:92-99 | embedding keeps the list's length and changes only vectors, and only from the starting batch on, even when a call fails |
| DocumentIndexing.AssignedKeepsTexts | multimodal_rag/usecases/document_indexing.py:94-99 | assigning vectors leaves every batch's texts as they were |
| DocumentIndexing.EmbedFromCalls | multimodal_rag/usecases/document_indexing.py:92-96 | the service is called once per batch, in order, call b with the texts of the sixty chunks from 60b on; a run without error has covered every chunk |
| DocumentIndexing.FirstBatchSlots | multimodal_rag/usecases/document_indexing.py:98-99 | the first batch's chunks get their vectors from that batch's own answer |
| DocumentIndexing.LaterBatchSlot | multimodal_rag/usecases/document_indexing.py:94-99 | a later batch's chunks read the same whether or not the first batch's vectors were assigned |
| DocumentIndexing.FirstBatchPlaced | multimodal_rag/usecases/document_indexing.py:92-99 | the vectors of the first batch survive the later batches |
| DocumentIndexing.LaterBatchPlaced | multimodal_rag/usecases/document_indexing.py:92-99 | a later batch's chunks end up as the rest of the run leaves them |
| DocumentIndexing.EmbedFromPlaces | multimodal_rag/usecases/document_indexing.py:92-99 | when no call fails, the chunk at offset j of batch b gets element j of that batch's answer, and chunks beyond a short answer keep their vector, as zip does |
| DocumentIndexing.EmbedFromLength | multimodal_rag/usecases/document_indexing.py:92-99 | embedding never changes the number of chunks |
| DocumentIndexing.AssignBatch | multimodal_rag/usecases/document_indexing.py:98-99 | the in-place zip gives the chunks with the batch's vectors assigned |
| DocumentIndexing.EmbedOneBatch | multimodal_rag/usecases/document_indexing.py:93-99 | one batch sends the texts of the sixty chunks from i and either assigns the answer's vectors or reports the error with the chunks untouched |
| DocumentIndexing.EmbedInBatches | multimodal_rag/usecases/document_indexing.py:91-99 | the batch loop leaves the chunks, the calls and the error of the batch-by-batch run |
| DocumentIndexing.BulkIndexDocumentWithChunks | multimodal_rag/usecases/document_indexing.py:77-107 | with embedding on and a service the chunks are embedded in batches of sixty, in place; a failing call propagates and leaves the earlier batches embedded; otherwise the repository gets the whole chunk list under the caller's id or a fresh one |
| ElasticsearchAdaptor.FilterClauseRead | multimodal_rag/adaptors/elasticsearch/elasticsearch_adaptor.py:616-625 | each filter entry becomes one single-key clause that constrains its own field to exactly the given value: a dictionary as a field clause, a list as a terms clause, anything else as a term clause |
| ElasticsearchAdaptor.FilterClausesEach | multimodal_rag/adaptors/elasticsearch/elasticsearch_adaptor.py:612-627 | the filter list has one clause per filter entry, in entry order, each built from that entry alone |
| ElasticsearchAdaptor.BuildFilters | multimodal_rag/adaptors/elasticsearch/elasticsearch_adaptor.py:612-627 | the loop's list is the per-entry clause list above |
| ElasticsearchAdaptor.Refilter | multimodal_rag/adaptors/elasticsearch/elasticsearch_adaptor.py:601-605 | replacing the vector query's filter leaves the other vector query fields as they were |
| ElasticsearchAdaptor.BuildChunkSearchQuery | multimodal_rag/adaptors/elasticsearch/elasticsearch_adaptor.py:534-610 | the step-by-step construction, including the hybrid case that deletes the text query, yields the query parts whose properties the next three lemmas state |
| ElasticsearchAdaptor.ChunkSearchQueryModes | multimodal_rag/adaptors/elasticsearch/elasticsearch_adaptor.py:568-608 | a vector gives a vector query only, with k equal to the size and ten times as many candidates; text alone gives a text query only; neither gives no query parts |
| ElasticsearchAdaptor.ChunkSearchQueryRestricts | multimodal_rag/adaptors/elasticsearch/elasticsearch_adaptor.py:539-605 | in every mode the query first requires the chunk field to exist and requires every user filter |
| ElasticsearchAdaptor.TextQueryRanks | multimodal_rag/adaptors/elasticsearch/elasticsearch_adaptor.py:540-559 | a text-only query ranks matches in the chunk text with boost 1.0 and in the headings with boost 1.5 |
| ElasticsearchAdaptor.SearchParamsShape | multimodal_rag/adaptors/elasticsearch/elasticsearch_adaptor.py:385-398 | the search call carries a vector query exactly when the request has a vector, a text query exactly when there is text and no vector, and the requested size |
| ElasticsearchAdaptor.ParseHits | multimodal_rag/adaptors/elasticsearch/elasticsearch_adaptor.py:402-410 | a readable hit list gives one search hit per raw hit |
| ElasticsearchAdaptor.ParseHitsEach | multimodal_rag/adaptors/elasticsearch/elasticsearch_adaptor.py:402-410 | the hit list can be read exactly when every hit can, and then the k-th search hit is the k-th raw hit read on its own |
| ElasticsearchAdaptor.ParseHitsFailFrom | multimodal_rag/adaptors/elasticsearch/elasticsearch_adaptor.py:402-420 | one unreadable hit makes the whole hit list unreadable, so the search falls back to no hits |
| ElasticsearchAdaptor.SearchChunks | multimodal_rag/adaptors/elasticsearch/elasticsearch_adaptor.py:377-420 | a failed search call gives no hits, total 0 and no best score; otherwise the response is the search result read in full, or that empty response when the result cannot be read |
| ElasticsearchAdaptor.ElementResponse | multimodal_rag/adaptors/elasticsearch/elasticsearch_adaptor.py:248-271 | the response keeps the element id, succeeds exactly when the store reports the element created or updated, and carries the error text when the call failed |
| ElasticsearchAdaptor.IndexText | multimodal_rag/adaptors/elasticsearch/elasticsearch_adaptor.py:248-271 | the text is sent under its own id to the requested or default index; success exactly when the store reports it created or updated |
| ElasticsearchAdaptor.IndexPicture | multimodal_rag/adaptors/elasticsearch/elasticsearch_adaptor.py:273-296 | the picture is sent under its own id to the requested or default index; success exactly when the store reports it created or updated |
| ElasticsearchAdaptor.IndexTable | multimodal_rag/adaptors/elasticsearch/elasticsearch_adaptor.py:298-321 | the table is sent under its own id to the requested or default index; success exactly when the store reports it created or updated |
| ElasticsearchAdaptor.IndexDocument | multimodal_rag/adaptors/elasticsearch/elasticsearch_adaptor.py:188-219 | the document is sent under the given id; success exactly when the store reports it created or updated; a refused request reports the id, the error, the size hint for status 413 and the status |
| ElasticsearchAdaptor.IndexChunk | multimodal_rag/adaptors/elasticsearch/elasticsearch_adaptor.py:221-246 | as written, every chunk request fails before the store is called, with the encoder's unexpected-keyword error |
| ElasticsearchAdaptor.IndexChunkIntended | multimodal_rag/adaptors/elasticsearch/elasticsearch_adaptor.py:221-246 | as intended, the chunk's own encoding is sent under the chunk id and success is what the store reports |
| ElasticsearchAdaptor.IndexChunkNeverSucceeds | multimodal_rag/adaptors/elasticsearch/elasticsearch_adaptor.py:232 | even when the store would create the chunk, the request as written fails and the intended one succeeds |
| ElasticsearchConfig.Validate | multimodal_rag/adaptors/elasticsearch/elasticsearch_config.py:7-28 | a configuration is accepted exactly when the default search size lies in 1..100 and the maximum in 1..1000, and is then kept as given |
| ElasticsearchConfig.DefaultsValid | multimodal_rag/adaptors/elasticsearch/elasticsearch_config.py:11-28 | the default settings pass validation |
| ElasticsearchConfig.GetEsConfig | multimodal_rag/adaptors/elasticsearch/elasticsearch_config.py:30-45 | hosts and certificate checking always; credentials exactly when both user name and password are non-empty; the SSL flag exactly when SSL is on; the CA bundle exactly when SSL is on and a bundle is given; no other key |
| ElasticsearchConfig.IndexSettingsEcho | multimodal_rag/adaptors/elasticsearch/elasticsearch_config.py:47-62 | the index settings carry the configured shard and replica counts |
| GenAIBaseService.LowerIdempotent | multimodal_rag/frameworks/google_genai_base_service.py:126 | lower-casing the error text a second time changes nothing |
| GenAIBaseService.RateLimitIgnoresCase | multimodal_rag/frameworks/google_genai_base_service.py:126-130 | an error text and its lower-cased form are classified alike: the rate-limit test ignores case |
| GenAIBaseService.CappedDoubling | multimodal_rag/frameworks/google_genai_base_service.py:149-151 | the fallback backoff lies between one and sixty seconds |
| GenAIBaseService.BackoffSchedule | multimodal_rag/frameworks/google_genai_base_service.py:144-151 | without a delay in the error the pause doubles from one second and is capped at sixty from the seventh attempt on; a delay found in the error is used as it is |
| GenAIBaseService.KeyPassRetry | multimodal_rag/frameworks/google_genai_base_service.py:143-156 | an ordinary failure that is not the last attempt is followed by its backoff pause and the rest of the pass on the same key |
| GenAIBaseService.KeyPassCalls | multimodal_rag/frameworks/google_genai_base_service.py:117-156 | a pass on one key makes at most max_retries + 1 calls (none when the retry count is negative, at least one otherwise) and pauses once between consecutive calls, each pause being the backoff for the error just raised |
| GenAIBaseService.KeyPassStops | multimodal_rag/frameworks/google_genai_base_service.py:117-142 | every call of a pass but the last raised an error that was not a rate limit; the pass has a value exactly when its last call returned one; a last call that raised was a rate limit or the last allowed attempt |
| GenAIBaseService.RateLimitEndsPass | multimodal_rag/frameworks/google_genai_base_service.py:132-137 | a rate-limit error ends the pass on that key at once, with no value, however many retries were left |
| GenAIBaseService.TryKey | multimodal_rag/frameworks/google_genai_base_service.py:117-156 | the attempt loop's value, call count and pauses are those of the pass specification |
| GenAIBaseService.NextKey | multimodal_rag/frameworks/google_genai_base_service.py:72 | the next key index stays in the ring and wraps from the last key to key 0 |
| GenAIBaseService.RunRoundRobin | multimodal_rag/frameworks/google_genai_base_service.py:112-159 | keys are tried round-robin from the key in use, each next key being the one after the previous round the ring; a run still trying has made exactly as many passes as its budget |
| GenAIBaseService.SingleKeyEnds | multimodal_rag/frameworks/google_genai_base_service.py:158-163 | with a single key the loop ends within one pass, with the value or with the error naming the operation and one key, after at most max_retries + 1 calls |
| GenAIBaseService.SeveralKeysNeverFail | multimodal_rag/frameworks/google_genai_base_service.py:62-88 | with several keys switching always succeeds, so the all-keys-failed error is never raised |
| GenAIBaseService.GenAIBaseService.constructor | multimodal_rag/frameworks/google_genai_base_service.py:49-55 | a single key becomes a one-key ring, a list is kept as given, the first key is in use and the retry count is stored |
| GenAIBaseService.GenAIBaseService.SwitchToNextApiKey | multimodal_rag/frameworks/google_genai_base_service.py:62-88 | with one key nothing switches and nothing changes; otherwise the next key round the ring is put in use, and a 60-second pause is due exactly when that is key 0 |
| GenAIBaseService.GenAIBaseService.PassAndSwitch | multimodal_rag/frameworks/google_genai_base_service.py:113-159 | one pass plus the switch either ends the run with the outcome the run specification gives or leaves the service on the key the specification continues from, with the calls and pauses it took |
| GenAIBaseService.GenAIBaseService.RetryAcrossKeys | multimodal_rag/frameworks/google_genai_base_service.py:112-163 | the outcome, the calls, the pauses and the key left in use are exactly those of the run specification |
| GenAIBaseService.GenAIBaseService.ExecuteWithRetry | multimodal_rag/frameworks/google_genai_base_service.py:90-163 | the retry loop with the service's own retry count and case-insensitive rate-limit test behaves as the run specification, so the properties proved of it above hold |
| ChunkIdMigration.Stamped | scripts/migrate_chunk_ids.py:103-107 | a source can be stamped exactly when it has a dictionary-valued chunk field; the stamped source carries the document id as its chunk id and otherwise keeps every field and every chunk field |
| ChunkIdMigration.StampIdempotent | scripts/migrate_chunk_ids.py:107 | stamping an already stamped source changes nothing, so the migration can run again over documents it updated |
| ChunkIdMigration.UpdateChunkWithId | scripts/migrate_chunk_ids.py:89-124 | the update succeeds exactly when the source can be stamped and the store, called with the stamped source under the same id, reports it created or updated; a missing chunk field or a raising store call gives false |
| ChunkIdMigration.PreparedAccounts | scripts/migrate_chunk_ids.py:160-179 | every document of a batch either yields an action or is counted as failed, never both |
| ChunkIdMigration.PreparedStamped | scripts/migrate_chunk_ids.py:170-173 | each action targets the migration's index and carries a document of the batch stamped with its own id |
| ChunkIdMigration.PrepareActions | scripts/migrate_chunk_ids.py:160-179 | the preparation loop yields one action per stampable document, in batch order, and counts the others as failed |
| ChunkIdMigration.BatchAccounts | scripts/migrate_chunk_ids.py:156-200 | when the bulk call reports a success and a failure count for all its actions, each document of the batch is counted exactly once |
| ChunkIdMigration.BatchCountsAsWritten | scripts/migrate_chunk_ids.py:185-198 | as written, a bulk call reporting failures adds its successes and then, after taking the length of an integer raises, all its actions as failures; in every other case the counts are the intended ones |
| ChunkIdMigration.AsWrittenCountsTwice | scripts/migrate_chunk_ids.py:193-198 | as written, a batch whose bulk call reports both successes and failures is counted more than once |
| ChunkIdMigration.AsWrittenOvercountExample | scripts/migrate_chunk_ids.py:193-198 | two stampable chunks with one reported success and one reported failure count as one success and two failures as written, and as one of each as intended |
| ChunkIdMigration.ProcessBatch | scripts/migrate_chunk_ids.py:156-200 | the batch's counts are the unstampable documents plus the bulk call's reported counts, every action counted failed when the call raises, and no call without actions |
| ChunkIdMigration.BatchesAccount | scripts/migrate_chunk_ids.py:139-154 | when the bulk call accounts for all its actions, the migration's successes and failures add up to the number of chunks |
| ChunkIdMigration.BatchesFromStep | scripts/migrate_chunk_ids.py:141-145 | the counts from a position on are those of the batch starting there plus those of the batches after it |
| ChunkIdMigration.BatchAsWrittenExcess | scripts/migrate_chunk_ids.py:185-198 | as written, a batch's successes are the intended ones, and its failures exceed the intended ones by its successes exactly when the bulk call reports failures |
| ChunkIdMigration.AsWrittenTotals | scripts/migrate_chunk_ids.py:139-198 | the totals the script returns as written have the intended successes, and failures exceeding the intended ones by the successes of the batches that reported failures, so they add up to more than the number of chunks whenever such a batch had successes |
| ChunkIdMigration.BulkUpdateChunks | scripts/migrate_chunk_ids.py:126-154 | a zero batch size raises; a negative one makes no batch; otherwise the counts are summed over consecutive batches; the total is always the number of chunks |

## Left out

- I/O is not modelled: network calls to Elasticsearch, Gemini and Telegram, and file reading. Each appears only as an oracle parameter, with no assumption about what it returns.
- LangGraph's recursion limit is modelled as a fuel count, so a run that would go on for ever shows up as the recursion-limit error once the fuel is spent.
- AgentWorkflow.ProcessMessage: the LangGraph runtime (`StateGraph`, `ToolNode`, `tools_condition`, streaming) is replaced by the explicit transition function of `AgentGraph`.
- GenAIBaseService.GenAIBaseService.ExecuteWithRetry: bounded by `fuel` passes over the keys. With several keys the Python loop can run for ever; the model shows this by `SeveralKeysNeverFail` and reports `StillTrying` when the fuel is spent.
- GenAIBaseService.GenAIBaseService.constructor: requires a non-empty key list. With an empty list the Python constructor raises IndexError while building the client.
- The retry-delay parser `parse_retry_delay_from_error` is a parameter. It is regular-expression and float parsing over an exception's text.
- Looking up the operation method by name (`getattr`) is not modelled. The operation is a call parameter, indexed by the call number.
- `time.sleep` and client construction are not modelled. The pauses are returned as a list of delays, and the client is represented by the key in use.
- Python's salted `hash` is an uninterpreted parameter (`string -> int`), with no stability across processes assumed.
- Floats are not modelled. Embedding vectors and bounding-box coordinates are carried as opaque `real` values and never computed with. The 0.8 factor in caption truncation is `5 * cut > 4 * max` over integers.
- Strings.StrRepr: non-printable characters above U+00FF (such as U+200B or U+2028) are written as they are, where Python writes a `\u` or `\U` escape; the printable set beyond Latin-1 is Unicode data not modelled here.
- Json.AsInt: an integer field holding an integral float (612.0) or a numeric string ("612") is rejected, where pydantic's lax mode accepts it; the decoders then return None for such hits.
- Documents.PyStrOf: a uri that is a number, list or dictionary is rejected, where `str()` would convert it.
- DoclingImport.Iter: a non-empty string or a dictionary where a list is expected (`prov`, `table_cells`) is rejected, where Python would iterate its characters or keys.
- AgentNodes.JoinedIds: a dictionary under "chunk_ids_used" gives the apology, where Python joins its keys in insertion order; key order is not modelled.
- AgentNodes.StructuredAnswer: an "answer" that is not a string gives the apology. Python formats a list answer without ids unchanged, and extends it by the characters of the metadata suffix otherwise.
- The agent's picture lookup is the oracle `getPicture`; whatever it returns, the scan never calls it for the dictionary items chunks carry.
- AgentExtractor.RepeatSearch: only a string query is searched again. A truthy query of another type (a number, a list, a dictionary) adds nothing, where Python passes it on to `embed_single` and `search_chunks`; the embedding port takes strings only.
- AgentNodes.DecideReply: message content is a string only. A reply whose "text" is a list gives the apology, where Python builds a model message with that list as its content.
- AgentNodes.DecideCases: states the text case for a string "text" only, for the same reason as DecideReply.
- Lower-casing is ASCII only; other scripts' case mappings are not modelled.
- Dictionary key order is not modelled. ConversationManagement.ConversationManager.GetActiveUsers and ChunkManagement.ChunkManager.GetUserChunkIds promise each key once but not the insertion order Python gives.
- The agent's repository port returns a list of chunks, as the agent uses it. The adaptor's own `search_chunks` takes a search request and returns a search response, and is modelled separately in `ElasticsearchAdaptor`.
- ElasticsearchAdaptor.SearchChunks: a `hits` value that is not a list is treated as an unreadable result, which gives no hits. Python would iterate over a dictionary's keys or a string's characters; that raises when there are any, and an empty one gives an empty hit list with the store's total.
- Other adaptor operations are not modelled: `delete_document`, `get_document`, `search_documents`, `get_picture`, `initialize_indices` and the index mapping set-up. They are single store calls with no decision logic.
- `bulk_index_from_directory` is not modelled. It walks the filesystem and calls the document converter and chunker.
- DocumentIndexing.IndexChunk: the caller's chunk is updated in place in Python. The model returns the updated chunk instead, so aliasing of that object is not captured.
- ChunkIdMigration.Stamped: the migration mutates each fetched source in place. The model stamps a copy; nothing else holds the source, so no aliasing is lost.
- Each migration document is modelled with an id and a source, which the scroll query always returns.
- ChunkIdMigration.BatchesAccount: it assumes the bulk helper reports, for a call, success and failure counts that add up to its number of actions. That is the helper's contract with statistics only, and is not proved here.
- ChunkIdMigration.BulkUpdateChunks: sums the corrected per-batch counts of `ProcessBatch`. The totals the script returns as written are `BatchesFromAsWritten`, related to these by `AsWrittenTotals`.
- ChunkIdMigration.BulkUpdateChunks: with a negative batch size no batch runs, so the success and failure counts stay 0 while the total is the number of chunks.
- The migration's chunk fetching by scroll (`get_all_chunks`), `verify_migration`, `run_migration` and its command-line entry point are not modelled. They are store I/O and logging.
- The embedding and language-model services themselves are oracles; only what the code does with their results is modelled.
- The Telegram transport is not modelled: sending, media groups, base64 pictures, typing indicators, polling and shutdown.
- LegacyBot.TelegramBotService.HandleMessage: only the stored history, the history passed to the agent and the error reply are modelled. The legacy bot's formatting of the agent's answer for sending is not modelled.
- ConversationManagement.ConversationManager.AddMessage: message timestamps are not modelled, and a message carries only its role, content and optional chat id.
- ChunkManagement.ChunkManager.StoreChunks: only the fields the store keeps (text, document id and chunk id) are modelled for each record.

## Findings

| source | as written | input that shows it | evidently intended | confidence | as-written member | corrected member |
|---|---|---|---|---|---|---|
| multimodal_rag/adaptors/elasticsearch/elasticsearch_adaptor.py:232 | `index_chunk` calls the chunk's `to_elastic_data` with a `document_id` keyword that the method does not accept, so a TypeError is raised before the store is called and every chunk request fails | any chunk, even with a store that would answer "created" | the chunk's own encoding is indexed under the chunk id, and success is what the store reports | not executed | ElasticsearchAdaptor.IndexChunkNeverSucceeds | ElasticsearchAdaptor.IndexChunkIntended |
| scripts/migrate_chunk_ids.py:193-198 | with statistics only, the bulk helper's second value is an integer. `len()` of it raises after the successes were added, and the handler then adds every action as failed | two stampable chunks whose bulk call reports 1 success and 1 failure: counted as 1 success and 2 failures | the reported failure count is added, so each document is counted once | not executed | ChunkIdMigration.AsWrittenOvercountExample | ChunkIdMigration.ProcessBatch |
