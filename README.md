# Multimodal RAG backend — a Dafny model of its list and string logic

The backend ingests PDFs and answers questions with a tool-calling agent. Almost
everything it does is a call into a hosted model, a PDF partitioner or a vector
store. This project models the plain sequential logic between those calls and
proves what that logic promises. Every foreign call is a function parameter or
an input.

- `pdf_parser.dfy` (module `PdfParser`) covers `backend/src/pdf_parser.py`:
  - bucketing partitioned elements into text, table and image lists;
  - tagging the chunks and rewriting table and image texts in place;
  - prefixing model descriptions and summaries to image and table chunks;
  - building one document per chunk for the stores.
  Elements are objects of class `Element`, whose `text` and `metadata` the
  methods update. Each method is proved against a function on the elements'
  values (`Select`, `RagChunks`, `Enhanced`, `DocumentOf`).
- `agent.dfy` (module `Agent`) covers the node functions of
  `backend/src/agent.py`: the token-budget check, summarisation,
  `query_or_respond`, the prompt `generate` assembles, and the `retrieve`
  tool's serialisation. The chat model and the token counter are
  uninterpreted functions.
- `agent_graph.dfy` (module `AgentGraph`) covers `get_graph`. `StateGraph` is a
  builder class whose methods record nodes and edges. The module also gives
  the run order those edges produce for each route of `tools_condition`.
- `chat_history.dfy` (module `ChatHistory`) covers the two conversions of
  `backend/src/utils.py`, with the roles of `backend/src/models.py`.
- `form_parser.dfy` (module `FormParser`) covers the page-text truncation of
  `backend/src/from_parser.py` and the error path of the form extraction.
- Shared modules:
  - `messages.dfy` (`Messages`): the framework's message kinds.
  - `text.dfy` (`Text`): Python's `in`, `strip`, `join`, `lower` and `str(int)`.
  - `seqs.dfy` (`Seqs`): filter and reverse.
  - `wrappers.dfy` (`Wrappers`): `Option`.

One place where the code does not do what it evidently means to do, and one this model leaves open:
- The except branch at `backend/src/from_parser.py:50-52` builds an error
  payload, but the code never gets there (see Findings). The corrected member
  returns the payload; the as-written member raises.
- The comment at `backend/src/agent.py:41` says the summarisation keeps only the
  last two messages. The node does return only the last two messages. What the
  framework's message reducer then makes of that update is not part of this
  model (see Left out).

## Model

| member | source | states |
|---|---|---|
| PdfParser.BucketOf | backend/src/pdf_parser.py:37-43 | An element goes to the table bucket exactly when its category contains "Table", even if it has an image payload. It goes to the image bucket exactly when it is not a table and has a non-empty `image_base64`. It goes to the text bucket exactly when it is neither and its category is one of the eight text categories. |
| PdfParser.Select | backend/src/pdf_parser.py:37-44 | A bucket holds only elements of the input that belong to it, and is no longer than the input. |
| PdfParser.ExtractAndCategorizeContent | backend/src/pdf_parser.py:30-45 | The loop returns exactly the text, table and image selections of the input, each in input order. |
| PdfParser.SelectComplete | backend/src/pdf_parser.py:37-44 | Every element that belongs to a bucket is in that bucket. |
| PdfParser.SelectConcat | backend/src/pdf_parser.py:37-44 | Bucketing distributes over concatenation, so each bucket keeps the input's relative order. |
| PdfParser.SelectPartition | backend/src/pdf_parser.py:21-45 | The text, table, image and dropped buckets together are, as a multiset, exactly the input: every element lands in exactly one. |
| PdfParser.SelectDistinct | backend/src/pdf_parser.py:30-45 | Bucketing distinct element objects gives distinct objects. |
| PdfParser.TextChunks | backend/src/pdf_parser.py:63-65 | Every text chunk keeps its category and text and is tagged "text". Every other metadata field, such as the page number, filename, HTML and image payload, is kept. |
| PdfParser.TableChunks | backend/src/pdf_parser.py:68-76 | Every table keeps its category and is tagged "table". Every other metadata field, such as the page number, filename, HTML and image payload, is kept. |
| PdfParser.ImageChunks | backend/src/pdf_parser.py:79-93 | Every image keeps its category and is tagged "image". Every other metadata field, such as the page number, filename, HTML and image payload, is kept. |
| PdfParser.RewriteOne | backend/src/pdf_parser.py:63-93 | One iteration of the text, table or image loop leaves the element holding the tagged value `Tagged(kind, old value)`. |
| PdfParser.RewriteLoop | backend/src/pdf_parser.py:63-93 | A whole loop appends its elements to the output, in order. It rewrites exactly the positions of its segment and leaves every other element of the chunk list unchanged. |
| PdfParser.RewrittenTexts | backend/src/pdf_parser.py:63-65 | Handling the front segment with the text loop turns it into its text chunks and leaves the rest as it was. |
| PdfParser.RewrittenTables | backend/src/pdf_parser.py:68-76 | Handling the middle segment with the table loop turns it into its table chunks and leaves the rest as it was. |
| PdfParser.RewrittenImages | backend/src/pdf_parser.py:79-93 | Handling the last segment with the image loop turns it into its image chunks and leaves the rest as it was. |
| PdfParser.RewrittenThrice | backend/src/pdf_parser.py:47-95 | The three loops run in turn give `RagChunks`: the text chunks, then the tables, then the images. |
| PdfParser.CreateRagChunks | backend/src/pdf_parser.py:47-95 | The result is the text chunks, then the tables, then the images, as objects. Their values afterwards are the tagged and rewritten values of what they held on entry. |
| PdfParser.RagChunksLayout | backend/src/pdf_parser.py:50-95 | The output length is the sum of the three counts. Chunks are tagged "text", "table" and "image" segment by segment, and the text chunks keep their texts. |
| PdfParser.TableChunkText | backend/src/pdf_parser.py:69-76 | About `PdfParser.TableChunk`: a table with non-empty HTML reads "Table from page {page}:\n{html}". A table without HTML keeps its text. |
| PdfParser.ImageChunkText | backend/src/pdf_parser.py:79-91 | About `PdfParser.ImageChunk`: an image's text is "Image from page {page}" followed by ":\nExtracted text: " and the stripped text when that is non-empty, else by " [No extracted text available]". |
| PdfParser.PageLabelKnown | backend/src/pdf_parser.py:69-73 | The page label is "unknown" exactly when the page number is missing, so a known page never renders as "unknown". |
| PdfParser.Apply | backend/src/pdf_parser.py:116-128 | A description or summary never changes a chunk's category or content type. An image's metadata changes only in its description, which becomes the output; a table's metadata is unchanged. |
| PdfParser.PassInputs | backend/src/pdf_parser.py:107-123 | The batch gets one input per chunk of the pass's type. |
| PdfParser.OfTypeAt | backend/src/pdf_parser.py:102-121 | The comprehension picks exactly the chunk objects at the positions of the pass's type, in order. |
| PdfParser.ZippedStep | backend/src/pdf_parser.py:116-118 | About `PdfParser.Zipped`, the chunks after the first k outputs: consuming one more model output changes exactly the chunk of the next rank and no other. |
| PdfParser.ApplyTo | backend/src/pdf_parser.py:116-128 | One `zip` iteration leaves the chunk holding `Apply(pass, old value, output)`. |
| PdfParser.ZipInto | backend/src/pdf_parser.py:116-128 | A `zip` loop gives the chunk of rank r output r while outputs last and leaves every other chunk unchanged, whatever the number of outputs. |
| PdfParser.ZippedAll | backend/src/pdf_parser.py:116-126 | Outputs beyond the number of selected chunks have no effect (the truncation of `zip`). |
| PdfParser.BatchInputs | backend/src/pdf_parser.py:107-123 | The batch list holds, per selected chunk, the image payload when the attribute exists, else the text; for tables, the text. |
| PdfParser.RunStage | backend/src/pdf_parser.py:102-128 | One pass leaves the chunks holding `Stage`. Nothing changes without a chain or without chunks of the pass's type. |
| PdfParser.EnhanceChunksWithSummaries | backend/src/pdf_parser.py:98-140 | Returns the same list. The chunks end up holding the image pass followed by the table pass over their values on entry. |
| PdfParser.StageKeeps | backend/src/pdf_parser.py:102-128 | About `PdfParser.Stage`, one pass: it keeps the length, every category and content type, and leaves chunks of other types unchanged. |
| PdfParser.EnhancedChunk | backend/src/pdf_parser.py:98-140 | About `PdfParser.Enhanced`, the image pass then the table pass: with its chain present, an image chunk of rank r gets description r, if the chain returned one, as "Image Description: {d}\n\n" + text and as metadata. Likewise a table chunk of rank r gets summary r, computed from the table texts on entry. Every other chunk, and every chunk whose chain is absent, is unchanged. |
| PdfParser.ImagePassKeepsTableRanks | backend/src/pdf_parser.py:121-121 | The image pass leaves the table chunks' positions and ranks unchanged. |
| PdfParser.ImagePassKeepsTableInputs | backend/src/pdf_parser.py:121-123 | The image pass leaves the table batch inputs unchanged. |
| PdfParser.EnhancedImage | backend/src/pdf_parser.py:102-118 | An image chunk takes its description in the image pass and passes the table pass untouched. |
| PdfParser.EnhancedTable | backend/src/pdf_parser.py:121-128 | A table chunk passes the image pass untouched and takes its summary from the inputs it had on entry. |
| PdfParser.ApplyKeepsText | backend/src/pdf_parser.py:116-128 | The new text is the header, the output and a blank line, followed by the old text unchanged. An image's description is also stored as metadata and every other metadata field is kept; a table's metadata is unchanged. |
| PdfParser.DocumentOf | backend/src/pdf_parser.py:160-172 | A document carries the chunk's text and id. Its content type is the chunk's lower-cased, or "unknown"; its page number is the chunk's, or -1; its filename is the chunk's, or "unknown". |
| PdfParser.SaveToMultiVectorStore | backend/src/pdf_parser.py:143-178 | Exactly one document per chunk, in chunk order, with the drawn ids. The document store receives one (id, document) pair per document. |
| PdfParser.Store | backend/src/pdf_parser.py:178-178 | Every id written by `mset` is a key of the store. |
| PdfParser.StoreFinds | backend/src/pdf_parser.py:177-178 | With distinct ids, a summary document's id finds its full document in the store. |
| PdfParser.RagContentTypeStored | backend/src/pdf_parser.py:160-168 | The tags "text", "table" and "image" survive lower-casing unchanged. |
| Agent.SummaryPrompt | backend/src/agent.py:31-36 | Without a summary, the prompt asks to create one. With a summary, the prompt is exactly the "extend" preamble, the summary and the closing "extend" request, in that order, and differs from the create request. |
| Agent.LastTwo | backend/src/agent.py:42-42 | `messages[-2:]` is the suffix of length two, or the whole list when shorter. |
| Agent.SummarizeConversation | backend/src/agent.py:27-44 | The model sees the whole conversation plus one human message with the summary prompt. At most the last two messages are kept, and the summary becomes the reply alone. |
| Agent.MemoryCheckAndSummarize | backend/src/agent.py:47-55 | Summarises exactly when the token count is strictly above the limit. Otherwise it returns the messages and the summary so far, "" by default. |
| Agent.MemoryCheckSuffix | backend/src/agent.py:47-55 | Either way the messages are a suffix of the conversation and the summary is set. Over the limit, at most two messages remain and the summary is the model's reply. |
| Agent.QueryOrRespond | backend/src/agent.py:79-100 | The tool-bound model sees the full message list, and the update holds exactly its one reply. |
| Agent.QueryOrRespondIgnoresSummary | backend/src/agent.py:81-90 | The summary has no influence on the reply: the summary-based message list is computed and then unused. |
| Agent.RecentToolMessagesInOrder | backend/src/agent.py:109-111 | About `Agent.RecentToolMessages`: reversing, filtering and reversing back gives the tool messages in their original order. |
| Agent.ToolContextEmptyIff | backend/src/agent.py:109-114 | About `Agent.ToolContext`, which joins the blocks with `Text.Join`: the tool context is empty exactly when there is no tool message. Otherwise it starts with "Tool output:\n". |
| Agent.SystemPrompts | backend/src/agent.py:117-127 | The summary message comes first, only when there is a summary. The context message comes last, only when there is tool context. |
| Agent.HistoryContents | backend/src/agent.py:130-133 | About `Agent.History`: the history holds exactly the human messages, system messages and AI messages without tool calls. |
| Agent.HistoryKeepsOrder | backend/src/agent.py:130-133 | The history of a concatenation is the concatenation of the histories, so the history keeps the conversation's order. |
| Agent.GeneratePromptShape | backend/src/agent.py:104-135 | About `Agent.GeneratePrompt`: the prompt opens with the summary message when there is a summary, then the context message when there is a tool output, then the history. |
| Agent.Generate | backend/src/agent.py:104-138 | The update holds exactly the model's reply to that prompt. |
| Agent.Retrieve | backend/src/agent.py:57-67 | The artifact is the documents themselves. No documents serialise to "", and one document to its "Source: …\nContent: …" block. |
| Agent.RetrieveConcat | backend/src/agent.py:62-64 | Serialising two batches is serialising each, joined by a blank line. |
| AgentGraph.ToolsCondition | backend/src/agent.py:154-158 | Routes to the tools node exactly when the last message is an AI message requesting at least one tool, otherwise to the end. |
| AgentGraph.StateGraph.constructor | backend/src/agent.py:145-145 | A new builder records nothing. |
| AgentGraph.StateGraph.AddNode | backend/src/agent.py:147-150 | Appends the node and changes nothing else. |
| AgentGraph.StateGraph.SetEntryPoint | backend/src/agent.py:152-152 | Adds the edge from the start and changes nothing else. |
| AgentGraph.StateGraph.AddEdge | backend/src/agent.py:153-160 | Appends the edge and changes nothing else. |
| AgentGraph.StateGraph.AddConditionalEdges | backend/src/agent.py:154-158 | Appends the conditional edge with its path map and changes nothing else. |
| AgentGraph.GetGraph | backend/src/agent.py:141-162 | Four nodes. On the end route a run is memory_check, query_or_respond. On the tools route a run is memory_check, query_or_respond, tools, generate. |
| AgentGraph.RunsOfAgentGraph | backend/src/agent.py:145-160 | The recorded edges give those two runs. |
| AgentGraph.AgentGraphRouting | backend/src/agent.py:147-160 | Every run starts with memory_check and query_or_respond. It reaches tools exactly when the last message requests a tool. generate runs exactly when tools ran, and ends the run. |
| AgentGraph.AgentEdges | backend/src/agent.py:152-160 | The plain edges lead start to memory_check to query_or_respond, and tools to generate to the end. None leaves query_or_respond. |
| AgentGraph.AgentBranches | backend/src/agent.py:154-158 | The conditional edge maps the end route to the end and the tools route to tools. |
| ChatHistory.MessageOf | backend/src/utils.py:7-12 | A user entry becomes a human message, an assistant entry an AI message without tool calls, and a system entry a system message, each with the entry's content; each message kind comes from exactly one role. |
| ChatHistory.EntriesOf | backend/src/utils.py:18-23 | A message gives one entry, with its content, exactly when it is a human, AI or system message, and none otherwise. A human message gives a user entry, an AI message an assistant entry and a system message a system entry. |
| ChatHistory.ToLangchainMessages | backend/src/utils.py:4-13 | One message per entry, in order, with the same content. No entry is dropped, because the three role values are all the roles there are. |
| ChatHistory.FromLangchainMessages | backend/src/utils.py:15-24 | The loop returns the history of the human, AI and system messages, in order. |
| ChatHistory.HistoryNoLonger | backend/src/utils.py:15-24 | About `ChatHistory.HistoryOf`, the history the loop builds: the history is never longer than the messages. |
| ChatHistory.HistoryConcat | backend/src/utils.py:15-24 | Converting a concatenation is concatenating the conversions, so order is kept. |
| ChatHistory.HistoryDropsOthers | backend/src/utils.py:17-23 | Tool messages and every other kind leave no entry. |
| ChatHistory.HistoryRoundTrip | backend/src/utils.py:4-24 | Converting a history to messages and back gives the original history. |
| ChatHistory.MessagesRoundTrip | backend/src/utils.py:4-24 | Converting messages to a history and back gives, in order, exactly the human, AI and system messages with the same kinds and contents. |
| FormParser.FirstPages | backend/src/from_parser.py:21-21 | At most the first five page texts, as a prefix. |
| FormParser.ExtractPdfText | backend/src/from_parser.py:19-23 | At most 15000 characters. The result is a prefix of the join of the first five pages: equal to it when it fits, exactly 15000 characters otherwise. |
| FormParser.OnlyFirstFivePages | backend/src/from_parser.py:19-23 | Pages after the fifth do not change the text. |
| FormParser.ShortTextKeepsEveryPage | backend/src/from_parser.py:19-23 | When five pages or fewer fit, the text is their join, as long as the pages plus one line break between each two. |
| FormParser.ErrorPayload | backend/src/from_parser.py:51-52 | The error dictionary has exactly the keys "error" and "raw_output": the prefixed exception message and the raw output. |
| FormParser.ExtractFormFieldsAsWritten | backend/src/from_parser.py:43-52 | As written: the chain's output when it succeeds, an escaping `UnboundLocalError` when it raises. |
| FormParser.AsWrittenNeverReportsError | backend/src/from_parser.py:43-52 | As written, a dictionary is returned exactly when the chain succeeds; the error dictionary is unreachable. |
| FormParser.AsWrittenFailingChainRaises | backend/src/from_parser.py:47-52 | A chain that raises makes the call raise `UnboundLocalError`. |
| FormParser.ExtractFormFields | backend/src/from_parser.py:43-52 | Corrected: the call always returns a dictionary. |
| FormParser.ExtractFormFieldsReportsError | backend/src/from_parser.py:43-52 | Corrected: a succeeding chain's output is returned as is, and a failing chain gives the error dictionary with the exception's message. |
| Text.Contains | backend/src/pdf_parser.py:38-38 | `t in s` holds exactly when `t` occurs in `s` at some offset. |
| Text.StripSpec | backend/src/pdf_parser.py:86-87 | `strip()` returns the slice of the string left after removing whitespace from both ends. It neither starts nor ends with whitespace, and is empty exactly when the string is all whitespace. |
| Text.StripIdempotent | backend/src/pdf_parser.py:86-87 | Stripping twice is stripping once. |
| Text.Strip | backend/src/pdf_parser.py:86-87 | `strip()` is never longer than its input; `Text.StripSpec` states the rest. |
| Text.DecimalString | backend/src/pdf_parser.py:73-73 | `str(n)` is never empty; `Text.DecimalStringParses` states the rest. |
| Text.JoinLength | backend/src/agent.py:114-114 | About `Text.Join`, `sep.join(parts)`: a join is as long as its parts plus one separator between each two of them. |
| Text.JoinConcat | backend/src/agent.py:114-114 | Joining two non-empty lists puts exactly one separator between their joins. |
| Text.Lower | backend/src/pdf_parser.py:160-160 | `lower()` keeps the length, lower-cases every ASCII letter and leaves no upper-case ASCII letter. |
| Text.DecimalStringParses | backend/src/pdf_parser.py:73-73 | The page number in an f-string renders as its decimal digits, with a minus sign when negative, and reads back as the number. |

## Left out

- Framework reducer: the `add_messages` reducer that merges a node's returned messages into the graph state is not modelled. Node updates are the dictionaries the nodes return. Whether returning `messages[-2:]` shortens the stored conversation depends on that reducer.
- `tools_condition` on a state without messages raises. `AgentGraph.ToolsCondition` requires a non-empty list, which `query_or_respond` always guarantees.
- `query_or_respond` logging of tool names, the `PythonREPL` tool, reading `MAX_TOKENS` (and `int()` failing on a missing variable) and logging in general are left out.
- The parallel fan-out of several tool calls inside the tool node is left out; the tools node is one step of a run.
- `llm.invoke`, `llm_with_tools.invoke`, `chain.batch`, `count_tokens_approximately` and the form extraction chain are function parameters. Their results are arbitrary.
- `partition_pdf` and `chunk_by_title` are not modelled: their outputs are inputs (`elements`, `textChunks`).
- `uuid4` ids are an input list with one id per chunk. Their distinctness is a precondition of `StoreFinds` only.
- Chroma, `InMemoryStore` and `MultiVectorRetriever` are not modelled. `add_documents` becomes the returned document list. `mset` becomes the returned (id, document) pairs, and `Store` is the map they give.
- fitz page extraction is not modelled: page texts are an input list. The `temp.pdf` file of `parse_pdf`, its race between simultaneous uploads, and `parse_pdf` itself are left out.
- `backend/src/main.py`, `backend/src/chains.py`, `frontend/src/app.py` and the Pydantic schemas are not part of this model, except the three role values.
- A metadata attribute that exists with value `None` is treated as absent: `Option.None`. In the source, `getattr` then returns `None` instead of its default. So a table or image whose `page_number` is `None` reads "page None" rather than "page unknown", and an image whose `image_base64` is `None` hands `None` to the batch. The same happens in `save_to_multivectorstore` at `backend/src/pdf_parser.py:160-162`: a `page_number` of `None` is stored as `None` rather than -1, a `filename` of `None` is stored as `None` rather than "unknown", and a `content_type` of `None` makes `.lower()` raise `AttributeError`. The model does not capture these cases.
- PdfParser.CreateRagChunks: requires the element objects to be distinct. Shared metadata objects and aliasing between chunks are not modelled; metadata is a value replaced field by field.
- PdfParser.EnhanceChunksWithSummaries: requires the chunk objects to be distinct, for the same reason.
- PdfParser.EnhanceChunksWithSummaries: a chunk without a `content_type` attribute would raise `AttributeError` in the source; the model treats it as belonging to neither pass. Every chunk from `create_rag_chunks` has one.
- Text.Lower: lower-cases ASCII letters only, not the rest of Unicode.
- Text.Strip: its own contract states only a length bound. Its full property is the lemma `Text.StripSpec`.
- Text.DecimalString: its own contract states only non-emptiness. Its full property is the lemma `Text.DecimalStringParses`.
- The metadata dictionary's `str()` inside the retrieve serialisation is an input string (`RetrievedDoc.metadata`).
- Summaries of text chunks are commented out in the source and absent here.

## Findings

| source | as written | input that shows it | evidently intended | confidence | as-written member | corrected member |
|---|---|---|---|---|---|---|
| backend/src/from_parser.py:47-52 | The except branch builds its dictionary from `str(salida)`. `salida` is never bound when `chain.invoke` raised, so an `UnboundLocalError` escapes and no dictionary is returned. | Any extraction chain that raises, e.g. on a connection error. | Return the error dictionary with the exception message, and a raw output that does not depend on the failed call. | not executed | FormParser.AsWrittenFailingChainRaises | FormParser.ExtractFormFieldsReportsError |
