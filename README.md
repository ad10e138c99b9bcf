# Building-code assistant core, in Dafny

This project models the core of a building-code question-answering assistant in Dafny. The assistant has four parts:

- **Retrieval** (`retrieval.dfy`, module `Retrieval`). This is the retrieval system. It splits documents into chunks and gives every chunk an id of the form `<document id>_<index>`. It embeds each chunk and tags it with a section number taken from `Section n.n`, `Chapter n` or `Article n`. It adds the chunks to a vector collection in batches of 100. Answering a query returns up to `k` chunks, each with its score `1 - distance`.
- **LlmInterface** (`llm_interface.dfy`). This is the local language-model interface. It runs two health checks against the server's `/v1/models` listing. It builds the chat-completions request: a system prompt plus one user message holding the numbered context blocks and the question. It then decodes the server-sent event stream into content fragments. Decoding stops at the first choice that carries a finish reason, and any exception becomes one final error fragment.
- **DocumentProcessor** (`document_processor.dfy`). This is OCR post-processing. It drops tokens with confidence 30 or below, and blank tokens. It groups the remaining tokens into paragraphs at block-number changes. It computes the mean confidence, the paragraph count and the word count, then builds one record per PDF page (with an empty record for a page whose OCR failed) or for an image.
- **McpIntegration** (`mcp_integration.dfy`). This is the Revit integration client. It has a builder for each tool call with its default arguments. A keyword router turns a natural-language request into one tool call. The client object tracks the server process and whether it is connected, and sends JSON-RPC requests over the process's stdio.

`text.dfy` (module `Text`) holds the string operations the Python code gets from `str` and `re`: whitespace, digits, case mapping, `in`, `join`, `strip`, `len(s.split())` and `str(n)`. `wrappers.dfy` holds `Option` and `Result`.

Third-party code and I/O are inputs to the model:

- the text splitter, the embedding model and the collection's nearest-neighbour query (constant functions of a `RetrievalSystem`);
- the HTTP replies, the POST outcome, the SSE lines and the JSON decoder (parameters of `GenerateResponse`);
- the OCR tables and the PDF conversion outcome (parameters of the OCR operations);
- the subprocess spawn and the stdio exchange (parameters of the client methods).

## Model

| member | source | states |
|---|---|---|
| Retrieval.FindMatch | src/rag/retrieval_system.py:104 | `re.search` finds the leftmost match: the result is a match position and no earlier position matches; there is no result exactly when no position matches |
| Retrieval.DottedEnd | src/rag/retrieval_system.py:99 | the greedy `(?:\.\d+)*` ends on a digit, covers only dot-separated digit groups, and cannot be extended by another `.digit` group |
| Retrieval.Capture | src/rag/retrieval_system.py:99-101 | group 1 is a dotted number (digit groups separated by single dots), and only digits for the Chapter and Article patterns |
| Retrieval.NoMatchNoSearch | src/rag/retrieval_system.py:104-105 | a pattern yields no capture exactly when it matches nowhere in the chunk |
| Retrieval.Search | src/rag/retrieval_system.py:104-106 | `re.search(...).group(1)` is the capture at the leftmost match, and it is a dotted number; there is none only when the pattern matches at no position |
| Retrieval.FirstCapture | src/rag/retrieval_system.py:103-107 | trying the patterns in turn gives either `unknown` or a dotted number |
| Retrieval.ExtractSectionFirstMatchWins | src/rag/retrieval_system.py:98-106 | the tag is the capture of the leftmost match of the first pattern, in list order, that matches anywhere |
| Retrieval.ExtractSectionCases | src/rag/retrieval_system.py:103-107 | the patterns are tried in the order Section, Chapter, Article, with `unknown` as the fallback |
| Retrieval.ExtractSectionUnknownIff | src/rag/retrieval_system.py:103-107 | the tag is `unknown` exactly when none of the three patterns matches |
| Retrieval.CaptureIsNotUnknown | src/rag/retrieval_system.py:106-107 | a capture can never be confused with the fallback `unknown` |
| Retrieval.ExtractSection | src/rag/retrieval_system.py:96-107 | every tag is `unknown` or a dotted number: digit groups joined by single dots |
| Retrieval.KeywordAbsent | src/rag/retrieval_system.py:104 | matching ignores case: when no character lower-cases to the keyword's first letter, the pattern matches nowhere |
| Retrieval.SectionTagExample | src/rag/retrieval_system.py:99-106 | "Section 310.2 governs ceiling height" is tagged `310.2` |
| Retrieval.UnknownTagExample | src/rag/retrieval_system.py:107 | a chunk with no keyword is tagged `unknown` |
| Retrieval.ChunkId | src/rag/retrieval_system.py:45 | a chunk id is the document id, an underscore, then the decimal digits of the index |
| Retrieval.ChunkIdInjective | src/rag/retrieval_system.py:45 | a chunk id `<document id>_<index>` determines both its document id and its index |
| Retrieval.DocumentId | src/rag/retrieval_system.py:42 | the document's own `id`, or the freshly generated one when the key is missing |
| Retrieval.ChunkMetadata | src/rag/retrieval_system.py:48-55 | the metadata of chunk i: the document id, i, the page (0 when missing), the confidence (0 when missing), the source (`unknown` when missing) and the chunk's section tag |
| Retrieval.DocumentRows | src/rag/retrieval_system.py:43-59 | a document contributes exactly one row per chunk of its text |
| Retrieval.AllRows | src/rag/retrieval_system.py:41-59 | the rows of all documents number the total of their chunk counts |
| Retrieval.RowOrigin | src/rag/retrieval_system.py:41-59 | every row is the chunk of some document at some index, with its embedding, its metadata (document id, index, page, confidence, source, section) and its id |
| Retrieval.DocumentIdsDistinct | src/rag/retrieval_system.py:44-45 | the chunk ids of one document are pairwise distinct |
| Retrieval.ChunkIdsDistinct | src/rag/retrieval_system.py:42-45 | when the documents' ids are distinct, every chunk id in the ingested lists is distinct |
| Retrieval.Slices | src/rag/retrieval_system.py:62-64 | the batch loop makes ceiling(n / 100) slices, each holding between 1 and 100 rows |
| Retrieval.SliceAt | src/rag/retrieval_system.py:63-69 | slice k is the rows from 100·k up to 100·k + 100, cut at the end of the lists |
| Retrieval.SlicesCover | src/rag/retrieval_system.py:63-69 | the slices, concatenated, give back the lists exactly, in order |
| Retrieval.Batches | src/rag/retrieval_system.py:63-70 | there is one `collection.add` per slice |
| Retrieval.BatchesOfSlices | src/rag/retrieval_system.py:63-70 | call k carries the four columns of slice k |
| Retrieval.SliceCount | src/rag/retrieval_system.py:63 | there is a k-th call exactly when 100·k is below the number of chunks |
| Retrieval.NextCall | src/rag/retrieval_system.py:63-70 | the n-th call starts at row 100·n and sends rows 100·n up to 100·n + 100 (cut at the end) of each of the four lists |
| Retrieval.Results | src/rag/retrieval_system.py:83-94 | `zip` stops at the shortest of the three lists |
| Retrieval.ResultsCopyContent | src/rag/retrieval_system.py:88-93 | result i carries document i, metadata i and score 1 - distance i |
| Retrieval.ResultsRankByScore | src/rag/retrieval_system.py:92 | nearest-first distances give best-first scores |
| Retrieval.RetrievalSystem.constructor | src/rag/retrieval_system.py:10-36 | the system holds the splitter, the embedding model and the collection it opened |
| Retrieval.RetrievalSystem.AddDocuments | src/rag/retrieval_system.py:38-70 | a document without text raises `KeyError` before anything is stored; when call k of `collection.add` raises, the error propagates and exactly the first k batches stay stored; otherwise the collection receives exactly the batches of all rows, in order |
| Retrieval.RetrievalSystem.ChunkDocument | src/rag/retrieval_system.py:43-59 | the inner loop appends, for one document, the text, embedding, metadata and id of each of its chunks, in order |
| Retrieval.RetrievalSystem.InsertBatches | src/rag/retrieval_system.py:61-70 | the batch loop stores exactly the batches of the rows, in order; when call k raises, the k calls before it stay stored and the error is returned |
| Retrieval.RetrievalSystem.Retrieve | src/rag/retrieval_system.py:73-94 | the results are those of the top-k query on the collection with the query's embedding |
| LlmInterface.IsOllamaRunning | src/rag/llm_interface.py:15-21 | the server counts as running exactly when the listing request answers with status 200; a request that raises means not running |
| LlmInterface.ScanModels | src/rag/llm_interface.py:27-28 | `any(...)` holds exactly when some entry has the model's id and every entry before it is an object |
| LlmInterface.IsModelAvailable | src/rag/llm_interface.py:23-31 | the model is available only when the listing answers 200, decodes, and lists the model's id before any entry that is not an object |
| LlmInterface.ModelAvailableIffListed | src/rag/llm_interface.py:26-28 | on a well-formed 200 listing, the model is available exactly when its id is listed |
| LlmInterface.LocalLlmInterface.constructor | src/rag/llm_interface.py:10-12 | a missing or empty base URL or model falls back to the settings value |
| LlmInterface.Context | src/rag/llm_interface.py:62-67 | one context block per retrieved chunk |
| LlmInterface.ContextBlockShape | src/rag/llm_interface.py:63-67 | block i starts with `Document <i+1> (Page `, followed by the page number, `): ` and the chunk's content |
| LlmInterface.LocalLlmInterface.BuildContext | src/rag/llm_interface.py:62-67 | the loop over the retrieved chunks builds exactly the context blocks, numbered from 1 |
| LlmInterface.LocalLlmInterface.Request | src/rag/llm_interface.py:69-82 | the request goes to `/v1/chat/completions` with the model, the system prompt and one user message, streaming, with the configured temperature and token limit |
| LlmInterface.UserContent | src/rag/llm_interface.py:71 | the user message: the context blocks joined by blank lines, then a blank line and the question line |
| LlmInterface.UserContentIsOneJoin | src/rag/llm_interface.py:71 | with at least one block, the user message is the blocks and the question line joined by blank lines; with none, it is a blank line followed by the question line |
| LlmInterface.Payload | src/rag/llm_interface.py:91-94 | the `data: ` prefix is removed when present, and the line is kept whole otherwise |
| LlmInterface.BlankIffStripsToEmpty | src/rag/llm_interface.py:88-89 | a line is skipped as blank exactly when it strips to the empty string |
| LlmInterface.Emitted | src/rag/llm_interface.py:101-104 | a choice yields at most one fragment, and never an empty one |
| LlmInterface.LineStep | src/rag/llm_interface.py:88-106 | one line yields only non-empty fragments, and ends the stream only on a finish reason or a decoding crash |
| LlmInterface.Decode | src/rag/llm_interface.py:87-106 | the stream yields only non-empty fragments; reading to the end means no line stopped it |
| LlmInterface.DecodeAppend | src/rag/llm_interface.py:87-106 | decoding is incremental: the lines after a stop are never read |
| LlmInterface.NothingReadAfterFinish | src/rag/llm_interface.py:105-106 | once a finish reason is seen, the remaining lines change nothing |
| LlmInterface.SkippedLine | src/rag/llm_interface.py:88-98 | a blank or non-JSON line is skipped without effect |
| LlmInterface.FinishingEvent | src/rag/llm_interface.py:99-106 | a choice with a finish reason yields its content first and then ends the stream |
| LlmInterface.StreamOutput | src/rag/llm_interface.py:84-109 | what the generator yields once the POST is sent: the decoded fragments, then one error fragment when decoding crashed, the line iterator raised or the POST raised |
| LlmInterface.StreamErrorIsLast | src/rag/llm_interface.py:84-109 | a finish reason or a cleanly exhausted stream yields exactly the decoded content; a decoding crash or a failing line iterator adds exactly one error fragment after it; a failing POST yields only the error; nothing else is ever added |
| LlmInterface.LocalLlmInterface.GenerateResponse | src/rag/llm_interface.py:33-109 | not running gives only the not-running error; model missing gives only the pull hint; otherwise it posts the request built from the query and the chunks and yields the decoded stream |
| LlmInterface.LocalLlmInterface.ReadStream | src/rag/llm_interface.py:84-109 | the loop over the lines yields exactly the decoded stream, plus the error fragment on a failure |
| LlmInterface.LocalLlmInterface.ReadLine | src/rag/llm_interface.py:88-106 | one turn of the line loop yields exactly the fragments of that line and stops exactly when the line finishes the stream or crashes the decoder |
| DocumentProcessor.Group | src/ocr/document_processor.py:130-149 | the paragraphs the loop emits as written: a kept token closes its paragraph when it is the last row or the next row has another block number |
| DocumentProcessor.Structured | src/ocr/document_processor.py:124-160 | the record: the paragraphs joined by blank lines, the mean kept confidence (0 when none), the paragraph count and the word count |
| DocumentProcessor.KeptConfidences | src/ocr/document_processor.py:130-136 | every recorded confidence exceeds 30, one per kept token |
| DocumentProcessor.GroupNonEmpty | src/ocr/document_processor.py:142-149 | no paragraph is empty |
| DocumentProcessor.GroupConcat | src/ocr/document_processor.py:130-149 | the paragraphs, concatenated, are the kept tokens in order |
| DocumentProcessor.ParagraphCount | src/ocr/document_processor.py:157 | there are never more paragraphs than kept tokens |
| DocumentProcessor.MeanAbove | src/ocr/document_processor.py:151 | the mean of confidences that all exceed 30 exceeds 30 |
| DocumentProcessor.AverageAboveThreshold | src/ocr/document_processor.py:151-155 | the average confidence is 0 when nothing is kept and above 30 otherwise |
| DocumentProcessor.WordsOfParagraphs | src/ocr/document_processor.py:144-158 | joining tokens into paragraphs neither merges nor splits words |
| DocumentProcessor.TotalWordsOfKeptTokens | src/ocr/document_processor.py:158 | the word count is the total word count of the kept tokens |
| DocumentProcessor.ExtractStructuredText | src/ocr/document_processor.py:124-160 | the loop computes the paragraphs' text, the mean confidence, the paragraph count and the word count |
| DocumentProcessor.ParagraphSpansBlocks | src/ocr/document_processor.py:138-145 | as written, kept tokens of blocks 1 and 2 end up in one paragraph when a dropped token sits at the block boundary |
| DocumentProcessor.GroupByBlock | src/ocr/document_processor.py:138-145 | the corrected grouping: a paragraph closes when the next kept token has another block number |
| DocumentProcessor.GroupByBlockCovers | src/ocr/document_processor.py:138-145 | grouping by the block of each kept token keeps every kept token, in order, with its block |
| DocumentProcessor.GroupByBlockSeparates | src/ocr/document_processor.py:138-145 | grouping by the block of each kept token never puts two blocks in one paragraph |
| DocumentProcessor.MergeSampleByBlock | src/ocr/document_processor.py:138-145 | the sample splits into one paragraph per block |
| DocumentProcessor.Basename | src/ocr/document_processor.py:103 | `os.path.basename` is the longest suffix without `/` |
| DocumentProcessor.PageRecordOf | src/ocr/document_processor.py:96-115 | page i is numbered i + 1 and names its source; a page whose OCR failed gets the empty record |
| DocumentProcessor.ExtractTextFromPdf | src/ocr/document_processor.py:68-122 | a conversion failure propagates; otherwise there is one record per page, in page order |
| DocumentProcessor.ExtractTextFromImage | src/ocr/document_processor.py:162-190 | a failure gives the empty record; otherwise the record carries the OCR text, average confidence and structure; the source is always the basename |
| Text.ContainsIffOccurs | mcp/mcp_integration.py:141 | Python's `sub in s` holds exactly when `sub` occurs at some index |
| Text.StripTrims | src/ocr/document_processor.py:132 | `strip` removes the leading and trailing whitespace and nothing else: the result is empty exactly when the string is all whitespace, and otherwise starts and ends with a non-space |
| Text.WordCountOfSpaceJoin | src/ocr/document_processor.py:158 | `len(' '.join(parts).split())` is the sum of the parts' word counts |
| Text.DigitsValueOfNatToString | src/rag/retrieval_system.py:45 | `int(str(n)) == n` |
| Text.NatToStringInjective | src/rag/retrieval_system.py:45 | distinct indices render to distinct strings |
| McpIntegration.QueryBuildingCodes | mcp/mcp_integration.py:72-80 | the query tool call carries the query and `k`, which defaults to 5 |
| McpIntegration.ApplyHeightRestrictions | mcp/mcp_integration.py:82-95 | categories not given default to walls, columns and structural framing |
| McpIntegration.CheckSetbackCompliance | mcp/mcp_integration.py:97-108 | property lines not given are sent as the empty list |
| McpIntegration.CreateComplianceReport | mcp/mcp_integration.py:110-123 | categories not given default to height, setbacks, fire safety and accessibility |
| McpIntegration.GenerateRevitScript | mcp/mcp_integration.py:125-133 | the script type defaults to python |
| McpIntegration.FindLength | mcp/mcp_integration.py:145 | `re.search` finds the leftmost number followed by a length unit |
| McpIntegration.LengthNumber | mcp/mcp_integration.py:145-149 | the captured group is a non-empty run of digits |
| McpIntegration.LeftmostLengthIsWholeRun | mcp/mcp_integration.py:145-149 | the captured height is a whole run of digits, never the tail of a longer number |
| McpIntegration.LengthNumbers | mcp/mcp_integration.py:156 | `re.findall` returns only digit strings, from successive non-overlapping matches |
| McpIntegration.FirstOfAll | mcp/mcp_integration.py:145-156 | `findall` finds something exactly when `search` does, and its first element is the `search` capture |
| McpIntegration.FindZone | mcp/mcp_integration.py:146 | the zone is the leftmost `r`, `c` or `m` followed by a digit |
| McpIntegration.Zone | mcp/mcp_integration.py:146-150 | the zone is the match at the leftmost position where r, c or m is followed by a digit: that letter upper-cased, then the whole digit run after it (an upper-case R, C or M followed by digits); R1 when there is no match |
| McpIntegration.FindProject | mcp/mcp_integration.py:167 | the leftmost position at or after the start where `project` is followed by whitespace and a word character |
| McpIntegration.ProjectName | mcp/mcp_integration.py:167-170 | the project name is the whole run of word characters after the whitespace that follows the leftmost `project` (non-empty, and the character after it, if any, is not a word character); "Current Project" when there is no match |
| McpIntegration.BuildingTypeAt | mcp/mcp_integration.py:168 | at one position the alternatives are tried in order: the result is the first listed word that occurs there, and there is none only when no listed word occurs there |
| McpIntegration.FindBuildingType | mcp/mcp_integration.py:168 | `re.search` finds the leftmost position where one of the four words occurs; there is none only when no position has one |
| McpIntegration.BuildingType | mcp/mcp_integration.py:168-171 | the building type is one of the four listed types: `residential` when none occurs, otherwise the word found at the leftmost position |
| McpIntegration.Route | mcp/mcp_integration.py:135-181 | the branches are taken in the order height, setback, report, script, query. Height without a number gives nothing. Setbacks need three numbers (front, side, rear) or one (uniform), else nothing. The report branch raises. Scripts and queries forward the request as typed |
| McpIntegration.RouteIntended | mcp/mcp_integration.py:165-173 | the intended routing never raises, and it sends report requests to the report tool with the extracted or default project and building type |
| McpIntegration.ReportRequestRaises | mcp/mcp_integration.py:144-167 | as written, "compliance report" raises `UnboundLocalError` |
| McpIntegration.ReportRequestIntended | mcp/mcp_integration.py:165-173 | as intended, "compliance report" asks for a residential report on the current project |
| McpIntegration.Envelope | mcp/mcp_integration.py:50-55 | the request is JSON-RPC 2.0 with id 1, the method and the params |
| McpIntegration.Respond | mcp/mcp_integration.py:57-70 | with no process, or a process without a stdin pipe, the reply is an error object; with a piped stdin it is the exchange's reply, or an error object carrying the exchange's failure message |
| McpIntegration.McpRevitIntegration.constructor | mcp/mcp_integration.py:17-20 | the client starts with no process and disconnected, with the server path `mcp/mcp_server.py` by default |
| McpIntegration.McpRevitIntegration.StartServer | mcp/mcp_integration.py:22-35 | success stores a process with stdout and stderr piped but not stdin, and connects; a failure changes nothing |
| McpIntegration.McpRevitIntegration.StartServerWithStdin | mcp/mcp_integration.py:25-29 | the start as intended: the stored process has its stdin piped too |
| McpIntegration.McpRevitIntegration.StopServer | mcp/mcp_integration.py:37-43 | with a process, it terminates it and disconnects, keeping the process object; without one, it does nothing |
| McpIntegration.McpRevitIntegration.SendRequest | mcp/mcp_integration.py:45-70 | when disconnected it starts the server first; every failure becomes an error object |
| McpIntegration.McpRevitIntegration.ProcessNaturalLanguageRequest | mcp/mcp_integration.py:135-181 | the routed tool call is sent as `tools/call`; no call means no response and no change; the report branch fails without a change; a disconnected client starts the server first and is connected after a successful spawn, and unchanged after a failed one |
| McpIntegration.FirstRequestAsWritten | mcp/mcp_integration.py:25-60 | as written, the first request of a new client always fails |
| McpIntegration.FirstRequestWithStdin | mcp/mcp_integration.py:45-70 | with stdin piped, the request reaches the server and its reply (or its error) is returned |

## Left out

- Character classes are ASCII only. Python's `str.lower`/`upper`, `str.strip`, `str.split` and the `re` classes `\s`, `\d` and `\w` are Unicode-aware. The model treats non-ASCII letters, digits and spaces as ordinary characters.
- Floating point is modelled as exact reals: scores, confidences and their mean, and the parsed heights and setbacks.
- The text splitter, the embedding model, the vector store, Tesseract, the PDF rasteriser, image preprocessing, HTTP, JSON, logging, `uuid` and asyncio are third-party code or I/O. Their results are inputs, and the ids `uuid4` would generate are a parameter of `AddDocuments`.
- Retrieval.RetrievalSystem.AddDocuments: the store is the log of `collection.add` calls; how the store treats a duplicate id is not modelled.
- Retrieval.RetrievalSystem.AddDocuments: the text splitter and the embedding model are total functions here, so an exception raised by `split_text` or `encode` is not modelled. A raising `collection.add` is modelled.
- Retrieval.RetrievalSystem.Retrieve: exceptions raised by `encode` or `collection.query`, and an `IndexError` on an answer without a first row, propagate in Python; the model returns a result for every query.
- LlmInterface.LocalLlmInterface.GenerateResponse: the `stream` argument only changes how `requests` buffers the body, and it is left out. The model drains the generator completely; a consumer that stops early is not modelled.
- DocumentProcessor.Basename: splits on `/` only, as `os.path.basename` does on POSIX; on Windows it also splits on `\`, which is not modelled.
- DocumentProcessor.WellFormed: the model assumes that the `conf` and `block_num` columns are at least as long as `text`, as Tesseract produces them. For any other table, `Usable` fails and the page or image gets the empty record. Python raises `IndexError` only when the loop reads past a short column, and that is caught by the same fallback; a short column the loop never reaches past would still be processed in Python, which is not modelled.
- DocumentProcessor.ExtractTextFromPdf: the `dpi` argument only affects the rasteriser, and it is left out.
- McpIntegration.McpRevitIntegration.StopServer: the model treats stopping an already stopped server like a first stop. It does not model whether asyncio raises when terminating a process that has already exited.
- The `RevitAutomationHelper` class, the Streamlit helpers and `setup_mcp_environment` in mcp/mcp_integration.py are not part of this model. Nor are the MCP server, the Streamlit app and the configuration module.
- Running the client's coroutines on different event loops (as the Streamlit helpers do) is not modelled.

## Findings

| source | as written | input that shows it | evidently intended | confidence | as-written member | corrected member |
|---|---|---|---|---|---|---|
| src/ocr/document_processor.py:139-145 | a paragraph closes only when the row right after a kept token has a different block number, and that row may itself be dropped | tokens a, b, c with confidences 90, 10, 90 and blocks 1, 1, 2: "a" and "c" form one paragraph | one paragraph per block of kept tokens | medium, not executed | DocumentProcessor.ParagraphSpansBlocks | DocumentProcessor.GroupByBlockSeparates |
| mcp/mcp_integration.py:144-167 | `import re` inside the height and setback branches makes `re` a local of the whole function, so the report branch reads it unbound | "compliance report" | the report branch calls `create_compliance_report` with the extracted or default project and building type | high, not executed | McpIntegration.ReportRequestRaises | McpIntegration.RouteIntended |
| mcp/mcp_integration.py:25-60 | the server is spawned without a stdin pipe, so `process.stdin` is `None` and writing the request fails | any request on a new client whose server starts | spawn with `stdin=PIPE` so the request reaches the server | high, not executed | McpIntegration.FirstRequestAsWritten | McpIntegration.FirstRequestWithStdin |

The OCR records (`ExtractTextFromPdf`, `ExtractTextFromImage`) keep the grouping as written, so they stay faithful to the code. `GroupByBlock` is the corrected grouping, with its properties proved beside it.
