# SYNAPSE chat agent: a Dafny model of its deterministic core

SYNAPSE is a chat agent. Each turn runs a two-node graph: the chat node asks a language model for an answer, and the tools node runs the tool calls that answer requests. The tools are web search, a stock quote, a student-record lookup over a spreadsheet, and a retrieval tool (RAG) over an uploaded PDF or DOCX document. A small Streamlit front end keeps the session state, lists conversations by title, replays a stored conversation and streams the model's answer.

This project models the logic that sits between those library calls:

- `strings.dfy` (module `Strings`): the Python string operations the code relies on. These are `in`, `endswith`, `lower`, `strip`, slicing and `join`.
- `messages.dfy` (module `Messages`): the four message kinds (system, human, AI with tool calls, tool result).
- `backend.dfy` (module `Backend`):
  - the message preparation done before every model call (`PrepareMessages`);
  - the chat node, whose state update is only the model's answer;
  - the chat/tools routing as a state machine (`Step`, `Steps`);
  - the `chat_titles`/`thread_files` tables as a class over two maps (`ThreadStore`).
- `tools.dfy` (module `Tools`):
  - the document key: the hex digest of the path string;
  - the retrieval tool's cache-or-build policy as a function (`RagStep`) and as a method on the persisted store (`VectorStore.Rag`);
  - extension dispatch, top-5 retrieval and the `"\n\n---\n\n"` join;
  - the first-match student lookup with blank filling.
- `frontend.dfy` (module `Frontend`):
  - the session state as a class (`Session`): `add_thread`, `reset_chat`, thread selection, upload and input submission;
  - the replay filter and stream accumulation as loops proved against recursive specifications;
  - title derivation;
  - POSIX `splitext`/`join` for the upload path.

The language model, MD5, the document loaders, the text splitter, the similarity ranking and tool execution are parameters of the model (function values), so every property holds for any behaviour of them.

Facts about the code that the model keeps as written:

- The retrieval answer is the top-ranked passages, at most five, joined by the separator. No passages give the empty string.
- The document key is the digest of the path string, not of the file's bytes.
- The chat/tools loop has no iteration bound.
- Opening the Chroma collection creates it. A call with an unsupported extension therefore leaves behind an empty collection under the document's key. No passages are ever added to it.
- The `"RETRIEVED PASSAGES"` test in the chat node looks for text that the retrieval tool never emits. The synthesis note is therefore injected only when a tool result happens to contain that text. The model keeps the test as written, over arbitrary content.
- The guidance note and the synthesis note are injected into the list given to the model. They are not stored in the history, so they are never duplicated there (`InjectionsNeverPersisted`, `PrepareIdempotent`). The guidance is re-injected before a model call of a thread that has a document when the last message is not a tool result containing `"RETRIEVED PASSAGES"`. In that case only the synthesis note is injected.

## Model

| member | source | states |
|---|---|---|
| `Strings.ContainsIff` | Backend.py:32-36 | Python's `sub in s` holds exactly when `sub` occurs at some index of `s` |
| `Strings.JoinLength` | Tools.py:163 | the length of `sep.join(parts)` is the parts' total length plus one separator's length for each pair of neighbours |
| `Strings.JoinContainsParts` | Tools.py:163 | every part can be found in `sep.join(parts)` |
| `Backend.PrepareMessages` | Backend.py:26-74 | the list given to the model is the history, or the history with one SystemMessage inserted at the front or just before the last message; input order is kept and it is at most one longer |
| `Backend.PrepareWithoutFile` | Backend.py:26-34 | with no file path, or an empty one, the model sees the history exactly |
| `Backend.PrepareAddsGuidance` | Backend.py:35-52 | with a file path, no "document has been uploaded" note and no retrieval result last, the result is the guidance note followed by the history unchanged |
| `Backend.PrepareKeepsExistingNote` | Backend.py:35-54 | with a note already present and no retrieval result last, nothing is injected (no duplicate guidance) |
| `Backend.PrepareAddsSynthesis` | Backend.py:54-74 | after a retrieval result the synthesis note sits second to last, the retrieval result stays last and every earlier message is unchanged |
| `Backend.PrepareEmpty` | Backend.py:31-32 | an empty history is never a retrieval result; it receives guidance only when a file is attached |
| `Backend.GuidanceIsDocNote` | Backend.py:35-51 | the injected guidance is itself recognised by the case-insensitive "document has been uploaded" test |
| `Backend.HeadedTextIsDocNote` | Backend.py:36-43 | any text that starts like the guidance passes that test |
| `Backend.MarkerInHead` | Backend.py:36-43 | the guidance's first line holds the marker text at index 2 |
| `Backend.MarkerCharIsLower` | Backend.py:36 | the marker is unchanged by lower-casing |
| `Backend.PrepareIdempotent` | Backend.py:34-52 | preparing an already prepared list adds nothing when no retrieval result is last |
| `Backend.ChatNode` | Backend.py:76-77 | the state update is exactly one AI message, the model's answer to the prepared list, and never an injected SystemMessage |
| `Backend.RouteAfterChat` | Backend.py:86 | after the chat node, control goes to the tools exactly when the latest AI message has tool calls, otherwise to the end |
| `Backend.ToolResults` | Backend.py:79-83 | the tools node produces one ToolMessage per requested call, in request order, carrying that call's id |
| `Backend.Step` | Backend.py:85-87 | one graph transition keeps the history as a prefix of the new history and keeps the file path |
| `Backend.Steps` | Backend.py:84-87 | any number of graph transitions keeps the history as a prefix and keeps the file path, and leaves a finished run unchanged |
| `Backend.ChatRoutesOnToolCalls` | Backend.py:85-86 | from the chat node the next node is the tools node if the answer requests tools, and the end otherwise |
| `Backend.ToolsReturnToChat` | Backend.py:87 | from the tools node control always returns to the chat node |
| `Backend.EveryCallAnsweredOnce` | Backend.py:79-87 | after an answer with tool calls, the next chat node runs on the history plus that answer plus exactly one result per call, in order |
| `Backend.EndIsFinal` | Backend.py:86 | once the end is reached, no further step changes the state or asks the model |
| `Backend.StepAppendsNoSystem` | Backend.py:76-87 | a single step appends no SystemMessage to the history |
| `Backend.InjectionsNeverPersisted` | Backend.py:76-87 | after any number of steps the old history is a prefix of the new one and nothing appended is a SystemMessage |
| `Backend.ThreadStore.constructor` | Backend.py:88-101 | opening the database keeps the rows both tables already hold; a new database file starts with both empty |
| `Backend.ThreadStore.AllThreads` | Backend.py:107-110 | returns every thread id with its title |
| `Backend.ThreadStore.SaveThreadFile` | Backend.py:112-118 | INSERT OR REPLACE: the thread now maps to the path, other threads are unaffected, titles are unchanged |
| `Backend.ThreadStore.SaveTitle` | Frontend.py:11-15 | INSERT OR REPLACE on the titles table |
| `Backend.ThreadStore.GetThreadFile` | Backend.py:120-127 | None exactly for a thread never saved, otherwise the path saved last |
| `Backend.SaveThenGet` | Backend.py:112-127 | a read after a save returns the saved path, a later save overwrites it, and another thread's entry is unchanged |
| `Tools.Hex` | Tools.py:101 | the hex digest has two lower-case hex digits per byte |
| `Tools.UnhexHex` | Tools.py:101 | the hex digest text determines the digest bytes |
| `Tools.HexInjective` | Tools.py:101 | different digests give different hex texts |
| `Tools.FileId` | Tools.py:99-101 | the document key is computed from the path string alone, as lower-case hex |
| `Tools.CollectionName` | Tools.py:126-130 | the collection is named `file_` followed by the document key |
| `Tools.CollectionNameSeparates` | Tools.py:99-130 | two paths share a collection exactly when their digests are equal; file contents play no part |
| `Tools.Retrieve` | Tools.py:160-161 | the retriever returns the best-ranked passages in rank order, at most 5, and exactly 5 when at least 5 are ranked |
| `Tools.FormatPassages` | Tools.py:163 | no passages give the empty answer, and a single passage gives exactly its text |
| `Tools.FormatPassagesContents` | Tools.py:163-164 | zero passages give the empty string; otherwise the answer's length is the texts' total length plus one separator's length between neighbours, and the answer contains every passage's text |
| `Tools.OpenCollection` | Tools.py:126-132 | opening a collection creates it empty if absent and leaves an existing one as it is |
| `Tools.RagStep` | Tools.py:120-164 | one call always leaves the document's collection in the store and leaves every other collection unchanged |
| `Tools.RagReusesIndex` | Tools.py:132-157 | a collection that already has passages is reused as is: no loading, splitting or adding, and the answer comes from the stored passages |
| `Tools.RagRejectsOnlyEmpty` | Tools.py:134-147 | the unsupported-format error happens exactly when the collection is empty and the path ends in neither `.pdf` nor `.docx`; the answer is the exact error text and the collection stays empty |
| `Tools.RagLoaderByExtension` | Tools.py:142-151 | with an empty collection a `.pdf` path is loaded by the PDF loader, otherwise a `.docx` path by the DOCX loader, and the collection becomes the split chunks |
| `Tools.RagBuildsOnce` | Tools.py:132-157 | once a call leaves passages in the collection, a later call with the same path reuses them and changes nothing |
| `Tools.RagAnswerIsTopPassages` | Tools.py:159-164 | every non-error answer is at most five passages from the front of the ranking, joined in rank order |
| `Tools.VectorStore.Rag` | Tools.py:103-164 | the imperative tool leaves the store, the path taken and the answer exactly as `RagStep` describes |
| `Tools.VectorStore.constructor` | Tools.py:126-130 | the persisted `RAG_Docs` store opens with the collections it already holds |
| `Tools.FirstMatch` | Tools.py:75-83 | finds the first row whose Roll_Number equals the roll number, or reports that no row matches |
| `Tools.FillBlanks` | Tools.py:86-89 | the result keeps every column key of the row |
| `Tools.GetStudentDetails` | Tools.py:67-96 | the tool answers (rather than raising) exactly when the workbook is read and has a Roll_Number column; an answer is empty exactly when no row has the roll number, and a non-empty answer's Roll_Number is the requested roll number |
| `Tools.StudentNotFoundIsEmpty` | Tools.py:75-79 | no matching row gives the empty dictionary, not an error |
| `Tools.StudentFirstMatch` | Tools.py:83-91 | with a match, the first matching row is returned with every column kept, missing cells as '' and present cells as they are |
| `Tools.StudentErrors` | Tools.py:93-96 | a missing or unreadable workbook, or one without a Roll_Number column, is an error outcome |
| `Frontend.Title` | Frontend.py:117-118 | the title is the first 30 characters of the input, or all of a shorter input |
| `Frontend.SplitExt` | Frontend.py:41 | `splitext` splits the name into root and extension with root + extension == name; the extension is empty or one dot followed by no dot or slash |
| `Frontend.SplitExtOfStem` | Frontend.py:41 | a name that is a stem (no slash, not all dots) plus a dotted extension splits into exactly that stem and extension |
| `Frontend.DotsOnlyStemHasNoExtension` | Frontend.py:41 | a name whose part before the last dot is only dots (`.pdf`, `..docx`) has no extension, so together with `SplitExtOfStem` the split of every slash-free name ending in an extension is determined |
| `Frontend.PathJoin` | Frontend.py:42 | `os.path.join` returns an absolute second part as is, and otherwise the first part followed by the second |
| `Frontend.UploadPath` | Frontend.py:41-42 | the saved path always ends with the thread id followed by the upload's extension |
| `Frontend.UploadPathShape` | Frontend.py:38-42 | the upload is saved at `uploaded_files/<thread_id><extension>` |
| `Frontend.UploadKeepsExtension` | Frontend.py:41-42 | an upload named `<stem>.pdf` or `<stem>.docx` is saved under a path with that extension, which the retrieval tool accepts |
| `Frontend.HandleFileUpload` | Frontend.py:33-49 | no upload gives None and no change; otherwise the upload path is recorded for the thread and returned |
| `Frontend.LoadConversation` | Frontend.py:27-31 | a thread with no checkpoint or no messages loads as []; otherwise its stored messages are returned |
| `Frontend.ReplayHistory` | Frontend.py:97-107 | the replay loop computes the replay specification of the stored messages |
| `Frontend.ReplayAppend` | Frontend.py:98-106 | the replay handles messages one at a time, in order: replaying two stretches is replaying each |
| `Frontend.ReplayAround` | Frontend.py:98-106 | a message in the middle of a history contributes its own entries in place |
| `Frontend.ReplayDropsToolMessage` | Frontend.py:106 | a ToolMessage anywhere adds nothing to the display |
| `Frontend.ReplayKeepsHumanMessage` | Frontend.py:100-101 | each HumanMessage gives exactly one user entry with identical content, in place |
| `Frontend.ReplayAIMessage` | Frontend.py:102-105 | an AIMessage gives an assistant entry exactly when its content is not blank after stripping |
| `Frontend.ReplayLength` | Frontend.py:97-107 | the display never has more entries than there are stored messages |
| `Frontend.AccumulateStream` | Frontend.py:137-148 | the streaming loop computes the concatenation specification of the chunks |
| `Frontend.AccumulatedAppend` | Frontend.py:140-148 | the accumulated answer of two stretches of stream is the two answers concatenated in order |
| `Frontend.AccumulatedSkipsOtherChunks` | Frontend.py:145-150 | a chunk that is not an AIMessage adds nothing |
| `Frontend.AccumulatedTakesAIChunk` | Frontend.py:146-148 | an AI chunk's content lands in place, in arrival order |
| `Frontend.AnswerEntries` | Frontend.py:152-162 | a streamed turn adds one assistant entry holding the accumulated answer exactly when that answer is not blank, and none otherwise; a failed turn adds the entry `"Error: " + error`; never a blank entry |
| `Frontend.Session.constructor` | Frontend.py:52-65 | a first run starts with the fresh thread, an empty display, all stored titles and that thread's file |
| `Frontend.Session.AddThread` | Frontend.py:8-15 | session map and titles table change only when the thread is absent, so the first title wins |
| `Frontend.Session.ResetChat` | Frontend.py:21-25 | the new thread id is set, the display is empty and the file path is None; titles are unchanged |
| `Frontend.Session.SelectThread` | Frontend.py:93-108 | selecting a thread sets its id and file, and shows the replay of its stored messages |
| `Frontend.Session.UploadFile` | Frontend.py:80-85 | an upload is saved and becomes the current file only while the session has no file |
| `Frontend.Session.SubmitInput` | Frontend.py:116-162 | a non-empty input sets the title only when the display is empty and the thread is new, shows the input, then the non-blank streamed answer or the error text |

## Left out

- The Cohere model call, `bind_tools` and the model's choice of tools: the model is a parameter `llm` from the prepared messages to a reply (text and tool calls).
- LangGraph internals. The `add_messages` reducer is modelled as append, without replacement by message id. `ToolNode` is modelled as one result per call from a parameter `invoke`; its error handling for failing or unknown tools is folded into `invoke`. The `SqliteSaver` checkpointer is modelled as a map of thread values given to `LoadConversation`.
- `Frontend.Session.SubmitInput` does not run the graph. The stream it reads, or the exception it catches, is a parameter. The `file_path` that the turn passes to the graph is not modelled: when it is omitted, the checkpointed value from an earlier turn persists.
- MD5 and the UTF-8 encoding of the path: a parameter `md5` from the path string to bytes.
- Chroma, the HuggingFace embeddings and the similarity search: the ranking is a parameter `rank`. The PDF and DOCX loaders and `RecursiveCharacterTextSplitter` (chunk size 1000, overlap 200) are parameters too. `persist()` is not modelled, since the store is a map. The console lines printed by the retrieval tool are represented by the returned `IndexAction`. Adding an empty chunk list (a document with no extractable text) is modelled as leaving the collection empty; the library may raise there instead.
- `Tools.RagStep` and `Tools.VectorStore.Rag`: the loaders and the splitter are total functions, so a loader or splitter that raises (a missing or corrupt file) is not modelled. In the code that failure leaves the newly created collection empty and raises out of the tool; the next call on the same path then tries the build again.
- The web search and stock-price tools: network calls with no logic of their own.
- pandas reading of the workbook: the workbook is a `Sheet` value. Cells are integers or text. Floating-point cells and NaN detection are not modelled; a missing cell is `None`. Exceptions are error results carrying their message text.
- `str.lower()` and `str.strip()` are modelled for ASCII letters and the ASCII whitespace characters. Other Unicode case mappings and whitespace are not.
- Streamlit rendering, `st.rerun`, widgets and the `no_of_thread` counter, which is never read. The display order of conversations follows dictionary insertion order (`reversed(items())`); maps do not model it.
- `uuid` thread ids: a parameter `freshId`. The disk write of the uploaded bytes and the `uploaded_files` directory creation.
- sqlite I/O and `commit`: the two tables are maps. Concurrency (`check_same_thread=False`) is not modelled.
- A model call that raises aborts the turn before any state update; failures of the model are not modelled.
