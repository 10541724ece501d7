# DocQA session state, modelled in Dafny

DocQA is a question-answering app for PDF documents. A Next.js client shows the
document, a history of uploaded files, a chat panel and a settings popover. A
FastAPI backend stores the upload and keeps one global session record. It builds
the chat model and the embedding model, and answers questions through a two-node
retrieval graph.

This project models how both sides keep track of the session.

On the client, the shared state lives in `Page.Session`: the `DocConfig` record
and the list of uploaded files. Each component is a class holding its own flags:
- `PdfViewer.Viewer`: page count, current page, zoom and the embedding flag;
- `Document.Panel`: the uploading flag;
- `Chat.Input` and `Chat.Panel`: the text box and the thinking flag;
- `Settings.Popover`: four local selections.

Each asynchronous handler is split at its `await`:
- `Begin*` covers the guard, the busy flag, any optimistic write and the request sent;
- `Complete*` covers the patch, applied from the record the handler started with, and clearing the flag;
- `Handle*` composes the two for one backend reply, passed in as a parameter.

On the server, `ServerState.Backend` holds:
- the global `DocConfig`;
- the uploaded temporary files and the saved history records, both keyed by path.

`UploadApi` and `SettingApi` are the endpoints that change it. `RagModels` holds:
- the chat-model builder;
- the checks made before a graph is built;
- the retrieve and generate nodes.

The chat model's `invoke`, the vector store's search and the client constructors
are parameters.

The model proves several properties that cross the client–server boundary:
- the settings panel sends the embedding key under a name the backend does not
  read, so the key never arrives and the hosted embedding model can never be
  selected (`SettingApi.EmbeddingKeyNeverArrives`, `SettingApi.HostedEmbeddingUnreachable`);
- history paths replace every "pdf", so "pdf.pdf" and "json.pdf" share one history
  file (`UploadApi.HistoryPathsCollide`);
- a failed upload happens after the session reset, so the previous session is lost
  (`UploadApi.Upload`).

Only the send button is disabled while an answer is pending
(`frontend/src/components/Chat.tsx:77`); Enter still sends while thinking
(`Chat.Input.HandleKeyDown`).

Strings are `seq<char>`. Numbers the source treats as integers are `int`. The zoom
scale is an integer number of tenths.

## Model

| member | source | states |
|---|---|---|
| Page.Session.constructor | frontend/src/app/page.tsx:15-26 | The session starts with no file, no language, no embedding key, not embedded, an empty chat and an empty file history; the model defaults are the given ones |
| PdfViewer.Navigate | frontend/src/components/PDFViewer.tsx:62-86 | A page move is taken exactly when the target is a page of the loaded document, otherwise the current page stays; an in-range page stays in range |
| PdfViewer.NextThenPrevRestores | frontend/src/components/PDFViewer.tsx:62-73 | Next then previous returns to the same interior page |
| PdfViewer.BoundaryMovesAreNoOps | frontend/src/components/PDFViewer.tsx:62-73 | Previous on page 1 and next on the last page change nothing |
| PdfViewer.Zoomed | frontend/src/components/PDFViewer.tsx:174-175 | Zooming out never goes below 0.5, zooming in never above 3, and from an in-range scale one press moves at most 0.1 and stays in range |
| PdfViewer.ZoomsStayInRange | frontend/src/components/PDFViewer.tsx:174-175 | From any in-range scale, the initial 1.5 among them, every sequence of presses stays within [0.5, 3] |
| PdfViewer.OpensExternally | frontend/src/components/PDFViewer.tsx:104-107 | A clicked link opens in a new context exactly when its href is non-empty, starts with "http" and is not an in-page fragment of this origin (the "https" test is subsumed) |
| PdfViewer.Viewer.constructor | frontend/src/components/PDFViewer.tsx:28-32 | The viewer starts with 0 pages, on page 1, at scale 1.5, not embedding |
| PdfViewer.Viewer.OnDocumentLoadSuccess | frontend/src/components/PDFViewer.tsx:56-59 | The page count is stored and the viewer returns to page 1, which is in range for a non-empty document |
| PdfViewer.Viewer.LastPage | frontend/src/components/PDFViewer.tsx:62-66 | The page becomes the bounds-checked move to the previous page; an in-range page stays in range |
| PdfViewer.Viewer.NextPage | frontend/src/components/PDFViewer.tsx:69-73 | The page becomes the bounds-checked move to the next page; an in-range page stays in range |
| PdfViewer.Viewer.GoToPage | frontend/src/components/PDFViewer.tsx:76-86 | An unparsable entry (NaN) changes nothing; a number is a bounds-checked move; an in-range page stays in range |
| PdfViewer.Viewer.HandleItemClick | frontend/src/components/PDFViewer.tsx:89 | An in-document link to any non-zero page is taken without a bounds check; page 0 changes nothing |
| PdfViewer.Viewer.ZoomOutPressed | frontend/src/components/PDFViewer.tsx:174 | The scale becomes one zoom-out step, never below 0.5 |
| PdfViewer.Viewer.ZoomInPressed | frontend/src/components/PDFViewer.tsx:175 | The scale becomes one zoom-in step, never above 3 |
| PdfViewer.Viewer.EmbedDisabled | frontend/src/components/PDFViewer.tsx:169 | The embed button is disabled while embedding, without a document, or once embedded |
| PdfViewer.Viewer.BeginEmbed | frontend/src/components/PDFViewer.tsx:119-127 | An embedded session or one without a file sends nothing; otherwise the embedding request goes out with no timeout, the busy flag is set and the button is disabled |
| PdfViewer.Viewer.CompleteEmbed | frontend/src/components/PDFViewer.tsx:127-133 | Success marks the starting record embedded and shows nothing; failure leaves the record and shows the message; the busy flag is cleared either way |
| PdfViewer.Viewer.HandleEmbed | frontend/src/components/PDFViewer.tsx:119-134 | The whole handler: only `is_embedded` can change, only on success, and the flag ends cleared |
| PdfViewer.Viewer.HandleSelectLanuage | frontend/src/components/PDFViewer.tsx:137-149 | An empty choice sends nothing; otherwise the language request goes out with a 1 s timeout and only `lanuage` is patched, only on success; failure shows the message |
| Document.AddIfAbsent | frontend/src/components/Document.tsx:69-73 | After an accepted upload the file's name is in the history; a known name leaves the history as is, a new one is appended at the end; distinct names stay distinct |
| Document.Panel.constructor | frontend/src/components/Document.tsx:38 | The panel starts not uploading |
| Document.UploadAccepted | frontend/src/components/Document.tsx:60 | An upload reply is used only when its state holds and both `file_name` and `tmp_file_path` are strings |
| Document.Panel.UploadDisabled | frontend/src/components/Document.tsx:120 | The file input is disabled exactly while an upload is pending |
| Document.Panel.EntryDisabled | frontend/src/components/Document.tsx:19-20 | A history entry is disabled exactly when it names the open document |
| Document.Panel.BeginFileChange | frontend/src/components/Document.tsx:41-59 | No selection sends nothing; otherwise the first file is uploaded with a 1 s timeout, the uploading flag is set and the input is disabled |
| Document.Panel.CompleteFileChange | frontend/src/components/Document.tsx:59-76 | A reply with state and both string fields sets the file fields from it, clears language, embedded flag and chat, keeps the model settings and records a new name; any other reply changes nothing; the flag is cleared |
| Document.Panel.HandleFileChange | frontend/src/components/Document.tsx:41-79 | The whole fresh-upload handler, including that the four model fields survive an accepted upload and that the history keeps distinct names |
| Document.Panel.BeginHistoryFile | frontend/src/components/Document.tsx:81-93 | Re-selecting a history entry uploads that file and sets the uploading flag |
| Document.Panel.CompleteHistoryFile | frontend/src/components/Document.tsx:93-98 | An accepted reply patches only the two file fields; other replies change nothing; the flag is cleared |
| Document.Panel.HandleClickHistoryFile | frontend/src/components/Document.tsx:81-100 | The whole re-select handler: language, embedded flag, chat and model fields survive and the history is untouched |
| Document.Panel.ClickHistoryEntry | frontend/src/components/Document.tsx:15-21 | The entry naming the open document is disabled and does nothing; any other entry uploads that file, ends with the flag cleared, and on an accepted reply patches only the two file fields, otherwise leaves the record |
| Chat.TrimStart | frontend/src/components/Chat.tsx:29 | The result is a suffix of the input, only white space is cut off, and it does not start with white space |
| Chat.TrimEnd | frontend/src/components/Chat.tsx:29 | The result is a prefix of the input, only white space is cut off, and it does not end with white space |
| Chat.TrimEmptyIffBlank | frontend/src/components/Chat.tsx:29-31 | The trimmed text is empty exactly when the text is all white space |
| Chat.Input.constructor | frontend/src/components/Chat.tsx:17 | The text box starts empty |
| Chat.Input.SendDisabled | frontend/src/components/Chat.tsx:77 | The send button is disabled while thinking or while the trimmed text is empty |
| Chat.Input.HandleSend | frontend/src/components/Chat.tsx:28-35 | A blank box sends nothing and keeps its text; otherwise the non-empty trimmed text is sent and the box is cleared; a click sends exactly when the button is enabled outside thinking |
| Chat.Input.HandleKeyDown | frontend/src/components/Chat.tsx:38-50 | Enter without Shift behaves as the send button even while thinking; any other key sends nothing |
| Chat.Answer | frontend/src/components/Chat.tsx:137-139 | A reply yields the assistant's turn exactly when its state holds and both `role` and `message` are strings, and then carries those two strings |
| Chat.Panel.constructor | frontend/src/components/Chat.tsx:118 | The panel starts not thinking |
| Chat.Panel.BeginSend | frontend/src/components/Chat.tsx:121-136 | An empty text does nothing; otherwise the user's turn is appended before the reply, thinking is set and the question is sent with a 60 s timeout |
| Chat.Panel.CompleteSend | frontend/src/components/Chat.tsx:136-148 | A usable answer is appended after the user's turn on the starting record; otherwise the record stays and the message is shown; thinking is cleared |
| Chat.Panel.HandleSend | frontend/src/components/Chat.tsx:121-149 | The history only grows: by the user's turn and, on a usable answer, by that answer; nothing else in the record changes |
| Settings.ModelPayload | frontend/src/components/Settings.tsx:19-24 | The body carries exactly the four selections under `embedding_model_name`, `EmbeddingModelAPIKey`, `llm_name` and `llm_api_key` |
| Settings.Popover.constructor | frontend/src/components/Settings.tsx:13-16 | The four selections start as the record's four model fields |
| Settings.Popover.HandleClick | frontend/src/components/Settings.tsx:18-37 | The selections are sent with a 3 s timeout; on success exactly the four model fields take them, on failure the record is untouched; the message is shown either way |
| ServerState.Backend.constructor | backend/schemas/DocQA_types.py:5-18 | The backend starts with the record's field defaults (all None, empty chat) and no files |
| ServerState.Backend.InitDocConfig | backend/api/upload.py:94 | The session record is reset to its field defaults |
| RagModels.BuildLlm | backend/rag/models.py:12-61 | The build succeeds exactly for "DeepSeek-V3", "gpt-3.5-turbo" and "gpt-4" when construction does not raise; other names report "unsupported", a raise reports the error; a failure keeps "llm" None |
| RagModels.InitialMessage | backend/rag/models.py:170-177 | The role message is a system message without tool calls, so the generate node keeps it and the query loop never takes it for a question |
| RagModels.SeededMemory | backend/rag/models.py:184-199 | The memory after the seeding run: the role message, the retrieve node's no-question reply, and the chat model's answer to the prompt built from those two |
| RagModels.BuildRagGraph | backend/rag/models.py:64-210 | A missing chat model is reported before a missing vector store; compile or seeding errors fail; success returns the graph over that model and store, on thread "1", whose memory is what the seeding run through the retrieve and generate nodes leaves (one call of the chat model) |
| RagModels.FirstQuestionAfterSeeding | backend/rag/models.py:85-92 | The seeding run asks no question, so the user's first question is selected by the loop as written and by the corrected one alike; the two part only from the second question on |
| RagModels.FirstHumanContentSpec | backend/rag/models.py:86-89 | The earliest-question selection is None exactly when no message is human, and otherwise the content of a human message with none before it |
| RagModels.LastHumanContentSpec | backend/rag/models.py:85-89 | The newest-question selection is None exactly when no message is human, and otherwise the content of a human message with none after it |
| RagModels.SelectQueryAsWritten | backend/rag/models.py:86-89 | The loop as written selects the earliest question |
| RagModels.SelectLatestQuery | backend/rag/models.py:85-89 | The loop with a stop at the first hit selects the newest question |
| RagModels.AsWrittenRepeatsFirstQuestion | backend/rag/models.py:85-89 | Once a conversation holds a question, the loop as written ignores every later one, while the newest question is the one just asked |
| RagModels.QuerySelectionDiffers | backend/rag/models.py:85-89 | On [human "a", ai, human "b"] the loop as written picks "a" and the newest is "b" |
| RagModels.JoinWith | backend/rag/models.py:116 | Joining no parts is empty, one part is itself, and the length is the parts' lengths plus one separator between each two |
| RagModels.RetrieveNode | backend/rag/models.py:80-130 | With no question the fixed reply is returned without calling the model; otherwise the newest question is rewritten, three passages are searched and returned joined in one tool message |
| RagModels.TrailingTools | backend/rag/models.py:137-144 | The longest run of tool messages at the end, in original order: a suffix, all tool messages, preceded by no tool message |
| RagModels.RecentToolMessages | backend/rag/models.py:137-144 | The collect-then-reverse loop yields exactly the trailing run of tool messages |
| RagModels.ConversationMessages | backend/rag/models.py:152 | Only human, system and tool-call-free AI messages are kept, every such message is kept, and nothing is added |
| RagModels.ConversationOfConcat | backend/rag/models.py:152 | The filter keeps relative order: filtering a concatenation concatenates the filtered parts |
| RagModels.ConversationIdempotent | backend/rag/models.py:152 | Filtering twice equals filtering once |
| RagModels.GeneratePrompt | backend/rag/models.py:146-153 | The prompt is one system message opening with the instruction, then the filtered conversation: its length is one plus the filtered length, and every human or system message reaches it |
| RagModels.GenerateNode | backend/rag/models.py:132-166 | The answer is the model's reply to the prompt built from the messages |
| RagModels.RetrievedContextReachesPrompt | backend/rag/models.py:123-153 | After a question and the retrieve node's tool message, the generate prompt carries exactly those passages |
| UploadApi.PathJoin | backend/api/upload.py:24 | An absolute name replaces the directory; otherwise the path is the directory, at most one separator and the name, with a separator before the name when the directory is non-empty |
| UploadApi.ReplaceAll | backend/api/upload.py:44 | Python `str.replace`: non-overlapping occurrences, left to right (its properties are the lemmas below) |
| UploadApi.ReplaceLength | backend/api/upload.py:44 | A replacement as long as the pattern keeps the length; a longer one, as "json" for "pdf", never shortens the string |
| UploadApi.ReplaceWithoutOccurrence | backend/api/upload.py:44 | A path without "pdf" is left unchanged by the replacement |
| UploadApi.NoPdfAfterReplace | backend/api/upload.py:44 | After the replacement no "pdf" remains anywhere, including across replaced pieces |
| UploadApi.ReplaceSplits | backend/api/upload.py:44 | The replacement splits at a directory separator: directory and file name are replaced independently |
| UploadApi.HistoryPath | backend/api/upload.py:44 | The history path: the joined path with every "pdf" replaced by "json" (its properties are the lemmas below) |
| UploadApi.HistoryPathHasNoPdf | backend/api/upload.py:44 | No "pdf" is left anywhere in a history path, the directory part included, and it is no shorter than the joined path |
| UploadApi.HistoryPathsCollide | backend/api/upload.py:44 | "pdf.pdf" and "json.pdf" are saved to the same history file in any directory |
| UploadApi.CollidingNames | backend/api/upload.py:44 | Both "pdf.pdf" and "json.pdf" become "json.json" |
| UploadApi.SavedRecord | backend/api/upload.py:45-58 | The saved record carries the document's file name, language and model names, and one chat entry per message, none for a missing chat |
| UploadApi.SerializeChatHistory | backend/api/upload.py:54-58 | The saved chat has the stored one's length and order, each entry being its role and content; a missing chat saves as empty |
| UploadApi.SaveCurrentDoc | backend/api/upload.py:35-71 | No file: "没有文件。" with state true and nothing written; otherwise the record is stored at its history path, or a raised write is reported with state false and nothing stored |
| UploadApi.SaveTmpUploadFile | backend/api/upload.py:16-32 | A file without a name fails with nothing stored; a named file is stored at the joined temporary path, which is returned |
| UploadApi.SaveOutcome | backend/api/upload.py:115 | True exactly when there was no previous document or its record was saved; otherwise the save error prefixed with its source |
| UploadApi.Upload | backend/api/upload.py:74-118 | Same name as the current document: the current names are echoed and nothing changes; otherwise the previous record is saved, the session reset, and the upload becomes current with both names echoed, or a nameless file fails after the reset |
| SettingApi.ParseModelConfig | backend/api/setting.py:18-22 | A body is accepted exactly when the three required fields are strings and the optional key is missing, null or a string; the fields come from their own keys |
| SettingApi.ParseIgnoresUndeclaredKeys | backend/api/setting.py:18-22 | Keys the record does not declare do not affect validation |
| SettingApi.EmbeddingKeyNeverArrives | frontend/src/components/Settings.tsx:19-24 | Every body the settings panel sends is accepted with the embedding key absent, whatever key the user typed |
| SettingApi.BuildEmbeddingModel | backend/rag/vector.py:17-48 | "llama3" and, with a key, "OpenAIEmbeddings" succeed unless construction raises; the hosted model without a key asks for one; other names are unsupported |
| SettingApi.HostedEmbeddingUnreachable | backend/rag/vector.py:31-39 | Choosing "OpenAIEmbeddings" in the settings panel always fails with the request for a key |
| SettingApi.LlmChanged | backend/api/setting.py:33 | The chat model is rebuilt when the requested name or key differs from the stored one |
| SettingApi.EmbeddingChanged | backend/api/setting.py:44 | The embedding model is rebuilt when the requested name or key differs from the stored one |
| SettingApi.ConfigSetModel | backend/api/setting.py:25-54 | The chat model is rebuilt only when name or key differ, the embedding model likewise; a chat-model failure changes nothing; an embedding failure after a rebuild keeps the new chat model; success leaves the requested names stored; the embedding key and the non-model fields are never written |
| SettingApi.ConfigSetLanuage | backend/api/setting.py:57-71 | A non-empty language is stored and echoed with state true; an empty one is refused with "未设置语言！" and nothing changes |

## Left out

- `RagModels.RetrieveNode` selects the newest question. As written, the source selects the earliest one (see Findings).
- `frontend/src/types/api.ts` (the HTTP call) is a parameter: every handler takes the backend's reply. A transport failure is the reply with state false and "请求失败！". The error object in that reply is not modelled.
- Interleaving between handlers is not modelled. Each `Handle*` is one transition from the record it starts with. A second handler running between `Begin*` and `Complete*` is not modelled, and neither is React's render cycle.
- Rendering is not modelled: JSX, the textarea auto-resize, the dynamic `react-pdf` import and worker set-up, the listener registration and all logging.
- The text-box `onChange` and the four selection setters of the settings popover are not modelled. Each is a plain field assignment.
- `PdfViewer.Zoomed`: the scale is exact tenths. The binary floating-point drift of repeated ±0.1 is not modelled.
- `PdfViewer.Viewer.HandleItemClick` takes an integer page. A NaN destination, which is falsy like 0, is not modelled.
- File bytes are stood for by a number. A raise while writing the temporary file is not modelled: the source lets it escape `save_tmp_upload_file` as a server error. Closing the upload is also not modelled.
- `UploadApi.SaveCurrentDoc`: a raised write leaves the history unchanged. A file truncated by a failed write is not modelled, and neither is the JSON layout of the saved record.
- The chat-model and embedding-model constructors are not modelled. Only their failures are, as parameters carrying the raised message.
- The model's `invoke` and the store's `similarity_search` are function parameters. The text of the keyword-translation prompt and the tool message's call id and name are not modelled.
- `StateGraph` compilation, `MemorySaver` and the run configuration are not modelled. The graph is a record of the model, the store and the memory the seeding run leaves. Later runs of the graph are not modelled as graph steps; `RagModels.RetrieveNode` and `RagModels.GenerateNode` model one node call each.
- The two nodes read the global session record when they run, not a copy taken when the graph was built. A chat model or vector store changed later is therefore used by an existing graph. The model passes the chat model and the store in as parameters, so it does not capture this.
- Request validation by FastAPI for `/set_lanuage` is not modelled: the language arrives as a string. A rejected `/set_models` body is `None` from `SettingApi.ParseModelConfig`; the handler is then not run.
- API keys (`SecretStr`) are plain strings. The source compares them by their secret values, which is what the model compares.
- Paths follow POSIX `os.path.join`. The Windows joining rules are not modelled.
- `backend/rag/vector.py` apart from `build_embedding_model` is not part of this model. Neither are `backend/rag/qa.py`, `backend/api/chat.py`, `backend/api/embedding.py`, `backend/main.py` and `frontend/next.config.ts`. The vector store and the graph built by the embedding endpoint appear as handles.
- `extension.py` and `config.py` are not part of this model. The global record is `ServerState.Backend.config`. The temporary and history directories are constructor parameters. `InitDocConfig` resets the record to its field defaults.
- The model defaults of the initial client record come from option lists and a test key in files that are not part of this model. They are constructor parameters of `Page.Session`.

## Findings

| source | as written | input that shows it | evidently intended | confidence | as-written member | corrected member |
|---|---|---|---|---|---|---|
| backend/rag/models.py:85-89 | The loop walks the messages newest first and overwrites `query` at every human message, with no `break`. The last write is therefore the earliest question. | messages [human "a", ai "x", human "b"]: the query is "a" (`RagModels.QuerySelectionDiffers`); any conversation with an earlier question keeps answering that one (`RagModels.AsWrittenRepeatsFirstQuestion`) | the newest question, as the comment on line 85 says | high; not executed | RagModels.SelectQueryAsWritten | RagModels.SelectLatestQuery |
