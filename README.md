# ChillGPT and PyPal chat stack, modelled in Dafny

The repository holds two small chat applications:

- **ChillGPT** is a Next.js chat page with a FastAPI backend that holds uploaded PDF documents. The backend answers from them only when a request sets `use_rag`. The page never sets it, so once documents exist its conversations reach the model unchanged.
- **PyPal** is a Python programming assistant. Its FastAPI backend answers from a vector store built over Python documentation.

This project models the logic of both pages and both backends.

- **Conversation state.** Each page's state is a Dafny class whose methods change the fields that the React state setters change:
  - the message log;
  - the loading, error, scroll and unread state;
  - the initialisation flags.
- **Send and stream.** Sending a message is a method with the streaming read loop inside it. Its contract gives the whole settled state, stated through specification functions: the log after the reply, the error banner, and the unread badge.
- **Backend globals.** The registry held in each API's module globals is a class, and each endpoint is a method on it:
  - `vector_db`, `has_documents` and `uploaded_docs` in ChillGPT;
  - `vector_db` and `is_initialized` in PyPal.
- **Pure rules.** The request rewriting, the context filter, chunk tagging and result formatting are functions, with loop methods proved equal to them where the source uses loops.

Things outside the program's control are parameters:
- the clock;
- the network replies, with their stream chunks already decoded;
- what the vector store returns;
- what the data directory holds.

Modules:
- `Wrappers` (wrappers.dfy): `Option` and `Result`.
- `Text` (text.dfy): JavaScript `trim`, decimal rendering with its parse-back, Python `join`, substring search, ASCII lower-casing and chunk concatenation.
- `ChillView` (chill_view.dfy): the ChillGPT page.
- `PyPalView` (pypal_view.dfy): the PyPal page.
- `ChillRag` (chill_rag.dfy): the ChillGPT API.
- `PyPalRag` (pypal_rag.dfy): the PyPal API.

## Model

| member | source | states |
|---|---|---|
| ChillView.Classify | frontend/app/page.tsx:9-21 | "just now" exactly when the age is under a minute, future timestamps included; otherwise whole minutes 1..59, hours 1..23 or days ≥ 1, each bounded by the age in milliseconds |
| ChillView.Render | frontend/app/page.tsx:17-20 | the label text of a bucket; RenderRoundTrip states that it reads back |
| ChillView.RenderRoundTrip | frontend/app/page.tsx:17-20 | every label reads back to its bucket and count, so no two buckets share a label |
| ChillView.FormatRelativeTime | frontend/app/page.tsx:9-21 | the label under a bubble reads back to the bucket its age falls in |
| ChillView.EstimateTokens | frontend/app/page.tsx:24-26 | the estimate is the least k with 4k ≥ `text.length`, the length counted in UTF-16 code units as JavaScript does, so the empty text gives 0 |
| ChillView.EstimateTokensAstral | frontend/app/page.tsx:24-26 | a character beyond U+FFFF counts twice: three snake emoji are two tokens |
| ChillView.EstimateTokensBmp | frontend/app/page.tsx:24-26 | for text inside the Basic Multilingual Plane the estimate and the long-message test use the character count |
| Text.Utf16LengthBounds | frontend/app/page.tsx:172 | `length` lies between the character count and twice it, and equals the character count exactly when no character lies beyond U+FFFF |
| ChillView.IsLongMessage | frontend/app/page.tsx:172-174 | the warning test `userMessage.length > 1000`, in UTF-16 code units |
| ChillView.LongMessageTokens | frontend/app/page.tsx:172-174 | the long-message warning is shown exactly when the estimate exceeds 250 tokens |
| ChillView.PresetPromptsNonBlank | frontend/app/page.tsx:39-47 | a preset's prompt is whitespace-only exactly for "default" |
| ChillView.ConversationHistory | frontend/app/page.tsx:243-246 | same length, order and contents as the log; "bot" becomes "assistant" and every other role is kept |
| ChillView.OutgoingMessages | frontend/app/page.tsx:243-252 | a system message is prepended exactly when the personality text is not whitespace-only |
| ChillView.PresetSystemMessage | frontend/app/page.tsx:221-224 | after choosing a preset other than "default", the next request starts with that preset's system message; "default" sends the bare history |
| Text.Trim | frontend/app/page.tsx:228 | JavaScript `trim`: leading whitespace, then trailing whitespace removed; its properties are TrimShape and TrimEmptyIffBlank |
| Text.TrimShape | frontend/app/page.tsx:228 | the trimmed text is no longer than the input, neither starts nor ends with whitespace, and a text that does neither is unchanged |
| Text.TrimEmptyIffBlank | frontend/app/page.tsx:228 | `!s.trim()` holds exactly when every character is JavaScript whitespace |
| Text.Concat | frontend/app/page.tsx:272-276 | the reply accumulated by `+=` over the chunks; ConcatAppend states its chunking-independence |
| Text.ConcatAppend | frontend/app/page.tsx:272-276 | the accumulated reply does not depend on how the decoded text is cut into chunks |
| ChillView.ReplaceLastBot | frontend/app/page.tsx:278-285 | the log length is unchanged; only a trailing bot bubble changes, taking the new content and keeping its timestamp; otherwise the log is unchanged |
| ChillView.DropEmptyBot | frontend/app/page.tsx:293-299 | the log loses one bubble exactly when the last is an empty bot bubble, and is otherwise unchanged |
| ChillView.ErrorText | frontend/app/page.tsx:287-292 | the banner after a failure is never empty: the error's message, "Unknown error occurred" for a non-Error, the fallback for an empty message |
| ChillView.SettledLog | frontend/app/page.tsx:254-303 | the log an accepted send settles to; its shape is stated by SettledLogShape |
| ChillView.SettledError | frontend/app/page.tsx:287-292 | the banner is empty after a send exactly when a body was streamed to completion |
| ChillView.EffectRuns | frontend/app/page.tsx:204-210 | the model's count of commits during a send (see Left out): at least the user bubble and the final update, and more runs than chunks |
| ChillView.SettledLogShape | frontend/app/page.tsx:226-303 | after an accepted send, the user bubble and every earlier bubble stay; a bot bubble holding the whole stream follows unless the stream failed while still empty |
| ChillView.ChillChat.constructor | frontend/app/page.tsx:154-166 | the initial page: a greeting bubble, pinned to the bottom, nothing unread, "default" preset |
| ChillView.ChillChat.EditDeveloperMessage | frontend/app/page.tsx:370-373 | typing a personality sets the text and switches the selector back to "default" |
| ChillView.ChillChat.HandlePresetChange | frontend/app/page.tsx:221-224 | the selector and the personality text take the preset and its prompt |
| ChillView.CheckIfAtBottom | frontend/app/page.tsx:177-183 | no container counts as at the bottom, and so does content that fits the container when scrolled to the top |
| ChillView.ChillChat.SetApiKey | frontend/app/page.tsx:329 | the key field takes the typed text |
| ChillView.ChillChat.SetUserMessage | frontend/app/page.tsx:467 | the input box takes the typed text |
| ChillView.ChillChat.HandleScroll | frontend/app/page.tsx:177-193 | at-bottom becomes "distance to the bottom < 50" (true with no container); at the bottom the badge clears, elsewhere it is kept; pinned implies nothing unread |
| ChillView.ChillChat.ScrollToBottom | frontend/app/page.tsx:196-201 | a forced or pinned scroll clears the badge; otherwise the badge is unchanged |
| ChillView.ChillChat.MessagesOrLoadingChanged | frontend/app/page.tsx:204-210 | per commit: pinned clears the badge, scrolled away adds exactly one |
| ChillView.ChillChat.StreamChunks | frontend/app/page.tsx:266-286 | after the loop the bot bubble holds the concatenation of all chunks with the placeholder's timestamp, earlier bubbles are unchanged, and the badge grew by one per chunk while scrolled away |
| ChillView.ChillChat.Deliver | frontend/app/page.tsx:254-303 | the fetch, stream, catch and finally leave the settled log and banner, loading false, and the effect runs counted |
| ChillView.ChillChat.HandleSend | frontend/app/page.tsx:226-303 | the error is cleared; a whitespace-only input changes nothing else; an empty key sets the non-empty key error and changes nothing else; otherwise the request is the outgoing history with the user bubble, the input is cleared, and the log, banner, loading flag and badge reach their settled values |
| ChillView.ChillChat.HandleKeyDown | frontend/app/page.tsx:305-310 | Enter without Shift sends, with no loading guard; every other key changes nothing |
| ChillView.ChillChat.SendButtonEnabled | frontend/app/page.tsx:482 | the send button is enabled exactly when no send is loading; HandleSend and the Enter key do not check it |
| PyPalView.InitAlert | python-programming-assistant/frontend/src/app/page.tsx:50-55 | an alert is raised exactly when initialisation is not ok: "Failed to initialize: " with the body, or "Connection error: " with the error |
| PyPalView.FailureText | python-programming-assistant/frontend/src/app/page.tsx:112-118 | the text of the thrown error: the fetch or read error, or "Error: HTTP " and the status for a non-ok reply |
| PyPalView.ErrorBubble | python-programming-assistant/frontend/src/app/page.tsx:115-120 | an assistant bubble stamped at the failure, whose content is the apology prefix followed by exactly the failure's text |
| PyPalView.ReplaceLast | python-programming-assistant/frontend/src/app/page.tsx:102-109 | the length is unchanged, every entry but the last is unchanged, and the last slot is overwritten whatever it held |
| PyPalView.SettledLog | python-programming-assistant/frontend/src/app/page.tsx:82-120 | the log a send settles to; its growth is stated by SettledLogGrows |
| PyPalView.SettledLogGrows | python-programming-assistant/frontend/src/app/page.tsx:112-120 | nothing is removed; a failure appends exactly one apology after any placeholder already added, and a success ends in the assistant bubble holding the whole stream |
| PyPalView.PyPalChat.constructor | python-programming-assistant/frontend/src/app/page.tsx:12-17 | empty log and input, not loading, not initialised, key form shown |
| PyPalView.PyPalChat.SetApiKey | python-programming-assistant/frontend/src/app/page.tsx:165 | the key field takes the typed text |
| PyPalView.PyPalChat.SetInput | python-programming-assistant/frontend/src/app/page.tsx:225 | the input box takes the typed text |
| PyPalView.PyPalChat.InitializeSystem | python-programming-assistant/frontend/src/app/page.tsx:28-56 | a whitespace-only key raises the key alert and changes nothing; success hides the key form, sets initialised and resets the log to the single greeting; a rejection or connection error raises its alert and changes nothing |
| PyPalView.PyPalChat.StreamChunks | python-programming-assistant/frontend/src/app/page.tsx:94-111 | the last slot takes the placeholder's role and timestamp with the concatenation of all chunks; earlier entries are unchanged |
| PyPalView.PyPalChat.SendMessage | python-programming-assistant/frontend/src/app/page.tsx:58-124 | a blank input, a send while loading, or a send before initialisation changes nothing; otherwise the question is appended, the input cleared, the log settles as in SettledLog, and loading is false; the log keeps starting with the greeting |
| PyPalView.PyPalChat.HandleKeyPress | python-programming-assistant/frontend/src/app/page.tsx:126-135 | Enter without Shift initialises while the key form shows and sends otherwise; other keys change nothing |
| ChillRag.LastUserMessage | api/app.py:60 | "" for an empty conversation, else the content of the last message, which with the earlier messages makes up the conversation |
| ChillRag.ButLast | api/app.py:89 | `messages[:-1]`: the list minus its last entry, empty for an empty list |
| ChillRag.IsMetaQuery | api/app.py:65-71 | some keyword occurs in the lower-cased message; its properties are stated by the three MetaQuery lemmas |
| ChillRag.MetaQueryIgnoresCase | api/app.py:71 | meta-query detection does not depend on letter case |
| ChillRag.MetaQueryInfix | api/app.py:65-71 | text around a meta question never stops it being one |
| ChillRag.MetaQueryAnyCase | api/app.py:65-71 | a keyword written in any letter case, anywhere in the message, makes it a meta question |
| ChillRag.MetaQueryExample | api/app.py:65-71 | "Which files did I upload?" is a meta question |
| ChillRag.RelevantContexts | api/app.py:96-100 | the texts of the hits scoring at least 0.7, in search order, never more than the hits; its lemmas state membership and order |
| ChillRag.RelevantContextsAppend | api/app.py:96-100 | the filter works hit by hit, so search order is kept |
| ChillRag.RelevantContextsMembers | api/app.py:98-100 | a text is kept exactly when it belongs to a hit scoring at least 0.7 |
| ChillRag.RelevantContextsKeepAll | api/app.py:98-100 | nothing is dropped exactly when every hit clears the threshold |
| ChillRag.CollectRelevantContexts | api/app.py:95-100 | the loop yields exactly the filtered contexts |
| ChillRag.NumberedContexts | api/app.py:104 | one entry per context, in order, labelled "Context i: " from 1 |
| ChillRag.ContextString | api/app.py:104 | the numbered contexts joined by blank lines |
| ChillRag.ContextStringHoldsEach | api/app.py:104 | every relevant context reaches the joined context text |
| ChillRag.DocLines | api/app.py:76-77 | one "- name" line per uploaded file, in upload order |
| ChillRag.DocInfo | api/app.py:75-78 | the count line, one line per upload and the vector-count line |
| ChillRag.DocInfoNamesEveryFile | api/app.py:75-78 | the document summary names every uploaded file |
| ChillRag.BuildDocInfo | api/app.py:75-78 | the loop yields the summary: the count line, one line per file, the vector count |
| ChillRag.MetaPrompt | api/app.py:80-86 | the meta prompt contains the document summary and the question |
| ChillRag.ContextPrompt | api/app.py:107-114 | the context prompt contains the joined contexts and the question |
| ChillRag.NoContextPrompt | api/app.py:120-122 | the "I don't know" notice naming the number of uploads |
| ChillRag.NoDocumentsPrompt | api/app.py:128-130 | the notice asking for PDF uploads |
| ChillRag.UsesRag | api/app.py:63 | the search path is taken only for a non-empty conversation, with documents and a store |
| ChillRag.RagPrompt | api/app.py:64-124 | the prompt on the search path fails exactly when the question is not a meta question and the search fails, and then with a 500 carrying the search's reason |
| ChillRag.Rewrite | api/app.py:59-133 | the only failure is a 500 from a failed search, and a registry without documents never fails |
| ChillRag.Enhanced | api/app.py:89 | a rewrite keeps every earlier message and ends in one user message carrying the prompt |
| ChillRag.RewriteShape | api/app.py:60-133 | the request fails only when a search was needed and failed (a 500 with its reason); it passes through unchanged when the search is skipped and documents exist; otherwise only the last message is replaced |
| ChillRag.NoDocumentsNotice | api/app.py:127-131 | without documents, every request, RAG or not, gets the upload notice as its last message |
| ChillRag.RewriteUsesRagPrompt | api/app.py:63-124 | on the search path the last message is the chosen prompt, or the search error is returned |
| ChillRag.ContextPromptCarriesEvidence | api/app.py:102-117 | when relevant text is found, the prompt carries the question and every hit scoring at least 0.7 |
| ChillRag.MetaPromptCarriesSummary | api/app.py:73-89 | a meta question is answered from a prompt naming every uploaded file and repeating the question |
| ChillRag.BuildRagPrompt | api/app.py:63-124 | the handler's search path, with its two loops, yields the specified prompt |
| ChillRag.UploadValidation | api/app.py:165-169 | an upload is accepted exactly when the name ends in ".pdf" and the key is non-empty; each rejection is a 400 |
| ChillRag.UploadValidationAsWritten | api/app.py:163-213 | as written, exactly the same inputs are rejected, but through the handler's `except Exception` |
| ChillRag.UploadValidationLosesStatus | api/app.py:163-213 | as written, every rejection reaches the client as a 500, never as the 400 raised |
| ChillRag.UploadValidationTextFile | api/app.py:163-213 | as written, "notes.txt" gets 500 "Error uploading document: 400: Only PDF files are allowed" |
| ChillRag.DocumentStore.constructor | api/app.py:33-35 | no store, no documents, no uploads |
| ChillRag.DocumentStore.Chat | api/app.py:54-133 | the handler forwards exactly the rewritten conversation given the current registry |
| ChillRag.DocumentStore.Upload | api/app.py:157-213 | a rejection changes nothing. A failure before the store is built changes nothing. A failed build leaves an empty store. A success replaces the store, sets has_documents and appends exactly one (filename, mtime) entry. The registry invariant is kept: documents reported exactly when uploads are listed, and then a store exists |
| ChillRag.DocumentStore.Clear | api/app.py:233-239 | no store, no documents, no uploads afterwards, whatever came before, so clearing twice is clearing once |
| ChillRag.DocumentStore.Status | api/app.py:216-222 | document_count is 0 unless documents exist, and then the store's vector count; has_documents agrees with the upload list |
| ChillRag.DocumentStore.List | api/app.py:225-230 | total equals the number of listed uploads |
| PyPalRag.Tag | python-programming-assistant/api/app.py:99 | a tagged chunk starts with "[From: ", ends with the chunk, and is the name, the chunk and four more characters long |
| PyPalRag.TagRoundTrip | python-programming-assistant/api/app.py:99 | the file name and the chunk can be read back off a tagged chunk when the name holds no ']' |
| PyPalRag.TagAll | python-programming-assistant/api/app.py:98-100 | one tagged entry per chunk of a file, in order |
| PyPalRag.TaggedChunks | python-programming-assistant/api/app.py:93-100 | every entry of all_chunks starts with its "[From: " tag |
| PyPalRag.TaggedChunksCount | python-programming-assistant/api/app.py:93-114 | chunks_created counts every chunk of every file |
| PyPalRag.TaggedChunksAppend | python-programming-assistant/api/app.py:95-100 | the tagged chunks follow the file order |
| PyPalRag.TaggedChunksProvenance | python-programming-assistant/api/app.py:95-100 | every tagged chunk is some file's chunk under that file's tag |
| PyPalRag.TagChunks | python-programming-assistant/api/app.py:93-100 | the nested loops yield all_chunks exactly |
| PyPalRag.Truncate | python-programming-assistant/api/app.py:231 | at most 503 characters; a text of ≤ 500 is unchanged, a longer one keeps its first 500 followed by "..." |
| PyPalRag.TruncateIdempotent | python-programming-assistant/api/app.py:231 | truncating a truncated content changes nothing |
| PyPalRag.FirstLine | python-programming-assistant/api/app.py:233 | the snippet is a prefix without a newline, followed in the text by a newline or by nothing |
| PyPalRag.FirstLineOfLine | python-programming-assistant/api/app.py:233 | the snippet of a snippet is itself |
| PyPalRag.FirstLineIgnoresRest | python-programming-assistant/api/app.py:233 | text after the first newline never reaches the snippet |
| PyPalRag.Format | python-programming-assistant/api/app.py:229-234 | a formatted result keeps the score, its snippet is a newline-free prefix of the text, and its content is at most 503 characters and the text itself when that is short enough |
| PyPalRag.FormattedResults | python-programming-assistant/api/app.py:228-234 | one formatted entry per search result, in order |
| PyPalRag.FormatResults | python-programming-assistant/api/app.py:228-234 | the loop yields exactly the formatted results |
| PyPalRag.FormattedResultsFaithful | python-programming-assistant/api/app.py:229-234 | each entry keeps its score, a content of at most 503 characters and a one-line prefix as snippet |
| Text.Join | python-programming-assistant/api/app.py:165 | Python `sep.join(parts)`; JoinContainsPart states that every part is kept |
| Text.JoinContainsPart | python-programming-assistant/api/app.py:165 | every retrieved chunk is found in the joined context |
| PyPalRag.Prompt | python-programming-assistant/api/app.py:168-185 | the prompt contains the context and the question |
| PyPalRag.PromptCarriesEvidence | python-programming-assistant/api/app.py:165-185 | the prompt carries the question and every retrieved chunk |
| PyPalRag.PyPalServer.constructor | python-programming-assistant/api/app.py:40-43 | no store, not initialised |
| PyPalRag.PyPalServer.InitializeRagSystem | python-programming-assistant/api/app.py:61-119 | every failure is a 500 "Failed to initialize RAG system: " with its reason and leaves is_initialized as it was; a failure after the clients are built leaves an empty store; success stores the built vectors, sets is_initialized and reports the file and chunk counts |
| PyPalRag.PyPalServer.ChatWithAssistant | python-programming-assistant/api/app.py:144-213 | an uninitialised server first tries to initialise: a failure is a 400, leaves it uninitialised and leaves the store as initialisation does (unchanged when the clients fail, else empty); a success stores the built vectors; then the prompt is the retrieved chunks joined by blank lines with the question, or a 500 on a failed search |
| PyPalRag.PyPalServer.SearchDocumentation | python-programming-assistant/api/app.py:215-243 | 400 when not initialised or without a store; otherwise total_found equals the number of results and each is formatted in order, or a 500 on a failed search |
| PyPalRag.PyPalServer.Status | python-programming-assistant/api/app.py:128-142 | "ready" exactly when initialised, else "not_initialized"; vector_db_size is 0 without a store |

## Left out

- Network I/O is left out. Instead, the outcome of each `fetch`, the decoded stream chunks and how the stream ends are parameters. Also left out: `TextDecoder`, `ReadableStream` readers and the request bodies' JSON encoding.
- React rendering is left out: markdown and code highlighting, the clipboard, themes, the model selector, textarea auto-resize and `scrollIntoView`. The scroll position is the container's three measurements, as integers; the DOM's `scrollTop` can be fractional, which only moves the `< 50` test by less than a pixel.
- ChillView.ChillChat.HandleSend and ChillView.EffectRuns: the model assumes each `await` boundary of the send is one React commit and one run of the `[messages, loading]` effect. React 18 batches updates that land before its scheduled render, so already-buffered chunks, or the placeholder and the first chunk, can share one commit. The page's badge therefore grows by at most `EffectRuns(reply)` where the model states exactly that many.
- Both pages decode each read with a fresh `TextDecoder` and no `{stream: true}`, so a multi-byte UTF-8 character split across two reads becomes U+FFFD on both sides. The model's chunks are already-decoded text, so it does not capture this; Text.ConcatAppend holds only for decoded text.
- ChillView.ChillChat.HandleSend: scroll events arriving while a reply streams are not modelled, so `isAtBottom` is fixed for the length of one send.
- ChillView.ChillChat.HandleSend: two sends overlapping in time are not modelled. The model has no loading guard, as the source has none, but each send runs to completion before the next.
- ChillView.ChillChat.SendButtonEnabled: the disabled button is a predicate on the state. No method models the click itself.
- Clock readings are parameters: `Date.now()`, `new Date()` and the upload's `os.path.getmtime`. Millisecond clock values are integers, and the file mtime is an integer rather than a float.
- ChillRag.IsMetaQuery lower-cases ASCII letters only. Python's `str.lower` also folds non-ASCII letters.
- ChillRag.SimilarityThreshold: scores are exact reals compared with 0.7, not binary floating point. The score computation belongs to the vector store.
- ChillRag.DocumentStore and PyPalRag.PyPalServer treat a store as present exactly when it is not `None`. The source's truth tests on the store (`has_documents and vector_db` in api/app.py:220, `if vector_db` in python-programming-assistant/api/app.py:141, `not vector_db` in python-programming-assistant/api/app.py:220) agree with that only if `VectorDatabase` defines no `__len__` or `__bool__`. That class is not part of this model; if it did, an empty store would count as absent.
- The vector store, the PDF loader, the text splitter and the OpenAI clients are foreign code that is not part of this model. A store is known by its vector count. A search is known by its results or the failure it raises. Splitting is known by each file's chunks.
- ChillRag.UploadValidation and ChillRag.DocumentStore.Upload work at the level of the handler. FastAPI itself answers 422 for a missing required form field before the handler runs, so the "API key is required" branch may not be reachable over HTTP; request validation by the framework is not modelled.
- ChillRag.DocumentStore.Upload returns the intended 400 for a rejected upload, where the code as written answers 500 (see Findings). The upload's temporary-file handling is left out.
- The streaming generators of both chat endpoints are left out, including PyPal's in-stream "Error: ..." text. Both models stop at the conversation or prompt handed to the model.
- PyPalRag.PyPalServer.InitializeRagSystem does not model the `embedding_model` and `chat_model` globals; nothing else in the core reads them.
- PyPalRag.PyPalServer.Status takes the number of `.txt` files in the data directory as a parameter.
- Not modelled: the two health endpoints, which return constants, and ChillGPT's unused `initialize_vector_db` helper.
- Some files are not part of this model, because they are I/O, test scripts, thin SDK wrappers or configuration:
  - python-programming-assistant/collect_python_docs.py;
  - python-programming-assistant/api/test_api.py and start_api.py;
  - the embedding and chat-model wrappers;
  - the PyPal layout;
  - the Next.js configuration.

## Findings

| source | as written | input that shows it | evidently intended | confidence | as-written member | corrected member |
|---|---|---|---|---|---|---|
| api/app.py:163-213 | The validation raises `HTTPException(400)` inside the `try` whose `except Exception` turns every exception into a 500. The detail then embeds the 400's text. | an upload named "notes.txt" gets 500 "Error uploading document: 400: Only PDF files are allowed" | a 400 with detail "Only PDF files are allowed" (or "API key is required") | high; not executed | ChillRag.UploadValidationTextFile | ChillRag.UploadValidation |
