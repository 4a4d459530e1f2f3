# ReadersChat session bookkeeping, modelled in Dafny

ReadersChat answers questions about one uploaded text document. It splits the
document into chunks, indexes them in a vector store, retrieves the three
passages closest to each question, and asks a chat model to answer from those
passages and the recent conversation. The repository has three back-ends
that do this independently:

- `server/main.py` (FastAPI),
- `nodejs/server.js` (Express),
- `app.py` (Streamlit).

The logic the repository owns is the bookkeeping around those calls. Each
back-end keeps one slot for "the current vector store, or none" and a
conversation history. This project models that state, how uploads, chats
and clears change it, and the pure string and sequence functions that build
the prompt's context, its history section, and the source excerpts.

Splitting, embedding, similarity search and text generation are library
calls whose code is not part of this model. They enter as inputs:

- an upload's ingestion is an `Outcome<Index>`, and the chunk count is the
  number of passages in that index;
- retrieval is a `Retriever`, a function from the store and the question to
  an `Outcome` holding the retrieved documents;
- generation is a `Generator`, a function from the filled prompt to an
  `Outcome` holding the answer.

Either call may fail. A failure carries the exception's message.

Files:

- `text.dfy` (module `Text`): join with a separator, Python/JavaScript
  slicing with negative bounds, the last-n window, the 300-character excerpt
  and the `.txt` suffix test.
- `rag.dfy` (module `Rag`): documents, turns, role labels, the blank-line
  context and the prompt template. `nodejs/server.js` and `app.py` use the
  same template word for word.
- `fastapi_server.dfy`, `express_server.dfy`, `streamlit_app.dfy`: one module
  per back-end. The globals, or the `st.session_state` fields, are the fields
  of a class. The route handlers, or the script's blocks, are its methods.
- `comparison.dfy`: how two back-ends' history sections relate.

The back-ends differ, and each module keeps its own behaviour:

| | server/main.py | nodejs/server.js | app.py |
|---|---|---|---|
| stored unit | `{question, answer}` exchange | single turn | single turn |
| storage | trimmed to the last 6 exchanges | never trimmed | never trimmed |
| prompt window | last 6 exchanges | last 6 turns | 6 turns before the new message |
| label | `Human:` / `Assistant:` | `User:` / `Assistant:` | `User:` / `Assistant:` and a newline per line |
| empty history | `""` | `No previous conversation.` | `No previous conversation.` |
| failed chat | history unchanged | history unchanged | the user's message stays |
| excerpt | full passage | first 300 characters + `...` | `Source i`, first 300 characters + `...` |

Three details of the code are easy to miss:

- the excerpt always ends in `...`, even when the passage is shorter than
  300 characters;
- in `app.py` a failed chat does leave a turn behind;
- the FastAPI back-end labels turns `Human:` and trims its storage.

In `server/main.py` the bound `MAX_HISTORY` is 6 exchanges (line 51), so up
to 12 lines of history reach the prompt, although the comment on that line
speaks of the last 3 exchanges; the model keeps the value 6 that the code
uses.

Two ordering details are modelled as written. In `nodejs/server.js` and
`app.py`, the new store is saved before the uploaded file is deleted, and
the history is reset after the delete. If the delete fails, the reply is an
error, yet the new document is loaded and the old history kept.

## Model

| member | source | states |
|---|---|---|
| Text.Join | server/main.py:146-149 | `sep.join(parts)` / `parts.join(sep)`: no parts join to the empty string; its shape is stated by JoinEnds, JoinSplit and JoinedInOrder |
| Text.JoinEnds | server/main.py:170 | the joined text starts with the first part and ends with the last |
| Text.JoinSplit | nodejs/server.js:99 | joining a list equals joining its two halves around one more separator |
| Text.JoinedInOrder | server/main.py:146-149 | every part appears whole in the joined text, preceded by exactly the earlier parts and followed by exactly the later ones |
| Text.SliceBound | app.py:131 | a Python/JavaScript slice bound, negative counted from the end, always lands inside the sequence |
| Text.Slice | nodejs/server.js:104 | a slice is never longer than the sequence |
| Text.Window | server/main.py:148 | the last n entries: length min(n, len), and the sequence is the dropped prefix followed by the window |
| Text.SliceFromEndIsWindow | server/main.py:194 | `s[-n:]` / `s.slice(-n)` with n > 0 is exactly the last-n window |
| Text.SliceBeforeLastIsWindow | app.py:131 | `s[-(n+1):-1]` is the last-n window of everything but the final entry |
| Text.WindowOfAppend | server/main.py:192-194 | trimming, appending, and trimming again equals trimming the whole appended sequence |
| Text.EndsWith | server/main.py:84 | a name that passes the suffix test is some prefix followed by the suffix, and every such name passes |
| Text.Excerpt | nodejs/server.js:140-142 | the excerpt is min(300, len) characters of the passage's start followed by "..." (at most 303 characters); a short passage is kept whole |
| Rag.Contents | server/main.py:197 | one text per retrieved document, in retrieval order |
| Rag.FormatDocs | app.py:80-81 | no documents give an empty context; the context starts with the first passage |
| Rag.ContextInRetrievalOrder | nodejs/server.js:99 | each passage appears whole in the context, after exactly the passages retrieved before it and before exactly those after it |
| Rag.Labelled | nodejs/server.js:104-106 | a user turn reads "User: content", any other turn "Assistant: content" |
| Rag.LabelledAll | nodejs/server.js:104-106 | one labelled line per turn, in order |
| Rag.LabelledIsNotPlaceholder | nodejs/server.js:102-109 | a history text built from one or more turns never equals the placeholder |
| Rag.ConversationalPrompt | nodejs/server.js:112-128 | the filled template holds the context, the history and the question at fixed offsets, in the order Context / Chat History / Current Question, and ends with "Answer:" |
| FastApiServer.Rendered | server/main.py:147 | an exchange renders as "Human: ", the question, "\nAssistant: ", the answer, each at its fixed offset, so the text ends with the answer |
| FastApiServer.RenderedAll | server/main.py:146-148 | one rendered entry per exchange, in order |
| FastApiServer.HistoryText | server/main.py:143-149 | the history text is empty exactly when no exchange is stored, and otherwise ends with the latest answer |
| FastApiServer.HistoryTextShowsLatest | server/main.py:144-149 | the history text is the last six exchanges joined by newlines; a history within the bound is shown whole |
| FastApiServer.DocumentPrompt | server/main.py:152-166 | the prompt holds history, context and question at fixed offsets, in the order Chat History / Context / Question, and ends with "Answer:" |
| FastApiServer.Respond | server/main.py:139-199 | a failed retrieval or generation fails with its message; when both calls succeed the outcome is a reply, and a reply holds the model's answer to the prompt built from this context and history, and the full passage texts as sources |
| FastApiServer.Server.constructor | server/main.py:49-51 | the server starts with no store and no history |
| FastApiServer.Server.UploadDocument | server/main.py:75-124 | a name without ".txt" gets 400 before any change; a failed ingestion gets 500 and changes nothing; success replaces the store, empties the history and reports the chunk count and file name |
| FastApiServer.Server.Chat | server/main.py:127-202 | no store: 400 "Please upload a document first", history unchanged; a failed call: 500, history unchanged; success: exactly one exchange appended, then cut back to the last six; the store is never changed |
| FastApiServer.Server.ClearHistory | server/main.py:211-216 | the history becomes empty and the store is untouched |
| FastApiServer.StoredHistoryIsLatest | server/main.py:186-194 | after any run of successful chats the stored history is exactly the six most recent exchanges, in order, and never longer |
| FastApiServer.NextPromptEndsWithLatestAnswer | server/main.py:187-194 | after a successful chat the stored history ends with the new exchange, and the next history text ends with its answer |
| ExpressServer.HistoryText | nodejs/server.js:101-109 | the placeholder exactly when no turn is stored, otherwise the last six turns labelled by role and joined by newlines |
| ExpressServer.Excerpts | nodejs/server.js:140-142 | one excerpt per retrieved passage, in retrieval order |
| ExpressServer.Respond | nodejs/server.js:94-132 | a failed retrieval or generation fails with its message; when both calls succeed the outcome is a reply, and a reply holds the model's answer to the template filled with this context, history text and message, and the excerpts |
| ExpressServer.Server.constructor | nodejs/server.js:27-29 | the server starts with no store and no history |
| ExpressServer.Server.Upload | nodejs/server.js:39-81 | no file: 400 and no change; failed ingestion: 500 and no change; otherwise the store is replaced; a failed file deletion then gives 500 with the history kept; success empties the history and reports the chunk count |
| ExpressServer.Server.Chat | nodejs/server.js:84-149 | no store: 400, history unchanged; a failed call: 500, history unchanged; success: exactly the user turn and then the answer turn are appended, nothing is dropped; stored turns stay paired |
| ExpressServer.Server.Clear | nodejs/server.js:152-155 | the history becomes empty and the store is untouched |
| ExpressServer.PairedIsEven | nodejs/server.js:135-136 | turns stored in user/assistant pairs have even length |
| ExpressServer.PairedAfterExchange | nodejs/server.js:135-136 | pushing a user turn and then an assistant turn keeps the history paired |
| ExpressServer.WindowHoldsWholeExchanges | nodejs/server.js:104 | on a paired history the six-turn window is the last three whole exchanges, each starting with the user's turn |
| StreamlitApp.Line | app.py:132-133 | a history line is the labelled turn followed by a newline |
| StreamlitApp.LinesEndWithNewline | app.py:133 | text built from one or more turns ends with a newline, so it is never empty |
| StreamlitApp.HistoryText | app.py:129-136 | the placeholder exactly when no message precedes the new one; otherwise the lines of the six turns before the new message |
| StreamlitApp.FormatHistory | app.py:129-136 | the loop over `chat_history[-7:-1]` and the placeholder fallback compute exactly that history text |
| StreamlitApp.HistoryExcludesCurrentMessage | app.py:118-131 | with the new message appended, the history text shows the turns stored before it and not the message itself |
| StreamlitApp.LinesAreJoinedLabels | app.py:131-133 | the app's lines are the labelled turns joined by newlines, plus a final newline |
| StreamlitApp.SourceExcerpts | app.py:163-165 | one excerpt per retrieved passage, numbered from 1 in retrieval order, each at most 303 characters |
| StreamlitApp.ShowSourceExcerpts | app.py:163-166 | the `enumerate(docs, 1)` loop produces exactly those numbered excerpts |
| StreamlitApp.Respond | app.py:138-151 | a failed retrieval fails with its message; otherwise the outcome is the model's reply to the template filled with this context, history text and message |
| StreamlitApp.Session.constructor | app.py:25-28 | a session starts with no chain, no retriever and no history |
| StreamlitApp.Session.ProcessDocument | app.py:35-100 | a failed ingestion shows an error and changes nothing; otherwise the chain and retriever are set; a failed deletion of the temporary file then shows an error with the history kept; success empties the history |
| StreamlitApp.Session.Chat | app.py:107-169 | nothing happens without a chain or with an empty message; otherwise the message is stored first; a failed call shows an error and leaves exactly that one new turn; success stores the answer right after it (two new turns); a failed second retrieval shows an error after the stored answer; success shows the numbered excerpts |
| StreamlitApp.Session.ClearHistory | app.py:172-175 | the history becomes empty and the loaded document stays |
| Comparison.SameWindowForNewMessage | app.py:129-136 | for the same stored turns, the Streamlit history text is the Express history text plus a final newline (the placeholder when nothing is stored) |

## Left out

- Chunking, embedding, FAISS search and the chat model are library calls. They are inputs here, so nothing is proved about chunk sizes, chunk overlap, similarity ranking or the retriever's limit of three passages.
- File handling is not modelled: saving the upload, reading it, UTF-8 decoding, the `uploads/` directory and temporary files. Its failures are part of the ingestion outcome. A failed deletion is the separate `cleanup` outcome.
- Web wiring is not modelled: routing, CORS, static files, `GET /`, `GET /history`, `/health` and server start-up. `GET /history` and `/health` only read the state.
- The Streamlit page itself is not modelled: titles, spinners, the replay of stored messages (app.py:110-113) and `st.rerun()`. The "txt" filter of the file picker is also left out. The `hasattr(st.session_state, 'retriever')` guard is not a branch: the retriever is always set when the chat block runs.
- The client scripts (`client/script.js`, `nodejs/public/script.js`) are not part of this model. They are UI and fetch calls.
- Request validation is not modelled: the pydantic `ChatRequest` and a missing `message` field in the Express body.
- Handlers run one at a time. The unsynchronised globals could interleave between `await`s, and that interleaving is not modelled.
- No streaming or WebSocket endpoint exists in these files, so no event protocol is modelled.
- Text.Excerpt: characters are counted as sequence elements. JavaScript's `substring` counts UTF-16 code units and Python counts code points; the model does not tell these apart.
- The exception messages, the session-state entries `llm`, `prompt` and `format_docs`, and the chat model's settings are opaque. They never change.
- ExpressServer.Respond: `nodejs/server.js` and `app.py` share the template text, but not what reaches the chat model. `prompt.format(...)` on a chat prompt template (nodejs/server.js:124) gives the flattened message buffer, which starts with a "Human: " role prefix. `app.py` passes `format_messages(...)` instead. The prefix is left to the opaque `Generator`, so "the same template" does not mean the same model input.
- Express replies are modelled as fields, not JSON: each source is the excerpt string rather than the object `{content: excerpt}` (nodejs/server.js:140-142), and the constant `success: true` of the upload and clear replies (nodejs/server.js:71-75, 154) is not carried.
