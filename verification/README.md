# MemoraX backend core in Dafny

MemoraX turns uploaded PDFs into study material. A user uploads a document.
The document is created `processing`, and a background step extracts its
text, cuts it into chunks with `chunkText(text, 500, 50)`, and
marks the document `ready`, or `failed` if anything goes wrong. A ready
document can then be used to generate flashcards, a quiz or a summary, to
chat about it (the answer is grounded in up to three chunks chosen by
`findRelevantChunks`, and the exchange is recorded in a per-user, per-document chat history), and to
explain a concept. The `protect` middleware checks a bearer JWT; the route
files that attach it to each route are not part of this model, so the
handlers here take the authenticated user as a parameter. Errors thrown
inside a handler go to one Express error handler, which maps them to a
status and a message.

This project models that core as pure functions over one immutable store:

- `optional.dfy`: the `Option` type.
- `text.dfy`: the JavaScript string operations the core relies on:
  `startsWith`, `split` and `join`, with their round-trip lemmas.
- `http.dfy`: the error value a handler throws (`Fault`) and the three ways a
  handler ends:
  - `Ok`: a success body;
  - `Fail`: an error body it sends itself;
  - `Forward`: `next(error)`.

  It also covers request identifiers that do or do not cast to an ObjectId.
- `error_handler.dfy`: the error handler. It shows that the handler's
  sequence of overwriting `if`s means "the last matching rule wins".
- `auth.dfy`: the `protect` middleware's decision, whether to call `next`
  or answer 401.
- `store.dfy`: the Document, Flashcard, Quiz and ChatHistory collections as
  maps.
  - Identifiers come from a counter and are never reused.
  - The store invariant `Valid`: every key is below the counter, and there is
    at most one chat history per (user, document).
  - The chat-history lookup.
- `documents.dfy`: the document controller: upload, the background
  `processPDF` step, list, read and delete. It also has the lifecycle
  invariant `Lifecycle`, which says what a document's status implies about
  its text, its chunks and whether its ingestion is still scheduled.
- `ai.dfy`: the AI controller.
  - The shared validation and readiness gate.
  - Flashcard, quiz and summary generation.
  - Chat, concept explanation and the chat-history read.
- `backend.dfy`: every request and the background step as events on one
  store. It proves the invariants every run keeps:
  - validity;
  - the lifecycle;
  - statuses only leave `processing`;
  - a deleted document never comes back.

  It also proves some end-to-end scenarios.
- `document_list.dfy`: the two pure pieces of the document list page:
  - the title derived from a file name by `/\.[^/.]+$/`;
  - the list filter after a confirmed delete.

Outside collaborators are parameters:

- the PDF parser and the text segmenter (`Documents.Ingestion`);
- the relevance ranker and the five Gemini calls (`Ai.Services`);
- `jwt.verify` and `User.findById` (arguments of `Auth.Protect`);
- clocks and the request's base URL.

A collaborator that throws is modelled by the `Attempt` type: `Done(value)`
or `Threw(fault)`.

The intended design differs from the code in a few places. The model
follows the code:

- The intended design requires a ready document to have at least one chunk.
  `processPDF` writes whatever the segmenter returns, which may be empty for
  empty text. The lifecycle invariant therefore says that a ready document's
  chunks are exactly the segmenter's chunks of its text.
- The intended design has the context assembler fall back to chunk 0 when ranking
  returns nothing. The code has no fallback: the chunks passed on are exactly
  what the ranker returned.
- The intended design says a failed generation call persists nothing.
  `chat` creates the chat history before it calls the generation service, so
  a failed first chat leaves an empty history behind. `Ai.Chat` states this:
  after a failed answer the pair has a history, and its messages are the
  ones it had before (none, for a new history).
- The intended design separates "not found" from "not ready". Every AI handler
  that loads the document answers both with the same 404 "Document not found
  or not ready".

One behaviour of the code differs from its own comment. `deleteDocument` is
commented as deleting the file from its path, but it unlinks the stored
`filePath`, which holds the public URL built at upload time, not the disk
path Multer wrote. The uploaded file therefore stays on disk
(`Backend.UploadThenDeleteKeepsFile`).

## Model

| member | source | states |
|---|---|---|
| Text.Split | backend/middleware/auth.js:13 | `split(" ")` yields at least one field and no field contains the separator; `Text.JoinSplit` and `Text.SplitJoin` make it the inverse of `join` |
| ErrorHandler.Default | backend/middleware/errorHandler.js:2-3 | the starting status is `statusCode`, else `status`, else 500, and the message is the error's own, else "Server Error"; neither is ever empty |
| ErrorHandler.Classify | backend/middleware/errorHandler.js:5-41 | for every error, which rule's verdict wins: a token error beats the file-size error, which beats a validation error, which beats a duplicate key, which beats a cast error (404 "Resource not found"); with no rule matching, the default verdict |
| ErrorHandler.ClassifyIsLastApplicable | backend/middleware/errorHandler.js:5-41 | the handler's verdict equals that of the last rule, in source order, that applies, or the default when none does |
| ErrorHandler.OverwriteIsLastApplicable | backend/middleware/errorHandler.js:5-41 | running any rule list as sequential overwrites is the same as picking the last applicable rule |
| ErrorHandler.Handle | backend/middleware/errorHandler.js:45-50 | the response has `success` false, a body `statusCode` equal to the HTTP status, the classified status and message, and a stack exactly in development |
| ErrorHandler.Deliver | backend/middleware/errorHandler.js:1-51 | a forwarded error reaches the client as the handler's response; every other reply is sent unchanged |
| ErrorHandler.CastFailureIsNotFound | backend/middleware/errorHandler.js:6-9 | a query on an identifier that does not cast reaches the client as 404 "Resource not found" |
| Auth.Caught | backend/middleware/auth.js:30-46 | a throw named TokenExpiredError gives 401 "Token expired"; every other throw gives 401 "Not authorized, token failed" |
| Auth.Protect | backend/middleware/auth.js:4-55 | `next` is called exactly when the header starts with "Bearer", its token verifies and the user exists, and then with that user; otherwise the response is 401: "Not authorized, no token" without a bearer header, "User not found" for a missing user, and for a throw from verification or from the user lookup "Token expired" when it is a TokenExpiredError and "Not authorized, token failed" otherwise |
| Auth.BearerHeaderYieldsToken | backend/middleware/auth.js:8-13 | a header "Bearer " + t, with t free of spaces, passes the prefix test and yields exactly t |
| Auth.BearerWithoutSpaceHasNoToken | backend/middleware/auth.js:8-13 | a header starting with "Bearer" that has no space passes the prefix test but yields no token |
| Store.FirstHistory | backend/controllers/aiController.js:206-209 | the chat-history lookup returns a history of the pair in the scanned range, or none when the range has none |
| Store.FindHistoryExact | backend/controllers/aiController.js:327-330 | in a valid store the lookup finds a history exactly when the pair has one, and then it finds that one |
| Documents.Upload | backend/controllers/documentController.js:12-62 | no file gives 400 with no change; no title gives 400 and deletes the uploaded file; otherwise exactly one new `processing` document with empty text and no chunks, owned by the requester, recording the original name, the size, "PROCESSING" as content and the public URL (not the disk path) as `filePath`, with its ingestion scheduled; the reply is 201 |
| Documents.Extract | backend/utils/pdfParser.js:7-21 | a path that is not on disk throws; otherwise the parser's outcome |
| Documents.Ingested | backend/controllers/documentController.js:75-85 | ingestion yields text and chunks exactly when extraction, segmenting (500/50) and the ready-update all succeed, and then they are the extracted text and its segments |
| Documents.ProcessPdf | backend/controllers/documentController.js:73-95 | the background step writes text, chunks and `ready` on success and only `failed` on any failure; it does not recreate a deleted document and changes nothing else |
| Documents.UploadKeepsLifecycle | backend/controllers/documentController.js:40-55 | an upload keeps every document at a consistent stage of its lifecycle |
| Documents.ProcessPdfAdvances | backend/controllers/documentController.js:73-95 | the background step finds its document `processing`, leaves it `ready` or `failed`, and keeps every document's lifecycle stage consistent |
| Documents.OwnedFrom | backend/controllers/documentController.js:103-107 | the `$match` scan returns, in increasing order, exactly the requester's documents in the scanned range |
| Documents.InsertByDate | backend/controllers/documentController.js:130-132 | inserting into a newest-first list keeps it newest-first and adds exactly one entry |
| Documents.SortByDate | backend/controllers/documentController.js:130-132 | `$sort: { uploadDate: -1 }` gives a newest-first permutation of its input |
| Documents.OwnedEntries | backend/controllers/documentController.js:102-129 | the matched entries are exactly the requester's documents, each once, with their flashcard and quiz counts |
| Documents.RearrangedListsOwned | backend/controllers/documentController.js:130-132 | rearranging the entries keeps them exactly the requester's documents, each once |
| Documents.GetDocuments | backend/controllers/documentController.js:100-143 | the reply is 200, lists exactly the requester's documents each once, newest upload first, and `count` equals the number listed |
| Documents.GetDocument | backend/controllers/documentController.js:148-190 | a document the requester does not own gives 404 with no change; otherwise only its `lastAccessed` changes, and the reply carries the updated record and the counts of the requester's flashcard sets and quizzes for it |
| Documents.DeleteDocument | backend/controllers/documentController.js:195-223 | a document the requester does not own gives 404 with no change; otherwise that record alone is removed and its stored `filePath` is unlinked; flashcards, quizzes, histories and a scheduled ingestion remain |
| Ai.Admit | backend/controllers/aiController.js:13-35 | a request is admitted exactly when its inputs are present, its id casts and the document is the requester's and ready; otherwise 400, a forwarded cast error, or one 404 for absent, foreign or unready documents |
| Ai.GenerateFlashcards | backend/controllers/aiController.js:11-64 | after the gate, a generation failure is forwarded and stores nothing; otherwise one new set holds the generated cards in order, each with its question, answer and difficulty, never reviewed and not starred; the reply is 201 |
| Ai.GenerateQuiz | backend/controllers/aiController.js:69-120 | after the gate, a generation failure is forwarded and stores nothing; otherwise one new quiz holds the questions as generated, with `totalQuestions` their number, no answers, score 0, and the given title or "<title> - Quiz" |
| Ai.GenerateSummary | backend/controllers/aiController.js:125-166 | after the gate, the summary of the document's text is returned with its id and title, and nothing is stored |
| Ai.Indices | backend/controllers/aiController.js:203 | one index per ranked chunk, in ranker order |
| Ai.OpenHistory | backend/controllers/aiController.js:205-217 | the pair's existing history is reused; a new empty one is created only when the pair has none, and the store stays valid (one history per pair) |
| Ai.Chat | backend/controllers/aiController.js:171-256 | after the gate, a ranker failure is forwarded with no change; then the pair has exactly one history, created fresh if it had none; a generation failure is forwarded and records no message; otherwise exactly the question (no chunks) and then the answer (with the ranked chunk indices) are appended to it; every existing history keeps its pair, a history is created only when the pair has none, and other pairs' histories, documents, flashcards and quizzes do not change |
| Ai.ChatKeepsOtherPairs | backend/controllers/aiController.js:205-241 | a chat leaves the conversation of every other (user, document) pair exactly as it was |
| Ai.ChatThenHistory | backend/controllers/aiController.js:226-344 | reading the history after a successful chat gives the earlier conversation followed by the question and the answer |
| Ai.TwoChatsAppendInOrder | backend/controllers/aiController.js:226-241 | two chats in a row add four messages after the earlier conversation, alternating question and answer in call order |
| Ai.ExplainConcept | backend/controllers/aiController.js:261-310 | after the gate, a ranker failure is forwarded; otherwise the concept and the ranked chunks' contents joined in ranker order go to the generation service, whose failure is forwarded; the reply carries the explanation and the chunk indices |
| Ai.ContextInOrder | backend/controllers/aiController.js:293 | the grounding context is empty for no chunks and otherwise adds each further chunk's content after a blank line, in order |
| Ai.ExplainIgnoresHistories | backend/controllers/aiController.js:261-310 | explaining a concept neither depends on nor changes the chat histories |
| Ai.GetChatHistory | backend/controllers/aiController.js:315-348 | a missing id gives 400 and an uncastable one a forwarded cast error; otherwise 200 with the pair's messages, with "Chat history retrieved successfully", or an empty list with "No chat history found for this document" when the pair has no history |
| Backend.Apply | backend/controllers/documentController.js:12-95 | every request and the background step keep the store valid, and every record an event adds, in any collection, gets an identifier from the counter that was never used before; an upload's file stays on disk when the request carries a title and is removed when it does not |
| Backend.Run | backend/controllers/documentController.js:12-95 | the same over any sequence of events: validity holds, and every record present at the end and absent at the start has an identifier handed out during the run |
| Backend.FirstUploadBecomesServable | backend/controllers/documentController.js:40-85 | from the empty store, an upload whose file parses and segments, followed by its ingestion with a successful update, leaves a document its owner can use with the AI features |
| Backend.SameStagesKeepLifecycle | backend/controllers/documentController.js:174-176 | a step that keeps every surviving document's status, text, chunks and schedule keeps the lifecycle invariant |
| Backend.ApplyKeepsLifecycle | backend/controllers/documentController.js:40-95 | every event keeps every document at a consistent lifecycle stage, and a status only ever leaves `processing` |
| Backend.RunKeepsLifecycle | backend/controllers/documentController.js:40-95 | the same over any sequence of events |
| Backend.NoResurrection | backend/controllers/documentController.js:81-93 | a deleted document stays deleted whatever happens later, including its own pending ingestion |
| Backend.RunFromEmpty | backend/controllers/documentController.js:40-95 | every run from the empty store ends valid and lifecycle-consistent |
| Backend.UploadThenIngestServes | backend/controllers/aiController.js:23-27 | an upload whose file parses and segments and whose update succeeds is, after ingestion, ready with those text and chunks, and servable to its owner only |
| Backend.UploadThenDeleteKeepsFile | backend/controllers/documentController.js:195-214 | deleting a fresh upload removes its record but leaves its file on disk, because the unlinked path is the public URL |
| Backend.FailedIsNotServable | backend/controllers/aiController.js:23-35 | a failed document is answered with 404 "Document not found or not ready" |
| DocumentListPage.ExtensionUnique | frontend/memora-x/src/pages/Documents/DocumentListPage.jsx:44 | the extension pattern matches at most one position, the last dot |
| DocumentListPage.ScanBack | frontend/memora-x/src/pages/Documents/DocumentListPage.jsx:44 | the backward scan finds a position where the pattern matches, or shows that none exists |
| DocumentListPage.StripExtension | frontend/memora-x/src/pages/Documents/DocumentListPage.jsx:44 | the title is the name cut at the pattern's match, or the whole name when the pattern does not match |
| DocumentListPage.StripExtensionIsPrefix | frontend/memora-x/src/pages/Documents/DocumentListPage.jsx:44 | the title is a prefix of the name, and differs from it exactly when the name has an extension |
| DocumentListPage.StripTarGz | frontend/memora-x/src/pages/Documents/DocumentListPage.jsx:44 | "a.tar.gz" becomes "a.tar" |
| DocumentListPage.StripKeepsBareNames | frontend/memora-x/src/pages/Documents/DocumentListPage.jsx:44 | a name ending in a dot, or with no dot, is unchanged |
| DocumentListPage.StripIgnoresDotBeforeSlash | frontend/memora-x/src/pages/Documents/DocumentListPage.jsx:44 | a dot before a slash does not start an extension |
| DocumentListPage.HandleFileChange | frontend/memora-x/src/pages/Documents/DocumentListPage.jsx:40-46 | with at least one file selected, the first is stored and the title derived from its name; with none, nothing changes |
| DocumentListPage.RemoveById | frontend/memora-x/src/pages/Documents/DocumentListPage.jsx:87 | an entry is kept exactly when its id differs from the deleted one |
| DocumentListPage.RemoveByIdAppend | frontend/memora-x/src/pages/Documents/DocumentListPage.jsx:87 | filtering distributes over concatenation, so the kept entries stay in their original order |
| DocumentListPage.RemoveByIdKeepsOthers | frontend/memora-x/src/pages/Documents/DocumentListPage.jsx:87 | a list without the id is unchanged, and filtering twice equals filtering once |
| DocumentListPage.ConfirmDelete | frontend/memora-x/src/pages/Documents/DocumentListPage.jsx:79-93 | without a selection nothing happens; on success the list is filtered by the selected id, the modal closes and the selection is cleared; on failure only `deleting` resets |
| DocumentListPage.ConfirmedDeleteRemovesExactly | frontend/memora-x/src/pages/Documents/DocumentListPage.jsx:84-87 | after a confirmed delete no entry has the deleted id and every other entry is still listed |
| DocumentListPage.DeletedEntryLeavesNeighboursInOrder | frontend/memora-x/src/pages/Documents/DocumentListPage.jsx:87 | filtering out an entry listed between two runs of entries leaves both runs, filtered, in their original order |

## Left out

- The segmenter `chunkText`, the ranker `findRelevantChunks` and the PDF parser are parameters. Their algorithms are not part of this model.
- The five Gemini calls and `jwt.verify` are parameters. `User.findById` is a parameter too. Each returns a value or a throw.
- The `parseInt` coercion of `count` and `numQuestions` is not modelled. The counts are given as integers, and a missing one takes its default of 10 or 5.
- Store write failures are not modelled. The one exception is the ready-update in `processPDF` (the `writeOk` flag), because its failure decides `failed` over `ready`. A failing `Document.create`, `Flashcard.create`, `Quiz.create`, `save` or `countDocuments` is left out. So is upload's catch block, which unlinks and forwards.
- Failing store reads are not modelled: `Document.findOne`, `Document.aggregate`, `ChatHistory.findOne` and the other queries always answer. The handlers forward such a throw to `next(error)`, which the error handler turns into a response.
- Documents.Upload: an `fs.unlink` of the uploaded file that throws on the missing-title path is not modelled; the file is simply removed.
- Timestamps are parameters. `lastAccessed`, `uploadDate` and message timestamps take the given `now`.
- URL construction from the request's protocol and host is a parameter (`baseUrl`).
- The Multer upload middleware's configuration (destination, file filter, size limit) is not part of this model. It is modelled only as writing the received file to its disk path before the handler runs (`Documents.Receive`).
- Concurrency is not modelled: interleavings of the fire-and-forget `processPDF` with other requests, and concurrent chats on one history. Each request and each background step is one atomic event. An ingestion event runs at most once per upload.
- The store invariant "at most one chat history per (user, document)" rests on that atomicity. In `chat` the lookup and the create are separate queries, so two concurrent first chats can both find no history and both create one, unless the ChatHistory schema forbids it with a unique index; that schema is not part of this model.
- Ai.Admit: a `documentId` that arrives in a JSON or urlencoded body as an array or as an object of query operators (such as `{"$ne": null}`) is not modelled; identifiers are strings that either cast or raise a `CastError`. Mongoose would turn such a value into an `$in` or pass the operator through, so the lookup could answer with some document that no single id names. The `userId` and `status: "ready"` filters still apply, so such a document would still be the requester's own and ready.
- The `$lookup` arrays in the list response are not modelled. Only their sizes are kept (`flashcardCount`, `quizCount`).
- `console` logging is left out, and so is the error handler's `console.error`.
- Some features of the intended design are absent from the code: the bounded ingestion queue with backpressure, the chunk-0 ranking fallback, and the per-history lock. They are not modelled.
- Upload in the list page is not modelled. `handleUpload` refers to an undefined `e`, so it throws before it does anything. Fetching, toasts and rendering are left out too.
- Whether the page's list items carry an `id` field is decided by the document service. That service is not part of this model; list items are given an `id`.
- The duplicate-key rule with `keyValue` absent, and the validation rule with `errors` absent, are not modelled. In JavaScript the handler itself throws there. The model takes absent as empty: "undefined already exists", and an empty message.
- The user, auth, progress and route wiring files, and the register and login pages, are context only and are not modelled.
