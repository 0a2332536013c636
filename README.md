# Chat sessions of the PDF question-answering backend

This project models the server-side chat-session lifecycle of a PDF
question-answering service, and proves properties of that model. The
service keeps an in-memory cache `active_chats`, which maps a chat id to a
conversational retrieval chain. The cache sits in front of a Firestore
collection `chats`, which holds one document per chat id with the chat's
message log. The model covers these parts:

- **Firestore** (`firestore.dfy`, module `Firestore`). The collection is a
  map from chat id to document, wrapped in the class `ChatStore`. Its two
  write operations update that map in place:
  - creating a chat (over)writes the chat's document with an empty log;
  - appending goes through `ArrayUnion`, so a message equal to one already
    stored is not added again.

  Loading is the pure lookup `LoadMessages`. It returns `[]` when the
  document or its `messages` field is missing.
- **Sessions** (`chatbot.dfy`, module `Chatbot`). The class `ChatService`
  holds the cache `active` and a reference to the store.
  - `CreateChatSession` caches a new chain under a fresh id and writes an
    empty document for it.
  - `AnswerQuestion` finds the chain by three rules: cached, else rebuilt
    from a non-empty stored log (and then cached), else "not found"
    (`ValueError`). It calls the chain, formats one citation label per
    source document, and unions the question and then the answer into the
    stored log.
  - `PreloadOldMessages` rebuilds conversation memory from the stored log.

  The pure function `AnswerStep` states the whole effect of one answer call
  on the server state `Server(active, docs)`. `AnswerQuestion` is proved
  equal to it, and the lemmas next to it state the rules of
  `answer_question` one at a time.
- **HTTP routes** (`routes.dfy`, module `Routes`). `/ask/{chat_id}`,
  `/new` and `/upload-pdf` turn results into JSON bodies. `ValueError`
  becomes 404 and every other exception becomes 500.
- `outcomes.dfy` holds the shared `Option` and `Result` types.

Foreign parts are parameters of the model:
- the LangChain retrieval chain is a function `(Chain, question) -> ChainOutcome`, which either returns an answer and its source documents or raises;
- `uuid4` is the `freshId` argument;
- saving and indexing an uploaded PDF is the `indexing` argument of `Routes.UploadPdf`.

The model keeps two invariants:
- every cached chat id has a stored document;
- every document records the id it is stored under.

Under these invariants the Firestore appends made by `answer_question`
always find their document.

Some behaviour follows from the code and is proved as lemmas:
- A chat that was created but never asked is reported as not found once a
  restart has emptied the cache, because its stored log is still empty.
- Because of `ArrayUnion`, re-asking a question whose stored message is
  already in the log does not record it a second time.
- A `ValueError` raised inside the chain is also reported as 404.

The server does not reject an empty or all-whitespace question
(server/main.py:47-50, server/chatbot.py:89-91); it passes every question to
the chain.

## Model

| member | source | states |
|---|---|---|
| Firestore.ArrayUnion | server/firebase.py:23-25 | the union keeps the stored array as a prefix, contains exactly the stored and the added elements, grows by at most the number added, adds no duplicates to a duplicate-free array, and every appended element comes from the added ones and was not present before it |
| Firestore.ArrayUnionOne | server/firebase.py:23-25 | a single message is added at the end exactly when no equal message is already stored |
| Firestore.LoadMessages | server/firebase.py:32-40 | a missing document or a missing `messages` field loads as `[]`; otherwise the stored array is returned |
| Firestore.AppendedDocs | server/firebase.py:21-30 | after an append the chat's log is the union of its old log with the message; every other document is unchanged and no document is added or removed |
| Firestore.LoadAfterCreate | server/firebase.py:9-15 | round trip: loading a just-created chat gives `[]`; other chats load as before |
| Firestore.LoadAfterAppend | server/firebase.py:21-30 | loading after an append gives the old log plus the message when it is new, and the old log unchanged when it is already stored; other chats are unaffected |
| Firestore.ChatStore.CreateChatDoc | server/firebase.py:5-15 | the chat's document is overwritten with one that records the id and has an empty log; the other documents keep their values |
| Firestore.ChatStore.AppendMessage | server/firebase.py:17-30 | appends `{role, content, sources or []}` through ArrayUnion when the document exists (ok); otherwise nothing changes |
| Chatbot.Rehydrate | server/chatbot.py:109-119 | rebuilt memory has the stored log's length and order; role `user` gives a human message and any other role an AI message |
| Chatbot.RehydrateConcat | server/chatbot.py:112-118 | rebuilding a concatenated log gives the concatenation of the rebuilt parts |
| Chatbot.RehydrateAfterExchange | server/chatbot.py:112-118 | the memory rebuilt after a recorded exchange ends with the human question and then the AI answer |
| Chatbot.SourceLabelDefaults | server/chatbot.py:98-100 | a source document without `source` and `page` metadata is cited as "Unknown Source (page ?)" |
| Chatbot.SourceLabelWithoutPage | server/chatbot.py:98-100 | a source document with `source` but no `page` metadata is cited as "{source} (page ?)" |
| Chatbot.SourceLabelWithoutSource | server/chatbot.py:98-100 | a source document with `page` but no `source` metadata is cited as "Unknown Source (page {page})" |
| Chatbot.SourceLabelOfMetadata | server/chatbot.py:98-100 | a source document with both keys is cited as "{source} (page {page})" |
| Chatbot.FormatSources | server/chatbot.py:96-100 | there is one label per source document, in the same order, each being that document's citation label |
| Chatbot.Resolve | server/chatbot.py:78-87 | the cached chain is used exactly when the id is cached; "not found" happens exactly when the id is uncached and the stored log is empty; otherwise the chain's memory is rebuilt from the log over the shared index |
| Chatbot.AfterChainCall | server/chatbot.py:89-107 | once a chain is found the cache is unchanged, no document is created or removed, and the invariants are kept |
| Chatbot.AnswerStep | server/chatbot.py:77-107 | an answer call keeps the invariants, never removes a cached chat, and never creates or removes a document |
| Chatbot.CachedChatKeepsCache | server/chatbot.py:78-79 | a cached chat is answered by its cached chain and the cache is left unchanged |
| Chatbot.StoredChatIsRehydrated | server/chatbot.py:80-85 | an uncached chat with a non-empty log is answered by a chain rebuilt from that log, and that chain is cached even if the call then raises |
| Chatbot.UnknownChatNotFound | server/chatbot.py:81-87 | an uncached chat with an empty or missing log gives ValueError("Chat ID not found in memory or Firestore.") with no append and no cache change |
| Chatbot.AnsweredChatAppendsExchange | server/chatbot.py:89-107 | on success the reply's answer is the chain's answer, its sources are the labels in order, and the log is unioned with the sourceless question and then the sourceless answer; other documents are unchanged |
| Chatbot.FailedChainAppendsNothing | server/chatbot.py:89-94 | when the chain raises, that exception is the result and no document changes |
| Chatbot.AnswerGrowsLogByTwo | server/chatbot.py:101-102 | when neither message is stored yet, the log grows by exactly the question followed by the answer |
| Chatbot.RepeatedQuestionNotRecorded | server/chatbot.py:101-102 | when the question's message is already stored, it is not recorded again and the log grows by at most the answer |
| Chatbot.CreatedChatNotFoundAfterRestart | server/chatbot.py:71-87 | a created but never-asked chat is reported as not found once a restart has emptied the cache |
| Chatbot.RehydratedChatIsCachedNext | server/chatbot.py:78-85 | after a rebuild the next question is a cache hit on the rebuilt chain |
| Chatbot.ChatService.constructor | server/chatbot.py:26 | the service starts with an empty cache over the given collection |
| Chatbot.ChatService.CreateChatSession | server/chatbot.py:71-75 | the returned id is the fresh id; it is cached with an empty-memory chain over the given or shared vector store; its stored log is empty; nothing else changes |
| Chatbot.ChatService.AnswerQuestion | server/chatbot.py:77-107 | the result and the new cache and collection are exactly those `AnswerStep` gives, and the invariants are kept |
| Chatbot.ChatService.PreloadOldMessages | server/chatbot.py:109-119 | the memory built by the loop is the rebuild of the chat's stored log |
| Routes.AskResponse | server/main.py:47-58 | status 200 exactly on success, with `answer` renamed to `response` and `sources` passed through; 404 exactly for ValueError and 500 exactly for other exceptions; the detail is the exception message |
| Routes.NewChatResponse | server/main.py:39-42 | the body is exactly `{chat_id: id}` |
| Routes.UploadResponse | server/main.py:35-37 | on success the body is `{chat_id, status: "PDF indexed successfully"}`; any failure is a 500 carrying its message |
| Routes.UnknownChatIs404 | server/main.py:55-56 | asking about an uncached chat with an empty log yields 404 with the not-found message |
| Routes.ChainValueErrorIs404 | server/main.py:55-56 | a ValueError raised by the chain is also reported as 404, with its own message |
| Routes.Ask | server/main.py:47-58 | the response is the mapping of the answer call's result, and the server state is the state after that call |
| Routes.NewChat | server/main.py:39-42 | a session is created under the fresh id with the shared index, and its id is returned |
| Routes.UploadPdf | server/main.py:21-37 | on successful indexing, a session over the new vector store is created and returned with the success status; on failure the response is 500 and nothing changes |

## Left out

- Client-side session handling (client/src/app/page.tsx and client/src/app/chat/[chatId]/page.tsx) is not modelled: the browser registry `myChats`, to which a visited chat id is added if absent; the per-chat `chatLog-{id}` snapshot loaded from and saved to localStorage; and the send cycle, which rejects whitespace-only questions, sets `isLoading`, shows "No response" for a missing reply and turns a failed request into an "Error: …" assistant message. All of this runs in the browser, outside the server logic modelled here.
- server/db.py: credential loading and Firestore client set-up only.
- `create_vector_store` and the internals of `create_chain`: PDF loading, splitting, embeddings, Pinecone, OpenAI model settings and memory keys. Only `create_chain`'s two defaults are modelled: an empty memory and the shared index.
- The chain's own memory update after a call (LangChain saves the exchange into the cached chain's memory): a LangChain internal, so the cached `Chain` value is not changed by a call.
- The chain's result always carries `answer` and `source_documents`; the `KeyError` a malformed result would raise is not modelled.
- Metadata values are modelled as already-rendered text; Python's `str` formatting of a numeric page is not modelled.
- `uuid4`: the fresh id is an argument. No freshness precondition is made, because the code would simply overwrite on a collision.
- Firestore server timestamps `createdAt`/`updatedAt`, and Firestore failures other than `update` on a missing document (which `ChatStore.AppendMessage` reports as `ok == false`; its exception is not propagated, since the invariants rule it out for the session logic).
- Exceptions raised by the Firestore writes inside `create_chat_session` (so `/new` and the session part of `/upload-pdf` always succeed in the model).
- Upload file I/O, the upload directory, the CORS middleware and FastAPI's request validation (a missing `question` field gives 422 before `ask` runs).
- Concurrency: handlers are modelled as running one at a time, although `active_chats` is unsynchronised.
- Process restarts are not an operation of the model; the lemmas about a chat missing from the cache cover the state a restart leaves.
