# Session-scoped context pipeline of the ChatWithGLLM backend

This project models, in Dafny, the part of the ChatWithGLLM backend that decides
what the generative model sees for each `POST /chat` request and what is
recorded afterwards:

- **Message assembly** (`backend/utils/messages.py`, module `Messages`):
  `generate_messages` turns the retrieved `(role, content)` pairs and then the
  session's chat history into `{role, content}` messages, in that order, with
  no deduplication, filtering or truncation.
- **Store glue** (`backend/utils/database.py`, module `Database`): the vector
  store is a sequence of fragments (text plus a metadata dictionary) with a
  snapshot of what was last saved to disk. `retrieve_similar_context`
  post-filters a global similarity search down to the requesting session,
  keeping the ranking order; `save_message_to_db` appends one fragment tagged
  `{role, session_id}` and saves the index; a fresh store is seeded with one
  placeholder fragment of session `"default"` and saved at once.
- **Chat orchestrator** (`backend/gpt_server.py`, module `Server`): the
  `ChatServer` class holds `session_data` (session id to turns) and the store.
  Its `Chat` method performs the handler's steps in order and is proved equal
  to the pure specification `HandleChat`, about which the lemmas state what a
  rejected, a failed and a successful request do. `HealthCheck` reports the
  session count.

The similarity search is a function parameter `search(store, query, k)`; the
properties that depend on it assume only `ValidSearch`: at most `k` hits, each
a stored fragment. The model call is a function parameter `invoke(messages)`
returning a reply or an exception, and the generated `uuid4` is the parameter
`freshId`. The class invariant `ChatServer.Valid` says that the store is
flushed to its snapshot and that, for every session, the fragments stored since
start-up, filtered to that session, are exactly that session's history. This
holds as long as no store write fails; the model's store writes always succeed.

Behaviour of the code that may surprise a reader (the model follows the code):
- A `ValueError` raised by the model call is answered with 400, not 500.
- An empty `session_id` is replaced by a generated one, not only an absent one.
- A store failure is not a distinct error. The one modelled, a `KeyError` for a
  session-matching hit without a `role`, becomes the catch-all 500
  `"Unexpected error: 'role'"`.
- A body that is not JSON raises `JSONDecodeError`, a `ValueError`, so it is
  answered with 400 carrying the decoder's message.

## Model

| member | source | states |
|---|---|---|
| `Outcomes.Str` | backend/gpt_server.py:86-96 | the message of a value, runtime or other error as it is; for a `KeyError` the key between two equal quotes, double quotes exactly when the key holds a single quote and no double quote, single quotes otherwise |
| `Messages.ToMessages` | backend/utils/messages.py:3-4 | one message per pair, same length, the i-th message carries the i-th pair's role and content |
| `Messages.GenerateMessages` | backend/utils/messages.py:1-5 | length is `len(context) + len(history)`; message i < len(context) is context[i]; message len(context)+j is history[j] |
| `Messages.AssembleIsMapOfConcat` | backend/utils/messages.py:3-5 | the assembled messages are exactly the concatenation context then history, mapped one to one |
| `Messages.NoDeduplication` | backend/utils/messages.py:3-5 | a pair present in both inputs appears twice in the output, once in the context part and once in the history part |
| `Messages.NothingDropped` | backend/utils/messages.py:3-5 | the multiset of messages is the sum of the mapped context and the mapped history: nothing filtered |
| `Messages.EmptyContext` | backend/utils/messages.py:3-5 | with empty context the output is exactly the history mapped to messages |
| `Messages.EmptyHistory` | backend/utils/messages.py:3-5 | with empty history the output is exactly the context mapped to messages |
| `Database.FilterToSession` | backend/utils/database.py:82-85 | the filter succeeds iff every hit of the session has a role key; otherwise it raises `KeyError('role')`; it never returns more pairs than hits |
| `Database.FilterSelectsSession` | backend/utils/database.py:81-85 | the result is the order-preserving subsequence of exactly the hits whose `session_id` equals the requested one, each projected to `(role, content)`: no hit of another session or of none is returned, none of the session is lost |
| `Database.FilterConcat` | backend/utils/database.py:82-85 | filtering a concatenation concatenates the two filter results, and a `KeyError` in either part fails the whole |
| `Database.DroppedWhenUntagged` | backend/utils/database.py:84 | a hit with no `session_id` metadata is dropped wherever it ranks |
| `Database.FilterAppendTagged` | backend/utils/database.py:72-85 | storing one tagged turn appends its pair to that session's filter result and leaves every other session's result unchanged |
| `Database.FilterNoneInSession` | backend/utils/database.py:82-85 | when no hit belongs to the session the result is empty |
| `Database.RetrieveSimilarContext` | backend/utils/database.py:79-85 | retrieval asks the search for `num_results` candidates (default 5) and filters them to the session: it never returns more pairs than the search returned, and its only failure is `KeyError('role')` |
| `Database.RetrieveWithinBound` | backend/utils/database.py:79-85 | with a search returning at most k stored fragments, retrieval returns at most `num_results` pairs, each the projection of a stored fragment of the requested session |
| `Database.CrowdedOut` | backend/utils/database.py:79-85 | if all k global hits belong to other sessions the result is empty, even though the session has stored fragments |
| `Database.VectorDb.Open` | backend/utils/database.py:56-66 | an existing index is loaded as is; otherwise the store holds exactly the placeholder fragment (role `assistant`, session `default`); either way the snapshot equals the store |
| `Database.VectorDb.AddDocuments` | backend/utils/database.py:75 | the new documents are appended after the existing ones |
| `Database.VectorDb.SaveLocal` | backend/utils/database.py:77 | the snapshot becomes the current store |
| `Database.VectorDb.SaveMessage` | backend/utils/database.py:72-77 | exactly one fragment with the content and metadata `{role, session_id}` is appended, earlier fragments unchanged, and the snapshot equals the store afterwards |
| `Server.ResolveSessionId` | backend/gpt_server.py:56 | the id used is the given one when it is present and non-empty, and otherwise the generated one |
| `Server.MissingInput` | backend/gpt_server.py:59 | the input is missing when the key is absent or null or the text is empty |
| `Server.HandleChat` | backend/gpt_server.py:51-96 | one request as a value: the store only grows, by at most two fragments, with earlier fragments unchanged; no session is removed and every existing history is a prefix of its new value |
| `Server.ErrorResponse` | backend/gpt_server.py:85-96 | `ValueError` maps to 400 and every other exception to 500; the catch-all prefixes "Unexpected error: " to the message |
| `Server.RejectedBeforeAnyChange` | backend/gpt_server.py:55-61 | an unparseable body or a missing or empty `user_input` gives 400 ("Missing user_input." for the latter) and leaves sessions and store untouched |
| `Server.SuccessfulTurn` | backend/gpt_server.py:56-83 | on success the echoed id is the given non-empty id or the generated one; the reply is the model's answer to the context filtered for the input followed by the history ending in the new human turn; the session gains exactly the human and assistant turns; every other session is unchanged; the store gains the two tagged fragments, human first |
| `Server.AnsweredExactlyWhenModelReplies` | backend/gpt_server.py:72-83 | a validated request is answered if and only if retrieval succeeds and the model replies to the assembled prompt |
| `Server.FailedTurnKeepsInput` | backend/gpt_server.py:63-96 | after a failure past validation, the human turn stays in the session and in the store and nothing else changes; the status is 400 exactly when the model raised a `ValueError`, otherwise 500; the response is `ErrorResponse` of the exception actually raised, by retrieval or by the model |
| `Server.MissingRoleDetail` | backend/gpt_server.py:94-96 | a session hit without a `role` key is answered 500 with the detail "Unexpected error: 'role'" |
| `Server.PromptEndsWithInput` | backend/gpt_server.py:68-73 | the prompt has context plus earlier history plus one message, the earlier history in order after the context, and the new input last |
| `Server.SessionCountAfterChat` | backend/gpt_server.py:63-65 | the number of sessions grows by one exactly when a validated request names an unseen session, whether or not the request later fails |
| `Server.RecordTurnMirrors` | backend/gpt_server.py:68-69 | recording a turn in a session and storing it tagged keeps every session's history equal to its stored fragments |
| `Server.HandleChatMirrors` | backend/gpt_server.py:51-96 | every request, whatever its outcome, keeps each session's history equal to the session's fragments stored since start-up, as long as no store write fails |
| `Server.ChatServer.constructor` | backend/gpt_server.py:47 | the server starts with no sessions over a flushed store |
| `Server.ChatServer.OpenSession` | backend/gpt_server.py:63-65 | a session seen for the first time gets an empty history, a known session keeps its own; the invariant is kept |
| `Server.ChatServer.RecordTurn` | backend/gpt_server.py:67-69 | the turn goes at the end of the session's history and exactly one fragment tagged with the role and session is appended to the store; the store stays flushed and mirrors the histories |
| `Server.ChatServer.Chat` | backend/gpt_server.py:51-96 | the response, the new `session_data` and the new store are those of `HandleChat` on the old state; the store stays flushed and mirrors the histories |
| `Server.ChatServer.HealthCheck` | backend/gpt_server.py:99-120 | status, database and model are "ok", and `session_count` is the number of keys of `session_data` |

## Left out

- Similarity ranking and embeddings (FAISS, `GoogleGenerativeAIEmbeddings`): the search is an opaque parameter; only "at most k hits, all stored" is assumed, and only where a lemma says so.
- The on-disk index format (`save_local`, `load_local`, deserialization): persistence is a snapshot equal to the store. A failure while opening the store, which stops start-up with a `RuntimeError`, is not modelled.
- Failures of `add_documents` (which embeds the text over the network) or `save_local` during a request: saving always succeeds in the model. In the program such a failure after the human turn is recorded leaves that turn in `session_data` with no fragment behind it.
- A `similarity_search` that raises (for instance while embedding the query): the search always returns. So the failures a request can end in are the model's exceptions and the `KeyError('role')` of the filter.
- The Gemini client (`invoke`, network, retries): an oracle from the prompt to a reply or an exception.
- `uuid.uuid4()`: the generated id is the parameter `freshId`.
- FastAPI plumbing (CORS, `JSONResponse`, logging). A body is either unparseable or an object whose `session_id` and `user_input` are strings or absent; JSON values of other types, such as a numeric `user_input` or a body that is a JSON list, are not modelled.
- Concurrent requests interleaving on `session_data`: one request at a time.
- Server.ChatServer.HealthCheck: the "failed"/"not ready" values and the 500 branch cannot arise once the module has loaded, so they are not modelled.
- Outcomes.Str: the escaping Python's `repr` applies inside a quoted key (backslashes, non-printable characters, and a single quote in a key that holds both quote kinds) is not modelled; the one key the model raises itself, `role`, needs none.
- The Streamlit front end and the logging and settings modules.
