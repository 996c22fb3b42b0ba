# OneNote assistant: retrieval and answering orchestration in Dafny

This project models the orchestration core of an assistant that answers questions
about a user's OneNote notebooks:

- **`VectorStore`** (vector_store.py). `process_documents` splits each notebook page
  into chunks. It embeds each chunk and adds it to a vector collection under the id
  `doc_{i}_chunk_{j}`. It keeps a progress log and a counter of processed documents.
  A failure on one document is logged and the loop moves on. `search` embeds a
  query, asks the collection for the nearest entries and returns them with a
  three-step progress trail, or an error record.
- **`ask_question`** (app.py), the `/ask` handler. It checks, in this order, that a
  question was given, that an API key is configured and that the store is ready.
  It then searches and builds a templated answer from the retrieved documents.
  Every reply carries the progress gathered so far.
- **`GeminiConnector.generate_answer`** (llm_connector.py). It formats the context
  documents, wraps them and the question in a fixed prompt and calls the model once.
  Every exception becomes an answer string with a fixed prefix.

The text splitter, the embedding model, the Chroma collection's `add` and `query`,
and the Gemini model are foreign code. Each is a function-typed value. The
splitter, the embedder, `query` and the model either return a result or raise,
written `Ok(v)` or `Raised(str(e))` (module `Wrappers`). `add` returns nothing when
it succeeds, so its value is `None` on success and `Some(str(e))` when it raises.
A `VectorStore` holds its collaborators in `services`. Its collection is
`Option<seq<Entry>>`. `None` stands for the state that the `not self.collection`
guards of `process_documents` and `search` refuse.

Modules:

- `Strings` covers decimal rendering with its parser, `str.join`, substring
  containment and counting log lines by prefix.
- `ChunkIds` holds the chunk id scheme and its inverse.
- `VectorStores` holds the class, its specification functions and lemmas.
- `LlmConnector` holds the prompt building.
- `App` holds the request handler.

`ProcessDocuments` and `Search` are imperative methods, with the source's loops, on
class `VectorStores.VectorStore`. Each is proved equal to a specification function:
`ProcessSpec`/`Ingest` and `SearchSpec`. The lemmas then state what those functions
guarantee.

Observations from the source that the model keeps as written:

- Success lines number documents from 1 ("Document 1: …", "Processed document 1/N").
  The failure line uses the 0-based index ("Error processing document 0: …"). So
  one log can name two different documents "document 1". `IngestVerdicts` states
  the numbering exactly.
- Chunk ids start again at `doc_0_chunk_0` on every call of `process_documents`.
  They are unique within one call (`IngestIdsDistinct`), not across calls.
- `generate_answer` calls the model even when the context is empty. The prompt
  then has an empty CONTEXT section (`EmptyContextStillAsksModel`).
- `ask_question` never calls llm_connector.py. It fills in a fixed template with
  the question, the document count, the sources and the first document.

## Model

| member | source | states |
|---|---|---|
| `VectorStores.VectorStore.constructor` | vector_store.py:13-39 | `__init__` when it returns: the store keeps its collaborators and the collection that `get_or_create_collection` gave. When set-up raises, `__init__` re-raises and no store exists; app.py then holds `None` instead of a store, which `AskQuestion` takes as `null` |
| `VectorStores.VectorStore.ProcessDocuments` | vector_store.py:41-103 | the loop over documents, with its inner loop over chunks, returns exactly `ProcessSpec`'s result and leaves the collection exactly as `ProcessSpec` says |
| `VectorStores.AddChunksFrom` | vector_store.py:75-87 | chunks are only appended, never rolled back. Each added entry has id `doc_{i}_chunk_{j}`, the chunk's text, the document's source and the chunk's embedding. No failure is reported exactly when every chunk was stored |
| `VectorStores.AddChunksFromAccepted` | vector_store.py:82-87 | every stored chunk was accepted by `add`, given the collection as it stood before that chunk |
| `VectorStores.AddChunksFromStops` | vector_store.py:78-87 | the loop stops only at a failing call, at the first chunk not stored. The reason is that chunk's embedding error, or the error `add` gave for that chunk's entry |
| `VectorStores.DocumentLog` | vector_store.py:63-95 | one document adds exactly one verdict line to the log. It is a success line exactly when the counter goes up by one, and otherwise the counter is unchanged. The verdict is the 1-based "Processed document i+1/N: source" or a failure line with the 0-based index |
| `VectorStores.DocumentLines` | vector_store.py:63-95 | the exact lines one document adds, and nothing else. A missing "content" or "source" key gives one failure line with KeyError('content') or KeyError('source'). A splitter error gives one failure line with that error. A successful split gives "Document i+1: Split into k chunks", then the success line, or the failure line of the first chunk not stored |
| `VectorStores.IngestLedger` | vector_store.py:59-95 | the log starts with "Starting to process N documents". After k documents, processed <= k, the log holds exactly `processed` success lines and exactly k - processed failure lines |
| `VectorStores.IngestVerdicts` | vector_store.py:63-95 | a failure does not stop the loop. After k documents there are exactly k verdict lines, in document order. Verdict j is the success line naming document j's source, or a failure line for index j |
| `VectorStores.IngestStoresChunks` | vector_store.py:70-87 | the collection as it was before the call is kept as a prefix. Every entry the call adds is chunk j of document i as the splitter produced it, stored with that document's source and the chunk's embedding. Added entries come in strictly increasing (document, chunk) order |
| `VectorStores.IngestStoresProcessed` | vector_store.py:70-90 | conversely, every document the call counts as processed had both keys and a successful split. Each of its chunks t is in the collection at the end of the call, with id `doc_{j}_chunk_{t}`, its text, the document's source and its embedding, at consecutive positions after what was stored before it |
| `VectorStores.ProcessedDocumentStored` | vector_store.py:70-90 | one document step that raises the counter appended exactly that document's chunks, all of them and in order |
| `VectorStores.IngestKeepsEntries` | vector_store.py:63-95 | later documents only append: the collection after the first a documents is a prefix of the collection after the first b |
| `VectorStores.IngestIdsDistinct` | vector_store.py:76 | within one call, no two added entries share an id |
| `VectorStores.ProcessOutcome` | vector_store.py:43-101 | an empty list is refused with "No documents provided" before the collection is checked: no progress, collection unchanged. An uninitialised collection is refused next. Otherwise the log starts with the start line, success and failure lines together number N, the status is success exactly when at least one document was processed, and the message is "Processed c/N documents successfully" with c the success-line count |
| `VectorStores.EmptyDocumentCounts` | vector_store.py:70-90 | a document that splits into zero chunks logs "Split into 0 chunks", counts as processed and adds nothing |
| `VectorStores.Retrieve` | vector_store.py:126-132 | hits become documents in order and with the same length, each as content and source. A hit without a "source" raises KeyError('source'), and does so exactly when some hit lacks it |
| `VectorStores.VectorStore.Search` | vector_store.py:105-152 | the search method reads the collection without changing it, and returns exactly `SearchSpec`'s result |
| `VectorStores.SearchOutcome` | vector_store.py:107-152 | an error has no documents, and its message is "Search error: …", equal to the last log line. An uninitialised collection logs only that line. A failing embedding logs "Generating query embedding" and then "Search error: " followed by the embedder's error. A failing query, or a hit without a source, logs that step, then "Searching collection for top n results", then "Search error: " followed by the query's error or KeyError('source'). A success logs exactly "Generating query embedding", "Searching collection for top n results" and "Found m relevant documents" |
| `VectorStores.SearchReturnsHits` | vector_store.py:121-140 | when the query call succeeds, the search succeeds exactly when every hit has a source, and then returns the hits' texts and sources in order |
| `ChunkIds.ParseChunkIdRoundTrip` | vector_store.py:76 | parsing `doc_{i}_chunk_{j}` gives back (i, j) |
| `ChunkIds.ChunkIdInjective` | vector_store.py:76 | distinct (document, chunk) positions give distinct ids |
| `App.AskQuestion` | app.py:33-141 | the handler, with its guards and its growing progress list, only reads the store. It returns exactly `Reply` for the form field, the key, the store's search of the question (none when the store is missing or has no collection) and the client set-up outcome |
| `App.ReplyOutcome` | app.py:35-133 | the guards run in order, and each failure returns its message with the steps so far plus one error line: no question, then no API key, then no store. An answer comes exactly when every guard passes, the search succeeds, the client is built and some document was found. Its log is then six lines longer than the search's and ends with "Response generated successfully" |
| `App.ReplyAfterSearch` | app.py:66-141 | once the guards pass, the log starts with the handler's three steps followed by the search's own log. A search error is refused with exactly the search's message and that log, and the message is the log's last line. A failing client set-up is refused with "Error processing your question: …", and its log ends with the Gemini step and that message. No documents is refused with "No relevant information found in your OneNote", and its log ends with the Gemini step, the processing step and "No matching content found in notebooks" |
| `App.DistinctSources` | app.py:119 | every document's source appears exactly once, and nothing else appears |
| `App.AnswerMentions` | app.py:111-125 | the answer starts with the heading. It quotes the question, gives the document count, names every document's source and contains the first document's content verbatim |
| `LlmConnector.Blocks` | llm_connector.py:19 | formatting succeeds exactly when every document has both keys. It then gives one "Document: …\nSource: …" block per document, in order. Otherwise the first incomplete document raises KeyError('content'), or KeyError('source') when only the source is missing |
| `LlmConnector.PromptLayout` | llm_connector.py:22-32 | the prompt starts with the fixed instructions, holds the formatted context under "CONTEXT:", and ends with "QUESTION: {query}" followed by "ANSWER:" |
| `LlmConnector.PromptCarriesContext` | llm_connector.py:19-32 | every context document's content and source appear in the prompt |
| `LlmConnector.GenerateAnswer` | llm_connector.py:15-40 | never raises. A missing key gives the error prefix followed by the first incomplete document's KeyError. Otherwise the model's reply text is returned unchanged, or the error prefix followed by the model's failure reason |
| `LlmConnector.EmptyContextStillAsksModel` | llm_connector.py:19-36 | an empty context formats to "" and the model is still called with the prompt |

## Left out

- The splitter, the embedder and Chroma's `add` and `query` are foreign code. They
  are opaque functions that may raise. Chunk size, overlap, coverage, embedding
  values and similarity ranking are not modelled: none of them is implemented in
  the modelled files.
- Each collaborator is a deterministic function of its inputs. `add` and `query`
  see the collection's current entries. A network call that answers differently
  for the same input is not modelled.
- Chroma's handling of an id that is already stored is left to the `add`
  collaborator. A successful `add` appends the entry.
- `App.DistinctSources`: Python leaves the iteration order of a `set` unspecified.
  The model lists sources in first-occurrence order, and only membership and
  distinctness are stated.
- Document and context dictionaries are records whose keys may be missing.
  Non-dictionary documents and non-string values (which an f-string would pass
  through `str`) are not modelled.
- In `ask_question`, the construction of `ChatGoogleGenerativeAI` and
  `ConversationBufferMemory` is one step that may raise, given as `clientSetup`.
  The objects themselves are unused and not modelled. The global `chat_history` is
  not modelled either.
- Flask routing, `jsonify`, `render_template`, `request.form`, `os.getenv`,
  `load_dotenv`, `print` and `time.sleep(2)` are not modelled. The form field, the
  API key and the module-level store are parameters of `AskQuestion`.
- `VectorStore.__init__` reads environment variables and builds its clients. The
  constructor takes their outcome when set-up succeeds: the collaborators and the
  collection. A set-up that raises has no counterpart, because `__init__`
  re-raises and no store is created.
- `VectorStores.VectorStore.constructor`: the class still lets a store whose
  collection is `None` exist, so that the `not self.collection` guards of
  `process_documents` and `search` are modelled. The source's constructor never
  hands out such a store, and no modelled operation sets the collection to `None`.
- `GeminiConnector.__init__` (`genai.configure`, model construction) is not
  modelled. The model is a parameter of `GenerateAnswer`.
- onenote_connector.py (Microsoft Graph requests, HTML to text) and ms_auth.py
  (the MSAL wrapper) are not part of this model.
