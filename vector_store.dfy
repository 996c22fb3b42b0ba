/**
 * `VectorStore` of vector_store.py: ingestion of notebook documents into a
 * vector collection (`process_documents`) and similarity search over it
 * (`search`).
 *
 * The text splitter, the embedding model and the collection's `add` and
 * `query` are foreign code; they are the `Services` of a store, functions that
 * either produce a value or raise (`Raised(str(e))`). The collection itself is
 * the sequence of entries `add` has stored, or `None` when it was never
 * obtained (`self.collection = None`).
 */
module VectorStores {
  import opened Wrappers
  import opened Strings
  import opened ChunkIds

  // ---------------------------------------------------------------------------
  // Data model

  /** `RecursiveCharacterTextSplitter(chunk_size=1000, chunk_overlap=100)` */
  const ChunkSize: nat := 1000
  const ChunkOverlap: nat := 100

  /** `search(query, n_results=5)` */
  const DefaultResults: nat := 5

  /** A document dictionary; a key the dictionary lacks is `None`. */
  datatype Document = Document(content: Option<string>, source: Option<string>)

  /** An embedding vector; its values are never inspected by the store. */
  datatype Embedding = Embedding(values: seq<real>)

  /** One stored chunk: id, embedding, chunk text and `metadatas={"source": ...}`. */
  datatype Entry = Entry(id: string, embedding: Embedding, text: string, source: string)

  /** One query result: its document text and the "source" of its metadata, if present. */
  datatype Hit = Hit(text: string, source: Option<string>)

  /** A search result document `{"content": ..., "source": ...}`. */
  datatype RetrievedDocument = RetrievedDocument(content: string, source: string)

  datatype Status = Success | Error

  /** The collaborators of a store. `add` answers `Some(str(e))` when `collection.add` raises. */
  datatype Services = Services(
    splitText: (string, nat, nat) -> Result<seq<string>>,
    embedQuery: string -> Result<Embedding>,
    add: (seq<Entry>, Entry) -> Option<string>,
    query: (seq<Entry>, Embedding, nat) -> Result<seq<Hit>>)

  /** The dictionary returned by `process_documents`; `progress` is absent on the early errors. */
  datatype ProcessResult = ProcessResult(status: Status, message: string, progress: Option<seq<string>>)

  /** The dictionary returned by `search`; `message` is present only on errors. */
  datatype SearchResult = SearchResult(
    status: Status, message: Option<string>, documents: seq<RetrievedDocument>, progress: seq<string>)

  // ---------------------------------------------------------------------------
  // Messages

  const NoDocumentsMessage := "No documents provided"
  const NotInitialisedMessage := "Vector database not initialized"
  const ProcessedPrefix := "Processed document "
  const FailurePrefix := "Error processing document "

  function StartLine(n: nat): string {
    "Starting to process " + NatToString(n) + " documents"
  }

  /** The split line of the document at 0-based position `i` (printed 1-based). */
  function SplitLine(i: nat, chunks: nat): string {
    "Document " + NatToString(i + 1) + ": Split into " + NatToString(chunks) + " chunks"
  }

  /** The success line of the document at 0-based position `i` (printed 1-based). */
  function ProcessedLine(i: nat, n: nat, source: string): string {
    ProcessedPrefix + NatToString(i + 1) + "/" + NatToString(n) + ": " + source
  }

  /** The failure line of the document at 0-based position `i` (printed 0-based, as the source does). */
  function FailureLine(i: nat, reason: string): string {
    FailurePrefix + NatToString(i) + ": " + reason
  }

  function SummaryMessage(processed: nat, n: nat): string {
    "Processed " + NatToString(processed) + "/" + NatToString(n) + " documents successfully"
  }

  const EmbeddingStep := "Generating query embedding"
  const CollectionNotInitialisedReason := "Vector database collection not initialized"

  function SearchingLine(n: nat): string {
    "Searching collection for top " + NatToString(n) + " results"
  }

  function FoundLine(m: nat): string {
    "Found " + NatToString(m) + " relevant documents"
  }

  function SearchErrorText(reason: string): string {
    "Search error: " + reason
  }

  // ---------------------------------------------------------------------------
  // Ingestion, as a specification

  /** The state `process_documents` carries from one document to the next. */
  datatype IngestState = IngestState(progress: seq<string>, entries: seq<Entry>, processed: nat)

  /** The entry stored for chunk `j` of document `i`. */
  ghost predicate IsChunkEntry(s: Services, i: nat, j: nat, text: string, source: string, e: Entry) {
    e.id == ChunkId(i, j) && e.text == text && e.source == source && s.embedQuery(text) == Ok(e.embedding)
  }

  /**
   * Embeds and adds chunks `j..` of document `i`, stopping at the first call
   * that raises; returns the collection and the reason of that failure.
   * Entries added before a failure stay: there is no rollback.
   */
  function AddChunksFrom(s: Services, i: nat, source: string, chunks: seq<string>, j: nat, entries: seq<Entry>)
    : (r: (seq<Entry>, Option<string>))
    requires j <= |chunks|
    ensures |entries| <= |r.0| <= |entries| + (|chunks| - j) && r.0[..|entries|] == entries
    ensures forall t :: |entries| <= t < |r.0| ==>
              IsChunkEntry(s, i, j + (t - |entries|), chunks[j + (t - |entries|)], source, r.0[t])
    ensures r.1.None? <==> |r.0| == |entries| + (|chunks| - j)
    decreases |chunks| - j
  {
    if j == |chunks| then (entries, None)
    else
      match s.embedQuery(chunks[j])
      case Raised(e) => (entries, Some(e))
      case Ok(v) =>
        var entry := Entry(ChunkId(i, j), v, chunks[j], source);
        match s.add(entries, entry)
        case Some(e) => (entries, Some(e))
        case None => AddChunksFrom(s, i, source, chunks, j + 1, entries + [entry])
  }

  /** Every entry of `es` from position `from` on was accepted by `add`, given the entries before it. */
  ghost predicate AcceptedFrom(s: Services, es: seq<Entry>, from: nat) {
    forall t :: from <= t < |es| ==> s.add(es[..t], es[t]).None?
  }

  /** Every chunk the loop stored was accepted by `add`, given the collection as it stood. */
  lemma {:induction false} AddChunksFromAccepted(s: Services, i: nat, source: string, chunks: seq<string>, j: nat, entries: seq<Entry>)
    requires j <= |chunks|
    ensures AcceptedFrom(s, AddChunksFrom(s, i, source, chunks, j, entries).0, |entries|)
    decreases |chunks| - j
  {
    if j < |chunks| && s.embedQuery(chunks[j]).Ok? {
      var entry := Entry(ChunkId(i, j), s.embedQuery(chunks[j]).value, chunks[j], source);
      if s.add(entries, entry).None? {
        AddChunksFromAccepted(s, i, source, chunks, j + 1, entries + [entry]);
        var r := AddChunksFrom(s, i, source, chunks, j + 1, entries + [entry]);
        assert r.0[..|entries| + 1] == entries + [entry];
        assert r.0[..|entries|] == entries;
      }
    }
  }


  /**
   * The chunk loop stops only at a call that fails, and with that call's
   * reason: the embedding error or the `add` error of the first chunk not
   * stored.
   */
  lemma {:induction false} AddChunksFromStops(s: Services, i: nat, source: string, chunks: seq<string>, j: nat, entries: seq<Entry>)
    requires j <= |chunks|
    ensures var r := AddChunksFrom(s, i, source, chunks, j, entries);
      r.1.Some? ==>
        var m := j + (|r.0| - |entries|);
        && m < |chunks|
        && var embedded := s.embedQuery(chunks[m]);
        && (embedded.Raised? ==> r.1.value == embedded.error)
        && (embedded.Ok? ==> s.add(r.0, Entry(ChunkId(i, m), embedded.value, chunks[m], source)) == r.1)
    decreases |chunks| - j
  {
    if j < |chunks| && s.embedQuery(chunks[j]).Ok? {
      var entry := Entry(ChunkId(i, j), s.embedQuery(chunks[j]).value, chunks[j], source);
      if s.add(entries, entry).None? {
        AddChunksFromStops(s, i, source, chunks, j + 1, entries + [entry]);
      }
    }
  }


  /** The body of the `try` block for the document at position `i` of `n`, and its `except`. */
  function ProcessDocument(s: Services, n: nat, i: nat, doc: Document, st: IngestState): IngestState {
    match doc.content
    case None => st.(progress := st.progress + [FailureLine(i, KeyErrorText("content"))])
    case Some(content) =>
      match doc.source
      case None => st.(progress := st.progress + [FailureLine(i, KeyErrorText("source"))])
      case Some(source) =>
        match s.splitText(content, ChunkSize, ChunkOverlap)
        case Raised(e) => st.(progress := st.progress + [FailureLine(i, e)])
        case Ok(chunks) =>
          var logged := st.progress + [SplitLine(i, |chunks|)];
          var (entries, failure) := AddChunksFrom(s, i, source, chunks, 0, st.entries);
          match failure
          case None => IngestState(logged + [ProcessedLine(i, n, source)], entries, st.processed + 1)
          case Some(e) => IngestState(logged + [FailureLine(i, e)], entries, st.processed)
  }

  /** The state after the first `k` documents of `docs`, starting from collection `entries`. */
  function Ingest(s: Services, docs: seq<Document>, k: nat, entries: seq<Entry>): IngestState
    requires k <= |docs|
  {
    if k == 0 then IngestState([StartLine(|docs|)], entries, 0)
    else ProcessDocument(s, |docs|, k - 1, docs[k - 1], Ingest(s, docs, k - 1, entries))
  }

  /** `process_documents(docs)` on a store whose collection is `collection`: its result and the new collection. */
  function ProcessSpec(s: Services, collection: Option<seq<Entry>>, docs: seq<Document>)
    : (ProcessResult, Option<seq<Entry>>)
  {
    if |docs| == 0 then (ProcessResult(Error, NoDocumentsMessage, None), collection)
    else if collection.None? then (ProcessResult(Error, NotInitialisedMessage, None), collection)
    else
      var st := Ingest(s, docs, |docs|, collection.value);
      (ProcessResult(if st.processed > 0 then Success else Error,
                     SummaryMessage(st.processed, |docs|),
                     Some(st.progress)),
       Some(st.entries))
  }

  // ---------------------------------------------------------------------------
  // Search, as a specification

  /** The loop that turns query hits into result documents; a hit without "source" raises KeyError. */
  function Retrieve(hits: seq<Hit>): (r: Result<seq<RetrievedDocument>>)
    ensures r.Raised? <==> exists t :: 0 <= t < |hits| && hits[t].source.None?
    ensures r.Raised? ==> r.error == KeyErrorText("source")
    ensures r.Ok? ==> |r.value| == |hits|
    ensures r.Ok? ==> forall t :: 0 <= t < |hits| ==>
              r.value[t] == RetrievedDocument(hits[t].text, hits[t].source.value)
    decreases |hits|
  {
    if |hits| == 0 then Ok([])
    else
      var last := hits[|hits| - 1];
      match Retrieve(hits[..|hits| - 1])
      case Raised(e) => Raised(e)
      case Ok(docs) =>
        if last.source.None? then Raised(KeyErrorText("source"))
        else Ok(docs + [RetrievedDocument(last.text, last.source.value)])
  }

  /** The `except` branch of `search`. */
  function SearchFailed(progress: seq<string>, reason: string): SearchResult {
    var message := SearchErrorText(reason);
    SearchResult(Error, Some(message), [], progress + [message])
  }

  /** `search(query, n)` on a store whose collection is `collection`. */
  function SearchSpec(s: Services, collection: Option<seq<Entry>>, query: string, n: nat): SearchResult {
    if collection.None? then SearchFailed([], CollectionNotInitialisedReason)
    else
      var embedded := [EmbeddingStep];
      match s.embedQuery(query)
      case Raised(e) => SearchFailed(embedded, e)
      case Ok(v) =>
        var searching := embedded + [SearchingLine(n)];
        match s.query(collection.value, v, n)
        case Raised(e) => SearchFailed(searching, e)
        case Ok(hits) =>
          match Retrieve(hits)
          case Raised(e) => SearchFailed(searching, e)
          case Ok(documents) => SearchResult(Success, None, documents, searching + [FoundLine(|documents|)])
  }

  // ---------------------------------------------------------------------------
  // Properties of ingestion

  /** The four kinds of progress line are told apart by their prefixes. */
  lemma LineKinds(n: nat, i: nat, chunks: nat, source: string, reason: string)
    ensures !StartsWith(StartLine(n), ProcessedPrefix) && !StartsWith(StartLine(n), FailurePrefix)
    ensures !StartsWith(SplitLine(i, chunks), ProcessedPrefix) && !StartsWith(SplitLine(i, chunks), FailurePrefix)
    ensures StartsWith(ProcessedLine(i, n, source), ProcessedPrefix)
    ensures !StartsWith(ProcessedLine(i, n, source), FailurePrefix)
    ensures StartsWith(FailureLine(i, reason), FailurePrefix + NatToString(i) + ": ")
    ensures StartsWith(FailureLine(i, reason), FailurePrefix)
    ensures !StartsWith(FailureLine(i, reason), ProcessedPrefix)
  {
    StartsWithFirstChar(StartLine(n), ProcessedPrefix);
    StartsWithFirstChar(StartLine(n), FailurePrefix);
    StartsWithFirstChar(SplitLine(i, chunks), ProcessedPrefix);
    StartsWithFirstChar(SplitLine(i, chunks), FailurePrefix);
    var tail := NatToString(i + 1) + "/" + NatToString(n) + ": " + source;
    assert ProcessedLine(i, n, source) == ProcessedPrefix + tail;
    StartsWithConcat(ProcessedPrefix, tail);
    StartsWithFirstChar(ProcessedLine(i, n, source), FailurePrefix);
    var head := FailurePrefix + NatToString(i) + ": ";
    StartsWithConcat(head, reason);
    assert FailureLine(i, reason) == FailurePrefix + (NatToString(i) + ": " + reason);
    StartsWithConcat(FailurePrefix, NatToString(i) + ": " + reason);
    StartsWithFirstChar(FailureLine(i, reason), ProcessedPrefix);
  }

  /** The verdict lines of a log: its success and failure lines, in order. */
  function Verdicts(progress: seq<string>): seq<string> {
    Select(progress, ProcessedPrefix, FailurePrefix)
  }

  /**
   * The lines one document adds to the log, and nothing else: a failure line
   * naming the missing key or the splitter's error, or the split line with
   * the chunk count followed by the success line or the failure line of the
   * first chunk that could not be stored.
   */
  lemma DocumentLines(s: Services, n: nat, i: nat, doc: Document, st: IngestState)
    ensures |st.progress| <= |ProcessDocument(s, n, i, doc, st).progress|
    ensures var extra := ProcessDocument(s, n, i, doc, st).progress[|st.progress|..];
      && (doc.content.None? ==> extra == [FailureLine(i, KeyErrorText("content"))])
      && (doc.content.Some? && doc.source.None? ==> extra == [FailureLine(i, KeyErrorText("source"))])
      && (doc.content.Some? && doc.source.Some? ==>
            var split := s.splitText(doc.content.value, ChunkSize, ChunkOverlap);
            && (split.Raised? ==> extra == [FailureLine(i, split.error)])
            && (split.Ok? ==>
                  var added := AddChunksFrom(s, i, doc.source.value, split.value, 0, st.entries);
                  extra == [SplitLine(i, |split.value|),
                            if added.1.None? then ProcessedLine(i, n, doc.source.value) else FailureLine(i, added.1.value)]))
  {
  }

  /**
   * What one document adds to the log: exactly one verdict line, a success
   * line exactly when the counter goes up, preceded by the split line once
   * the split succeeded.
   */
  lemma DocumentLog(s: Services, n: nat, i: nat, doc: Document, st: IngestState)
    ensures var st' := ProcessDocument(s, n, i, doc, st);
      var extra := st'.progress[|st.progress|..];
      && |st.progress| <= |st'.progress| && st'.progress == st.progress + extra
      && st.processed <= st'.processed <= st.processed + 1
      && CountWithPrefix(extra, ProcessedPrefix) == st'.processed - st.processed
      && CountWithPrefix(extra, FailurePrefix) == 1 - (st'.processed - st.processed)
      && |Verdicts(extra)| == 1
      && ((doc.source.Some? && Verdicts(extra)[0] == ProcessedLine(i, n, doc.source.value))
          || StartsWith(Verdicts(extra)[0], FailurePrefix + NatToString(i) + ": "))
  {
    var st' := ProcessDocument(s, n, i, doc, st);
    if doc.content.None? || doc.source.None? || s.splitText(doc.content.value, ChunkSize, ChunkOverlap).Raised? {
      var reason := if doc.content.None? then KeyErrorText("content")
                    else if doc.source.None? then KeyErrorText("source")
                    else s.splitText(doc.content.value, ChunkSize, ChunkOverlap).error;
      var extra := [FailureLine(i, reason)];
      assert st'.progress == st.progress + extra && st'.processed == st.processed;
      assert st'.progress[|st.progress|..] == extra;
      LineKinds(n, i, 0, "", reason);
      VerdictOnly(extra[0]);
    } else {
      var source := doc.source.value;
      var chunks := s.splitText(doc.content.value, ChunkSize, ChunkOverlap).value;
      var added := AddChunksFrom(s, i, source, chunks, 0, st.entries);
      var reason := if added.1.None? then "" else added.1.value;
      var verdict := if added.1.None? then ProcessedLine(i, n, source) else FailureLine(i, reason);
      var extra := [SplitLine(i, |chunks|), verdict];
      assert st'.progress == st.progress + extra;
      assert st'.progress[|st.progress|..] == extra;
      assert st'.processed == st.processed + (if added.1.None? then 1 else 0);
      LineKinds(n, i, |chunks|, source, reason);
      NoteThenVerdict(SplitLine(i, |chunks|), verdict);
    }
  }

  /** A lone verdict line is counted once, under its own prefix. */
  lemma VerdictOnly(v: string)
    requires StartsWith(v, ProcessedPrefix) != StartsWith(v, FailurePrefix)
    ensures CountWithPrefix([v], ProcessedPrefix) == if StartsWith(v, ProcessedPrefix) then 1 else 0
    ensures CountWithPrefix([v], FailurePrefix) == if StartsWith(v, ProcessedPrefix) then 0 else 1
    ensures Verdicts([v]) == [v]
  {
    CountWithPrefixOne(v, ProcessedPrefix);
    CountWithPrefixOne(v, FailurePrefix);
    SelectOne(v, ProcessedPrefix, FailurePrefix);
  }

  /** A note followed by a verdict line is counted as the verdict alone. */
  lemma NoteThenVerdict(note: string, v: string)
    requires !StartsWith(note, ProcessedPrefix) && !StartsWith(note, FailurePrefix)
    requires StartsWith(v, ProcessedPrefix) != StartsWith(v, FailurePrefix)
    ensures CountWithPrefix([note, v], ProcessedPrefix) == if StartsWith(v, ProcessedPrefix) then 1 else 0
    ensures CountWithPrefix([note, v], FailurePrefix) == if StartsWith(v, ProcessedPrefix) then 0 else 1
    ensures Verdicts([note, v]) == [v]
  {
    CountWithPrefixOne(note, ProcessedPrefix);
    CountWithPrefixOne(note, FailurePrefix);
    CountWithPrefixTwo(note, v, ProcessedPrefix);
    CountWithPrefixTwo(note, v, FailurePrefix);
    SelectOne(note, ProcessedPrefix, FailurePrefix);
    SelectTwo(note, v, ProcessedPrefix, FailurePrefix);
  }


  /**
   * The processed counter agrees with the log: after `k` documents the log
   * opens with the start line, holds one success line per processed document
   * and one failure line for each of the other documents.
   */
  lemma {:induction false} IngestLedger(s: Services, docs: seq<Document>, k: nat, entries: seq<Entry>)
    requires k <= |docs|
    ensures var st := Ingest(s, docs, k, entries);
      && |st.progress| > 0 && st.progress[0] == StartLine(|docs|)
      && st.processed <= k
      && CountWithPrefix(st.progress, ProcessedPrefix) == st.processed
      && CountWithPrefix(st.progress, FailurePrefix) == k - st.processed
  {
    if k == 0 {
      LineKinds(|docs|, 0, 0, "", "");
      CountWithPrefixOne(StartLine(|docs|), ProcessedPrefix);
      CountWithPrefixOne(StartLine(|docs|), FailurePrefix);
    } else {
      var prev := Ingest(s, docs, k - 1, entries);
      var st := Ingest(s, docs, k, entries);
      IngestLedger(s, docs, k - 1, entries);
      DocumentLog(s, |docs|, k - 1, docs[k - 1], prev);
      var extra := st.progress[|prev.progress|..];
      CountWithPrefixAppend(prev.progress, extra, ProcessedPrefix);
      CountWithPrefixAppend(prev.progress, extra, FailurePrefix);
    }
  }

  /**
   * A failure does not stop the loop: after `k` documents the log holds
   * exactly one verdict line per document, in document order; the verdict of
   * document `j` is its 1-based success line naming its source, or a failure
   * line carrying its 0-based position.
   */
  lemma {:induction false} IngestVerdicts(s: Services, docs: seq<Document>, k: nat, entries: seq<Entry>)
    requires k <= |docs|
    ensures var v := Verdicts(Ingest(s, docs, k, entries).progress);
      && |v| == k
      && forall j :: 0 <= j < k ==>
           || (docs[j].source.Some? && v[j] == ProcessedLine(j, |docs|, docs[j].source.value))
           || StartsWith(v[j], FailurePrefix + NatToString(j) + ": ")
  {
    if k == 0 {
      LineKinds(|docs|, 0, 0, "", "");
      SelectOne(StartLine(|docs|), ProcessedPrefix, FailurePrefix);
    } else {
      var prev := Ingest(s, docs, k - 1, entries);
      var st := ProcessDocument(s, |docs|, k - 1, docs[k - 1], prev);
      assert st == Ingest(s, docs, k, entries);
      IngestVerdicts(s, docs, k - 1, entries);
      DocumentLog(s, |docs|, k - 1, docs[k - 1], prev);
      var extra := st.progress[|prev.progress|..];
      SelectAppend(prev.progress, extra, ProcessedPrefix, FailurePrefix);
      assert st.progress == prev.progress + extra;
      var v, vp, ve := Verdicts(st.progress), Verdicts(prev.progress), Verdicts(extra);
      assert v == vp + ve;
      assert |ve| == 1 && |vp| == k - 1;
      forall j | 0 <= j < k
        ensures || (docs[j].source.Some? && v[j] == ProcessedLine(j, |docs|, docs[j].source.value))
                || StartsWith(v[j], FailurePrefix + NatToString(j) + ": ")
      {
        if j < k - 1 {
          assert v[j] == vp[j];
        } else {
          assert v[j] == ve[0];
        }
      }
    }
  }

  /** `e` is chunk `j` of document `i < k` of `docs`, as split, embedded and labelled with its source. */
  ghost predicate StoredChunkOf(s: Services, docs: seq<Document>, k: nat, e: Entry) {
    match ParseChunkId(e.id)
    case None => false
    case Some((i, j)) =>
      && i < k && i < |docs|
      && docs[i].content.Some? && docs[i].source.Some?
      && var split := s.splitText(docs[i].content.value, ChunkSize, ChunkOverlap);
      && split.Ok? && j < |split.value|
      && IsChunkEntry(s, i, j, split.value[j], docs[i].source.value, e)
  }

  /** Id `a` names an earlier (document, chunk) position than id `b`. */
  ghost predicate KeyBefore(a: Option<(nat, nat)>, b: Option<(nat, nat)>) {
    a.Some? && b.Some? && (a.value.0 < b.value.0 || (a.value.0 == b.value.0 && a.value.1 < b.value.1))
  }

  /** Entries `from..` of `es` are chunks of the first `k` documents, stored in (document, chunk) order. */
  ghost predicate StoredInOrder(s: Services, docs: seq<Document>, k: nat, es: seq<Entry>, from: nat) {
    && from <= |es|
    && (forall p :: from <= p < |es| ==> StoredChunkOf(s, docs, k, es[p]))
    && (forall p, q :: from <= p < q < |es| ==> KeyBefore(ParseChunkId(es[p].id), ParseChunkId(es[q].id)))
  }

  /** One document step only appends, and what it appends are its own chunks in order. */
  lemma ProcessDocumentStoresChunks(s: Services, docs: seq<Document>, i: nat, st: IngestState, from: nat)
    requires i < |docs| && StoredInOrder(s, docs, i, st.entries, from)
    ensures var es := ProcessDocument(s, |docs|, i, docs[i], st).entries;
      |st.entries| <= |es| && es[..|st.entries|] == st.entries && StoredInOrder(s, docs, i + 1, es, from)
  {
    var doc := docs[i];
    var es := ProcessDocument(s, |docs|, i, doc, st).entries;
    var before := st.entries;
    forall p | from <= p < |before|
      ensures StoredChunkOf(s, docs, i + 1, before[p])
    {
      assert StoredChunkOf(s, docs, i, before[p]);
    }
    if doc.content.Some? && doc.source.Some? && s.splitText(doc.content.value, ChunkSize, ChunkOverlap).Ok? {
      var source := doc.source.value;
      var chunks := s.splitText(doc.content.value, ChunkSize, ChunkOverlap).value;
      assert es == AddChunksFrom(s, i, source, chunks, 0, before).0;
      forall p | |before| <= p < |es|
        ensures ParseChunkId(es[p].id) == Some((i, p - |before|))
        ensures StoredChunkOf(s, docs, i + 1, es[p])
      {
        assert IsChunkEntry(s, i, p - |before|, chunks[p - |before|], source, es[p]);
        ParseChunkIdRoundTrip(i, p - |before|);
      }
      forall p | from <= p < |before|
        ensures es[p] == before[p]
        ensures StoredChunkOf(s, docs, i + 1, es[p])
        ensures ParseChunkId(es[p].id).Some? && ParseChunkId(es[p].id).value.0 < i
      {
        assert es[p] == es[..|before|][p];
        assert StoredChunkOf(s, docs, i, before[p]);
      }
      forall p, q | from <= p < q < |es|
        ensures KeyBefore(ParseChunkId(es[p].id), ParseChunkId(es[q].id))
      {
        if q < |before| {
          assert es[p] == before[p] && es[q] == before[q];
        }
      }
    }
  }

  /**
   * Everything one call adds to the collection is a chunk of one of its
   * documents, carrying that document's source, and the added chunks come in
   * (document, chunk) order; what was stored before the call stays as it was.
   */
  lemma {:induction false} IngestStoresChunks(s: Services, docs: seq<Document>, k: nat, entries: seq<Entry>)
    requires k <= |docs|
    ensures var es := Ingest(s, docs, k, entries).entries;
      |entries| <= |es| && es[..|entries|] == entries && StoredInOrder(s, docs, k, es, |entries|)
  {
    if k > 0 {
      var prev := Ingest(s, docs, k - 1, entries);
      IngestStoresChunks(s, docs, k - 1, entries);
      ProcessDocumentStoresChunks(s, docs, k - 1, prev, |entries|);
      var es := Ingest(s, docs, k, entries).entries;
      assert es[..|entries|] == es[..|prev.entries|][..|entries|];
    }
  }

  /** One document step only appends to the collection. */
  lemma ProcessDocumentAppends(s: Services, n: nat, i: nat, doc: Document, st: IngestState)
    ensures var es := ProcessDocument(s, n, i, doc, st).entries;
      |st.entries| <= |es| && es[..|st.entries|] == st.entries
  {
  }

  /** The collection after the first `a` documents is a prefix of the one after the first `b`. */
  lemma {:induction false} IngestKeepsEntries(s: Services, docs: seq<Document>, a: nat, b: nat, entries: seq<Entry>)
    requires a <= b <= |docs|
    ensures var before := Ingest(s, docs, a, entries).entries;
      var after := Ingest(s, docs, b, entries).entries;
      |before| <= |after| && after[..|before|] == before
  {
    if a < b {
      IngestKeepsEntries(s, docs, a, b - 1, entries);
      var mid := Ingest(s, docs, b - 1, entries);
      ProcessDocumentAppends(s, |docs|, b - 1, docs[b - 1], mid);
      var before := Ingest(s, docs, a, entries).entries;
      var after := ProcessDocument(s, |docs|, b - 1, docs[b - 1], mid).entries;
      assert after == Ingest(s, docs, b, entries).entries;
      assert after[..|before|] == after[..|mid.entries|][..|before|];
    }
  }

  /** `es` holds chunks `0..` of document `i` as entries, starting at position `base`. */
  ghost predicate ChunksAt(s: Services, i: nat, chunks: seq<string>, source: string, es: seq<Entry>, base: nat) {
    && base + |chunks| <= |es|
    && forall t :: 0 <= t < |chunks| ==> IsChunkEntry(s, i, t, chunks[t], source, es[base + t])
  }

  /** Chunks found in a collection are still found once more entries are appended. */
  lemma ChunksAtKept(s: Services, i: nat, chunks: seq<string>, source: string, es: seq<Entry>, longer: seq<Entry>, base: nat)
    requires ChunksAt(s, i, chunks, source, es, base)
    requires |es| <= |longer| && longer[..|es|] == es
    ensures ChunksAt(s, i, chunks, source, longer, base)
  {
    forall t | 0 <= t < |chunks|
      ensures IsChunkEntry(s, i, t, chunks[t], source, longer[base + t])
    {
      assert longer[base + t] == longer[..|es|][base + t];
    }
  }

  /**
   * Every chunk of a document the call counts as processed is in the
   * collection when the call ends: chunk `t` of document `j`, with id
   * `doc_{j}_chunk_{t}`, its text, the document's source and its embedding,
   * at the position where the document's chunks start plus `t`.
   */
  lemma IngestStoresProcessed(s: Services, docs: seq<Document>, k: nat, entries: seq<Entry>, j: nat)
    requires j < k <= |docs|
    requires Ingest(s, docs, j + 1, entries).processed == Ingest(s, docs, j, entries).processed + 1
    ensures docs[j].content.Some? && docs[j].source.Some?
    ensures var split := s.splitText(docs[j].content.value, ChunkSize, ChunkOverlap);
      && split.Ok?
      && var base := |Ingest(s, docs, j, entries).entries|;
      && |entries| <= base
      && ChunksAt(s, j, split.value, docs[j].source.value, Ingest(s, docs, k, entries).entries, base)
  {
    var prev := Ingest(s, docs, j, entries);
    var cur := Ingest(s, docs, j + 1, entries);
    assert cur == ProcessDocument(s, |docs|, j, docs[j], prev);
    ProcessedDocumentStored(s, |docs|, j, docs[j], prev);
    var chunks := s.splitText(docs[j].content.value, ChunkSize, ChunkOverlap).value;
    IngestKeepsEntries(s, docs, 0, j, entries);
    IngestKeepsEntries(s, docs, j + 1, k, entries);
    ChunksAtKept(s, j, chunks, docs[j].source.value, cur.entries, Ingest(s, docs, k, entries).entries, |prev.entries|);
  }

  /**
   * A document step that counts the document as processed has stored every
   * one of its chunks, in order, right after what the collection held.
   */
  lemma ProcessedDocumentStored(s: Services, n: nat, i: nat, doc: Document, st: IngestState)
    requires ProcessDocument(s, n, i, doc, st).processed == st.processed + 1
    ensures doc.content.Some? && doc.source.Some?
    ensures var split := s.splitText(doc.content.value, ChunkSize, ChunkOverlap);
      && split.Ok?
      && var es := ProcessDocument(s, n, i, doc, st).entries;
      && |es| == |st.entries| + |split.value|
      && es[..|st.entries|] == st.entries
      && ChunksAt(s, i, split.value, doc.source.value, es, |st.entries|)
  {
    var split := s.splitText(doc.content.value, ChunkSize, ChunkOverlap);
    var added := AddChunksFrom(s, i, doc.source.value, split.value, 0, st.entries);
    forall t | 0 <= t < |split.value|
      ensures IsChunkEntry(s, i, t, split.value[t], doc.source.value, added.0[|st.entries| + t])
    {
      assert 0 + (|st.entries| + t - |st.entries|) == t;
    }
  }



  /** Within one call, no two added chunks share an id. */
  lemma IngestIdsDistinct(s: Services, docs: seq<Document>, entries: seq<Entry>)
    ensures var es := Ingest(s, docs, |docs|, entries).entries;
      forall p, q :: |entries| <= p < q < |es| ==> es[p].id != es[q].id
  {
    IngestStoresChunks(s, docs, |docs|, entries);
  }

  /**
   * The result of `process_documents`: an empty list is refused before the
   * collection is looked at, and leaves it as it was; an uninitialised
   * collection is refused next; otherwise the status is "success" exactly
   * when the log shows at least one processed document, and the message
   * counts the processed documents out of all of them.
   */
  lemma ProcessOutcome(s: Services, collection: Option<seq<Entry>>, docs: seq<Document>)
    ensures var (r, after) := ProcessSpec(s, collection, docs);
      && (docs == [] ==> r == ProcessResult(Error, NoDocumentsMessage, None) && after == collection)
      && (docs != [] && collection.None? ==> r == ProcessResult(Error, NotInitialisedMessage, None) && after == None)
      && (docs != [] && collection.Some? ==>
            && r.progress.Some? && |r.progress.value| > 0 && r.progress.value[0] == StartLine(|docs|)
            && var processed := CountWithPrefix(r.progress.value, ProcessedPrefix);
            && processed + CountWithPrefix(r.progress.value, FailurePrefix) == |docs|
            && (r.status == Success <==> processed > 0)
            && r.message == SummaryMessage(processed, |docs|))
  {
    if docs != [] && collection.Some? {
      IngestLedger(s, docs, |docs|, collection.value);
    }
  }

  /** A document that splits into no chunks counts as processed and adds nothing. */
  lemma EmptyDocumentCounts(s: Services, n: nat, i: nat, content: string, source: string, st: IngestState)
    requires s.splitText(content, ChunkSize, ChunkOverlap) == Ok([])
    ensures ProcessDocument(s, n, i, Document(Some(content), Some(source)), st)
            == IngestState(st.progress + [SplitLine(i, 0), ProcessedLine(i, n, source)], st.entries, st.processed + 1)
  {
  }

  // ---------------------------------------------------------------------------
  // Properties of search

  /**
   * Every search result carries its log. An error has no documents and its
   * message is the last log line; an uninitialised collection logs nothing
   * else. A success logs exactly the three steps. A failing embedding, a
   * failing query or a hit without a source ends the log with that failure's
   * reason, after exactly the steps taken before it.
   */
  lemma SearchOutcome(s: Services, collection: Option<seq<Entry>>, query: string, n: nat)
    ensures var r := SearchSpec(s, collection, query, n);
      && (r.status == Error ==>
            && r.documents == [] && |r.progress| > 0
            && r.message == Some(r.progress[|r.progress| - 1])
            && StartsWith(r.message.value, "Search error: "))
      && (r.status == Success ==>
            r.message.None? && r.progress == [EmbeddingStep, SearchingLine(n), FoundLine(|r.documents|)])
      && (collection.None? ==>
            r.status == Error && r.progress == [SearchErrorText(CollectionNotInitialisedReason)])
    ensures collection.Some? ==>
      var r := SearchSpec(s, collection, query, n);
      var embedded := s.embedQuery(query);
      && (embedded.Raised? ==> r == SearchFailed([EmbeddingStep], embedded.error))
      && (embedded.Ok? ==>
            var found := s.query(collection.value, embedded.value, n);
            && (found.Raised? ==> r == SearchFailed([EmbeddingStep, SearchingLine(n)], found.error))
            && (found.Ok? && Retrieve(found.value).Raised? ==>
                  r == SearchFailed([EmbeddingStep, SearchingLine(n)], KeyErrorText("source"))))
  {
    var r := SearchSpec(s, collection, query, n);
    if r.status == Error {
      StartsWithConcat("Search error: ", r.message.value[|"Search error: "|..]);
    }
  }

  /**
   * When the query itself succeeds, the search succeeds exactly when every hit
   * has a source, and then returns the hits in order, each as content and source.
   */
  lemma SearchReturnsHits(s: Services, entries: seq<Entry>, query: string, n: nat)
    requires s.embedQuery(query).Ok? && s.query(entries, s.embedQuery(query).value, n).Ok?
    ensures var hits := s.query(entries, s.embedQuery(query).value, n).value;
      var r := SearchSpec(s, Some(entries), query, n);
      && (r.status == Success <==> forall t :: 0 <= t < |hits| ==> hits[t].source.Some?)
      && (r.status == Success ==>
            && |r.documents| == |hits|
            && forall t :: 0 <= t < |hits| ==>
                 r.documents[t] == RetrievedDocument(hits[t].text, hits[t].source.value))
  {
  }

  // ---------------------------------------------------------------------------
  // The store

  class VectorStore {
    const services: Services
    var collection: Option<seq<Entry>>

    /**
     * `__init__` when it returns: `collection` is what `get_or_create_collection`
     * gave. When set-up raises, `__init__` re-raises and no store exists.
     */
    constructor (services: Services, collection: seq<Entry>)
      ensures this.services == services && this.collection == Some(collection)
    {
      this.services := services;
      this.collection := Some(collection);
    }

    method ProcessDocuments(documents: seq<Document>) returns (r: ProcessResult)
      modifies this
      ensures (r, collection) == ProcessSpec(services, old(collection), documents)
    {
      if |documents| == 0 {
        return ProcessResult(Error, NoDocumentsMessage, None);
      }
      if collection.None? {
        return ProcessResult(Error, NotInitialisedMessage, None);
      }
      var progress := [StartLine(|documents|)];
      var processed := 0;
      var i := 0;
      while i < |documents|
        invariant i <= |documents| && collection.Some?
        invariant IngestState(progress, collection.value, processed)
                  == Ingest(services, documents, i, old(collection).value)
      {
        var doc := documents[i];
        ghost var st := IngestState(progress, collection.value, processed);
        // The `try` block; `failure` is the exception it raised, if any.
        var failure: Option<string> := None;
        if doc.content.None? {
          failure := Some(KeyErrorText("content"));
        } else if doc.source.None? {
          failure := Some(KeyErrorText("source"));
        } else {
          var source := doc.source.value;
          var split := services.splitText(doc.content.value, ChunkSize, ChunkOverlap);
          if split.Raised? {
            failure := Some(split.error);
          } else {
            var chunks := split.value;
            progress := progress + [SplitLine(i, |chunks|)];
            ghost var target := AddChunksFrom(services, i, source, chunks, 0, st.entries);
            var j := 0;
            while j < |chunks|
              invariant j <= |chunks| && collection.Some? && failure.None?
              invariant AddChunksFrom(services, i, source, chunks, j, collection.value) == target
            {
              var chunkId := ChunkId(i, j);
              var embedding := services.embedQuery(chunks[j]);
              if embedding.Raised? {
                failure := Some(embedding.error);
                break;
              }
              var entry := Entry(chunkId, embedding.value, chunks[j], source);
              var added := services.add(collection.value, entry);
              if added.Some? {
                failure := added;
                break;
              }
              collection := Some(collection.value + [entry]);
              j := j + 1;
            }
            assert (collection.value, failure) == target;
            if failure.None? {
              processed := processed + 1;
              progress := progress + [ProcessedLine(i, |documents|, source)];
            }
          }
        }
        if failure.Some? {
          progress := progress + [FailureLine(i, failure.value)];
        }
        assert IngestState(progress, collection.value, processed)
               == ProcessDocument(services, |documents|, i, doc, st);
        i := i + 1;
      }
      r := ProcessResult(if processed > 0 then Success else Error,
                         SummaryMessage(processed, |documents|),
                         Some(progress));
    }

    /** `search(query, n)`: reads the collection and never changes it. */
    method Search(query: string, n: nat) returns (r: SearchResult)
      ensures r == SearchSpec(services, collection, query, n)
    {
      var progress := [];
      if collection.None? {
        return SearchFailed(progress, CollectionNotInitialisedReason);
      }
      progress := progress + [EmbeddingStep];
      var embedding := services.embedQuery(query);
      if embedding.Raised? {
        return SearchFailed(progress, embedding.error);
      }
      progress := progress + [SearchingLine(n)];
      var results := services.query(collection.value, embedding.value, n);
      if results.Raised? {
        return SearchFailed(progress, results.error);
      }
      var hits := results.value;
      var documents := [];
      var i := 0;
      while i < |hits|
        invariant i <= |hits|
        invariant Retrieve(hits[..i]) == Ok(documents)
      {
        if hits[i].source.None? {
          return SearchFailed(progress, KeyErrorText("source"));
        }
        assert hits[..i + 1][..i] == hits[..i];
        documents := documents + [RetrievedDocument(hits[i].text, hits[i].source.value)];
        i := i + 1;
      }
      assert hits[..i] == hits;
      progress := progress + [FoundLine(|documents|)];
      r := SearchResult(Success, None, documents, progress);
    }
  }
}
