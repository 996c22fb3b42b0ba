/**
 * The `/ask` handler `ask_question` of app.py: a chain of guards, each of
 * which answers with the progress gathered so far plus one line, then a search
 * of the vector store and a templated answer built from what it found.
 *
 * The form field and the `GOOGLE_API_KEY` variable are inputs (`None` when
 * absent); the module-level `vector_store` is the `store` argument (`null`
 * when its construction failed). Building the Gemini chat client and the
 * conversation memory is the one step inside the `try` block that may raise;
 * `clientSetup` is the reason it raised, if it did.
 */
module App {
  import opened Wrappers
  import opened Strings
  import opened VectorStores

  /** The JSON body: `success: True` with an answer, or `success: False` with a message. */
  datatype AnswerResult = Answered(answer: string, progress: seq<string>) | Refused(message: string, progress: seq<string>)

  const NoQuestionMessage := "No question provided"
  const NoQuestionLine := "Error: No question provided"
  const VerifyingStep := "Verifying credentials and API keys"
  const MissingKeyMessage := "Google API key not configured"
  const MissingKeyLine := "Error: Google API key not found"
  const AccessStep := "Searching for notebook access"
  const NotLoadedMessage := "OneNote data not loaded or processed"
  const NotLoadedLine := "Error: OneNote data not available"
  const SearchStep := "Searching OneNote content for relevant information"
  const SearchFallbackMessage := "Error searching OneNote content"
  const GeminiStep := "Initiating Gemini API request"
  const ProcessingStep := "Processing information with AI"
  const NoMatchesMessage := "No relevant information found in your OneNote"
  const NoMatchesLine := "No matching content found in notebooks"
  const DoneStep := "Response generated successfully"
  const ExceptionPrefix := "Error processing your question: "

  /** Python's `not v` for an optional string: absent or empty. */
  predicate Blank(v: Option<string>) {
    v.None? || v.value == ""
  }

  /** The set of sources of `documents`. */
  ghost function SourceSet(documents: seq<RetrievedDocument>): set<string> {
    set t | 0 <= t < |documents| :: documents[t].source
  }

  /**
   * `list(set(doc["source"] for doc in documents))`: every source once. Python
   * leaves the order of a set unspecified; this keeps first occurrences.
   */
  function DistinctSources(documents: seq<RetrievedDocument>): (r: seq<string>)
    ensures forall x :: x in r <==> x in SourceSet(documents)
    ensures forall a, b :: 0 <= a < b < |r| ==> r[a] != r[b]
    decreases |documents|
  {
    if |documents| == 0 then []
    else
      var prior := DistinctSources(documents[..|documents| - 1]);
      var source := documents[|documents| - 1].source;
      if source in prior then prior else prior + [source]
  }

  const AnswerHead := "# Answer to your question: \""
  const AnswerSummary := "\"\n\nBased on your OneNote content, here's what I found:\n\n## Summary\nI've analyzed "
  const AnswerKeyPoints :=
    " relevant sections from your notebooks that relate to your question.\n\n## Key Points\n- Found information from "
  const AnswerDetail := "\n- The most relevant content addresses your question directly\n\n## Detailed Answer\n"
  const AnswerTail := "\n\nWould you like me to elaborate on any specific part of this answer?"

  /** The answer f-string with its four fields filled in. */
  function Template(query: string, count: string, sources: string, detail: string): string {
    Join("", [AnswerHead, query, AnswerSummary, count, AnswerKeyPoints, sources, AnswerDetail, detail, AnswerTail])
  }

  /** The answer f-string. */
  function AnswerText(query: string, documents: seq<RetrievedDocument>): string {
    Template(query, NatToString(|documents|), Join(", ", DistinctSources(documents)),
             if |documents| > 0 then documents[0].content else "No specific content found")
  }

  /** The filled-in template opens with the heading and holds each of its fields. */
  lemma TemplateHoldsFields(query: string, count: string, sources: string, detail: string)
    ensures var answer := Template(query, count, sources, detail);
      && StartsWith(answer, AnswerHead)
      && Contains(answer, query) && Contains(answer, count)
      && Contains(answer, sources) && Contains(answer, detail)
  {
    var parts := [AnswerHead, query, AnswerSummary, count, AnswerKeyPoints, sources, AnswerDetail, detail, AnswerTail];
    JoinStartsWithFirst("", parts);
    JoinContainsEach("", parts, 1);
    JoinContainsEach("", parts, 3);
    JoinContainsEach("", parts, 5);
    JoinContainsEach("", parts, 7);
  }

  /**
   * The answer opens with the heading, quotes the question, gives the number
   * of documents, names every document's source and reproduces the first
   * document verbatim.
   */
  lemma AnswerMentions(query: string, documents: seq<RetrievedDocument>)
    ensures var answer := AnswerText(query, documents);
      && StartsWith(answer, AnswerHead)
      && Contains(answer, query)
      && Contains(answer, NatToString(|documents|))
      && (forall t :: 0 <= t < |documents| ==> Contains(answer, documents[t].source))
      && (|documents| > 0 ==> Contains(answer, documents[0].content))
  {
    var sources := DistinctSources(documents);
    var joined := Join(", ", sources);
    var detail := if |documents| > 0 then documents[0].content else "No specific content found";
    var answer := Template(query, NatToString(|documents|), joined, detail);
    TemplateHoldsFields(query, NatToString(|documents|), joined, detail);
    JoinedSourcesNameEach(documents);
    forall t | 0 <= t < |documents|
      ensures Contains(answer, documents[t].source)
    {
      ContainsTransitive(answer, joined, documents[t].source);
    }
  }

  /** The joined list of distinct sources names the source of every document. */
  lemma JoinedSourcesNameEach(documents: seq<RetrievedDocument>)
    ensures forall t :: 0 <= t < |documents| ==> Contains(Join(", ", DistinctSources(documents)), documents[t].source)
  {
    var sources := DistinctSources(documents);
    forall t | 0 <= t < |documents|
      ensures Contains(Join(", ", sources), documents[t].source)
    {
      assert documents[t].source in SourceSet(documents);
      var k :| 0 <= k < |sources| && sources[k] == documents[t].source;
      JoinContainsEach(", ", sources, k);
    }
  }

  /**
   * The search result the handler works with: the store's search for the
   * question, or `None` when there is no question or no loaded store.
   */
  ghost function Loaded(store: VectorStore?, query: Option<string>): Option<SearchResult>
    reads store
  {
    if store != null && store.collection.Some? && query.Some? then
      Some(SearchSpec(store.services, store.collection, query.value, DefaultResults))
    else None
  }

  /**
   * The reply of `ask_question()` given the form field, the key, the search
   * result (`None`: the store is not available) and the client set-up outcome.
   */
  function Reply(query: Option<string>, apiKey: Option<string>, found: Option<SearchResult>, clientSetup: Option<string>)
    : AnswerResult
  {
    if Blank(query) then Refused(NoQuestionMessage, [NoQuestionLine])
    else if Blank(apiKey) then Refused(MissingKeyMessage, [VerifyingStep, MissingKeyLine])
    else if found.None? then Refused(NotLoadedMessage, [VerifyingStep, AccessStep, NotLoadedLine])
    else
      var searched := [VerifyingStep, AccessStep, SearchStep] + found.value.progress;
      if found.value.status == Error then
        Refused(if found.value.message.Some? then found.value.message.value else SearchFallbackMessage, searched)
      else if clientSetup.Some? then
        Refused(ExceptionPrefix + clientSetup.value, searched + [GeminiStep, ExceptionPrefix + clientSetup.value])
      else if found.value.documents == [] then
        Refused(NoMatchesMessage, searched + [GeminiStep, ProcessingStep, NoMatchesLine])
      else
        Answered(AnswerText(query.value, found.value.documents), searched + [GeminiStep, ProcessingStep, DoneStep])
  }

  /**
   * The guards, in order: a missing question is refused before the key is
   * looked at, a missing key before the store, a missing store before any
   * search. An answer comes exactly when every guard passes, the search
   * succeeds, the client is built and something was found; its progress then
   * ends with the completion step.
   */
  lemma ReplyOutcome(query: Option<string>, apiKey: Option<string>, found: Option<SearchResult>, clientSetup: Option<string>)
    ensures var r := Reply(query, apiKey, found, clientSetup);
      && (Blank(query) ==> r == Refused(NoQuestionMessage, [NoQuestionLine]))
      && (!Blank(query) && Blank(apiKey) ==> r == Refused(MissingKeyMessage, [VerifyingStep, MissingKeyLine]))
      && (!Blank(query) && !Blank(apiKey) && found.None? ==>
            r == Refused(NotLoadedMessage, [VerifyingStep, AccessStep, NotLoadedLine]))
      && (r.Answered? <==>
            !Blank(query) && !Blank(apiKey) && found.Some? && found.value.status == Success
            && clientSetup.None? && found.value.documents != [])
      && (r.Answered? ==> r.progress[|r.progress| - 1] == DoneStep && |r.progress| == |found.value.progress| + 6)
  {
  }

  /**
   * Once the guards pass, the progress starts with the handler's three steps
   * followed by the search's own log. A search error is passed on with its
   * message and its log, and the message is the last line of that log; a
   * failure to build the client gives "Error processing your question: ..."
   * as the message and the last line, after the Gemini step; nothing found
   * gives the no-match message and the no-match line.
   */
  lemma ReplyAfterSearch(services: Services, entries: seq<Entry>, query: string, apiKey: Option<string>, clientSetup: Option<string>)
    requires query != "" && !Blank(apiKey)
    ensures var found := SearchSpec(services, Some(entries), query, DefaultResults);
      var r := Reply(Some(query), apiKey, Some(found), clientSetup);
      && |r.progress| >= 3 + |found.progress|
      && r.progress[..3] == [VerifyingStep, AccessStep, SearchStep]
      && r.progress[3..3 + |found.progress|] == found.progress
      && (found.status == Error ==>
            && found.message.Some?
            && r == Refused(found.message.value, [VerifyingStep, AccessStep, SearchStep] + found.progress)
            && r.message == r.progress[|r.progress| - 1])
      && (found.status == Success && clientSetup.Some? ==>
            r == Refused(ExceptionPrefix + clientSetup.value,
                         [VerifyingStep, AccessStep, SearchStep] + found.progress
                         + [GeminiStep, ExceptionPrefix + clientSetup.value]))
      && (found.status == Success && clientSetup.None? && found.documents == [] ==>
            r == Refused(NoMatchesMessage,
                         [VerifyingStep, AccessStep, SearchStep] + found.progress + [GeminiStep, ProcessingStep, NoMatchesLine]))
  {
    SearchOutcome(services, Some(entries), query, DefaultResults);
  }

  /** `ask_question()`. It only reads the store. */
  method AskQuestion(store: VectorStore?, query: Option<string>, apiKey: Option<string>, clientSetup: Option<string>)
    returns (r: AnswerResult)
    ensures r == Reply(query, apiKey, Loaded(store, query), clientSetup)
  {
    if Blank(query) {
      return Refused(NoQuestionMessage, [NoQuestionLine]);
    }
    var question := query.value;
    var progress := [];
    progress := progress + [VerifyingStep];
    if Blank(apiKey) {
      return Refused(MissingKeyMessage, progress + [MissingKeyLine]);
    }
    progress := progress + [AccessStep];
    if store == null || store.collection.None? {
      return Refused(NotLoadedMessage, progress + [NotLoadedLine]);
    }
    // The `try` block.
    progress := progress + [SearchStep];
    assert progress == [VerifyingStep, AccessStep, SearchStep];
    var found := store.Search(question, DefaultResults);
    assert Loaded(store, query) == Some(found);
    if found.status == Error {
      var message := if found.message.Some? then found.message.value else SearchFallbackMessage;
      return Refused(message, progress + found.progress);
    }
    progress := progress + found.progress;
    progress := progress + [GeminiStep];
    if clientSetup.Some? {
      // The `except` branch.
      var message := ExceptionPrefix + clientSetup.value;
      return Refused(message, progress + [message]);
    }
    progress := progress + [ProcessingStep];
    var documents := found.documents;
    if documents == [] {
      return Refused(NoMatchesMessage, progress + [NoMatchesLine]);
    }
    var answer := AnswerText(question, documents);
    progress := progress + [DoneStep];
    r := Answered(answer, progress);
  }
}
