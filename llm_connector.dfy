/**
 * `GeminiConnector.generate_answer` of llm_connector.py: formats the retrieved
 * context, wraps it and the question in a fixed prompt, asks the generative
 * model once, and turns every exception into an answer string.
 *
 * The model (`self.model.generate_content(prompt).text`) is a function that
 * answers the prompt's text or raises.
 */
module LlmConnector {
  import opened Wrappers
  import opened Strings

  /** A context dictionary; a key the dictionary lacks is `None`. */
  datatype ContextDocument = ContextDocument(content: Option<string>, source: Option<string>)

  const ErrorPrefix := "I encountered an error generating your answer: "

  /** The instruction lines at the head of the prompt (the first ends in a space, as written). */
  const Instructions :=
    "You are an AI assistant that answers questions based on the user's OneNote content. \n"
    + "Answer the following question using ONLY the provided context from OneNote notebooks.\n"
    + "If the answer cannot be found in the provided context, say \"I couldn't find information about this in your notes.\"\n"
    + "Do not make up information that is not in the context."

  predicate HasBothKeys(d: ContextDocument) {
    d.content.Some? && d.source.Some?
  }

  /** The KeyError a document without both keys raises: 'content' is looked up first. */
  function MissingKey(d: ContextDocument): string {
    if d.content.None? then KeyErrorText("content") else KeyErrorText("source")
  }

  function Block(content: string, source: string): string {
    "Document: " + content + "\nSource: " + source
  }

  /**
   * The list comprehension over `context`: one block per document, in order;
   * the first document missing a key raises.
   */
  function Blocks(context: seq<ContextDocument>): (r: Result<seq<string>>)
    ensures r.Ok? <==> forall t :: 0 <= t < |context| ==> HasBothKeys(context[t])
    ensures r.Ok? ==> |r.value| == |context|
    ensures r.Ok? ==> forall t :: 0 <= t < |context| ==>
              r.value[t] == Block(context[t].content.value, context[t].source.value)
    ensures r.Raised? ==>
              exists t :: && 0 <= t < |context| && !HasBothKeys(context[t])
                          && (forall u :: 0 <= u < t ==> HasBothKeys(context[u]))
                          && r.error == MissingKey(context[t])
    decreases |context|
  {
    if |context| == 0 then Ok([])
    else
      var d := context[0];
      if !HasBothKeys(d) then Raised(MissingKey(d))
      else
        match Blocks(context[1..])
        case Raised(e) => Raised(e)
        case Ok(rest) => Ok([Block(d.content.value, d.source.value)] + rest)
  }

  /** `"\n\n".join(...)` of the blocks. */
  function FormatContext(context: seq<ContextDocument>): Result<string> {
    match Blocks(context)
    case Raised(e) => Raised(e)
    case Ok(blocks) => Ok(Join("\n\n", blocks))
  }

  function Prompt(query: string, formattedContext: string): string {
    Instructions + "\n\nCONTEXT:\n" + formattedContext + "\n\nQUESTION: " + query + "\n\nANSWER:"
  }

  /**
   * `generate_answer(query, context)`. It never raises: a missing key or a
   * failing model call becomes an answer starting with `ErrorPrefix`.
   */
  function GenerateAnswer(model: string -> Result<string>, query: string, context: seq<ContextDocument>)
    : (answer: string)
    ensures (exists t :: 0 <= t < |context| && !HasBothKeys(context[t])) ==>
              exists t :: && 0 <= t < |context| && !HasBothKeys(context[t])
                          && (forall u :: 0 <= u < t ==> HasBothKeys(context[u]))
                          && answer == ErrorPrefix + MissingKey(context[t])
    ensures (forall t :: 0 <= t < |context| ==> HasBothKeys(context[t])) ==>
              var reply := model(Prompt(query, FormatContext(context).value));
              answer == if reply.Ok? then reply.value else ErrorPrefix + reply.error
  {
    match FormatContext(context)
    case Raised(e) => ErrorPrefix + e
    case Ok(formatted) =>
      match model(Prompt(query, formatted))
      case Ok(text) => text
      case Raised(e) => ErrorPrefix + e
  }

  // ---------------------------------------------------------------------------
  // Properties

  /**
   * The prompt opens with the instructions, holds the formatted context under
   * "CONTEXT:", and closes with the question followed by "ANSWER:".
   */
  lemma PromptLayout(query: string, formattedContext: string)
    ensures var p := Prompt(query, formattedContext);
      && StartsWith(p, Instructions)
      && Contains(p, "\n\nCONTEXT:\n" + formattedContext + "\n\nQUESTION: ")
      && EndsWith(p, "\n\nQUESTION: " + query + "\n\nANSWER:")
  {
    FiveParts(Instructions, "\n\nCONTEXT:\n", formattedContext, "\n\nQUESTION: ", query + "\n\nANSWER:");
    assert Prompt(query, formattedContext)
        == Instructions + "\n\nCONTEXT:\n" + formattedContext + "\n\nQUESTION: " + (query + "\n\nANSWER:");
    assert "\n\nQUESTION: " + query + "\n\nANSWER:" == "\n\nQUESTION: " + (query + "\n\nANSWER:");
  }

  /** Every context document's content and source reach the prompt. */
  lemma PromptCarriesContext(query: string, context: seq<ContextDocument>, t: nat)
    requires t < |context|
    requires forall u :: 0 <= u < |context| ==> HasBothKeys(context[u])
    ensures FormatContext(context).Ok?
    ensures Contains(Prompt(query, FormatContext(context).value), context[t].content.value)
    ensures Contains(Prompt(query, FormatContext(context).value), context[t].source.value)
  {
    var blocks := Blocks(context).value;
    var formatted := Join("\n\n", blocks);
    var content, source := context[t].content.value, context[t].source.value;
    var p := Prompt(query, formatted);
    FourParts("Document: ", content, "\nSource: ", source);
    FiveParts(Instructions, "\n\nCONTEXT:\n", formatted, "\n\nQUESTION: ", query + "\n\nANSWER:");
    assert p == Instructions + "\n\nCONTEXT:\n" + formatted + "\n\nQUESTION: " + (query + "\n\nANSWER:");
    JoinContainsEach("\n\n", blocks, t);
    ContainsTransitive(formatted, blocks[t], content);
    ContainsTransitive(formatted, blocks[t], source);
    ContainsTransitive(p, formatted, content);
    ContainsTransitive(p, formatted, source);
  }

  /** An empty context formats to "" and the model is still asked: there is no short cut. */
  lemma EmptyContextStillAsksModel(model: string -> Result<string>, query: string)
    ensures FormatContext([]) == Ok("")
    ensures var reply := model(Prompt(query, ""));
      GenerateAnswer(model, query, []) == if reply.Ok? then reply.value else ErrorPrefix + reply.error
  {
  }
}
