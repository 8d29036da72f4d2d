/**
 * The streaming question-answering endpoint (src/services/query_service.py).
 *
 * The generator's output is the sequence of values it yields, in order.
 * Building the retriever, the model and the chains is the wrapped
 * libraries' work: `setup` receives everything the service hands them and
 * either raises or yields a run of the retrieval chain, which is the items
 * the chain streams and the exception it raises after them, if any.
 */
module QueryService {
  import opened PyValues
  import opened VectorStore
  import opened Database
  import Config

  /** The request body: the question, its scope, and the optional sampling settings. */
  datatype QueryRequest = QueryRequest(question: string, collectionName: string, documentType: string,
                                       indexId: string, temperature: Option<real>, maxTokens: Option<int>)

  /** What the retriever is asked for: the scope of the search and how many chunks to fetch. */
  datatype RetrieverRequest = RetrieverRequest(collectionName: string, documentType: string, indexId: string, k: nat)

  /** The settings the language model is created with. */
  datatype LlmSettings = LlmSettings(model: string, temperature: real, maxTokens: int, streaming: bool)

  /** Everything handed to the libraries to build and start the retrieval chain. */
  datatype ChainRequest = ChainRequest(retriever: RetrieverRequest, llm: LlmSettings, promptTemplate: string,
                                       contextVariable: string, input: string)

  /** A started chain: the items it streams, then the exception it raises, if it raises. */
  datatype ChainRun = ChainRun(items: seq<Json>, failure: Option<Exception>)

  const RETRIEVER_K: nat := 10

  const PROMPT_TEMPLATE: string :=
    "Answer the question using only the context below.\n\n<context>\n{context}\n</context>\n\nQuestion: {input}"

  const COLLECTION_NOT_FOUND: string := "[ERROR] Collection not found"

  /** The element yielded for an exception: the error prefix, then the exception's message. */
  function ErrorMarker(e: Exception): (m: Json)
    ensures m.JStr? && "[ERROR] " <= m.s && m.s[|"[ERROR] "|..] == Message(e)
  {
    JStr("[ERROR] " + Message(e))
  }

  // ---------------------------------------------------------------------------
  // Settings

  /** The token limit the model gets: a missing or zero request value falls back to the default. */
  function EffectiveMaxTokens(requested: Option<int>): (t: int)
    ensures t != 0
    ensures requested.Some? && requested.value != 0 ==> t == requested.value
  {
    if requested.None? || requested.value == 0 then Config.DEFAULT_MAX_TOKENS else requested.value
  }

  /** The temperature the model gets: a missing or zero request value falls back to the default. */
  function EffectiveTemperature(requested: Option<real>): (t: real)
    ensures t != 0.0
    ensures requested.Some? && requested.value != 0.0 ==> t == requested.value
  {
    if requested.None? || requested.value == 0.0 then Config.DEFAULT_TEMPERATURE else requested.value
  }

  /**
   * The effective token limit is the request's own value exactly when that
   * value is given and truthy, and is never zero, so applying the fallback
   * to it again changes nothing.
   */
  lemma EffectiveMaxTokensFallback(requested: Option<int>)
    ensures EffectiveMaxTokens(requested) == Config.DEFAULT_MAX_TOKENS <==>
      requested.None? || requested.value == 0 || requested.value == Config.DEFAULT_MAX_TOKENS
    ensures requested.Some? && requested.value != 0 ==> EffectiveMaxTokens(requested) == requested.value
    ensures EffectiveMaxTokens(requested) != 0
    ensures EffectiveMaxTokens(Some(EffectiveMaxTokens(requested))) == EffectiveMaxTokens(requested)
  {
  }

  /** The same for the temperature: the request's value when truthy, else 0.7, and never zero. */
  lemma EffectiveTemperatureFallback(requested: Option<real>)
    ensures requested.Some? && requested.value != 0.0 ==> EffectiveTemperature(requested) == requested.value
    ensures requested.None? || requested.value == 0.0 ==> EffectiveTemperature(requested) == Config.DEFAULT_TEMPERATURE
    ensures EffectiveTemperature(requested) != 0.0
    ensures EffectiveTemperature(Some(EffectiveTemperature(requested))) == EffectiveTemperature(requested)
  {
  }

  /** What the service hands the libraries for a request; `llmModel` is the configured model name. */
  function BuildChainRequest(request: QueryRequest, llmModel: string): ChainRequest {
    ChainRequest(
      RetrieverRequest(request.collectionName, request.documentType, request.indexId, RETRIEVER_K),
      LlmSettings(llmModel, EffectiveTemperature(request.temperature), EffectiveMaxTokens(request.maxTokens), true),
      PROMPT_TEMPLATE, "context", request.question)
  }

  /**
   * The retriever is scoped to the request's collection and both tags and
   * fetches ten chunks; the model streams with the effective settings; the
   * question is the chain's input.
   */
  lemma ChainRequestScope(request: QueryRequest, llmModel: string)
    ensures var c := BuildChainRequest(request, llmModel);
      && c.retriever.collectionName == request.collectionName
      && c.retriever.documentType == request.documentType
      && c.retriever.indexId == request.indexId
      && c.retriever.k == 10
      && c.llm.model == llmModel && c.llm.streaming
      && c.llm.maxTokens == EffectiveMaxTokens(request.maxTokens)
      && c.llm.temperature == EffectiveTemperature(request.temperature)
      && c.promptTemplate == PROMPT_TEMPLATE && c.contextVariable == "context"
      && c.input == request.question
  {
  }

  // ---------------------------------------------------------------------------
  // Forwarding the chain's items

  /** What is yielded for one chain item: a dict's "answer" entry (the empty string without one), any other item unchanged. */
  function Forwarded(item: Json): Json {
    if item.JDict? then (if "answer" in item.fields then item.fields["answer"] else JStr("")) else item
  }

  /** The chain's items forwarded one by one, in order. */
  function ForwardAll(items: seq<Json>): seq<Json> {
    if items == [] then []
    else ForwardAll(items[..|items| - 1]) + [Forwarded(items[|items| - 1])]
  }

  /** One element per item, each forwarded in place. */
  lemma {:induction false} ForwardAllAt(items: seq<Json>)
    ensures |ForwardAll(items)| == |items|
    ensures forall i :: 0 <= i < |items| ==> ForwardAll(items)[i] == Forwarded(items[i])
  {
    if items != [] {
      ForwardAllAt(items[..|items| - 1]);
    }
  }

  /** A dict yields its answer, or "" when it has none; any other item is yielded as it is. */
  lemma ForwardedItem(item: Json)
    ensures item.JDict? && "answer" in item.fields ==> Forwarded(item) == item.fields["answer"]
    ensures item.JDict? && "answer" !in item.fields ==> Forwarded(item) == JStr("")
    ensures !item.JDict? ==> Forwarded(item) == item
  {
  }

  // ---------------------------------------------------------------------------
  // The stream

  /**
   * What the service yields once the chain is being built: one marker for an
   * exception while building it, or the forwarded items, followed by one
   * marker if the chain raises after them.
   */
  function AnswerStream(started: Outcome<ChainRun>): seq<Json> {
    match started
    case Raise(e) => [ErrorMarker(e)]
    case Ok(run) => ForwardAll(run.items) + (if run.failure.Some? then [ErrorMarker(run.failure.value)] else [])
  }

  /**
   * Everything `query_documents` yields against a store whose schema list is
   * `classes`, once the existence check has answered: the not-found marker
   * alone, or what the chain built for the request makes of it.
   */
  function QueryStream(classes: seq<ClassSchema>, request: QueryRequest, llmModel: string,
                       setup: ChainRequest -> Outcome<ChainRun>): seq<Json> {
    if !HasClass(classes, request.collectionName) then [JStr(COLLECTION_NOT_FOUND)]
    else AnswerStream(setup(BuildChainRequest(request, llmModel)))
  }

  /**
   * `query_documents`: checks that the collection exists, hands the chain
   * request to the libraries (`issued`, None when nothing is built), and
   * forwards what the chain streams. The existence check runs before the
   * `try`, so an exception it raises (`existsRaises`) escapes the generator
   * before anything is yielded (`escaped`); every later exception becomes
   * the last element of the stream.
   */
  method QueryDocuments(client: WeaviateClient, request: QueryRequest, llmModel: string,
                        existsRaises: Option<Exception>, setup: ChainRequest -> Outcome<ChainRun>)
    returns (out: seq<Json>, escaped: Option<Exception>, issued: Option<ChainRequest>)
    ensures existsRaises.Some? ==> out == [] && escaped == existsRaises && issued.None?
    ensures existsRaises.None? ==> escaped.None? && out == QueryStream(client.classes, request, llmModel, setup)
    ensures existsRaises.None? ==>
      (issued.Some? <==> HasClass(client.classes, request.collectionName))
    ensures issued.Some? ==> issued.value == BuildChainRequest(request, llmModel)
  {
    if existsRaises.Some? {
      return [], existsRaises, None;
    }
    escaped := None;
    if !client.CollectionExists(request.collectionName) {
      CountNamedZero(client.classes, request.collectionName);
      return [JStr(COLLECTION_NOT_FOUND)], escaped, None;
    }
    CountNamedZero(client.classes, request.collectionName);
    var chain := BuildChainRequest(request, llmModel);
    issued := Some(chain);
    out := ForwardChain(setup(chain));
  }

  /** The `try` block: starts the chain and yields what it streams, then a marker for the exception, if any. */
  method ForwardChain(started: Outcome<ChainRun>) returns (out: seq<Json>)
    ensures out == AnswerStream(started)
  {
    if started.Raise? {
      return [ErrorMarker(started.error)];
    }
    var run := started.value;
    out := [];
    var i := 0;
    while i < |run.items|
      invariant 0 <= i <= |run.items|
      invariant out == ForwardAll(run.items[..i])
    {
      assert run.items[..i + 1][..i] == run.items[..i];
      out := out + [Forwarded(run.items[i])];
      i := i + 1;
    }
    assert run.items[..i] == run.items;
    if run.failure.Some? {
      out := out + [ErrorMarker(run.failure.value)];
    }
  }

  // ---------------------------------------------------------------------------
  // Properties of the stream

  /** A query on a collection the store does not have yields the not-found marker and nothing else. */
  lemma QueryMissingCollection(classes: seq<ClassSchema>, request: QueryRequest, llmModel: string,
                               setup: ChainRequest -> Outcome<ChainRun>)
    requires !HasClass(classes, request.collectionName)
    ensures QueryStream(classes, request, llmModel, setup) == [JStr("[ERROR] Collection not found")]
  {
  }

  /**
   * When the chain runs to the end, the stream holds one element per chain
   * item, each the item forwarded, in order, and no marker is added.
   */
  lemma QueryCompletes(classes: seq<ClassSchema>, request: QueryRequest, llmModel: string,
                       setup: ChainRequest -> Outcome<ChainRun>)
    requires HasClass(classes, request.collectionName)
    requires setup(BuildChainRequest(request, llmModel)).Ok?
    requires setup(BuildChainRequest(request, llmModel)).value.failure.None?
    ensures var items := setup(BuildChainRequest(request, llmModel)).value.items;
      var out := QueryStream(classes, request, llmModel, setup);
      && |out| == |items|
      && forall i :: 0 <= i < |items| ==> out[i] == Forwarded(items[i])
  {
    ForwardAllAt(setup(BuildChainRequest(request, llmModel)).value.items);
  }

  /**
   * Whatever happens, the stream is the forwarded prefix of what the chain
   * produced followed by at most one element, and that element is the
   * marker of the exception raised: a failure ends the stream.
   */
  lemma QueryPrefixThenMarker(classes: seq<ClassSchema>, request: QueryRequest, llmModel: string,
                              setup: ChainRequest -> Outcome<ChainRun>)
    requires HasClass(classes, request.collectionName)
    ensures var started := setup(BuildChainRequest(request, llmModel));
      var out := QueryStream(classes, request, llmModel, setup);
      var items := if started.Ok? then started.value.items else [];
      var failure := if started.Raise? then Some(started.error) else started.value.failure;
      && |out| == |items| + (if failure.Some? then 1 else 0)
      && (forall i :: 0 <= i < |items| ==> out[i] == Forwarded(items[i]))
      && (failure.Some? ==> out[|out| - 1] == ErrorMarker(failure.value))
  {
    var started := setup(BuildChainRequest(request, llmModel));
    if started.Ok? {
      ForwardAllAt(started.value.items);
    }
  }

  // ---------------------------------------------------------------------------
  // The retriever call as written

  /**
   * The setup as written: `get_retriever` is looked up
   * on a client class that does not define it, so building the chain raises
   * an AttributeError before the model or the chains are created.
   */
  function AsWrittenSetup(chain: ChainRequest): Outcome<ChainRun> {
    Raise(AttributeError("WeaviateClient", "get_retriever"))
  }

  /** As written, every query on an existing collection yields one error marker and no answer. */
  lemma AsWrittenQueryAlwaysErrors(classes: seq<ClassSchema>, request: QueryRequest, llmModel: string)
    requires HasClass(classes, request.collectionName)
    ensures QueryStream(classes, request, llmModel, AsWrittenSetup)
      == [JStr("[ERROR] " + ("'" + "WeaviateClient" + "' object has no attribute '" + "get_retriever" + "'"))]
  {
  }
}
