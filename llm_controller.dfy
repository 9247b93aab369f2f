/** The LLM document controller: the chat prompt and its error wrapping, and the enrichment
    loop that asks the model for each document's KPIs. The chat-completion service is an
    oracle over the request it is sent. */
module LlmController {
  import opened Wrappers
  import opened Strings
  import opened Kpi
  import opened Values
  import opened LlmIntegration
  import opened Seqs

  /** One chat message. */
  datatype Message = Message(role: string, content: string)

  /** The chat-completion request: the model name and the messages. */
  datatype Completion = Completion(model: string, messages: seq<Message>)

  /** What the service answers: the first choice's message content, which may be null, or
      the text of the exception it raised. */
  datatype ChatReply = Reply(content: Option<string>) | ChatFailed(reason: string)

  const ChatModel := "gpt-4o"
  const SystemPrompt := "You are an expert assistant summarizing data and answering queries."
  const GenerationError := "Error generating LLM response: "

  /** The user message: the context, a blank line, then the query. */
  function UserMessage(context: string, query: string): string {
    "Context:\n" + context + "\n\nQuery:\n" + query
  }

  function Request(context: string, query: string): Completion {
    Completion(ChatModel, [Message("system", SystemPrompt), Message("user", UserMessage(context, query))])
  }

  /** generate_llm_response: the reply's content, or a RuntimeError whose text is the fixed
      prefix followed by the original error. */
  function GenerateLlmResponse(chat: Completion -> ChatReply, context: string, query: string)
    : (r: Result<Option<string>, string>)
    ensures r.Failure? <==> chat(Request(context, query)).ChatFailed?
    ensures r.Failure? ==> StartsWith(r.error, GenerationError)
  {
    match chat(Request(context, query))
    case Reply(content) => Success(content)
    case ChatFailed(reason) => Failure(GenerationError + reason)
  }

  /** The request is the system prompt and one user message that reads back as the context
      and the query; a failure names the original error after the prefix, and a reply is
      passed on as it is. */
  lemma GenerateMeaning(chat: Completion -> ChatReply, context: string, query: string)
    ensures var req := Request(context, query);
      req.model == ChatModel && |req.messages| == 2 &&
      req.messages[0] == Message("system", SystemPrompt) && req.messages[1].role == "user" &&
      StartsWith(req.messages[1].content, "Context:\n") &&
      req.messages[1].content[9..9 + |context|] == context &&
      req.messages[1].content[9 + |context|..] == "\n\nQuery:\n" + query
    ensures var r := GenerateLlmResponse(chat, context, query);
      (r.Failure? <==> chat(Request(context, query)).ChatFailed?) &&
      (r.Failure? ==> StartsWith(r.error, GenerationError)
                      && r.error[|GenerationError|..] == chat(Request(context, query)).reason) &&
      (r.Success? ==> r.value == chat(Request(context, query)).content)
  {
    var u := UserMessage(context, query);
    assert u == "Context:\n" + (context + ("\n\nQuery:\n" + query));
  }

  /** The instruction every KPI request starts with. */
  const KpiInstruction := "Extract the following KPIs from the content: revenue, net profit, revenue growth rate, and operational cost reduction.\n"

  /** The KPI prompt: the instruction, then "Content:" on its own line, then the content. */
  function KpiPrompt(content: string): string {
    KpiInstruction + "Content:\n" + content
  }

  /** The prompt starts with the fixed instruction and ends with the content itself. */
  lemma KpiPromptShape(content: string)
    ensures StartsWith(KpiPrompt(content), KpiInstruction)
    ensures KpiPrompt(content)[|KpiInstruction|..] == "Content:\n" + content
    ensures KpiPrompt(content)[|KpiInstruction| + 9..] == content
  {
  }

  /** How an f-string shows a dictionary value: a string as itself, None as "None", anything
      else through `render`, Python's `str` on it. */
  function Text(v: Value, render: Value -> string): string {
    match v
    case Str(s) => s
    case Null => "None"
    case _ => render(v)
  }

  /** `doc.get("content", "")` */
  function ContentOf(doc: Dict): Value {
    Lookup(doc, "content", Str(""))
  }

  /** The KPIs one document gets: those parsed from the reply, or all None when generation
      fails or the reply is null (parsing None raises, and the exception is swallowed). */
  function DocumentKpis(content: Value, chat: Completion -> ChatReply, render: Value -> string): Kpis {
    var text := Text(content, render);
    match GenerateLlmResponse(chat, text, KpiPrompt(text))
    case Failure(_) => NoKpis
    case Success(None) => NoKpis
    case Success(Some(reply)) => ParseLines(Split(reply, '\n'))
  }

  const EnrichedKeys: set<string> := {"title", "content", "revenue", "net_profit", "revenue_growth_rate", "operational_cost_reduction"}

  /** One output record: the document's title, its content and the four KPI values. */
  function EnrichedRecord(doc: Dict, k: Kpis): (r: Dict)
    ensures r.Keys == EnrichedKeys
  {
    map["title" := Lookup(doc, "title", Null), "content" := ContentOf(doc),
        "revenue" := OfOption(k.revenue), "net_profit" := OfOption(k.netProfit),
        "revenue_growth_rate" := OfOption(k.revenueGrowthRate),
        "operational_cost_reduction" := OfOption(k.operationalCostReduction)]
  }

  /** The record a document contributes, if its content is truthy. */
  function EnrichStep(doc: Dict, chat: Completion -> ChatReply, render: Value -> string): seq<Dict> {
    if Truthy(ContentOf(doc)) then [EnrichedRecord(doc, DocumentKpis(ContentOf(doc), chat, render))] else []
  }

  /** The records of the documents in order. */
  function Enrichment(docs: seq<Dict>, chat: Completion -> ChatReply, render: Value -> string): seq<Dict> {
    if docs == [] then []
    else Enrichment(docs[..|docs| - 1], chat, render) + EnrichStep(docs[|docs| - 1], chat, render)
  }

  /** extract_and_enrich_documents: skip empty content, ask for the KPIs of the rest. */
  method ExtractAndEnrichDocuments(documents: seq<Dict>, chat: Completion -> ChatReply, render: Value -> string)
    returns (enriched: seq<Dict>)
    ensures enriched == Enrichment(documents, chat, render)
  {
    enriched := [];
    var i := 0;
    while i < |documents|
      invariant 0 <= i <= |documents|
      invariant enriched == Enrichment(documents[..i], chat, render)
    {
      var doc := documents[i];
      assert documents[..i + 1][..i] == documents[..i];
      var content := ContentOf(doc);
      if !Truthy(content) {
        i := i + 1;
        continue;
      }
      var text := Text(content, render);
      var kpis := NoKpis;
      var response := GenerateLlmResponse(chat, text, KpiPrompt(text));
      if response.Success? && response.value.Some? {
        kpis := ParseKpisFromResponse(response.value.value);
      }
      enriched := enriched + [EnrichedRecord(doc, kpis)];
      i := i + 1;
    }
    assert documents[..i] == documents;
  }

  /** The documents that are kept: those whose content is truthy, in order. */
  function Retained(docs: seq<Dict>): seq<Dict> {
    if docs == [] then []
    else Retained(docs[..|docs| - 1]) + (if Truthy(ContentOf(docs[|docs| - 1])) then [docs[|docs| - 1]] else [])
  }

  /** One record per retained document, in the same order, built from that document. */
  lemma {:induction false} EnrichmentOfRetained(docs: seq<Dict>, chat: Completion -> ChatReply, render: Value -> string)
    ensures var e := Enrichment(docs, chat, render);
      var r := Retained(docs);
      |e| == |r| &&
      forall i :: 0 <= i < |r| ==> e[i] == EnrichedRecord(r[i], DocumentKpis(ContentOf(r[i]), chat, render))
  {
    if docs != [] {
      EnrichmentOfRetained(docs[..|docs| - 1], chat, render);
    }
  }

  /** The retained documents are an order-preserving sublist holding exactly the documents
      with truthy content. */
  lemma {:induction false} RetainedKeeps(docs: seq<Dict>)
    ensures IsSubsequence(Retained(docs), docs)
    ensures forall d :: d in Retained(docs) <==> d in docs && Truthy(ContentOf(d))
  {
    if docs != [] {
      var init := docs[..|docs| - 1];
      var last := docs[|docs| - 1];
      RetainedKeeps(init);
      assert docs == init + [last];
      if Truthy(ContentOf(last)) {
        SubsequenceSnoc(Retained(init), init, last);
      } else {
        SubsequenceSnoc(Retained(init), init, last);
        assert Retained(docs) == Retained(init);
      }
      assert forall d :: d in docs <==> d in init || d == last;
    }
  }

  /** The output has one record per document with truthy content. */
  lemma {:induction false} EnrichmentLength(docs: seq<Dict>, chat: Completion -> ChatReply, render: Value -> string)
    ensures |Enrichment(docs, chat, render)| == |docs| - FalsyCount(docs)
  {
    if docs != [] {
      EnrichmentLength(docs[..|docs| - 1], chat, render);
    }
  }

  /** The number of documents whose content is falsy. */
  function FalsyCount(docs: seq<Dict>): (n: nat)
    ensures n <= |docs|
  {
    if docs == [] then 0
    else FalsyCount(docs[..|docs| - 1]) + (if Truthy(ContentOf(docs[|docs| - 1])) then 0 else 1)
  }

  /** A failed generation, or a null reply, gives all four KPIs None and the loop goes on;
      a reply gives exactly what parsing it gives. */
  lemma DocumentKpisOnFailure(content: Value, chat: Completion -> ChatReply, render: Value -> string)
    ensures var text := Text(content, render);
      var reply := chat(Request(text, KpiPrompt(text)));
      (reply.ChatFailed? || reply.content.None? ==> DocumentKpis(content, chat, render) == NoKpis) &&
      (reply.Reply? && reply.content.Some? ==>
        DocumentKpis(content, chat, render) == ParseLines(Split(reply.content.value, '\n')))
  {
  }

  /** Each record carries the document's own content (never empty) and title, and the KPI
      fields are None exactly where the KPIs are. */
  lemma EnrichedRecordMeaning(doc: Dict, k: Kpis)
    requires Truthy(ContentOf(doc))
    ensures var r := EnrichedRecord(doc, k);
      Truthy(r["content"]) && r["content"] == ContentOf(doc) &&
      ("content" in doc ==> r["content"] == doc["content"]) &&
      ("title" in doc ==> r["title"] == doc["title"]) && ("title" !in doc ==> r["title"] == Null) &&
      forall key: KpiKey :: r[KeyName(key)] == OfOption(Get(k, key))
  {
    var r := EnrichedRecord(doc, k);
    forall key: KpiKey
      ensures r[KeyName(key)] == OfOption(Get(k, key))
    {
      match key
      case Revenue => assert KeyName(key) == "revenue";
      case NetProfit => assert KeyName(key) == "net_profit";
      case RevenueGrowthRate => assert KeyName(key) == "revenue_growth_rate";
      case OperationalCostReduction => assert KeyName(key) == "operational_cost_reduction";
    }
  }
}
