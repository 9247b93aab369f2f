/** The search endpoints: reindexing from the database, and the two endpoints that fetch hits
    and keep those whose KPIs, as the LLM reads them, fall in the requested ranges. The search
    engine, the database, the embedding and the chat service are oracles. */
module EsEndpoints {
  import opened Wrappers
  import opened Strings
  import opened Kpi
  import opened Values
  import opened Seqs
  import opened Http
  import opened EsController
  import opened LlmIntegration
  import opened LlmController

  const IndexedMessage := "Documents indexed successfully"
  const NoDocuments := "No documents found."
  const MissingFilter := "At least one filter must be provided."
  const MissingFilterOrQuery := "At least one filter or a query must be provided."
  const NoMatches := "No documents matched the filter criteria."
  const ExtractionError := "Error extracting KPIs: "
  const CosineScript := "cosineSimilarity(params.query_vector, 'embedding') + 1.0"

  // ---------------------------------------------------------------------------------------
  // load_documents_to_elasticsearch
  // ---------------------------------------------------------------------------------------

  /** Reindex: drop the index if it exists, fetch up to `limit` rows, answer 404 when there
      are none (the index stays dropped), otherwise bulk-index them. Afterwards the index
      holds exactly the fetched rows' identifiers, none left over from before. */
  method LoadDocumentsToElasticsearch(index: SearchIndex, fetch: int -> seq<DocumentRow>, limit: int,
                                      embed: string -> seq<real>) returns (r: Outcome<string>)
    requires index.Valid()
    modifies index
    ensures index.Valid()
    ensures fetch(limit) == [] ==> r == HttpError(404, NoDocuments) && !index.present && index.docs == map[]
    ensures fetch(limit) != [] ==>
      r == Ok(IndexedMessage) && index.present &&
      index.docs == Stored(map[], IndexActions(fetch(limit), embed)) &&
      index.docs.Keys == RowIds(fetch(limit))
  {
    if index.present {
      index.Delete();
    }
    var documents := fetch(limit);
    if documents == [] {
      return HttpError(404, NoDocuments);
    }
    index.IndexDocuments(documents, embed);
    IndexedKeys(documents, embed);
    r := Ok(IndexedMessage);
  }

  // ---------------------------------------------------------------------------------------
  // The post-filter of filter_documents and semantic_search
  // ---------------------------------------------------------------------------------------

  /** One entry of the results: the hit's title, its content and the KPIs read from it. */
  datatype FilterResult = FilterResult(title: Value, content: Value, kpis: Kpis)

  /** What one hit does to the loop: nothing, add a result, or end the request. */
  datatype StepOutcome = Skip | Keep(result: FilterResult) | Refuse(status: int, detail: string) | Raise(reason: string)
  {
    predicate Ends() {
      Refuse? || Raise?
    }

    /** The response the request then ends with. */
    function Ending(): Outcome<seq<FilterResult>> {
      match this
      case Refuse(status, detail) => HttpError(status, detail)
      case Raise(reason) => Crashed(reason)
      case _ => Ok([])
    }
  }

  /** One hit: empty content is skipped; a failed generation ends the request with 500; a null
      reply fails to parse and is skipped; then the eight checks, each vacuous when its bound
      is None, decide, and a check that meets a missing KPI raises TypeError. */
  function FilterStep(doc: Dict, b: Bounds, chat: Completion -> ChatReply, render: Value -> string): (s: StepOutcome)
    ensures s.Refuse? ==> s.status == 500 && StartsWith(s.detail, ExtractionError)
    ensures s.Raise? ==> s.reason == "TypeError"
    ensures s.Keep? ==> Truthy(ContentOf(doc)) && s.result.title == Lookup(doc, "title", Null)
  {
    var content := ContentOf(doc);
    if !Truthy(content) then Skip
    else
      var text := Text(content, render);
      match GenerateLlmResponse(chat, text, KpiPrompt(text))
      case Failure(e) => Refuse(500, ExtractionError + e)
      case Success(None) => Skip
      case Success(Some(reply)) =>
        var kpis := ParseLines(Split(reply, '\n'));
        match RangeCheck(kpis, b, WhenNotNone)
        case Raised => Raise("TypeError")
        case Fail => Skip
        case Pass => Keep(FilterResult(Lookup(doc, "title", Null), content, kpis))
  }

  /** What each hit does, in hit order. */
  function Steps(docs: seq<Dict>, b: Bounds, chat: Completion -> ChatReply, render: Value -> string)
    : (steps: seq<StepOutcome>)
    ensures |steps| == |docs| && forall i :: 0 <= i < |docs| ==> steps[i] == FilterStep(docs[i], b, chat, render)
  {
    seq(|docs|, i requires 0 <= i < |docs| => FilterStep(docs[i], b, chat, render))
  }

  /** The loop over the steps, in order: results accumulate until the first abort. */
  function Collect(steps: seq<StepOutcome>): Outcome<seq<FilterResult>> {
    if steps == [] then Ok([])
    else
      match Collect(steps[..|steps| - 1])
      case Ok(acc) =>
        (match steps[|steps| - 1]
         case Skip => Ok(acc)
         case Keep(x) => Ok(acc + [x])
         case Refuse(status, detail) => HttpError(status, detail)
         case Raise(reason) => Crashed(reason))
      case HttpError(status, detail) => HttpError(status, detail)
      case Crashed(reason) => Crashed(reason)
  }

  /** The loop over the hits. */
  function PostFiltered(docs: seq<Dict>, b: Bounds, chat: Completion -> ChatReply, render: Value -> string)
    : Outcome<seq<FilterResult>>
  {
    Collect(Steps(docs, b, chat, render))
  }

  /** Once the loop has ended the request, later steps change nothing. */
  lemma {:induction false} FailurePersists(steps: seq<StepOutcome>, n: nat)
    requires n <= |steps|
    requires !Collect(steps[..n]).Ok?
    ensures Collect(steps) == Collect(steps[..n])
    decreases |steps| - n
  {
    if n < |steps| {
      var m := |steps| - 1;
      assert steps[..m][..n] == steps[..n];
      FailurePersists(steps[..m], n);
    } else {
      assert steps[..n] == steps;
    }
  }

  /** One more step of the loop: a skip keeps the results, a keep adds its entry, and an
      ending step ends the request with its response. */
  lemma CollectNext(steps: seq<StepOutcome>, i: nat, acc: seq<FilterResult>)
    requires i < |steps| && Collect(steps[..i]) == Ok(acc)
    ensures steps[i].Skip? ==> Collect(steps[..i + 1]) == Ok(acc)
    ensures steps[i].Keep? ==> Collect(steps[..i + 1]) == Ok(acc + [steps[i].result])
    ensures steps[i].Ends() ==> !Collect(steps[..i + 1]).Ok? && Collect(steps[..i + 1]) == steps[i].Ending()
  {
    assert steps[..i + 1][..i] == steps[..i];
  }

  /** The post-filter loop of both filtering endpoints. */
  method PostFilter(documents: seq<Dict>, b: Bounds, chat: Completion -> ChatReply, render: Value -> string)
    returns (r: Outcome<seq<FilterResult>>)
    ensures r == PostFiltered(documents, b, chat, render)
  {
    ghost var steps := Steps(documents, b, chat, render);
    var results := [];
    var i := 0;
    while i < |documents|
      invariant 0 <= i <= |documents|
      invariant Collect(steps[..i]) == Ok(results)
    {
      var step := FilterHit(documents[i], b, chat, render);
      CollectNext(steps, i, results);
      match step {
        case Skip =>
        case Keep(x) =>
          results := results + [x];
        case Refuse(status, detail) =>
          r := HttpError(status, detail);
          FailurePersists(steps, i + 1);
          return;
        case Raise(reason) =>
          r := Crashed(reason);
          FailurePersists(steps, i + 1);
          return;
      }
      i := i + 1;
    }
    assert steps[..i] == steps;
    r := Ok(results);
  }

  /** The body of the loop for one hit, up to the point where it continues, appends, or
      leaves the request. */
  method FilterHit(doc: Dict, b: Bounds, chat: Completion -> ChatReply, render: Value -> string)
    returns (step: StepOutcome)
    ensures step == FilterStep(doc, b, chat, render)
  {
    var content := ContentOf(doc);
    if !Truthy(content) {
      return Skip;
    }
    var text := Text(content, render);
    var response := GenerateLlmResponse(chat, text, KpiPrompt(text));
    if response.Failure? {
      return Refuse(500, ExtractionError + response.error);
    }
    if response.value.None? {
      return Skip;
    }
    var kpis := ParseKpisFromResponse(response.value.value);
    var check := RangeCheck(kpis, b, WhenNotNone);
    if check == Raised {
      return Raise("TypeError");
    }
    if check == Pass {
      return Keep(FilterResult(Lookup(doc, "title", Null), content, kpis));
    }
    return Skip;
  }

  /** The positions of the steps that keep their hit, in increasing order. */
  function KeptAt(steps: seq<StepOutcome>): seq<int> {
    if steps == [] then []
    else KeptAt(steps[..|steps| - 1]) + (if steps[|steps| - 1].Keep? then [|steps| - 1] else [])
  }

  /** When the loop completes, its results are the kept steps' entries in step order, and a
      step's entry is among them iff the step keeps it. */
  lemma {:induction false} CollectKeeps(steps: seq<StepOutcome>)
    requires Collect(steps).Ok?
    ensures var rs := Collect(steps).value;
      var at := KeptAt(steps);
      |rs| == |at| &&
      (forall j :: 0 <= j < |at| ==> 0 <= at[j] < |steps| && steps[at[j]] == Keep(rs[j])) &&
      (forall j, k :: 0 <= j < k < |at| ==> at[j] < at[k]) &&
      (forall i :: 0 <= i < |steps| && steps[i].Keep? ==> i in at)
  {
    if steps != [] {
      var n := |steps| - 1;
      var init := steps[..n];
      CollectKeeps(init);
      assert forall i :: 0 <= i < n ==> init[i] == steps[i];
      var rs := Collect(init).value;
      var at := KeptAt(init);
      if steps[n].Keep? {
        assert Collect(steps).value == rs + [steps[n].result];
        assert KeptAt(steps) == at + [n];
      } else {
        assert Collect(steps).value == rs;
        assert KeptAt(steps) == at;
      }
    }
  }

  /** The loop completes iff no step aborts; otherwise it ends as the first aborting step
      says. */
  lemma {:induction false} CollectAborts(steps: seq<StepOutcome>)
    ensures Collect(steps).Ok? <==> forall i :: 0 <= i < |steps| ==> !steps[i].Ends()
    ensures !Collect(steps).Ok? ==>
      exists i :: 0 <= i < |steps| && steps[i].Ends() && Collect(steps) == steps[i].Ending() &&
        forall j :: 0 <= j < i ==> !steps[j].Ends()
  {
    if steps != [] {
      var n := |steps| - 1;
      var init := steps[..n];
      CollectAborts(init);
      assert forall i :: 0 <= i < n ==> init[i] == steps[i];
      if !Collect(init).Ok? {
        var i :| 0 <= i < n && init[i].Ends() && Collect(init) == init[i].Ending() &&
          forall j :: 0 <= j < i ==> !init[j].Ends();
        assert steps[i].Ends();
        assert Collect(steps) == Collect(init);
      }
    }
  }

  /** How a hit may end the request: a 500 naming the generation error, or a TypeError. */
  predicate LoopFailure(r: Outcome<seq<FilterResult>>) {
    (r.HttpError? && r.status == 500 && StartsWith(r.detail, ExtractionError)) || r == Crashed("TypeError")
  }

  lemma {:induction false} CollectFailures(steps: seq<StepOutcome>)
    requires forall i :: 0 <= i < |steps| && steps[i].Ends() ==> LoopFailure(steps[i].Ending())
    ensures Collect(steps).Ok? || LoopFailure(Collect(steps))
  {
    if steps != [] {
      var n := |steps| - 1;
      assert forall i :: 0 <= i < n ==> steps[..n][i] == steps[i];
      CollectFailures(steps[..n]);
    }
  }

  /** A failure of the post-filter is a 500 from generation or an uncaught TypeError, never a
      400 or a 404. */
  lemma PostFilterFailures(docs: seq<Dict>, b: Bounds, chat: Completion -> ChatReply, render: Value -> string)
    ensures PostFiltered(docs, b, chat, render).Ok? || LoopFailure(PostFiltered(docs, b, chat, render))
  {
    var steps := Steps(docs, b, chat, render);
    forall i | 0 <= i < |steps| && steps[i].Ends()
      ensures LoopFailure(steps[i].Ending())
    {
      var e := ExtractionError;
      assert forall x :: StartsWith(e + x, e);
    }
    CollectFailures(steps);
  }

  /** A hit is kept iff its content is truthy, the chat answers with a reply, and every bound
      that is not None has its KPI present in the reply and in range; the entry carries the
      hit's title, its content and the KPIs parsed from the reply. */
  lemma KeepIff(doc: Dict, b: Bounds, chat: Completion -> ChatReply, render: Value -> string)
    ensures var text := Text(ContentOf(doc), render);
      var reply := chat(Request(text, KpiPrompt(text)));
      FilterStep(doc, b, chat, render).Keep? <==>
        Truthy(ContentOf(doc)) && reply.Reply? && reply.content.Some? &&
        forall i :: 0 <= i < |SlotOrder| ==>
          SlotHolds(ParseLines(Split(reply.content.value, '\n')), b, WhenNotNone, SlotOrder[i])
    ensures var text := Text(ContentOf(doc), render);
      var reply := chat(Request(text, KpiPrompt(text)));
      FilterStep(doc, b, chat, render).Keep? ==>
        FilterStep(doc, b, chat, render).result ==
          FilterResult(Lookup(doc, "title", Null), ContentOf(doc), ParseLines(Split(reply.content.value, '\n')))
  {
    var text := Text(ContentOf(doc), render);
    var reply := chat(Request(text, KpiPrompt(text)));
    if reply.Reply? && reply.content.Some? {
      EvalPassIff(ParseLines(Split(reply.content.value, '\n')), b, WhenNotNone, SlotOrder);
    }
  }

  /** Without a single bound every reply passes. */
  lemma NoBoundsPass(k: Kpis)
    ensures RangeCheck(k, NoBounds, WhenNotNone) == Pass
  {
    EvalPassIff(k, NoBounds, WhenNotNone, SlotOrder);
  }

  /** When the loop over the hits completes, its results are the entries of the hits that are
      kept, in hit order, and every kept hit is among them. */
  lemma PostFilterResults(docs: seq<Dict>, b: Bounds, chat: Completion -> ChatReply, render: Value -> string)
    requires PostFiltered(docs, b, chat, render).Ok?
    ensures var rs := PostFiltered(docs, b, chat, render).value;
      var at := KeptAt(Steps(docs, b, chat, render));
      |rs| == |at| &&
      (forall j :: 0 <= j < |at| ==> 0 <= at[j] < |docs| && FilterStep(docs[at[j]], b, chat, render) == Keep(rs[j])) &&
      (forall j, k :: 0 <= j < k < |at| ==> at[j] < at[k]) &&
      (forall i :: 0 <= i < |docs| && FilterStep(docs[i], b, chat, render).Keep? ==> i in at)
  {
    CollectKeeps(Steps(docs, b, chat, render));
  }

  /** The loop ends early iff some hit ends the request, and then it answers as the first such
      hit says. */
  lemma PostFilterAborts(docs: seq<Dict>, b: Bounds, chat: Completion -> ChatReply, render: Value -> string)
    ensures PostFiltered(docs, b, chat, render).Ok? <==> forall i :: 0 <= i < |docs| ==> !FilterStep(docs[i], b, chat, render).Ends()
    ensures !PostFiltered(docs, b, chat, render).Ok? ==>
      exists i :: 0 <= i < |docs| && FilterStep(docs[i], b, chat, render).Ends() &&
        PostFiltered(docs, b, chat, render) == FilterStep(docs[i], b, chat, render).Ending() &&
        forall j :: 0 <= j < i ==> !FilterStep(docs[j], b, chat, render).Ends()
  {
    CollectAborts(Steps(docs, b, chat, render));
  }

  /** The outcome of a filtering endpoint once it has its hits. */
  function Respond(docs: seq<Dict>, b: Bounds, chat: Completion -> ChatReply, render: Value -> string)
    : Outcome<seq<FilterResult>>
  {
    if docs == [] then HttpError(404, NoDocuments)
    else
      match PostFiltered(docs, b, chat, render)
      case Ok(results) => if results == [] then HttpError(404, NoMatches) else Ok(results)
      case HttpError(status, detail) => HttpError(status, detail)
      case Crashed(reason) => Crashed(reason)
  }

  method RespondTo(docs: seq<Dict>, b: Bounds, chat: Completion -> ChatReply, render: Value -> string)
    returns (r: Outcome<seq<FilterResult>>)
    ensures r == Respond(docs, b, chat, render)
  {
    if docs == [] {
      return HttpError(404, NoDocuments);
    }
    r := PostFilter(docs, b, chat, render);
    if r == Ok([]) {
      r := HttpError(404, NoMatches);
    }
  }

  // ---------------------------------------------------------------------------------------
  // filter_documents
  // ---------------------------------------------------------------------------------------

  /** filter_documents as a whole. */
  function FilterResponse(b: Bounds, limit: int, search: SearchBody -> seq<Hit>,
                          chat: Completion -> ChatReply, render: Value -> string): (r: Outcome<seq<FilterResult>>)
    ensures !AnyTruthy(b) ==> r == HttpError(400, MissingFilter)
    ensures AnyTruthy(b) && search(MatchAll(limit)) == [] ==> r == HttpError(404, NoDocuments)
    ensures r.Ok? ==> AnyTruthy(b) && r.value != []
  {
    if !AnyTruthy(b) then HttpError(400, MissingFilter)
    else Respond(HitSources(search(MatchAll(limit))), b, chat, render)
  }

  /** filter_documents: every bound falsy is a 400; otherwise the first `limit` documents of a
      match-all search go through the post-filter. */
  method FilterDocuments(b: Bounds, limit: int, search: SearchBody -> seq<Hit>,
                         chat: Completion -> ChatReply, render: Value -> string)
    returns (r: Outcome<seq<FilterResult>>)
    ensures r == FilterResponse(b, limit, search, chat, render)
  {
    if !AnyTruthy(b) {
      return HttpError(400, MissingFilter);
    }
    var documents := HitSources(search(MatchAll(limit)));
    r := RespondTo(documents, b, chat, render);
  }

  /** The endpoint answers 400 iff every bound is None or 0.0, 404 when the search finds
      nothing, 404 again when no hit passes, and otherwise what the post-filter gives. */
  lemma FilterResponseMeaning(b: Bounds, limit: int, search: SearchBody -> seq<Hit>,
                              chat: Completion -> ChatReply, render: Value -> string)
    ensures var r := FilterResponse(b, limit, search, chat, render);
      (r.HttpError? && r.status == 400 <==> !AnyTruthy(b)) &&
      (!AnyTruthy(b) ==> r == HttpError(400, MissingFilter)) &&
      (AnyTruthy(b) && search(MatchAll(limit)) == [] ==> r == HttpError(404, NoDocuments)) &&
      (AnyTruthy(b) && search(MatchAll(limit)) != [] ==>
         var p := PostFiltered(HitSources(search(MatchAll(limit))), b, chat, render);
         (p == Ok([]) ==> r == HttpError(404, NoMatches)) && (p != Ok([]) ==> r == p))
  {
    PostFilterFailures(HitSources(search(MatchAll(limit))), b, chat, render);
  }

  /** Eight bounds of 0.0 are all falsy: the endpoint rejects them, although each would make
      a range filter. */
  lemma ZeroBoundsRejected(limit: int, search: SearchBody -> seq<Hit>, chat: Completion -> ChatReply,
                           render: Value -> string)
    ensures var zero := Bounds(Some(0.0), Some(0.0), Some(0.0), Some(0.0), Some(0.0), Some(0.0), Some(0.0), Some(0.0));
      FilterResponse(zero, limit, search, chat, render) == HttpError(400, MissingFilter) &&
      |FiltersOf(zero, SlotOrder)| == 8
  {
    var zero := Bounds(Some(0.0), Some(0.0), Some(0.0), Some(0.0), Some(0.0), Some(0.0), Some(0.0), Some(0.0));
    SlotOrderAt();
    FiltersInOrder(zero);
  }

  // ---------------------------------------------------------------------------------------
  // semantic_search
  // ---------------------------------------------------------------------------------------

  /** `if query:` for an optional string. */
  predicate QueryTruthy(query: Option<string>) {
    query.Some? && query.value != []
  }

  /** The body semantic_search sends. Its filter list is never filled, so with a query it is
      a script score over match_all, and without one a bool filter over no filters. */
  function SemanticBody(query: Option<string>, limit: int, embed: string -> seq<real>): SearchBody {
    if QueryTruthy(query) then ScriptScore([], CosineScript, embed(query.value), limit)
    else BoolFilter([], limit)
  }

  /** semantic_search as a whole. */
  function SemanticResponse(query: Option<string>, b: Bounds, limit: int, search: SearchBody -> seq<Hit>,
                            embed: string -> seq<real>, chat: Completion -> ChatReply, render: Value -> string)
    : (r: Outcome<seq<FilterResult>>)
    ensures !QueryTruthy(query) && !AnyTruthy(b) ==> r == HttpError(400, MissingFilterOrQuery)
    ensures (QueryTruthy(query) || AnyTruthy(b)) && search(SemanticBody(query, limit, embed)) == [] ==>
      r == HttpError(404, NoDocuments)
    ensures r.Ok? ==> (QueryTruthy(query) || AnyTruthy(b)) && r.value != []
  {
    if !QueryTruthy(query) && !AnyTruthy(b) then HttpError(400, MissingFilterOrQuery)
    else Respond(HitSources(search(SemanticBody(query, limit, embed))), b, chat, render)
  }

  /** semantic_search: rejected only without a query and without a truthy bound; the hits of
      the chosen body go through the same post-filter as filter_documents. */
  method SemanticSearch(query: Option<string>, b: Bounds, limit: int, search: SearchBody -> seq<Hit>,
                        embed: string -> seq<real>, chat: Completion -> ChatReply, render: Value -> string)
    returns (r: Outcome<seq<FilterResult>>)
    ensures r == SemanticResponse(query, b, limit, search, embed, chat, render)
  {
    if !QueryTruthy(query) && !AnyTruthy(b) {
      return HttpError(400, MissingFilterOrQuery);
    }
    var body: SearchBody;
    if QueryTruthy(query) {
      var queryVector := embed(query.value);
      body := ScriptScore([], CosineScript, queryVector, limit);
    } else {
      body := BoolFilter([], limit);
    }
    var documents := HitSources(search(body));
    r := RespondTo(documents, b, chat, render);
  }

  /** The endpoint answers 400 iff the query is None or empty and every bound is None or 0.0,
      and otherwise answers like filter_documents over the hits of its body; the body never carries a filter, and it embeds the query exactly when there is one. */
  lemma SemanticResponseMeaning(query: Option<string>, b: Bounds, limit: int, search: SearchBody -> seq<Hit>,
                                embed: string -> seq<real>, chat: Completion -> ChatReply, render: Value -> string)
    ensures var r := SemanticResponse(query, b, limit, search, embed, chat, render);
      r.HttpError? && r.status == 400 <==> !QueryTruthy(query) && !AnyTruthy(b)
    ensures var r := SemanticResponse(query, b, limit, search, embed, chat, render);
      var hits := search(SemanticBody(query, limit, embed));
      var p := PostFiltered(HitSources(hits), b, chat, render);
      (QueryTruthy(query) || AnyTruthy(b)) ==>
        (hits == [] ==> r == HttpError(404, NoDocuments)) &&
        (hits != [] && p == Ok([]) ==> r == HttpError(404, NoMatches)) &&
        (hits != [] && p != Ok([]) ==> r == p)
    ensures var body := SemanticBody(query, limit, embed);
      (body.ScriptScore? <==> QueryTruthy(query)) &&
      (body.ScriptScore? ==> body.filters == [] && body.queryVector == embed(query.value)) &&
      (body.BoolFilter? ==> body.filters == [])
  {
    PostFilterFailures(HitSources(search(SemanticBody(query, limit, embed))), b, chat, render);
  }

  /** With a query and no bounds, the post-filter keeps every hit with content that the chat
      answers, whatever its KPIs. */
  lemma QueryOnlyKeepsAnswered(doc: Dict, chat: Completion -> ChatReply, render: Value -> string)
    ensures var text := Text(ContentOf(doc), render);
      var reply := chat(Request(text, KpiPrompt(text)));
      FilterStep(doc, NoBounds, chat, render).Keep? <==> Truthy(ContentOf(doc)) && reply.Reply? && reply.content.Some?
  {
    var text := Text(ContentOf(doc), render);
    var reply := chat(Request(text, KpiPrompt(text)));
    if reply.Reply? && reply.content.Some? {
      NoBoundsPass(ParseLines(Split(reply.content.value, '\n')));
    }
  }
}
