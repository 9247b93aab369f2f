# insightsaiproject KPI pipeline, in Dafny

This project models the KPI pipeline of a FastAPI service. The service stores financial reports,
indexes them in Elasticsearch, and answers questions about them with an LLM. These parts are modelled:

- **Regex metric extractor** (`extract_metrics`, documents controller). Four fixed patterns, each
  taking its first match. One conversion failure ends the whole block.
- **Ingestion clean-up** (`clean_and_preprocess_data`) and the in-place merge of metrics into
  document dictionaries (`add_metrics_to_documents`).
- **LLM-reply KPI parser** (`parse_kpis_from_response`). A line-by-line label chain; the last
  line that converts wins.
- **Integration helpers.** The weighted closeness score (`compute_numerical_score`) and the
  truthy-bound tuple filter (`apply_numeric_filters`).
- **Elasticsearch controller.** Bulk-index actions, hit-to-source mapping, and the ordered range
  filters of `create_filters`.
- **LLM controller.** The chat prompt, its RuntimeError wrapping, and the enrichment loop
  `extract_and_enrich_documents`.
- **Search endpoints.**
  - Reindex (`/edocuments`) as a two-state index: present or absent, holding a map from id to
    source.
  - `/efilter` and `/semantic-search`. Falsy validation, then the query body, then the
    per-hit skip/abort policy with its eight range checks.
- **Question endpoints.**
  - `/query`: the numbered context and the 404/KeyError/500 paths.
  - `/numeric-query`: the hybrid ranking `0.7·relevance + 0.3·numerical` around the revenue
    midpoint, an in-place stable descending sort, truncation to `limit`, and the numbered context.
- **Request-schema validators.** Their "at least one value is not None" checks.

The search engine, the database, the sentence-embedding model and the OpenAI chat service are
oracles, passed in as function parameters:
- `search: SearchBody -> seq<Hit>`
- `fetch: int -> seq<DocumentRow>`
- `embed: string -> seq<real>`
- `chat: Completion -> ChatReply`, whose reply content may be null, or which may fail with a
  message.

Python's `str` on numbers is an oracle too: `render: Value -> string`. Numbers are `real`.

Python exceptions that escape an endpoint are modelled as `Crashed(name)`. Examples: the TypeError
of `None >= bound`, and the KeyError of `doc['content']`. An `HTTPException` is
`HttpError(status, detail)`.

Modules follow the source files:

| module | file |
|---|---|
| `Documents`, `DocumentRecords`, `MetricExamples` | `app/controllers/documents.py` |
| `LlmIntegration` | `app/integrations/llm.py` |
| `EsController` | `app/controllers/elasticsearch.py` |
| `LlmController` | `app/controllers/llms.py` |
| `EsEndpoints` | `app/api/endpoints/elasticsearch.py` |
| `LlmEndpoints` | `app/api/endpoints/llm.py` |
| `RequestSchemas` | `app/schemas/requests/semantic_search.py` and `efilter.py` |

Shared modules:
- `Values`: Python values and dictionaries.
- `Kpi`: the KPI record, the eight bounds and the shared range-check evaluator.
- `Strings`, `PyFloat`, `Dates`: `strip`/`split`/`lower`/`replace`/`join`, a decimal `float()`,
  and `strptime`/`isoformat`.
- `Http`: endpoint outcomes.
- `Seqs`: order-preserving sublists.
- `Wrappers`: `Option`/`Result`.

The endpoints in `app/api/endpoints/llm.py` import `generate_llm_response` from
`app/integrations/llm.py`. That file does not define it, so as written the import fails. The model
gives those endpoints the controller's `generate_llm_response` (app/controllers/llms.py:14-31):
the same message format and the same RuntimeError wrapping.

## Model

| member | source | states |
|---|---|---|
| `Documents.ExtractMetrics` | app/controllers/documents.py:37-76 | the four search-and-convert blocks, run one after the other, return exactly the metrics `Metrics(content)` defines; content that is not a string gives all four None (the TypeError is caught) |
| `Documents.MetricAt` | app/controllers/documents.py:38-76 | each metric is what its own pattern attempt gives, unless an earlier attempt's conversion failed, in which case it stays None |
| `Documents.MetricFromFirstMatch` | app/controllers/documents.py:46-71 | a metric that is set comes from float() of the capture at the first match of its pattern; no match leaves it None |
| `Documents.FailureIsolation` | app/controllers/documents.py:44-74 | when attempt n is the first conversion failure, the earlier metrics keep their values and metric n and all later ones stay None |
| `Documents.NoFailureIndependent` | app/controllers/documents.py:44-74 | without a conversion failure every metric is its own attempt's value: converted, or None without a match |
| `Documents.SearchFound` | app/controllers/documents.py:46 | a position `re.search` reports is a real match at or after the start |
| `Documents.SearchLeftmost` | app/controllers/documents.py:46 | `re.search` reports the leftmost match, and no match anywhere when it reports none |
| `Documents.SepRunMaximal` | app/controllers/documents.py:46 | the `[:\s]+` run read by the matcher is maximal, as the greedy regex run is |
| `Documents.NumRunMaximal` | app/controllers/documents.py:46 | the `[\d,\.]+` / `[\d\.]+` run read by the matcher is maximal |
| `Documents.NoLabelNoMatch` | app/controllers/documents.py:46 | content without the label's first letter has no match |
| `Documents.SearchSkip` | app/controllers/documents.py:46 | a prefix free of the label's first letter shifts the match position by its length |
| `Documents.SearchSkipFrom` | app/controllers/documents.py:46 | with no match before `from` and no label start in the prefix after it, the search from the start finds the rest's match moved by the prefix's length |
| `Documents.AttemptWithShift` | app/controllers/documents.py:46-48 | when the search finds the rest's match moved by the prefix, the block converts the same capture to the same outcome |
| `Documents.AttemptSkip` | app/controllers/documents.py:46-48 | a prefix free of the label's first letter changes neither whether a block sets its metric nor the value |
| `MetricExamples.RevenueWithThousandsSeparator` | app/controllers/documents.py:46-48 | "Revenue: $1,234.50" gives revenue 1234.5 (commas removed before float()) |
| `MetricExamples.LabelIsCaseSensitive` | app/controllers/documents.py:46 | "revenue: $500" sets no revenue: labels are case-sensitive |
| `MetricExamples.CurrencyNeedsDollar` | app/controllers/documents.py:46 | "Revenue: 500" sets no revenue: the amount needs `$` |
| `MetricExamples.RateNeedsPercent` | app/controllers/documents.py:58-60 | "Revenue Growth Rate: 12.5" sets no rate: the rate needs `%` |
| `MetricExamples.NotANumber` | app/controllers/documents.py:48 | the capture "1.2.3" does not convert |
| `MetricExamples.ConversionFailureClearsLaterMetrics` | app/controllers/documents.py:44-74 | "Revenue: $1.2.3 Net Profit: $5" has a net-profit match, yet all four metrics are None |
| `MetricExamples.ReportWithThreeMetrics` | app/controllers/documents.py:46-71 | the three-line report yields revenue 500000, net profit 120000, growth 12.5 and no cost reduction |
| `DocumentRecords.CleanAndPreprocessData` | app/controllers/documents.py:15-35 | succeeds iff every item converts, then maps items one to one in order; otherwise fails with the first failing item and its error |
| `DocumentRecords.ProcessedShape` | app/controllers/documents.py:19-31 | a processed item has exactly the seven keys, keeps `document_id`, and its four text fields are the stripped strings |
| `DocumentRecords.TextFieldDefault` | app/controllers/documents.py:21 | a missing text field reads as "", a stripped one as itself |
| `DocumentRecords.TopicsRoundTrip` | app/controllers/documents.py:28 | topics free of commas are joined with "," and split back to the same list |
| `DocumentRecords.TextItemsRejects` | app/controllers/documents.py:28 | a topic that is not a string makes the join fail |
| `DocumentRecords.DateFieldMeaning` | app/controllers/documents.py:23-27 | the date is None iff it is missing or falsy, a date iff it is a non-empty string that parses, and any parsed date is valid |
| `DocumentRecords.DateFieldIso` | app/controllers/documents.py:24 | the ISO text of a valid date parses back to that date |
| `DocumentRecords.CleanItemFailsOnBadText` | app/controllers/documents.py:21-34 | a text field that is not a string makes the item, so the batch, fail |
| `DocumentRecords.MetricFieldsAt` | app/controllers/documents.py:81-82 | the merged entries are the four metric keys, each holding its KPI |
| `DocumentRecords.EnrichedMeaning` | app/controllers/documents.py:80-82 | a dictionary with content gains exactly the four metrics of its content and keeps every other key; one without content is left alone |
| `DocumentRecords.EnrichedIdempotent` | app/controllers/documents.py:80-82 | updating twice equals updating once |
| `DocumentRecords.UpdateStep` | app/controllers/documents.py:79-82 | updating a dictionary that may already have been updated once gives the same dictionary as one update |
| `DocumentRecords.AddMetrics` | app/controllers/documents.py:80-82 | a dictionary with content is merged with the metrics of that content, one without is left alone |
| `DocumentRecords.AddMetricsToDocuments` | app/controllers/documents.py:78-84 | returns the same list, and every listed dictionary is updated in place, even one listed twice |
| `DocumentRecords.ProcessedThenEnriched` | app/controllers/documents.py:78-84 | a processed document always has content, so enrichment adds the metrics of its stripped content to the seven fields |
| `LlmIntegration.ComputeNumericalScore` | app/integrations/llm.py:10-33 | the loop returns the sum over the weight items, or the TypeError of a non-numeric operand |
| `LlmIntegration.DefaultWeightsCover` | app/integrations/llm.py:17-22 | None or empty weights become the four KPIs at 1.0, summing to 4 |
| `LlmIntegration.ScoreOfAbsentKeys` | app/integrations/llm.py:25-32 | keys missing on either side contribute nothing |
| `LlmIntegration.ScoreRaisesIff` | app/integrations/llm.py:28-31 | the score raises iff some key has both values present and one is not a number |
| `LlmIntegration.ScoreBounds` | app/integrations/llm.py:24-33 | with non-negative weights the score lies between 0 and the sum of the weights |
| `LlmIntegration.ClosenessBounds` | app/integrations/llm.py:31 | a term lies between 0 and its weight, and equals the weight at zero gap |
| `LlmIntegration.ClosenessMonotone` | app/integrations/llm.py:31 | a term depends only on the size of the gap and does not grow as the gap grows |
| `LlmIntegration.ParseKpisFromResponse` | app/integrations/llm.py:36-85 | the line loop returns exactly the fold of the lines' effects over all-None KPIs |
| `LlmIntegration.ParsedNone` | app/integrations/llm.py:42-85 | a KPI stays None iff no line sets it |
| `LlmIntegration.ParsedLast` | app/integrations/llm.py:50-83 | a KPI that is set holds the value of the last line that sets it; lines that fail to convert are skipped |
| `LlmIntegration.LabelIgnoresCase` | app/integrations/llm.py:51-53 | lines equal up to ASCII case take the same branch |
| `LlmIntegration.RevenueLabelFirst` | app/integrations/llm.py:53-84 | a line containing "revenue:" never sets any other KPI (the elif order) |
| `LlmIntegration.ApplyNumericFilters` | app/integrations/llm.py:88-125 | a result is no longer than the input and holds only tuples that pass every truthy bound; `FilterKeeps`, `FilterCounts` and `FilterRaisesIff` pin it down exactly |
| `LlmIntegration.FilterKeeps` | app/integrations/llm.py:102-125 | the result is an order-preserving sublist; every tuple in it passes every truthy bound, and every passing tuple of the input is in it |
| `LlmIntegration.FilterCounts` | app/integrations/llm.py:102-125 | counted with multiplicity, the result holds each passing tuple as often as the input does and no failing tuple |
| `LlmIntegration.FilterRaisesIff` | app/integrations/llm.py:102-125 | the comprehension aborts iff some tuple's check compares a missing KPI |
| `LlmIntegration.FalsyBoundsIgnored` | app/integrations/llm.py:105-124 | a bound of None or 0.0 acts as absent |
| `Kpi.EvalPassIff` | app/api/endpoints/elasticsearch.py:142-176 | the chain of range checks passes iff every active bound holds |
| `Kpi.EvalRaisedIff` | app/api/endpoints/elasticsearch.py:142-176 | the chain raises iff the first failing check compares a missing KPI |
| `EsController.IndexActions` | app/controllers/elasticsearch.py:26-44 | one action per document, in order, carrying the document's id |
| `EsController.ActionMeaning` | app/controllers/elasticsearch.py:26-44 | an action names the index and the id, stores the source fields and the embedding of the title/content/conclusion text, and carries an ISO date that parses back, or None |
| `EsController.EmbeddingOfMissingTitle` | app/controllers/elasticsearch.py:38-40 | a missing title enters the embedded text as "None " |
| `EsController.SearchIndex.Delete` | app/api/endpoints/elasticsearch.py:25-26 | the index is absent and empty afterwards |
| `EsController.SearchIndex.Bulk` | app/controllers/elasticsearch.py:45 | the index is present and holds the previous entries overwritten by the actions in order |
| `EsController.SearchIndex.IndexDocuments` | app/controllers/elasticsearch.py:22-45 | bulk-indexes the actions of the rows |
| `EsController.StoredKeys` | app/controllers/elasticsearch.py:45 | bulk storage holds the old ids plus the actions' ids |
| `EsController.StoredLast` | app/controllers/elasticsearch.py:45 | an id stores the source of its last action |
| `EsController.IndexedKeys` | app/controllers/elasticsearch.py:26-45 | indexing into an empty index holds exactly the rows' ids |
| `EsController.IndexedSource` | app/controllers/elasticsearch.py:26-45 | each id holds the source built from its last row |
| `EsController.HitSources` | app/controllers/elasticsearch.py:63 | one source per hit, in hit order |
| `EsController.SearchElasticsearch` | app/controllers/elasticsearch.py:47-63 | the sources of the keyword search's hits, in engine order |
| `EsController.CreateFilters` | app/controllers/elasticsearch.py:65-130 | the chain of eight ifs builds the filters of the bounds in slot order |
| `EsController.FiltersInOrder` | app/controllers/elasticsearch.py:80-130 | the eight guarded appends, concatenated in parameter order, equal the slot-order filters |
| `EsController.FiltersMembers` | app/controllers/elasticsearch.py:82-128 | a filter is present iff its slot's bound is not None and carries that bound, 0.0 included |
| `EsController.FiltersRanked` | app/controllers/elasticsearch.py:82-128 | filters keep the order of their slots |
| `EsController.CreatedFiltersMeaning` | app/controllers/elasticsearch.py:80-130 | one filter per non-None bound (min and max kept apart) in the fixed order revenue, net profit, growth rate, cost reduction |
| `EsController.NoFiltersIff` | app/controllers/elasticsearch.py:80-130 | the filter list is empty iff every bound is None |
| `EsController.FiltersAgreeWithChecks` | app/controllers/elasticsearch.py:82-128 | KPIs satisfy every filter iff they pass the endpoints' not-None range checks |
| `EsController.RevenueRangeFilters` | app/controllers/elasticsearch.py:82-85 | a revenue range gives a gte then an lte filter on revenue |
| `LlmController.GenerateLlmResponse` | app/controllers/llms.py:14-31 | fails iff the chat fails, and a failure's text starts with the RuntimeError prefix; `GenerateMeaning` gives the request and the texts |
| `LlmController.GenerateMeaning` | app/controllers/llms.py:14-31 | the request is gpt-4o with the fixed system prompt and "Context:\n…\n\nQuery:\n…"; a failure becomes the prefixed error, a reply is passed on |
| `LlmController.KpiPromptShape` | app/controllers/llms.py:44-48 | the KPI prompt is the fixed instruction, "Content:\n", then the content |
| `LlmController.ExtractAndEnrichDocuments` | app/controllers/llms.py:33-74 | the loop with `continue` returns exactly the enrichment of the documents |
| `LlmController.EnrichmentOfRetained` | app/controllers/llms.py:37-74 | one record per document with truthy content, in order, built from that document |
| `LlmController.RetainedKeeps` | app/controllers/llms.py:39-41 | the retained documents are an order-preserving sublist: exactly those with truthy content |
| `LlmController.EnrichmentLength` | app/controllers/llms.py:37-74 | the output length is the input length minus the documents with falsy content |
| `LlmController.DocumentKpisOnFailure` | app/controllers/llms.py:43-59 | a failed or null reply gives all-None KPIs, a reply gives its parse |
| `LlmController.EnrichedRecordMeaning` | app/controllers/llms.py:61-72 | a record has the title, the original non-empty content and the four KPI fields |
| `LlmController.EnrichedRecord` | app/controllers/llms.py:62-71 | a record has exactly the six keys |
| `EsEndpoints.LoadDocumentsToElasticsearch` | app/api/endpoints/elasticsearch.py:15-33 | an empty fetch is a 404 with the index dropped; otherwise the index holds exactly the fetched rows, nothing stale |
| `EsEndpoints.Steps` | app/api/endpoints/elasticsearch.py:121-183 | one outcome per hit, in hit order |
| `EsEndpoints.PostFilter` | app/api/endpoints/elasticsearch.py:120-183 | the loop returns what the per-hit outcomes collect to |
| `EsEndpoints.FilterStep` | app/api/endpoints/elasticsearch.py:121-182 | a hit that ends the request is either a 500 whose detail starts with the KPI-extraction prefix or a TypeError; a kept hit has truthy content and its own title |
| `EsEndpoints.FilterHit` | app/api/endpoints/elasticsearch.py:121-182 | one hit: skipped on empty content or an unparsable reply, a 500 on a generation error, TypeError on a missing KPI, its entry when all eight checks pass, skipped otherwise |
| `EsEndpoints.CollectNext` | app/api/endpoints/elasticsearch.py:121-182 | one more hit leaves the results alone when skipped, appends its entry when kept, and otherwise decides the response |
| `EsEndpoints.FailurePersists` | app/api/endpoints/elasticsearch.py:135-136 | once a hit ends the request, later hits change nothing |
| `EsEndpoints.CollectKeeps` | app/api/endpoints/elasticsearch.py:120-183 | a completed loop returns the kept entries in step order, every kept step included |
| `EsEndpoints.CollectAborts` | app/api/endpoints/elasticsearch.py:120-183 | the loop completes iff no step aborts; otherwise it answers as the first aborting step |
| `EsEndpoints.PostFilterResults` | app/api/endpoints/elasticsearch.py:120-183 | a completed post-filter returns the entries of the kept hits in hit order, all of them |
| `EsEndpoints.PostFilterAborts` | app/api/endpoints/elasticsearch.py:131-140 | the post-filter ends early iff some hit ends the request, answering as the first one does |
| `EsEndpoints.PostFilterFailures` | app/api/endpoints/elasticsearch.py:131-176 | a post-filter failure is a 500 naming the generation error or a TypeError |
| `EsEndpoints.KeepIff` | app/api/endpoints/elasticsearch.py:122-183 | a hit is kept iff its content is truthy, the chat replies, and every non-None bound holds of the parsed KPIs; the entry is its title, content and KPIs |
| `EsEndpoints.NoBoundsPass` | app/api/endpoints/elasticsearch.py:142-176 | without bounds every check passes |
| `EsEndpoints.FilterDocuments` | app/api/endpoints/elasticsearch.py:65-190 | the endpoint returns what `FilterResponse` gives |
| `EsEndpoints.FilterResponse` | app/api/endpoints/elasticsearch.py:95-190 | 400 when every bound is falsy; 404 when there are no hits; a success has a truthy bound and at least one result; `FilterResponseMeaning` gives every case |
| `EsEndpoints.FilterResponseMeaning` | app/api/endpoints/elasticsearch.py:95-190 | 400 iff every bound is falsy; 404 on no hits; 404 when nothing passes; otherwise the post-filter's outcome |
| `EsEndpoints.ZeroBoundsRejected` | app/api/endpoints/elasticsearch.py:95-109 | eight 0.0 bounds are rejected with 400 although they make eight range filters |
| `EsEndpoints.SemanticSearch` | app/api/endpoints/elasticsearch.py:193-335 | the endpoint returns what `SemanticResponse` gives |
| `EsEndpoints.SemanticResponse` | app/api/endpoints/elasticsearch.py:225-335 | 400 when neither the query nor any bound is truthy; 404 when there are no hits; a success has one of them truthy and at least one result; `SemanticResponseMeaning` gives every case |
| `EsEndpoints.SemanticResponseMeaning` | app/api/endpoints/elasticsearch.py:225-335 | 400 iff no truthy query and no truthy bound; the body never has a filter and is a cosine script score iff the query is truthy; then the same 404/post-filter answers |
| `EsEndpoints.QueryOnlyKeepsAnswered` | app/api/endpoints/elasticsearch.py:287-321 | with no bounds every answered hit with content is kept |
| `EsEndpoints.RespondTo` | app/api/endpoints/elasticsearch.py:259-335 | the shared tail returns what `Respond` gives |
| `LlmEndpoints.DocumentSummary` | app/api/endpoints/llm.py:47-54 | a returned document has the six keys, each read with `get` |
| `LlmEndpoints.QueryBlocks` | app/api/endpoints/llm.py:31-36 | one block per hit, numbered from 1 in hit order |
| `LlmEndpoints.QueryDocuments` | app/api/endpoints/llm.py:9-57 | the only uncaught error is a KeyError; an answer carries the query and one document per hit; `QueryDocumentsMeaning` gives every case |
| `LlmEndpoints.QueryDocumentsMeaning` | app/api/endpoints/llm.py:14-57 | 404 iff no hits; KeyError iff some hit lacks content; a chat failure is a 500 with the error's text; otherwise the reply and the hits' summaries in order |
| `LlmEndpoints.QueryBlockNumbered` | app/api/endpoints/llm.py:31-36 | block i starts "Document i+1:" and the content, and the number reads back as i+1 |
| `LlmEndpoints.CandidatesMeaning` | app/api/endpoints/llm.py:94-98 | one candidate per hit, each with final score exactly 0.7·relevance + 0.3·numerical |
| `LlmEndpoints.CandidatesFailPersist` | app/api/endpoints/llm.py:94-98 | once a score raises, ranking fails |
| `LlmEndpoints.RankCandidates` | app/api/endpoints/llm.py:94-98 | the loop builds exactly the candidate list |
| `LlmEndpoints.SortRanked` | app/api/endpoints/llm.py:100 | the in-place sort leaves a permutation ordered by final score descending, ties in hit order |
| `LlmEndpoints.Insert` | app/api/endpoints/llm.py:100 | one insertion step extends the sorted prefix and keeps the multiset |
| `LlmEndpoints.Swap` | app/api/endpoints/llm.py:100 | a swap keeps the multiset |
| `LlmEndpoints.RankedBlocks` | app/api/endpoints/llm.py:102-105 | one block per ranked entry, numbered from 1 in ranked order |
| `LlmEndpoints.QueryNumericDocuments` | app/api/endpoints/llm.py:60-124 | 400 unless both bounds are given; 404 on no hits; a TypeError when a score raises; otherwise the candidates are sorted (a ranked permutation) and cut to `limit`, a KeyError when a kept document lacks content, an uncaught failure with the generation error's text when the chat fails, and else the query, the reply to the numbered context and the kept candidates' entries |
| `LlmEndpoints.RankedEntry` | app/api/endpoints/llm.py:111-123 | an entry has the six document fields read with `get` and the candidate's relevance and numerical scores, and no other key |
| `LlmEndpoints.CandidatesDistinct` | app/api/endpoints/llm.py:94-98 | no two different candidates of a search share a hit position |
| `LlmEndpoints.RankedUnique` | app/api/endpoints/llm.py:100 | two ranked arrangements of the same candidates with distinct positions are equal |
| `LlmEndpoints.NumericRankingDetermined` | app/api/endpoints/llm.py:94-100 | every ranked permutation of a search's candidates is the same list, so the sorted order the endpoint reports is the one the stable sort produces |
| `LlmEndpoints.TargetScoresRevenueOnly` | app/api/endpoints/llm.py:91-96 | the midpoint target makes the numerical score the revenue term alone, 0 without revenue |
| `LlmEndpoints.MidpointExample` | app/api/endpoints/llm.py:92-97 | bounds 100 and 300 with revenue 200 give numerical 1.0, and relevance 2.0 gives final 1.7 |
| `RequestSchemas.SemanticValidatorMeaning` | app/schemas/requests/semantic_search.py:30-47 | raises iff the query and all eight bounds are missing or None; otherwise returns the values unchanged |
| `RequestSchemas.EmptyQueryOrZeroBoundAccepted` | app/schemas/requests/semantic_search.py:32-33 | an empty query or a 0.0 bound alone is accepted |
| `RequestSchemas.SemanticLimitIgnored` | app/schemas/requests/semantic_search.py:28-44 | the limit does not decide acceptance |
| `RequestSchemas.FilterValidatorMeaning` | app/schemas/requests/efilter.py:29-45 | raises iff all eight bounds are None, ignores the limit, and otherwise returns the data unchanged |
| `RequestSchemas.ZeroBoundPassesSchemaOnly` | app/schemas/requests/efilter.py:31-33 | a lone 0.0 bound passes the schema although the endpoints count it as absent |
| `Strings.StripShape` | app/controllers/documents.py:21 | `strip` removes exactly the leading and trailing whitespace |
| `Strings.StripIdempotent` | app/controllers/documents.py:21 | stripping twice equals stripping once |
| `Strings.SplitPieces` | app/integrations/llm.py:49 | no piece of a split contains the separator, and there is more than one piece iff the separator occurs |
| `Strings.JoinSplit` | app/integrations/llm.py:49 | joining the pieces of a split gives back the text |
| `Strings.SplitJoin` | app/controllers/documents.py:28 | splitting a join of separator-free pieces gives back the pieces |
| `Strings.AfterLastSuffix` | app/integrations/llm.py:56 | `split(":")[-1]` is the suffix after the last separator |
| `Strings.RemoveAllSpec` | app/integrations/llm.py:56 | `replace(c, "")` leaves no `c` and changes nothing without one |
| `Strings.LowerIdempotent` | app/integrations/llm.py:51 | lower-casing twice equals once |
| `Strings.PySlice` | app/api/endpoints/llm.py:104 | `xs[:n]` is the prefix of length min(n, len) for n ≥ 0, and drops -n elements from the end for n < 0 |
| `PyFloat.FloatOfDecimal` | app/integrations/llm.py:55-57 | float() of "a.b" is the decimal value |
| `PyFloat.FloatOfDigits` | app/integrations/llm.py:55-57 | float() of a digit string is its integer value |
| `PyFloat.FloatIgnoresSurroundingSpace` | app/integrations/llm.py:55-57 | float() ignores surrounding whitespace |
| `PyFloat.RenderValue` | app/api/endpoints/llm.py:32 | the decimal text of n reads back as n |
| `Dates.ParseIsoFormat` | app/controllers/elasticsearch.py:34 | `strptime("%Y-%m-%d")` of the ISO text of a valid date gives the date back |
| `Dates.ParseDate` | app/controllers/documents.py:24 | a parsed date is a valid calendar date |

## Left out

- The Elasticsearch client, the OpenAI client, the SentenceTransformer model and the database.
  These are oracle parameters. Index creation at import time, `app/integrations/es.py`, the
  repositories and base controller, sessions, the server, config, routing, the factory and the
  migrations are not part of this model.
- `/esearch` (app/api/endpoints/elasticsearch.py:36-62). It builds the same multi-match body
  and mapping as `search_elasticsearch`, so `EsController.SearchElasticsearch` stands for both.
- `/health-check`: a status passthrough of the cluster.
- Async execution and concurrency. Each endpoint is one sequential run, and nothing is modelled
  about reindexing racing a search.
- The response schemas, and the pydantic wiring of the validators.
  - The efilter root validator (efilter.py:47-49) hands a dictionary to a helper that reads
    attributes. Reading `data.min_revenue` on a dictionary raises AttributeError on every
    request, which pydantic does not turn into a validation error.
    `RequestSchemas.AtLeastOneFieldProvided` models the helper alone, on a record, and so does
    `RequestSchemas.FilterValidatorMeaning`.
- IEEE floating point. Numbers are `real`.
  - `float()` accepts only an optional sign, then digits with an optional decimal point,
    surrounded by whitespace.
  - Exponents, "inf"/"nan", underscores and non-ASCII digits are rejected, where Python
    would accept them.
  - The extraction patterns' `\d` and the `%Y`, `%m` and `%d` fields of `strptime`
    (`Dates.ParseDate`) accept ASCII digits only, where Python's `re` and `_strptime` on a
    string also accept other Unicode decimal digits.
  - `lower()` is ASCII-only, and `isspace` covers the ASCII and common Unicode spaces.
- Python's `str` of non-string values (numbers, dictionaries in error messages) is the `render`
  oracle. The `print` inside `extract_metrics` is dropped.
- LlmIntegration.ApplyNumericFilters is modelled on tuples whose document is a KPI record. The
  KeyError of a document dictionary lacking a KPI key, and comparisons of values that are not
  numbers, are not modelled.
- LlmIntegration.ComputeNumericalScore models a bool operand as 0 or 1. Any other non-number
  operand is a TypeError. A user-supplied weights dictionary is its list of items in insertion
  order.
- Python's stable `list.sort(reverse=True)` is modelled as a sort by final score descending,
  with ties broken by hit position. This is the order the stable sort produces.
  LlmEndpoints.SortRanked sorts by insertion sort in place, not by Timsort.
- LlmEndpoints.QueryNumericDocuments returns the sorted candidates only as a ghost output.
  Its contract states that they are a ranked permutation; `LlmEndpoints.NumericRankingDetermined`
  shows that only one such list exists.
- DocumentRecords.TopicsField fails on a topics dictionary, because values have no dictionary
  variant. Python's `",".join` would join the dictionary's keys (app/controllers/documents.py:28).
- The search oracle always answers. An error raised by `es.search`, such as a search after
  the reindex's 404 path dropped the index (app/api/endpoints/elasticsearch.py:25-31), is not
  modelled.
- The document id is the row's string primary key. It is used unchanged as both the index's
  `_id` and the stored `document_id`.
- SQLAlchemy's date column and Elasticsearch's date storage. A reindexed date is its ISO
  text.
