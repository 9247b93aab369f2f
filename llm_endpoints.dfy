/** The question-answering endpoints: retrieval-augmented answers over keyword hits, and the
    hybrid ranking that mixes the engine's relevance with closeness to a revenue target. The
    search engine and the chat service are oracles; `render` is Python's `str` on values
    other than strings and None. */
module LlmEndpoints {
  import opened Wrappers
  import opened Strings
  import opened PyFloat
  import opened Kpi
  import opened Values
  import opened Http
  import opened EsController
  import opened LlmIntegration
  import opened LlmController

  const NoRelevantDocuments := "No relevant documents found."
  const MissingRevenueRange := "Both 'min_revenue' and 'max_revenue' must be provided."

  /** The six fields every returned document carries, each read with `get`. */
  function DocumentSummary(doc: Dict): (r: Dict)
    ensures r.Keys == EnrichedKeys
    ensures forall key | key in r :: r[key] == Lookup(doc, key, Null)
  {
    map["title" := Lookup(doc, "title", Null), "content" := Lookup(doc, "content", Null),
        "revenue" := Lookup(doc, "revenue", Null), "net_profit" := Lookup(doc, "net_profit", Null),
        "revenue_growth_rate" := Lookup(doc, "revenue_growth_rate", Null),
        "operational_cost_reduction" := Lookup(doc, "operational_cost_reduction", Null)]
  }

  /** True when every document has a "content" key, which `doc['content']` demands. */
  predicate AllHaveContent(docs: seq<Dict>) {
    forall i :: 0 <= i < |docs| ==> "content" in docs[i]
  }

  // ---------------------------------------------------------------------------------------
  // query_documents
  // ---------------------------------------------------------------------------------------

  /** The answer of a question: the query, the reply, and the retrieved documents. */
  datatype QueryAnswer = QueryAnswer(query: string, response: Option<string>, documents: seq<Dict>)

  /** The head of a context block: "Document n:" and the content on the next line. */
  function BlockHeader(n: nat, content: string): string {
    "Document " + Render(n) + ":\n" + content
  }

  /** One context block: the document's number, its content and its four KPI values. */
  function QueryBlock(n: nat, doc: Dict, render: Value -> string): string
    requires "content" in doc
  {
    BlockHeader(n, Text(doc["content"], render)) + MetricsLine(doc, render)
  }

  function MetricsLine(doc: Dict, render: Value -> string): string {
    "\nMetrics: Revenue: " + Text(Lookup(doc, "revenue", Null), render)
    + ", Net Profit: " + Text(Lookup(doc, "net_profit", Null), render)
    + ", Growth Rate: " + Text(Lookup(doc, "revenue_growth_rate", Null), render)
    + "%, Cost Reduction: " + Text(Lookup(doc, "operational_cost_reduction", Null), render) + "%"
  }

  /** The blocks of the documents, numbered from 1 in hit order. */
  function QueryBlocks(docs: seq<Dict>, render: Value -> string): (blocks: seq<string>)
    requires AllHaveContent(docs)
    ensures |blocks| == |docs|
    ensures forall i :: 0 <= i < |docs| ==> blocks[i] == QueryBlock(i + 1, docs[i], render)
  {
    seq(|docs|, i requires 0 <= i < |docs| => QueryBlock(i + 1, docs[i], render))
  }

  /** query_documents: a keyword search; no hit is a 404; a hit without content raises
      KeyError; a generation failure is a 500 whose detail is the error's text. */
  function QueryDocuments(query: string, limit: int, search: SearchBody -> seq<Hit>,
                          chat: Completion -> ChatReply, render: Value -> string): (r: Outcome<QueryAnswer>)
    ensures r.Crashed? ==> r.reason == "KeyError"
    ensures r.Ok? ==>
      r.value.query == query && |r.value.documents| == |search(MultiMatch(query, SearchFields, limit))|
  {
    var documents := HitSources(search(MultiMatch(query, SearchFields, limit)));
    if documents == [] then HttpError(404, NoRelevantDocuments)
    else if !AllHaveContent(documents) then Crashed("KeyError")
    else
      var context := Join(QueryBlocks(documents, render), "\n\n");
      match GenerateLlmResponse(chat, context, query)
      case Failure(e) => HttpError(500, e)
      case Success(reply) => Ok(QueryAnswer(query, reply, seq(|documents|, i requires 0 <= i < |documents| => DocumentSummary(documents[i]))))
  }

  /** The outcomes of a question, case by case: 404 iff no hit; a KeyError iff some hit lacks
      content; a 500 carrying the generation error otherwise when the chat fails; and an
      answer that returns the hits' summaries in hit order, whose context is the blocks
      numbered 1 to n joined by blank lines. */
  lemma QueryDocumentsMeaning(query: string, limit: int, search: SearchBody -> seq<Hit>,
                              chat: Completion -> ChatReply, render: Value -> string)
    ensures var hits := search(MultiMatch(query, SearchFields, limit));
      var r := QueryDocuments(query, limit, search, chat, render);
      (r == HttpError(404, NoRelevantDocuments) <==> hits == []) &&
      (hits != [] ==> (r == Crashed("KeyError") <==> exists i :: 0 <= i < |hits| && "content" !in hits[i].source))
    ensures var hits := search(MultiMatch(query, SearchFields, limit));
      var docs := HitSources(hits);
      var r := QueryDocuments(query, limit, search, chat, render);
      hits != [] && AllHaveContent(docs) ==>
        var context := Join(QueryBlocks(docs, render), "\n\n");
        (chat(Request(context, query)).ChatFailed? ==>
           r == HttpError(500, GenerationError + chat(Request(context, query)).reason)) &&
        (chat(Request(context, query)).Reply? ==>
           r.Ok? && r.value.query == query && r.value.response == chat(Request(context, query)).content &&
           |r.value.documents| == |hits| &&
           forall i :: 0 <= i < |hits| ==> r.value.documents[i] == DocumentSummary(hits[i].source))
  {
    var hits := search(MultiMatch(query, SearchFields, limit));
    var docs := HitSources(hits);
    if hits != [] && !AllHaveContent(docs) {
      var i :| 0 <= i < |docs| && "content" !in docs[i];
      assert "content" !in hits[i].source;
    }
  }

  /** Block i starts with its number, which reads back as i + 1, and then the content. */
  lemma QueryBlockNumbered(docs: seq<Dict>, render: Value -> string, i: int)
    requires AllHaveContent(docs) && 0 <= i < |docs|
    ensures var block := QueryBlocks(docs, render)[i];
      var number := Render(i + 1);
      StartsWith(block, "Document " + number + ":\n" + Text(docs[i]["content"], render)) &&
      DigitsValue(number) == i + 1
  {
    RenderValue(i + 1);
    var head := BlockHeader(i + 1, Text(docs[i]["content"], render));
    assert QueryBlocks(docs, render)[i] == head + MetricsLine(docs[i], render);
    assert (head + MetricsLine(docs[i], render))[..|head|] == head;
  }

  // ---------------------------------------------------------------------------------------
  // query_numeric_documents
  // ---------------------------------------------------------------------------------------

  /** A ranked candidate: `(final_score, relevance_score, numerical_score, doc)`, with the
      hit's position, which the stable sort falls back on for equal final scores. */
  datatype Candidate = Candidate(finalScore: real, relevance: real, numerical: real, doc: Dict, pos: nat)

  /** The final score: 70% relevance, 30% numerical closeness. */
  function FinalScore(relevance: real, numerical: real): real {
    0.7 * relevance + 0.3 * numerical
  }

  /** The query target: only revenue, at the middle of the range. */
  function RevenueTarget(minRevenue: real, maxRevenue: real): Dict {
    map["revenue" := Number((minRevenue + maxRevenue) / 2.0)]
  }

  /** The candidates of the hits, in hit order, or None when a score raises. */
  function CandidatesOf(hits: seq<Hit>, target: Dict): Option<seq<Candidate>> {
    if hits == [] then Some([])
    else
      match CandidatesOf(hits[..|hits| - 1], target)
      case None => None
      case Some(cs) =>
        var h := hits[|hits| - 1];
        match ScoreOf(h.source, target, DefaultWeights)
        case None => None
        case Some(num) => Some(cs + [Candidate(FinalScore(h.score, num), h.score, num, h.source, |hits| - 1)])
  }

  /** Each candidate is its hit, at its position, with the weighted final score. */
  lemma {:induction false} CandidatesMeaning(hits: seq<Hit>, target: Dict)
    requires CandidatesOf(hits, target).Some?
    ensures var cs := CandidatesOf(hits, target).value;
      |cs| == |hits| &&
      forall i :: 0 <= i < |hits| ==>
        cs[i].pos == i && cs[i].doc == hits[i].source && cs[i].relevance == hits[i].score &&
        ScoreOf(hits[i].source, target, DefaultWeights) == Some(cs[i].numerical) &&
        cs[i].finalScore == 0.7 * cs[i].relevance + 0.3 * cs[i].numerical
  {
    if hits != [] {
      var init := hits[..|hits| - 1];
      CandidatesMeaning(init, target);
      assert forall i :: 0 <= i < |init| ==> init[i] == hits[i];
    }
  }

  lemma {:induction false} CandidatesFailPersist(hits: seq<Hit>, target: Dict, n: nat)
    requires n <= |hits| && CandidatesOf(hits[..n], target).None?
    ensures CandidatesOf(hits, target).None?
    decreases |hits| - n
  {
    if n < |hits| {
      assert hits[..n + 1][..n] == hits[..n];
      CandidatesFailPersist(hits, target, n + 1);
    } else {
      assert hits[..n] == hits;
    }
  }

  /** The loop that scores every hit. */
  method RankCandidates(hits: seq<Hit>, target: Dict) returns (cs: Option<seq<Candidate>>)
    ensures cs == CandidatesOf(hits, target)
  {
    var ranked := [];
    var i := 0;
    while i < |hits|
      invariant 0 <= i <= |hits|
      invariant CandidatesOf(hits[..i], target) == Some(ranked)
    {
      assert hits[..i + 1][..i] == hits[..i];
      var numericalScore := ComputeNumericalScore(hits[i].source, target, None);
      if numericalScore.None? {
        CandidatesFailPersist(hits, target, i + 1);
        return None;
      }
      var finalScore := 0.7 * hits[i].score + 0.3 * numericalScore.value;
      ranked := ranked + [Candidate(finalScore, hits[i].score, numericalScore.value, hits[i].source, i)];
      i := i + 1;
    }
    assert hits[..i] == hits;
    return Some(ranked);
  }

  /** `x` goes before `y` in the sorted list: a higher final score, or the same final score
      and an earlier hit. */
  predicate Before(x: Candidate, y: Candidate) {
    x.finalScore > y.finalScore || (x.finalScore == y.finalScore && x.pos <= y.pos)
  }

  /** Sorted by final score, highest first, ties in hit order. */
  predicate RankedOrder(cs: seq<Candidate>) {
    forall i, j :: 0 <= i < j < |cs| ==> Before(cs[i], cs[j])
  }

  /** `ranked_documents.sort(key=lambda x: x[0], reverse=True)`, in place. Python's sort is
      stable, so candidates of equal final score keep their hit order. */
  method SortRanked(a: array<Candidate>)
    modifies a
    ensures RankedOrder(a[..])
    ensures multiset(a[..]) == multiset(old(a[..]))
  {
    var i := 0;
    while i < a.Length
      invariant 0 <= i <= a.Length
      invariant RankedOrder(a[..i])
      invariant multiset(a[..]) == multiset(old(a[..]))
    {
      Insert(a, i);
      i := i + 1;
    }
    assert a[..] == a[..a.Length];
  }

  /** Midway through inserting `s[j]`: the first `i + 1` candidates are ranked apart from
      the one at `j`, which goes before everything after it. */
  ghost predicate Inserting(s: seq<Candidate>, i: int, j: int) {
    0 <= j <= i < |s| &&
    (forall p, q :: 0 <= p < q <= i && p != j && q != j ==> Before(s[p], s[q])) &&
    (forall q :: j < q <= i ==> Before(s[j], s[q]))
  }

  function Swap(s: seq<Candidate>, j: int): (t: seq<Candidate>)
    requires 0 < j < |s|
    ensures |t| == |s| && multiset(t) == multiset(s)
  {
    s[j - 1 := s[j]][j := s[j - 1]]
  }

  lemma SwapStep(s: seq<Candidate>, i: int, j: int)
    requires Inserting(s, i, j) && j > 0 && !Before(s[j - 1], s[j])
    ensures Inserting(Swap(s, j), i, j - 1)
  {
  }

  lemma InsertDone(s: seq<Candidate>, i: int, j: int)
    requires Inserting(s, i, j) && (j == 0 || Before(s[j - 1], s[j]))
    ensures RankedOrder(s[..i + 1])
  {
  }

  /** Moves `a[i]` left past every candidate it goes before, so that `a[..i + 1]` is ranked. */
  method Insert(a: array<Candidate>, i: int)
    requires 0 <= i < a.Length && RankedOrder(a[..i])
    modifies a
    ensures RankedOrder(a[..i + 1])
    ensures multiset(a[..]) == multiset(old(a[..]))
  {
    var j := i;
    while j > 0 && !Before(a[j - 1], a[j])
      invariant Inserting(a[..], i, j)
      invariant multiset(a[..]) == multiset(old(a[..]))
    {
      SwapStep(a[..], i, j);
      ghost var t := Swap(a[..], j);
      a[j - 1], a[j] := a[j], a[j - 1];
      assert a[..] == t;
      j := j - 1;
    }
    InsertDone(a[..], i, j);
  }

  /** One ranked entry of the answer: the document's six fields read with `get`, and the two
      scores the candidate was ranked by. */
  function RankedEntry(c: Candidate): (e: Dict)
    ensures e.Keys == EnrichedKeys + {"relevance_score", "numerical_score"}
    ensures forall key | key in EnrichedKeys :: e[key] == Lookup(c.doc, key, Null)
    ensures e["relevance_score"] == Number(c.relevance) && e["numerical_score"] == Number(c.numerical)
  {
    DocumentSummary(c.doc)["relevance_score" := Number(c.relevance)]["numerical_score" := Number(c.numerical)]
  }

  /** The entries of the kept candidates, in ranked order. */
  function RankedEntries(top: seq<Candidate>): (entries: seq<Dict>)
    ensures |entries| == |top| && forall i :: 0 <= i < |top| ==> entries[i] == RankedEntry(top[i])
  {
    seq(|top|, i requires 0 <= i < |top| => RankedEntry(top[i]))
  }

  /** The numbered block of one ranked document in the context. */
  function RankedBlock(n: nat, doc: Dict, render: Value -> string): string
    requires "content" in doc
  {
    BlockHeader(n, Text(doc["content"], render)) + "\n"
  }

  /** The documents of the candidates. */
  function Docs(cs: seq<Candidate>): (ds: seq<Dict>)
    ensures |ds| == |cs| && forall i :: 0 <= i < |cs| ==> ds[i] == cs[i].doc
  {
    seq(|cs|, i requires 0 <= i < |cs| => cs[i].doc)
  }

  /** The context blocks of the kept candidates, numbered from 1 in ranked order. */
  function RankedBlocks(top: seq<Candidate>, render: Value -> string): (blocks: seq<string>)
    requires AllHaveContent(Docs(top))
    ensures |blocks| == |top|
    ensures forall i :: 0 <= i < |top| ==> blocks[i] == RankedBlock(i + 1, top[i].doc, render)
  {
    seq(|top|, i requires 0 <= i < |top| => RankedBlock(i + 1, top[i].doc, render))
  }

  /** The answer of a numeric question: the query, the reply and the entries of the kept
      candidates. */
  datatype NumericAnswer = NumericAnswer(query: string, response: Option<string>, ranked: seq<Dict>)

  /** query_numeric_documents: both revenue bounds are required; no hit is a 404; otherwise
      the hits are scored against the midpoint of the range, sorted by final score, and the
      first `limit` go into the context and the answer. A score that raises, a kept document
      without content and a failed generation are not caught. */
  method QueryNumericDocuments(query: string, minRevenue: Option<real>, maxRevenue: Option<real>, limit: int,
                               search: SearchBody -> seq<Hit>, chat: Completion -> ChatReply,
                               render: Value -> string)
    returns (r: Outcome<NumericAnswer>, ghost sorted: seq<Candidate>)
    ensures minRevenue.None? || maxRevenue.None? ==> r == HttpError(400, MissingRevenueRange)
    ensures minRevenue.Some? && maxRevenue.Some? && search(MultiMatch(query, SearchFields, limit)) == [] ==>
      r == HttpError(404, NoRelevantDocuments)
    ensures minRevenue.Some? && maxRevenue.Some? ==>
      var hits := search(MultiMatch(query, SearchFields, limit));
      var cs := CandidatesOf(hits, RevenueTarget(minRevenue.value, maxRevenue.value));
      hits != [] && cs.None? ==> r == Crashed("TypeError")
    ensures minRevenue.Some? && maxRevenue.Some? ==>
      var hits := search(MultiMatch(query, SearchFields, limit));
      var cs := CandidatesOf(hits, RevenueTarget(minRevenue.value, maxRevenue.value));
      hits != [] && cs.Some? ==>
        multiset(sorted) == multiset(cs.value) && RankedOrder(sorted) &&
        var top := PySlice(sorted, limit);
        (!AllHaveContent(Docs(top)) ==> r == Crashed("KeyError")) &&
        (AllHaveContent(Docs(top)) ==>
           var reply := chat(Request(Join(RankedBlocks(top, render), "\n\n"), query));
           (reply.ChatFailed? ==> r == Crashed(GenerationError + reply.reason)) &&
           (reply.Reply? ==> r == Ok(NumericAnswer(query, reply.content, RankedEntries(top)))))
    ensures r.Ok? ==>
      minRevenue.Some? && maxRevenue.Some? &&
      var hits := search(MultiMatch(query, SearchFields, limit));
      var target := RevenueTarget(minRevenue.value, maxRevenue.value);
      CandidatesOf(hits, target).Some? &&
      multiset(sorted) == multiset(CandidatesOf(hits, target).value) && RankedOrder(sorted) &&
      var top := PySlice(sorted, limit);
      r.value.query == query && r.value.ranked == RankedEntries(top) && AllHaveContent(Docs(top)) &&
      var context := Join(RankedBlocks(top, render), "\n\n");
      chat(Request(context, query)).Reply? && r.value.response == chat(Request(context, query)).content
    ensures minRevenue.Some? && maxRevenue.Some? ==>
      var target := RevenueTarget(minRevenue.value, maxRevenue.value);
      CandidatesOf(search(MultiMatch(query, SearchFields, limit)), target).None? ==>
        r == Crashed("TypeError") || r == HttpError(404, NoRelevantDocuments)
  {
    sorted := [];
    if minRevenue.None? || maxRevenue.None? {
      return HttpError(400, MissingRevenueRange), sorted;
    }
    var hits := search(MultiMatch(query, SearchFields, limit));
    if hits == [] {
      return HttpError(404, NoRelevantDocuments), sorted;
    }
    var target := RevenueTarget(minRevenue.value, maxRevenue.value);
    var candidates := RankCandidates(hits, target);
    if candidates.None? {
      return Crashed("TypeError"), sorted;
    }
    var a := new Candidate[|candidates.value|](i requires 0 <= i < |candidates.value| => candidates.value[i]);
    assert a[..] == candidates.value;
    SortRanked(a);
    sorted := a[..];
    var top := PySlice(a[..], limit);
    if !AllHaveContent(Docs(top)) {
      return Crashed("KeyError"), sorted;
    }
    var context := Join(RankedBlocks(top, render), "\n\n");
    var reply := GenerateLlmResponse(chat, context, query);
    if reply.Failure? {
      return Crashed(reply.error), sorted;
    }
    r := Ok(NumericAnswer(query, reply.value, RankedEntries(top)));
  }

  /** No two different candidates share a position. */
  predicate DistinctPos(cs: seq<Candidate>) {
    forall x, y | x in cs && y in cs && x != y :: x.pos != y.pos
  }

  /** The candidates of a search carry distinct positions. */
  lemma CandidatesDistinct(hits: seq<Hit>, target: Dict)
    requires CandidatesOf(hits, target).Some?
    ensures DistinctPos(CandidatesOf(hits, target).value)
  {
    var cs := CandidatesOf(hits, target).value;
    CandidatesMeaning(hits, target);
    forall x, y | x in cs && y in cs && x != y
      ensures x.pos != y.pos
    {
      var i :| 0 <= i < |cs| && cs[i] == x;
      var j :| 0 <= j < |cs| && cs[j] == y;
    }
  }

  /** Every ranked arrangement of the candidates of a search is the same list: the sorted
      candidates of query_numeric_documents are a function of the hits and the target. */
  lemma NumericRankingDetermined(hits: seq<Hit>, target: Dict, s: seq<Candidate>, t: seq<Candidate>)
    requires CandidatesOf(hits, target).Some?
    requires multiset(s) == multiset(CandidatesOf(hits, target).value) == multiset(t)
    requires RankedOrder(s) && RankedOrder(t)
    ensures s == t
  {
    var cs := CandidatesOf(hits, target).value;
    CandidatesDistinct(hits, target);
    assert forall x :: x in s <==> x in multiset(cs) by {
      forall x ensures x in s <==> x in multiset(cs) {
        assert x in s <==> x in multiset(s);
      }
    }
    RankedUnique(s, t);
  }

  /** With distinct positions the ranked order is total, so there is only one ranked
      arrangement of a set of candidates: the sorted list the endpoint uses is determined by
      the hits, as Python's stable sort determines it. */
  lemma {:induction false} RankedUnique(s: seq<Candidate>, t: seq<Candidate>)
    requires multiset(s) == multiset(t) && DistinctPos(s)
    requires RankedOrder(s) && RankedOrder(t)
    ensures s == t
    decreases |s|
  {
    assert |s| == |multiset(s)| == |multiset(t)| == |t|;
    if s != [] {
      RankedHeads(s, t);
      assert multiset(s[1..]) == multiset(t[1..]) by {
        assert s == [s[0]] + s[1..] && t == [t[0]] + t[1..];
        assert multiset(s[1..]) == multiset(s) - multiset{s[0]};
        assert multiset(t[1..]) == multiset(t) - multiset{t[0]};
      }
      RankedTail(s);
      RankedTail(t);
      RankedUnique(s[1..], t[1..]);
      assert s == [s[0]] + s[1..] && t == [t[0]] + t[1..];
    }
  }

  /** Two ranked arrangements start with the same candidate. */
  lemma RankedHeads(s: seq<Candidate>, t: seq<Candidate>)
    requires s != [] && |t| == |s| && multiset(s) == multiset(t) && DistinctPos(s)
    requires RankedOrder(s) && RankedOrder(t)
    ensures s[0] == t[0]
  {
    assert t[0] in multiset(s) && s[0] in multiset(t);
    var k :| 0 <= k < |s| && s[k] == t[0];
    var m :| 0 <= m < |t| && t[m] == s[0];
    if s[0] != t[0] {
      assert false;
    }
  }

  /** Dropping the first candidate keeps a list ranked and its positions distinct. */
  lemma RankedTail(s: seq<Candidate>)
    requires s != [] && RankedOrder(s)
    ensures RankedOrder(s[1..])
    ensures DistinctPos(s) ==> DistinctPos(s[1..])
  {
    forall i, j | 0 <= i < j < |s[1..]|
      ensures Before(s[1..][i], s[1..][j])
    {
      assert s[1..][i] == s[i + 1] && s[1..][j] == s[j + 1];
    }
    assert forall x :: x in s[1..] ==> x in s;
  }

  /** Only revenue can count: the target names no other KPI, so a hit's closeness is that of
      its revenue, or 0 when it has none. */
  lemma TargetScoresRevenueOnly(doc: Dict, lo: real, hi: real)
    ensures var target := RevenueTarget(lo, hi);
      var t := (lo + hi) / 2.0;
      (Lookup(doc, "revenue", Null) == Null ==> ScoreOf(doc, target, DefaultWeights) == Some(0.0)) &&
      (Lookup(doc, "revenue", Null).Number? ==>
         ScoreOf(doc, target, DefaultWeights) == Some(Closeness(1.0, t, Lookup(doc, "revenue", Null).n)))
  {
    var target := RevenueTarget(lo, hi);
    var w := DefaultWeights;
    assert w[..1][..0] == [];
    assert w[..2][..1] == w[..1];
    assert w[..3][..2] == w[..2];
    assert w[..4][..3] == w[..3];
    assert w[..4] == w;
    assert Lookup(target, "net_profit", Null) == Null;
    assert Lookup(target, "revenue_growth_rate", Null) == Null;
    assert Lookup(target, "operational_cost_reduction", Null) == Null;
    assert w[..1][0] == ("revenue", 1.0);
    if Lookup(doc, "revenue", Null) == Null {
      assert Contribution(1.0, Lookup(target, "revenue", Null), Lookup(doc, "revenue", Null)) == Some(0.0);
      assert ScoreOf(doc, target, w[..1]) == Some(0.0);
    }
    assert ScoreOf(doc, target, w[..2]) == ScoreOf(doc, target, w[..1]);
    assert ScoreOf(doc, target, w[..3]) == ScoreOf(doc, target, w[..2]);
    assert ScoreOf(doc, target, w[..4]) == ScoreOf(doc, target, w[..3]);
  }

  /** Bounds 100 and 300 put the target at 200; a hit with revenue 200 and relevance 2.0
      scores 1.0 and ranks at 1.7. */
  lemma MidpointExample(doc: Dict)
    requires "revenue" in doc && doc["revenue"] == Number(200.0)
    ensures ScoreOf(doc, RevenueTarget(100.0, 300.0), DefaultWeights) == Some(1.0)
    ensures FinalScore(2.0, 1.0) == 1.7
  {
    TargetScoresRevenueOnly(doc, 100.0, 300.0);
  }
}
