/** The record side of the document controller: `clean_and_preprocess_data`, which turns raw
    JSON items into the dictionaries stored in the database, and `add_metrics_to_documents`,
    which merges the extracted metrics into those dictionaries in place. */
module DocumentRecords {
  import opened Wrappers
  import opened Strings
  import opened Dates
  import opened Kpi
  import opened Values
  import opened Documents

  /** The keys of a processed document, in the order the source builds them. */
  const ProcessedKeys: seq<string> := ["document_id", "title", "company", "date", "topics", "content", "conclusion"]

  /** `item.get(key, "").strip()`: a missing key reads as the empty string; anything but a
      string has no `strip` and raises. */
  function TextField(item: Dict, key: string): Option<string> {
    match Lookup(item, key, Str(""))
    case Str(s) => Some(Strip(s))
    case _ => None
  }

  /** The strings of a list, or None when some element is not a string (`join` raises
      TypeError). */
  function TextItems(items: seq<Value>): (r: Option<seq<string>>)
    ensures r.Some? ==> |r.value| == |items|
  {
    if items == [] then Some([])
    else if !items[0].Str? then None
    else match TextItems(items[1..])
      case None => None
      case Some(rest) => Some([items[0].s] + rest)
  }

  /** The one-character strings of `s`, which is what iterating over a string yields. */
  function Chars(s: string): (r: seq<string>)
    ensures |r| == |s|
  {
    if s == [] then [] else [[s[0]]] + Chars(s[1..])
  }

  /** `",".join(item.get("topics", []))`: a list of strings, or a string (joined character by
      character); anything else raises. */
  function TopicsField(item: Dict): Option<string> {
    match Lookup(item, "topics", List([]))
    case List(items) =>
      (match TextItems(items)
       case None => None
       case Some(parts) => Some(Join(parts, ",")))
    case Str(s) => Some(Join(Chars(s), ","))
    case _ => None
  }

  /** `strptime(item.get("date", ""), "%Y-%m-%d") if item.get("date") else None`. The outer
      None is a raised error; Some(Null) is a falsy date. */
  function DateField(item: Dict): Option<Value> {
    var v := Lookup(item, "date", Null);
    if !Truthy(v) then Some(Null)
    else if !v.Str? then None
    else match ParseDate(v.s)
      case None => None
      case Some(d) => Some(DateVal(d))
  }

  /** Why one item could not be processed: the item and the first field (in the order the
      dictionary literal evaluates them) whose conversion raised. */
  datatype ItemError = ItemError(item: Dict, field: string)

  /** The dictionary built for one raw item, or the field that raised. */
  function CleanItem(item: Dict): Result<Dict, string> {
    var title := TextField(item, "title");
    var company := TextField(item, "company");
    var date := DateField(item);
    var topics := TopicsField(item);
    var content := TextField(item, "content");
    var conclusion := TextField(item, "conclusion");
    if title.None? then Failure("title")
    else if company.None? then Failure("company")
    else if date.None? then Failure("date")
    else if topics.None? then Failure("topics")
    else if content.None? then Failure("content")
    else if conclusion.None? then Failure("conclusion")
    else Success(map["document_id" := Lookup(item, "document_id", Null),
                     "title" := Str(title.value), "company" := Str(company.value),
                     "date" := date.value, "topics" := Str(topics.value),
                     "content" := Str(content.value), "conclusion" := Str(conclusion.value)])
  }

  /** clean_and_preprocess_data: process the items in order and stop at the first one that
      raises, reporting it as the ValueError of the whole batch. */
  method CleanAndPreprocessData(raw: seq<Dict>) returns (r: Result<seq<Dict>, ItemError>)
    ensures r.Success? <==> forall i :: 0 <= i < |raw| ==> CleanItem(raw[i]).Success?
    ensures r.Success? ==>
      |r.value| == |raw| && forall i :: 0 <= i < |raw| ==> CleanItem(raw[i]) == Success(r.value[i])
    ensures r.Failure? ==>
      exists i :: 0 <= i < |raw| && CleanItem(raw[i]).Failure? &&
        (forall j :: 0 <= j < i ==> CleanItem(raw[j]).Success?) &&
        r.error == ItemError(raw[i], CleanItem(raw[i]).error)
  {
    var processed: seq<Dict> := [];
    var i := 0;
    while i < |raw|
      invariant 0 <= i <= |raw| && |processed| == i
      invariant forall j :: 0 <= j < i ==> CleanItem(raw[j]) == Success(processed[j])
    {
      var d := CleanItem(raw[i]);
      if d.Failure? {
        return Failure(ItemError(raw[i], d.error));
      }
      processed := processed + [d.value];
      i := i + 1;
    }
    return Success(processed);
  }

  // ---------------------------------------------------------------------------------------
  // What a processed dictionary holds.
  // ---------------------------------------------------------------------------------------

  /** A processed dictionary has exactly the seven keys; the four text fields hold the raw
      text with surrounding whitespace stripped, so stripping them again changes nothing. */
  lemma ProcessedShape(item: Dict)
    requires CleanItem(item).Success?
    ensures var d := CleanItem(item).value;
      d.Keys == set k | k in ProcessedKeys &&
      d["document_id"] == Lookup(item, "document_id", Null) &&
      (forall key | key in ["title", "company", "content", "conclusion"] ::
         d[key].Str? && TextField(item, key) == Some(d[key].s) && Strip(d[key].s) == d[key].s)
  {
    var d := CleanItem(item).value;
    forall key | key in ["title", "company", "content", "conclusion"]
      ensures d[key].Str? && TextField(item, key) == Some(d[key].s) && Strip(d[key].s) == d[key].s
    {
      var v := Lookup(item, key, Str(""));
      StripIdempotent(v.s);
    }
    assert d.Keys == set k | k in ProcessedKeys;
  }

  /** A text field that is missing from the raw item, or already without surrounding
      whitespace, comes out as it went in (missing meaning empty). */
  lemma TextFieldDefault(item: Dict, key: string)
    requires key !in item || (item[key].Str? && Strip(item[key].s) == item[key].s)
    ensures TextField(item, key) == Some(if key in item then item[key].s else "")
  {
  }

  /** A topics list of strings without commas is joined with "," so that splitting the stored
      text at "," gives the list back. */
  lemma TopicsRoundTrip(item: Dict, topics: seq<string>)
    requires "topics" in item && item["topics"] == List(seq(|topics|, i requires 0 <= i < |topics| => Str(topics[i])))
    requires |topics| >= 1 && forall k :: 0 <= k < |topics| ==> ',' !in topics[k]
    ensures TopicsField(item) == Some(Join(topics, ","))
    ensures Split(TopicsField(item).value, ',') == topics
  {
    TextItemsOf(topics);
    SplitJoin(topics, ',');
  }

  lemma {:induction false} TextItemsOf(topics: seq<string>)
    ensures TextItems(seq(|topics|, i requires 0 <= i < |topics| => Str(topics[i]))) == Some(topics)
  {
    var vs := seq(|topics|, i requires 0 <= i < |topics| => Str(topics[i]));
    if topics != [] {
      TextItemsOf(topics[1..]);
      assert vs[1..] == seq(|topics[1..]|, i requires 0 <= i < |topics[1..]| => Str(topics[1..][i]));
      assert [topics[0]] + topics[1..] == topics;
    }
  }

  /** A list element that is not a string makes the topics conversion raise. */
  lemma {:induction false} TextItemsRejects(items: seq<Value>, k: nat)
    requires k < |items| && !items[k].Str?
    ensures TextItems(items) == None
  {
    if k > 0 {
      TextItemsRejects(items[1..], k - 1);
    }
  }

  /** A date is stored iff the raw date is a non-empty string that strptime accepts; a
      missing or falsy raw date is stored as None, and an ISO date reads back as itself. */
  lemma DateFieldMeaning(item: Dict)
    ensures DateField(item) == Some(Null) <==> !Truthy(Lookup(item, "date", Null))
    ensures (exists d :: DateField(item) == Some(DateVal(d))) <==>
      "date" in item && item["date"].Str? && item["date"].s != [] && ParseDate(item["date"].s).Some?
    ensures forall d :: DateField(item) == Some(DateVal(d)) ==> ValidDate(d)
  {
    if "date" in item && item["date"].Str? && item["date"].s != [] && ParseDate(item["date"].s).Some? {
      assert DateField(item) == Some(DateVal(ParseDate(item["date"].s).value));
    }
  }

  lemma DateFieldIso(item: Dict, d: Date)
    requires ValidDate(d) && "date" in item && item["date"] == Str(IsoFormat(d))
    ensures DateField(item) == Some(DateVal(d))
  {
    ParseIsoFormat(d);
  }

  /** The first field that raises decides the reported error in literal order: a bad title is
      reported even when every other field is bad too. */
  lemma CleanItemFailsOnBadText(item: Dict, key: string)
    requires key in ["title", "company", "content", "conclusion"]
    requires key in item && !item[key].Str?
    ensures CleanItem(item).Failure?
    ensures key == "title" ==> CleanItem(item).error == "title"
  {
  }

  // ---------------------------------------------------------------------------------------
  // add_metrics_to_documents
  // ---------------------------------------------------------------------------------------

  /** A dictionary the caller holds and the method updates in place. */
  class Record {
    var fields: Dict

    constructor (fields: Dict)
      ensures this.fields == fields
    {
      this.fields := fields;
    }
  }

  /** The names of the four metric keys. */
  const MetricKeys: set<string> := {"revenue", "net_profit", "revenue_growth_rate", "operational_cost_reduction"}

  /** The four metric entries that `doc.update(metrics)` merges in. */
  function MetricFields(k: Kpis): (m: Dict)
    ensures m.Keys == MetricKeys
  {
    map["revenue" := OfOption(k.revenue), "net_profit" := OfOption(k.netProfit),
        "revenue_growth_rate" := OfOption(k.revenueGrowthRate),
        "operational_cost_reduction" := OfOption(k.operationalCostReduction)]
  }

  /** Each metric entry holds its KPI, None as None. */
  lemma MetricFieldsAt(k: Kpis, key: KpiKey)
    ensures KeyName(key) in MetricKeys && MetricFields(k)[KeyName(key)] == OfOption(Get(k, key))
  {
  }

  /** A dictionary after `add_metrics_to_documents` has seen it once. */
  function Enriched(f: Dict): Dict {
    if "content" in f then f + MetricFields(ContentMetrics(f["content"])) else f
  }

  /** Enrichment keeps every other key, sets exactly the four metric keys from the content,
      and leaves a dictionary without content alone. */
  lemma EnrichedMeaning(f: Dict)
    ensures "content" !in f ==> Enriched(f) == f
    ensures "content" in f ==>
      Enriched(f).Keys == f.Keys + MetricKeys &&
      Enriched(f)["content"] == f["content"] &&
      (forall key :: Enriched(f)[KeyName(key)] == OfOption(Get(ContentMetrics(f["content"]), key))) &&
      (forall k | k in f && k !in MetricKeys :: Enriched(f)[k] == f[k])
  {
    if "content" in f {
      forall key ensures Enriched(f)[KeyName(key)] == OfOption(Get(ContentMetrics(f["content"]), key)) {
        MetricFieldsAt(ContentMetrics(f["content"]), key);
      }
    }
  }

  /** Enriching twice is enriching once: the content, which decides the metrics, is never a
      metric key. */
  lemma EnrichedIdempotent(f: Dict)
    ensures Enriched(Enriched(f)) == Enriched(f)
  {
    if "content" in f {
      var m := MetricFields(ContentMetrics(f["content"]));
      assert "content" !in MetricKeys;
      assert (f + m)["content"] == f["content"];
      assert (f + m) + m == f + m;
    }
  }

  /** One iteration of add_metrics_to_documents on a dictionary that may already have been
      enriched (when the list holds it twice). */
  lemma UpdateStep(before: Dict, now: Dict)
    requires now == before || now == Enriched(before)
    ensures Enriched(now) == Enriched(before)
  {
    EnrichedIdempotent(before);
  }

  /** add_metrics_to_documents: every dictionary of the list that holds "content" is updated in
      place with the metrics of that content; the same list comes back. A dictionary listed
      twice is updated twice, which by idempotence is the same as once. */
  method AddMetricsToDocuments(documents: seq<Record>) returns (result: seq<Record>)
    modifies set r | r in documents
    ensures result == documents
    ensures forall r | r in documents :: r.fields == Enriched(old(r.fields))
  {
    var i := 0;
    while i < |documents|
      invariant 0 <= i <= |documents|
      invariant forall r | r in documents :: r.fields == old(r.fields) || r.fields == Enriched(old(r.fields))
      invariant forall j :: 0 <= j < i ==> documents[j].fields == Enriched(old(documents[j].fields))
    {
      var doc := documents[i];
      ghost var before := doc.fields;
      AddMetrics(doc);
      UpdateStep(old(doc.fields), before);
      i := i + 1;
    }
    return documents;
  }

  /** The body of the loop for one dictionary: when it holds "content", the metrics of that
      content are merged into it. */
  method AddMetrics(doc: Record)
    modifies doc
    ensures doc.fields == Enriched(old(doc.fields))
  {
    if "content" in doc.fields {
      var metrics := ExtractMetrics(doc.fields["content"]);
      doc.fields := doc.fields + MetricFields(metrics);
    }
  }

  /** A processed dictionary always holds "content", so enrichment adds the four metrics of
      its stripped content and keeps the seven processed fields. */
  lemma ProcessedThenEnriched(item: Dict)
    requires CleanItem(item).Success?
    ensures "content" in CleanItem(item).value
    ensures Enriched(CleanItem(item).value).Keys == (set k | k in ProcessedKeys) + MetricKeys
    ensures forall key ::
      Enriched(CleanItem(item).value)[KeyName(key)] == OfOption(Get(Metrics(TextField(item, "content").value), key))
  {
    ProcessedShape(item);
    EnrichedMeaning(CleanItem(item).value);
  }
}
