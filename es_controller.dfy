/** The search controller: the bulk-index actions built from database rows, the range filters
    built from the eight optional bounds, and the hit-to-source mapping of a search. The search
    engine itself is an index state and a search oracle; the sentence embedding is an
    uninterpreted function. */
module EsController {
  import opened Wrappers
  import opened Strings
  import opened Dates
  import opened Kpi
  import opened Values

  const IndexName := "documents"

  /** A row of the documents table: the identifier and nullable text and date columns. */
  datatype DocumentRow = DocumentRow(documentId: string, title: Option<string>, company: Option<string>,
                                     date: Option<CalendarDate>, topics: Option<string>,
                                     content: Option<string>, conclusion: Option<string>)

  /** How an f-string shows a nullable text column: None prints as "None". */
  function Show(o: Option<string>): string {
    if o.None? then "None" else o.value
  }

  function TextValue(o: Option<string>): Value {
    if o.None? then Null else Str(o.value)
  }

  function Numbers(xs: seq<real>): (vs: seq<Value>)
    ensures |vs| == |xs| && forall i :: 0 <= i < |xs| ==> vs[i] == Number(xs[i])
  {
    if xs == [] then [] else [Number(xs[0])] + Numbers(xs[1..])
  }

  // ---------------------------------------------------------------------------------------
  // index_documents_in_elasticsearch
  // ---------------------------------------------------------------------------------------

  /** One bulk action: `{"_index": ..., "_id": ..., "_source": {...}}`. */
  datatype Action = Action(index: string, id: string, source: Dict)

  /** The text whose embedding is stored: `f"{doc.title} {doc.content} {doc.conclusion}"`. */
  function EmbeddingText(doc: DocumentRow): string {
    Show(doc.title) + " " + Show(doc.content) + " " + Show(doc.conclusion)
  }

  /** The stored document: the row's columns, the date in ISO form, and the embedding. The
      KPI columns are not written. */
  function Source(doc: DocumentRow, embed: string -> seq<real>): Dict {
    map["document_id" := Str(doc.documentId), "title" := TextValue(doc.title),
        "company" := TextValue(doc.company),
        "date" := (if doc.date.Some? then Str(IsoFormat(doc.date.value)) else Null),
        "topics" := TextValue(doc.topics), "content" := TextValue(doc.content),
        "conclusion" := TextValue(doc.conclusion),
        "embedding" := List(Numbers(embed(EmbeddingText(doc))))]
  }

  function ActionOf(doc: DocumentRow, embed: string -> seq<real>): Action {
    Action(IndexName, doc.documentId, Source(doc, embed))
  }

  /** The action list of index_documents_in_elasticsearch, one per row in row order. */
  function IndexActions(docs: seq<DocumentRow>, embed: string -> seq<real>): (actions: seq<Action>)
    ensures |actions| == |docs|
    ensures forall i :: 0 <= i < |docs| ==> actions[i] == ActionOf(docs[i], embed)
    ensures forall i :: 0 <= i < |docs| ==> actions[i].id == docs[i].documentId
  {
    if docs == [] then [] else [ActionOf(docs[0], embed)] + IndexActions(docs[1..], embed)
  }

  const SourceKeys: set<string> := {"document_id", "title", "company", "date", "topics", "content", "conclusion", "embedding"}

  /** Every action goes to the documents index under the row's identifier, which the source
      repeats; the stored date reads back as the row's date; the embedding is that of the
      title, content and conclusion joined by spaces; and no KPI is stored. */
  lemma ActionMeaning(doc: DocumentRow, embed: string -> seq<real>)
    ensures var a := ActionOf(doc, embed);
      a.index == IndexName && a.source.Keys == SourceKeys &&
      a.source["document_id"] == Str(a.id) && a.id == doc.documentId &&
      a.source["content"] == TextValue(doc.content) &&
      a.source["embedding"] == List(Numbers(embed(EmbeddingText(doc)))) &&
      (doc.date.None? <==> a.source["date"] == Null) &&
      (doc.date.Some? ==> a.source["date"].Str? && ParseDate(a.source["date"].s) == Some(doc.date.value)) &&
      forall key: KpiKey :: KeyName(key) !in a.source
  {
    if doc.date.Some? {
      ParseIsoFormat(doc.date.value);
    }
    var a := ActionOf(doc, embed);
    assert a.source.Keys == SourceKeys;
    forall key: KpiKey ensures KeyName(key) !in SourceKeys {
      assert KeyName(key) in {"revenue", "net_profit", "revenue_growth_rate", "operational_cost_reduction"};
    }
  }

  /** A missing column shows as "None" in the embedded text. */
  lemma EmbeddingOfMissingTitle(doc: DocumentRow)
    requires doc.title.None?
    ensures EmbeddingText(doc)[..5] == "None "
  {
  }

  /** The search engine's index: whether it exists and the stored sources by identifier. */
  class SearchIndex {
    var present: bool
    var docs: map<string, Dict>

    /** A missing index holds nothing. */
    predicate Valid()
      reads this
    {
      !present ==> docs == map[]
    }

    constructor (present: bool, docs: map<string, Dict>)
      requires !present ==> docs == map[]
      ensures Valid() && this.present == present && this.docs == docs
    {
      this.present := present;
      this.docs := docs;
    }

    /** `es.indices.delete`: the index and everything in it are gone. */
    method Delete()
      modifies this
      ensures Valid() && !present && docs == map[]
    {
      present := false;
      docs := map[];
    }

    /** `bulk(es, actions)`: each action stores its source under its identifier, a later one
        replacing an earlier one with the same identifier; a missing index is created. */
    method Bulk(actions: seq<Action>)
      modifies this
      ensures present && docs == Stored(old(docs), actions)
    {
      var i := 0;
      while i < |actions|
        invariant 0 <= i <= |actions|
        invariant docs == Stored(old(docs), actions[..i])
      {
        assert actions[..i + 1][..i] == actions[..i];
        docs := docs[actions[i].id := actions[i].source];
        i := i + 1;
      }
      assert actions[..i] == actions;
      present := true;
    }

    /** index_documents_in_elasticsearch: build the actions and hand them to bulk. */
    method IndexDocuments(rows: seq<DocumentRow>, embed: string -> seq<real>)
      modifies this
      ensures present && docs == Stored(old(docs), IndexActions(rows, embed))
    {
      var actions := IndexActions(rows, embed);
      Bulk(actions);
    }
  }

  /** The index contents after the actions, applied in order. */
  function Stored(m: map<string, Dict>, actions: seq<Action>): map<string, Dict> {
    if actions == [] then m
    else var last := actions[|actions| - 1];
      Stored(m, actions[..|actions| - 1])[last.id := last.source]
  }

  /** The identifiers the actions name. */
  function ActionIds(actions: seq<Action>): set<string> {
    set i | 0 <= i < |actions| :: actions[i].id
  }

  /** After the actions the index holds exactly the earlier entries plus one entry per
      identifier named. */
  lemma {:induction false} StoredKeys(m: map<string, Dict>, actions: seq<Action>)
    ensures Stored(m, actions).Keys == m.Keys + ActionIds(actions)
  {
    if actions != [] {
      var init := actions[..|actions| - 1];
      StoredKeys(m, init);
      forall x | x in ActionIds(actions)
        ensures x in ActionIds(init) + {actions[|actions| - 1].id}
      {
        var i :| 0 <= i < |actions| && actions[i].id == x;
        if i < |init| {
          assert init[i] == actions[i];
        }
      }
      forall x | x in ActionIds(init)
        ensures x in ActionIds(actions)
      {
        var i :| 0 <= i < |init| && init[i].id == x;
        assert actions[i] == init[i];
      }
    }
  }

  /** An identifier holds the source of its last action. */
  lemma {:induction false} StoredLast(m: map<string, Dict>, actions: seq<Action>, i: int)
    requires 0 <= i < |actions|
    requires forall j :: i < j < |actions| ==> actions[j].id != actions[i].id
    ensures actions[i].id in Stored(m, actions) && Stored(m, actions)[actions[i].id] == actions[i].source
  {
    var n := |actions| - 1;
    if i < n {
      var init := actions[..n];
      assert init[i] == actions[i];
      StoredLast(m, init, i);
    }
  }

  /** The identifiers of the rows. */
  function RowIds(rows: seq<DocumentRow>): set<string> {
    set i | 0 <= i < |rows| :: rows[i].documentId
  }

  /** The actions name exactly the rows' identifiers. */
  lemma ActionIdsOfRows(rows: seq<DocumentRow>, actions: seq<Action>)
    requires |actions| == |rows|
    requires forall i :: 0 <= i < |rows| ==> actions[i].id == rows[i].documentId
    ensures ActionIds(actions) == RowIds(rows)
  {
    forall x | x in ActionIds(actions)
      ensures x in RowIds(rows)
    {
      var i :| 0 <= i < |actions| && actions[i].id == x;
    }
    forall x | x in RowIds(rows)
      ensures x in ActionIds(actions)
    {
      var i :| 0 <= i < |rows| && rows[i].documentId == x;
    }
  }

  /** Rows indexed into an empty index leave exactly their identifiers. */
  lemma IndexedKeys(rows: seq<DocumentRow>, embed: string -> seq<real>)
    ensures Stored(map[], IndexActions(rows, embed)).Keys == RowIds(rows)
  {
    var actions := IndexActions(rows, embed);
    StoredKeys(map[], actions);
    ActionIdsOfRows(rows, actions);
  }

  /** Each identifier holds the source built from its row (the last one, if an identifier
      repeats). */
  lemma IndexedSource(rows: seq<DocumentRow>, embed: string -> seq<real>, i: int)
    requires 0 <= i < |rows|
    requires forall j :: i < j < |rows| ==> rows[j].documentId != rows[i].documentId
    ensures rows[i].documentId in Stored(map[], IndexActions(rows, embed))
    ensures Stored(map[], IndexActions(rows, embed))[rows[i].documentId] == Source(rows[i], embed)
  {
    var actions := IndexActions(rows, embed);
    assert forall j :: i < j < |rows| ==> actions[j].id == rows[j].documentId;
    StoredLast(map[], actions, i);
  }

  // ---------------------------------------------------------------------------------------
  // search_elasticsearch
  // ---------------------------------------------------------------------------------------

  /** One search hit: its stored source and its relevance score. */
  datatype Hit = Hit(source: Dict, score: real)

  /** `[hit["_source"] for hit in hits]` */
  function HitSources(hits: seq<Hit>): (r: seq<Dict>)
    ensures |r| == |hits| && forall i :: 0 <= i < |hits| ==> r[i] == hits[i].source
  {
    if hits == [] then [] else [hits[0].source] + HitSources(hits[1..])
  }

  /** The query bodies the core sends. A script-score query over an empty filter list runs
      over match_all. */
  datatype SearchBody =
    | MultiMatch(query: string, fields: seq<string>, size: int)
    | MatchAll(size: int)
    | ScriptScore(filters: seq<RangeFilter>, script: string, queryVector: seq<real>, size: int)
    | BoolFilter(filters: seq<RangeFilter>, size: int)

  /** The fields every keyword search looks in. */
  const SearchFields: seq<string> := ["title", "topics", "content", "conclusion"]

  /** search_elasticsearch: a keyword query over the four text fields, at most `limit` hits,
      returned as their sources in engine order. */
  function SearchElasticsearch(search: SearchBody -> seq<Hit>, query: string, limit: int): (r: seq<Dict>)
    ensures var hits := search(MultiMatch(query, SearchFields, limit));
      |r| == |hits| && forall i :: 0 <= i < |hits| ==> r[i] == hits[i].source
  {
    HitSources(search(MultiMatch(query, SearchFields, limit)))
  }

  // ---------------------------------------------------------------------------------------
  // create_filters
  // ---------------------------------------------------------------------------------------

  /** `{"range": {field: {"gte": v}}}` for a min slot, `{"lte": v}` for a max slot. */
  datatype RangeFilter = RangeFilter(slot: Slot, value: real) {
    function Field(): string { KeyName(slot.key) }
    function Op(): string { if slot.side == Min then "gte" else "lte" }
  }

  /** The filter one bound contributes: one when it is not None, even when it is 0.0. */
  function FilterFor(b: Bounds, s: Slot): seq<RangeFilter> {
    BoundFilter(BoundOf(b, s), s)
  }

  function BoundFilter(bound: Option<real>, s: Slot): seq<RangeFilter> {
    if bound.Some? then [RangeFilter(s, bound.value)] else []
  }

  /** The filters the slots contribute, in slot order. */
  function FiltersOf(b: Bounds, slots: seq<Slot>): seq<RangeFilter> {
    if slots == [] then [] else FiltersOf(b, slots[..|slots| - 1]) + FilterFor(b, slots[|slots| - 1])
  }

  /** The eight slots, by position. */
  lemma SlotOrderAt()
    ensures SlotOrder[0] == Slot(Revenue, Min) && SlotOrder[1] == Slot(Revenue, Max)
    ensures SlotOrder[2] == Slot(NetProfit, Min) && SlotOrder[3] == Slot(NetProfit, Max)
    ensures SlotOrder[4] == Slot(RevenueGrowthRate, Min) && SlotOrder[5] == Slot(RevenueGrowthRate, Max)
    ensures SlotOrder[6] == Slot(OperationalCostReduction, Min) && SlotOrder[7] == Slot(OperationalCostReduction, Max)
  {
  }

  /** The filters create_filters builds: the eight conditional appends in parameter order. */
  function CreatedFilters(b: Bounds): seq<RangeFilter> {
    BoundFilter(b.minRevenue, Slot(Revenue, Min)) +
    BoundFilter(b.maxRevenue, Slot(Revenue, Max)) +
    BoundFilter(b.minNetProfit, Slot(NetProfit, Min)) +
    BoundFilter(b.maxNetProfit, Slot(NetProfit, Max)) +
    BoundFilter(b.minRevenueGrowthRate, Slot(RevenueGrowthRate, Min)) +
    BoundFilter(b.maxRevenueGrowthRate, Slot(RevenueGrowthRate, Max)) +
    BoundFilter(b.minOperationalCostReduction, Slot(OperationalCostReduction, Min)) +
    BoundFilter(b.maxOperationalCostReduction, Slot(OperationalCostReduction, Max))
  }

  /** One more slot of a prefix adds that slot's filters at the end. */
  lemma FiltersPrefix(b: Bounds, o: seq<Slot>, n: nat)
    requires n < |o|
    ensures FiltersOf(b, o[..n + 1]) == FiltersOf(b, o[..n]) + FilterFor(b, o[n])
  {
    assert o[..n + 1][..n] == o[..n];
  }

  /** Written out in parameter order, the filters are those of the slots in slot order. */
  lemma FiltersInOrder(b: Bounds)
    ensures CreatedFilters(b) == FiltersOf(b, SlotOrder)
  {
    var o := SlotOrder;
    var acc := BoundFilter(b.minRevenue, Slot(Revenue, Min));
    assert FiltersOf(b, o[..1]) == acc by { SlotOrderAt(); FiltersPrefix(b, o, 0); assert o[..0] == []; }
    acc := acc + BoundFilter(b.maxRevenue, Slot(Revenue, Max));
    assert FiltersOf(b, o[..2]) == acc by { SlotOrderAt(); FiltersPrefix(b, o, 1); }
    acc := acc + BoundFilter(b.minNetProfit, Slot(NetProfit, Min));
    assert FiltersOf(b, o[..3]) == acc by { SlotOrderAt(); FiltersPrefix(b, o, 2); }
    acc := acc + BoundFilter(b.maxNetProfit, Slot(NetProfit, Max));
    assert FiltersOf(b, o[..4]) == acc by { SlotOrderAt(); FiltersPrefix(b, o, 3); }
    acc := acc + BoundFilter(b.minRevenueGrowthRate, Slot(RevenueGrowthRate, Min));
    assert FiltersOf(b, o[..5]) == acc by { SlotOrderAt(); FiltersPrefix(b, o, 4); }
    acc := acc + BoundFilter(b.maxRevenueGrowthRate, Slot(RevenueGrowthRate, Max));
    assert FiltersOf(b, o[..6]) == acc by { SlotOrderAt(); FiltersPrefix(b, o, 5); }
    acc := acc + BoundFilter(b.minOperationalCostReduction, Slot(OperationalCostReduction, Min));
    assert FiltersOf(b, o[..7]) == acc by { SlotOrderAt(); FiltersPrefix(b, o, 6); }
    acc := acc + BoundFilter(b.maxOperationalCostReduction, Slot(OperationalCostReduction, Max));
    assert FiltersOf(b, o[..8]) == acc by { SlotOrderAt(); FiltersPrefix(b, o, 7); }
    assert o[..8] == o;
  }

  /** `if bound is not None: filters.append({"range": ...})` */
  method AppendIfSet(filters: seq<RangeFilter>, bound: Option<real>, s: Slot) returns (r: seq<RangeFilter>)
    ensures r == filters + BoundFilter(bound, s)
  {
    r := filters;
    if bound.Some? {
      r := r + [RangeFilter(s, bound.value)];
    }
  }

  /** create_filters: one conditional append per bound, in parameter order. */
  method CreateFilters(b: Bounds) returns (filters: seq<RangeFilter>)
    ensures filters == FiltersOf(b, SlotOrder)
  {
    var o := SlotOrder;
    filters := [];
    assert filters == FiltersOf(b, o[..0]);
    filters := AppendIfSet(filters, b.minRevenue, Slot(Revenue, Min));
    assert filters == FiltersOf(b, o[..1]) by { SlotOrderAt(); FiltersPrefix(b, o, 0); }
    filters := AppendIfSet(filters, b.maxRevenue, Slot(Revenue, Max));
    assert filters == FiltersOf(b, o[..2]) by { SlotOrderAt(); FiltersPrefix(b, o, 1); }
    filters := AppendIfSet(filters, b.minNetProfit, Slot(NetProfit, Min));
    assert filters == FiltersOf(b, o[..3]) by { SlotOrderAt(); FiltersPrefix(b, o, 2); }
    filters := AppendIfSet(filters, b.maxNetProfit, Slot(NetProfit, Max));
    assert filters == FiltersOf(b, o[..4]) by { SlotOrderAt(); FiltersPrefix(b, o, 3); }
    filters := AppendIfSet(filters, b.minRevenueGrowthRate, Slot(RevenueGrowthRate, Min));
    assert filters == FiltersOf(b, o[..5]) by { SlotOrderAt(); FiltersPrefix(b, o, 4); }
    filters := AppendIfSet(filters, b.maxRevenueGrowthRate, Slot(RevenueGrowthRate, Max));
    assert filters == FiltersOf(b, o[..6]) by { SlotOrderAt(); FiltersPrefix(b, o, 5); }
    filters := AppendIfSet(filters, b.minOperationalCostReduction, Slot(OperationalCostReduction, Min));
    assert filters == FiltersOf(b, o[..7]) by { SlotOrderAt(); FiltersPrefix(b, o, 6); }
    filters := AppendIfSet(filters, b.maxOperationalCostReduction, Slot(OperationalCostReduction, Max));
    assert filters == FiltersOf(b, o[..8]) by { SlotOrderAt(); FiltersPrefix(b, o, 7); }
    assert o[..8] == o;
  }

  /** The position of a slot in the parameter order. */
  function SlotRank(s: Slot): int {
    var k := match s.key
      case Revenue => 0
      case NetProfit => 1
      case RevenueGrowthRate => 2
      case OperationalCostReduction => 3;
    2 * k + (if s.side == Min then 0 else 1)
  }

  lemma SlotOrderRanks()
    ensures forall i :: 0 <= i < |SlotOrder| ==> SlotRank(SlotOrder[i]) == i
  {
    SlotOrderAt();
  }

  /** A filter is in the list iff its slot is one of the slots and carries that very bound;
      so a bound of 0.0 yields a filter too. */
  lemma {:induction false} FiltersMembers(b: Bounds, slots: seq<Slot>, f: RangeFilter)
    ensures f in FiltersOf(b, slots) <==> f.slot in slots && BoundOf(b, f.slot) == Some(f.value)
  {
    if slots != [] {
      var init := slots[..|slots| - 1];
      var last := slots[|slots| - 1];
      FiltersMembers(b, init, f);
      assert slots == init + [last];
      assert f.slot in slots <==> f.slot in init || f.slot == last;
    }
  }

  /** Filters follow the slots' order: along slots of increasing rank, the filters' slots
      have strictly increasing rank, so min and max of one KPI are two filters, min first. */
  lemma {:induction false} FiltersRanked(b: Bounds, slots: seq<Slot>)
    requires forall i, j :: 0 <= i < j < |slots| ==> SlotRank(slots[i]) < SlotRank(slots[j])
    ensures var fs := FiltersOf(b, slots);
      forall i, j :: 0 <= i < j < |fs| ==> SlotRank(fs[i].slot) < SlotRank(fs[j].slot)
  {
    if slots != [] {
      var init := slots[..|slots| - 1];
      var last := slots[|slots| - 1];
      FiltersRanked(b, init);
      var fi := FiltersOf(b, init);
      var fs := FiltersOf(b, slots);
      assert fs == fi + FilterFor(b, last);
      forall i | 0 <= i < |fi|
        ensures SlotRank(fi[i].slot) < SlotRank(last)
      {
        FiltersMembers(b, init, fi[i]);
        var j :| 0 <= j < |init| && init[j] == fi[i].slot;
      }
      if |FilterFor(b, last)| == 1 {
        assert fs[|fs| - 1].slot == last;
      }
    }
  }

  /** create_filters, in full: exactly the not-None bounds, each once, in parameter order. */
  lemma CreatedFiltersMeaning(b: Bounds)
    ensures var fs := FiltersOf(b, SlotOrder);
      (forall f :: f in fs <==> BoundOf(b, f.slot) == Some(f.value)) &&
      (forall i, j :: 0 <= i < j < |fs| ==> SlotRank(fs[i].slot) < SlotRank(fs[j].slot))
  {
    SlotOrderRanks();
    FiltersRanked(b, SlotOrder);
    forall f: RangeFilter
      ensures f in FiltersOf(b, SlotOrder) <==> BoundOf(b, f.slot) == Some(f.value)
    {
      FiltersMembers(b, SlotOrder, f);
      SlotInOrder(f.slot);
    }
  }

  /** Every slot is one of the eight. */
  lemma SlotInOrder(s: Slot)
    ensures s in SlotOrder
  {
    SlotOrderAt();
    match s
    case Slot(Revenue, Min) => assert SlotOrder[0] == s;
    case Slot(Revenue, Max) => assert SlotOrder[1] == s;
    case Slot(NetProfit, Min) => assert SlotOrder[2] == s;
    case Slot(NetProfit, Max) => assert SlotOrder[3] == s;
    case Slot(RevenueGrowthRate, Min) => assert SlotOrder[4] == s;
    case Slot(RevenueGrowthRate, Max) => assert SlotOrder[5] == s;
    case Slot(OperationalCostReduction, Min) => assert SlotOrder[6] == s;
    case Slot(OperationalCostReduction, Max) => assert SlotOrder[7] == s;
  }

  /** No filters iff every bound is None. */
  lemma NoFiltersIff(b: Bounds)
    ensures FiltersOf(b, SlotOrder) == [] <==> !AnyNotNone(b)
  {
    var fs := FiltersOf(b, SlotOrder);
    if AnyNotNone(b) {
      var i :| 0 <= i < |SlotOrder| && BoundOf(b, SlotOrder[i]).Some?;
      var s := SlotOrder[i];
      FiltersMembers(b, SlotOrder, RangeFilter(s, BoundOf(b, s).value));
    } else if fs != [] {
      FiltersMembers(b, SlotOrder, fs[0]);
    }
  }

  /** The search engine's reading of a range filter: the field exists and is in range. */
  predicate FilterMatches(k: Kpis, f: RangeFilter) {
    Get(k, f.slot.key).Some? && Holds(Get(k, f.slot.key).value, f.slot.side, f.value)
  }

  /** A KPI record satisfies every filter iff the endpoints' range checks on the same bounds,
      each vacuous when its bound is None, pass. */
  lemma FiltersAgreeWithChecks(k: Kpis, b: Bounds)
    ensures (forall f | f in FiltersOf(b, SlotOrder) :: FilterMatches(k, f)) <==> RangeCheck(k, b, WhenNotNone) == Pass
  {
    var fs := FiltersOf(b, SlotOrder);
    EvalPassIff(k, b, WhenNotNone, SlotOrder);
    if forall f | f in fs :: FilterMatches(k, f) {
      forall i | 0 <= i < |SlotOrder|
        ensures SlotHolds(k, b, WhenNotNone, SlotOrder[i])
      {
        var s := SlotOrder[i];
        if BoundOf(b, s).Some? {
          FiltersMembers(b, SlotOrder, RangeFilter(s, BoundOf(b, s).value));
        }
      }
    }
    if RangeCheck(k, b, WhenNotNone) == Pass {
      forall f | f in fs
        ensures FilterMatches(k, f)
      {
        FiltersMembers(b, SlotOrder, f);
        var i :| 0 <= i < |SlotOrder| && SlotOrder[i] == f.slot;
        assert SlotHolds(k, b, WhenNotNone, SlotOrder[i]);
      }
    }
  }

  /** Min and max revenue give two filters, gte then lte, and nothing else. */
  lemma RevenueRangeFilters(lo: real, hi: real)
    ensures FiltersOf(Bounds(Some(lo), Some(hi), None, None, None, None, None, None), SlotOrder)
      == [RangeFilter(Slot(Revenue, Min), lo), RangeFilter(Slot(Revenue, Max), hi)]
  {
    FiltersInOrder(Bounds(Some(lo), Some(hi), None, None, None, None, None, None));
  }
}
