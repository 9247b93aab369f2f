/** The LLM integration helpers: the weighted closeness score of a document to numeric
    targets, the line-oriented KPI parser for model replies, and the truthy-bound filter over
    ranked tuples. */
module LlmIntegration {
  import opened Wrappers
  import opened Strings
  import opened PyFloat
  import opened Kpi
  import opened Values
  import opened Seqs

  // ---------------------------------------------------------------------------------------
  // compute_numerical_score
  // ---------------------------------------------------------------------------------------

  /** The weights used when the caller passes none: each KPI at 1.0, in dictionary order. */
  const DefaultWeights: seq<(string, real)> :=
    [("revenue", 1.0), ("net_profit", 1.0), ("revenue_growth_rate", 1.0), ("operational_cost_reduction", 1.0)]

  /** `weights or {...}`: None and the empty dictionary are falsy. A dictionary is given by
      its items in insertion order. */
  function EffectiveWeights(weights: Option<seq<(string, real)>>): seq<(string, real)> {
    if weights.None? || weights.value == [] then DefaultWeights else weights.value
  }

  /** A value as an operand of `-`: a float, or a bool as the integer 0 or 1; any other value
      makes the subtraction raise TypeError. */
  function Operand(v: Value): Option<real> {
    match v
    case Number(n) => Some(n)
    case Bool(b) => Some(if b then 1.0 else 0.0)
    case _ => None
  }

  function Abs(x: real): real {
    if x < 0.0 then -x else x
  }

  /** `weight / (1 + abs(actual - target))` */
  function Closeness(weight: real, target: real, actual: real): real {
    weight / (1.0 + Abs(actual - target))
  }

  /** What one weight key adds to the score: nothing when the target or the actual value is
      None (or missing), None when the subtraction raises. */
  function Contribution(weight: real, target: Value, actual: Value): Option<real> {
    if target.Null? || actual.Null? then Some(0.0)
    else if Operand(actual).None? || Operand(target).None? then None
    else Some(Closeness(weight, Operand(target).value, Operand(actual).value))
  }

  /** The score after the first `|items|` weight items, or None once one of them raised. */
  function ScoreOf(doc: Dict, params: Dict, items: seq<(string, real)>): Option<real> {
    if items == [] then Some(0.0)
    else
      var last := items[|items| - 1];
      match ScoreOf(doc, params, items[..|items| - 1])
      case None => None
      case Some(s) =>
        match Contribution(last.1, Lookup(params, last.0, Null), Lookup(doc, last.0, Null))
        case None => None
        case Some(c) => Some(s + c)
  }

  lemma {:induction false} RaisedPersists(doc: Dict, params: Dict, items: seq<(string, real)>, n: nat)
    requires n <= |items| && ScoreOf(doc, params, items[..n]) == None
    ensures ScoreOf(doc, params, items) == None
    decreases |items| - n
  {
    if n < |items| {
      assert items[..n + 1][..n] == items[..n];
      RaisedPersists(doc, params, items, n + 1);
    } else {
      assert items[..n] == items;
    }
  }

  /** compute_numerical_score: the loop over the weight items, accumulating the contribution
      of every key whose target and actual value are both present. None stands for the
      TypeError a non-numeric value raises. */
  method ComputeNumericalScore(document: Dict, queryParams: Dict, weights: Option<seq<(string, real)>>)
    returns (score: Option<real>)
    ensures score == ScoreOf(document, queryParams, EffectiveWeights(weights))
  {
    var items := EffectiveWeights(weights);
    var s := 0.0;
    var i := 0;
    while i < |items|
      invariant 0 <= i <= |items|
      invariant ScoreOf(document, queryParams, items[..i]) == Some(s)
    {
      var key, weight := items[i].0, items[i].1;
      var target := Lookup(queryParams, key, Null);
      var actual := Lookup(document, key, Null);
      assert items[..i + 1][..i] == items[..i];
      if !target.Null? && !actual.Null? {
        var a, t := Operand(actual), Operand(target);
        if a.None? || t.None? {
          RaisedPersists(document, queryParams, items, i + 1);
          return None;
        }
        s := s + Closeness(weight, t.value, a.value);
      }
      i := i + 1;
    }
    assert items[..i] == items;
    return Some(s);
  }

  // What the score promises.

  function SumWeights(items: seq<(string, real)>): real {
    if items == [] then 0.0 else SumWeights(items[..|items| - 1]) + items[|items| - 1].1
  }

  /** A term lies between 0 and its weight, and equals the weight exactly when the gap is
      zero. */
  lemma ClosenessBounds(weight: real, target: real, actual: real)
    requires weight >= 0.0
    ensures 0.0 <= Closeness(weight, target, actual) <= weight
    ensures actual == target ==> Closeness(weight, target, actual) == weight
  {
    var d := 1.0 + Abs(actual - target);
    var c := Closeness(weight, target, actual);
    assert c * d == weight;
    assert c * d >= c * 1.0 by {
      assert c >= 0.0;
    }
  }

  /** A term depends on the gap only through its size, and does not grow as the gap grows. */
  lemma ClosenessMonotone(weight: real, target: real, near: real, far: real)
    requires weight >= 0.0 && Abs(near - target) <= Abs(far - target)
    ensures Closeness(weight, target, far) <= Closeness(weight, target, near)
    ensures Closeness(weight, target, near) == Closeness(weight, near, target)
  {
    var dn := 1.0 + Abs(near - target);
    var df := 1.0 + Abs(far - target);
    var cn := Closeness(weight, target, near);
    var cf := Closeness(weight, target, far);
    assert cn * dn == weight && cf * df == weight;
    assert cf * dn <= cf * df by {
      ClosenessBounds(weight, target, far);
    }
    assert (cn - cf) * dn >= 0.0;
    assert Abs(target - near) == Abs(near - target);
  }

  /** With non-negative weights a computed score lies between 0 and the sum of the weights. */
  lemma {:induction false} ScoreBounds(doc: Dict, params: Dict, items: seq<(string, real)>)
    requires forall i :: 0 <= i < |items| ==> items[i].1 >= 0.0
    requires ScoreOf(doc, params, items).Some?
    ensures 0.0 <= ScoreOf(doc, params, items).value <= SumWeights(items)
  {
    if items != [] {
      var init := items[..|items| - 1];
      var last := items[|items| - 1];
      assert forall i :: 0 <= i < |init| ==> init[i] == items[i];
      ScoreBounds(doc, params, init);
      var t, a := Lookup(params, last.0, Null), Lookup(doc, last.0, Null);
      if !t.Null? && !a.Null? {
        ClosenessBounds(last.1, Operand(t).value, Operand(a).value);
      }
    }
  }

  /** Keys missing on either side contribute nothing, so a score over keys none of which the
      document and the targets both hold is 0. */
  lemma {:induction false} ScoreOfAbsentKeys(doc: Dict, params: Dict, items: seq<(string, real)>)
    requires forall i :: 0 <= i < |items| ==> items[i].0 !in doc || items[i].0 !in params
    ensures ScoreOf(doc, params, items) == Some(0.0)
  {
    if items != [] {
      var init := items[..|items| - 1];
      assert forall i :: 0 <= i < |init| ==> init[i] == items[i];
      ScoreOfAbsentKeys(doc, params, init);
    }
  }

  /** The score raises iff some weight key has both values present but one of them is not a
      number. */
  lemma {:induction false} ScoreRaisesIff(doc: Dict, params: Dict, items: seq<(string, real)>)
    ensures ScoreOf(doc, params, items).None? <==>
      exists i :: 0 <= i < |items| && Contribution(items[i].1, Lookup(params, items[i].0, Null), Lookup(doc, items[i].0, Null)).None?
  {
    if items != [] {
      var init := items[..|items| - 1];
      var n := |items| - 1;
      assert forall i :: 0 <= i < |init| ==> init[i] == items[i];
      ScoreRaisesIff(doc, params, init);
      if ScoreOf(doc, params, init).None? {
        var i :| 0 <= i < |init| && Contribution(init[i].1, Lookup(params, init[i].0, Null), Lookup(doc, init[i].0, Null)).None?;
        assert Contribution(items[i].1, Lookup(params, items[i].0, Null), Lookup(doc, items[i].0, Null)).None?;
      }
    }
  }

  /** The default weights cover the four KPIs at 1.0 each. */
  lemma DefaultWeightsCover(weights: Option<seq<(string, real)>>)
    requires weights.None? || weights == Some([])
    ensures EffectiveWeights(weights) == DefaultWeights
    ensures SumWeights(DefaultWeights) == 4.0
    ensures forall key :: (KeyName(key), 1.0) in DefaultWeights
  {
    var w := DefaultWeights;
    assert w[..1][..0] == [] && w[..2][..1] == w[..1] && w[..3][..2] == w[..2] && w[..4][..3] == w[..3] && w[..4] == w;
    assert SumWeights(w[..1]) == 1.0;
    assert SumWeights(w[..2]) == 2.0;
    assert SumWeights(w[..3]) == 3.0;
    forall key ensures (KeyName(key), 1.0) in DefaultWeights {
      match key
      case Revenue => assert DefaultWeights[0] == (KeyName(key), 1.0);
      case NetProfit => assert DefaultWeights[1] == (KeyName(key), 1.0);
      case RevenueGrowthRate => assert DefaultWeights[2] == (KeyName(key), 1.0);
      case OperationalCostReduction => assert DefaultWeights[3] == (KeyName(key), 1.0);
    }
  }

  // ---------------------------------------------------------------------------------------
  // parse_kpis_from_response
  // ---------------------------------------------------------------------------------------

  /** The `if`/`elif` chain: the first label that occurs in the lower-cased line. */
  function LineKey(line: string): Option<KpiKey> {
    var lower := Lower(line);
    if Contains(lower, "revenue:") then Some(Revenue)
    else if Contains(lower, "net profit:") then Some(NetProfit)
    else if Contains(lower, "revenue growth rate:") then Some(RevenueGrowthRate)
    else if Contains(lower, "operational cost reduction:") then Some(OperationalCostReduction)
    else None
  }

  /** The text handed to float(): the stripped text after the last ':', with '$' and ','
      removed for the two amounts and '%' removed for the two rates. */
  function ValueText(key: KpiKey, line: string): string {
    var raw := Strip(AfterLast(line, ':'));
    if key == Revenue || key == NetProfit then RemoveAll(RemoveAll(raw, '$'), ',')
    else RemoveAll(raw, '%')
  }

  /** What one line does: the KPI it sets and the value float() gives, or nothing (no label,
      or a ValueError, which `continue` skips). */
  function Effect(line: string): Option<(KpiKey, real)> {
    match LineKey(line)
    case None => None
    case Some(key) =>
      match Float(ValueText(key, line))
      case None => None
      case Some(v) => Some((key, v))
  }

  function ApplyEffect(k: Kpis, e: Option<(KpiKey, real)>): Kpis {
    if e.None? then k else Set(k, e.value.0, Some(e.value.1))
  }

  /** The effects of the lines, in order. */
  function Effects(lines: seq<string>): (es: seq<Option<(KpiKey, real)>>)
    ensures |es| == |lines| && forall j :: 0 <= j < |lines| ==> es[j] == Effect(lines[j])
  {
    seq(|lines|, j requires 0 <= j < |lines| => Effect(lines[j]))
  }

  /** The dictionary after the loop has applied the effects `es`, starting from all None. */
  function Fold(es: seq<Option<(KpiKey, real)>>): Kpis {
    if es == [] then NoKpis else ApplyEffect(Fold(es[..|es| - 1]), es[|es| - 1])
  }

  /** The dictionary after the loop has seen `lines`. */
  function ParseLines(lines: seq<string>): Kpis {
    Fold(Effects(lines))
  }

  /** The line sets `key` to `v`. */
  predicate Yields(line: string, key: KpiKey, v: real) {
    Effect(line) == Some((key, v))
  }

  /** The line sets `key` to some value. */
  predicate Converts(line: string, key: KpiKey) {
    Effect(line).Some? && Effect(line).value.0 == key
  }

  lemma ParseStep(lines: seq<string>, i: nat)
    requires i < |lines|
    ensures ParseLines(lines[..i + 1]) == ApplyEffect(ParseLines(lines[..i]), Effect(lines[i]))
  {
    assert Effects(lines[..i + 1])[..i] == Effects(lines[..i]);
  }

  /** parse_kpis_from_response on a string reply. */
  method ParseKpisFromResponse(response: string) returns (kpis: Kpis)
    ensures kpis == ParseLines(Split(response, '\n'))
  {
    kpis := NoKpis;
    var lines := Split(response, '\n');
    var i := 0;
    while i < |lines|
      invariant 0 <= i <= |lines|
      invariant kpis == ParseLines(lines[..i])
    {
      var line := lines[i];
      var lower := Lower(line);
      var key: KpiKey;
      if Contains(lower, "revenue:") {
        key := Revenue;
      } else if Contains(lower, "net profit:") {
        key := NetProfit;
      } else if Contains(lower, "revenue growth rate:") {
        key := RevenueGrowthRate;
      } else if Contains(lower, "operational cost reduction:") {
        key := OperationalCostReduction;
      } else {
        ParseStep(lines, i);
        i := i + 1;
        continue;
      }
      var v := Float(ValueText(key, line));
      if v.Some? {
        kpis := Set(kpis, key, v);
      }
      ParseStep(lines, i);
      i := i + 1;
    }
    assert lines[..i] == lines;
  }

  /** A KPI stays None exactly when no effect sets it. */
  lemma {:induction false} FoldNone(es: seq<Option<(KpiKey, real)>>, key: KpiKey)
    ensures Get(Fold(es), key).None? <==> forall j :: 0 <= j < |es| ==> !(es[j].Some? && es[j].value.0 == key)
  {
    if es != [] {
      var init := es[..|es| - 1];
      assert forall j :: 0 <= j < |init| ==> init[j] == es[j];
      FoldNone(init, key);
    }
  }

  /** A KPI that is set holds the value of the last effect that sets it. */
  lemma {:induction false} FoldLast(es: seq<Option<(KpiKey, real)>>, key: KpiKey)
    requires Get(Fold(es), key).Some?
    ensures exists j :: 0 <= j < |es| && es[j] == Some((key, Get(Fold(es), key).value)) &&
                        forall j' :: j < j' < |es| ==> !(es[j'].Some? && es[j'].value.0 == key)
  {
    var n := |es| - 1;
    var init := es[..n];
    var v := Get(Fold(es), key).value;
    if es[n].Some? && es[n].value.0 == key {
      assert es[n] == Some((key, v));
    } else {
      assert forall j :: 0 <= j < |init| ==> init[j] == es[j];
      FoldLast(init, key);
      var j :| 0 <= j < |init| && init[j] == Some((key, v)) &&
               forall j' :: j < j' < |init| ==> !(init[j'].Some? && init[j'].value.0 == key);
      assert es[j] == Some((key, v));
    }
  }

  /** A KPI stays None exactly when no line sets it. */
  lemma ParsedNone(lines: seq<string>, key: KpiKey)
    ensures Get(ParseLines(lines), key).None? <==> forall j :: 0 <= j < |lines| ==> !Converts(lines[j], key)
  {
    FoldNone(Effects(lines), key);
  }

  /** Every KPI that is set comes from the last line that sets it: a later line overrides an
      earlier one, and a line whose value does not convert is skipped. */
  lemma ParsedLast(lines: seq<string>, key: KpiKey)
    requires Get(ParseLines(lines), key).Some?
    ensures exists j :: 0 <= j < |lines| && Yields(lines[j], key, Get(ParseLines(lines), key).value) &&
                        forall j' :: j < j' < |lines| ==> !Converts(lines[j'], key)
  {
    var es := Effects(lines);
    FoldLast(es, key);
    var j :| 0 <= j < |es| && es[j] == Some((key, Get(Fold(es), key).value)) &&
             forall j' :: j < j' < |es| ==> !(es[j'].Some? && es[j'].value.0 == key);
    assert Yields(lines[j], key, Get(ParseLines(lines), key).value);
  }

  /** The label test ignores case: lines equal up to ASCII case select the same branch. */
  lemma LabelIgnoresCase(line: string, other: string)
    requires Lower(line) == Lower(other)
    ensures LineKey(line) == LineKey(other)
  {
  }

  /** A line that mentions the revenue label always takes the revenue branch, even when it
      also mentions a later label: the `elif` chain stops at the first test that holds. */
  lemma RevenueLabelFirst(line: string, key: KpiKey)
    requires Contains(Lower(line), "revenue:") && key != Revenue
    ensures !Converts(line, key)
  {
  }

  // ---------------------------------------------------------------------------------------
  // apply_numeric_filters
  // ---------------------------------------------------------------------------------------

  /** A `(final_score, relevance_score, numerical_score, doc)` tuple; only the document's four
      KPI values take part in the filter. */
  datatype Ranked = Ranked(finalScore: real, relevance: real, numerical: real, doc: Kpis)

  /** apply_numeric_filters: the tuples whose document passes every truthy bound, in their
      order; None when a check compares a missing KPI (TypeError aborts the comprehension). */
  function ApplyNumericFilters(ranked: seq<Ranked>, b: Bounds): (r: Option<seq<Ranked>>)
    ensures r.Some? ==> |r.value| <= |ranked|
    ensures r.Some? ==> forall i :: 0 <= i < |r.value| ==> RangeCheck(r.value[i].doc, b, WhenTruthy) == Pass
  {
    if ranked == [] then Some([])
    else match RangeCheck(ranked[0].doc, b, WhenTruthy)
      case Raised => None
      case Fail => ApplyNumericFilters(ranked[1..], b)
      case Pass =>
        match ApplyNumericFilters(ranked[1..], b)
        case None => None
        case Some(rest) => Some([ranked[0]] + rest)
  }

  /** The filter keeps an order-preserving sublist: a tuple is kept iff its document passes
      every check. */
  lemma {:induction false} FilterKeeps(ranked: seq<Ranked>, b: Bounds)
    requires ApplyNumericFilters(ranked, b).Some?
    ensures var r := ApplyNumericFilters(ranked, b).value;
      IsSubsequence(r, ranked) &&
      (forall x :: x in r ==> RangeCheck(x.doc, b, WhenTruthy) == Pass) &&
      (forall x :: x in ranked && RangeCheck(x.doc, b, WhenTruthy) == Pass ==> x in r)
  {
    if ranked != [] {
      var tail := ranked[1..];
      FilterKeeps(tail, b);
      var rest := ApplyNumericFilters(tail, b).value;
      assert ranked == [ranked[0]] + tail;
      SubsequenceCons(ranked[0], rest, tail);
      assert forall x :: x in ranked ==> x == ranked[0] || x in tail;
    }
  }

  /** The filter keeps every passing tuple as often as it occurs and no failing one: counted
      with multiplicity, the result is the passing part of the input. */
  lemma {:induction false} FilterCounts(ranked: seq<Ranked>, b: Bounds)
    requires ApplyNumericFilters(ranked, b).Some?
    ensures var r := ApplyNumericFilters(ranked, b).value;
      forall x :: multiset(r)[x] == if RangeCheck(x.doc, b, WhenTruthy) == Pass then multiset(ranked)[x] else 0
  {
    if ranked != [] {
      var tail := ranked[1..];
      FilterCounts(tail, b);
      assert ranked == [ranked[0]] + tail;
      assert multiset(ranked) == multiset{ranked[0]} + multiset(tail);
      if RangeCheck(ranked[0].doc, b, WhenTruthy) == Pass {
        var rest := ApplyNumericFilters(tail, b).value;
        assert multiset([ranked[0]] + rest) == multiset{ranked[0]} + multiset(rest);
      }
    }
  }

  /** The filter aborts iff some tuple's checks raise. */
  lemma {:induction false} FilterRaisesIff(ranked: seq<Ranked>, b: Bounds)
    ensures ApplyNumericFilters(ranked, b).None? <==>
      exists i :: 0 <= i < |ranked| && RangeCheck(ranked[i].doc, b, WhenTruthy) == Raised
  {
    if ranked != [] {
      FilterRaisesIff(ranked[1..], b);
      assert forall i :: 1 <= i < |ranked| ==> ranked[i] == ranked[1..][i - 1];
      if ApplyNumericFilters(ranked[1..], b).None? {
        var i :| 0 <= i < |ranked[1..]| && RangeCheck(ranked[1..][i].doc, b, WhenTruthy) == Raised;
        assert RangeCheck(ranked[i + 1].doc, b, WhenTruthy) == Raised;
      }
    }
  }

  /** The bounds with every falsy one (None or 0.0) replaced by None. */
  function TruthyBounds(b: Bounds): (t: Bounds)
    ensures forall s :: BoundOf(t, s) == if TruthyBound(BoundOf(b, s)) then BoundOf(b, s) else None
  {
    var keep := (o: Option<real>) => if TruthyBound(o) then o else None;
    Bounds(keep(b.minRevenue), keep(b.maxRevenue), keep(b.minNetProfit), keep(b.maxNetProfit),
           keep(b.minRevenueGrowthRate), keep(b.maxRevenueGrowthRate),
           keep(b.minOperationalCostReduction), keep(b.maxOperationalCostReduction))
  }

  /** A bound of None or 0.0 is ignored: the filter behaves as if it were absent. */
  lemma {:induction false} FalsyBoundsIgnored(ranked: seq<Ranked>, b: Bounds)
    ensures ApplyNumericFilters(ranked, b) == ApplyNumericFilters(ranked, TruthyBounds(b))
  {
    if ranked != [] {
      FalsyBoundsIgnored(ranked[1..], b);
      EvalSameTruthy(ranked[0].doc, b, TruthyBounds(b), SlotOrder);
    }
  }

  lemma {:induction false} EvalSameTruthy(k: Kpis, b: Bounds, t: Bounds, slots: seq<Slot>)
    requires forall s :: BoundOf(t, s) == if TruthyBound(BoundOf(b, s)) then BoundOf(b, s) else None
    ensures EvalChecks(k, b, WhenTruthy, slots) == EvalChecks(k, t, WhenTruthy, slots)
  {
    if slots != [] {
      EvalSameTruthy(k, b, t, slots[1..]);
    }
  }
}
