/** The document controller: the four-pattern metric extractor, the ingestion clean-up of raw
    records, and the in-place enrichment of document dictionaries with metrics. */
module Documents {
  import opened Wrappers
  import opened Strings
  import opened PyFloat
  import opened Dates
  import opened Kpi
  import opened Values

  // ---------------------------------------------------------------------------------------
  // The four regular expressions of extract_metrics.
  //   Currency:  <text>[:\s]+\$([\d,\.]+)
  //   Rate:      <text>[:\s]+([\d\.]+)%
  // The class after each `+` run is disjoint from the run's own class, so a match uses the
  // longest run at every step and re.search is deterministic; the matcher below reads runs
  // that way.
  // ---------------------------------------------------------------------------------------

  datatype Shape = Currency | Rate

  datatype Pattern = Pattern(text: string, shape: Shape)

  function PatternOf(key: KpiKey): (p: Pattern)
    ensures p.text != []
  {
    match key
    case Revenue => Pattern("Revenue", Currency)
    case NetProfit => Pattern("Net Profit", Currency)
    case RevenueGrowthRate => Pattern("Revenue Growth Rate", Rate)
    case OperationalCostReduction => Pattern("Operational Cost Reduction", Rate)
  }

  /** `[:\s]` */
  predicate IsSep(c: char) {
    c == ':' || IsSpace(c)
  }

  /** `[\d,\.]` for currency amounts, `[\d\.]` for rates. */
  predicate IsNumChar(shape: Shape, c: char) {
    IsDigit(c) || c == '.' || (shape == Currency && c == ',')
  }

  /** Length of the longest run of separator characters starting at `i`. */
  function SepRun(s: string, i: nat): (n: nat)
    requires i <= |s|
    ensures i + n <= |s|
    decreases |s| - i
  {
    if i < |s| && IsSep(s[i]) then 1 + SepRun(s, i + 1) else 0
  }

  /** Length of the longest run of number characters starting at `i`. */
  function NumRun(shape: Shape, s: string, i: nat): (n: nat)
    requires i <= |s|
    ensures i + n <= |s|
    decreases |s| - i
  {
    if i < |s| && IsNumChar(shape, s[i]) then 1 + NumRun(shape, s, i + 1) else 0
  }

  /** The literal label occurs at position `i`. */
  predicate LabelAt(p: Pattern, s: string, i: nat) {
    i + |p.text| <= |s| && forall k :: 0 <= k < |p.text| ==> s[i + k] == p.text[k]
  }

  /** The rest of the pattern matches right after the label, at `j`: `[:\s]+\$[\d,\.]+` for
      currency amounts, `[:\s]+[\d\.]+%` for rates. */
  predicate TailAt(shape: Shape, s: string, j: nat)
    requires j <= |s|
  {
    var sep := SepRun(s, j);
    sep >= 1
    && match shape
       case Currency => j + sep < |s| && s[j + sep] == '$' && NumRun(Currency, s, j + sep + 1) >= 1
       case Rate =>
         var n := NumRun(Rate, s, j + sep);
         n >= 1 && j + sep + n < |s| && s[j + sep + n] == '%'
  }

  /** The pattern matches at position `i` of `s`. */
  predicate MatchAt(p: Pattern, s: string, i: nat) {
    LabelAt(p, s, i) && TailAt(p.shape, s, i + |p.text|)
  }

  /** Where the captured group starts, for a tail matched at `j`. */
  function GroupStart(shape: Shape, s: string, j: nat): nat
    requires j <= |s|
  {
    var sep := SepRun(s, j);
    if shape == Currency then j + sep + 1 else j + sep
  }

  /** The captured group of a tail matched at `j`. */
  function TailGroup(shape: Shape, s: string, j: nat): (g: string)
    requires j <= |s| && TailAt(shape, s, j)
    ensures g != []
  {
    var start := GroupStart(shape, s, j);
    s[start..start + NumRun(shape, s, start)]
  }

  /** `match.group(1)` of a match at `i`. */
  function Group(p: Pattern, s: string, i: nat): (g: string)
    requires MatchAt(p, s, i)
    ensures g != []
  {
    TailGroup(p.shape, s, i + |p.text|)
  }

  /** `re.search`: the leftmost position at or after `from` where the pattern matches. */
  function Search(p: Pattern, s: string, from: nat): (r: Option<nat>)
    requires p.text != []
    decreases |s| - from
  {
    if from + |p.text| > |s| then None
    else if MatchAt(p, s, from) then Some(from)
    else Search(p, s, from + 1)
  }

  /** A reported position is a match at or after `from`. */
  lemma {:induction false} SearchFound(p: Pattern, s: string, from: nat)
    requires p.text != []
    ensures Search(p, s, from).Some? ==> from <= Search(p, s, from).value && MatchAt(p, s, Search(p, s, from).value)
    decreases |s| - from
  {
    if from + |p.text| <= |s| && !MatchAt(p, s, from) {
      SearchFound(p, s, from + 1);
    }
  }

  /** What one step of extract_metrics does with pattern `p`. */
  datatype Attempt = NoMatch | Converted(v: real) | Invalid

  /** The capture as it is handed to float(): commas removed for currency amounts. */
  function Capture(p: Pattern, s: string, i: nat): string
    requires MatchAt(p, s, i)
  {
    if p.shape == Currency then RemoveAll(Group(p, s, i), ',') else Group(p, s, i)
  }

  function AttemptOf(key: KpiKey, s: string): Attempt {
    AttemptWith(PatternOf(key), s)
  }

  /** The outcome of searching with `p` and converting the capture. */
  function AttemptWith(p: Pattern, s: string): Attempt
    requires p.text != []
  {
    SearchFound(p, s, 0);
    match Search(p, s, 0)
    case None => NoMatch
    case Some(i) =>
      match Float(Capture(p, s, i))
      case Some(v) => Converted(v)
      case None => Invalid
  }

  /** The outcome of each of the four blocks taken on its own, in block order. */
  function Attempts(s: string): (a: seq<Attempt>)
    ensures |a| == |AllKeys|
  {
    [AttemptOf(Revenue, s), AttemptOf(NetProfit, s), AttemptOf(RevenueGrowthRate, s),
     AttemptOf(OperationalCostReduction, s)]
  }

  /** Some block before the `n`-th raised ValueError in float(). */
  predicate FailsBefore(a: seq<Attempt>, n: nat)
    requires n <= |a|
  {
    n > 0 && (FailsBefore(a, n - 1) || a[n - 1].Invalid?)
  }

  /** The `n`-th metric after the whole try block: set only when its own pattern converted and
      no earlier conversion aborted the block. */
  function MetricAfterBlock(a: seq<Attempt>, n: nat): Option<real>
    requires n < |a|
  {
    if FailsBefore(a, n) then None
    else match a[n]
      case Converted(v) => Some(v)
      case _ => None
  }

  function MetricsOf(a: seq<Attempt>): Kpis
    requires |a| == |AllKeys|
  {
    Kpis(MetricAfterBlock(a, 0), MetricAfterBlock(a, 1), MetricAfterBlock(a, 2), MetricAfterBlock(a, 3))
  }

  /** What extract_metrics returns for any content: re.search raises TypeError on a
      non-string, which the handler swallows, leaving every metric None. */
  function ContentMetrics(content: Value): Kpis {
    if content.Str? then Metrics(content.s) else NoKpis
  }

  /** What extract_metrics returns for a string content. */
  function Metrics(s: string): Kpis {
    MetricsOf(Attempts(s))
  }

  /** The metrics dictionary before block `i` of the try block, when no earlier block raised. */
  function BeforeStep(a: seq<Attempt>, i: nat): Kpis
    requires i <= |AllKeys| == |a|
  {
    Kpis(if 0 < i then MetricAfterBlock(a, 0) else None,
         if 1 < i then MetricAfterBlock(a, 1) else None,
         if 2 < i then MetricAfterBlock(a, 2) else None,
         if 3 < i then MetricAfterBlock(a, 3) else None)
  }

  /** Once block `i` raised, every later metric stays None. */
  lemma {:induction false} FailsLater(a: seq<Attempt>, i: nat, k: nat)
    requires i < k <= |a| && a[i].Invalid?
    ensures FailsBefore(a, k)
  {
    if k - 1 > i {
      FailsLater(a, i, k - 1);
    }
  }

  lemma AttemptsAt(s: string, i: nat)
    requires i < |AllKeys|
    ensures Attempts(s)[i] == AttemptOf(AllKeys[i], s)
  {
    var a := Attempts(s);
    if i == 0 {
      assert a[0] == AttemptOf(Revenue, s);
    } else if i == 1 {
      assert a[1] == AttemptOf(NetProfit, s);
    } else if i == 2 {
      assert a[2] == AttemptOf(RevenueGrowthRate, s);
    } else {
      assert a[3] == AttemptOf(OperationalCostReduction, s);
    }
  }

  /** One `match = re.search(...); if match: metrics[key] = float(...)` block; `aborted` when
      float() raised. */
  method ExtractStep(s: string, i: nat, m: Kpis) returns (m': Kpis, aborted: bool)
    requires i < |AllKeys| && !FailsBefore(Attempts(s), i) && m == BeforeStep(Attempts(s), i)
    ensures aborted <==> Attempts(s)[i].Invalid?
    ensures aborted ==> m' == Metrics(s)
    ensures !aborted ==> !FailsBefore(Attempts(s), i + 1) && m' == BeforeStep(Attempts(s), i + 1)
  {
    ghost var a := Attempts(s);
    AttemptsAt(s, i);
    var key := AllKeys[i];
    var p := PatternOf(key);
    SearchFound(p, s, 0);
    var found := Search(p, s, 0);
    m', aborted := m, false;
    if found.Some? {
      var v := Float(Capture(p, s, found.value));
      if v.None? {
        aborted := true;
        assert a[i].Invalid?;
        if i + 1 < |AllKeys| { FailsLater(a, i, i + 1); }
        if i + 2 < |AllKeys| { FailsLater(a, i, i + 2); }
        if i + 3 < |AllKeys| { FailsLater(a, i, i + 3); }
        return;
      }
      assert a[i] == Converted(v.value);
      m' := Set(m, key, v);
    } else {
      assert a[i] == NoMatch;
    }
  }

  /** extract_metrics: the four searches in order inside one try block. A float() failure
      ends the block and leaves the rest None; a non-string content makes re.search raise
      TypeError at once, which the same handler swallows. */
  method ExtractMetrics(content: Value) returns (m: Kpis)
    ensures content.Str? ==> m == Metrics(content.s)
    ensures !content.Str? ==> m == NoKpis
  {
    m := NoKpis;
    if !content.Str? {
      return;
    }
    var s := content.s;
    var aborted;
    m, aborted := ExtractStep(s, 0, m);
    if !aborted {
      m, aborted := ExtractStep(s, 1, m);
    }
    if !aborted {
      m, aborted := ExtractStep(s, 2, m);
    }
    if !aborted {
      m, aborted := ExtractStep(s, 3, m);
    }
  }

  // ---------------------------------------------------------------------------------------
  // What extract_metrics promises.
  // ---------------------------------------------------------------------------------------

  /** The `n`-th metric of the returned dictionary is what the block analysis assigns it. */
  lemma MetricAt(s: string, n: nat)
    requires n < |AllKeys|
    ensures Get(Metrics(s), AllKeys[n]) == MetricAfterBlock(Attempts(s), n)
  {
    if n == 0 {
      assert AllKeys[0] == Revenue;
    } else if n == 1 {
      assert AllKeys[1] == NetProfit;
    } else if n == 2 {
      assert AllKeys[2] == RevenueGrowthRate;
    } else {
      assert AllKeys[3] == OperationalCostReduction;
    }
  }

  /** A metric is set only when its pattern matches, and then it is float() of the capture of
      the leftmost match; with no match it stays None. */
  lemma MetricFromFirstMatch(s: string, n: nat)
    requires n < |AllKeys|
    ensures var p := PatternOf(AllKeys[n]);
      Get(Metrics(s), AllKeys[n]).Some? ==>
        Search(p, s, 0).Some? && MatchAt(p, s, Search(p, s, 0).value) && Float(Capture(p, s, Search(p, s, 0).value)) == Get(Metrics(s), AllKeys[n])
    ensures Search(PatternOf(AllKeys[n]), s, 0).None? ==> Get(Metrics(s), AllKeys[n]) == None
  {
    SearchFound(PatternOf(AllKeys[n]), s, 0);
    AttemptsAt(s, n);
    MetricAt(s, n);
  }

  /** A conversion failure in block `n` keeps every metric found before it and leaves block `n`
      and all later metrics None. */
  lemma FailureIsolation(s: string, n: nat)
    requires n < |AllKeys|
    requires Attempts(s)[n].Invalid? && !FailsBefore(Attempts(s), n)
    ensures forall m :: 0 <= m < n ==>
      Get(Metrics(s), AllKeys[m]) == if Attempts(s)[m].Converted? then Some(Attempts(s)[m].v) else None
    ensures forall m :: n <= m < |AllKeys| ==> Get(Metrics(s), AllKeys[m]) == None
  {
    var a := Attempts(s);
    forall m | 0 <= m < n
      ensures Get(Metrics(s), AllKeys[m]) == if a[m].Converted? then Some(a[m].v) else None
    {
      NoFailsEarlier(a, m, n);
      MetricAt(s, m);
    }
    forall m | n <= m < |AllKeys| ensures Get(Metrics(s), AllKeys[m]) == None {
      if m > n {
        FailsLater(a, n, m);
      }
      MetricAt(s, m);
    }
  }

  /** When no conversion fails, every metric is its own block's result: the blocks do not
      influence one another. */
  lemma NoFailureIndependent(s: string)
    requires forall m :: 0 <= m < |AllKeys| ==> !Attempts(s)[m].Invalid?
    ensures forall m :: 0 <= m < |AllKeys| ==>
      Get(Metrics(s), AllKeys[m]) == if Attempts(s)[m].Converted? then Some(Attempts(s)[m].v) else None
  {
    var a := Attempts(s);
    forall m | 0 <= m < |AllKeys|
      ensures Get(Metrics(s), AllKeys[m]) == if a[m].Converted? then Some(a[m].v) else None
    {
      NoFailsUpTo(a, m);
      MetricAt(s, m);
    }
  }

  lemma {:induction false} NoFailsEarlier(a: seq<Attempt>, m: nat, n: nat)
    requires m <= n <= |a| && !FailsBefore(a, n)
    ensures !FailsBefore(a, m)
  {
    if m < n {
      NoFailsEarlier(a, m, n - 1);
    }
  }

  lemma {:induction false} NoFailsUpTo(a: seq<Attempt>, m: nat)
    requires m <= |a| && forall i :: 0 <= i < |a| ==> !a[i].Invalid?
    ensures !FailsBefore(a, m)
  {
    if m > 0 {
      NoFailsUpTo(a, m - 1);
    }
  }

  /** `re.search` finds the leftmost match at or after `from`, and reports no match only when
      there is none. */
  lemma {:induction false} SearchLeftmost(p: Pattern, s: string, from: nat)
    requires p.text != []
    ensures Search(p, s, from).Some? ==> forall j :: from <= j < Search(p, s, from).value ==> !MatchAt(p, s, j)
    ensures Search(p, s, from).None? ==> forall j :: from <= j ==> !MatchAt(p, s, j)
    decreases |s| - from
  {
    if from + |p.text| <= |s| && !MatchAt(p, s, from) {
      SearchLeftmost(p, s, from + 1);
    }
  }

  /** The separator run is maximal: all separators, and no separator right after it. */
  lemma {:induction false} SepRunMaximal(s: string, i: nat)
    requires i <= |s|
    ensures forall k :: i <= k < i + SepRun(s, i) ==> IsSep(s[k])
    ensures i + SepRun(s, i) == |s| || !IsSep(s[i + SepRun(s, i)])
    decreases |s| - i
  {
    if i < |s| && IsSep(s[i]) {
      SepRunMaximal(s, i + 1);
    }
  }

  /** The number run is maximal in the same sense. */
  lemma {:induction false} NumRunMaximal(shape: Shape, s: string, i: nat)
    requires i <= |s|
    ensures forall k :: i <= k < i + NumRun(shape, s, i) ==> IsNumChar(shape, s[k])
    ensures i + NumRun(shape, s, i) == |s| || !IsNumChar(shape, s[i + NumRun(shape, s, i)])
    decreases |s| - i
  {
    if i < |s| && IsNumChar(shape, s[i]) {
      NumRunMaximal(shape, s, i + 1);
    }
  }

  // Runs are determined by their contents.

  lemma {:induction false} SepRunIs(s: string, i: nat, n: nat)
    requires i + n <= |s| && (forall k :: i <= k < i + n ==> IsSep(s[k]))
    requires i + n == |s| || !IsSep(s[i + n])
    ensures SepRun(s, i) == n
    decreases n
  {
    if n > 0 {
      SepRunIs(s, i + 1, n - 1);
    }
  }

  lemma {:induction false} NumRunIs(shape: Shape, s: string, i: nat, n: nat)
    requires i + n <= |s| && (forall k :: i <= k < i + n ==> IsNumChar(shape, s[k]))
    requires i + n == |s| || !IsNumChar(shape, s[i + n])
    ensures NumRun(shape, s, i) == n
    decreases n
  {
    if n > 0 {
      NumRunIs(shape, s, i + 1, n - 1);
    }
  }

  lemma {:induction false} SepRunShift(pre: string, post: string, k: nat)
    requires k <= |post|
    ensures SepRun(pre + post, |pre| + k) == SepRun(post, k)
    decreases |post| - k
  {
    if k < |post| {
      assert (pre + post)[|pre| + k] == post[k];
      SepRunShift(pre, post, k + 1);
    }
  }

  lemma {:induction false} NumRunShift(shape: Shape, pre: string, post: string, k: nat)
    requires k <= |post|
    ensures NumRun(shape, pre + post, |pre| + k) == NumRun(shape, post, k)
    decreases |post| - k
  {
    if k < |post| {
      assert (pre + post)[|pre| + k] == post[k];
      NumRunShift(shape, pre, post, k + 1);
    }
  }

  lemma SliceShift(pre: string, post: string, x: nat, y: nat)
    requires x <= y <= |post|
    ensures (pre + post)[|pre| + x..|pre| + y] == post[x..y]
  {
  }

  lemma TailShift(shape: Shape, pre: string, post: string, j: nat)
    requires j <= |post|
    ensures TailAt(shape, pre + post, |pre| + j) <==> TailAt(shape, post, j)
  {
    var s := pre + post;
    var d := |pre|;
    SepRunShift(pre, post, j);
    var g := j + SepRun(post, j);
    if shape == Currency {
      if g < |post| {
        assert s[d + g] == post[g];
        NumRunShift(Currency, pre, post, g + 1);
      }
    } else {
      NumRunShift(Rate, pre, post, g);
      var n := NumRun(Rate, post, g);
      if g + n < |post| {
        assert s[d + g + n] == post[g + n];
      }
    }
  }

  lemma TailGroupShift(shape: Shape, pre: string, post: string, j: nat)
    requires j <= |post| && TailAt(shape, post, j)
    ensures TailAt(shape, pre + post, |pre| + j)
    ensures TailGroup(shape, pre + post, |pre| + j) == TailGroup(shape, post, j)
  {
    TailShift(shape, pre, post, j);
    SepRunShift(pre, post, j);
    var start := GroupStart(shape, post, j);
    assert GroupStart(shape, pre + post, |pre| + j) == |pre| + start;
    NumRunShift(shape, pre, post, start);
    SliceShift(pre, post, start, start + NumRun(shape, post, start));
  }

  /** Text in front of the content does not change whether, or what, the pattern matches
      further on: matching only looks to the right. */
  lemma MatchShift(p: Pattern, pre: string, post: string, j: nat)
    requires j <= |post|
    ensures MatchAt(p, pre + post, |pre| + j) <==> MatchAt(p, post, j)
    ensures MatchAt(p, post, j) ==> Capture(p, pre + post, |pre| + j) == Capture(p, post, j)
  {
    var e := j + |p.text|;
    if e <= |post| {
      TailShift(p.shape, pre, post, e);
      if MatchAt(p, post, j) {
        TailGroupShift(p.shape, pre, post, e);
      }
    }
  }

  lemma {:induction false} SepRunExtend(pre: string, post: string, k: nat)
    requires k <= |pre| && k + SepRun(pre, k) < |pre|
    ensures SepRun(pre + post, k) == SepRun(pre, k)
    decreases |pre| - k
  {
    assert (pre + post)[k] == pre[k];
    if IsSep(pre[k]) {
      SepRunExtend(pre, post, k + 1);
    }
  }

  lemma {:induction false} NumRunExtend(shape: Shape, pre: string, post: string, k: nat)
    requires k <= |pre| && k + NumRun(shape, pre, k) < |pre|
    ensures NumRun(shape, pre + post, k) == NumRun(shape, pre, k)
    decreases |pre| - k
  {
    assert (pre + post)[k] == pre[k];
    if IsNumChar(shape, pre[k]) {
      NumRunExtend(shape, pre, post, k + 1);
    }
  }

  lemma TailExtend(shape: Shape, pre: string, post: string, j: nat)
    requires j <= |pre| && TailAt(shape, pre, j)
    requires GroupStart(shape, pre, j) + |TailGroup(shape, pre, j)| < |pre|
    ensures TailAt(shape, pre + post, j) && TailGroup(shape, pre + post, j) == TailGroup(shape, pre, j)
  {
    SepRunExtend(pre, post, j);
    var start := GroupStart(shape, pre, j);
    assert GroupStart(shape, pre + post, j) == start;
    RunEndExtend(shape, pre, post, start);
    if shape == Currency {
      assert (pre + post)[start - 1] == pre[start - 1];
    }
  }

  lemma RunEndExtend(shape: Shape, pre: string, post: string, start: nat)
    requires start <= |pre| && start + NumRun(shape, pre, start) < |pre|
    ensures NumRun(shape, pre + post, start) == NumRun(shape, pre, start)
    ensures var n := NumRun(shape, pre, start);
      (pre + post)[start..start + n] == pre[start..start + n] && (pre + post)[start + n] == pre[start + n]
  {
    NumRunExtend(shape, pre, post, start);
  }

  /** A match whose number run is ended by a character of the text itself stays a match, with
      the same group, whatever follows the text. */
  lemma MatchExtend(p: Pattern, pre: string, post: string, i: nat)
    requires MatchAt(p, pre, i)
    requires GroupStart(p.shape, pre, i + |p.text|) + |Group(p, pre, i)| < |pre|
    ensures MatchAt(p, pre + post, i) && Group(p, pre + post, i) == Group(p, pre, i)
  {
    assert LabelAt(p, pre + post, i) by {
      forall k | 0 <= k < |p.text| ensures (pre + post)[i + k] == p.text[k] {
        assert (pre + post)[i + k] == pre[i + k];
      }
    }
    TailExtend(p.shape, pre, post, i + |p.text|);
  }

  function Shifted(r: Option<nat>, d: nat): Option<nat> {
    match r
    case None => None
    case Some(i) => Some(d + i)
  }

  /** A position that is the leftmost match at or after `from` is what `re.search` reports, and
      `re.search` reports nothing exactly when nothing matches. */
  lemma SearchIs(p: Pattern, s: string, from: nat, r: Option<nat>)
    requires p.text != []
    requires r.None? ==> forall j :: from <= j ==> !MatchAt(p, s, j)
    requires r.Some? ==> from <= r.value && MatchAt(p, s, r.value)
                         && forall j :: from <= j < r.value ==> !MatchAt(p, s, j)
    ensures Search(p, s, from) == r
  {
    SearchFound(p, s, from);
    SearchLeftmost(p, s, from);
  }

  lemma PrefixNoMatch(p: Pattern, pre: string, post: string, from: nat)
    requires p.text != [] && from <= |pre|
    requires forall k :: from <= k < |pre| ==> pre[k] != p.text[0]
    ensures forall j :: from <= j < |pre| ==> !MatchAt(p, pre + post, j)
  {
    forall j | from <= j < |pre| ensures !MatchAt(p, pre + post, j) {
      assert (pre + post)[j] == pre[j];
    }
  }

  lemma SuffixMatches(p: Pattern, pre: string, post: string)
    ensures forall j :: |pre| <= j ==> (MatchAt(p, pre + post, j) <==> MatchAt(p, post, j - |pre|))
  {
    forall j | |pre| <= j ensures MatchAt(p, pre + post, j) <==> MatchAt(p, post, j - |pre|) {
      if j - |pre| <= |post| {
        MatchShift(p, pre, post, j - |pre|);
      }
    }
  }

  /** Searching content that has a prefix whose characters (from `from` on) never start the
      label finds what searching the rest finds, moved by the prefix's length. */
  lemma SearchSkip(p: Pattern, pre: string, post: string, from: nat)
    requires p.text != [] && from <= |pre|
    requires forall k :: from <= k < |pre| ==> pre[k] != p.text[0]
    ensures Search(p, pre + post, from) == Shifted(Search(p, post, 0), |pre|)
  {
    SearchFound(p, post, 0);
    SearchLeftmost(p, post, 0);
    PrefixNoMatch(p, pre, post, from);
    SuffixMatches(p, pre, post);
    SearchIs(p, pre + post, from, Shifted(Search(p, post, 0), |pre|));
  }

  /** Text in front of the content in which the label's first letter never occurs changes
      neither the outcome of a block nor the value it converts. */
  lemma AttemptSkip(key: KpiKey, pre: string, post: string)
    requires PatternOf(key).text[0] !in pre
    ensures AttemptOf(key, pre + post) == AttemptOf(key, post)
  {
    var p := PatternOf(key);
    assert forall k :: 0 <= k < |pre| ==> pre[k] != p.text[0];
    SearchSkip(p, pre, post, 0);
    AttemptWithShift(p, pre, post);
  }

  /** Searching from the start finds the match in the rest, moved by the prefix's length,
      when the label does not match before `from` and cannot start in the prefix after it. */
  lemma SearchSkipFrom(p: Pattern, pre: string, post: string, from: nat)
    requires p.text != [] && from <= |pre|
    requires forall j :: 0 <= j < from ==> !MatchAt(p, pre + post, j)
    requires forall k :: from <= k < |pre| ==> pre[k] != p.text[0]
    ensures Search(p, pre + post, 0) == Shifted(Search(p, post, 0), |pre|)
  {
    SearchSkip(p, pre, post, from);
    SearchFound(p, pre + post, from);
    SearchLeftmost(p, pre + post, from);
    SearchIs(p, pre + post, 0, Search(p, pre + post, from));
  }

  /** When the search in the longer text finds the match in the rest, moved by the prefix's
      length, the block's outcome and converted value are those of the rest. */
  lemma AttemptWithShift(p: Pattern, pre: string, post: string)
    requires p.text != []
    requires Search(p, pre + post, 0) == Shifted(Search(p, post, 0), |pre|)
    ensures AttemptWith(p, pre + post) == AttemptWith(p, post)
  {
    var r := Search(p, post, 0);
    if r.Some? {
      var i := r.value;
      assert MatchAt(p, post, i) by { SearchFound(p, post, 0); }
      MatchShift(p, pre, post, i);
    }
  }

  /** A label whose first letter never occurs is never found. */
  lemma NoLabelNoMatch(p: Pattern, s: string)
    requires p.text != [] && p.text[0] !in s
    ensures Search(p, s, 0) == None
  {
    SearchSkip(p, s, [], 0);
    assert s + [] == s;
  }
}
