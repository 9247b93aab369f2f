/** Worked inputs for extract_metrics: the thousands separator, the fixed-case labels, the
    required `$` and `%`, a conversion failure, and a report with three of the four metrics. */
module MetricExamples {
  import opened Wrappers
  import opened Strings
  import opened PyFloat
  import opened Kpi
  import opened Documents

  // Literal arithmetic that the examples share.

  lemma Value1234()
    ensures DigitsValue("1234") == 1234
  {
    DigitsValueAppend("1", '2');
    assert "1" + ['2'] == "12";
    DigitsValueAppend("12", '3');
    assert "12" + ['3'] == "123";
    DigitsValueAppend("123", '4');
    assert "123" + ['4'] == "1234";
  }

  lemma Value50()
    ensures DigitsValue("50") == 50
  {
    DigitsValueAppend("5", '0');
    assert "5" + ['0'] == "50";
  }

  lemma Float1234Point50()
    ensures Float("1234.50") == Some(1234.5)
  {
    Value1234();
    Value50();
    assert Pow10(2) == 100;
    assert "1234" + "." + "50" == "1234.50";
    FloatOfDecimal("1234", "50");
  }

  /** One comma between two comma-free pieces is dropped and nothing else changes. */
  lemma CommaDropped(a: string, b: string)
    requires ',' !in a && ',' !in b
    ensures RemoveAll(a + [','] + b, ',') == a + b
  {
    assert a + [','] + b == a + ([','] + b);
    RemoveAllConcat(a, [','] + b, ',');
    RemoveAllSpec(a, ',');
    RemoveAllSpec(b, ',');
    assert ([','] + b)[1..] == b;
  }

  lemma CommaRemoved()
    ensures RemoveAll("1,234.50", ',') == "1234.50"
  {
    assert "1,234.50" == "1" + [','] + "234.50";
    CommaDropped("1", "234.50");
  }

  // "Revenue: $1,234.50" gives revenue 1234.5.

  lemma CommaMatch(s: string)
    requires s == "Revenue: $1,234.50"
    ensures MatchAt(PatternOf(Revenue), s, 0) && Group(PatternOf(Revenue), s, 0) == "1,234.50"
  {
    assert LabelAt(PatternOf(Revenue), s, 0);
    SepRunIs(s, 7, 2);
    NumRunIs(Currency, s, 10, 8);
    assert s[10..18] == "1,234.50";
  }

  /** The thousands separator is dropped before conversion. */
  lemma RevenueWithThousandsSeparator(s: string)
    requires s == "Revenue: $1,234.50"
    ensures Get(Metrics(s), Revenue) == Some(1234.5)
  {
    CommaMatch(s);
    CommaRemoved();
    Float1234Point50();
    assert Search(PatternOf(Revenue), s, 0) == Some(0);
    AttemptsAt(s, 0);
    MetricAt(s, 0);
  }

  // Labels are case-sensitive; `$` and `%` are required.

  /** A lower-case label is not recognised. */
  lemma LabelIsCaseSensitive(s: string)
    requires s == "revenue: $500"
    ensures Get(Metrics(s), Revenue) == None
  {
    assert 'R' !in s;
    NoLabelNoMatch(PatternOf(Revenue), s);
    MetricFromFirstMatch(s, 0);
  }

  /** A currency amount without `$` is not recognised. */
  lemma CurrencyNeedsDollar(s: string)
    requires s == "Revenue: 500"
    ensures Get(Metrics(s), Revenue) == None
  {
    var p := PatternOf(Revenue);
    SepRunIs(s, 7, 2);
    assert !MatchAt(p, s, 0);
    assert s + [] == s;
    SearchSkip(p, s, [], 1);
    assert Search(p, s, 0) == Search(p, s, 1);
    MetricFromFirstMatch(s, 0);
  }

  /** A rate without `%` is not recognised. */
  lemma RateNeedsPercent(s: string)
    requires s == "Revenue Growth Rate: 12.5"
    ensures Get(Metrics(s), RevenueGrowthRate) == None
  {
    var p := PatternOf(RevenueGrowthRate);
    forall j | 0 <= j ensures !MatchAt(p, s, j) {
      if j == 0 {
        SepRunIs(s, 19, 2);
        NumRunIs(Rate, s, 21, 4);
      } else if j < 7 {
        assert s[j] != p.text[0];
      }
    }
    SearchIs(p, s, 0, None);
    MetricFromFirstMatch(s, 2);
  }

  // A conversion failure in the first block leaves every metric None.

  lemma ThreePieces()
    ensures |Split("1.2.3", '.')| == 3
  {
    assert "1.2.3" == "1" + ['.'] + ("2" + ['.'] + "3");
    SplitConcat("1", "2" + ['.'] + "3", '.');
    SplitConcat("2", "3", '.');
  }

  lemma NotANumber()
    ensures Float("1.2.3") == None
  {
    ThreePieces();
    assert Strip("1.2.3") == "1.2.3";
  }

  lemma BadMatchFront(pre: string)
    requires pre == "Revenue: $1.2.3 "
    ensures MatchAt(PatternOf(Revenue), pre, 0) && Group(PatternOf(Revenue), pre, 0) == "1.2.3"
    ensures GroupStart(Currency, pre, 7) + |Group(PatternOf(Revenue), pre, 0)| < |pre|
  {
    assert LabelAt(PatternOf(Revenue), pre, 0);
    SepRunIs(pre, 7, 2);
    NumRunIs(Currency, pre, 10, 5);
    assert pre[10..15] == "1.2.3";
  }

  lemma BadMatchJoined(pre: string, post: string)
    requires pre == "Revenue: $1.2.3 "
    ensures MatchAt(PatternOf(Revenue), pre + post, 0) && Group(PatternOf(Revenue), pre + post, 0) == "1.2.3"
  {
    BadMatchFront(pre);
    MatchExtend(PatternOf(Revenue), pre, post, 0);
  }

  lemma BadMatch(s: string)
    requires s == "Revenue: $1.2.3 Net Profit: $5"
    ensures MatchAt(PatternOf(Revenue), s, 0) && Group(PatternOf(Revenue), s, 0) == "1.2.3"
  {
    BadMatchJoined("Revenue: $1.2.3 ", "Net Profit: $5");
    assert s == "Revenue: $1.2.3 " + "Net Profit: $5";
  }

  lemma BadRevenue(s: string)
    requires s == "Revenue: $1.2.3 Net Profit: $5"
    ensures Attempts(s)[0] == Invalid
  {
    var p := PatternOf(Revenue);
    BadMatch(s);
    RemoveAllSpec("1.2.3", ',');
    NotANumber();
    assert Search(p, s, 0) == Some(0);
    AttemptsAt(s, 0);
  }

  lemma NetProfitBack(post: string)
    requires post == "Net Profit: $5"
    ensures MatchAt(PatternOf(NetProfit), post, 0)
  {
    assert LabelAt(PatternOf(NetProfit), post, 0);
    SepRunIs(post, 10, 2);
    NumRunIs(Currency, post, 13, 1);
  }

  lemma NetProfitPresent(s: string)
    requires s == "Revenue: $1.2.3 Net Profit: $5"
    ensures MatchAt(PatternOf(NetProfit), s, 16)
  {
    var pre, post := "Revenue: $1.2.3 ", "Net Profit: $5";
    assert s == pre + post;
    NetProfitBack(post);
    MatchShift(PatternOf(NetProfit), pre, post, 0);
  }

  /** "1.2.3" is not a number: that ValueError ends the try block, so even the Net Profit line,
      which the pattern does match, is left None. */
  lemma ConversionFailureClearsLaterMetrics(s: string)
    requires s == "Revenue: $1.2.3 Net Profit: $5"
    ensures Search(PatternOf(NetProfit), s, 0).Some?
    ensures Metrics(s) == NoKpis
  {
    BadRevenue(s);
    NetProfitPresent(s);
    SearchLeftmost(PatternOf(NetProfit), s, 0);
    FailureIsolation(s, 0);
    assert Get(Metrics(s), AllKeys[0]) == None;
    assert Get(Metrics(s), AllKeys[1]) == None;
    assert Get(Metrics(s), AllKeys[2]) == None;
    assert Get(Metrics(s), AllKeys[3]) == None;
  }

  // A report with revenue, net profit and growth rate but no cost reduction.

  lemma Value500000()
    ensures DigitsValue("500000") == 500000
  {
    DigitsValueAppend("5", '0');
    assert "5" + ['0'] == "50";
    DigitsValueAppend("50", '0');
    assert "50" + ['0'] == "500";
    DigitsValueAppend("500", '0');
    assert "500" + ['0'] == "5000";
    DigitsValueAppend("5000", '0');
    assert "5000" + ['0'] == "50000";
    DigitsValueAppend("50000", '0');
    assert "50000" + ['0'] == "500000";
  }

  lemma Value120000()
    ensures DigitsValue("120000") == 120000
  {
    DigitsValueAppend("1", '2');
    assert "1" + ['2'] == "12";
    DigitsValueAppend("12", '0');
    assert "12" + ['0'] == "120";
    DigitsValueAppend("120", '0');
    assert "120" + ['0'] == "1200";
    DigitsValueAppend("1200", '0');
    assert "1200" + ['0'] == "12000";
    DigitsValueAppend("12000", '0');
    assert "12000" + ['0'] == "120000";
  }

  lemma Float500000()
    ensures Float(RemoveAll("500,000", ',')) == Some(500000.0)
  {
    assert "500,000" == "500" + [','] + "000";
    CommaDropped("500", "000");
    assert "500" + "000" == "500000";
    Value500000();
    FloatOfDigits("500000");
  }

  lemma Float120000()
    ensures Float(RemoveAll("120,000", ',')) == Some(120000.0)
  {
    assert "120,000" == "120" + [','] + "000";
    CommaDropped("120", "000");
    assert "120" + "000" == "120000";
    Value120000();
    FloatOfDigits("120000");
  }

  lemma Float12Point5()
    ensures Float("12.5") == Some(12.5)
  {
    DigitsValueAppend("1", '2');
    assert "1" + ['2'] == "12";
    assert DigitsValue("5") == 5;
    assert Pow10(1) == 10;
    assert "12" + "." + "5" == "12.5";
    FloatOfDecimal("12", "5");
  }

  lemma RevenueLine(l1: string)
    requires l1 == "Revenue: $500,000\n"
    ensures MatchAt(PatternOf(Revenue), l1, 0) && Group(PatternOf(Revenue), l1, 0) == "500,000"
    ensures GroupStart(Currency, l1, 7) + |Group(PatternOf(Revenue), l1, 0)| < |l1|
  {
    assert LabelAt(PatternOf(Revenue), l1, 0);
    SepRunIs(l1, 7, 2);
    NumRunIs(Currency, l1, 10, 7);
    assert l1[10..17] == "500,000";
  }

  lemma NetProfitLine(l2: string)
    requires l2 == "Net Profit: $120,000\n"
    ensures MatchAt(PatternOf(NetProfit), l2, 0) && Group(PatternOf(NetProfit), l2, 0) == "120,000"
    ensures GroupStart(Currency, l2, 10) + |Group(PatternOf(NetProfit), l2, 0)| < |l2|
  {
    assert LabelAt(PatternOf(NetProfit), l2, 0);
    SepRunIs(l2, 10, 2);
    NumRunIs(Currency, l2, 13, 7);
    assert l2[13..20] == "120,000";
  }

  lemma GrowthLine(l3: string)
    requires l3 == "Revenue Growth Rate: 12.5%"
    ensures MatchAt(PatternOf(RevenueGrowthRate), l3, 0) && Group(PatternOf(RevenueGrowthRate), l3, 0) == "12.5"
  {
    assert LabelAt(PatternOf(RevenueGrowthRate), l3, 0);
    SepRunIs(l3, 19, 2);
    NumRunIs(Rate, l3, 21, 4);
    assert l3[21..25] == "12.5";
  }

  lemma ReportRevenue(l1: string, rest: string)
    requires l1 == "Revenue: $500,000\n"
    ensures AttemptOf(Revenue, l1 + rest) == Converted(500000.0)
  {
    var p := PatternOf(Revenue);
    RevenueLine(l1);
    MatchExtend(p, l1, rest, 0);
    assert Search(p, l1 + rest, 0) == Some(0);
    Float500000();
  }

  lemma NetProfitFirst(l2: string, rest: string)
    requires l2 == "Net Profit: $120,000\n"
    ensures AttemptOf(NetProfit, l2 + rest) == Converted(120000.0)
  {
    var p := PatternOf(NetProfit);
    NetProfitLine(l2);
    MatchExtend(p, l2, rest, 0);
    assert Search(p, l2 + rest, 0) == Some(0);
    Float120000();
  }

  lemma ReportNetProfit(l1: string, l2: string, rest: string)
    requires l1 == "Revenue: $500,000\n" && l2 == "Net Profit: $120,000\n"
    ensures AttemptOf(NetProfit, l1 + (l2 + rest)) == Converted(120000.0)
  {
    assert 'N' !in l1;
    AttemptSkip(NetProfit, l1, l2 + rest);
    NetProfitFirst(l2, rest);
  }

  lemma GrowthFirst(l3: string)
    requires l3 == "Revenue Growth Rate: 12.5%"
    ensures AttemptOf(RevenueGrowthRate, l3) == Converted(12.5)
  {
    GrowthLine(l3);
    assert Search(PatternOf(RevenueGrowthRate), l3, 0) == Some(0);
    Float12Point5();
  }

  /** A character missing from two pieces (from `from` on in the first) is missing from
      their concatenation from `from` on. */
  lemma AbsentFrom(x: string, y: string, c: char, from: nat)
    requires forall k :: from <= k < |x| ==> x[k] != c
    requires forall k :: 0 <= k < |y| ==> y[k] != c
    ensures forall k :: from <= k < |x + y| ==> (x + y)[k] != c
  {
    forall k | from <= k < |x + y| ensures (x + y)[k] != c {
      if k >= |x| { assert (x + y)[k] == y[k - |x|]; }
    }
  }

  lemma NoCapitalRAfterFirst(l1: string, l2: string)
    requires l1 == "Revenue: $500,000\n" && l2 == "Net Profit: $120,000\n"
    ensures forall k :: 1 <= k < |l1| ==> l1[k] != 'R'
    ensures forall k :: 0 <= k < |l2| ==> l2[k] != 'R'
  {
  }

  /** Only the report's first character could start the growth-rate label, and the label
      does not match there. */
  lemma GrowthNotInFront(l1: string, l2: string, l3: string)
    requires l1 == "Revenue: $500,000\n" && l2 == "Net Profit: $120,000\n"
    ensures !MatchAt(PatternOf(RevenueGrowthRate), (l1 + l2) + l3, 0)
    ensures forall k :: 1 <= k < |l1 + l2| ==> (l1 + l2)[k] != PatternOf(RevenueGrowthRate).text[0]
  {
    assert ((l1 + l2) + l3)[7] == l1[7];
    NoCapitalRAfterFirst(l1, l2);
    AbsentFrom(l1, l2, 'R', 1);
  }

  lemma ReportGrowth(l1: string, l2: string, l3: string)
    requires l1 == "Revenue: $500,000\n" && l2 == "Net Profit: $120,000\n"
    requires l3 == "Revenue Growth Rate: 12.5%"
    ensures AttemptOf(RevenueGrowthRate, (l1 + l2) + l3) == Converted(12.5)
  {
    GrowthNotInFront(l1, l2, l3);
    SearchSkipFrom(PatternOf(RevenueGrowthRate), l1 + l2, l3, 1);
    AttemptWithShift(PatternOf(RevenueGrowthRate), l1 + l2, l3);
    GrowthFirst(l3);
  }

  lemma ReportCost(l1: string, l2: string, l3: string)
    requires l1 == "Revenue: $500,000\n" && l2 == "Net Profit: $120,000\n"
    requires l3 == "Revenue Growth Rate: 12.5%"
    ensures AttemptOf(OperationalCostReduction, (l1 + l2) + l3) == NoMatch
  {
    assert 'O' !in l1 && 'O' !in l2 && 'O' !in l3;
    assert 'O' !in (l1 + l2) + l3;
    NoLabelNoMatch(PatternOf(OperationalCostReduction), (l1 + l2) + l3);
  }

  lemma ReportAttempts(s: string)
    requires AttemptOf(Revenue, s) == Converted(500000.0) && AttemptOf(NetProfit, s) == Converted(120000.0)
    requires AttemptOf(RevenueGrowthRate, s) == Converted(12.5) && AttemptOf(OperationalCostReduction, s) == NoMatch
    ensures Metrics(s) == Kpis(Some(500000.0), Some(120000.0), Some(12.5), None)
  {
    var a := Attempts(s);
    assert !FailsBefore(a, 1);
    assert !FailsBefore(a, 2);
    assert !FailsBefore(a, 3);
  }

  /** A report of three labelled lines: their values come back with the thousands separators
      removed, and the cost reduction, which the report does not mention, stays None. */
  lemma ReportWithThreeMetrics(l1: string, l2: string, l3: string)
    requires l1 == "Revenue: $500,000\n" && l2 == "Net Profit: $120,000\n"
    requires l3 == "Revenue Growth Rate: 12.5%"
    ensures Metrics(l1 + l2 + l3) == Kpis(Some(500000.0), Some(120000.0), Some(12.5), None)
  {
    assert l1 + (l2 + l3) == (l1 + l2) + l3;
    ReportRevenue(l1, l2 + l3);
    ReportNetProfit(l1, l2, l3);
    ReportGrowth(l1, l2, l3);
    ReportCost(l1, l2, l3);
    ReportAttempts(l1 + l2 + l3);
  }
}
