/**
 * The recommendation scorer of src/lib/recommendations/recommendEngine.ts:
 * a fixed battery of rules over the column types of a dataset analysis that
 * emits chart candidates with scores, ranked by a stable descending sort, and
 * a structural check of whether a chart type suits a dataset.
 */
module RecommendEngine {
  import opened Wrappers
  import opened AnalyzeData

  datatype ChartType = Bar | Line | Area | Scatter | Pie | Histogram | Boxplot | Heatmap | Radar

  /** The semantic type a chart expects on an axis. */
  datatype Channel = NumericChannel | CategoricalChannel | DateChannel

  datatype Channels = Channels(x: Channel, y: Channel)

  datatype ChartRecommendation = ChartRecommendation(
    chart: ChartType,
    score: int,
    title: string,
    description: string,
    requiredChannels: Channels)

  // ---------------------------------------------------------------------------
  // Column filters
  // ---------------------------------------------------------------------------

  /** `analysis.columns.filter(c => c.type === t)` */
  function ColumnsOfType(cols: seq<ColumnAnalysis>, t: ColumnType): (r: seq<ColumnAnalysis>)
    ensures |r| <= |cols|
    ensures forall c :: c in r ==> c in cols && c.kind == t
    ensures forall c :: c in cols && c.kind == t ==> c in r
  {
    if cols == [] then []
    else if cols[0].kind == t then [cols[0]] + ColumnsOfType(cols[1..], t)
    else ColumnsOfType(cols[1..], t)
  }

  /** Each column of type `t` is kept as often as it occurs, and no other column is kept. */
  lemma {:induction false} ColumnsOfTypeMultiplicity(cols: seq<ColumnAnalysis>, t: ColumnType)
    ensures forall c :: multiset(ColumnsOfType(cols, t))[c] == if c.kind == t then multiset(cols)[c] else 0
  {
    if cols != [] {
      ColumnsOfTypeMultiplicity(cols[1..], t);
      assert cols == [cols[0]] + cols[1..];
    }
  }

  /** The first column of type `t` heads the filtered list: this is `categoricalCols[0]`. */
  lemma {:induction false} ColumnsOfTypeFirst(cols: seq<ColumnAnalysis>, t: ColumnType, k: nat)
    requires k < |cols| && cols[k].kind == t
    requires forall j :: 0 <= j < k ==> cols[j].kind != t
    ensures ColumnsOfType(cols, t) != [] && ColumnsOfType(cols, t)[0] == cols[k]
  {
    if k > 0 {
      ColumnsOfTypeFirst(cols[1..], t, k - 1);
    }
  }

  /** The filter distributes over concatenation, so it keeps the columns' order. */
  lemma {:induction false} ColumnsOfTypeAppend(a: seq<ColumnAnalysis>, b: seq<ColumnAnalysis>, t: ColumnType)
    ensures ColumnsOfType(a + b, t) == ColumnsOfType(a, t) + ColumnsOfType(b, t)
  {
    if a == [] {
      assert a + b == b;
    } else {
      ColumnsOfTypeAppend(a[1..], b, t);
      AppendStep(a, b, t);
    }
  }

  /** The inductive step of the append law: putting the first column back in front. */
  lemma AppendStep(a: seq<ColumnAnalysis>, b: seq<ColumnAnalysis>, t: ColumnType)
    requires a != []
    requires ColumnsOfType(a[1..] + b, t) == ColumnsOfType(a[1..], t) + ColumnsOfType(b, t)
    ensures ColumnsOfType(a + b, t) == ColumnsOfType(a, t) + ColumnsOfType(b, t)
  {
    var tail := a[1..];
    var head := if a[0].kind == t then [a[0]] else [];
    UnfoldAppend(a, b, t);
    assert ColumnsOfType(a, t) == head + ColumnsOfType(tail, t);
    PrependRegroup(ColumnsOfType(a + b, t), ColumnsOfType(a, t), head, ColumnsOfType(tail, t), ColumnsOfType(b, t));
  }

  lemma UnfoldAppend(a: seq<ColumnAnalysis>, b: seq<ColumnAnalysis>, t: ColumnType)
    requires a != []
    ensures ColumnsOfType(a + b, t) == (if a[0].kind == t then [a[0]] else []) + ColumnsOfType(a[1..] + b, t)
  {
    assert (a + b)[0] == a[0];
    assert (a + b)[1..] == a[1..] + b;
  }

  /** Indices of the columns of type `t`. */
  ghost function IndicesOfType(cols: seq<ColumnAnalysis>, t: ColumnType): set<int> {
    set i | 0 <= i < |cols| && cols[i].kind == t
  }

  lemma IndicesAppend(init: seq<ColumnAnalysis>, last: ColumnAnalysis, t: ColumnType)
    ensures IndicesOfType(init + [last], t) == IndicesOfType(init, t) + (if last.kind == t then {|init|} else {})
    ensures |init| !in IndicesOfType(init, t)
  {
    var cols := init + [last];
    assert forall i :: 0 <= i < |init| ==> cols[i] == init[i];
    assert cols[|init|] == last;
  }

  /** The filter keeps one entry per column of type `t`: its length counts those columns. */
  lemma {:induction false} ColumnsOfTypeCount(cols: seq<ColumnAnalysis>, t: ColumnType)
    ensures |ColumnsOfType(cols, t)| == |IndicesOfType(cols, t)|
  {
    if cols != [] {
      var init := cols[..|cols| - 1];
      var last := cols[|cols| - 1];
      assert cols == init + [last];
      ColumnsOfTypeCount(init, t);
      ColumnsOfTypeAppend(init, [last], t);
      IndicesAppend(init, last, t);
      assert [last][1..] == [];
      assert ColumnsOfType([last], t) == if last.kind == t then [last] else [];
    }
  }

  function NumericCols(a: DatasetAnalysis): seq<ColumnAnalysis> { ColumnsOfType(a.columns, Numeric) }
  function CategoricalCols(a: DatasetAnalysis): seq<ColumnAnalysis> { ColumnsOfType(a.columns, Categorical) }
  function DateCols(a: DatasetAnalysis): seq<ColumnAnalysis> { ColumnsOfType(a.columns, Date) }

  // ---------------------------------------------------------------------------
  // Compatibility check
  // ---------------------------------------------------------------------------

  datatype Compatibility = Compatibility(compatible: bool, reason: Option<string>)

  /** Minimum number of date, numeric and categorical columns a chart type needs. */
  datatype Requirement = Requirement(dates: nat, numerics: nat, categoricals: nat)

  /** The requirement table, one row per chart type; heatmap needs nothing. */
  function MinimumColumns(t: ChartType): Requirement {
    match t
    case Line | Area => Requirement(1, 1, 0)
    case Bar | Pie | Radar => Requirement(0, 1, 1)
    case Scatter => Requirement(0, 2, 0)
    case Histogram | Boxplot => Requirement(0, 1, 0)
    case Heatmap => Requirement(0, 0, 0)
  }

  predicate Meets(a: DatasetAnalysis, req: Requirement) {
    && |DateCols(a)| >= req.dates
    && |NumericCols(a)| >= req.numerics
    && |CategoricalCols(a)| >= req.categoricals
  }

  /** `checkChartCompatibility(analysis, chartType)`; `None` stands for a null analysis. */
  function CheckChartCompatibility(analysis: Option<DatasetAnalysis>, chart: ChartType): (c: Compatibility)
    ensures c.reason.Some? <==> !c.compatible
    ensures analysis.None? ==> c == Compatibility(false, Some("No dataset loaded"))
    ensures analysis.Some? ==> (c.compatible <==> Meets(analysis.value, MinimumColumns(chart)))
    ensures (analysis.Some? && chart == Scatter && |NumericCols(analysis.value)| < 2)
            ==> c.reason == Some("Requires at least 2 Numeric columns")
    ensures (analysis.Some? && (chart == Line || chart == Area) && |DateCols(analysis.value)| == 0)
            ==> c.reason == Some("Requires a Date column (Time Series)")
    ensures (analysis.Some? && (chart == Line || chart == Area) && |DateCols(analysis.value)| > 0
             && |NumericCols(analysis.value)| == 0)
            ==> c.reason == Some("Requires at least 1 Numeric column")
    ensures chart == Heatmap && analysis.Some? ==> c.compatible
  {
    match analysis
    case None => Compatibility(false, Some("No dataset loaded"))
    case Some(a) =>
      var numericCols := NumericCols(a);
      var categoricalCols := CategoricalCols(a);
      var dateCols := DateCols(a);
      match chart
      case Line | Area =>
        if |dateCols| == 0 then Compatibility(false, Some("Requires a Date column (Time Series)"))
        else if |numericCols| == 0 then Compatibility(false, Some("Requires at least 1 Numeric column"))
        else Compatibility(true, None)
      case Bar | Pie | Radar =>
        if |categoricalCols| == 0 then Compatibility(false, Some("Requires a Categorical column"))
        else if |numericCols| == 0 then Compatibility(false, Some("Requires a Numeric column"))
        else Compatibility(true, None)
      case Scatter =>
        if |numericCols| < 2 then Compatibility(false, Some("Requires at least 2 Numeric columns"))
        else Compatibility(true, None)
      case Histogram | Boxplot =>
        if |numericCols| == 0 then Compatibility(false, Some("Requires a Numeric column"))
        else Compatibility(true, None)
      case Heatmap => Compatibility(true, None)
  }

  /** The axis channels each recommended chart type carries; heatmap is never recommended. */
  function RequiredChannels(t: ChartType): Option<Channels> {
    match t
    case Line | Area => Some(Channels(DateChannel, NumericChannel))
    case Histogram | Boxplot | Scatter => Some(Channels(NumericChannel, NumericChannel))
    case Bar | Pie | Radar => Some(Channels(CategoricalChannel, NumericChannel))
    case Heatmap => None
  }

  function KindOf(ch: Channel): ColumnType {
    match ch
    case NumericChannel => Numeric
    case CategoricalChannel => Categorical
    case DateChannel => Date
  }

  predicate HasColumnOfKind(a: DatasetAnalysis, t: ColumnType) {
    exists c :: c in a.columns && c.kind == t
  }

  /**
   * A chart type the check accepts can be drawn: the dataset has a column of
   * the type each of its axis channels expects.
   */
  lemma CompatibleChannelsAvailable(a: DatasetAnalysis, t: ChartType)
    requires CheckChartCompatibility(Some(a), t).compatible
    requires RequiredChannels(t).Some?
    ensures HasColumnOfKind(a, KindOf(RequiredChannels(t).value.x))
    ensures HasColumnOfKind(a, KindOf(RequiredChannels(t).value.y))
  {
    var chans := RequiredChannels(t).value;
    var req := MinimumColumns(t);
    if chans.x == DateChannel {
      assert DateCols(a)[0] in DateCols(a);
    } else if chans.x == CategoricalChannel {
      assert CategoricalCols(a)[0] in CategoricalCols(a);
    } else {
      assert NumericCols(a)[0] in NumericCols(a);
    }
    assert NumericCols(a)[0] in NumericCols(a);
  }

  // ---------------------------------------------------------------------------
  // Ranking: a stable sort by descending score
  // ---------------------------------------------------------------------------

  predicate ScoreDescending(s: seq<ChartRecommendation>) {
    forall i, j :: 0 <= i < j < |s| ==> s[i].score >= s[j].score
  }

  /** The head of a list in descending score order has the highest score. */
  lemma ScoreHeadGreatest(s: seq<ChartRecommendation>)
    requires s != [] && ScoreDescending(s)
    ensures forall y :: y in s ==> s[0].score >= y.score
  {
    forall y | y in s ensures s[0].score >= y.score {
      var j :| 0 <= j < |s| && s[j] == y;
    }
  }

  /** A recommendation scoring at least every element of a descending list may be put in front of it. */
  lemma ScoreCons(a: ChartRecommendation, t: seq<ChartRecommendation>)
    requires ScoreDescending(t)
    requires forall y :: y in t ==> a.score >= y.score
    ensures ScoreDescending([a] + t)
  {
    var r := [a] + t;
    forall i, j | 0 <= i < j < |r| ensures r[i].score >= r[j].score {
      assert r[j] == t[j - 1];
      if i == 0 {
        assert t[j - 1] in t;
      } else {
        assert r[i] == t[i - 1];
      }
    }
  }

  /** Inserts `x` before the first element that does not outscore it. */
  function InsertByScore(x: ChartRecommendation, s: seq<ChartRecommendation>): (r: seq<ChartRecommendation>)
    requires ScoreDescending(s)
    ensures |r| == |s| + 1
    ensures ScoreDescending(r)
    ensures multiset(r) == multiset(s) + multiset{x}
    ensures forall y :: y in r <==> y == x || y in s
  {
    if s == [] then
      [x]
    else if x.score >= s[0].score then
      ScoreHeadGreatest(s);
      ScoreCons(x, s);
      [x] + s
    else
      var rest := InsertByScore(x, s[1..]);
      assert s == [s[0]] + s[1..];
      ScoreHeadGreatest(s);
      forall y | y in rest ensures s[0].score >= y.score {
        assert y == x || y in s[1..];
      }
      ScoreCons(s[0], rest);
      [s[0]] + rest
  }

  /** `recs.sort((a, b) => b.score - a.score)`, which JavaScript performs stably. */
  function SortByScore(s: seq<ChartRecommendation>): (r: seq<ChartRecommendation>)
    ensures |r| == |s|
    ensures ScoreDescending(r)
    ensures multiset(r) == multiset(s)
    ensures forall y :: y in r <==> y in s
  {
    if s == [] then []
    else
      assert s == [s[0]] + s[1..];
      InsertByScore(s[0], SortByScore(s[1..]))
  }

  /** The recommendations with score `v`, in order. */
  function WithScore(s: seq<ChartRecommendation>, v: int): seq<ChartRecommendation> {
    if s == [] then []
    else (if s[0].score == v then [s[0]] else []) + WithScore(s[1..], v)
  }

  lemma WithScoreCons(h: ChartRecommendation, t: seq<ChartRecommendation>, v: int)
    ensures WithScore([h] + t, v) == (if h.score == v then [h] else []) + WithScore(t, v)
  {
    assert ([h] + t)[1..] == t;
  }

  /** A head scoring strictly more than `x` keeps its filter entry in front of `x`'s. */
  lemma WithScoreBehindHead(h: ChartRecommendation, x: ChartRecommendation, t: seq<ChartRecommendation>,
                            rest: seq<ChartRecommendation>, v: int)
    requires x.score < h.score
    requires WithScore(rest, v) == (if x.score == v then [x] else []) + WithScore(t, v)
    ensures WithScore([h] + rest, v) == (if x.score == v then [x] else []) + WithScore([h] + t, v)
  {
    WithScoreCons(h, rest, v);
    WithScoreCons(h, t, v);
    if x.score == v {
      assert h.score != v;
    }
  }

  /** Inserting behind a strictly higher head: the head's filter entry stays in front. */
  lemma InsertBehindHead(x: ChartRecommendation, s: seq<ChartRecommendation>, v: int)
    requires ScoreDescending(s) && s != [] && x.score < s[0].score
    requires WithScore(InsertByScore(x, s[1..]), v) == (if x.score == v then [x] else []) + WithScore(s[1..], v)
    ensures WithScore(InsertByScore(x, s), v) == (if x.score == v then [x] else []) + WithScore(s, v)
  {
    assert InsertByScore(x, s) == [s[0]] + InsertByScore(x, s[1..]);
    assert s == [s[0]] + s[1..];
    WithScoreBehindHead(s[0], x, s[1..], InsertByScore(x, s[1..]), v);
  }

  lemma {:induction false} InsertByScoreStable(x: ChartRecommendation, s: seq<ChartRecommendation>, v: int)
    requires ScoreDescending(s)
    ensures WithScore(InsertByScore(x, s), v) == (if x.score == v then [x] else []) + WithScore(s, v)
  {
    if s == [] {
      WithScoreCons(x, s, v);
      assert InsertByScore(x, s) == [x] + s;
    } else if x.score >= s[0].score {
      WithScoreCons(x, s, v);
    } else {
      InsertByScoreStable(x, s[1..], v);
      InsertBehindHead(x, s, v);
    }
  }

  /** Stability: among equal scores, the sort keeps the order of emission. */
  lemma {:induction false} SortByScoreStable(s: seq<ChartRecommendation>, v: int)
    ensures WithScore(SortByScore(s), v) == WithScore(s, v)
  {
    if s != [] {
      SortByScoreStable(s[1..], v);
      InsertByScoreStable(s[0], SortByScore(s[1..]), v);
    }
  }

  /** Position of each chart type in the order the rules emit them. */
  function EmissionRank(t: ChartType): nat {
    match t
    case Line => 0
    case Area => 1
    case Histogram => 2
    case Boxplot => 3
    case Scatter => 4
    case Bar => 5
    case Pie => 6
    case Radar => 7
    case Heatmap => 8
  }

  predicate InEmissionOrder(s: seq<ChartRecommendation>) {
    forall i, j :: 0 <= i < j < |s| ==> EmissionRank(s[i].chart) < EmissionRank(s[j].chart)
  }

  /** Descending score, ties broken by emission order; implies every chart type occurs once. */
  predicate Ranked(s: seq<ChartRecommendation>) {
    forall i, j :: 0 <= i < j < |s| ==> HeadBefore(s[i], s[j])
  }

  /** The head of a ranked list may come before each of the others. */
  lemma RankedHead(s: seq<ChartRecommendation>)
    requires s != [] && Ranked(s)
    ensures Ranked(s[1..])
    ensures forall y :: y in s[1..] ==> HeadBefore(s[0], y)
  {
    var tail := s[1..];
    forall i, j | 0 <= i < j < |tail| ensures HeadBefore(tail[i], tail[j]) {
      assert tail[i] == s[i + 1] && tail[j] == s[j + 1];
    }
    forall y | y in tail ensures HeadBefore(s[0], y) {
      var k :| 0 <= k < |tail| && tail[k] == y;
      assert s[k + 1] == y;
    }
  }

  lemma {:induction false} InsertByScoreRanked(x: ChartRecommendation, s: seq<ChartRecommendation>)
    requires ScoreDescending(s) && Ranked(s)
    requires forall y :: y in s ==> EmissionRank(x.chart) < EmissionRank(y.chart)
    ensures Ranked(InsertByScore(x, s))
  {
    var r := InsertByScore(x, s);
    if s == [] {
      assert r == [x] + s;
      RankedCons(x, s);
    } else if x.score >= s[0].score {
      assert r == [x] + s;
      ScoreHeadGreatest(s);
      forall j | 0 <= j < |s| ensures HeadBefore(x, s[j]) {
        assert s[j] in s;
      }
      RankedCons(x, s);
    } else {
      var tail := s[1..];
      var rest := InsertByScore(x, tail);
      RankedHead(s);
      assert forall y :: y in tail ==> y in s;
      InsertByScoreRanked(x, tail);
      assert r == [s[0]] + rest;
      assert s[0] in s;
      forall j | 0 <= j < |rest| ensures HeadBefore(s[0], rest[j]) {
        assert rest[j] in rest;
      }
      RankedCons(s[0], rest);
    }
  }

  /** `a` may come before `b` in a ranked list. */
  predicate HeadBefore(a: ChartRecommendation, b: ChartRecommendation) {
    a.chart != b.chart &&
    (a.score > b.score || (a.score == b.score && EmissionRank(a.chart) < EmissionRank(b.chart)))
  }

  lemma RankedCons(h: ChartRecommendation, t: seq<ChartRecommendation>)
    requires Ranked(t)
    requires forall j :: 0 <= j < |t| ==> HeadBefore(h, t[j])
    ensures Ranked([h] + t)
  {
    var r := [h] + t;
    forall i, j | 0 <= i < j < |r| ensures HeadBefore(r[i], r[j]) {
      if i == 0 {
        assert r[j] == t[j - 1];
      } else {
        assert r[i] == t[i - 1] && r[j] == t[j - 1];
      }
    }
  }

  /** Sorting a list emitted in rule order yields descending scores with ties in rule order. */
  lemma {:induction false} SortByScoreRanked(s: seq<ChartRecommendation>)
    requires InEmissionOrder(s)
    ensures Ranked(SortByScore(s))
  {
    if s != [] {
      assert InEmissionOrder(s[1..]);
      SortByScoreRanked(s[1..]);
      var sorted := SortByScore(s[1..]);
      forall y | y in sorted ensures EmissionRank(s[0].chart) < EmissionRank(y.chart) {
        assert y in multiset(s[1..]);
        var k :| 0 <= k < |s[1..]| && s[1..][k] == y;
        assert s[k + 1] == y;
      }
      InsertByScoreRanked(s[0], sorted);
    }
  }

  // ---------------------------------------------------------------------------
  // The rule battery
  // ---------------------------------------------------------------------------

  /** The score each rule attaches to the chart type it emits. */
  function RuleScore(t: ChartType, a: DatasetAnalysis): int {
    match t
    case Line => 95
    case Area => 90
    case Histogram => 80
    case Boxplot => 75
    case Scatter => if a.rowCount > 50 then 95 else 70
    case Bar => 90
    case Pie => 60
    case Radar => 70
    case Heatmap => 0
  }

  predicate Has(s: seq<ChartRecommendation>, t: ChartType) {
    exists r :: r in s && r.chart == t
  }

  /** The unique-value count of the first categorical column, the rules' `uniqueCount`. */
  function FirstCategoricalUnique(a: DatasetAnalysis): nat
    requires |CategoricalCols(a)| > 0
  {
    CategoricalCols(a)[0].unique
  }

  /**
   * The rule battery as a table: whether the rules emit chart type `t` for
   * this analysis. `u` is the unique count of the first categorical column.
   */
  predicate RuleFires(a: DatasetAnalysis, t: ChartType)
    ensures RuleFires(a, t) ==> t != Heatmap && |NumericCols(a)| > 0
  {
    var n := |NumericCols(a)|;
    var c := |CategoricalCols(a)|;
    var d := |DateCols(a)|;
    match t
    case Line | Area => d > 0 && n > 0 && a.rowCount > 20
    case Histogram => n > 0
    case Boxplot => n > 0 && a.rowCount > 10
    case Scatter => n >= 2
    case Bar => c > 0 && n > 0 && FirstCategoricalUnique(a) < 20
    case Pie => c > 0 && n > 0 && FirstCategoricalUnique(a) < 6
    case Radar => c > 0 && n > 2 && 3 < FirstCategoricalUnique(a) < 10
    case Heatmap => false
  }

  /** The full recommendation, title and description included, that the rule for `t` emits. */
  function Recommendation(t: ChartType, a: DatasetAnalysis): (r: ChartRecommendation)
    requires RuleFires(a, t)
    ensures r.chart == t && r.score == RuleScore(t, a)
    ensures RequiredChannels(t) == Some(r.requiredChannels)
  {
    var numericCols := NumericCols(a);
    var categoricalCols := CategoricalCols(a);
    match t
    case Line =>
      ChartRecommendation(Line, 95, "Time Series Line Chart",
        "Ideal for tracking " + numericCols[0].name + " over time.",
        Channels(DateChannel, NumericChannel))
    case Area =>
      ChartRecommendation(Area, 90, "Area Trend Chart",
        "Emphasizes the magnitude of change over time.",
        Channels(DateChannel, NumericChannel))
    case Histogram =>
      ChartRecommendation(Histogram, 80, "Distribution Histogram",
        "Analyze the frequency distribution of " + numericCols[0].name + ".",
        Channels(NumericChannel, NumericChannel))
    case Boxplot =>
      ChartRecommendation(Boxplot, 75, "Box & Whisker Plot",
        "Detect outliers and quartiles.",
        Channels(NumericChannel, NumericChannel))
    case Scatter =>
      ChartRecommendation(Scatter, if a.rowCount > 50 then 95 else 70, "Scatter Plot Analysis",
        "Investigate relationship between " + numericCols[0].name + " and " + numericCols[1].name + ".",
        Channels(NumericChannel, NumericChannel))
    case Bar =>
      ChartRecommendation(Bar, 90, "Categorical Bar Chart",
        "Compare " + numericCols[0].name + " across " + categoricalCols[0].name + ".",
        Channels(CategoricalChannel, NumericChannel))
    case Pie =>
      ChartRecommendation(Pie, 60, "Pie Chart Composition",
        "Show part-to-whole contribution.",
        Channels(CategoricalChannel, NumericChannel))
    case Radar =>
      ChartRecommendation(Radar, 70, "Radar Comparison",
        "Compare multiple variables across categories.",
        Channels(CategoricalChannel, NumericChannel))
  }

  /** An emitted recommendation is exactly the one its firing rule builds. */
  predicate BuiltByRule(r: ChartRecommendation, a: DatasetAnalysis) {
    RuleFires(a, r.chart) && r == Recommendation(r.chart, a)
  }

  /** The list emitted so far holds exactly the firing rules of rank below `k`, in rule order. */
  predicate EmittedBelow(s: seq<ChartRecommendation>, a: DatasetAnalysis, k: nat) {
    && InEmissionOrder(s)
    && (forall r :: r in s ==> BuiltByRule(r, a) && EmissionRank(r.chart) < k)
    && (forall t :: Has(s, t) <==> RuleFires(a, t) && EmissionRank(t) < k)
  }

  /** Facts about pushing one recommendation onto the list. */
  lemma Push(s: seq<ChartRecommendation>, x: ChartRecommendation)
    ensures forall r :: r in s + [x] <==> r in s || r == x
    ensures forall t :: Has(s + [x], t) <==> Has(s, t) || x.chart == t
    ensures InEmissionOrder(s) && (forall r :: r in s ==> EmissionRank(r.chart) < EmissionRank(x.chart))
            ==> InEmissionOrder(s + [x])
  {
    var s' := s + [x];
    forall t ensures Has(s', t) <==> Has(s, t) || x.chart == t {
      if Has(s', t) {
        var r :| r in s' && r.chart == t;
        assert r in s || r == x;
      }
      if Has(s, t) {
        var r :| r in s && r.chart == t;
        assert r in s';
      }
      if x.chart == t {
        assert x in s';
      }
    }
    if InEmissionOrder(s) && (forall r :: r in s ==> EmissionRank(r.chart) < EmissionRank(x.chart)) {
      forall i, j | 0 <= i < j < |s'| ensures EmissionRank(s'[i].chart) < EmissionRank(s'[j].chart) {
        if j == |s| {
          assert s'[i] == s[i];
          assert s[i] in s;
        } else {
          assert s'[i] == s[i] && s'[j] == s[j];
        }
      }
    }
  }

  /** Pushing the recommendation of a firing rule of rank k extends the emitted list to rank k + 1. */
  lemma PushFired(s: seq<ChartRecommendation>, a: DatasetAnalysis, k: nat, x: ChartRecommendation)
    requires EmittedBelow(s, a, k)
    requires EmissionRank(x.chart) == k && RuleFires(a, x.chart) && BuiltByRule(x, a)
    ensures EmittedBelow(s + [x], a, k + 1)
  {
    Push(s, x);
    forall t ensures Has(s + [x], t) <==> RuleFires(a, t) && EmissionRank(t) < k + 1 {
      RankInjective(t, x.chart);
    }
  }

  /** Skipping a rule of rank k that does not fire also extends the emitted list to rank k + 1. */
  lemma SkipRule(s: seq<ChartRecommendation>, a: DatasetAnalysis, k: nat, t0: ChartType)
    requires EmittedBelow(s, a, k)
    requires EmissionRank(t0) == k && !RuleFires(a, t0)
    ensures EmittedBelow(s, a, k + 1)
  {
    forall t ensures Has(s, t) <==> RuleFires(a, t) && EmissionRank(t) < k + 1 {
      RankInjective(t, t0);
    }
  }

  lemma RankInjective(t: ChartType, u: ChartType)
    ensures EmissionRank(t) == EmissionRank(u) <==> t == u
  {
  }

  /** A permutation contains the same recommendations and chart types. */
  lemma HasPermutation(s: seq<ChartRecommendation>, r: seq<ChartRecommendation>)
    requires multiset(s) == multiset(r)
    ensures forall x :: x in r <==> x in s
    ensures forall t :: Has(r, t) <==> Has(s, t)
  {
    forall x ensures x in r <==> x in s {
      assert x in r <==> x in multiset(r);
      assert x in s <==> x in multiset(s);
    }
  }

  /** Every chart type the rules emit passes the compatibility check on the same analysis. */
  lemma RuleFiresCompatible(a: DatasetAnalysis, t: ChartType)
    requires RuleFires(a, t)
    ensures CheckChartCompatibility(Some(a), t).compatible
  {
  }

  /** Rule 1, evolution: line and area for a date and a numeric column over more than 20 rows. */
  method EmitEvolution(analysis: DatasetAnalysis, recs: seq<ChartRecommendation>)
    returns (out: seq<ChartRecommendation>)
    requires EmittedBelow(recs, analysis, 0)
    ensures EmittedBelow(out, analysis, 2)
  {
    out := recs;
    var numericCols := NumericCols(analysis);
    var dateCols := DateCols(analysis);
    if |dateCols| > 0 && |numericCols| > 0 {
      if analysis.rowCount > 20 {
        var line := Recommendation(Line, analysis);
        PushFired(out, analysis, 0, line);
        out := out + [line];
        var area := Recommendation(Area, analysis);
        PushFired(out, analysis, 1, area);
        out := out + [area];
        return;
      }
    }
    SkipRule(out, analysis, 0, Line);
    SkipRule(out, analysis, 1, Area);
  }

  /** Rule 2, distribution: histogram for a numeric column, boxplot too over more than 10 rows. */
  method EmitDistribution(analysis: DatasetAnalysis, recs: seq<ChartRecommendation>)
    returns (out: seq<ChartRecommendation>)
    requires EmittedBelow(recs, analysis, 2)
    ensures EmittedBelow(out, analysis, 4)
  {
    out := recs;
    var numericCols := NumericCols(analysis);
    if |numericCols| > 0 {
      var histogram := Recommendation(Histogram, analysis);
      PushFired(out, analysis, 2, histogram);
      out := out + [histogram];
      if analysis.rowCount > 10 {
        var boxplot := Recommendation(Boxplot, analysis);
        PushFired(out, analysis, 3, boxplot);
        out := out + [boxplot];
      } else {
        SkipRule(out, analysis, 3, Boxplot);
      }
    } else {
      SkipRule(out, analysis, 2, Histogram);
      SkipRule(out, analysis, 3, Boxplot);
    }
  }

  /** Rule 3, correlation: scatter for two numeric columns, scored 95 over more than 50 rows, else 70. */
  method EmitCorrelation(analysis: DatasetAnalysis, recs: seq<ChartRecommendation>)
    returns (out: seq<ChartRecommendation>)
    requires EmittedBelow(recs, analysis, 4)
    ensures EmittedBelow(out, analysis, 5)
  {
    out := recs;
    var numericCols := NumericCols(analysis);
    if |numericCols| >= 2 {
      var scatter := Recommendation(Scatter, analysis);
      PushFired(out, analysis, 4, scatter);
      out := out + [scatter];
    } else {
      SkipRule(out, analysis, 4, Scatter);
    }
  }

  /** Rule 4, ranking and part-of-whole: bar, pie and radar keyed on the first categorical column. */
  method EmitRanking(analysis: DatasetAnalysis, recs: seq<ChartRecommendation>)
    returns (out: seq<ChartRecommendation>)
    requires EmittedBelow(recs, analysis, 5)
    ensures EmittedBelow(out, analysis, 8)
  {
    out := recs;
    var numericCols := NumericCols(analysis);
    var categoricalCols := CategoricalCols(analysis);
    if |categoricalCols| > 0 && |numericCols| > 0 {
      var uniqueCount := categoricalCols[0].unique;
      if uniqueCount < 20 {
        var bar := Recommendation(Bar, analysis);
        PushFired(out, analysis, 5, bar);
        out := out + [bar];
      } else {
        SkipRule(out, analysis, 5, Bar);
      }
      if uniqueCount < 6 {
        var pie := Recommendation(Pie, analysis);
        PushFired(out, analysis, 6, pie);
        out := out + [pie];
      } else {
        SkipRule(out, analysis, 6, Pie);
      }
      if uniqueCount > 3 && uniqueCount < 10 && |numericCols| > 2 {
        var radar := Recommendation(Radar, analysis);
        PushFired(out, analysis, 7, radar);
        out := out + [radar];
      } else {
        SkipRule(out, analysis, 7, Radar);
      }
    } else {
      SkipRule(out, analysis, 5, Bar);
      SkipRule(out, analysis, 6, Pie);
      SkipRule(out, analysis, 7, Radar);
    }
  }

  /** The ranked list holds a chart type exactly when its rule fires. */
  lemma RankedFiring(recs: seq<ChartRecommendation>, analysis: DatasetAnalysis)
    requires EmittedBelow(recs, analysis, 8)
    ensures forall t :: Has(SortByScore(recs), t) <==> RuleFires(analysis, t)
  {
    HasPermutation(recs, SortByScore(recs));
  }

  /** Every entry of the ranked list is the record its rule builds. */
  lemma RankedBuiltByRule(recs: seq<ChartRecommendation>, analysis: DatasetAnalysis)
    requires EmittedBelow(recs, analysis, 8)
    ensures forall r :: r in SortByScore(recs) ==> BuiltByRule(r, analysis)
  {
    var ranked := SortByScore(recs);
    forall r | r in ranked ensures BuiltByRule(r, analysis) {
      assert r in multiset(ranked);
      assert r in recs;
    }
  }

  /** The ranked list is empty exactly when there is no numeric column. */
  lemma RankedEmpty(recs: seq<ChartRecommendation>, analysis: DatasetAnalysis)
    requires EmittedBelow(recs, analysis, 8)
    ensures SortByScore(recs) == [] <==> |NumericCols(analysis)| == 0
  {
    var ranked := SortByScore(recs);
    RankedFiring(recs, analysis);
    if |NumericCols(analysis)| > 0 {
      assert RuleFires(analysis, Histogram);
      assert Has(ranked, Histogram);
    }
    if ranked != [] {
      assert ranked[0] in ranked;
      assert Has(ranked, ranked[0].chart);
    }
  }

  /** Every recommendation in the list passes the compatibility check. */
  lemma EmittedCompatible(ranked: seq<ChartRecommendation>, analysis: DatasetAnalysis)
    requires forall t :: Has(ranked, t) <==> RuleFires(analysis, t)
    ensures forall r :: r in ranked ==> CheckChartCompatibility(Some(analysis), r.chart).compatible
  {
    forall r | r in ranked ensures CheckChartCompatibility(Some(analysis), r.chart).compatible {
      assert Has(ranked, r.chart);
      RuleFiresCompatible(analysis, r.chart);
    }
  }

  /** `recommendCharts(analysis)` */
  method RecommendCharts(analysis: DatasetAnalysis) returns (ranked: seq<ChartRecommendation>)
    ensures Ranked(ranked)
    ensures forall t :: Has(ranked, t) <==> RuleFires(analysis, t)
    ensures forall r :: r in ranked ==> RuleFires(analysis, r.chart) && r == Recommendation(r.chart, analysis)
    ensures forall r :: r in ranked ==> r.score == RuleScore(r.chart, analysis)
    ensures forall r :: r in ranked ==> RequiredChannels(r.chart) == Some(r.requiredChannels)
    ensures forall r :: r in ranked ==> CheckChartCompatibility(Some(analysis), r.chart).compatible
    ensures ranked == [] <==> |NumericCols(analysis)| == 0
  {
    var recs: seq<ChartRecommendation> := [];
    recs := EmitEvolution(analysis, recs);
    recs := EmitDistribution(analysis, recs);
    recs := EmitCorrelation(analysis, recs);
    recs := EmitRanking(analysis, recs);
    ranked := SortByScore(recs);
    SortByScoreRanked(recs);
    RankedFiring(recs, analysis);
    RankedBuiltByRule(recs, analysis);
    RankedEmpty(recs, analysis);
    EmittedCompatible(ranked, analysis);
  }

  // ---------------------------------------------------------------------------
  // Consequences of the rule table
  // ---------------------------------------------------------------------------

  /** Every score the rules emit is one of 95, 90, 80, 75, 70, 60, so it lies within 0..100. */
  lemma RuleScoresInRange(a: DatasetAnalysis, t: ChartType)
    requires RuleFires(a, t)
    ensures RuleScore(t, a) in {95, 90, 80, 75, 70, 60}
    ensures 0 <= RuleScore(t, a) <= 100
  {
  }

  /** Pie is emitted only alongside bar, since fewer than 6 categories are fewer than 20. */
  lemma PieImpliesBar(a: DatasetAnalysis)
    ensures RuleFires(a, Pie) ==> RuleFires(a, Bar)
  {
  }

  /** Line and area are emitted together. */
  lemma LineAreaTogether(a: DatasetAnalysis)
    ensures RuleFires(a, Line) <==> RuleFires(a, Area)
  {
  }
}
