/**
 * The dataset profiler of src/lib/analyzeData.ts: for every named column it
 * drops the missing cells, counts missing and distinct values, infers a
 * column type and, for numeric columns, computes min, max, mean and the
 * upper-middle median; for the whole dataset it computes a completeness score.
 */
module AnalyzeData {
  import opened Wrappers

  /** A scalar cell as the file decoder hands it over. */
  datatype Value = Null | Undefined | Text(s: string) | Num(x: real) | Flag(b: bool)

  /** A row maps column names to cells; a name the row lacks reads as `Undefined`. */
  type Row = map<string, Value>

  /**
   * The two JavaScript coercions the profiler relies on, supplied by the caller:
   * `toNumber(v)` is `Number(v)`, with `None` for NaN, and `parsesAsDate(v)` says
   * whether `Date.parse(String(v))` is not NaN.
   */
  datatype Coercions = Coercions(toNumber: Value -> Option<real>, parsesAsDate: Value -> bool)

  datatype ColumnType = Numeric | Categorical | Date | Unknown

  /** min, max, mean and median, which the source sets together on numeric columns only. */
  datatype NumericStats = NumericStats(min: real, max: real, mean: real, median: real)

  datatype ColumnAnalysis = ColumnAnalysis(
    name: string,
    kind: ColumnType,
    missing: nat,
    unique: nat,
    stats: Option<NumericStats>,
    sampleVal: Option<Value>)

  datatype DatasetAnalysis = DatasetAnalysis(
    rowCount: nat,
    columnCount: nat,
    columns: seq<ColumnAnalysis>,
    completenessScore: int)

  // ---------------------------------------------------------------------------
  // Cells and missing values
  // ---------------------------------------------------------------------------

  /** `d[col]`: the cell of a row, `Undefined` when the row has no such key. */
  function CellOf(row: Row, col: string): Value {
    if col in row then row[col] else Undefined
  }

  /** null, undefined and the empty string count as missing. */
  predicate IsMissing(v: Value) {
    v == Null || v == Undefined || v == Text("")
  }

  /** The cells of column `col` that are not missing, in row order. */
  function PresentValues(data: seq<Row>, col: string): (vals: seq<Value>)
    ensures |vals| <= |data|
  {
    if data == [] then []
    else
      var rest := PresentValues(data[1..], col);
      var v := CellOf(data[0], col);
      if IsMissing(v) then rest else [v] + rest
  }

  /**
   * `vals` holds exactly the non-missing cells of column `col`: nothing
   * missing, every present cell, nothing from outside the column; all rows
   * are kept iff none is missing, and none iff all are.
   */
  ghost predicate KeepsExactlyPresent(data: seq<Row>, col: string, vals: seq<Value>)
  {
    && (forall v :: v in vals ==> !IsMissing(v))
    && (forall i :: 0 <= i < |data| && !IsMissing(CellOf(data[i], col)) ==> CellOf(data[i], col) in vals)
    && (forall v :: v in vals ==> exists i :: 0 <= i < |data| && CellOf(data[i], col) == v)
    && (|vals| == |data| <==> forall i :: 0 <= i < |data| ==> !IsMissing(CellOf(data[i], col)))
    && (vals == [] <==> forall i :: 0 <= i < |data| ==> IsMissing(CellOf(data[i], col)))
  }

  /** The present values are exactly the non-missing cells of the column. */
  lemma {:induction false} PresentValuesMembers(data: seq<Row>, col: string)
    ensures KeepsExactlyPresent(data, col, PresentValues(data, col))
  {
    if data != [] {
      PresentValuesMembers(data[1..], col);
      assert forall i :: 1 <= i < |data| ==> CellOf(data[i], col) == CellOf(data[1..][i - 1], col);
    }
  }

  /**
   * What the filter on line 25 keeps: exactly the non-missing cells, one per
   * present row, so that the rows it drops are exactly the missing ones.
   */
  lemma PresentValuesSpec(data: seq<Row>, col: string)
    ensures var vals := PresentValues(data, col);
      && KeepsExactlyPresent(data, col, vals)
      && |vals| == |PresentRows(data, col)|
      && |data| - |vals| == |MissingRows(data, col)|
  {
    PresentValuesMembers(data, col);
    PresentValuesCount(data, col);
  }

  /** The filter distributes over concatenation, so it keeps the rows' order. */
  lemma {:induction false} PresentValuesAppend(a: seq<Row>, b: seq<Row>, col: string)
    ensures PresentValues(a + b, col) == PresentValues(a, col) + PresentValues(b, col)
  {
    if a == [] {
      assert a + b == b;
    } else {
      PresentValuesAppend(a[1..], b, col);
      PresentValuesAppendStep(a, b, col);
    }
  }

  /** The inductive step of the append law: putting the first row back in front. */
  lemma PresentValuesAppendStep(a: seq<Row>, b: seq<Row>, col: string)
    requires a != []
    requires PresentValues(a[1..] + b, col) == PresentValues(a[1..], col) + PresentValues(b, col)
    ensures PresentValues(a + b, col) == PresentValues(a, col) + PresentValues(b, col)
  {
    var v := CellOf(a[0], col);
    var head := if IsMissing(v) then [] else [v];
    PresentValuesUnfoldAppend(a, b, col);
    assert PresentValues(a, col) == head + PresentValues(a[1..], col);
    PrependRegroup(PresentValues(a + b, col), PresentValues(a, col), head,
                   PresentValues(a[1..], col), PresentValues(b, col));
  }

  lemma PresentValuesUnfoldAppend(a: seq<Row>, b: seq<Row>, col: string)
    requires a != []
    ensures var v := CellOf(a[0], col);
      PresentValues(a + b, col) == (if IsMissing(v) then [] else [v]) + PresentValues(a[1..] + b, col)
  {
    assert (a + b)[0] == a[0];
    assert (a + b)[1..] == a[1..] + b;
  }

  /** If whole = head + (x + y) and front = head + x, then whole = front + y. */
  lemma PrependRegroup<T>(whole: seq<T>, front: seq<T>, head: seq<T>, x: seq<T>, y: seq<T>)
    requires whole == head + (x + y) && front == head + x
    ensures whole == front + y
  {
    assert head + (x + y) == (head + x) + y;
  }

  /** Indices of the rows whose cell in `col` is present. */
  ghost function PresentRows(data: seq<Row>, col: string): set<int> {
    set i | 0 <= i < |data| && !IsMissing(CellOf(data[i], col))
  }

  /** Indices of the rows whose cell in `col` is missing. */
  ghost function MissingRows(data: seq<Row>, col: string): set<int> {
    set i | 0 <= i < |data| && IsMissing(CellOf(data[i], col))
  }

  /** Appending a row adds its index to the present or to the missing rows. */
  lemma RowsAppend(init: seq<Row>, last: Row, col: string)
    ensures IsMissing(CellOf(last, col)) ==>
      && PresentRows(init + [last], col) == PresentRows(init, col)
      && MissingRows(init + [last], col) == MissingRows(init, col) + {|init|}
    ensures !IsMissing(CellOf(last, col)) ==>
      && PresentRows(init + [last], col) == PresentRows(init, col) + {|init|}
      && MissingRows(init + [last], col) == MissingRows(init, col)
    ensures |init| !in PresentRows(init, col) && |init| !in MissingRows(init, col)
  {
    var data := init + [last];
    assert forall i :: 0 <= i < |init| ==> data[i] == init[i];
    assert data[|init|] == last;
  }

  /** One value is kept per present row, so the rest of the rows are exactly the missing ones. */
  lemma {:induction false} PresentValuesCount(data: seq<Row>, col: string)
    ensures |PresentValues(data, col)| == |PresentRows(data, col)|
    ensures |data| - |PresentValues(data, col)| == |MissingRows(data, col)|
  {
    if data != [] {
      var init := data[..|data| - 1];
      var last := data[|data| - 1];
      assert data == init + [last];
      PresentValuesCount(init, col);
      PresentValuesAppend(init, [last], col);
      RowsAppend(init, last, col);
      assert [last][1..] == [];
      assert PresentValues([last], col) == if IsMissing(CellOf(last, col)) then [] else [CellOf(last, col)];
    }
  }

  /** The first non-missing cell of a column is the head of its present values. */
  lemma {:induction false} FirstPresentValue(data: seq<Row>, col: string, k: nat)
    requires k < |data| && !IsMissing(CellOf(data[k], col))
    requires forall j :: 0 <= j < k ==> IsMissing(CellOf(data[j], col))
    ensures PresentValues(data, col) != [] && PresentValues(data, col)[0] == CellOf(data[k], col)
  {
    if k > 0 {
      FirstPresentValue(data[1..], col, k - 1);
    }
  }

  // ---------------------------------------------------------------------------
  // Distinct values
  // ---------------------------------------------------------------------------

  /** `new Set(values)`: the distinct values (structural equality). */
  function Distinct(vals: seq<Value>): set<Value> {
    set v | v in vals
  }

  /** A set built from a sequence is no larger than the sequence, and empty exactly when it is. */
  lemma {:induction false} DistinctSize(vals: seq<Value>)
    ensures |Distinct(vals)| <= |vals|
    ensures |Distinct(vals)| == 0 <==> vals == []
  {
    if vals != [] {
      DistinctSize(vals[1..]);
      assert Distinct(vals) == Distinct(vals[1..]) + {vals[0]};
      assert vals[0] in Distinct(vals);
    }
  }

  // ---------------------------------------------------------------------------
  // Type inference
  // ---------------------------------------------------------------------------

  /** `values.every(v => !isNaN(Number(v)))` */
  predicate AllNumeric(vals: seq<Value>, p: Coercions) {
    forall i :: 0 <= i < |vals| ==> p.toNumber(vals[i]).Some?
  }

  /**
   * The source's three steps over a variable that starts as `unknown`:
   * numeric if there is a value and every value converts; else date if the
   * first value parses as a date; whatever is still unknown becomes categorical.
   */
  function InferType(vals: seq<Value>, p: Coercions): (t: ColumnType)
    ensures t != Unknown
    ensures t == Numeric <==> vals != [] && AllNumeric(vals, p)
    ensures t == Date <==> vals != [] && !AllNumeric(vals, p) && p.parsesAsDate(vals[0])
    ensures t == Categorical <==> vals == [] || (!AllNumeric(vals, p) && !p.parsesAsDate(vals[0]))
  {
    var afterNumeric := if AllNumeric(vals, p) && |vals| > 0 then Numeric else Unknown;
    var afterDate :=
      if afterNumeric == Unknown && |vals| > 0 && p.parsesAsDate(vals[0]) then Date else afterNumeric;
    if afterDate == Unknown then Categorical else afterDate
  }

  // ---------------------------------------------------------------------------
  // Numeric statistics
  // ---------------------------------------------------------------------------

  predicate SortedAsc(s: seq<real>) {
    forall i, j :: 0 <= i < j < |s| ==> s[i] <= s[j]
  }

  /** The head of an ascending sequence is its least element. */
  lemma SortedHeadLeast(s: seq<real>)
    requires s != [] && SortedAsc(s)
    ensures forall y :: y in s ==> s[0] <= y
  {
    forall y | y in s ensures s[0] <= y {
      var j :| 0 <= j < |s| && s[j] == y;
    }
  }

  /** A value at most every element of an ascending sequence may be put in front of it. */
  lemma SortedCons(a: real, t: seq<real>)
    requires SortedAsc(t)
    requires forall y :: y in t ==> a <= y
    ensures SortedAsc([a] + t)
  {
    var r := [a] + t;
    forall i, j | 0 <= i < j < |r| ensures r[i] <= r[j] {
      assert r[j] == t[j - 1];
      if i == 0 {
        assert t[j - 1] in t;
      } else {
        assert r[i] == t[i - 1];
      }
    }
  }

  function InsertAsc(x: real, s: seq<real>): (r: seq<real>)
    requires SortedAsc(s)
    ensures |r| == |s| + 1
    ensures SortedAsc(r)
    ensures multiset(r) == multiset(s) + multiset{x}
  {
    if s == [] then
      [x]
    else if x <= s[0] then
      SortedHeadLeast(s);
      SortedCons(x, s);
      [x] + s
    else
      var rest := InsertAsc(x, s[1..]);
      assert s == [s[0]] + s[1..];
      SortedHeadLeast(s);
      forall y | y in rest ensures s[0] <= y {
        assert y in multiset(rest);
        assert y == x || y in multiset(s[1..]);
      }
      SortedCons(s[0], rest);
      [s[0]] + rest
  }

  /** `nums.sort((a, b) => a - b)`: an ascending permutation of its input. */
  function SortAsc(s: seq<real>): (r: seq<real>)
    ensures |r| == |s|
    ensures SortedAsc(r)
    ensures multiset(r) == multiset(s)
  {
    if s == [] then []
    else
      assert s == [s[0]] + s[1..];
      InsertAsc(s[0], SortAsc(s[1..]))
  }

  /** `nums.reduce((a, b) => a + b, 0)` */
  function Sum(s: seq<real>): real {
    if s == [] then 0.0 else s[0] + Sum(s[1..])
  }

  lemma {:induction false} SumInsertAsc(x: real, s: seq<real>)
    requires SortedAsc(s)
    ensures Sum(InsertAsc(x, s)) == x + Sum(s)
  {
    if s != [] && x > s[0] {
      SumInsertAsc(x, s[1..]);
    }
  }

  /** Sorting does not change the sum, so the mean is that of the original values. */
  lemma {:induction false} SumSortAsc(s: seq<real>)
    ensures Sum(SortAsc(s)) == Sum(s)
  {
    if s != [] {
      SumSortAsc(s[1..]);
      SumInsertAsc(s[0], SortAsc(s[1..]));
    }
  }

  /** A sum of values between lo and hi lies between n*lo and n*hi. */
  lemma {:induction false} SumBounds(s: seq<real>, lo: real, hi: real)
    requires forall i :: 0 <= i < |s| ==> lo <= s[i] <= hi
    ensures |s| as real * lo <= Sum(s) <= |s| as real * hi
  {
    if s != [] {
      SumBounds(s[1..], lo, hi);
      assert |s| as real * lo == lo + (|s| - 1) as real * lo;
      assert |s| as real * hi == hi + (|s| - 1) as real * hi;
    }
  }

  /** `values.map(v => Number(v))` on a column known to be numeric. */
  function Numbers(vals: seq<Value>, p: Coercions): seq<real>
    requires AllNumeric(vals, p)
  {
    seq(|vals|, i requires 0 <= i < |vals| => p.toNumber(vals[i]).value)
  }

  /**
   * min, max, mean and median of the sorted numbers; the median is the
   * element at index floor(n/2), the upper middle one for even n.
   */
  function NumericSummary(nums: seq<real>): (st: NumericStats)
    requires nums != []
    ensures forall i :: 0 <= i < |nums| ==> st.min <= nums[i] <= st.max
    ensures st.min in nums && st.max in nums && st.median in nums
    ensures st.min <= st.median <= st.max
    ensures st.min <= st.mean <= st.max
    ensures st.mean == Sum(nums) / |nums| as real
    ensures st.median == SortAsc(nums)[|nums| / 2]
  {
    SortedSummary(nums);
    var sorted := SortAsc(nums);
    var n := |nums|;
    assert sorted[0] in nums && sorted[n - 1] in nums && sorted[n / 2] in nums;
    NumericStats(sorted[0], sorted[n - 1], Sum(nums) / n as real, sorted[n / 2])
  }

  /** The first and last sorted elements bound every value, and the mean lies between them. */
  lemma SortedSummary(nums: seq<real>)
    requires nums != []
    ensures |SortAsc(nums)| == |nums|
    ensures forall i :: 0 <= i < |nums| ==> SortAsc(nums)[0] <= nums[i] <= SortAsc(nums)[|nums| - 1]
    ensures forall i :: 0 <= i < |nums| ==> SortAsc(nums)[i] in nums
    ensures SortAsc(nums)[0] <= SortAsc(nums)[|nums| / 2] <= SortAsc(nums)[|nums| - 1]
    ensures Sum(SortAsc(nums)) == Sum(nums)
    ensures SortAsc(nums)[0] <= Sum(nums) / |nums| as real <= SortAsc(nums)[|nums| - 1]
  {
    var sorted := SortAsc(nums);
    SortAscSameElements(nums);
    SortedBoundInput(nums);
    SortedEnds(sorted);
    SumSortAsc(nums);
    SortedBoundMean(nums);
  }

  /** The ends of the sorted sequence bound every input value. */
  lemma SortedBoundInput(nums: seq<real>)
    requires nums != []
    ensures forall i :: 0 <= i < |nums| ==> SortAsc(nums)[0] <= nums[i] <= SortAsc(nums)[|nums| - 1]
  {
    var sorted := SortAsc(nums);
    var n := |nums|;
    SortAscSameElements(nums);
    SortedEnds(sorted);
    forall i | 0 <= i < n ensures sorted[0] <= nums[i] <= sorted[n - 1] {
      var k :| 0 <= k < n && sorted[k] == nums[i];
    }
  }

  /** The ends of the sorted sequence bound the mean. */
  lemma SortedBoundMean(nums: seq<real>)
    requires nums != []
    ensures SortAsc(nums)[0] <= Sum(nums) / |nums| as real <= SortAsc(nums)[|nums| - 1]
  {
    var sorted := SortAsc(nums);
    SortedEnds(sorted);
    SumSortAsc(nums);
    MeanOfBounded(sorted, sorted[0], sorted[|nums| - 1]);
  }

  lemma SortedEnds(s: seq<real>)
    requires s != [] && SortedAsc(s)
    ensures forall i :: 0 <= i < |s| ==> s[0] <= s[i] <= s[|s| - 1]
  {
  }

  /** The mean of values between lo and hi lies between lo and hi. */
  lemma MeanOfBounded(s: seq<real>, lo: real, hi: real)
    requires s != []
    requires forall i :: 0 <= i < |s| ==> lo <= s[i] <= hi
    ensures lo <= Sum(s) / |s| as real <= hi
  {
    SumBounds(s, lo, hi);
    MeanBetween(Sum(s), |s|, lo, hi);
  }

  /** The sorted sequence has the same length and the same elements as its input. */
  lemma SortAscSameElements(s: seq<real>)
    ensures |SortAsc(s)| == |s|
    ensures forall i :: 0 <= i < |s| ==> s[i] in SortAsc(s)
    ensures forall i :: 0 <= i < |s| ==> SortAsc(s)[i] in s
  {
    var r := SortAsc(s);
    assert |multiset(r)| == |multiset(s)|;
    forall i | 0 <= i < |s| ensures s[i] in r {
      assert s[i] in multiset(r);
    }
    forall i | 0 <= i < |r| ensures r[i] in s {
      assert r[i] in multiset(s);
    }
  }

  lemma MeanBetween(total: real, n: nat, lo: real, hi: real)
    requires n > 0
    requires n as real * lo <= total <= n as real * hi
    ensures lo <= total / n as real <= hi
  {
    var m := total / n as real;
    assert total == m * n as real;
  }

  // ---------------------------------------------------------------------------
  // Per-column and per-dataset analysis
  // ---------------------------------------------------------------------------

  /** The body of the source's `columns.forEach` callback for one column. */
  function AnalyzeColumn(data: seq<Row>, col: string, p: Coercions): (c: ColumnAnalysis)
    ensures c.name == col && c.missing <= |data|
  {
    var values := PresentValues(data, col);
    var kind := InferType(values, p);
    var stats := if kind == Numeric then Some(NumericSummary(Numbers(values, p))) else None;
    ColumnAnalysis(
      col, kind, |data| - |values|, |Distinct(values)|, stats,
      if values == [] then None else Some(values[0]))
  }

  /** What one column's analysis promises about that column's cells. */
  lemma AnalyzeColumnSpec(data: seq<Row>, col: string, p: Coercions)
    ensures var c := AnalyzeColumn(data, col, p);
      && c.missing == |data| - |PresentValues(data, col)|
      && c.missing == |MissingRows(data, col)|
      && (c.missing == 0 <==> forall i :: 0 <= i < |data| ==> !IsMissing(CellOf(data[i], col)))
      && (c.missing == |data| <==> forall i :: 0 <= i < |data| ==> IsMissing(CellOf(data[i], col)))
      && c.unique <= |data| - c.missing
      && (c.unique == 0 <==> c.missing == |data|)
      && c.kind != Unknown
      && c.kind == InferType(PresentValues(data, col), p)
      && (c.stats.Some? <==> c.kind == Numeric)
      && (c.stats.Some? ==> c.stats.value.min <= c.stats.value.median <= c.stats.value.max)
      && (c.stats.Some? ==> c.stats.value.min <= c.stats.value.mean <= c.stats.value.max)
      && (c.sampleVal.None? <==> c.missing == |data|)
    ensures forall k :: 0 <= k < |data| && !IsMissing(CellOf(data[k], col))
              && (forall j :: 0 <= j < k ==> IsMissing(CellOf(data[j], col)))
              ==> AnalyzeColumn(data, col, p).sampleVal == Some(CellOf(data[k], col))
  {
    var values := PresentValues(data, col);
    PresentValuesSpec(data, col);
    DistinctSize(values);
    forall k | 0 <= k < |data| && !IsMissing(CellOf(data[k], col))
               && (forall j :: 0 <= j < k ==> IsMissing(CellOf(data[j], col)))
      ensures values != [] && values[0] == CellOf(data[k], col)
    {
      FirstPresentValue(data, col, k);
    }
  }

  /** The per-column analyses of `cols`, in column order. */
  function AnalyzeColumns(data: seq<Row>, cols: seq<string>, p: Coercions): (r: seq<ColumnAnalysis>)
    ensures |r| == |cols|
    ensures forall i :: 0 <= i < |cols| ==> r[i] == AnalyzeColumn(data, cols[i], p)
  {
    if cols == [] then []
    else AnalyzeColumns(data, cols[..|cols| - 1], p) + [AnalyzeColumn(data, cols[|cols| - 1], p)]
  }

  /** Sum of the `missing` counts of the analysed columns. */
  function TotalMissing(cols: seq<ColumnAnalysis>): (total: nat)
    ensures total == 0 <==> forall i :: 0 <= i < |cols| ==> cols[i].missing == 0
  {
    if cols == [] then 0
    else
      assert forall i :: 1 <= i < |cols| ==> cols[i] == cols[1..][i - 1];
      cols[0].missing + TotalMissing(cols[1..])
  }

  lemma {:induction false} TotalMissingBound(cols: seq<ColumnAnalysis>, rowCount: nat)
    requires forall i :: 0 <= i < |cols| ==> cols[i].missing <= rowCount
    ensures TotalMissing(cols) <= rowCount * |cols|
  {
    if cols != [] {
      TotalMissingBound(cols[1..], rowCount);
      assert rowCount * |cols| == rowCount + rowCount * (|cols| - 1);
    }
  }

  lemma DivSelf(x: real)
    requires x > 0.0
    ensures x / x == 1.0
  {
  }

  /** `Math.round`: half-way values go up. */
  function Round(x: real): (r: int)
    ensures x - 0.5 < r as real <= x + 0.5
  {
    (x + 0.5).Floor
  }

  /**
   * `Math.round(((totalCells - totalMissing) / totalCells) * 100)`, and 0
   * when there are no cells at all.
   */
  function Completeness(totalCells: nat, totalMissing: nat): (score: int)
    ensures totalCells == 0 ==> score == 0
    ensures totalMissing <= totalCells ==> 0 <= score <= 100
    ensures totalCells > 0 && totalMissing == 0 ==> score == 100
    ensures totalCells > 0 ==>
      var ratio := ((totalCells - totalMissing) as real / totalCells as real) * 100.0;
      ratio - 0.5 < score as real <= ratio + 0.5
  {
    if totalCells > 0 then
      var t := totalCells as real;
      var ratio := ((totalCells - totalMissing) as real / t) * 100.0;
      assert totalMissing <= totalCells ==> 0.0 <= ratio <= 100.0 by {
        if totalMissing <= totalCells {
          MeanBetween((totalCells - totalMissing) as real, totalCells, 0.0, 1.0);
        }
      }
      assert totalMissing == 0 ==> ratio == 100.0 by {
        if totalMissing == 0 {
          DivSelf(t);
        }
      }
      Round(ratio)
    else 0
  }

  /** `analyzeDataset(data, columns)`: one analysis per column, in column order. */
  method AnalyzeDataset(data: seq<Row>, columns: seq<string>, p: Coercions) returns (a: DatasetAnalysis)
    ensures a.rowCount == |data|
    ensures a.columnCount == |columns| == |a.columns|
    ensures forall i :: 0 <= i < |columns| ==> a.columns[i] == AnalyzeColumn(data, columns[i], p)
    ensures forall i :: 0 <= i < |columns| ==> a.columns[i].name == columns[i]
    ensures a.completenessScore == Completeness(|data| * |columns|, TotalMissing(a.columns))
    ensures 0 <= a.completenessScore <= 100
    ensures (|data| * |columns| > 0 && forall i :: 0 <= i < |columns| ==> a.columns[i].missing == 0)
            ==> a.completenessScore == 100
  {
    var rowCount := |data|;
    var colAnalysis: seq<ColumnAnalysis> := [];
    var i := 0;
    while i < |columns|
      invariant 0 <= i <= |columns|
      invariant |colAnalysis| == i
      invariant colAnalysis == AnalyzeColumns(data, columns[..i], p)
    {
      assert columns[..i + 1][..i] == columns[..i];
      colAnalysis := colAnalysis + [AnalyzeColumn(data, columns[i], p)];
      i := i + 1;
    }
    assert columns[..i] == columns;
    var totalCells := rowCount * |columns|;
    var totalMissing := TotalMissing(colAnalysis);
    TotalMissingBound(colAnalysis, rowCount);
    var completeness := Completeness(totalCells, totalMissing);
    a := DatasetAnalysis(rowCount, |columns|, colAnalysis, completeness);
  }
}
