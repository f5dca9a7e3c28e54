/**
 * The pixel chart classifier of src/lib/vision/pixelAnalysis.ts: a density
 * pass and a colour pass over a 100 x 100 RGBA grid, then a fixed cascade of
 * threshold tests that names a chart type.
 */
module PixelAnalysis {
  import opened Wrappers
  import opened RecommendEngine

  /** One channel of a `Uint8ClampedArray`. */
  type Byte = x: int | 0 <= x < 256

  /** The grid side the browser wrapper resamples every image to. */
  const Size: nat := 100
  /** `size * size` */
  const TotalPixels: nat := 10000
  /** Four bytes (R, G, B, A) per pixel. */
  const BufferLength: nat := 40000

  /** `size * 0.25`, `size * 0.75` and `size * 0.8` for the fixed size. */
  const CenterStart: real := 25.0
  const CenterEnd: real := 75.0
  const BottomStart: real := 80.0

  function Abs(n: int): nat {
    if n < 0 then -n else n
  }

  // ---------------------------------------------------------------------------
  // Density pass
  // ---------------------------------------------------------------------------

  /** `(y * size + x) * 4`: the offset of pixel (x, y) in the buffer. */
  function PixelOffset(x: nat, y: nat): (idx: nat)
    requires x < Size && y < Size
    ensures idx + 3 < BufferLength
  {
    (y * 100 + x) * 4
  }

  /** Sum of absolute RGB differences between pixel (x, y) and the background pixel (0, 0). */
  function ChannelDiff(s: seq<Byte>, x: nat, y: nat): nat
    requires |s| == BufferLength && x < Size && y < Size
  {
    var idx := PixelOffset(x, y);
    Abs(s[idx] as int - s[0]) + Abs(s[idx + 1] as int - s[1]) + Abs(s[idx + 2] as int - s[2])
  }

  predicate IsInk(s: seq<Byte>, x: nat, y: nat)
    requires |s| == BufferLength && x < Size && y < Size
  {
    ChannelDiff(s, x, y) > 30
  }

  predicate InCenter(x: nat, y: nat) {
    x as real > CenterStart && x as real < CenterEnd && y as real > CenterStart && y as real < CenterEnd
  }

  /** The corner test uses the literal bounds 10 and 90 whatever the grid size. */
  predicate InCorner(x: nat, y: nat) {
    (x < 10 && y < 10) || (x > 90 && y < 10) || (x < 10 && y > 90) || (x > 90 && y > 90)
  }

  predicate InBottom(y: nat) {
    y as real > BottomStart
  }

  datatype InkCounts = InkCounts(total: nat, center: nat, corner: nat, bottom: nat)

  const NoInk := InkCounts(0, 0, 0, 0)

  function Plus(a: InkCounts, b: InkCounts): InkCounts {
    InkCounts(a.total + b.total, a.center + b.center, a.corner + b.corner, a.bottom + b.bottom)
  }

  lemma PlusAssociative(a: InkCounts, b: InkCounts, c: InkCounts)
    ensures Plus(Plus(a, b), c) == Plus(a, Plus(b, c))
  {
  }

  /** What pixel (x, y) adds to the four counters. */
  function PixelCounts(s: seq<Byte>, x: nat, y: nat): (c: InkCounts)
    requires |s| == BufferLength && x < Size && y < Size
    ensures c.total <= 1 && RegionsWithinTotal(c)
    ensures c.total == 1 <==> IsInk(s, x, y)
  {
    if IsInk(s, x, y) then
      InkCounts(1, if InCenter(x, y) then 1 else 0, if InCorner(x, y) then 1 else 0, if InBottom(y) then 1 else 0)
    else NoInk
  }

  /** The counters over the first w pixels of row y. */
  function RowCounts(s: seq<Byte>, y: nat, w: nat): (c: InkCounts)
    requires |s| == BufferLength && y < Size && w <= Size
    ensures c.total <= w
  {
    if w == 0 then NoInk else Plus(RowCounts(s, y, w - 1), PixelCounts(s, w - 1, y))
  }

  /** The counters over the first h rows, scanned row by row as the source's nested loops do. */
  function GridCounts(s: seq<Byte>, h: nat): (c: InkCounts)
    requires |s| == BufferLength && h <= Size
    ensures c.total <= h * 100
  {
    if h == 0 then NoInk else Plus(GridCounts(s, h - 1), RowCounts(s, h - 1, Size))
  }

  /** Number of indices below w strictly between 25 and 75. */
  function CenterSpan(w: nat): nat {
    if w <= 26 then 0 else if w <= 75 then w - 26 else 49
  }

  /** Number of indices below w that are under 10 or over 90. */
  function CornerSpan(w: nat): nat {
    (if w <= 10 then w else 10) + (if w <= 91 then 0 else w - 91)
  }

  /** Number of indices below h over 80. */
  function BottomSpan(h: nat): nat {
    if h <= 81 then 0 else h - 81
  }

  /** Only ink pixels are counted in a region. */
  predicate RegionsWithinTotal(c: InkCounts) {
    c.center <= c.total && c.corner <= c.total && c.bottom <= c.total
  }

  lemma {:induction false} RowCountsOrdered(s: seq<Byte>, y: nat, w: nat)
    requires |s| == BufferLength && y < Size && w <= Size
    ensures RegionsWithinTotal(RowCounts(s, y, w))
  {
    if w > 0 {
      RowCountsOrdered(s, y, w - 1);
    }
  }

  lemma {:induction false} GridCountsOrdered(s: seq<Byte>, h: nat)
    requires |s| == BufferLength && h <= Size
    ensures RegionsWithinTotal(GridCounts(s, h))
  {
    if h > 0 {
      GridCountsOrdered(s, h - 1);
      RowCountsOrdered(s, h - 1, Size);
    }
  }

  /** What one pixel can add to each counter; the background pixel adds nothing. */
  lemma PixelCountsBounds(s: seq<Byte>, x: nat, y: nat)
    requires |s| == BufferLength && x < Size && y < Size
    ensures PixelCounts(s, x, y).total <= 1
    ensures PixelCounts(s, x, y).center <= (if 25 < x < 75 && 25 < y < 75 then 1 else 0)
    ensures PixelCounts(s, x, y).corner <= (if (x < 10 || x > 90) && (y < 10 || y > 90) then 1 else 0)
    ensures PixelCounts(s, x, y).bottom <= (if y > 80 then 1 else 0)
    ensures x == 0 && y == 0 ==> PixelCounts(s, x, y) == NoInk
  {
    if x == 0 && y == 0 {
      assert ChannelDiff(s, 0, 0) == 0;
    }
  }

  lemma {:induction false} RowCountsBounds(s: seq<Byte>, y: nat, w: nat)
    requires |s| == BufferLength && y < Size && w <= Size
    ensures RowCounts(s, y, w).center <= (if 25 < y < 75 then CenterSpan(w) else 0)
    ensures RowCounts(s, y, w).corner <= (if y < 10 || y > 90 then CornerSpan(w) else 0)
    ensures RowCounts(s, y, w).bottom <= (if y > 80 then w else 0)
    ensures y == 0 && w > 0 ==> RowCounts(s, y, w).total <= w - 1
  {
    if w > 0 {
      RowCountsBounds(s, y, w - 1);
      PixelCountsBounds(s, w - 1, y);
      assert RowCounts(s, y, w) == Plus(RowCounts(s, y, w - 1), PixelCounts(s, w - 1, y));
    }
  }

  lemma {:induction false} GridCountsBounds(s: seq<Byte>, h: nat)
    requires |s| == BufferLength && h <= Size
    ensures GridCounts(s, h).center <= 49 * CenterSpan(h)
    ensures GridCounts(s, h).corner <= 19 * CornerSpan(h)
    ensures GridCounts(s, h).bottom <= 100 * BottomSpan(h)
    ensures h > 0 ==> GridCounts(s, h).total <= h * 100 - 1
  {
    if h > 0 {
      GridCountsBounds(s, h - 1);
      RowCountsBounds(s, h - 1, Size);
    }
  }

  /**
   * With the strict bounds on a 100 x 100 grid the centre region is 49 x 49,
   * the corners hold 361 pixels, the bottom band 1900, and the background
   * pixel is never ink.
   */
  lemma RegionBounds(s: seq<Byte>)
    requires |s| == BufferLength
    ensures GridCounts(s, Size).total <= TotalPixels - 1
    ensures GridCounts(s, Size).center <= 2401
    ensures GridCounts(s, Size).corner <= 361
    ensures GridCounts(s, Size).bottom <= 1900
  {
    GridCountsBounds(s, Size);
  }

  /** Every pixel has the background colour of pixel (0, 0). */
  predicate Blank(s: seq<Byte>)
    requires |s| == BufferLength
  {
    forall x: nat, y: nat :: x < Size && y < Size ==> ChannelDiff(s, x, y) == 0
  }

  lemma InklessPixelStep(s: seq<Byte>, y: nat, w: nat)
    requires |s| == BufferLength && y < Size && 0 < w <= Size
    requires RowCounts(s, y, w - 1) == NoInk && PixelCounts(s, w - 1, y) == NoInk
    ensures RowCounts(s, y, w) == NoInk
  {
  }

  lemma {:induction false} InklessPixelsGiveNoInk(s: seq<Byte>, y: nat, w: nat)
    requires |s| == BufferLength && y < Size && w <= Size
    requires forall x: nat :: x < w ==> PixelCounts(s, x, y) == NoInk
    ensures RowCounts(s, y, w) == NoInk
  {
    if w > 0 {
      InklessPixelsGiveNoInk(s, y, w - 1);
      InklessPixelStep(s, y, w);
    }
  }

  lemma BlankRowHasNoInk(s: seq<Byte>, y: nat)
    requires |s| == BufferLength && Blank(s) && y < Size
    ensures RowCounts(s, y, Size) == NoInk
  {
    forall x: nat | x < Size
      ensures PixelCounts(s, x, y) == NoInk
    {
      assert ChannelDiff(s, x, y) == 0;
    }
    InklessPixelsGiveNoInk(s, y, Size);
  }

  lemma InklessStep(s: seq<Byte>, h: nat)
    requires |s| == BufferLength && 0 < h <= Size
    requires GridCounts(s, h - 1) == NoInk && RowCounts(s, h - 1, Size) == NoInk
    ensures GridCounts(s, h) == NoInk
  {
  }

  lemma {:induction false} InklessRowsGiveNoInk(s: seq<Byte>, h: nat)
    requires |s| == BufferLength && h <= Size
    requires forall y: nat :: y < h ==> RowCounts(s, y, Size) == NoInk
    ensures GridCounts(s, h) == NoInk
  {
    if h > 0 {
      InklessRowsGiveNoInk(s, h - 1);
      assert RowCounts(s, h - 1, Size) == NoInk;
      InklessStep(s, h);
    }
  }

  datatype Densities = Densities(inkDensity: real, centerDensity: real, cornerDensity: real, bottomDensity: real)

  /** Each counter divided by the area it is nominally measured over. */
  function DensitiesOf(c: InkCounts): (d: Densities)
    ensures d.inkDensity == 0.0 <==> c.total == 0
    ensures d.centerDensity == 0.0 <==> c.center == 0
    ensures d.cornerDensity == 0.0 <==> c.corner == 0
    ensures d.bottomDensity == 0.0 <==> c.bottom == 0
    ensures c.total < 10000 && c.center < 2500 && c.corner < 400 && c.bottom < 2000 ==> InUnitRange(d)
  {
    var totalPixels := TotalPixels as real;
    Densities(
      c.total as real / totalPixels,
      c.center as real / (totalPixels * 0.25),
      c.corner as real / (totalPixels * 0.04),
      c.bottom as real / (totalPixels * 0.2))
  }

  predicate InUnitRange(d: Densities) {
    && 0.0 <= d.inkDensity < 1.0
    && 0.0 <= d.centerDensity < 1.0
    && 0.0 <= d.cornerDensity < 1.0
    && 0.0 <= d.bottomDensity < 1.0
  }

  /** All four densities of a 100 x 100 grid lie in [0, 1). */
  lemma DensitiesInRange(s: seq<Byte>)
    requires |s| == BufferLength
    ensures InUnitRange(DensitiesOf(GridCounts(s, Size)))
  {
    RegionBounds(s);
  }

  /** The inner loop of `analyzeDensity`: one row of the grid added to the counters. */
  method ScanRow(data: array<Byte>, y: nat, before: InkCounts) returns (after: InkCounts)
    requires data.Length == BufferLength && y < Size
    ensures after == Plus(before, RowCounts(data[..], y, Size))
  {
    var totalInk, centerInk, cornerInk, bottomInk := before.total, before.center, before.corner, before.bottom;
    var bgR, bgG, bgB := data[0], data[1], data[2];
    ghost var s := data[..];
    assert bgR == s[0] && bgG == s[1] && bgB == s[2];
    var x := 0;
    while x < Size
      invariant 0 <= x <= Size
      invariant InkCounts(totalInk, centerInk, cornerInk, bottomInk) == Plus(before, RowCounts(s, y, x))
    {
      ghost var counted := InkCounts(totalInk, centerInk, cornerInk, bottomInk);
      var idx := PixelOffset(x, y);
      var r, g, b := data[idx], data[idx + 1], data[idx + 2];
      var diff := Abs(r as int - bgR) + Abs(g as int - bgG) + Abs(b as int - bgB);
      assert r == s[idx] && g == s[idx + 1] && b == s[idx + 2];
      assert diff == ChannelDiff(s, x, y);
      if diff > 30 {
        totalInk := totalInk + 1;
        if x as real > CenterStart && x as real < CenterEnd && y as real > CenterStart && y as real < CenterEnd {
          centerInk := centerInk + 1;
        }
        var isCorner := (x < 10 && y < 10) || (x > 90 && y < 10) || (x < 10 && y > 90) || (x > 90 && y > 90);
        if isCorner {
          cornerInk := cornerInk + 1;
        }
        if y as real > BottomStart {
          bottomInk := bottomInk + 1;
        }
      }
      assert InkCounts(totalInk, centerInk, cornerInk, bottomInk) == Plus(counted, PixelCounts(s, x, y));
      assert RowCounts(s, y, x + 1) == Plus(RowCounts(s, y, x), PixelCounts(s, x, y));
      PlusAssociative(before, RowCounts(s, y, x), PixelCounts(s, x, y));
      x := x + 1;
    }
    after := InkCounts(totalInk, centerInk, cornerInk, bottomInk);
  }

  /** `analyzeDensity(data, 100)` */
  method AnalyzeDensity(data: array<Byte>) returns (d: Densities)
    requires data.Length == BufferLength
    ensures d == DensitiesOf(GridCounts(data[..], Size))
    ensures InUnitRange(d)
  {
    var counts := NoInk;
    var y := 0;
    while y < Size
      invariant 0 <= y <= Size
      invariant counts == GridCounts(data[..], y)
    {
      counts := ScanRow(data, y, counts);
      y := y + 1;
    }
    d := DensitiesOf(counts);
    DensitiesInRange(data[..]);
  }

  // ---------------------------------------------------------------------------
  // Colour pass
  // ---------------------------------------------------------------------------

  function Min3(r: int, g: int, b: int): int {
    if r <= g && r <= b then r else if g <= b then g else b
  }

  function Max3(r: int, g: int, b: int): int {
    if r >= g && r >= b then r else if g >= b then g else b
  }

  /** Near-gray, near-black and near-white pixels carry no hue. */
  predicate IsNeutral(r: Byte, g: Byte, b: Byte)
    ensures r == g == b ==> IsNeutral(r, g, b)
    ensures !IsNeutral(r, g, b) ==> Max3(r, g, b) > Min3(r, g, b)
  {
    var mn := Min3(r, g, b);
    var mx := Max3(r, g, b);
    mx - mn < 30 || mx < 50 || mn > 240
  }

  lemma QuotientBounds(n: real, d: real)
    requires d > 0.0 && -d <= n <= d
    ensures -1.0 <= n / d <= 1.0
  {
    var q := n / d;
    assert q * d == n;
  }

  /** The hue in degrees, by the usual max-channel formula. */
  function Hue(r: Byte, g: Byte, b: Byte): (h: real)
    requires !IsNeutral(r, g, b)
    ensures 0.0 <= h < 360.0
  {
    var mn := Min3(r, g, b);
    var mx := Max3(r, g, b);
    var span := (mx - mn) as real;
    var sector :=
      if mx == r then
        (QuotientBounds((g - b) as real, span);
         (g - b) as real / span)
      else if mx == g then
        (QuotientBounds((b - r) as real, span);
         2.0 + (b - r) as real / span)
      else
        (QuotientBounds((r - g) as real, span);
         4.0 + (r - g) as real / span);
    var degrees := sector * 60.0;
    if degrees < 0.0 then degrees + 360.0 else degrees
  }

  /** The 30-degree hue bucket of a pixel, `None` for the pixels the pass skips. */
  function HueBucket(r: Byte, g: Byte, b: Byte): (bucket: Option<int>)
    ensures bucket.None? <==> IsNeutral(r, g, b)
    ensures bucket.Some? ==> 0 <= bucket.value < 12
  {
    if IsNeutral(r, g, b) then None
    else
      var h := Hue(r, g, b);
      Some((h / 30.0).Floor)
  }

  /** The stride of the colour pass: every 5th pixel, 20 bytes apart. */
  const Stride: nat := 20
  const SampleCount: nat := 2000

  /** The RGB bytes of the j-th sampled pixel. */
  function Sample(s: seq<Byte>, j: nat): (Byte, Byte, Byte)
    requires Stride * j + 2 < |s|
  {
    (s[Stride * j], s[Stride * j + 1], s[Stride * j + 2])
  }

  function SampleBucket(s: seq<Byte>, j: nat): Option<int>
    requires Stride * j + 2 < |s|
  {
    var (r, g, b) := Sample(s, j);
    HueBucket(r, g, b)
  }

  /** The distinct hue buckets of the first k samples. */
  function SampledHues(s: seq<Byte>, k: nat): (hues: set<int>)
    requires Stride * k <= |s|
    ensures forall h :: h in hues ==> 0 <= h < 12
  {
    if k == 0 then {}
    else
      SampledHues(s, k - 1) + match SampleBucket(s, k - 1) case Some(h) => {h} case None => {}
  }

  /** The colour pass reads only the sampled pixels: buffers that agree on them agree on the hues. */
  lemma {:induction false} SampledHuesReadOnlySamples(s: seq<Byte>, t: seq<Byte>, k: nat)
    requires Stride * k <= |s| && Stride * k <= |t|
    requires forall j :: 0 <= j < k ==> Sample(s, j) == Sample(t, j)
    ensures SampledHues(s, k) == SampledHues(t, k)
  {
    if k > 0 {
      SampledHuesReadOnlySamples(s, t, k - 1);
    }
  }

  /** A set of integers drawn from 0..n-1 has at most n elements. */
  lemma {:induction false} BoundedSetSize(hues: set<int>, n: nat)
    requires forall h :: h in hues ==> 0 <= h < n
    ensures |hues| <= n
  {
    if n > 0 {
      var rest := hues - {n - 1};
      BoundedSetSize(rest, n - 1);
    } else {
      assert forall h :: h !in hues;
      assert hues == {};
    }
  }

  /** `analyzeColors(data, 100).colorCount` */
  method AnalyzeColors(data: array<Byte>) returns (colorCount: nat)
    requires data.Length == BufferLength
    ensures colorCount == |SampledHues(data[..], SampleCount)|
    ensures colorCount <= 12
  {
    var hues: set<int> := {};
    ghost var s := data[..];
    ghost var k := 0;
    var i := 0;
    while i < data.Length
      invariant i == Stride * k && k <= SampleCount
      invariant hues == SampledHues(s, k)
    {
      var r, g, b := data[i], data[i + 1], data[i + 2];
      var mn := Min3(r, g, b);
      var mx := Max3(r, g, b);
      if !(mx - mn < 30 || mx < 50 || mn > 240) {
        var bucket := HueBucket(r, g, b);
        hues := hues + {bucket.value};
      }
      k := k + 1;
      i := i + Stride;
    }
    colorCount := |hues|;
    BoundedSetSize(hues, 12);
  }

  // ---------------------------------------------------------------------------
  // Decision cascade
  // ---------------------------------------------------------------------------

  datatype Metrics = Metrics(
    inkDensity: real,
    centerDensity: real,
    cornerDensity: real,
    bottomDensity: real,
    colorCount: nat)

  predicate PieTest(m: Metrics) { m.centerDensity > 0.4 && m.cornerDensity < 0.1 }
  predicate RadarTest(m: Metrics) { m.centerDensity > 0.25 && m.centerDensity <= 0.4 && m.cornerDensity < 0.15 }

  /** The if-cascade of `runPixelHeuristics`: the first test that holds names the chart. */
  function Classify(m: Metrics): (chart: ChartType)
    ensures chart != Heatmap
    ensures PieTest(m) ==> chart == Pie
    ensures chart == Histogram || chart == Boxplot ==>
      m.colorCount <= 1 && 0.22 <= m.inkDensity <= 0.35 && !PieTest(m) && !RadarTest(m)
    ensures chart == Area ==> m.inkDensity > 0.35 && !PieTest(m) && !RadarTest(m)
    ensures chart == Bar ==> 0.22 <= m.inkDensity <= 0.35 && !PieTest(m) && !RadarTest(m)
  {
    if m.centerDensity > 0.4 && m.cornerDensity < 0.1 then Pie
    else if m.centerDensity > 0.25 && m.centerDensity <= 0.4 && m.cornerDensity < 0.15 then Radar
    else if m.inkDensity < 0.12 then Scatter
    else if m.inkDensity >= 0.12 && m.inkDensity < 0.22 then Line
    else if m.inkDensity > 0.35 then Area
    else if m.colorCount <= 1 && m.bottomDensity > m.inkDensity * 1.5 then Histogram
    else if m.colorCount <= 1 && m.inkDensity < 0.28 then Boxplot
    else Bar
  }

  /** One row of the decision table: a test on the metrics and the chart it names. */
  datatype Rule = Rule(applies: Metrics -> bool, chart: ChartType)

  /** The cascade written as data, in priority order, with bar as the fallback. */
  const DecisionRules: seq<Rule> := [
    Rule((m: Metrics) => m.centerDensity > 0.4 && m.cornerDensity < 0.1, Pie),
    Rule((m: Metrics) => 0.25 < m.centerDensity <= 0.4 && m.cornerDensity < 0.15, Radar),
    Rule((m: Metrics) => m.inkDensity < 0.12, Scatter),
    Rule((m: Metrics) => 0.12 <= m.inkDensity < 0.22, Line),
    Rule((m: Metrics) => m.inkDensity > 0.35, Area),
    Rule((m: Metrics) => m.colorCount <= 1 && m.bottomDensity > m.inkDensity * 1.5, Histogram),
    Rule((m: Metrics) => m.colorCount <= 1 && m.inkDensity < 0.28, Boxplot)
  ]

  function FirstMatch(rules: seq<Rule>, m: Metrics, fallback: ChartType): ChartType {
    if rules == [] then fallback
    else if rules[0].applies(m) then rules[0].chart
    else FirstMatch(rules[1..], m, fallback)
  }

  /** The cascade agrees with the decision table read top to bottom. */
  lemma ClassifyFollowsDecisionRules(m: Metrics)
    ensures Classify(m) == FirstMatch(DecisionRules, m, Bar)
  {
    var rules := DecisionRules;
    assert FirstMatch(rules[7..], m, Bar) == Bar;
    assert FirstMatch(rules[6..], m, Bar) == (if m.colorCount <= 1 && m.inkDensity < 0.28 then Boxplot else Bar);
    assert FirstMatch(rules[5..], m, Bar) == (if rules[5].applies(m) then Histogram else FirstMatch(rules[6..], m, Bar));
    assert FirstMatch(rules[4..], m, Bar) == (if rules[4].applies(m) then Area else FirstMatch(rules[5..], m, Bar));
    assert FirstMatch(rules[3..], m, Bar) == (if rules[3].applies(m) then Line else FirstMatch(rules[4..], m, Bar));
    assert FirstMatch(rules[2..], m, Bar) == (if rules[2].applies(m) then Scatter else FirstMatch(rules[3..], m, Bar));
    assert FirstMatch(rules[1..], m, Bar) == (if rules[1].applies(m) then Radar else FirstMatch(rules[2..], m, Bar));
  }

  /** The metrics both passes compute for a buffer. */
  function MetricsOf(s: seq<Byte>): Metrics
    requires |s| == BufferLength
  {
    var d := DensitiesOf(GridCounts(s, Size));
    Metrics(d.inkDensity, d.centerDensity, d.cornerDensity, d.bottomDensity, |SampledHues(s, SampleCount)|)
  }

  lemma BlankImageHasNoInk(s: seq<Byte>)
    requires |s| == BufferLength && Blank(s)
    ensures GridCounts(s, Size) == NoInk
  {
    forall y: nat | y < Size
      ensures RowCounts(s, y, Size) == NoInk
    {
      BlankRowHasNoInk(s, y);
    }
    InklessRowsGiveNoInk(s, Size);
  }

  /** Counters that saw no ink give zero densities, which the cascade reads as a scatter plot. */
  lemma NoInkIsScatter(d: Densities, colorCount: nat)
    requires d == DensitiesOf(NoInk)
    ensures d.inkDensity == 0.0 && d.centerDensity == 0.0
    ensures Classify(Metrics(d.inkDensity, d.centerDensity, d.cornerDensity, d.bottomDensity, colorCount)) == Scatter
  {
  }

  /** An image of one flat colour has no ink anywhere and is read as a scatter plot. */
  lemma BlankImageIsScatter(s: seq<Byte>)
    requires |s| == BufferLength && Blank(s)
    ensures MetricsOf(s).inkDensity == 0.0 && MetricsOf(s).centerDensity == 0.0
    ensures Classify(MetricsOf(s)) == Scatter
  {
    BlankImageHasNoInk(s);
    NoInkIsScatter(DensitiesOf(GridCounts(s, Size)), |SampledHues(s, SampleCount)|);
  }

  /** `runPixelHeuristics(data, 100)` */
  method RunPixelHeuristics(data: array<Byte>) returns (chart: ChartType)
    requires data.Length == BufferLength
    ensures chart == Classify(MetricsOf(data[..]))
    ensures chart != Heatmap
  {
    var d := AnalyzeDensity(data);
    var colorCount := AnalyzeColors(data);
    chart := Classify(Metrics(d.inkDensity, d.centerDensity, d.cornerDensity, d.bottomDensity, colorCount));
  }
}
