/**
 Template search in a grayscale frame: exhaustive over sampled placements, by mean
 absolute luma difference, then over the configured scales.

 Scores are real numbers here; the resampling filter is a parameter.
 */
module TemplateSearch {
  import opened Wrappers

  datatype Gray = Gray(width: nat, height: nat, rows: seq<seq<Byte>>)

  predicate Shaped(g: Gray) {
    |g.rows| == g.height && forall y :: 0 <= y < g.height ==> |g.rows[y]| == g.width
  }

  const MAX_SEARCH_POSITIONS := 250_000
  const MAX_TEMPLATE_COMPARISONS := 20_000_000
  const MAX_SCALED_TEMPLATE_PIXELS := 262_144
  const MAX_CAPTURE_PIXELS := 16_777_216

  datatype SearchError = SearchBudgetExceeded | InvalidTemplate

  // ---- Sampled offsets ----

  /** Multiples of the stride below the maximum, then the maximum. */
  predicate Sampled(offsets: seq<nat>, maximum: nat, stride: nat) {
    && |offsets| > 0 && offsets[|offsets| - 1] == maximum
    && (forall i :: 0 <= i < |offsets| - 1 ==> offsets[i] == i * stride)
    && (|offsets| > 1 ==> offsets[|offsets| - 2] < maximum <= (|offsets| - 1) * stride)
    && (|offsets| == 1 ==> maximum == 0)
  }

  method SampledOffsets(maximum: nat, stride: nat) returns (offsets: seq<nat>)
    requires stride > 0
    ensures Sampled(offsets, maximum, stride)
  {
    offsets := [];
    var next := 0;
    while next <= maximum
      invariant next == |offsets| * stride
      invariant forall i :: 0 <= i < |offsets| ==> offsets[i] == i * stride
      invariant |offsets| > 0 ==> offsets[|offsets| - 1] <= maximum
    {
      offsets := offsets + [next];
      next := next + stride;
    }
    if offsets[|offsets| - 1] != maximum {
      offsets := offsets + [maximum];
    }
  }

  lemma NextMultiple(i: nat, d: nat)
    ensures (i + 1) * d == i * d + d
  {
  }

  /** The samples increase from 0 to the maximum without a gap wider than the stride. */
  lemma SamplesCover(offsets: seq<nat>, maximum: nat, stride: nat)
    requires stride > 0 && Sampled(offsets, maximum, stride)
    ensures offsets[0] == 0
    ensures forall i :: 0 < i < |offsets| ==> 0 < offsets[i] - offsets[i - 1] <= stride
    ensures forall i :: 0 <= i < |offsets| ==> offsets[i] <= maximum
  {
    forall i | 0 < i < |offsets|
      ensures 0 < offsets[i] - offsets[i - 1] <= stride
    {
      NextMultiple(i - 1, stride);
    }
    forall i | 0 <= i < |offsets| - 1
      ensures offsets[i] <= maximum
    {
      TimesOrdered(i, |offsets| - 2, stride);
    }
  }

  /** With stride one every offset is sampled. */
  lemma StrideOneIsExhaustive(offsets: seq<nat>, maximum: nat)
    requires Sampled(offsets, maximum, 1)
    ensures |offsets| == maximum + 1 && forall i :: 0 <= i <= maximum ==> offsets[i] == i
  {
  }

  // ---- Error of one placement ----

  function Diff(a: Byte, b: Byte): nat {
    if a < b then b - a else a - b
  }

  /** The absolute difference: the one non-negative number that makes the smaller value the larger. */
  lemma DiffIsAbsolute(a: Byte, b: Byte)
    ensures Diff(a, b) >= 0 && (a + Diff(a, b) == b || b + Diff(a, b) == a)
    ensures Diff(a, b) == Diff(b, a)
  {
  }

  predicate Placed(source: Gray, template: Gray, x: nat, y: nat) {
    && Shaped(source) && Shaped(template)
    && x + template.width <= source.width && y + template.height <= source.height
  }

  /** Summed difference of the first `n` pixels of template row `row`. */
  function RowError(source: Gray, template: Gray, x: nat, y: nat, row: nat, n: nat): nat
    requires Placed(source, template, x, y) && row < template.height && n <= template.width
  {
    if n == 0 then 0 else
      RowError(source, template, x, y, row, n - 1) + Diff(source.rows[y + row][x + n - 1], template.rows[row][n - 1])
  }

  function ErrorOfRows(source: Gray, template: Gray, x: nat, y: nat, n: nat): nat
    requires Placed(source, template, x, y) && n <= template.height
  {
    if n == 0 then 0
    else ErrorOfRows(source, template, x, y, n - 1) + RowError(source, template, x, y, n - 1, template.width)
  }

  function ErrorAt(source: Gray, template: Gray, x: nat, y: nat): nat
    requires Placed(source, template, x, y)
  {
    ErrorOfRows(source, template, x, y, template.height)
  }

  function Score(template: Gray, error: nat): real
    requires template.width * template.height > 0
  {
    1.0 - error as real / (template.width * template.height * 255) as real
  }

  method SimilarityAt(source: Gray, template: Gray, left: nat, top: nat) returns (score: real)
    requires Placed(source, template, left, top) && template.width * template.height > 0
    ensures score == Score(template, ErrorAt(source, template, left, top))
  {
    var error: nat := 0;
    for templateY := 0 to template.height
      invariant error == ErrorOfRows(source, template, left, top, templateY)
    {
      for templateX := 0 to template.width
        invariant error == ErrorOfRows(source, template, left, top, templateY)
                         + RowError(source, template, left, top, templateY, templateX)
      {
        var observed := source.rows[top + templateY][left + templateX];
        var expected := template.rows[templateY][templateX];
        error := error + Diff(observed, expected);
      }
    }
    score := Score(template, error);
  }

  lemma {:induction false} RowErrorBounds(source: Gray, template: Gray, x: nat, y: nat, row: nat, n: nat)
    requires Placed(source, template, x, y) && row < template.height && n <= template.width
    ensures RowError(source, template, x, y, row, n) <= n * 255
    ensures RowError(source, template, x, y, row, n) == 0 <==>
            forall i :: 0 <= i < n ==> source.rows[y + row][x + i] == template.rows[row][i]
  {
    if n > 0 {
      RowErrorBounds(source, template, x, y, row, n - 1);
    }
  }

  predicate SameRow(source: Gray, template: Gray, x: nat, y: nat, row: nat)
    requires Placed(source, template, x, y) && row < template.height
  {
    source.rows[y + row][x..x + template.width] == template.rows[row]
  }

  lemma NoErrorIffSameRow(source: Gray, template: Gray, x: nat, y: nat, row: nat)
    requires Placed(source, template, x, y) && row < template.height
    ensures RowError(source, template, x, y, row, template.width) == 0 <==> SameRow(source, template, x, y, row)
  {
    RowErrorBounds(source, template, x, y, row, template.width);
    var patch := source.rows[y + row][x..x + template.width];
    assert forall i :: 0 <= i < template.width ==> patch[i] == source.rows[y + row][x + i];
  }

  lemma {:induction false} ErrorBounds(source: Gray, template: Gray, x: nat, y: nat, n: nat)
    requires Placed(source, template, x, y) && n <= template.height
    ensures ErrorOfRows(source, template, x, y, n) <= template.width * n * 255
    ensures ErrorOfRows(source, template, x, y, n) == 0 <==>
            forall row :: 0 <= row < n ==> SameRow(source, template, x, y, row)
  {
    if n > 0 {
      ErrorBounds(source, template, x, y, n - 1);
      RowErrorBounds(source, template, x, y, n - 1, template.width);
      NoErrorIffSameRow(source, template, x, y, n - 1);
      assert template.width * n * 255 == template.width * (n - 1) * 255 + template.width * 255;
    }
  }

  /** Scores lie in 0..1, order placements by error, and reach 1 only without error. */
  lemma ScoreOrdersByError(template: Gray, a: nat, b: nat)
    requires template.width * template.height > 0
    requires a <= template.width * template.height * 255
    ensures 0.0 <= Score(template, a) <= 1.0
    ensures Score(template, a) == 1.0 <==> a == 0
    ensures Score(template, a) > Score(template, b) <==> a < b
  {
    var m := (template.width * template.height * 255) as real;
    DivOrders(a as real, b as real, m);
    DivOrders(b as real, a as real, m);
    DivOrders(m, a as real, m);
    DivOrders(0.0, a as real, m);
  }

  /** What a score misses to 1 is the error over the largest possible one. */
  lemma ScoreMeasures(template: Gray, error: nat)
    requires template.width * template.height > 0
    ensures 1.0 - Score(template, error) == error as real / (template.width * template.height * 255) as real
  {
  }

  lemma DivOrders(a: real, b: real, m: real)
    requires m > 0.0
    ensures a < b <==> a / m < b / m
    ensures a / m == 0.0 <==> a == 0.0
    ensures m / m == 1.0
  {
  }

  /** A perfect score means that the patch under the template is the template. */
  lemma PerfectScoreIffIdentical(source: Gray, template: Gray, x: nat, y: nat)
    requires Placed(source, template, x, y) && template.width * template.height > 0
    ensures Score(template, ErrorAt(source, template, x, y)) == 1.0 <==>
            forall row :: 0 <= row < template.height ==>
              source.rows[y + row][x..x + template.width] == template.rows[row]
  {
    ErrorBounds(source, template, x, y, template.height);
    ScoreOrdersByError(template, ErrorAt(source, template, x, y), 0);
    assert forall row :: 0 <= row < template.height ==>
      (SameRow(source, template, x, y, row) <==> source.rows[y + row][x..x + template.width] == template.rows[row]);
  }

  // ---- Search at one scale ----

  /** The sampled placements, row by row. */
  datatype Grid = Grid(source: Gray, template: Gray, xs: seq<nat>, ys: seq<nat>)

  predicate ValidGrid(g: Grid) {
    && Shaped(g.source) && Shaped(g.template) && g.template.width * g.template.height > 0
    && g.template.width <= g.source.width && g.template.height <= g.source.height
    && |g.xs| > 0 && |g.ys| > 0
    && (forall i :: 0 <= i < |g.xs| ==> g.xs[i] + g.template.width <= g.source.width)
    && (forall j :: 0 <= j < |g.ys| ==> g.ys[j] + g.template.height <= g.source.height)
  }

  function CellError(g: Grid, i: nat, j: nat): nat
    requires ValidGrid(g) && i < |g.xs| && j < |g.ys|
  {
    ErrorAt(g.source, g.template, g.xs[i], g.ys[j])
  }

  predicate Before(i: nat, j: nat, endI: nat, endJ: nat) {
    j < endJ || (j == endJ && i < endI)
  }

  /** Cell `(i, j)` has the least error of all cells before `(endI, endJ)`, and is the first such cell. */
  predicate FirstLeast(g: Grid, i: nat, j: nat, endI: nat, endJ: nat)
    requires ValidGrid(g)
  {
    && i < |g.xs| && j < |g.ys| && Before(i, j, endI, endJ)
    && (forall a: nat, b: nat | a < |g.xs| && b < |g.ys| && Before(a, b, endI, endJ) ::
         CellError(g, i, j) <= CellError(g, a, b))
    && (forall a: nat, b: nat | a < |g.xs| && b < |g.ys| && Before(a, b, i, j) ::
         CellError(g, i, j) < CellError(g, a, b))
  }

  predicate Holds(g: Grid, best: (nat, nat, real), i: nat, j: nat)
    requires ValidGrid(g)
  {
    i < |g.xs| && j < |g.ys| && best == (g.xs[i], g.ys[j], Score(g.template, CellError(g, i, j)))
  }

  /** `best` is the first row-major placement of least error, with its score. */
  ghost predicate BestOf(g: Grid, best: (nat, nat, real))
    requires ValidGrid(g)
  {
    exists i: nat, j: nat :: FirstLeast(g, i, j, 0, |g.ys|) && Holds(g, best, i, j)
  }

  method FindInGrid(g: Grid) returns (best: (nat, nat, real))
    requires ValidGrid(g)
    ensures BestOf(g, best)
  {
    best := (0, 0, -1.0);
    ghost var bi: nat, bj: nat := 0, 0;
    for j := 0 to |g.ys|
      invariant j == 0 ==> best.2 == -1.0
      invariant j > 0 ==> FirstLeast(g, bi, bj, 0, j) && Holds(g, best, bi, bj)
    {
      for i := 0 to |g.xs|
        invariant i == 0 && j == 0 ==> best.2 == -1.0
        invariant i > 0 || j > 0 ==> FirstLeast(g, bi, bj, i, j) && Holds(g, best, bi, bj)
      {
        var score := SimilarityAt(g.source, g.template, g.xs[i], g.ys[j]);
        ErrorBounds(g.source, g.template, g.xs[i], g.ys[j], g.template.height);
        if i > 0 || j > 0 {
          ScoreOrdersByError(g.template, CellError(g, i, j), CellError(g, bi, bj));
          LeastSnoc(g, bi, bj, i, j);
        } else {
          ScoreOrdersByError(g.template, CellError(g, i, j), 0);
        }
        if score > best.2 {
          best := (g.xs[i], g.ys[j], score);
          bi, bj := i, j;
        }
      }
      EndOfRow(g, bi, bj, j);
    }
  }

  lemma LeastSnoc(g: Grid, bi: nat, bj: nat, i: nat, j: nat)
    requires ValidGrid(g) && i < |g.xs| && j < |g.ys| && FirstLeast(g, bi, bj, i, j)
    ensures CellError(g, i, j) < CellError(g, bi, bj) ==> FirstLeast(g, i, j, i + 1, j)
    ensures CellError(g, i, j) >= CellError(g, bi, bj) ==> FirstLeast(g, bi, bj, i + 1, j)
  {
  }

  lemma EndOfRow(g: Grid, bi: nat, bj: nat, j: nat)
    requires ValidGrid(g) && j < |g.ys| && FirstLeast(g, bi, bj, |g.xs|, j)
    ensures FirstLeast(g, bi, bj, 0, j + 1)
  {
  }

  // ---- One scale, then all scales ----

  datatype Region = Region(x: real, y: real, width: real, height: real)

  predicate InFrame(r: Region) {
    && 0.0 <= r.x && 0.0 <= r.y && 0.0 < r.width && 0.0 < r.height
    && r.x + r.width <= 1.0 && r.y + r.height <= 1.0
  }

  datatype Match = Match(confidence: real, region: Region, scale: real)

  function Fraction(numerator: nat, denominator: nat): real
    requires denominator > 0
  {
    numerator as real / denominator as real
  }

  lemma FractionsFit(start: nat, length: nat, whole: nat)
    requires length > 0 && start + length <= whole
    ensures 0.0 <= Fraction(start, whole) && 0.0 < Fraction(length, whole)
    ensures Fraction(start, whole) + Fraction(length, whole) <= 1.0
  {
    var w := whole as real;
    assert Fraction(start, whole) + Fraction(length, whole) == (start + length) as real / w;
    DivOrders(w, (start + length) as real, w);
    DivOrders(0.0, length as real, w);
    DivOrders(start as real, 0.0, w);
  }

  predicate Fits(source: Gray, template: Gray) {
    && Shaped(source) && Shaped(template) && 0 < template.width <= source.width && 0 < template.height <= source.height
  }

  ghost predicate MatchOn(source: Gray, template: Gray, stride: nat, xs: seq<nat>, ys: seq<nat>,
                          best: (nat, nat, real), m: Match)
    requires Fits(source, template)
  {
    && Sampled(xs, source.width - template.width, stride) && Sampled(ys, source.height - template.height, stride)
    && ValidGrid(Grid(source, template, xs, ys)) && BestOf(Grid(source, template, xs, ys), best)
    && m.confidence == best.2
    && m.region == Region(Fraction(best.0, source.width), Fraction(best.1, source.height),
                          Fraction(template.width, source.width), Fraction(template.height, source.height))
  }

  /** The match names the best sampled placement of the template, inside the frame. */
  ghost predicate MatchAt(source: Gray, template: Gray, stride: nat, m: Match) {
    && Fits(source, template) && InFrame(m.region)
    && exists xs, ys, best :: MatchOn(source, template, stride, xs, ys, best, m)
  }

  /** How many offsets a sampled axis has. */
  function SampleCount(maximum: nat, stride: nat): nat
    requires stride > 0
  {
    (maximum + stride - 1) / stride + 1
  }

  lemma SampledCount(offsets: seq<nat>, maximum: nat, stride: nat)
    requires stride > 0 && Sampled(offsets, maximum, stride)
    ensures |offsets| == SampleCount(maximum, stride)
  {
    var n := |offsets| - 1;
    if n > 0 {
      assert (n - 1) * stride < maximum <= n * stride;
      assert n * stride <= maximum + stride - 1 < n * stride + stride;
      Quotient(maximum + stride - 1, stride, n);
    } else {
      Quotient(stride - 1, stride, 0);
    }
  }

  lemma Quotient(a: nat, d: nat, q: nat)
    requires d > 0 && q * d <= a < q * d + d
    ensures a / d == q
  {
    var p := a / d;
    assert p * d <= a < p * d + d;
    if p < q {
      TimesOrdered(p + 1, q, d);
    } else if p > q {
      TimesOrdered(q + 1, p, d);
    }
  }

  predicate OverBudget(source: Gray, template: Gray, stride: nat)
    requires stride > 0 && Fits(source, template)
  {
    var positions := SampleCount(source.width - template.width, stride)
                     * SampleCount(source.height - template.height, stride);
    positions > MAX_SEARCH_POSITIONS || positions * (template.width * template.height) > MAX_TEMPLATE_COMPARISONS
  }

  /** An overflow of the source's 64-bit products is over budget too, with the same error. */
  method FindAtScale(source: Gray, template: Gray, stride: nat, scale: real) returns (r: Result<Match, SearchError>)
    requires Fits(source, template) && stride > 0
    ensures r.Err? <==> OverBudget(source, template, stride)
    ensures r.Err? ==> r.error == SearchBudgetExceeded
    ensures r.Ok? ==> MatchAt(source, template, stride, r.value) && r.value.scale == scale
  {
    var xs := SampledOffsets(source.width - template.width, stride);
    var ys := SampledOffsets(source.height - template.height, stride);
    SampledCount(xs, source.width - template.width, stride);
    SampledCount(ys, source.height - template.height, stride);
    var positions := |xs| * |ys|;
    var comparisons := positions * (template.width * template.height);
    if positions > MAX_SEARCH_POSITIONS || comparisons > MAX_TEMPLATE_COMPARISONS {
      return Err(SearchBudgetExceeded);
    }
    SamplesCover(xs, source.width - template.width, stride);
    SamplesCover(ys, source.height - template.height, stride);
    var g := Grid(source, template, xs, ys);
    AreaPositive(template);
    var best := FindInGrid(g);
    BestIsPlaced(g, best);
    FractionsFit(best.0, template.width, source.width);
    FractionsFit(best.1, template.height, source.height);
    var region := Region(Fraction(best.0, source.width), Fraction(best.1, source.height),
                         Fraction(template.width, source.width), Fraction(template.height, source.height));
    var m := Match(if best.2 < 0.0 then 0.0 else best.2, region, scale);
    assert MatchOn(source, template, stride, xs, ys, best, m);
    r := Ok(m);
  }

  lemma AreaPositive(template: Gray)
    requires template.width > 0 && template.height > 0
    ensures template.width * template.height > 0
  {
  }

  /** The best placement is inside the source and its score inside 0..1. */
  lemma BestIsPlaced(g: Grid, best: (nat, nat, real))
    requires ValidGrid(g) && BestOf(g, best)
    ensures Placed(g.source, g.template, best.0, best.1) && 0.0 <= best.2 <= 1.0
  {
    var i: nat, j: nat :| FirstLeast(g, i, j, 0, |g.ys|) && Holds(g, best, i, j);
    ErrorBounds(g.source, g.template, g.xs[i], g.ys[j], g.template.height);
    ScoreOrdersByError(g.template, CellError(g, i, j), 0);
  }

  /** With stride one the match is a least-error placement among all placements in the source. */
  lemma StrideOneIsBruteForce(source: Gray, template: Gray, m: Match, x: nat, y: nat)
    requires MatchAt(source, template, 1, m) && Placed(source, template, x, y)
    ensures template.width * template.height > 0 && Score(template, ErrorAt(source, template, x, y)) <= m.confidence
  {
    var xs, ys, best :| MatchOn(source, template, 1, xs, ys, best, m);
    var g := Grid(source, template, xs, ys);
    StrideOneIsExhaustive(xs, source.width - template.width);
    StrideOneIsExhaustive(ys, source.height - template.height);
    var i: nat, j: nat :| FirstLeast(g, i, j, 0, |g.ys|) && Holds(g, best, i, j);
    assert Before(x, y, 0, |ys|) && xs[x] == x && ys[y] == y;
    assert CellError(g, i, j) <= CellError(g, x, y);
    ErrorBounds(source, template, x, y, template.height);
    ScoreOrdersByError(template, CellError(g, x, y), CellError(g, i, j));
  }

  /** A reviewed template: at least two pixels a side. */
  predicate ValidTemplate(t: Gray) {
    Shaped(t) && t.width >= 2 && t.height >= 2
  }

  predicate ValidScales(scales: seq<real>) {
    0 < |scales| <= 8 && forall s :: 0 <= s < |scales| ==> 0.5 <= scales[s] <= 2.0
  }

  /** Nearest whole number of pixels; at least one for every valid template and scale. */
  function ScaledDimension(value: nat, scale: real): nat
    requires scale >= 0.0
  {
    (value as real * scale + 0.5).Floor
  }

  /** A resampling filter that honours the requested size. */
  ghost predicate Resizes(resize: (Gray, nat, nat) -> Gray, t: Gray) {
    forall w: nat, h: nat :: Shaped(resize(t, w, h)) && resize(t, w, h).width == w && resize(t, w, h).height == h
  }

  /** What scale `s` contributes: an error, nothing when the template does not fit, or a search. */
  datatype Attempt = Refused(error: SearchError) | TooLarge | Searched(template: Gray)

  function AttemptAt(source: Gray, t: Gray, stride: nat, resize: (Gray, nat, nat) -> Gray, scale: real): Attempt
    requires Shaped(source) && ValidTemplate(t) && Resizes(resize, t) && 0.5 <= scale <= 2.0 && stride > 0
  {
    var w, h := ScaledDimension(t.width, scale), ScaledDimension(t.height, scale);
    if w * h > MAX_SCALED_TEMPLATE_PIXELS then Refused(InvalidTemplate)
    else if w > source.width || h > source.height then TooLarge
    else if OverBudget(source, resize(t, w, h), stride) then Refused(SearchBudgetExceeded)
    else Searched(resize(t, w, h))
  }

  lemma SampledIsUnique(a: seq<nat>, b: seq<nat>, maximum: nat, stride: nat)
    requires stride > 0 && Sampled(a, maximum, stride) && Sampled(b, maximum, stride)
    ensures a == b
  {
    SampledCount(a, maximum, stride);
    SampledCount(b, maximum, stride);
  }

  lemma BestScoreIsUnique(g: Grid, a: (nat, nat, real), b: (nat, nat, real))
    requires ValidGrid(g) && BestOf(g, a) && BestOf(g, b)
    ensures a.2 == b.2
  {
    var i: nat, j: nat :| FirstLeast(g, i, j, 0, |g.ys|) && Holds(g, a, i, j);
    var k: nat, l: nat :| FirstLeast(g, k, l, 0, |g.ys|) && Holds(g, b, k, l);
    assert CellError(g, i, j) == CellError(g, k, l);
  }

  /** All matches of one search carry the same confidence. */
  lemma ConfidenceIsUnique(source: Gray, template: Gray, stride: nat, m: Match, n: Match)
    requires stride > 0 && MatchAt(source, template, stride, m) && MatchAt(source, template, stride, n)
    ensures m.confidence == n.confidence
  {
    var xs, ys, best :| MatchOn(source, template, stride, xs, ys, best, m);
    var us, vs, other :| MatchOn(source, template, stride, us, vs, other, n);
    SampledIsUnique(xs, us, source.width - template.width, stride);
    SampledIsUnique(ys, vs, source.height - template.height, stride);
    BestScoreIsUnique(Grid(source, template, xs, ys), best, other);
  }

  /** Everything the search over scales depends on. */
  datatype Search = Search(source: Gray, t: Gray, scales: seq<real>, stride: nat, resize: (Gray, nat, nat) -> Gray)

  ghost predicate ValidSearch(q: Search) {
    && Shaped(q.source) && ValidTemplate(q.t) && ValidScales(q.scales) && 1 <= q.stride <= 64
    && Resizes(q.resize, q.t)
  }

  ghost function Try(q: Search, s: nat): Attempt
    requires ValidSearch(q) && s < |q.scales|
  {
    AttemptAt(q.source, q.t, q.stride, q.resize, q.scales[s])
  }

  ghost predicate FoundAt(q: Search, s: nat, m: Match)
    requires ValidSearch(q)
  {
    && s < |q.scales| && Try(q, s).Searched? && m.scale == q.scales[s]
    && MatchAt(q.source, Try(q, s).template, q.stride, m)
  }

  /** `m` comes from the first of the first `n` scales whose match has the highest confidence. */
  ghost predicate BestScale(q: Search, n: nat, s: nat, m: Match)
    requires ValidSearch(q) && n <= |q.scales|
  {
    s < n && FoundAt(q, s, m) && forall u: nat :: u < n ==> NotBetter(q, u, s, m)
  }

  /** No match at scale `u` is preferred to `m`, which was found at scale `s`. */
  ghost predicate NotBetter(q: Search, u: nat, s: nat, m: Match)
    requires ValidSearch(q)
  {
    forall w: Match :: FoundAt(q, u, w) ==>
      w.confidence <= m.confidence && (u < s ==> w.confidence < m.confidence)
  }

  ghost predicate NoneFits(q: Search, n: nat)
    requires ValidSearch(q) && n <= |q.scales|
  {
    forall u :: 0 <= u < n ==> Try(q, u).TooLarge?
  }

  /** The first scale with an error decides; otherwise the best match over all scales that fit. */
  method FindBest(q: Search) returns (r: Result<Option<Match>, SearchError>)
    requires ValidSearch(q)
    ensures q.source.width == 0 || q.source.height == 0 ==> r == Ok(None)
    ensures q.source.width * q.source.height > MAX_CAPTURE_PIXELS ==> r == Err(SearchBudgetExceeded)
    ensures 0 < q.source.width * q.source.height <= MAX_CAPTURE_PIXELS ==>
      match r
      case Err(e) => exists s :: 0 <= s < |q.scales| && Try(q, s) == Refused(e) && NoneRefused(q, s)
      case Ok(None) => NoneFits(q, |q.scales|)
      case Ok(Some(m)) => NoneRefused(q, |q.scales|) && exists s :: BestScale(q, |q.scales|, s, m)
  {
    if q.source.width == 0 || q.source.height == 0 {
      return Ok(None);
    }
    if q.source.width * q.source.height > MAX_CAPTURE_PIXELS {
      return Err(SearchBudgetExceeded);
    }
    var best: Option<Match> := None;
    ghost var at: nat := 0;
    for s := 0 to |q.scales|
      invariant NoneRefused(q, s)
      invariant best.None? ==> NoneFits(q, s)
      invariant best.Some? ==> BestScale(q, s, at, best.value)
    {
      var candidate := FindScale(q, s);
      if candidate.Err? {
        return Err(candidate.error);
      }
      if candidate.value.None? {
        TooLargeSnoc(q, s, at, best);
        continue;
      }
      var m := candidate.value.value;
      if best.None? {
        FirstFound(q, s, m);
        best, at := Some(m), s;
      } else if m.confidence > best.value.confidence {
        FoundBetter(q, s, at, best.value, m);
        best, at := Some(m), s;
      } else {
        FoundNoBetter(q, s, at, best.value, m);
      }
    }
    r := Ok(best);
  }

  /** One scale: resize, check that the template fits, search. */
  method FindScale(q: Search, s: nat) returns (candidate: Result<Option<Match>, SearchError>)
    requires ValidSearch(q) && s < |q.scales|
    requires q.source.width > 0 && q.source.height > 0
    ensures candidate.Err? ==> Try(q, s) == Refused(candidate.error)
    ensures candidate.Ok? && candidate.value.None? ==> Try(q, s).TooLarge?
    ensures candidate.Ok? && candidate.value.Some? ==> FoundAt(q, s, candidate.value.value)
  {
    var w, h := ScaledDimension(q.t.width, q.scales[s]), ScaledDimension(q.t.height, q.scales[s]);
    if w * h > MAX_SCALED_TEMPLATE_PIXELS {
      return Err(InvalidTemplate);
    }
    if w > q.source.width || h > q.source.height {
      return Ok(None);
    }
    var m := FindAtScale(q.source, q.resize(q.t, w, h), q.stride, q.scales[s]);
    match m
    case Err(e) => return Err(e);
    case Ok(found) => return Ok(Some(found));
  }

  ghost predicate NoneRefused(q: Search, n: nat)
    requires ValidSearch(q) && n <= |q.scales|
  {
    forall u :: 0 <= u < n ==> !Try(q, u).Refused?
  }

  lemma TooLargeSnoc(q: Search, s: nat, at: nat, best: Option<Match>)
    requires ValidSearch(q) && s < |q.scales| && Try(q, s).TooLarge?
    ensures best.None? && NoneFits(q, s) ==> NoneFits(q, s + 1)
    ensures best.Some? && BestScale(q, s, at, best.value) ==> BestScale(q, s + 1, at, best.value)
  {
  }

  lemma OneConfidence(q: Search, s: nat, m: Match)
    requires ValidSearch(q) && FoundAt(q, s, m)
    ensures forall w: Match :: FoundAt(q, s, w) ==> w.confidence == m.confidence
  {
    forall w: Match | FoundAt(q, s, w) ensures w.confidence == m.confidence {
      ConfidenceIsUnique(q.source, Try(q, s).template, q.stride, w, m);
    }
  }

  lemma FirstFound(q: Search, s: nat, m: Match)
    requires ValidSearch(q) && s < |q.scales| && FoundAt(q, s, m) && NoneFits(q, s)
    ensures BestScale(q, s + 1, s, m)
  {
    OneConfidence(q, s, m);
  }

  lemma FoundBetter(q: Search, s: nat, at: nat, best: Match, m: Match)
    requires ValidSearch(q) && s < |q.scales| && FoundAt(q, s, m)
    requires BestScale(q, s, at, best) && m.confidence > best.confidence
    ensures BestScale(q, s + 1, s, m)
  {
    OneConfidence(q, s, m);
    forall u: nat | u < s ensures NotBetter(q, u, s, m) {
      assert NotBetter(q, u, at, best);
    }
  }

  lemma FoundNoBetter(q: Search, s: nat, at: nat, best: Match, m: Match)
    requires ValidSearch(q) && s < |q.scales| && FoundAt(q, s, m)
    requires BestScale(q, s, at, best) && m.confidence <= best.confidence
    ensures BestScale(q, s + 1, at, best)
  {
    OneConfidence(q, s, m);
  }
}
