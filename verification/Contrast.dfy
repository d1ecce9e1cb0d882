/** Contrast stretch of an OCR crop, anchored on two histogram percentiles. */
module Contrast {
  import opened Wrappers

  datatype Rgba = Rgba(red: Byte, green: Byte, blue: Byte, alpha: Byte)

  const MINIMUM_RANGE := 24

  /** Integer BT.601 luma: always a byte, so the source's clamp never acts. */
  function Luma(p: Rgba): Byte {
    (p.red * 299 + p.green * 587 + p.blue * 114) / 1000
  }

  function Lumas(image: seq<Rgba>): seq<Byte> {
    seq(|image|, i requires 0 <= i < |image| => Luma(image[i]))
  }

  // ---- Percentiles ----

  /** How many values of `m` are below `v`. */
  ghost function Below(m: multiset<Byte>, v: nat): nat
    requires v <= 256
  {
    if v == 0 then 0 else Below(m, v - 1) + m[v - 1]
  }

  ghost function LevelFrom(m: multiset<Byte>, k: nat, v: Byte): Byte
    decreases 256 - v
  {
    if v == 255 || k < Below(m, v + 1) then v else LevelFrom(m, k, v + 1)
  }

  /** The first level at or below which more than `k` values lie. */
  ghost function Level(m: multiset<Byte>, k: nat): Byte {
    LevelFrom(m, k, 0)
  }

  method BuildHistogram(image: seq<Rgba>) returns (histogram: array<nat>)
    ensures fresh(histogram) && histogram.Length == 256
    ensures forall v :: 0 <= v < 256 ==> histogram[v] == multiset(Lumas(image))[v]
  {
    histogram := new nat[256](_ => 0);
    ghost var lumas := Lumas(image);
    assert lumas[..0] == [];
    for i := 0 to |image|
      invariant forall v :: 0 <= v < 256 ==> histogram[v] == multiset(lumas[..i])[v]
    {
      assert lumas[..i + 1] == lumas[..i] + [lumas[i]];
      var luma := Luma(image[i]);
      histogram[luma] := histogram[luma] + 1;
    }
    assert lumas[..|image|] == lumas;
  }

  method PercentileLevel(histogram: array<nat>, total: nat, percentile: nat, ghost m: multiset<Byte>)
    returns (level: Byte)
    requires histogram.Length == 256 && forall v :: 0 <= v < 256 ==> histogram[v] == m[v]
    ensures level == Level(m, total * percentile / 100)
  {
    var threshold, seen := total * percentile / 100, 0;
    for v := 0 to 256
      invariant seen == Below(m, v)
      invariant v < 256 ==> Level(m, threshold) == LevelFrom(m, threshold, v)
      invariant v == 256 ==> Level(m, threshold) == 255
    {
      seen := seen + histogram[v];
      if seen > threshold {
        return v;
      }
    }
    return 255;
  }

  predicate Sorted(t: seq<Byte>) {
    forall i, j :: 0 <= i < j < |t| ==> t[i] <= t[j]
  }

  lemma {:induction false} BelowAdds(m: multiset<Byte>, x: Byte, v: nat)
    requires v <= 256
    ensures Below(m + multiset{x}, v) == Below(m, v) + if x < v then 1 else 0
  {
    if v > 0 {
      BelowAdds(m, x, v - 1);
    }
  }

  /** In a sorted sequence exactly the first `Below(v)` elements are below `v`. */
  lemma {:induction false} SortedBelow(t: seq<Byte>, v: nat)
    requires Sorted(t) && v <= 256
    ensures Below(multiset(t), v) <= |t|
    ensures forall k :: 0 <= k < |t| ==> (t[k] < v <==> k < Below(multiset(t), v))
  {
    if t == [] {
      BelowNothing(v);
    } else {
      var n := |t| - 1;
      SortedBelow(t[..n], v);
      assert t == t[..n] + [t[n]];
      BelowAdds(multiset(t[..n]), t[n], v);
      assert n > 0 ==> t[..n][n - 1] <= t[n];
    }
  }

  lemma {:induction false} BelowNothing(v: nat)
    requires v <= 256
    ensures Below(multiset{}, v) == 0
  {
    if v > 0 {
      BelowNothing(v - 1);
    }
  }

  lemma {:induction false} LevelFromBounds(m: multiset<Byte>, k: nat, v: Byte)
    requires Below(m, v) <= k < Below(m, 256)
    ensures var level := LevelFrom(m, k, v); Below(m, level) <= k < Below(m, level + 1)
    decreases 256 - v
  {
    if v < 255 && k >= Below(m, v + 1) {
      LevelFromBounds(m, k, v + 1);
    }
  }

  /** The percentile level is the element at index `k` of the sorted values. */
  lemma LevelIsSortedElement(s: seq<Byte>, t: seq<Byte>, k: nat)
    requires Sorted(t) && multiset(t) == multiset(s) && k < |t|
    ensures Level(multiset(s), k) == t[k]
  {
    var m := multiset(t);
    SortedBelow(t, 256);
    assert t[k] < 256;
    LevelFromBounds(m, k, 0);
    SortedBelow(t, Level(m, k));
    SortedBelow(t, Level(m, k) + 1);
  }

  /** A larger index never gives a lower level; an empty image gives 255. */
  lemma {:induction false} LevelsOrdered(m: multiset<Byte>, j: nat, k: nat, v: Byte)
    requires j <= k
    ensures LevelFrom(m, j, v) <= LevelFrom(m, k, v)
    ensures v <= LevelFrom(m, k, v)
    decreases 256 - v
  {
    if v < 255 {
      LevelsOrdered(m, j, k, v + 1);
    }
  }

  // ---- Stretch ----

  function Clamp(x: real): real {
    if x < 0.0 then 0.0 else if x > 255.0 then 255.0 else x
  }

  /** A level on the line that takes `low` to 0 and `high` to 255, rounded and clamped. */
  function Spread(low: Byte, high: Byte, level: Byte): Byte
    requires low < high
  {
    (Clamp((level - low) as real / (high - low) as real * 255.0) + 0.5).Floor
  }

  lemma Proportional(a: int, b: int, range: int)
    requires a <= b && range > 0
    ensures a as real / range as real * 255.0 <= b as real / range as real * 255.0
  {
    var step := 255.0 / range as real;
    assert a as real / range as real * 255.0 == a as real * step;
    assert b as real / range as real * 255.0 == b as real * step;
  }

  /** The stretch keeps the order of levels, fills the range and clips outside the anchors. */
  lemma SpreadShape(low: Byte, high: Byte, a: Byte, b: Byte)
    requires low < high && a <= b
    ensures Spread(low, high, a) <= Spread(low, high, b)
    ensures b <= low ==> Spread(low, high, b) == 0
    ensures high <= a ==> Spread(low, high, a) == 255
  {
    var range := high - low;
    Proportional(a - low, b - low, range);
    if b <= low {
      Proportional(b - low, 0, range);
    }
    if high <= a {
      Proportional(range, a - low, range);
      assert range as real / range as real == 1.0;
    }
  }

  /** Between the anchors a level becomes the nearest one to its share of the range: off by at most half. */
  lemma SpreadIsProportional(low: Byte, high: Byte, level: Byte)
    requires low < high && low <= level <= high
    ensures var share := (level - low) as real / (high - low) as real;
      share * 255.0 - 0.5 < Spread(low, high, level) as real <= share * 255.0 + 0.5
  {
    var range := high - low;
    Proportional(0, level - low, range);
    Proportional(level - low, range, range);
    assert range as real / range as real == 1.0;
  }

  predicate Stretched(low: Byte, high: Byte, before: Rgba, after: Rgba)
    requires low < high
  {
    after == Rgba(Spread(low, high, before.red), Spread(low, high, before.green),
                  Spread(low, high, before.blue), before.alpha)
  }

  method BuildTable(low: Byte, high: Byte) returns (table: array<Byte>)
    requires low < high
    ensures fresh(table) && table.Length == 256
    ensures forall v :: 0 <= v < 256 ==> table[v] == Spread(low, high, v)
  {
    table := new Byte[256](_ => 0);
    for level := 0 to 256
      invariant forall v :: 0 <= v < level ==> table[v] == Spread(low, high, v)
    {
      table[level] := Spread(low, high, level);
    }
  }

  method ApplyTable(image: seq<Rgba>, table: array<Byte>) returns (out: seq<Rgba>)
    requires table.Length == 256
    ensures |out| == |image|
    ensures forall i :: 0 <= i < |image| ==>
      out[i] == Rgba(table[image[i].red], table[image[i].green], table[image[i].blue], image[i].alpha)
  {
    out := [];
    for i := 0 to |image|
      invariant |out| == i
      invariant forall j :: 0 <= j < i ==>
        out[j] == Rgba(table[image[j].red], table[image[j].green], table[image[j].blue], image[j].alpha)
    {
      var p := image[i];
      out := out + [Rgba(table[p.red], table[p.green], table[p.blue], p.alpha)];
    }
  }

  /** The anchors are the 1st and 99th percentile of the luma values; flat images pass through. */
  method StretchContrast(image: seq<Rgba>) returns (out: seq<Rgba>, ghost low: Byte, ghost high: Byte)
    ensures low == Level(multiset(Lumas(image)), |image| / 100)
    ensures high == Level(multiset(Lumas(image)), |image| * 99 / 100)
    ensures low <= high && |out| == |image|
    ensures high - low < MINIMUM_RANGE ==> out == image
    ensures high - low >= MINIMUM_RANGE ==>
      forall i :: 0 <= i < |image| ==> Stretched(low, high, image[i], out[i])
  {
    var histogram := BuildHistogram(image);
    ghost var m := multiset(Lumas(image));
    var dark := PercentileLevel(histogram, |image|, 1, m);
    var bright := PercentileLevel(histogram, |image|, 99, m);
    low, high := dark, bright;
    LevelsOrdered(m, |image| / 100, |image| * 99 / 100, 0);
    if bright <= dark || bright - dark < MINIMUM_RANGE {
      return image, dark, bright;
    }
    var table := BuildTable(dark, bright);
    out := ApplyTable(image, table);
  }
}
