/** Levenshtein distance: the two-row loop, shortest edit scripts, and the metric laws. */
module EditDistance {

  function Min(a: nat, b: nat): nat {
    if a <= b then a else b
  }

  function Max(a: nat, b: nat): nat {
    if a <= b then b else a
  }

  function Init<T>(s: seq<T>): seq<T>
    requires s != []
  {
    s[..|s| - 1]
  }

  function Final<T>(s: seq<T>): T
    requires s != []
  {
    s[|s| - 1]
  }

  /** The recurrence on prefixes that the rows tabulate. */
  function Distance<T(==)>(a: seq<T>, b: seq<T>): nat
    decreases |a| + |b|
  {
    if a == [] then |b|
    else if b == [] then |a|
    else
      var substitution := if Final(a) == Final(b) then 0 else 1;
      Min(Min(Distance(a, Init(b)) + 1, Distance(Init(a), b) + 1), Distance(Init(a), Init(b)) + substitution)
  }

  /** The table row of `a`: its distances to the prefixes of `b`. */
  function Row<T(==)>(a: seq<T>, b: seq<T>): seq<nat> {
    seq(|b| + 1, j requires 0 <= j <= |b| => Distance(a, b[..j]))
  }

  /** Row `after` follows row `before` when the character `c` comes next. */
  predicate NextTo<T(==)>(before: seq<nat>, after: seq<nat>, c: T, b: seq<T>) {
    && |before| == |after| == |b| + 1 && after[0] == before[0] + 1
    && forall j :: 0 <= j < |b| ==> EntryFollows(before, after, c, b, j)
  }

  predicate EntryFollows<T(==)>(before: seq<nat>, after: seq<nat>, c: T, b: seq<T>, j: nat)
    requires |before| == |after| == |b| + 1 && j < |b|
  {
    after[j + 1] == Min(Min(after[j] + 1, before[j + 1] + 1), before[j] + if c != b[j] then 1 else 0)
  }

  /** One entry of the table from its neighbours. */
  lemma Entry<T>(a: seq<T>, b: seq<T>, j: nat)
    requires a != [] && j < |b|
    ensures EntryFollows(Row(Init(a), b), Row(a, b), Final(a), b, j)
  {
    var prefix := b[..j + 1];
    assert Init(prefix) == b[..j] && Final(prefix) == b[j];
    assert Row(a, b)[j + 1] == Distance(a, prefix) && Row(a, b)[j] == Distance(a, Init(prefix));
  }

  lemma RowsFollow<T>(left: seq<T>, i: nat, b: seq<T>)
    requires i < |left|
    ensures NextTo(Row(left[..i], b), Row(left[..i + 1], b), left[i], b)
  {
    var a := left[..i + 1];
    assert Init(a) == left[..i] && Final(a) == left[i];
    forall j | 0 <= j < |b| ensures EntryFollows(Row(Init(a), b), Row(a, b), Final(a), b, j) {
      Entry(a, b, j);
    }
  }

  /** Fills `current` with the row that follows `previous`. */
  method NextRow<T(==)>(i: nat, c: T, right: seq<T>, previous: array<nat>, current: array<nat>, ghost after: seq<nat>)
    requires previous != current && previous.Length == current.Length == |right| + 1 && previous[0] == i
    requires NextTo(previous[..], after, c, right)
    modifies current
    ensures current[..] == after
  {
    current[0] := i + 1;
    for j := 0 to |right|
      invariant forall k :: 0 <= k <= j ==> current[k] == after[k]
    {
      assert EntryFollows(previous[..], after, c, right, j);
      var substitution := if c != right[j] then 1 else 0;
      current[j + 1] := Min(Min(current[j] + 1, previous[j + 1] + 1), previous[j] + substitution);
    }
  }

  /** `previous` and `current` are rows of the table; the loop overwrites and swaps them. */
  method Compute<T(==)>(left: seq<T>, right: seq<T>) returns (d: nat)
    ensures d == Distance(left, right)
  {
    var n := |right|;
    var previous := new nat[n + 1](j => j);
    var current := new nat[n + 1](j => 0);
    assert previous[..] == Row(left[..0], right);
    for i := 0 to |left|
      invariant fresh(previous) && fresh(current) && previous != current
      invariant previous.Length == current.Length == n + 1
      invariant previous[..] == Row(left[..i], right)
    {
      RowsFollow(left, i, right);
      assert previous[0] == Row(left[..i], right)[0] == i;
      NextRow(i, left[i], right, previous, current, Row(left[..i + 1], right));
      previous, current := current, previous;
    }
    assert left[..|left|] == left && right[..n] == right;
    d := previous[n];
    assert d == Row(left, right)[n];
  }

  // ---- Edit scripts ----

  datatype Edit<T> = Keep | Substitute(to: T) | Insert(what: T) | Delete

  /** `script` turns `a` into `b`, its last edit acting on the last characters. */
  predicate Transforms<T(==)>(script: seq<Edit<T>>, a: seq<T>, b: seq<T>)
    decreases |script|
  {
    if script == [] then a == [] && b == []
    else
      match Final(script)
      case Keep => a != [] && b != [] && Final(a) == Final(b) && Transforms(Init(script), Init(a), Init(b))
      case Substitute(c) => a != [] && b != [] && Final(b) == c && Transforms(Init(script), Init(a), Init(b))
      case Insert(c) => b != [] && Final(b) == c && Transforms(Init(script), a, Init(b))
      case Delete => a != [] && Transforms(Init(script), Init(a), b)
  }

  function Cost<T>(script: seq<Edit<T>>): nat {
    if script == [] then 0 else Cost(Init(script)) + if Final(script).Keep? then 0 else 1
  }

  lemma Snoc<T>(script: seq<Edit<T>>, e: Edit<T>)
    ensures Init(script + [e]) == script && Final(script + [e]) == e
    ensures Cost(script + [e]) == Cost(script) + if e.Keep? then 0 else 1
  {
    assert Init(script + [e]) == script;
  }

  /** No script is cheaper than the distance. */
  lemma {:induction false} ScriptCostsAtLeast<T>(script: seq<Edit<T>>, a: seq<T>, b: seq<T>)
    requires Transforms(script, a, b)
    ensures Distance(a, b) <= Cost(script)
    decreases |script|
  {
    if script != [] {
      match Final(script)
      case Keep => ScriptCostsAtLeast(Init(script), Init(a), Init(b));
      case Substitute(_) => ScriptCostsAtLeast(Init(script), Init(a), Init(b));
      case Insert(_) =>
        ScriptCostsAtLeast(Init(script), a, Init(b));
        DistanceStep(a, Init(b), b);
      case Delete =>
        ScriptCostsAtLeast(Init(script), Init(a), b);
        DeleteStep(a, b);
    }
  }

  lemma DistanceStep<T>(a: seq<T>, shorter: seq<T>, b: seq<T>)
    requires b != [] && shorter == Init(b)
    ensures Distance(a, b) <= Distance(a, shorter) + 1
  {
  }

  lemma DeleteStep<T>(a: seq<T>, b: seq<T>)
    requires a != []
    ensures Distance(a, b) <= Distance(Init(a), b) + 1
  {
  }

  /** Some script costs exactly the distance. */
  lemma {:induction false} ShortestScript<T>(a: seq<T>, b: seq<T>) returns (script: seq<Edit<T>>)
    ensures Transforms(script, a, b) && Cost(script) == Distance(a, b)
    decreases |a| + |b|
  {
    if a == [] && b == [] {
      script := [];
    } else if a == [] || (b != [] && Distance(a, b) == Distance(a, Init(b)) + 1) {
      script := ShortestScript(a, Init(b));
      Snoc(script, Insert(Final(b)));
      script := script + [Insert(Final(b))];
    } else if b == [] || Distance(a, b) == Distance(Init(a), b) + 1 {
      script := ShortestScript(Init(a), b);
      Snoc(script, Delete);
      script := script + [Delete];
    } else {
      script := ShortestScript(Init(a), Init(b));
      var e := if Final(a) == Final(b) then Keep else Substitute(Final(b));
      Snoc(script, e);
      script := script + [e];
    }
  }

  /** The computed number is the length of a shortest insert/delete/substitute script. */
  lemma DistanceIsShortest<T>(a: seq<T>, b: seq<T>)
    ensures exists script :: Transforms(script, a, b) && Cost(script) == Distance(a, b)
    ensures forall script :: Transforms(script, a, b) ==> Distance(a, b) <= Cost(script)
  {
    var script := ShortestScript(a, b);
    forall s | Transforms(s, a, b) ensures Distance(a, b) <= Cost(s) {
      ScriptCostsAtLeast(s, a, b);
    }
  }

  // ---- Metric laws ----

  lemma {:induction false} ZeroIffEqual<T>(a: seq<T>, b: seq<T>)
    ensures Distance(a, b) == 0 <==> a == b
    decreases |a| + |b|
  {
    if a != [] && b != [] {
      ZeroIffEqual(Init(a), Init(b));
      assert a == Init(a) + [Final(a)] && b == Init(b) + [Final(b)];
    }
  }

  lemma {:induction false} Symmetric<T>(a: seq<T>, b: seq<T>)
    ensures Distance(a, b) == Distance(b, a)
    decreases |a| + |b|
  {
    if a != [] && b != [] {
      Symmetric(a, Init(b));
      Symmetric(Init(a), b);
      Symmetric(Init(a), Init(b));
    }
  }

  /** Two scripts compose into one that costs no more than both. */
  lemma {:induction false} Compose<T>(first: seq<Edit<T>>, second: seq<Edit<T>>, a: seq<T>, b: seq<T>, c: seq<T>)
    returns (script: seq<Edit<T>>)
    requires Transforms(first, a, b) && Transforms(second, b, c)
    ensures Transforms(script, a, c) && Cost(script) <= Cost(first) + Cost(second)
    decreases |first| + |second|
  {
    if first == [] {
      script := second;
    } else if Final(first).Delete? {
      script := Compose(Init(first), second, Init(a), b, c);
      Snoc(script, Delete);
      script := script + [Delete];
    } else if second != [] && Final(second).Insert? {
      script := Compose(first, Init(second), a, b, Init(c));
      Snoc(script, Final(second));
      script := script + [Final(second)];
    } else {
      // Both edits act on the last character of `b`.
      assert b != [] && second != [];
      var shorterA := if Final(first).Insert? then a else Init(a);
      var shorterC := if Final(second).Delete? then c else Init(c);
      script := Compose(Init(first), Init(second), shorterA, Init(b), shorterC);
      var merged := Merge(Final(first), Final(second), Final(b));
      if merged != [] {
        Snoc(script, merged[0]);
        script := script + [merged[0]];
      }
    }
  }

  /** One edit that does to a character what two edits in a row do. */
  function Merge<T>(first: Edit<T>, second: Edit<T>, middle: T): seq<Edit<T>>
    requires !first.Delete? && !second.Insert?
  {
    match (first, second)
    case (Insert(_), Delete) => []
    case (Insert(_), Keep) => [Insert(middle)]
    case (Insert(_), Substitute(c)) => [Insert(c)]
    case (_, Delete) => [Delete]
    case (Keep, Keep) => [Keep]
    case (Substitute(_), Keep) => [Substitute(middle)]
    case (_, Substitute(c)) => [Substitute(c)]
  }

  lemma TriangleInequality<T>(a: seq<T>, b: seq<T>, c: seq<T>)
    ensures Distance(a, c) <= Distance(a, b) + Distance(b, c)
  {
    var first := ShortestScript(a, b);
    var second := ShortestScript(b, c);
    var script := Compose(first, second, a, b, c);
    ScriptCostsAtLeast(script, a, c);
  }

  /** The distance is at most the longer length and at least the difference of the lengths. */
  lemma {:induction false} LengthBounds<T>(a: seq<T>, b: seq<T>)
    ensures Distance(a, b) <= Max(|a|, |b|)
    ensures Max(|a|, |b|) <= Distance(a, b) + Min(|a|, |b|)
    decreases |a| + |b|
  {
    if a != [] && b != [] {
      LengthBounds(a, Init(b));
      LengthBounds(Init(a), b);
      LengthBounds(Init(a), Init(b));
    }
  }

  // ---- Similarity ----

  /** `1 - distance / max(width, 1)`, over the reals. */
  function Similarity<T(==)>(observed: seq<T>, candidate: seq<T>): real {
    1.0 - Distance(observed, candidate) as real / Max(Max(|observed|, |candidate|), 1) as real
  }

  lemma SimilarityInUnit<T>(a: seq<T>, b: seq<T>)
    ensures 0.0 <= Similarity(a, b) <= 1.0
    ensures Similarity(a, b) == 1.0 <==> a == b
    ensures Similarity(a, b) == Similarity(b, a)
  {
    LengthBounds(a, b);
    ZeroIffEqual(a, b);
    Symmetric(a, b);
    var d, w := Distance(a, b) as real, Max(Max(|a|, |b|), 1) as real;
    RatioInUnit(d, w);
  }

  lemma RatioInUnit(d: real, w: real)
    requires 0.0 <= d <= w && 0.0 < w
    ensures 0.0 <= d / w <= 1.0
    ensures d / w == 0.0 <==> d == 0.0
  {
    assert (d / w) * w == d;
  }

  /** What the similarity misses to 1 is the distance over the longer length; empty texts are alike. */
  lemma SimilarityMeasures<T>(a: seq<T>, b: seq<T>, longer: nat)
    requires longer == if |a| >= |b| then |a| else |b|
    ensures longer == 0 ==> Similarity(a, b) == 1.0
    ensures longer > 0 ==> 1.0 - Similarity(a, b) == Distance(a, b) as real / longer as real
  {
    SimilarityInUnit(a, b);
  }
}
