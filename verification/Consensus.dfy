/** The temporal gate in front of every visual result: a sliding window over observed frames. */
module Consensus {
  import opened Wrappers

  datatype Detection<T> = Found(value: T, confidence: Number) | NotFound | Uncertain | DetectorError

  datatype Policy = Policy(windowFrames: nat, requiredAgreements: nat, minimumConfidence: Number)

  predicate ValidPolicy(p: Policy) {
    2 <= p.windowFrames <= 8 && 2 <= p.requiredAgreements <= p.windowFrames && InUnit(p.minimumConfidence)
  }

  datatype Frame<T> = FoundFrame(value: T, confidence: real) | Other

  /** What an observation contributes: only a well-formed finding at the threshold counts. */
  function FrameOf<T>(p: Policy, d: Detection<T>): Frame<T>
    requires p.minimumConfidence.Finite?
  {
    if d.Found? && InUnit(d.confidence) && d.confidence.value >= p.minimumConfidence.value
    then FoundFrame(d.value, d.confidence.value) else Other
  }

  /** The last `n` observations, or all of them. */
  function Recent<T>(history: seq<T>, n: nat): seq<T> {
    if |history| <= n then history else history[|history| - n..]
  }

  function Agreeing<T(==)>(frames: seq<Frame<T>>, value: T): seq<real> {
    if frames == [] then []
    else
      var f := frames[|frames| - 1];
      Agreeing(frames[..|frames| - 1], value) + if f.FoundFrame? && f.value == value then [f.confidence] else []
  }

  /** The frames that are findings of `value`. */
  function AgreeingAt<T(==)>(frames: seq<Frame<T>>, value: T): set<nat> {
    set i: nat | i < |frames| && frames[i].FoundFrame? && frames[i].value == value
  }

  /** Every agreeing frame is counted, and no other. */
  lemma {:induction false} AgreeingCounts<T>(frames: seq<Frame<T>>, value: T)
    ensures |Agreeing(frames, value)| == |AgreeingAt(frames, value)|
  {
    if frames == [] {
      assert AgreeingAt(frames, value) == {};
    } else {
      var n := |frames| - 1;
      AgreeingCounts(frames[..n], value);
      var rest := AgreeingAt(frames[..n], value);
      assert AgreeingAt(frames, value) ==
        if frames[n].FoundFrame? && frames[n].value == value then rest + {n} else rest;
    }
  }

  /** It is counted with its own confidence, in its place: splitting the frames splits the confidences. */
  lemma {:induction false} AgreeingSplits<T>(frames: seq<Frame<T>>, more: seq<Frame<T>>, value: T)
    ensures Agreeing(frames + more, value) == Agreeing(frames, value) + Agreeing(more, value)
    ensures |more| == 1 && more[0].FoundFrame? && value == more[0].value ==>
      Agreeing(more, value) == [more[0].confidence]
  {
    if more == [] {
      assert frames + more == frames;
    } else {
      assert (frames + more)[..|frames + more| - 1] == frames + more[..|more| - 1];
      AgreeingSplits(frames, more[..|more| - 1], value);
      assert |more| == 1 ==> more[..0] == [];
    }
  }

  /** The window is the newest observations, in order, as many as there are up to `n`. */
  lemma RecentIsNewest<T>(history: seq<T>, n: nat)
    ensures |Recent(history, n)| == if |history| <= n then |history| else n
    ensures Recent(history, n) == history[|history| - |Recent(history, n)|..]
  {
  }

  function Sum(s: seq<real>): real {
    if s == [] then 0.0 else Sum(s[..|s| - 1]) + s[|s| - 1]
  }

  /** Sums add up over parts, so that the order and grouping of confidences do not matter. */
  lemma {:induction false} SumAdds(s: seq<real>, t: seq<real>)
    ensures Sum(s + t) == Sum(s) + Sum(t)
    ensures |t| == 1 ==> Sum(t) == t[0]
  {
    if t == [] {
      assert s + t == s;
    } else {
      assert (s + t)[..|s + t| - 1] == s + t[..|t| - 1];
      SumAdds(s, t[..|t| - 1]);
      assert |t| == 1 ==> t[..0] == [];
    }
  }

  lemma {:induction false} SumBounds(s: seq<real>, low: real, high: real)
    requires forall i :: 0 <= i < |s| ==> low <= s[i] <= high
    ensures |s| as real * low <= Sum(s) <= |s| as real * high
  {
    if s != [] {
      SumBounds(s[..|s| - 1], low, high);
      assert |s| as real * low == (|s| - 1) as real * low + low;
      assert |s| as real * high == (|s| - 1) as real * high + high;
    }
  }

  lemma {:induction false} AgreeingWithin<T>(frames: seq<Frame<T>>, value: T, low: real)
    requires forall f <- frames :: f.FoundFrame? ==> low <= f.confidence <= 1.0
    ensures forall i :: 0 <= i < |Agreeing(frames, value)| ==> low <= Agreeing(frames, value)[i] <= 1.0
  {
    if frames != [] {
      AgreeingWithin(frames[..|frames| - 1], value, low);
      assert frames[|frames| - 1] in frames;
    }
  }

  lemma {:induction false} AverageWithin(s: seq<real>, low: real)
    requires s != [] && forall i :: 0 <= i < |s| ==> low <= s[i] <= 1.0
    ensures low <= Sum(s) / |s| as real <= 1.0
  {
    SumBounds(s, low, 1.0);
    var n := |s| as real;
    assert (Sum(s) / n) * n == Sum(s);
  }

  /** The verdict of the gate on the newest of all observations so far. */
  ghost predicate Agrees<T>(p: Policy, history: seq<Frame<T>>) {
    && history != [] && history[|history| - 1].FoundFrame?
    && |Agreeing(Recent(history, p.windowFrames), history[|history| - 1].value)| >= p.requiredAgreements
  }

  class TemporalConsensus<T(==)> {
    const policy: Policy
    var frames: seq<Frame<T>>
    ghost var history: seq<Frame<T>>

    ghost predicate Valid()
      reads this
    {
      && ValidPolicy(policy) && frames == Recent(history, policy.windowFrames)
      && forall f <- history :: f.FoundFrame? ==> policy.minimumConfidence.value <= f.confidence <= 1.0
    }

    constructor (policy: Policy)
      requires ValidPolicy(policy)
      ensures Valid() && history == [] && this.policy == policy
    {
      this.policy, frames, history := policy, [], [];
    }

    method Push(f: Frame<T>)
      requires Valid() && (f.FoundFrame? ==> policy.minimumConfidence.value <= f.confidence <= 1.0)
      modifies this
      ensures Valid() && history == old(history) + [f]
    {
      frames := frames + [f];
      history := history + [f];
      while |frames| > policy.windowFrames
        modifies `frames
        invariant policy.windowFrames <= |frames| || frames == history
        invariant |frames| <= |history| && frames == history[|history| - |frames|..]
      {
        frames := frames[1..];
      }
    }

    /** Found exactly when the newest frame is a well-formed finding at the threshold and enough of
        the last `windowFrames` observations are such frames with the same value. */
    method Observe(d: Detection<T>) returns (r: Detection<T>)
      requires Valid()
      modifies this
      ensures Valid() && history == old(history) + [FrameOf(policy, d)]
      ensures r.Found? <==> Agrees(policy, history)
      ensures r.Found? ==>
        && d.Found? && r.value == d.value && r.confidence.Finite?
        && policy.minimumConfidence.value <= r.confidence.value <= 1.0
        && var agreeing := Agreeing(Recent(history, policy.windowFrames), d.value);
        && r.confidence.value == Sum(agreeing) / |agreeing| as real
      ensures !d.Found? ==> r == d
      ensures d.Found? && !r.Found? ==> r == if InUnit(d.confidence) then Uncertain else DetectorError
    {
      if !d.Found? {
        Push(Other);
        return d;
      }
      if !InUnit(d.confidence) {
        Push(Other);
        return DetectorError;
      }
      if d.confidence.value < policy.minimumConfidence.value {
        Push(Other);
        return Uncertain;
      }
      Push(FoundFrame(d.value, d.confidence.value));
      var agreeing := Agreeing(frames, d.value);
      if |agreeing| < policy.requiredAgreements {
        return Uncertain;
      }
      assert forall f <- frames :: f in history;
      AgreeingWithin(frames, d.value, policy.minimumConfidence.value);
      AverageWithin(agreeing, policy.minimumConfidence.value);
      r := Found(d.value, Finite(Sum(agreeing) / |agreeing| as real));
    }
  }

  /** Agreement is always with an earlier frame that is still inside the window, so positive
      readings separated by a window of misses never combine. */
  lemma {:induction false} AgreementIsRecent<T>(p: Policy, history: seq<Frame<T>>) returns (i: nat)
    requires ValidPolicy(p) && Agrees(p, history)
    ensures i + 1 < |history| && |history| - p.windowFrames <= i
    ensures history[i].FoundFrame? && history[i].value == history[|history| - 1].value
  {
    var recent, value := Recent(history, p.windowFrames), history[|history| - 1].value;
    var init := recent[..|recent| - 1];
    assert |Agreeing(init, value)| >= 1;
    i := SomeAgreeing(init, value);
    assert init[i] == history[|history| - |recent| + i];
    i := |history| - |recent| + i;
  }

  lemma {:induction false} SomeAgreeing<T>(frames: seq<Frame<T>>, value: T) returns (i: nat)
    requires Agreeing(frames, value) != []
    ensures i < |frames| && frames[i].FoundFrame? && frames[i].value == value
  {
    var f := frames[|frames| - 1];
    if f.FoundFrame? && f.value == value {
      i := |frames| - 1;
    } else {
      i := SomeAgreeing(frames[..|frames| - 1], value);
    }
  }
}
