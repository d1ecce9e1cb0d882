/**
 Movement programs: bounded nesting and bounded expansion, checked in one pass with a
 running counter.

 The positions that errors carry as text are left out.
 */
module Dsl {
  import opened Wrappers

  const NECTAR_SCHEMA_VERSION := 1
  const MAX_NESTING := 16
  const MAX_EXPANDED_STEPS := 10_000
  const MAX_STEP_DURATION_MS := 900_000
  const USIZE_MAX := 0xFFFF_FFFF_FFFF_FFFF

  datatype Direction = Forward | Backward | Left | Right
  datatype Unavailable = Skip | Pause | Abort

  datatype Step =
    | Move(direction: Direction, durationMs: nat, speed: Number)
    | Rotate(degrees: Number, durationMs: nat)
    | Jump(durationMs: nat)
    | Wait(durationMs: nat)
    | Repeat(times: nat, steps: seq<Step>)
    | DetectorCondition(detector: string, minimumConfidence: Number, onFound: seq<Step>, onUnavailable: Unavailable)

  datatype Program = Program(schemaVersion: nat, name: string, description: string, steps: seq<Step>)

  datatype ValidationError =
    | UnsupportedVersion | EmptyName | EmptySteps | TooDeep | TooManySteps
    | InvalidDuration | InvalidNumber | InvalidRepeat | EmptyDetector

  // ---- What an accepted program is ----

  predicate DurationOk(ms: nat) {
    0 < ms <= MAX_STEP_DURATION_MS
  }

  predicate Within(x: Number, low: real, high: real) {
    x.Finite? && low <= x.value <= high
  }

  predicate LeafOk(step: Step) {
    match step
    case Move(_, ms, speed) => DurationOk(ms) && Within(speed, 0.05, 1.0)
    case Rotate(degrees, ms) => DurationOk(ms) && Within(degrees, -1440.0, 1440.0) && degrees.value != 0.0
    case Jump(ms) => DurationOk(ms)
    case Wait(ms) => DurationOk(ms)
    case _ => false
  }

  predicate StepOk(step: Step) {
    match step
    case Repeat(times, steps) => 1 <= times <= 100 && steps != [] && ListOk(steps)
    case DetectorCondition(detector, confidence, onFound, _) =>
      !Blank(detector) && Within(confidence, 0.0, 1.0) && onFound != [] && ListOk(onFound)
    case _ => LeafOk(step)
  }

  predicate ListOk(steps: seq<Step>) {
    forall i :: 0 <= i < |steps| ==> StepOk(steps[i])
  }

  function Larger(a: nat, b: nat): nat {
    if a < b then b else a
  }

  /** Levels of nesting below a list. */
  function Nesting(steps: seq<Step>): nat {
    if steps == [] then 0
    else Larger(Nesting(steps[..|steps| - 1]), StepNesting(steps[|steps| - 1]))
  }

  function StepNesting(step: Step): nat {
    match step
    case Repeat(_, steps) => 1 + Nesting(steps)
    case DetectorCondition(_, _, onFound, _) => 1 + Nesting(onFound)
    case _ => 0
  }

  /** Steps after unrolling every repeat, counting the control steps themselves. */
  function Size(steps: seq<Step>): nat {
    if steps == [] then 0 else Size(steps[..|steps| - 1]) + StepSize(steps[|steps| - 1])
  }

  function StepSize(step: Step): nat {
    match step
    case Repeat(times, steps) => 1 + times * Size(steps)
    case DetectorCondition(_, _, onFound, _) => 1 + Size(onFound)
    case _ => 1
  }

  /** Control steps, each inside the body of the one before, given by their positions. */
  predicate Chain(steps: seq<Step>, path: seq<nat>)
    decreases |path|
  {
    path == [] ||
      (path[0] < |steps|
       && match steps[path[0]]
          case Repeat(_, body) => Chain(body, path[1..])
          case DetectorCondition(_, _, onFound, _) => Chain(onFound, path[1..])
          case _ => false)
  }

  lemma {:induction false} NestingAt(steps: seq<Step>, i: nat)
    requires i < |steps|
    ensures StepNesting(steps[i]) <= Nesting(steps)
  {
    if i < |steps| - 1 {
      NestingAt(steps[..|steps| - 1], i);
    }
  }

  /** No chain is longer than the nesting. */
  lemma {:induction false} NestingBoundsChains(steps: seq<Step>, path: seq<nat>)
    requires Chain(steps, path)
    ensures |path| <= Nesting(steps)
    decreases |path|
  {
    if path != [] {
      NestingAt(steps, path[0]);
      match steps[path[0]]
      case Repeat(_, body) => NestingBoundsChains(body, path[1..]);
      case DetectorCondition(_, _, onFound, _) => NestingBoundsChains(onFound, path[1..]);
    }
  }

  lemma {:induction false} DeepestAt(steps: seq<Step>) returns (i: nat)
    requires Nesting(steps) > 0
    ensures i < |steps| && StepNesting(steps[i]) == Nesting(steps)
  {
    var last := |steps| - 1;
    if StepNesting(steps[last]) == Nesting(steps) {
      i := last;
    } else {
      i := DeepestAt(steps[..last]);
    }
  }

  /** Some chain is as long as the nesting. */
  lemma {:induction false} DeepestChain(steps: seq<Step>) returns (path: seq<nat>)
    ensures Chain(steps, path) && |path| == Nesting(steps)
    decreases Nesting(steps)
  {
    path := [];
    if Nesting(steps) > 0 {
      var i := DeepestAt(steps);
      var inner;
      match steps[i]
      case Repeat(_, body) => inner := DeepestChain(body); path := [i] + inner;
      case DetectorCondition(_, _, onFound, _) => inner := DeepestChain(onFound); path := [i] + inner;
    }
  }

  /** The steps with every repeat unrolled, control steps included. */
  function Expanded(steps: seq<Step>): seq<Step>
    decreases steps, 0
  {
    if steps == [] then [] else Expanded(steps[..|steps| - 1]) + ExpandedStep(steps[|steps| - 1])
  }

  function ExpandedStep(step: Step): seq<Step>
    decreases step, 1
  {
    match step
    case Repeat(times, body) => [step] + Copies(times, Expanded(body))
    case DetectorCondition(_, _, onFound, _) => [step] + Expanded(onFound)
    case _ => [step]
  }

  function Copies(times: nat, t: seq<Step>): seq<Step> {
    if times == 0 then [] else Copies(times - 1, t) + t
  }

  lemma {:induction false} CopiesSize(times: nat, t: seq<Step>)
    ensures |Copies(times, t)| == times * |t|
  {
    if times > 0 {
      CopiesSize(times - 1, t);
      OneMoreRound(times, |t|);
    }
  }

  /** The size is the number of steps after unrolling. */
  lemma {:induction false} SizeIsExpanded(steps: seq<Step>)
    ensures |Expanded(steps)| == Size(steps)
    decreases steps, 0
  {
    if steps != [] {
      SizeIsExpanded(steps[..|steps| - 1]);
      StepSizeIsExpanded(steps[|steps| - 1]);
    }
  }

  lemma {:induction false} StepSizeIsExpanded(step: Step)
    ensures |ExpandedStep(step)| == StepSize(step)
    decreases step, 1
  {
    match step
    case Repeat(times, body) =>
      SizeIsExpanded(body);
      CopiesSize(times, Expanded(body));
    case DetectorCondition(_, _, onFound, _) => SizeIsExpanded(onFound);
    case _ =>
  }

  predicate Accepted(p: Program) {
    && p.schemaVersion == NECTAR_SCHEMA_VERSION && !Blank(p.name) && p.steps != []
    && ListOk(p.steps) && Nesting(p.steps) <= MAX_NESTING && Size(p.steps) <= MAX_EXPANDED_STEPS
  }

  // ---- The validator ----

  function CheckedAdd(a: nat, b: nat): Option<nat> {
    if a + b > USIZE_MAX then None else Some(a + b)
  }

  function SaturatingMul(a: nat, b: nat): nat {
    if a * b > USIZE_MAX then USIZE_MAX else a * b
  }

  /** Each error names a fault of the list being validated. */
  predicate Explains(e: ValidationError, steps: seq<Step>, depth: nat, expanded: nat) {
    match e
    case TooDeep => depth + Nesting(steps) > MAX_NESTING
    case TooManySteps => expanded + Size(steps) > MAX_EXPANDED_STEPS
    case UnsupportedVersion => false
    case EmptyName => false
    case _ => !ListOk(steps)
  }

  predicate StepExplains(e: ValidationError, step: Step, depth: nat, expanded: nat) {
    match e
    case TooDeep => depth + StepNesting(step) > MAX_NESTING
    case TooManySteps => expanded + StepSize(step) > MAX_EXPANDED_STEPS
    case UnsupportedVersion => false
    case EmptyName => false
    case _ => !StepOk(step)
  }

  /** What is wrong with a step by itself, its body not looked into. */
  function OwnFault(step: Step): Option<ValidationError> {
    match step
    case Move(_, ms, speed) =>
      if !DurationOk(ms) then Some(InvalidDuration) else if !Within(speed, 0.05, 1.0) then Some(InvalidNumber) else None
    case Rotate(_, ms) =>
      if !DurationOk(ms) then Some(InvalidDuration) else if !LeafOk(step) then Some(InvalidNumber) else None
    case Jump(ms) => if DurationOk(ms) then None else Some(InvalidDuration)
    case Wait(ms) => if DurationOk(ms) then None else Some(InvalidDuration)
    case Repeat(times, body) =>
      if !(1 <= times <= 100) then Some(InvalidRepeat) else if body == [] then Some(EmptySteps) else None
    case DetectorCondition(detector, confidence, onFound, _) =>
      if Blank(detector) then Some(EmptyDetector)
      else if !Within(confidence, 0.0, 1.0) then Some(InvalidNumber)
      else if onFound == [] then Some(EmptySteps) else None
  }

  /** The steps inside a step, which are walked before the step is charged for its rounds. */
  function Body(step: Step): seq<Step> {
    match step
    case Repeat(_, body) => body
    case DetectorCondition(_, _, onFound, _) => onFound
    case _ => []
  }

  /** The first fault in program order, by sizes alone: `expanded` steps come before. */
  function FirstFault(steps: seq<Step>, depth: nat, expanded: nat): Option<ValidationError>
    decreases steps, 1
  {
    if depth > MAX_NESTING then Some(TooDeep) else FaultAmong(steps, depth, expanded)
  }

  function FaultAmong(steps: seq<Step>, depth: nat, expanded: nat): Option<ValidationError>
    decreases steps, 0
  {
    if steps == [] then None
    else
      var init := steps[..|steps| - 1];
      var earlier := FaultAmong(init, depth, expanded);
      if earlier.Some? then earlier else StepFault(steps[|steps| - 1], depth, expanded + Size(init))
  }

  function StepFault(step: Step, depth: nat, expanded: nat): Option<ValidationError>
    decreases step, 2
  {
    if expanded == MAX_EXPANDED_STEPS then Some(TooManySteps)
    else if OwnFault(step).Some? then OwnFault(step)
    else
      var inside := if Body(step) == [] then None else FirstFault(Body(step), depth + 1, expanded + 1);
      if inside.Some? then inside
      else if expanded + StepSize(step) > MAX_EXPANDED_STEPS then Some(TooManySteps) else None
  }

  /** The first fault of a beginning of a list is that of the list. */
  lemma {:induction false} FaultStays(steps: seq<Step>, n: nat, depth: nat, expanded: nat)
    requires n <= |steps| && FaultAmong(steps[..n], depth, expanded).Some?
    ensures FaultAmong(steps, depth, expanded) == FaultAmong(steps[..n], depth, expanded)
    decreases |steps|
  {
    if n == |steps| {
      assert steps[..n] == steps;
    } else {
      var init := steps[..|steps| - 1];
      assert init[..n] == steps[..n];
      FaultStays(init, n, depth, expanded);
    }
  }

  lemma FaultNext(steps: seq<Step>, n: nat, depth: nat, expanded: nat)
    requires n < |steps| && FaultAmong(steps[..n], depth, expanded).None?
    ensures FaultAmong(steps[..n + 1], depth, expanded) == StepFault(steps[n], depth, expanded + Size(steps[..n]))
  {
    assert steps[..n + 1][..n] == steps[..n];
  }

  /** Nesting and size of a list are those of its parts. */
  lemma {:induction false} PartsBound(steps: seq<Step>, n: nat)
    requires n < |steps|
    ensures Size(steps[..n]) + StepSize(steps[n]) == Size(steps[..n + 1]) <= Size(steps)
    ensures Larger(Nesting(steps[..n]), StepNesting(steps[n])) == Nesting(steps[..n + 1]) <= Nesting(steps)
  {
    var last := |steps| - 1;
    assert steps[..n + 1][..n] == steps[..n];
    if n == last {
      assert steps[..n + 1] == steps;
    } else {
      PartsBound(steps[..last], n);
      assert steps[..last][..n] == steps[..n] && steps[..last][..n + 1] == steps[..n + 1];
    }
  }

  /** The running counter with its early exits decides exactly the bound on the expanded size. */
  method ValidateSteps(steps: seq<Step>, depth: nat, expanded: nat)
    returns (error: Option<ValidationError>, total: nat)
    requires expanded <= MAX_EXPANDED_STEPS
    ensures error.None? <==>
      && ListOk(steps) && depth + Nesting(steps) <= MAX_NESTING && expanded + Size(steps) <= MAX_EXPANDED_STEPS
    ensures error.None? ==> total == expanded + Size(steps)
    ensures error.Some? ==> Explains(error.value, steps, depth, expanded)
    ensures error == FirstFault(steps, depth, expanded)
    decreases steps, 0
  {
    total := expanded;
    if depth > MAX_NESTING {
      return Some(TooDeep), total;
    }
    for n := 0 to |steps|
      invariant total == expanded + Size(steps[..n]) <= MAX_EXPANDED_STEPS
      invariant ListOk(steps[..n]) && depth + Nesting(steps[..n]) <= MAX_NESTING
      invariant FaultAmong(steps[..n], depth, expanded).None?
    {
      PartsBound(steps, n);
      FaultNext(steps, n, depth, expanded);
      error, total := ValidateStep(steps[n], depth, total);
      if error.Some? {
        FaultStays(steps, n + 1, depth, expanded);
        return;
      }
    }
    assert steps[..|steps|] == steps;
    error := None;
  }

  method ValidateStep(step: Step, depth: nat, expanded: nat) returns (error: Option<ValidationError>, total: nat)
    requires expanded <= MAX_EXPANDED_STEPS && depth <= MAX_NESTING
    ensures error.None? <==>
      && StepOk(step) && depth + StepNesting(step) <= MAX_NESTING && expanded + StepSize(step) <= MAX_EXPANDED_STEPS
    ensures error.None? ==> total == expanded + StepSize(step)
    ensures error.Some? ==> StepExplains(error.value, step, depth, expanded)
    ensures error == StepFault(step, depth, expanded)
    decreases step, 0
  {
    total := expanded;
    var next := CheckedAdd(expanded, 1);
    if next.None? {
      return Some(TooManySteps), total;
    }
    total := next.value;
    if total > MAX_EXPANDED_STEPS {
      StepSizePositive(step);
      return Some(TooManySteps), total;
    }
    match step
    case Move(_, ms, speed) =>
      if !DurationOk(ms) { return Some(InvalidDuration), total; }
      return if Within(speed, 0.05, 1.0) then None else Some(InvalidNumber), total;
    case Rotate(degrees, ms) =>
      if !DurationOk(ms) { return Some(InvalidDuration), total; }
      if !degrees.Finite? || degrees.value == 0.0 || degrees.value > 1440.0 || degrees.value < -1440.0 {
        return Some(InvalidNumber), total;
      }
      error := None;
    case Jump(ms) =>
      error := if DurationOk(ms) then None else Some(InvalidDuration);
    case Wait(ms) =>
      error := if DurationOk(ms) then None else Some(InvalidDuration);
    case Repeat(times, body) =>
      error, total := ValidateRepeat(times, body, depth, total);
    case DetectorCondition(detector, confidence, onFound, _) =>
      if Blank(detector) { return Some(EmptyDetector), total; }
      if !Within(confidence, 0.0, 1.0) { return Some(InvalidNumber), total; }
      if onFound == [] { return Some(EmptySteps), total; }
      error, total := ValidateSteps(onFound, depth + 1, total);
  }

  lemma StepSizePositive(step: Step)
    ensures StepSize(step) >= 1
  {
  }

  /** The body is validated once and charged `times` times; nothing here can overflow. */
  method ValidateRepeat(times: nat, body: seq<Step>, depth: nat, expanded: nat)
    returns (error: Option<ValidationError>, total: nat)
    requires expanded <= MAX_EXPANDED_STEPS && depth <= MAX_NESTING
    ensures error.None? <==>
      && 1 <= times <= 100 && body != [] && ListOk(body)
      && depth + 1 + Nesting(body) <= MAX_NESTING && expanded + times * Size(body) <= MAX_EXPANDED_STEPS
    ensures error.None? ==> total == expanded + times * Size(body)
    ensures error == Some(TooDeep) ==> depth + 1 + Nesting(body) > MAX_NESTING
    ensures error == Some(TooManySteps) ==> expanded + times * Size(body) > MAX_EXPANDED_STEPS
    ensures error.Some? && error.value !in {TooDeep, TooManySteps} ==>
      error.value !in {UnsupportedVersion, EmptyName} && !(1 <= times <= 100 && body != [] && ListOk(body))
    ensures expanded > 0 ==> error == StepFault(Repeat(times, body), depth, expanded - 1)
    decreases body, 1
  {
    total := expanded;
    if !(1 <= times <= 100) {
      return Some(InvalidRepeat), total;
    }
    if body == [] {
      return Some(EmptySteps), total;
    }
    error, total := ValidateSteps(body, depth + 1, expanded);
    Charge(times, Size(body));
    if error.Some? {
      return;
    }
    var nested := total - expanded;
    var charged := CheckedAdd(total, SaturatingMul(nested, times - 1));
    if charged.None? {
      return Some(TooManySteps), total;
    }
    total := charged.value;
    error := if total > MAX_EXPANDED_STEPS then Some(TooManySteps) else None;
  }

  lemma Charge(times: nat, size: nat)
    requires 1 <= times <= 100
    ensures size <= times * size == size + size * (times - 1)
    ensures size <= MAX_EXPANDED_STEPS ==> size * (times - 1) <= 99 * MAX_EXPANDED_STEPS
  {
    if size <= MAX_EXPANDED_STEPS {
      Product(size, times - 1);
    }
  }

  lemma Product(size: nat, rounds: nat)
    requires size <= MAX_EXPANDED_STEPS && rounds <= 99
    ensures size * rounds <= MAX_EXPANDED_STEPS * 99
  {
    TimesOrdered(size, MAX_EXPANDED_STEPS, rounds);
  }

  method Validate(p: Program) returns (error: Option<ValidationError>)
    ensures error.None? <==> Accepted(p)
    ensures error == Some(UnsupportedVersion) <==> p.schemaVersion != NECTAR_SCHEMA_VERSION
    ensures error == Some(EmptyName) <==> p.schemaVersion == NECTAR_SCHEMA_VERSION && Blank(p.name)
    ensures p.schemaVersion == NECTAR_SCHEMA_VERSION && !Blank(p.name) ==>
      error == if p.steps == [] then Some(EmptySteps) else FirstFault(p.steps, 0, 0)
  {
    if p.schemaVersion != NECTAR_SCHEMA_VERSION {
      return Some(UnsupportedVersion);
    }
    if Blank(p.name) {
      return Some(EmptyName);
    }
    if p.steps == [] {
      return Some(EmptySteps);
    }
    var total;
    error, total := ValidateSteps(p.steps, 0, 0);
  }

  // ---- Runs of a program ----

  /** `t` lists the leaf steps of one complete run: every repeat runs all its rounds, each of
      which may differ, and a condition runs its branch or nothing. */
  ghost predicate ListRuns(steps: seq<Step>, t: seq<Step>)
    decreases steps, 0
  {
    if steps == [] then t == []
    else exists k :: 0 <= k <= |t| && ListRuns(steps[..|steps| - 1], t[..k]) && StepRuns(steps[|steps| - 1], t[k..])
  }

  ghost predicate StepRuns(step: Step, t: seq<Step>)
    decreases step, 0
  {
    match step
    case Repeat(times, steps) => RoundsRun(steps, times, t)
    case DetectorCondition(_, _, onFound, _) => t == [] || ListRuns(onFound, t)
    case _ => t == [step]
  }

  ghost predicate RoundsRun(steps: seq<Step>, times: nat, t: seq<Step>)
    decreases steps, 1, times
  {
    if times == 0 then t == []
    else exists k :: 0 <= k <= |t| && RoundsRun(steps, times - 1, t[..k]) && ListRuns(steps, t[k..])
  }

  /** A complete run, or the beginning of one that a condition aborted. */
  ghost predicate Runs(p: Program, t: seq<Step>) {
    exists whole :: ListRuns(p.steps, whole) && t <= whole
  }

  predicate AllLeavesOk(t: seq<Step>) {
    forall i :: 0 <= i < |t| ==> LeafOk(t[i])
  }

  lemma {:induction false} ListRunBound(steps: seq<Step>, t: seq<Step>)
    requires ListRuns(steps, t) && ListOk(steps)
    ensures |t| <= Size(steps) && AllLeavesOk(t)
    decreases steps, 0
  {
    if steps != [] {
      var k :| 0 <= k <= |t| && ListRuns(steps[..|steps| - 1], t[..k]) && StepRuns(steps[|steps| - 1], t[k..]);
      ListRunBound(steps[..|steps| - 1], t[..k]);
      StepRunBound(steps[|steps| - 1], t[k..]);
      assert t == t[..k] + t[k..];
    }
  }

  lemma {:induction false} StepRunBound(step: Step, t: seq<Step>)
    requires StepRuns(step, t) && StepOk(step)
    ensures |t| <= StepSize(step) && AllLeavesOk(t)
    decreases step, 0
  {
    match step
    case Repeat(times, steps) => RoundsBound(steps, times, t);
    case DetectorCondition(_, _, onFound, _) => if t != [] { ListRunBound(onFound, t); }
    case _ =>
  }

  lemma OneMoreRound(times: nat, size: nat)
    requires times > 0
    ensures times * size == (times - 1) * size + size
  {
  }

  lemma {:induction false} RoundsBound(steps: seq<Step>, times: nat, t: seq<Step>)
    requires RoundsRun(steps, times, t) && ListOk(steps)
    ensures |t| <= times * Size(steps) && AllLeavesOk(t)
    decreases steps, 1, times
  {
    if times > 0 {
      var k :| 0 <= k <= |t| && RoundsRun(steps, times - 1, t[..k]) && ListRuns(steps, t[k..]);
      RoundsBound(steps, times - 1, t[..k]);
      ListRunBound(steps, t[k..]);
      assert t == t[..k] + t[k..];
      OneMoreRound(times, Size(steps));
    }
  }

  function TotalMs(t: seq<Step>): nat
    requires AllLeavesOk(t)
  {
    if t == [] then 0 else TotalMs(t[..|t| - 1]) + t[|t| - 1].durationMs
  }

  lemma {:induction false} TotalBound(t: seq<Step>)
    requires AllLeavesOk(t)
    ensures TotalMs(t) <= |t| * MAX_STEP_DURATION_MS
  {
    if t != [] {
      TotalBound(t[..|t| - 1]);
    }
  }

  /** Every run of an accepted program is bounded, in steps and in time. */
  lemma AcceptedRunsAreBounded(p: Program, t: seq<Step>)
    requires Accepted(p) && Runs(p, t)
    ensures |t| <= MAX_EXPANDED_STEPS && AllLeavesOk(t)
    ensures TotalMs(t) <= MAX_EXPANDED_STEPS * MAX_STEP_DURATION_MS
  {
    var whole :| ListRuns(p.steps, whole) && t <= whole;
    ListRunBound(p.steps, whole);
    assert forall i :: 0 <= i < |t| ==> t[i] == whole[i];
    TotalBound(t);
  }
}
