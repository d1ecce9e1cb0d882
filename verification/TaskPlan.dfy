/** Guarded native task plans and their validation. */
module TaskPlan {
  import opened Wrappers
  import opened InputBroker

  const MINIMUM_CONFIDENCE := 0.75
  const MAX_TASKS := 64
  const MAX_ACTIONS_PER_TASK := 2_000
  const MAX_ACTION_DURATION_MS := 30_000
  const MAX_PLAN_DURATION_MS := 6 * 60 * 60 * 1_000

  datatype TaskKind =
    | Gather(field: string)
    | Travel(destination: string, routeAnchor: string)
    | Combat(enemy: string)
    | Activity(name: string)

  datatype Direction = North | South | West | East
  datatype TaskControl = JumpControl | InteractControl | ShiftControl

  datatype TaskAction =
    | Move(direction: Direction, durationMs: nat)
    | Tap(control: TaskControl, durationMs: nat)
    | Attack(durationMs: nat)
    | Wait(durationMs: nat)

  datatype GuardedTask = GuardedTask(id: string, kind: TaskKind, minimumConfidence: Number, actions: seq<TaskAction>)
  datatype Plan = Plan(name: string, tasks: seq<GuardedTask>)
  datatype Mode = Normal | DryRun | Diagnostics

  datatype PlanError =
    | InvalidPlanName | InvalidTaskCount | InvalidTaskIdentity | UnsafeConfidence | InvalidActionCount
    | TravelWithoutMovement | CombatWithoutAttack | InvalidActionDuration | PlanTooLong

  predicate GoodText(s: string) {
    !Blank(s) && |s| <= 120
  }

  function Name(kind: TaskKind): string {
    match kind
    case Gather(f) => f
    case Travel(d, _) => d
    case Combat(e) => e
    case Activity(n) => n
  }

  /** The name the guard detector has to report before the task may act. */
  function ExpectedName(kind: TaskKind): string {
    if kind.Travel? then kind.routeAnchor else Name(kind)
  }

  function Duration(actions: seq<TaskAction>): nat {
    if actions == [] then 0 else Duration(actions[..|actions| - 1]) + actions[|actions| - 1].durationMs
  }

  function PlanDuration(tasks: seq<GuardedTask>): nat {
    if tasks == [] then 0 else PlanDuration(tasks[..|tasks| - 1]) + Duration(tasks[|tasks| - 1].actions)
  }

  predicate SafeConfidence(n: Number) {
    n.Finite? && MINIMUM_CONFIDENCE <= n.value <= 1.0
  }

  predicate ValidTask(t: GuardedTask) {
    && GoodText(t.id) && GoodText(Name(t.kind)) && (t.kind.Travel? ==> GoodText(t.kind.routeAnchor))
    && SafeConfidence(t.minimumConfidence)
    && 1 <= |t.actions| <= MAX_ACTIONS_PER_TASK
    && (t.kind.Travel? ==> exists a <- t.actions :: a.Move?)
    && (t.kind.Combat? ==> exists a <- t.actions :: a.Attack?)
    && forall a <- t.actions :: 1 <= a.durationMs <= MAX_ACTION_DURATION_MS
  }

  /** What a plan must satisfy before anything is detected or pressed. */
  predicate ValidPlan(p: Plan) {
    && GoodText(p.name) && 1 <= |p.tasks| <= MAX_TASKS
    && (forall t <- p.tasks :: ValidTask(t))
    && PlanDuration(p.tasks) <= MAX_PLAN_DURATION_MS
  }

  /** The first check a task fails, in the order the checks are made. */
  function TaskError(t: GuardedTask): Option<PlanError> {
    if !GoodText(t.id) || !GoodText(Name(t.kind)) || (t.kind.Travel? && !GoodText(t.kind.routeAnchor))
    then Some(InvalidTaskIdentity)
    else if !SafeConfidence(t.minimumConfidence) then Some(UnsafeConfidence)
    else if !(1 <= |t.actions| <= MAX_ACTIONS_PER_TASK) then Some(InvalidActionCount)
    else if t.kind.Travel? && !(exists a <- t.actions :: a.Move?) then Some(TravelWithoutMovement)
    else if t.kind.Combat? && !(exists a <- t.actions :: a.Attack?) then Some(CombatWithoutAttack)
    else if !(forall a <- t.actions :: 1 <= a.durationMs <= MAX_ACTION_DURATION_MS) then Some(InvalidActionDuration)
    else None
  }

  /** The checks of one task, adding its durations to a saturating total. */
  method ValidateTask(t: GuardedTask, total: nat) returns (r: Option<PlanError>, sum: nat)
    requires total <= MAX_U64
    ensures r == TaskError(t) && (r.None? <==> ValidTask(t))
    ensures r.None? ==> sum == Saturated(total + Duration(t.actions))
  {
    sum := total;
    if !GoodText(t.id) || !GoodText(Name(t.kind)) || (t.kind.Travel? && !GoodText(t.kind.routeAnchor)) {
      return Some(InvalidTaskIdentity), sum;
    }
    if !SafeConfidence(t.minimumConfidence) {
      return Some(UnsafeConfidence), sum;
    }
    if t.actions == [] || |t.actions| > MAX_ACTIONS_PER_TASK {
      return Some(InvalidActionCount), sum;
    }
    if t.kind.Travel? && !(exists a <- t.actions :: a.Move?) {
      return Some(TravelWithoutMovement), sum;
    }
    if t.kind.Combat? && !(exists a <- t.actions :: a.Attack?) {
      return Some(CombatWithoutAttack), sum;
    }
    for i := 0 to |t.actions|
      invariant forall a <- t.actions[..i] :: 1 <= a.durationMs <= MAX_ACTION_DURATION_MS
      invariant sum == Saturated(total + Duration(t.actions[..i]))
    {
      var d := t.actions[i].durationMs;
      if d == 0 || d > MAX_ACTION_DURATION_MS {
        assert t.actions[i] in t.actions;
        return Some(InvalidActionDuration), sum;
      }
      assert t.actions[..i + 1][..i] == t.actions[..i];
      sum := SaturatingAdd(sum, d);
    }
    assert t.actions[..|t.actions|] == t.actions;
    return None, sum;
  }

  /** Rejects exactly the invalid plans; the first offending task decides the error, and the
      saturating sum of durations never hides an overlong plan. */
  method Validate(p: Plan) returns (r: Option<PlanError>)
    ensures r.None? <==> ValidPlan(p)
    ensures r == Some(InvalidPlanName) <==> !GoodText(p.name)
    ensures r == Some(InvalidTaskCount) <==> GoodText(p.name) && !(1 <= |p.tasks| <= MAX_TASKS)
    ensures r == Some(PlanTooLong) <==>
      && GoodText(p.name) && 1 <= |p.tasks| <= MAX_TASKS
      && (forall t <- p.tasks :: ValidTask(t)) && PlanDuration(p.tasks) > MAX_PLAN_DURATION_MS
    ensures r.Some? && r.value !in {InvalidPlanName, InvalidTaskCount, PlanTooLong} ==>
      exists n :: 0 <= n < |p.tasks| && TaskError(p.tasks[n]) == r && forall t <- p.tasks[..n] :: ValidTask(t)
  {
    if !GoodText(p.name) {
      return Some(InvalidPlanName);
    }
    if p.tasks == [] || |p.tasks| > MAX_TASKS {
      return Some(InvalidTaskCount);
    }
    var total := 0;
    for n := 0 to |p.tasks|
      invariant forall t <- p.tasks[..n] :: ValidTask(t)
      invariant total == Saturated(PlanDuration(p.tasks[..n]))
    {
      assert p.tasks[..n + 1][..n] == p.tasks[..n];
      r, total := ValidateTask(p.tasks[n], total);
      if r.Some? {
        assert p.tasks[n] in p.tasks;
        return;
      }
    }
    assert p.tasks[..|p.tasks|] == p.tasks;
    if total > MAX_PLAN_DURATION_MS {
      return Some(PlanTooLong);
    }
    return None;
  }

  const MAX_U64: nat := 0xFFFF_FFFF_FFFF_FFFF

  function Saturated(n: nat): nat {
    if n <= MAX_U64 then n else MAX_U64
  }

  function SaturatingAdd(a: nat, b: nat): nat {
    Saturated(a + b)
  }

  // ---- What a plan presses ----

  function DirectionKey(d: Direction): Key {
    match d
    case North => Forward
    case South => Backward
    case West => Left
    case East => Right
  }

  function ControlKey(c: TaskControl): Key {
    match c
    case JumpControl => Jump
    case InteractControl => Interact
    case ShiftControl => Shift
  }

  /** The press an action makes, if any. */
  function PressOf(a: TaskAction): seq<InputAction> {
    match a
    case Move(d, _) => [KeyDown(DirectionKey(d))]
    case Tap(c, _) => [KeyDown(ControlKey(c))]
    case Attack(_) => [MouseDown(LeftButton)]
    case Wait(_) => []
  }

  /** What is pressed tells the action: each input is pressed by just one direction, control or attack,
      and only waiting presses nothing. */
  lemma PressTellsAction(a: TaskAction)
    ensures PressOf(a) == [] <==> a.Wait?
    ensures PressOf(a) == [MouseDown(LeftButton)] <==> a.Attack?
    ensures PressOf(a) == [KeyDown(Forward)] <==> a.Move? && a.direction == North
    ensures PressOf(a) == [KeyDown(Backward)] <==> a.Move? && a.direction == South
    ensures PressOf(a) == [KeyDown(Left)] <==> a.Move? && a.direction == West
    ensures PressOf(a) == [KeyDown(Right)] <==> a.Move? && a.direction == East
    ensures PressOf(a) == [KeyDown(Jump)] <==> a.Tap? && a.control == JumpControl
    ensures PressOf(a) == [KeyDown(Interact)] <==> a.Tap? && a.control == InteractControl
    ensures PressOf(a) == [KeyDown(Shift)] <==> a.Tap? && a.control == ShiftControl
  {
  }

  function ActionPresses(actions: seq<TaskAction>): seq<InputAction> {
    if actions == [] then [] else ActionPresses(actions[..|actions| - 1]) + PressOf(actions[|actions| - 1])
  }

  function PlanPresses(tasks: seq<GuardedTask>): seq<InputAction> {
    if tasks == [] then [] else PlanPresses(tasks[..|tasks| - 1]) + ActionPresses(tasks[|tasks| - 1].actions)
  }

  /** Presses made by the whole tasks before `t` and the first `i` actions of task `t`. */
  function PressesUpTo(tasks: seq<GuardedTask>, t: nat, i: nat): seq<InputAction>
    requires t < |tasks| && i <= |tasks[t].actions|
  {
    PlanPresses(tasks[..t]) + ActionPresses(tasks[t].actions[..i])
  }

  lemma {:induction false} ActionPrefix(actions: seq<TaskAction>, i: nat)
    requires i <= |actions|
    ensures ActionPresses(actions[..i]) <= ActionPresses(actions)
    decreases |actions|
  {
    if i < |actions| {
      var init := actions[..|actions| - 1];
      ActionPrefix(init, i);
      assert init[..i] == actions[..i];
    } else {
      assert actions[..i] == actions;
    }
  }

  lemma {:induction false} PlanPrefix(tasks: seq<GuardedTask>, t: nat)
    requires t <= |tasks|
    ensures PlanPresses(tasks[..t]) <= PlanPresses(tasks)
    decreases |tasks|
  {
    if t < |tasks| {
      var init := tasks[..|tasks| - 1];
      PlanPrefix(init, t);
      assert init[..t] == tasks[..t];
    } else {
      assert tasks[..t] == tasks;
    }
  }

  lemma FirstPresses(tasks: seq<GuardedTask>, t: nat)
    requires t < |tasks|
    ensures PressesUpTo(tasks, t, 0) == PlanPresses(tasks[..t])
  {
    assert tasks[t].actions[..0] == [];
  }

  lemma NextPress(tasks: seq<GuardedTask>, t: nat, i: nat)
    requires t < |tasks| && i < |tasks[t].actions|
    ensures PressesUpTo(tasks, t, i + 1) == PressesUpTo(tasks, t, i) + PressOf(tasks[t].actions[i])
  {
    assert tasks[t].actions[..i + 1][..i] == tasks[t].actions[..i];
  }

  lemma TaskPresses(tasks: seq<GuardedTask>, t: nat)
    requires t < |tasks|
    ensures PressesUpTo(tasks, t, |tasks[t].actions|) == PlanPresses(tasks[..t + 1])
  {
    assert tasks[..t + 1][..t] == tasks[..t];
    assert tasks[t].actions[..|tasks[t].actions|] == tasks[t].actions;
  }

  /** Whatever has been pressed at any point of a plan is a prefix of what the plan presses. */
  lemma PressesArePrefix(tasks: seq<GuardedTask>, t: nat, i: nat)
    requires t < |tasks| && i <= |tasks[t].actions|
    ensures PressesUpTo(tasks, t, i) <= PlanPresses(tasks)
  {
    PlanPrefix(tasks, t + 1);
    ActionPrefix(tasks[t].actions, i);
    TaskPresses(tasks, t);
    var all := tasks[t].actions;
    assert all[..|all|] == all;
    PrefixAppend(PlanPresses(tasks[..t]), ActionPresses(all[..i]), ActionPresses(all));
  }

  /** A pressing action comes strictly before what a later action starts from. */
  lemma LaterPresses(tasks: seq<GuardedTask>, t1: nat, i1: nat, t2: nat, i2: nat)
    requires t1 < |tasks| && i1 < |tasks[t1].actions| && PressOf(tasks[t1].actions[i1]) != []
    requires t2 < |tasks| && i2 <= |tasks[t2].actions| && (t1 < t2 || (t1 == t2 && i1 < i2))
    ensures |PressesUpTo(tasks, t1, i1)| < |PressesUpTo(tasks, t2, i2)|
  {
    NextPress(tasks, t1, i1);
    if t1 == t2 {
      ActionPrefix(tasks[t1].actions[..i2], i1 + 1);
      assert tasks[t1].actions[..i2][..i1 + 1] == tasks[t1].actions[..i1 + 1];
    } else {
      PressesArePrefix(tasks[..t2], t1, i1 + 1);
      assert tasks[..t2][..t1] == tasks[..t1];
    }
  }

  lemma PrefixAppend<T>(done: seq<T>, some: seq<T>, whole: seq<T>)
    requires some <= whole
    ensures done + some <= done + whole
  {
  }
}
