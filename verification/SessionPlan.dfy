/** Turns a profile's field rotation and collect list into trusted session steps. */
module SessionPlan {
  import opened Wrappers

  const BUILTIN_RESET_SCRIPT_ID := "builtin:reset-convert"
  const BUILTIN_APPROVAL := "builtin"
  const MAX_STEPS_PER_CYCLE := 64
  const MAX_GATHER_SECONDS := 24 * 60 * 60

  datatype StepKind = Travel | Gather | ResetConvert | Collect

  datatype SessionStep = SessionStep(
    kind: StepKind, scriptId: string, approvedSha: string, repetitions: nat, gatherSeconds: Option<nat>)

  datatype CollectStep = CollectStep(step: SessionStep, lastRunKey: string, cooldownMinutes: nat)

  datatype Rotation = Rotation(field: string, pattern: string, gatherSeconds: nat, repetitions: nat)
  datatype CollectTask = CollectTask(target: string, cooldownMinutes: nat)

  datatype Profile = Profile(
    id: string, rotations: seq<Rotation>, collect: seq<CollectTask>,
    trusted: map<string, string>, reconnectEnabled: bool)

  datatype CollectRoute = CollectRoute(file: string, runtimeKey: string)

  /** The fixed alias tables from display names to bundled assets. */
  datatype Assets = Assets(
    fieldRoute: string -> Option<string>,
    patternFile: string -> Option<string>,
    collectRoute: string -> Option<CollectRoute>)

  datatype PlanError =
    | EmptyRotation | InvalidField | InvalidPattern | InvalidGatherDuration
    | NotTrusted | InvalidCollectTarget | InvalidLimits | TooManySteps

  function RouteId(file: string): string {
    "legacy:route:paths/" + file
  }

  function PatternId(file: string): string {
    "legacy:pattern:patterns/" + file + ".ahk"
  }

  /** Trusted keys that name the pattern asset up to ASCII case. */
  ghost predicate PatternKey(p: Profile, key: string, file: string) {
    key in p.trusted && EqIgnoreCase(key, PatternId(file))
  }

  /** Why a rotation cannot be planned; the checks are made in this order. */
  ghost function RotationError(p: Profile, a: Assets, r: Rotation): Option<PlanError> {
    if !(1 <= r.gatherSeconds <= MAX_GATHER_SECONDS) then Some(InvalidGatherDuration)
    else if a.fieldRoute(r.field).None? then Some(InvalidField)
    else if RouteId(a.fieldRoute(r.field).value) !in p.trusted then Some(NotTrusted)
    else if a.patternFile(r.pattern).None? then Some(InvalidPattern)
    else if !(exists key :: PatternKey(p, key, a.patternFile(r.pattern).value)) then Some(NotTrusted)
    else None
  }

  /** A rotation can be planned exactly with a gather of up to a day, a known field and pattern, and
      consent to both of their scripts. */
  lemma PlannableIff(p: Profile, a: Assets, r: Rotation)
    ensures RotationError(p, a, r).None? <==>
      && 1 <= r.gatherSeconds <= 86_400
      && a.fieldRoute(r.field).Some? && "legacy:route:paths/" + a.fieldRoute(r.field).value in p.trusted
      && a.patternFile(r.pattern).Some?
      && exists key :: key in p.trusted
           && EqIgnoreCase(key, "legacy:pattern:patterns/" + a.patternFile(r.pattern).value + ".ahk")
  {
    if a.patternFile(r.pattern).Some? {
      var file := a.patternFile(r.pattern).value;
      assert forall key :: PatternKey(p, key, file) <==>
        key in p.trusted && EqIgnoreCase(key, "legacy:pattern:patterns/" + file + ".ahk");
    }
  }

  ghost predicate FirstBadRotation(p: Profile, a: Assets, i: nat, e: PlanError)
    requires i < |p.rotations|
  {
    && RotationError(p, a, p.rotations[i]) == Some(e)
    && forall j :: 0 <= j < i ==> RotationError(p, a, p.rotations[j]).None?
  }

  /** The three steps planned for one rotation. */
  ghost predicate Triple(p: Profile, a: Assets, r: Rotation,
                         travel: SessionStep, gather: SessionStep, reset: SessionStep)
  {
    && RotationError(p, a, r).None?
    && travel.kind == Travel && travel.scriptId == RouteId(a.fieldRoute(r.field).value)
    && travel.scriptId in p.trusted && travel.approvedSha == p.trusted[travel.scriptId]
    && travel.repetitions == 1 && travel.gatherSeconds == None
    && gather.kind == Gather && PatternKey(p, gather.scriptId, a.patternFile(r.pattern).value)
    && gather.approvedSha == p.trusted[gather.scriptId]
    && gather.repetitions == Clamp(r.repetitions, 1, 50) && gather.gatherSeconds == Some(r.gatherSeconds)
    && reset == ResetStep()
  }

  function Clamp(x: nat, low: nat, high: nat): nat {
    if x < low then low else if x > high then high else x
  }

  function ResetStep(): SessionStep {
    SessionStep(ResetConvert, BUILTIN_RESET_SCRIPT_ID, BUILTIN_APPROVAL, 1, None)
  }

  ghost predicate PlanFor(p: Profile, a: Assets, n: nat, plan: seq<SessionStep>)
    requires n <= |p.rotations|
  {
    && |plan| == 3 * n
    && forall i :: 0 <= i < n ==> Triple(p, a, p.rotations[i], plan[3 * i], plan[3 * i + 1], plan[3 * i + 2])
  }

  /** What the session worker relies on: travel, gather and reset steps in turn. */
  ghost predicate PlanShape(plan: seq<SessionStep>) {
    && |plan| > 0 && |plan| % 3 == 0
    && forall k :: 0 <= k < |plan| ==>
      if k % 3 == 1 then plan[k].kind == Gather && plan[k].gatherSeconds.Some?
      else
        && plan[k].kind == (if k % 3 == 0 then Travel else ResetConvert)
        && plan[k].gatherSeconds.None? && plan[k].repetitions == 1
        && (k % 3 == 2 ==> plan[k] == ResetStep())
  }

  /** Succeeds exactly when the rotation list is non-empty, every rotation is plannable and
      the plan fits; otherwise the first unplannable rotation decides the error. */
  method BuildSessionPlan(p: Profile, a: Assets) returns (r: Result<seq<SessionStep>, PlanError>)
    ensures r.Ok? ==> PlanFor(p, a, |p.rotations|, r.value) && PlanShape(r.value)
    ensures r.Ok? <==>
      && 0 < |p.rotations| && 3 * |p.rotations| <= MAX_STEPS_PER_CYCLE
      && forall i :: 0 <= i < |p.rotations| ==> RotationError(p, a, p.rotations[i]).None?
    ensures r.Err? ==>
      || (r.error == EmptyRotation && p.rotations == [])
      || (r.error == TooManySteps && 3 * |p.rotations| > MAX_STEPS_PER_CYCLE
          && forall i :: 0 <= i < |p.rotations| ==> RotationError(p, a, p.rotations[i]).None?)
      || (exists i :: 0 <= i < |p.rotations| && FirstBadRotation(p, a, i, r.error))
  {
    if p.rotations == [] {
      return Err(EmptyRotation);
    }
    var steps: seq<SessionStep> := [];
    for n := 0 to |p.rotations|
      invariant PlanFor(p, a, n, steps)
      invariant forall i :: 0 <= i < n ==> RotationError(p, a, p.rotations[i]).None?
    {
      var r := p.rotations[n];
      ghost var before, fault := steps, RotationError(p, a, r);
      assert fault.Some? ==> FirstBadRotation(p, a, n, fault.value);
      if !(1 <= r.gatherSeconds <= MAX_GATHER_SECONDS) {
        return Err(InvalidGatherDuration);
      }
      var route := a.fieldRoute(r.field);
      if route.None? {
        return Err(InvalidField);
      }
      var routeId := RouteId(route.value);
      if routeId !in p.trusted {
        return Err(NotTrusted);
      }
      steps := steps + [SessionStep(Travel, routeId, p.trusted[routeId], 1, None)];
      var pattern := a.patternFile(r.pattern);
      if pattern.None? {
        return Err(InvalidPattern);
      }
      var patternId := PatternId(pattern.value);
      if patternId in p.trusted {
        assert PatternKey(p, patternId, pattern.value);
      } else {
        // Trusted keys carry the manifest's casing, so any key equal up to case will do.
        var matching := set key | key in p.trusted && EqIgnoreCase(key, patternId);
        if matching == {} {
          assert forall key :: PatternKey(p, key, pattern.value) ==> key in matching;
          return Err(NotTrusted);
        }
        patternId :| patternId in matching;
        assert PatternKey(p, patternId, pattern.value);
      }
      steps := steps + [SessionStep(
        Gather, patternId, p.trusted[patternId], Clamp(r.repetitions, 1, 50), Some(r.gatherSeconds))];
      steps := steps + [ResetStep()];
      assert steps[..3 * n] == before;
      forall i | 0 <= i < n
        ensures Triple(p, a, p.rotations[i], steps[3 * i], steps[3 * i + 1], steps[3 * i + 2])
      {
        assert before[3 * i] == steps[3 * i] && before[3 * i + 1] == steps[3 * i + 1];
        assert before[3 * i + 2] == steps[3 * i + 2];
      }
    }
    if |steps| > MAX_STEPS_PER_CYCLE {
      return Err(TooManySteps);
    }
    PlanHasShape(p, a, steps);
    return Ok(steps);
  }

  lemma PlanHasShape(p: Profile, a: Assets, plan: seq<SessionStep>)
    requires p.rotations != [] && PlanFor(p, a, |p.rotations|, plan)
    ensures PlanShape(plan)
  {
    forall k | 0 <= k < |plan|
      ensures if k % 3 == 1 then plan[k].kind == Gather && plan[k].gatherSeconds.Some?
        else
          && plan[k].kind == (if k % 3 == 0 then Travel else ResetConvert)
          && plan[k].gatherSeconds.None? && plan[k].repetitions == 1
          && (k % 3 == 2 ==> plan[k] == ResetStep())
    {
      var i := k / 3;
      assert Triple(p, a, p.rotations[i], plan[3 * i], plan[3 * i + 1], plan[3 * i + 2]);
    }
  }

  ghost function CollectError(p: Profile, a: Assets, t: CollectTask): Option<PlanError> {
    if a.collectRoute(t.target).None? then Some(InvalidCollectTarget)
    else if !(5 <= t.cooldownMinutes <= 10080) then Some(InvalidLimits)
    else if RouteId(a.collectRoute(t.target).value.file) !in p.trusted then Some(NotTrusted)
    else None
  }

  /** A collect can be planned exactly with a known target, a cooldown from five minutes to a week, and
      consent to its route. */
  lemma CollectableIff(p: Profile, a: Assets, t: CollectTask)
    ensures CollectError(p, a, t).None? <==>
      && a.collectRoute(t.target).Some? && 5 <= t.cooldownMinutes <= 7 * 24 * 60
      && "legacy:route:paths/" + a.collectRoute(t.target).value.file in p.trusted
  {
  }

  ghost predicate FirstBadCollect(p: Profile, a: Assets, i: nat, e: PlanError)
    requires i < |p.collect|
  {
    && CollectError(p, a, p.collect[i]) == Some(e)
    && forall j :: 0 <= j < i ==> CollectError(p, a, p.collect[j]).None?
  }

  function LastRunKey(p: Profile, runtimeKey: string): string {
    "profile:" + p.id + ":collect_last_run:" + runtimeKey
  }

  ghost predicate CollectFor(p: Profile, a: Assets, n: nat, steps: seq<CollectStep>)
    requires n <= |p.collect|
  {
    && |steps| == n
    && forall i :: 0 <= i < n ==>
      && CollectError(p, a, p.collect[i]).None?
      && var route := a.collectRoute(p.collect[i].target).value;
      && var id := RouteId(route.file);
      && steps[i] == CollectStep(SessionStep(Collect, id, p.trusted[id], 1, None),
                                 LastRunKey(p, route.runtimeKey), p.collect[i].cooldownMinutes)
  }

  method BuildCollectSteps(p: Profile, a: Assets) returns (r: Result<seq<CollectStep>, PlanError>)
    ensures r.Ok? ==> CollectFor(p, a, |p.collect|, r.value)
    ensures r.Ok? <==>
      && |p.collect| <= MAX_STEPS_PER_CYCLE
      && forall i :: 0 <= i < |p.collect| ==> CollectError(p, a, p.collect[i]).None?
    ensures r.Err? ==>
      || (r.error == TooManySteps && |p.collect| > MAX_STEPS_PER_CYCLE
          && forall i :: 0 <= i < |p.collect| ==> CollectError(p, a, p.collect[i]).None?)
      || (exists i :: 0 <= i < |p.collect| && FirstBadCollect(p, a, i, r.error))
  {
    var steps: seq<CollectStep> := [];
    for n := 0 to |p.collect|
      invariant CollectFor(p, a, n, steps)
    {
      var t := p.collect[n];
      ghost var fault := CollectError(p, a, t);
      assert fault.Some? ==> FirstBadCollect(p, a, n, fault.value);
      var route := a.collectRoute(t.target);
      if route.None? {
        return Err(InvalidCollectTarget);
      }
      if !(5 <= t.cooldownMinutes <= 10080) {
        return Err(InvalidLimits);
      }
      var id := RouteId(route.value.file);
      if id !in p.trusted {
        return Err(NotTrusted);
      }
      steps := steps + [CollectStep(SessionStep(Collect, id, p.trusted[id], 1, None),
                                    LastRunKey(p, route.value.runtimeKey), t.cooldownMinutes)];
    }
    if |steps| > MAX_STEPS_PER_CYCLE {
      return Err(TooManySteps);
    }
    return Ok(steps);
  }

  /** Every step a session can execute, in preflight order. */
  function AllSteps(plan: seq<SessionStep>, collect: seq<CollectStep>): seq<SessionStep> {
    plan + seq(|collect|, i requires 0 <= i < |collect| => collect[i].step)
  }

  /** The consent digest the profile holds for a script, or the builtin marker. */
  ghost predicate Consented(p: Profile, s: SessionStep) {
    if s.scriptId == BUILTIN_RESET_SCRIPT_ID then s.approvedSha == BUILTIN_APPROVAL
    else s.scriptId in p.trusted && s.approvedSha == p.trusted[s.scriptId]
  }

  lemma BundledIdsAreNotBuiltin(file: string, key: string)
    requires key == RouteId(file) || EqIgnoreCase(key, PatternId(file))
    ensures key != BUILTIN_RESET_SCRIPT_ID
  {
    assert RouteId(file)[0] == 'l' == PatternId(file)[0];
    assert BUILTIN_RESET_SCRIPT_ID[0] == 'b';
  }

  lemma StepConsented(p: Profile, a: Assets, plan: seq<SessionStep>, collect: seq<CollectStep>, k: nat)
    requires PlanFor(p, a, |p.rotations|, plan) && CollectFor(p, a, |p.collect|, collect)
    requires k < |AllSteps(plan, collect)|
    ensures Consented(p, AllSteps(plan, collect)[k])
  {
    if k < |plan| {
      var i := k / 3;
      assert Triple(p, a, p.rotations[i], plan[3 * i], plan[3 * i + 1], plan[3 * i + 2]);
      BundledIdsAreNotBuiltin(a.fieldRoute(p.rotations[i].field).value, plan[3 * i].scriptId);
      BundledIdsAreNotBuiltin(a.patternFile(p.rotations[i].pattern).value, plan[3 * i + 1].scriptId);
    } else {
      BundledIdsAreNotBuiltin(a.collectRoute(p.collect[k - |plan|].target).value.file,
                              collect[k - |plan|].step.scriptId);
    }
  }

  /** Two planned steps with the same script carry the same consent digest, so preflighting
      each script once preflights every digest that will be executed. */
  lemma SameScriptSameDigest(
    p: Profile, a: Assets, plan: seq<SessionStep>, collect: seq<CollectStep>, j: nat, k: nat)
    requires PlanFor(p, a, |p.rotations|, plan) && CollectFor(p, a, |p.collect|, collect)
    requires j < |AllSteps(plan, collect)| && k < |AllSteps(plan, collect)|
    requires AllSteps(plan, collect)[j].scriptId == AllSteps(plan, collect)[k].scriptId
    ensures AllSteps(plan, collect)[j].approvedSha == AllSteps(plan, collect)[k].approvedSha
  {
    StepConsented(p, a, plan, collect, j);
    StepConsented(p, a, plan, collect, k);
  }
}
