/**
 The native task runtime over one adopted window: session revalidation, guarded
 detection, held actions, and the execution of a whole task plan.

 Window snapshots, foreground answers, detector results, sink refusals and cancellation
 are parameters (`Outside`); delays take no part in the claims.
 */
module TaskRuntime {
  import opened Wrappers
  import opened InputBroker
  import opened TaskPlan

  const MAX_REVISION: nat := 0xFFFF_FFFF_FFFF_FFFF

  datatype TaskError = CancelledTask | FocusLost | SessionChanged | CalibrationChanged | InputFailed

  datatype Detection =
    | Found(name: string, confidence: Number, revision: nat, validRegion: bool)
    | NotFound
    | Uncertain
    | DetectorError

  datatype ActionOutcome = Succeeded | NeedsAttention | Failed | CancelledPlan

  /** What the window system says about the adopted window. */
  datatype Snapshot = Snapshot(owner: Target, geometry: Geometry, foreground: bool)

  type Window = Result<Snapshot, ()>

  predicate Owned(window: Window, target: Target) {
    window.Ok? && window.value.owner == target
  }

  // ---- What the outside answers ----

  /** The answers to the questions of each kind, by their number: whether the plan is cancelled, the window,
      the foreground, whether the sink takes an event, the releases of each clean-up, and the detector. */
  datatype Outside = Outside(
    cancelled: nat -> bool,
    window: nat -> Window,
    foreground: nat -> Answer,
    accepts: nat -> bool,
    releases: (nat, Input) -> bool,
    detection: (nat, TaskKind) -> Detection)

  /** How many questions of each kind have been asked. */
  datatype Asked = Asked(checks: nat, windows: nat, foregrounds: nat, sends: nat, detections: nat)

  predicate Grows(a: Asked, b: Asked) {
    && a.checks <= b.checks && a.windows <= b.windows && a.foregrounds <= b.foregrounds
    && a.sends <= b.sends && a.detections <= b.detections
  }

  /** An answer given from `a` to `b` is the cause of error `e`, for target `t` and geometry `g`. */
  ghost predicate Caused(o: Outside, a: Asked, b: Asked, t: Target, g: Geometry, e: TaskError) {
    match e
    case CancelledTask => exists n :: a.checks <= n < b.checks && o.cancelled(n)
    case SessionChanged => exists n :: a.windows <= n < b.windows && !Owned(o.window(n), t)
    case CalibrationChanged =>
      exists n :: a.windows <= n < b.windows && o.window(n).Ok? && o.window(n).value.geometry != g
    case FocusLost =>
      || (exists n :: a.windows <= n < b.windows && Hidden(o.window(n)))
      || (exists n :: a.foregrounds <= n < b.foregrounds && o.foreground(n).Ok? && o.foreground(n) != Ok(Some(t)))
    case InputFailed =>
      || (exists n :: a.foregrounds <= n < b.foregrounds && o.foreground(n).Err?)
      || (exists n :: a.sends <= n < b.sends && !o.accepts(n))
  }

  predicate Hidden(window: Window) {
    window.Ok? && (!Usable(window.value.geometry) || !window.value.foreground)
  }

  /** A finding on which a task may act: current, well formed, sure enough and of the expected name. */
  predicate Fits(d: Detection, task: GuardedTask, revision: nat) {
    && d.Found? && d.revision == revision && d.validRegion
    && InUnit(d.confidence) && task.minimumConfidence.Finite? && d.confidence.value >= task.minimumConfidence.value
    && EqIgnoreCase(d.name, ExpectedName(task.kind))
  }

  /** An answer given from `a` to `b` is the cause of a task's `stop`. */
  ghost predicate StopCaused(o: Outside, a: Asked, b: Asked, t: Target, g: Geometry, revision: nat,
                             task: GuardedTask, stop: ActionOutcome) {
    match stop
    case Succeeded => false
    case CancelledPlan => Caused(o, a, b, t, g, CancelledTask)
    case NeedsAttention =>
      || Caused(o, a, b, t, g, SessionChanged) || Caused(o, a, b, t, g, CalibrationChanged)
      || Caused(o, a, b, t, g, FocusLost)
      || (exists n :: a.detections <= n < b.detections && !Fits(o.detection(n, task.kind), task, revision))
    case Failed =>
      || Caused(o, a, b, t, g, SessionChanged) || Caused(o, a, b, t, g, InputFailed)
      || (exists n :: a.detections <= n < b.detections && o.detection(n, task.kind).DetectorError?)
  }

  lemma CausedWiden(o: Outside, a: Asked, b: Asked, c: Asked, d: Asked, t: Target, g: Geometry, e: TaskError)
    requires Grows(a, b) && Grows(c, d) && Caused(o, b, c, t, g, e)
    ensures Caused(o, a, d, t, g, e)
  {
  }

  lemma StopWiden(o: Outside, a: Asked, b: Asked, c: Asked, d: Asked, t: Target, g: Geometry, revision: nat,
                  task: GuardedTask, stop: ActionOutcome)
    requires Grows(a, b) && Grows(c, d) && StopCaused(o, b, c, t, g, revision, task, stop)
    ensures StopCaused(o, a, d, t, g, revision, task, stop)
  {
    forall e | Caused(o, b, c, t, g, e) ensures Caused(o, a, d, t, g, e) {
      CausedWiden(o, a, b, c, d, t, g, e);
    }
  }

  /** Nothing is cancelled, the window stays as it is, in the foreground, every event is taken, and every
      task of the plan is found whenever it is looked for. */
  ghost predicate AllGood(o: Outside, t: Target, g: Geometry, revision: nat, tasks: seq<GuardedTask>) {
    && Usable(g)
    && (forall n :: !o.cancelled(n)) && (forall n :: o.window(n) == Ok(Snapshot(t, g, true)))
    && (forall n :: o.foreground(n) == Ok(Some(t))) && (forall n :: o.accepts(n))
    && (forall n, k :: 0 <= k < |tasks| ==> Fits(o.detection(n, tasks[k].kind), tasks[k], revision))
  }

  lemma GoodCausesNothing(o: Outside, a: Asked, b: Asked, t: Target, g: Geometry, revision: nat,
                          tasks: seq<GuardedTask>, k: nat, stop: ActionOutcome)
    requires AllGood(o, t, g, revision, tasks) && k < |tasks|
    ensures !StopCaused(o, a, b, t, g, revision, tasks[k], stop)
  {
    forall e ensures !Caused(o, a, b, t, g, e) {
    }
    forall n: nat ensures Fits(o.detection(n, tasks[k].kind), tasks[k], revision) {
    }
  }

  // ---- What the ghost history says ----

  predicate Usable(g: Geometry) {
    !g.minimized && g.clientWidth != 0 && g.clientHeight != 0
  }

  function ClampUnit(x: real): real {
    if x < 0.0 then 0.0 else if x > 1.0 then 1.0 else x
  }

  /** `Detection::actionable` against a task's confidence. */
  predicate Actionable(confidence: Number, minimum: Number) {
    InUnit(confidence) && minimum.Finite? && confidence.value >= ClampUnit(minimum.value)
  }

  /** Moment `q` is a detection that permits task `t`. */
  ghost predicate Permits(plan: Plan, history: seq<Moment>, q: nat, t: nat) {
    && q < |history| && t < |plan.tasks| && history[q].Detected?
    && EqIgnoreCase(history[q].found, ExpectedName(plan.tasks[t].kind))
    && InUnit(history[q].confidence) && SafeConfidence(plan.tasks[t].minimumConfidence)
    && history[q].confidence.value >= plan.tasks[t].minimumConfidence.value
  }

  /** A travel is permitted by its route anchor only, whatever its destination is called; everything else by
      its own name. */
  lemma PermitNames(plan: Plan, history: seq<Moment>, q: nat, t: nat)
    requires Permits(plan, history, q, t)
    ensures match plan.tasks[t].kind
      case Travel(_, routeAnchor) => EqIgnoreCase(history[q].found, routeAnchor)
      case Gather(field) => EqIgnoreCase(history[q].found, field)
      case Combat(enemy) => EqIgnoreCase(history[q].found, enemy)
      case Activity(name) => EqIgnoreCase(history[q].found, name)
  {
  }

  /** Since moment `q` there was no other detection and every revalidation saw its geometry. */
  ghost predicate Steady(history: seq<Moment>, q: nat, p: nat)
    requires q < p <= |history| && history[q].Detected?
  {
    forall m :: q < m < p ==>
      !history[m].Detected? && (history[m].Refreshed? ==> history[m].geometry == history[q].geometry)
  }

  predicate PressAt(history: seq<Moment>, p: nat)
    requires p < |history|
  {
    history[p].Sent? && IsPress(history[p].action)
  }

  /** The press at moment `p` happened with the exact target in the foreground, directly after
      a revalidation of a usable window that still has the geometry of the latest detection,
      and that detection permits the task the plan has come to, whose next action makes this press. */
  ghost predicate Authorised(plan: Plan, target: Target, p0: seq<InputAction>, history: seq<Moment>, p: nat)
    requires p < |history| && PressAt(history, p)
  {
    && history[p].foreground == Some(target)
    && exists q, t, i :: Warrant(plan, p0, history, p, q, t, i)
  }

  /** Action `i` of task `t` makes the press at `p`, on the detection at `q`: what was pressed before,
      after the presses `p0` of earlier plans, is what the plan presses before that action. */
  ghost predicate Warrant(plan: Plan, p0: seq<InputAction>, history: seq<Moment>, p: nat, q: nat, t: nat, i: nat)
    requires p < |history| && PressAt(history, p)
  {
    && q + 1 < p && Permits(plan, history, q, t) && Steady(history, q, p)
    && i < |plan.tasks[t].actions| && PressOf(plan.tasks[t].actions[i]) == [history[p].action]
    && Presses(history[..p]) == p0 + PressesUpTo(plan.tasks, t, i)
    && history[p - 1] == Refreshed(history[q].geometry) && Usable(history[q].geometry)
  }

  /** A press has just one warrant: its detection, its task and its action are determined. */
  lemma WarrantIsUnique(plan: Plan, p0: seq<InputAction>, history: seq<Moment>, p: nat,
                        q1: nat, t1: nat, i1: nat, q2: nat, t2: nat, i2: nat)
    requires p < |history| && PressAt(history, p)
    requires Warrant(plan, p0, history, p, q1, t1, i1) && Warrant(plan, p0, history, p, q2, t2, i2)
    ensures q1 == q2 && t1 == t2 && i1 == i2
  {
    if t1 < t2 || (t1 == t2 && i1 < i2) {
      LaterPresses(plan.tasks, t1, i1, t2, i2);
    } else if t2 < t1 || (t1 == t2 && i2 < i1) {
      LaterPresses(plan.tasks, t2, i2, t1, i1);
    }
  }

  ghost predicate AllAuthorised(plan: Plan, target: Target, p0: seq<InputAction>, history: seq<Moment>, from: nat) {
    forall p :: from <= p < |history| && PressAt(history, p) ==> Authorised(plan, target, p0, history, p)
  }

  ghost predicate NoPress(before: seq<Moment>, after: seq<Moment>) {
    before <= after && forall i :: |before| <= i < |after| ==> !PressAt(after, i)
  }

  /** Neither a press nor a detection happened between two histories. */
  ghost predicate Quiet(before: seq<Moment>, after: seq<Moment>) {
    NoPress(before, after) && forall i :: |before| <= i < |after| ==> !after[i].Detected?
  }

  /** Every revalidation from moment `from` on saw geometry `g`. */
  ghost predicate Saw(from: nat, history: seq<Moment>, g: Geometry) {
    forall m :: from <= m < |history| && history[m].Refreshed? ==> history[m].geometry == g
  }

  ghost predicate NothingSent(before: seq<Moment>, after: seq<Moment>) {
    before <= after && forall i :: |before| <= i < |after| ==> !after[i].Sent?
  }

  function Presses(history: seq<Moment>): seq<InputAction> {
    if history == [] then []
    else
      var m := history[|history| - 1];
      Presses(history[..|history| - 1]) + if m.Sent? && IsPress(m.action) then [m.action] else []
  }

  lemma PressesSnoc(history: seq<Moment>, m: Moment)
    ensures Presses(history + [m]) == Presses(history) + if m.Sent? && IsPress(m.action) then [m.action] else []
  {
    assert (history + [m])[..|history|] == history;
  }

  lemma {:induction false} NoPressPresses(before: seq<Moment>, after: seq<Moment>)
    requires NoPress(before, after)
    ensures Presses(after) == Presses(before)
    decreases |after|
  {
    if before != after {
      var init := after[..|after| - 1];
      assert forall i :: |before| <= i < |init| ==> PressAt(init, i) == PressAt(after, i);
      NoPressPresses(before, init);
      assert !PressAt(after, |after| - 1);
    }
  }

  lemma WarrantExtends(plan: Plan, p0: seq<InputAction>, before: seq<Moment>, after: seq<Moment>,
                       p: nat, q: nat, t: nat, i: nat)
    requires before <= after && p < |before| && PressAt(before, p)
    requires Warrant(plan, p0, before, p, q, t, i)
    ensures Warrant(plan, p0, after, p, q, t, i)
  {
    assert after[..p] == before[..p];
  }

  lemma AuthorisedExtends(plan: Plan, target: Target, p0: seq<InputAction>,
                          before: seq<Moment>, after: seq<Moment>, p: nat)
    requires before <= after && p < |before| && PressAt(before, p)
    requires Authorised(plan, target, p0, before, p)
    ensures Authorised(plan, target, p0, after, p)
  {
    var q, t, i :| Warrant(plan, p0, before, p, q, t, i);
    WarrantExtends(plan, p0, before, after, p, q, t, i);
  }

  lemma NoPressKeepsAuthorised(plan: Plan, target: Target, p0: seq<InputAction>,
                               before: seq<Moment>, after: seq<Moment>, from: nat)
    requires AllAuthorised(plan, target, p0, before, from) && NoPress(before, after)
    ensures AllAuthorised(plan, target, p0, after, from)
  {
    forall p | from <= p < |after| && PressAt(after, p)
      ensures Authorised(plan, target, p0, after, p)
    {
      assert p < |before| && PressAt(before, p);
      AuthorisedExtends(plan, target, p0, before, after, p);
    }
  }

  lemma PressKeepsAuthorised(plan: Plan, target: Target, p0: seq<InputAction>, before: seq<Moment>, a: InputAction,
                             from: nat, q: nat, t: nat, i: nat)
    requires AllAuthorised(plan, target, p0, before, from) && IsPress(a)
    requires var after := before + [Sent(a, Some(target))]; Warrant(plan, p0, after, |before|, q, t, i)
    ensures AllAuthorised(plan, target, p0, before + [Sent(a, Some(target))], from)
  {
    var after := before + [Sent(a, Some(target))];
    forall p | from <= p < |after| && PressAt(after, p)
      ensures Authorised(plan, target, p0, after, p)
    {
      if p < |before| {
        assert PressAt(before, p);
        AuthorisedExtends(plan, target, p0, before, after, p);
      }
    }
  }

  // ---- The adopted session ----

  class RobloxSession {
    const target: Target
    var geometry: Geometry
    var foreground: bool
    var geometryRevision: nat

    constructor (target: Target, geometry: Geometry, foreground: bool)
      ensures this.target == target && this.geometry == geometry && geometryRevision == 0
    {
      this.target, this.geometry, this.foreground, geometryRevision := target, geometry, foreground, 0;
    }

    /** Revalidates ownership; a changed geometry raises the saturating revision. */
    method Refresh(window: Window) returns (r: Result<bool, ()>)
      modifies this
      ensures r == if Owned(window, target) then Ok(window.value.geometry != old(geometry)) else Err(())
      ensures r.Ok? ==> geometry == window.value.geometry && foreground == window.value.foreground
      ensures r.Err? ==> geometry == old(geometry) && foreground == old(foreground)
      ensures geometryRevision ==
        old(geometryRevision) + if r == Ok(true) && old(geometryRevision) < MAX_REVISION then 1 else 0
    {
      if window.Err? || window.value.owner != target {
        return Err(());
      }
      var changed := geometry != window.value.geometry;
      geometry := window.value.geometry;
      foreground := window.value.foreground;
      if changed && geometryRevision < MAX_REVISION {
        geometryRevision := geometryRevision + 1;
      }
      return Ok(changed);
    }
  }

  // ---- The runtime ----

  class NativeTaskRuntime {
    const session: RobloxSession
    const broker: Broker
    const outside: Outside
    var asked: Asked
    var dryRunIntents: seq<(string, TaskAction)>

    ghost predicate Valid()
      reads this, broker
    {
      broker.Valid() && session.target == broker.target
    }

    constructor (session: RobloxSession, outside: Outside)
      ensures Valid() && fresh(broker) && this.session == session && this.outside == outside
      ensures broker.Clean() && broker.history == [] && dryRunIntents == []
    {
      this.session, this.outside, asked := session, outside, Asked(0, 0, 0, 0, 0);
      broker := new Broker(session.target, outside.releases);
      dryRunIntents := [];
    }

    /** The shared effect of the calls below: the broker stays valid and nothing is pressed or detected. */
    twostate predicate QuietStep()
      reads this, broker
    {
      && Valid() && Quiet(old(broker.history), broker.history) && old(broker.refusals) <= broker.refusals
      && (old(broker.Clean()) ==> broker.Clean())
    }

    /** What was asked since `a` is the cause of an error. */
    ghost predicate HasCause(a: Asked, g: Geometry, r: Option<TaskError>)
      reads this
    {
      Grows(a, asked) && (r.Some? ==> Caused(outside, a, asked, broker.target, g, r.value))
    }

    /** The same of the outcome that stops a task. */
    ghost predicate StopHasCause(a: Asked, g: Geometry, revision: nat, task: GuardedTask, stop: Option<ActionOutcome>)
      reads this
    {
      && Grows(a, asked)
      && (stop.Some? ==> StopCaused(outside, a, asked, broker.target, g, revision, task, stop.value))
    }

    /** A cause found later in a call is one of the whole call. */
    lemma HeldCauses(a: Asked, b: Asked, r: Option<TaskError>)
      requires Grows(a, b)
      ensures (forall g :: HasCause(b, g, r)) ==> forall g :: HasCause(a, g, r)
    {
      if forall g :: HasCause(b, g, r) {
        forall g ensures HasCause(a, g, r) {
          assert HasCause(b, g, r);
          if r.Some? {
            CausedWiden(outside, a, b, asked, asked, broker.target, g, r.value);
          }
        }
      }
    }

    /** Whether the plan is cancelled by now. */
    method Checkpoint() returns (cancelled: bool)
      modifies `asked
      ensures asked == old(asked).(checks := old(asked).checks + 1) && cancelled == outside.cancelled(old(asked).checks)
    {
      cancelled := outside.cancelled(asked.checks);
      asked := asked.(checks := asked.checks + 1);
    }

    /** Cancels held input; nothing is pressed by that. */
    method Pause(ghost base: seq<Moment>)
      requires Valid() && Quiet(base, broker.history)
      modifies broker
      ensures Valid() && Quiet(base, broker.history) && broker.Clean() && old(broker.refusals) <= broker.refusals
      ensures OnlyReleases(old(broker.history), broker.history)
      ensures old(broker.Clean()) ==> broker.history == old(broker.history)
    {
      var _ := broker.Cancel();
      ReleasesAreQuiet(old(broker.history), broker.history);
      QuietTrans(base, old(broker.history), broker.history);
    }

    /** Revalidates the window and asks for the foreground; the two answers decide. */
    method EnsureReady(window: Window, answer: Answer) returns (r: Option<TaskError>)
      requires Valid()
      modifies session, broker
      ensures QuietStep()
      ensures r.None? <==>
        && Owned(window, session.target) && window.value.geometry == old(session.geometry)
        && Usable(window.value.geometry) && window.value.foreground && answer == Ok(Some(broker.target))
      ensures r != Some(CancelledTask)
      ensures !Owned(window, session.target) ==> r == Some(SessionChanged)
      ensures Owned(window, session.target) && r.Some? ==>
        r == Some(if window.value.geometry != old(session.geometry) then CalibrationChanged
                  else if Usable(window.value.geometry) && window.value.foreground && answer.Err? then InputFailed
                  else FocusLost)
      ensures r.None? ==>
        && session.geometry == old(session.geometry) && session.geometryRevision == old(session.geometryRevision)
        && Usable(session.geometry) && broker.status == Ready
        && broker.history == old(broker.history) + [Refreshed(session.geometry)]
      ensures old(broker.Clean()) ==> NothingSent(old(broker.history), broker.history)
    {
      ghost var base := broker.history;
      var refreshed := session.Refresh(window);
      if refreshed.Err? {
        return Some(SessionChanged);
      }
      broker.Observe(Refreshed(session.geometry));
      RefreshIsQuiet(base, session.geometry);
      r := Judge(refreshed.value, answer, base);
    }

    /** Judges a window that has just been revalidated. */
    method Judge(changed: bool, answer: Answer, ghost base: seq<Moment>) returns (r: Option<TaskError>)
      requires Valid() && broker.history == base + [Refreshed(session.geometry)]
      requires Quiet(base, broker.history) && NothingSent(base, broker.history)
      modifies broker
      ensures Valid() && Quiet(base, broker.history) && old(broker.refusals) <= broker.refusals
      ensures old(broker.Clean()) ==> broker.Clean() && broker.history == old(broker.history)
      ensures r.None? ==> broker.status == Ready && broker.history == old(broker.history)
      ensures r ==
        if changed then Some(CalibrationChanged)
        else if !Usable(session.geometry) || !session.foreground then Some(FocusLost)
        else if answer == Ok(Some(broker.target)) then None
        else Some(if answer.Err? then InputFailed else FocusLost)
    {
      if changed {
        Pause(base);
        return Some(CalibrationChanged);
      }
      if !Usable(session.geometry) || !session.foreground {
        Pause(base);
        return Some(FocusLost);
      }
      var resumed := broker.ResumeAfterFocusCheck(answer);
      r := MapBroker(resumed);
    }

    /** The same with the next answers from outside. */
    method Revalidate() returns (r: Option<TaskError>)
      requires Valid()
      modifies `asked, session, broker
      ensures QuietStep() && r != Some(CancelledTask) && HasCause(old(asked), old(session.geometry), r)
      ensures r.None? ==>
        && session.geometry == old(session.geometry) && session.geometryRevision == old(session.geometryRevision)
        && Usable(session.geometry) && broker.status == Ready
        && broker.history == old(broker.history) + [Refreshed(session.geometry)]
      ensures old(broker.Clean()) ==> NothingSent(old(broker.history), broker.history)
    {
      var window, answer := outside.window(asked.windows), outside.foreground(asked.foregrounds);
      asked := asked.(windows := asked.windows + 1, foregrounds := asked.foregrounds + 1);
      r := EnsureReady(window, answer);
      ReadyErrorCaused(outside, old(asked), broker.target, old(session.geometry), r);
    }

    /** Revalidates, asks the detector, and discards stale or malformed findings. */
    method Detect(task: GuardedTask) returns (d: Detection)
      requires Valid()
      modifies `asked, session, broker
      ensures DetectionCaused(outside, old(asked), asked, broker.target, old(session.geometry),
                              old(session.geometryRevision), task, d)
      ensures d.Found? ==>
        session.geometry == old(session.geometry) && session.geometryRevision == old(session.geometryRevision)
      ensures Valid() && old(broker.refusals) <= broker.refusals && NoPress(old(broker.history), broker.history)
      ensures old(broker.Clean()) ==> broker.Clean() && NothingSent(old(broker.history), broker.history)
      ensures d.Found? ==>
        && d.revision == session.geometryRevision && d.validRegion && Usable(session.geometry)
        && broker.history == old(broker.history) + [
             Refreshed(session.geometry), Detected(d.name, d.confidence, session.geometry)]
    {
      var unready := Revalidate();
      if unready.Some? {
        return if unready.value in {FocusLost, CalibrationChanged} then Uncertain else DetectorError;
      }
      ghost var before := asked;
      d := Consult(task);
      ConsultedCaused(outside, old(asked), before, asked, broker.target, old(session.geometry),
                      session.geometryRevision, task, d);
      if d.Found? {
        Note(old(broker.history), d);
      }
    }

    /** The detector's answer, unless it is stale or malformed. */
    method Consult(task: GuardedTask) returns (d: Detection)
      modifies `asked
      ensures asked == old(asked).(detections := old(asked).detections + 1)
      ensures var answer := outside.detection(old(asked).detections, task.kind);
        d == if answer.Found? && (answer.revision != session.geometryRevision || !answer.validRegion) then Uncertain
             else answer
    {
      var revision := session.geometryRevision;
      d := outside.detection(asked.detections, task.kind);
      asked := asked.(detections := asked.detections + 1);
      if d.Found? && (d.revision != revision || !d.validRegion) {
        return Uncertain;
      }
    }

    /** Records a finding right after its revalidation. */
    ghost method Note(base: seq<Moment>, d: Detection)
      requires Valid() && d.Found? && broker.history == base + [Refreshed(session.geometry)]
      modifies broker`history
      ensures Valid() && NoPress(base, broker.history) && NothingSent(base, broker.history)
      ensures broker.history == base + [Refreshed(session.geometry), Detected(d.name, d.confidence, session.geometry)]
    {
      broker.Observe(Detected(d.name, d.confidence, session.geometry));
    }

    /** Holds a key or button for a cancellable delay; `pressed` says whether it went down. */
    method Hold(press: InputAction, release: InputAction) returns (r: Option<TaskError>, ghost pressed: bool)
      requires Valid() && IsPress(press) && CheckAction(press).None?
      requires release == ReleaseOf(press)
      modifies `asked, broker
      ensures Valid() && old(broker.refusals) <= broker.refusals
      ensures Quiet(if pressed then old(broker.history) + [Sent(press, Some(broker.target))] else old(broker.history),
                    broker.history)
      ensures forall m :: |old(broker.history)| <= m < |broker.history| ==> broker.history[m].Sent?
      ensures r.None? ==> pressed
      ensures old(broker.status) == Ready ==> forall g :: HasCause(old(asked), g, r)
      ensures old(broker.Clean()) ==> broker.Clean()
    {
      TrackedEmpty(broker.pressedKeys, broker.pressedButtons);
      var answer, accepted := outside.foreground(asked.foregrounds), outside.accepts(asked.sends);
      asked := asked.(foregrounds := asked.foregrounds + 1, sends := asked.sends + 1);
      var down := broker.Dispatch(press, answer, accepted);
      RefusalCaused(outside, old(asked), asked, broker.target, down);
      if down.Some? {
        ReleasesAreQuiet(old(broker.history), broker.history);
        return MapBroker(down), false;
      }
      pressed := true;
      ghost var base, before := broker.history, asked;
      r := Release(release);
      HeldCauses(old(asked), before, r);
      ReleasesAreQuiet(base, broker.history);
      TrackedEmpty(broker.pressedKeys, broker.pressedButtons);
    }

    /** The end of a hold: the release, and everything else too if the delay was cancelled. */
    method Release(release: InputAction) returns (r: Option<TaskError>)
      requires Valid() && (release.KeyUp? || release.MouseUp?) && CheckAction(release).None?
      modifies `asked, broker
      ensures Valid() && old(broker.refusals) <= broker.refusals && OnlyReleases(old(broker.history), broker.history)
      ensures Apply(Tracked(old(broker.pressedKeys), old(broker.pressedButtons)), release) == {} ==> broker.Clean()
      ensures old(broker.status) == Ready ==> forall g :: HasCause(old(asked), g, r)
      ensures Grows(old(asked), asked)
    {
      ghost var base := broker.history;
      var cancelled := Checkpoint();
      ghost var before := asked;
      r := LetGo(release);
      if cancelled {
        ghost var middle := broker.history;
        ReleasesAreQuiet(base, middle);
        Pause(base);
        ReleasesTrans(base, middle, broker.history);
        assert outside.cancelled(old(asked).checks);
        return Some(CancelledTask);
      }
      HeldCauses(old(asked), before, r);
    }

    method LetGo(release: InputAction) returns (r: Option<TaskError>)
      requires Valid() && (release.KeyUp? || release.MouseUp?) && CheckAction(release).None?
      modifies `asked, broker
      ensures Valid() && old(broker.refusals) <= broker.refusals && OnlyReleases(old(broker.history), broker.history)
      ensures Apply(Tracked(old(broker.pressedKeys), old(broker.pressedButtons)), release) == {} ==> broker.Clean()
      ensures old(broker.status) == Ready ==> forall g :: HasCause(old(asked), g, r)
      ensures Grows(old(asked), asked)
    {
      var answer, accepted := outside.foreground(asked.foregrounds), outside.accepts(asked.sends);
      asked := asked.(foregrounds := asked.foregrounds + 1, sends := asked.sends + 1);
      var up := broker.Dispatch(release, answer, accepted);
      RefusalCaused(outside, old(asked), asked, broker.target, up);
      TrackedEmpty(broker.pressedKeys, broker.pressedButtons);
      OneRelease(old(broker.history), release, Some(broker.target));
      r := MapBroker(up);
    }

    method Perform(a: TaskAction) returns (r: Option<TaskError>, ghost pressed: bool)
      requires Valid()
      modifies `asked, session, broker
      ensures Valid() && old(broker.refusals) <= broker.refusals
      ensures !pressed ==> Quiet(old(broker.history), broker.history)
      ensures pressed ==>
        && session.geometry == old(session.geometry) && Usable(session.geometry) && |PressOf(a)| == 1
        && Quiet(old(broker.history) + [Refreshed(session.geometry), Sent(PressOf(a)[0], Some(broker.target))],
                 broker.history)
      ensures HasCause(old(asked), old(session.geometry), r)
      ensures r.None? ==> session.geometryRevision == old(session.geometryRevision)
      ensures r.None? ==> session.geometry == old(session.geometry) && (pressed <==> PressOf(a) != [])
      ensures r.None? && !pressed ==> broker.history == old(broker.history) + [Refreshed(session.geometry)]
      ensures r.None? ==> Saw(|old(broker.history)|, broker.history, session.geometry)
      ensures old(broker.Clean()) ==> broker.Clean()
    {
      r := Revalidate();
      if r.Some? {
        return r, false;
      }
      ghost var before := asked;
      match a {
        case Wait(_) =>
          var cancelled := Checkpoint();
          assert cancelled ==> outside.cancelled(before.checks);
          r, pressed := if cancelled then Some(CancelledTask) else None, false;
        case _ =>
          var press := PressOf(a)[0];
          r, pressed := HoldAfter(old(broker.history), press, ReleaseOf(press));
          HeldCauses(old(asked), before, r);
      }
    }

    /** A hold right after the revalidation that ends `base`. */
    method HoldAfter(ghost base: seq<Moment>, press: InputAction, release: InputAction)
      returns (r: Option<TaskError>, ghost pressed: bool)
      requires Valid() && IsPress(press) && CheckAction(press).None?
      requires release == ReleaseOf(press)
      requires broker.history == base + [Refreshed(session.geometry)] && broker.status == Ready
      modifies `asked, broker
      ensures Valid() && old(broker.refusals) <= broker.refusals
      ensures !pressed ==> Quiet(base, broker.history)
      ensures pressed ==> Quiet(base + [Refreshed(session.geometry), Sent(press, Some(broker.target))], broker.history)
      ensures r.None? ==> pressed
      ensures forall g :: HasCause(old(asked), g, r)
      ensures Saw(|base|, broker.history, session.geometry)
      ensures old(broker.Clean()) ==> broker.Clean()
    {
      r, pressed := Hold(press, release);
      RefreshIsQuiet(base, session.geometry);
      if pressed {
        assert base + [Refreshed(session.geometry), Sent(press, Some(broker.target))]
            == base + [Refreshed(session.geometry)] + [Sent(press, Some(broker.target))];
      } else {
        QuietTrans(base, base + [Refreshed(session.geometry)], broker.history);
      }
    }

    // ---- Plans ----

    /** Task `t` may act on the detection at moment `q`, and everything pressed so far was authorised. */
    ghost predicate Acting(plan: Plan, p0: seq<InputAction>, from: nat, q: nat, t: nat)
      reads this, broker, session
    {
      && Valid() && AllAuthorised(plan, broker.target, p0, broker.history, from)
      && Permits(plan, broker.history, q, t) && Steady(broker.history, q, |broker.history|)
      && broker.history[q].geometry == session.geometry
    }

    method RunAction(plan: Plan, t: nat, i: nat, ghost from: nat, ghost q: nat, ghost p0: seq<InputAction>)
      returns (r: Option<TaskError>)
      requires Acting(plan, p0, from, q, t) && i < |plan.tasks[t].actions|
      requires Presses(broker.history) == p0 + PressesUpTo(plan.tasks, t, i)
      modifies `asked, session, broker
      ensures Valid() && old(broker.history) <= broker.history && old(broker.refusals) <= broker.refusals
      ensures AllAuthorised(plan, broker.target, p0, broker.history, from)
      ensures HasCause(old(asked), old(session.geometry), r)
      ensures r.None? ==>
        session.geometry == old(session.geometry) && session.geometryRevision == old(session.geometryRevision)
      ensures r.None? ==> Acting(plan, p0, from, q, t)
      ensures r.None? ==> Presses(broker.history) == Presses(old(broker.history)) + PressOf(plan.tasks[t].actions[i])
      ensures r.Some? ==>
        || Presses(broker.history) == Presses(old(broker.history))
        || Presses(broker.history) == Presses(old(broker.history)) + PressOf(plan.tasks[t].actions[i])
      ensures old(broker.Clean()) ==> broker.Clean()
    {
      ghost var before := broker.history;
      ghost var pressed;
      r, pressed := Perform(plan.tasks[t].actions[i]);
      if pressed {
        PressedAction(plan, broker.target, p0, before, broker.history, session.geometry, from, q, t, i);
      } else {
        NoPressPresses(before, broker.history);
        NoPressKeepsAuthorised(plan, broker.target, p0, before, broker.history, from);
      }
    }

    /** Action `i` of task `t`, in terms of the whole plan's presses. */
    method NextAction(plan: Plan, t: nat, i: nat, ghost from: nat, ghost q: nat, ghost p0: seq<InputAction>)
      returns (r: Option<TaskError>)
      requires Acting(plan, p0, from, q, t) && i < |plan.tasks[t].actions|
      requires Presses(broker.history) == p0 + PressesUpTo(plan.tasks, t, i)
      modifies `asked, session, broker
      ensures Valid() && old(broker.history) <= broker.history && old(broker.refusals) <= broker.refusals
      ensures AllAuthorised(plan, broker.target, p0, broker.history, from)
      ensures PressedPrefix(p0, Presses(broker.history), plan.tasks)
      ensures HasCause(old(asked), old(session.geometry), r)
      ensures r.None? ==>
        session.geometry == old(session.geometry) && session.geometryRevision == old(session.geometryRevision)
      ensures r.None? ==> Acting(plan, p0, from, q, t)
      ensures r.None? ==> Presses(broker.history) == p0 + PressesUpTo(plan.tasks, t, i + 1)
      ensures old(broker.Clean()) ==> broker.Clean()
    {
      PrefixAt(p0, plan.tasks, t, i);
      PrefixAt(p0, plan.tasks, t, i + 1);
      NextPrefix(p0, plan.tasks, t, i);
      r := RunAction(plan, t, i, from, q, p0);
    }

    /** The actions of task `t`, after its detection at moment `q`. */
    method RunActions(plan: Plan, t: nat, ghost from: nat, ghost q: nat, ghost p0: seq<InputAction>)
      returns (stop: Option<ActionOutcome>, considered: nat)
      requires Acting(plan, p0, from, q, t) && Presses(broker.history) == p0 + PressesUpTo(plan.tasks, t, 0)
      modifies `asked, session, broker
      ensures Valid() && old(broker.history) <= broker.history && old(broker.refusals) <= broker.refusals
      ensures AllAuthorised(plan, broker.target, p0, broker.history, from)
      ensures stop.None? ==> Presses(broker.history) == p0 + PressesUpTo(plan.tasks, t, |plan.tasks[t].actions|)
      ensures stop != Some(Succeeded) && PressedPrefix(p0, Presses(broker.history), plan.tasks)
      ensures considered <= |plan.tasks[t].actions| && (stop.None? ==> considered == |plan.tasks[t].actions|)
      ensures StopHasCause(old(asked), old(session.geometry), old(session.geometryRevision), plan.tasks[t], stop)
      ensures stop.None? ==>
        session.geometry == old(session.geometry) && session.geometryRevision == old(session.geometryRevision)
      ensures old(broker.Clean()) ==> broker.Clean()
    {
      considered := 0;
      for i := 0 to |plan.tasks[t].actions|
        invariant considered == i && Acting(plan, p0, from, q, t) && Grows(old(asked), asked)
        invariant session.geometry == old(session.geometry)
        invariant session.geometryRevision == old(session.geometryRevision)
        invariant old(broker.history) <= broker.history && old(broker.refusals) <= broker.refusals
        invariant Presses(broker.history) == p0 + PressesUpTo(plan.tasks, t, i)
        invariant old(broker.Clean()) ==> broker.Clean()
      {
        var counted;
        stop, counted := CheckedAction(plan, t, i, from, q, p0, old(asked));
        considered := considered + if counted then 1 else 0;
        if stop.Some? {
          return;
        }
      }
      PrefixAt(p0, plan.tasks, t, considered);
      return None, considered;
    }

    /** A checkpoint and, unless it stops the plan, action `i` of task `t`, which is then counted. */
    method CheckedAction(plan: Plan, t: nat, i: nat, ghost from: nat, ghost q: nat, ghost p0: seq<InputAction>,
                         ghost a: Asked)
      returns (stop: Option<ActionOutcome>, counted: bool)
      requires Acting(plan, p0, from, q, t) && i < |plan.tasks[t].actions| && Grows(a, asked)
      requires Presses(broker.history) == p0 + PressesUpTo(plan.tasks, t, i)
      modifies `asked, session, broker
      ensures Valid() && old(broker.history) <= broker.history && old(broker.refusals) <= broker.refusals
      ensures AllAuthorised(plan, broker.target, p0, broker.history, from)
      ensures stop != Some(Succeeded) && PressedPrefix(p0, Presses(broker.history), plan.tasks)
      ensures StopHasCause(a, old(session.geometry), old(session.geometryRevision), plan.tasks[t], stop)
      ensures stop.None? ==>
        && counted && Acting(plan, p0, from, q, t)
        && session.geometry == old(session.geometry) && session.geometryRevision == old(session.geometryRevision)
        && Presses(broker.history) == p0 + PressesUpTo(plan.tasks, t, i + 1)
      ensures old(broker.Clean()) ==> broker.Clean()
    {
      PrefixAt(p0, plan.tasks, t, i);
      var cancelled := Checkpoint();
      if cancelled {
        assert outside.cancelled(old(asked).checks);
        return Some(CancelledPlan), false;
      }
      ghost var after := asked;
      var error := NextAction(plan, t, i, from, q, p0);
      if error.Some? {
        CausedWiden(outside, a, after, asked, asked, broker.target, old(session.geometry), error.value);
        return Some(OutcomeOf(error.value)), true;
      }
      return None, true;
    }

    /** One task: checkpoint, detection, the exact name, then (in normal mode) its actions. */
    method RunTask(plan: Plan, t: nat, mode: Mode, ghost from: nat, ghost p0: seq<InputAction>)
      returns (stop: Option<ActionOutcome>, considered: nat)
      requires Valid() && ValidPlan(plan) && t < |plan.tasks|
      requires AllAuthorised(plan, broker.target, p0, broker.history, from)
      requires Presses(broker.history) == p0 + PressedBy(plan, mode, t)
      modifies this, session, broker
      ensures Valid() && old(broker.history) <= broker.history && old(broker.refusals) <= broker.refusals
      ensures AllAuthorised(plan, broker.target, p0, broker.history, from)
      ensures mode != Normal ==> Presses(broker.history) == p0
      ensures stop.None? ==>
        Presses(broker.history) == p0 + PressedBy(plan, mode, t + 1)
      ensures stop != Some(Succeeded) && PressedPrefix(p0, Presses(broker.history), plan.tasks)
      ensures old(broker.Clean()) ==>
        broker.Clean() && (mode != Normal ==> NothingSent(old(broker.history), broker.history))
      ensures StopHasCause(old(asked), old(session.geometry), old(session.geometryRevision), plan.tasks[t], stop)
      ensures stop.None? ==>
        session.geometry == old(session.geometry) && session.geometryRevision == old(session.geometryRevision)
      ensures mode != DryRun ==> dryRunIntents == old(dryRunIntents)
      ensures stop.None? && mode == DryRun ==>
        dryRunIntents == old(dryRunIntents) + Intents(plan.tasks[t], |plan.tasks[t].actions|)
    {
      PlanPrefix(plan.tasks, t);
      ghost var before := broker.history;
      stop := Find(plan, t, from, p0);
      if stop.Some? {
        return stop, 0;
      }
      ghost var second, middle := asked, broker.history;
      stop, considered := ActOn(plan, t, mode, from, |broker.history| - 1, p0);
      HistoryGrows(before, middle, broker.history);
      if stop.Some? {
        StopWiden(outside, old(asked), second, asked, asked, broker.target, old(session.geometry),
                  old(session.geometryRevision), plan.tasks[t], stop.value);
      }
    }

    /** The checkpoint before a task, and its detection, which has to fit the task. */
    method Find(plan: Plan, t: nat, ghost from: nat, ghost p0: seq<InputAction>) returns (stop: Option<ActionOutcome>)
      requires Valid() && ValidPlan(plan) && t < |plan.tasks|
      requires AllAuthorised(plan, broker.target, p0, broker.history, from)
      modifies `asked, session, broker
      ensures Valid() && old(broker.history) <= broker.history && old(broker.refusals) <= broker.refusals
      ensures AllAuthorised(plan, broker.target, p0, broker.history, from)
      ensures Presses(broker.history) == Presses(old(broker.history)) && stop != Some(Succeeded)
      ensures old(broker.Clean()) ==> broker.Clean() && NothingSent(old(broker.history), broker.history)
      ensures StopHasCause(old(asked), old(session.geometry), old(session.geometryRevision), plan.tasks[t], stop)
      ensures stop.None? ==>
        && broker.history != [] && Acting(plan, p0, from, |broker.history| - 1, t)
        && session.geometry == old(session.geometry) && session.geometryRevision == old(session.geometryRevision)
    {
      assert plan.tasks[t] in plan.tasks;
      var cancelled := Checkpoint();
      if cancelled {
        assert outside.cancelled(old(asked).checks);
        return Some(CancelledPlan);
      }
      ghost var before, first := broker.history, asked;
      var task := plan.tasks[t];
      var d := Detect(task);
      NoPressPresses(before, broker.history);
      NoPressKeepsAuthorised(plan, broker.target, p0, before, broker.history, from);
      TaskStopCaused(outside, old(asked), first, asked, broker.target, old(session.geometry),
                     old(session.geometryRevision), task, d);
      if !d.Found? || !Actionable(d.confidence, task.minimumConfidence) {
        return Some(if d.DetectorError? then Failed else NeedsAttention);
      }
      if !EqIgnoreCase(d.name, ExpectedName(task.kind)) {
        return Some(NeedsAttention);
      }
      assert Permits(plan, broker.history, |broker.history| - 1, t);
      return None;
    }

    /** What a mode makes of a task that was found at moment `q`. */
    method ActOn(plan: Plan, t: nat, mode: Mode, ghost from: nat, ghost q: nat, ghost p0: seq<InputAction>)
      returns (stop: Option<ActionOutcome>, considered: nat)
      requires Acting(plan, p0, from, q, t) && Presses(broker.history) == p0 + PressedBy(plan, mode, t)
      modifies this, session, broker
      ensures Valid() && old(broker.history) <= broker.history && old(broker.refusals) <= broker.refusals
      ensures AllAuthorised(plan, broker.target, p0, broker.history, from)
      ensures mode != Normal ==> broker.history == old(broker.history)
      ensures stop.None? ==> Presses(broker.history) == p0 + PressedBy(plan, mode, t + 1)
      ensures stop != Some(Succeeded) && PressedPrefix(p0, Presses(broker.history), plan.tasks)
      ensures old(broker.Clean()) ==> broker.Clean()
      ensures StopHasCause(old(asked), old(session.geometry), old(session.geometryRevision), plan.tasks[t], stop)
      ensures stop.None? ==>
        session.geometry == old(session.geometry) && session.geometryRevision == old(session.geometryRevision)
      ensures mode != DryRun ==> dryRunIntents == old(dryRunIntents)
      ensures stop.None? && mode == DryRun ==>
        dryRunIntents == old(dryRunIntents) + Intents(plan.tasks[t], |plan.tasks[t].actions|)
    {
      if mode == Normal {
        FirstPresses(plan.tasks, t);
        TaskPresses(plan.tasks, t);
        stop, considered := RunActions(plan, t, from, q, p0);
        return;
      }
      stop, considered := None, 0;
      if mode == DryRun {
        stop, considered := RecordIntents(plan.tasks[t]);
      }
    }

    /** A dry run only records what it would do. */
    method RecordIntents(task: GuardedTask) returns (stop: Option<ActionOutcome>, considered: nat)
      modifies `asked, `dryRunIntents
      ensures considered <= |task.actions| && dryRunIntents == old(dryRunIntents) + Intents(task, considered)
      ensures if stop.None? then considered == |task.actions| else stop == Some(CancelledPlan)
      ensures forall g, revision :: StopHasCause(old(asked), g, revision, task, stop)
    {
      considered := 0;
      for i := 0 to |task.actions|
        invariant considered == i && dryRunIntents == old(dryRunIntents) + Intents(task, i)
        invariant Grows(old(asked), asked)
      {
        ghost var before := asked;
        var cancelled := Checkpoint();
        if cancelled {
          assert outside.cancelled(before.checks);
          return Some(CancelledPlan), considered;
        }
        considered := considered + 1;
        dryRunIntents := dryRunIntents + [(task.id, task.actions[i])];
      }
      return None, considered;
    }

    /** Executes a plan. Whatever the ports answer: every press was authorised, the presses made
        are a prefix of the plan's in order (all of them when a normal run succeeds), only normal
        mode presses anything, and afterwards nothing is tracked, so that nothing stays down
        unless the sink refused a release. */
    method ExecuteTaskPlan(plan: Plan, mode: Mode) returns (outcome: ActionOutcome, completed: nat)
      requires Valid()
      modifies this, session, broker
      ensures Valid() && old(broker.history) <= broker.history && old(broker.refusals) <= broker.refusals
      ensures AllAuthorised(plan, broker.target, Presses(old(broker.history)), broker.history, |old(broker.history)|)
      ensures PressedPrefix(Presses(old(broker.history)), Presses(broker.history), plan.tasks)
      ensures ValidPlan(plan) || old(broker.Clean()) ==>
        broker.Clean() && broker.held == broker.orphans && (broker.refusals == 0 ==> broker.held == {})
      ensures !ValidPlan(plan) ==> outcome == Failed && broker.history == old(broker.history)
      ensures mode != Normal ==> Presses(broker.history) == Presses(old(broker.history))
      ensures mode != Normal && old(broker.Clean()) ==> NothingSent(old(broker.history), broker.history)
      ensures ValidPlan(plan) && outcome != Succeeded ==>
        || (outcome == Failed && old(broker.refusals) < broker.refusals)
        || PlanStopCaused(outside, old(asked), asked, broker.target, old(session.geometry),
                          old(session.geometryRevision), plan, outcome)
      ensures
        && ValidPlan(plan) && old(broker.Clean())
        && AllGood(outside, broker.target, old(session.geometry), old(session.geometryRevision), plan.tasks)
        ==> outcome == Succeeded
      ensures outcome == Succeeded ==> completed == |plan.tasks|
      ensures outcome == Succeeded && mode == Normal ==>
        Presses(broker.history) == Presses(old(broker.history)) + PlanPresses(plan.tasks)
      ensures outcome == Succeeded && mode == DryRun ==> dryRunIntents == old(dryRunIntents) + PlanIntents(plan.tasks)
    {
      TrackedEmpty(broker.pressedKeys, broker.pressedButtons);
      var invalid := Validate(plan);
      if invalid.Some? {
        return Failed, 0;
      }
      ghost var from, p0 := |broker.history|, Presses(broker.history);
      var stop;
      stop, completed := RunTasks(plan, mode, from, p0);
      var released := ReleaseAll(plan, from, p0);
      if stop.Some? {
        GoodPlansRunOn(outside, old(asked), asked, broker.target, old(session.geometry),
                       old(session.geometryRevision), plan, stop.value);
        return stop.value, completed;
      }
      outcome := if released.Some? then Failed else Succeeded;
    }

    /** A broker that was clean at the start still is, and only normal mode has sent anything since. */
    ghost predicate StillClean(start: seq<Moment>, clean: bool, mode: Mode)
      reads this, broker
    {
      clean ==> broker.Clean() && (mode != Normal ==> NothingSent(start, broker.history))
    }

    /** Task `t` of a plan that has been asking since `a`. */
    method NextTask(plan: Plan, t: nat, mode: Mode, ghost from: nat, ghost p0: seq<InputAction>,
                    ghost a: Asked, ghost start: seq<Moment>, ghost clean: bool)
      returns (stop: Option<ActionOutcome>)
      requires Valid() && ValidPlan(plan) && t < |plan.tasks| && Grows(a, asked)
      requires AllAuthorised(plan, broker.target, p0, broker.history, from)
      requires Presses(broker.history) == p0 + PressedBy(plan, mode, t)
      requires start <= broker.history && StillClean(start, clean, mode)
      modifies this, session, broker
      ensures Valid() && start <= broker.history && old(broker.refusals) <= broker.refusals
      ensures AllAuthorised(plan, broker.target, p0, broker.history, from)
      ensures mode != Normal ==> Presses(broker.history) == p0
      ensures stop.None? ==> Presses(broker.history) == p0 + PressedBy(plan, mode, t + 1)
      ensures stop != Some(Succeeded) && PressedPrefix(p0, Presses(broker.history), plan.tasks)
      ensures StillClean(start, clean, mode) && Grows(a, asked)
      ensures stop.Some? ==>
        PlanStopCaused(outside, a, asked, broker.target, old(session.geometry), old(session.geometryRevision),
                       plan, stop.value)
      ensures stop.None? ==>
        session.geometry == old(session.geometry) && session.geometryRevision == old(session.geometryRevision)
      ensures stop.None? && mode == DryRun ==>
        dryRunIntents == old(dryRunIntents) + Intents(plan.tasks[t], |plan.tasks[t].actions|)
    {
      var considered;
      stop, considered := RunTask(plan, t, mode, from, p0);
      HistoryGrows(start, old(broker.history), broker.history);
      if stop.Some? {
        StopWiden(outside, a, old(asked), asked, asked, broker.target, old(session.geometry),
                  old(session.geometryRevision), plan.tasks[t], stop.value);
      }
    }

    /** The tasks in order, until one stops the plan. */
    method RunTasks(plan: Plan, mode: Mode, ghost from: nat, ghost p0: seq<InputAction>)
      returns (stop: Option<ActionOutcome>, completed: nat)
      requires Valid() && ValidPlan(plan) && from == |broker.history| && p0 == Presses(broker.history)
      modifies this, session, broker
      ensures Valid() && old(broker.history) <= broker.history && old(broker.refusals) <= broker.refusals
      ensures AllAuthorised(plan, broker.target, p0, broker.history, from)
      ensures PressedPrefix(p0, Presses(broker.history), plan.tasks)
      ensures mode != Normal ==> Presses(broker.history) == p0
      ensures old(broker.Clean()) ==>
        broker.Clean() && (mode != Normal ==> NothingSent(old(broker.history), broker.history))
      ensures stop != Some(Succeeded) && (stop.None? ==> completed == |plan.tasks|)
      ensures stop.Some? ==>
        PlanStopCaused(outside, old(asked), asked, broker.target, old(session.geometry),
                       old(session.geometryRevision), plan, stop.value)
      ensures stop.None? && mode == Normal ==> Presses(broker.history) == p0 + PlanPresses(plan.tasks)
      ensures stop.None? && mode == DryRun ==> dryRunIntents == old(dryRunIntents) + PlanIntents(plan.tasks)
    {
      completed := 0;
      ghost var start, clean := broker.history, broker.Clean();
      NothingYet(plan, mode, p0);
      for t := 0 to |plan.tasks|
        invariant completed == t && Valid() && start <= broker.history && old(broker.refusals) <= broker.refusals
        invariant Grows(old(asked), asked) && session.geometry == old(session.geometry)
        invariant session.geometryRevision == old(session.geometryRevision)
        invariant AllAuthorised(plan, broker.target, p0, broker.history, from)
        invariant Presses(broker.history) == p0 + PressedBy(plan, mode, t)
        invariant StillClean(start, clean, mode)
        invariant mode == DryRun ==> dryRunIntents == old(dryRunIntents) + IntendedBy(plan, t)
      {
        stop := NextTask(plan, t, mode, from, p0, old(asked), start, clean);
        IntendedSnoc(plan, t);
        if stop.Some? {
          return;
        }
        completed := completed + 1;
      }
      EverythingNow(plan, mode, p0);
      stop := None;
    }

    method ReleaseAll(ghost plan: Plan, ghost from: nat, ghost p0: seq<InputAction>) returns (r: Option<TaskError>)
      requires Valid() && AllAuthorised(plan, broker.target, p0, broker.history, from)
      modifies broker
      ensures Valid() && broker.Clean() && broker.held == broker.orphans
      ensures old(broker.history) <= broker.history && old(broker.refusals) <= broker.refusals
      ensures AllAuthorised(plan, broker.target, p0, broker.history, from)
      ensures Presses(broker.history) == Presses(old(broker.history))
      ensures old(broker.Clean()) ==> r.None? && broker.history == old(broker.history)
      ensures r.None? <==> broker.refusals == old(broker.refusals)
    {
      var released := broker.ReleaseAll();
      ReleasesAreQuiet(old(broker.history), broker.history);
      NoPressPresses(old(broker.history), broker.history);
      NoPressKeepsAuthorised(plan, broker.target, p0, old(broker.history), broker.history, from);
      r := MapBroker(released);
    }
  }

  /** An action that pressed right after a revalidation with the detection's geometry was authorised. */
  lemma PressedAction(plan: Plan, target: Target, p0: seq<InputAction>, before: seq<Moment>, after: seq<Moment>,
                      g: Geometry, from: nat, q: nat, t: nat, i: nat)
    requires AllAuthorised(plan, target, p0, before, from)
    requires Permits(plan, before, q, t) && Steady(before, q, |before|)
    requires before[q].geometry == g && Usable(g) && i < |plan.tasks[t].actions|
    requires Presses(before) == p0 + PressesUpTo(plan.tasks, t, i)
    requires var press := PressOf(plan.tasks[t].actions[i]);
      |press| == 1 && Quiet(before + [Refreshed(g), Sent(press[0], Some(target))], after)
    ensures AllAuthorised(plan, target, p0, after, from)
    ensures Presses(after) == Presses(before) + PressOf(plan.tasks[t].actions[i])
  {
    var press := PressOf(plan.tasks[t].actions[i])[0];
    var ready := before + [Refreshed(g)];
    var sent := ready + [Sent(press, Some(target))];
    assert before + [Refreshed(g), Sent(press, Some(target))] == sent;
    PressesSnoc(before, Refreshed(g));
    PressesSnoc(ready, sent[|ready|]);
    NoPressPresses(sent, after);
    NoPressKeepsAuthorised(plan, target, p0, before, ready, from);
    PressIsWarranted(plan, target, p0, before, g, q, t, i);
    PressKeepsAuthorised(plan, target, p0, ready, press, from, q, t, i);
    NoPressKeepsAuthorised(plan, target, p0, sent, after, from);
  }

  lemma PressIsWarranted(plan: Plan, target: Target, p0: seq<InputAction>, before: seq<Moment>, g: Geometry,
                         q: nat, t: nat, i: nat)
    requires Permits(plan, before, q, t) && Steady(before, q, |before|)
    requires before[q].geometry == g && Usable(g) && i < |plan.tasks[t].actions|
    requires Presses(before) == p0 + PressesUpTo(plan.tasks, t, i)
    requires |PressOf(plan.tasks[t].actions[i])| == 1
    ensures var sent := before + [Refreshed(g)] + [Sent(PressOf(plan.tasks[t].actions[i])[0], Some(target))];
      Warrant(plan, p0, sent, |before| + 1, q, t, i)
  {
    var sent := before + [Refreshed(g)] + [Sent(PressOf(plan.tasks[t].actions[i])[0], Some(target))];
    PressesSnoc(before, Refreshed(g));
    assert sent[..|before| + 1] == before + [Refreshed(g)];
  }

  /** The new presses are a prefix of what the tasks press. */
  ghost predicate PressedPrefix(before: seq<InputAction>, after: seq<InputAction>, tasks: seq<GuardedTask>) {
    before <= after && after <= before + PlanPresses(tasks)
  }

  function Intents(task: GuardedTask, n: nat): seq<(string, TaskAction)>
    requires n <= |task.actions|
  {
    seq(n, i requires 0 <= i < n => (task.id, task.actions[i]))
  }

  function PlanIntents(tasks: seq<GuardedTask>): seq<(string, TaskAction)> {
    if tasks == [] then []
    else
      var last := tasks[|tasks| - 1];
      PlanIntents(tasks[..|tasks| - 1]) + Intents(last, |last.actions|)
  }

  /** What a dry run of the first `t` tasks records. */
  function IntendedBy(plan: Plan, t: nat): seq<(string, TaskAction)>
    requires t <= |plan.tasks|
  {
    PlanIntents(plan.tasks[..t])
  }

  lemma IntendedSnoc(plan: Plan, t: nat)
    requires t < |plan.tasks|
    ensures IntendedBy(plan, t + 1) == IntendedBy(plan, t) + Intents(plan.tasks[t], |plan.tasks[t].actions|)
  {
    assert plan.tasks[..t + 1][..t] == plan.tasks[..t];
  }

  /** What the first `t` tasks press in a mode. */
  function PressedBy(plan: Plan, mode: Mode, t: nat): seq<InputAction>
    requires t <= |plan.tasks|
  {
    if mode == Normal then PlanPresses(plan.tasks[..t]) else []
  }

  /** What ends a hold. */
  function ReleaseOf(press: InputAction): InputAction
    requires IsPress(press)
  {
    if press.KeyDown? then KeyUp(press.key) else MouseUp(press.button)
  }

  function OutcomeOf(e: TaskError): ActionOutcome {
    match e
    case CancelledTask => CancelledPlan
    case InputFailed => Failed
    case _ => NeedsAttention
  }

  lemma PrefixAt(p0: seq<InputAction>, tasks: seq<GuardedTask>, t: nat, i: nat)
    requires t < |tasks| && i <= |tasks[t].actions|
    ensures PressedPrefix(p0, p0 + PressesUpTo(tasks, t, i), tasks)
  {
    PressesArePrefix(tasks, t, i);
    PrefixAppend(p0, PressesUpTo(tasks, t, i), PlanPresses(tasks));
  }

  lemma NextPrefix(p0: seq<InputAction>, tasks: seq<GuardedTask>, t: nat, i: nat)
    requires t < |tasks| && i < |tasks[t].actions|
    ensures p0 + PressesUpTo(tasks, t, i + 1) == p0 + PressesUpTo(tasks, t, i) + PressOf(tasks[t].actions[i])
  {
    NextPress(tasks, t, i);
  }

  lemma ReadyErrorCaused(o: Outside, a: Asked, t: Target, g: Geometry, r: Option<TaskError>)
    requires var window, answer := o.window(a.windows), o.foreground(a.foregrounds);
      r.Some? ==>
        if !Owned(window, t) then r == Some(SessionChanged)
        else if window.value.geometry != g then r == Some(CalibrationChanged)
        else if Hidden(window) then r == Some(FocusLost)
        else if answer.Err? then r == Some(InputFailed)
        else r == Some(FocusLost) && answer != Ok(Some(t))
    ensures var b := a.(windows := a.windows + 1, foregrounds := a.foregrounds + 1);
      r.Some? ==> Caused(o, a, b, t, g, r.value)
  {
    assert a.windows < a.windows + 1 && a.foregrounds < a.foregrounds + 1;
  }

  lemma RefusalCaused(o: Outside, a: Asked, b: Asked, t: Target, r: Outcome)
    requires b == a.(foregrounds := a.foregrounds + 1, sends := a.sends + 1)
    ensures r == Refusal(o.foreground(a.foregrounds), t, Ready, o.accepts(a.sends)) && r.Some? ==>
      forall g :: Caused(o, a, b, t, g, MapBroker(r).value)
  {
  }

  /** What the detector, or the revalidation before it, says about a result of `Detect`. */
  ghost predicate DetectionCaused(o: Outside, a: Asked, b: Asked, t: Target, g: Geometry, revision: nat,
                                  task: GuardedTask, d: Detection) {
    && Grows(a, b)
    && match d
       case Found(_, _, _, _) =>
         d.revision == revision && d.validRegion
         && exists n :: a.detections <= n < b.detections && o.detection(n, task.kind) == d
       case DetectorError => StopCaused(o, a, b, t, g, revision, task, Failed)
       case _ => StopCaused(o, a, b, t, g, revision, task, NeedsAttention)
  }

  lemma ConsultedCaused(o: Outside, a: Asked, b: Asked, c: Asked, t: Target, g: Geometry, revision: nat,
                        task: GuardedTask, d: Detection)
    requires Grows(a, b) && c == b.(detections := b.detections + 1)
    requires var answer := o.detection(b.detections, task.kind);
      d == if answer.Found? && (answer.revision != revision || !answer.validRegion) then Uncertain else answer
    ensures DetectionCaused(o, a, c, t, g, revision, task, d)
  {
    var answer := o.detection(b.detections, task.kind);
    assert a.detections <= b.detections < c.detections;
    assert d.Uncertain? || d.NotFound? ==> !Fits(answer, task, revision);
  }

  /** A detection that is not good enough for its task is the cause of the stop. */
  lemma TaskStopCaused(o: Outside, a: Asked, b: Asked, c: Asked, t: Target, g: Geometry, revision: nat,
                       task: GuardedTask, d: Detection)
    requires Grows(a, b) && DetectionCaused(o, b, c, t, g, revision, task, d)
    requires SafeConfidence(task.minimumConfidence)
    ensures d.DetectorError? ==> StopCaused(o, a, c, t, g, revision, task, Failed)
    ensures !d.DetectorError? && !Fits(d, task, revision) ==> StopCaused(o, a, c, t, g, revision, task, NeedsAttention)
  {
    if d.DetectorError? {
      StopWiden(o, a, b, c, c, t, g, revision, task, Failed);
    } else if !Fits(d, task, revision) {
      StopWiden(o, a, b, c, c, t, g, revision, task, NeedsAttention);
    }
  }

  /** A plan is stopped by the cause of one of its tasks. */
  ghost predicate PlanStopCaused(o: Outside, a: Asked, b: Asked, t: Target, g: Geometry, revision: nat,
                                 plan: Plan, stop: ActionOutcome) {
    exists k :: 0 <= k < |plan.tasks| && StopCaused(o, a, b, t, g, revision, plan.tasks[k], stop)
  }

  lemma GoodPlansRunOn(o: Outside, a: Asked, b: Asked, t: Target, g: Geometry, revision: nat,
                       plan: Plan, stop: ActionOutcome)
    ensures AllGood(o, t, g, revision, plan.tasks) ==> !PlanStopCaused(o, a, b, t, g, revision, plan, stop)
  {
    if AllGood(o, t, g, revision, plan.tasks) {
      forall k: nat | k < |plan.tasks| ensures !StopCaused(o, a, b, t, g, revision, plan.tasks[k], stop) {
        GoodCausesNothing(o, a, b, t, g, revision, plan.tasks, k, stop);
      }
    }
  }

  lemma NothingYet(plan: Plan, mode: Mode, p0: seq<InputAction>)
    ensures p0 + PressedBy(plan, mode, 0) == p0 && IntendedBy(plan, 0) == []
  {
    assert plan.tasks[..0] == [];
  }

  lemma EverythingNow(plan: Plan, mode: Mode, p0: seq<InputAction>)
    ensures p0 + PressedBy(plan, mode, |plan.tasks|) == if mode == Normal then p0 + PlanPresses(plan.tasks) else p0
    ensures PressedPrefix(p0, p0 + PressedBy(plan, mode, |plan.tasks|), plan.tasks)
    ensures IntendedBy(plan, |plan.tasks|) == PlanIntents(plan.tasks)
  {
    assert plan.tasks[..|plan.tasks|] == plan.tasks;
  }

  function MapBroker(r: Outcome): Option<TaskError> {
    match r
    case None => None
    case Some(WrongForeground) => Some(FocusLost)
    case Some(_) => Some(InputFailed)
  }

  lemma QuietTrans(a: seq<Moment>, b: seq<Moment>, c: seq<Moment>)
    requires Quiet(a, b) && Quiet(b, c)
    ensures Quiet(a, c)
  {
    forall i | |a| <= i < |c| ensures !PressAt(c, i) && !c[i].Detected? {
      assert i < |b| ==> PressAt(b, i) == PressAt(c, i) && b[i] == c[i];
    }
  }

  lemma HistoryGrows(a: seq<Moment>, b: seq<Moment>, c: seq<Moment>)
    requires a <= b <= c
    ensures a <= c && (NothingSent(a, b) && NothingSent(b, c) ==> NothingSent(a, c))
  {
  }

  lemma RefreshIsQuiet(base: seq<Moment>, g: Geometry)
    ensures Quiet(base, base + [Refreshed(g)]) && NothingSent(base, base + [Refreshed(g)])
  {
  }

  lemma OneRelease(base: seq<Moment>, release: InputAction, foreground: Option<Target>)
    requires release.KeyUp? || release.MouseUp?
    ensures OnlyReleases(base, base + [Sent(release, foreground)])
  {
  }

  lemma ReleasesTrans(a: seq<Moment>, b: seq<Moment>, c: seq<Moment>)
    requires OnlyReleases(a, b) && OnlyReleases(b, c)
    ensures OnlyReleases(a, c)
  {
    assert forall i :: |a| <= i < |b| ==> b[i] == c[i];
  }

  lemma ReleasesAreQuiet(before: seq<Moment>, after: seq<Moment>)
    requires OnlyReleases(before, after)
    ensures Quiet(before, after)
  {
  }

  lemma TrackedEmpty(keys: set<Key>, buttons: set<MouseButton>)
    ensures Tracked(keys, buttons) == {} <==> keys == {} && buttons == {}
  {
    assert forall k <- keys :: OfKey(k) in Tracked(keys, buttons);
    assert forall b <- buttons :: OfButton(b) in Tracked(keys, buttons);
  }
}
