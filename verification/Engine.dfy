/**
 The engine's run state, with every command handler and every worker segment atomic.

 `Engine` is the shared object; `View` is its value, and each method is proved
 against a function on views. What the engine promises over whole histories is
 proved about those functions.
 */
module Engine {
  import opened Wrappers
  import opened EngineTypes

  datatype Kind = Automation | Legacy | LegacySession | QuestScan

  predicate IsLegacy(kind: Kind) {
    kind.Legacy? || kind.LegacySession?
  }

  function KeyFor(kind: Kind, profile: nat): TaskKey {
    TaskKey(profile,
      if kind.Automation? then AutomationRun else if kind.QuestScan? then QuestScanTask else LegacyCompatibilityRun)
  }

  datatype Stage = Checking | Executing | Reconnecting

  /** What the joined worker handle stands for. */
  datatype Worker = Worker(run: nat, kind: Kind, profile: nat, stage: Stage, finished: bool)

  datatype Body = StateChanged(previous: RunState, current: RunState) | Accepted | Rejected | ShutdownReady | Other
  datatype Event = Event(sequence: nat, body: Body)

  datatype Error =
    | SafeMode | InvalidState(current: RunState) | Unavailable | Store | Duplicate
    | WorkerAlreadyRunning | WorkerNotRunning | InvalidCommand | Port

  type Outcome = Option<Error>

  datatype View = View(
    state: RunState,
    activeTask: Option<Kind>,
    token: Option<nat>,
    sender: Option<nat>,
    worker: Option<Worker>,
    permits: set<TaskKey>,
    cancelled: set<nat>,
    safeMode: bool,
    nextRun: nat,
    events: seq<Event>)

  // ---- Views ----

  predicate Active(s: RunState) {
    s in {Preflight, Running, Paused, Recovering, Stopping}
  }

  predicate Unfinished(v: View) {
    v.worker.Some? && !v.worker.value.finished
  }

  function Emit(v: View, body: Body): View {
    v.(events := v.events + [Event(|v.events| + 1, body)])
  }

  function Transition(v: View, current: RunState): View {
    if v.state == current then v else Emit(v.(state := current), StateChanged(v.state, current))
  }

  /** What a start command sees outside the engine: profile, store, port and plan. */
  datatype StartInput = StartInput(kind: Kind, profile: nat, portInstalled: bool, prepared: bool)

  function StartCheck(v: View, i: StartInput): Outcome {
    if v.safeMode then Some(SafeMode)
    else if v.state != Idle then Some(InvalidState(v.state))
    else if !i.kind.Automation? && !i.portInstalled then Some(Unavailable)
    else if !i.prepared then Some(Store)
    else if KeyFor(i.kind, i.profile) in v.permits then Some(Duplicate)
    else if Unfinished(v) then Some(WorkerAlreadyRunning)
    else None
  }

  function StartDispatch(v: View, i: StartInput): View {
    if StartCheck(v, i).Some? then v
    else Transition(v.(
      permits := v.permits + {KeyFor(i.kind, i.profile)},
      token := Some(v.nextRun), sender := Some(v.nextRun), activeTask := Some(i.kind),
      worker := Some(Worker(v.nextRun, i.kind, i.profile, Checking, false)),
      nextRun := v.nextRun + 1), Preflight)
  }

  /** Pause and resume share their body; a scan refuses to pause. */
  function FlagCheck(v: View, from: RunState, portInstalled: bool, portOk: bool): Outcome {
    if v.state != from then Some(InvalidState(v.state))
    else if from.Running? && v.activeTask == Some(QuestScan) then Some(InvalidCommand)
    else if v.activeTask.Some? && IsLegacy(v.activeTask.value) && !portInstalled then Some(Unavailable)
    else if v.activeTask.Some? && IsLegacy(v.activeTask.value) && !portOk then Some(Port)
    else if v.sender.None? || !Unfinished(v) then Some(WorkerNotRunning)
    else None
  }

  function FlagDispatch(v: View, from: RunState, to: RunState, portInstalled: bool, portOk: bool): View {
    if FlagCheck(v, from, portInstalled, portOk).Some? then v else Transition(v, to)
  }

  datatype StopInput = StopInput(emergency: bool, releaseOk: bool, portInstalled: bool, cancelOk: bool)

  predicate LegacyRunning(v: View) {
    v.activeTask.Some? && IsLegacy(v.activeTask.value)
  }

  function StopMarked(v: View): View {
    var c := v.(cancelled := if v.token.Some? then v.cancelled + {v.token.value} else v.cancelled);
    if v.state == Idle then c else Transition(c, Stopping)
  }

  function StopCheck(v: View, i: StopInput): Outcome {
    if i.emergency && !i.releaseOk then Some(Port)
    else if LegacyRunning(v) && i.portInstalled && !i.cancelOk then Some(Port)
    else None
  }

  function StopDispatch(v: View, i: StopInput): View {
    if StopCheck(v, i).None? && v.token.None? then Transition(StopMarked(v), Idle) else StopMarked(v)
  }

  function AcknowledgeCheck(v: View, storeOk: bool): Outcome {
    if !v.safeMode && v.state !in {NeedsAttention, Faulted} then Some(InvalidState(v.state))
    else if !storeOk then Some(Store)
    else None
  }

  function AcknowledgeDispatch(v: View, storeOk: bool): View {
    if AcknowledgeCheck(v, storeOk).Some? then v
    else if v.state == Idle then Emit(v.(safeMode := false), Other)
    else Transition(v.(safeMode := false), Idle)
  }

  /** Selecting or deleting a profile needs an idle engine; `failure` is the first refusal by the
      rules for profiles or by the store. */
  function ChangeCheck(v: View, failure: Outcome): Outcome {
    if v.state != Idle then Some(InvalidState(v.state)) else failure
  }

  /** A selection publishes the profile and a snapshot, a deletion only the profile. */
  function ChangeDispatch(v: View, selects: bool, failure: Outcome): View {
    if ChangeCheck(v, failure).Some? then v
    else if selects then Emit(Emit(v, Other), Other) else Emit(v, Other)
  }

  /** A crash is recorded only if the store takes it; `tripped` is the guard's verdict. */
  function RecordCrash(v: View, tripped: bool, storeOk: bool): View {
    if tripped && storeOk then Emit(v.(safeMode := true), Other) else v
  }

  /** `finish_worker` and the worker's exit: its permit is dropped and its handle finishes. */
  function Finish(v: View, final: RunState): View
    requires Unfinished(v)
  {
    var w := v.worker.value;
    Transition(v.(
      activeTask := None, token := None, sender := None,
      permits := v.permits - {KeyFor(w.kind, w.profile)}, worker := Some(w.(finished := true))), final)
  }

  function WorkerEnters(v: View, stage: Stage, s: RunState): View
    requires Unfinished(v)
  {
    Transition(v.(worker := Some(v.worker.value.(stage := stage))), s)
  }

  datatype Command =
    | Start(start: StartInput)
    | Pause(portInstalled: bool, portOk: bool)
    | Resume(portInstalled: bool, portOk: bool)
    | Stop(stop: StopInput)
    | ShutdownDaemon(releaseOk: bool, portInstalled: bool, cancelOk: bool, storeOk: bool)
    | Acknowledge(storeOk: bool)
    | Query(failure: Outcome)
    | ChangeProfile(selects: bool, failure: Outcome)

  /** A shutdown is an emergency stop with a durable mark. */
  function StopOf(c: Command): Option<StopInput> {
    match c
    case Stop(i) => Some(i)
    case ShutdownDaemon(releaseOk, portInstalled, cancelOk, _) =>
      Some(StopInput(true, releaseOk, portInstalled, cancelOk))
    case _ => None
  }

  datatype Op =
    | Handle(command: Command)
    | Reject
    | Crash(tripped: bool, storeOk: bool)
    | PreflightPassed
    | Retrying
    | Recovered
    | Progress
    | Finished(final: RunState)

  function Check(v: View, c: Command): Outcome {
    match c
    case Start(i) => StartCheck(v, i)
    case Pause(p, ok) => FlagCheck(v, Running, p, ok)
    case Resume(p, ok) => FlagCheck(v, Paused, p, ok)
    case Stop(i) => StopCheck(v, i)
    case ShutdownDaemon(_, _, _, storeOk) =>
      var stopped := StopCheck(v, StopOf(c).value);
      if stopped.Some? then stopped else if storeOk then None else Some(Store)
    case Acknowledge(ok) => AcknowledgeCheck(v, ok)
    case Query(failure) => failure
    case ChangeProfile(_, failure) => ChangeCheck(v, failure)
  }

  function Dispatch(v: View, c: Command): View {
    match c
    case Start(i) => StartDispatch(v, i)
    case Pause(p, ok) => FlagDispatch(v, Running, Paused, p, ok)
    case Resume(p, ok) => FlagDispatch(v, Paused, Running, p, ok)
    case Stop(i) => StopDispatch(v, i)
    case ShutdownDaemon(_, _, _, _) => StopDispatch(v, StopOf(c).value)
    case Acknowledge(ok) => AcknowledgeDispatch(v, ok)
    case Query(failure) => if failure.Some? then v else Emit(v, Other)
    case ChangeProfile(selects, failure) => ChangeDispatch(v, selects, failure)
  }

  /** The reply to a command; an accepted shutdown is followed by its ready event. */
  function Reply(v: View, c: Command): View {
    var t := Dispatch(v, c);
    if Check(v, c).Some? then Emit(t, Rejected)
    else if c.ShutdownDaemon? then Emit(Emit(t, Accepted), ShutdownReady)
    else Emit(t, Accepted)
  }

  /** When an operation can happen at all: worker segments need their worker. */
  predicate Enabled(v: View, op: Op) {
    match op
    case Handle(_) => true
    case Reject => true
    case Crash(_, _) => true
    case PreflightPassed => Unfinished(v) && v.worker.value.stage == Checking
    case Retrying => Unfinished(v) && v.worker.value.stage == Executing
      && (v.worker.value.kind.Automation? || v.worker.value.kind.LegacySession?)
    case Recovered => Unfinished(v) && v.worker.value.stage == Reconnecting && v.worker.value.kind.LegacySession?
    case Progress => Unfinished(v)
    case Finished(final) => Unfinished(v) && final in {Idle, NeedsAttention, Faulted}
  }

  function Apply(v: View, op: Op): View
    requires Enabled(v, op)
  {
    match op
    case Handle(c) => Reply(v, c)
    case Reject => Emit(v, Rejected)
    case Crash(tripped, storeOk) => RecordCrash(v, tripped, storeOk)
    case PreflightPassed => WorkerEnters(v, Executing, Running)
    case Retrying => WorkerEnters(v, Reconnecting, Recovering)
    case Recovered => WorkerEnters(v, Executing, Running)
    case Progress => Emit(v, Other)
    case Finished(final) => Finish(v, final)
  }

  // ---- The object ----

  class AutomationEngine {
    var state: RunState
    var activeTask: Option<Kind>
    var cancellation: Option<nat>
    var pauseSender: Option<nat>
    var worker: Option<Worker>
    var permits: set<TaskKey>
    var cancelled: set<nat>
    var safeMode: bool
    var nextRun: nat
    var sequence: nat
    var events: seq<Event>
    ghost var booted: bool
    ghost var history: seq<Op>

    ghost function Value(): View
      reads this
    {
      View(state, activeTask, cancellation, pauseSender, worker, permits, cancelled, safeMode, nextRun, events)
    }

    /** The atomic counter agrees with the number of published events. */
    ghost predicate Counted()
      reads this
    {
      sequence == |events|
    }

    /** The engine is where its history of commands and worker segments leads. */
    ghost predicate Valid()
      reads this
    {
      Counted() && Run(booted, history) == Some(Value())
    }

    constructor (storedSafeMode: bool)
      ensures Valid() && Value() == Boot(storedSafeMode) && booted == storedSafeMode && history == []
    {
      state, activeTask, cancellation, pauseSender, worker := Idle, None, None, None, None;
      permits, cancelled, safeMode, nextRun, sequence, events := {}, {}, storedSafeMode, 0, 0, [];
      booted, history := storedSafeMode, [];
    }

    method Publish(body: Body)
      requires Counted()
      modifies this`sequence, this`events
      ensures Counted() && Value() == Emit(old(Value()), body)
    {
      sequence := sequence + 1;
      events := events + [Event(sequence, body)];
    }

    method MoveTo(current: RunState)
      requires Counted()
      modifies this`state, this`sequence, this`events
      ensures Counted() && Value() == Transition(old(Value()), current)
    {
      var previous := state;
      state := current;
      if previous != current {
        Publish(StateChanged(previous, current));
      }
    }

    /** The four start commands; they differ in the port they need and in their task name. */
    method StartRun(i: StartInput) returns (r: Outcome)
      requires Counted()
      modifies `state, `activeTask, `cancellation, `pauseSender, `worker, `permits, `cancelled, `safeMode,
        `nextRun, `sequence, `events
      ensures Counted() && r == StartCheck(old(Value()), i) && Value() == StartDispatch(old(Value()), i)
    {
      if safeMode {
        return Some(SafeMode);
      }
      if state != Idle {
        return Some(InvalidState(state));
      }
      if !i.kind.Automation? && !i.portInstalled {
        return Some(Unavailable);
      }
      if !i.prepared {
        return Some(Store);
      }
      var key := KeyFor(i.kind, i.profile);
      if key in permits {
        return Some(Duplicate);
      }
      permits := permits + {key};
      if worker.Some? && !worker.value.finished {
        permits := permits - {key};
        return Some(WorkerAlreadyRunning);
      }
      worker := None;
      var run := nextRun;
      nextRun := nextRun + 1;
      cancellation := Some(run);
      pauseSender := Some(run);
      activeTask := Some(i.kind);
      MoveTo(Preflight);
      worker := Some(Worker(run, i.kind, i.profile, Checking, false));
      return None;
    }

    method SetPaused(from: RunState, to: RunState, portInstalled: bool, portOk: bool) returns (r: Outcome)
      requires Counted()
      modifies `state, `activeTask, `cancellation, `pauseSender, `worker, `permits, `cancelled, `safeMode,
        `nextRun, `sequence, `events
      ensures Counted() && r == FlagCheck(old(Value()), from, portInstalled, portOk)
      ensures Value() == FlagDispatch(old(Value()), from, to, portInstalled, portOk)
    {
      if state != from {
        return Some(InvalidState(state));
      }
      if from.Running? && activeTask == Some(QuestScan) {
        return Some(InvalidCommand);
      }
      if activeTask.Some? && IsLegacy(activeTask.value) {
        if !portInstalled {
          return Some(Unavailable);
        }
        if !portOk {
          return Some(Port);
        }
      }
      if pauseSender.None? || worker.None? || worker.value.finished {
        return Some(WorkerNotRunning);
      }
      MoveTo(to);
      return None;
    }

    method StopRun(i: StopInput) returns (r: Outcome)
      requires Counted()
      modifies `state, `activeTask, `cancellation, `pauseSender, `worker, `permits, `cancelled, `safeMode,
        `nextRun, `sequence, `events
      ensures Counted() && r == StopCheck(old(Value()), i) && Value() == StopDispatch(old(Value()), i)
    {
      var legacyRunning := activeTask.Some? && IsLegacy(activeTask.value);
      if cancellation.Some? {
        cancelled := cancelled + {cancellation.value};
      }
      if state != Idle {
        MoveTo(Stopping);
      }
      if i.emergency && !i.releaseOk {
        return Some(Port);
      }
      if legacyRunning && i.portInstalled && !i.cancelOk {
        return Some(Port);
      }
      if cancellation.None? {
        MoveTo(Idle);
      }
      return None;
    }

    method AcknowledgeAttention(storeOk: bool) returns (r: Outcome)
      requires Counted()
      modifies `state, `activeTask, `cancellation, `pauseSender, `worker, `permits, `cancelled, `safeMode,
        `nextRun, `sequence, `events
      ensures Counted() && r == AcknowledgeCheck(old(Value()), storeOk)
      ensures Value() == AcknowledgeDispatch(old(Value()), storeOk)
    {
      if !safeMode && state !in {NeedsAttention, Faulted} {
        return Some(InvalidState(state));
      }
      if !storeOk {
        return Some(Store);
      }
      safeMode := false;
      if state == Idle {
        Publish(Other);
      } else {
        MoveTo(Idle);
      }
      return None;
    }

    method HandleCommand(c: Command, versionOk: bool) returns (r: Outcome)
      requires Counted()
      modifies `state, `activeTask, `cancellation, `pauseSender, `worker, `permits, `cancelled, `safeMode,
        `nextRun, `sequence, `events
      ensures Counted() && r == if versionOk then Check(old(Value()), c) else Some(InvalidCommand)
      ensures Value() == Apply(old(Value()), if versionOk then Handle(c) else Reject)
    {
      if !versionOk {
        Publish(Rejected);
        return Some(InvalidCommand);
      }
      r := DispatchCommand(c);
      Publish(if r.None? then Accepted else Rejected);
      if c.ShutdownDaemon? && r.None? {
        Publish(ShutdownReady);
      }
    }

    method SelectOrDelete(selects: bool, failure: Outcome) returns (r: Outcome)
      requires Counted()
      modifies this`sequence, this`events
      ensures Counted() && r == ChangeCheck(old(Value()), failure)
      ensures Value() == ChangeDispatch(old(Value()), selects, failure)
    {
      if state != Idle {
        return Some(InvalidState(state));
      }
      if failure.None? {
        Publish(Other);
        if selects {
          Publish(Other);
        }
      }
      r := failure;
    }

    method DispatchCommand(c: Command) returns (r: Outcome)
      requires Counted()
      modifies `state, `activeTask, `cancellation, `pauseSender, `worker, `permits, `cancelled, `safeMode,
        `nextRun, `sequence, `events
      ensures Counted() && r == Check(old(Value()), c) && Value() == Dispatch(old(Value()), c)
    {
      match c
      case Start(i) => r := StartRun(i);
      case Pause(p, ok) => r := SetPaused(Running, Paused, p, ok);
      case Resume(p, ok) => r := SetPaused(Paused, Running, p, ok);
      case Stop(i) => r := StopRun(i);
      case ShutdownDaemon(_, _, _, storeOk) =>
        r := StopRun(StopOf(c).value);
        if r.None? && !storeOk {
          r := Some(Store);
        }
      case Acknowledge(ok) => r := AcknowledgeAttention(ok);
      case Query(failure) =>
        if failure.None? {
          Publish(Other);
        }
        r := failure;
      case ChangeProfile(selects, failure) => r := SelectOrDelete(selects, failure);
    }

    method RecordDaemonCrash(tripped: bool, storeOk: bool)
      requires Counted()
      modifies `state, `activeTask, `cancellation, `pauseSender, `worker, `permits, `cancelled, `safeMode,
        `nextRun, `sequence, `events
      ensures Counted() && Value() == RecordCrash(old(Value()), tripped, storeOk)
    {
      if storeOk {
        safeMode := safeMode || tripped;
        if tripped {
          Publish(Other);
        }
      }
    }

    /** A worker passes its preflight, starts to recover, or resumes after recovery. */
    method EnterStage(stage: Stage, current: RunState)
      requires Counted() && Unfinished(Value())
      modifies `state, `activeTask, `cancellation, `pauseSender, `worker, `permits, `cancelled, `safeMode,
        `nextRun, `sequence, `events
      ensures Counted() && Value() == WorkerEnters(old(Value()), stage, current)
    {
      worker := Some(worker.value.(stage := stage));
      MoveTo(current);
    }

    method FinishWorker(final: RunState)
      requires Counted() && Unfinished(Value())
      modifies `state, `activeTask, `cancellation, `pauseSender, `worker, `permits, `cancelled, `safeMode,
        `nextRun, `sequence, `events
      ensures Counted() && Value() == Finish(old(Value()), final)
    {
      activeTask := None;
      cancellation := None;
      pauseSender := None;
      MoveTo(final);
      permits := permits - {KeyFor(worker.value.kind, worker.value.profile)};
      worker := Some(worker.value.(finished := true));
    }
  
    /** Whatever happens to an engine next, it stays where its history leads. */
    method Do(op: Op)
      requires Valid() && Enabled(Value(), op)
      modifies this
      ensures Valid() && booted == old(booted) && history == old(history) + [op]
      ensures Value() == Apply(old(Value()), op)
    {
      RunSnoc(booted, history, op);
      match op {
        case Handle(c) => var _ := HandleCommand(c, true);
        case Reject => var _ := HandleCommand(Query(None), false);
        case Crash(tripped, storeOk) => RecordDaemonCrash(tripped, storeOk);
        case PreflightPassed => EnterStage(Executing, Running);
        case Retrying => EnterStage(Reconnecting, Recovering);
        case Recovered => EnterStage(Executing, Running);
        case Progress => Publish(Other);
        case Finished(final) => FinishWorker(final);
      }
      history := history + [op];
    }
  }

  function Boot(storedSafeMode: bool): View {
    View(Idle, None, None, None, None, {}, {}, storedSafeMode, 0, [])
  }

  // ---- Invariants ----

  /** The state a subscriber reconstructs from the published events. */
  function Replay(events: seq<Event>): RunState {
    if events == [] then Idle
    else
      match events[|events| - 1].body
      case StateChanged(_, current) => current
      case _ => Replay(events[..|events| - 1])
  }

  /** Numbered from one, and each change leads on from the state the earlier events give. */
  predicate Logged(events: seq<Event>) {
    events == [] ||
    var last, init := events[|events| - 1], events[..|events| - 1];
    && Logged(init) && last.sequence == |events|
    && (last.body.StateChanged? ==> last.body.previous == Replay(init) != last.body.current)
  }

  predicate LogInv(v: View) {
    Logged(v.events) && Replay(v.events) == v.state
  }

  /** Everything the engine stores about a run belongs to the one unfinished worker. */
  predicate OwnerInv(v: View) {
    if Unfinished(v) then
      var w := v.worker.value;
      && v.token == v.sender == Some(w.run) && v.activeTask == Some(w.kind)
      && v.permits == {KeyFor(w.kind, w.profile)} && !v.safeMode
    else
      v.token == v.sender == None && v.activeTask == None && v.permits == {}
  }

  /** Run ids are handed out in order, and only handed-out ones are ever cancelled. */
  predicate RunIdInv(v: View) {
    && (forall r <- v.cancelled :: r < v.nextRun)
    && (v.worker.Some? ==> v.worker.value.run < v.nextRun)
  }

  predicate BaseInv(v: View) {
    LogInv(v) && OwnerInv(v) && RunIdInv(v) && (Unfinished(v) ==> Active(v.state))
  }

  /** The run state is an active one exactly when a worker is unfinished. */
  predicate StateInv(v: View) {
    Active(v.state) <==> Unfinished(v)
  }

  lemma EmitKeepsLog(v: View, s: RunState, body: Body)
    requires LogInv(v)
    requires if body.StateChanged? then body.previous == v.state != s == body.current else s == v.state
    ensures LogInv(Emit(v.(state := s), body))
  {
    var t := Emit(v.(state := s), body);
    assert t.events[..|v.events|] == v.events;
  }

  lemma TransitionKeepsLog(v: View, s: RunState)
    requires LogInv(v)
    ensures LogInv(Transition(v, s)) && Transition(v, s).state == s
    ensures Transition(v, s).(state := v.state, events := v.events) == v
  {
    if v.state != s {
      EmitKeepsLog(v, s, StateChanged(v.state, s));
    }
  }

  /** Safe mode can be entered without a run to protect: crashes are recorded at start-up. */
  predicate CrashIsAtStartup(v: View, op: Op) {
    op.Crash? && op.tripped && op.storeOk ==> !Unfinished(v)
  }

  lemma StopMarkKeepsBase(v: View)
    requires BaseInv(v)
    ensures BaseInv(StopMarked(v))
  {
    TransitionKeepsLog(
      v.(cancelled := if v.token.Some? then v.cancelled + {v.token.value} else v.cancelled), Stopping);
  }

  lemma StopKeepsBase(v: View, i: StopInput)
    requires BaseInv(v)
    ensures BaseInv(StopDispatch(v, i))
  {
    var marked := StopMarked(v);
    StopMarkKeepsBase(v);
    TransitionKeepsLog(marked, Idle);
  }

  lemma StartKeepsBase(v: View, i: StartInput)
    requires BaseInv(v)
    ensures BaseInv(StartDispatch(v, i))
  {
    if StartCheck(v, i).None? {
      var next := v.(
        permits := v.permits + {KeyFor(i.kind, i.profile)},
        token := Some(v.nextRun), sender := Some(v.nextRun), activeTask := Some(i.kind),
        worker := Some(Worker(v.nextRun, i.kind, i.profile, Checking, false)),
        nextRun := v.nextRun + 1);
      TransitionKeepsLog(next, Preflight);
      assert StartDispatch(v, i) == Transition(next, Preflight);
    }
  }

  lemma AcknowledgeKeepsBase(v: View, storeOk: bool)
    requires BaseInv(v)
    ensures BaseInv(AcknowledgeDispatch(v, storeOk))
  {
    if v.state == Idle {
      EmitKeepsLog(v.(safeMode := false), Idle, Other);
    } else {
      TransitionKeepsLog(v.(safeMode := false), Idle);
    }
  }

  lemma FlagKeepsBase(v: View, from: RunState, to: RunState, portInstalled: bool, portOk: bool)
    requires BaseInv(v) && Active(to)
    ensures BaseInv(FlagDispatch(v, from, to, portInstalled, portOk))
  {
    TransitionKeepsLog(v, to);
  }

  lemma ChangeKeepsBase(v: View, selects: bool, failure: Outcome)
    requires BaseInv(v)
    ensures BaseInv(ChangeDispatch(v, selects, failure))
  {
    EmitKeepsLog(v, v.state, Other);
    EmitKeepsLog(Emit(v, Other), v.state, Other);
  }

  lemma DispatchKeepsBase(v: View, c: Command)
    requires BaseInv(v)
    ensures BaseInv(Dispatch(v, c))
  {
    match c
    case Start(i) => StartKeepsBase(v, i);
    case Stop(i) => StopKeepsBase(v, i);
    case Pause(p, ok) => FlagKeepsBase(v, Running, Paused, p, ok);
    case Resume(p, ok) => FlagKeepsBase(v, Paused, Running, p, ok);
    case Acknowledge(ok) => AcknowledgeKeepsBase(v, ok);
    case ShutdownDaemon(_, _, _, _) => StopKeepsBase(v, StopOf(c).value);
    case Query(_) => EmitKeepsLog(v, v.state, Other);
    case ChangeProfile(selects, failure) => ChangeKeepsBase(v, selects, failure);
  }

  lemma ReplyKeepsBase(v: View, c: Command)
    requires BaseInv(Dispatch(v, c))
    ensures BaseInv(Reply(v, c))
  {
    var t := Dispatch(v, c);
    EmitKeepsLog(t, t.state, Rejected);
    EmitKeepsLog(t, t.state, Accepted);
    EmitKeepsLog(Emit(t, Accepted), t.state, ShutdownReady);
  }

  lemma EntersKeepsBase(v: View, stage: Stage, s: RunState)
    requires BaseInv(v) && Unfinished(v) && Active(s)
    ensures BaseInv(WorkerEnters(v, stage, s))
  {
    TransitionKeepsLog(v.(worker := Some(v.worker.value.(stage := stage))), s);
  }

  lemma FinishKeepsBase(v: View, final: RunState)
    requires BaseInv(v) && Unfinished(v)
    ensures BaseInv(Finish(v, final))
  {
    var w := v.worker.value;
    TransitionKeepsLog(v.(
      activeTask := None, token := None, sender := None,
      permits := v.permits - {KeyFor(w.kind, w.profile)}, worker := Some(w.(finished := true))), final);
  }

  lemma ApplyKeepsBase(v: View, op: Op)
    requires BaseInv(v) && Enabled(v, op) && CrashIsAtStartup(v, op)
    ensures BaseInv(Apply(v, op))
  {
    match op
    case Handle(c) =>
      DispatchKeepsBase(v, c);
      ReplyKeepsBase(v, c);
    case Reject => EmitKeepsLog(v, v.state, Rejected);
    case Crash(_, _) => EmitKeepsLog(v.(safeMode := true), v.state, Other);
    case PreflightPassed => EntersKeepsBase(v, Executing, Running);
    case Retrying => EntersKeepsBase(v, Reconnecting, Recovering);
    case Recovered => EntersKeepsBase(v, Executing, Running);
    case Progress => EmitKeepsLog(v, v.state, Other);
    case Finished(final) => FinishKeepsBase(v, final);
  }

  // ---- Histories ----

  /** The engine after a history, or `None` when a worker segment had no worker. */
  function Run(storedSafeMode: bool, ops: seq<Op>): Option<View> {
    if ops == [] then Some(Boot(storedSafeMode))
    else
      var before := Run(storedSafeMode, ops[..|ops| - 1]);
      if before.Some? && Enabled(before.value, ops[|ops| - 1])
      then Some(Apply(before.value, ops[|ops| - 1])) else None
  }

  lemma RunSnoc(storedSafeMode: bool, ops: seq<Op>, op: Op)
    requires Run(storedSafeMode, ops).Some? && Enabled(Run(storedSafeMode, ops).value, op)
    ensures Run(storedSafeMode, ops + [op]) == Some(Apply(Run(storedSafeMode, ops).value, op))
  {
    assert (ops + [op])[..|ops|] == ops;
  }

  /** The daemon records the previous crash before it serves commands. */
  predicate StartupCrashes(ops: seq<Op>) {
    forall i :: 0 < i < |ops| ==> !ops[i].Crash?
  }

  lemma {:induction false} HistoryKeepsBase(safe: bool, ops: seq<Op>)
    requires StartupCrashes(ops) && Run(safe, ops).Some?
    ensures BaseInv(Run(safe, ops).value)
  {
    if ops != [] {
      HistoryKeepsBase(safe, ops[..|ops| - 1]);
      ApplyKeepsBase(Run(safe, ops[..|ops| - 1]).value, ops[|ops| - 1]);
    }
  }

  /** The exact condition under which one operation keeps the state in step with the
      worker: the only way out is an emergency stop, with nothing running and something
      to acknowledge, whose release fails. */
  lemma StateStaysInStepIff(v: View, op: Op)
    requires BaseInv(v) && StateInv(v) && Enabled(v, op) && CrashIsAtStartup(v, op)
    ensures StateInv(Apply(v, op)) <==> !StopStrands(v, op)
    ensures StopStrands(v, op) ==> Apply(v, op).state == Stopping
  {
    if op.Handle? {
      if StopOf(op.command).Some? {
        StopInStepIff(v, StopOf(op.command).value);
      } else {
        OtherCommandsStayInStep(v, op.command);
      }
    }
  }

  lemma StopInStepIff(v: View, i: StopInput)
    requires OwnerInv(v) && StateInv(v)
    ensures StateInv(StopDispatch(v, i)) <==> !(i.emergency && !i.releaseOk && !Unfinished(v) && v.state != Idle)
    ensures !StateInv(StopDispatch(v, i)) ==> StopDispatch(v, i).state == Stopping
  {
  }

  lemma OtherCommandsStayInStep(v: View, c: Command)
    requires OwnerInv(v) && StateInv(v) && StopOf(c).None?
    ensures StateInv(Dispatch(v, c))
  {
  }

  predicate StopStrands(v: View, op: Op) {
    ReleaseFails(op) && !Unfinished(v) && v.state != Idle
  }

  /** An emergency stop, alone or in a shutdown, whose release fails. */
  predicate ReleaseFails(op: Op) {
    && op.Handle? && StopOf(op.command).Some?
    && StopOf(op.command).value.emergency && !StopOf(op.command).value.releaseOk
  }

  /** Main result: if emergency releases succeed, then after any history the state is
      Preflight, Running, Paused, Recovering or Stopping exactly when a worker is
      unfinished, the stored token, channel, task and permit are that worker's, and safe
      mode means that no worker is unfinished. */
  lemma {:induction false} StateMatchesWorker(safe: bool, ops: seq<Op>)
    requires StartupCrashes(ops) && Run(safe, ops).Some?
    requires forall op <- ops :: !ReleaseFails(op)
    ensures var v := Run(safe, ops).value;
      && (Active(v.state) <==> Unfinished(v))
      && OwnerInv(v)
      && (v.safeMode ==> !Unfinished(v))
  {
    HistoryKeepsBase(safe, ops);
    if ops != [] {
      var init := ops[..|ops| - 1];
      StateMatchesWorker(safe, init);
      HistoryKeepsBase(safe, init);
      assert ops[|ops| - 1] in ops;
      StateStaysInStepIff(Run(safe, init).value, ops[|ops| - 1]);
    }
  }

  /** The same of the object: unless a release failed, its fields agree with each other at any time. */
  lemma EngineAgrees(e: AutomationEngine)
    requires e.Valid() && StartupCrashes(e.history) && forall op <- e.history :: !ReleaseFails(op)
    ensures Active(e.state) <==> e.worker.Some? && !e.worker.value.finished
    ensures e.cancellation == e.pauseSender && (e.cancellation.Some? <==> Active(e.state))
    ensures e.cancellation.Some? ==> e.worker.Some? && e.cancellation == Some(e.worker.value.run)
    ensures e.safeMode ==> !Active(e.state)
  {
    StateMatchesWorker(e.booted, e.history);
  }

  lemma RunThree(safe: bool, a: Op, b: Op, c: Op)
    requires Enabled(Boot(safe), a) && Enabled(Apply(Boot(safe), a), b)
    requires Enabled(Apply(Apply(Boot(safe), a), b), c)
    ensures Run(safe, [a, b, c]) == Some(Apply(Apply(Apply(Boot(safe), a), b), c))
  {
    RunSnoc(safe, [], a);
    RunSnoc(safe, [a], b);
    RunSnoc(safe, [a, b], c);
    assert [] + [a] == [a] && [a] + [b] == [a, b] && [a, b] + [c] == [a, b, c];
  }

  lemma FaultedStartThenStop(start: Op, stop: Op)
    requires start == Handle(Start(StartInput(Automation, 0, false, true)))
    requires stop == Handle(Stop(StopInput(true, false, false, true)))
    ensures var started := Apply(Boot(false), start);
      && Unfinished(started)
      && var stranded := Apply(Apply(started, Finished(Faulted)), stop);
      && stranded.state == Stopping && !Unfinished(stranded)
  {
  }

  /** A failed release can strand the engine: a run ends faulted, then an emergency stop fails. */
  lemma FailedReleaseStrandsEngine()
    ensures exists ops: seq<Op> ::
      && StartupCrashes(ops) && Run(false, ops).Some?
      && Run(false, ops).value.state == Stopping && !Unfinished(Run(false, ops).value)
  {
    var start := Handle(Start(StartInput(Automation, 0, false, true)));
    var stop := Handle(Stop(StopInput(true, false, false, true)));
    var ops := [start, Finished(Faulted), stop];
    assert Run(false, ops).Some? && Run(false, ops).value.state == Stopping && !Unfinished(Run(false, ops).value) by {
      FaultedStartThenStop(start, stop);
      RunThree(false, start, Finished(Faulted), stop);
    }
    assert StartupCrashes(ops);
  }

  /** A stranded engine leaves `Stopping` exactly through a stop or shutdown that is no emergency or
      whose release succeeds, or through a stored acknowledgement in safe mode; it goes to `Idle`. */
  lemma OnlyStopRecovers(v: View, op: Op)
    requires BaseInv(v) && Enabled(v, op) && CrashIsAtStartup(v, op)
    requires v.state == Stopping && !Unfinished(v)
    ensures Apply(v, op).state != Stopping <==>
      && op.Handle?
      && ((StopOf(op.command).Some? && !ReleaseFails(op))
          || (op.command.Acknowledge? && op.command.storeOk && v.safeMode))
    ensures Apply(v, op).state in {Stopping, Idle}
  {
  }

  /** These states have a worker, whatever releases failed. */
  predicate BusyInv(v: View) {
    v.state in {Preflight, Running, Paused, Recovering} ==> Unfinished(v)
  }

  lemma ApplyKeepsBusy(v: View, op: Op)
    requires OwnerInv(v) && BusyInv(v) && Enabled(v, op)
    ensures BusyInv(Apply(v, op))
  {
    if op.Handle? {
      CommandKeepsBusy(v, op.command);
    }
  }

  lemma CommandKeepsBusy(v: View, c: Command)
    requires OwnerInv(v) && BusyInv(v)
    ensures BusyInv(Dispatch(v, c))
  {
  }

  lemma {:induction false} HistoryKeepsBusy(safe: bool, ops: seq<Op>)
    requires StartupCrashes(ops) && Run(safe, ops).Some?
    ensures BusyInv(Run(safe, ops).value)
  {
    if ops != [] {
      var init := ops[..|ops| - 1];
      HistoryKeepsBusy(safe, init);
      HistoryKeepsBase(safe, init);
      ApplyKeepsBusy(Run(safe, init).value, ops[|ops| - 1]);
    }
  }

  /** After any history a start is accepted exactly in Idle, out of safe mode, with a profile the store
      has and, for all but an automation run, an installed port: no earlier run can have left a permit
      or a worker behind. A refused start changes nothing. */
  lemma StartAcceptedIff(safe: bool, ops: seq<Op>, i: StartInput)
    requires StartupCrashes(ops) && Run(safe, ops).Some?
    ensures var v := Run(safe, ops).value;
      && (Check(v, Start(i)).None? <==>
            v.state == Idle && !v.safeMode && i.prepared && (i.kind.Automation? || i.portInstalled))
      && (Check(v, Start(i)).Some? ==> Dispatch(v, Start(i)) == v)
  {
    HistoryKeepsBase(safe, ops);
  }

  /** An accepted start runs from Preflight, as the unfinished worker of a new, uncancelled run. */
  lemma AcceptedStartRuns(safe: bool, ops: seq<Op>, i: StartInput)
    requires StartupCrashes(ops) && Run(safe, ops).Some? && Check(Run(safe, ops).value, Start(i)).None?
    ensures var v := Run(safe, ops).value; var t := Dispatch(v, Start(i));
      && t.state == Preflight
      && t.worker == Some(Worker(v.nextRun, i.kind, i.profile, Checking, false)) && v.nextRun !in v.cancelled
      && t.token == t.sender == Some(v.nextRun) && t.activeTask == Some(i.kind) && |t.permits| == 1
      && t.cancelled == v.cancelled && !t.safeMode
  {
    HistoryKeepsBase(safe, ops);
    var v := Run(safe, ops).value;
    assert v.permits == {};
    assert Dispatch(v, Start(i)).permits == {KeyFor(i.kind, i.profile)};
  }

  /** The unfinished worker is not a scan, and a legacy one has a port that agrees. */
  predicate MayFlag(v: View, scanToo: bool, portInstalled: bool, portOk: bool)
    requires Unfinished(v)
  {
    var kind := v.worker.value.kind;
    && (kind.QuestScan? ==> scanToo)
    && (kind.Legacy? || kind.LegacySession? ==> portInstalled && portOk)
  }

  function Changed(v: View, from: RunState, to: RunState): View {
    v.(state := to, events := v.events + [Event(|v.events| + 1, StateChanged(from, to))])
  }

  lemma FlagAcceptedIff(v: View, from: RunState, to: RunState, portInstalled: bool, portOk: bool)
    requires OwnerInv(v) && BusyInv(v) && (from == Running || from == Paused) && to != from
    ensures v.state == from ==> Unfinished(v)
    ensures FlagCheck(v, from, portInstalled, portOk).None? <==>
      v.state == from && MayFlag(v, from == Paused, portInstalled, portOk)
    ensures FlagDispatch(v, from, to, portInstalled, portOk) ==
      if FlagCheck(v, from, portInstalled, portOk).None? then Changed(v, from, to) else v
  {
  }

  /** After any history a pause is accepted exactly in Running, for a worker that may be paused, and
      then changes the state to Paused and nothing else; a refused one changes nothing. */
  lemma PauseAcceptedIff(safe: bool, ops: seq<Op>, portInstalled: bool, portOk: bool)
    requires StartupCrashes(ops) && Run(safe, ops).Some?
    ensures var v := Run(safe, ops).value; var pause := Pause(portInstalled, portOk);
      && (v.state == Running ==> Unfinished(v))
      && (Check(v, pause).None? <==> v.state == Running && MayFlag(v, false, portInstalled, portOk))
      && Dispatch(v, pause) == if Check(v, pause).None? then Changed(v, Running, Paused) else v
  {
    HistoryKeepsBase(safe, ops);
    HistoryKeepsBusy(safe, ops);
    FlagAcceptedIff(Run(safe, ops).value, Running, Paused, portInstalled, portOk);
  }

  /** The same for a resume, from Paused to Running. */
  lemma ResumeAcceptedIff(safe: bool, ops: seq<Op>, portInstalled: bool, portOk: bool)
    requires StartupCrashes(ops) && Run(safe, ops).Some?
    ensures var v := Run(safe, ops).value; var resume := Resume(portInstalled, portOk);
      && (v.state == Paused ==> Unfinished(v))
      && (Check(v, resume).None? <==> v.state == Paused && MayFlag(v, true, portInstalled, portOk))
      && Dispatch(v, resume) == if Check(v, resume).None? then Changed(v, Paused, Running) else v
  {
    HistoryKeepsBase(safe, ops);
    HistoryKeepsBusy(safe, ops);
    FlagAcceptedIff(Run(safe, ops).value, Paused, Running, portInstalled, portOk);
  }

  /** After any history a stop is accepted exactly if an emergency release succeeds and an installed port
      cancels a running legacy child. It leaves Stopping over an unfinished worker, Idle without one,
      and, refused without one, Stopping unless it was Idle. */
  lemma StopAcceptedIff(safe: bool, ops: seq<Op>, i: StopInput)
    requires StartupCrashes(ops) && Run(safe, ops).Some?
    ensures var v := Run(safe, ops).value; var t := Dispatch(v, Stop(i));
      && (Check(v, Stop(i)).None? <==>
            && (i.emergency ==> i.releaseOk)
            && (Unfinished(v) && i.portInstalled ==>
                  v.worker.value.kind.Legacy? || v.worker.value.kind.LegacySession? ==> i.cancelOk))
      && t.state == (if Unfinished(v) then Stopping
                     else if Check(v, Stop(i)).None? || v.state == Idle then Idle else Stopping)
      && t.(state := v.state, events := v.events, cancelled := v.cancelled) == v
  {
    HistoryKeepsBase(safe, ops);
  }

  /** A shutdown does what an emergency stop does, and needs the durable mark as well. */
  lemma ShutdownAcceptedIff(v: View, releaseOk: bool, portInstalled: bool, cancelOk: bool, storeOk: bool)
    ensures var shutdown := ShutdownDaemon(releaseOk, portInstalled, cancelOk, storeOk);
      var stop := Stop(StopInput(true, releaseOk, portInstalled, cancelOk));
      && Dispatch(v, shutdown) == Dispatch(v, stop)
      && (Check(v, shutdown).None? <==> Check(v, stop).None? && storeOk)
  {
  }

  /** After any history an acknowledgement is accepted exactly with something to acknowledge and a store
      that takes it; it leaves Idle out of safe mode, and a refused one changes nothing. */
  lemma AcknowledgeAcceptedIff(safe: bool, ops: seq<Op>, storeOk: bool)
    requires StartupCrashes(ops) && Run(safe, ops).Some?
    ensures var v := Run(safe, ops).value; var t := Dispatch(v, Acknowledge(storeOk));
      && (Check(v, Acknowledge(storeOk)).None? <==>
            storeOk && (v.safeMode || v.state == NeedsAttention || v.state == Faulted))
      && (if Check(v, Acknowledge(storeOk)).Some? then t == v
          else t.state == Idle && !t.safeMode && !Unfinished(t)
               && t.(state := v.state, safeMode := v.safeMode, events := v.events) == v)
  {
    HistoryKeepsBase(safe, ops);
  }

  /** A profile is selected or deleted exactly in Idle and when its own rules and the store agree, anything
      else is answered unless it is refused, and both only publish. */
  lemma OthersOnlyPublish(v: View, selects: bool, failure: Outcome)
    ensures var change, query := ChangeProfile(selects, failure), Query(failure);
      && (Check(v, change).None? <==> v.state == Idle && failure.None?)
      && (Check(v, query).None? <==> failure.None?)
      && Dispatch(v, change).(events := v.events) == v == Dispatch(v, query).(events := v.events)
      && |Dispatch(v, change).events| == |v.events| + (if Check(v, change).Some? then 0 else if selects then 2 else 1)
      && |Dispatch(v, query).events| == |v.events| + (if failure.Some? then 0 else 1)
  {
  }

  /** The reply tells the result: rejected exactly for an error, else accepted, and only an accepted
      shutdown is ready. */
  lemma ReplyTellsTheResult(v: View, c: Command)
    ensures var t := Dispatch(v, c); var bodies := Apply(v, Handle(c)).events[|t.events|..];
      && Apply(v, Handle(c)).events[..|t.events|] == t.events
      && (if Check(v, c).Some? then |bodies| == 1 && bodies[0].body == Rejected
          else |bodies| == (if c.ShutdownDaemon? then 2 else 1) && bodies[0].body == Accepted
               && (c.ShutdownDaemon? ==> bodies[1].body == ShutdownReady))
  {
  }

  /** Worker segments record what they have come to, and an exit gives everything back. */
  lemma WorkerRecords(safe: bool, ops: seq<Op>, final: RunState)
    requires StartupCrashes(ops) && Run(safe, ops).Some? && Unfinished(Run(safe, ops).value)
    ensures var v := Run(safe, ops).value;
      && (Enabled(v, PreflightPassed) ==> Apply(v, PreflightPassed).state == Running)
      && (Enabled(v, Recovered) ==> Apply(v, Recovered).state == Running)
      && (Enabled(v, Retrying) ==> Apply(v, Retrying).state == Recovering)
      && (Enabled(v, Finished(final)) ==>
            var t := Apply(v, Finished(final));
            t.state == final && !Unfinished(t) && t.permits == {} && t.token == t.sender == None)
  {
    HistoryKeepsBase(safe, ops);
  }

  /** Recording a crash enters safe mode exactly if the guard trips and the store takes it, tells so, and
      changes nothing else. */
  lemma CrashEntersSafeMode(v: View, tripped: bool, storeOk: bool)
    ensures var t := Apply(v, Crash(tripped, storeOk));
      && (t.safeMode <==> v.safeMode || (tripped && storeOk))
      && t.(safeMode := v.safeMode, events := v.events) == v
      && |t.events| == |v.events| + if tripped && storeOk then 1 else 0
  {
  }

  /** Scheduler keys keep runs of one profile apart unless they are the same kind or both legacy. */
  lemma KeysKeepKindsApart(a: Kind, b: Kind, p: nat, q: nat)
    ensures KeyFor(a, p) == KeyFor(b, q) <==>
      p == q && (a == b || ((a.Legacy? || a.LegacySession?) && (b.Legacy? || b.LegacySession?)))
  {
  }

  /** The state diagram: runs start from Idle, are paused from Running and fault from active states only;
      only Idle can not be stopped. */
  predicate Edge(a: RunState, b: RunState) {
    match b
    case Preflight => a == Idle
    case Paused => a == Running
    case Running => Active(a)
    case Recovering => Active(a)
    case NeedsAttention => Active(a)
    case Faulted => Active(a)
    case Stopping => a != Idle
    case Idle => true
  }

  predicate Drawn(events: seq<Event>) {
    forall e <- events :: e.body.StateChanged? ==> Edge(e.body.previous, e.body.current)
  }

  lemma CommandIsDrawn(v: View, c: Command)
    requires OwnerInv(v) && (Unfinished(v) ==> Active(v.state)) && Drawn(v.events)
    ensures Drawn(Dispatch(v, c).events)
  {
    if StopOf(c).Some? {
      StopIsDrawn(v, StopOf(c).value);
    } else if c.Start? {
      StartIsDrawn(v, c.start);
    }
  }

  lemma StopIsDrawn(v: View, i: StopInput)
    requires Drawn(v.events)
    ensures Drawn(StopDispatch(v, i).events)
  {
    assert Drawn(StopMarked(v).events);
  }

  lemma StartIsDrawn(v: View, i: StartInput)
    requires Drawn(v.events)
    ensures Drawn(StartDispatch(v, i).events)
  {
  }

  lemma ApplyIsDrawn(v: View, op: Op)
    requires OwnerInv(v) && (Unfinished(v) ==> Active(v.state)) && Drawn(v.events) && Enabled(v, op)
    ensures Drawn(Apply(v, op).events)
  {
    if op.Handle? {
      CommandIsDrawn(v, op.command);
    }
  }

  /** Every published state change is an edge of the diagram. */
  lemma {:induction false} ChangesFollowTheDiagram(safe: bool, ops: seq<Op>)
    requires StartupCrashes(ops) && Run(safe, ops).Some?
    ensures Drawn(Run(safe, ops).value.events)
  {
    if ops != [] {
      var init := ops[..|ops| - 1];
      ChangesFollowTheDiagram(safe, init);
      HistoryKeepsBase(safe, init);
      ApplyIsDrawn(Run(safe, init).value, ops[|ops| - 1]);
    }
  }

  /** A stop reaches the run it is meant for: the unfinished worker's token is cancelled,
      and a legacy child is cancelled exactly when that worker is a legacy one. */
  lemma StopReachesTheWorker(safe: bool, ops: seq<Op>, i: StopInput)
    requires StartupCrashes(ops) && Run(safe, ops).Some?
    ensures var v := Run(safe, ops).value; var t := Dispatch(v, Stop(i));
      && (Unfinished(v) ==> t.cancelled == v.cancelled + {v.worker.value.run} && t.state == Stopping)
      && (!Unfinished(v) ==> t.cancelled == v.cancelled)
      && (LegacyRunning(v) <==> Unfinished(v) && IsLegacy(v.worker.value.kind))
  {
    HistoryKeepsBase(safe, ops);
  }

  /** A subscriber that replays the state changes in their contiguous sequence order
      reproduces the state after every prefix of the log. */
  lemma ReplayReproducesState(safe: bool, ops: seq<Op>, i: nat)
    requires StartupCrashes(ops) && Run(safe, ops).Some? && i < |Run(safe, ops).value.events|
    ensures var v := Run(safe, ops).value;
      && Replay(v.events) == v.state
      && v.events[i].sequence == i + 1
      && (v.events[i].body.StateChanged? ==>
            v.events[i].body.previous == Replay(v.events[..i])
            && v.events[i].body.current == Replay(v.events[..i + 1])
            && v.events[i].body.previous != v.events[i].body.current)
  {
    HistoryKeepsBase(safe, ops);
    LoggedAt(Run(safe, ops).value.events, i);
  }

  lemma {:induction false} LoggedAt(events: seq<Event>, i: nat)
    requires Logged(events) && i < |events|
    ensures events[i].sequence == i + 1
    ensures events[i].body.StateChanged? ==>
      && events[i].body.previous == Replay(events[..i]) != events[i].body.current
      && events[i].body.current == Replay(events[..i + 1])
  {
    var init := events[..|events| - 1];
    if i < |init| {
      LoggedAt(init, i);
      assert init[..i] == events[..i] && init[..i + 1] == events[..i + 1];
    } else {
      assert events[..i + 1] == events;
    }
  }
}
