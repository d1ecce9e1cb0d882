/**
 The engine as a fine-grained concurrent protocol.

 Every start, stop, pause, resume or acknowledge command and every spawned
 worker is an actor with its own program counter. One `Step` is one access to
 the shared engine fields, so that any two accesses of two actors may be
 interleaved. The session-level claims about the run state need handlers to be
 atomic (module `Engine`); the claims about who owns a cancellation token, a
 pause channel or a scheduler permit do not, and are proved here, together with
 the exact steps by which interleaved handlers make the run state wrong.
 */
module EngineTokens {
  import opened Wrappers
  import opened EngineTypes

  /** Identifies a run: its worker, its cancellation token and its pause channel. */
  type Run = nat
  type HandlerId = nat

  datatype Handler =
    // Start commands, in program order.
    | Asked(key: TaskKey)
    | Checked(key: TaskKey)
    | Permitted(key: TaskKey)
    | Locked(key: TaskKey)
    | Rejected(key: TaskKey)
    | Cleared(key: TaskKey, run: Run)
    | TokenStored(key: TaskKey, run: Run)
    | SenderStored(key: TaskKey, run: Run)
    | Announced(key: TaskKey, run: Run)
    | Spawned(run: Run)
    // The other commands.
    | Stop(stop: StopPoint)
    | Flag(flag: FlagPoint)
    | Ack(ack: AckPoint)

  datatype StopPoint =
    | StopCancel(emergency: bool)
    | StopRead(emergency: bool)
    | StopMark(emergency: bool)
    | StopRelease(emergency: bool)
    | StopPort
    | StopCheck
    | StopIdle

  /** Pause (value true) and resume (value false) commands. */
  datatype FlagPoint =
    | FlagClone(value: bool)
    | FlagSend(value: bool, channel: Run)
    | FlagWrite(value: bool)

  /** Acknowledgements, with the state they saw first. */
  datatype AckPoint =
    | AckRead(seen: RunState)
    | AckStore(seen: RunState)
    | AckClear(seen: RunState)
    | AckWrite

  /** `run_*worker` is `Working`; the rest is `finish_worker` and the worker's exit. */
  datatype Phase = Working | ClearToken | ClearSender | WriteState | DropPermit | Exit | Finished

  datatype Worker = Worker(key: TaskKey, phase: Phase, final: RunState)

  datatype Sys = Sys(
    state: RunState,
    safeMode: bool,
    cancellation: Option<Run>,
    pauseSender: Option<Run>,
    slot: Option<Run>,
    lock: Option<HandlerId>,
    permits: set<TaskKey>,
    cancelled: set<Run>,
    pausedChannels: set<Run>,
    handlers: map<HandlerId, Handler>,
    workers: map<Run, Worker>,
    nextRun: Run)

  datatype Step =
    | BeginStart(h: HandlerId, key: TaskKey)
    | BeginStop(h: HandlerId, emergency: bool)
    | BeginFlag(h: HandlerId, value: bool)
    | BeginAck(h: HandlerId)
    | EnterSafeMode
    | Advance(h: HandlerId, portOk: bool)
    | Work(run: Run, next: RunState)
    | BeginFinish(run: Run, final: RunState)
    | Finish(run: Run)

  const INIT: Sys := Sys(Idle, false, None, None, None, None, {}, {}, {}, map[], map[], 0)

  /** A worker is unfinished until its task has returned, which is after it dropped its permit. */
  predicate Live(s: Sys, r: Run) {
    r in s.workers && s.workers[r].phase != Finished
  }

  function Leave(s: Sys, h: HandlerId): Sys {
    s.(handlers := s.handlers - {h})
  }

  function At(s: Sys, h: HandlerId, pc: Handler): Sys {
    s.(handlers := s.handlers[h := pc])
  }

  predicate OutsideSection(pc: Handler) {
    pc.Asked? || pc.Checked? || pc.Rejected?
  }

  /** One access of a start command outside the worker-lock critical section. */
  function AdvancePermit(s: Sys, h: HandlerId): Sys
    requires h in s.handlers && OutsideSection(s.handlers[h])
  {
    match s.handlers[h]
    case Asked(key) => if s.state != Idle then Leave(s, h) else At(s, h, Checked(key))
    case Checked(key) =>
      if key in s.permits then Leave(s, h) else At(s, h, Permitted(key)).(permits := s.permits + {key})
    case Rejected(key) => Leave(s, h).(permits := s.permits - {key})
  }

  /** One access of a start command that takes or holds the worker lock. */
  function AdvanceInstall(s: Sys, h: HandlerId): Option<Sys>
    requires h in s.handlers && (s.handlers[h].Permitted? || HoldsLock(s.handlers[h]))
  {
    match s.handlers[h]
    case Permitted(key) =>
      if s.lock.Some? then None else Some(At(s, h, Locked(key)).(lock := Some(h)))
    case Locked(key) =>
      if s.slot.Some? && Live(s, s.slot.value)
      then Some(At(s, h, Rejected(key)).(lock := None))
      else Some(At(s, h, Cleared(key, s.nextRun)).(slot := None, nextRun := s.nextRun + 1))
    case Cleared(key, r) => Some(At(s, h, TokenStored(key, r)).(cancellation := Some(r)))
    case TokenStored(key, r) => Some(At(s, h, SenderStored(key, r)).(pauseSender := Some(r)))
    case SenderStored(key, r) => Some(At(s, h, Announced(key, r)).(state := Preflight))
    case Announced(key, r) =>
      Some(At(s, h, Spawned(r)).(workers := s.workers[r := Worker(key, Working, Idle)]))
    case Spawned(r) => Some(Leave(s, h).(slot := Some(r), lock := None))
  }

  /** Handler `h` goes on to `next`, or is done. */
  function Go(s: Sys, h: HandlerId, next: Option<Handler>): Sys {
    if next.Some? then At(s, h, next.value) else Leave(s, h)
  }

  /** One access of a stop command, and where it goes on; `portOk` is the answer of the release
      call and of the legacy cancel. */
  function StopAccess(s: Sys, at: StopPoint, portOk: bool): (Sys, Option<StopPoint>) {
    match at
    case StopCancel(e) =>
      (s.(cancelled := if s.cancellation.Some? then s.cancelled + {s.cancellation.value} else s.cancelled),
       Some(StopRead(e)))
    case StopRead(e) => (s, Some(if s.state != Idle then StopMark(e) else StopRelease(e)))
    case StopMark(e) => (s.(state := Stopping), Some(StopRelease(e)))
    case StopRelease(e) => (s, if e && !portOk then None else Some(StopPort))
    case StopPort => (s, if !portOk then None else Some(StopCheck))
    case StopCheck => (s, if s.cancellation.None? then Some(StopIdle) else None)
    case StopIdle => (s.(state := Idle), None)
  }

  function AdvanceStop(s: Sys, h: HandlerId, portOk: bool): Sys
    requires h in s.handlers && s.handlers[h].Stop?
  {
    var (t, next) := StopAccess(s, s.handlers[h].stop, portOk);
    Go(t, h, if next.Some? then Some(Stop(next.value)) else None)
  }

  /** One access of a pause or resume command, and where it goes on; `portOk` is the answer of the
      legacy port. */
  function FlagAccess(s: Sys, at: FlagPoint, portOk: bool): (Sys, Option<FlagPoint>) {
    match at
    case FlagClone(v) =>
      (s, if !portOk || s.pauseSender.None? then None else Some(FlagSend(v, s.pauseSender.value)))
    case FlagSend(v, r) =>
      // A watch sender fails once the worker has dropped its receiver, at the latest when it returns.
      if r in s.workers && (s.workers[r].phase == Finished || !portOk) then (s, None)
      else (s.(pausedChannels := if v then s.pausedChannels + {r} else s.pausedChannels - {r}), Some(FlagWrite(v)))
    case FlagWrite(v) => (s.(state := if v then Paused else Running), None)
  }

  function AdvanceFlag(s: Sys, h: HandlerId, portOk: bool): Sys
    requires h in s.handlers && s.handlers[h].Flag?
  {
    var (t, next) := FlagAccess(s, s.handlers[h].flag, portOk);
    Go(t, h, if next.Some? then Some(Flag(next.value)) else None)
  }

  /** One access of an acknowledgement after its first read of the state, and where it goes on;
      `storeOk` is the answer of the store. What it writes in the end depends on that first read. */
  function AckAccess(s: Sys, at: AckPoint, storeOk: bool): (Sys, Option<AckPoint>) {
    match at
    case AckRead(seen) => (s, if !s.safeMode && seen !in {NeedsAttention, Faulted} then None else Some(AckStore(seen)))
    case AckStore(seen) => (s, if !storeOk then None else Some(AckClear(seen)))
    case AckClear(seen) => (s.(safeMode := false), if seen == Idle then None else Some(AckWrite))
    case AckWrite => (s.(state := Idle), None)
  }

  function AdvanceAck(s: Sys, h: HandlerId, storeOk: bool): Sys
    requires h in s.handlers && s.handlers[h].Ack?
  {
    var (t, next) := AckAccess(s, s.handlers[h].ack, storeOk);
    Go(t, h, if next.Some? then Some(Ack(next.value)) else None)
  }

  function AdvanceHandler(s: Sys, h: HandlerId, portOk: bool): Option<Sys>
    requires h in s.handlers
  {
    var pc := s.handlers[h];
    if pc.Stop? then Some(AdvanceStop(s, h, portOk))
    else if pc.Flag? then Some(AdvanceFlag(s, h, portOk))
    else if pc.Ack? then Some(AdvanceAck(s, h, portOk))
    else if OutsideSection(pc) then Some(AdvancePermit(s, h))
    else AdvanceInstall(s, h)
  }

  function SetPhase(s: Sys, r: Run, p: Phase): Sys
    requires r in s.workers
  {
    s.(workers := s.workers[r := s.workers[r].(phase := p)])
  }

  function FinishStep(s: Sys, r: Run): Option<Sys>
    requires r in s.workers
  {
    match s.workers[r].phase
    case Working => None
    case ClearToken => Some(SetPhase(s, r, ClearSender).(cancellation := None))
    case ClearSender => Some(SetPhase(s, r, WriteState).(pauseSender := None))
    case WriteState => Some(SetPhase(s, r, DropPermit).(state := s.workers[r].final))
    case DropPermit => Some(SetPhase(s, r, Exit).(permits := s.permits - {s.workers[r].key}))
    case Exit => Some(SetPhase(s, r, Finished))
    case Finished => None
  }

  /** The effect of one step, or `None` when the step is not enabled. */
  function Next(s: Sys, step: Step): Option<Sys> {
    match step
    case BeginStart(h, key) =>
      if h in s.handlers || s.safeMode then None else Some(At(s, h, Asked(key)))
    case BeginStop(h, e) =>
      if h in s.handlers then None else Some(At(s, h, Stop(StopCancel(e))))
    case BeginFlag(h, v) =>
      if h in s.handlers || s.state != (if v then Running else Paused) then None
      else Some(At(s, h, Flag(FlagClone(v))))
    case BeginAck(h) =>
      if h in s.handlers then None else Some(At(s, h, Ack(AckRead(s.state))))
    // The daemon loads a stored safe mode, or its crash guard trips.
    case EnterSafeMode => Some(s.(safeMode := true))
    case Advance(h, ok) => if h in s.handlers then AdvanceHandler(s, h, ok) else None
    case Work(r, next) =>
      if r in s.workers && s.workers[r].phase == Working && next in {Running, Recovering}
      then Some(s.(state := next)) else None
    case BeginFinish(r, final) =>
      if r in s.workers && s.workers[r].phase == Working && final in {Idle, Faulted, NeedsAttention}
      then Some(s.(workers := s.workers[r := s.workers[r].(phase := ClearToken, final := final)])) else None
    case Finish(r) => if r in s.workers then FinishStep(s, r) else None
  }

  /** The system after a whole interleaving, or `None` when some step was not enabled. */
  function Exec(steps: seq<Step>): Option<Sys> {
    if steps == [] then Some(INIT)
    else
      var before := Exec(steps[..|steps| - 1]);
      if before.None? then None else Next(before.value, steps[|steps| - 1])
  }

  // ---- Ownership ----

  predicate HoldsLock(pc: Handler) {
    pc.Locked? || Installing(pc) || pc.Spawned?
  }

  /** Past the finished-worker check and not yet spawned. */
  predicate Installing(pc: Handler) {
    pc.Cleared? || pc.TokenStored? || pc.SenderStored? || pc.Announced?
  }

  predicate HandlerHoldsPermit(pc: Handler) {
    pc.Permitted? || pc.Locked? || pc.Rejected? || Installing(pc)
  }

  /** The handler inside the worker-lock critical section, if any. */
  function Holder(s: Sys): Option<Handler> {
    if s.lock.Some? && s.lock.value in s.handlers then Some(s.handlers[s.lock.value]) else None
  }

  /** A start command inside the critical section has created run `r` but not its worker. */
  predicate BeingInstalled(s: Sys, r: Run) {
    Holder(s).Some? && Installing(Holder(s).value) && Holder(s).value.run == r
  }

  /** The run whose worker the shared handle stands for, or is about to. */
  function Current(s: Sys): Option<Run> {
    if Holder(s).Some? && Holder(s).value.Spawned? then Some(Holder(s).value.run) else s.slot
  }

  function Owner(s: Sys, installing: bool, phases: set<Phase>): Option<Run> {
    if installing && Holder(s).Some? && Installing(Holder(s).value) then Some(Holder(s).value.run)
    else if Current(s).Some? && Current(s).value in s.workers && s.workers[Current(s).value].phase in phases
    then Current(s)
    else None
  }

  /** The only run whose token may be stored: the run being installed or the unfinished one. */
  function TokenOwner(s: Sys): Option<Run> {
    Owner(s, Holder(s).Some? && !Holder(s).value.Cleared?, {Working, ClearToken})
  }

  function SenderOwner(s: Sys): Option<Run> {
    Owner(s, Holder(s).Some? && (Holder(s).value.SenderStored? || Holder(s).value.Announced?),
          {Working, ClearToken, ClearSender})
  }

  ghost predicate LockInv(s: Sys) {
    && (forall h <- s.handlers :: HoldsLock(s.handlers[h]) ==> s.lock == Some(h))
    && (s.lock.Some? ==> Holder(s).Some? && HoldsLock(Holder(s).value))
  }

  ghost predicate WorkerInv(s: Sys) {
    && (forall r <- s.workers :: r < s.nextRun && (Live(s, r) ==> Current(s) == Some(r)))
    && (Current(s).Some? ==> Current(s).value in s.workers)
    && (Holder(s).Some? && (Installing(Holder(s).value) || Holder(s).value.Spawned?) ==> s.slot == None)
    && (Holder(s).Some? && Installing(Holder(s).value) ==>
          Holder(s).value.run < s.nextRun && Holder(s).value.run !in s.workers)
  }

  ghost predicate TokenInv(s: Sys) {
    && s.cancellation == TokenOwner(s)
    && s.pauseSender == SenderOwner(s)
    && (forall r <- s.cancelled :: r < s.nextRun)
    && (Holder(s).Some? && Holder(s).value.Cleared? ==> Holder(s).value.run !in s.cancelled)
  }

  datatype Actor = OfHandler(h: HandlerId) | OfWorker(r: Run)

  predicate HoldsPermit(s: Sys, r: Run) {
    Live(s, r) && s.workers[r].phase != Exit
  }

  /** The scheduler permit an actor owns. */
  function Permit(s: Sys, a: Actor): Option<TaskKey> {
    match a
    case OfHandler(h) =>
      if h in s.handlers && HandlerHoldsPermit(s.handlers[h]) then Some(s.handlers[h].key) else None
    case OfWorker(r) => if HoldsPermit(s, r) then Some(s.workers[r].key) else None
  }

  /** The active set is exactly the permits owned by actors, each by one actor only. */
  ghost predicate PermitInv(s: Sys) {
    && (forall k <- s.permits :: exists a :: Permit(s, a) == Some(k))
    && (forall a :: Permit(s, a).Some? ==> Permit(s, a).value in s.permits)
    && (forall a, b :: Permit(s, a).Some? && Permit(s, a) == Permit(s, b) ==> a == b)
  }

  ghost predicate CoreInv(s: Sys) {
    LockInv(s) && WorkerInv(s) && TokenInv(s)
  }

  ghost predicate Inv(s: Sys) {
    CoreInv(s) && PermitInv(s)
  }

  /** A step that leaves the worker fields and the lock holder alone. */
  ghost predicate OutsideLock(s: Sys, t: Sys) {
    && Holder(t) == Holder(s)
    && (t.lock, t.slot, t.cancellation) == (s.lock, s.slot, s.cancellation)
    && (t.pauseSender, t.workers, t.nextRun) == (s.pauseSender, s.workers, s.nextRun)
    && (t.cancelled == s.cancelled
        || (s.cancellation.Some? && t.cancelled == s.cancelled + {s.cancellation.value}))
    && forall h <- t.handlers :: HoldsLock(t.handlers[h]) ==> h in s.handlers && t.handlers[h] == s.handlers[h]
  }

  lemma SameCore(s: Sys, t: Sys)
    requires CoreInv(s) && OutsideLock(s, t)
    ensures CoreInv(t)
  {
  }

  /** Only handler `h`, which is and stays outside the critical section, moves or leaves. */
  ghost predicate Moves(s: Sys, t: Sys, h: HandlerId) {
    && (h in s.handlers ==> !HoldsLock(s.handlers[h])) && (h in t.handlers ==> !HoldsLock(t.handlers[h]))
    && t.handlers == (if h in t.handlers then s.handlers[h := t.handlers[h]] else s.handlers - {h})
    && (t.lock, t.slot, t.cancellation) == (s.lock, s.slot, s.cancellation)
    && (t.pauseSender, t.workers, t.nextRun) == (s.pauseSender, s.workers, s.nextRun)
  }

  lemma MoveIsOutside(s: Sys, t: Sys, h: HandlerId)
    requires LockInv(s) && Moves(s, t, h)
    requires t.cancelled == s.cancelled
      || (s.cancellation.Some? && t.cancelled == s.cancelled + {s.cancellation.value})
    ensures OutsideLock(s, t)
  {
    assert Holder(t) == Holder(s);
  }

  lemma BeginIsOutside(s: Sys, step: Step)
    requires LockInv(s) && Next(s, step).Some? && !step.Advance? && !step.BeginFinish? && !step.Finish?
    ensures OutsideLock(s, Next(s, step).value)
  {
    if step.BeginStart? || step.BeginStop? || step.BeginFlag? || step.BeginAck? {
      MoveIsOutside(s, Next(s, step).value, step.h);
    } else {
      assert Holder(Next(s, step).value) == Holder(s);
    }
  }

  lemma StopIsOutside(s: Sys, h: HandlerId, ok: bool)
    requires LockInv(s) && h in s.handlers && s.handlers[h].Stop?
    ensures OutsideLock(s, AdvanceStop(s, h, ok))
  {
    MoveIsOutside(s, AdvanceStop(s, h, ok), h);
  }

  lemma FlagIsOutside(s: Sys, h: HandlerId, ok: bool)
    requires LockInv(s) && h in s.handlers && s.handlers[h].Flag?
    ensures OutsideLock(s, AdvanceFlag(s, h, ok))
  {
    MoveIsOutside(s, AdvanceFlag(s, h, ok), h);
  }

  lemma AckIsOutside(s: Sys, h: HandlerId, ok: bool)
    requires LockInv(s) && h in s.handlers && s.handlers[h].Ack?
    ensures OutsideLock(s, AdvanceAck(s, h, ok))
  {
    MoveIsOutside(s, AdvanceAck(s, h, ok), h);
  }

  lemma PermitIsOutside(s: Sys, h: HandlerId)
    requires LockInv(s) && h in s.handlers && OutsideSection(s.handlers[h])
    ensures OutsideLock(s, AdvancePermit(s, h))
  {
    MoveIsOutside(s, AdvancePermit(s, h), h);
  }

  lemma ClearTokenKeepsCore(s: Sys, r: Run)
    requires CoreInv(s) && r in s.workers && s.workers[r].phase == ClearToken
    ensures CoreInv(FinishStep(s, r).value)
  {
    assert Holder(FinishStep(s, r).value) == Holder(s) && Current(s) == Some(r);
  }

  lemma ClearSenderKeepsCore(s: Sys, r: Run)
    requires CoreInv(s) && r in s.workers && s.workers[r].phase == ClearSender
    ensures CoreInv(FinishStep(s, r).value)
  {
    assert Holder(FinishStep(s, r).value) == Holder(s) && Current(s) == Some(r);
  }

  lemma LateFinishKeepsCore(s: Sys, r: Run)
    requires CoreInv(s) && r in s.workers
    requires s.workers[r].phase == WriteState || s.workers[r].phase == DropPermit || s.workers[r].phase == Exit
    ensures CoreInv(FinishStep(s, r).value)
  {
    assert Holder(FinishStep(s, r).value) == Holder(s) && Current(s) == Some(r);
  }

  lemma FinishKeepsCore(s: Sys, r: Run)
    requires CoreInv(s) && r in s.workers && FinishStep(s, r).Some?
    ensures CoreInv(FinishStep(s, r).value)
  {
    match s.workers[r].phase
    case ClearToken => ClearTokenKeepsCore(s, r);
    case ClearSender => ClearSenderKeepsCore(s, r);
    case _ => LateFinishKeepsCore(s, r);
  }

  lemma BeginFinishKeepsCore(s: Sys, r: Run, final: RunState)
    requires CoreInv(s) && Next(s, BeginFinish(r, final)).Some?
    ensures CoreInv(Next(s, BeginFinish(r, final)).value)
  {
    assert Holder(Next(s, BeginFinish(r, final)).value) == Holder(s) && Current(s) == Some(r);
  }

  lemma LockKeepsCore(s: Sys, h: HandlerId)
    requires CoreInv(s) && h in s.handlers && (s.handlers[h].Permitted? || s.handlers[h].Locked?)
    requires AdvanceInstall(s, h).Some?
    ensures CoreInv(AdvanceInstall(s, h).value)
  {
    assert s.handlers[h].Locked? ==> Holder(s) == Some(s.handlers[h]);
  }

  lemma InstallKeepsCore(s: Sys, h: HandlerId)
    requires CoreInv(s) && h in s.handlers && (Installing(s.handlers[h]) || s.handlers[h].Spawned?)
    ensures CoreInv(AdvanceInstall(s, h).value)
  {
    assert Holder(s) == Some(s.handlers[h]);
  }

  lemma HandlerKeepsCore(s: Sys, h: HandlerId, ok: bool)
    requires CoreInv(s) && h in s.handlers && AdvanceHandler(s, h, ok).Some?
    ensures CoreInv(AdvanceHandler(s, h, ok).value)
  {
    if s.handlers[h].Stop? {
      StopIsOutside(s, h, ok);
      SameCore(s, AdvanceStop(s, h, ok));
    } else if s.handlers[h].Flag? {
      FlagIsOutside(s, h, ok);
      SameCore(s, AdvanceFlag(s, h, ok));
    } else if s.handlers[h].Ack? {
      AckIsOutside(s, h, ok);
      SameCore(s, AdvanceAck(s, h, ok));
    } else if OutsideSection(s.handlers[h]) {
      PermitIsOutside(s, h);
      SameCore(s, AdvancePermit(s, h));
    } else if s.handlers[h].Permitted? || s.handlers[h].Locked? {
      LockKeepsCore(s, h);
    } else {
      InstallKeepsCore(s, h);
    }
  }

  lemma StepKeepsCore(s: Sys, step: Step)
    requires CoreInv(s) && Next(s, step).Some?
    ensures CoreInv(Next(s, step).value)
  {
    match step
    case Advance(h, ok) => HandlerKeepsCore(s, h, ok);
    case BeginFinish(r, final) => BeginFinishKeepsCore(s, r, final);
    case Finish(r) => FinishKeepsCore(s, r);
    case _ =>
      BeginIsOutside(s, step);
      SameCore(s, Next(s, step).value);
  }

  /** The three things a step can do to permits: nothing, or gain, lose or hand over one. */
  lemma PermitMoves(s: Sys, t: Sys, from: Option<Actor>, to: Option<Actor>)
    requires PermitInv(s)
    requires from.Some? ==> Permit(s, from.value).Some?
    requires to.Some? ==> Permit(t, to.value).Some? && Permit(s, to.value).None?
    requires from.Some? && to.Some? ==> Permit(t, to.value) == Permit(s, from.value)
    requires from.Some? && from != to ==> Permit(t, from.value).None?
    requires forall a | Some(a) != from && Some(a) != to :: Permit(t, a) == Permit(s, a)
    requires t.permits == if from.Some? && to.None? then s.permits - {Permit(s, from.value).value}
                          else if to.Some? && from.None? then s.permits + {Permit(t, to.value).value}
                          else s.permits
    requires to.Some? && from.None? ==> Permit(t, to.value).value !in s.permits
    ensures PermitInv(t)
  {
    forall k | k in t.permits
      ensures exists a :: Permit(t, a) == Some(k)
    {
      if k in s.permits {
        var a :| Permit(s, a) == Some(k);
        assert Permit(t, if Some(a) == from then to.value else a) == Some(k);
      } else {
        assert Permit(t, to.value) == Some(k);
      }
    }
  }

  lemma FinishKeepsPermits(s: Sys, r: Run)
    requires CoreInv(s) && PermitInv(s) && r in s.workers && FinishStep(s, r).Some?
    ensures PermitInv(FinishStep(s, r).value)
  {
    if s.workers[r].phase == DropPermit {
      DropKeepsPermits(s, r);
    } else {
      PermitMoves(s, FinishStep(s, r).value, None, None);
    }
  }

  lemma DropKeepsPermits(s: Sys, r: Run)
    requires PermitInv(s) && r in s.workers && s.workers[r].phase == DropPermit
    ensures PermitInv(FinishStep(s, r).value)
  {
    PermitMoves(s, FinishStep(s, r).value, Some(OfWorker(r)), None);
  }

  lemma BeginKeepsPermits(s: Sys, step: Step)
    requires PermitInv(s) && Next(s, step).Some? && !step.Advance? && !step.Finish?
    ensures PermitInv(Next(s, step).value)
  {
    PermitMoves(s, Next(s, step).value, None, None);
  }

  lemma StepKeepsPermits(s: Sys, step: Step)
    requires CoreInv(s) && PermitInv(s) && Next(s, step).Some?
    ensures PermitInv(Next(s, step).value)
  {
    match step
    case Advance(h, ok) => AdvanceKeepsPermits(s, h, ok);
    case Finish(r) => FinishKeepsPermits(s, r);
    case _ => BeginKeepsPermits(s, step);
  }

  lemma AdvanceKeepsPermits(s: Sys, h: HandlerId, ok: bool)
    requires CoreInv(s) && PermitInv(s) && h in s.handlers && AdvanceHandler(s, h, ok).Some?
    ensures PermitInv(AdvanceHandler(s, h, ok).value)
  {
    var pc := s.handlers[h];
    if pc.Stop? {
      StopKeepsPermits(s, h, ok);
    } else if pc.Flag? {
      FlagKeepsPermits(s, h, ok);
    } else if pc.Ack? {
      AckKeepsPermits(s, h, ok);
    } else if OutsideSection(pc) {
      SectionKeepsPermits(s, h);
    } else {
      InstallKeepsPermits(s, h);
    }
  }

  lemma SectionKeepsPermits(s: Sys, h: HandlerId)
    requires PermitInv(s) && h in s.handlers && OutsideSection(s.handlers[h])
    ensures PermitInv(AdvancePermit(s, h))
  {
    var t := AdvancePermit(s, h);
    match s.handlers[h]
    case Asked(_) => PermitMoves(s, t, None, None);
    case Checked(key) => PermitMoves(s, t, None, if key in s.permits then None else Some(OfHandler(h)));
    case Rejected(_) => PermitMoves(s, t, Some(OfHandler(h)), None);
  }

  lemma StopKeepsPermits(s: Sys, h: HandlerId, ok: bool)
    requires PermitInv(s) && h in s.handlers && s.handlers[h].Stop?
    ensures PermitInv(AdvanceStop(s, h, ok))
  {
    PermitMoves(s, AdvanceStop(s, h, ok), None, None);
  }

  lemma FlagKeepsPermits(s: Sys, h: HandlerId, ok: bool)
    requires PermitInv(s) && h in s.handlers && s.handlers[h].Flag?
    ensures PermitInv(AdvanceFlag(s, h, ok))
  {
    PermitMoves(s, AdvanceFlag(s, h, ok), None, None);
  }

  lemma AckKeepsPermits(s: Sys, h: HandlerId, ok: bool)
    requires PermitInv(s) && h in s.handlers && s.handlers[h].Ack?
    ensures PermitInv(AdvanceAck(s, h, ok))
  {
    PermitMoves(s, AdvanceAck(s, h, ok), None, None);
  }

  lemma InstallKeepsPermits(s: Sys, h: HandlerId)
    requires CoreInv(s) && PermitInv(s) && h in s.handlers
    requires (s.handlers[h].Permitted? || HoldsLock(s.handlers[h])) && AdvanceInstall(s, h).Some?
    ensures PermitInv(AdvanceInstall(s, h).value)
  {
    if s.handlers[h].Announced? {
      SpawnKeepsPermits(s, h);
    } else {
      PermitMoves(s, AdvanceInstall(s, h).value, None, None);
    }
  }

  /** Spawning hands the start command's permit to the worker. */
  lemma SpawnKeepsPermits(s: Sys, h: HandlerId)
    requires CoreInv(s) && PermitInv(s) && h in s.handlers && s.handlers[h].Announced?
    ensures PermitInv(AdvanceInstall(s, h).value)
  {
    assert Holder(s) == Some(s.handlers[h]);
    PermitMoves(s, AdvanceInstall(s, h).value, Some(OfHandler(h)), Some(OfWorker(s.handlers[h].run)));
  }

  // ---- What holds over every interleaving ----

  lemma StepKeepsInv(s: Sys, step: Step)
    requires Inv(s) && Next(s, step).Some?
    ensures Inv(Next(s, step).value)
  {
    StepKeepsCore(s, step);
    StepKeepsPermits(s, step);
  }

  lemma {:induction false} RunKeepsInv(steps: seq<Step>)
    requires Exec(steps).Some?
    ensures Inv(Exec(steps).value)
  {
    if steps != [] {
      RunKeepsInv(steps[..|steps| - 1]);
      StepKeepsInv(Exec(steps[..|steps| - 1]).value, steps[|steps| - 1]);
    }
  }

  /** At most one spawned worker is unfinished, in every interleaving. */
  lemma AtMostOneWorker(steps: seq<Step>, r: Run, q: Run)
    requires Exec(steps).Some? && Live(Exec(steps).value, r) && Live(Exec(steps).value, q)
    ensures r == q
  {
    RunKeepsInv(steps);
  }

  /** A stored cancellation token belongs to the unfinished worker, or to the run whose
      start command holds the worker lock and has not spawned it yet. */
  lemma StoredTokenHasAnOwner(steps: seq<Step>, r: Run)
    requires Exec(steps).Some? && Exec(steps).value.cancellation == Some(r)
    ensures Live(Exec(steps).value, r) || BeingInstalled(Exec(steps).value, r)
  {
    RunKeepsInv(steps);
  }

  /** Until it reaches its own clearing step, a worker's token is the stored one: a
      stop can always reach it. */
  lemma WorkingTokenIsStored(steps: seq<Step>, r: Run)
    requires Exec(steps).Some? && r in Exec(steps).value.workers
    requires Exec(steps).value.workers[r].phase in {Working, ClearToken}
    ensures Exec(steps).value.cancellation == Some(r)
  {
    RunKeepsInv(steps);
  }

  /** A stored token leaves the slot only by its own run's clearing step: no finishing
      worker clears a successor's token and no start command overwrites one. */
  lemma OnlyTheOwnerClearsItsToken(steps: seq<Step>, step: Step, r: Run)
    requires Exec(steps).Some? && Next(Exec(steps).value, step).Some?
    requires Exec(steps).value.cancellation == Some(r)
    requires Next(Exec(steps).value, step).value.cancellation != Some(r)
    ensures step == Finish(r) && Exec(steps).value.workers[r].phase == ClearToken
    ensures Next(Exec(steps).value, step).value.cancellation == None
  {
    RunKeepsInv(steps);
    SlotChange(Exec(steps).value, step);
  }

  lemma OnlyTheOwnerClearsItsSender(steps: seq<Step>, step: Step, r: Run)
    requires Exec(steps).Some? && Next(Exec(steps).value, step).Some?
    requires Exec(steps).value.pauseSender == Some(r)
    requires Next(Exec(steps).value, step).value.pauseSender != Some(r)
    ensures step == Finish(r) && Exec(steps).value.workers[r].phase == ClearSender
    ensures Next(Exec(steps).value, step).value.pauseSender == None
  {
    RunKeepsInv(steps);
    SlotChange(Exec(steps).value, step);
  }

  /** A token becomes cancelled only by a stop, only while it is the stored one, and
      then its run is unfinished or being installed; every other token is untouched. */
  lemma StopCancelsOnlyTheCurrentRun(steps: seq<Step>, step: Step, r: Run)
    requires Exec(steps).Some? && Next(Exec(steps).value, step).Some?
    requires r !in Exec(steps).value.cancelled
    requires r in Next(Exec(steps).value, step).value.cancelled
    ensures var s := Exec(steps).value;
      && step.Advance? && Cancels(s.handlers[step.h])
      && s.cancellation == Some(r) && s.cancelled + {r} == Next(s, step).value.cancelled
      && (Live(s, r) || BeingInstalled(s, r))
  {
    RunKeepsInv(steps);
    SlotChange(Exec(steps).value, step);
  }

  predicate Cancels(pc: Handler) {
    pc.Stop? && pc.stop.StopCancel?
  }

  /** Which steps can touch the shared token, sender and cancelled set, and how. */
  predicate SlotsChangeBy(s: Sys, step: Step, t: Sys)
    requires (step.Finish? ==> step.run in s.workers) && (step.Advance? ==> step.h in s.handlers)
  {
    && (t.cancellation != s.cancellation ==>
          || (step.Finish? && s.workers[step.run].phase == ClearToken && t.cancellation == None)
          || (step.Advance? && s.handlers[step.h].Cleared?))
    && (t.pauseSender != s.pauseSender ==>
          || (step.Finish? && s.workers[step.run].phase == ClearSender && t.pauseSender == None)
          || (step.Advance? && s.handlers[step.h].TokenStored?))
    && (t.cancelled != s.cancelled ==>
          step.Advance? && Cancels(s.handlers[step.h]) && s.cancellation.Some?
          && t.cancelled == s.cancelled + {s.cancellation.value})
  }

  lemma HandlerSlots(s: Sys, h: HandlerId, ok: bool)
    requires h in s.handlers && AdvanceHandler(s, h, ok).Some?
    ensures SlotsChangeBy(s, Advance(h, ok), AdvanceHandler(s, h, ok).value)
  {
    if s.handlers[h].Stop? {
      StopSlots(s, h, ok);
    } else if s.handlers[h].Flag? || s.handlers[h].Ack? {
      assert AdvanceHandler(s, h, ok).value.cancelled == s.cancelled;
    }
  }

  lemma StopSlots(s: Sys, h: HandlerId, ok: bool)
    requires h in s.handlers && s.handlers[h].Stop?
    ensures SlotsChangeBy(s, Advance(h, ok), AdvanceStop(s, h, ok))
  {
  }

  lemma SlotChange(s: Sys, step: Step)
    requires Next(s, step).Some?
    ensures (step.Finish? ==> step.run in s.workers) && (step.Advance? ==> step.h in s.handlers)
    ensures SlotsChangeBy(s, step, Next(s, step).value)
  {
    if step.Advance? {
      HandlerSlots(s, step.h, step.portOk);
    }
  }

  /** A freshly stored token is never one that was already cancelled. */
  lemma NewRunsStartUncancelled(steps: seq<Step>, h: HandlerId)
    requires Exec(steps).Some? && h in Exec(steps).value.handlers
    requires Exec(steps).value.handlers[h].Cleared?
    ensures Exec(steps).value.cancellation == None
    ensures Exec(steps).value.handlers[h].run !in Exec(steps).value.cancelled
    ensures forall r <- Exec(steps).value.workers :: !Live(Exec(steps).value, r)
  {
    RunKeepsInv(steps);
  }

  /** The scheduler's active set is exactly the permits of start commands and unfinished
      workers, and no key has two owners. */
  lemma PermitsMatchActors(steps: seq<Step>, k: TaskKey)
    requires Exec(steps).Some?
    ensures k in Exec(steps).value.permits <==> exists a :: Permit(Exec(steps).value, a) == Some(k)
    ensures forall a, b :: Permit(Exec(steps).value, a) == Some(k) == Permit(Exec(steps).value, b) ==> a == b
  {
    RunKeepsInv(steps);
  }

  // ---- Pause channels ----

  /** Run `r` has stored its sender: its worker exists, or its start command is about to create it. */
  predicate SenderOut(s: Sys, r: Run) {
    || r in s.workers
    || (Holder(s).Some? && (Holder(s).value.SenderStored? || Holder(s).value.Announced?) && Holder(s).value.run == r)
  }

  predicate Sends(pc: Handler) {
    pc.Flag? && pc.flag.FlagSend?
  }

  ghost predicate ChannelInv(s: Sys) {
    && (forall h <- s.handlers :: Sends(s.handlers[h]) ==> SenderOut(s, s.handlers[h].flag.channel))
    && (forall r <- s.pausedChannels :: SenderOut(s, r))
  }

  lemma WorkersStay(s: Sys, step: Step, r: Run)
    requires Next(s, step).Some? && r in s.workers
    ensures r in Next(s, step).value.workers
  {
    if step.Advance? {
      HandlerWorkers(s, step.h, step.portOk);
    }
  }

  /** Handlers touch the workers only by spawning one. */
  lemma HandlerWorkers(s: Sys, h: HandlerId, ok: bool)
    requires h in s.handlers && AdvanceHandler(s, h, ok).Some?
    ensures var pc := s.handlers[h];
      AdvanceHandler(s, h, ok).value.workers ==
        if pc.Announced? then s.workers[pc.run := Worker(pc.key, Working, Idle)] else s.workers
  {
  }

  lemma InstalledSenderStaysOut(s: Sys, h: HandlerId, r: Run)
    requires CoreInv(s) && h in s.handlers && (s.handlers[h].Permitted? || HoldsLock(s.handlers[h]))
    requires AdvanceInstall(s, h).Some? && r !in s.workers && SenderOut(s, r)
    ensures SenderOut(AdvanceInstall(s, h).value, r)
  {
    assert Holder(s) == Some(s.handlers[h]);
  }

  lemma SendersStayOut(s: Sys, step: Step, r: Run)
    requires CoreInv(s) && Next(s, step).Some? && SenderOut(s, r)
    ensures SenderOut(Next(s, step).value, r)
  {
    if r in s.workers {
      WorkersStay(s, step, r);
    } else if step.Advance? {
      if s.handlers[step.h].Stop? {
        StopIsOutside(s, step.h, step.portOk);
      } else if s.handlers[step.h].Flag? {
        FlagIsOutside(s, step.h, step.portOk);
      } else if s.handlers[step.h].Ack? {
        AckIsOutside(s, step.h, step.portOk);
      } else if OutsideSection(s.handlers[step.h]) {
        PermitIsOutside(s, step.h);
      } else {
        InstalledSenderStaysOut(s, step.h, r);
      }
    } else {
      assert Holder(Next(s, step).value) == Holder(s);
    }
  }

  lemma StepKeepsChannels(s: Sys, step: Step)
    requires CoreInv(s) && ChannelInv(s) && Next(s, step).Some?
    ensures ChannelInv(Next(s, step).value)
  {
    var t := Next(s, step).value;
    forall r | SenderOut(s, r) ensures SenderOut(t, r) {
      SendersStayOut(s, step, r);
    }
    forall h | h in t.handlers && Sends(t.handlers[h]) ensures SenderOut(t, t.handlers[h].flag.channel) {
      ClonedSender(s, step, h);
      StoredSenderIsOut(s);
    }
    forall r | r in t.pausedChannels ensures SenderOut(t, r) {
      PausedChange(s, step);
    }
  }

  lemma StoredSenderIsOut(s: Sys)
    requires CoreInv(s)
    ensures s.pauseSender.Some? ==> SenderOut(s, s.pauseSender.value)
  {
  }

  /** A sender to be used was already known, or is the stored one. */
  lemma ClonedSender(s: Sys, step: Step, h: HandlerId)
    requires Next(s, step).Some?
    requires h in Next(s, step).value.handlers && Sends(Next(s, step).value.handlers[h])
    ensures var r := Next(s, step).value.handlers[h].flag.channel;
      (h in s.handlers && s.handlers[h] == Next(s, step).value.handlers[h]) || s.pauseSender == Some(r)
  {
    if step.Advance? {
      ClonedByHandler(s, step.h, step.portOk, h);
    }
  }

  lemma ClonedByHandler(s: Sys, mover: HandlerId, ok: bool, h: HandlerId)
    requires mover in s.handlers && AdvanceHandler(s, mover, ok).Some?
    requires var t := AdvanceHandler(s, mover, ok).value; h in t.handlers && Sends(t.handlers[h])
    ensures var r := AdvanceHandler(s, mover, ok).value.handlers[h].flag.channel;
      (h in s.handlers && s.handlers[h] == AdvanceHandler(s, mover, ok).value.handlers[h]) || s.pauseSender == Some(r)
  {
    OnlyTheMoverMoves(s, mover, ok, h);
    if h == mover && s.handlers[h].Flag? {
      assert s.handlers[h].flag.FlagClone?;
    }
  }

  lemma OnlyTheMoverMoves(s: Sys, mover: HandlerId, ok: bool, h: HandlerId)
    requires mover in s.handlers && AdvanceHandler(s, mover, ok).Some?
    requires h in AdvanceHandler(s, mover, ok).value.handlers
    ensures if h != mover
      then h in s.handlers && s.handlers[h] == AdvanceHandler(s, mover, ok).value.handlers[h]
      else AdvanceHandler(s, mover, ok).value.handlers[h].Flag? <==> s.handlers[h].Flag?
  {
  }

  lemma PausedChange(s: Sys, step: Step)
    requires Next(s, step).Some?
    ensures var t := Next(s, step).value;
      t.pausedChannels != s.pausedChannels ==>
        && step.Advance? && step.h in s.handlers && Sends(s.handlers[step.h])
        && t.pausedChannels <= s.pausedChannels + {s.handlers[step.h].flag.channel}
        && s.pausedChannels - {s.handlers[step.h].flag.channel} <= t.pausedChannels
        && (s.handlers[step.h].flag.channel in s.workers ==> Live(s, s.handlers[step.h].flag.channel))
  {
  }

  lemma {:induction false} RunKeepsChannels(steps: seq<Step>)
    requires Exec(steps).Some?
    ensures ChannelInv(Exec(steps).value)
  {
    if steps != [] {
      RunKeepsChannels(steps[..|steps| - 1]);
      RunKeepsInv(steps[..|steps| - 1]);
      StepKeepsChannels(Exec(steps[..|steps| - 1]).value, steps[|steps| - 1]);
    }
  }

  /** However late a pause or resume sends, it changes the flag of one run only, and that run is
      unfinished or being installed; a run whose sender is not stored yet has never been paused. */
  lemma PauseReachesOnlyTheCurrentRun(steps: seq<Step>, step: Step, r: Run)
    requires Exec(steps).Some? && Next(Exec(steps).value, step).Some?
    requires (r in Exec(steps).value.pausedChannels) != (r in Next(Exec(steps).value, step).value.pausedChannels)
    ensures var s := Exec(steps).value;
      && step.Advance? && step.h in s.handlers && Sends(s.handlers[step.h]) && s.handlers[step.h].flag.channel == r
      && (Live(s, r) || BeingInstalled(s, r))
  {
    RunKeepsChannels(steps);
    PausedChange(Exec(steps).value, step);
  }

  lemma NewRunsStartUnpaused(steps: seq<Step>, h: HandlerId)
    requires Exec(steps).Some? && h in Exec(steps).value.handlers
    requires Exec(steps).value.handlers[h].Cleared? || Exec(steps).value.handlers[h].TokenStored?
    ensures Exec(steps).value.handlers[h].run !in Exec(steps).value.pausedChannels
  {
    RunKeepsChannels(steps);
    RunKeepsInv(steps);
  }

  // ---- What pauses and resumes send ----

  /** The step by which a handler sends `value` on channel `r`, and goes on. */
  ghost predicate Accepted(s: Sys, step: Step, r: Run, value: bool) {
    && step.Advance? && step.h in s.handlers && s.handlers[step.h] == Flag(FlagSend(value, r))
    && Next(s, step).Some? && step.h in Next(s, step).value.handlers
  }

  /** An accepted send sets the flag of its channel to its value, and no other. */
  lemma SendSetsTheFlag(s: Sys, step: Step, r: Run, value: bool)
    requires Accepted(s, step, r, value)
    ensures var t := Next(s, step).value;
      && (r in t.pausedChannels <==> value) && t.pausedChannels - {r} == s.pausedChannels - {r}
      && t.handlers[step.h] == Flag(FlagWrite(value))
  {
  }

  /** Nothing else changes a flag. */
  lemma OnlySendsSetFlags(s: Sys, step: Step, r: Run)
    requires Next(s, step).Some? && !Accepted(s, step, r, true) && !Accepted(s, step, r, false)
    ensures r in Next(s, step).value.pausedChannels <==> r in s.pausedChannels
  {
    PausedChange(s, step);
    if Next(s, step).value.pausedChannels != s.pausedChannels && s.handlers[step.h].flag.channel == r {
      assert Accepted(s, step, r, s.handlers[step.h].flag.value);
    }
  }

  ghost predicate SentAt(steps: seq<Step>, p: nat, r: Run, value: bool) {
    p < |steps| && Exec(steps[..p]).Some? && Accepted(Exec(steps[..p]).value, steps[p], r, value)
  }

  /** The last send that channel `r` accepted, at step `p`, was a pause. */
  ghost predicate LastSentPause(steps: seq<Step>, p: nat, r: Run) {
    SentAt(steps, p, r, true) && forall m: nat, value: bool :: p < m < |steps| ==> !SentAt(steps, m, r, value)
  }

  lemma SentBefore(steps: seq<Step>, n: nat, p: nat, r: Run, value: bool)
    requires p < n <= |steps|
    ensures SentAt(steps[..n], p, r, value) <==> SentAt(steps, p, r, value)
  {
    assert steps[..n][..p] == steps[..p];
  }

  /** A run is told to pause exactly if the last value sent to it, in any interleaving, was a pause. */
  lemma {:induction false} PausedIffLastSent(steps: seq<Step>, r: Run)
    requires Exec(steps).Some?
    ensures r in Exec(steps).value.pausedChannels <==> exists p: nat :: LastSentPause(steps, p, r)
  {
    if steps != [] {
      var n := |steps| - 1;
      PausedIffLastSent(steps[..n], r);
      var s := Exec(steps[..n]).value;
      forall p: nat, value: bool | p < n ensures SentAt(steps[..n], p, r, value) <==> SentAt(steps, p, r, value) {
        SentBefore(steps, n, p, r, value);
      }
      if Accepted(s, steps[n], r, true) {
        SendSetsTheFlag(s, steps[n], r, true);
        assert LastSentPause(steps, n, r);
      } else if Accepted(s, steps[n], r, false) {
        SendSetsTheFlag(s, steps[n], r, false);
        assert SentAt(steps, n, r, false);
      } else {
        OnlySendsSetFlags(s, steps[n], r);
        LastStays(steps, n, r);
      }
    }
  }

  lemma LastStays(steps: seq<Step>, n: nat, r: Run)
    requires |steps| == n + 1 && !SentAt(steps, n, r, true) && !SentAt(steps, n, r, false)
    requires forall p: nat, value: bool :: p < n ==> (SentAt(steps[..n], p, r, value) <==> SentAt(steps, p, r, value))
    ensures (exists p: nat :: LastSentPause(steps[..n], p, r)) <==> exists p: nat :: LastSentPause(steps, p, r)
  {
    forall p: nat ensures LastSentPause(steps[..n], p, r) <==> LastSentPause(steps, p, r) {
    }
  }

  /** Command `h` was begun at step `p`, as a pause in Running or as a resume in Paused. */
  ghost predicate BegunAt(steps: seq<Step>, h: HandlerId, value: bool, p: nat) {
    && p < |steps| && steps[p] == BeginFlag(h, value)
    && Exec(steps[..p]).Some? && Exec(steps[..p]).value.state == if value then Running else Paused
  }

  /** Command `h` sent `value` at step `q`. */
  ghost predicate SentBy(steps: seq<Step>, h: HandlerId, value: bool, q: nat) {
    exists r: nat :: SentAt(steps, q, r, value) && steps[q].h == h
  }

  /** A pause or resume command was begun as what it is. */
  lemma {:induction false} FlagCommandsAreBegun(steps: seq<Step>, h: HandlerId)
    requires Exec(steps).Some? && h in Exec(steps).value.handlers && Exec(steps).value.handlers[h].Flag?
    ensures exists p: nat :: BegunAt(steps, h, Exec(steps).value.handlers[h].flag.value, p)
  {
    var n := |steps| - 1;
    var init, value := steps[..n], Exec(steps).value.handlers[h].flag.value;
    if steps[n] == BeginFlag(h, value) {
      assert BegunAt(steps, h, value, n);
    } else {
      FlagGoesOn(Exec(init).value, steps[n], h);
      FlagCommandsAreBegun(init, h);
      var p: nat :| BegunAt(init, h, value, p);
      assert init[..p] == steps[..p] && BegunAt(steps, h, value, p);
    }
  }

  /** Before it records its state it has sent that value. */
  lemma {:induction false} FlagCommandsHaveSent(steps: seq<Step>, h: HandlerId)
    requires Exec(steps).Some? && h in Exec(steps).value.handlers
    requires Exec(steps).value.handlers[h].Flag? && Exec(steps).value.handlers[h].flag.FlagWrite?
    ensures exists q: nat :: SentBy(steps, h, Exec(steps).value.handlers[h].flag.value, q)
  {
    var n := |steps| - 1;
    var init, value := steps[..n], Exec(steps).value.handlers[h].flag.value;
    var s := Exec(init).value;
    FlagGoesOn(s, steps[n], h);
    if s.handlers[h].flag.FlagWrite? {
      FlagCommandsHaveSent(init, h);
      var q: nat :| SentBy(init, h, value, q);
      var r: nat :| SentAt(init, q, r, value) && init[q].h == h;
      SentBefore(steps, n, q, r, value);
      assert SentBy(steps, h, value, q);
    } else {
      assert SentAt(steps, n, s.handlers[h].flag.channel, value);
      assert SentBy(steps, h, value, n);
    }
  }

  /** A flag command keeps its value, and gets to its write by its own accepted send only. */
  lemma FlagGoesOn(s: Sys, step: Step, h: HandlerId)
    requires Next(s, step).Some? && h in Next(s, step).value.handlers && Next(s, step).value.handlers[h].Flag?
    requires step != BeginFlag(h, Next(s, step).value.handlers[h].flag.value)
    ensures h in s.handlers && s.handlers[h].Flag?
    ensures var before, after := s.handlers[h].flag, Next(s, step).value.handlers[h].flag;
      && before.value == after.value
      && (after.FlagWrite? && !before.FlagWrite? ==>
            step.Advance? && step.h == h && before.FlagSend? && Accepted(s, step, before.channel, before.value))
  {
    if step.Advance? {
      OnlyTheMoverMoves(s, step.h, step.portOk, h);
    }
  }

  /** The last write of such a command: Paused for a pause, Running for a resume. */
  lemma FlagCommandsRecord(s: Sys, step: Step)
    requires step.Advance? && step.h in s.handlers && s.handlers[step.h].Flag? && s.handlers[step.h].flag.FlagWrite?
    ensures Next(s, step).Some? && step.h !in Next(s, step).value.handlers
    ensures Next(s, step).value.state == if s.handlers[step.h].flag.value then Paused else Running
  {
  }

  // ---- Commands by themselves ----

  lemma AtTwice(s: Sys, h: HandlerId, a: Handler, b: Handler)
    requires h !in s.handlers
    ensures At(At(s, h, a), h, b) == At(s, h, b) && Leave(At(s, h, a), h) == s
  {
    assert s.handlers[h := a][h := b] == s.handlers[h := b];
    assert s.handlers[h := a] - {h} == s.handlers;
  }

  /** Where handler `h` is after its own access, in a system that is otherwise `s`. */
  function Placed(s: Sys, h: HandlerId, at: Option<Handler>): Sys {
    if at.Some? then At(s, h, at.value) else s
  }

  lemma StopGoesOn(s: Sys, h: HandlerId, at: StopPoint, ok: bool)
    requires h !in s.handlers
    ensures var (t, next) := StopAccess(s, at, ok);
      Next(At(s, h, Stop(at)), Advance(h, ok)) ==
        Some(Placed(t, h, if next.Some? then Some(Stop(next.value)) else None))
  {
    var (t, next) := StopAccess(s, at, ok);
    AtTwice(t, h, Stop(at), if next.Some? then Stop(next.value) else Stop(at));
  }

  lemma FlagGoes(s: Sys, h: HandlerId, at: FlagPoint, ok: bool)
    requires h !in s.handlers
    ensures var (t, next) := FlagAccess(s, at, ok);
      Next(At(s, h, Flag(at)), Advance(h, ok)) ==
        Some(Placed(t, h, if next.Some? then Some(Flag(next.value)) else None))
  {
    var (t, next) := FlagAccess(s, at, ok);
    AtTwice(t, h, Flag(at), if next.Some? then Flag(next.value) else Flag(at));
  }

  lemma AckGoesOn(s: Sys, h: HandlerId, at: AckPoint, ok: bool)
    requires h !in s.handlers
    ensures var (t, next) := AckAccess(s, at, ok);
      Next(At(s, h, Ack(at)), Advance(h, ok)) ==
        Some(Placed(t, h, if next.Some? then Some(Ack(next.value)) else None))
  {
    var (t, next) := AckAccess(s, at, ok);
    AtTwice(t, h, Ack(at), if next.Some? then Ack(next.value) else Ack(at));
  }

  /** Handler `h` takes one step, if it is not done, and no other actor moves. */
  function Alone(s: Option<Sys>, h: HandlerId, ok: bool): Option<Sys> {
    if s.None? || h !in s.value.handlers then s else Next(s.value, Advance(h, ok))
  }

  lemma StartGoesOn(s: Sys, h: HandlerId, at: Handler, ok: bool)
    requires h !in s.handlers && OutsideSection(at)
    ensures Next(At(s, h, at), Advance(h, ok)) == Some(
      match at
      case Asked(key) => if s.state != Idle then s else At(s, h, Checked(key))
      case Checked(key) =>
        if key in s.permits then s else At(s.(permits := s.permits + {key}), h, Permitted(key))
      case Rejected(key) => s.(permits := s.permits - {key}))
  {
    AtTwice(s, h, at, at);
    match at
    case Asked(key) => AtTwice(s, h, at, Checked(key));
    case Checked(key) => AtTwice(s.(permits := s.permits + {key}), h, at, Permitted(key));
    case Rejected(key) => AtTwice(s.(permits := s.permits - {key}), h, at, at);
  }

  /** A start that nothing interrupts is refused without effect in safe mode, outside Idle and while its
      permit is held. */
  lemma StartsRefusedByThemselves(s: Sys, h: HandlerId, key: TaskKey)
    requires h !in s.handlers
    ensures s.safeMode <==> Next(s, BeginStart(h, key)).None?
    ensures !s.safeMode && s.state != Idle ==> Alone(Next(s, BeginStart(h, key)), h, true) == Some(s)
    ensures !s.safeMode && s.state == Idle && key in s.permits ==>
      Alone(Alone(Next(s, BeginStart(h, key)), h, true), h, true) == Some(s)
  {
    if !s.safeMode {
      StartGoesOn(s, h, Asked(key), true);
      StartGoesOn(s, h, Checked(key), true);
    }
  }

  /** Over an unfinished worker it takes its permit and the lock, sees the worker, and gives both back. */
  lemma BusyStartGivesBack(s: Sys, h: HandlerId, key: TaskKey)
    requires h !in s.handlers && !s.safeMode && s.state == Idle && key !in s.permits
    requires s.lock == None && s.slot.Some? && Live(s, s.slot.value)
    ensures var permitted := Alone(Alone(Next(s, BeginStart(h, key)), h, true), h, true);
      Alone(Alone(Alone(permitted, h, true), h, true), h, true) == Some(s)
  {
    StartGoesOn(s, h, Asked(key), true);
    StartGoesOn(s, h, Checked(key), true);
    var taken := s.(permits := s.permits + {key});
    AtTwice(taken.(lock := Some(h)), h, Permitted(key), Locked(key));
    AtTwice(taken, h, Locked(key), Rejected(key));
    StartGoesOn(taken, h, Rejected(key), true);
    assert taken.permits - {key} == s.permits;
  }

  /** The start command, having got its permit while nothing runs, goes through its critical section. */
  lemma InstallGoesOn(s: Sys, h: HandlerId, at: Handler, ok: bool)
    requires h !in s.handlers && (at.Permitted? || HoldsLock(at)) && (at.Permitted? ==> s.lock == None)
    requires s.slot.Some? ==> !Live(s, s.slot.value)
    ensures Next(At(s, h, at), Advance(h, ok)) == Some(
      match at
      case Permitted(key) => At(s.(lock := Some(h)), h, Locked(key))
      case Locked(key) => At(s.(slot := None, nextRun := s.nextRun + 1), h, Cleared(key, s.nextRun))
      case Cleared(key, r) => At(s.(cancellation := Some(r)), h, TokenStored(key, r))
      case TokenStored(key, r) => At(s.(pauseSender := Some(r)), h, SenderStored(key, r))
      case SenderStored(key, r) => At(s.(state := Preflight), h, Announced(key, r))
      case Announced(key, r) => At(s.(workers := s.workers[r := Worker(key, Working, Idle)]), h, Spawned(r))
      case Spawned(r) => s.(slot := Some(r), lock := None))
  {
    match at
    case Permitted(key) => AtTwice(s.(lock := Some(h)), h, at, Locked(key));
    case Locked(key) => AtTwice(s, h, at, Cleared(key, s.nextRun));
    case Cleared(key, r) => AtTwice(s, h, at, TokenStored(key, r));
    case TokenStored(key, r) => AtTwice(s, h, at, SenderStored(key, r));
    case SenderStored(key, r) => AtTwice(s, h, at, Announced(key, r));
    case Announced(key, r) => AtTwice(s, h, at, Spawned(r));
    case Spawned(_) => AtTwice(s, h, at, at);
  }

  lemma StartReachesInstall(s: Sys, h: HandlerId, key: TaskKey)
    requires h !in s.handlers && !s.safeMode && s.state == Idle && key !in s.permits
    requires s.lock == None && (s.slot.Some? ==> !Live(s, s.slot.value))
    ensures var permitted := Alone(Alone(Next(s, BeginStart(h, key)), h, true), h, true);
      var t := s.(permits := s.permits + {key}, lock := Some(h), slot := None, nextRun := s.nextRun + 1);
      Alone(Alone(permitted, h, true), h, true) == Some(At(t, h, Cleared(key, s.nextRun)))
  {
    StartGoesOn(s, h, Asked(key), true);
    StartGoesOn(s, h, Checked(key), true);
    var taken := s.(permits := s.permits + {key});
    InstallGoesOn(taken, h, Permitted(key), true);
    InstallGoesOn(taken.(lock := Some(h)), h, Locked(key), true);
  }

  lemma InstallByItself(s: Sys, h: HandlerId, key: TaskKey, r: Run)
    requires h !in s.handlers && s.slot == None
    ensures var announced :=
        Alone(Alone(Alone(Some(At(s, h, Cleared(key, r))), h, true), h, true), h, true);
      Alone(Alone(announced, h, true), h, true) == Some(s.(
        cancellation := Some(r), pauseSender := Some(r), state := Preflight,
        workers := s.workers[r := Worker(key, Working, Idle)], slot := Some(r), lock := None))
  {
    InstallGoesOn(s, h, Cleared(key, r), true);
    InstallGoesOn(s.(cancellation := Some(r)), h, TokenStored(key, r), true);
    var stored := s.(cancellation := Some(r), pauseSender := Some(r));
    InstallGoesOn(stored, h, SenderStored(key, r), true);
    InstallGoesOn(stored.(state := Preflight), h, Announced(key, r), true);
    var working := s.workers[r := Worker(key, Working, Idle)];
    InstallGoesOn(stored.(state := Preflight, workers := working), h, Spawned(r), true);
  }

  /** A start that nothing interrupts in an idle engine installs a new run and leaves Preflight. */
  lemma StartByItself(s: Sys, h: HandlerId, key: TaskKey)
    requires h !in s.handlers && !s.safeMode && s.state == Idle && key !in s.permits
    requires s.lock == None && (s.slot.Some? ==> !Live(s, s.slot.value))
    ensures var permitted := Alone(Alone(Next(s, BeginStart(h, key)), h, true), h, true);
      var cleared := Alone(Alone(permitted, h, true), h, true);
      var announced := Alone(Alone(Alone(cleared, h, true), h, true), h, true);
      Alone(Alone(announced, h, true), h, true) == Some(s.(
        permits := s.permits + {key}, nextRun := s.nextRun + 1, slot := Some(s.nextRun), state := Preflight,
        cancellation := Some(s.nextRun), pauseSender := Some(s.nextRun),
        workers := s.workers[s.nextRun := Worker(key, Working, Idle)]))
  {
    StartReachesInstall(s, h, key);
    var t := s.(permits := s.permits + {key}, lock := Some(h), slot := None, nextRun := s.nextRun + 1);
    InstallByItself(t, h, key, s.nextRun);
  }

  function FinishAlone(s: Option<Sys>, r: Run): Option<Sys> {
    if s.None? then s else Next(s.value, Finish(r))
  }

  /** The system with a worker at a phase. */
  function Worked(s: Sys, r: Run, key: TaskKey, p: Phase, final: RunState): Sys {
    s.(workers := s.workers[r := Worker(key, p, final)])
  }

  lemma FinishGoesOn(s: Sys, r: Run, key: TaskKey, p: Phase, final: RunState)
    requires p != Working && p != Finished
    ensures Next(Worked(s, r, key, p, final), Finish(r)) == Some(
      match p
      case ClearToken => Worked(s.(cancellation := None), r, key, ClearSender, final)
      case ClearSender => Worked(s.(pauseSender := None), r, key, WriteState, final)
      case WriteState => Worked(s.(state := final), r, key, DropPermit, final)
      case DropPermit => Worked(s.(permits := s.permits - {key}), r, key, Exit, final)
      case Exit => Worked(s, r, key, Finished, final))
  {
    var workers := s.workers[r := Worker(key, p, final)];
    assert forall q :: workers[r := Worker(key, q, final)] == s.workers[r := Worker(key, q, final)];
  }

  /** A worker that finishes with nothing in between gives back token, channel and permit and leaves its
      final state. */
  lemma FinishByItself(s: Sys, r: Run, final: RunState)
    requires r in s.workers && s.workers[r].phase == Working && final in {Idle, Faulted, NeedsAttention}
    ensures var cleared := FinishAlone(FinishAlone(Next(s, BeginFinish(r, final)), r), r);
      FinishAlone(FinishAlone(FinishAlone(cleared, r), r), r) == Some(s.(
        cancellation := None, pauseSender := None, state := final, permits := s.permits - {s.workers[r].key},
        workers := s.workers[r := Worker(s.workers[r].key, Finished, final)]))
  {
    var key := s.workers[r].key;
    FinishGoesOn(s, r, key, ClearToken, final);
    FinishGoesOn(s.(cancellation := None), r, key, ClearSender, final);
    var cleared := s.(cancellation := None, pauseSender := None);
    FinishGoesOn(cleared, r, key, WriteState, final);
    FinishGoesOn(cleared.(state := final), r, key, DropPermit, final);
    FinishGoesOn(cleared.(state := final, permits := s.permits - {key}), r, key, Exit, final);
  }

  /** A pause or resume that nothing interrupts sends its value to the current run, if that still listens,
      and records its state; without a run, or refused by the port, it does nothing. */
  lemma FlagByItself(s: Sys, h: HandlerId, value: bool, portOk: bool)
    requires h !in s.handlers && s.state == if value then Running else Paused
    ensures var end := Alone(Alone(Alone(Next(s, BeginFlag(h, value)), h, portOk), h, true), h, true);
      end == Some(
        if !portOk || s.pauseSender.None?
           || (s.pauseSender.value in s.workers && s.workers[s.pauseSender.value].phase == Finished) then s
        else s.(state := if value then Paused else Running,
                pausedChannels := if value then s.pausedChannels + {s.pauseSender.value}
                                  else s.pausedChannels - {s.pauseSender.value}))
  {
    FlagGoes(s, h, FlagClone(value), portOk);
    if portOk && s.pauseSender.Some? {
      var r := s.pauseSender.value;
      FlagGoes(s, h, FlagSend(value, r), true);
      FlagGoes(FlagAccess(s, FlagSend(value, r), true).0, h, FlagWrite(value), true);
    }
  }

  /** An acknowledgement that nothing interrupts takes effect exactly with something to acknowledge and a
      store that takes it; then it clears safe mode and leaves Idle. */
  lemma AcknowledgementByItself(s: Sys, h: HandlerId, storeOk: bool)
    requires h !in s.handlers
    ensures var end := Alone(Alone(Alone(Alone(Next(s, BeginAck(h)), h, true), h, storeOk), h, true), h, true);
      end == Some(
        if storeOk && (s.safeMode || s.state == NeedsAttention || s.state == Faulted)
        then s.(safeMode := false, state := Idle) else s)
  {
    AckGoesOn(s, h, AckRead(s.state), true);
    AckGoesOn(s, h, AckStore(s.state), storeOk);
    AckGoesOn(s, h, AckClear(s.state), true);
    AckGoesOn(s.(safeMode := false), h, AckWrite, true);
  }

  /** A stop that nothing interrupts, up to its release: the stored token is cancelled, and any state but
      Idle has become Stopping. */
  lemma StopMarksByItself(s: Sys, h: HandlerId, emergency: bool)
    requires h !in s.handlers
    ensures var marked := s.(
        cancelled := if s.cancellation.Some? then s.cancelled + {s.cancellation.value} else s.cancelled,
        state := if s.state == Idle then Idle else Stopping);
      var read := Alone(Alone(Next(s, BeginStop(h, emergency)), h, true), h, true);
      (if s.state == Idle then read else Alone(read, h, true)) == Some(At(marked, h, Stop(StopRelease(emergency))))
  {
    StopGoesOn(s, h, StopCancel(emergency), true);
    var t := StopAccess(s, StopCancel(emergency), true).0;
    StopGoesOn(t, h, StopRead(emergency), true);
    StopGoesOn(t, h, StopMark(emergency), true);
  }

  /** From its release on it leaves Idle exactly if an emergency release and the port agree and no token
      is stored; else it leaves the state as it is. */
  lemma StopEndsByItself(s: Sys, h: HandlerId, emergency: bool, releaseOk: bool, cancelOk: bool)
    requires h !in s.handlers
    ensures var released := Alone(Some(At(s, h, Stop(StopRelease(emergency)))), h, releaseOk);
      Alone(Alone(Alone(released, h, cancelOk), h, true), h, true) == Some(
        if (emergency && !releaseOk) || !cancelOk || s.cancellation.Some? then s else s.(state := Idle))
  {
    StopGoesOn(s, h, StopRelease(emergency), releaseOk);
    StopGoesOn(s, h, StopPort, cancelOk);
    StopGoesOn(s, h, StopCheck, true);
    StopGoesOn(s, h, StopIdle, true);
  }

  // ---- Exactly when interleaving makes the state wrong ----

  /** A worker that has still to write its final state. */
  predicate WillWrite(s: Sys, r: Run) {
    Live(s, r) && s.workers[r].phase != DropPermit && s.workers[r].phase != Exit
  }

  /** A state that says something is running, and no worker will replace it. */
  ghost predicate Stray(s: Sys, x: RunState) {
    s.state == x && forall r :: !WillWrite(s, r)
  }

  /** The state a resume, a pause or a stop records from what it read before. */
  function Records(pc: Handler): Option<RunState> {
    match pc
    case Flag(FlagWrite(value)) => Some(if value then Paused else Running)
    case Stop(StopMark(_)) => Some(Stopping)
    case _ => None
  }

  /** Such a write after the last worker has written its final state. */
  ghost predicate LateWrite(s: Sys, step: Step, x: RunState) {
    && step.Advance? && step.h in s.handlers && Records(s.handlers[step.h]) == Some(x)
    && forall r :: !WillWrite(s, r)
  }

  ghost predicate FinalInv(s: Sys) {
    forall r <- s.workers :: s.workers[r].final in {Idle, Faulted, NeedsAttention}
  }

  lemma StepKeepsFinal(s: Sys, step: Step)
    requires FinalInv(s) && Next(s, step).Some?
    ensures FinalInv(Next(s, step).value)
  {
    if step.Advance? {
      HandlerWorkers(s, step.h, step.portOk);
    }
  }

  lemma {:induction false} RunKeepsFinal(steps: seq<Step>)
    requires Exec(steps).Some?
    ensures FinalInv(Exec(steps).value)
  {
    if steps != [] {
      RunKeepsFinal(steps[..|steps| - 1]);
      StepKeepsFinal(Exec(steps[..|steps| - 1]).value, steps[|steps| - 1]);
    }
  }

  /** Only a worker's own state write takes it out of those that will write. */
  lemma WritersChange(s: Sys, step: Step, r: Run)
    requires Next(s, step).Some? && WillWrite(s, r)
    ensures WillWrite(Next(s, step).value, r) || (step == Finish(r) && s.workers[r].phase == WriteState)
  {
    if step.Advance? {
      HandlerWorkers(s, step.h, step.portOk);
    }
  }

  /** One step strays into such a state without a worker if and only if it is a late write of it. */
  lemma StrayStateIff(s: Sys, step: Step, x: RunState)
    requires x in {Running, Paused, Recovering, Stopping}
    requires FinalInv(s) && Next(s, step).Some? && !Stray(s, x)
    ensures Stray(Next(s, step).value, x) <==> LateWrite(s, step, x)
  {
    var t := Next(s, step).value;
    if Stray(t, x) {
      forall r ensures !WillWrite(s, r) {
        if WillWrite(s, r) {
          WritersChange(s, step, r);
        }
      }
      StateWrites(s, step, x);
    }
    if LateWrite(s, step, x) {
      RecordsWrites(s, step.h, step.portOk, x);
      assert forall r :: WillWrite(t, r) == WillWrite(s, r);
    }
  }

  /** These states are written by working workers and by the handlers that record them only. */
  lemma StateWrites(s: Sys, step: Step, x: RunState)
    requires x in {Running, Paused, Recovering, Stopping} && FinalInv(s)
    requires Next(s, step).Some? && Next(s, step).value.state == x != s.state
    ensures if step.Work? then WillWrite(s, step.run)
      else step.Advance? && step.h in s.handlers && Records(s.handlers[step.h]) == Some(x)
  {
    if step.Advance? {
      HandlerWrites(s, step.h, step.portOk, x);
    }
  }

  lemma HandlerWrites(s: Sys, h: HandlerId, ok: bool, x: RunState)
    requires x in {Running, Paused, Recovering, Stopping} && h in s.handlers
    requires AdvanceHandler(s, h, ok).Some? && AdvanceHandler(s, h, ok).value.state == x != s.state
    ensures Records(s.handlers[h]) == Some(x)
  {
  }

  lemma RecordsWrites(s: Sys, h: HandlerId, ok: bool, x: RunState)
    requires h in s.handlers && Records(s.handlers[h]) == Some(x)
    ensures AdvanceHandler(s, h, ok).Some?
    ensures var t := AdvanceHandler(s, h, ok).value; t.state == x && t.workers == s.workers
  {
  }

  /** Idle over a worker that has started to work, or is about to be spawned. */
  ghost predicate HiddenWorker(s: Sys) {
    s.state == Idle && Begun(s)
  }

  ghost predicate Begun(s: Sys) {
    (exists r :: Works(s, r)) || (Holder(s).Some? && Holder(s).value.Announced?)
  }

  predicate Works(s: Sys, r: Run) {
    r in s.workers && s.workers[r].phase == Working
  }

  /** The last write of a stop that found nothing running, or of an acknowledgement, after a start. */
  ghost predicate LateIdle(s: Sys, step: Step) {
    && step.Advance? && step.h in s.handlers && Begun(s)
    && (s.handlers[step.h] == Stop(StopIdle) || s.handlers[step.h] == Ack(AckWrite))
  }

  lemma OutsideBegun(s: Sys, t: Sys)
    requires OutsideLock(s, t)
    ensures Begun(s) == Begun(t)
  {
    assert forall r :: Works(s, r) == Works(t, r);
  }

  /** A start command begins a run only by the step that records `Preflight`. */
  lemma InstallBegins(s: Sys, h: HandlerId)
    requires CoreInv(s) && h in s.handlers && (s.handlers[h].Permitted? || HoldsLock(s.handlers[h]))
    requires AdvanceInstall(s, h).Some?
    ensures var t := AdvanceInstall(s, h).value;
      if s.handlers[h].SenderStored? then t.state == Preflight else t.state == s.state && (Begun(t) ==> Begun(s))
  {
    var t := AdvanceInstall(s, h).value;
    assert HoldsLock(s.handlers[h]) ==> Holder(s) == Some(s.handlers[h]);
    if !s.handlers[h].Announced? {
      assert forall r :: Works(t, r) ==> Works(s, r);
    }
  }

  /** When a worker writes its final state, no other run has begun. */
  lemma FinishBegins(s: Sys, r: Run)
    requires CoreInv(s) && r in s.workers && FinishStep(s, r).Some?
    ensures var t := FinishStep(s, r).value;
      if s.workers[r].phase == WriteState then !Begun(t) else t.state == s.state && (Begun(t) ==> Begun(s))
  {
    var t := FinishStep(s, r).value;
    assert Live(s, r) && Current(s) == Some(r) && Holder(t) == Holder(s);
    assert forall q :: Works(t, q) ==> Works(s, q);
    assert forall q :: Works(s, q) ==> Live(s, q);
  }

  lemma OutsideHides(s: Sys, t: Sys)
    requires OutsideLock(s, t)
    ensures HiddenWorker(t) <==> t.state == Idle && Begun(s)
  {
    OutsideBegun(s, t);
  }

  lemma StopHides(s: Sys, h: HandlerId, ok: bool)
    requires LockInv(s) && h in s.handlers && s.handlers[h].Stop? && !HiddenWorker(s)
    ensures HiddenWorker(AdvanceStop(s, h, ok)) <==> s.handlers[h] == Stop(StopIdle) && Begun(s)
  {
    StopIsOutside(s, h, ok);
    OutsideHides(s, AdvanceStop(s, h, ok));
  }

  lemma AckHides(s: Sys, h: HandlerId, ok: bool)
    requires LockInv(s) && h in s.handlers && s.handlers[h].Ack? && !HiddenWorker(s)
    ensures HiddenWorker(AdvanceAck(s, h, ok)) <==> s.handlers[h] == Ack(AckWrite) && Begun(s)
  {
    AckIsOutside(s, h, ok);
    OutsideHides(s, AdvanceAck(s, h, ok));
  }

  lemma FlagHides(s: Sys, h: HandlerId, ok: bool)
    requires LockInv(s) && h in s.handlers && s.handlers[h].Flag? && !HiddenWorker(s)
    ensures !HiddenWorker(AdvanceFlag(s, h, ok))
  {
    FlagIsOutside(s, h, ok);
    OutsideHides(s, AdvanceFlag(s, h, ok));
  }

  lemma SectionHides(s: Sys, h: HandlerId)
    requires LockInv(s) && h in s.handlers && OutsideSection(s.handlers[h]) && !HiddenWorker(s)
    ensures !HiddenWorker(AdvancePermit(s, h))
  {
    PermitIsOutside(s, h);
    OutsideHides(s, AdvancePermit(s, h));
  }

  lemma HandlerHides(s: Sys, h: HandlerId, ok: bool)
    requires CoreInv(s) && h in s.handlers && AdvanceHandler(s, h, ok).Some? && !HiddenWorker(s)
    ensures HiddenWorker(AdvanceHandler(s, h, ok).value) <==>
      (s.handlers[h] == Stop(StopIdle) || s.handlers[h] == Ack(AckWrite)) && Begun(s)
  {
    if s.handlers[h].Stop? {
      StopHides(s, h, ok);
    } else if s.handlers[h].Flag? {
      FlagHides(s, h, ok);
    } else if s.handlers[h].Ack? {
      AckHides(s, h, ok);
    } else if OutsideSection(s.handlers[h]) {
      SectionHides(s, h);
    } else {
      InstallHides(s, h);
    }
  }

  lemma InstallHides(s: Sys, h: HandlerId)
    requires CoreInv(s) && h in s.handlers && (s.handlers[h].Permitted? || HoldsLock(s.handlers[h]))
    requires AdvanceInstall(s, h).Some? && !HiddenWorker(s)
    ensures !HiddenWorker(AdvanceInstall(s, h).value)
  {
    InstallBegins(s, h);
  }

  /** One step hides a worker if and only if it is a late idle write. */
  lemma HiddenWorkerIff(s: Sys, step: Step)
    requires CoreInv(s) && Next(s, step).Some? && !HiddenWorker(s)
    ensures HiddenWorker(Next(s, step).value) <==> LateIdle(s, step)
  {
    var t := Next(s, step).value;
    match step
    case Advance(h, ok) => HandlerHides(s, h, ok);
    case Finish(r) => FinishBegins(s, r);
    case BeginFinish(r, final) =>
      assert Holder(t) == Holder(s) && forall q :: Works(t, q) ==> Works(s, q);
    case _ =>
      BeginIsOutside(s, step);
      OutsideBegun(s, t);
  }

  /** At some point of a run. */
  ghost predicate EverStray(steps: seq<Step>, x: RunState) {
    && steps != [] && Exec(steps).Some?
    && (Stray(Exec(steps).value, x) || EverStray(steps[..|steps| - 1], x))
  }

  ghost predicate EverLateWrite(steps: seq<Step>, x: RunState) {
    && steps != [] && Exec(steps).Some?
    && (LateWrite(Exec(steps[..|steps| - 1]).value, steps[|steps| - 1], x) || EverLateWrite(steps[..|steps| - 1], x))
  }

  ghost predicate EverHidden(steps: seq<Step>) {
    && steps != [] && Exec(steps).Some?
    && (HiddenWorker(Exec(steps).value) || EverHidden(steps[..|steps| - 1]))
  }

  ghost predicate EverLateIdle(steps: seq<Step>) {
    && steps != [] && Exec(steps).Some?
    && (LateIdle(Exec(steps[..|steps| - 1]).value, steps[|steps| - 1]) || EverLateIdle(steps[..|steps| - 1]))
  }

  /** A run passes through an active state without a worker if and only if it makes a late write of it. */
  lemma {:induction false} StrayStateInRun(steps: seq<Step>, x: RunState)
    requires x in {Running, Paused, Recovering, Stopping} && Exec(steps).Some?
    ensures EverStray(steps, x) <==> EverLateWrite(steps, x)
    ensures Stray(Exec(steps).value, x) ==> EverStray(steps, x)
  {
    if steps != [] {
      var init := steps[..|steps| - 1];
      StrayStateInRun(init, x);
      RunKeepsFinal(init);
      if !Stray(Exec(init).value, x) {
        StrayStateIff(Exec(init).value, steps[|steps| - 1], x);
      }
    }
  }

  /** A run passes through an idle state over a worker if and only if it makes a late idle write. */
  lemma {:induction false} HiddenWorkerInRun(steps: seq<Step>)
    requires Exec(steps).Some?
    ensures EverHidden(steps) <==> EverLateIdle(steps)
    ensures HiddenWorker(Exec(steps).value) ==> EverHidden(steps)
  {
    if steps != [] {
      var init := steps[..|steps| - 1];
      HiddenWorkerInRun(init);
      RunKeepsInv(init);
      if !HiddenWorker(Exec(init).value) {
        HiddenWorkerIff(Exec(init).value, steps[|steps| - 1]);
      }
    }
  }

  // ---- Runs in which it does become wrong ----

  lemma ExecSnoc(steps: seq<Step>, step: Step)
    ensures Exec(steps + [step]) == if Exec(steps).None? then None else Next(Exec(steps).value, step)
  {
    assert (steps + [step])[..|steps|] == steps;
  }

  /** No stop command is in the run. */
  predicate StopFree(steps: seq<Step>) {
    forall step <- steps :: !step.BeginStop?
  }

  lemma Do(steps: seq<Step>, step: Step) returns (more: seq<Step>)
    requires Exec(steps).Some? && Next(Exec(steps).value, step).Some?
    ensures Exec(more) == Next(Exec(steps).value, step)
    ensures StopFree(steps) && !step.BeginStop? ==> StopFree(more)
  {
    more := steps + [step];
    ExecSnoc(steps, step);
  }

  /** Handler `h` takes its next step. */
  lemma Move(steps: seq<Step>, h: HandlerId) returns (more: seq<Step>)
    requires Exec(steps).Some? && h in Exec(steps).value.handlers
    requires AdvanceHandler(Exec(steps).value, h, true).Some?
    ensures Exec(more) == AdvanceHandler(Exec(steps).value, h, true)
    ensures StopFree(steps) ==> StopFree(more)
  {
    more := Do(steps, Advance(h, true));
  }

  /** A start command by handler 0 up to the worker lock, with no other handler inside. */
  lemma StartUpToLock(steps: seq<Step>, key: TaskKey) returns (more: seq<Step>)
    requires Exec(steps).Some?
    requires var s := Exec(steps).value;
      s.state == Idle && !s.safeMode && 0 !in s.handlers && s.lock == None && key !in s.permits
    ensures var s := Exec(steps).value;
      Exec(more) == Some(s.(
        lock := Some(0), permits := s.permits + {key}, handlers := s.handlers[0 := Locked(key)]))
    ensures StopFree(steps) ==> StopFree(more)
  {
    more := Do(steps, BeginStart(0, key));
    more := Move(more, 0);
    more := Move(more, 0);
    more := Move(more, 0);
    assert Exec(more).value.handlers == Exec(steps).value.handlers[0 := Locked(key)];
  }

  /** The same up to the stored token, with no unfinished worker. */
  lemma StartUpToToken(steps: seq<Step>, key: TaskKey) returns (more: seq<Step>)
    requires Exec(steps).Some?
    requires var s := Exec(steps).value;
      && s.state == Idle && !s.safeMode && 0 !in s.handlers && s.lock == None && key !in s.permits
      && (s.slot.Some? ==> !Live(s, s.slot.value))
    ensures var s := Exec(steps).value; var r := s.nextRun;
      Exec(more) == Some(s.(
        lock := Some(0), slot := None, permits := s.permits + {key}, nextRun := r + 1, cancellation := Some(r),
        handlers := s.handlers[0 := TokenStored(key, r)]))
    ensures StopFree(steps) ==> StopFree(more)
  {
    more := StartUpToLock(steps, key);
    more := Move(more, 0);
    more := Move(more, 0);
    var s := Exec(steps).value;
    assert Exec(more).value.handlers == s.handlers[0 := TokenStored(key, s.nextRun)];
  }

  /** From the stored token to the announced state. */
  lemma StartUpToAnnounced(steps: seq<Step>, key: TaskKey, r: Run) returns (more: seq<Step>)
    requires Exec(steps).Some? && 0 in Exec(steps).value.handlers
    requires Exec(steps).value.handlers[0] == TokenStored(key, r)
    ensures var s := Exec(steps).value;
      Exec(more) == Some(s.(
        state := Preflight, pauseSender := Some(r), handlers := s.handlers[0 := Announced(key, r)]))
    ensures StopFree(steps) ==> StopFree(more)
  {
    more := Move(steps, 0);
    more := Move(more, 0);
    assert Exec(more).value.handlers == Exec(steps).value.handlers[0 := Announced(key, r)];
  }

  lemma StartFromToken(steps: seq<Step>, key: TaskKey, r: Run) returns (more: seq<Step>)
    requires Exec(steps).Some? && 0 in Exec(steps).value.handlers
    requires Exec(steps).value.handlers[0] == TokenStored(key, r)
    ensures var s := Exec(steps).value;
      Exec(more) == Some(s.(
        state := Preflight, pauseSender := Some(r), slot := Some(r), lock := None,
        handlers := s.handlers - {0}, workers := s.workers[r := Worker(key, Working, Idle)]))
    ensures StopFree(steps) ==> StopFree(more)
  {
    more := StartUpToAnnounced(steps, key, r);
    more := Move(more, 0);
    more := Move(more, 0);
    assert Exec(more).value.handlers == Exec(steps).value.handlers - {0};
  }

  /** Handler 0 pauses a working run and has sent, but not recorded, the pause. */
  lemma PauseUpToSend(steps: seq<Step>, r: Run) returns (more: seq<Step>)
    requires Exec(steps).Some? && 0 !in Exec(steps).value.handlers
    requires r in Exec(steps).value.workers && Exec(steps).value.workers[r].phase == Working
    requires Exec(steps).value.pauseSender == Some(r)
    ensures Exec(more).Some? && 0 in Exec(more).value.handlers && Exec(more).value.handlers[0] == Flag(FlagWrite(true))
    ensures Exec(more).value.workers == Exec(steps).value.workers
  {
    more := Do(steps, Work(r, Running));
    more := Do(more, BeginFlag(0, true));
    more := Move(more, 0);
    more := Move(more, 0);
  }

  /** A worker finishes, up to its state write. */
  lemma HalfFinish(steps: seq<Step>, r: Run, final: RunState) returns (more: seq<Step>)
    requires Exec(steps).Some? && r in Exec(steps).value.workers && final in {Idle, Faulted, NeedsAttention}
    requires Exec(steps).value.workers[r].phase == Working
    ensures var s := Exec(steps).value;
      Exec(more) == Some(s.(
        cancellation := None, pauseSender := None,
        workers := s.workers[r := s.workers[r].(phase := WriteState, final := final)]))
    ensures StopFree(steps) ==> StopFree(more)
  {
    more := Do(steps, BeginFinish(r, final));
    more := Do(more, Finish(r));
    more := Do(more, Finish(r));
    var s := Exec(steps).value;
    assert Exec(more).value.workers == s.workers[r := s.workers[r].(phase := WriteState, final := final)];
  }

  /** A worker finishes, step by step. */
  lemma WholeFinish(steps: seq<Step>, r: Run, final: RunState) returns (more: seq<Step>)
    requires Exec(steps).Some? && r in Exec(steps).value.workers && final in {Idle, Faulted, NeedsAttention}
    requires Exec(steps).value.workers[r].phase == Working
    ensures var s := Exec(steps).value;
      Exec(more) == Some(s.(
        state := final, cancellation := None, pauseSender := None, permits := s.permits - {s.workers[r].key},
        workers := s.workers[r := s.workers[r].(phase := Finished, final := final)]))
    ensures StopFree(steps) ==> StopFree(more)
  {
    more := HalfFinish(steps, r, final);
    more := Do(more, Finish(r));
    more := Do(more, Finish(r));
    more := Do(more, Finish(r));
    var s := Exec(steps).value;
    assert Exec(more).value.workers == s.workers[r := s.workers[r].(phase := Finished, final := final)];
  }

  /** A first run by handler 0, and its worker's return. */
  lemma FirstRun(steps: seq<Step>, key: TaskKey) returns (more: seq<Step>)
    requires Exec(steps) == Some(INIT)
    ensures Exec(more) == Some(INIT.(
      state := Preflight, cancellation := Some(0), pauseSender := Some(0), slot := Some(0), permits := {key},
      workers := map[0 := Worker(key, Working, Idle)], nextRun := 1))
    ensures StopFree(steps) ==> StopFree(more)
  {
    more := StartUpToToken(steps, key);
    more := StartFromToken(more, key, 0);
    var t := Exec(more).value;
    assert t.handlers == map[] && t.permits == {key} && t.workers == map[0 := Worker(key, Working, Idle)];
  }

  /** A pause that sends before its worker finishes and records afterwards leaves the
      state `Paused` with no worker. */
  lemma LatePauseIsRecorded(key: TaskKey) returns (steps: seq<Step>)
    ensures Exec(steps).Some? && Exec(steps).value.state == Paused
    ensures forall r :: !Live(Exec(steps).value, r)
  {
    steps := FirstRun([], key);
    steps := PauseUpToSend(steps, 0);
    steps := WholeFinish(steps, 0, Idle);
    steps := Move(steps, 0);
  }

  /** A stop command, handler 1, alone on the initial system. */
  function OnlyStop(at: StopPoint): Sys {
    INIT.(handlers := map[1 := Stop(at)])
  }

  lemma AloneMoves(steps: seq<Step>, at: StopPoint) returns (more: seq<Step>)
    requires Exec(steps) == Some(OnlyStop(at)) && at != StopIdle
    requires !at.StopMark? && (at.StopCancel? || at.StopRead? || at.StopRelease? ==> !at.emergency)
    ensures match at
      case StopCancel(_) => Exec(more) == Some(OnlyStop(StopRead(false)))
      case StopRead(_) => Exec(more) == Some(OnlyStop(StopRelease(false)))
      case StopRelease(_) => Exec(more) == Some(OnlyStop(StopPort))
      case StopPort => Exec(more) == Some(OnlyStop(StopCheck))
      case _ => Exec(more) == Some(OnlyStop(StopIdle))
  {
    more := Do(steps, Advance(1, true));
    assert Exec(more).value.handlers == map[1 := Exec(more).value.handlers[1]];
  }

  /** A stop by handler 1 on the initial system, up to its last write. */
  lemma StopUpToIdle() returns (steps: seq<Step>)
    ensures Exec(steps) == Some(OnlyStop(StopIdle))
  {
    steps := Do([], BeginStop(1, false));
    assert Exec(steps) == Some(OnlyStop(StopCancel(false)));
    steps := AloneMoves(steps, StopCancel(false));
    steps := AloneMoves(steps, StopRead(false));
    steps := AloneMoves(steps, StopRelease(false));
    steps := AloneMoves(steps, StopPort);
    steps := AloneMoves(steps, StopCheck);
  }

  /** A stop that finds nothing running and records `Idle` late hides a worker that was
      started in between; only the worker lock then keeps a second worker out. */
  lemma LateStopHidesWorker(key: TaskKey) returns (steps: seq<Step>)
    ensures Exec(steps).Some? && Exec(steps).value.state == Idle && Works(Exec(steps).value, 0)
  {
    steps := StopUpToIdle();
    steps := StartUpToToken(steps, key);
    steps := StartFromToken(steps, key, 0);
    steps := Move(steps, 1);
  }

  /** An acknowledgement of a faulted engine by handler `h`, up to its last write. */
  lemma AcknowledgeUpToWrite(steps: seq<Step>, h: HandlerId) returns (more: seq<Step>)
    requires Exec(steps).Some? && h !in Exec(steps).value.handlers
    requires Exec(steps).value.state == Faulted && !Exec(steps).value.safeMode
    ensures var s := Exec(steps).value; Exec(more) == Some(s.(handlers := s.handlers[h := Ack(AckWrite)]))
    ensures StopFree(steps) ==> StopFree(more)
  {
    more := Do(steps, BeginAck(h));
    more := Move(more, h);
    more := Move(more, h);
    more := Move(more, h);
    assert Exec(more).value.handlers == Exec(steps).value.handlers[h := Ack(AckWrite)];
  }

  /** Of two acknowledgements of one fault, the second records `Idle` over the run that was
      started after the first; no stop is needed. */
  lemma LateAcknowledgementHidesWorker(key: TaskKey) returns (steps: seq<Step>)
    ensures StopFree(steps)
    ensures Exec(steps).Some? && Exec(steps).value.state == Idle && Works(Exec(steps).value, 1)
  {
    steps := FirstRun([], key);
    steps := WholeFinish(steps, 0, Faulted);
    steps := AcknowledgeUpToWrite(steps, 1);
    steps := AcknowledgeUpToWrite(steps, 2);
    steps := Move(steps, 2);
    steps := StartUpToToken(steps, key);
    steps := StartFromToken(steps, key, 1);
    steps := Move(steps, 1);
  }
}
