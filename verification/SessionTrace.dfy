/**
 What a legacy session may execute, as a relation between one execution and the next.

 The worker (module `SessionWorker`) is proved to produce only sound execution lists;
 the readable guarantees are proved here about every sound list.
 */
module SessionTrace {
  import opened Wrappers
  import opened SessionPlan

  datatype Outcome = Succeeded | Skipped | Failed | NeedsAttention | Cancelled
  datatype CutBy = User | SessionLimit | FieldLimit
  datatype RunEnd = Completed(outcome: Outcome) | Cut(cause: CutBy)

  /** The recovery attempt made after a failed plan step. */
  datatype Recovery = NotTried | Rejoined | NotRejoined | Interrupted | FieldExpired

  datatype Role =
    | CollectRun(cycle: nat, i: nat)
    | CollectReset(cycle: nat, i: nat)
    | PlanRun(cycle: nat, k: nat)

  /** One execution of a script, between instants `start` and `finish` (in milliseconds). */
  datatype Exec = Exec(
    role: Role, script: string, sha: string, start: nat, finish: nat,
    fieldDeadline: Option<nat>, end: RunEnd, retry: bool, recovery: Recovery)

  /** What a call begun at some instant comes to: how many ticks after its first it ends, if it does, a
      script's outcome, and whether a recovery rejoined. */
  datatype Call = Call(takes: Option<nat>, outcome: Outcome, rejoins: bool)

  datatype PreflightAnswer = Accepted | Rejected | Withdrawn

  /** What the outside does: how long a checkpoint waits and what a call comes to, by the instant at which
      they begin, how long the preflight of a script takes and what it answers, and whether the store works,
      by the number of the access. */
  datatype Ports = Ports(
    waits: nat -> nat,
    calls: nat -> Call,
    preflightMs: string -> nat,
    preflight: string -> PreflightAnswer,
    store: nat -> bool)

  datatype Job = Job(
    plan: seq<SessionStep>, collect: seq<CollectStep>, reconnect: bool,
    maxCycles: nat, began: nat, deadline: nat, cancelAt: Option<nat>, ports: Ports)

  /** A cancelled call is abandoned after this grace. */
  const GRACE_MS := 1000

  ghost predicate ValidJob(job: Job) {
    PlanShape(job.plan)
  }

  predicate Passed(e: Exec) {
    e.end == Completed(Succeeded) || e.end == Completed(Skipped)
  }

  predicate InPlan(job: Job, role: Role) {
    role.PlanRun? && role.k < |job.plan|
  }

  predicate IsGather(job: Job, role: Role) {
    InPlan(job, role) && job.plan[role.k].kind == Gather
  }

  /** A plan step that ended in `Failed` or `NeedsAttention`. */
  predicate StepFailed(e: Exec) {
    e.role.PlanRun? && (e.end == Completed(Failed) || e.end == Completed(NeedsAttention))
  }

  /** The step does not have to run again before the session moves on. */
  predicate Done(job: Job, e: Exec) {
    Passed(e) || (IsGather(job, e.role) && e.end == Cut(FieldLimit))
  }

  predicate ValidRole(job: Job, role: Role) {
    && 1 <= role.cycle <= job.maxCycles
    && (if role.PlanRun? then role.k < |job.plan| else role.i < |job.collect|)
  }

  function StepOf(job: Job, role: Role): SessionStep
    requires ValidRole(job, role)
  {
    match role
    case CollectRun(_, i) => job.collect[i].step
    case CollectReset(_, _) => ResetStep()
    case PlanRun(_, k) => job.plan[k]
  }

  /** The script, the instants and the deadlines of one execution. */
  predicate FitsTimes(job: Job, e: Exec) {
    && ValidRole(job, e.role)
    && e.script == StepOf(job, e.role).scriptId && e.sha == StepOf(job, e.role).approvedSha
    && e.start < e.finish <= job.deadline + GRACE_MS && e.start < job.deadline
    && e.fieldDeadline.Some? == IsGather(job, e.role)
    && (e.fieldDeadline.Some? ==> e.start < e.fieldDeadline.value && e.finish <= e.fieldDeadline.value + GRACE_MS)
    && (job.cancelAt.Some? ==> e.start < job.cancelAt.value)
    && CutHasItsCause(job, e)
    && (e.end.Completed? ==>
          job.ports.calls(e.start).takes == Some(e.finish - e.start - 1)
          && job.ports.calls(e.start).outcome == e.end.outcome)
  }

  /** A call is cut only at a deadline that has passed, or after the cancellation. */
  predicate CutHasItsCause(job: Job, e: Exec) {
    && (e.end == Cut(FieldLimit) ==> e.fieldDeadline.Some? && e.fieldDeadline.value <= e.finish)
    && (e.end == Cut(SessionLimit) ==> job.deadline <= e.finish)
    && (e.end == Cut(User) ==> job.cancelAt.Some? && job.cancelAt.value <= e.finish)
  }

  /** How long a gather step is to last. */
  function GatherMs(job: Job, role: Role): nat
    requires IsGather(job, role)
  {
    if job.plan[role.k].gatherSeconds.Some? then job.plan[role.k].gatherSeconds.value * 1000 else 0
  }

  /** What one execution satisfies on its own; recovery is tried once, after a plan step fails. */
  predicate Fits(job: Job, e: Exec) {
    && FitsTimes(job, e) && (e.recovery != NotTried <==> StepFailed(e) && job.reconnect && !e.retry)
    && (e.recovery == Rejoined ==> job.ports.calls(e.finish).rejoins)
    && (e.recovery == NotRejoined ==> !job.ports.calls(e.finish).rejoins)
  }

  /** The session is at instant `at` after execution `a`, or after its beginning. Unless the run is paused
      there, or a recovery took time, no time has passed. */
  predicate After(job: Job, a: Option<Exec>, at: nat) {
    var end := if a.Some? then a.value.finish else job.began;
    && end <= at
    && (job.ports.waits(end) == 0 && (a.Some? ==> !StepFailed(a.value)) ==> at == end)
  }

  /** Execution `a` may be followed at instant `at` by the first execution of `role`; none precedes when
      `a` is absent. */
  predicate Begins(job: Job, a: Option<Exec>, role: Role, at: nat) {
    match role
    case CollectRun(c, i) => AtCollect(job, a, c, i)
    case CollectReset(c, i) => a.Some? && a.value.role == CollectRun(c, i) && Passed(a.value)
    case PlanRun(c, k) => AtStep(job, a, c, k, at)
  }

  /** Collect entry `i` of cycle `c` is next, and nothing has to be repeated first. */
  predicate AtCollect(job: Job, a: Option<Exec>, c: nat, i: nat) {
    if a.None? then c == 1
    else
      && Passed(a.value)
      && match a.value.role
         case CollectReset(d, j) => d == c && j < i
         case PlanRun(d, k) => d + 1 == c && k + 1 == |job.plan|
         case CollectRun(_, _) => false
  }

  /** Plan step `k` of cycle `c` is next at instant `at`. A gather step is left only when its time is
      over; if that passed while the session was paused, it may have executed nothing at all. */
  predicate AtStep(job: Job, a: Option<Exec>, c: nat, k: nat, at: nat) {
    if k == 0 then AtCollect(job, a, c, |job.collect|)
    else
      && a.Some? && Done(job, a.value)
      && ((a.value.role == PlanRun(c, k - 1) && (a.value.fieldDeadline.Some? ==> a.value.fieldDeadline.value <= at))
          || (IsGather(job, PlanRun(c, k - 1)) && k >= 2 && a.value.role == PlanRun(c, k - 2)
              && a.value.finish + GatherMs(job, PlanRun(c, k - 1)) <= at))
  }

  /** The deadline of a gather is its whole time after some instant between the execution before it
      and its own first start. */
  predicate GatherStarts(job: Job, a: Option<Exec>, role: Role, field: Option<nat>, at: nat) {
    IsGather(job, role) ==>
      && a.Some? && field.Some?
      && a.value.finish + GatherMs(job, role) <= field.value <= at + GatherMs(job, role)
  }

  /** `b` runs the step of `a` again: a gather until its deadline, another step once after recovery. */
  predicate Repeats(job: Job, a: Exec, b: Exec) {
    if IsGather(job, b.role) then Passed(a) && !b.retry && a.fieldDeadline == b.fieldDeadline
    else StepFailed(a) && a.recovery == Rejoined && !a.retry && b.retry
  }

  predicate Follows(job: Job, a: Option<Exec>, b: Exec) {
    && After(job, a, b.start)
    && if a.Some? && a.value.role == b.role then Repeats(job, a.value, b)
       else
         !b.retry && Begins(job, a, b.role, b.start) && GatherStarts(job, a, b.role, b.fieldDeadline, b.start)
  }

  function Before(runs: seq<Exec>, i: nat): Option<Exec>
    requires i <= |runs|
  {
    if i == 0 then None else Some(runs[i - 1])
  }

  function Last(runs: seq<Exec>): Option<Exec> {
    Before(runs, |runs|)
  }

  /** Execution `i` fits its role and follows the one before it. */
  predicate Link(job: Job, runs: seq<Exec>, i: nat)
    requires i < |runs|
  {
    Fits(job, runs[i]) && Follows(job, Before(runs, i), runs[i])
  }

  ghost predicate Sound(job: Job, runs: seq<Exec>) {
    forall i :: 0 <= i < |runs| ==> Link(job, runs, i)
  }

  lemma SoundSnoc(job: Job, runs: seq<Exec>, e: Exec)
    requires Sound(job, runs) && Fits(job, e) && Follows(job, Last(runs), e)
    ensures Sound(job, runs + [e]) && Last(runs + [e]) == Some(e)
  {
    var more := runs + [e];
    assert Before(more, |runs|) == Last(runs);
    forall i | 0 <= i < |runs| ensures Link(job, more, i) {
      assert Link(job, runs, i) && Before(more, i) == Before(runs, i);
    }
  }

  lemma GatherIsMiddle(job: Job, role: Role)
    requires ValidJob(job) && InPlan(job, role)
    ensures IsGather(job, role) <==> role.k % 3 == 1
    ensures role.k % 3 == 1 ==> job.plan[role.k - 1].kind == Travel
  {
  }

  // ---- Order ----

  /** Position of a role in program order. */
  function Rank(job: Job, role: Role): nat {
    role.cycle * (2 * |job.collect| + |job.plan|) +
    match role
    case CollectRun(_, i) => 2 * i
    case CollectReset(_, i) => 2 * i + 1
    case PlanRun(_, k) => 2 * |job.collect| + k
  }

  lemma RankStep(job: Job, a: Exec, b: Exec)
    requires ValidJob(job) && Fits(job, a) && Fits(job, b) && Follows(job, Some(a), b)
    ensures a.role == b.role || Rank(job, a.role) < Rank(job, b.role)
  {
    if a.role != b.role && b.role.cycle == a.role.cycle + 1 {
      assert a.role == PlanRun(a.role.cycle, |job.plan| - 1);
      var w := 2 * |job.collect| + |job.plan|;
      assert b.role.cycle * w == a.role.cycle * w + w;
    }
  }

  /** Executions happen in program order, one after the other. */
  lemma {:induction false} RanksNondecreasing(job: Job, runs: seq<Exec>, i: nat, j: nat)
    requires ValidJob(job) && Sound(job, runs) && i <= j < |runs|
    ensures Rank(job, runs[i].role) <= Rank(job, runs[j].role)
    ensures runs[i].role != runs[j].role ==> Rank(job, runs[i].role) < Rank(job, runs[j].role)
    ensures i < j ==> runs[i].finish <= runs[j].start
    decreases j
  {
    if i < j {
      RanksNondecreasing(job, runs, i, j - 1);
      assert Link(job, runs, j - 1) && Link(job, runs, j);
      RankStep(job, runs[j - 1], runs[j]);
    }
  }

  lemma SameRoleBetween(job: Job, runs: seq<Exec>, i: nat, m: nat, j: nat)
    requires ValidJob(job) && Sound(job, runs) && i <= m <= j < |runs| && runs[i].role == runs[j].role
    ensures runs[m].role == runs[i].role
  {
    RanksNondecreasing(job, runs, i, m);
    RanksNondecreasing(job, runs, m, j);
  }

  /** Every Travel, Reset and Collect step runs at most twice in its cycle, and the second
      time only after a failure that recovery repaired; a collect never runs twice. */
  lemma AtMostTwice(job: Job, runs: seq<Exec>, i: nat, j: nat)
    requires ValidJob(job) && Sound(job, runs) && i < j < |runs|
    requires runs[i].role == runs[j].role && !IsGather(job, runs[i].role)
    ensures j == i + 1 && runs[i].role.PlanRun? && StepFailed(runs[i]) && runs[i].recovery == Rejoined
    ensures !runs[i].retry && runs[j].retry
    ensures i > 0 ==> runs[i - 1].role != runs[i].role
    ensures j + 1 < |runs| ==> runs[j + 1].role != runs[j].role
  {
    assert Link(job, runs, i) && Link(job, runs, i + 1);
    SameRoleBetween(job, runs, i, i + 1, j);
    if i + 1 < j {
      SameRoleBetween(job, runs, i, i + 2, j);
      NoThirdRun(job, runs, i);
    }
    assert j + 1 < |runs| ==> Link(job, runs, j + 1);
  }

  lemma NoThirdRun(job: Job, runs: seq<Exec>, i: nat)
    requires Sound(job, runs) && i + 2 < |runs| && !IsGather(job, runs[i].role)
    requires runs[i].role == runs[i + 1].role
    ensures runs[i + 2].role != runs[i].role
  {
    assert Link(job, runs, i + 1) && Link(job, runs, i + 2);
  }

  /** A failed gather, and any failure that recovery did not repair, is the session's last execution. */
  lemma FailureEndsSession(job: Job, runs: seq<Exec>, i: nat)
    requires ValidJob(job) && Sound(job, runs) && i + 1 < |runs|
    ensures Done(job, runs[i]) || (StepFailed(runs[i]) && runs[i].recovery == Rejoined && !IsGather(job, runs[i].role))
    ensures StepFailed(runs[i]) ==> runs[i + 1].role == runs[i].role
  {
    assert Link(job, runs, i) && Link(job, runs, i + 1);
  }

  /** A gather execution is preceded, in its own cycle, by a succeeded or skipped travel to
      its field, and only executions of that gather lie in between. */
  lemma {:induction false} GatherFollowsTravel(job: Job, runs: seq<Exec>, i: nat) returns (t: nat)
    requires ValidJob(job) && Sound(job, runs) && i < |runs| && IsGather(job, runs[i].role)
    ensures t < i && runs[i].role.k > 0 && job.plan[runs[i].role.k - 1].kind == Travel
    ensures runs[t].role == PlanRun(runs[i].role.cycle, runs[i].role.k - 1) && Passed(runs[t])
    ensures forall m :: t < m <= i ==> runs[m].role == runs[i].role
    ensures forall m :: t < m < i ==> Passed(runs[m]) && runs[m].fieldDeadline == runs[i].fieldDeadline
    ensures runs[i].fieldDeadline.Some?
    ensures runs[t].finish + GatherMs(job, runs[i].role) <= runs[i].fieldDeadline.value
    ensures runs[i].fieldDeadline.value <= runs[t + 1].start + GatherMs(job, runs[i].role)
  {
    GatherIsMiddle(job, runs[i].role);
    GatherIsMiddle(job, runs[i].role.(k := runs[i].role.k - 1));
    assert Link(job, runs, i);
    if runs[i - 1].role == runs[i].role {
      t := GatherFollowsTravel(job, runs, i - 1);
    } else {
      t := i - 1;
    }
  }

  /** By the time a step runs, every earlier Travel and Reset of every cycle has completed. */
  lemma {:induction false} EarlierStepsCompleted(job: Job, runs: seq<Exec>, i: nat, c: nat, k: nat) returns (t: nat)
    requires ValidJob(job) && Sound(job, runs) && i < |runs|
    requires 1 <= c && k < |job.plan| && job.plan[k].kind != Gather
    requires c < runs[i].role.cycle || (c == runs[i].role.cycle && runs[i].role.PlanRun? && k < runs[i].role.k)
    ensures t < i && runs[t].role == PlanRun(c, k) && Passed(runs[t])
    decreases i
  {
    assert Link(job, runs, i);
    var a := runs[i - 1];
    if a.role == PlanRun(c, k) && Passed(a) {
      t := i - 1;
    } else {
      t := EarlierStepsCompleted(job, runs, i - 1, c, k);
    }
  }

  /** When the reset after a gather runs, the gather has had its whole time since its travel. */
  lemma {:induction false} ResetWaits(job: Job, runs: seq<Exec>, i: nat, c: nat, k: nat) returns (t: nat)
    requires ValidJob(job) && Sound(job, runs) && i < |runs|
    requires IsGather(job, PlanRun(c, k)) && runs[i].role == PlanRun(c, k + 1)
    ensures t < i && k > 0 && runs[t].role == PlanRun(c, k - 1) && Passed(runs[t])
    ensures runs[t].finish + GatherMs(job, PlanRun(c, k)) <= runs[i].start
  {
    GatherIsMiddle(job, PlanRun(c, k));
    GatherIsMiddle(job, PlanRun(c, k - 1));
    assert Link(job, runs, i);
    GatherIsMiddle(job, runs[i].role);
    if runs[i - 1].role == runs[i].role {
      t := ResetWaits(job, runs, i - 1, c, k);
      assert Link(job, runs, i - 1);
    } else if runs[i - 1].role == PlanRun(c, k) {
      t := GatherFollowsTravel(job, runs, i - 1);
    } else {
      t := i - 1;
    }
  }

  /** Unless it is paused, a session fills the time of a gather: from the end of its travel on, one
      execution of the gather follows another without a gap, until the time is over. */
  lemma {:induction false} GatherFillsItsTime(job: Job, runs: seq<Exec>, i: nat) returns (t: nat)
    requires ValidJob(job) && Sound(job, runs) && 0 < i < |runs|
    requires runs[i].role.PlanRun? && !runs[i].retry && 0 < runs[i].role.k
    requires var gather := PlanRun(runs[i].role.cycle, runs[i].role.k - 1);
      IsGather(job, gather) && GatherMs(job, gather) > 0
    requires forall m :: 0 <= m < i ==> job.ports.waits(runs[m].finish) == 0
    ensures var gather := PlanRun(runs[i].role.cycle, runs[i].role.k - 1);
      && t + 1 < i && runs[t].role == PlanRun(gather.cycle, gather.k - 1) && Passed(runs[t])
      && (forall m :: t < m < i ==> runs[m].role == gather && runs[m].start == runs[m - 1].finish)
      && runs[t].finish + GatherMs(job, gather) <= runs[i - 1].finish == runs[i].start
  {
    assert Link(job, runs, i);
    t := GatherFollowsTravel(job, runs, i - 1);
    forall m | t < m < i ensures runs[m].start == runs[m - 1].finish {
      assert Link(job, runs, m);
    }
  }

  /** Whatever a session executes after a gather step starts no earlier than the gather's whole time
      after the travel to its field, even if the gather itself executed nothing. */
  lemma GatherTakesItsTime(job: Job, runs: seq<Exec>, i: nat, c: nat, k: nat) returns (t: nat)
    requires ValidJob(job) && Sound(job, runs) && i < |runs|
    requires 1 <= c && IsGather(job, PlanRun(c, k))
    requires c < runs[i].role.cycle || (c == runs[i].role.cycle && runs[i].role.PlanRun? && k < runs[i].role.k)
    ensures t < i && k > 0 && runs[t].role == PlanRun(c, k - 1) && Passed(runs[t])
    ensures runs[t].finish + GatherMs(job, PlanRun(c, k)) <= runs[i].start
  {
    GatherIsMiddle(job, PlanRun(c, k));
    if runs[i].role == PlanRun(c, k + 1) {
      t := ResetWaits(job, runs, i, c, k);
    } else {
      assert Link(job, runs, i);
      var j := EarlierStepsCompleted(job, runs, i, c, k + 1);
      t := ResetWaits(job, runs, j, c, k);
      assert Link(job, runs, j);
      RanksNondecreasing(job, runs, j, i);
    }
  }

  /** Step `k` of cycle `c` was not passed over: a travel or reset has passed, a gather had its time. */
  ghost predicate StepDone(job: Job, runs: seq<Exec>, c: nat, k: nat) {
    if IsGather(job, PlanRun(c, k))
    then k > 0 && exists t, i :: TookItsTime(job, runs, c, k, t, i)
    else exists e <- runs :: e.role == PlanRun(c, k) && Passed(e)
  }

  ghost predicate TookItsTime(job: Job, runs: seq<Exec>, c: nat, k: nat, t: nat, i: nat)
    requires IsGather(job, PlanRun(c, k)) && k > 0
  {
    && t < i < |runs| && runs[t].role == PlanRun(c, k - 1) && Passed(runs[t])
    && runs[i].role == PlanRun(c, k + 1) && Passed(runs[i])
    && runs[t].finish + GatherMs(job, PlanRun(c, k)) <= runs[i].start
  }

  /** Every step of every cycle was done. */
  ghost predicate AllDone(job: Job, runs: seq<Exec>) {
    forall c: nat, k: nat :: 1 <= c <= job.maxCycles && k < |job.plan| ==> StepDone(job, runs, c, k)
  }

  /** A session at the end of its last cycle has done every step of every cycle. */
  lemma EndMeansAllDone(job: Job, runs: seq<Exec>)
    requires ValidJob(job) && Sound(job, runs) && AtCollect(job, Last(runs), job.maxCycles + 1, 0)
    ensures AllDone(job, runs)
  {
    forall c: nat, k: nat | 1 <= c <= job.maxCycles && k < |job.plan|
      ensures StepDone(job, runs, c, k)
    {
      GatherIsMiddle(job, PlanRun(c, k));
      if IsGather(job, PlanRun(c, k)) {
        var i := PassedByTheEnd(job, runs, c, k + 1);
        var t := ResetWaits(job, runs, i, c, k);
        assert TookItsTime(job, runs, c, k, t, i);
      } else {
        var i := PassedByTheEnd(job, runs, c, k);
        assert runs[i] in runs;
      }
    }
  }

  lemma PassedByTheEnd(job: Job, runs: seq<Exec>, c: nat, k: nat) returns (i: nat)
    requires ValidJob(job) && Sound(job, runs) && AtCollect(job, Last(runs), job.maxCycles + 1, 0)
    requires 1 <= c <= job.maxCycles && k < |job.plan| && job.plan[k].kind != Gather
    ensures i < |runs| && runs[i].role == PlanRun(c, k) && Passed(runs[i])
  {
    var last := |runs| - 1;
    if runs[last].role == PlanRun(c, k) {
      i := last;
    } else {
      i := EarlierStepsCompleted(job, runs, last, c, k);
    }
  }

  // ---- Counting ----

  /** A completed execution that the run record counts as failed. */
  predicate CountsFailed(e: Exec) {
    e.end.Completed? && !Passed(e) && !(e.role.PlanRun? && e.end.outcome == Cancelled)
  }

  function CountPassed(runs: seq<Exec>): nat {
    if runs == [] then 0 else CountPassed(runs[..|runs| - 1]) + if Passed(runs[|runs| - 1]) then 1 else 0
  }

  function CountFailed(runs: seq<Exec>): nat {
    if runs == [] then 0 else CountFailed(runs[..|runs| - 1]) + if CountsFailed(runs[|runs| - 1]) then 1 else 0
  }

  lemma CountSnoc(runs: seq<Exec>, e: Exec)
    ensures CountPassed(runs + [e]) == CountPassed(runs) + if Passed(e) then 1 else 0
    ensures CountFailed(runs + [e]) == CountFailed(runs) + if CountsFailed(e) then 1 else 0
  {
    assert (runs + [e])[..|runs|] == runs;
  }
}
