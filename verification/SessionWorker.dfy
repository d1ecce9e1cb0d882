/**
 The legacy session worker: preflight, then cycles of due collects and plan steps, each
 call bounded by the session deadline and, for gathers, by the field deadline.

 Port answers, script durations, pauses, the instant of a user cancellation and store
 failures are parameters (`Ports`); every call takes at least one clock tick.
 */
module SessionWorker {
  import opened Wrappers
  import opened SessionPlan
  import opened SessionTrace

  // ---- Bounded calls ----

  /** The instant, if there is one, has come. */
  predicate PassedBy(instant: Option<nat>, now: nat) {
    instant.Some? && instant.value <= now
  }

  function Later(a: nat, b: nat): nat {
    if a <= b then b else a
  }

  /** Instants at which each branch of the biased race becomes ready. */
  datatype Race = Race(now: nat, cancelAt: Option<nat>, session: nat, field: Option<nat>, doneAt: Option<nat>)

  predicate ReadyBy(r: Race, cause: Option<CutBy>, t: nat) {
    match cause
    case Some(User) => PassedBy(r.cancelAt, t)
    case Some(SessionLimit) => r.session <= t
    case Some(FieldLimit) => r.field.Some? && r.field.value <= t
    case None => r.doneAt.Some? && r.doneAt.value <= t
  }

  function Sooner(a: (nat, Option<CutBy>), at: Option<nat>, now: nat, cause: Option<CutBy>): (nat, Option<CutBy>) {
    if at.Some? && Later(at.value, now) < a.0 then (Later(at.value, now), cause) else a
  }

  /** The branch that a biased select takes, and when: cancellation before the session
      deadline before the field deadline before completion. */
  function Winner(r: Race): (w: (nat, Option<CutBy>))
    requires r.doneAt.Some? ==> r.now < r.doneAt.value
    ensures r.now <= w.0 <= Later(r.now, r.session) && ReadyBy(r, w.1, w.0)
    ensures forall t, cause | r.now <= t < w.0 :: !ReadyBy(r, cause, t)
    ensures w.1 != Some(User) ==> !ReadyBy(r, Some(User), w.0)
    ensures w.1 == Some(FieldLimit) || w.1 == None ==> !ReadyBy(r, Some(SessionLimit), w.0)
    ensures w.1 == None ==> !ReadyBy(r, Some(FieldLimit), w.0)
  {
    var session := (Later(r.now, r.session), Some(SessionLimit));
    var user := if r.cancelAt.Some? && Later(r.now, r.cancelAt.value) <= session.0
                then (Later(r.now, r.cancelAt.value), Some(User)) else session;
    Sooner(Sooner(user, r.field, r.now, Some(FieldLimit)), r.doneAt, r.now, None)
  }

  // ---- Persisted cooldowns ----

  datatype Stamp = At(t: nat) | Malformed

  /** A written last-run time; `after` is how many executions the session had made. */
  datatype Record = Record(key: string, at: nat, after: nat)

  /** A cooldown check of entry `i` in cycle `cycle`, after `before` executions: what was stored, when it
      was made and what it found. */
  datatype Check = Check(cycle: nat, i: nat, stored: map<string, Stamp>, at: nat, before: nat, due: bool)

  /** `None` when the stored value cannot be read as a time. */
  function CollectDue(stamps: map<string, Stamp>, key: string, cooldownMinutes: nat, now: nat): Option<bool> {
    if key !in stamps then Some(true)
    else if stamps[key].Malformed? then None
    else Some(WholeMinutes(now - stamps[key].t) >= cooldownMinutes)
  }

  /** The check found what the stored time says, and an entry found due ran completely. */
  ghost predicate Kept(job: Job, runs: seq<Exec>, k: Check) {
    && k.i < |job.collect|
    && CollectDue(k.stored, job.collect[k.i].lastRunKey, job.collect[k.i].cooldownMinutes, k.at) == Some(k.due)
    && (k.due ==> RanAt(job, runs, k.before, k.cycle, k.i))
  }

  /** Executions `n` and `n + 1` are the passed script and reset of an entry. */
  predicate RanAt(job: Job, runs: seq<Exec>, n: nat, c: nat, i: nat) {
    && n + 1 < |runs|
    && runs[n].role == CollectRun(c, i) && Passed(runs[n])
    && runs[n + 1].role == CollectReset(c, i) && Passed(runs[n + 1])
  }

  /** Entry `i` of cycle `c` was checked, and the check kept. */
  ghost predicate Considered(job: Job, runs: seq<Exec>, checks: seq<Check>, c: nat, i: nat) {
    exists q :: 0 <= q < |checks| && checks[q].cycle == c && checks[q].i == i && Kept(job, runs, checks[q])
  }

  ghost predicate CycleConsidered(job: Job, runs: seq<Exec>, checks: seq<Check>, c: nat, n: nat) {
    forall i: nat :: i < n ==> Considered(job, runs, checks, c, i)
  }

  /** Every entry was checked in every one of the first `cycles` cycles. */
  ghost predicate AllConsidered(job: Job, runs: seq<Exec>, checks: seq<Check>, cycles: nat) {
    forall d: nat :: 1 <= d <= cycles ==> CycleConsidered(job, runs, checks, d, |job.collect|)
  }

  lemma ConsideredExtends(job: Job, runs: seq<Exec>, checks: seq<Check>, more: seq<Exec>, all: seq<Check>,
                          c: nat, n: nat)
    requires CycleConsidered(job, runs, checks, c, n) && runs <= more && checks <= all
    ensures CycleConsidered(job, more, all, c, n)
  {
    forall i: nat | i < n ensures Considered(job, more, all, c, i) {
      assert Considered(job, runs, checks, c, i);
      var q :| 0 <= q < |checks| && checks[q].cycle == c && checks[q].i == i && Kept(job, runs, checks[q]);
      assert all[q] == checks[q] && Kept(job, more, all[q]);
    }
  }

  /** A collect is due exactly without a stored time, or once its whole cooldown has passed since. */
  lemma CollectDueIff(stamps: map<string, Stamp>, key: string, cooldownMinutes: nat, now: nat)
    requires cooldownMinutes > 0
    ensures CollectDue(stamps, key, cooldownMinutes, now) == Some(true) <==>
      key !in stamps || (stamps[key].At? && now >= stamps[key].t + cooldownMinutes * 60_000)
    ensures CollectDue(stamps, key, cooldownMinutes, now) == None <==> key in stamps && stamps[key].Malformed?
  {
  }

  /** Only an unreadable time can stay unreadable. */
  ghost predicate Fresher(stored: map<string, Stamp>, stamps: map<string, Stamp>) {
    forall key <- stamps :: stamps[key].Malformed? ==> key in stored && stored[key].Malformed?
  }

  /** Some entry's stored time cannot be read. */
  ghost predicate Unreadable(collect: seq<CollectStep>, stamps: map<string, Stamp>) {
    exists i :: 0 <= i < |collect| && collect[i].lastRunKey in stamps && stamps[collect[i].lastRunKey].Malformed?
  }

  /** Whole minutes in a signed span, truncated towards zero. */
  function WholeMinutes(span: int): int {
    if span < 0 then -(-span / 60_000) else span / 60_000
  }

  /** Validated cooldowns are at least five minutes. */
  predicate Cooled(collect: seq<CollectStep>) {
    forall i :: 0 <= i < |collect| ==> collect[i].cooldownMinutes > 0
  }

  /** `minutes` is no larger than any cooldown configured under `key`. */
  ghost predicate SmallestCooldown(collect: seq<CollectStep>, key: string, minutes: nat) {
    forall i :: 0 <= i < |collect| && collect[i].lastRunKey == key ==> minutes <= collect[i].cooldownMinutes
  }

  ghost predicate SpacedPair(collect: seq<CollectStep>, a: Record, b: Record) {
    a.key == b.key ==>
      forall minutes: nat | SmallestCooldown(collect, b.key, minutes) :: b.at - a.at >= minutes * 60_000
  }

  /** Records of one key are at least its smallest cooldown apart. */
  ghost predicate Spaced(collect: seq<CollectStep>, log: seq<Record>) {
    forall i, j | 0 <= i < j < |log| :: SpacedPair(collect, log[i], log[j])
  }

  /** The store still holds the newest record of every key. */
  ghost predicate StoreCurrent(stamps: map<string, Stamp>, log: seq<Record>) {
    forall i :: 0 <= i < |log| ==>
      log[i].key in stamps && stamps[log[i].key].At? && log[i].at <= stamps[log[i].key].t
  }

  /** A record is written only after the collect script and its reset both completed. */
  ghost predicate Justified(job: Job, runs: seq<Exec>, r: Record) {
    && 2 <= r.after <= |runs|
    && var reset := runs[r.after - 1]; var collect := runs[r.after - 2];
    && reset.role.CollectReset? && collect.role == CollectRun(reset.role.cycle, reset.role.i)
    && Passed(collect) && Passed(reset) && reset.finish <= r.at
    && reset.role.i < |job.collect| && job.collect[reset.role.i].lastRunKey == r.key
  }

  /** Why the session loop ended early. */
  datatype Why =
    | SessionCancelled | TimeLimit | StepDidFail | GatherRejoined | RecoveryExpired
    | CollectDidFail | CooldownReadFailed | CooldownWriteFailed

  predicate StoreFault(why: Why) {
    why == CooldownReadFailed || why == CooldownWriteFailed
  }

  predicate Stopped(why: Why) {
    why == SessionCancelled || why == TimeLimit
  }

  datatype FinalState = Idle | AttentionNeeded | Faulted

  function FinalFor(why: Option<Why>): FinalState {
    if why.None? || Stopped(why.value) then Idle
    else if StoreFault(why.value) then Faulted
    else AttentionNeeded
  }

  /** What the last execution and the clock say about the reason. */
  predicate WhyFits(job: Job, last: Option<Exec>, why: Why, now: nat) {
    match why
    case StepDidFail =>
      last.Some? && StepFailed(last.value) && last.value.recovery in {NotTried, NotRejoined}
    case GatherRejoined =>
      last.Some? && StepFailed(last.value) && IsGather(job, last.value.role) && last.value.recovery == Rejoined
    case RecoveryExpired =>
      && last.Some? && StepFailed(last.value) && IsGather(job, last.value.role)
      && last.value.recovery == FieldExpired && PassedBy(last.value.fieldDeadline, now)
    case CollectDidFail => last.Some? && !last.value.role.PlanRun? && last.value.end.Completed? && !Passed(last.value)
    case SessionCancelled =>
      && (last.Some? ==> CutShort(job, last.value))
      && (PassedBy(job.cancelAt, now)
          || (last.Some? && last.value.role.PlanRun? && last.value.end == Completed(Cancelled)))
    case TimeLimit => (last.Some? ==> CutShort(job, last.value)) && job.deadline <= now
    case CooldownReadFailed => last.Some? ==> Passed(last.value)
    case CooldownWriteFailed => last.Some? && last.value.role.CollectReset? && Passed(last.value)
  }

  /** The last execution of a session that was cancelled or ran out of time did not fail
      for good: it completed, was cut, was cancelled, or its recovery was interrupted or done. */
  predicate CutShort(job: Job, e: Exec) {
    || Done(job, e) || e.end.Cut? || (e.role.PlanRun? && e.end == Completed(Cancelled))
    || (StepFailed(e) && (e.recovery == Interrupted || (e.recovery == Rejoined && !IsGather(job, e.role))))
  }

  class SessionHost {
    var now: nat
    var stamps: map<string, Stamp>
    ghost var log: seq<Record>
    ghost var logStart: nat
    ghost var runs: seq<Exec>
    var preflighted: set<(string, string)>
    /** How often this session has asked the store, what it held at first, and what the checks found. */
    var storeAsked: nat
    ghost var stored: map<string, Stamp>
    ghost var checks: seq<Check>
    var succeeded: nat
    var failed: nat

    /** The executions so far are sound, over, and counted. */
    ghost predicate TraceInv(job: Job)
      reads `now, `runs, `succeeded, `failed
    {
      TraceWith(job, 0)
    }

    ghost predicate TraceWith(job: Job, faults: nat)
      reads `now, `runs, `succeeded, `failed
    {
      Recorded(job, faults) && After(job, Last(runs), now)
    }

    /** The same, while another execution may be under way. */
    ghost predicate Recorded(job: Job, faults: nat)
      reads `runs, `succeeded, `failed
    {
      Sound(job, runs) && succeeded == CountPassed(runs) && failed == CountFailed(runs) + faults
    }

    /** This session's records each follow a completed collect and reset. */
    ghost predicate RecordsInv(job: Job)
      reads `runs, `log, `logStart
    {
      logStart <= |log| && forall i :: logStart <= i < |log| ==> Justified(job, runs, log[i])
    }

    ghost predicate StoreInv(job: Job)
      reads `stamps, `log, `stored
    {
      && Cooled(job.collect) && Spaced(job.collect, log) && StoreCurrent(stamps, log)
      && Fresher(stored, stamps)
    }

    /** The store's next answer: whether it can be read or written. */
    method StoreAnswers(job: Job) returns (ok: bool)
      modifies this`storeAsked
      ensures storeAsked == old(storeAsked) + 1 && ok == job.ports.store(old(storeAsked))
    {
      ok := job.ports.store(storeAsked);
      storeAsked := storeAsked + 1;
    }

    /** The store has failed in this session. */
    ghost predicate StoreFailed(job: Job)
      reads `storeAsked
    {
      exists n :: 0 <= n < storeAsked && !job.ports.store(n)
    }

    /** A store fault has its cause in the store. */
    ghost predicate FaultsHaveCauses(job: Job, why: Option<Why>)
      reads `storeAsked, `stored
    {
      && (why == Some(CooldownWriteFailed) ==> StoreFailed(job))
      && (why == Some(CooldownReadFailed) ==> StoreFailed(job) || Unreadable(job.collect, stored))
    }

    /** Waits while the run is paused; false once it is cancelled. */
    method Checkpoint(job: Job) returns (go: bool)
      modifies this`now
      ensures now == old(now) + job.ports.waits(old(now)) && go == !PassedBy(job.cancelAt, now)
    {
      now := now + job.ports.waits(now);
      go := !PassedBy(job.cancelAt, now);
    }

    /** The looks between two calls: a checkpoint, then the session limit. */
    method Look(job: Job) returns (stop: Option<Why>)
      modifies this`now
      ensures now == old(now) + job.ports.waits(old(now))
      ensures stop.None? ==> now < job.deadline && !PassedBy(job.cancelAt, now)
      ensures stop.Some? ==>
        || (stop == Some(SessionCancelled) && PassedBy(job.cancelAt, now))
        || (stop == Some(TimeLimit) && job.deadline <= now)
    {
      var go := Checkpoint(job);
      if !go {
        return Some(SessionCancelled);
      }
      if now >= job.deadline {
        return Some(TimeLimit);
      }
      return None;
    }

    /** `bounded_legacy_call`; `None` means the operation completed. */
    method BoundedCall(job: Job, field: Option<nat>) returns (cut: Option<CutBy>)
      modifies this`now
      ensures old(now) <= now <= Later(old(now), job.deadline) + GRACE_MS
      ensures cut == Some(FieldLimit) ==> field.Some? && field.value <= now
      ensures cut == Some(SessionLimit) ==> job.deadline <= now
      ensures cut == Some(User) ==> PassedBy(job.cancelAt, now)
      ensures cut.None? ==>
        && now < Later(old(now) + 1, job.deadline) && !PassedBy(job.cancelAt, now)
        && job.ports.calls(old(now)).takes == Some(now - old(now) - 1)
      ensures field.Some? ==> now <= Later(old(now), field.value) + GRACE_MS
      ensures
        && old(now) < job.deadline && !PassedBy(job.cancelAt, old(now)) && (field.Some? ==> old(now) < field.value)
        ==> old(now) < now
    {
      var takes := job.ports.calls(now).takes;
      var race := Race(now, job.cancelAt, job.deadline, field,
                       if takes.Some? then Some(now + takes.value + 1) else None);
      var w := Winner(race);
      assert field.Some? ==> w.0 <= Later(now, field.value) by {
        assert field.Some? ==> ReadyBy(race, Some(FieldLimit), Later(now, field.value));
      }
      assert ReadyBy(race, w.1, w.0);
      var grace: nat :| 0 <= grace;
      now := w.0 + if w.1.None? then 0 else grace % (GRACE_MS + 1);
      cut := w.1;
    }

    /** Runs one script once. */
    method Execute(job: Job, role: Role, field: Option<nat>, retry: bool) returns (e: Exec)
      requires ValidRole(job, role) && now < job.deadline && !PassedBy(job.cancelAt, now)
      requires field.Some? == IsGather(job, role) && (field.Some? ==> now < field.value)
      modifies this`now
      ensures old(now) == e.start < e.finish == now
      ensures e.role == role && e.fieldDeadline == field && e.retry == retry && e.recovery == NotTried
      ensures e.end.Completed? ==> now < job.deadline && !PassedBy(job.cancelAt, now)
      ensures FitsTimes(job, e)
    {
      var start := now;
      var cut := BoundedCall(job, field);
      var outcome := job.ports.calls(start).outcome;
      var step := StepOf(job, role);
      e := Exec(role, step.scriptId, step.approvedSha, start, now, field,
                if cut.Some? then Cut(cut.value) else Completed(outcome), retry, NotTried);
    }

    /** Attempts disconnect recovery after a failed step. */
    method Recover(job: Job, field: Option<nat>) returns (r: Recovery, cut: Option<CutBy>)
      modifies this`now
      ensures old(now) <= now && r != NotTried && (r == FieldExpired ==> field.Some?)
      ensures r == Interrupted <==> cut.Some? && cut.value != FieldLimit
      ensures r == Interrupted ==> CutAt(job, cut, now)
      ensures r == FieldExpired ==> PassedBy(field, now)
      ensures (r == Rejoined ==> job.ports.calls(old(now)).rejoins)
      ensures (r == NotRejoined ==> !job.ports.calls(old(now)).rejoins)
    {
      var rejoined := job.ports.calls(now).rejoins;
      cut := BoundedCall(job, field);
      r := if cut == Some(FieldLimit) then FieldExpired else if cut.Some? then Interrupted
           else if rejoined then Rejoined else NotRejoined;
    }

    /** Adds a finished execution to the trace, and counts it. */
    method Append(job: Job, ghost e: Exec, passed: bool, counted: bool)
      requires Recorded(job, 0) && RecordsInv(job) && After(job, Some(e), now)
      requires Fits(job, e) && Follows(job, Last(runs), e)
      requires passed == Passed(e) && counted == CountsFailed(e)
      modifies `runs, `succeeded, `failed
      ensures TraceInv(job) && RecordsInv(job)
      ensures |runs| == |old(runs)| + 1 && old(runs) <= runs && Last(runs) == Some(e)
    {
      SoundSnoc(job, runs, e);
      CountSnoc(runs, e);
      JustifiedExtends(job, runs, e, log, logStart);
      runs := runs + [e];
      succeeded := succeeded + if passed then 1 else 0;
      failed := failed + if counted then 1 else 0;
    }

    /** Handles a failed plan step `x`: recovery is tried once per step. */
    method Fail(job: Job, x: Exec) returns (ghost e: Exec, why: Option<Why>)
      requires Recorded(job, 0) && RecordsInv(job) && StepFailed(x) && FitsTimes(job, x) && x.finish == now
      requires Follows(job, Last(runs), x) && x.recovery == NotTried
      modifies `now, `runs, `succeeded, `failed
      ensures old(runs) <= runs
      ensures TraceInv(job) && RecordsInv(job) && old(now) <= now
      ensures Last(runs) == Some(e) && e == x.(recovery := e.recovery) && FailureResolved(job, e, why, now)
    {
      var recovery, cut := NotTried, None;
      if job.reconnect && !x.retry {
        recovery, cut := Recover(job, x.fieldDeadline);
      }
      e, why := Resolve(job, x, recovery, cut);
    }

    /** Records a failed step with its recovery attempt. */
    method Resolve(job: Job, x: Exec, recovery: Recovery, cut: Option<CutBy>)
      returns (ghost e: Exec, why: Option<Why>)
      requires Recorded(job, 0) && RecordsInv(job) && StepFailed(x) && FitsTimes(job, x) && x.finish <= now
      requires Follows(job, Last(runs), x)
      requires recovery == NotTried <==> !(job.reconnect && !x.retry)
      requires recovery == FieldExpired ==> x.fieldDeadline.Some?
      requires recovery == Interrupted ==> CutAt(job, cut, now)
      requires recovery == FieldExpired ==> PassedBy(x.fieldDeadline, now)
      requires (recovery == Rejoined ==> job.ports.calls(x.finish).rejoins)
      requires (recovery == NotRejoined ==> !job.ports.calls(x.finish).rejoins)
      modifies `runs, `succeeded, `failed
      ensures old(runs) <= runs
      ensures TraceInv(job) && RecordsInv(job)
      ensures Last(runs) == Some(e) && e == x.(recovery := e.recovery) && FailureResolved(job, e, why, now)
    {
      e := x.(recovery := recovery);
      FailedStep(job, Last(runs), x, e, cut, now);
      Append(job, e, false, true);
      why := AfterRecovery(recovery, cut, x.fieldDeadline.Some?);
    }

    /** Handles a plan step `x` that passed, was cut or was cancelled. */
    method Settle(job: Job, x: Exec) returns (why: Option<Why>)
      requires Recorded(job, 0) && RecordsInv(job) && x.role.PlanRun? && !StepFailed(x) && x.finish == now
      requires FitsTimes(job, x) && Follows(job, Last(runs), x) && x.recovery == NotTried
      modifies `runs, `succeeded, `failed
      ensures old(runs) <= runs
      ensures TraceInv(job) && RecordsInv(job) && Last(runs) == Some(x)
      ensures why.None? <==> Passed(x) || x.end == Cut(FieldLimit)
      ensures why.Some? ==> Stopped(why.value) && WhyFits(job, Some(x), why.value, now)
    {
      Append(job, x, Passed(x), false);
      assert x.end.Cut? ==> x.end.cause.User? || x.end.cause.SessionLimit? || x.end.cause.FieldLimit?;
      why := if Passed(x) || x.end == Cut(FieldLimit) then None
             else Some(if x.end == Cut(SessionLimit) then TimeLimit else SessionCancelled);
    }

    /** One execution of a plan step, with its recovery attempt. `None` asks for another look
        at the loop conditions. */
    method Attempt(job: Job, role: Role, field: Option<nat>, retry: bool)
      returns (ghost e: Exec, why: Option<Why>, passed: bool)
      requires TraceInv(job) && RecordsInv(job) && role.PlanRun? && ValidRole(job, role)
      requires now < job.deadline && !PassedBy(job.cancelAt, now)
      requires field.Some? == IsGather(job, role) && (field.Some? ==> now < field.value)
      requires MayRun(job, Last(runs), role, field, retry, now)
      modifies `now, `runs, `succeeded, `failed
      ensures old(runs) <= runs
      ensures TraceInv(job) && RecordsInv(job) && old(now) < now
      ensures Last(runs) == Some(e) && e.role == role && e.fieldDeadline == field && e.retry == retry
      ensures why.Some? ==> !StoreFault(why.value) && WhyFits(job, Some(e), why.value, now)
      ensures passed == Passed(e)
      ensures why.None? && !passed ==>
        if field.Some? then e.end == Cut(FieldLimit) && field.value <= now
        else StepFailed(e) && e.recovery == Rejoined && !retry
    {
      var x := Execute(job, role, field, retry);
      MayFollow(job, Last(runs), x);
      passed := Passed(x);
      e := x;
      if StepFailed(x) {
        e, why := Fail(job, x);
      } else {
        why := Settle(job, x);
      }
    }

    /** One plan step: repeats a gather until its deadline, retries another step once after
        a successful recovery. */
    method RunStep(job: Job, c: nat, k: nat) returns (why: Option<Why>)
      requires ValidJob(job)
      requires TraceInv(job) && RecordsInv(job) && 1 <= c <= job.maxCycles && k < |job.plan|
      requires AtStep(job, Last(runs), c, k, now)
      modifies `now, `runs, `succeeded, `failed
      ensures old(runs) <= runs
      ensures TraceInv(job) && RecordsInv(job)
      ensures why.None? ==> AtStep(job, Last(runs), c, k + 1, now)
      ensures why.Some? ==> !StoreFault(why.value) && WhyFits(job, Last(runs), why.value, now)
    {
      var role := PlanRun(c, k);
      StepIsNew(job, Last(runs), c, k, now);
      GatherIsMiddle(job, role);
      why := Look(job);
      if why.Some? {
        return;
      }
      var step := job.plan[k];
      var field := if step.gatherSeconds.Some? then Some(now + step.gatherSeconds.value * 1000) else None;
      why := RepeatStep(job, c, k, field);
    }

    /** The executions of one plan step until its repetitions or its time are over. */
    method RepeatStep(job: Job, c: nat, k: nat, field: Option<nat>) returns (why: Option<Why>)
      requires ValidJob(job)
      requires TraceInv(job) && RecordsInv(job) && 1 <= c <= job.maxCycles && k < |job.plan|
      requires field.Some? == IsGather(job, PlanRun(c, k)) && (field.None? ==> job.plan[k].repetitions == 1)
      requires Last(runs).Some? ==> Last(runs).value.role != PlanRun(c, k) && CutShort(job, Last(runs).value)
      requires MayRun(job, Last(runs), PlanRun(c, k), field, false, now)
      requires field.Some? ==> AtStep(job, Last(runs), c, k + 1, field.value)
      modifies `now, `runs, `succeeded, `failed
      ensures old(runs) <= runs
      ensures TraceInv(job) && RecordsInv(job)
      ensures why.None? ==> AtStep(job, Last(runs), c, k + 1, now)
      ensures why.Some? ==> !StoreFault(why.value) && WhyFits(job, Last(runs), why.value, now)
    {
      var role, step := PlanRun(c, k), job.plan[k];
      var completed, recoveredOnce := 0, false;
      while true
        invariant TraceInv(job) && RecordsInv(job) && old(runs) <= runs
        invariant Last(runs).Some? ==> CutShort(job, Last(runs).value)
        invariant if field.Some? then !recoveredOnce else completed <= 1
        invariant completed == 0 || field.Some? ==> MayRun(job, Last(runs), role, field, recoveredOnce, now)
        invariant field.Some? || completed == 1 ==>
          AtStep(job, Last(runs), c, k + 1, if field.Some? then field.value else now)
        decreases job.deadline - now
      {
        why := Look(job);
        if why.Some? {
          return;
        }
        if field.Some? && now >= field.value {
          break;
        }
        if field.None? && completed >= step.repetitions {
          break;
        }
        ghost var e;
        var passed;
        e, why, passed := Attempt(job, role, field, recoveredOnce);
        if why.Some? {
          return why;
        }
        if passed {
          completed := completed + 1;
          recoveredOnce := false;
        } else if field.Some? {
          break;
        } else {
          recoveredOnce := true;
        }
      }
      return None;
    }

    /** Executes one script of a collect entry. */
    method RunScript(job: Job, role: Role) returns (why: Option<Why>)
      requires TraceInv(job) && RecordsInv(job) && !role.PlanRun? && ValidRole(job, role)
      requires now < job.deadline && !PassedBy(job.cancelAt, now)
      requires Begins(job, Last(runs), role, now) && (Last(runs).Some? ==> Last(runs).value.role != role)
      modifies `now, `runs, `succeeded, `failed
      ensures TraceInv(job) && RecordsInv(job) && old(now) <= now
      ensures Last(runs).Some? && Last(runs).value.role == role && |runs| == |old(runs)| + 1 && old(runs) <= runs
      ensures why.None? ==> Passed(Last(runs).value) && now < job.deadline && !PassedBy(job.cancelAt, now)
      ensures why.Some? ==>
        (Stopped(why.value) || why == Some(CollectDidFail)) && WhyFits(job, Last(runs), why.value, now)
    {
      var x := Execute(job, role, None, false);
      MayFollow(job, Last(runs), x);
      why := SettleScript(job, x);
    }

    /** Records and judges a collect script or reset that has just run. */
    method SettleScript(job: Job, x: Exec) returns (why: Option<Why>)
      requires Recorded(job, 0) && RecordsInv(job) && !x.role.PlanRun? && x.finish == now
      requires FitsTimes(job, x) && Follows(job, Last(runs), x) && x.recovery == NotTried
      modifies `runs, `succeeded, `failed
      ensures TraceInv(job) && RecordsInv(job)
      ensures |runs| == |old(runs)| + 1 && old(runs) <= runs && Last(runs) == Some(x)
      ensures why.None? <==> Passed(x)
      ensures why.Some? ==> (Stopped(why.value) || why == Some(CollectDidFail)) && WhyFits(job, Some(x), why.value, now)
    {
      Append(job, x, Passed(x), x.end.Completed? && !Passed(x));
      assert x.end.Cut? && !x.end.cause.SessionLimit? ==> x.end.cause.User?;
      why := if Passed(x) then None
             else if x.end.Completed? then Some(CollectDidFail)
             else Some(if x.end == Cut(SessionLimit) then TimeLimit else SessionCancelled);
    }

    /** The script of a collect entry, then the reset. */
    method RunBoth(job: Job, c: nat, i: nat) returns (why: Option<Why>)
      requires TraceInv(job) && RecordsInv(job)
      requires 1 <= c <= job.maxCycles && i < |job.collect| && AtCollect(job, Last(runs), c, i)
      requires now < job.deadline && !PassedBy(job.cancelAt, now)
      modifies `now, `runs, `succeeded, `failed
      ensures TraceInv(job) && RecordsInv(job) && old(runs) <= runs && old(now) <= now
      ensures why.None? ==> RanAt(job, runs, |old(runs)|, c, i) && |runs| == |old(runs)| + 2
      ensures why.Some? ==>
        (Stopped(why.value) || why == Some(CollectDidFail)) && WhyFits(job, Last(runs), why.value, now)
    {
      why := RunScript(job, CollectRun(c, i));
      if why.Some? {
        return;
      }
      why := RunScript(job, CollectReset(c, i));
    }

    /** A due collect entry. */
    method RunDue(job: Job, c: nat, i: nat) returns (why: Option<Why>)
      requires TraceInv(job) && RecordsInv(job) && StoreInv(job)
      requires 1 <= c <= job.maxCycles && i < |job.collect| && AtCollect(job, Last(runs), c, i)
      requires now < job.deadline && !PassedBy(job.cancelAt, now)
      requires CollectDue(stamps, job.collect[i].lastRunKey, job.collect[i].cooldownMinutes, now) == Some(true)
      modifies `now, `runs, `succeeded, `failed, `stamps, `log, `storeAsked
      ensures TraceWith(job, Faults(why)) && RecordsInv(job) && StoreInv(job) && old(log) <= log && old(now) <= now
      ensures old(runs) <= runs
      ensures FaultsHaveCauses(job, why) && why != Some(CooldownReadFailed)
      ensures why.None? ==> RanAt(job, runs, |old(runs)|, c, i)
      ensures why.None? ==> AtCollect(job, Last(runs), c, i + 1)
      ensures why.None? ==> log == old(log) + [Record(job.collect[i].lastRunKey, now, |runs|)]
      ensures why.Some? ==> WhyFits(job, Last(runs), why.value, now) && log == old(log) && stamps == old(stamps)
    {
      why := RunBoth(job, c, i);
      if why.Some? {
        return;
      }
      why := WriteLastRun(job, i, old(now));
    }

    /** Persists the time of a completed collect that was due at `checkedAt`. */
    method WriteLastRun(job: Job, i: nat, ghost checkedAt: nat) returns (why: Option<Why>)
      requires TraceInv(job) && RecordsInv(job) && StoreInv(job) && i < |job.collect| && checkedAt <= now
      requires CollectDue(stamps, job.collect[i].lastRunKey, job.collect[i].cooldownMinutes, checkedAt) == Some(true)
      requires Justified(job, runs, Record(job.collect[i].lastRunKey, now, |runs|))
      modifies `stamps, `log, `failed, `storeAsked
      ensures TraceWith(job, Faults(why)) && RecordsInv(job) && StoreInv(job)
      ensures why.None? ==>
        && stamps == old(stamps)[job.collect[i].lastRunKey := At(now)]
        && log == old(log) + [Record(job.collect[i].lastRunKey, now, |runs|)]
      ensures why.Some? ==>
        why == Some(CooldownWriteFailed) && StoreFailed(job) && log == old(log) && stamps == old(stamps)
    {
      var written := StoreAnswers(job);
      if !written {
        failed := failed + 1;
        return Some(CooldownWriteFailed);
      }
      ghost var r := Record(job.collect[i].lastRunKey, now, |runs|);
      SpacedSnoc(job.collect, stamps, log, i, checkedAt, r);
      stamps := stamps[job.collect[i].lastRunKey := At(now)];
      log := log + [r];
      why := None;
    }

    /** The cooldown check, which fails when the store or the stored time cannot be read. */
    method CheckDue(job: Job, ghost c: nat, i: nat) returns (due: Option<bool>)
      requires i < |job.collect| && Fresher(stored, stamps)
      modifies `storeAsked, `checks
      ensures due.Some? ==>
        && CollectDue(stamps, job.collect[i].lastRunKey, job.collect[i].cooldownMinutes, now) == due
        && checks == old(checks) + [Check(c, i, stamps, now, |runs|, due.value)]
      ensures due.None? ==> checks == old(checks) && FaultsHaveCauses(job, Some(CooldownReadFailed))
    {
      var readable := StoreAnswers(job);
      var entry := job.collect[i];
      due := if readable then CollectDue(stamps, entry.lastRunKey, entry.cooldownMinutes, now) else None;
      if due.Some? {
        checks := checks + [Check(c, i, stamps, now, |runs|, due.value)];
      }
    }

    /** One collect entry: if due, its script and a reset, then the new last-run time. */
    method RunCollect(job: Job, c: nat, i: nat) returns (why: Option<Why>)
      requires TraceInv(job) && RecordsInv(job) && StoreInv(job)
      requires 1 <= c <= job.maxCycles && i < |job.collect| && AtCollect(job, Last(runs), c, i)
      modifies `now, `runs, `succeeded, `failed, `stamps, `log, `storeAsked, `checks
      ensures TraceWith(job, Faults(why)) && RecordsInv(job) && StoreInv(job) && old(log) <= log
      ensures old(runs) <= runs && old(checks) <= checks && old(now) <= now
      ensures why.None? ==> AtCollect(job, Last(runs), c, i + 1)
      ensures why.None? ==> |checks| == |old(checks)| + 1 && Kept(job, runs, checks[|old(checks)|])
      ensures why.None? ==>
        var k := checks[|old(checks)|];
        && k.cycle == c && k.i == i && k.stored == old(stamps) && old(now) <= k.at <= now
        && k.before == |old(runs)| && (k.due <==> old(runs) != runs)
      ensures why.None? && runs != old(runs) ==>
        log == old(log) + [Record(job.collect[i].lastRunKey, now, |runs|)]
      ensures why.None? && runs == old(runs) ==> log == old(log) && stamps == old(stamps)
      ensures why.Some? ==> WhyFits(job, Last(runs), why.value, now)
      ensures FaultsHaveCauses(job, why)
    {
      why := Look(job);
      if why.Some? {
        return;
      }
      why := Consider(job, c, i);
    }

    /** Checks a collect entry, and runs it if it is due. */
    method Consider(job: Job, c: nat, i: nat) returns (why: Option<Why>)
      requires TraceInv(job) && RecordsInv(job) && StoreInv(job)
      requires 1 <= c <= job.maxCycles && i < |job.collect| && AtCollect(job, Last(runs), c, i)
      requires now < job.deadline && !PassedBy(job.cancelAt, now)
      modifies `now, `runs, `succeeded, `failed, `stamps, `log, `storeAsked, `checks
      ensures TraceWith(job, Faults(why)) && RecordsInv(job) && StoreInv(job) && old(log) <= log
      ensures old(runs) <= runs && old(checks) <= checks && old(now) <= now
      ensures why.None? ==> AtCollect(job, Last(runs), c, i + 1)
      ensures why.None? ==> |checks| == |old(checks)| + 1 && Kept(job, runs, checks[|old(checks)|])
      ensures why.None? ==>
        var k := checks[|old(checks)|];
        && k.cycle == c && k.i == i && k.stored == old(stamps) && old(now) <= k.at <= now
        && k.before == |old(runs)| && (k.due <==> old(runs) != runs)
      ensures why.None? && runs != old(runs) ==>
        log == old(log) + [Record(job.collect[i].lastRunKey, now, |runs|)]
      ensures why.None? && runs == old(runs) ==> log == old(log) && stamps == old(stamps)
      ensures why.Some? ==> WhyFits(job, Last(runs), why.value, now)
      ensures FaultsHaveCauses(job, why)
    {
      var due := CheckDue(job, c, i);
      if due.None? {
        failed := failed + 1;
        return Some(CooldownReadFailed);
      }
      if !due.value {
        return None;
      }
      why := RunDue(job, c, i);
    }

    /** The collect entries of one cycle. */
    method RunCollects(job: Job, c: nat) returns (why: Option<Why>)
      requires TraceInv(job) && RecordsInv(job) && StoreInv(job)
      requires 1 <= c <= job.maxCycles && AtCollect(job, Last(runs), c, 0)
      modifies `now, `runs, `succeeded, `failed, `stamps, `log, `storeAsked, `checks
      ensures TraceWith(job, Faults(why)) && RecordsInv(job) && StoreInv(job) && old(log) <= log
      ensures old(runs) <= runs && old(checks) <= checks
      ensures why.None? ==> AtCollect(job, Last(runs), c, |job.collect|)
      ensures why.None? ==> CycleConsidered(job, runs, checks, c, |job.collect|)
      ensures why.Some? ==> WhyFits(job, Last(runs), why.value, now)
      ensures FaultsHaveCauses(job, why)
    {
      for i := 0 to |job.collect|
        invariant TraceInv(job) && RecordsInv(job) && StoreInv(job) && old(log) <= log
        invariant old(runs) <= runs && old(checks) <= checks
        invariant AtCollect(job, Last(runs), c, i) && CycleConsidered(job, runs, checks, c, i)
      {
        ghost var ran, checked := runs, checks;
        why := RunCollect(job, c, i);
        if why.Some? {
          return;
        }
        ConsideredExtends(job, ran, checked, runs, checks, c, i);
        assert checks[|checks| - 1].cycle == c && checks[|checks| - 1].i == i;
        assert Considered(job, runs, checks, c, i);
      }
      return None;
    }

    /** The plan steps of one cycle. */
    method RunSteps(job: Job, c: nat) returns (why: Option<Why>)
      requires ValidJob(job) && TraceInv(job) && RecordsInv(job)
      requires 1 <= c <= job.maxCycles && AtStep(job, Last(runs), c, 0, now)
      modifies `now, `runs, `succeeded, `failed
      ensures old(runs) <= runs
      ensures TraceInv(job) && RecordsInv(job)
      ensures why.None? ==> AtStep(job, Last(runs), c, |job.plan|, now)
      ensures why.Some? ==> !StoreFault(why.value) && WhyFits(job, Last(runs), why.value, now)
    {
      for k := 0 to |job.plan|
        invariant TraceInv(job) && RecordsInv(job) && AtStep(job, Last(runs), c, k, now) && old(runs) <= runs
      {
        why := RunStep(job, c, k);
        if why.Some? {
          return;
        }
      }
      return None;
    }

    /** One cycle: the due collects, then the plan. */
    method RunCycle(job: Job, c: nat) returns (why: Option<Why>)
      requires ValidJob(job)
      requires TraceInv(job) && RecordsInv(job) && StoreInv(job)
      requires 1 <= c <= job.maxCycles && AtCollect(job, Last(runs), c, 0)
      modifies `now, `runs, `succeeded, `failed, `stamps, `log, `storeAsked, `checks
      ensures TraceWith(job, Faults(why)) && RecordsInv(job) && StoreInv(job) && old(log) <= log
      ensures old(runs) <= runs && old(checks) <= checks
      ensures why.None? ==> AtCollect(job, Last(runs), c + 1, 0)
      ensures why.None? ==> CycleConsidered(job, runs, checks, c, |job.collect|)
      ensures why.Some? ==> WhyFits(job, Last(runs), why.value, now)
      ensures FaultsHaveCauses(job, why)
    {
      why := RunCollects(job, c);
      if why.Some? {
        return;
      }
      ghost var ran := runs;
      why := RunSteps(job, c);
      ConsideredExtends(job, ran, checks, runs, checks, c, |job.collect|);
      CycleEnds(job, Last(runs), c, now);
    }

    /** One preflight call: the first of the port's answer and the cancellation, and either when
        both come at once. */
    method PreflightCall(job: Job, id: string) returns (answer: PreflightAnswer)
      modifies `now
      ensures old(now) <= now && (job.cancelAt.Some? ==> now <= Later(old(now), job.cancelAt.value))
      ensures
        || (answer == job.ports.preflight(id) && now == old(now) + job.ports.preflightMs(id))
        || (answer.Withdrawn? && PassedBy(job.cancelAt, now))
    {
      var cancelledFirst: bool := *;
      var answered := now + job.ports.preflightMs(id);
      if job.cancelAt.Some? {
        var cancelled := Later(now, job.cancelAt.value);
        if cancelled < answered || (cancelled == answered && cancelledFirst) {
          now := cancelled;
          return Withdrawn;
        }
      }
      now := answered;
      answer := job.ports.preflight(id);
    }

    /** Preflights every unique script once, before any execution, and no longer than until the
        cancellation. */
    method Preflight(job: Job) returns (ok: bool, cancelled: bool)
      requires DigestsAgree(AllSteps(job.plan, job.collect))
      modifies `now, `preflighted
      ensures old(now) <= now && (job.cancelAt.Some? ==> now <= Later(old(now), job.cancelAt.value))
      ensures ok ==>
        && now == old(now) + PreflightMs(AllSteps(job.plan, job.collect), |AllSteps(job.plan, job.collect)|, job.ports)
        && Covers(preflighted, AllSteps(job.plan, job.collect))
      ensures ok ==> AllAccepted(job)
      ensures !ok ==> NotStarted(job, cancelled, now)
    {
      var steps := AllSteps(job.plan, job.collect);
      var seen := {};
      preflighted := {};
      for n := 0 to |steps|
        invariant old(now) <= now && (job.cancelAt.Some? ==> now <= Later(old(now), job.cancelAt.value))
        invariant now == old(now) + PreflightMs(steps, n, job.ports)
        invariant Covers(preflighted, steps[..n])
        invariant seen == Ids(steps, n) && forall id <- seen :: job.ports.preflight(id).Accepted?
      {
        ghost var before := preflighted;
        if steps[n].scriptId !in seen {
          var answer := PreflightCall(job, steps[n].scriptId);
          if !answer.Accepted? {
            assert steps[n] in steps;
            return false, answer.Withdrawn?;
          }
          seen := seen + {steps[n].scriptId};
          preflighted := preflighted + {(steps[n].scriptId, steps[n].approvedSha)};
        } else {
          ghost var m := IdAt(steps, n, steps[n].scriptId);
          assert steps[..n][m] == steps[m];
        }
        CoversMore(before, preflighted, steps[..n]);
        CoversSnoc(preflighted, steps, n);
      }
      assert steps[..|steps|] == steps;
      forall m: nat | m < |steps| ensures steps[m].scriptId in seen {
        IdsHave(steps, |steps|, m);
      }
      return true, false;
    }

    /** Nothing done, recorded or checked in this session yet. */
    method Reset(job: Job)
      requires Cooled(job.collect) && Spaced(job.collect, log) && StoreCurrent(stamps, log)
      modifies `runs, `logStart, `storeAsked, `stored, `checks, `succeeded, `failed
      ensures Recorded(job, 0) && RecordsInv(job) && StoreInv(job)
      ensures runs == [] && logStart == |log| && stored == stamps && succeeded == 0
    {
      runs, logStart, stored, storeAsked, checks := [], |log|, stamps, 0, [];
      succeeded, failed := 0, 0;
    }

    /** A new session, up to its first cycle; it does not start without its preflights. */
    method Begin(job: Job) returns (started: bool)
      requires ValidJob(job) && DigestsAgree(AllSteps(job.plan, job.collect))
      requires var steps := AllSteps(job.plan, job.collect); job.began == now + PreflightMs(steps, |steps|, job.ports)
      requires Cooled(job.collect) && Spaced(job.collect, log) && StoreCurrent(stamps, log)
      modifies `now, `runs, `logStart, `preflighted, `storeAsked, `stored, `checks, `succeeded, `failed
      ensures runs == [] && RecordsInv(job) && StoreInv(job) && logStart == |log| && stored == stamps
      ensures succeeded == 0
      ensures !started ==> failed <= 1 && NotStarted(job, failed == 0, now)
      ensures started ==>
        && TraceInv(job) && now == job.began
        && AllAccepted(job) && Covers(preflighted, AllSteps(job.plan, job.collect))
      ensures AllGood(job) ==> started
    {
      Reset(job);
      var cancelled;
      started, cancelled := Preflight(job);
      if !started {
        GoodSessionsStart(job, cancelled, now);
        failed := if cancelled then 0 else 1;
      }
    }

    /** The cycles of a preflighted session. */
    method RunCycles(job: Job) returns (why: Option<Why>)
      requires ValidJob(job)
      requires TraceInv(job) && RecordsInv(job) && StoreInv(job) && runs == [] && now == job.began
      modifies `now, `runs, `succeeded, `failed, `stamps, `log, `storeAsked, `checks
      ensures TraceWith(job, Faults(why)) && RecordsInv(job) && StoreInv(job) && old(log) <= log
      ensures why.None? ==> AllDone(job, runs) && AllConsidered(job, runs, checks, job.maxCycles)
      ensures why.Some? ==> WhyFits(job, Last(runs), why.value, now)
      ensures FaultsHaveCauses(job, why)
      ensures AllGood(job) && !Unreadable(job.collect, stored) ==> why.None? || why == Some(TimeLimit)
    {
      for c := 0 to job.maxCycles
        invariant TraceInv(job) && RecordsInv(job) && StoreInv(job) && old(log) <= log
        invariant AtCollect(job, Last(runs), c + 1, 0) && AllConsidered(job, runs, checks, c)
      {
        ghost var ran, checked := runs, checks;
        why := RunCycle(job, c + 1);
        if why.Some? {
          GoodSessionsGoOn(job, runs, why.value, now);
          return;
        }
        forall d: nat | 1 <= d <= c ensures CycleConsidered(job, runs, checks, d, |job.collect|) {
          ConsideredExtends(job, ran, checked, runs, checks, d, |job.collect|);
        }
      }
      EndMeansAllDone(job, runs);
      return None;
    }

    /** Preflight and cycles: the executions are sound, everything executed was preflighted, records
        stay spaced, and the session did everything or ended for a reason that holds. */
    method RunJob(job: Job) returns (started: bool, why: Option<Why>)
      requires ValidJob(job) && DigestsAgree(AllSteps(job.plan, job.collect))
      requires var steps := AllSteps(job.plan, job.collect); job.began == now + PreflightMs(steps, |steps|, job.ports)
      requires Cooled(job.collect) && Spaced(job.collect, log) && StoreCurrent(stamps, log)
      modifies this
      ensures Sound(job, runs) && forall e <- runs :: (e.script, e.sha) in preflighted
      ensures StoreInv(job) && old(log) <= log
      ensures forall i :: |old(log)| <= i < |log| ==> Justified(job, runs, log[i])
      ensures succeeded == CountPassed(runs)
      ensures !started ==>
        runs == [] && log == old(log) && why.None? && failed <= 1 && NotStarted(job, failed == 0, now)
      ensures started ==>
        && AllAccepted(job) && Covers(preflighted, AllSteps(job.plan, job.collect))
        && failed == CountFailed(runs) + Faults(why)
      ensures started && why.None? ==> AllDone(job, runs) && AllConsidered(job, runs, checks, job.maxCycles)
      ensures FaultsHaveCauses(job, why) && stored == old(stamps)
      ensures why.Some? ==> WhyFits(job, Last(runs), why.value, now)
      ensures AllGood(job) && !Unreadable(job.collect, stored) ==> started && (why.None? || why == Some(TimeLimit))
    {
      why := None;
      started := Begin(job);
      if started {
        why := RunCycles(job);
        ExecutedWasCovered(job, runs, preflighted);
      }
    }

    /** A whole session, for every answer of every port: what `RunJob` promises, and the final state
        says why it ended, or that the clean-up failed. */
    method RunSession(plan: seq<SessionStep>, collect: seq<CollectStep>, reconnect: bool,
                      maxCycles: nat, maxMinutes: nat, cancelAt: Option<nat>, ports: Ports, cleaned: bool)
      returns (ghost job: Job, started: bool, final: FinalState, why: Option<Why>)
      requires PlanShape(plan) && DigestsAgree(AllSteps(plan, collect)) && Cooled(collect)
      requires Spaced(collect, log) && StoreCurrent(stamps, log)
      modifies this
      ensures job == JobFor(plan, collect, reconnect, maxCycles, maxMinutes, cancelAt, ports, old(now))
      ensures Sound(job, runs) && forall e <- runs :: (e.script, e.sha) in preflighted
      ensures Spaced(collect, log) && StoreCurrent(stamps, log) && old(log) <= log
      ensures forall i :: |old(log)| <= i < |log| ==> Justified(job, runs, log[i])
      ensures !cleaned ==> final == Faulted
      ensures cleaned ==>
        && (final == Idle <==> why == None || why == Some(SessionCancelled) || why == Some(TimeLimit))
        && (final == Faulted <==> why == Some(CooldownReadFailed) || why == Some(CooldownWriteFailed))
      ensures succeeded == CountPassed(runs)
      ensures !started ==>
        runs == [] && log == old(log) && why.None? && failed <= 1 && NotStarted(job, failed == 0, now)
      ensures started ==>
        && AllAccepted(job) && Covers(preflighted, AllSteps(plan, collect))
        && failed == CountFailed(runs) + Faults(why)
      ensures started && why.None? ==> AllDone(job, runs) && AllConsidered(job, runs, checks, maxCycles)
      ensures FaultsHaveCauses(job, why) && stored == old(stamps)
      ensures why.Some? ==> WhyFits(job, Last(runs), why.value, now)
      ensures AllGood(job) && !Unreadable(collect, stored) ==> started && (why.None? || why == Some(TimeLimit))
    {
      var j := JobFor(plan, collect, reconnect, maxCycles, maxMinutes, cancelAt, ports, now);
      started, why := RunJob(j);
      final := if cleaned then FinalFor(why) else Faulted;
      job := j;
    }

    /** `start_legacy_session`: bounds, plan and worker. It is refused exactly for limits out of bounds or a
        profile that cannot be planned, and then executes nothing. */
    method StartLegacySession(p: Profile, a: Assets, maxCycles: nat, maxMinutes: nat, cancelAt: Option<nat>,
                              ports: Ports, cleaned: bool)
      returns (r: Result<FinalState, PlanError>, ghost job: Job, ghost why: Option<Why>)
      requires forall c: seq<CollectStep> | CollectFor(p, a, |p.collect|, c) :: Spaced(c, log)
      requires StoreCurrent(stamps, log)
      modifies this
      ensures r.Ok? <==> 1 <= maxCycles <= 100 && 5 <= maxMinutes <= 720 && CanBePlanned(p, a)
      ensures !(1 <= maxCycles <= 100 && 5 <= maxMinutes <= 720) ==> r == Err(InvalidLimits)
      ensures r.Err? ==> runs == old(runs) && log == old(log) && stamps == old(stamps)
      ensures r.Ok? ==> PlanFor(p, a, |p.rotations|, job.plan) && CollectFor(p, a, |p.collect|, job.collect)
      ensures r.Ok? ==>
        && job == JobFor(job.plan, job.collect, p.reconnectEnabled, maxCycles, maxMinutes, cancelAt, ports, old(now))
        && ValidJob(job) && Sound(job, runs)
      ensures r.Ok? ==> forall e <- runs :: (e.script, e.sha) in preflighted
      ensures r.Ok? ==> Spaced(job.collect, log) && old(log) <= log
      ensures r.Ok? && why.None? ==> AllDone(job, runs) || (exists cancelled :: NotStarted(job, cancelled, now))
      ensures r.Ok? && AllGood(job) && !Unreadable(job.collect, old(stamps)) ==>
        why == Some(TimeLimit) || (why.None? && AllDone(job, runs))
      ensures r.Ok? ==> FaultsHaveCauses(job, why)
      ensures r.Ok? && why.Some? ==> WhyFits(job, Last(runs), why.value, now)
      ensures r.Ok? && !cleaned ==> r.value == Faulted
      ensures r.Ok? && cleaned ==>
        && (r.value == Idle <==> why == None || why == Some(SessionCancelled) || why == Some(TimeLimit))
        && (r.value == Faulted <==> why == Some(CooldownReadFailed) || why == Some(CooldownWriteFailed))
    {
      job, why := Job([], [], false, 0, 0, 0, None, ports), None;
      if !(1 <= maxCycles <= 100 && 5 <= maxMinutes <= 720) {
        return Err(InvalidLimits), job, why;
      }
      var plan := BuildSessionPlan(p, a);
      if plan.Err? {
        return Err(plan.error), job, why;
      }
      var collect := BuildCollectSteps(p, a);
      if collect.Err? {
        return Err(collect.error), job, why;
      }
      PlannedDigestsAgree(p, a, plan.value, collect.value);
      var started, final, reason;
      job, started, final, reason :=
        RunSession(plan.value, collect.value, p.reconnectEnabled, maxCycles, maxMinutes, cancelAt, ports, cleaned);
      r, why := Ok(final), reason;
    }

    /** Any number of sessions of one profile: the cooldown log stays spaced across all of them. */
    method RunSessions(plan: seq<SessionStep>, collect: seq<CollectStep>, sessions: nat, ports: nat -> Ports)
      requires PlanShape(plan) && DigestsAgree(AllSteps(plan, collect)) && Cooled(collect)
      requires log == []
      modifies this
      ensures Spaced(collect, log) && StoreCurrent(stamps, log)
    {
      for n := 0 to sessions
        invariant Spaced(collect, log) && StoreCurrent(stamps, log)
      {
        var reconnect: bool := *;
        var maxCycles: nat :| 1 <= maxCycles <= 100;
        var maxMinutes: nat :| 5 <= maxMinutes <= 720;
        var cancel: bool := *;
        var cancelAt: nat :| 0 <= cancelAt;
        var idle: nat :| 0 <= idle;
        now := now + idle;
        ghost var job;
        var started, final, why;
        var cleaned: bool := *;
        job, started, final, why := RunSession(plan, collect, reconnect, maxCycles, maxMinutes,
                                               if cancel then Some(cancelAt) else None, ports(n), cleaned);
      }
    }
  }

  /** The preflights of the scripts of the first `n` steps, each once. */
  function PreflightMs(steps: seq<SessionStep>, n: nat, ports: Ports): nat
    requires n <= |steps|
  {
    if n == 0 then 0
    else
      var id := steps[n - 1].scriptId;
      PreflightMs(steps, n - 1, ports) + if id in Ids(steps, n - 1) then 0 else ports.preflightMs(id)
  }

  /** The scripts of the first `n` steps. */
  function Ids(steps: seq<SessionStep>, n: nat): set<string>
    requires n <= |steps|
  {
    if n == 0 then {} else Ids(steps, n - 1) + {steps[n - 1].scriptId}
  }

  lemma {:induction false} IdAt(steps: seq<SessionStep>, n: nat, id: string) returns (m: nat)
    requires n <= |steps| && id in Ids(steps, n)
    ensures m < n && steps[m].scriptId == id
  {
    if steps[n - 1].scriptId == id {
      m := n - 1;
    } else {
      m := IdAt(steps, n - 1, id);
    }
  }

  lemma {:induction false} IdsHave(steps: seq<SessionStep>, n: nat, m: nat)
    requires m < n <= |steps|
    ensures steps[m].scriptId in Ids(steps, n)
  {
    if m < n - 1 {
      IdsHave(steps, n - 1, m);
    }
  }

  /** The job of a session: it begins after its preflights and has its minutes from now on. */
  function JobFor(plan: seq<SessionStep>, collect: seq<CollectStep>, reconnect: bool, maxCycles: nat, maxMinutes: nat,
                  cancelAt: Option<nat>, ports: Ports, now: nat): Job
  {
    var steps := AllSteps(plan, collect);
    Job(plan, collect, reconnect, maxCycles, now + PreflightMs(steps, |steps|, ports), now + maxMinutes * 60_000,
        cancelAt, ports)
  }

  /** The port accepted every script. */
  ghost predicate AllAccepted(job: Job) {
    forall step <- AllSteps(job.plan, job.collect) :: job.ports.preflight(step.scriptId).Accepted?
  }

  /** A preflight was cut by the cancellation, or some script was not accepted. */
  ghost predicate NotStarted(job: Job, cancelled: bool, now: nat) {
    || (cancelled && PassedBy(job.cancelAt, now))
    || exists step <- AllSteps(job.plan, job.collect) ::
         var answer := job.ports.preflight(step.scriptId); !answer.Accepted? && (cancelled <==> answer.Withdrawn?)
  }

  /** Nothing is cancelled, every script is accepted and passes, and the store works. */
  ghost predicate AllGood(job: Job) {
    && job.cancelAt.None? && (forall id :: job.ports.preflight(id).Accepted?)
    && (forall t :: job.ports.calls(t).outcome in {Succeeded, Skipped}) && (forall n :: job.ports.store(n))
  }

  lemma GoodSessionsStart(job: Job, cancelled: bool, now: nat)
    ensures AllGood(job) ==> !NotStarted(job, cancelled, now)
  {
  }

  /** A session without trouble outside can only reach its time limit. */
  lemma GoodSessionsGoOn(job: Job, runs: seq<Exec>, why: Why, now: nat)
    requires Sound(job, runs) && WhyFits(job, Last(runs), why, now)
    ensures AllGood(job) && !StoreFault(why) ==> why == TimeLimit
  {
    if runs != [] {
      assert Link(job, runs, |runs| - 1);
      assert AllGood(job) ==> job.ports.calls(runs[|runs| - 1].start).outcome in {Succeeded, Skipped};
    }
  }

  /** A rotation that is not empty and fits, with every entry and every collect plannable. */
  ghost predicate CanBePlanned(p: Profile, a: Assets) {
    && 0 < |p.rotations| && 3 * |p.rotations| <= MAX_STEPS_PER_CYCLE && |p.collect| <= MAX_STEPS_PER_CYCLE
    && (forall i :: 0 <= i < |p.rotations| ==> RotationError(p, a, p.rotations[i]).None?)
    && (forall i :: 0 <= i < |p.collect| ==> CollectError(p, a, p.collect[i]).None?)
  }

  lemma PlannedDigestsAgree(p: Profile, a: Assets, plan: seq<SessionStep>, collect: seq<CollectStep>)
    requires p.rotations != [] && PlanFor(p, a, |p.rotations|, plan) && CollectFor(p, a, |p.collect|, collect)
    ensures DigestsAgree(AllSteps(plan, collect))
  {
    var steps := AllSteps(plan, collect);
    forall i, j | 0 <= i < |steps| && 0 <= j < |steps| && steps[i].scriptId == steps[j].scriptId
      ensures steps[i].approvedSha == steps[j].approvedSha
    {
      SameScriptSameDigest(p, a, plan, collect, i, j);
    }
  }

  lemma JustifiedExtends(job: Job, runs: seq<Exec>, e: Exec, log: seq<Record>, start: nat)
    requires start <= |log| && forall i :: start <= i < |log| ==> Justified(job, runs, log[i])
    ensures forall i :: start <= i < |log| ==> Justified(job, runs + [e], log[i])
  {
    forall i | start <= i < |log| ensures Justified(job, runs + [e], log[i]) {
      assert Justified(job, runs, log[i]);
    }
  }

  /** Steps that name the same script carry the same consent digest. */
  ghost predicate DigestsAgree(steps: seq<SessionStep>) {
    forall i, j :: 0 <= i < |steps| && 0 <= j < |steps| && steps[i].scriptId == steps[j].scriptId
      ==> steps[i].approvedSha == steps[j].approvedSha
  }

  ghost predicate Covers(preflighted: set<(string, string)>, steps: seq<SessionStep>) {
    forall j :: 0 <= j < |steps| ==> (steps[j].scriptId, steps[j].approvedSha) in preflighted
  }

  lemma CoversMore(few: set<(string, string)>, many: set<(string, string)>, steps: seq<SessionStep>)
    requires few <= many && Covers(few, steps)
    ensures Covers(many, steps)
  {
  }

  lemma CoversSnoc(preflighted: set<(string, string)>, steps: seq<SessionStep>, n: nat)
    requires n < |steps| && Covers(preflighted, steps[..n])
    requires (steps[n].scriptId, steps[n].approvedSha) in preflighted
    ensures Covers(preflighted, steps[..n + 1])
  {
    assert forall j :: 0 <= j < n ==> steps[..n + 1][j] == steps[..n][j];
  }

  lemma RoleIsPlanned(job: Job, role: Role)
    requires ValidJob(job) && ValidRole(job, role)
    ensures StepOf(job, role) in AllSteps(job.plan, job.collect)
  {
    var steps := AllSteps(job.plan, job.collect);
    match role
    case CollectRun(_, i) => assert steps[|job.plan| + i] == job.collect[i].step;
    case CollectReset(_, _) => assert steps[2] == job.plan[2] == ResetStep();
    case PlanRun(_, k) => assert steps[k] == job.plan[k];
  }

  lemma ExecutedWasCovered(job: Job, runs: seq<Exec>, preflighted: set<(string, string)>)
    requires ValidJob(job) && Sound(job, runs) && Covers(preflighted, AllSteps(job.plan, job.collect))
    ensures forall e <- runs :: (e.script, e.sha) in preflighted
  {
    forall e | e in runs ensures (e.script, e.sha) in preflighted {
      var i :| 0 <= i < |runs| && runs[i] == e;
      assert Link(job, runs, i);
      RoleIsPlanned(job, e.role);
    }
  }

  /** Store failures count as one failed step without an execution. */
  function Faults(why: Option<Why>): nat {
    if why == Some(CooldownReadFailed) || why == Some(CooldownWriteFailed) then 1 else 0
  }

  /** A due collect keeps the log spaced: the stored time is at least as new as every record. */
  lemma SpacedSnoc(collect: seq<CollectStep>, stamps: map<string, Stamp>, log: seq<Record>,
                   i: nat, checkedAt: nat, r: Record)
    requires Spaced(collect, log) && StoreCurrent(stamps, log)
    requires Cooled(collect) && i < |collect| && r.key == collect[i].lastRunKey && checkedAt <= r.at
    requires CollectDue(stamps, r.key, collect[i].cooldownMinutes, checkedAt) == Some(true)
    ensures Spaced(collect, log + [r]) && StoreCurrent(stamps[r.key := At(r.at)], log + [r])
  {
    forall j | 0 <= j < |log|
      ensures SpacedPair(collect, log[j], r) && (log[j].key == r.key ==> log[j].at <= r.at)
    {
      if log[j].key == r.key {
        var last := stamps[r.key].t;
        assert checkedAt - last >= collect[i].cooldownMinutes * 60_000;
        forall minutes: nat | SmallestCooldown(collect, r.key, minutes)
          ensures r.at - log[j].at >= minutes * 60_000
        {
          assert minutes <= collect[i].cooldownMinutes;
        }
      }
    }
  }

  /** An execution of `role` that starts at `at` or later would follow `a`. */
  predicate MayRun(job: Job, a: Option<Exec>, role: Role, field: Option<nat>, retry: bool, at: nat) {
    if a.Some? && a.value.role == role then
      if IsGather(job, role) then Passed(a.value) && !retry && a.value.fieldDeadline == field
      else StepFailed(a.value) && a.value.recovery == Rejoined && !a.value.retry && retry
    else !retry && Begins(job, a, role, at) && GatherStarts(job, a, role, field, at)
  }

  /** How the worker goes on after a failed step and its recovery attempt. */
  function AfterRecovery(recovery: Recovery, cut: Option<CutBy>, timed: bool): Option<Why> {
    match recovery
    case Rejoined => if timed then Some(GatherRejoined) else None
    case FieldExpired => Some(RecoveryExpired)
    case Interrupted => Some(if cut == Some(User) then SessionCancelled else TimeLimit)
    case _ => Some(StepDidFail)
  }

  /** After a failed step the session ends with a fitting reason, or retries a repaired step once. */
  predicate FailureResolved(job: Job, e: Exec, why: Option<Why>, now: nat) {
    if why.Some? then !StoreFault(why.value) && WhyFits(job, Some(e), why.value, now)
    else e.fieldDeadline.None? && e.recovery == Rejoined && !e.retry
  }

  /** The recovery was cut by the user or by the session limit, which had been reached. */
  predicate CutAt(job: Job, cut: Option<CutBy>, now: nat) {
    || (cut == Some(User) && PassedBy(job.cancelAt, now))
    || (cut == Some(SessionLimit) && job.deadline <= now)
  }

  lemma FailedStep(job: Job, a: Option<Exec>, x: Exec, e: Exec, cut: Option<CutBy>, now: nat)
    requires FitsTimes(job, x) && Follows(job, a, x) && StepFailed(x)
    requires e == x.(recovery := e.recovery) && (e.recovery == NotTried <==> !(job.reconnect && !x.retry))
    requires e.recovery == FieldExpired ==> x.fieldDeadline.Some?
    requires e.recovery == Interrupted ==> CutAt(job, cut, now)
    requires e.recovery == FieldExpired ==> PassedBy(x.fieldDeadline, now)
    requires (e.recovery == Rejoined ==> job.ports.calls(x.finish).rejoins)
    requires (e.recovery == NotRejoined ==> !job.ports.calls(x.finish).rejoins)
    ensures Fits(job, e) && Follows(job, a, e) && !Passed(e) && CountsFailed(e)
    ensures FailureResolved(job, e, AfterRecovery(e.recovery, cut, x.fieldDeadline.Some?), now)
  {
  }

  lemma MayFollow(job: Job, a: Option<Exec>, x: Exec)
    requires MayRun(job, a, x.role, x.fieldDeadline, x.retry, x.start) && After(job, a, x.start)
    ensures Follows(job, a, x)
  {
  }

  /** After the last step, a reset, the next cycle can begin. */
  lemma CycleEnds(job: Job, a: Option<Exec>, c: nat, at: nat)
    requires ValidJob(job)
    ensures AtStep(job, a, c, |job.plan|, at) ==> AtCollect(job, a, c + 1, 0)
  {
    GatherIsMiddle(job, PlanRun(c, |job.plan| - 1));
  }

  /** At a step, that step has not run yet in this cycle; a gather may still be left without running. */
  lemma StepIsNew(job: Job, a: Option<Exec>, c: nat, k: nat, at: nat)
    requires ValidJob(job) && k < |job.plan| && AtStep(job, a, c, k, at)
    ensures a.Some? ==> a.value.role != PlanRun(c, k) && CutShort(job, a.value)
    ensures IsGather(job, PlanRun(c, k)) ==>
      && k > 0 && a.Some?
      && AtStep(job, a, c, k + 1, a.value.finish + GatherMs(job, PlanRun(c, k)))
  {
    GatherIsMiddle(job, PlanRun(c, k));
    if k > 0 {
      GatherIsMiddle(job, PlanRun(c, k - 1));
    }
  }
}
