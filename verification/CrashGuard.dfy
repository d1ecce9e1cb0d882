/**
 Crash-loop safe mode across restarts: what a daemon prunes, persists and restores amounts
 to a question about the whole history of unclean starts.

 Times are milliseconds of a clock that does not go back.
 */
module CrashGuard {
  import opened Wrappers
  import opened EngineTypes

  const THRESHOLD := 3
  const WINDOW := 600_000

  // ---- The history and what it means ----

  /** Unclean starts, and acknowledgements that reached the store, latest first. */
  datatype History = NoEvents | Unclean(before: History, at: int) | Acknowledged(before: History)

  /** Times of the unclean starts since the last acknowledgement. */
  function Since(events: History): seq<int> {
    match events
    case NoEvents => []
    case Acknowledged(_) => []
    case Unclean(before, t) => Since(before) + [t]
  }

  predicate InWindow(t: int, now: int) {
    now - WINDOW <= t <= now
  }

  /** The times in the window that ends at `now`, in order. */
  function Recent(times: seq<int>, now: int): seq<int> {
    if times == [] then []
    else
      var last := times[|times| - 1];
      var before := Recent(times[..|times| - 1], now);
      if InWindow(last, now) then before + [last] else before
  }

  /** Some unclean start closed a window that held three of them. */
  predicate Tripped(times: seq<int>) {
    times != [] &&
      (|Recent(times, times[|times| - 1])| >= THRESHOLD || Tripped(times[..|times| - 1]))
  }

  predicate Looping(events: History) {
    Tripped(Since(events))
  }

  /** Nondecreasing, and none later than `now`. */
  predicate Ordered(times: seq<int>, now: int) {
    times == [] || (times[|times| - 1] <= now && Ordered(times[..|times| - 1], times[|times| - 1]))
  }

  /** Looping means that three consecutive unclean starts fell within ten minutes. */
  lemma {:induction false} TrippedIffThreeClose(times: seq<int>, now: int)
    requires Ordered(times, now)
    ensures Tripped(times) <==> exists i :: 2 <= i < |times| && times[i] - times[i - 2] <= 10 * 60 * 1_000
  {
    if times != [] {
      var n := |times| - 1;
      var before := times[..n];
      TrippedIffThreeClose(before, now);
      RecentSuffix(times, times[n]);
      assert forall k :: 0 <= k < n ==> before[k] == times[k];
      assert |Recent(times, times[n])| >= THRESHOLD <==> n >= 2 && times[n] - times[n - 2] <= WINDOW;
      if i :| 2 <= i < |before| && before[i] - before[i - 2] <= WINDOW {
        assert times[i] - times[i - 2] <= WINDOW;
      }
      if i :| 2 <= i < |times| && times[i] - times[i - 2] <= WINDOW {
        assert i < n ==> before[i] - before[i - 2] <= WINDOW;
      }
    }
  }

  /** In an ordered history the recent times are those from the first one in the window on. */
  lemma {:induction false} RecentSuffix(times: seq<int>, now: int)
    requires Ordered(times, now)
    ensures |Recent(times, now)| <= |times|
    ensures forall k :: 0 <= k < |times| ==> (|times| - k <= |Recent(times, now)| <==> now - WINDOW <= times[k])
  {
    if times != [] {
      var n := |times| - 1;
      RecentSuffix(times[..n], now);
      assert forall k :: 0 <= k < n ==> times[..n][k] == times[k];
    }
  }

  // ---- The guard ----

  predicate Sorted(s: seq<int>) {
    s == [] || Ordered(s, s[|s| - 1])
  }

  /** The recent ones of `times`, sorted; those already in order stay as they are. */
  ghost predicate Retained(crashes: seq<int>, times: seq<int>, now: int) {
    && Sorted(crashes) && multiset(crashes) == multiset(Recent(times, now))
    && (Sorted(times) ==> crashes == Recent(times, now))
  }

  function Insert(s: seq<int>, t: int): seq<int> {
    if s == [] || s[|s| - 1] <= t then s + [t] else Insert(s[..|s| - 1], t) + [s[|s| - 1]]
  }

  lemma {:induction false} InsertAdds(s: seq<int>, t: int)
    ensures multiset(Insert(s, t)) == multiset(s) + multiset{t}
  {
    if s != [] && s[|s| - 1] > t {
      InsertAdds(s[..|s| - 1], t);
      assert s == s[..|s| - 1] + [s[|s| - 1]];
    }
  }

  lemma {:induction false} InsertOrdered(s: seq<int>, t: int, bound: int)
    requires Ordered(s, bound) && t <= bound
    ensures Ordered(Insert(s, t), bound)
  {
    if s != [] && s[|s| - 1] > t {
      var n := |s| - 1;
      InsertOrdered(s[..n], t, s[n]);
      assert (Insert(s[..n], t) + [s[n]])[..|Insert(s[..n], t)|] == Insert(s[..n], t);
    } else {
      assert (s + [t])[..|s|] == s;
    }
  }

  /** Among ordered times the recent ones are ordered. */
  lemma {:induction false} KeptOrdered(times: seq<int>, early: int, now: int)
    requires Ordered(times, now)
    ensures Ordered(Recent(times, early), now)
  {
    if times != [] {
      var n := |times| - 1;
      var before := Recent(times[..n], early);
      KeptOrdered(times[..n], early, times[n]);
      assert (before + [times[n]])[..|before|] == before;
    }
  }

  lemma RetainedSnoc(crashes: seq<int>, times: seq<int>, t: int, now: int)
    requires Retained(crashes, times, now)
    ensures Retained(if InWindow(t, now) then Insert(crashes, t) else crashes, times + [t], now)
  {
    assert (times + [t])[..|times|] == times;
    InsertOrdered(crashes, t, if crashes == [] || crashes[|crashes| - 1] <= t then t else crashes[|crashes| - 1]);
    InsertAdds(crashes, t);
    if Sorted(times + [t]) {
      KeptOrdered(times, now, t);
    }
  }

  class CrashLoopGuard {
    var crashes: seq<int>

    constructor ()
      ensures crashes == []
    {
      crashes := [];
    }

    /** Keeps the times in the window that ends at `now`, sorted. */
    method Retain(times: seq<int>, now: int)
      modifies this
      ensures Retained(crashes, times, now)
    {
      crashes := [];
      assert times[..0] == [];
      for i := 0 to |times|
        invariant Retained(crashes, times[..i], now)
      {
        assert times[..i + 1] == times[..i] + [times[i]];
        RetainedSnoc(crashes, times[..i], times[i], now);
        if InWindow(times[i], now) {
          crashes := Insert(crashes, times[i]);
        }
      }
      assert times[..|times|] == times;
    }

    method Restore(times: seq<int>, now: int)
      modifies this
      ensures Retained(crashes, times, now)
    {
      Retain(times, now);
    }

    method Record(now: int) returns (tripped: bool)
      modifies this
      ensures Retained(crashes, old(crashes) + [now], now)
      ensures tripped == (|crashes| >= THRESHOLD)
    {
      Retain(crashes + [now], now);
      tripped := |crashes| >= THRESHOLD;
    }

    method Clear()
      modifies this
      ensures crashes == []
    {
      crashes := [];
    }
  }

  // ---- The store and the history ----

  /** What the store keeps of a history: the window of its last unclean start. */
  function Kept(times: seq<int>): seq<int> {
    if times == [] then [] else Recent(times, times[|times| - 1])
  }

  /** The stored flag and times stand for the whole history. */
  ghost predicate Stores(events: History, safe: bool, times: seq<int>) {
    safe == Looping(events) && times == Kept(Since(events))
  }

  // ---- The daemon over restarts ----

  datatype DaemonError = InvalidState | StoreFailed

  /** A write of the crash state can also fail after it was committed, in the backup that follows. */
  datatype Write = Written | WrittenNotBackedUp | NotWritten

  class Daemon {
    // The store.
    var cleanShutdown: Option<bool>
    var storedSafe: bool
    var storedTimes: seq<int>
    // The running process.
    var guard: CrashLoopGuard
    var safeMode: bool
    // The history behind the store, and the latest instant seen.
    ghost var events: History
    ghost var clock: int

    /** The store holds what a filter over the whole history would give. */
    ghost predicate Valid()
      reads `events, `clock, `storedSafe, `storedTimes
    {
      Ordered(Since(events), clock) && Stores(events, storedSafe, storedTimes)
    }

    constructor ()
      ensures Valid() && fresh(guard) && LifeIn(this) == LifeOf([])
    {
      cleanShutdown, storedSafe, storedTimes := None, false, [];
      guard := new CrashLoopGuard();
      safeMode, events, clock := false, NoEvents, 0;
    }

    /** Building the engine: safe mode follows the persisted history alone. */
    method Load(now: int)
      requires Valid() && clock <= now
      modifies `guard, `safeMode, `clock
      ensures Valid() && fresh(guard) && safeMode == storedSafe && clock == now
      ensures guard.crashes == Recent(storedTimes, now)
    {
      LoadedSafe(events, clock, storedSafe, storedTimes, now);
      guard := new CrashLoopGuard();
      guard.Restore(storedTimes, now);
      clock := now;
      safeMode := |guard.crashes| >= THRESHOLD || storedSafe;
    }

    /** The flag is set to false while the daemon runs and to true by a clean shutdown. */
    method WriteFlag(clean: bool, written: bool)
      requires Valid()
      modifies `cleanShutdown
      ensures Valid() && cleanShutdown == if written then Some(clean) else old(cleanShutdown)
    {
      if written {
        cleanShutdown := Some(clean);
      }
    }

    /** A crash is recorded exactly when the previous process left the flag at false. */
    method Start(loadedAt: int, now: int, write: Write, flagWritten: bool) returns (r: Result<(), DaemonError>)
      requires Valid() && clock <= loadedAt <= now
      modifies this, guard
      ensures Valid() && fresh(guard) && clock == now
      ensures r.Ok? <==> (old(cleanShutdown) == Some(false) ==> write == Written) && flagWritten
      ensures cleanShutdown == if r.Ok? then Some(false) else old(cleanShutdown)
      ensures Recorded(old(cleanShutdown) == Some(false), write, now, old(events), events)
      ensures safeMode == if old(cleanShutdown) == Some(false) && write == WrittenNotBackedUp
                          then old(storedSafe) else storedSafe
    {
      r := Boot(loadedAt, now, write);
      if r.Ok? {
        WriteFlag(false, flagWritten);
        r := if flagWritten then Ok(()) else Err(StoreFailed);
      }
    }

    /** Loads the engine, then records the crash of the previous process, if any. */
    method Boot(loadedAt: int, now: int, write: Write) returns (r: Result<(), DaemonError>)
      requires Valid() && clock <= loadedAt <= now
      modifies `storedSafe, `storedTimes, `events, `clock, `safeMode, `guard, guard
      ensures Valid() && fresh(guard) && clock == now
      ensures r.Ok? <==> (cleanShutdown == Some(false) ==> write == Written)
      ensures Recorded(cleanShutdown == Some(false), write, now, old(events), events)
      ensures safeMode == if cleanShutdown == Some(false) && write == WrittenNotBackedUp
                          then old(storedSafe) else storedSafe
    {
      Load(loadedAt);
      if cleanShutdown == Some(false) {
        r := RecordDaemonCrash(now, write);
      } else {
        Wait(now);
        r := Ok(());
      }
    }

    ghost method Wait(now: int)
      requires Valid() && clock <= now
      modifies `clock
      ensures Valid() && clock == now
    {
      clock := now;
    }

    /** One transaction writes both values. */
    method Persist(safe: bool, times: seq<int>, ghost next: History, ghost at: int)
      requires Stores(next, safe, times) && Ordered(Since(next), at)
      modifies `storedSafe, `storedTimes, `events, `clock
      ensures Valid() && events == next && clock == at && storedSafe == safe
    {
      storedSafe, storedTimes := safe, times;
      events, clock := next, at;
    }

    /** The guard's new window is what the store must hold next. */
    method RecordInGuard(now: int) returns (tripped: bool)
      requires Valid() && clock <= now && guard.crashes == Recent(storedTimes, clock)
      modifies guard
      ensures Stores(Unclean(events, now), storedSafe || tripped, guard.crashes)
      ensures Ordered(Since(Unclean(events, now)), now)
    {
      RecordedIsRecent(Since(events), clock, now);
      RecordedStores(events, storedTimes, clock, now, Recent(guard.crashes + [now], now));
      OrderedSnoc(Since(events), clock, now);
      tripped := guard.Record(now);
    }

    method RecordDaemonCrash(now: int, write: Write) returns (r: Result<(), DaemonError>)
      requires Valid() && clock <= now && safeMode == storedSafe
      requires guard.crashes == Recent(storedTimes, clock)
      modifies `storedSafe, `storedTimes, `events, `clock, `safeMode, guard
      ensures Valid() && clock == now && (r.Ok? <==> write == Written)
      ensures write == NotWritten ==> events == old(events) && storedSafe == old(storedSafe)
      ensures write != NotWritten ==> events == Unclean(old(events), now)
      ensures safeMode == if write == Written then storedSafe else old(safeMode)
    {
      if write == NotWritten {
        var _ := guard.Record(now);
        Wait(now);
        return Err(StoreFailed);
      }
      var tripped := RecordInGuard(now);
      var safe := safeMode || tripped;
      Persist(safe, guard.crashes, Unclean(events, now), now);
      if write == WrittenNotBackedUp {
        return Err(StoreFailed);
      }
      safeMode := safe;
      r := Ok(());
    }

    /** Rejected unless there is something to acknowledge; otherwise it forgets the crash window.
        A failure is reported, although the store has forgotten, exactly when only the backup failed. */
    method AcknowledgeAttention(state: RunState, write: Write) returns (r: Result<(), DaemonError>)
      requires Valid()
      modifies `storedSafe, `storedTimes, `events, `clock, `safeMode, guard
      ensures Valid() && clock == old(clock)
      ensures r == Err(InvalidState) <==> NothingToDo(old(safeMode), state)
      ensures r.Ok? <==> !NothingToDo(old(safeMode), state) && write == Written
      ensures safeMode == (old(safeMode) && r.Err?)
      ensures events == if NothingToDo(old(safeMode), state) || write == NotWritten
                        then old(events) else Acknowledged(old(events))
      ensures !NothingToDo(old(safeMode), state) ==>
        (r == Err(StoreFailed) && events == Acknowledged(old(events)) <==> write == WrittenNotBackedUp)
    {
      if !safeMode && state !in {NeedsAttention, Faulted} {
        return Err(InvalidState);
      }
      guard.Clear();
      Longer(events);
      if write == NotWritten {
        return Err(StoreFailed);
      }
      ForgottenStores(events, clock);
      Persist(false, [], Acknowledged(events), clock);
      if write == WrittenNotBackedUp {
        return Err(StoreFailed);
      }
      safeMode := false;
      r := Ok(());
    }
  }

  /** The history after a start that did or did not follow a crash. */
  ghost predicate Recorded(crashed: bool, write: Write, now: int, before: History, after: History) {
    after == if crashed && write != NotWritten then Unclean(before, now) else before
  }

  /** There is nothing to acknowledge. */
  predicate NothingToDo(safeMode: bool, state: RunState) {
    !safeMode && state != NeedsAttention && state != Faulted
  }

  /** In safe mode, an acknowledgement is reported as failed, leaves safe mode on and is in force after
      the next load all the same, if and only if its write was committed but not backed up. */
  method AcknowledgeThenLoad(d: Daemon, state: RunState, write: Write, now: int)
    returns (r: Result<(), DaemonError>, before: bool, after: bool)
    requires d.Valid() && d.safeMode && d.storedSafe && d.clock <= now
    modifies d, d.guard
    ensures r.Err? && before && !after <==> write == WrittenNotBackedUp
    ensures r.Err? && before && after <==> write == NotWritten
    ensures r.Ok? && !before && !after <==> write == Written
  {
    assert Looping(d.events);
    r := d.AcknowledgeAttention(state, write);
    AcknowledgedIsCalm(d.events);
    before := d.safeMode;
    d.Load(now);
    after := d.safeMode;
  }

  lemma {:induction false} Longer(events: History)
    ensures events != Acknowledged(events)
  {
    match events
    case Acknowledged(before) => Longer(before);
    case _ =>
  }

  lemma AcknowledgedIsCalm(events: History)
    ensures events.Acknowledged? ==> !Looping(events)
  {
  }

  // ---- Whole lives ----

  datatype Op =
    | Starting(loadedAt: int, now: int, write: Write, flagWritten: bool)
    | ShuttingDown(flagWritten: bool)
    | Acknowledging(state: RunState, write: Write)

  /** A daemon that keeps its whole history instead of a window. */
  datatype Life = Life(clean: Option<bool>, events: History, live: bool, clock: int)

  function Next(l: Life, op: Op): Life {
    match op
    case Starting(_, now, write, flagWritten) =>
      var crashed := l.clean == Some(false);
      var events := if crashed && write != NotWritten then Unclean(l.events, now) else l.events;
      var clean := if (crashed ==> write == Written) && flagWritten then Some(false) else l.clean;
      Life(clean, events, Looping(if crashed && write == WrittenNotBackedUp then l.events else events), now)
    case ShuttingDown(flagWritten) => l.(clean := if flagWritten then Some(true) else l.clean)
    case Acknowledging(state, write) =>
      if NothingToDo(l.live, state) || write == NotWritten then l
      else l.(events := Acknowledged(l.events), live := l.live && write == WrittenNotBackedUp)
  }

  function LifeOf(ops: seq<Op>): Life {
    if ops == [] then Life(None, NoEvents, false, 0) else Next(LifeOf(ops[..|ops| - 1]), ops[|ops| - 1])
  }

  lemma LifeSnoc(ops: seq<Op>, op: Op)
    ensures LifeOf(ops + [op]) == Next(LifeOf(ops), op)
  {
    assert (ops + [op])[..|ops|] == ops;
  }

  /** A start after a clean shutdown that was written records no crash, whatever came before. */
  lemma CleanStopIsNoCrash(ops: seq<Op>, start: Op)
    requires start.Starting?
    ensures var l, t := LifeOf(ops), LifeOf(ops + [ShuttingDown(true)] + [start]);
      t.events == l.events && t.live == Looping(l.events)
  {
    LifeSnoc(ops, ShuttingDown(true));
    LifeSnoc(ops + [ShuttingDown(true)], start);
  }

  lemma {:induction false} AcknowledgingKeepsTheFlag(ops: seq<Op>, n: nat)
    requires n <= |ops| && forall i :: n <= i < |ops| ==> ops[i].Acknowledging?
    ensures LifeOf(ops).clean == LifeOf(ops[..n]).clean
  {
    if n == |ops| {
      assert ops[..n] == ops;
    } else {
      var init := ops[..|ops| - 1];
      AcknowledgingKeepsTheFlag(init, n);
      assert init[..n] == ops[..n];
    }
  }

  /** A start after a start that succeeded, with nothing but acknowledgements in between, records its
      crash at its own time, exactly if the store takes it. */
  lemma StartAfterStartIsACrash(ops: seq<Op>, p: nat, n: nat)
    requires p < n < |ops| && ops[p].Starting? && ops[n].Starting?
    requires ops[p].write == Written && ops[p].flagWritten
    requires forall i :: p < i < n ==> ops[i].Acknowledging?
    ensures var before := LifeOf(ops[..n]).events;
      LifeOf(ops[..n + 1]).events ==
        if ops[n].write == NotWritten then before else Unclean(before, ops[n].now)
  {
    assert ops[..p + 1][..p] == ops[..p] && ops[..n][..p + 1] == ops[..p + 1] && ops[..n + 1][..n] == ops[..n];
    AcknowledgingKeepsTheFlag(ops[..n], p + 1);
  }

  predicate OnTime(l: Life, op: Op) {
    op.Starting? ==> l.clock <= op.loadedAt <= op.now
  }

  /** The clock does not go back. */
  predicate Timed(ops: seq<Op>) {
    forall n :: 0 <= n < |ops| ==> OnTime(LifeOf(ops[..n]), ops[n])
  }

  ghost function LifeIn(d: Daemon): Life
    reads d
  {
    Life(d.cleanShutdown, d.events, d.safeMode, d.clock)
  }

  /** One operation of the daemon is one step of the life that keeps everything. */
  method Do(d: Daemon, op: Op)
    requires d.Valid() && OnTime(LifeIn(d), op)
    modifies d, d.guard
    ensures d.Valid() && LifeIn(d) == Next(old(LifeIn(d)), op) && (d.guard == old(d.guard) || fresh(d.guard))
  {
    match op
    case Starting(loadedAt, now, write, flagWritten) => var _ := d.Start(loadedAt, now, write, flagWritten);
    case ShuttingDown(flagWritten) => d.WriteFlag(true, flagWritten);
    case Acknowledging(state, write) => var _ := d.AcknowledgeAttention(state, write);
  }

  /** Over any number of starts, shutdowns, crashes and acknowledgements, pruning, persisting and
      restoring a window gives the safe mode of a daemon that keeps its whole history. */
  method RunLife(ops: seq<Op>) returns (d: Daemon)
    requires Timed(ops)
    ensures d.Valid() && LifeIn(d) == LifeOf(ops)
  {
    d := new Daemon();
    assert ops[..0] == [];
    for n := 0 to |ops|
      invariant fresh(d) && fresh(d.guard) && d.Valid() && LifeIn(d) == LifeOf(ops[..n])
    {
      assert ops[..n + 1][..n] == ops[..n];
      Do(d, ops[n]);
    }
    assert ops[..|ops|] == ops;
  }

  /** The last start or acknowledgement was written completely or not at all. */
  predicate Settled(ops: seq<Op>) {
    ops == [] ||
      match ops[|ops| - 1]
      case Starting(_, _, write, _) => write != WrittenNotBackedUp
      case ShuttingDown(_) => Settled(ops[..|ops| - 1])
      case Acknowledging(_, write) => write != WrittenNotBackedUp && Settled(ops[..|ops| - 1])
  }

  lemma {:induction false} SettledLife(ops: seq<Op>)
    requires Settled(ops)
    ensures LifeOf(ops).live == Looping(LifeOf(ops).events)
  {
    if ops != [] {
      var n := |ops| - 1;
      if !ops[n].Starting? {
        SettledLife(ops[..n]);
      }
      AcknowledgedIsCalm(LifeOf(ops).events);
    }
  }

  lemma NextOrdered(l: Life, op: Op)
    requires Ordered(Since(l.events), l.clock) && OnTime(l, op)
    ensures Ordered(Since(Next(l, op).events), Next(l, op).clock)
  {
    if op.Starting? {
      OrderedSnoc(Since(l.events), l.clock, op.now);
    }
  }

  lemma {:induction false} LifeOrdered(ops: seq<Op>)
    requires Timed(ops)
    ensures Ordered(Since(LifeOf(ops).events), LifeOf(ops).clock)
  {
    if ops != [] {
      var n := |ops| - 1;
      forall m | 0 <= m < n ensures OnTime(LifeOf(ops[..n][..m]), ops[..n][m]) {
        assert ops[..n][..m] == ops[..m];
      }
      LifeOrdered(ops[..n]);
      assert OnTime(LifeOf(ops[..n]), ops[n]);
      NextOrdered(LifeOf(ops[..n]), ops[n]);
    }
  }

  /** After any such life that is settled, safe mode is on exactly when, since the last
      acknowledgement, three consecutive unclean starts fell within ten minutes. */
  lemma SafeModeMeaning(ops: seq<Op>)
    requires Timed(ops) && Settled(ops)
    ensures var times := Since(LifeOf(ops).events);
      LifeOf(ops).live <==> exists i :: 2 <= i < |times| && times[i] - times[i - 2] <= WINDOW
  {
    SettledLife(ops);
    LifeOrdered(ops);
    TrippedIffThreeClose(Since(LifeOf(ops).events), LifeOf(ops).clock);
  }

  lemma TrippedSnoc(times: seq<int>, now: int)
    ensures Tripped(times + [now]) <==> Tripped(times) || |Recent(times + [now], now)| >= THRESHOLD
  {
    assert (times + [now])[..|times|] == times;
  }

  lemma {:induction false} KeptShorter(times: seq<int>, now: int)
    ensures |Recent(times, now)| <= |times|
  {
    if times != [] {
      KeptShorter(times[..|times| - 1], now);
    }
  }

  /** A later window over an earlier one: pruning twice is pruning once. */
  lemma {:induction false} PruneTwice(times: seq<int>, early: int, late: int)
    requires Ordered(times, early) && early <= late
    ensures Recent(Recent(times, early), late) == Recent(times, late)
  {
    if times != [] {
      var n := |times| - 1;
      PruneTwice(times[..n], early, late);
      var before, kept := Recent(times[..n], early), Recent(times, early);
      assert InWindow(times[n], early) ==> kept[..|kept| - 1] == before;
    }
  }

  /** The stored times, pruned again when a daemon loads, are the recent part of the whole history. */
  lemma LoadedIsRecent(times: seq<int>, now: int)
    requires Ordered(times, now)
    ensures Recent(Kept(times), now) == Recent(times, now) && Ordered(Kept(times), now)
  {
    if times != [] {
      PruneTwice(times, times[|times| - 1], now);
      KeptOrdered(times, times[|times| - 1], now);
    }
  }

  /** A restored window that trips was already on record as tripped. */
  lemma RestoredIsNotNews(times: seq<int>, now: int)
    requires |Recent(Kept(times), now)| >= THRESHOLD
    ensures Tripped(times)
  {
    KeptShorter(Kept(times), now);
  }

  /** A loaded daemon is in safe mode exactly when the stored flag says so. */
  lemma LoadedSafe(events: History, clock: int, safe: bool, stored: seq<int>, now: int)
    requires Ordered(Since(events), clock) && clock <= now && Stores(events, safe, stored)
    ensures Ordered(Since(events), now) && Sorted(stored)
    ensures |Recent(stored, now)| >= THRESHOLD ==> safe
  {
    LoadedIsRecent(Since(events), now);
    if |Recent(stored, now)| >= THRESHOLD {
      RestoredIsNotNews(Since(events), now);
    }
  }

  /** Recording after pruning, persisting and restoring keeps exactly the recent part of the whole history. */
  lemma RecordedIsRecent(times: seq<int>, loadedAt: int, now: int)
    requires Ordered(times, loadedAt) && loadedAt <= now
    ensures var restored := Recent(Kept(times), loadedAt);
      Sorted(restored + [now]) && Recent(restored + [now], now) == Recent(times + [now], now)
  {
    LoadedIsRecent(times, loadedAt);
    KeptOrdered(times, loadedAt, loadedAt);
    PruneTwice(times, loadedAt, now);
    var restored := Recent(times, loadedAt);
    assert (restored + [now])[..|restored|] == restored;
    assert (times + [now])[..|times|] == times;
  }

  lemma OrderedSnoc(times: seq<int>, early: int, now: int)
    requires Ordered(times, early) && early <= now
    ensures Ordered(times + [now], now)
  {
    assert (times + [now])[..|times|] == times;
  }

  /** Recording an unclean start keeps the store in step with the history. */
  lemma RecordedStores(events: History, stored: seq<int>, loadedAt: int, now: int, crashes: seq<int>)
    requires Ordered(Since(events), loadedAt) && loadedAt <= now && stored == Kept(Since(events))
    requires crashes == Recent(Recent(stored, loadedAt) + [now], now)
    ensures Stores(Unclean(events, now), Looping(events) || |crashes| >= THRESHOLD, crashes)
  {
    RecordedIsRecent(Since(events), loadedAt, now);
    TrippedSnoc(Since(events), now);
  }

  lemma ForgottenStores(events: History, now: int)
    ensures Stores(Acknowledged(events), false, []) && Ordered(Since(Acknowledged(events)), now)
  {
  }
}
