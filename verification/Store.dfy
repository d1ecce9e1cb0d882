/**
 Opening the store as a sequence of file steps, any of which can be the last one before the
 process dies.

 A transaction is one step. A copy passes through a torn file; a torn copy is unreadable or,
 when only the truncation happened, an empty database.
 */
module Store {
  import opened Wrappers

  const DATABASE_VERSION := 4

  type Data = map<string, string>

  datatype Contents = Contents(version: nat, data: Data)

  const EMPTY := Contents(0, map[])

  datatype File = Absent | Corrupt | Intact(contents: Contents)

  /** The database, its two sidecars, and the file that each sidecar is written through. */
  datatype Disk = Disk(db: File, lastGood: File, pre: File, lastGoodTemp: File, preTemp: File)

  datatype StoreError =
    | CorruptDatabase | FutureDatabaseVersion(received: nat) | Migration(version: nat) | Sqlite | IntegrityCheck | Io

  /** How one open's migrations go: whether the version can be read, for each version the migrated
      tables or a failure, which rolls that version back, and what the final check finds. */
  datatype Upgrade = Upgrade(readable: bool, migrate: (nat, Data) -> Option<Data>, sound: bool)

  // ---- Migrations ----

  function Remaining(c: Contents): nat {
    if c.version < DATABASE_VERSION then DATABASE_VERSION - c.version else 0
  }

  /** The contents after each committed version. */
  function Commits(c: Contents, u: Upgrade): seq<Contents>
    decreases Remaining(c)
  {
    if !u.readable || c.version >= DATABASE_VERSION then []
    else
      match u.migrate(c.version + 1, c.data)
      case None => []
      case Some(data) => [Contents(c.version + 1, data)] + Commits(Contents(c.version + 1, data), u)
  }

  function MigrationError(c: Contents, u: Upgrade): Option<StoreError>
    decreases Remaining(c)
  {
    if !u.readable then Some(Sqlite)
    else if c.version > DATABASE_VERSION then Some(FutureDatabaseVersion(c.version))
    else if c.version == DATABASE_VERSION then None
    else
      match u.migrate(c.version + 1, c.data)
      case None => Some(Migration(c.version + 1))
      case Some(data) => MigrationError(Contents(c.version + 1, data), u)
  }

  function LastOf(c: Contents, commits: seq<Contents>): Contents {
    if commits == [] then c else commits[|commits| - 1]
  }

  /** Without an error the last commit is at the current version. */
  lemma {:induction false} MigratedVersion(c: Contents, u: Upgrade)
    ensures MigrationError(c, u).None? ==> LastOf(c, Commits(c, u)).version == DATABASE_VERSION
    ensures MigrationError(c, u) != Some(IntegrityCheck) && MigrationError(c, u) != Some(Io)
    decreases Remaining(c)
  {
    if u.readable && c.version < DATABASE_VERSION && u.migrate(c.version + 1, c.data).Some? {
      MigratedVersion(Contents(c.version + 1, u.migrate(c.version + 1, c.data).value), u);
    }
  }

  /** `to` is what the migrations of versions `c.version + 1` up to `n` make of `c`, one by one. */
  ghost predicate MigratesTo(c: Contents, to: Contents, u: Upgrade, n: nat)
    decreases n
  {
    if n <= c.version then n == c.version && to == c
    else
      && to.version == n
      && exists data :: MigratesTo(c, Contents(n - 1, data), u, n - 1) && u.migrate(n, data) == Some(to.data)
  }

  lemma {:induction false} MigratesFurther(c: Contents, next: Contents, to: Contents, u: Upgrade, n: nat)
    requires next == Contents(c.version + 1, next.data) && u.migrate(c.version + 1, c.data) == Some(next.data)
    requires MigratesTo(next, to, u, n)
    ensures MigratesTo(c, to, u, n)
    decreases n
  {
    if n == next.version {
      assert MigratesTo(c, Contents(n - 1, c.data), u, n - 1);
    } else {
      var data :| MigratesTo(next, Contents(n - 1, data), u, n - 1) && u.migrate(n, data) == Some(to.data);
      MigratesFurther(c, next, Contents(n - 1, data), u, n - 1);
    }
  }

  /** What was committed is the contents migrated version by version, and all of that was committed. */
  lemma {:induction false} CommittedInOrder(c: Contents, u: Upgrade)
    ensures var last := LastOf(c, Commits(c, u));
      && c.version <= last.version && MigratesTo(c, last, u, last.version)
      && |Commits(c, u)| == last.version - c.version
    ensures forall i :: 0 <= i < |Commits(c, u)| ==> Commits(c, u)[i].version == c.version + 1 + i
    decreases Remaining(c)
  {
    if u.readable && c.version < DATABASE_VERSION && u.migrate(c.version + 1, c.data).Some? {
      var next := Contents(c.version + 1, u.migrate(c.version + 1, c.data).value);
      CommittedInOrder(next, u);
      MigratesFurther(c, next, LastOf(next, Commits(next, u)), u, LastOf(next, Commits(next, u)).version);
    }
  }

  /** The error names the first version whose migration fails, and nothing else gives an error. */
  lemma {:induction false} MigrationErrorIff(c: Contents, u: Upgrade, n: nat)
    ensures MigrationError(c, u) == Some(Migration(n)) <==>
      var last := LastOf(c, Commits(c, u));
      u.readable && last.version + 1 == n <= DATABASE_VERSION && u.migrate(n, last.data).None?
    ensures MigrationError(c, u) == Some(Sqlite) <==> !u.readable
    ensures MigrationError(c, u) == Some(FutureDatabaseVersion(n)) <==> u.readable && n == c.version > DATABASE_VERSION
    ensures MigrationError(c, u).None? <==>
      u.readable && c.version <= DATABASE_VERSION && LastOf(c, Commits(c, u)).version == DATABASE_VERSION
    decreases Remaining(c)
  {
    if u.readable && c.version < DATABASE_VERSION && u.migrate(c.version + 1, c.data).Some? {
      var next := Contents(c.version + 1, u.migrate(c.version + 1, c.data).value);
      MigrationErrorIff(next, u, n);
      CommittedInOrder(next, u);
    }
  }

  // ---- The file steps of one open ----

  datatype Sidecar = LastGood | PreMigration

  function Temp(d: Disk, s: Sidecar, f: File): Disk {
    if s == LastGood then d.(lastGoodTemp := f) else d.(preTemp := f)
  }

  function Dest(d: Disk, s: Sidecar, f: File): Disk {
    if s == LastGood then d.(lastGood := f) else d.(pre := f)
  }

  /** Clear the temporary, fill it, remove the old sidecar, rename. */
  function BackupSteps(d: Disk, s: Sidecar): seq<Disk> {
    [Temp(d, s, Absent), Temp(d, s, Corrupt), Temp(d, s, d.db), Dest(Temp(d, s, d.db), s, Absent), BackedUp(d, s)]
  }

  function BackedUp(d: Disk, s: Sidecar): Disk {
    Temp(Dest(d, s, d.db), s, Absent)
  }

  predicate Torn(f: File) {
    f == Corrupt || f == Intact(EMPTY)
  }

  function CopySteps(d: Disk, from: File, torn: File): seq<Disk> {
    [d.(db := torn), d.(db := from)]
  }

  function CommitSteps(d: Disk, commits: seq<Contents>): seq<Disk> {
    seq(|commits|, i requires 0 <= i < |commits| => d.(db := Intact(commits[i])))
  }

  /** A corrupt database without an intact last-good copy cannot be opened any more. */
  predicate Stuck(d: Disk) {
    d.db.Corrupt? && !d.lastGood.Intact?
  }

  /** What an open works from: the database, a new one, or the last-good copy. */
  function Start(d: Disk): Contents
    requires !Stuck(d)
  {
    match d.db
    case Intact(c) => c
    case Absent => EMPTY
    case Corrupt => d.lastGood.contents
  }

  /** The disk once the connection is open. */
  function Connected(d: Disk): Disk
    requires !Stuck(d)
  {
    d.(db := Intact(Start(d)))
  }

  function ConnectSteps(d: Disk, torn: File): seq<Disk>
    requires !Stuck(d)
  {
    match d.db
    case Intact(_) => []
    case Absent => [Connected(d)]
    case Corrupt => CopySteps(d, d.lastGood, torn)
  }

  function Migrated(d: Disk, u: Upgrade): Disk
    requires d.db.Intact?
  {
    d.(db := Intact(LastOf(d.db.contents, Commits(d.db.contents, u))))
  }

  /** Migrations, then either the copy back or the new last-good copy. */
  function UpgradeSteps(d: Disk, u: Upgrade, torn: File): seq<Disk>
    requires d.db.Intact?
  {
    var m := Migrated(d, u);
    CommitSteps(d, Commits(d.db.contents, u))
    + if MigrationError(d.db.contents, u).Some? then CopySteps(m, m.pre, torn) else BackupSteps(m, LastGood)
  }

  /** Every disk state of an open that runs to its end. */
  function Trace(d: Disk, u: Upgrade, torn: (File, File)): seq<Disk> {
    if Stuck(d) then []
    else
      var c := Connected(d);
      ConnectSteps(d, torn.0) + (BackupSteps(c, PreMigration) + UpgradeSteps(BackedUp(c, PreMigration), u, torn.1))
  }

  class SqliteStore {
    /** Whether the n-th file operation works. */
    const works: nat -> bool
    var operations: nat
    var disk: Disk
    /** Disk states so far, and those that the running operation still has to make. */
    ghost var log: seq<Disk>
    ghost var ahead: seq<Disk>

    /** The disk is always the last state of the log. */
    ghost predicate Valid()
      reads this
    {
      log != [] && log[|log| - 1] == disk
    }

    /** No file operation has failed since the first `from` ones. */
    ghost predicate AllWorked(from: nat)
      reads `operations
    {
      from <= operations && forall n :: from <= n < operations ==> works(n)
    }

    constructor (d: Disk, works: nat -> bool)
      ensures Valid() && disk == d && log == [d] && ahead == [] && this.works == works && operations == 0
    {
      this.works, operations := works, 0;
      disk, log, ahead := d, [d], [];
    }

    /** The next disk state. */
    method Apply(next: Disk)
      requires Valid() && ahead != [] && ahead[0] == next
      modifies `disk, `log, `ahead
      ensures Valid()
      ensures disk == next && ahead == old(ahead)[1..] && log + ahead == old(log + ahead)
    {
      disk := next;
      log, ahead := log + [next], ahead[1..];
    }

    /** One file operation; an I/O error leaves everything as it was. */
    method Step(next: Disk) returns (ok: bool)
      requires Valid() && ahead != [] && ahead[0] == next
      modifies this
      ensures Valid() && operations == old(operations) + 1 && ok == works(old(operations))
      ensures ok ==> disk == next && ahead == old(ahead)[1..]
      ensures !ok ==> disk == old(disk)
      ensures log + ahead == old(log + ahead)
    {
      ok := works(operations);
      operations := operations + 1;
      if ok {
        Apply(next);
      }
    }

    /** `backup_connection`. */
    method Backup(s: Sidecar, ghost rest: seq<Disk>) returns (ok: bool)
      requires Valid() && disk.db.Intact? && ahead == BackupSteps(disk, s) + rest
      modifies this
      ensures Valid() && old(operations) <= operations && (ok <==> AllWorked(old(operations)))
      ensures log + ahead == old(log + ahead) && disk.db == old(disk).db
      ensures ok ==> ahead == rest && disk == BackedUp(old(disk), s)
      ensures s == PreMigration ==> disk.lastGood == old(disk).lastGood
      ensures s == LastGood ==> disk.pre == old(disk).pre
      ensures s == LastGood && !ok ==> disk.lastGood == old(disk).lastGood || disk.lastGood == Absent
    {
      ghost var steps := BackupSteps(disk, s);
      var d := disk;
      ok := Step(Temp(d, s, Absent));
      if !ok { return; }
      ok := Step(Temp(d, s, Corrupt));
      if !ok { return; }
      ok := Step(Temp(d, s, d.db));
      if !ok { return; }
      ok := Step(Dest(Temp(d, s, d.db), s, Absent));
      if !ok { return; }
      ok := Step(BackedUp(d, s));
    }

    /** Copying a file over the database, which may tear. */
    method CopyOver(from: File, torn: File, ghost rest: seq<Disk>) returns (ok: bool)
      requires Valid() && ahead == CopySteps(disk, from, torn) + rest
      modifies this
      ensures Valid() && old(operations) <= operations && (ok <==> AllWorked(old(operations)))
      ensures log + ahead == old(log + ahead)
      ensures ok ==> ahead == rest && disk == old(disk).(db := from)
      ensures !ok ==> disk == old(disk) || disk == old(disk).(db := torn)
    {
      var d := disk;
      ok := Step(d.(db := torn));
      if !ok { return; }
      ok := Step(d.(db := from));
    }

    /** Restores or creates the database file and opens it. */
    method Connect(torn: File, ghost rest: seq<Disk>) returns (ok: bool)
      requires Valid() && !Stuck(disk) && ahead == ConnectSteps(disk, torn) + rest
      modifies this
      ensures Valid() && old(operations) <= operations && (ok <==> AllWorked(old(operations)))
      ensures log + ahead == old(log + ahead)
      ensures ok ==> ahead == rest && disk == Connected(old(disk)) && RightFile(old(disk), disk.db.contents)
      ensures !ok ==> disk == old(disk) || (old(disk).db.Corrupt? && disk == old(disk).(db := torn))
    {
      ok := true;
      match disk.db
      case Corrupt => ok := CopyOver(disk.lastGood, torn, rest);
      case Absent => ok := Step(disk.(db := Intact(EMPTY)));
      case Intact(_) =>
    }

    /** `run_migrations`: one transaction per version; what was committed stays committed. */
    method RunMigrations(u: Upgrade, ghost rest: seq<Disk>) returns (error: Option<StoreError>)
      requires Valid() && disk.db.Intact? && ahead == CommitSteps(disk, Commits(disk.db.contents, u)) + rest
      modifies `disk, `log, `ahead
      ensures Valid()
      ensures log + ahead == old(log + ahead) && ahead == rest
      ensures disk == Migrated(old(disk), u) && error == MigrationError(old(disk).db.contents, u)
      ensures MigratesTo(old(disk).db.contents, disk.db.contents, u, disk.db.contents.version)
      ensures error.None? <==> u.readable && disk.db.contents.version == DATABASE_VERSION
      ensures error.Some? && error.value.Migration? ==>
        && error.value.version == disk.db.contents.version + 1 <= DATABASE_VERSION
        && u.migrate(error.value.version, disk.db.contents.data).None?
    {
      error := Migrate(u, rest);
      CommittedInOrder(old(disk).db.contents, u);
      MigrationErrorIff(old(disk).db.contents, u,
                        if error.Some? && error.value.Migration? then error.value.version else 0);
    }

    /** The loop over the versions. */
    method Migrate(u: Upgrade, ghost rest: seq<Disk>) returns (error: Option<StoreError>)
      requires Valid() && disk.db.Intact? && ahead == CommitSteps(disk, Commits(disk.db.contents, u)) + rest
      modifies `disk, `log, `ahead
      ensures Valid()
      ensures log + ahead == old(log + ahead) && ahead == rest
      ensures disk == Migrated(old(disk), u) && error == MigrationError(old(disk).db.contents, u)
    {
      var c := disk.db.contents;
      if !u.readable {
        return Some(Sqlite);
      }
      if c.version > DATABASE_VERSION {
        return Some(FutureDatabaseVersion(c.version));
      }
      while c.version < DATABASE_VERSION
        invariant Valid() && disk == old(disk).(db := Intact(c)) && log + ahead == old(log + ahead)
        invariant ahead == CommitSteps(disk, Commits(c, u)) + rest && c.version <= DATABASE_VERSION
        invariant MigrationError(c, u) == MigrationError(old(disk).db.contents, u)
        invariant LastOf(c, Commits(c, u)) == LastOf(old(disk).db.contents, Commits(old(disk).db.contents, u))
      {
        var migrated := u.migrate(c.version + 1, c.data);
        if migrated.None? {
          return Some(Migration(c.version + 1));
        }
        CommitSnoc(disk, c, u);
        c := Contents(c.version + 1, migrated.value);
        Apply(disk.(db := Intact(c)));
      }
      error := None;
    }

    /** Everything before the migrations. */
    method Prepare(ghost u: Upgrade, torn: (File, File)) returns (ok: bool)
      requires Valid() && !Stuck(disk) && ahead == Trace(disk, u, torn)
      modifies this
      ensures Valid() && old(operations) <= operations && (ok <==> AllWorked(old(operations)))
      ensures log + ahead == old(log + ahead)
      ensures ok ==> disk == BackedUp(Connected(old(disk)), PreMigration) && ahead == UpgradeSteps(disk, u, torn.1)
      ensures !ok ==> Interrupted(old(disk), disk, u, torn)
    {
      ghost var c := Connected(disk);
      ghost var rest := UpgradeSteps(BackedUp(c, PreMigration), u, torn.1);
      ok := Connect(torn.0, BackupSteps(c, PreMigration) + rest);
      if ok {
        ok := Backup(PreMigration, rest);
      }
    }

    /** `open`: every step is a step of the trace; an I/O error stops it early. */
    method Open(u: Upgrade, torn: (File, File)) returns (r: Result<(), StoreError>)
      requires Valid() && Torn(torn.0) && Torn(torn.1)
      modifies this
      ensures Valid()
      ensures log + ahead == old(log) + Trace(old(disk), u, torn)
      ensures r.Ok? ==> ahead == [] && !Stuck(old(disk)) && Upgraded(Start(old(disk)), disk, u)
      ensures r.Ok? ==> FromTheRightFile(old(disk), disk, u)
      ensures r.Ok? <==> Healthy(old(disk), u) && u.sound && AllWorked(old(operations))
      ensures r.Err? && r.error.Migration? ==> FailsAt(old(disk), u, r.error.version)
      ensures r.Err? && r.error !in {Io, IntegrityCheck} ==> ahead == [] && Refused(old(disk), disk, u, r.error)
      ensures r == Err(IntegrityCheck) ==> !u.sound && !Stuck(old(disk)) && Unchecked(Start(old(disk)), disk, u)
      ensures r == Err(Io) ==>
        !AllWorked(old(operations)) && !Stuck(old(disk)) && Interrupted(old(disk), disk, u, torn)
    {
      ahead := Trace(disk, u, torn);
      if disk.db.Corrupt? && !disk.lastGood.Intact? {
        return Err(CorruptDatabase);
      }
      var ok := Prepare(u, torn);
      if !ok {
        return Err(Io);
      }
      r := Finish(u, torn.1);
      if r.Ok? {
        OpensTheRightFile(old(disk), disk, u);
      } else if r.error.Migration? {
        FailsOnTheRightFile(old(disk), u, r.error.version);
      }
    }

    /** `save_profile` and the other saves: one transaction, then a new last-good copy. */
    method Save(data: Data) returns (ok: bool)
      requires Valid() && disk.db.Intact? && disk.db.contents.version == DATABASE_VERSION
      modifies this
      ensures Valid() && (ok <==> AllWorked(old(operations)))
      ensures log + ahead == old(log) + SaveSteps(old(disk), data)
      ensures ok ==> ahead == [] && disk.db == disk.lastGood == Intact(Contents(DATABASE_VERSION, data))
      ensures !ok ==> disk.db in {old(disk).db, Intact(Contents(DATABASE_VERSION, data))}
    {
      ahead := SaveSteps(disk, data);
      var saved := disk.(db := Intact(Contents(DATABASE_VERSION, data)));
      ok := Step(saved);
      if ok {
        ok := Backup(LastGood, []);
      }
    }

    /** Migrations, then the copy back or the new last-good copy. */
    method Finish(u: Upgrade, torn: File) returns (r: Result<(), StoreError>)
      requires Valid() && disk.db.Intact? && disk.pre == disk.db && ahead == UpgradeSteps(disk, u, torn)
      modifies this
      ensures Valid() && old(operations) <= operations
      ensures r.Ok? <==> MigrationError(old(disk).db.contents, u).None? && u.sound && AllWorked(old(operations))
      ensures r == Err(Io) ==> !AllWorked(old(operations))
      ensures log + ahead == old(log + ahead)
      ensures r.Ok? ==> ahead == [] && Upgraded(old(disk).db.contents, disk, u)
      ensures r.Err? && r.error !in {Io, IntegrityCheck} ==>
        ahead == [] && disk.db == old(disk).db && MigrationError(old(disk).db.contents, u) == Some(r.error)
      ensures r == Err(IntegrityCheck) ==> !u.sound && Unchecked(old(disk).db.contents, disk, u)
      ensures r == Err(Io) ==> Unfinished(old(disk).db.contents, old(disk).lastGood, disk, u, torn)
    {
      ghost var m := Migrated(disk, u);
      ghost var failed := MigrationError(disk.db.contents, u).Some?;
      var error := RunMigrations(u, if failed then CopySteps(m, m.pre, torn) else BackupSteps(m, LastGood));
      MigratedVersion(old(disk).db.contents, u);
      if error.Some? {
        var restored := CopyOver(disk.pre, torn, []);
        return Err(if restored then error.value else Io);
      }
      if !u.sound {
        return Err(IntegrityCheck);
      }
      var ok := Backup(LastGood, []);
      r := if ok then Ok(()) else Err(Io);
    }
  }

  lemma CommitSnoc(d: Disk, c: Contents, u: Upgrade)
    requires u.readable && c.version < DATABASE_VERSION && u.migrate(c.version + 1, c.data).Some?
    ensures var next := Contents(c.version + 1, u.migrate(c.version + 1, c.data).value);
      var now := d.(db := Intact(next));
      && CommitSteps(d, Commits(c, u)) == [now] + CommitSteps(now, Commits(next, u))
      && LastOf(c, Commits(c, u)) == LastOf(next, Commits(next, u))
  {
  }

  /** A successful open migrated everything and left an equal last-good copy. */
  predicate Upgraded(start: Contents, d: Disk, u: Upgrade) {
    && MigrationError(start, u).None? && d.db == d.lastGood == Intact(LastOf(start, Commits(start, u)))
    && d.db.contents.version == DATABASE_VERSION
  }

  /** A missing database is opened as an empty one, an intact one as it is, and only a corrupt one from
      the last-good copy. */
  ghost predicate RightFile(before: Disk, c: Contents) {
    match before.db
    case Absent => c == Contents(0, map[])
    case Intact(own) => c == own
    case Corrupt => before.lastGood == Intact(c)
  }

  /** The result of an open is the right file, migrated version by version. */
  ghost predicate FromTheRightFile(before: Disk, after: Disk, u: Upgrade) {
    && after.db.Intact? && after.lastGood == after.db
    && exists c :: RightFile(before, c) && MigratesTo(c, after.db.contents, u, DATABASE_VERSION)
  }

  /** The versions below `n` can be made of the right file one by one, but not version `n`. */
  ghost predicate FailsAt(before: Disk, u: Upgrade, n: nat) {
    && u.readable && 0 < n <= DATABASE_VERSION
    && exists c, last :: RightFile(before, c) && MigratesTo(c, last, u, n - 1) && u.migrate(n, last.data).None?
  }

  lemma OpensTheRightFile(before: Disk, after: Disk, u: Upgrade)
    requires !Stuck(before) && Upgraded(Start(before), after, u)
    ensures FromTheRightFile(before, after, u)
  {
    CommittedInOrder(Start(before), u);
    assert RightFile(before, Start(before));
  }

  lemma FailsOnTheRightFile(before: Disk, u: Upgrade, n: nat)
    requires !Stuck(before) && MigrationError(Start(before), u) == Some(Migration(n))
    ensures FailsAt(before, u, n)
  {
    MigrationErrorIff(Start(before), u, n);
    CommittedInOrder(Start(before), u);
    assert RightFile(before, Start(before));
  }

  /** Of a backup, at every step the old sidecar is still there, or the new one, or only its temporary. */
  lemma BackupNeverLoses(d: Disk, s: Sidecar, i: nat)
    requires i < |BackupSteps(d, s)|
    ensures var t := BackupSteps(d, s)[i];
      && t.db == d.db
      && var (was, now, temp) := if s == LastGood then (d.lastGood, t.lastGood, t.lastGoodTemp)
                                  else (d.pre, t.pre, t.preTemp);
         now == was || now == d.db || (now == Absent && temp == d.db)
  {
  }

  /** There is something to open, and its migrations succeed. */
  predicate Healthy(d: Disk, u: Upgrade) {
    !Stuck(d) && MigrationError(Start(d), u).None?
  }

  /** A failed final check leaves the migrated contents, not yet copied to last-good. */
  predicate Unchecked(start: Contents, d: Disk, u: Upgrade) {
    MigrationError(start, u).None? && d.db == Intact(LastOf(start, Commits(start, u)))
  }

  /** What an I/O error after the migrations can leave: while copying back, the migrated or the torn
      database; while backing up, the migrated one, and at worst no last-good copy. The pre-migration
      copy holds the starting contents. */
  predicate Unfinished(start: Contents, lastGood: File, after: Disk, u: Upgrade, torn: File) {
    var migrated := Intact(LastOf(start, Commits(start, u)));
    && after.pre == Intact(start)
    && if MigrationError(start, u).Some?
       then (after.db == migrated || after.db == torn) && after.lastGood == lastGood
       else after.db == migrated && (after.lastGood == lastGood || after.lastGood == Absent)
  }

  /** What any I/O error can leave: the database as it was, the torn restore of a corrupt one or the
      starting contents, with the last-good copy untouched; or an unfinished end. */
  predicate Interrupted(before: Disk, after: Disk, u: Upgrade, torn: (File, File))
    requires !Stuck(before)
  {
    || (after.lastGood == before.lastGood
        && (after.db == before.db || after.db == Intact(Start(before))
            || (before.db.Corrupt? && after.db == torn.0)))
    || Unfinished(Start(before), before.lastGood, after, u, torn.1)
  }

  /** A refused open either found nothing to open, or put back the contents it started from. */
  predicate Refused(before: Disk, after: Disk, u: Upgrade, e: StoreError) {
    if Stuck(before) then e == CorruptDatabase && after == before
    else MigrationError(Start(before), u) == Some(e) && after.db == Intact(Start(before))
  }

  // ---- Crash points ----

  /** A last-good copy, or a database that no open will want to change back. */
  predicate Safe(d: Disk) {
    d.lastGood.Intact? || (d.db.Intact? && d.db.contents.version == DATABASE_VERSION)
  }

  predicate AllSafe(t: seq<Disk>) {
    forall i :: 0 <= i < |t| ==> Safe(t[i])
  }

  lemma CommitsSafe(d: Disk, commits: seq<Contents>)
    requires d.lastGood.Intact?
    ensures AllSafe(CommitSteps(d, commits))
  {
  }

  lemma UpgradeSafe(d: Disk, u: Upgrade, torn: File)
    requires d.db.Intact? && Safe(d) && (d.lastGood.Intact? || u.readable)
    ensures AllSafe(UpgradeSteps(d, u, torn))
  {
    var m := Migrated(d, u);
    MigratedVersion(d.db.contents, u);
    if d.lastGood.Intact? {
      CommitsSafe(d, Commits(d.db.contents, u));
    }
    assert AllSafe(BackupSteps(m, LastGood)) || MigrationError(d.db.contents, u).Some?;
    assert AllSafe(CopySteps(m, m.pre, torn)) || MigrationError(d.db.contents, u).None?;
  }

  /** No crash between the steps of an open loses both copies. */
  lemma OpenKeepsSafe(d: Disk, u: Upgrade, torn: (File, File))
    requires Safe(d) && (d.lastGood.Intact? || u.readable)
    ensures AllSafe(Trace(d, u, torn))
  {
    var c := Connected(d);
    assert AllSafe(ConnectSteps(d, torn.0));
    assert AllSafe(BackupSteps(c, PreMigration));
    UpgradeSafe(BackedUp(c, PreMigration), u, torn.1);
  }

  /** What happens to a store: opens, and saves of an open store, each cut off after `n` steps. */
  datatype Op = Opening(u: Upgrade, torn: (File, File)) | Saving(data: Data)

  function SaveSteps(d: Disk, data: Data): seq<Disk>
    requires d.db.Intact?
  {
    var saved := d.(db := Intact(Contents(d.db.contents.version, data)));
    [saved] + BackupSteps(saved, LastGood)
  }

  function OpSteps(d: Disk, op: Op): seq<Disk> {
    match op
    case Opening(u, torn) => Trace(d, u, torn)
    case Saving(data) =>
      if d.db.Intact? && d.db.contents.version == DATABASE_VERSION then SaveSteps(d, data) else []
  }

  function After(d: Disk, op: Op, n: nat): Disk {
    var t := OpSteps(d, op);
    if n == 0 || t == [] then d else if n <= |t| then t[n - 1] else t[|t| - 1]
  }

  function AfterAll(d: Disk, ops: seq<(Op, nat)>): Disk {
    if ops == [] then d else After(AfterAll(d, ops[..|ops| - 1]), ops[|ops| - 1].0, ops[|ops| - 1].1)
  }

  /** An open of `d` meets an intact last-good copy or can at least read the version. */
  predicate Trusted(d: Disk, op: Op) {
    op.Opening? ==> d.lastGood.Intact? || op.u.readable
  }

  predicate AllTrusted(d: Disk, ops: seq<(Op, nat)>) {
    forall n :: 0 <= n < |ops| ==> Trusted(AfterAll(d, ops[..n]), ops[n].0)
  }

  lemma OpKeepsSafe(d: Disk, op: Op, n: nat)
    requires Safe(d) && Trusted(d, op)
    ensures Safe(After(d, op, n))
  {
    match op
    case Opening(u, torn) => OpenKeepsSafe(d, u, torn);
    case Saving(data) =>
      if d.db.Intact? {
        assert AllSafe(OpSteps(d, op));
      }
  }

  /** Over any number of opens and saves, cut off anywhere, the store stays openable. */
  lemma {:induction false} SafeForever(d: Disk, ops: seq<(Op, nat)>)
    requires Safe(d) && AllTrusted(d, ops)
    ensures Safe(AfterAll(d, ops)) && !Stuck(AfterAll(d, ops))
  {
    if ops != [] {
      var n := |ops| - 1;
      forall m | 0 <= m < n ensures Trusted(AfterAll(d, ops[..n][..m]), ops[..n][m].0) {
        assert ops[..n][..m] == ops[..m];
      }
      SafeForever(d, ops[..n]);
      OpKeepsSafe(AfterAll(d, ops[..n]), ops[n].0, ops[n].1);
    }
  }

  /** The migrations of every version succeed. */
  ghost predicate Succeeds(op: Op) {
    op.Opening? ==>
      && op.u.readable && (forall v: nat, data :: op.u.migrate(v, data).Some?)
      && Torn(op.torn.0) && Torn(op.torn.1)
  }

  lemma {:induction false} SucceedingMigration(c: Contents, u: Upgrade)
    requires u.readable && (forall v: nat, data :: u.migrate(v, data).Some?) && c.version <= DATABASE_VERSION
    ensures MigrationError(c, u).None?
    ensures forall i :: 0 <= i < |Commits(c, u)| ==> Commits(c, u)[i].version <= DATABASE_VERSION
    decreases Remaining(c)
  {
    if c.version < DATABASE_VERSION {
      SucceedingMigration(Contents(c.version + 1, u.migrate(c.version + 1, c.data).value), u);
    }
  }

  /** Openable, and without a last-good copy not newer than this program; no files at all are so. */
  predicate Young(d: Disk) {
    !Stuck(d) && (d.lastGood.Intact? || Start(d).version <= DATABASE_VERSION)
  }

  predicate AllYoung(t: seq<Disk>) {
    forall i :: 0 <= i < |t| ==> Young(t[i])
  }

  lemma OpenKeepsYoung(d: Disk, u: Upgrade, torn: (File, File))
    requires Young(d) && Succeeds(Opening(u, torn))
    ensures AllYoung(Trace(d, u, torn))
  {
    var c := Connected(d);
    var b := BackedUp(c, PreMigration);
    var m := Migrated(b, u);
    MigratedVersion(Start(d), u);
    if Start(d).version <= DATABASE_VERSION {
      SucceedingMigration(Start(d), u);
    }
    assert AllYoung(ConnectSteps(d, torn.0));
    assert AllYoung(BackupSteps(c, PreMigration));
    assert AllYoung(CommitSteps(b, Commits(Start(d), u)));
    assert AllYoung(CopySteps(m, m.pre, torn.1)) || MigrationError(Start(d), u).None?;
    assert AllYoung(BackupSteps(m, LastGood)) || MigrationError(Start(d), u).Some?;
  }

  lemma OpKeepsYoung(d: Disk, op: Op, n: nat)
    requires Young(d) && Succeeds(op)
    ensures Young(After(d, op, n))
  {
    match op
    case Opening(u, torn) => OpenKeepsYoung(d, u, torn);
    case Saving(data) =>
      if d.db.Intact? {
        assert AllYoung(OpSteps(d, op));
      }
  }

  /** From a first start without any files: while migrations succeed, the store stays openable. */
  lemma {:induction false} FirstStartForever(d: Disk, ops: seq<(Op, nat)>)
    requires Young(d) && forall i :: 0 <= i < |ops| ==> Succeeds(ops[i].0)
    ensures !Stuck(AfterAll(d, ops)) && Young(AfterAll(d, ops))
  {
    if ops != [] {
      var n := |ops| - 1;
      FirstStartForever(d, ops[..n]);
      OpKeepsYoung(AfterAll(d, ops[..n]), ops[n].0, ops[n].1);
    }
  }

  ghost predicate CanGetStuck(t: seq<Disk>) {
    exists i :: 0 <= i < |t| && Stuck(t[i])
  }

  /** An open can leave nothing openable exactly if it starts without an intact last-good copy, its
      migrations fail and the copy back tears; the unused pre-migration copy then still holds everything. */
  lemma StuckIff(d: Disk, u: Upgrade, torn: (File, File))
    requires !Stuck(d) && Torn(torn.0) && Torn(torn.1)
    ensures var t := Trace(d, u, torn);
      && (CanGetStuck(t) <==>
            !d.lastGood.Intact? && MigrationError(Start(d), u).Some? && torn.1 == Corrupt)
      && (forall i :: 0 <= i < |t| && Stuck(t[i]) ==> t[i].pre == Intact(Start(d)))
  {
    var c := Connected(d);
    var b := BackedUp(c, PreMigration);
    var m := Migrated(b, u);
    var connect, backup, commits := ConnectSteps(d, torn.0), BackupSteps(c, PreMigration),
      CommitSteps(b, Commits(b.db.contents, u));
    var last := if MigrationError(b.db.contents, u).Some?
                then CopySteps(m, m.pre, torn.1) else BackupSteps(m, LastGood);
    var t := Trace(d, u, torn);
    assert t == connect + (backup + (commits + last));
    assert forall i :: 0 <= i < |backup| ==> backup[i].db.Intact?;
    assert forall i :: 0 <= i < |commits| ==> commits[i].db.Intact?;
    var k := |connect| + |backup| + |commits|;
    assert t[k] == last[0];
    assert forall i :: 0 <= i < |t| && Stuck(t[i]) ==> i == k;
  }

  /** Contents that a crash during an open may leave to start from: those it started from, any
      committed version of them, or those of the last-good copy. */
  ghost predicate Kept(d: Disk, u: Upgrade, c: Contents)
    requires !Stuck(d)
  {
    c == Start(d) || c in Commits(Start(d), u) || d.lastGood == Intact(c)
  }

  ghost predicate AllKept(d: Disk, u: Upgrade, t: seq<Disk>)
    requires !Stuck(d)
  {
    forall i :: 0 <= i < |t| && !Stuck(t[i]) ==> Kept(d, u, Start(t[i]))
  }

  /** A copy of this open may be cut off right after truncation, leaving an empty database. */
  predicate Truncates(d: Disk, u: Upgrade, torn: (File, File))
    requires !Stuck(d)
  {
    || (torn.0 == Intact(EMPTY) && d.db.Corrupt?)
    || (torn.1 == Intact(EMPTY) && MigrationError(Start(d), u).Some?)
  }

  /** The crash points of an open all lead back to known contents if and only if no copy is
      truncated to an empty database, or the empty contents are known. */
  lemma CrashKeepsContents(d: Disk, u: Upgrade, torn: (File, File))
    requires !Stuck(d) && Torn(torn.0) && Torn(torn.1)
    ensures AllKept(d, u, Trace(d, u, torn)) <==> !Truncates(d, u, torn) || Kept(d, u, EMPTY)
  {
    var c := Connected(d);
    var b := BackedUp(c, PreMigration);
    var connect, backup, rest := ConnectSteps(d, torn.0), BackupSteps(c, PreMigration), UpgradeSteps(b, u, torn.1);
    assert Trace(d, u, torn) == connect + (backup + rest);
    assert AllKept(d, u, backup);
    RestoreKept(d, u, torn.0);
    UpgradeKept(d, u, torn.1);
    KeptParts(d, u, connect, backup + rest);
    KeptParts(d, u, backup, rest);
  }

  lemma RestoreKept(d: Disk, u: Upgrade, torn: File)
    requires !Stuck(d) && Torn(torn)
    ensures AllKept(d, u, ConnectSteps(d, torn)) <==> torn == Corrupt || !d.db.Corrupt? || Kept(d, u, EMPTY)
  {
    var connect := ConnectSteps(d, torn);
    if d.db.Corrupt? {
      assert connect[0] == d.(db := torn) && connect[1] == Connected(d);
    }
  }

  lemma UpgradeKept(d: Disk, u: Upgrade, torn: File)
    requires !Stuck(d) && Torn(torn)
    ensures AllKept(d, u, UpgradeSteps(BackedUp(Connected(d), PreMigration), u, torn)) <==>
      torn == Corrupt || MigrationError(Start(d), u).None? || Kept(d, u, EMPTY)
  {
    var b := BackedUp(Connected(d), PreMigration);
    var commits := Commits(Start(d), u);
    var m, steps := Migrated(b, u), CommitSteps(b, commits);
    var last := if MigrationError(Start(d), u).Some? then CopySteps(m, m.pre, torn) else BackupSteps(m, LastGood);
    forall i | 0 <= i < |commits| ensures Kept(d, u, Start(steps[i])) {
      assert commits[i] in commits;
    }
    assert Kept(d, u, m.db.contents);
    KeptParts(d, u, steps, last);
    if MigrationError(Start(d), u).Some? {
      assert last[0] == m.(db := torn) && last[1] == m.(db := m.pre);
    } else {
      assert AllKept(d, u, last);
    }
  }

  lemma KeptParts(d: Disk, u: Upgrade, s: seq<Disk>, t: seq<Disk>)
    requires !Stuck(d)
    ensures AllKept(d, u, s + t) <==> AllKept(d, u, s) && AllKept(d, u, t)
  {
    forall i | 0 <= i < |t| ensures (s + t)[|s| + i] == t[i] {
    }
    if AllKept(d, u, s + t) {
      forall i | 0 <= i < |s| && !Stuck(s[i]) ensures Kept(d, u, Start(s[i])) {
        assert (s + t)[i] == s[i];
      }
      forall i | 0 <= i < |t| && !Stuck(t[i]) ensures Kept(d, u, Start(t[i])) {
        assert (s + t)[|s| + i] == t[i];
      }
    }
  }

  /** A copy torn right after truncation is an empty database: the next open takes it for a new
      store, succeeds, and replaces the intact last-good copy by it. */
  lemma TruncatedCopyReplacesLastGood(lastGood: Contents, u: Upgrade) returns (d: Disk, crashed: Disk)
    requires u.readable && MigrationError(EMPTY, u).None?
    ensures d.db == Corrupt && d.lastGood == Intact(lastGood) && Safe(d)
    ensures crashed == After(d, Opening(u, (Intact(EMPTY), Corrupt)), 1)
    ensures var t := Trace(crashed, u, (Corrupt, Corrupt));
      t != [] && Upgraded(EMPTY, t[|t| - 1], u) && !Stuck(crashed)
  {
    d := Disk(Corrupt, Intact(lastGood), Absent, Absent, Absent);
    crashed := d.(db := Intact(EMPTY));
    MigratedVersion(EMPTY, u);
    assert Trace(d, u, (Intact(EMPTY), Corrupt))[0] == crashed;
  }
}
