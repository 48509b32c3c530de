/** The service operations, each a sequence of single durable writes that may fail or
    be cut anywhere, with launchd and the daemons acting in between. */
module InstallService {
  import opened Wrappers
  import opened InstallTypes
  import opened InstallInvariant
  import opened InstallRuns

  /** How a step ends: done, refused with an error, or cut by a crash. */
  datatype Ending = Done | Failed | Crashed

  /** Everything the CLI cannot control, by the number of steps taken before. A step
      that does not end as done may or may not have reached the disk. */
  datatype Environment = Environment(
    ending: nat -> Ending,
    reached: nat -> bool,
    outside: nat -> seq<Move>,
    refuses: nat -> bool,
    idle: nat -> bool)

  /** From some step on no step fails and nothing else acts. */
  ghost predicate Calm(env: Environment, from: nat) {
    forall n: nat :: from <= n ==> env.ending(n) == Done && env.outside(n) == [] && !env.refuses(n)
  }

  /** What launchd and the daemons may have changed. */
  ghost predicate Drift(v: World, w: World) {
    && w == v.(live := w.live, prior := w.prior, running := w.running, started := w.started, armed := w.armed)
    && (v.frozen ==> w.prior == v.prior) && (v.locked ==> w == v) && w.started in {v.started, v.plist}
    && (Request(w.live).Some? ==> Request(w.live) == Request(v.live))
  }

  /** A published backup that no record commits: every rollback refuses. */
  predicate Stuck(w: World) {
    w.tx.Some? && w.tx.value.phase != Accepted && !Consistent(w.tx.value, w.backup)
  }

  class Service {
    const env: Environment
    ghost const start: World
    var world: World
    var clock: nat

    constructor (env: Environment, world: World)
      requires Inv(world)
      ensures Valid() && this.env == env && this.world == world && start == world
    {
      this.env, this.world, this.clock, this.start := env, world, 0, world;
      new;
      Stays(world);
    }

    /** The present world is reached from the first one by a run. */
    ghost predicate Valid() reads this {
      Inv(world) && Leads(start, world)
    }

    // ---------------------------------------------------------------- single steps

    method Make(m: Move)
      requires Valid() && Allowed(world, m)
      modifies this`world
      ensures Valid() && world == After(old(world), m)
      ensures !Exposed(old(world)) && !Leak(old(world), m) ==> !Exposed(world)
    {
      if !Exposed(world) && !Leak(world, m) { OnlyLeaksExpose(world, m); }
      Then(start, world, m);
      InvKept(world, m);
      world := After(world, m);
    }

    /** Launchd and the daemons act, unless the daemon lock keeps them out. */
    method Weather()
      requires Valid()
      modifies this`world
      ensures Valid() && Drift(old(world), world)
      ensures Calm(env, old(clock)) ==> world == old(world)
      ensures !Exposed(old(world)) ==> !Exposed(world)
    {
      var moves := env.outside(clock);
      for i := 0 to |moves|
        invariant Valid() && Drift(old(world), world)
        invariant moves == [] ==> world == old(world)
        invariant !Exposed(old(world)) ==> !Exposed(world)
      {
        if Outside(moves[i]) && !world.locked && Allowed(world, moves[i]) { Make(moves[i]); }
      }
    }

    /** One durable write as the disk sees it: done, not reached, or followed by a cut. */
    method Strike(m: Move, e: Ending)
      requires Valid() && Allowed(world, m)
      modifies this`world
      ensures Valid()
      ensures e == Done ==> world == After(old(world), m)
      ensures e == Failed ==> world == old(world) || world == After(old(world), m)
      ensures e == Crashed ==> !world.locked
      ensures !Exposed(old(world)) && !Leak(old(world), m) ==> !Exposed(world)
    {
      if e == Done || env.reached(clock) { Make(m); }
      if e == Crashed { Make(Crash); }
    }

    /** One durable write. */
    method Do(m: Move) returns (e: Ending)
      requires Valid() && Allowed(world, m)
      modifies this`world, this`clock
      ensures clock == old(clock) + 1
      ensures Valid()
      ensures e == Done ==> Drift(After(old(world), m), world)
      ensures e == Failed ==> Drift(old(world), world) || Drift(After(old(world), m), world)
      ensures e == Crashed ==> !world.locked
      ensures Calm(env, old(clock)) ==> e == Done && world == After(old(world), m)
      ensures !Exposed(old(world)) && !Leak(old(world), m) ==> !Exposed(world)
    {
      e := env.ending(clock);
      Strike(m, e);
      Weather();
      clock := clock + 1;
    }

    /** Something the model leaves to the outside says no. */
    method Refused() returns (no: bool)
      requires Valid()
      modifies this`world, this`clock
      ensures old(clock) <= clock
      ensures Valid() && Drift(old(world), world)
      ensures Calm(env, old(clock)) ==> !no && world == old(world)
      ensures !Exposed(old(world)) ==> !Exposed(world)
    {
      no := env.refuses(clock);
      Weather();
      clock := clock + 1;
    }

    /** Drops the daemon lock. */
    method Release()
      requires Valid()
      modifies this`world, this`clock
      ensures old(clock) <= clock
      ensures Valid() && !world.locked
      ensures !old(world).locked ==> world == old(world)
      ensures old(world).locked ==> Drift(After(old(world), Unlock), world)
      ensures old(world).locked && Calm(env, old(clock)) ==> world == After(old(world), Unlock)
      ensures !Exposed(old(world)) ==> !Exposed(world)
    {
      if world.locked {
        Make(Unlock);
        Weather();
        clock := clock + 1;
      }
    }

    /** Asks the running daemon to disarm and drain, which drops its request. */
    method Disarm() returns (e: Ending)
      requires Valid() && !world.locked && world.running.Some?
      modifies this`world, this`clock
      ensures old(clock) <= clock
      ensures Valid() && !world.locked
      ensures e != Crashed ==> Drained(old(world), world)
      ensures e == Done ==> Request(world.live).None?
      ensures Calm(env, old(clock)) ==>
        e == Done && world.running == old(world).running && (Main in old(world).live ==> Main in world.live)
      ensures !Exposed(old(world)) ==> !Exposed(world)
    {
      e := Do(DaemonWrites(WithRequest(world.live, None)));
    }

    /** Stops the daemon and takes its lock. */
    method StopAndLock() returns (e: Ending)
      requires Valid() && !world.locked
      modifies this`world, this`clock
      ensures old(clock) <= clock
      ensures Valid()
      ensures e == Done ==> world.locked
      ensures e != Crashed ==>
        Drained(old(world), world) && (Request(world.live).Some? ==> Request(world.live) == Request(old(world).live))
      ensures e == Crashed ==> !world.locked
      ensures Calm(env, old(clock)) ==> e == Done && world.live == old(world).live
      ensures !Exposed(old(world)) ==> !Exposed(world)
    {
      e := Do(Stop);
      if e != Done { return; }
      if world.running.Some? { return Failed; }
      e := Do(Lock);
    }

    /** Stops whatever is loaded and takes the daemon lock. A managed daemon that answers
        is disarmed and drained first; one that does not is stopped all the same,
        unless the stop must be coordinated. A legacy daemon must answer and be
        report-only. */
    method Drain(coordinated: bool) returns (e: Ending)
      requires Valid() && !world.locked
      modifies this`world, this`clock
      ensures old(clock) <= clock
      ensures Valid()
      ensures e == Done ==> world.locked && Drained(old(world), world)
      ensures e == Done && coordinated ==>
        old(world).plist.Some? && (old(world).plist.value.Managed? ==> Request(world.live).None?)
      ensures e == Failed ==> Drained(old(world), world)
      ensures e == Crashed ==> !world.locked
      ensures Calm(env, old(clock)) ==>
        (e == Done <==> old(world).running != Some(Legacy(Enforce)) && (coordinated ==> old(world).running.Some?))
      ensures Calm(env, old(clock)) && e == Done ==>
        Request(world.live) == if Manages(old(world)) then None else Request(old(world).live)
    {
      var silent := Refused();
      if coordinated && (silent || world.running.None?) { return Failed; }
      if world.running.Some? && world.running.value.Legacy? && (silent || world.running.value.mode == Enforce) {
        return Failed;
      }
      if !silent && Manages(world) {
        e := Disarm();
        if e != Done { return; }
      }
      e := StopAndLock();
    }

    // ---------------------------------------------------------------- rollback

    /** Sets every database file aside. */
    method PreserveFailedDatabase() returns (e: Ending)
      requires Valid() && MayRestore(world)
      modifies this`world, this`clock
      ensures old(clock) <= clock
      ensures Valid()
      ensures e != Crashed ==> world.locked && SetAside(old(world), world)
      ensures e == Done ==> world.live == map[]
      ensures e == Crashed ==> !world.locked
      ensures Calm(env, old(clock)) ==> e == Done
    {
      if world.live == map[] { return Done; }
      e := Do(NewEvidence);
      if e != Done { return; }
      for i := 0 to 4
        invariant old(clock) <= clock
        invariant Valid() && MayRestore(world) && SetAside(old(world), world) && LeftFrom(world, i) && e == Done
      {
        e := MoveIfPresent(FileAt(i));
        if e != Done { return; }
      }
      assert world.live == map[];
    }

    method MoveIfPresent(c: Component) returns (e: Ending)
      requires Valid() && MayRestore(world) && LeftFrom(world, Rank(c))
      modifies this`world, this`clock
      ensures old(clock) <= clock
      ensures Valid()
      ensures e != Crashed ==> MayRestore(world) && SetAside(old(world), world)
      ensures e == Done ==> LeftFrom(world, Rank(c) + 1)
      ensures e == Crashed ==> !world.locked
      ensures Calm(env, old(clock)) ==> e == Done
    {
      e := Done;
      if c in world.live { e := Do(MoveAside(c)); }
    }

    /** Puts a copy of the committed snapshot in place of the candidate's database. */
    method RestoreDatabaseBackupFiles() returns (e: Ending)
      requires Valid() && MayRestore(world) && world.tx.value.backedUp
      modifies this`world, this`clock
      ensures old(clock) <= clock
      ensures Valid()
      ensures e != Crashed ==> world.locked && SetAside(old(world), world)
      ensures e == Done ==> DatabaseRestored(world.tx.value, world.live, world.backup)
      ensures e == Crashed ==> !world.locked
      ensures Calm(env, old(clock)) ==> e == Done
    {
      e := PreserveFailedDatabase();
      if e != Done { return; }
      e := Do(CopyBack(false));
      if e != Done { return; }
      e := Do(CopyBack(true));
    }

    /** The database part of one rollback pass. */
    method RestoreDatabase() returns (e: Ending)
      requires Valid() && RollingBack(world) && world.locked && Consistent(world.tx.value, world.backup)
      modifies this`world, this`clock
      ensures old(clock) <= clock
      ensures Valid()
      ensures e != Crashed ==> world.locked && SetAside(old(world).(pending := world.pending), world)
      ensures e == Done ==> DatabaseRestored(world.tx.value, world.live, world.backup) && world.pending.None?
      ensures !old(world).tx.value.restore && e != Crashed ==> world.live == old(world).live
      ensures e == Crashed ==> !world.locked
      ensures Calm(env, old(clock)) ==> e == Done
    {
      e := Do(DropPending);
      if e != Done { return; }
      if world.tx.value.restore {
        if world.tx.value.backedUp {
          e := RestoreDatabaseBackupFiles();
        } else {
          e := PreserveFailedDatabase();
        }
      } else {
        e := Do(DropBackup);
      }
    }

    /** Republishes the prior selection at the report-only floor. */
    method Reselect() returns (e: Ending)
      requires Valid() && MayReselect(world)
      modifies this`world, this`clock
      ensures old(clock) <= clock
      ensures Valid()
      ensures e != Crashed ==> world == old(world).(plist := world.plist, manifest := world.manifest)
      ensures e == Done ==>
        world.plist == RestoredPlist(world.tx.value) && world.manifest == RestoredManifest(world.tx.value)
      ensures e == Crashed ==> !world.locked
      ensures Calm(env, old(clock)) ==> e == Done
    {
      var tx := world.tx.value;
      e := Do(WritePlist(RestoredPlist(tx)));
      if e != Done { return; }
      e := Do(WriteManifest(RestoredManifest(tx)));
    }

    /** Loads the selected LaunchAgent and waits until it is ready. */
    method Bootstrap() returns (e: Ending)
      requires Valid() && !world.locked
      modifies this`world, this`clock
      ensures old(clock) <= clock
      ensures Valid() && (e != Crashed ==> Drained(old(world), world)) && !world.locked
      ensures e == Done ==> old(world).plist.Some? && world.started == old(world).plist
      ensures Calm(env, old(clock)) && e == Done ==> world.running == old(world).plist
      ensures Calm(env, old(clock)) && old(world).plist.Some? && old(world).running.None? ==> e == Done
      ensures e != Crashed && Request(world.live).Some? ==> Request(world.live) == Request(old(world).live)
      ensures Calm(env, old(clock)) ==> world.live == old(world).live
      ensures !Exposed(old(world)) ==> !Exposed(world)
    {
      if !Allowed(world, Load) { return Failed; }
      e := Do(Load);
      if e != Done { return; }
      var no := Refused();
      if no { return Failed; }
    }

    /** Hands the restored database back to the prior generation, and waits until it is
        seen report-only: a generation whose database still asks for it arms itself
        instead, and the wait fails. */
    method Restart() returns (e: Ending)
      requires Valid() && RollingBack(world) && world.locked
      requires DatabaseRestored(world.tx.value, world.live, world.backup)
      modifies this`world, this`clock
      ensures old(clock) <= clock
      ensures Valid() && !world.locked
      ensures e == Done ==>
        HandedOver(old(world), world) && HandedBack(world) && !AsksForPrior(world.tx.value, world.live)
      ensures e == Done ==> old(world).plist.Some? && world.started == old(world).plist
      ensures Calm(env, old(clock)) && e == Done ==> world.running == old(world).plist
      ensures Calm(env, old(clock)) && old(world).plist.Some? ==>
        (e == Done <==> !AsksForPrior(old(world).tx.value, old(world).live))
    {
      Release();
      assert Calm(env, old(clock)) ==> world.running.None?;
      e := Bootstrap();
      if e == Done && AsksForPrior(world.tx.value, world.live) { e := Failed; }
    }

    /** Removes what a transaction leaves behind. */
    method DropMaterial() returns (e: Ending)
      requires Valid() && !Undone(world)
      modifies this`world, this`clock
      ensures old(clock) <= clock
      ensures Valid()
      ensures e == Done ==> world.backup.None? && world.pending.None? && Kept(old(world), world)
      ensures e == Crashed ==> !world.locked
      ensures e != Crashed ==> world.locked == old(world).locked
      ensures Calm(env, old(clock)) ==> e == Done && world == old(world).(backup := None, pending := None)
      ensures !Exposed(old(world)) ==> !Exposed(world)
    {
      e := Do(DropBackup);
      if e != Done { return; }
      e := Do(DropPending);
    }

    /** Removes the record. */
    method DropRecord(ghost before: World) returns (e: Ending)
      requires Valid() && RollingBack(world) && Allowed(world, DropTx) && RollbackOf(before, world)
      modifies this`world, this`clock
      ensures old(clock) <= clock
      ensures Valid()
      ensures e == Done ==> world.tx.None? && Restored(before, world)
      ensures e == Crashed ==> !world.locked
      ensures Calm(env, old(clock)) ==> e == Done
      ensures Calm(env, old(clock)) ==> world.running == old(world).running
    {
      RemovalStep(world, DropTx);
      FloorRestores(before.tx.value, After(world, DropTx));
      RemovalExposes(world);
      ghost var removed := After(world, DropTx);
      e := Do(DropTx);
      if e == Done { RestoredDrifts(before, removed, world); }
    }

    /** Removes the record, then what it guarded. */
    method Retire(ghost before: World) returns (e: Ending)
      requires Valid() && RollingBack(world) && Allowed(world, DropTx) && RollbackOf(before, world)
      modifies this`world, this`clock
      ensures old(clock) <= clock
      ensures Valid()
      ensures e == Done ==> RolledBack(before, world)
      ensures e == Crashed ==> !world.locked
      ensures Calm(env, old(clock)) ==> e == Done
      ensures Calm(env, old(clock)) ==> world.running == old(world).running
    {
      e := DropRecord(before);
      if e != Done { return; }
      e := DropMaterial();
    }

    /** One pass from the offline proof to the end. */
    method RollbackOffline(ghost before: World) returns (e: Ending)
      requires Valid() && RollingBack(world) && world.locked && RollbackOf(before, world)
      requires Consistent(world.tx.value, world.backup)
      modifies this`world, this`clock
      ensures old(clock) <= clock
      ensures Valid()
      ensures e == Done ==> RolledBack(before, world)
      ensures e == Crashed ==> !world.locked
      ensures Calm(env, old(clock)) ==> (e == Done <==> !RelapsesOffline(old(world)))
      ensures Calm(env, old(clock)) && e == Done ==> RunsAgain(old(world).tx.value, world)
    {
      var tx := world.tx.value;
      e := RestoreDatabase();
      if e != Done { return; }
      assert AsksForPrior(tx, world.live) <==> AsksForPrior(tx, GivenOffline(old(world)));
      e := Reselect();
      if e != Done { return; }
      e := RestartIfLoaded(before);
      if e != Done { return; }
      e := Retire(before);
    }

    /** Starts the prior generation again if it was loaded. */
    method RestartIfLoaded(ghost before: World) returns (e: Ending)
      requires Valid() && RollingBack(world) && world.locked && RollbackOf(before, world)
      requires world.pending.None? && Consistent(world.tx.value, world.backup)
      requires DatabaseRestored(world.tx.value, world.live, world.backup)
      requires world.plist == RestoredPlist(world.tx.value) && world.manifest == RestoredManifest(world.tx.value)
      modifies this`world, this`clock
      ensures old(clock) <= clock
      ensures Valid()
      ensures e == Done ==> RollingBack(world) && Allowed(world, DropTx) && RollbackOf(before, world)
      ensures e == Crashed ==> !world.locked
      ensures Calm(env, old(clock)) ==> (e == Done <==> !RelapsesIn(old(world).tx.value, old(world).live))
      ensures Calm(env, old(clock)) && e == Done ==> RunsAgain(old(world).tx.value, world)
    {
      e := Done;
      if world.tx.value.priorPlist.Some? && world.tx.value.priorLoaded { e := Restart(); }
    }

    /** One rollback pass. It refuses, touching nothing, exactly when a published
        backup is not committed; a pass that finishes leaves the prior selection at
        the report-only floor, no transaction and no backup, and gives back what
        the record allows. */
    method RollbackInstallTransaction() returns (e: Ending)
      requires Valid() && !world.locked && world.tx.Some? && world.tx.value.phase != Accepted
      modifies this`world, this`clock
      ensures old(clock) <= clock
      ensures Valid() && !world.locked
      ensures Stuck(old(world)) ==> e == Failed && Drift(old(world), world)
      ensures e == Done ==> RolledBack(old(world), world)
      ensures Calm(env, old(clock)) ==> (e == Done <==> !Stuck(old(world)) && !Obstructed(old(world)))
      ensures Calm(env, old(clock)) && e == Done ==> RunsAgain(old(world).tx.value, world)
    {
      ghost var before := world;
      e := MarkRollbackInProgress();
      if e != Done { return; }
      e := RollbackMarked(before);
    }

    /** The rest of a pass whose intent is durable. */
    method RollbackMarked(ghost before: World) returns (e: Ending)
      requires Valid() && !world.locked && RollingBack(world) && RollbackOf(before, world)
      requires Consistent(world.tx.value, world.backup)
      modifies this`world, this`clock
      ensures old(clock) <= clock
      ensures Valid() && !world.locked
      ensures e == Done ==> RolledBack(before, world)
      ensures Calm(env, old(clock)) ==> (e == Done <==> !ObstructedAs(old(world), old(world).tx.value))
      ensures Calm(env, old(clock)) && e == Done ==> RunsAgain(old(world).tx.value, world)
    {
      hide Inv, RolledBack, ObstructedAs, RelapsesOffline;
      e := Drain(false);
      if Calm(env, old(clock)) && e == Done { DrainedObstruction(old(world), world); }
      if old(world).running == Some(Legacy(Enforce)) { LegacyObstructs(old(world), old(world).tx.value); }
      if e == Done { e := RollbackOffline(before); }
      ghost var locked := world;
      Release();
      if e == Done { ReleaseKeeps(before, locked, world); }
    }

    /** Validates the rollback target and persists the intent. */
    method MarkRollbackInProgress() returns (e: Ending)
      requires Valid() && !world.locked && world.tx.Some? && world.tx.value.phase != Accepted
      modifies this`world, this`clock
      ensures old(clock) <= clock
      ensures Valid() && !world.locked
      ensures Stuck(old(world)) ==> e == Failed && Drift(old(world), world)
      ensures e == Done ==>
        RollbackOf(old(world), world) && RollingBack(world) && Consistent(world.tx.value, world.backup)
      ensures Calm(env, old(clock)) ==> (e == Done <==> !Stuck(old(world)))
      ensures Calm(env, old(clock)) && e == Done ==> world == After(old(world), Persist(Marked(old(world).tx.value)))
    {
      var no := Refused();
      if no || !Consistent(world.tx.value, world.backup) { return Failed; }
      e := PersistIntent();
    }

    method PersistIntent() returns (e: Ending)
      requires Valid() && !world.locked && Undone(world) && Consistent(world.tx.value, world.backup)
      modifies this`world, this`clock
      ensures old(clock) <= clock
      ensures Valid() && !world.locked
      ensures e == Done ==>
        RollbackOf(old(world), world) && RollingBack(world) && Consistent(world.tx.value, world.backup)
      ensures Calm(env, old(clock)) ==> e == Done && world == After(old(world), Persist(Marked(old(world).tx.value)))
    {
      e := Do(Persist(Marked(world.tx.value)));
    }

    // ---------------------------------------------------------------- recovery

    /** Retires the rollback material of an accepted candidate. */
    method FinalizeAcceptedLease() returns (e: Ending)
      requires Valid() && !world.locked && world.tx.Some? && world.tx.value.phase == Accepted
      modifies this`world, this`clock
      ensures old(clock) <= clock
      ensures Valid() && !world.locked
      ensures e == Done ==> Cleared(world) && world.plist == old(world).plist && world.manifest == old(world).manifest
      ensures Calm(env, old(clock)) ==> e == Done
      ensures !Exposed(old(world)) ==> !Exposed(world)
    {
      e := DropMaterial();
      if e != Done { return; }
      e := Do(DropTx);
    }

    method DropLeftovers() returns (e: Ending)
      requires Valid() && !world.locked && world.tx.None?
      modifies this`world, this`clock
      ensures old(clock) <= clock
      ensures Valid() && !world.locked
      ensures e == Done ==> Cleared(world) && world.plist == old(world).plist && world.manifest == old(world).manifest
      ensures Calm(env, old(clock)) ==> e == Done && world == old(world).(backup := None, pending := None)
      ensures !Exposed(old(world)) ==> !Exposed(world)
    {
      e := DropMaterial();
    }

    /** What every operation does first. */
    method RecoverIncompleteInstall() returns (e: Ending)
      requires Valid() && !world.locked
      modifies this`world, this`clock
      ensures old(clock) <= clock
      ensures Valid() && !world.locked
      ensures e == Done ==> Recovered(old(world), world)
      ensures Holds(old(world)) ==> e == Failed && world == old(world)
      ensures Stuck(old(world)) ==> e == Failed && Drift(old(world), world)
      ensures Calm(env, old(clock)) ==>
        (e == Done <==> Recoverable(old(world)))
      ensures !Exposed(old(world)) && !Undone(old(world)) ==> !Exposed(world)
      ensures Calm(env, old(clock)) && old(world).tx.None? ==> world == old(world).(backup := None, pending := None)
      ensures Calm(env, old(clock)) && e == Done && Undone(old(world)) ==> RunsAgain(old(world).tx.value, world)
    {
      if world.tx.None? {
        e := DropLeftovers();
      } else {
        match RecoveryDisposition(world.tx.value.phase)
        case HoldForExplicitDecision => e := Failed;
        case FinalizeAccepted => e := FinalizeAcceptedLease();
        case RollbackPrior => e := RollbackInstallTransaction();
      }
    }

    // ---------------------------------------------------------------- installation

    /** Snapshots the offline database beside it, published in one rename. */
    method BackupDatabase() returns (e: Ending)
      requires Valid() && world.locked && world.tx.Some? && world.tx.value.phase == PriorDrained
      modifies this`world, this`clock
      ensures old(clock) <= clock
      ensures Valid()
      ensures e != Crashed ==> OnlyBackups(old(world), world)
      ensures e == Done ==> world.backup == if Main in world.live then Some(SnapshotOf(world.live)) else None
      ensures e == Crashed ==> !world.locked
      ensures Calm(env, old(clock)) ==> e == Done
    {
      e := Do(DropBackup);
      if e != Done { return; }
      e := Do(DropPending);
      if e != Done { return; }
      if Main in world.live {
        ghost var at: nat;
        e, at := PublishOrDiscard();
      }
    }

    /** Publishes a snapshot; one that cannot be published is removed. The publication ends
        with step `at`. */
    method PublishOrDiscard() returns (e: Ending, ghost at: nat)
      requires Valid() && MaySnapshot(world) && world.backup.None?
      modifies this`world, this`clock
      ensures old(clock) <= at <= clock
      ensures Valid()
      ensures e != Crashed ==> OnlyBackups(old(world), world)
      ensures e == Done ==> world.backup == Some(SnapshotOf(world.live))
      ensures e == Failed && Calm(env, at) ==> world.pending.None?
      ensures e == Crashed ==> !world.locked
      ensures Calm(env, old(clock)) ==> e == Done
    {
      e := PublishSnapshot();
      at := clock;
      if e == Failed {
        e := Do(DropPending);
        if e == Done { e := Failed; }
      }
    }

    method PublishSnapshot() returns (e: Ending)
      requires Valid() && MaySnapshot(world) && world.backup.None?
      modifies this`world, this`clock
      ensures old(clock) <= clock
      ensures Valid()
      ensures e != Crashed ==> OnlyBackups(old(world), world)
      ensures e == Done ==> world.backup == Some(SnapshotOf(world.live))
      ensures e == Crashed ==> !world.locked
      ensures Calm(env, old(clock)) ==> e == Done
    {
      e := Do(Snapshot(false));
      if e != Done { return; }
      e := Do(Snapshot(true));
      if e != Done { return; }
      e := Do(Publish);
    }

    /** Moves the record to its next phase. */
    method Advance() returns (e: Ending)
      requires Valid() && world.tx.Some? && MayAdvance(world, world.tx.value)
      modifies this`world, this`clock
      ensures old(clock) <= clock
      ensures Valid()
      ensures e == Done ==> Drift(After(old(world), Persist(Advanced(old(world), old(world).tx.value))), world)
      ensures e == Failed ==>
        || Drift(old(world), world)
        || Drift(After(old(world), Persist(Advanced(old(world), old(world).tx.value))), world)
      ensures e == Crashed ==> !world.locked
      ensures Calm(env, old(clock)) ==>
        e == Done && world == After(old(world), Persist(Advanced(old(world), old(world).tx.value)))
    {
      e := Do(Persist(Advanced(world, world.tx.value)));
    }

    /** Publishes the candidate's files. */
    method PublishCandidate() returns (e: Ending)
      requires Valid() && world.tx.Some? && world.tx.value.phase == Prepared
      requires world.tx.value.candidate == world.newest + 1
      modifies this`world, this`clock
      ensures old(clock) <= clock
      ensures Valid()
      ensures e == Done ==> world.locked == old(world).locked && Stage(old(world).tx.value, CandidateDurable, world)
      ensures e == Crashed ==> !world.locked
      ensures Calm(env, old(clock)) ==> e == Done && world.running == old(world).running
    {
      var no := Refused();
      if no { return Failed; }
      e := Do(CreateGeneration);
      if e != Done { return; }
      e := Advance();
    }

    /** Publishes the candidate's files and drains the prior generation. */
    method PrepareCandidate(online: bool) returns (e: Ending)
      requires Valid() && world.tx.Some? && world.tx.value.phase == Prepared
      requires world.tx.value.candidate == world.newest + 1
      requires world.locked == !online
      modifies this`world, this`clock
      ensures old(clock) <= clock
      ensures Valid()
      ensures e == Done ==> world.locked && Stage(old(world).tx.value, PriorDrained, world)
      ensures e == Crashed ==> !world.locked
      ensures Calm(env, old(clock)) && Drainable(old(world), online) ==> e == Done
    {
      e := PublishCandidate();
      if e != Done { return; }
      if online {
        e := Drain(true);
        if e != Done { return; }
      }
      e := Advance();
    }

    /** Snapshots the drained database and commits the backup. */
    method CommitBackup() returns (e: Ending)
      requires Valid() && world.locked && world.tx.Some? && world.tx.value.phase == PriorDrained
      modifies this`world, this`clock
      ensures old(clock) <= clock
      ensures Valid()
      ensures e == Done ==> world.locked && Stage(old(world).tx.value, DatabaseBackedUp, world)
      ensures e == Crashed ==> !world.locked
      ensures Calm(env, old(clock)) ==> e == Done
    {
      e := BackupDatabase();
      if e != Done { return; }
      var no := Refused();
      if no { return Failed; }
      e := Advance();
    }

    /** Selects the candidate, still offline. */
    method SelectCandidate() returns (e: Ending)
      requires Valid() && world.locked && world.tx.Some? && world.tx.value.phase == DatabaseBackedUp
      modifies this`world, this`clock
      ensures old(clock) <= clock
      ensures Valid()
      ensures e == Done ==> world.locked && Stage(old(world).tx.value, CandidateSelected, world)
      ensures e == Crashed ==> !world.locked
      ensures Calm(env, old(clock)) ==> e == Done
    {
      var candidate := world.tx.value.candidate;
      e := Do(WritePlist(Some(Managed(candidate))));
      if e != Done { return; }
      e := Do(WriteManifest(Some(Manifest(candidate, ReportOnly))));
      if e != Done { return; }
      e := Advance();
    }

    /** Starts the candidate and waits until it is ready. */
    method StartCandidate() returns (e: Ending)
      requires Valid() && world.locked && world.tx.Some? && world.tx.value.phase == CandidateSelected
      modifies this`world, this`clock
      ensures old(clock) <= clock
      ensures Valid() && !world.locked
      ensures e == Done ==> Stage(old(world).tx.value, CandidateReady, world)
      ensures Calm(env, old(clock)) ==> e == Done
      ensures Calm(env, old(clock)) ==> world.running == Some(Managed(old(world).tx.value.candidate))
    {
      Release();
      e := Bootstrap();
      if e != Done { return; }
      e := Advance();
    }

    method InstallSteps(online: bool) returns (e: Ending)
      requires Valid() && world.tx.Some? && world.tx.value.phase == Prepared
      requires world.tx.value.candidate == world.newest + 1
      requires world.locked == !online
      modifies this`world, this`clock
      ensures old(clock) <= clock
      ensures Valid()
      ensures e == Done ==> Stage(old(world).tx.value, CandidateReady, world)
      ensures e == Crashed ==> !world.locked
      ensures Calm(env, old(clock)) && Drainable(old(world), online) ==> e == Done
      ensures Calm(env, old(clock)) && e == Done ==> RunsCandidate(world)
      ensures e == Done ==> SameRecord(old(world).tx.value, world)
    {
      e := PrepareCandidate(online);
      if e != Done { return; }
      e := CommitBackup();
      if e != Done { return; }
      e := SelectCandidate();
      if e != Done { return; }
      e := StartCandidate();
    }

    /** Opens a transaction for the next generation. */
    method OpenTransaction(loaded: bool) returns (e: Ending)
      requires Valid() && Cleared(world)
      modifies this`world, this`clock
      ensures old(clock) <= clock
      ensures Valid()
      ensures e == Done ==>
        && world.tx == Some(Opening(old(world), loaded)) && world.newest == old(world).newest
        && world.locked == old(world).locked && world.plist == old(world).plist
      ensures e == Crashed ==> !world.locked
      ensures Calm(env, old(clock)) ==>
        (e == Done <==> Restorable(Opening(old(world), loaded))) && (e == Done ==> world.running == old(world).running)
      ensures e == Done ==> Records(old(world), world.tx.value) && world.tx.value.priorLoaded == loaded
    {
      var tx := Opening(world, loaded);
      if !Restorable(tx) { return Failed; }
      e := Do(Persist(tx));
    }

    /** Installs a candidate next to the running generation, report-only. */
    method Install(mode: Mode) returns (e: Ending)
      requires Valid() && !world.locked
      modifies this`world, this`clock
      ensures old(clock) <= clock
      ensures Valid() && !world.locked
      ensures mode == Enforce || Holds(old(world)) ==> e == Failed && world == old(world)
      ensures Stuck(old(world)) ==> e == Failed && Drift(old(world), world)
      ensures e == Done ==> Holds(world) && SelectsCandidate(world, world.tx.value)
      ensures Calm(env, old(clock)) && mode == ReportOnly && old(world).tx.None? && Installable(old(world)) ==>
        e == Done
      ensures Calm(env, old(clock)) && e == Done ==> RunsCandidate(world)
      ensures Calm(env, old(clock)) && e == Done && old(world).tx.None? ==> Records(old(world), world.tx.value)
    {
      if mode == Enforce { return Failed; }
      e := RecoverIncompleteInstall();
      if e != Done { return; }
      e := InstallAfresh();
    }

    method InstallAfresh() returns (e: Ending)
      requires Valid() && !world.locked && Cleared(world)
      modifies this`world, this`clock
      ensures old(clock) <= clock
      ensures Valid() && !world.locked
      ensures e == Done ==> Holds(world) && SelectsCandidate(world, world.tx.value)
      ensures Calm(env, old(clock)) && Installable(old(world)) ==> e == Done
      ensures Calm(env, old(clock)) && e == Done ==> RunsCandidate(world)
      ensures e == Done ==> Records(old(world), world.tx.value)
      ensures e == Done && old(world).running.Some? ==> world.tx.value.priorLoaded
      ensures e == Done && old(world).running.None? && (old(world).plist.None? || !env.idle(old(clock))) ==>
        !world.tx.value.priorLoaded
    {
      var online := world.running.Some?;
      var loaded := online || (world.plist.Some? && env.idle(clock));
      if !online {
        e := Do(Lock);
        if e != Done { Release(); return; }
      }
      e := OpenTransaction(loaded);
      if e == Done {
        ghost var at: nat, left: World;
        e, at, left := InstallOrRecover(online);
      } else {
        Release();
      }
    }

    /** Installs, and undoes what a failed installation has done. The undoing starts from
        `left` at step `at`. */
    method InstallOrRecover(online: bool) returns (e: Ending, ghost at: nat, ghost left: World)
      requires Valid() && world.tx.Some? && world.tx.value.phase == Prepared
      requires world.tx.value.candidate == world.newest + 1
      requires world.locked == !online
      modifies this`world, this`clock
      ensures old(clock) <= at <= clock
      ensures Valid() && !world.locked
      ensures e == Failed && Calm(env, at) && Recoverable(left) ==> Recovered(left, world)
      ensures e == Done ==> Holds(world) && SelectsCandidate(world, world.tx.value)
      ensures Calm(env, old(clock)) && Drainable(old(world), online) ==> e == Done
      ensures Calm(env, old(clock)) && e == Done ==> RunsCandidate(world)
      ensures e == Done ==> SameRecord(old(world).tx.value, world)
    {
      e := InstallSteps(online);
      Release();
      at, left := clock, world;
      if e == Failed {
        e := RecoverIncompleteInstall();
        if e == Done { e := Failed; }
      }
    }

    // ---------------------------------------------------------------- decisions

    /** Makes a ready candidate the accepted generation. */
    method AcceptCandidate() returns (e: Ending)
      requires Valid() && !world.locked
      modifies this`world, this`clock
      ensures old(clock) <= clock
      ensures Valid() && !world.locked
      ensures e == Done ==>
        Cleared(world) && old(world).tx.Some? && old(world).tx.value.phase in {CandidateReady, Accepted}
      ensures e == Done ==> world.plist == Some(Managed(old(world).tx.value.candidate))
      ensures Stuck(old(world)) ==> e == Failed && Drift(old(world), world)
      ensures Calm(env, old(clock)) && Holds(old(world)) ==> e == Done
    {
      if world.tx.None? { return Failed; }
      match world.tx.value.phase
      case CandidateReady => e := AcceptReady();
      case Accepted => e := FinalizeAcceptedLease();
      case _ =>
        e := RecoverIncompleteInstall();
        if e == Done { e := Failed; }
    }

    method AcceptReady() returns (e: Ending)
      requires Valid() && !world.locked && Holds(world)
      modifies this`world, this`clock
      ensures old(clock) <= clock
      ensures Valid() && !world.locked
      ensures e == Done ==> Cleared(world) && world.plist == Some(Managed(old(world).tx.value.candidate))
      ensures Calm(env, old(clock)) ==> e == Done
    {
      var candidate := world.tx.value.candidate;
      var no := Refused();
      if no { return Failed; }
      e := Advance();
      if e != Done { return; }
      ghost var at: nat, left: World;
      e, at, left := CommitOrRecover(candidate);
    }

    /** Commits the acceptance and retires the material; a commit that fails is decided by
        what the record says. The recovery starts from `left` at step `at`. */
    method CommitOrRecover(candidate: nat) returns (e: Ending, ghost at: nat, ghost left: World)
      requires Valid() && !world.locked && world.tx.Some? && world.tx.value.phase == AcceptanceInProgress
      requires world.plist == Some(Managed(candidate))
      modifies this`world, this`clock
      ensures old(clock) <= at <= clock
      ensures Valid() && !world.locked
      ensures e == Done ==> Cleared(world) && world.plist == Some(Managed(candidate))
      ensures e == Failed && Calm(env, at) && Recoverable(left) ==> Recovered(left, world)
      ensures e == Failed && Calm(env, at) ==> left.tx.Some? && left.tx.value.phase != Accepted
      ensures Calm(env, old(clock)) ==> e == Done
    {
      e := CommitAcceptance();
      at, left := clock, world;
      if e == Failed {
        e := RecoverIncompleteInstall();
        if e == Done && world.plist != Some(Managed(candidate)) { e := Failed; }
      } else if e == Done {
        e := FinalizeAcceptedLease();
      }
    }

    method CommitAcceptance() returns (e: Ending)
      requires Valid() && !world.locked && world.tx.Some? && world.tx.value.phase == AcceptanceInProgress
      modifies this`world, this`clock
      ensures old(clock) <= clock
      ensures Valid() && !world.locked
      ensures e != Crashed ==> world.tx.Some? && world.plist == old(world).plist
      ensures e == Done ==> world.tx == Some(old(world).tx.value.(phase := Accepted))
      ensures Calm(env, old(clock)) ==> e == Done
    {
      var no := Refused();
      if no { return Failed; }
      e := Advance();
    }

    /** Rolls a candidate back, unless it was accepted. */
    method RollbackCandidate() returns (e: Ending)
      requires Valid() && !world.locked
      modifies this`world, this`clock
      ensures old(clock) <= clock
      ensures Valid() && !world.locked
      ensures e == Done ==>
        old(world).tx.Some? && old(world).tx.value.phase != Accepted && RolledBack(old(world), world)
      ensures Stuck(old(world)) ==> e == Failed && Drift(old(world), world)
      ensures Calm(env, old(clock)) ==>
        (e == Done <==> Undone(old(world)) && !Stuck(old(world)) && !Obstructed(old(world)))
      ensures Calm(env, old(clock)) && e == Done ==> RunsAgain(old(world).tx.value, world)
    {
      if world.tx.None? { return Failed; }
      if world.tx.value.phase == Accepted {
        e := FinalizeAcceptedLease();
        if e == Done { e := Failed; }
      } else {
        e := RollbackInstallTransaction();
      }
    }

    // ---------------------------------------------------------------- enforcement

    /** Stops the selected generation, drops its request offline and starts it again. */
    method EmergencyRestart() returns (e: Ending)
      requires Valid() && !world.locked && world.tx.None?
      modifies this`world, this`clock
      ensures old(clock) <= clock
      ensures Valid() && !world.locked
      ensures e == Done ==> Request(world.live).None? && world.tx.None? && world.manifest == old(world).manifest
      ensures Calm(env, old(clock)) && old(world).plist.Some? ==> e == Done
      ensures !Exposed(old(world)) ==> !Exposed(world)
      ensures e == Done ==> world.plist == old(world).plist == world.started
      ensures Calm(env, old(clock)) && e == Done ==> world.running == old(world).plist
    {
      e := StopAndLock();
      if e == Done {
        e := ClearOffline();
        if e == Done { return; }
      }
      Release();
    }

    /** Drops the request under the daemon lock, then starts the daemon again. */
    method ClearOffline() returns (e: Ending)
      requires Valid() && world.locked && world.tx.None?
      modifies this`world, this`clock
      ensures old(clock) <= clock
      ensures Valid()
      ensures e == Done ==>
        !world.locked && Request(world.live).None? && world.tx.None? && world.manifest == old(world).manifest
      ensures Calm(env, old(clock)) && old(world).plist.Some? ==> e == Done
      ensures !Exposed(old(world)) ==> !Exposed(world)
      ensures e == Done ==> world.plist == old(world).plist == world.started
      ensures Calm(env, old(clock)) && e == Done ==> world.running == old(world).plist
    {
      e := Do(OfflineClear);
      if e != Done { return; }
      Release();
      e := Bootstrap();
    }

    /** Disarms the running daemon; if that cannot be confirmed, restarts it. */
    method RestoreReportOnly() returns (e: Ending)
      requires Valid() && !world.locked && world.tx.None? && world.manifest.Some?
      modifies this`world, this`clock
      ensures old(clock) <= clock
      ensures Valid() && !world.locked
      ensures e == Done ==>
        && world.tx.None? && world.manifest == old(world).manifest
        && Request(world.live) != Some(world.manifest.value.generation)
      ensures Calm(env, old(clock)) && old(world).plist.Some? ==> e == Done
      ensures !Exposed(old(world)) ==> !Exposed(world)
      ensures Calm(env, old(clock)) && e == Done ==> world.running == old(world).plist
    {
      var silent := Refused();
      if silent || world.running.None? {
        e := EmergencyRestart();
      } else {
        e := Disarm();
        if e == Failed {
          if Request(world.live) == Some(world.manifest.value.generation) {
            e := EmergencyRestart();
          } else {
            e := Done;
          }
        }
      }
    }

    method PublishMode(mode: Mode) returns (e: Ending)
      requires Valid() && !world.locked && world.tx.None? && world.manifest.Some?
      requires mode == ReportOnly ==> Request(world.live) != Some(world.manifest.value.generation)
      modifies this`world, this`clock
      ensures old(clock) <= clock
      ensures Valid() && !world.locked
      ensures e == Done ==>
        && world.tx.None? && world.manifest == Some(old(world).manifest.value.(desired := mode))
        && (Request(world.live).Some? ==> Request(world.live) == Request(old(world).live))
      ensures Calm(env, old(clock)) ==>
        e == Done && world == old(world).(manifest := Some(old(world).manifest.value.(desired := mode)))
      ensures !Exposed(old(world)) ==> !Exposed(world)
    {
      e := Do(WriteManifest(Some(world.manifest.value.(desired := mode))));
    }

    /** Asks the daemon to arm; a request that fails may still have armed it. */
    method RequestArm() returns (e: Ending)
      requires Valid() && !world.locked && world.tx.None?
      modifies this`world, this`clock
      ensures clock == old(clock) + if Allowed(old(world), Arm) then 1 else 0
      ensures Valid() && !world.locked
      ensures e != Crashed ==>
        world.tx.None? && world.manifest == old(world).manifest && world.plist == old(world).plist
      ensures Calm(env, old(clock)) ==>
        (e == Done <==> Allowed(old(world), Arm)) && (e == Done ==> world == After(old(world), Arm) && world.armed)
      ensures !Exposed(old(world)) ==> !Exposed(world)
    {
      if !Allowed(world, Arm) { return Failed; }
      e := Do(Arm);
    }

    method ContainReportOnly() returns (e: Ending)
      requires Valid() && !world.locked && world.tx.None? && world.manifest.Some?
      modifies this`world, this`clock
      ensures old(clock) <= clock
      ensures Valid() && !world.locked
      ensures e == Done ==>
        && world.manifest == Some(RollbackFloor(old(world).manifest.value))
        && Request(world.live) != Some(world.manifest.value.generation)
      ensures Calm(env, old(clock)) && old(world).plist.Some? ==> e == Done
      ensures !Exposed(old(world)) ==> !Exposed(world)
      ensures Calm(env, old(clock)) && e == Done ==> world.running == old(world).plist
    {
      e := RestoreReportOnly();
      if e != Done { return; }
      e := PublishMode(ReportOnly);
    }

    /** The Enforce intent is durable before the daemon is asked to arm; the report-only
        intent only after its request is gone. However it ends, and wherever it is
        cut, a world without exposure stays so. */
    method SetModeLocked(mode: Mode) returns (e: Ending)
      requires Valid() && !world.locked && world.tx.None?
      modifies this`world, this`clock
      ensures old(clock) <= clock
      ensures Valid() && !world.locked
      ensures !Exposed(old(world)) ==> !Exposed(world) && !Unwarranted(world)
      ensures e == Done ==>
        old(world).manifest.Some? && world.manifest == Some(old(world).manifest.value.(desired := mode))
      ensures e == Done && mode == ReportOnly ==> Request(world.live) != Some(world.manifest.value.generation)
      ensures Calm(env, old(clock)) && mode == ReportOnly && old(world).plist.Some? ==>
        (e == Done <==> old(world).manifest.Some?)
      ensures Calm(env, old(clock)) && mode == Enforce ==>
        (e == Done <==> Armable(old(world))) && (e == Done ==> world.armed)
      ensures Calm(env, old(clock)) && e == Done ==> world.running == old(world).plist
    {
      if world.manifest.None? {
        e := Failed;
      } else if mode == ReportOnly {
        e := ContainReportOnly();
      } else if !Armable(world) {
        e := Failed;
      } else if world.armed && world.manifest.value.desired == Enforce {
        e := Done;
      } else {
        e := ArmGeneration();
      }
      if Unwarranted(world) { UnwarrantedIsExposed(world); }
    }

    /** A runtime found armed under a report-only intent is disarmed before anything. */
    method Settle() returns (e: Ending)
      requires Valid() && !world.locked && world.tx.None? && world.manifest.Some? && world.running.Some?
      modifies this`world, this`clock
      ensures old(clock) <= clock
      ensures Valid() && !world.locked
      ensures e == Done ==> world.tx.None? && world.manifest == old(world).manifest
      ensures e == Done && old(world).armed && world.manifest.value.desired == ReportOnly ==>
        Request(world.live) != Some(world.manifest.value.generation)
      ensures Calm(env, old(clock)) ==> e == Done && (Armable(old(world)) ==> Armable(world))
      ensures !Exposed(old(world)) ==> !Exposed(world)
      ensures Calm(env, old(clock)) && e == Done ==> world.running == old(world).plist
    {
      e := Done;
      if world.armed && world.manifest.value.desired == ReportOnly {
        e := Disarm();
        if e == Failed { e := RestoreReportOnly(); }
      }
    }

    method ArmGeneration() returns (e: Ending)
      requires Valid() && !world.locked && world.tx.None? && Armable(world)
      modifies this`world, this`clock
      ensures old(clock) <= clock
      ensures Valid() && !world.locked
      ensures e == Done ==> world.manifest == Some(old(world).manifest.value.(desired := Enforce))
      ensures Calm(env, old(clock)) ==> e == Done && world.armed
      ensures !Exposed(old(world)) ==> !Exposed(world)
      ensures Calm(env, old(clock)) && e == Done ==> world.running == old(world).plist
    {
      e := Settle();
      if e != Done { return; }
      var no := Refused();
      if no { return Failed; }
      e := PublishMode(Enforce);
      if e != Done { return; }
      e := ArmOrContain();
    }

    /** Asks the daemon to arm; an attempt that fails leaves the generation report-only. */
    method ArmOrContain() returns (e: Ending)
      requires Valid() && !world.locked && world.tx.None? && world.manifest.Some?
      modifies this`world, this`clock
      ensures old(clock) <= clock
      ensures Valid() && !world.locked
      ensures e == Done ==> world.manifest == old(world).manifest
      ensures
        e == Failed && old(world).plist.Some? && Calm(env, old(clock) + if Allowed(old(world), Arm) then 1 else 0) ==>
        && world.manifest == Some(RollbackFloor(old(world).manifest.value))
        && Request(world.live) != Some(world.manifest.value.generation)
      ensures Calm(env, old(clock)) && Allowed(old(world), Arm) ==> e == Done && world.armed
      ensures Calm(env, old(clock)) && e == Done ==> world.running == old(world).running
      ensures !Exposed(old(world)) ==> !Exposed(world)
    {
      e := RequestArm();
      if e == Failed {
        e := ContainReportOnly();
        if e == Done { e := Failed; }
      }
    }

    method SetMode(mode: Mode) returns (e: Ending)
      requires Valid() && !world.locked
      modifies this`world, this`clock
      ensures old(clock) <= clock
      ensures Valid() && !world.locked
      ensures Holds(old(world)) ==> e == Failed && world == old(world)
      ensures Stuck(old(world)) ==> e == Failed && Drift(old(world), world)
      ensures e == Done ==> world.manifest.Some? && world.manifest.value.desired == mode
      ensures !Exposed(old(world)) && !Undone(old(world)) ==> !Exposed(world) && !Unwarranted(world)
    {
      e := RecoverIncompleteInstall();
      if Unwarranted(world) { UnwarrantedIsExposed(world); }
      if e != Done { return; }
      e := SetModeLocked(mode);
    }

    // ---------------------------------------------------------------- whole lives

    /** Any operations in any order, each cut wherever the environment says. A stuck
        transaction stays as it is, whatever is tried. */
    method Serve(operations: seq<Operation>)
      requires Valid() && !world.locked
      modifies this`world, this`clock
      ensures old(clock) <= clock
      ensures Valid() && !world.locked
      ensures Stuck(old(world)) ==> Drift(old(world), world)
    {
      for i := 0 to |operations|
        invariant old(clock) <= clock
        invariant Valid() && !world.locked
        invariant Stuck(old(world)) ==> Drift(old(world), world)
      {
        Weather();
        var e := Perform(operations[i]);
      }
    }

    method Perform(operation: Operation) returns (e: Ending)
      requires Valid() && !world.locked
      modifies this`world, this`clock
      ensures old(clock) <= clock
      ensures Valid() && !world.locked
      ensures Stuck(old(world)) ==> e == Failed && Drift(old(world), world)
    {
      match operation
      case DoInstall(mode) => e := Install(mode);
      case DoAccept => e := AcceptCandidate();
      case DoRollback => e := RollbackCandidate();
      case DoSetMode(mode) => e := SetMode(mode);
    }
  }

  datatype Operation = DoInstall(mode: Mode) | DoAccept | DoRollback | DoSetMode(mode: Mode)

  /** The running daemon is the managed generation that the manifest selects, and has
      its database. */
  predicate Armable(w: World) {
    w.manifest.Some? && w.running == Some(Managed(w.manifest.value.generation)) && Main in w.live
  }

  /** The transaction `first` has reached phase `p`. */
  ghost predicate Stage(first: Tx, p: Phase, w: World) {
    w.tx.Some? && w.tx.value == first.(phase := p, backedUp := w.tx.value.backedUp)
  }

  /** The present selection can be restored, and no legacy daemon enforces. */
  predicate Installable(w: World) {
    Restorable(Opening(w, w.running.Some?)) && w.running != Some(Legacy(Enforce))
  }

  predicate Cleared(w: World) { w.tx.None? && w.backup.None? && w.pending.None? }

  /** A candidate is ready and waits for an explicit decision. */
  predicate Holds(w: World) { w.tx.Some? && w.tx.value.phase == CandidateReady }

  /** Recovery has nothing to hold and can finish. */
  predicate Recoverable(w: World) {
    !Holds(w) && (Undone(w) ==> !Stuck(w) && !Obstructed(w))
  }

  /** Nothing is left of the transaction, and it was decided as its phase says. */
  ghost predicate Recovered(v: World, w: World) {
    && Cleared(w)
    && (v.tx.None? || v.tx.value.phase == Accepted ==> w.plist == v.plist && w.manifest == v.manifest)
    && (v.tx.Some? && v.tx.value.phase != Accepted ==> RolledBack(v, w))
  }

  ghost predicate OnlyBackups(v: World, w: World) {
    w == v.(backup := w.backup, pending := w.pending)
  }

  /** Only the daemon, its writes and the lock may have changed. */
  ghost predicate Drained(v: World, w: World) {
    && w == v.(live := w.live, prior := w.prior, running := w.running, started := w.started, armed := w.armed,
        locked := w.locked)
    && (v.frozen ==> w.prior == v.prior)
  }

  /** The lock is gone and a daemon may run again. */
  ghost predicate HandedOver(v: World, w: World) {
    && w == v.(live := w.live, prior := w.prior, running := w.running, started := w.started, armed := w.armed,
        locked := w.locked, handed := w.handed)
    && (v.frozen ==> w.prior == v.prior)
    && w.handed == Some(Handed(v.live, v.prior)) && !w.locked && w.tx.Some?
  }

  /** Only the database files, and what is kept of them, may have changed. */
  ghost predicate SetAside(v: World, w: World) {
    w == v.(live := w.live, evidence := w.evidence, frozen := w.frozen) && (v.frozen ==> w.frozen)
  }

  function FileAt(i: nat): Component {
    if i == 0 then Main else if i == 1 then Wal else if i == 2 then Shm else Journal
  }

  function Rank(c: Component): nat {
    match c case Main => 0 case Wal => 1 case Shm => 2 case Journal => 3
  }

  /** The files before the `i`th have been moved, the rest not. */
  ghost predicate LeftFrom(w: World, i: nat) {
    w.evidence != [] && forall c :: c in w.live ==> i <= Rank(c) && c !in w.evidence[|w.evidence| - 1]
  }

  /** A rollback of the transaction that `v` holds is under way in `w`. */
  ghost predicate RollbackOf(v: World, w: World) {
    && v.tx.Some? && w.tx == Some(Marked(v.tx.value)) && (v.frozen ==> w.frozen && w.prior == v.prior)
    && (v.tx.value.backedUp ==> v.frozen)
  }

  /** The prior generation runs again if it was loaded, with its selection restored;
      otherwise nothing runs. */
  predicate RunsAgain(tx: Tx, w: World) {
    w.running == if tx.priorLoaded then RestoredPlist(tx) else None
  }

  /** What runs answers and does not enforce as a legacy daemon; and it runs if it is to be
      drained. */
  predicate Drainable(w: World, online: bool) {
    w.running != Some(Legacy(Enforce)) && (online ==> w.running.Some?)
  }

  /** The record names the next generation, and the selection as it was. */
  predicate Records(w: World, tx: Tx) {
    tx.candidate == w.newest + 1 && tx.priorManifest == w.manifest && tx.priorPlist == w.plist
  }

  /** What the record says of the prior generation is still as it was opened. */
  predicate SameRecord(first: Tx, w: World) {
    w.tx.Some? && w.tx.value == first.(phase := w.tx.value.phase, backedUp := w.tx.value.backedUp)
  }

  /** The candidate of the transaction runs. */
  predicate RunsCandidate(w: World) {
    w.tx.Some? && w.running == Some(Managed(w.tx.value.candidate))
  }

  /** What a rollback of the transaction of `v` has put in place when its record goes: the
      prior selection at the floor and the database the record allows. The selected
      generation is exposed only if it was not loaded and that database asks for it. */
  ghost predicate Restored(v: World, w: World)
    requires v.tx.Some?
  {
    var tx := v.tx.value;
    && w.plist == RestoredPlist(tx) && w.manifest == RestoredManifest(tx) && SelectionRestored(tx, w)
    && w.handed.Some?
    && var h := w.handed.value;
    && (tx.backedUp ==> h.prior == v.prior)
    && h.db == (if tx.backedUp then map[Main := SnapshotOf(h.prior)] else if Marked(tx).restore then map[] else h.prior)
    && (Exposed(w) ==> !tx.priorLoaded && AsksForPrior(tx, h.db))
  }

  lemma RestoredDrifts(before: World, v: World, w: World)
    requires before.tx.Some? && Restored(before, v) && Drift(v, w)
    ensures Restored(before, w)
  {
  }

  /** What a finished rollback of the transaction of `v` leaves. */
  ghost predicate RolledBack(v: World, w: World)
    requires v.tx.Some?
  {
    Cleared(w) && Restored(v, w)
  }

  lemma ReleaseKeeps(before: World, v: World, w: World)
    requires before.tx.Some? && RolledBack(before, v)
    requires w == v || (v.locked && Drift(After(v, Unlock), w))
    ensures RolledBack(before, w)
  {
  }

  /** Record, selection, what was given back, and exposure are as before. */
  ghost predicate Kept(v: World, w: World) {
    (w.tx, w.plist, w.manifest, w.handed) == (v.tx, v.plist, v.manifest, v.handed) && (Exposed(w) ==> Exposed(v))
  }

  // ------------------------------------------------------------------ what an undisturbed rollback meets

  predicate Manages(w: World) { w.running.Some? && w.running.value.Managed? }

  /** There is a transaction that is not accepted. */
  predicate Undone(w: World) { w.tx.Some? && w.tx.value.phase != Accepted }

  /** The database that an offline rollback gives back, as far as its request goes. */
  function GivenOffline(w: World): Database
    requires w.tx.Some?
  {
    if w.tx.value.backedUp then w.prior else if w.tx.value.restore then map[] else w.live
  }

  /** The prior generation would arm itself again on this database. */
  predicate RelapsesIn(tx: Tx, d: Database) { tx.priorLoaded && AsksForPrior(tx, d) }

  predicate RelapsesOffline(w: World)
    requires w.tx.Some?
  {
    RelapsesIn(w.tx.value, GivenOffline(w))
  }

  /** A rollback cannot finish now: a legacy daemon enforces, or the prior generation would
      arm itself again when it is started to be seen report-only. */
  predicate Obstructed(w: World)
    requires w.tx.Some?
  {
    ObstructedAs(w, Marked(w.tx.value))
  }

  predicate ObstructedAs(w: World, tx: Tx) {
    || w.running == Some(Legacy(Enforce))
    || (tx.priorLoaded
        && if tx.backedUp then AsksForPrior(tx, w.prior) else !tx.restore && !Manages(w) && AsksForPrior(tx, w.live))
  }

  lemma LegacyObstructs(w: World, tx: Tx)
    requires w.running == Some(Legacy(Enforce))
    ensures ObstructedAs(w, tx)
  {
  }

  /** After a drain only the prior generation's own request stands in the way. */
  lemma DrainedObstruction(v: World, w: World)
    requires v.tx.Some? && Drained(v, w) && (v.tx.value.backedUp ==> v.frozen) && v.running != Some(Legacy(Enforce))
    requires Request(w.live) == if Manages(v) then None else Request(v.live)
    ensures RelapsesOffline(w) <==> ObstructedAs(v, v.tx.value)
  {
  }
}
