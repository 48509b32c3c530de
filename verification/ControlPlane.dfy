/** The control plane: one status under one lock, and a revision counter beside it.
    Every method is one critical section and takes one event of a run, so that whatever
    is proved of runs holds of every program that uses the class. Replies of the store
    are parameters, absent when the store reports an error. */
module ControlPlane {
  import opened Wrappers
  import opened ControlTypes
  import opened ControlRuns
  import opened ControlTheorems
  import opened ControlGates

  const MAX_PAUSE_MILLIS: nat := 30 * 24 * 60 * 60 * 1000
  const CLOCK_END: nat := 0x1_0000_0000_0000_0000

  /** A lease may continue, as its worker asks. */
  predicate MayContinue(s: Status, token: nat, epoch: nat) {
    StorageMayContinue(s, token, epoch) || CacheMayContinue(s, token, epoch)
  }

  /** This service generation, in this run of the daemon. */
  ghost predicate IsExactly(s: Status, generation: nat, instance: nat) {
    s.managed && s.generation == Some(generation) && s.instance == instance
  }

  /** A managed daemon that has not shown itself ready yet. */
  ghost predicate FirstToComplete(s: Status) { s.managed && !s.draining && !s.ready }

  /** What a completed cycle publishes: the state follows from the mode and from
      whether the daemon drains, which alone makes it unhealthy. */
  ghost predicate ReadinessShown(s: Status) {
    && (s.startup.Draining? <==> s.draining) && (s.healthy <==> !s.draining)
    && (s.startup.ReadyEnforce? <==> !s.draining && s.mode.Enforce?)
    && (s.startup.ReadyReportOnly? <==> !s.draining && s.mode.ReportOnly?)
  }

  /** Ready and not draining: report-only with nothing armed, or enforcing already with
      exactly this generation armed. */
  ghost predicate Armable(s: Status, generation: nat, instance: nat) {
    && IsExactly(s, generation, instance) && s.healthy && s.ready && !s.draining
    && match s.mode
       case ReportOnly => s.startup.ReadyReportOnly? && s.armedGeneration.None? && s.epoch.None?
       case Enforce => s.startup.ReadyEnforce? && s.armedGeneration == s.generation && s.epoch.Some?
  }

  class Control {
    var status: Status
    var revision: nat
    var nextEpoch: nat
    var nextToken: nat
    /** The history, which no decision looks at. */
    var log: seq<System>
    var events: seq<Event>

    constructor (status: Status, revision: nat, nextEpoch: nat)
      requires Leased(Plane(status, revision, nextEpoch, 0))
      ensures Valid() && Now() == Plane(status, revision, nextEpoch, 0) && log[|events|].cycle.Resting?
      ensures log[|events|].authorities == []
    {
      this.status, this.revision, this.nextEpoch, this.nextToken := status, revision, nextEpoch, 0;
      log, events := [System(Plane(status, revision, nextEpoch, 0), Resting, [], 0)], [];
    }

    function Now(): Plane reads this { Plane(status, revision, nextEpoch, nextToken) }

    /** The log is a run, and the present plane is where it ends. */
    ghost predicate Valid() reads this {
      Run(log, events) && log[|events|].plane == Now()
    }

    /** Exactly the event `e` was added. */
    ghost predicate Took(was: seq<System>, before: seq<Event>, e: Event) reads this {
      && |was| == |before| + 1 && Enabled(was[|before|], e)
      && log == was + [Next(was[|before|], e)] && events == before + [e]
    }

    ghost predicate TookNothing(was: seq<System>, before: seq<Event>) reads this {
      log == was && events == before
    }

    /** No authority frozen so far can deliver any more. */
    ghost predicate AllVoid() reads this {
      log != [] && forall a :: a in log[|log| - 1].authorities ==> !MayDeliver(Now(), a.epoch, a.revision)
    }

    /** No lease may continue. */
    ghost predicate NoLease() reads this {
      forall token, epoch :: !MayContinue(status, token, epoch)
    }

    method Note(e: Event)
      requires Run(log, events) && Enabled(log[|events|], e) && Now() == PlaneAfter(log[|events|], e)
      modifies this`log, this`events
      ensures Valid() && Took(old(log), old(events), e)
    {
      Grown(log, events, e);
      log, events := log + [Next(log[|events|], e)], events + [e];
    }

    /** Where the run stands. */
    ghost function Here(): System
      reads this
      requires log != []
    {
      log[|log| - 1]
    }

    // ---------------------------------------------------------------- shared parts

    method CancelPromptActivities()
      modifies this`status
      ensures status == CancelPrompt(old(status))
    {
      if status.cache.Some? { status := status.(cache := Some(status.cache.value.(cancelled := true))); }
      if status.storage.Some? { status := status.(storage := Some(status.storage.value.(cancelled := true))); }
    }

    method RefreshCleanupActivity()
      modifies this`status
      ensures status == Refreshed(old(status))
    {
      status := status.(cleaning := status.process.Some? || status.cache.Some? || status.storage.Some?);
    }

    method ApplyManagedLifecycle(l: Lifecycle)
      modifies this`status
      ensures status == ApplyLifecycle(old(status), l)
    {
      if !l.enforce { CancelPromptActivities(); }
      status := status.(managed := true, generation := Some(l.generation), instance := l.instance);
      status := status.(mode := if l.enforce then Enforce else ReportOnly);
      status := status.(armedGeneration := l.armedGeneration, epoch := l.epoch);
      status := status.(ready := l.ready, draining := l.draining, startup := l.startup);
    }

    method CloseGate()
      modifies this`status
      ensures status == Closed(old(status))
    {
      status := status.(mode := ReportOnly, armedGeneration := None, epoch := None);
      status := status.(ready := false, startup := Failed, healthy := false);
    }

    /** What a policy command does to frozen authority. */
    lemma RaisedRevisionVoids(was: seq<System>, before: seq<Event>, e: Event)
      requires Valid() && Run(was, before) && Took(was, before, e) && PolicyCommand(e)
      ensures AllVoid()
    {
      SoundThroughout(was, before, |before|);
      PlaneSteps(was[|before|], e);
    }

    /** What the end of an epoch does to it. */
    lemma EndedEpochVoids()
      requires Valid() && status.epoch.None?
      ensures AllVoid() && NoLease()
    {
    }

    // ---------------------------------------------------------------- operator commands

    /** Acknowledged, a pause voids all frozen authority and stops both leases. */
    method Pause(now: nat, duration: nat, stored: bool) returns (until: Option<nat>)
      requires Valid()
      modifies this
      ensures Valid()
      ensures until.Some? <==>
        0 < duration <= 2_592_000_000 && now + duration <= 18_446_744_073_709_551_615 && stored
      ensures until.Some? ==> until.value == now + duration && status.paused == until && AllVoid() && NoLease()
      ensures if until.Some? then Took(old(log), old(events), DoPause(now + duration))
          else TookNothing(old(log), old(events))
    {
      if duration == 0 || duration > MAX_PAUSE_MILLIS { return None; }
      if now + duration >= CLOCK_END { return None; }
      if !stored { return None; }
      status := status.(paused := Some(now + duration));
      CancelPromptActivities();
      revision := revision + 1;
      Note(DoPause(now + duration));
      RaisedRevisionVoids(old(log), old(events), DoPause(now + duration));
      until := Some(now + duration);
    }

    /** Acknowledged, a resume voids all frozen authority, and lets no lease continue that
        could not before. */
    method Resume(stored: bool) returns (ok: bool)
      requires Valid()
      modifies this
      ensures Valid() && ok == stored
      ensures ok ==> status.paused.None? && AllVoid()
      ensures forall token, epoch ::
        old(Over(status.storage, Now(), token, epoch)) ==> !StorageMayContinue(status, token, epoch)
      ensures forall token, epoch ::
        old(Over(status.cache, Now(), token, epoch)) ==> !CacheMayContinue(status, token, epoch)
      ensures if ok then Took(old(log), old(events), DoResume) else TookNothing(old(log), old(events))
    {
      if stored {
        status := status.(paused := None);
        revision := revision + 1;
        Note(DoResume);
        RaisedRevisionVoids(old(log), old(events), DoResume);
      }
      ok := stored;
    }

    /** Retry, protect or unprotect; the store says whether there was such an incident.
        Acknowledged, it voids all frozen authority and leaves the leases alone. */
    method ChangePolicy(stored: bool) returns (ok: bool)
      requires Valid()
      modifies this
      ensures Valid() && ok == stored && status == old(status)
      ensures ok ==> AllVoid()
      ensures if ok then Took(old(log), old(events), DoPolicy) else TookNothing(old(log), old(events))
    {
      if stored {
        revision := revision + 1;
        Note(DoPolicy);
        RaisedRevisionVoids(old(log), old(events), DoPolicy);
      }
      ok := stored;
    }

    /** A healthy, ready daemon of exactly this identity is armed, under a fresh epoch
        unless it enforces already. */
    method Arm(generation: nat, instance: nat, stored: Option<Lifecycle>) returns (ok: bool)
      requires Valid() && (stored.Some? ==> Arms(Now(), stored.value))
      modifies this
      ensures Valid()
      ensures ok <==> stored.Some? && old(Armable(status, generation, instance))
      ensures ok ==> status.healthy && status.mode.Enforce? && status.managed
      ensures ok ==> status.generation == Some(stored.value.generation)
      ensures ok ==> status.armedGeneration == stored.value.armedGeneration
      ensures ok ==> status.epoch == if old(status).epoch.Some? then old(status).epoch else Some(old(nextEpoch))
      ensures ok ==> Took(old(log), old(events), DoArm(stored.value))
      ensures !ok ==> TookNothing(old(log), old(events)) || Took(old(log), old(events), WasteEpoch)
    {
      if !ExactIdentity(status, generation, instance) || !ReadyToArm(status, generation) { return false; }
      nextEpoch := nextEpoch + 1;
      if stored.None? {
        Note(WasteEpoch);
        return false;
      }
      ApplyManagedLifecycle(stored.value);
      status := status.(healthy := true);
      Note(DoArm(stored.value));
      ok := true;
    }

    /** Acknowledged, it voids all frozen authority and stops both leases. */
    method Disarm(generation: nat, instance: nat, stored: Option<Lifecycle>) returns (ok: bool)
      requires Valid() && (stored.Some? ==> NonEnforcing(stored.value))
      modifies this
      ensures Valid()
      ensures ok <==> old(IsExactly(status, generation, instance)) && stored.Some?
      ensures ok ==> AllVoid() && NoLease() && (old(status).startup == Failed ==> !status.healthy)
      ensures if ok then Took(old(log), old(events), DoDisarm(stored.value)) else TookNothing(old(log), old(events))
    {
      if !ExactIdentity(status, generation, instance) { return false; }
      var failed := status.startup == Failed;
      if stored.None? { return false; }
      ApplyManagedLifecycle(stored.value);
      if failed { status := status.(healthy := false); }
      Note(DoDisarm(stored.value));
      EndedEpochVoids();
      ok := true;
    }

    /** Acknowledged, it voids all frozen authority and stops both leases. */
    method BeginDrain(generation: nat, instance: nat, stored: Option<Lifecycle>) returns (ok: bool)
      requires Valid() && (stored.Some? ==> NonEnforcing(stored.value) && stored.value.draining)
      modifies this
      ensures Valid()
      ensures ok <==> old(IsExactly(status, generation, instance)) && stored.Some?
      ensures ok ==> AllVoid() && NoLease() && status.draining && status.healthy
      ensures if ok then Took(old(log), old(events), DoDrain(stored.value)) else TookNothing(old(log), old(events))
    {
      if !ExactIdentity(status, generation, instance) || stored.None? { return false; }
      ApplyManagedLifecycle(stored.value);
      status := status.(healthy := true);
      Note(DoDrain(stored.value));
      EndedEpochVoids();
      ok := true;
    }

    /** Clears a pause that has run out, which is no policy command. */
    method ExpirePause(now: nat, stored: bool) returns (ok: bool)
      requires Valid()
      modifies this
      ensures Valid() && revision == old(revision)
      ensures ok <==> stored || old(status).paused.None? || now < old(status).paused.value
      ensures ok ==> status.paused == if old(status).paused.Some? && old(status).paused.value <= now then None
          else old(status).paused
      ensures if ok then Took(old(log), old(events), Event.ExpirePause(now)) else TookNothing(old(log), old(events))
    {
      if status.paused.Some? && status.paused.value <= now {
        if !stored { return false; }
        status := status.(paused := None);
      }
      Note(Event.ExpirePause(now));
      ok := true;
    }

    // ---------------------------------------------------------------- failure and completion

    /** Voids all frozen authority and stops both leases, recorded or not. */
    method FailClosed(stored: Option<Lifecycle>)
      requires Valid() && (stored.Some? ==> NonEnforcing(stored.value))
      modifies this
      ensures Valid() && AllVoid() && NoLease() && status.startup == Failed && !status.healthy
      ensures Took(old(log), old(events), DoFail(stored))
    {
      CancelPromptActivities();
      if status.managed && stored.Some? { ApplyManagedLifecycle(stored.value); }
      CloseGate();
      Note(DoFail(stored));
      EndedEpochVoids();
    }

    method FailCycle(failed: Option<Lifecycle>)
      modifies this`status
      ensures status == CycleFailed(old(status), failed)
    {
      if failed.Some? {
        ApplyManagedLifecycle(failed.value);
        status := status.(healthy := false);
      } else {
        CloseGate();
      }
    }

    method FinishCycle(readied: Option<Lifecycle>, failed: Option<Lifecycle>) returns (ok: bool)
      requires failed.Some? ==> NonEnforcing(failed.value)
      modifies this`status, this`nextEpoch
      ensures Now() == CycleCompleted(old(Now()), readied, failed)
      ensures ok <==> !old(status).startup.Failed? && (old(FirstToComplete(status)) ==>
        old(status).startup.FirstScan? && readied.Some?)
      ensures !ok && (old(status).managed || old(status).startup != Failed) ==> !status.healthy && status.epoch.None?
    {
      if !status.managed && status.startup == Failed { return false; }
      if status.managed && status.startup == Failed {
        FailCycle(failed);
        return false;
      }
      if status.managed && !status.draining && !status.ready {
        if status.startup != FirstScan {
          FailCycle(failed);
          return false;
        }
        nextEpoch := nextEpoch + 1;
        if readied.None? {
          FailCycle(failed);
          return false;
        }
        ApplyManagedLifecycle(readied.value);
      }
      status := status.(healthy := !status.draining, ready := status.ready || !status.managed);
      status := status.(startup := if status.draining then Draining else if status.mode == Enforce then ReadyEnforce
        else ReadyReportOnly);
      ok := true;
    }

    /** Publishes readiness, or fails, which voids all frozen authority and stops both
        leases; an unmanaged daemon that has failed is left as it is. */
    method CompleteSuccessfulCycle(readied: Option<Lifecycle>, failed: Option<Lifecycle>) returns (ok: bool)
      requires Valid() && (readied.Some? ==> Readies(Now(), readied.value))
      requires (failed.Some? ==> NonEnforcing(failed.value))
      modifies this
      ensures Valid()
      ensures ok <==> !old(status).startup.Failed? && (old(FirstToComplete(status)) ==>
        old(status).startup.FirstScan? && readied.Some?)
      ensures ok ==> ReadinessShown(status) && (status.managed || status.ready)
      ensures ok && !old(FirstToComplete(status)) ==>
        (status.mode, status.epoch, status.armedGeneration) == old((status.mode, status.epoch, status.armedGeneration))
      ensures ok && old(FirstToComplete(status)) ==>
        && status.mode.Enforce? == readied.value.enforce && status.ready == readied.value.ready
        && (status.epoch, status.armedGeneration) == (readied.value.epoch, readied.value.armedGeneration)
      ensures !ok && (old(status).managed || old(status).startup != Failed) ==>
        !status.healthy && AllVoid() && NoLease()
      ensures Took(old(log), old(events), DoComplete(readied, failed))
    {
      ok := FinishCycle(readied, failed);
      Note(DoComplete(readied, failed));
      if status.epoch.None? { EndedEpochVoids(); }
    }

    method SetScanning(on: bool)
      requires Valid()
      modifies this
      ensures Valid() && Took(old(log), old(events), DoScan(on))
      ensures forall token, epoch :: MayContinue(status, token, epoch) <==> old(MayContinue(status, token, epoch))
    {
      status := status.(scanning := on);
      Note(DoScan(on));
    }

    // ---------------------------------------------------------------- leases

    /** A lease is issued exactly when the daemon works, unpaused, nothing else is going on,
        and its PREPARED record is durable; it may continue, and keeps every other one out. */
    method StartStorageCleanup(stored: bool) returns (lease: Option<Lease>)
      requires Valid()
      modifies this
      ensures Valid()
      ensures lease.Some? <==> old(Working(status) && Idle(status)) && stored
      ensures lease.Some? ==> StorageMayContinue(status, lease.value.token, lease.value.epoch) && !CleanupGate(status)
      ensures old(status).paused.Some? ==> lease.None? && NoLease()
      ensures if lease.Some? then Took(old(log), old(events), StartStorage) else TookNothing(old(log), old(events))
    {
      SoundThroughout(log, events, |events|);
      GateOpensWhenIdle(status, nextToken, nextEpoch);
      if !CleanupGate(status) || !stored { return None; }
      lease := Some(Lease(nextToken, status.epoch.value, false));
      status := status.(storage := lease);
      nextToken := nextToken + 1;
      RefreshCleanupActivity();
      Note(StartStorage);
    }

    /** The same; the owner is published only if its worker could be created. */
    method StartCache(stored: bool, created: bool) returns (lease: Option<Lease>)
      requires Valid()
      modifies this
      ensures Valid()
      ensures lease.Some? <==> old(Working(status) && Idle(status)) && stored && created
      ensures lease.Some? ==> CacheMayContinue(status, lease.value.token, lease.value.epoch) && !CleanupGate(status)
      ensures old(status).paused.Some? ==> lease.None? && NoLease()
      ensures
        if old(Working(status) && Idle(status)) && stored then Took(old(log), old(events), Event.StartCache(created))
        else TookNothing(old(log), old(events))
    {
      SoundThroughout(log, events, |events|);
      GateOpensWhenIdle(status, nextToken, nextEpoch);
      if !CleanupGate(status) || !stored { return None; }
      var token, epoch := nextToken, status.epoch.value;
      nextToken := nextToken + 1;
      if created {
        lease := Some(Lease(token, epoch, false));
        status := status.(cache := lease);
        RefreshCleanupActivity();
      } else {
        lease := None;
      }
      Note(Event.StartCache(created));
    }

    /** Afterwards this token may not continue, and every other lease is as it was. */
    method FinishStorage(token: nat) returns (ok: bool)
      requires Valid()
      modifies this
      ensures Valid() && (ok <==> MayFinish(old(status).storage, token))
      ensures forall epoch :: !StorageMayContinue(status, token, epoch)
      ensures forall t, epoch :: t != token ==>
        (StorageMayContinue(status, t, epoch) <==> old(StorageMayContinue(status, t, epoch)))
      ensures forall t, epoch :: old(CacheMayContinue(status, t, epoch)) ==> CacheMayContinue(status, t, epoch)
      ensures Took(old(log), old(events), Event.FinishStorage(token))
    {
      SoundThroughout(log, events, |events|);
      ok := !(status.storage.Some? && status.storage.value.token != token);
      if ok {
        status := status.(storage := None);
        RefreshCleanupActivity();
      }
      Note(Event.FinishStorage(token));
    }

    /** The same for the cache. */
    method FinishCache(token: nat) returns (ok: bool)
      requires Valid()
      modifies this
      ensures Valid() && (ok <==> MayFinish(old(status).cache, token))
      ensures forall epoch :: !CacheMayContinue(status, token, epoch)
      ensures forall t, epoch :: t != token ==>
        (CacheMayContinue(status, t, epoch) <==> old(CacheMayContinue(status, t, epoch)))
      ensures forall t, epoch :: old(StorageMayContinue(status, t, epoch)) ==> StorageMayContinue(status, t, epoch)
      ensures Took(old(log), old(events), Event.FinishCache(token))
    {
      SoundThroughout(log, events, |events|);
      ok := !(status.cache.Some? && status.cache.value.token != token);
      if ok {
        status := status.(cache := None);
        RefreshCleanupActivity();
      }
      Note(Event.FinishCache(token));
    }

    /** One process cleanup at a time. It keeps new leases out, and neither stops nor
        revives one. */
    method BeginProcess(token: nat) returns (ok: bool)
      requires Valid()
      modifies this
      ensures Valid() && (ok <==> old(status).process.None?)
      ensures status.process == (if ok then Some(token) else old(status).process) && !CleanupGate(status)
      ensures forall t, epoch :: MayContinue(status, t, epoch) <==> old(MayContinue(status, t, epoch))
      ensures Took(old(log), old(events), Event.BeginProcess(token))
    {
      SoundThroughout(log, events, |events|);
      ok := status.process.None?;
      if ok {
        status := status.(process := Some(token));
        RefreshCleanupActivity();
      }
      Note(Event.BeginProcess(token));
    }

    /** Ends only the owner's activity, and neither stops nor revives a lease. */
    method EndProcess(token: nat)
      requires Valid()
      modifies this
      ensures Valid()
      ensures status.process == if old(status).process == Some(token) then None else old(status).process
      ensures forall t, epoch :: MayContinue(status, t, epoch) <==> old(MayContinue(status, t, epoch))
      ensures Took(old(log), old(events), Event.EndProcess(token))
    {
      SoundThroughout(log, events, |events|);
      if status.process == Some(token) {
        status := status.(process := None);
        RefreshCleanupActivity();
      }
      Note(Event.EndProcess(token));
    }

    // ---------------------------------------------------------------- observation cycles

    method ReadLifecycle(now: nat) returns (life: Status)
      requires Valid() && Here().cycle.Resting?
      modifies this`log, this`events
      ensures Valid() && life == status && Took(old(log), old(events), Event.ReadLifecycle(now))
    {
      life := status;
      Note(Event.ReadLifecycle(now));
    }

    method CleanupPolicyRevision() returns (frozen: nat)
      requires Valid() && Here().cycle.SawLifecycle?
      modifies this`log, this`events
      ensures Valid() && frozen == revision && Took(old(log), old(events), ReadRevision)
    {
      frozen := revision;
      Note(ReadRevision);
    }

    method ExpirePauseAgain(now: nat)
      requires Valid() && Here().cycle.SawRevision? && Here().cycle.now == now
      modifies this
      ensures Valid() && Took(old(log), old(events), ExpireAgain)
    {
      if status.paused.Some? && status.paused.value <= now { status := status.(paused := None); }
      Note(ExpireAgain);
    }

    method ReadStatus() returns (seen: Status)
      requires Valid() && Here().cycle.Expired?
      modifies this`log, this`events
      ensures Valid() && seen == status && Took(old(log), old(events), Event.ReadStatus)
    {
      seen := status;
      Note(Event.ReadStatus);
    }

    /** Whether the cycle may still start cleanup work on what it has read. */
    method StillAuthorises(now: nat, life: Status, frozen: nat, seen: Status) returns (yes: bool)
      requires Valid() && Here().cycle.SawStatus?
      requires var c := Here().cycle; (c.now, c.life, c.revision, c.seen) == (now, life, frozen, seen)
      modifies this`log, this`events
      ensures Valid() && Took(old(log), old(events), Decide)
      ensures yes <==> Here().cycle.Dispatching?
      ensures yes ==> life.epoch.Some? && Here().cycle.authority.epoch == life.epoch.value
      ensures yes ==> Here().cycle.authority.revision == frozen
      ensures !yes ==> Here().cycle.Resting?
    {
      var paused := seen.paused.Some? && seen.paused.value > now;
      yes := life.mode == Enforce && life.epoch.Some? && seen.mode == Enforce && seen.epoch == life.epoch
        && revision == frozen && !paused;
      Note(Decide);
    }

    /** Work begins only while gate, epoch and revision still hold. */
    method BeginCleanupAttemptIfArmed(epoch: nat, frozen: nat) returns (begun: bool)
      requires Valid() && Here().cycle.Dispatching? && Here().cycle.authority.epoch == epoch
      requires Here().cycle.authority.revision == frozen
      modifies this`log, this`events
      ensures Valid() && Took(old(log), old(events), Attempt)
      ensures begun <==> MayDeliver(Now(), epoch, frozen)
      ensures begun ==> Here().cycle == old(Here().cycle)
      ensures begun ==> Here().authorities == old(Here().authorities) + [old(Here().cycle.authority)]
      ensures !begun ==> Here().cycle.Resting? && Here().authorities == old(Here().authorities)
    {
      begun := SignalGate(status, epoch) && revision == frozen;
      Note(Attempt);
    }

    method EndObservation()
      requires Valid()
      modifies this`log, this`events
      ensures Valid() && Took(old(log), old(events), EndCycle)
    {
      Note(EndCycle);
    }

    /** Takes over where a longer history has come to. */
    method Adopt(longer: seq<System>, more: seq<Event>)
      requires Valid() && Run(longer, more) && log <= longer && events <= more
      modifies this
      ensures Valid() && log == longer && events == more
    {
      var plane := longer[|more|].plane;
      status, revision, nextEpoch, nextToken := plane.status, plane.revision, plane.nextEpoch, plane.nextToken;
      log, events := longer, more;
    }

    // ---------------------------------------------------------------- delivery

    /** Delivers, under the lock, exactly when the frozen epoch and revision still hold;
        and then enforcing, not draining, unpaused, under an epoch unbroken since its
        cycle read it, with nothing acknowledged since its cycle read the revision. */
    method DeliverSignalIfArmed(epoch: nat, frozen: nat, k: nat) returns (delivered: bool)
      requires Valid() && k < |Here().authorities| && Here().authorities[k].epoch == epoch
      requires Here().authorities[k].revision == frozen
      modifies this`log, this`events
      ensures Valid() && Took(old(log), old(events), Deliver(k))
      ensures delivered <==> MayDeliver(Now(), epoch, frozen)
      ensures delivered ==> Delivered(log, events, |old(events)|)
    {
      delivered := SignalGate(status, epoch) && revision == frozen;
      Note(Deliver(k));
      if delivered {
        assert DeliversAt(log, events, |old(events)|, k);
        DeliverySafety(log, events, |old(events)|, k);
      }
    }
  }
}
