/** Every interleaving of operator commands, observation cycles, the workers that act
    on frozen authority, and the cache and storage leases. */
module ControlRuns {
  import opened Wrappers
  import opened ControlTypes

  /** Where the observation cycle is, with what it has read. `from` and `at` are the
      times at which it read the lifecycle and the revision. */
  datatype Cycle =
    | Resting
    | SawLifecycle(now: nat, life: Status, from: nat)
    | SawRevision(now: nat, life: Status, from: nat, revision: nat, at: nat)
    | Expired(now: nat, life: Status, from: nat, revision: nat, at: nat)
    | SawStatus(now: nat, life: Status, from: nat, revision: nat, at: nat, seen: Status)
    | Dispatching(authority: Authority)

  /** What a cycle froze for the workers that it starts. */
  datatype Authority = Authority(epoch: nat, revision: nat, from: nat, at: nat)

  datatype System = System(plane: Plane, cycle: Cycle, authorities: seq<Authority>, time: nat)

  /** Critical sections, in the order in which they take the lock. A command that the
      store or a check refuses changes nothing and is no event. */
  datatype Event =
    | DoPause(deadline: nat) | DoResume | DoPolicy
    | DoArm(stored: Lifecycle) | WasteEpoch | DoDisarm(stored: Lifecycle) | DoDrain(stored: Lifecycle)
    | ExpirePause(now: nat)
    | DoFail(failed: Option<Lifecycle>) | DoComplete(readied: Option<Lifecycle>, failed: Option<Lifecycle>)
    | DoScan(on: bool)
    | ReadLifecycle(now: nat) | ReadRevision | ExpireAgain | ReadStatus | Decide | Attempt | EndCycle
    | Deliver(authority: nat)
    | StartStorage | StartCache(created: bool) | FinishStorage(token: nat) | FinishCache(token: nat)
    | BeginProcess(token: nat) | EndProcess(token: nat)

  /** The commands whose acknowledgement must end earlier authority. */
  predicate PolicyCommand(e: Event) { e.DoPause? || e.DoResume? || e.DoPolicy? }

  // ------------------------------------------------------------------ one event

  predicate Enabled(s: System, e: Event) {
    match e
    case DoArm(l) => Arms(s.plane, l)
    case DoDisarm(l) => NonEnforcing(l)
    case DoDrain(l) => NonEnforcing(l) && l.draining
    case DoFail(f) => f.Some? ==> NonEnforcing(f.value)
    case DoComplete(r, f) => (r.Some? ==> Readies(s.plane, r.value)) && (f.Some? ==> NonEnforcing(f.value))
    case ReadLifecycle(_) => s.cycle.Resting?
    case ReadRevision => s.cycle.SawLifecycle?
    case ExpireAgain => s.cycle.SawRevision?
    case ReadStatus => s.cycle.Expired?
    case Decide => s.cycle.SawStatus?
    case Attempt => s.cycle.Dispatching?
    case Deliver(k) => k < |s.authorities|
    case StartStorage => CleanupGate(s.plane.status)
    case StartCache(_) => CleanupGate(s.plane.status)
    case _ => true
  }

  /** What the cycle checks before it starts cleanup work. */
  predicate StillAuthorised(c: Cycle, revision: nat)
    requires c.SawStatus?
  {
    && c.life.mode == Enforce && c.life.epoch.Some?
    && c.seen.mode == Enforce && c.seen.epoch == c.life.epoch
    && revision == c.revision
    && !(c.seen.paused.Some? && c.seen.paused.value > c.now)
  }

  function PlaneAfter(s: System, e: Event): Plane
    requires Enabled(s, e)
  {
    var p := s.plane;
    match e
    case DoPause(deadline) => Paused(p, deadline)
    case DoResume => Resumed(p)
    case DoPolicy => PolicyChanged(p)
    case DoArm(l) => Armed(p, l)
    case WasteEpoch => p.(nextEpoch := p.nextEpoch + 1)
    case DoDisarm(l) => Disarmed(p, l)
    case DoDrain(l) => DrainBegun(p, l)
    case ExpirePause(now) => PauseExpired(p, now)
    case DoFail(f) => FailedClosed(p, f)
    case DoComplete(r, f) => CycleCompleted(p, r, f)
    case DoScan(on) => Scanning(p, on)
    case ExpireAgain => PauseExpired(p, s.cycle.now)
    case StartStorage => StorageStarted(p)
    case StartCache(created) => CacheStarted(p, created)
    case FinishStorage(token) => StorageFinished(p, token)
    case FinishCache(token) => CacheFinished(p, token)
    case BeginProcess(token) => ProcessBegun(p, token)
    case EndProcess(token) => ProcessEnded(p, token)
    case _ => p
  }

  function CycleAfter(s: System, e: Event): Cycle
    requires Enabled(s, e)
  {
    var c, p := s.cycle, s.plane;
    match e
    case ReadLifecycle(now) => SawLifecycle(now, p.status, s.time)
    case ReadRevision => SawRevision(c.now, c.life, c.from, p.revision, s.time)
    case ExpireAgain => Expired(c.now, c.life, c.from, c.revision, c.at)
    case ReadStatus => SawStatus(c.now, c.life, c.from, c.revision, c.at, p.status)
    case Decide =>
      if StillAuthorised(c, p.revision) then Dispatching(Authority(c.life.epoch.value, c.revision, c.from, c.at))
        else Resting
    case Attempt => if MayDeliver(p, c.authority.epoch, c.authority.revision) then c else Resting
    case EndCycle => Resting
    case _ => c
  }

  function AuthoritiesAfter(s: System, e: Event): seq<Authority>
    requires Enabled(s, e)
  {
    if e.Attempt? && MayDeliver(s.plane, s.cycle.authority.epoch, s.cycle.authority.revision)
    then s.authorities + [s.cycle.authority] else s.authorities
  }

  function Next(s: System, e: Event): System
    requires Enabled(s, e)
  {
    System(PlaneAfter(s, e), CycleAfter(s, e), AuthoritiesAfter(s, e), s.time + 1)
  }

  // ------------------------------------------------------------------ the plane by itself

  /** The revision never falls, and rises with every acknowledged policy command; a
      pause begins only with one; an epoch that is in force was issued. */
  predicate PlaneStep(p: Plane, q: Plane) {
    && p.revision <= q.revision && p.nextEpoch <= q.nextEpoch && p.nextToken <= q.nextToken
    && (p.revision == q.revision ==> q.status.paused.None? || q.status.paused == p.status.paused)
    && (q.status.epoch == p.status.epoch || q.status.epoch.None?
          || (q.status.epoch == Some(p.nextEpoch) && p.nextEpoch < q.nextEpoch))
  }

  lemma PlaneSteps(s: System, e: Event)
    requires Enabled(s, e)
    ensures PlaneStep(s.plane, PlaneAfter(s, e))
    ensures PolicyCommand(e) ==> s.plane.revision < PlaneAfter(s, e).revision
  {
  }

  /** Activity bookkeeping: the flag says whether anyone owns an activity, the cache and
      the storage never both do, and whatever is in use was issued. */
  predicate Tidy(s: Status, tokens: nat, epochs: nat) {
    && s.cleaning == (s.process.Some? || s.cache.Some? || s.storage.Some?)
    && !(s.cache.Some? && s.storage.Some?)
    && (s.cache.Some? ==> s.cache.value.token < tokens && s.cache.value.epoch < epochs)
    && (s.storage.Some? ==> s.storage.value.token < tokens && s.storage.value.epoch < epochs)
    && (s.epoch.Some? ==> s.mode == Enforce && s.epoch.value < epochs)
  }

  predicate Leased(p: Plane) { Tidy(p.status, p.nextToken, p.nextEpoch) }

  lemma TidyApplied(s: Status, l: Lifecycle, tokens: nat, epochs: nat)
    requires Tidy(s, tokens, epochs) && (NonEnforcing(l) || (l.enforce && l.epoch == Some(epochs)))
    ensures Tidy(ApplyLifecycle(s, l), tokens, epochs + 1)
    ensures NonEnforcing(l) ==> Tidy(ApplyLifecycle(s, l), tokens, epochs)
  {
  }

  lemma TidyCycleFailed(s: Status, failed: Option<Lifecycle>, tokens: nat, epochs: nat)
    requires Tidy(s, tokens, epochs) && (failed.Some? ==> NonEnforcing(failed.value))
    ensures Tidy(CycleFailed(s, failed), tokens, epochs) && Tidy(CycleFailed(s, failed), tokens, epochs + 1)
  {
  }

  predicate LeaseEvent(e: Event) {
    e.StartStorage? || e.StartCache? || e.FinishStorage? || e.FinishCache? || e.BeginProcess? || e.EndProcess?
  }

  lemma LeaseEventsKept(s: System, e: Event)
    requires Enabled(s, e) && Leased(s.plane) && LeaseEvent(e)
    ensures Leased(PlaneAfter(s, e))
  {
  }

  lemma CompletionKept(s: System, e: Event)
    requires Enabled(s, e) && Leased(s.plane) && e.DoComplete?
    ensures Leased(PlaneAfter(s, e))
  {
    var p := s.plane;
    TidyCycleFailed(p.status, e.failed, p.nextToken, p.nextEpoch);
    if e.readied.Some? { TidyApplied(p.status, e.readied.value, p.nextToken, p.nextEpoch); }
    assert PlaneAfter(s, e) == CycleCompleted(p, e.readied, e.failed);
  }

  lemma LifecycleKept(s: System, e: Event)
    requires Enabled(s, e) && Leased(s.plane) && (e.DoArm? || e.DoDisarm? || e.DoDrain? || e.DoFail?)
    ensures Leased(PlaneAfter(s, e))
  {
  }

  lemma LeasedKept(s: System, e: Event)
    requires Enabled(s, e) && Leased(s.plane)
    ensures Leased(PlaneAfter(s, e))
  {
    if LeaseEvent(e) { LeaseEventsKept(s, e); }
    else if e.DoComplete? { CompletionKept(s, e); }
    else if e.DoArm? || e.DoDisarm? || e.DoDrain? || e.DoFail? { LifecycleKept(s, e); }
  }

  // ------------------------------------------------------------------ cycles and authority

  /** As long as the revision stands, nothing is paused. */
  predicate Unpaused(p: Plane, revision: nat) {
    revision <= p.revision && (revision == p.revision ==> p.status.paused.None?)
  }

  predicate CycleSound(p: Plane, c: Cycle, time: nat) {
    match c
    case Resting => true
    case SawLifecycle(_, _, from) => from < time
    case SawRevision(_, _, from, r, at) => from < at < time && r <= p.revision
    case Expired(now, _, from, r, at) =>
      from < at < time && r <= p.revision && (r == p.revision ==> p.status.paused.None? || now < p.status.paused.value)
    case SawStatus(now, _, from, r, at, seen) =>
      && from < at < time && r <= p.revision
      && (r == p.revision && (seen.paused.Some? ==> seen.paused.value <= now) ==> p.status.paused.None?)
    case Dispatching(a) => a.from < a.at < time && Unpaused(p, a.revision)
  }

  ghost predicate Sound(s: System) {
    && Leased(s.plane) && CycleSound(s.plane, s.cycle, s.time)
    && forall k :: 0 <= k < |s.authorities| ==>
        s.authorities[k].from < s.authorities[k].at < s.time && Unpaused(s.plane, s.authorities[k].revision)
  }

  lemma CycleKept(s: System, e: Event)
    requires Enabled(s, e) && CycleSound(s.plane, s.cycle, s.time) && PlaneStep(s.plane, PlaneAfter(s, e))
    ensures CycleSound(PlaneAfter(s, e), CycleAfter(s, e), s.time + 1)
  {
  }

  lemma SoundKept(s: System, e: Event)
    requires Enabled(s, e) && Sound(s)
    ensures Sound(Next(s, e))
  {
    PlaneSteps(s, e);
    LeasedKept(s, e);
    CycleKept(s, e);
  }
}
