/** The locked daemon status, the gates over it, and what each command makes of it. */
module ControlTypes {
  import opened Wrappers

  datatype Mode = ReportOnly | Enforce

  datatype Startup = Booting | Recovering | FirstScan | ReadyReportOnly | ReadyEnforce | Draining | Failed

  /** An owned activity that can be cancelled but never uncancelled. */
  datatype Lease = Lease(token: nat, epoch: nat, cancelled: bool)

  datatype Status = Status(
    managed: bool,
    instance: nat,
    healthy: bool,
    ready: bool,
    startup: Startup,
    mode: Mode,
    generation: Option<nat>,
    armedGeneration: Option<nat>,
    epoch: Option<nat>,
    draining: bool,
    scanning: bool,
    cleaning: bool,
    paused: Option<nat>,
    process: Option<nat>,
    cache: Option<Lease>,
    storage: Option<Lease>)

  /** What the store returns from a lifecycle transition. */
  datatype Lifecycle = Lifecycle(
    generation: nat,
    instance: nat,
    enforce: bool,
    armedGeneration: Option<nat>,
    epoch: Option<nat>,
    ready: bool,
    draining: bool,
    startup: Startup)

  /** The status with its revision counter and the supplies of fresh epochs and tokens. */
  datatype Plane = Plane(status: Status, revision: nat, nextEpoch: nat, nextToken: nat)

  // ------------------------------------------------------------------ gates

  predicate SignalGate(s: Status, epoch: nat) {
    && !s.draining && s.mode == Enforce && s.epoch == Some(epoch)
    && (!s.managed || (s.ready && s.generation.Some? && s.armedGeneration == s.generation))
  }

  predicate CleanupGate(s: Status) {
    && s.healthy && s.ready && s.startup == ReadyEnforce && s.mode == Enforce && s.epoch.Some?
    && (!s.managed || (s.generation.Some? && s.armedGeneration == s.generation))
    && !s.draining && !s.scanning && !s.cleaning && s.paused.None?
  }

  predicate MayDeliver(p: Plane, epoch: nat, revision: nat) {
    SignalGate(p.status, epoch) && p.revision == revision
  }

  predicate Owns(l: Option<Lease>, token: nat, epoch: nat) {
    l == Some(Lease(token, epoch, false))
  }

  predicate StorageMayContinue(s: Status, token: nat, epoch: nat) {
    && Owns(s.storage, token, epoch)
    && var gate := Refreshed(s.(storage := None, process := None, scanning := false));
    CleanupGate(gate) && gate.epoch == Some(epoch)
  }

  predicate CacheMayContinue(s: Status, token: nat, epoch: nat) {
    && Owns(s.cache, token, epoch)
    && var gate := Refreshed(s.(cache := None, process := None, scanning := false));
    CleanupGate(gate) && gate.epoch == Some(epoch)
  }

  // ------------------------------------------------------------------ parts of commands

  function Refreshed(s: Status): Status {
    s.(cleaning := s.process.Some? || s.cache.Some? || s.storage.Some?)
  }

  function Cancelled(l: Option<Lease>): Option<Lease> {
    if l.Some? then Some(l.value.(cancelled := true)) else None
  }

  function CancelPrompt(s: Status): Status {
    s.(cache := Cancelled(s.cache), storage := Cancelled(s.storage))
  }

  function ApplyLifecycle(s: Status, l: Lifecycle): Status {
    (if l.enforce then s else CancelPrompt(s)).(
      managed := true,
      generation := Some(l.generation),
      instance := l.instance,
      mode := if l.enforce then Enforce else ReportOnly,
      armedGeneration := l.armedGeneration,
      epoch := l.epoch,
      ready := l.ready,
      draining := l.draining,
      startup := l.startup)
  }

  /** The volatile gate, closed. */
  function Closed(s: Status): Status {
    s.(mode := ReportOnly, armedGeneration := None, epoch := None, ready := false, startup := Failed, healthy := false)
  }

  // ------------------------------------------------------------------ what the store promises

  /** Disarm, drain and failure leave nothing enforcing. */
  predicate NonEnforcing(l: Lifecycle) { !l.enforce && l.epoch.None? && l.armedGeneration.None? }

  /** The store's record is what the status already shows. */
  predicate Mirrors(s: Status, l: Lifecycle) {
    && s.managed && s.generation == Some(l.generation) && s.instance == l.instance
    && s.armedGeneration == l.armedGeneration && s.epoch == l.epoch
    && s.ready == l.ready && s.draining == l.draining && s.startup == l.startup
  }

  /** Arming enforces under the offered epoch; arming again changes nothing. */
  predicate Arms(p: Plane, l: Lifecycle) {
    l.enforce && if p.status.mode == Enforce then Mirrors(p.status, l) else l.epoch == Some(p.nextEpoch)
  }

  /** The first scan ends report-only, or enforcing under the offered epoch. */
  predicate Readies(p: Plane, l: Lifecycle) {
    NonEnforcing(l) || (l.enforce && l.epoch == Some(p.nextEpoch))
  }

  // ------------------------------------------------------------------ commands

  predicate ExactIdentity(s: Status, generation: nat, instance: nat) {
    s.managed && s.generation == Some(generation) && s.instance == instance
  }

  predicate ReadyToArm(s: Status, generation: nat) {
    && s.healthy && s.ready && !s.draining
    && (|| (s.startup == ReadyReportOnly && s.mode == ReportOnly && s.armedGeneration.None? && s.epoch.None?)
        || (s.startup == ReadyEnforce && s.mode == Enforce && s.armedGeneration == Some(generation) && s.epoch.Some?))
  }

  function Paused(p: Plane, deadline: nat): Plane {
    p.(status := CancelPrompt(p.status.(paused := Some(deadline))), revision := p.revision + 1)
  }

  function Resumed(p: Plane): Plane {
    p.(status := p.status.(paused := None), revision := p.revision + 1)
  }

  /** Retry, protect and unprotect. */
  function PolicyChanged(p: Plane): Plane { p.(revision := p.revision + 1) }

  function PauseExpired(p: Plane, now: nat): Plane {
    if p.status.paused.Some? && p.status.paused.value <= now then p.(status := p.status.(paused := None)) else p
  }

  function Armed(p: Plane, l: Lifecycle): Plane {
    p.(status := ApplyLifecycle(p.status, l).(healthy := true), nextEpoch := p.nextEpoch + 1)
  }

  function Disarmed(p: Plane, l: Lifecycle): Plane {
    var s := ApplyLifecycle(p.status, l);
    p.(status := if p.status.startup == Failed then s.(healthy := false) else s)
  }

  function DrainBegun(p: Plane, l: Lifecycle): Plane {
    p.(status := ApplyLifecycle(p.status, l).(healthy := true))
  }

  /** Cancels first, then makes the failure durable if it can, then closes the gate. */
  function FailedClosed(p: Plane, stored: Option<Lifecycle>): Plane {
    var s := CancelPrompt(p.status);
    p.(status := Closed(if s.managed && stored.Some? then ApplyLifecycle(s, stored.value) else s))
  }

  /** A cycle that must fail: durably, or else in memory alone. */
  function CycleFailed(s: Status, stored: Option<Lifecycle>): Status {
    if stored.Some? then ApplyLifecycle(s, stored.value).(healthy := false) else Closed(s)
  }

  function Published(s: Status): Status {
    s.(healthy := !s.draining,
       ready := s.ready || !s.managed,
       startup := if s.draining then Draining else if s.mode == Enforce then ReadyEnforce else ReadyReportOnly)
  }

  function CycleCompleted(p: Plane, readied: Option<Lifecycle>, failed: Option<Lifecycle>): Plane {
    var s := p.status;
    if s.startup == Failed then
      if s.managed then p.(status := CycleFailed(s, failed)) else p
    else if s.managed && !s.draining && !s.ready then
      if s.startup != FirstScan then p.(status := CycleFailed(s, failed))
      else p.(status := if readied.Some? then Published(ApplyLifecycle(s, readied.value)) else CycleFailed(s, failed),
              nextEpoch := p.nextEpoch + 1)
    else p.(status := Published(s))
  }

  function Scanning(p: Plane, on: bool): Plane { p.(status := p.status.(scanning := on)) }

  // ------------------------------------------------------------------ leases

  function StorageStarted(p: Plane): Plane
    requires CleanupGate(p.status)
  {
    p.(status := Refreshed(p.status.(storage := Some(Lease(p.nextToken, p.status.epoch.value, false)))),
      nextToken := p.nextToken + 1)
  }

  /** The cache owner is published only if its worker could be created. */
  function CacheStarted(p: Plane, created: bool): Plane
    requires CleanupGate(p.status)
  {
    var s := if created then Refreshed(p.status.(cache := Some(Lease(p.nextToken, p.status.epoch.value, false))))
        else p.status;
    p.(status := s, nextToken := p.nextToken + 1)
  }

  predicate MayFinish(l: Option<Lease>, token: nat) { l.Some? ==> l.value.token == token }

  function StorageFinished(p: Plane, token: nat): Plane {
    if MayFinish(p.status.storage, token) then p.(status := Refreshed(p.status.(storage := None))) else p
  }

  function CacheFinished(p: Plane, token: nat): Plane {
    if MayFinish(p.status.cache, token) then p.(status := Refreshed(p.status.(cache := None))) else p
  }

  function ProcessBegun(p: Plane, token: nat): Plane {
    if p.status.process.Some? then p else p.(status := Refreshed(p.status.(process := Some(token))))
  }

  function ProcessEnded(p: Plane, token: nat): Plane {
    if p.status.process == Some(token) then p.(status := Refreshed(p.status.(process := None))) else p
  }
}
