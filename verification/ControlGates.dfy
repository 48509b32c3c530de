/** What the gates demand, field by field, and what a lease rests on in every run. */
module ControlGates {
  import opened Wrappers
  import opened ControlTypes
  import opened ControlRuns
  import opened ControlTheorems

  /** A managed daemon is armed for the generation that it runs. */
  predicate ArmedIfManaged(s: Status) {
    s.managed ==> s.ready && s.generation.Some? && s.armedGeneration == s.generation
  }

  /** Started, enforcing under an epoch, neither draining nor paused. */
  predicate Working(s: Status) {
    && s.healthy && s.ready && s.startup.ReadyEnforce? && s.mode.Enforce? && s.epoch.Some? && ArmedIfManaged(s)
    && !s.draining && s.paused.None?
  }

  /** Nobody observes and nobody cleans. */
  predicate Idle(s: Status) { !s.scanning && s.process.None? && s.cache.None? && s.storage.None? }

  /** The gate for new leases is open exactly when the daemon works and is idle. */
  lemma GateOpensWhenIdle(s: Status, tokens: nat, epochs: nat)
    requires Tidy(s, tokens, epochs)
    ensures CleanupGate(s) <==> Working(s) && Idle(s)
  {
  }

  /** A lease may continue exactly when it is still the owner's own, uncancelled, and the
      daemon still works under the epoch that it was issued in; a scan or a process
      cleanup beside it does not matter. */
  lemma MayContinueExactly(s: Status, tokens: nat, epochs: nat, token: nat, epoch: nat)
    requires Tidy(s, tokens, epochs)
    ensures StorageMayContinue(s, token, epoch) <==>
      s.storage == Some(Lease(token, epoch, false)) && Working(s) && s.epoch == Some(epoch)
    ensures CacheMayContinue(s, token, epoch) <==>
      s.cache == Some(Lease(token, epoch, false)) && Working(s) && s.epoch == Some(epoch)
  {
  }

  /** A signal may go out exactly while the daemon enforces under this epoch, armed for
      its generation if it is managed, and does not drain. */
  lemma SignalGateExactly(s: Status, tokens: nat, epochs: nat, epoch: nat)
    requires Tidy(s, tokens, epochs)
    ensures SignalGate(s, epoch) <==> s.epoch == Some(epoch) && !s.draining && ArmedIfManaged(s)
  {
  }

  /** In every run: a lease is issued only to a working, unpaused, idle daemon. */
  lemma LeasesStartOnlyWhenIdle(log: seq<System>, events: seq<Event>, i: nat)
    requires Run(log, events) && i < |events| && (events[i].StartStorage? || events[i].StartCache?)
    ensures Working(log[i].plane.status) && Idle(log[i].plane.status)
  {
    SoundThroughout(log, events, i);
    assert StepAt(log, events, i);
    GateOpensWhenIdle(log[i].plane.status, log[i].plane.nextToken, log[i].plane.nextEpoch);
  }

  // ------------------------------------------------------------------ where a lease comes from

  /** Step `i` issued the lease `token` under `epoch`. */
  ghost predicate IssuedAt(log: seq<System>, events: seq<Event>, i: nat, storage: bool, token: nat, epoch: nat) {
    && i < |events| < |log|
    && events[i] == (if storage then StartStorage else Event.StartCache(true))
    && log[i].plane.nextToken == token && log[i].plane.status.epoch == Some(epoch)
  }

  function Held(s: Status, storage: bool): Option<Lease> { if storage then s.storage else s.cache }

  /** One event either issues this lease, or found it there, or leaves without it. */
  lemma IssuedOrThere(s: System, e: Event, storage: bool, token: nat, epoch: nat)
    requires Enabled(s, e) && Held(PlaneAfter(s, e).status, storage) == Some(Lease(token, epoch, false))
    ensures Held(s.plane.status, storage) == Some(Lease(token, epoch, false)) || (
      && e == (if storage then StartStorage else Event.StartCache(true))
      && s.plane.nextToken == token && s.plane.status.epoch == Some(epoch))
  {
    if !LeaseEvent(e) { OthersOnlyCancel(s, e); }
  }

  lemma {:induction false} WasIssued(log: seq<System>, events: seq<Event>, j: nat, storage: bool, token: nat,
                                     epoch: nat)
      returns (i: nat)
    requires Run(log, events) && j < |log| && log[0].plane.nextToken <= token
    requires Held(log[j].plane.status, storage) == Some(Lease(token, epoch, false))
    ensures i < j && IssuedAt(log, events, i, storage, token, epoch)
    decreases j
  {
    SoundThroughout(log, events, 0);
    assert StepAt(log, events, j - 1);
    IssuedOrThere(log[j - 1], events[j - 1], storage, token, epoch);
    if Held(log[j - 1].plane.status, storage) == Some(Lease(token, epoch, false)) {
      i := WasIssued(log, events, j - 1, storage, token, epoch);
    } else {
      i := j - 1;
    }
  }

  lemma {:induction false} TokensGrow(log: seq<System>, events: seq<Event>, i: nat, j: nat)
    requires Run(log, events) && i <= j < |log|
    ensures log[i].plane.nextToken <= log[j].plane.nextToken
    decreases j
  {
    if i < j {
      TokensGrow(log, events, i, j - 1);
      PlaneStepAt(log, events, j - 1);
    }
  }

  /** The whole life of a lease that may continue: it was issued to a working, unpaused,
      idle daemon; its epoch has been in force ever since; and since then no pause,
      disarm, drain or failure was acknowledged. */
  lemma LeaseRestsOn(log: seq<System>, events: seq<Event>, j: nat, storage: bool, token: nat, epoch: nat)
      returns (i: nat)
    requires Run(log, events) && j < |log| && log[0].plane.nextToken <= token
    requires if storage then StorageMayContinue(log[j].plane.status, token, epoch)
             else CacheMayContinue(log[j].plane.status, token, epoch)
    ensures i < j && IssuedAt(log, events, i, storage, token, epoch)
    ensures Working(log[i].plane.status) && Idle(log[i].plane.status)
    ensures Working(log[j].plane.status)
    ensures forall k :: i <= k <= j ==> log[k].plane.status.epoch == Some(epoch)
    ensures forall k :: i < k < j ==> !Revokes(events[k])
  {
    SoundThroughout(log, events, j);
    MayContinueExactly(log[j].plane.status, log[j].plane.nextToken, log[j].plane.nextEpoch, token, epoch);
    i := WasIssued(log, events, j, storage, token, epoch);
    LeasesStartOnlyWhenIdle(log, events, i);
    forall k | i <= k <= j ensures log[k].plane.status.epoch == Some(epoch) {
      EpochIsContinuous(log, events, epoch, i, k, j);
    }
    forall k | i < k < j ensures !Revokes(events[k]) { NotRevoked(log, events, i, k, j, storage, token, epoch); }
  }

  lemma NotRevoked(log: seq<System>, events: seq<Event>, i: nat, k: nat, j: nat, storage: bool, token: nat, epoch: nat)
    requires Run(log, events) && i < k < j < |log| && IssuedAt(log, events, i, storage, token, epoch)
    requires
      || StorageMayContinue(log[j].plane.status, token, epoch)
      || CacheMayContinue(log[j].plane.status, token, epoch)
    ensures !Revokes(events[k])
  {
    assert StepAt(log, events, i);
    TokensGrow(log, events, i + 1, k);
    Taken(log[i], events[i]);
    if Revokes(events[k]) { RevokedForever(log, events, k, j, token, epoch); }
  }

  lemma Taken(s: System, e: Event)
    requires Enabled(s, e) && (e.StartStorage? || e.StartCache?)
    ensures PlaneAfter(s, e).nextToken == s.plane.nextToken + 1
  {
  }
}
