/** What no interleaving can break. */
module ControlTheorems {
  import opened Wrappers
  import opened ControlTypes
  import opened ControlRuns

  ghost predicate StepAt(log: seq<System>, events: seq<Event>, i: nat)
    requires i < |events| && |log| == |events| + 1
  {
    Enabled(log[i], events[i]) && log[i + 1] == Next(log[i], events[i])
  }

  /** A run from a quiet start: no cycle, no authority, no lease, time zero. */
  ghost predicate Run(log: seq<System>, events: seq<Event>) {
    && |log| == |events| + 1
    && Sound(log[0]) && log[0].cycle.Resting? && log[0].authorities == [] && log[0].time == 0
    && forall i :: 0 <= i < |events| ==> StepAt(log, events, i)
  }

  lemma {:induction false} SoundThroughout(log: seq<System>, events: seq<Event>, i: nat)
    requires Run(log, events) && i < |log|
    ensures Sound(log[i]) && log[i].time == i
    decreases i
  {
    if i > 0 {
      SoundThroughout(log, events, i - 1);
      assert StepAt(log, events, i - 1);
      SoundKept(log[i - 1], events[i - 1]);
    }
  }

  lemma PlaneStepAt(log: seq<System>, events: seq<Event>, i: nat)
    requires Run(log, events) && i < |events|
    ensures PlaneStep(log[i].plane, log[i + 1].plane)
    ensures PolicyCommand(events[i]) ==> log[i].plane.revision < log[i + 1].plane.revision
  {
    assert StepAt(log, events, i);
    PlaneSteps(log[i], events[i]);
  }

  lemma {:induction false} RevisionGrows(log: seq<System>, events: seq<Event>, i: nat, j: nat)
    requires Run(log, events) && i <= j < |log|
    ensures log[i].plane.revision <= log[j].plane.revision && log[i].plane.nextEpoch <= log[j].plane.nextEpoch
    decreases j
  {
    if i < j {
      RevisionGrows(log, events, i, j - 1);
      PlaneStepAt(log, events, j - 1);
    }
  }

  /** One more event. */
  lemma Grown(log: seq<System>, events: seq<Event>, e: Event)
    requires Run(log, events) && Enabled(log[|events|], e)
    ensures Run(log + [Next(log[|events|], e)], events + [e])
  {
    var more, all := log + [Next(log[|events|], e)], events + [e];
    forall i | 0 <= i < |all| ensures StepAt(more, all, i) {
      if i < |events| { assert StepAt(log, events, i); }
    }
  }

  // ------------------------------------------------------------------ frozen authority

  /** The authority was read when the lifecycle showed its epoch, and later the counter
      its revision. */
  ghost predicate ReadFrom(log: seq<System>, a: Authority) {
    && a.from < a.at < |log|
    && log[a.from].plane.status.epoch == Some(a.epoch) && log[a.at].plane.revision == a.revision
  }

  /** What a cycle remembers is what it read. */
  ghost predicate Remembers(log: seq<System>, c: Cycle) {
    match c
    case Resting => true
    case SawLifecycle(_, life, from) => from < |log| && log[from].plane.status == life
    case SawRevision(_, life, from, r, at) => from < at < |log| && log[from].plane.status == life
        && log[at].plane.revision == r
    case Expired(_, life, from, r, at) => from < at < |log| && log[from].plane.status == life
        && log[at].plane.revision == r
    case SawStatus(_, life, from, r, at, _) => from < at < |log| && log[from].plane.status == life
        && log[at].plane.revision == r
    case Dispatching(a) => ReadFrom(log, a)
  }

  lemma RemembersNext(log: seq<System>, s: System, e: Event)
    requires Enabled(s, e) && Remembers(log, s.cycle) && CycleSound(s.plane, s.cycle, s.time)
    requires s.time < |log| && log[s.time] == s
    ensures Remembers(log, CycleAfter(s, e))
  {
  }

  lemma {:induction false} RemembersThroughout(log: seq<System>, events: seq<Event>, i: nat)
    requires Run(log, events) && i < |log|
    ensures Remembers(log, log[i].cycle)
    decreases i
  {
    if i > 0 {
      RemembersThroughout(log, events, i - 1);
      SoundThroughout(log, events, i - 1);
      assert StepAt(log, events, i - 1);
      RemembersNext(log, log[i - 1], events[i - 1]);
    }
  }

  lemma {:induction false} AuthoritiesWereRead(log: seq<System>, events: seq<Event>, i: nat, k: nat)
    requires Run(log, events) && i < |log| && k < |log[i].authorities|
    ensures ReadFrom(log, log[i].authorities[k])
    decreases i
  {
    if i > 0 {
      assert StepAt(log, events, i - 1);
      if k < |log[i - 1].authorities| {
        AuthoritiesWereRead(log, events, i - 1, k);
      } else {
        RemembersThroughout(log, events, i - 1);
      }
    }
  }

  // ------------------------------------------------------------------ epochs

  /** An epoch that was issued and is no longer in force never comes back. */
  lemma {:induction false} EpochStaysDead(log: seq<System>, events: seq<Event>, e: nat, i: nat, j: nat)
    requires Run(log, events) && i <= j < |log|
    requires e < log[i].plane.nextEpoch && log[i].plane.status.epoch != Some(e)
    ensures log[j].plane.status.epoch != Some(e)
    decreases j
  {
    if i < j {
      EpochStaysDead(log, events, e, i, j - 1);
      RevisionGrows(log, events, i, j - 1);
      PlaneStepAt(log, events, j - 1);
    }
  }

  /** An epoch in force at two moments was in force all the time between. */
  lemma EpochIsContinuous(log: seq<System>, events: seq<Event>, e: nat, i: nat, m: nat, j: nat)
    requires Run(log, events) && i <= m <= j < |log|
    requires log[i].plane.status.epoch == Some(e) && log[j].plane.status.epoch == Some(e)
    ensures log[m].plane.status.epoch == Some(e) && log[m].plane.status.mode == Enforce
  {
    SoundThroughout(log, events, i);
    SoundThroughout(log, events, m);
    RevisionGrows(log, events, i, m);
    if log[m].plane.status.epoch != Some(e) { EpochStaysDead(log, events, e, m, j); }
  }

  // ------------------------------------------------------------------ delivery

  /** A worker delivers at step `j` on the `k`th frozen authority. */
  ghost predicate DeliversAt(log: seq<System>, events: seq<Event>, j: nat, k: nat)
    requires Run(log, events)
  {
    && j < |events| && events[j] == Deliver(k) && k < |log[j].authorities|
    && var a := log[j].authorities[k];
    MayDeliver(log[j].plane, a.epoch, a.revision)
  }

  /** Delivery safety: a signal or removal is delivered only while enforcing and not
      draining, by a daemon armed for its own generation if it is managed, under the
      epoch that was in force ever since its cycle read the lifecycle; no policy command
      was acknowledged since its cycle read the revision; and no pause is in force. */
  lemma DeliverySafety(log: seq<System>, events: seq<Event>, j: nat, k: nat)
    requires Run(log, events) && DeliversAt(log, events, j, k)
    ensures var a, s := log[j].authorities[k], log[j].plane.status;
      && s.mode == Enforce && !s.draining && s.paused.None? && log[j].plane.revision == a.revision
      && (s.managed ==> s.ready && s.generation.Some? && s.armedGeneration == s.generation)
      && a.from < a.at < j
      && (forall i :: a.from <= i <= j ==>
            log[i].plane.status.epoch == Some(a.epoch) && log[i].plane.status.mode == Enforce)
      && (forall i :: a.at <= i < j ==> !PolicyCommand(events[i]))
  {
    var a := log[j].authorities[k];
    SoundThroughout(log, events, j);
    AuthoritiesWereRead(log, events, j, k);
    forall i | a.from <= i <= j
      ensures log[i].plane.status.epoch == Some(a.epoch) && log[i].plane.status.mode == Enforce
    {
      EpochIsContinuous(log, events, a.epoch, a.from, i, j);
    }
    forall i | a.at <= i < j ensures !PolicyCommand(events[i]) {
      PlaneStepAt(log, events, i);
      RevisionGrows(log, events, a.at, i);
      RevisionGrows(log, events, i + 1, j);
    }
  }

  /** Disarming, draining and failing end the epoch. */
  lemma EpochEnds(s: System, e: Event)
    requires Enabled(s, e) && (e.DoDisarm? || e.DoDrain? || e.DoFail?)
    ensures PlaneAfter(s, e).status.epoch.None?
  {
  }

  /** Nothing that was frozen before a policy command, a disarm, a drain or a failure
      is ever delivered after it. */
  lemma NothingDeliveredAfter(log: seq<System>, events: seq<Event>, i: nat, j: nat, k: nat)
    requires Run(log, events) && i < j && DeliversAt(log, events, j, k)
    requires PolicyCommand(events[i]) || events[i].DoDisarm? || events[i].DoDrain? || events[i].DoFail?
    ensures i < log[j].authorities[k].at
  {
    DeliverySafety(log, events, j, k);
    assert StepAt(log, events, i);
    if !PolicyCommand(events[i]) { EpochEnds(log[i], events[i]); }
  }

  // ------------------------------------------------------------------ leases

  /** At every moment of every run: the flag is the disjunction of the three owners, and
      the cache and storage leases do not coexist. */
  lemma LeasesThroughout(log: seq<System>, events: seq<Event>, i: nat)
    requires Run(log, events) && i < |log|
    ensures var s := log[i].plane.status;
      && s.cleaning == (s.process.Some? || s.cache.Some? || s.storage.Some?)
      && !(s.cache.Some? && s.storage.Some?)
  {
    SoundThroughout(log, events, i);
  }

  /** The events that revoke the leases in force. */
  predicate Revokes(e: Event) { e.DoPause? || e.DoDisarm? || e.DoDrain? || e.DoFail? }

  /** This lease can never continue again: it is cancelled or gone for good, or its epoch
      is over. */
  predicate Over(l: Option<Lease>, p: Plane, token: nat, epoch: nat) {
    || (token < p.nextToken && (l.Some? && l.value.token == token ==> l.value.cancelled))
    || (epoch < p.nextEpoch && p.status.epoch != Some(epoch))
  }

  lemma OverMeansStopped(p: Plane, token: nat, epoch: nat)
    ensures Over(p.status.storage, p, token, epoch) ==> !StorageMayContinue(p.status, token, epoch)
    ensures Over(p.status.cache, p, token, epoch) ==> !CacheMayContinue(p.status, token, epoch)
  {
  }

  /** How one event may change a lease: cancelled, removed, or newly issued. */
  predicate LeaseStep(l: Option<Lease>, k: Option<Lease>, tokens: nat) {
    k == l || k.None? || (l.Some? && k == Some(l.value.(cancelled := true))) || k.value.token == tokens
  }

  /** Applying a lifecycle cancels both leases or leaves them alone. */
  predicate OnlyCancels(s: Status, t: Status) {
    (t.storage == s.storage && t.cache == s.cache)
      || (t.storage == Cancelled(s.storage) && t.cache == Cancelled(s.cache))
  }

  lemma OthersOnlyCancel(s: System, e: Event)
    requires Enabled(s, e) && !LeaseEvent(e)
    ensures OnlyCancels(s.plane.status, PlaneAfter(s, e).status)
  {
  }

  lemma LeaseEventSteps(s: System, e: Event)
    requires Enabled(s, e) && LeaseEvent(e)
    ensures LeaseStep(s.plane.status.storage, PlaneAfter(s, e).status.storage, s.plane.nextToken)
    ensures LeaseStep(s.plane.status.cache, PlaneAfter(s, e).status.cache, s.plane.nextToken)
  {
  }

  lemma LeaseSteps(s: System, e: Event)
    requires Enabled(s, e)
    ensures LeaseStep(s.plane.status.storage, PlaneAfter(s, e).status.storage, s.plane.nextToken)
    ensures LeaseStep(s.plane.status.cache, PlaneAfter(s, e).status.cache, s.plane.nextToken)
  {
    if LeaseEvent(e) { LeaseEventSteps(s, e); } else { OthersOnlyCancel(s, e); }
  }

  lemma StaysOver(log: seq<System>, events: seq<Event>, i: nat, token: nat, epoch: nat)
    requires Run(log, events) && i < |events|
    ensures Over(log[i].plane.status.storage, log[i].plane, token, epoch) ==>
      Over(log[i + 1].plane.status.storage, log[i + 1].plane, token, epoch)
    ensures Over(log[i].plane.status.cache, log[i].plane, token, epoch) ==>
      Over(log[i + 1].plane.status.cache, log[i + 1].plane, token, epoch)
  {
    assert StepAt(log, events, i);
    LeaseSteps(log[i], events[i]);
    PlaneStepAt(log, events, i);
  }

  lemma {:induction false} OverForever(log: seq<System>, events: seq<Event>, i: nat, j: nat, token: nat, epoch: nat)
    requires Run(log, events) && i <= j < |log|
    ensures Over(log[i].plane.status.storage, log[i].plane, token, epoch) ==>
      Over(log[j].plane.status.storage, log[j].plane, token, epoch)
    ensures Over(log[i].plane.status.cache, log[i].plane, token, epoch) ==>
      Over(log[j].plane.status.cache, log[j].plane, token, epoch)
    decreases j
  {
    if i < j {
      OverForever(log, events, i, j - 1, token, epoch);
      StaysOver(log, events, j - 1, token, epoch);
    }
  }

  lemma RevokedIsOver(s: System, e: Event, token: nat, epoch: nat)
    requires Enabled(s, e) && Revokes(e) && token < s.plane.nextToken
    ensures Over(PlaneAfter(s, e).status.storage, PlaneAfter(s, e), token, epoch)
    ensures Over(PlaneAfter(s, e).status.cache, PlaneAfter(s, e), token, epoch)
  {
  }

  /** Cancellation is latched: after a pause, disarm, drain or failure no lease issued
      before it may ever continue, whatever is resumed or armed later. */
  lemma RevokedForever(log: seq<System>, events: seq<Event>, i: nat, j: nat, token: nat, epoch: nat)
    requires Run(log, events) && i < j < |log| && Revokes(events[i]) && token < log[i].plane.nextToken
    ensures !StorageMayContinue(log[j].plane.status, token, epoch)
    ensures !CacheMayContinue(log[j].plane.status, token, epoch)
  {
    assert StepAt(log, events, i);
    RevokedIsOver(log[i], events[i], token, epoch);
    OverForever(log, events, i + 1, j, token, epoch);
    OverMeansStopped(log[j].plane, token, epoch);
  }

  /** Nothing about the lifecycle that a lease depends on has changed. */
  predicate SameLife(s: Status, t: Status) {
    && (t.healthy, t.ready, t.startup, t.mode, t.epoch, t.managed) ==
          (s.healthy, s.ready, s.startup, s.mode, s.epoch, s.managed)
    && (t.generation, t.armedGeneration, t.draining) == (s.generation, s.armedGeneration, s.draining)
    && (t.paused == s.paused || t.paused.None?)
  }

  lemma LifeGoesOn(s: System, e: Event)
    requires Enabled(s, e) && !Revokes(e)
    requires s.plane.status.healthy && s.plane.status.ready && s.plane.status.startup == ReadyEnforce
    requires s.plane.status.mode == Enforce && !s.plane.status.draining
    ensures SameLife(s.plane.status, PlaneAfter(s, e).status)
    ensures !LeaseEvent(e) ==>
      PlaneAfter(s, e).status.storage == s.plane.status.storage && PlaneAfter(s, e).status.cache == s.plane.status.cache
  {
  }

  /** A lease that may continue is stopped by a revocation or its own release, and by
      nothing else: neither scans nor process cleanups nor the other owner stop it. */
  lemma OnlyRevocationStopsALease(s: System, e: Event, token: nat, epoch: nat)
    requires Enabled(s, e) && Leased(s.plane) && !Revokes(e)
    ensures StorageMayContinue(s.plane.status, token, epoch) && e != FinishStorage(token) ==>
      StorageMayContinue(PlaneAfter(s, e).status, token, epoch)
    ensures CacheMayContinue(s.plane.status, token, epoch) && e != FinishCache(token) ==>
      CacheMayContinue(PlaneAfter(s, e).status, token, epoch)
  {
    var t := s.plane.status;
    if StorageMayContinue(t, token, epoch) || CacheMayContinue(t, token, epoch) {
      LifeGoesOn(s, e);
      if LeaseEvent(e) { OwnersKeepOut(s, e); }
    }
  }

  /** While a lease is owned no other lease is issued, and the other owner cannot
      release it. */
  lemma OwnersKeepOut(s: System, e: Event)
    requires Enabled(s, e) && Leased(s.plane) && LeaseEvent(e)
    ensures var t, u := s.plane.status, PlaneAfter(s, e).status;
      && (t.storage.Some? && e != FinishStorage(t.storage.value.token) ==>
            u.storage == t.storage && u.cache == t.cache == None)
      && (t.cache.Some? && e != FinishCache(t.cache.value.token) ==>
            u.cache == t.cache && u.storage == t.storage == None)
  {
  }

  // ------------------------------------------------------------------ owners

  /** Whose lease this is. */
  function Owner(l: Option<Lease>): Option<nat> { if l.Some? then Some(l.value.token) else None }

  lemma OwnerStep(s: System, e: Event)
    requires Enabled(s, e) && Leased(s.plane)
    ensures var t, u := s.plane.status, PlaneAfter(s, e).status;
      && (t.storage.Some? && e != FinishStorage(t.storage.value.token) ==> Owner(u.storage) == Owner(t.storage))
      && (t.cache.Some? && e != FinishCache(t.cache.value.token) ==> Owner(u.cache) == Owner(t.cache))
  {
    if LeaseEvent(e) { OwnersKeepOut(s, e); } else { OthersOnlyCancel(s, e); }
  }

  lemma OwnerAt(log: seq<System>, events: seq<Event>, i: nat)
    requires Run(log, events) && i < |events|
    ensures var t, u := log[i].plane.status, log[i + 1].plane.status;
      && (t.storage.Some? && events[i] != FinishStorage(t.storage.value.token) ==> Owner(u.storage) == Owner(t.storage))
      && (t.cache.Some? && events[i] != FinishCache(t.cache.value.token) ==> Owner(u.cache) == Owner(t.cache))
  {
    SoundThroughout(log, events, i);
    assert StepAt(log, events, i);
    OwnerStep(log[i], events[i]);
  }

  /** An owner stays until it finishes itself: whatever finishes with older tokens, or
      with any other, comes in between, the newer owner is still there. */
  lemma {:induction false} OwnerStaysUntilItFinishes(log: seq<System>, events: seq<Event>, i: nat, j: nat, token: nat)
    requires Run(log, events) && i <= j < |log|
    ensures (forall k :: i <= k < j ==> events[k] != FinishStorage(token)) ==>
      Owner(log[i].plane.status.storage) == Some(token) ==> Owner(log[j].plane.status.storage) == Some(token)
    ensures (forall k :: i <= k < j ==> events[k] != FinishCache(token)) ==>
      Owner(log[i].plane.status.cache) == Some(token) ==> Owner(log[j].plane.status.cache) == Some(token)
    decreases j
  {
    if i < j {
      OwnerStaysUntilItFinishes(log, events, i, j - 1, token);
      OwnerAt(log, events, j - 1);
    }
  }

  // ------------------------------------------------------------------ delivered

  /** Step `j` delivered while enforcing, armed, not draining, with no pause in force, under an
      epoch unbroken since it was read, and with nothing acknowledged since the
      revision it rests on was read. */
  ghost predicate Delivered(log: seq<System>, events: seq<Event>, j: nat) {
    && j < |events| < |log| && events[j].Deliver? && events[j].authority < |log[j].authorities|
    && var a, s := log[j].authorities[events[j].authority], log[j].plane.status;
    && s.mode == Enforce && !s.draining && s.paused.None? && s.epoch == Some(a.epoch) && a.from < a.at < j
    && (s.managed ==> s.ready && s.generation.Some? && s.armedGeneration == s.generation)
    && (forall i :: a.from <= i <= j ==> log[i].plane.status.epoch == Some(a.epoch))
    && (forall i :: a.at <= i < j ==> !PolicyCommand(events[i]))
  }

  lemma StillDelivered(log0: seq<System>, events0: seq<Event>, log: seq<System>, events: seq<Event>, sent: seq<nat>)
    requires log0 <= log && events0 <= events && |events| < |log|
    requires forall j :: j in sent ==> Delivered(log0, events0, j)
    ensures forall j :: j in sent ==> Delivered(log, events, j)
  {
    forall j | j in sent ensures Delivered(log, events, j) {
      assert Delivered(log0, events0, j);
      assert log[j] == log0[j] && events[j] == events0[j];
    }
  }
}
