/** One observation cycle as the engine runs it on the control plane, with every other
    thread acting between any two of its steps. */
module ControlEngine {
  import opened Wrappers
  import opened ControlTypes
  import opened ControlRuns
  import opened ControlTheorems
  import opened ControlPlane

  class Engine {
    const control: Control
    const others: nat -> seq<Event>
    var clock: nat
    /** The epochs and revisions that the workers started so far hold. */
    var frozen: seq<(nat, nat)>

    constructor (control: Control, others: nat -> seq<Event>)
      requires control.Valid() && control.Here().cycle.Resting? && control.Here().authorities == []
      ensures Valid() && this.control == control && this.others == others
    {
      this.control, this.others := control, others;
      clock, frozen := 0, [];
    }

    ghost predicate Valid()
      reads this, control
    {
      control.Valid() && Hold(frozen, control.Here().authorities)
    }

    ghost predicate Hold(held: seq<(nat, nat)>, authorities: seq<Authority>) {
      |held| == |authorities| && forall k :: 0 <= k < |held| ==>
        held[k] == (authorities[k].epoch, authorities[k].revision)
    }

    /** No other thread acts. */
    ghost predicate Alone() { forall n: nat :: others(n) == [] }

    /** An armed daemon that is not paused. */
    predicate Ready()
      reads control
    {
      control.status.epoch.Some? && SignalGate(control.status, control.status.epoch.value)
        && control.status.paused.None?
    }

    /** The log has grown, and the engine's own place in it is as it was. */
    ghost predicate Meanwhile(was: seq<System>, before: seq<Event>)
      reads control
    {
      && was != [] && was <= control.log && before <= control.events
      && control.log[|control.log| - 1].cycle == was[|was| - 1].cycle
      && control.log[|control.log| - 1].authorities == was[|was| - 1].authorities
    }

    // ---------------------------------------------------------------- the other threads

    method Command(e: Event)
      requires Valid()
      modifies control
      ensures Valid() && Meanwhile(old(control.log), old(control.events))
    {
      match e
      case DoPause(deadline) =>
        if 0 < deadline { var until := control.Pause(deadline - 1, 1, true); }
      case DoResume => var ok := control.Resume(true);
      case DoPolicy => var ok := control.ChangePolicy(true);
      case ExpirePause(now) => var ok := control.ExpirePause(now, true);
      case DoScan(on) => control.SetScanning(on);
      case _ =>
    }

    method Transition(e: Event)
      requires Valid()
      modifies control
      ensures Valid() && Meanwhile(old(control.log), old(control.events))
    {
      match e
      case DoFail(f) =>
        if f.Some? ==> NonEnforcing(f.value) { control.FailClosed(f); }
      case DoComplete(r, f) =>
        if (r.Some? ==> Readies(control.Now(), r.value)) && (f.Some? ==> NonEnforcing(f.value)) {
          var ok := control.CompleteSuccessfulCycle(r, f);
        }
      case _ => Switch(e);
    }

    method Switch(e: Event)
      requires Valid()
      modifies control
      ensures Valid() && Meanwhile(old(control.log), old(control.events))
    {
      var generation := if control.status.generation.Some? then control.status.generation.value else 0;
      var instance := control.status.instance;
      match e
      case DoArm(l) =>
        if Arms(control.Now(), l) { var ok := control.Arm(generation, instance, Some(l)); }
      case WasteEpoch => var ok := control.Arm(generation, instance, None);
      case DoDisarm(l) =>
        if NonEnforcing(l) { var ok := control.Disarm(generation, instance, Some(l)); }
      case DoDrain(l) =>
        if NonEnforcing(l) && l.draining { var ok := control.BeginDrain(generation, instance, Some(l)); }
      case _ =>
    }

    method Lease(e: Event)
      requires Valid()
      modifies control
      ensures Valid() && Meanwhile(old(control.log), old(control.events))
    {
      match e
      case StartStorage => var lease := control.StartStorageCleanup(true);
      case StartCache(created) => var lease := control.StartCache(true, created);
      case FinishStorage(token) => var ok := control.FinishStorage(token);
      case FinishCache(token) => var ok := control.FinishCache(token);
      case _ =>
    }

    method Work(e: Event)
      requires Valid()
      modifies control
      ensures Valid() && Meanwhile(old(control.log), old(control.events))
    {
      match e
      case BeginProcess(token) => var ok := control.BeginProcess(token);
      case EndProcess(token) => control.EndProcess(token);
      case Deliver(k) =>
        if k < |frozen| { var sent := control.DeliverSignalIfArmed(frozen[k].0, frozen[k].1, k); }
      case _ =>
    }

    /** Whatever the other threads do meanwhile. */
    method Others()
      requires Valid()
      modifies this`clock, control
      ensures Valid() && Meanwhile(old(control.log), old(control.events))
      ensures Alone() ==> control.TookNothing(old(control.log), old(control.events))
    {
      var next := others(clock);
      clock := clock + 1;
      for i := 0 to |next|
        invariant Valid() && Meanwhile(old(control.log), old(control.events))
        invariant next == [] ==> control.TookNothing(old(control.log), old(control.events))
      {
        if next[i].BeginProcess? || next[i].EndProcess? || next[i].Deliver? {
          Work(next[i]);
        } else if LeaseEvent(next[i]) {
          Lease(next[i]);
        } else if next[i].DoArm? || next[i].WasteEpoch? || next[i].DoDisarm? || next[i].DoDrain? || next[i].DoFail?
          || next[i].DoComplete? {
          Transition(next[i]);
        } else {
          Command(next[i]);
        }
      }
    }

    // ---------------------------------------------------------------- the engine's own thread

    /** Reads the lifecycle and then the revision. */
    method ReadFirst(now: nat) returns (life: Status, revision: nat)
      requires Valid() && control.Here().cycle.Resting?
      modifies this`clock, control
      ensures Valid() && control.Here().cycle.SawRevision?
      ensures var c := control.Here().cycle; (c.now, c.life, c.revision) == (now, life, revision)
      ensures Alone() ==> control.Now() == old(control.Now()) && life == control.status && revision == control.revision
    {
      Others();
      life := control.ReadLifecycle(now);
      Others();
      revision := control.CleanupPolicyRevision();
    }

    /** Expires the pause and reads the status again. */
    method ReadAgain(now: nat) returns (seen: Status)
      requires Valid() && control.Here().cycle.SawRevision? && control.Here().cycle.now == now
      modifies this`clock, control
      ensures Valid() && control.Here().cycle.SawStatus?
      ensures var c, d := old(control.Here().cycle),
          control.Here().cycle; (d.now, d.life, d.revision, d.seen) == (now, c.life, c.revision, seen)
      ensures Alone() && old(control.status.paused.None?) ==>
        control.Now() == old(control.Now()) && seen == control.status
    {
      Others();
      control.ExpirePauseAgain(now);
      Others();
      seen := control.ReadStatus();
    }

    /** Reads lifecycle, revision and status in turn, and decides. */
    method Freeze(now: nat) returns (authority: Option<(nat, nat)>)
      requires Valid() && control.Here().cycle.Resting?
      modifies this`clock, control
      ensures Valid()
      ensures authority.None? ==> control.Here().cycle.Resting?
      ensures authority.Some? ==>
        && control.Here().cycle.Dispatching?
        && authority.value == (control.Here().cycle.authority.epoch, control.Here().cycle.authority.revision)
      ensures Alone() && old(Ready()) ==>
        authority.Some? && MayDeliver(control.Now(), authority.value.0, authority.value.1)
    {
      var life, revision := ReadFirst(now);
      var seen := ReadAgain(now);
      Others();
      var yes := control.StillAuthorises(now, life, revision, seen);
      authority := if yes then Some((life.epoch.value, revision)) else None;
    }

    /** Starts the work if the gate still holds. */
    method BeginAttempt(authority: (nat, nat)) returns (begun: bool)
      requires Valid() && control.Here().cycle.Dispatching?
      requires authority == (control.Here().cycle.authority.epoch, control.Here().cycle.authority.revision)
      modifies this, control
      ensures Valid()
      ensures begun ==> control.Here().cycle.Dispatching? && |frozen| > 0 && frozen[|frozen| - 1] == authority
      ensures !begun ==> control.Here().cycle.Resting?
      ensures Alone() && old(MayDeliver(control.Now(), authority.0, authority.1)) ==>
        begun && control.Now() == old(control.Now())
    {
      Others();
      begun := control.BeginCleanupAttemptIfArmed(authority.0, authority.1);
      if begun { frozen := frozen + [authority]; }
    }

    /** Up to `signals` gated deliveries on the last frozen authority. `sent` lists the
        steps that delivered. */
    method Execute(signals: nat) returns (count: nat, ghost sent: seq<nat>)
      requires Valid() && |frozen| > 0
      modifies this`clock, control
      ensures Valid() && control.Here().cycle == old(control.Here().cycle)
      ensures forall j :: j in sent ==> Delivered(control.log, control.events, j)
      ensures count == |sent|
      ensures Alone() && old(MayDeliver(control.Now(), frozen[|frozen| - 1].0, frozen[|frozen| - 1].1)) ==>
        count == signals
    {
      count, sent := 0, [];
      var k := |frozen| - 1;
      for n := 0 to signals
        invariant Valid() && Meanwhile(old(control.log), old(control.events))
        invariant forall j :: j in sent ==> Delivered(control.log, control.events, j)
        invariant Alone() ==> control.Now() == old(control.Now())
        invariant count == |sent|
        invariant Alone() && old(MayDeliver(control.Now(), frozen[k].0, frozen[k].1)) ==> count == n
      {
        var delivered, j := Signal(k, sent);
        if delivered { count, sent := count + 1, sent + [j]; }
      }
    }

    /** One gated delivery. */
    method Signal(k: nat, ghost sent: seq<nat>) returns (delivered: bool, ghost j: nat)
      requires Valid() && k < |frozen| && (forall i :: i in sent ==> Delivered(control.log, control.events, i))
      modifies this`clock, control
      ensures Valid() && Meanwhile(old(control.log), old(control.events))
      ensures forall i :: i in sent ==> Delivered(control.log, control.events, i)
      ensures delivered ==> Delivered(control.log, control.events, j)
      ensures Alone() ==> control.Now() == old(control.Now())
      ensures Alone() ==> (delivered <==> MayDeliver(control.Now(), frozen[k].0, frozen[k].1))
    {
      ghost var log0, events0 := control.log, control.events;
      Others();
      delivered := control.DeliverSignalIfArmed(frozen[k].0, frozen[k].1, k);
      StillDelivered(log0, events0, control.log, control.events, sent);
      j := |control.events| - 1;
    }

    /** One cycle: freeze, begin, execute. */
    method RunCycle(now: nat, signals: nat) returns (count: nat, ghost sent: seq<nat>)
      requires Valid() && control.Here().cycle.Resting?
      modifies this, control
      ensures Valid() && control.Here().cycle.Resting?
      ensures forall j :: j in sent ==> Delivered(control.log, control.events, j)
      ensures count == |sent| && (Alone() && old(Ready()) ==> count == signals)
    {
      count, sent := 0, [];
      var authority := Freeze(now);
      if authority.None? { return; }
      var begun := BeginAttempt(authority.value);
      if !begun { return; }
      count, sent := Execute(signals);
      ghost var log0, events0 := control.log, control.events;
      control.EndObservation();
      StillDelivered(log0, events0, control.log, control.events, sent);
    }
  }
}
