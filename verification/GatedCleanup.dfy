/** The cleanup executor behind the control plane's gate: the two protocols together. */
module GatedCleanup {
  import opened Wrappers
  import opened CleanupTypes
  import opened CleanupMonitor
  import opened CleanupGuarantee
  import opened CleanupExecutor
  import opened CleanupEnding
  import Runs = ControlRuns
  import Planes = ControlTypes
  import Theorems = ControlTheorems
  import Engines = ControlEngine

  // ------------------------------------------------------------------ the control plane meanwhile

  /** A run of the control plane so far. */
  datatype Course = Course(log: seq<Runs.System>, events: seq<Runs.Event>)

  ghost predicate Sound(c: Course) { Theorems.Run(c.log, c.events) }

  /** What other threads do; the engine's own steps are not theirs. */
  predicate Foreign(e: Runs.Event) {
    !(e.ReadLifecycle? || e.ReadRevision? || e.ExpireAgain? || e.ReadStatus? || e.Decide? || e.Attempt? || e.EndCycle?)
  }

  function Last(c: Course): Runs.System
    requires c.log != []
  {
    c.log[|c.log| - 1]
  }

  /** One more event, if it can happen. */
  function Push(c: Course, e: Runs.Event): (r: Course)
    requires c.log != []
    ensures r.log != []
  {
    if Foreign(e) && Runs.Enabled(Last(c), e) then Course(c.log + [Runs.Next(Last(c), e)], c.events + [e]) else c
  }

  function PushAll(c: Course, es: seq<Runs.Event>): (r: Course)
    requires c.log != []
    ensures r.log != []
  {
    if es == [] then c else Push(PushAll(c, es[..|es| - 1]), es[|es| - 1])
  }

  /** What the other threads do before each call of the worker. */
  type Schedule = Trace -> seq<Runs.Event>

  /** The control plane after the calls `tr`: each signal and removal takes the lock as a
      delivery attempt on the `k`th authority, with the others acting before it. */
  function Along(c: Course, others: Schedule, k: nat, tr: Trace): (r: Course)
    requires c.log != []
    ensures r.log != []
  {
    if tr == [] then c
    else
      var init, e := tr[..|tr| - 1], tr[|tr| - 1];
      var now := PushAll(Along(c, others, k, init), others(init));
      if e.Signalled? || e.Unlinked? then Push(now, Runs.Deliver(k)) else now
  }

  /** The control plane when the call after `tr` is made. */
  function Before(c: Course, others: Schedule, k: nat, tr: Trace): (r: Course)
    requires c.log != []
    ensures r.log != []
  {
    PushAll(Along(c, others, k, tr), others(tr))
  }

  /** `d` goes on from `c`, with the same cycle and the same authorities. */
  ghost predicate Continues(c: Course, d: Course)
    requires c.log != [] && d.log != []
  {
    && c.log <= d.log && c.events <= d.events
    && Last(d).authorities == Last(c).authorities && Last(d).cycle == Last(c).cycle
  }

  lemma PushContinues(c: Course, e: Runs.Event)
    requires Sound(c)
    ensures Sound(Push(c, e)) && Continues(c, Push(c, e))
  {
    if Foreign(e) && Runs.Enabled(Last(c), e) { Theorems.Grown(c.log, c.events, e); }
  }

  lemma {:induction false} PushAllContinues(c: Course, es: seq<Runs.Event>)
    requires Sound(c)
    ensures Sound(PushAll(c, es)) && Continues(c, PushAll(c, es))
  {
    if es != [] {
      PushAllContinues(c, es[..|es| - 1]);
      PushContinues(PushAll(c, es[..|es| - 1]), es[|es| - 1]);
    }
  }

  lemma {:induction false} AlongContinues(c: Course, others: Schedule, k: nat, tr: Trace)
    requires Sound(c)
    ensures Sound(Along(c, others, k, tr)) && Continues(c, Along(c, others, k, tr))
    decreases |tr|
  {
    if tr != [] {
      var init := tr[..|tr| - 1];
      AlongContinues(c, others, k, init);
      PushAllContinues(Along(c, others, k, init), others(init));
      PushContinues(Before(c, others, k, init), Runs.Deliver(k));
    }
  }

  lemma {:induction false} AlongPrefix(c: Course, others: Schedule, k: nat, tr: Trace, i: nat)
    requires Sound(c) && i <= |tr|
    ensures Continues(Along(c, others, k, tr[..i]), Along(c, others, k, tr))
    decreases |tr|
  {
    if i == |tr| {
      assert tr[..i] == tr;
    } else {
      var init := tr[..|tr| - 1];
      AlongPrefix(c, others, k, init, i);
      assert init[..i] == tr[..i];
      AlongContinues(c, others, k, init);
      PushAllContinues(Along(c, others, k, init), others(init));
      PushContinues(Before(c, others, k, init), Runs.Deliver(k));
    }
  }

  // ------------------------------------------------------------------ the gate

  /** The worker's authority holds when the call after `tr` is made. */
  predicate Open(c: Course, others: Schedule, k: nat, tr: Trace)
    requires c.log != []
  {
    var s := Last(Before(c, others, k, tr));
    k < |s.authorities| && Planes.MayDeliver(s.plane, s.authorities[k].epoch, s.authorities[k].revision)
  }

  /** The runtime with every effect behind the gate, and the stop flag of the worker. */
  function Gated(inner: Env, c: Course, others: Schedule, k: nat, cancelled: Trace -> bool): Env
    requires c.log != []
  {
    inner.(
      stop := (tr: Trace) => inner.stop(tr) || cancelled(tr) || !Open(c, others, k, tr),
      signal := (tr: Trace, identity: Identity, signal: Signal) =>
        if Open(c, others, k, tr) && !cancelled(tr) then inner.signal(tr, identity, signal)
          else CancelledBeforeDelivery,
      unlink := (tr: Trace, artifact: FrozenArtifact) =>
        if Open(c, others, k, tr) && !cancelled(tr) then inner.unlink(tr, artifact) else ArtifactCancelled)
  }

  /** A signal or a removal that was not cancelled before it left. */
  predicate Effect(e: Event) {
    (e.Signalled? && e.disposition != CancelledBeforeDelivery) || (e.Unlinked? && e.removal != ArtifactCancelled)
  }

  /** The worker has to give up: it is asked to drain, cancelled, or has lost its authority. */
  predicate MustStop(inner: Env, c: Course, others: Schedule, k: nat, cancelled: Trace -> bool, tr: Trace)
    requires c.log != []
  {
    inner.stop(tr) || cancelled(tr) || !Open(c, others, k, tr)
  }

  /** A run that is polled when it has to give up completes its open row at most, and
      nothing leaves after a cancellation. */
  ghost predicate GivesUp(inner: Env, c: Course, others: Schedule, k: nat, cancelled: Trace -> bool,
                          result: ExecResult, trace: Trace)
    requires c.log != []
  {
    && (forall i :: 0 <= i < |trace| && trace[i].StopPolled? && MustStop(inner, c, others, k, cancelled, trace[..i]) ==>
          |trace| <= i + 3 && (FailedWith(result, DrainRequested) || LeftOpen(result)))
    && (forall i :: 0 <= i < |trace| && Effect(trace[i]) ==> !cancelled(trace[..i]))
  }

  lemma GatedGivesUp(inner: Env, c: Course, others: Schedule, k: nat, cancelled: Trace -> bool, plan: Plan,
                     policy: Policy, result: ExecResult, trace: Trace)
    requires c.log != [] && Answers(Gated(inner, c, others, k, cancelled), trace)
    requires Guarantee(plan, policy, inner.fingerprint, result, Watch(plan, policy, trace))
    ensures GivesUp(inner, c, others, k, cancelled, result, trace)
  {
    hide Guarantee, Watch, FailedWith, LeftOpen, Open;
    var env := Gated(inner, c, others, k, cancelled);
    forall i | 0 <= i < |trace| && trace[i].StopPolled? && MustStop(inner, c, others, k, cancelled, trace[..i])
      ensures |trace| <= i + 3 && (FailedWith(result, DrainRequested) || LeftOpen(result))
    {
      assert ReplyAt(env, trace, i);
      StopEndsTheRun(plan, policy, inner.fingerprint, result, trace, i);
    }
    forall i | 0 <= i < |trace| && Effect(trace[i]) ensures !cancelled(trace[..i]) {
      assert ReplyAt(env, trace, i);
    }
  }

  /** The step of the control plane at which the call number `i` took the lock. */
  function StepOf(c: Course, others: Schedule, k: nat, trace: Trace, i: nat): nat
    requires c.log != [] && i <= |trace|
  {
    |Before(c, others, k, trace[..i]).events|
  }

  /** Every effect of a gated run is a safe delivery of the control plane. */
  lemma EffectsAreDeliveries(inner: Env, c: Course, others: Schedule, k: nat, cancelled: Trace -> bool, trace: Trace,
                             i: nat)
    requires Sound(c) && Answers(Gated(inner, c, others, k, cancelled), trace) && i < |trace| && Effect(trace[i])
    ensures var end := Along(c, others, k, trace); Theorems.Delivered(end.log, end.events,
        StepOf(c, others, k, trace, i))
  {
    assert ReplyAt(Gated(inner, c, others, k, cancelled), trace, i);
    var tr := trace[..i];
    assert Open(c, others, k, tr);
    AlongContinues(c, others, k, tr);
    PushAllContinues(Along(c, others, k, tr), others(tr));
    PushContinues(Before(c, others, k, tr), Runs.Deliver(k));
    assert trace[..i + 1][..i] == tr;
    var here := Along(c, others, k, trace[..i + 1]);
    var j := StepOf(c, others, k, trace, i);
    DeliveredHere(Before(c, others, k, tr), k);
    AlongPrefix(c, others, k, trace, i + 1);
    var end := Along(c, others, k, trace);
    AlongContinues(c, others, k, trace);
    Theorems.StillDelivered(here.log, here.events, end.log, end.events, [j]);
    assert j in [j];
  }

  lemma DeliveredHere(c: Course, k: nat)
    requires Sound(c) && k < |Last(c).authorities|
    requires Planes.MayDeliver(Last(c).plane, Last(c).authorities[k].epoch, Last(c).authorities[k].revision)
    ensures Theorems.Delivered(Push(c, Runs.Deliver(k)).log, Push(c, Runs.Deliver(k)).events, |c.events|)
  {
    var d, j := Push(c, Runs.Deliver(k)), |c.events|;
    PushContinues(c, Runs.Deliver(k));
    assert Theorems.DeliversAt(d.log, d.events, j, k);
    Theorems.DeliverySafety(d.log, d.events, j, k);
  }

  // ------------------------------------------------------------------ one worker, one cycle

  /** Every effect in the trace was a safe delivery of its own in the run, in order. */
  ghost predicate SafeEffects(trace: Trace, steps: seq<nat>, log: seq<Runs.System>, events: seq<Runs.Event>) {
    && |steps| == |trace|
    && (forall i :: 0 <= i < |trace| && Effect(trace[i]) ==> Theorems.Delivered(log, events, steps[i]))
    && (forall i, j :: 0 <= i < j < |trace| && Effect(trace[i]) && Effect(trace[j]) ==> steps[i] < steps[j])
  }

  /** One cleanup by a worker: whatever happens around it, the executor's guarantee holds,
      and every signal and removal leaves while enforcing, not draining, unpaused, under
      an unbroken epoch, with nothing acknowledged since its revision was read. */
  method ExecuteCleanup(inner: Env, c: Course, others: Schedule, k: nat, cancelled: Trace -> bool, plan: Plan,
                        policy: Policy)
      returns (result: ExecResult, trace: Trace)
    requires Sound(c)
    ensures Answers(Gated(inner, c, others, k, cancelled), trace)
    ensures Guarantee(plan, policy, inner.fingerprint, result, Watch(plan, policy, trace))
    ensures GivesUp(inner, c, others, k, cancelled, result, trace)
    ensures forall i :: 0 <= i < |trace| && Effect(trace[i]) ==>
      var end := Along(c, others, k, trace); Theorems.Delivered(end.log, end.events, StepOf(c, others, k, trace, i))
  {
    result, trace := Execute(Gated(inner, c, others, k, cancelled), plan, policy);
    GatedGivesUp(inner, c, others, k, cancelled, plan, policy, result, trace);
    forall i | 0 <= i < |trace| && Effect(trace[i])
      ensures var end := Along(c, others, k, trace); Theorems.Delivered(end.log, end.events,
          StepOf(c, others, k, trace, i))
    {
      EffectsAreDeliveries(inner, c, others, k, cancelled, trace, i);
    }
  }

  /** Two effects take the lock at two steps, in order. */
  lemma StepsIncrease(inner: Env, c: Course, others: Schedule, k: nat, cancelled: Trace -> bool, trace: Trace, i: nat,
                      j: nat)
    requires Sound(c) && Answers(Gated(inner, c, others, k, cancelled), trace)
    requires i < j < |trace| && Effect(trace[i])
    ensures StepOf(c, others, k, trace, i) < StepOf(c, others, k, trace, j)
  {
    assert ReplyAt(Gated(inner, c, others, k, cancelled), trace, i);
    var tr := trace[..i];
    assert Open(c, others, k, tr) && trace[..i + 1][..i] == tr;
    var here := Along(c, others, k, trace[..i + 1]);
    assert |here.events| == StepOf(c, others, k, trace, i) + 1;
    AlongPrefix(c, others, k, trace[..j], i + 1);
    assert trace[..j][..i + 1] == trace[..i + 1];
    AlongContinues(c, others, k, trace[..j]);
    PushAllContinues(Along(c, others, k, trace[..j]), others(trace[..j]));
  }

  lemma EffectsStaySafe(inner: Env, c: Course, others: Schedule, k: nat, cancelled: Trace -> bool, trace: Trace,
                        log: seq<Runs.System>, events: seq<Runs.Event>) returns (steps: seq<nat>)
    requires Sound(c) && Answers(Gated(inner, c, others, k, cancelled), trace)
    requires Along(c, others, k, trace).log <= log && Along(c, others, k, trace).events <= events && |events| < |log|
    ensures SafeEffects(trace, steps, log, events)
  {
    var end := Along(c, others, k, trace);
    steps := seq(|trace|, i requires 0 <= i < |trace| => StepOf(c, others, k, trace, i));
    forall i | 0 <= i < |trace| && Effect(trace[i]) ensures Theorems.Delivered(log, events, steps[i]) {
      EffectsAreDeliveries(inner, c, others, k, cancelled, trace, i);
      Theorems.StillDelivered(end.log, end.events, log, events, [steps[i]]);
      assert steps[i] in [steps[i]];
    }
    forall i, j | 0 <= i < j < |trace| && Effect(trace[i]) && Effect(trace[j]) ensures steps[i] < steps[j] {
      StepsIncrease(inner, c, others, k, cancelled, trace, i, j);
    }
  }

  ghost function CourseOf(engine: Engines.Engine): (c: Course)
    reads engine, engine.control
  {
    Course(engine.control.log, engine.control.events)
  }

  /** The worker's part of a cycle, on the run that it and the other threads extend. */
  method WorkInCycle(engine: Engines.Engine, inner: Env, others: Schedule, cancelled: Trace -> bool, plan: Plan,
                     policy: Policy)
      returns (result: ExecResult, trace: Trace, ghost steps: seq<nat>)
    requires engine.Valid() && |engine.frozen| > 0
    modifies engine.control
    ensures engine.Valid() && engine.control.Here().cycle.Resting?
    ensures Guarantee(plan, policy, inner.fingerprint, result, Watch(plan, policy, trace))
    ensures SafeEffects(trace, steps, engine.control.log, engine.control.events)
    ensures |engine.frozen| == old(|engine.frozen|)
    ensures GivesUp(inner, old(CourseOf(engine)), others, |engine.frozen| - 1, cancelled, result, trace)
  {
    hide Guarantee, GivesUp, SafeEffects, Watch;
    var c, k := Course(engine.control.log, engine.control.events), |engine.frozen| - 1;
    result, trace := ExecuteCleanup(inner, c, others, k, cancelled, plan, policy);
    var end := Along(c, others, k, trace);
    AlongContinues(c, others, k, trace);
    engine.control.Adopt(end.log, end.events);
    engine.control.EndObservation();
    steps := EffectsStaySafe(inner, c, others, k, cancelled, trace, engine.control.log, engine.control.events);
  }

  /** One observation cycle that freezes an authority and runs the executor under it. */
  method RunCycle(engine: Engines.Engine, now: nat, inner: Env, others: Schedule, cancelled: Trace -> bool, plan: Plan,
                  policy: Policy)
      returns (done: Option<(ExecResult, Trace)>, ghost steps: seq<nat>)
    requires engine.Valid() && engine.control.Here().cycle.Resting?
    modifies engine, engine.control
    ensures engine.Valid() && engine.control.Here().cycle.Resting?
    ensures done.Some? ==>
      && Guarantee(plan, policy, inner.fingerprint, done.value.0, Watch(plan, policy, done.value.1))
      && SafeEffects(done.value.1, steps, engine.control.log, engine.control.events)
    ensures engine.Alone() && old(engine.Ready()) ==> done.Some?
  {
    done, steps := None, [];
    var authority := engine.Freeze(now);
    if authority.None? { return; }
    var begun := engine.BeginAttempt(authority.value);
    if !begun { return; }
    var result, trace;
    result, trace, steps := WorkInCycle(engine, inner, others, cancelled, plan, policy);
    done := Some((result, trace));
  }
}
