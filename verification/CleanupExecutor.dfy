/** The cleanup executor: TERM the primaries, TERM the members, KILL what is left,
    watch for revival, then reconcile runtime artifacts. */
module CleanupExecutor {
  import opened Wrappers
  import opened CleanupTypes
  import opened CleanupMonitor
  import opened CleanupEscalation
  import opened CleanupGuarantee

  /** The runtime, journal, revalidator and stop flag.  Nothing is known about any
      of them: each answer may depend on every call made before it. */
  datatype Env = Env(
    stop: Trace -> bool,
    snapshot: Trace -> Option<Snapshot>,
    lookup: (Trace, nat) -> Lookup,
    revalidate: (Trace, Snapshot, Phase) -> Verdict,
    clock: Trace -> bool,
    fingerprint: Identity -> string,
    prepare: (Trace, Intent) -> Option<string>,
    signal: (Trace, Identity, Signal) -> Disposition,
    complete: (Trace, string, Disposition) -> bool,
    wait: (Trace, nat) -> WaitOutcome,
    freeze: (Trace, Candidate) -> Option<Freeze>,
    prepareArtifact: (Trace, string) -> Option<string>,
    unlink: (Trace, FrozenArtifact) -> ArtifactDisposition,
    completeArtifact: (Trace, string, ArtifactDisposition) -> bool)

  /** `e` is what `env` answers after the calls `before`. */
  ghost predicate Reply(env: Env, before: Trace, e: Event) {
    match e
    case StopPolled(stop) => stop == env.stop(before)
    case Snapshotted(result) => result == env.snapshot(before)
    case LookedUp(pid, answer) => answer == env.lookup(before, pid)
    case Revalidated(s, phase, verdict) => verdict == env.revalidate(before, s, phase)
    case ClockRead(ok) => ok == env.clock(before)
    case Prepared(intent, id) => id == env.prepare(before, intent)
    case Signalled(identity, signal, d) => d == env.signal(before, identity, signal)
    case Completed(id, d, ok) => ok == env.complete(before, id, d)
    case Waited(duration, outcome) => outcome == env.wait(before, duration)
    case Froze(c, freeze) => freeze == env.freeze(before, c)
    case PreparedArtifact(fingerprint, id) => id == env.prepareArtifact(before, fingerprint)
    case Unlinked(artifact, removal) => removal == env.unlink(before, artifact)
    case CompletedArtifact(id, d, ok) => ok == env.completeArtifact(before, id, d)
  }

  ghost predicate ReplyAt(env: Env, trace: Trace, k: nat)
    requires k < |trace|
  {
    Reply(env, trace[..k], trace[k])
  }

  /** Every event of the trace is the environment's own answer to the call. */
  ghost predicate Answers(env: Env, trace: Trace) {
    forall k :: 0 <= k < |trace| ==> ReplyAt(env, trace, k)
  }

  lemma AnswersMore(env: Env, trace: Trace, e: Event)
    requires Answers(env, trace) && Reply(env, trace, e)
    ensures Answers(env, trace + [e])
  {
    var more := trace + [e];
    forall k | 0 <= k < |more| ensures ReplyAt(env, more, k) {
      if k < |trace| {
        assert ReplyAt(env, trace, k);
        assert more[..k] == trace[..k];
      } else {
        assert more[..k] == trace;
      }
    }
  }

  /** Each call succeeds. */
  ghost predicate Succeeds(env: Env) {
    && (forall tr :: !env.stop(tr))
    && (forall tr :: env.snapshot(tr).Some?)
    && (forall tr :: env.clock(tr))
    && (forall tr, intent :: env.prepare(tr, intent).Some?)
    && (forall tr, identity, signal :: Settled(env.signal(tr, identity, signal)))
    && (forall tr, id, d :: env.complete(tr, id, d))
    && (forall tr, duration :: env.wait(tr, duration) == DeadlineReached)
    && (forall tr, fingerprint :: env.prepareArtifact(tr, fingerprint).Some?)
    && (forall tr, artifact :: CompletedCleanup(env.unlink(tr, artifact)))
    && (forall tr, id, d :: env.completeArtifact(tr, id, d))
  }

  ghost predicate HasRow(plan: Plan, policy: Policy, tr: Trace, c: Candidate) {
    exists k :: 0 <= k < |Watch(plan, policy, tr).artifactActions|
      && Watch(plan, policy, tr).artifactActions[k].fingerprint == c.fingerprint
  }

  /** An environment that obliges: every call succeeds; what a snapshot omits is not
      running; what it lists is the frozen process, neither killed nor seen absent
      before; the revalidator agrees; and an artifact stays as it is until a row
      says it is gone. */
  ghost predicate Obliging(env: Env, plan: Plan, policy: Policy) {
    && Succeeds(env)
    && (forall tr, pid :: env.lookup(tr, pid) == NotRunning)
    && (forall tr, s, phase :: env.revalidate(tr, s, phase).status == if phase == BeforeSignal then Eligible else Gone)
    && (forall tr :: env.snapshot(tr).Some? ==> Lists(plan, Watch(plan, policy, tr), env.snapshot(tr).value))
    && (forall tr, c :: env.freeze(tr, c).Some? && !env.freeze(tr, c).value.Unsafe?)
    && (forall tr, c :: env.freeze(tr, c) == if HasRow(plan, policy, tr, c) then Some(Absent) else env.freeze([], c))
  }

  /** Every target that `s` lists is the frozen one, and was neither killed nor found
      not running before. */
  ghost predicate Lists(plan: Plan, m: Monitor, s: Snapshot) {
    forall t :: t in plan.targets && ByPid(s, t.identity.pid).Some? ==>
      ExactMatch(t.identity, ByPid(s, t.identity.pid).value.identity) && !Dead(m, t.identity.pid)
  }

  predicate Dead(m: Monitor, pid: nat) { pid in m.everNotRunning || pid in m.killed }

  ghost predicate AllDead(plan: Plan, m: Monitor) {
    forall t :: t in plan.targets ==> Dead(m, t.identity.pid)
  }

  ghost predicate NoneListed(plan: Plan, s: Snapshot) {
    forall t :: t in plan.targets ==> ByPid(s, t.identity.pid).None?
  }

  datatype Liveness = Liveness(survivors: map<nat, Identity>, missing: seq<nat>)

  /** What the evidence gathered under a PREPARED row allows. */
  datatype Decision = StopNow | Unreadable | Refuse(reason: Reason) | Exited | Go

  /** A stage of `Execute` either goes on with a value or decides the result. */
  datatype Flow<+T> = Continue(value: T) | Return(result: ExecResult)

  const FRESH := Receipt(Reclaiming, None, [], [], {}, 0)

  function Fail(r: Receipt, reason: Reason, survivors: set<nat>): Receipt {
    r.(state := Failed, reason := Some(reason), survivors := survivors)
  }

  function RuntimeError(r: Receipt): CleanupError {
    Runtime(r.(state := Failed, reason := Some(RuntimeFailed)))
  }

  function ArtifactFailureReason(d: ArtifactDisposition): Reason {
    match d
    case Removed => ArtifactReconciled
    case AlreadyAbsent => ArtifactReconciled
    case ArtifactIdentityMismatch => ArtifactIdentityChanged
    case Referenced => ArtifactLiveReference
    case ArtifactUnsafe => ArtifactUnsafeReason
    case ArtifactRejected => ArtifactRejectedReason
    case ArtifactCancelled => DrainRequested
    case ArtifactDeliveryUnknown => ArtifactUnknownReason
  }

  /** What an artifact that should be absent turns out to be. */
  function Reobserved(now: Freeze, absent: ArtifactDisposition): ArtifactDisposition {
    match now
    case Absent => absent
    case Frozen(_) => ArtifactIdentityMismatch
    case Unsafe => ArtifactUnsafe
  }

  class Execution {
    const env: Env
    const plan: Plan
    const policy: Policy
    var trace: Trace
    var receipt: Receipt
    /** What the monitor makes of `trace`, and of each shorter prefix of it. */
    ghost var seen: Monitor
    ghost var log: seq<Monitor>
    /** Whether the environment obliges. */
    ghost const kind: bool

    constructor (env: Env, plan: Plan, policy: Policy)
      ensures this.env == env && this.plan == plan && this.policy == policy
      ensures trace == [] && receipt == FRESH && seen == INITIAL && Kept() && kind == Obliging(env, plan, policy)
    {
      this.env, this.plan, this.policy := env, plan, policy;
      trace, receipt := [], FRESH;
      seen, log := INITIAL, [INITIAL];
      kind := Obliging(env, plan, policy);
    }

    /** The log is the monitor's reading of the trace, and the trace is what the
        environment answered. */
    ghost predicate Kept()
      reads this`trace, this`seen, this`log
    {
      && Logged(plan, policy, trace, log, seen) && Answers(env, trace)
      && (kind ==> Obliging(env, plan, policy))
    }

    ghost function After(m: Monitor, e: Event): Monitor {
      Advance(plan, policy, m, e)
    }

    /** Nothing unlawful happened and the receipt lists exactly the completed rows. */
    ghost predicate Agrees()
      reads this
    {
      var m := seen;
      && Kept()
      && m.lawful
      && receipt.actions == m.actions
      && receipt.artifactActions == m.artifactActions
      && (m.artifactActions != [] ==> m.terminal && receipt.revivalChecks == |policy.windows|)
      && |m.artifactActions| <= |plan.artifacts|
      && receipt.state == Reclaiming && receipt.reason == None && receipt.survivors == {}
      && (kind ==> !m.reappeared)
    }

    ghost predicate Quiet()
      reads this
    {
      Agrees() && seen.bracket.Closed?
    }

    /** Between brackets, no stop poll has said stop, and nothing else ended the run. */
    ghost predicate Live()
      reads this
    {
      Quiet() && !seen.stopped && Free(seen)
    }

    /** No wait ended meanwhile, and no new stage began. */
    ghost predicate SamePace(before: Monitor, now: Monitor) {
      now.waits == before.waits && now.stages == before.stages && now.listed == before.listed
    }

    /** The grace of every stage but the last `behind` is over. */
    ghost predicate GracesOver(m: Monitor, behind: nat) {
      behind <= m.stages <= 3 && m.waits == Graces(policy)[..m.stages - behind]
    }

    /** The next wait would be this one. */
    ghost predicate WaitDue(m: Monitor, duration: nat) {
      m.stages <= 3 && m.waits + [duration] <= Graces(policy)[..m.stages] + policy.windows
    }

    /** The stop flag may be polled next. */
    predicate Pollable(m: Monitor) {
      m.tail == [] || (!Ending(m) && !OwesAbsence(m) && !OwesClock(m) && !OwesRow(m))
    }

    /** The clock may be read next, to complete the open row. */
    predicate Clockable(m: Monitor) {
      && m.tail != [] && !OwesPoll(m) && !OwesAbsence(m) && !OwesRow(m) && !m.bracket.Closed?
      && (Ending(m) ==> Last(m).StopPolled? || Last(m).Snapshotted? || Last(m).LookedUp? || Last(m).Revalidated?)
      && !Last(m).Completed? && !Last(m).CompletedArtifact?
    }

    /** The stop flag said stop, or the wait was interrupted. */
    predicate Drains(m: Monitor) {
      m.tail != [] && !m.bracket.OpenArtifact? &&
      match Last(m)
      case StopPolled(stop) => stop
      case Waited(_, outcome) => outcome.Interrupted?
      case _ => false
    }

    predicate Faulty(m: Monitor) { MayEnd(m) && RuntimeFault(Cause(m)) }

    /** What a monitor never forgets. */
    ghost predicate Since(before: Monitor, now: Monitor) {
      && before.everNotRunning <= now.everNotRunning
      && before.killed <= now.killed && before.ended <= now.ended
      && before.freezes <= now.freezes
      && (before.reappeared ==> now.reappeared)
      && (before.terminal ==> now.terminal)
    }

    // ---------------------------------------------------------------- one call each

    method Record(e: Event)
      requires Reply(env, trace, e)
      modifies this`trace, this`seen, this`log
      ensures trace == old(trace) + [e]
      ensures seen == After(old(seen), e)
      ensures old(Kept()) ==> Kept()
    {
      ghost var next := After(seen, e);
      if Kept() {
        AnswersMore(env, trace, e);
        forall i | 0 <= i < |trace| + 1 ensures StepAt(plan, policy, trace + [e], log + [next], i) {
          if i < |trace| { assert StepAt(plan, policy, trace, log, i); }
        }
      }
      seen := next;
      trace, log := trace + [e], log + [next];
    }

    method PollStop() returns (stop: bool)
      requires Agrees() && Pollable(seen)
      modifies this`trace, this`seen, this`log
      ensures Agrees() && seen == old(seen).(stopped := old(seen).stopped || stop, tail := [StopPolled(stop)])
      ensures if stop then Blames(plan, seen, DrainRequested) else Free(seen)
      ensures kind ==> !stop
    {
      stop := env.stop(trace);
      Record(StopPolled(stop));
    }

    /** A snapshot is due: between rows at any time, under a row straight after a poll. */
    predicate SnapshotDue(m: Monitor) {
      Free(m) && (m.bracket.Closed? || (m.bracket.OpenSignal? && m.tail == UNSTOPPED))
    }

    method TakeSnapshot() returns (s: Option<Snapshot>)
      requires Agrees() && SnapshotDue(seen)
      modifies this`trace, this`seen, this`log
      ensures Agrees()
      ensures seen == old(seen).(
        view := if s.None? then None else Some(View(s.value, {}, {}, false, false)),
        reappeared := old(seen).reappeared || (s.Some? && FrozenTargetListed(plan, old(seen).everNotRunning, s.value)),
        tail := old(seen).tail + [Snapshotted(s)])
      ensures kind ==> s.Some? && Lists(plan, old(seen), s.value)
    {
      s := env.snapshot(trace);
      if kind { LoggedIsWatch(plan, policy, trace, log, seen); }
      Record(Snapshotted(s));
    }

    method LookUp(pid: nat) returns (answer: Lookup)
      requires Agrees() && Free(seen) && !seen.bracket.OpenArtifact? && seen.view.Some?
      modifies this`trace, this`seen, this`log
      ensures Agrees()
      ensures var v := old(seen).view.value;
        seen == old(seen).(
          view := Some(v.(notRunning := if answer.NotRunning? then v.notRunning + {pid} else v.notRunning,
                          running := if answer.Running? then v.running + {pid} else v.running)),
          everNotRunning := old(seen).everNotRunning + (if answer.NotRunning? then {pid} else {}),
          tail := old(seen).tail + [LookedUp(pid, answer)])
      ensures kind ==> answer == NotRunning
    {
      answer := env.lookup(trace, pid);
      Record(LookedUp(pid, answer));
    }

    /** A verdict on the current snapshot is due. */
    ghost predicate VerdictDue(m: Monitor, s: Snapshot, phase: Phase) {
      && Free(m) && m.view.Some? && m.view.value.snapshot == s
      && match phase
         case RevivalCheck => m.bracket.Closed?
         case BeforeSignal => m.bracket.OpenSignal? || (m.bracket.Closed? && m.stages < 3 && GracesOver(m, 0))
    }

    method Revalidate(s: Snapshot, phase: Phase) returns (v: Verdict)
      requires Agrees() && VerdictDue(seen, s, phase)
      modifies this`trace, this`seen, this`log
      ensures Agrees()
      ensures seen ==
        Judge(plan, policy, old(seen).(verdictReasons := old(seen).verdictReasons + {v.reason}), phase, v).(
          tail := old(seen).tail + [Revalidated(s, phase, v)])
      ensures kind ==> v.status == if phase == BeforeSignal then Eligible else Gone
    {
      v := env.revalidate(trace, s, phase);
      Record(Revalidated(s, phase, v));
    }

    method ReadClock() returns (ok: bool)
      requires Agrees() && (Free(seen) || Clockable(seen))
      modifies this`trace, this`seen, this`log
      ensures Agrees() && seen == old(seen).(tail := old(seen).tail + [ClockRead(ok)])
      ensures kind ==> ok
    {
      ok := env.clock(trace);
      Record(ClockRead(ok));
    }

    method FreezeArtifact(c: Candidate) returns (f: Option<Freeze>)
      requires Agrees() && seen.bracket.Closed? && seen.tail != [] && !Ending(seen) && !OwesPoll(seen)
      requires !OwesClock(seen)
      requires OwesAbsence(seen) ==>
        seen.artifactActions != [] && c.fingerprint == seen.artifactActions[|seen.artifactActions| - 1].fingerprint
      modifies this`trace, this`seen, this`log
      ensures Agrees()
      ensures f.None? ==> seen == old(seen).(tail := old(seen).tail + [Froze(c, f)])
      ensures f.Some? ==> seen == old(seen).(
        lastFreeze := Some((c, f.value)),
        freezes := if Untouched(old(seen)) then old(seen).freezes + {(c, f.value)} else old(seen).freezes,
        tail := old(seen).tail + [Froze(c, f)])
      ensures kind ==> f.Some? && !f.value.Unsafe?
      ensures kind && env.freeze([], c) == Some(Absent) ==> f == Some(Absent)
      ensures kind && seen.artifactActions == [] ==> f == env.freeze([], c)
      ensures kind && RowOf(seen, c) ==> f == Some(Absent)
    {
      f := env.freeze(trace, c);
      if kind { LoggedIsWatch(plan, policy, trace, log, seen); }
      Record(Froze(c, f));
    }

    method JournalPrepare(intent: Intent) returns (id: Option<string>)
      requires Agrees() && seen.bracket.Closed? && seen.tail == UNSTOPPED_CLOCKED
      requires seen.stages == StageRank(intent.stage) + 1 && GracesOver(seen, 1)
      modifies this`trace, this`seen, this`log
      ensures Agrees()
      ensures id.None? ==> seen == old(seen).(tail := UNSTOPPED_CLOCKED + [Prepared(intent, id)])
      ensures id.Some? ==> seen == old(seen).(
        bracket := OpenSignal(id.value, intent, None), view := None, tail := UNSTOPPED_CLOCKED + [Prepared(intent, id)])
      ensures kind ==> id.Some?
    {
      id := env.prepare(trace, intent);
      Record(Prepared(intent, id));
    }

    method JournalComplete(id: string, d: Disposition) returns (ok: bool)
      requires Kept() && seen.lawful && seen.bracket.OpenSignal? && seen.bracket.id == id
      requires TruthfulSignal(plan, seen, d) && seen.tail != [] && Last(seen) == ClockRead(true)
      modifies this`trace, this`seen, this`log
      ensures Kept()
      ensures seen == old(seen).(
        bracket := if ok then Closed else old(seen).bracket,
        actions := old(seen).actions + (if ok then [Action(old(seen).bracket.intent, d)] else []),
        tail := old(seen).tail + [Completed(id, d, ok)])
      ensures kind ==> ok
    {
      ok := env.complete(trace, id, d);
      Record(Completed(id, d, ok));
    }

    function SignalReason(d: Disposition): Option<Reason> {
      match d
      case Delivered => None
      case AlreadyExited => None
      case IdentityMismatch => Some(SignalIdentityMismatch)
      case Rejected => Some(SignalRejected)
      case CancelledBeforeDelivery => Some(DrainRequested)
      case DeliveryUnknown => Some(SignalDeliveryUnknown)
    }

    method SendSignal(identity: Identity, signal: Signal) returns (d: Disposition)
      requires Agrees() && SignalAllowed(plan, seen, identity, signal) && seen.tail == UNSTOPPED
      modifies this`trace, this`seen, this`log
      ensures Agrees()
      ensures seen == old(seen).(
        bracket := old(seen).bracket.(sent := Some(d)), view := None,
        killed := if signal == Kill then old(seen).killed + {identity.pid} else old(seen).killed,
        tail := UNSTOPPED + [Signalled(identity, signal, d)])
      ensures Clockable(seen) && (SignalReason(d).Some? ==> Gives(plan, seen, SignalReason(d).value))
      ensures kind ==> Settled(d)
    {
      d := env.signal(trace, identity, signal);
      Record(Signalled(identity, signal, d));
    }

    method Wait(duration: nat) returns (outcome: WaitOutcome)
      requires Agrees() && seen.bracket.Closed? && seen.tail == UNSTOPPED && WaitDue(seen, duration)
      modifies this`trace, this`seen, this`log
      ensures Agrees()
      ensures seen == old(seen).(
        view := None, waits := old(seen).waits + (if outcome.DeadlineReached? then [duration] else []),
        tail := UNSTOPPED + [Waited(duration, outcome)])
      ensures kind ==> outcome == DeadlineReached
    {
      outcome := env.wait(trace, duration);
      Record(Waited(duration, outcome));
    }

    method JournalPrepareArtifact(fingerprint: string) returns (id: Option<string>)
      requires Agrees() && seen.bracket.Closed? && seen.terminal && Free(seen)
      requires PolledForArtifact(seen.tail, fingerprint) && |seen.artifactActions| < |plan.artifacts|
      requires fingerprint == plan.artifacts[|seen.artifactActions|].fingerprint
      modifies this`trace, this`seen, this`log
      ensures Agrees()
      ensures id.None? ==> seen == old(seen).(tail := old(seen).tail + [PreparedArtifact(fingerprint, id)])
      ensures id.Some? ==> seen == old(seen).(
        bracket := OpenArtifact(id.value, fingerprint, None), view := None,
        tail := old(seen).tail + [PreparedArtifact(fingerprint, id)])
      ensures kind ==> id.Some?
    {
      id := env.prepareArtifact(trace, fingerprint);
      Record(PreparedArtifact(fingerprint, id));
    }

    method Unlink(artifact: FrozenArtifact) returns (d: ArtifactDisposition)
      requires Agrees() && UnlinkAllowed(seen, artifact) && seen.tail == UNSTOPPED
      modifies this`trace, this`seen, this`log
      ensures Agrees()
      ensures seen == old(seen).(
        bracket := old(seen).bracket.(removal := Some(d)), view := None, tail := UNSTOPPED + [Unlinked(artifact, d)])
      ensures kind ==> CompletedCleanup(d)
    {
      d := env.unlink(trace, artifact);
      Record(Unlinked(artifact, d));
    }

    method JournalCompleteArtifact(id: string, d: ArtifactDisposition) returns (ok: bool)
      requires Kept() && seen.lawful && seen.bracket.OpenArtifact? && seen.bracket.id == id
      requires TruthfulArtifact(seen, d) && seen.tail != [] && Last(seen) == ClockRead(true)
      modifies this`trace, this`seen, this`log
      ensures Kept()
      ensures seen == old(seen).(
        bracket := if ok then Closed else old(seen).bracket,
        artifactActions := old(seen).artifactActions +
          (if ok then [ArtifactAction(old(seen).bracket.fingerprint, d)] else []),
        tail := old(seen).tail + [CompletedArtifact(id, d, ok)])
      ensures kind ==> ok
    {
      ok := env.completeArtifact(trace, id, d);
      Record(CompletedArtifact(id, d, ok));
    }

    ghost predicate RowOf(m: Monitor, c: Candidate) {
      exists k :: 0 <= k < |m.artifactActions| && m.artifactActions[k].fingerprint == c.fingerprint
    }

    /** Stopped before the wait, in it, or just after it. */
    predicate StoppedAt(before: Monitor, now: Monitor, duration: nat)
      requires now.tail != []
    {
      if Last(now).Waited? then now.waits == before.waits
      else (now.waits == before.waits && now.view == before.view)
           || (now.waits == before.waits + [duration] && now.view.None?)
    }

    /** True when the run must stop here; a failed wait is a runtime error. */
    method WaitInterrupted(duration: nat) returns (r: Result<bool, CleanupError>)
      requires Quiet() && Free(seen) && WaitDue(seen, duration)
      modifies this`trace, this`seen, this`log
      ensures Quiet()
      ensures r.Err? ==> r.error == RuntimeError(receipt) && Faulty(seen)
      ensures r == Ok(true) ==> Drains(seen) && StoppedAt(old(seen), seen, duration)
      ensures var (before, now) := (old(seen), seen);
              && now.reappeared == before.reappeared && now.everNotRunning == before.everNotRunning
              && now.freezes == before.freezes && now.terminal == before.terminal
              && now.stages == before.stages && now.listed == before.listed
              && now.artifactActions == before.artifactActions
              && (r == Ok(false) ==>
                    now == before.(view := None, waits := before.waits + [duration], tail := UNSTOPPED))
      ensures seen.killed == old(seen).killed && seen.ended == old(seen).ended
      ensures kind ==> r == Ok(false)
    {
      hide Kept;
      var stop := PollStop();
      if stop { return Ok(true); }
      var outcome := Wait(duration);
      match outcome
      case DeadlineReached =>
        stop := PollStop();
        return Ok(stop);
      case Interrupted => return Ok(true);
      case WaitFailed => return Err(RuntimeError(receipt));
    }

    // ---------------------------------------------------------------- observation

    /** `after` differs from `before` only by lookups. */
    ghost predicate OnlyLookups(before: Monitor, after: Monitor) {
      && before.view.Some? && after.view.Some?
      && before.view.value.notRunning <= after.view.value.notRunning
      && before.view.value.running <= after.view.value.running
      && before.everNotRunning <= after.everNotRunning
      && after == before.(view := Some(before.view.value.(notRunning := after.view.value.notRunning,
                                                          running := after.view.value.running)),
                          everNotRunning := after.everNotRunning, tail := after.tail)
      && (after.tail == before.tail || (after.tail != [] && Last(after).LookedUp?))
    }

    /** A snapshot was taken, and then at most lookups were made, or it was called Gone. */
    predicate Observing(m: Monitor) {
      && Free(m) && !m.bracket.OpenArtifact?
      && match Last(m)
         case Snapshotted(_) => true
         case LookedUp(_, _) => true
         case Revalidated(_, phase, _) => phase.RevivalCheck?
         case _ => false
    }

    /** What `liveness` says about one frozen identity, given the current view. */
    ghost predicate Explained(m: Monitor, liveness: Liveness, t: Identity)
      requires m.view.Some?
    {
      var p := ByPid(m.view.value.snapshot, t.pid);
      && (p.Some? ==> ExactMatch(t, p.value.identity) && t.pid in liveness.survivors)
      && (p.None? ==> FoundAlive(m.view.value, liveness, t.pid) || t.pid in m.view.value.notRunning)
      && (t.pid !in liveness.survivors ==> t.pid in m.everNotRunning)
    }

    predicate FoundAlive(v: View, liveness: Liveness, pid: nat) { pid in liveness.missing && pid in v.running }

    ghost predicate Explains(m: Monitor, liveness: Liveness, n: nat)
      requires m.view.Some? && n <= |plan.targets|
    {
      && (forall i :: 0 <= i < n ==> Explained(m, liveness, plan.targets[i].identity))
      && (forall pid :: pid in liveness.survivors && ByPid(m.view.value.snapshot, pid).None? ==>
            pid in liveness.missing)
      && (forall pid :: pid in liveness.missing ==>
            pid in liveness.survivors && ByPid(m.view.value.snapshot, pid).None?)
      && m.view.value.running <= liveness.survivors.Keys <= Surviving(plan, m.view.value)
    }

    /** Every frozen target that `s` lists is the frozen process. */
    ghost predicate Tame(s: Snapshot) {
      forall t :: t in plan.targets && ByPid(s, t.identity.pid).Some? ==>
        ExactMatch(t.identity, ByPid(s, t.identity.pid).value.identity)
    }

    /** Only listed processes survive. */
    ghost predicate AsListed(s: Snapshot, l: Liveness) {
      l.missing == [] && forall pid :: pid in l.survivors ==>
        ByPid(s, pid).Some? && exists t :: t in plan.targets && t.identity.pid == pid
    }

    /** The process behind one frozen PID: from the snapshot, else looked up. */
    method Resolve(s: Snapshot, pid: nat) returns (answer: Lookup)
      requires Agrees() && seen.view.Some? && seen.view.value.snapshot == s && Observing(seen)
      modifies this`trace, this`seen, this`log
      ensures Agrees() && OnlyLookups(old(seen), seen)
      ensures !answer.LookupFailed? ==> Observing(seen)
      ensures ByPid(s, pid).Some? ==> seen == old(seen)
      ensures ByPid(s, pid).None? ==> Last(seen) == LookedUp(pid, answer)
      ensures seen.view.value.running ==
        old(seen.view.value.running) + (if ByPid(s, pid).None? && answer.Running? then {pid} else {})
      ensures ByPid(s, pid).Some? ==> answer == Running(ByPid(s, pid).value)
      ensures answer.NotRunning? ==>
        ByPid(s, pid).None? && pid in seen.view.value.notRunning && pid in seen.everNotRunning
      ensures kind && ByPid(s, pid).None? ==> answer == NotRunning
    {
      hide Kept;
      var listed := ByPid(s, pid);
      if listed.Some? { return Running(listed.value); }
      answer := LookUp(pid);
    }

    /** The observation failed for this reason. */
    ghost predicate Unclear(m: Monitor, reason: Reason) {
      && m.tail != [] && Blames(plan, m, reason)
      && (reason == TargetLookupIncomplete || reason == IdentityChanged)
      && (Last(m).LookedUp? || Last(m).Snapshotted? || (Last(m).Revalidated? && Free(m)))
    }

    /** Adds what is known about target `i` to the observation. */
    method ObserveTarget(s: Snapshot, l: Liveness, i: nat) returns (r: Result<Liveness, Reason>)
      requires Agrees() && seen.view.Some? && seen.view.value.snapshot == s && Observing(seen)
      requires i < |plan.targets| && Explains(seen, l, i)
      modifies this`trace, this`seen, this`log
      ensures Agrees() && OnlyLookups(old(seen), seen)
      ensures r.Ok? ==> Observing(seen) && Explains(seen, r.value, i + 1)
      ensures r.Err? ==> Unclear(seen, r.error)
      ensures kind && Tame(s) && AsListed(s, l) ==> r.Ok? && AsListed(s, r.value)
    {
      hide Kept;
      var target := plan.targets[i].identity;
      ghost var m := seen;
      var answer := Resolve(s, target.pid);
      match answer
      case LookupFailed => return Err(TargetLookupIncomplete);
      case NotRunning =>
        NotRunningExplained(m, seen, l, i);
        return Ok(l);
      case Running(p) =>
        assert plan.targets[i] in plan.targets;
        if !ExactMatch(target, p.identity) { return Err(IdentityChanged); }
        var omitted := ByPid(s, target.pid).None?;
        RunningExplained(m, seen, l, i, p.identity, omitted);
        return Ok(Liveness(l.survivors[target.pid := p.identity], if omitted then l.missing + [target.pid]
            else l.missing));
    }

    method ObserveLiveness(s: Snapshot) returns (r: Result<Liveness, Reason>)
      requires Agrees() && seen.view.Some? && seen.view.value.snapshot == s && Observing(seen)
      requires seen.view.value.running == {}
      modifies this`trace, this`seen, this`log
      ensures Agrees() && OnlyLookups(old(seen), seen)
      ensures r.Ok? ==> Observing(seen) && Explains(seen, r.value, |plan.targets|)
      ensures r.Ok? ==> r.value.survivors.Keys == Surviving(plan, seen.view.value)
      ensures r.Err? ==> Unclear(seen, r.error)
      ensures kind && Tame(s) ==> r.Ok? && AsListed(s, r.value)
    {
      hide Kept;
      var l := Liveness(map[], []);
      for i := 0 to |plan.targets|
        invariant Agrees() && OnlyLookups(old(seen), seen) && Observing(seen)
        invariant Explains(seen, l, i)
        invariant kind && Tame(s) ==> AsListed(s, l)
      {
        var more := ObserveTarget(s, l, i);
        if more.Err? { return Err(more.error); }
        l := more.value;
      }
      AllSurvive(seen, l);
      return Ok(l);
    }

    lemma AllSurvive(m: Monitor, l: Liveness)
      requires m.view.Some? && Explains(m, l, |plan.targets|)
      ensures l.survivors.Keys == Surviving(plan, m.view.value)
    {
      forall pid | pid in Surviving(plan, m.view.value) ensures pid in l.survivors {
        var t :| t in plan.targets && t.identity.pid == pid
          && (ByPid(m.view.value.snapshot, t.identity.pid).Some? || t.identity.pid in m.view.value.running);
        var i :| 0 <= i < |plan.targets| && plan.targets[i] == t;
        assert Explained(m, l, plan.targets[i].identity);
      }
    }

    lemma NotRunningExplained(m: Monitor, n: Monitor, l: Liveness, i: nat)
      requires OnlyLookups(m, n) && i < |plan.targets| && Explains(m, l, i)
      requires n.view.value.running == m.view.value.running
      requires var pid := plan.targets[i].identity.pid;
               ByPid(m.view.value.snapshot, pid).None? && pid in n.view.value.notRunning && pid in n.everNotRunning
      ensures Explains(n, l, i + 1)
    {
    }

    lemma RunningExplained(m: Monitor, n: Monitor, l: Liveness, i: nat, identity: Identity, omitted: bool)
      requires OnlyLookups(m, n) && i < |plan.targets| && Explains(m, l, i)
      requires n.view.value.running ==
        m.view.value.running + (if omitted then {plan.targets[i].identity.pid} else {})
      requires var p := ByPid(m.view.value.snapshot, plan.targets[i].identity.pid);
               omitted == p.None? && (p.Some? ==> ExactMatch(plan.targets[i].identity, p.value.identity))
      ensures var pid := plan.targets[i].identity.pid;
              Explains(n, Liveness(l.survivors[pid := identity], if omitted then l.missing + [pid]
                else l.missing), i + 1)
    {
    }

    /** The survivors that may be signalled on the strength of snapshot `s`. */
    ghost predicate StageValid(m: Monitor, survivors: map<nat, Identity>) {
      && m.view.Some?
      && TargetsAccounted(plan, m.view.value)
      && (survivors != map[] ==> m.view.value.eligible)
      && (forall t :: t in plan.targets ==>
            && (t.identity.pid in survivors <==> ByPid(m.view.value.snapshot, t.identity.pid).Some?)
            && (t.identity.pid !in survivors ==> t.identity.pid in m.everNotRunning))
    }

    /** An observation without missing survivors accounts for every target. */
    lemma AllAccounted(m: Monitor, l: Liveness)
      requires m.view.Some? && Explains(m, l, |plan.targets|) && l.missing == []
      ensures TargetsAccounted(plan, m.view.value)
      ensures forall t :: t in plan.targets ==>
        && (t.identity.pid in l.survivors <==> ByPid(m.view.value.snapshot, t.identity.pid).Some?)
        && (t.identity.pid !in l.survivors ==> t.identity.pid in m.everNotRunning)
    {
      forall t | t in plan.targets ensures Explained(m, l, t.identity) {
        var i :| 0 <= i < |plan.targets| && plan.targets[i] == t;
      }
    }

    /** A reason that speaks of artifacts, or of a missing TERM, can only be the
        revalidator's own wording. */
    ghost predicate Ordinary(m: Monitor, reason: Reason) {
      (ArtifactReason(Some(reason)) || reason == KillWithoutTerm) ==> reason in m.verdictReasons
    }

    /** Nothing is known yet about a snapshot just taken. */
    ghost predicate JustTaken(m: Monitor, s: Snapshot) {
      m.view == Some(View(s, {}, {}, false, false)) && Observing(m) && Last(m).Snapshotted?
    }

    /** A refused observation: the reason, and no verdict in favour. */
    ghost predicate Refused(m: Monitor, reason: Reason) {
      && Ordinary(m, reason) && m.tail != [] && Blames(plan, m, reason)
      && m.view.Some? && !m.view.value.eligible && !OwesPoll(m)
      && (Last(m).LookedUp? || Last(m).Snapshotted? || Last(m).Revalidated?)
    }

    /** Between rows, survivors that may be signalled begin the next stage. */
    ghost predicate StageCounted(before: Monitor, now: Monitor, survivors: map<nat, Identity>) {
      if before.bracket.Closed? && survivors != map[]
      then now.stages == before.stages + 1 && now.listed == survivors.Keys
      else now.stages == before.stages && now.listed == before.listed
    }

    /** What validation leaves as it was. */
    ghost predicate OnlyObserved(before: Monitor, now: Monitor) {
      && now.bracket == before.bracket && now.stopped == before.stopped && now.waits == before.waits
      && now.reappeared == before.reappeared && before.everNotRunning <= now.everNotRunning
      && now.freezes == before.freezes && now.terminal == before.terminal && now.killed == before.killed
      && now.ended == before.ended && now.view.Some?
    }

    /** Every survivor must be listed. */
    method ObserveListed(s: Snapshot) returns (r: Result<Liveness, Reason>)
      requires Agrees() && JustTaken(seen, s)
      modifies this`trace, this`seen, this`log
      ensures Agrees() && OnlyObserved(old(seen), seen) && SamePace(old(seen), seen)
      ensures seen.view.value.snapshot == s && !seen.view.value.eligible
      ensures r.Ok? ==> Observing(seen) && Explains(seen, r.value, |plan.targets|) && r.value.missing == []
      ensures r.Err? ==> Refused(seen, r.error)
      ensures kind && Tame(s) ==> r.Ok?
    {
      hide Kept;
      var observed := ObserveLiveness(s);
      if observed.Err? { return Err(observed.error); }
      if observed.value.missing != [] {
        MissingAreAlive(seen, observed.value);
        return Err(SnapshotTargetInconsistent);
      }
      return Ok(observed.value);
    }

    method ValidateStage(s: Snapshot) returns (r: Result<map<nat, Identity>, Reason>)
      requires Agrees() && JustTaken(seen, s)
      requires seen.bracket.OpenSignal? || (seen.stages < 3 && GracesOver(seen, 0))
      modifies this`trace, this`seen, this`log
      ensures Agrees() && OnlyObserved(old(seen), seen) && seen.view.value.snapshot == s
      ensures r.Ok? ==> StageValid(seen, r.value) && Free(seen) && StageCounted(old(seen), seen, r.value)
      ensures r.Ok? ==> !Last(seen).Completed? && !Last(seen).CompletedArtifact?
      ensures r.Ok? && r.value != map[] ==> Last(seen).Revalidated? && Last(seen).phase.BeforeSignal?
      ensures r.Err? ==> Refused(seen, r.error) && StageCounted(old(seen), seen, map[])
      ensures kind && Tame(s) ==> r.Ok?
    {
      hide Kept;
      var observed := ObserveListed(s);
      if observed.Err? { return Err(observed.error); }
      ghost var before := seen;
      if observed.value.survivors == map[] {
        ValidWhenJudged(before, seen, observed.value);
        return Ok(map[]);
      }
      ListedAreSurvivors(seen, observed.value);
      var judged := JudgeEligible(s);
      if judged.Err? { return Err(judged.error); }
      ValidWhenJudged(before, seen, observed.value);
      return Ok(observed.value.survivors);
    }

    /** What was observed stays valid when the verdict is in favour. */
    lemma ValidWhenJudged(m: Monitor, n: Monitor, l: Liveness)
      requires m.view.Some? && Explains(m, l, |plan.targets|) && l.missing == []
      requires n.view.Some? && n.everNotRunning == m.everNotRunning
      requires n.view.value.snapshot == m.view.value.snapshot && n.view.value.notRunning == m.view.value.notRunning
      requires l.survivors != map[] ==> n.view.value.eligible
      ensures StageValid(n, l.survivors)
    {
      AllAccounted(m, l);
    }

    lemma MissingAreAlive(m: Monitor, l: Liveness)
      requires m.view.Some? && Explains(m, l, |plan.targets|) && l.missing != []
      ensures OmittedAlive(plan, m)
    {
      var pid := l.missing[0];
      assert pid in l.missing && pid in Surviving(plan, m.view.value);
    }

    lemma ListedAreSurvivors(m: Monitor, l: Liveness)
      requires m.view.Some? && Explains(m, l, |plan.targets|) && l.missing == []
      ensures ListedPids(plan, m.view.value.snapshot) == l.survivors.Keys
    {
      AllAccounted(m, l);
      forall pid | pid in l.survivors ensures pid in ListedPids(plan, m.view.value.snapshot) {
        assert pid in Surviving(plan, m.view.value);
      }
    }

    /** The revalidator must call the snapshot Eligible. */
    method JudgeEligible(s: Snapshot) returns (r: Result<(), Reason>)
      requires Agrees() && seen.view.Some? && seen.view.value.snapshot == s && Observing(seen)
      requires seen.bracket.OpenSignal? || (seen.stages < 3 && GracesOver(seen, 0))
      modifies this`trace, this`seen, this`log
      ensures Agrees()
      ensures OnlyObserved(old(seen), seen) && seen.everNotRunning == old(seen).everNotRunning
      ensures seen.view.value == old(seen).view.value.(eligible := r.Ok?, gone := false)
      ensures if r.Ok? && seen.bracket.Closed?
        then seen.stages == old(seen).stages + 1 && seen.listed == ListedPids(plan, s)
        else seen.stages == old(seen).stages && seen.listed == old(seen).listed
      ensures r.Ok? ==> Free(seen) && Last(seen).Revalidated? && Last(seen).phase.BeforeSignal?
      ensures r.Err? ==> Refused(seen, r.error)
      ensures kind ==> r.Ok?
    {
      hide Kept;
      var verdict := Revalidate(s, BeforeSignal);
      match verdict.status
      case Eligible => return Ok(());
      case Gone => return Err(RevalidatorGoneWithSurvivors);
      case Blocked => return Err(verdict.reason);
      case Revived => return Err(verdict.reason);
    }

    // ---------------------------------------------------------------- one signal

    /** The receipt gained nothing, or exactly one row for `intent`. */
    ghost predicate AtMostOneMore(before: Receipt, intent: Intent)
      reads this`receipt
    {
      || receipt == before
      || (|receipt.actions| == |before.actions| + 1
          && receipt == before.(actions := before.actions + [receipt.actions[|before.actions|]])
          && receipt.actions[|before.actions|].intent == intent)
    }

    method CompletePrepared(intent: Intent, id: string, d: Disposition) returns (e: Option<CleanupError>)
      requires Agrees() && seen.bracket.OpenSignal? && seen.bracket.id == id && seen.bracket.intent == intent
      requires TruthfulSignal(plan, seen, d) && Clockable(seen)
      modifies this
      ensures Agrees()
      ensures e.None? ==> Quiet() && receipt == old(receipt).(actions := old(receipt).actions + [Action(intent, d)])
                          && seen == old(seen).(bracket := Closed, actions := receipt.actions,
                                                tail := old(seen).tail + [ClockRead(true), Completed(id, d, true)])
      ensures e.Some? ==> receipt == old(receipt) && seen == old(seen).(tail := seen.tail)
      ensures e.Some? ==> e.value == AttemptOpen(receipt, id) && LeftOpen(e.value)
      ensures kind ==> e.None?
    {
      hide Kept;
      var ok := ReadClock();
      if !ok { return Some(AttemptOpen(receipt, id)); }
      ok := JournalComplete(id, d);
      if !ok { return Some(AttemptOpen(receipt, id)); }
      receipt := receipt.(actions := receipt.actions + [Action(intent, d)]);
      assert seen.tail == old(seen).tail + [ClockRead(true), Completed(id, d, true)];
      return None;
    }

    /** The attempt stays open under exactly the row that the error names. */
    ghost predicate LeftOpen(error: CleanupError)
      reads this
    {
      && Agrees() && error.AttemptOpen? && error.partial == receipt
      && MayEnd(seen) && LeavesOpen(Last(seen))
      && match seen.bracket
         case Closed => false
         case OpenSignal(id, _, _) => id == error.preparedId
         case OpenArtifact(id, _, _) => id == error.preparedId
    }

    /** Completing the row leaves the reason what it was. */
    lemma ReasonStays(m: Monitor, n: Monitor, id: string, d: Disposition, reason: Reason)
      requires Clockable(m) && Gives(plan, m, reason)
      requires n.tail == m.tail + [ClockRead(true), Completed(id, d, true)] && n.view == m.view
      ensures Cause(n) == Last(m) == Cause(m) && Gives(plan, n, reason)
    {
      assert n.tail[|n.tail| - 3] == Last(m);
    }

    /** How one signal ended: settled, refused with a reason, or in an error. */
    ghost predicate Answered(before: Receipt, r: Result<Option<Reason>, CleanupError>)
      reads this
    {
      match r
      case Ok(None) =>
        && Live() && |receipt.actions| == |before.actions| + 1 && Last(seen).Completed?
        && Settled(receipt.actions[|before.actions|].disposition)
      case Ok(Some(reason)) => Quiet() && Ordinary(seen, reason) && seen.tail != [] && Blames(plan, seen, reason)
      case Err(Runtime(_)) => Quiet() && r.error == RuntimeError(receipt) && Faulty(seen)
      case Err(AttemptOpen(_, _)) => LeftOpen(r.error)
    }

    /** No row was added; the open one is for `intent`. */
    ghost predicate OpenFor(before: Receipt, intent: Intent)
      reads this
    {
      receipt == before && seen.bracket.OpenSignal? && seen.bracket.intent == intent
    }

    function IntentFor(i: nat, stage: Stage): Intent
      requires i < |plan.targets|
    {
      var identity := plan.targets[i].identity;
      Intent(stage, identity.pid, env.fingerprint(identity), if stage == ExactKill then Kill else Term)
    }

    /** PREPARED, fresh evidence, then at most one signal, then the journal row. */
    method SignalTarget(i: nat, stage: Stage) returns (r: Result<Option<Reason>, CleanupError>)
      requires Live() && i < |plan.targets| && seen.stages == StageRank(stage) + 1 && GracesOver(seen, 1)
      modifies this
      ensures Agrees() && Since(old(seen), seen) && SamePace(old(seen), seen)
      ensures AtMostOneMore(old(receipt), IntentFor(i, stage))
      ensures Answered(old(receipt), r)
      ensures kind ==> r == Ok(None) && (stage == ExactKill ==> Dead(seen, plan.targets[i].identity.pid))
      ensures r.Err? && r.error.AttemptOpen? ==> OpenFor(old(receipt), IntentFor(i, stage))
    {
      hide Kept;
      var stop := PollStop();
      if stop { return Ok(Some(DrainRequested)); }
      var prepared := OpenRow(IntentFor(i, stage));
      if prepared.None? { return Err(RuntimeError(receipt)); }
      r := SignalPrepared(i, stage, prepared.value);
    }

    /** The clock and the PREPARED row of a signal. */
    method OpenRow(intent: Intent) returns (id: Option<string>)
      requires Live() && seen.tail == UNSTOPPED && seen.stages == StageRank(intent.stage) + 1 && GracesOver(seen, 1)
      modifies this`trace, this`seen, this`log
      ensures Agrees() && Since(old(seen), seen) && SamePace(old(seen), seen) && !seen.stopped
      ensures id.None? ==> Quiet() && Faulty(seen)
      ensures id.Some? ==> seen.bracket == OpenSignal(id.value, intent, None) && Pollable(seen)
      ensures kind ==> id.Some?
    {
      hide Kept;
      var ok := ReadClock();
      if !ok { return None; }
      assert seen.tail == UNSTOPPED_CLOCKED;
      id := JournalPrepare(intent);
    }

    /** What was decided rests on the last answers. */
    ghost predicate Decided(i: nat, decision: Decision, m: Monitor)
      requires i < |plan.targets|
    {
      var pid := plan.targets[i].identity.pid;
      && Clockable(m)
      && match decision
         case StopNow => m.stopped && Last(m) == StopPolled(true)
         case Unreadable => m.view.None? && Last(m) == Snapshotted(None)
         case Refuse(reason) => !m.stopped && Refused(m, reason)
         case Exited => !m.stopped && Free(m) && FoundExited(plan, m, pid) && pid in m.everNotRunning
         case Go =>
           && !m.stopped && Free(m) && m.view.Some? && m.view.value.eligible && TargetsAccounted(plan, m.view.value)
           && ByPid(m.view.value.snapshot, pid).Some?
    }

    /** Stop poll, fresh snapshot, validation of every frozen target. */
    method Decide(i: nat) returns (decision: Decision)
      requires i < |plan.targets| && Agrees() && !seen.stopped && seen.bracket.OpenSignal? && Pollable(seen)
      modifies this`trace, this`seen, this`log
      ensures Agrees() && Since(old(seen), seen) && seen.bracket == old(seen).bracket && SamePace(old(seen), seen)
      ensures Decided(i, decision, seen)
      ensures kind ==> decision.Exited? || decision.Go?
    {
      hide Kept;
      var stop := PollStop();
      if stop { return StopNow; }
      var snapshot := TakeSnapshot();
      if snapshot.None? { return Unreadable; }
      var exact := ValidateStage(snapshot.value);
      if exact.Err? { return Refuse(exact.error); }
      assert plan.targets[i] in plan.targets;
      return if plan.targets[i].identity.pid in exact.value then Go else Exited;
    }

    /** The part of a signal that runs under its PREPARED row. */
    method SignalPrepared(i: nat, stage: Stage, id: string) returns (r: Result<Option<Reason>, CleanupError>)
      requires i < |plan.targets| && Agrees() && seen.bracket == OpenSignal(id, IntentFor(i, stage), None)
      requires !seen.stopped && Pollable(seen)
      modifies this
      ensures Agrees() && Since(old(seen), seen) && SamePace(old(seen), seen)
      ensures AtMostOneMore(old(receipt), IntentFor(i, stage))
      ensures Answered(old(receipt), r)
      ensures kind ==> r == Ok(None) && (stage == ExactKill ==> Dead(seen, plan.targets[i].identity.pid))
      ensures r.Err? && r.error.AttemptOpen? ==> OpenFor(old(receipt), IntentFor(i, stage))
    {
      hide Kept, Answered, FoundExited;
      var intent := IntentFor(i, stage);
      var decision := Decide(i);
      match decision
      case StopNow => r := CompleteWith(intent, id, CancelledBeforeDelivery, Some(DrainRequested));
      case Unreadable => r := CompleteUnread(intent, id);
      case Refuse(reason) =>
        r := CompleteWith(intent, id, if reason == IdentityChanged then IdentityMismatch else Rejected, Some(reason));
      case Exited => r := CompleteWith(intent, id, AlreadyExited, None);
      case Go => r := Deliver(i, stage, id);
    }

    /** The row of a signal for which no snapshot could be read. */
    method CompleteUnread(intent: Intent, id: string) returns (r: Result<Option<Reason>, CleanupError>)
      requires Agrees() && seen.bracket == OpenSignal(id, intent, None) && Clockable(seen)
      requires seen.view.None? && Last(seen) == Snapshotted(None)
      modifies this
      ensures Agrees() && Since(old(seen), seen) && SamePace(old(seen), seen)
      ensures r.Err? && Answered(old(receipt), r) && AtMostOneMore(old(receipt), intent)
      ensures r.error.AttemptOpen? ==> OpenFor(old(receipt), intent)
    {
      hide Kept;
      var e := CompletePrepared(intent, id, CancelledBeforeDelivery);
      if e.None? { assert seen.tail[|seen.tail| - 3] == Snapshotted(None); }
      return Err(if e.Some? then e.value else RuntimeError(receipt));
    }

    lemma MaySend(m: Monitor, n: Monitor, i: nat, stage: Stage)
      requires i < |plan.targets| && Decided(i, Go, m) && n == m.(tail := UNSTOPPED)
      requires m.bracket.OpenSignal? && m.bracket.intent == IntentFor(i, stage) && m.bracket.sent.None?
      ensures SignalAllowed(plan, n, plan.targets[i].identity, IntentFor(i, stage).signal)
    {
      assert plan.targets[i] in plan.targets;
    }

    /** The last stop poll and the signal itself, then the row. */
    method Deliver(i: nat, stage: Stage, id: string) returns (r: Result<Option<Reason>, CleanupError>)
      requires i < |plan.targets| && Agrees() && seen.bracket == OpenSignal(id, IntentFor(i, stage), None)
      requires Decided(i, Go, seen)
      modifies this
      ensures Agrees() && Since(old(seen), seen) && SamePace(old(seen), seen)
      ensures AtMostOneMore(old(receipt), IntentFor(i, stage))
      ensures Answered(old(receipt), r)
      ensures kind ==> r == Ok(None) && (stage == ExactKill ==> Dead(seen, plan.targets[i].identity.pid))
      ensures r.Err? && r.error.AttemptOpen? ==> OpenFor(old(receipt), IntentFor(i, stage))
    {
      hide Kept, Answered, Gives, Decided;
      var d := Send(i, stage);
      r := CompleteWith(IntentFor(i, stage), id, d, SignalReason(d));
    }

    /** Sends the signal of the open row unless the stop flag says stop. */
    method Send(i: nat, stage: Stage) returns (d: Disposition)
      requires i < |plan.targets| && Agrees() && seen.bracket.OpenSignal? && seen.bracket.sent.None?
      requires seen.bracket.intent == IntentFor(i, stage) && Decided(i, Go, seen)
      modifies this`trace, this`seen, this`log
      ensures Agrees() && Since(old(seen), seen) && SamePace(old(seen), seen)
      ensures seen.bracket.OpenSignal? && seen.bracket == old(seen).bracket.(sent := seen.bracket.sent)
      ensures TruthfulSignal(plan, seen, d) && Clockable(seen)
      ensures !Settled(d) ==> RowFits(Last(seen), d, SignalReason(d).value)
      ensures if Settled(d) then !seen.stopped else Gives(plan, seen, SignalReason(d).value)
      ensures kind ==> Settled(d) && (stage == ExactKill ==> Dead(seen, plan.targets[i].identity.pid))
    {
      hide Kept, Gives;
      ghost var before := seen;
      var stop := PollStop();
      if stop { return CancelledBeforeDelivery; }
      MaySend(before, seen, i, stage);
      d := SendSignal(plan.targets[i].identity, IntentFor(i, stage).signal);
    }

    /** Completes the open row and, if that is durable, answers `answer`. */
    method CompleteWith(intent: Intent, id: string, d: Disposition, answer: Option<Reason>)
        returns (r: Result<Option<Reason>, CleanupError>)
      requires Agrees() && seen.bracket.OpenSignal? && seen.bracket.id == id && seen.bracket.intent == intent
      requires TruthfulSignal(plan, seen, d) && Clockable(seen)
      requires if answer.None? then Settled(d) && !seen.stopped
               else !Settled(d) && Ordinary(seen, answer.value) && Gives(plan, seen, answer.value)
                    && RowFits(Last(seen), d, answer.value)
      modifies this
      ensures Agrees() && Since(old(seen), seen) && SamePace(old(seen), seen)
      ensures Answered(old(receipt), r) && AtMostOneMore(old(receipt), intent)
      ensures r.Err? ==> r.error.AttemptOpen? && OpenFor(old(receipt), intent)
      ensures kind ==> r == Ok(answer)
    {
      hide Kept;
      ghost var before := seen;
      var e := CompletePrepared(intent, id, d);
      if e.None? && answer.Some? { ReasonStays(before, seen, id, d, answer.value); }
      return if e.Some? then Err(e.value) else Ok(answer);
    }

    // ---------------------------------------------------------------- results

    /** The whole promise, for the run as far as it got. */
    ghost predicate Settles(result: ExecResult)
      reads this
    {
      && Kept()
      && Guarantee(plan, policy, env.fingerprint, result, seen)
    }

    ghost predicate DisciplinedSoFar()
      reads this
    {
      && (DistinctPids(plan) ==> Disciplined(plan, env.fingerprint, receipt.actions))
      && PrimariesFirst(plan, receipt.actions, seen.reappeared)
    }

    /** The discipline holds also for what was sent under a row left open. */
    ghost predicate OpenDisciplined()
      reads this
    {
      && (DistinctPids(plan) ==> Disciplined(plan, env.fingerprint, Ledger(seen)))
      && PrimariesFirst(plan, Ledger(seen), seen.reappeared)
    }

    ghost predicate Proved()
      reads this
    {
      seen.terminal && receipt.revivalChecks == |policy.windows| && seen.stages <= |seen.waits|
    }

    lemma FailSettles(reason: Reason, survivors: set<nat>)
      requires Quiet() && DisciplinedSoFar()
      requires Ordinary(seen, reason) || (Proved() && reason != KillWithoutTerm)
          || (reason == KillWithoutTerm && seen.reappeared)
      requires seen.tail != [] && FailedBecause(plan, policy, seen, reason, survivors)
      ensures Settles(Ok(Fail(receipt, reason, survivors)))
    {
      hide Kept;
    }

    lemma RevivedSettles(reason: Reason)
      requires Quiet() && DisciplinedSoFar() && reason in seen.verdictReasons
      requires seen.tail != [] && Last(seen).Revalidated? && Last(seen).phase.RevivalCheck?
      requires Last(seen).verdict.status.Revived? || Last(seen).verdict.status.Eligible?
      requires Last(seen).verdict.reason == reason && receipt.survivors == {}
      ensures Settles(Ok(receipt.(state := RevivedState, reason := Some(reason))))
    {
      hide Kept;
    }

    lemma RuntimeSettles()
      requires Quiet() && DisciplinedSoFar() && Faulty(seen)
      ensures Settles(Err(RuntimeError(receipt)))
    {
      hide Kept;
    }

    lemma OpenSettles(error: CleanupError)
      requires LeftOpen(error) && DisciplinedSoFar() && OpenDisciplined()
      ensures Settles(Err(error))
    {
      hide Kept;
    }

    // ---------------------------------------------------------------- escalation

    ghost predicate Escalating(termed: set<nat>, stage: Stage, next: nat)
      reads this
    {
      && Live()
      && receipt.artifactActions == [] && receipt.revivalChecks == 0
      && (forall i :: 0 <= i < |receipt.actions| ==> Settled(receipt.actions[i].disposition))
      && (DistinctPids(plan) ==> Progress(plan, env.fingerprint, receipt.actions, termed, stage, next))
      && PrimariesFirst(plan, receipt.actions, seen.reappeared)
    }

    /** The stage was entered on these survivors, and its own grace is still to come. */
    ghost predicate AtStage(stage: Stage, survivors: set<nat>, m: Monitor) {
      && m.stages == StageRank(stage) + 1 && GracesOver(m, 1) && survivors == m.listed
      && (stage == ExactKill ==> AfterVerdictOrRow(m))
    }

    /** The last call was the verdict that began the stage, or completed a row of it. */
    predicate AfterVerdictOrRow(m: Monitor) {
      m.tail != [] && (Last(m).Completed? || (Last(m).Revalidated? && Last(m).phase.BeforeSignal?))
    }

    predicate Selected(stage: Stage, pid: nat, survivors: map<nat, Identity>, termed: set<nat>) {
      pid in survivors &&
      match stage
      case PrimaryTerm => IsPrimary(plan, pid)
      case MemberTerm => pid !in termed
      case ExactKill => true
    }

    /** Signals target `i`, unless a KILL lacks its TERM, and goes on only if that is
        settled. */
    method SignalOne(i: nat, stage: Stage, survivors: set<nat>, done: set<nat>) returns (flow: Flow<()>)
      requires i < |plan.targets| && Escalating(done, stage, i) && AtStage(stage, survivors, seen)
      requires stage == PrimaryTerm ==> IsPrimary(plan, plan.targets[i].identity.pid)
      requires DistinctPids(plan) && stage != ExactKill ==> plan.targets[i].identity.pid !in done
      requires stage == ExactKill && plan.targets[i].identity.pid !in done ==> seen.reappeared
      requires stage == MemberTerm && IsPrimary(plan, plan.targets[i].identity.pid) ==> seen.reappeared
      modifies this
      ensures flow.Return? ==> Settles(flow.result)
      ensures flow.Continue? ==>
        && Escalating(done + {plan.targets[i].identity.pid}, stage, i + 1)
        && Since(old(seen), seen) && SamePace(old(seen), seen) && Last(seen).Completed?
      ensures kind ==> flow.Continue? && (stage == ExactKill ==> Dead(seen, plan.targets[i].identity.pid))
    {
      hide Kept, Settles;
      if stage == ExactKill && plan.targets[i].identity.pid !in done {
        FailSettles(KillWithoutTerm, survivors);
        return Return(Ok(Fail(receipt, KillWithoutTerm, survivors)));
      }
      ghost var before := receipt;
      var r := SignalTarget(i, stage);
      StepDisciplined(before, done, stage, i);
      match r
      case Err(error) =>
        if error.Runtime? {
          RuntimeSettles();
        } else {
          OpenStepDisciplined(before, done, stage, i);
          OpenSettles(error);
        }
        return Return(Err(error));
      case Ok(Some(reason)) =>
        FailSettles(reason, survivors);
        return Return(Ok(Fail(receipt, reason, survivors)));
      case Ok(None) =>
        return Continue(());
    }

    /** Whom a stage must deal with, and how it did. */
    predicate Due(stage: Stage, pid: nat) { stage == PrimaryTerm ==> IsPrimary(plan, pid) }

    ghost predicate Handled(stage: Stage, pid: nat, done: set<nat>, m: Monitor) {
      if stage == ExactKill then kind ==> Dead(m, pid) else pid in done
    }

    /** Every survivor among the first `n` targets that the stage must deal with. */
    ghost predicate Covered(stage: Stage, survivors: set<nat>, done: set<nat>, m: Monitor, n: nat)
      requires n <= |plan.targets|
    {
      forall k :: 0 <= k < n && plan.targets[k].identity.pid in survivors ==>
        Due(stage, plan.targets[k].identity.pid) ==> Handled(stage, plan.targets[k].identity.pid, done, m)
    }

    /** Who was not terminated when it should have been can only have reappeared. */
    ghost predicate Warranted(stage: Stage, survivors: set<nat>, termed: set<nat>, m: Monitor) {
      forall t :: t in plan.targets && t.identity.pid in survivors && t.identity.pid !in termed ==>
        stage == ExactKill || (stage == MemberTerm && IsPrimary(plan, t.identity.pid)) ==> m.reappeared
    }

    /** Target `i` of a stage: signalled if selected. */
    method StageStep(stage: Stage, survivors: map<nat, Identity>, done: set<nat>, i: nat) returns (flow: Flow<set<nat>>)
      requires i < |plan.targets| && Escalating(done, stage, i) && Warranted(stage, survivors.Keys, done, seen)
      requires AtStage(stage, survivors.Keys, seen)
      requires stage == PrimaryTerm && DistinctPids(plan) ==> plan.targets[i].identity.pid !in done
      modifies this
      ensures flow.Return? ==> Settles(flow.result)
      ensures flow.Continue? ==>
        && Escalating(flow.value, stage, i + 1) && Since(old(seen), seen) && SamePace(old(seen), seen)
        && (seen == old(seen) || Last(seen).Completed?)
        && done <= flow.value <= done + {plan.targets[i].identity.pid}
        && (plan.targets[i].identity.pid in survivors && Due(stage, plan.targets[i].identity.pid) ==>
              Handled(stage, plan.targets[i].identity.pid, flow.value, seen))
      ensures kind ==> flow.Continue?
    {
      hide Kept, Settles;
      var pid := plan.targets[i].identity.pid;
      assert plan.targets[i] in plan.targets;
      if !Selected(stage, pid, survivors, done) { return Continue(done); }
      var one := SignalOne(i, stage, survivors.Keys, done);
      if one.Return? { return Return(one.result); }
      return Continue(done + {pid});
    }

    /** One stage over the frozen targets, in plan order. */
    method RunStage(stage: Stage, survivors: map<nat, Identity>, termed: set<nat>) returns (flow: Flow<set<nat>>)
      requires Escalating(termed, stage, 0) && Warranted(stage, survivors.Keys, termed, seen)
      requires stage == PrimaryTerm ==> termed == {}
      requires AtStage(stage, survivors.Keys, seen)
      modifies this
      ensures flow.Return? ==> Settles(flow.result)
      ensures flow.Continue? ==>
        && Escalating(flow.value, stage, |plan.targets|) && Since(old(seen), seen) && SamePace(old(seen), seen)
        && Underway(stage, survivors.Keys, termed, flow.value, seen, |plan.targets|)
      ensures kind ==> flow.Continue?
    {
      hide Kept, Settles;
      var done := termed;
      for i := 0 to |plan.targets|
        invariant Escalating(done, stage, i) && Since(old(seen), seen) && SamePace(old(seen), seen)
        invariant seen == old(seen) || Last(seen).Completed?
        invariant Underway(stage, survivors.Keys, termed, done, seen, i)
      {
        ghost var before := seen;
        var step := StageStep(stage, survivors, done, i);
        if step.Return? { return Return(step.result); }
        StillUnderway(stage, survivors.Keys, termed, done, step.value, before, seen, i);
        done := step.value;
      }
      return Continue(done);
    }

    /** The first `i` targets are dealt with and the others are still to come. */
    ghost predicate Underway(stage: Stage, survivors: set<nat>, termed: set<nat>, done: set<nat>, m: Monitor, i: nat)
      requires i <= |plan.targets|
    {
      && termed <= done && Covered(stage, survivors, done, m, i) && Warranted(stage, survivors, done, m)
      && (stage == PrimaryTerm && DistinctPids(plan) ==>
            forall k :: i <= k < |plan.targets| ==> plan.targets[k].identity.pid !in done)
    }

    lemma StillUnderway(stage: Stage, survivors: set<nat>, termed: set<nat>, done: set<nat>, more: set<nat>,
                        m: Monitor, n: Monitor, i: nat)
      requires i < |plan.targets| && Underway(stage, survivors, termed, done, m, i) && Since(m, n)
      requires var pid := plan.targets[i].identity.pid;
        done <= more <= done + {pid} && (pid in survivors && Due(stage, pid) ==> Handled(stage, pid, more, n))
      ensures Underway(stage, survivors, termed, more, n, i + 1)
    {
    }

    /** The same, said of targets. */
    lemma CoveredTargets(stage: Stage, survivors: set<nat>, done: set<nat>, m: Monitor)
      requires Covered(stage, survivors, done, m, |plan.targets|)
      ensures forall t :: t in plan.targets && t.identity.pid in survivors && Due(stage, t.identity.pid) ==>
        Handled(stage, t.identity.pid, done, m)
    {
    }

    /** What one more row does to the discipline. */
    lemma StepDisciplined(before: Receipt, done: set<nat>, stage: Stage, i: nat)
      requires i < |plan.targets| && AtMostOneMore(before, IntentFor(i, stage))
      requires DistinctPids(plan) ==>
        && Progress(plan, env.fingerprint, before.actions, done, stage, i)
        && (stage == ExactKill <==> plan.targets[i].identity.pid in done)
        && (stage == PrimaryTerm ==> IsPrimary(plan, plan.targets[i].identity.pid))
      requires PrimariesFirst(plan, before.actions, seen.reappeared)
      requires stage == MemberTerm && IsPrimary(plan, plan.targets[i].identity.pid) ==> seen.reappeared
      ensures DisciplinedSoFar()
      ensures DistinctPids(plan) && |receipt.actions| == |before.actions| + 1 ==>
        Settled(receipt.actions[|before.actions|].disposition) ==>
        Progress(plan, env.fingerprint, receipt.actions, done + {plan.targets[i].identity.pid}, stage, i + 1)
    {
      if DistinctPids(plan) && receipt != before {
        var a := receipt.actions[|before.actions|];
        AppendDisciplined(plan, env.fingerprint, before.actions, done, stage, i, a);
        if Settled(a.disposition) { AppendProgress(plan, env.fingerprint, before.actions, done, stage, i, a); }
      }
    }

    /** The same for a row that could not be completed. */
    lemma OpenStepDisciplined(before: Receipt, done: set<nat>, stage: Stage, i: nat)
      requires Agrees() && i < |plan.targets| && OpenFor(before, IntentFor(i, stage))
      requires DistinctPids(plan) ==>
        && Progress(plan, env.fingerprint, before.actions, done, stage, i)
        && (stage == ExactKill <==> plan.targets[i].identity.pid in done)
        && (stage == PrimaryTerm ==> IsPrimary(plan, plan.targets[i].identity.pid))
      requires PrimariesFirst(plan, before.actions, seen.reappeared)
      requires stage == MemberTerm && IsPrimary(plan, plan.targets[i].identity.pid) ==> seen.reappeared
      ensures OpenDisciplined()
    {
      if DistinctPids(plan) && seen.bracket.sent.Some? {
        var a := Action(seen.bracket.intent, seen.bracket.sent.value);
        AppendDisciplined(plan, env.fingerprint, before.actions, done, stage, i, a);
      }
    }

    /** A wait that ran to its deadline, or the end of the run. */
    method Grace(duration: nat, survivors: set<nat>) returns (flow: Flow<()>)
      requires Live() && DisciplinedSoFar() && WaitDue(seen, duration)
      requires survivors == InHand(seen) && seen.artifactActions == []
      requires |seen.waits| + 1 == seen.stages || (seen.stages <= |seen.waits| && seen.view.Some?)
      modifies this`trace, this`seen, this`log
      ensures flow.Return? ==> Settles(flow.result)
      ensures flow.Continue? ==>
        Live() && seen == old(seen).(view := None, waits := old(seen).waits + [duration], tail := UNSTOPPED)
      ensures kind ==> flow.Continue?
    {
      hide Kept, Settles;
      var waited := WaitInterrupted(duration);
      if waited.Err? {
        RuntimeSettles();
        return Return(Err(waited.error));
      }
      if waited.value {
        FailSettles(DrainRequested, survivors);
        return Return(Ok(Fail(receipt, DrainRequested, survivors)));
      }
      return Continue(());
    }

    method SnapshotOrReturn() returns (flow: Flow<Snapshot>)
      requires Live() && DisciplinedSoFar()
      modifies this`trace, this`seen, this`log
      ensures flow.Return? ==> Settles(flow.result)
      ensures flow.Continue? ==>
        && Live() && JustTaken(seen, flow.value)
        && seen == old(seen).(
          view := seen.view, tail := seen.tail,
          reappeared := old(seen).reappeared || FrozenTargetListed(plan, old(seen).everNotRunning, flow.value))
      ensures kind ==> flow.Continue? && Lists(plan, old(seen), flow.value)
    {
      hide Kept, Settles;
      var snapshot := TakeSnapshot();
      if snapshot.None? {
        RuntimeSettles();
        return Return(Err(RuntimeError(receipt)));
      }
      return Continue(snapshot.value);
    }

    /** Snapshot and validation, as at the start of the run and after each grace. */
    method ObserveStage() returns (flow: Flow<map<nat, Identity>>)
      requires Live() && DisciplinedSoFar() && seen.stages < 3 && GracesOver(seen, 0)
      modifies this`trace, this`seen, this`log
      ensures flow.Return? ==> Settles(flow.result)
      ensures flow.Continue? ==>
        && Live() && StageValid(seen, flow.value) && Since(old(seen), seen)
        && seen.terminal == old(seen).terminal && seen.waits == old(seen).waits
        && StageCounted(old(seen), seen, flow.value) && (flow.value != map[] ==> AfterVerdictOrRow(seen))
        && forall t :: t in plan.targets && t.identity.pid in old(seen).everNotRunning && t.identity.pid in flow.value
             ==> seen.reappeared
      ensures kind ==> flow.Continue?
    {
      hide Kept, Settles;
      var shot := SnapshotOrReturn();
      if shot.Return? { return Return(shot.result); }
      var valid := ValidateStage(shot.value);
      if valid.Err? {
        FailSettles(valid.error, {});
        return Return(Ok(Fail(receipt, valid.error, {})));
      }
      return Continue(valid.value);
    }

    /** The liveness of every frozen target, or the end of the run. */
    method ObserveOrReturn(s: Snapshot) returns (flow: Flow<Liveness>)
      requires Live() && DisciplinedSoFar() && seen.view.Some? && seen.view.value.snapshot == s
      requires Observing(seen) && seen.view.value.running == {} && seen.stages <= |seen.waits|
      modifies this`trace, this`seen, this`log
      ensures flow.Return? ==> Settles(flow.result)
      ensures flow.Continue? ==> Live() && OnlyLookups(old(seen), seen) && Explains(seen, flow.value, |plan.targets|)
      ensures flow.Continue? ==> Observing(seen) && flow.value.survivors.Keys == Surviving(plan, seen.view.value)
      ensures kind && Tame(s) ==> flow.Continue? && AsListed(s, flow.value)
    {
      hide Kept, Settles;
      var observed := ObserveLiveness(s);
      if observed.Err? {
        FailSettles(observed.error, {});
        return Return(Ok(Fail(receipt, observed.error, {})));
      }
      return Continue(observed.value);
    }

    /** After the KILLs only liveness counts: nothing may be left. */
    method ObserveKilled() returns (flow: Flow<()>)
      requires Live() && DisciplinedSoFar() && seen.stages == 3 && GracesOver(seen, 0)
      requires kind ==> AllDead(plan, seen)
      modifies this`trace, this`seen, this`log
      ensures flow.Return? ==> Settles(flow.result)
      ensures flow.Continue? ==> Live() && Since(old(seen), seen) && SamePace(old(seen), seen) && seen.view.Some?
      ensures kind ==> flow.Continue?
    {
      hide Kept, Settles;
      var shot := SnapshotOrReturn();
      if shot.Return? { return Return(shot.result); }
      var observed := ObserveOrReturn(shot.value);
      if observed.Return? { return Return(observed.result); }
      if kind { NoneSurvive(shot.value, observed.value); }
      if observed.value.survivors != map[] {
        assert observed.value.survivors.Keys != {};
        OutlivedSettles(observed.value.survivors.Keys);
        return Return(Ok(Fail(receipt, SurvivorsAfterKill, observed.value.survivors.Keys)));
      }
      return Continue(());
    }

    lemma OutlivedSettles(survivors: set<nat>)
      requires Live() && DisciplinedSoFar() && seen.stages == 3 && GracesOver(seen, 0) && seen.view.Some?
      requires Last(seen).Snapshotted? || Last(seen).LookedUp?
      requires survivors == Surviving(plan, seen.view.value) != {}
      ensures Settles(Ok(Fail(receipt, SurvivorsAfterKill, survivors)))
    {
      hide Kept, Settles;
      assert Graces(policy)[..3] == Graces(policy);
      FailSettles(SurvivorsAfterKill, survivors);
    }

    lemma NoneSurvive(s: Snapshot, l: Liveness)
      requires AsListed(s, l) && NoneListed(plan, s)
      ensures l.survivors == map[]
    {
    }

    lemma NextStage(termed: set<nat>, stage: Stage, next: Stage)
      requires Escalating(termed, stage, |plan.targets|) && StageRank(stage) < StageRank(next)
      ensures Escalating(termed, next, 0)
    {
    }

    /** Every row so far is settled and the discipline holds: what the later
        phases need to know about the escalation. */
    ghost predicate Escalated()
      reads this
    {
      && Live() && DisciplinedSoFar() && seen.stages <= |seen.waits|
      && (forall i :: 0 <= i < |receipt.actions| ==> Settled(receipt.actions[i].disposition))
    }

    /** One TERM stage with its grace and the observation after it. */
    method TermStage(stage: Stage, grace: nat, survivors: map<nat, Identity>, termed: set<nat>)
        returns (flow: Flow<(map<nat, Identity>, set<nat>)>)
      requires Escalating(termed, stage, 0) && stage != ExactKill && Warranted(stage, survivors.Keys, termed, seen)
      requires stage == PrimaryTerm ==> termed == {}
      requires AtStage(stage, survivors.Keys, seen) && grace == Graces(policy)[StageRank(stage)]
      modifies this
      ensures flow.Return? ==> Settles(flow.result)
      ensures flow.Continue? ==>
        && Escalating(flow.value.1, stage, |plan.targets|) && StageValid(seen, flow.value.0) && Since(old(seen), seen)
        && termed <= flow.value.1
        && (forall t :: t in plan.targets && t.identity.pid in survivors && Due(stage, t.identity.pid) ==>
              t.identity.pid in flow.value.1)
        && forall t :: t in plan.targets && t.identity.pid in old(seen).everNotRunning && t.identity.pid in flow.value.0
             ==> seen.reappeared
      ensures flow.Continue? ==> Onward(stage, flow.value.0)
      ensures kind ==> flow.Continue?
    {
      hide Kept, Settles;
      var signalled := RunStage(stage, survivors, termed);
      if signalled.Return? { return Return(signalled.result); }
      CoveredTargets(stage, survivors.Keys, signalled.value, seen);
      NextGrace(seen, grace);
      var waited := Grace(grace, survivors.Keys);
      if waited.Return? { return Return(waited.result); }
      var observed := ObserveStage();
      if observed.Return? { return Return(observed.result); }
      return Continue((observed.value, signalled.value));
    }

    /** After a stage: either the next one is due, or no one is left to signal. */
    ghost predicate Onward(stage: Stage, survivors: map<nat, Identity>)
      reads this`seen
    {
      && (survivors == map[] ==> seen.stages == StageRank(stage) + 1 && GracesOver(seen, 0))
      && (survivors != map[] ==>
            && seen.stages == StageRank(stage) + 2 && GracesOver(seen, 1) && survivors.Keys == seen.listed
            && AfterVerdictOrRow(seen))
    }

    /** The grace of the current stage is the wait that is due. */
    lemma NextGrace(m: Monitor, grace: nat)
      requires m.stages > 0 && GracesOver(m, 1) && grace == Graces(policy)[m.stages - 1]
      ensures WaitDue(m, grace) && m.waits + [grace] == Graces(policy)[..m.stages]
    {
    }

    method KillStage(survivors: map<nat, Identity>, termed: set<nat>) returns (flow: Flow<()>)
      requires Escalating(termed, ExactKill, 0) && Warranted(ExactKill, survivors.Keys, termed, seen)
      requires forall t :: t in plan.targets && t.identity.pid !in survivors ==> t.identity.pid in seen.everNotRunning
      requires AtStage(ExactKill, survivors.Keys, seen)
      modifies this
      ensures flow.Return? ==> Settles(flow.result)
      ensures flow.Continue? ==>
        && Escalated() && receipt.artifactActions == [] && receipt.revivalChecks == 0 && Since(old(seen), seen)
        && GracesOver(seen, 0) && seen.view.Some?
      ensures kind ==> flow.Continue? && AllDead(plan, seen)
    {
      hide Kept, Settles;
      var signalled := RunStage(ExactKill, survivors, termed);
      if signalled.Return? { return Return(signalled.result); }
      CoveredTargets(ExactKill, survivors.Keys, signalled.value, seen);
      NextGrace(seen, policy.killGrace);
      var waited := Grace(policy.killGrace, survivors.Keys);
      if waited.Return? { return Return(waited.result); }
      flow := ObserveKilled();
    }

    // ---------------------------------------------------------------- revival and terminal proof

    /** The revalidator must call the tree Gone. */
    method JudgeGone(s: Snapshot) returns (flow: Flow<()>, ghost verdict: Verdict)
      requires Escalated() && VerdictDue(seen, s, RevivalCheck)
      modifies this`trace, this`seen, this`log
      ensures flow.Return? ==> Settles(flow.result)
      ensures seen == Judge(plan, policy, old(seen).(verdictReasons := old(seen).verdictReasons + {verdict.reason}),
        RevivalCheck, verdict).(tail := old(seen).tail + [Revalidated(s, RevivalCheck, verdict)])
      ensures Since(old(seen), seen)
      ensures flow.Continue? ==> Escalated() && verdict.status == Gone
      ensures kind ==> flow.Continue?
    {
      hide Kept, Settles;
      var v := Revalidate(s, RevivalCheck);
      verdict := v;
      match v.status
      case Gone => flow := Continue(());
      case Blocked =>
        FailSettles(v.reason, {});
        flow := Return(Ok(Fail(receipt, v.reason, {})));
      case Revived =>
        RevivedSettles(v.reason);
        flow := Return(Ok(receipt.(state := RevivedState, reason := Some(v.reason))));
      case Eligible =>
        RevivedSettles(v.reason);
        flow := Return(Ok(receipt.(state := RevivedState, reason := Some(v.reason))));
    }

    method WaitForSnapshot(duration: nat) returns (flow: Flow<Snapshot>)
      requires Live() && DisciplinedSoFar() && WaitDue(seen, duration) && seen.stages <= |seen.waits| && seen.view.Some?
      requires seen.artifactActions == []
      modifies this`trace, this`seen, this`log
      ensures flow.Return? ==> Settles(flow.result)
      ensures flow.Continue? ==>
        && Live() && DisciplinedSoFar() && Since(old(seen), seen) && seen.waits == old(seen).waits + [duration]
        && seen.stages == old(seen).stages && JustTaken(seen, flow.value)
      ensures kind ==> flow.Continue? && (AllDead(plan, old(seen)) ==> NoneListed(plan, flow.value))
    {
      hide Kept, Settles;
      var waited := Grace(duration, {});
      if waited.Return? { return Return(waited.result); }
      flow := SnapshotOrReturn();
    }

    /** The last snapshot, about which nothing was looked up yet. */
    ghost predicate Unexplored(m: Monitor, s: Snapshot) {
      m.view.Some? && m.view.value.snapshot == s && m.view.value.running == {} && Observing(m)
    }

    /** One revival window, waited out in full and ending in a Gone verdict. */
    method RevivalWindow(duration: nat) returns (flow: Flow<Snapshot>)
      requires Escalated() && receipt.artifactActions == [] && WaitDue(seen, duration) && seen.view.Some?
      modifies this
      ensures flow.Return? ==> Settles(flow.result)
      ensures flow.Continue? ==>
        && Escalated() && receipt == old(receipt).(revivalChecks := old(receipt).revivalChecks + 1)
        && seen.waits == old(seen).waits + [duration] && |old(seen).waits| in seen.ended && Since(old(seen), seen)
        && seen.stages == old(seen).stages && Unexplored(seen, flow.value)
      ensures kind ==> flow.Continue? && (AllDead(plan, old(seen)) ==> NoneListed(plan, flow.value))
    {
      hide Kept, Settles;
      var shot := WaitForSnapshot(duration);
      if shot.Return? { return Return(shot.result); }
      receipt := receipt.(revivalChecks := receipt.revivalChecks + 1);
      var gone, verdict := JudgeGone(shot.value);
      if gone.Return? { return Return(gone.result); }
      return Continue(shot.value);
    }

    method RevivalWindows() returns (flow: Flow<Option<Snapshot>>)
      requires Escalated() && receipt.artifactActions == [] && receipt.revivalChecks == 0 && GracesOver(seen, 0)
      requires seen.view.Some?
      modifies this
      ensures flow.Return? ==> Settles(flow.result)
      ensures flow.Continue? ==>
        && Escalated() && receipt == old(receipt).(revivalChecks := |policy.windows|)
        && WindowsPassed(policy, seen) && Since(old(seen), seen)
        && (flow.value.Some? ==> Unexplored(seen, flow.value.value))
      ensures kind && AllDead(plan, old(seen)) ==>
        flow.Continue? && (flow.value.Some? ==> NoneListed(plan, flow.value.value))
    {
      hide Kept, Settles;
      var last: Option<Snapshot> := None;
      for k := 0 to |policy.windows|
        invariant Escalated() && receipt == old(receipt).(revivalChecks := k)
        invariant seen.stages == old(seen).stages && seen.view.Some?
        invariant seen.waits == old(seen).waits + policy.windows[..k] && Since(old(seen), seen)
        invariant forall j :: |old(seen).waits| <= j < |seen.waits| ==> j in seen.ended
        invariant last.Some? ==> Unexplored(seen, last.value)
        invariant kind && AllDead(plan, old(seen)) && last.Some? ==> NoneListed(plan, last.value)
      {
        NextWindow(seen, k);
        var window := RevivalWindow(policy.windows[k]);
        if window.Return? { return Return(window.result); }
        last := Some(window.value);
      }
      assert policy.windows[..|policy.windows|] == policy.windows;
      return Continue(last);
    }

    /** The next window is the wait that is due. */
    lemma NextWindow(m: Monitor, k: nat)
      requires k < |policy.windows| && m.stages <= 3 && m.waits == Graces(policy)[..m.stages] + policy.windows[..k]
      ensures WaitDue(m, policy.windows[k])
    {
      assert m.waits + [policy.windows[k]] == Graces(policy)[..m.stages] + policy.windows[..k + 1];
      assert policy.windows == policy.windows[..k + 1] + policy.windows[k + 1..];
    }

    /** Who survives in a snapshot that the revalidator calls Gone. */
    method SurvivorsOfGone(s: Snapshot) returns (flow: Flow<set<nat>>)
      requires Escalated() && Unexplored(seen, s)
      requires kind ==> NoneListed(plan, s)
      modifies this`trace, this`seen, this`log
      ensures flow.Return? ==> Settles(flow.result)
      ensures flow.Continue? ==> Escalated() && Since(old(seen), seen) && LeftWhenGone(seen, flow.value)
      ensures flow.Continue? && flow.value == {} ==>
        TreeGone(plan, seen) && (WindowsPassed(policy, old(seen)) ==> seen.terminal)
      ensures kind ==> flow == Continue({})
    {
      hide Kept, Settles;
      var observed := ObserveOrReturn(s);
      if observed.Return? { return Return(observed.result); }
      ghost var before := seen;
      var gone, verdict := JudgeGone(s);
      if gone.Return? { return Return(gone.result); }
      if kind { NoneSurvive(s, observed.value); }
      if observed.value.survivors.Keys == {} { AbsentWhenNoneSurvive(before, observed.value); }
      return Continue(observed.value.survivors.Keys);
    }

    /** The last call was a Gone verdict, on a snapshot in which these survive. */
    ghost predicate LeftWhenGone(m: Monitor, survivors: set<nat>) {
      && m.tail != [] && Last(m).Revalidated? && Last(m).phase.RevivalCheck? && Last(m).verdict.status.Gone?
      && m.view.Some? && survivors == Surviving(plan, m.view.value)
    }

    /** Exact absence of every frozen target and a Gone verdict on one snapshot. */
    method ProveGone(s: Snapshot, notGone: Reason) returns (flow: Flow<()>)
      requires Escalated() && Unexplored(seen, s)
      requires notGone == if seen.artifactActions == [] then TerminalTreeNotGone else PostArtifactTreeNotGone
      requires kind ==> NoneListed(plan, s)
      modifies this`trace, this`seen, this`log
      ensures flow.Return? ==> Settles(flow.result)
      ensures flow.Continue? ==>
        && Escalated() && TreeGone(plan, seen) && Since(old(seen), seen) && LeftWhenGone(seen, {})
        && (WindowsPassed(policy, old(seen)) ==> seen.terminal)
      ensures kind ==> flow.Continue?
    {
      hide Kept, Settles;
      var survivors := SurvivorsOfGone(s);
      if survivors.Return? { return Return(survivors.result); }
      if survivors.value != {} {
        FailSettles(notGone, survivors.value);
        return Return(Ok(Fail(receipt, notGone, survivors.value)));
      }
      return Continue(());
    }

    lemma AbsentWhenNoneSurvive(m: Monitor, l: Liveness)
      requires m.view.Some? && Explains(m, l, |plan.targets|) && l.survivors.Keys == {}
      ensures TreeAbsent(plan, m.view.value)
    {
      forall t | t in plan.targets
        ensures ByPid(m.view.value.snapshot, t.identity.pid).None? && t.identity.pid in m.view.value.notRunning
      {
        var i :| 0 <= i < |plan.targets| && plan.targets[i] == t;
        assert Explained(m, l, plan.targets[i].identity);
      }
    }

    // ---------------------------------------------------------------- artifacts

    /** Freezes every candidate before anything is signalled. */
    method FreezeAll() returns (r: Result<seq<Freeze>, CleanupError>)
      requires Live() && !seen.terminal
      requires receipt.artifactActions == []
      requires receipt.actions == []
      modifies this`trace, this`seen, this`log
      ensures Quiet() && Since(old(seen), seen) && seen.view == old(seen).view && SamePace(old(seen), seen)
      ensures r.Err? ==> r.error == RuntimeError(receipt) && Faulty(seen)
      ensures r.Ok? ==> Live() && Frozenness(r.value)
      ensures kind ==> r.Ok? && FrozenKindly(r.value)
      ensures Untouched(seen)
    {
      hide Kept;
      var frozen: seq<Freeze> := [];
      for i := 0 to |plan.artifacts|
        invariant Live() && receipt.actions == [] && !seen.terminal && Since(old(seen), seen)
        invariant seen.view == old(seen).view && SamePace(old(seen), seen)
        invariant |frozen| == i
        invariant forall k :: 0 <= k < i ==> (plan.artifacts[k], frozen[k]) in seen.freezes
        invariant receipt.artifactActions == []
        invariant kind ==>
          forall k :: 0 <= k < i ==> env.freeze([], plan.artifacts[k]) == Some(frozen[k]) && !frozen[k].Unsafe?
      {
        var f := FreezeArtifact(plan.artifacts[i]);
        if f.None? { return Err(RuntimeError(receipt)); }
        frozen := frozen + [f.value];
      }
      return Ok(frozen);
    }

    ghost predicate Frozenness(frozen: seq<Freeze>)
      reads this
    {
      && |frozen| == |plan.artifacts|
      && forall k :: 0 <= k < |frozen| ==> (plan.artifacts[k], frozen[k]) in seen.freezes
    }

    /** Nothing frozen is unsafe, and what was absent was so from the start. */
    ghost predicate FrozenKindly(frozen: seq<Freeze>) {
      |frozen| == |plan.artifacts| && forall k :: 0 <= k < |frozen| ==> Kindly(plan.artifacts[k], frozen[k])
    }

    ghost predicate Kindly(c: Candidate, f: Freeze) {
      !f.Unsafe? && (f.Absent? ==> env.freeze([], c) == Some(Absent))
    }

    method CompleteArtifact(c: Candidate, id: string, d: ArtifactDisposition) returns (e: Option<CleanupError>)
      requires Agrees() && Proved() && seen.bracket.OpenArtifact? && seen.bracket.id == id
      requires seen.bracket.fingerprint == c.fingerprint && TruthfulArtifact(seen, d)
      requires Clockable(seen) && |seen.artifactActions| < |plan.artifacts|
      modifies this
      ensures Agrees() && Proved()
      ensures e.None? ==> CompletedCleanup(d) || Blames(plan, seen, ArtifactFailureReason(d))
      ensures e.None? ==>
        && Quiet()
        && receipt == old(receipt).(
          artifactActions := old(receipt).artifactActions + [ArtifactAction(c.fingerprint, d)])
        && seen == old(seen).(bracket := Closed, artifactActions := receipt.artifactActions,
                              tail := old(seen).tail + [ClockRead(true), CompletedArtifact(id, d, true)])
      ensures e.Some? ==> receipt == old(receipt) && seen == old(seen).(tail := seen.tail) && LeftOpen(e.value)
      ensures kind ==> e.None?
    {
      hide Kept;
      var ok := ReadClock();
      if !ok { return Some(AttemptOpen(receipt, id)); }
      ok := JournalCompleteArtifact(id, d);
      if !ok { return Some(AttemptOpen(receipt, id)); }
      receipt := receipt.(artifactActions := receipt.artifactActions + [ArtifactAction(c.fingerprint, d)]);
      assert seen.tail == old(seen).tail + [ClockRead(true), CompletedArtifact(id, d, true)];
      return None;
    }

    /** How one artifact ended.  A completed cleanup is on the receipt as such. */
    ghost predicate Reconciles(before: Receipt, c: Candidate, r: Result<ArtifactDisposition, CleanupError>)
      reads this
    {
      && Proved() && receipt.actions == before.actions
      && match r
         case Ok(d) =>
           && Quiet()
           && (CompletedCleanup(d) ==>
                 && Live()
                 && receipt == before.(artifactActions := before.artifactActions + [ArtifactAction(c.fingerprint, d)]))
           && (!CompletedCleanup(d) ==> Blames(plan, seen, ArtifactFailureReason(d)) && InHand(seen) == {})
         case Err(Runtime(_)) => Quiet() && r.error == RuntimeError(receipt) && Faulty(seen)
         case Err(AttemptOpen(_, _)) => LeftOpen(r.error) && seen.bracket.OpenArtifact?
    }

    /** This is the next candidate, and this is how it was seen before anything was done. */
    ghost predicate NextArtifact(c: Candidate, frozen: Freeze)
      reads this`seen
    {
      && |seen.artifactActions| < |plan.artifacts| && plan.artifacts[|seen.artifactActions|] == c
      && (c, frozen) in seen.freezes
    }

    method ExecuteArtifact(c: Candidate, frozen: Freeze) returns (r: Result<ArtifactDisposition, CleanupError>)
      requires Live() && Proved() && NextArtifact(c, frozen) && (seen.view.Some? || seen.artifactActions != [])
      modifies this
      ensures Reconciles(old(receipt), c, r) && Since(old(seen), seen)
      ensures kind && Kindly(c, frozen) ==> r.Ok? && CompletedCleanup(r.value)
    {
      hide Kept;
      var stop := PollStop();
      if stop { return Ok(ArtifactCancelled); }
      var now := frozen;
      if frozen.Absent? {
        // Absence at planning time never authorises removing what appears later.
        var again := FreezeArtifact(c);
        if again.None? { return Err(RuntimeError(receipt)); }
        now := again.value;
      }
      var prepared := OpenArtifactRow(c);
      if prepared.None? { return Err(RuntimeError(receipt)); }
      r := ReconcilePrepared(c, frozen, now, prepared.value);
    }

    /** The clock and the PREPARED row of an artifact. */
    method OpenArtifactRow(c: Candidate) returns (id: Option<string>)
      requires Live() && Proved() && PolledFor(c)
      requires |seen.artifactActions| < |plan.artifacts| && plan.artifacts[|seen.artifactActions|] == c
      modifies this`trace, this`seen, this`log
      ensures Agrees() && Proved() && Since(old(seen), seen) && !seen.stopped
      ensures seen.artifactActions == old(seen).artifactActions && seen.lastFreeze == old(seen).lastFreeze
      ensures id.None? ==> Quiet() && Faulty(seen)
      ensures id.Some? ==> seen.bracket == OpenArtifact(id.value, c.fingerprint, None) && Pollable(seen)
      ensures kind ==> id.Some?
    {
      hide Kept;
      var ok := ReadClock();
      if !ok { return None; }
      assert seen.tail == old(seen).tail + [ClockRead(true)];
      id := JournalPrepareArtifact(c.fingerprint);
    }

    /** A poll, and perhaps one look at the candidate. */
    ghost predicate PolledFor(c: Candidate)
      reads this`seen
    {
      seen.tail == UNSTOPPED || exists f :: seen.tail == UNSTOPPED + [Froze(c, f)]
    }

    /** The part of an artifact action that runs under its PREPARED row. */
    method ReconcilePrepared(c: Candidate, frozen: Freeze, now: Freeze, id: string)
        returns (r: Result<ArtifactDisposition, CleanupError>)
      requires Agrees() && Proved() && !seen.stopped && seen.bracket == OpenArtifact(id, c.fingerprint, None)
      requires NextArtifact(c, frozen) && Pollable(seen)
      requires frozen.Absent? ==> seen.lastFreeze == Some((c, now))
      requires kind && Kindly(c, frozen) && frozen.Absent? ==> now.Absent?
      modifies this
      ensures Reconciles(old(receipt), c, r) && Since(old(seen), seen)
      ensures kind && Kindly(c, frozen) ==> r.Ok? && CompletedCleanup(r.value)
    {
      hide Kept;
      var d := Remove(c, frozen, now);
      var e := CompleteArtifact(c, id, d);
      if e.Some? { return Err(e.value); }
      if !CompletedCleanup(d) { return Ok(d); }
      assert seen.artifactActions[|seen.artifactActions| - 1].fingerprint == c.fingerprint;
      r := ProveArtifactGone(c, d);
    }

    /** Removes what was frozen, and nothing else. */
    method Remove(c: Candidate, frozen: Freeze, now: Freeze) returns (d: ArtifactDisposition)
      requires Agrees() && Proved() && !seen.stopped && seen.bracket.OpenArtifact? && seen.bracket.removal.None?
      requires seen.bracket.fingerprint == c.fingerprint && NextArtifact(c, frozen) && Pollable(seen)
      requires frozen.Absent? ==> seen.lastFreeze == Some((c, now))
      modifies this`trace, this`seen, this`log
      ensures Agrees() && Proved() && Since(old(seen), seen) && Clockable(seen)
      ensures seen.bracket.OpenArtifact? && seen.bracket.id == old(seen).bracket.id
      ensures seen.bracket.fingerprint == c.fingerprint && TruthfulArtifact(seen, d)
      ensures seen.artifactActions == old(seen).artifactActions && (CompletedCleanup(d) ==> !seen.stopped)
      ensures kind && Kindly(c, frozen) && (frozen.Absent? ==> now.Absent?) ==> CompletedCleanup(d)
    {
      hide Kept;
      var stop := PollStop();
      if stop { return ArtifactCancelled; }
      match frozen
      case Frozen(artifact) => d := Unlink(artifact);
      case Absent => d := Reobserved(now, AlreadyAbsent);
      case Unsafe => d := ArtifactUnsafe;
    }

    /** Removal counts only once the canonical path is proved absent. */
    method ProveArtifactGone(c: Candidate, d: ArtifactDisposition)
        returns (r: Result<ArtifactDisposition, CleanupError>)
      requires Quiet() && !seen.stopped && Proved() && CompletedCleanup(d)
      requires RowOf(seen, c) && seen.artifactActions[|seen.artifactActions| - 1].fingerprint == c.fingerprint
      requires seen.tail != [] && OwesAbsence(seen)
      modifies this`trace, this`seen, this`log
      ensures Quiet() && Proved() && Since(old(seen), seen) && seen.artifactActions == old(seen).artifactActions
      ensures r.Err? ==> r.error == RuntimeError(receipt) && Faulty(seen)
      ensures r.Ok? ==> (CompletedCleanup(r.value) ==> r.value == d && Live())
      ensures r.Ok? && !CompletedCleanup(r.value) ==> Blames(plan, seen, ArtifactFailureReason(r.value))
      ensures r.Ok? && !CompletedCleanup(r.value) ==> InHand(seen) == {}
      ensures kind ==> r == Ok(d)
    {
      hide Kept;
      var last := FreezeArtifact(c);
      if last.None? { return Err(RuntimeError(receipt)); }
      return Ok(Reobserved(last.value, d));
    }

    ghost predicate AllReconciled()
      reads this
    {
      forall i :: 0 <= i < |receipt.artifactActions| ==> CompletedCleanup(receipt.artifactActions[i].disposition)
    }

    method ReconcileArtifacts(frozen: seq<Freeze>) returns (flow: Flow<()>)
      requires Escalated() && Proved() && receipt.artifactActions == [] && Frozenness(frozen) && seen.view.Some?
      modifies this
      ensures flow.Return? ==> Settles(flow.result)
      ensures flow.Continue? ==>
        Escalated() && Proved() && AllReconciled() && (plan.artifacts == [] ==> seen == old(seen))
      ensures flow.Continue? ==> Since(old(seen), seen) && |seen.artifactActions| == |plan.artifacts|
      ensures kind && FrozenKindly(frozen) ==> flow.Continue?
    {
      hide Kept, Settles;
      for i := 0 to |plan.artifacts|
        invariant Escalated() && Proved() && AllReconciled() && Frozenness(frozen)
        invariant (i == 0 ==> seen == old(seen)) && |seen.artifactActions| == i
        invariant Since(old(seen), seen)
      {
        var r := ExecuteArtifact(plan.artifacts[i], frozen[i]);
        match r
        case Err(error) =>
          if error.Runtime? { RuntimeSettles(); } else { OpenSettles(error); }
          return Return(Err(error));
        case Ok(d) =>
          if !CompletedCleanup(d) {
            FailSettles(ArtifactFailureReason(d), {});
            return Return(Ok(Fail(receipt, ArtifactFailureReason(d), {})));
          }
      }
      return Continue(());
    }

    // ---------------------------------------------------------------- the run

    /** The three stages, each only while something survives. */
    method Escalate(initial: map<nat, Identity>) returns (flow: Flow<()>)
      requires Escalating({}, PrimaryTerm, 0) && StageValid(seen, initial) && seen.waits == []
      requires if initial == map[] then seen.stages == 0 else seen.stages == 1 && seen.listed == initial.Keys
      modifies this
      ensures flow.Return? ==> Settles(flow.result)
      ensures flow.Continue? ==>
        && Escalated() && receipt.artifactActions == [] && receipt.revivalChecks == 0 && Since(old(seen), seen)
        && GracesOver(seen, 0) && seen.view.Some?
      ensures kind ==> flow.Continue? && AllDead(plan, seen)
    {
      hide Kept, Settles;
      if initial == map[] { return Continue(()); }
      var primary := TermStage(PrimaryTerm, policy.primaryGrace, initial, {});
      if primary.Return? { return Return(primary.result); }
      var (survivors, termed) := primary.value;
      if survivors == map[] { return Continue(()); }
      NextStage(termed, PrimaryTerm, MemberTerm);
      var members := TermStage(MemberTerm, policy.memberGrace, survivors, termed);
      if members.Return? { return Return(members.result); }
      if members.value.0 == map[] { return Continue(()); }
      NextStage(members.value.1, MemberTerm, ExactKill);
      flow := KillStage(members.value.0, members.value.1);
    }

    /** The final receipt of a cleared tree. */
    function Clear(r: Receipt): Receipt {
      var cleared := r.(state := Cleared);
      cleared.(reason := Some(
        if EndedWithoutIntervention(cleared) then TreeGoneWithoutSignal
        else if cleared.artifactActions == [] then TreeGoneNoRevival
        else TreeGoneArtifactsReconciled))
    }

    lemma ClearSettles()
      requires Escalated() && Proved() && AllReconciled() && TreeGone(plan, seen) && LeftWhenGone(seen, {})
      requires |seen.artifactActions| == |plan.artifacts|
      ensures Settles(Ok(Clear(receipt)))
    {
      hide Kept;
    }

    method ClearTree(frozen: seq<Freeze>) returns (result: ExecResult)
      requires Escalated() && receipt.artifactActions == [] && receipt.revivalChecks == 0 && Frozenness(frozen)
      requires GracesOver(seen, 0) && seen.view.Some?
      requires kind ==> AllDead(plan, seen) && FrozenKindly(frozen)
      modifies this
      ensures Settles(result)
      ensures kind ==> result.Ok? && result.value.state == Cleared
    {
      hide Kept, Settles;
      var windows := RevivalWindows();
      if windows.Return? { return windows.result; }
      var last := windows.value;
      if last.None? {
        var shot := SnapshotOrReturn();
        if shot.Return? { return shot.result; }
        last := Some(shot.value);
      }
      var gone := ProveGone(last.value, TerminalTreeNotGone);
      if gone.Return? { return gone.result; }
      result := ClearArtifacts(frozen);
    }

    /** Artifacts, and a second proof of absence if there were any. */
    method ClearArtifacts(frozen: seq<Freeze>) returns (result: ExecResult)
      requires Escalated() && Proved() && TreeGone(plan, seen) && receipt.artifactActions == [] && Frozenness(frozen)
      requires LeftWhenGone(seen, {})
      requires kind ==> AllDead(plan, seen) && FrozenKindly(frozen)
      modifies this
      ensures Settles(result)
      ensures kind ==> result.Ok? && result.value.state == Cleared
    {
      hide Kept, Settles;
      var reconciled := ReconcileArtifacts(frozen);
      if reconciled.Return? { return reconciled.result; }
      if plan.artifacts != [] {
        var shot := SnapshotOrReturn();
        if shot.Return? { return shot.result; }
        var gone := ProveGone(shot.value, PostArtifactTreeNotGone);
        if gone.Return? { return gone.result; }
      }
      ClearSettles();
      return Ok(Clear(receipt));
    }

    method Execute() returns (result: ExecResult)
      requires trace == [] && receipt == FRESH && seen == INITIAL && Kept()
      modifies this
      ensures Settles(result)
      ensures kind ==> result.Ok? && result.value.state == Cleared
    {
      hide Kept, Settles;
      var stop := PollStop();
      if stop {
        FailSettles(DrainRequested, {});
        return Ok(Fail(receipt, DrainRequested, {}));
      }
      var observed := ObserveStage();
      if observed.Return? { return observed.result; }
      var frozen := FreezeAll();
      if frozen.Err? {
        RuntimeSettles();
        return Err(frozen.error);
      }
      var escalated := Escalate(observed.value);
      if escalated.Return? { return escalated.result; }
      result := ClearTree(frozen.value);
    }
  }

  /** One whole cleanup run: its result and every call it made, in order. Whatever the
      environment does the guarantee holds; and an obliging one gets its tree cleared. */
  method Execute(env: Env, plan: Plan, policy: Policy) returns (result: ExecResult, trace: Trace)
    ensures Obliging(env, plan, policy) ==> result.Ok? && result.value.state == Cleared
    ensures Answers(env, trace)
    ensures Guarantee(plan, policy, env.fingerprint, result, Watch(plan, policy, trace))
  {
    var run := new Execution(env, plan, policy);
    result := run.Execute();
    LoggedIsWatch(plan, policy, run.trace, run.log, run.seen);
    trace := run.trace;
  }
}
