/** Why a run ended: what its last calls say about its result. */
module CleanupEnding {
  import opened Wrappers
  import opened CleanupTypes
  import opened CleanupMonitor
  import opened CleanupEscalation
  import opened CleanupGuarantee
  import opened CleanupTrace
  import opened CleanupTheorems
  import opened CleanupOrder

  // ------------------------------------------------------------------ the last call

  /** The calls since the last stop poll are the end of the trace. */
  lemma LastCalls(plan: Plan, policy: Policy, fp: Identity -> string, result: ExecResult, trace: Trace) returns (p: nat)
    requires Guarantee(plan, policy, fp, result, Watch(plan, policy, trace))
    ensures p < |trace| && trace[p].StopPolled? && Watch(plan, policy, trace).tail == trace[p..]
    ensures forall k :: p < k < |trace| ==> !trace[k].StopPolled?
  {
    hide Watch, Guarantee;
    var log := LogExists(plan, policy, trace);
    Lawful(plan, policy, fp, result, log[|trace|]);
    if trace == [] { UntriedTail(plan, policy, trace, log); }
    p := TailIs(plan, policy, trace, log, |trace|);
    assert trace[p..|trace|] == trace[p..];
  }

  predicate FailedWith(result: ExecResult, reason: Reason) {
    result.Ok? && result.value.state == Failed && result.value.reason == Some(reason)
  }

  predicate FailedWithOneOf(result: ExecResult, reasons: set<Reason>) {
    result.Ok? && result.value.state == Failed && result.value.reason.Some? && result.value.reason.value in reasons
  }

  predicate RuntimeFailure(result: ExecResult) {
    result.Err? && result.error.Runtime? && result.error.terminal.reason == Some(RuntimeFailed)
  }

  predicate LeftOpen(result: ExecResult) { result.Err? && result.error.AttemptOpen? }

  /** What a last verdict says. */
  predicate VerdictSays(result: ExecResult, phase: Phase, verdict: Verdict) {
    match (phase, verdict.status)
    case (BeforeSignal, Eligible) => FailedWith(result, KillWithoutTerm)
    case (BeforeSignal, Gone) => FailedWith(result, RevalidatorGoneWithSurvivors)
    case (BeforeSignal, Blocked) => FailedWith(result, verdict.reason)
    case (BeforeSignal, Revived) => FailedWith(result, verdict.reason)
    case (RevivalCheck, Gone) =>
      || (result.Ok? && result.value.state == Cleared)
      || FailedWithOneOf(result, {IdentityChanged, SnapshotTargetInconsistent, TerminalTreeNotGone,
        PostArtifactTreeNotGone})
    case (RevivalCheck, Blocked) => FailedWith(result, verdict.reason)
    case (RevivalCheck, _) =>
      result.Ok? && result.value.state == RevivedState && result.value.reason == Some(verdict.reason)
  }

  predicate ArtifactSays(result: ExecResult, d: ArtifactDisposition) {
    match d
    case Removed => false
    case AlreadyAbsent => false
    case ArtifactIdentityMismatch => FailedWith(result, ArtifactIdentityChanged)
    case Referenced => FailedWith(result, ArtifactLiveReference)
    case ArtifactUnsafe => FailedWith(result, ArtifactUnsafeReason)
    case ArtifactRejected => FailedWith(result, ArtifactRejectedReason)
    case ArtifactCancelled => FailedWith(result, DrainRequested)
    case ArtifactDeliveryUnknown => FailedWith(result, ArtifactUnknownReason)
  }

  /** What the last call of a run says about its result. */
  predicate Says(result: ExecResult, last: Event) {
    match last
    case StopPolled(stop) => stop && FailedWith(result, DrainRequested)
    case Snapshotted(shot) =>
      if shot.None? then RuntimeFailure(result)
      else FailedWithOneOf(result, {IdentityChanged, SnapshotTargetInconsistent, SurvivorsAfterKill})
    case LookedUp(_, answer) =>
      if answer.LookupFailed? then FailedWith(result, TargetLookupIncomplete)
      else FailedWithOneOf(result, {IdentityChanged, SnapshotTargetInconsistent, SurvivorsAfterKill})
    case Revalidated(_, phase, verdict) => VerdictSays(result, phase, verdict)
    case ClockRead(ok) => !ok && (RuntimeFailure(result) || LeftOpen(result))
    case Prepared(_, id) => id.None? && RuntimeFailure(result)
    case Signalled(_, _, _) => false
    case Completed(_, _, ok) =>
      if ok then RuntimeFailure(result) || (result.Ok? && result.value.state == Failed) else LeftOpen(result)
    case Waited(_, outcome) =>
      match outcome {
        case DeadlineReached => false
        case Interrupted => FailedWith(result, DrainRequested)
        case WaitFailed => RuntimeFailure(result)
      }
    case Froze(_, freeze) =>
      if freeze.None? then RuntimeFailure(result)
      else match freeze.value {
        case Frozen(_) => FailedWith(result, ArtifactIdentityChanged)
        case Unsafe => FailedWith(result, ArtifactUnsafeReason)
        case Absent => false
      }
    case PreparedArtifact(_, id) => id.None? && RuntimeFailure(result)
    case Unlinked(_, _) => false
    case CompletedArtifact(_, d, ok) => if ok then ArtifactSays(result, d) else LeftOpen(result)
  }

  lemma LastTells(plan: Plan, policy: Policy, result: ExecResult, m: Monitor)
    requires Concludes(plan, policy, result, m) && JournalAgrees(result, m)
    ensures Says(result, Last(m))
  {
    hide Mismatched, OmittedAlive, Surviving;
  }

  /** Every run ends with the result that its last call calls for. */
  lemma TheLastCallTells(plan: Plan, policy: Policy, fp: Identity -> string, result: ExecResult, trace: Trace)
    requires Guarantee(plan, policy, fp, result, Watch(plan, policy, trace))
    ensures trace != [] && Says(result, trace[|trace| - 1])
  {
    hide Watch, Guarantee, Says;
    var p := LastCalls(plan, policy, fp, result, trace);
    var m := Watch(plan, policy, trace);
    Lawful(plan, policy, fp, result, m);
    LastTells(plan, policy, result, m);
  }

  // ------------------------------------------------------------------ stopping

  /** Once a poll says stop, at most the open row is completed, and the run ends as
      drained unless that row cannot be completed. */
  lemma StopEndsTheRun(plan: Plan, policy: Policy, fp: Identity -> string, result: ExecResult, trace: Trace, k: nat)
    requires Guarantee(plan, policy, fp, result, Watch(plan, policy, trace))
    requires k < |trace| && trace[k] == StopPolled(true)
    ensures |trace| <= k + 3
    ensures FailedWith(result, DrainRequested) || LeftOpen(result)
  {
    hide Watch, Guarantee, Advance, InTurn, InPlace;
    var log := LogExists(plan, policy, trace);
    Lawful(plan, policy, fp, result, log[|trace|]);
    LawfulStep(plan, policy, trace, log, k);
    EffectAllowed(plan, policy, log[k], trace[k]);
    Lasts(plan, policy, trace, log, k + 1, |trace|);
    StoppingThroughout(plan, policy, trace, log, |trace|);
    var p := LastCalls(plan, policy, fp, result, trace);
    if k < p { NoPollAfterStop(plan, policy, trace, log, k, p); }
    StoppedResult(plan, policy, result, log[|trace|]);
  }

  lemma NoPollAfterStop(plan: Plan, policy: Policy, trace: Trace, log: seq<Monitor>, k: nat, p: nat)
    requires Logs(plan, policy, trace, log) && log[|trace|].lawful && k < p < |trace| && trace[k] == StopPolled(true)
    ensures !trace[p].StopPolled?
  {
    hide Advance, InTurn, InPlace;
    LawfulStep(plan, policy, trace, log, k);
    EffectAllowed(plan, policy, log[k], trace[k]);
    Lasts(plan, policy, trace, log, k + 1, p);
    Lasts(plan, policy, trace, log, p, p + 1);
    LawfulStep(plan, policy, trace, log, p);
    NotingThroughout(plan, policy, trace, log, p);
    StoppingThroughout(plan, policy, trace, log, p);
    StoppingStep(plan, policy, log[p], trace[p]);
  }

  lemma StoppedResult(plan: Plan, policy: Policy, result: ExecResult, m: Monitor)
    requires Concludes(plan, policy, result, m) && JournalAgrees(result, m) && Stopping(m)
    ensures FailedWith(result, DrainRequested) || LeftOpen(result)
  {
  }

  // ------------------------------------------------------------------ who outlived the KILLs

  /** The snapshot `s` that decides that somebody outlived the KILLs was taken after all
      three graces, nothing was done after it, and the survivors named are those that it
      lists, or that were found running afterwards. */
  ghost predicate OutlivedAt(plan: Plan, policy: Policy, trace: Trace, survivors: set<nat>, s: nat) {
    && s < |trace| && trace[s].Snapshotted? && trace[s].result.Some?
    && CompletedWaits(trace, s) == Graces(policy)
    && (forall k :: s < k < |trace| ==> !Opens(trace[k]) && !Acts(trace[k]))
    && survivors != {}
    && forall pid :: pid in survivors <==> SurvivesAt(plan, trace, s, pid)
  }

  ghost predicate SurvivesAt(plan: Plan, trace: Trace, s: nat, pid: nat)
    requires s < |trace| && trace[s].Snapshotted? && trace[s].result.Some?
  {
    exists t :: t in plan.targets && t.identity.pid == pid
      && (ByPid(trace[s].result.value, pid).Some? || FoundRunning(trace, s, |trace|, pid))
  }

  /** Survivors of the KILLs are reported only after the whole kill grace. */
  lemma SurvivorsOutlivedTheGrace(plan: Plan, policy: Policy, fp: Identity -> string, result: ExecResult, trace: Trace)
    requires Guarantee(plan, policy, fp, result, Watch(plan, policy, trace))
    requires FailedWith(result, SurvivorsAfterKill) && !RevalidatorSaid(trace, SurvivorsAfterKill)
    ensures exists s :: OutlivedAt(plan, policy, trace, result.value.survivors, s)
  {
    hide Watch, Guarantee, Advance;
    var log := LogExists(plan, policy, trace);
    var m := log[|trace|];
    Lawful(plan, policy, fp, result, m);
    var p := LastCalls(plan, policy, fp, result, trace);
    NotBlamed(plan, policy, result, m, trace, p);
    var q, s := Remembered(plan, policy, trace, log, |trace|);
    SurvivorsFound(plan, policy, trace, log, m.view.value, s);
    assert OutlivedAt(plan, policy, trace, result.value.survivors, s);
  }

  lemma NotBlamed(plan: Plan, policy: Policy, result: ExecResult, m: Monitor, trace: Trace, p: nat)
    requires Concludes(plan, policy, result, m) && p < |trace| && m.tail == trace[p..]
    requires FailedWith(result, SurvivorsAfterKill) && !RevalidatorSaid(trace, SurvivorsAfterKill)
    ensures m.waits == Graces(policy) && m.view.Some?
    ensures result.value.survivors == Surviving(plan, m.view.value) != {}
  {
    assert Cause(m) in trace;
  }

  /** Whom the view calls surviving is listed, or was found running. */
  lemma {:induction false} RunningFound(plan: Plan, policy: Policy, trace: Trace, log: seq<Monitor>, n: nat, s: int,
                                        pid: nat)
    requires Logs(plan, policy, trace, log) && n <= |trace| && log[|trace|].lawful && 0 <= s < n
    requires log[n].view.Some? && trace[s].Snapshotted? && (forall k :: s < k < n ==> !trace[k].Snapshotted?)
    ensures pid in log[n].view.value.running <==> FoundRunning(trace, s, n, pid)
    decreases n
  {
    hide Advance, InTurn, InPlace;
    LawfulStep(plan, policy, trace, log, n - 1);
    RunningStep(plan, policy, log[n - 1], trace[n - 1]);
    if s < n - 1 { RunningFound(plan, policy, trace, log, n - 1, s, pid); }
  }

  lemma RunningStep(plan: Plan, policy: Policy, m: Monitor, e: Event)
    requires Advance(plan, policy, m, e).lawful && Advance(plan, policy, m, e).view.Some?
    ensures var n := Advance(plan, policy, m, e);
            && (e.Snapshotted? ==> n.view.value.running == {})
            && (!e.Snapshotted? ==>
                  && m.view.Some?
                  && n.view.value.running ==
                      m.view.value.running + (if e.LookedUp? && e.answer.Running? then {e.pid} else {}))
  {
    hide InTurn, InPlace, TruthfulSignal, TruthfulArtifact;
  }

  lemma SurvivorsFound(plan: Plan, policy: Policy, trace: Trace, log: seq<Monitor>, v: View, s: int)
    requires Logs(plan, policy, trace, log) && log[|trace|].lawful && log[|trace|].view == Some(v) && 0 <= s < |trace|
    requires trace[s] == Snapshotted(Some(v.snapshot))
    requires forall k :: s < k < |trace| ==> !trace[k].Snapshotted?
    ensures forall pid :: pid in Surviving(plan, v) <==> SurvivesAt(plan, trace, s, pid)
  {
    hide Advance;
    forall pid ensures pid in v.running <==> FoundRunning(trace, s, |trace|, pid) {
      RunningFound(plan, policy, trace, log, |trace|, s, pid);
    }
  }

  /** Between a KILL and the snapshot that decides so the whole kill grace was waited
      out. */
  lemma KillGraceWaited(plan: Plan, policy: Policy, trace: Trace, survivors: set<nat>, s: nat, p: nat, i: nat)
      returns (w: nat)
    requires Watch(plan, policy, trace).lawful && OutlivedAt(plan, policy, trace, survivors, s)
    requires i < |trace| && trace[i].Signalled? && StillOpen(trace, p, i)
    requires trace[p].Prepared? && trace[p].id.Some? && trace[p].intent.stage == ExactKill
    ensures i < w < s && trace[w] == Waited(policy.killGrace, DeadlineReached)
  {
    hide Watch;
    assert Acts(trace[i]);
    SignalIsPaced(plan, policy, trace, p, i);
    w := FirstWait(trace, i, s);
  }

  // ------------------------------------------------------------------ artifacts

  /** The artifact rows so far are those of the first candidates of the plan, and the open
      one is that of the next. */
  ghost predicate InPlanOrder(plan: Plan, m: Monitor) {
    && |m.artifactActions| <= |plan.artifacts|
    && (forall k :: 0 <= k < |m.artifactActions| ==>
          m.artifactActions[k].fingerprint == plan.artifacts[k].fingerprint)
    && (m.bracket.OpenArtifact? ==>
          && |m.artifactActions| < |plan.artifacts|
          && m.bracket.fingerprint == plan.artifacts[|m.artifactActions|].fingerprint)
  }

  lemma InPlanOrderStep(plan: Plan, policy: Policy, m: Monitor, e: Event)
    requires InPlanOrder(plan, m) && Advance(plan, policy, m, e).lawful
    ensures InPlanOrder(plan, Advance(plan, policy, m, e))
  {
    hide Advance, InTurn;
    WaitsKept(plan, policy, m, e);
    TurnKept(plan, policy, m, e);
    ArtifactKept(plan, policy, m, e);
    ArtifactSteps(plan, policy, m, e);
  }

  lemma {:induction false} InPlanOrderThroughout(plan: Plan, policy: Policy, trace: Trace, log: seq<Monitor>, n: nat)
    requires Logs(plan, policy, trace, log) && n <= |trace| && log[|trace|].lawful
    ensures InPlanOrder(plan, log[n])
    decreases n
  {
    hide Advance, InTurn, InPlace;
    if n > 0 {
      InPlanOrderThroughout(plan, policy, trace, log, n - 1);
      LawfulStep(plan, policy, trace, log, n - 1);
      InPlanOrderStep(plan, policy, log[n - 1], trace[n - 1]);
    }
  }

  /** The artifacts of the plan are dealt with one after the other, and a cleared run
      has dealt with all of them. */
  lemma ArtifactsInPlanOrder(plan: Plan, policy: Policy, fp: Identity -> string, result: ExecResult, trace: Trace)
    requires Guarantee(plan, policy, fp, result, Watch(plan, policy, trace))
    ensures var rows := ReceiptOf(result).artifactActions;
      && |rows| <= |plan.artifacts| && (ReceiptOf(result).state == Cleared ==> |rows| == |plan.artifacts|)
      && forall k :: 0 <= k < |rows| ==> rows[k].fingerprint == plan.artifacts[k].fingerprint
  {
    hide Watch, Guarantee;
    var log := LogExists(plan, policy, trace);
    Lawful(plan, policy, fp, result, log[|trace|]);
    InPlanOrderThroughout(plan, policy, trace, log, |trace|);
    if ReceiptOf(result).state == Cleared { ClearedIsComplete(plan, policy, result, log[|trace|]); }
  }

  lemma ClearedIsComplete(plan: Plan, policy: Policy, result: ExecResult, m: Monitor)
    requires Concludes(plan, policy, result, m) && ReceiptOf(result).state == Cleared
    ensures |m.artifactActions| == |plan.artifacts| && result.Ok?
    ensures Last(m).Revalidated? && Last(m).phase.RevivalCheck? && Last(m).verdict.status.Gone?
  {
  }

  /** As soon as a row says that an artifact is gone, its path is looked at again; and if
      the run is cleared, nothing was found there. */
  lemma RemovedIsLookedFor(plan: Plan, policy: Policy, fp: Identity -> string, result: ExecResult, trace: Trace,
                           k: nat)
    requires Guarantee(plan, policy, fp, result, Watch(plan, policy, trace)) && k < |trace|
    requires trace[k].CompletedArtifact? && trace[k].ok && CompletedCleanup(trace[k].removal)
    ensures k + 1 < |trace| && trace[k + 1].Froze?
    ensures ReceiptOf(result).state == Cleared ==> trace[k + 1].freeze == Some(Absent)
  {
    hide Watch, Guarantee, Advance, InPlace;
    var log := LogExists(plan, policy, trace);
    Lawful(plan, policy, fp, result, log[|trace|]);
    LawfulStep(plan, policy, trace, log, k);
    assert OwesAbsence(log[k + 1]);
    assert k + 1 < |trace|;
    LawfulStep(plan, policy, trace, log, k + 1);
    if ReceiptOf(result).state == Cleared && trace[k + 1].freeze != Some(Absent) {
      ClearedIsComplete(plan, policy, result, log[|trace|]);
      var p := LastCalls(plan, policy, fp, result, trace);
      FoundAgain(plan, policy, trace, log, k);
      assert false;
    }
  }

  /** What is found there ends the run. */
  lemma FoundAgain(plan: Plan, policy: Policy, trace: Trace, log: seq<Monitor>, k: nat)
    requires Logs(plan, policy, trace, log) && log[|trace|].lawful && k + 1 < |trace|
    requires trace[k].CompletedArtifact? && trace[k + 1].Froze? && trace[k + 1].freeze != Some(Absent)
    requires |log[k + 1].tail| > 0 && Last(log[k + 1]) == trace[k]
    ensures k + 2 == |trace|
  {
    hide Advance, InPlace;
    LawfulStep(plan, policy, trace, log, k + 1);
    assert Ending(log[k + 2]);
    if k + 2 < |trace| { LawfulStep(plan, policy, trace, log, k + 2); }
  }
}
