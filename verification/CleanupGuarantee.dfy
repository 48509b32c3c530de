/** What one finished run promises, said over its result and the monitor. */
module CleanupGuarantee {
  import opened Wrappers
  import opened CleanupTypes
  import opened CleanupMonitor
  import opened CleanupEscalation

  function ReceiptOf(result: ExecResult): Receipt {
    match result
    case Ok(r) => r
    case Err(Runtime(r)) => r
    case Err(AttemptOpen(r, _)) => r
  }

  predicate IsTerminal(result: ExecResult) {
    result.Ok? || result.error.Runtime?
  }

  /** The receipt is the journal, row for row, and nothing but the action that an
      open attempt names is left PREPARED. */
  ghost predicate JournalAgrees(result: ExecResult, m: Monitor) {
    && m.lawful
    && ReceiptOf(result).actions == m.actions
    && ReceiptOf(result).artifactActions == m.artifactActions
    && match m.bracket
       case Closed => IsTerminal(result)
       case OpenSignal(id, _, _) => !IsTerminal(result) && id == result.error.preparedId
       case OpenArtifact(id, _, _) => !IsTerminal(result) && id == result.error.preparedId
  }

  // ------------------------------------------------------------------ why a run ended

  /** The call that decided the run: the last one, or the one before the clock was read
      to complete the row of a signal. */
  function Cause(m: Monitor): Event
    requires m.tail != []
  {
    var n := |m.tail|;
    if Last(m).Completed? && Last(m).ok && n >= 3 then m.tail[n - 3] else Last(m)
  }

  /** Some process bears a frozen PID and is not the frozen process. */
  ghost predicate Mismatched(plan: Plan, m: Monitor)
    requires m.tail != []
  {
    exists t :: t in plan.targets && (
      || (m.view.Some? && ListedOtherwise(t, m.view.value.snapshot))
      || (Cause(m).LookedUp? && Cause(m).pid == t.identity.pid && Cause(m).answer.Running?
          && !ExactMatch(t.identity, Cause(m).answer.process.identity)))
  }

  predicate ListedOtherwise(t: Target, s: Snapshot) {
    var p := ByPid(s, t.identity.pid);
    p.Some? && !ExactMatch(t.identity, p.value.identity)
  }

  /** The frozen PIDs that the current snapshot lists, or that were found running though
      it omits them. */
  ghost function Surviving(plan: Plan, v: View): set<nat> {
    set t | t in plan.targets && (ByPid(v.snapshot, t.identity.pid).Some? || t.identity.pid in v.running) ::
      t.identity.pid
  }

  /** A target that the snapshot omits was found running. */
  ghost predicate OmittedAlive(plan: Plan, m: Monitor) {
    m.view.Some? && exists t :: t in plan.targets && ByPid(m.view.value.snapshot, t.identity.pid).None?
                                && t.identity.pid in m.view.value.running
  }

  /** What stands where a removed artifact was. */
  predicate ReappearanceTold(now: Freeze, reason: Reason) {
    match now
    case Frozen(_) => reason == ArtifactIdentityChanged
    case Unsafe => reason == ArtifactUnsafeReason
    case Absent => false
  }

  predicate SignalTold(d: Disposition, reason: Reason) {
    match d
    case Delivered => false
    case AlreadyExited => false
    case IdentityMismatch => reason == SignalIdentityMismatch
    case Rejected => reason == SignalRejected
    case CancelledBeforeDelivery => reason == DrainRequested
    case DeliveryUnknown => reason == SignalDeliveryUnknown
  }

  predicate ArtifactTold(d: ArtifactDisposition, reason: Reason) {
    match d
    case Removed => false
    case AlreadyAbsent => false
    case ArtifactIdentityMismatch => reason == ArtifactIdentityChanged
    case Referenced => reason == ArtifactLiveReference
    case ArtifactUnsafe => reason == ArtifactUnsafeReason
    case ArtifactRejected => reason == ArtifactRejectedReason
    case ArtifactCancelled => reason == DrainRequested
    case ArtifactDeliveryUnknown => reason == ArtifactUnknownReason
  }

  /** The observation contradicts the plan. */
  ghost predicate Contradicted(plan: Plan, m: Monitor, reason: Reason)
    requires m.tail != []
  {
    || (reason == IdentityChanged && Mismatched(plan, m))
    || (reason == SnapshotTargetInconsistent && OmittedAlive(plan, m))
  }

  ghost predicate VerdictTold(plan: Plan, m: Monitor, phase: Phase, verdict: Verdict, reason: Reason)
    requires m.tail != []
  {
    match (phase, verdict.status)
    case (BeforeSignal, Eligible) => false
    case (BeforeSignal, Gone) => reason == RevalidatorGoneWithSurvivors
    case (BeforeSignal, _) => reason == verdict.reason
    case (RevivalCheck, Blocked) => reason == verdict.reason
    case (RevivalCheck, Gone) => Contradicted(plan, m, reason)
    case (RevivalCheck, _) => false
  }

  /** The run may end here: no other call is called for. */
  predicate MayEnd(m: Monitor) {
    m.tail != [] && !OwesPoll(m) && !OwesAbsence(m) && !OwesClock(m) && !OwesRow(m)
  }

  /** The deciding call gives this reason to fail. */
  ghost predicate Gives(plan: Plan, m: Monitor, reason: Reason)
    requires m.tail != []
  {
    match Cause(m)
    case StopPolled(stop) => stop && reason == DrainRequested
    case Waited(_, outcome) => outcome.Interrupted? && reason == DrainRequested
    case Snapshotted(result) => result.Some? && Contradicted(plan, m, reason)
    case LookedUp(_, answer) =>
      if answer.LookupFailed? then reason == TargetLookupIncomplete else Contradicted(plan, m, reason)
    case Revalidated(_, phase, verdict) => VerdictTold(plan, m, phase, verdict, reason)
    case Signalled(_, _, d) => SignalTold(d, reason)
    case Froze(_, freeze) => freeze.Some? && ReappearanceTold(freeze.value, reason)
    case CompletedArtifact(_, d, ok) => ok && ArtifactTold(d, reason)
    case _ => false
  }

  /** Nothing went wrong, but somebody is left: a survivor was due for a KILL though it
      never had a TERM, or outlived the KILLs and their grace, or outlived everything
      although the revalidator called the tree Gone. */
  ghost predicate SomebodyLeft(plan: Plan, policy: Policy, m: Monitor, reason: Reason, survivors: set<nat>)
    requires m.tail != []
  {
    && Free(m)
    && match reason
       case KillWithoutTerm =>
         && m.reappeared && m.stages == 3 && survivors == m.listed
         && (Last(m).Completed? || (Last(m).Revalidated? && Last(m).phase.BeforeSignal?))
       case SurvivorsAfterKill =>
         && m.stages == 3 && m.waits == Graces(policy) && (Last(m).Snapshotted? || Last(m).LookedUp?)
         && m.view.Some? && survivors == Surviving(plan, m.view.value) != {}
       case TerminalTreeNotGone => m.artifactActions == [] && LeftThoughGone(plan, m, survivors)
       case PostArtifactTreeNotGone => m.artifactActions != [] && LeftThoughGone(plan, m, survivors)
       case _ => false
  }

  /** The disposition that a row records when the call `cause` refused its signal, or
      answered it, for this reason. */
  predicate RowFits(cause: Event, d: Disposition, reason: Reason) {
    match cause
    case Signalled(_, _, sent) => d == sent
    case StopPolled(_) => d == CancelledBeforeDelivery
    case _ => d == if reason == IdentityChanged then IdentityMismatch else Rejected
  }

  /** It does, the row says so too, and the run may end here. */
  ghost predicate Blames(plan: Plan, m: Monitor, reason: Reason) {
    && MayEnd(m) && Gives(plan, m, reason)
    && (Last(m).Completed? && Last(m).ok ==> RowFits(Cause(m), Last(m).disposition, reason))
  }

  ghost predicate LeftThoughGone(plan: Plan, m: Monitor, survivors: set<nat>)
    requires m.tail != []
  {
    && Last(m).Revalidated? && Last(m).phase.RevivalCheck? && Last(m).verdict.status.Gone?
    && m.view.Some? && survivors == Surviving(plan, m.view.value) != {}
  }

  predicate RuntimeFault(e: Event) {
    match e
    case Snapshotted(result) => result.None?
    case ClockRead(ok) => !ok
    case Prepared(_, id) => id.None?
    case Waited(_, outcome) => outcome.WaitFailed?
    case Froze(_, freeze) => freeze.None?
    case PreparedArtifact(_, id) => id.None?
    case _ => false
  }

  predicate LeavesOpen(e: Event) {
    match e
    case ClockRead(ok) => !ok
    case Completed(_, _, ok) => !ok
    case CompletedArtifact(_, _, ok) => !ok
    case _ => false
  }

  /** Whom the stage in hand is about: until its grace is over and the stop flag was
      polled once more, the survivors that the observation before it found fit for
      signals. */
  function InHand(m: Monitor): set<nat> {
    if |m.waits| < m.stages || (|m.waits| == m.stages && JustWaited(m)) then m.listed else {}
  }

  predicate JustWaited(m: Monitor) { m.tail != [] && Last(m).StopPolled? && m.view.None? && m.artifactActions == [] }

  /** A failed receipt gives the reason that the deciding call gave, and names those whom
      the stage in hand is about; or it says that somebody is left, and who. */
  ghost predicate FailedBecause(plan: Plan, policy: Policy, m: Monitor, reason: Reason, survivors: set<nat>)
    requires m.tail != []
  {
    || (Blames(plan, m, reason) && survivors == InHand(m))
    || SomebodyLeft(plan, policy, m, reason, survivors)
  }

  /** The result is the one that the last calls of the run call for. */
  ghost predicate Concludes(plan: Plan, policy: Policy, result: ExecResult, m: Monitor) {
    && MayEnd(m)
    && match result
       case Ok(r) =>
         (match r.state
          case Cleared =>
            && Last(m).Revalidated? && Last(m).phase.RevivalCheck? && Last(m).verdict.status.Gone?
            && |m.artifactActions| == |plan.artifacts| && r.survivors == {}
          case RevivedState =>
            && Last(m).Revalidated? && Last(m).phase.RevivalCheck?
            && (Last(m).verdict.status.Revived? || Last(m).verdict.status.Eligible?)
            && r.reason == Some(Last(m).verdict.reason) && r.survivors == {}
          case Failed => r.reason.Some? && FailedBecause(plan, policy, m, r.reason.value, r.survivors)
          case Reclaiming => false)
       case Err(Runtime(r)) => r.state == Failed && r.reason == Some(RuntimeFailed) && RuntimeFault(Cause(m))
       case Err(AttemptOpen(r, _)) => r.state == Reclaiming && r.reason.None? && LeavesOpen(Last(m))
  }

  // ------------------------------------------------------------------ what it promises

  /** The last snapshot shows an absent tree and the revalidator called it Gone. */
  ghost predicate TreeGone(plan: Plan, m: Monitor) {
    m.view.Some? && m.view.value.gone && TreeAbsent(plan, m.view.value)
  }

  ghost predicate OutcomeSound(plan: Plan, policy: Policy, result: ExecResult, m: Monitor) {
    var r := ReceiptOf(result);
    && (IsTerminal(result) && ProcessOutcomeOf(r) == ProcessCleared ==>
          || (m.terminal && r.revivalChecks == |policy.windows|)
          || (ArtifactReason(r.reason) && r.reason.value in m.verdictReasons))
    && (r.state == Cleared ==>
          && result.Ok?
          && m.terminal && TreeGone(plan, m)
          && OverallOf(r) == OverallCleared
          && (r.reason == Some(TreeGoneWithoutSignal) <==> !AnySignal(r, Delivered) && r.artifactActions == [])
          && (r.reason == Some(TreeGoneNoRevival) <==> AnySignal(r, Delivered) && r.artifactActions == [])
          && (r.reason == Some(TreeGoneArtifactsReconciled) <==> r.artifactActions != []))
  }

  /** A KILL is refused for want of a TERM only when an identity once proved not
      running was listed again, or when the revalidator used that very reason. */
  ghost predicate RefusalExplained(result: ExecResult, m: Monitor) {
    ReceiptOf(result).reason == Some(KillWithoutTerm) ==> m.reappeared || KillWithoutTerm in m.verdictReasons
  }

  ghost predicate Guarantee(plan: Plan, policy: Policy, fp: Identity -> string, result: ExecResult, m: Monitor) {
    && JournalAgrees(result, m)
    && OutcomeSound(plan, policy, result, m)
    && Concludes(plan, policy, result, m)
    && RefusalExplained(result, m)
    && (DistinctPids(plan) ==> Disciplined(plan, fp, ReceiptOf(result).actions))
    && (DistinctPids(plan) ==> Disciplined(plan, fp, Ledger(m)))
    && PrimariesFirst(plan, Ledger(m), m.reappeared)
  }
}
