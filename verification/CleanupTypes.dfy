/** The values that one cleanup run freezes, observes and reports. */
module CleanupTypes {

  import opened Wrappers

  // ------------------------------------------------------------------ identity

  datatype Identity = Identity(pid: nat, startedAt: nat, device: Option<nat>, inode: Option<nat>)

  /** Same PID, start time and executable, and the executable is actually known. */
  predicate ExactMatch(frozen: Identity, observed: Identity) {
    frozen == observed && frozen.device.Some? && frozen.inode.Some?
  }

  datatype Process = Process(identity: Identity, parentPid: nat)

  type Snapshot = seq<Process>

  /** The record of `pid`; when a listing repeats a PID, the later row wins. */
  function ByPid(snapshot: Snapshot, pid: nat): Option<Process> {
    if snapshot == [] then None
    else if snapshot[|snapshot| - 1].identity.pid == pid then Some(snapshot[|snapshot| - 1])
    else ByPid(snapshot[..|snapshot| - 1], pid)
  }

  // ------------------------------------------------------------------ plan

  datatype Role =
    | Controller | BrowserRoot | Renderer | Gpu | Utility
    | BrowserHelper | CrashHandler | Recorder | IncidentMember

  datatype Target = Target(identity: Identity, role: Role)

  datatype Candidate = Candidate(session: string, fingerprint: string)

  datatype FrozenArtifact = FrozenArtifact(candidate: Candidate, device: nat, inode: nat)

  datatype Freeze = Frozen(artifact: FrozenArtifact) | Absent | Unsafe

  datatype Plan = Plan(targets: seq<Target>, artifacts: seq<Candidate>)

  datatype Policy = Policy(primaryGrace: nat, memberGrace: nat, killGrace: nat, windows: seq<nat>)

  ghost predicate DistinctPids(plan: Plan) {
    forall i, j :: 0 <= i < j < |plan.targets| ==> plan.targets[i].identity.pid != plan.targets[j].identity.pid
  }

  predicate HasController(plan: Plan) {
    exists t :: t in plan.targets && t.role == Controller
  }

  /** Controllers go first; browser roots only when there is no controller. */
  predicate IsPrimary(plan: Plan, pid: nat) {
    exists t :: t in plan.targets && t.identity.pid == pid
                && t.role == (if HasController(plan) then Controller else BrowserRoot)
  }

  // ------------------------------------------------------------------ actions

  datatype Signal = Term | Kill

  datatype Stage = PrimaryTerm | MemberTerm | ExactKill

  datatype Disposition =
    | Delivered | AlreadyExited | IdentityMismatch | Rejected | CancelledBeforeDelivery | DeliveryUnknown

  function StageRank(s: Stage): nat {
    match s
    case PrimaryTerm => 0
    case MemberTerm => 1
    case ExactKill => 2
  }

  /** How long a stage lets its targets exit before the next observation. */
  function Graces(policy: Policy): seq<nat> { [policy.primaryGrace, policy.memberGrace, policy.killGrace] }

  predicate Settled(d: Disposition) { d == Delivered || d == AlreadyExited }

  datatype Intent = Intent(stage: Stage, pid: nat, fingerprint: string, signal: Signal)

  datatype Action = Action(intent: Intent, disposition: Disposition)

  datatype ArtifactDisposition =
    | Removed | AlreadyAbsent | ArtifactIdentityMismatch | Referenced | ArtifactUnsafe
    | ArtifactRejected | ArtifactCancelled | ArtifactDeliveryUnknown

  predicate CompletedCleanup(d: ArtifactDisposition) { d == Removed || d == AlreadyAbsent }

  datatype ArtifactAction = ArtifactAction(fingerprint: string, disposition: ArtifactDisposition)

  // ------------------------------------------------------------------ verdicts and reasons

  /** Every reason string the executor compares or writes, and any other string. */
  datatype Reason =
    | DrainRequested | RuntimeFailed | TargetLookupIncomplete | IdentityChanged
    | SnapshotTargetInconsistent | RevalidatorGoneWithSurvivors | KillWithoutTerm
    | SurvivorsAfterKill | TerminalTreeNotGone | PostArtifactTreeNotGone
    | SignalIdentityMismatch | SignalRejected | SignalDeliveryUnknown
    | ArtifactReconciled | ArtifactIdentityChanged | ArtifactLiveReference
    | ArtifactUnsafeReason | ArtifactRejectedReason | ArtifactUnknownReason
    | TreeGoneWithoutSignal | TreeGoneNoRevival | TreeGoneArtifactsReconciled
    | OtherReason(id: string)

  predicate ResidueReason(r: Option<Reason>) {
    r.Some? && (r.value.ArtifactIdentityChanged? || r.value.ArtifactLiveReference?
                || r.value.ArtifactUnsafeReason? || r.value.ArtifactRejectedReason?)
  }

  /** The reasons from which the outcome projection infers a cleared process tree. */
  predicate ArtifactReason(r: Option<Reason>) {
    ResidueReason(r) || r == Some(ArtifactUnknownReason)
  }

  datatype Phase = BeforeSignal | RevivalCheck

  datatype Status = Eligible | Gone | Blocked | Revived

  datatype Verdict = Verdict(status: Status, reason: Reason)

  // ------------------------------------------------------------------ receipt

  datatype State = Reclaiming | Cleared | RevivedState | Failed

  datatype Receipt = Receipt(
    state: State,
    reason: Option<Reason>,
    actions: seq<Action>,
    artifactActions: seq<ArtifactAction>,
    survivors: set<nat>,
    revivalChecks: nat)

  datatype ProcessOutcome = ProcessCleared | ProcessRevived | ProcessFailed | ProcessUnknown

  datatype ArtifactOutcome = NotApplicable | Reconciled | Residue | ArtifactUnknown

  datatype Overall = OverallCleared | ClearedWithResidue | OverallRevived | OverallFailed

  predicate AnySignal(r: Receipt, d: Disposition) {
    exists i :: 0 <= i < |r.actions| && r.actions[i].disposition == d
  }

  predicate AnyArtifact(r: Receipt, d: ArtifactDisposition) {
    exists i :: 0 <= i < |r.artifactActions| && r.artifactActions[i].disposition == d
  }

  predicate ArtifactUncertain(r: Receipt) {
    AnyArtifact(r, ArtifactDeliveryUnknown) || r.reason == Some(ArtifactUnknownReason)
  }

  function ProcessOutcomeOf(r: Receipt): ProcessOutcome {
    if AnySignal(r, DeliveryUnknown) then ProcessUnknown
    else if r.state == RevivedState then ProcessRevived
    else if r.state == Cleared || ResidueReason(r.reason) || ArtifactUncertain(r) then ProcessCleared
    else ProcessFailed
  }

  function ArtifactOutcomeOf(r: Receipt): ArtifactOutcome {
    if ArtifactUncertain(r) then ArtifactUnknown
    else if ResidueReason(r.reason)
            || exists i :: 0 <= i < |r.artifactActions| && !CompletedCleanup(r.artifactActions[i].disposition)
    then Residue
    else if r.artifactActions == [] then NotApplicable
    else Reconciled
  }

  function OverallOf(r: Receipt): Overall {
    match (ProcessOutcomeOf(r), ArtifactOutcomeOf(r))
    case (ProcessUnknown, _) => OverallFailed
    case (_, ArtifactUnknown) => OverallFailed
    case (ProcessFailed, _) => OverallFailed
    case (ProcessCleared, NotApplicable) => OverallCleared
    case (ProcessCleared, Reconciled) => OverallCleared
    case (ProcessCleared, Residue) => ClearedWithResidue
    case (ProcessRevived, _) => OverallRevived
  }

  predicate ProvesProcessReclaim(r: Receipt) {
    ProcessOutcomeOf(r) == ProcessCleared && AnySignal(r, Delivered)
  }

  predicate EndedWithoutIntervention(r: Receipt) {
    r.state == Cleared && OverallOf(r) == OverallCleared && !ProvesProcessReclaim(r) && r.artifactActions == []
  }

  /** Whether the daemon must stop enforcing after this receipt. */
  predicate RequiresFailClose(r: Receipt) {
    if AnySignal(r, DeliveryUnknown) || AnyArtifact(r, ArtifactDeliveryUnknown) then true
    else if OverallOf(r) == ClearedWithResidue then false
    else r.state != Cleared && (AnySignal(r, Delivered) || AnyArtifact(r, Removed))
  }

  // ------------------------------------------------------------------ results

  datatype CleanupError =
    | Runtime(terminal: Receipt)
    | AttemptOpen(partial: Receipt, preparedId: string)

  type ExecResult = Result<Receipt, CleanupError>
}
