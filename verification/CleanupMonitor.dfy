/** An automaton over the calls of one cleanup run.  It never looks at the
    executor: it is the reference against which every run is judged. */
module CleanupMonitor {
  import opened Wrappers
  import opened CleanupTypes

  datatype Lookup = LookupFailed | NotRunning | Running(process: Process)

  datatype WaitOutcome = DeadlineReached | Interrupted | WaitFailed

  datatype Event =
    | StopPolled(stop: bool)
    | Snapshotted(result: Option<Snapshot>)
    | LookedUp(pid: nat, answer: Lookup)
    | Revalidated(snapshot: Snapshot, phase: Phase, verdict: Verdict)
    | ClockRead(ok: bool)
    | Prepared(intent: Intent, id: Option<string>)
    | Signalled(identity: Identity, signal: Signal, disposition: Disposition)
    | Completed(actionId: string, disposition: Disposition, ok: bool)
    | Waited(duration: nat, outcome: WaitOutcome)
    | Froze(candidate: Candidate, freeze: Option<Freeze>)
    | PreparedArtifact(fingerprint: string, id: Option<string>)
    | Unlinked(artifact: FrozenArtifact, removal: ArtifactDisposition)
    | CompletedArtifact(actionId: string, removal: ArtifactDisposition, ok: bool)

  type Trace = seq<Event>

  /** The PREPARED journal row that is not completed yet, if any, and what was
      really done under it. */
  datatype Bracket =
    | Closed
    | OpenSignal(id: string, intent: Intent, sent: Option<Disposition>)
    | OpenArtifact(id: string, fingerprint: string, removal: Option<ArtifactDisposition>)

  /** The last snapshot, and what was established about it since it was taken. */
  datatype View = View(snapshot: Snapshot, notRunning: set<nat>, running: set<nat>, eligible: bool, gone: bool)

  /** `tail` holds the calls since the last stop poll, that poll first; `stages` counts
      the observations that found survivors fit to be signalled, and `listed` is whom
      the last one found. */
  datatype Monitor = Monitor(
    lawful: bool,
    tail: Trace,
    stopped: bool,
    bracket: Bracket,
    view: Option<View>,
    actions: seq<Action>,
    artifactActions: seq<ArtifactAction>,
    waits: seq<nat>,
    stages: nat,
    listed: set<nat>,
    ended: set<nat>,
    terminal: bool,
    freezes: set<(Candidate, Freeze)>,
    lastFreeze: Option<(Candidate, Freeze)>,
    everNotRunning: set<nat>,
    killed: set<nat>,
    reappeared: bool,
    verdictReasons: set<Reason>)

  /** Every row so far, and what was sent under the row that is still open. */
  function Ledger(m: Monitor): seq<Action> {
    if m.bracket.OpenSignal? && m.bracket.sent.Some? then m.actions + [Action(m.bracket.intent, m.bracket.sent.value)]
    else m.actions
  }

  /** No row was ever written. */
  predicate Untouched(m: Monitor) { m.actions == [] && m.bracket.Closed? && !m.terminal }

  const INITIAL := Monitor(true, [], false, Closed, None, [], [], [], 0, {}, {}, false, {}, None, {}, {}, false, {})

  /** Every frozen target the snapshot lists is the frozen one, and every one it
      omits was looked up after it and found not running. */
  ghost predicate TargetsAccounted(plan: Plan, v: View) {
    forall t :: t in plan.targets ==>
      match ByPid(v.snapshot, t.identity.pid)
      case Some(p) => ExactMatch(t.identity, p.identity)
      case None => t.identity.pid in v.notRunning
  }

  ghost predicate TreeAbsent(plan: Plan, v: View) {
    forall t :: t in plan.targets ==> ByPid(v.snapshot, t.identity.pid).None? && t.identity.pid in v.notRunning
  }

  /** The frozen PIDs that `s` lists. */
  ghost function ListedPids(plan: Plan, s: Snapshot): set<nat> {
    set t | t in plan.targets && ByPid(s, t.identity.pid).Some? :: t.identity.pid
  }

  ghost predicate SignalAllowed(plan: Plan, m: Monitor, identity: Identity, signal: Signal) {
    && !m.stopped
    && m.bracket.OpenSignal? && m.bracket.sent.None?
    && m.bracket.intent.pid == identity.pid && m.bracket.intent.signal == signal
    && (exists t :: t in plan.targets && t.identity == identity)
    && m.view.Some? && m.view.value.eligible
    && TargetsAccounted(plan, m.view.value)
    && ByPid(m.view.value.snapshot, identity.pid).Some?
  }

  ghost predicate UnlinkAllowed(m: Monitor, artifact: FrozenArtifact) {
    && !m.stopped
    && m.terminal
    && m.bracket.OpenArtifact? && m.bracket.removal.None?
    && exists c: Candidate :: (c, Frozen(artifact)) in m.freezes && c.fingerprint == m.bracket.fingerprint
  }

  /** The target was omitted by a snapshot that accounts for everyone. */
  ghost predicate FoundExited(plan: Plan, m: Monitor, pid: nat) {
    && m.view.Some? && TargetsAccounted(plan, m.view.value)
    && ByPid(m.view.value.snapshot, pid).None? && pid in m.view.value.notRunning
  }

  /** A journal row may only record what happened under it; and if nothing was sent it
      may only record what was observed under it. */
  ghost predicate TruthfulSignal(plan: Plan, m: Monitor, d: Disposition)
    requires m.bracket.OpenSignal?
  {
    match m.bracket.sent
    case Some(done) => d == done
    case None =>
      match d
      case AlreadyExited => !m.stopped && FoundExited(plan, m, m.bracket.intent.pid)
      case CancelledBeforeDelivery => m.stopped || m.view.None?
      case IdentityMismatch => !m.stopped && m.view.Some? && !m.view.value.eligible
      case Rejected => !m.stopped && m.view.Some? && !m.view.value.eligible
      case Delivered => false
      case DeliveryUnknown => false
  }

  /** A candidate with this fingerprint was seen as `first` before anything was done,
      and as `last` just now. */
  ghost predicate SeenFirstAndLast(m: Monitor, fingerprint: string, first: Freeze, last: Freeze) {
    exists c: Candidate :: c.fingerprint == fingerprint && (c, first) in m.freezes && m.lastFreeze == Some((c, last))
  }

  ghost predicate SeenUnsafe(m: Monitor, fingerprint: string) {
    exists c: Candidate :: c.fingerprint == fingerprint && (c, Freeze.Unsafe) in m.freezes
  }

  ghost predicate Replaced(m: Monitor, fingerprint: string) {
    m.lastFreeze.Some? && m.lastFreeze.value.1.Frozen?
      && SeenFirstAndLast(m, fingerprint, Absent, m.lastFreeze.value.1)
  }

  ghost predicate TruthfulArtifact(m: Monitor, d: ArtifactDisposition)
    requires m.bracket.OpenArtifact?
  {
    match m.bracket.removal
    case Some(done) => d == done
    case None =>
      match d
      case AlreadyAbsent => !m.stopped && SeenFirstAndLast(m, m.bracket.fingerprint, Absent, Absent)
      case ArtifactIdentityMismatch => !m.stopped && Replaced(m, m.bracket.fingerprint)
      case ArtifactUnsafe =>
        && !m.stopped
        && (SeenUnsafe(m, m.bracket.fingerprint)
            || SeenFirstAndLast(m, m.bracket.fingerprint, Absent, Freeze.Unsafe))
      case ArtifactCancelled => m.stopped
      case _ => false
  }

  /** Each stage entered was followed by its grace, then came the revival windows, and
      each of these ended in a Gone verdict on a snapshot taken after it. */
  ghost predicate WindowsPassed(policy: Policy, m: Monitor) {
    && m.stages <= 3 && m.waits == Graces(policy)[..m.stages] + policy.windows
    && forall j :: m.stages <= j < |m.waits| ==> j in m.ended
  }

  ghost predicate FrozenTargetListed(plan: Plan, pids: set<nat>, s: Snapshot) {
    exists t :: t in plan.targets && t.identity.pid in pids
                && ByPid(s, t.identity.pid).Some? && ExactMatch(t.identity, ByPid(s, t.identity.pid).value.identity)
  }

  // ------------------------------------------------------------------ the order of calls

  function Last(m: Monitor): Event
    requires m.tail != []
  {
    m.tail[|m.tail| - 1]
  }

  /** The verdict lets the run go on. */
  predicate Favourable(phase: Phase, verdict: Verdict) {
    if phase.BeforeSignal? then verdict.status.Eligible? else verdict.status.Gone?
  }

  /** An answer after which nothing more may be done than to complete the open row. */
  predicate Ending(m: Monitor)
    requires m.tail != []
  {
    match Last(m)
    case StopPolled(stop) => stop
    case Snapshotted(result) => result.None?
    case LookedUp(_, answer) => answer.LookupFailed?
    case Revalidated(_, phase, verdict) => !Favourable(phase, verdict)
    case ClockRead(ok) => !ok
    case Prepared(_, id) => id.None?
    case Signalled(_, _, _) => false
    case Completed(_, d, ok) => !ok || !Settled(d)
    case Waited(_, outcome) => !outcome.DeadlineReached?
    case Froze(_, freeze) =>
      freeze.None? || (!freeze.value.Absent? && |m.tail| > 1 && m.tail[|m.tail| - 2].CompletedArtifact?)
    case PreparedArtifact(_, id) => id.None?
    case Unlinked(_, _) => false
    case CompletedArtifact(_, d, ok) => !ok || !CompletedCleanup(d)
  }

  /** The stop flag must be polled next: a wait is over or a row was opened. */
  predicate OwesPoll(m: Monitor)
    requires m.tail != []
  {
    var e := Last(m);
    || (e.Waited? && e.outcome.DeadlineReached?)
    || ((e.Prepared? || e.PreparedArtifact?) && e.id.Some?)
  }

  /** A removed artifact must be looked for next. */
  predicate OwesAbsence(m: Monitor)
    requires m.tail != []
  {
    Last(m).CompletedArtifact? && Last(m).ok && CompletedCleanup(Last(m).removal)
  }

  /** The clock must be read next: something was sent or removed. */
  predicate OwesClock(m: Monitor)
    requires m.tail != []
  {
    Last(m).Signalled? || Last(m).Unlinked?
  }

  /** The open row must be completed next. */
  predicate OwesRow(m: Monitor)
    requires m.tail != []
  {
    Last(m) == ClockRead(true) && !m.bracket.Closed?
  }

  /** Nothing in particular must come next. */
  predicate Free(m: Monitor) {
    m.tail != [] && !Ending(m) && !OwesPoll(m) && !OwesAbsence(m) && !OwesClock(m) && !OwesRow(m)
  }

  /** A look at the path of the last artifact row. */
  predicate LooksForLast(m: Monitor, e: Event) {
    && e.Froze? && m.artifactActions != []
    && e.candidate.fingerprint == m.artifactActions[|m.artifactActions| - 1].fingerprint
  }

  const UNSTOPPED: Trace := [StopPolled(false)]

  const UNSTOPPED_CLOCKED: Trace := [StopPolled(false), ClockRead(true)]

  /** What must come next comes next. */
  predicate InTurn(m: Monitor, e: Event) {
    if m.tail == [] then e.StopPolled?
    else
      && (OwesPoll(m) ==> e.StopPolled?)
      && (OwesClock(m) ==> e.ClockRead?)
      && (OwesRow(m) ==> e.Completed? || e.CompletedArtifact?)
      && (OwesAbsence(m) ==> LooksForLast(m, e))
      && (Ending(m) ==>
            && !m.bracket.Closed? && e.ClockRead?
            && (Last(m).StopPolled? || Last(m).Snapshotted? || Last(m).LookedUp? || Last(m).Revalidated?))
  }

  /** Each call keeps its place: signals, removals and waits follow directly on a stop
      poll, and rows on a poll and a clock; every stage has its own observation, and
      the grace of each stage before it is over; artifacts come in plan order. */
  predicate InPlace(plan: Plan, policy: Policy, m: Monitor, e: Event) {
    match e
    case StopPolled(_) => true
    case Snapshotted(_) => m.bracket.Closed? || (m.bracket.OpenSignal? && m.tail == UNSTOPPED)
    case LookedUp(_, _) => !m.bracket.OpenArtifact?
    case Revalidated(snapshot, phase, _) =>
      && m.view.Some? && m.view.value.snapshot == snapshot
      && (m.bracket.Closed? || (m.bracket.OpenSignal? && phase.BeforeSignal?))
      && (m.bracket.Closed? && phase.BeforeSignal? ==> m.stages < 3 && m.waits == Graces(policy)[..m.stages])
    case ClockRead(_) => true
    case Prepared(intent, _) =>
      && m.tail == UNSTOPPED_CLOCKED && m.bracket.Closed?
      && m.stages == StageRank(intent.stage) + 1 && m.waits == Graces(policy)[..StageRank(intent.stage)]
    case Signalled(_, _, _) => m.tail == UNSTOPPED
    case Completed(_, _, _) => m.tail != [] && Last(m) == ClockRead(true)
    case Waited(duration, _) =>
      && m.tail == UNSTOPPED && m.bracket.Closed?
      && m.stages <= 3 && m.waits + [duration] <= Graces(policy)[..m.stages] + policy.windows
    case Froze(_, _) => m.bracket.Closed?
    case PreparedArtifact(fingerprint, _) =>
      && PolledForArtifact(m.tail, fingerprint) && m.bracket.Closed?
      && |m.artifactActions| < |plan.artifacts|
      && fingerprint == plan.artifacts[|m.artifactActions|].fingerprint
    case Unlinked(_, _) => m.tail == UNSTOPPED
    case CompletedArtifact(_, _, _) => m.tail != [] && Last(m) == ClockRead(true)
  }

  /** A poll, at most one look at this candidate, and the clock. */
  predicate PolledForArtifact(tail: Trace, fingerprint: string) {
    || tail == UNSTOPPED_CLOCKED
    || (|tail| == 3 && tail[0] == StopPolled(false) && tail[2] == ClockRead(true)
        && tail[1].Froze? && tail[1].candidate.fingerprint == fingerprint)
  }

  function TailAfter(tail: Trace, e: Event): Trace { if e.StopPolled? then [e] else tail + [e] }

  // ------------------------------------------------------------------ one call

  ghost function Step(plan: Plan, policy: Policy, m: Monitor, e: Event): Monitor {
    match e
    case StopPolled(stop) => m.(stopped := m.stopped || stop)
    case Snapshotted(result) =>
      if result.None? then m.(view := None)
      else m.(view := Some(View(result.value, {}, {}, false, false)),
              reappeared := m.reappeared || FrozenTargetListed(plan, m.everNotRunning, result.value))
    case LookedUp(pid, answer) =>
      if answer.LookupFailed? then m
      else if answer.Running? then
        m.(view := if m.view.None? then None
                   else Some(m.view.value.(running := m.view.value.running + {pid})))
      else m.(everNotRunning := m.everNotRunning + {pid},
              view := if m.view.None? then None
                      else Some(m.view.value.(notRunning := m.view.value.notRunning + {pid})))
    case Revalidated(snapshot, phase, verdict) =>
      var n := m.(verdictReasons := m.verdictReasons + {verdict.reason});
      if m.view.None? || m.view.value.snapshot != snapshot then n
      else Judge(plan, policy, n, phase, verdict)
    case ClockRead(_) => m
    case Prepared(intent, id) =>
      if id.None? then m
      else m.(bracket := OpenSignal(id.value, intent, None), view := None)
    case Signalled(identity, signal, disposition) =>
      if !SignalAllowed(plan, m, identity, signal) then m.(lawful := false)
      else m.(bracket := m.bracket.(sent := Some(disposition)), view := None,
        killed := if signal == Kill then m.killed + {identity.pid} else m.killed)
    case Completed(id, disposition, ok) =>
      if !ok then m
      else if !(m.bracket.OpenSignal? && m.bracket.id == id && TruthfulSignal(plan, m, disposition))
      then m.(lawful := false)
      else m.(bracket := Closed, actions := m.actions + [Action(m.bracket.intent, disposition)])
    case Waited(duration, outcome) =>
      m.(view := None, waits := if outcome.DeadlineReached? then m.waits + [duration] else m.waits)
    case Froze(candidate, freeze) =>
      if freeze.None? then m
      else m.(lastFreeze := Some((candidate, freeze.value)),
              freezes := if Untouched(m) then m.freezes + {(candidate, freeze.value)} else m.freezes)
    case PreparedArtifact(fingerprint, id) =>
      if id.None? then m
      else m.(lawful := m.lawful && m.terminal, bracket := OpenArtifact(id.value, fingerprint, None), view := None)
    case Unlinked(artifact, removal) =>
      if !UnlinkAllowed(m, artifact) then m.(lawful := false)
      else m.(bracket := m.bracket.(removal := Some(removal)), view := None)
    case CompletedArtifact(id, removal, ok) =>
      if !ok then m
      else if !(m.bracket.OpenArtifact? && m.bracket.id == id && TruthfulArtifact(m, removal))
      then m.(lawful := false)
      else m.(bracket := Closed, artifactActions := m.artifactActions + [ArtifactAction(m.bracket.fingerprint,
        removal)])
  }

  /** A verdict on the current view. */
  ghost function Judge(plan: Plan, policy: Policy, m: Monitor, phase: Phase, verdict: Verdict): Monitor
    requires m.view.Some?
  {
    var v := m.view.value.(eligible := phase.BeforeSignal? && verdict.status.Eligible?,
                           gone := phase.RevivalCheck? && verdict.status.Gone?);
    var fit := m.bracket.Closed? && v.eligible;
    var w := m.(view := Some(v),
                stages := if fit then m.stages + 1 else m.stages,
                listed := if fit then ListedPids(plan, v.snapshot) else m.listed,
                ended := if v.gone && m.waits != [] then m.ended + {|m.waits| - 1} else m.ended);
    w.(terminal := m.terminal || (v.gone && TreeAbsent(plan, v) && WindowsPassed(policy, w)))
  }

  ghost function Advance(plan: Plan, policy: Policy, m: Monitor, e: Event): Monitor {
    var n := Step(plan, policy, m, e);
    n.(lawful := n.lawful && InTurn(m, e) && InPlace(plan, policy, m, e), tail := TailAfter(m.tail, e))
  }

  ghost function Watch(plan: Plan, policy: Policy, trace: Trace): Monitor {
    if trace == [] then INITIAL
    else Advance(plan, policy, Watch(plan, policy, trace[..|trace| - 1]), trace[|trace| - 1])
  }

  ghost predicate StepAt(plan: Plan, policy: Policy, trace: Trace, log: seq<Monitor>, i: nat)
    requires i < |trace| && |log| == |trace| + 1
  {
    log[i + 1] == Advance(plan, policy, log[i], trace[i])
  }

  /** `log` holds the monitor before each event of `trace`, and after the last one. */
  ghost predicate Logs(plan: Plan, policy: Policy, trace: Trace, log: seq<Monitor>) {
    && |log| == |trace| + 1
    && log[0] == INITIAL
    && forall i :: 0 <= i < |trace| ==> StepAt(plan, policy, trace, log, i)
  }

  ghost predicate Logged(plan: Plan, policy: Policy, trace: Trace, log: seq<Monitor>, now: Monitor) {
    Logs(plan, policy, trace, log) && log[|trace|] == now
  }

  lemma {:induction false} LoggedIsWatch(plan: Plan, policy: Policy, trace: Trace, log: seq<Monitor>, now: Monitor)
    requires Logged(plan, policy, trace, log, now)
    ensures now == Watch(plan, policy, trace)
    decreases |trace|
  {
    if trace != [] {
      var n := |trace| - 1;
      assert StepAt(plan, policy, trace, log, n);
      var init, before := trace[..n], log[..n + 1];
      forall i | 0 <= i < n ensures StepAt(plan, policy, init, before, i) {
        assert StepAt(plan, policy, trace, log, i);
      }
      LoggedIsWatch(plan, policy, init, before, log[n]);
    }
  }

  lemma {:induction false} LogExists(plan: Plan, policy: Policy, trace: Trace) returns (log: seq<Monitor>)
    ensures Logged(plan, policy, trace, log, Watch(plan, policy, trace))
    decreases |trace|
  {
    if trace == [] {
      log := [INITIAL];
    } else {
      var n := |trace| - 1;
      var init := LogExists(plan, policy, trace[..n]);
      log := init + [Watch(plan, policy, trace)];
      forall i | 0 <= i < |trace| ensures StepAt(plan, policy, trace, log, i) {
        if i < n { assert StepAt(plan, policy, trace[..n], init, i); }
      }
    }
  }
}
