/** The guarantees of a finished run, read off its trace and its receipt. */
module CleanupTheorems {
  import opened Wrappers
  import opened CleanupTypes
  import opened CleanupMonitor
  import opened CleanupEscalation
  import opened CleanupGuarantee
  import opened CleanupTrace

  // ------------------------------------------------------------------ effects and rows

  ghost predicate SignalledBefore(trace: Trace, n: nat, d: Disposition)
    requires n <= |trace|
  {
    exists k :: 0 <= k < n && trace[k].Signalled? && trace[k].disposition == d
  }

  ghost predicate UnlinkedBefore(trace: Trace, n: nat, d: ArtifactDisposition)
    requires n <= |trace|
  {
    exists k :: 0 <= k < n && trace[k].Unlinked? && trace[k].removal == d
  }

  ghost predicate RowFor(m: Monitor, d: Disposition) {
    || (exists j :: 0 <= j < |m.actions| && m.actions[j].disposition == d)
    || (m.bracket.OpenSignal? && m.bracket.sent == Some(d))
  }

  ghost predicate ArtifactRowFor(m: Monitor, d: ArtifactDisposition) {
    || (exists j :: 0 <= j < |m.artifactActions| && m.artifactActions[j].disposition == d)
    || (m.bracket.OpenArtifact? && m.bracket.removal == Some(d))
  }

  /** The open row notes what was sent, or removed, under it. */
  predicate NotedSend(m: Monitor) { m.bracket.OpenSignal? && m.bracket.sent.Some? }

  predicate NotedRemoval(m: Monitor) { m.bracket.OpenArtifact? && m.bracket.removal.Some? }

  /** The row records what was sent, and no delivery if nothing was. */
  predicate AsSent(sent: Option<Disposition>, d: Disposition) {
    match sent
    case Some(done) => d == done
    case None => d != Delivered && d != DeliveryUnknown
  }

  predicate AsRemoved(removal: Option<ArtifactDisposition>, d: ArtifactDisposition) {
    match removal
    case Some(done) => d == done
    case None => d != Removed && d != ArtifactDeliveryUnknown
  }

  /** How one lawful event changes the signal rows and the open bracket. */
  ghost predicate RowStep(m: Monitor, n: Monitor, e: Event) {
    if e.Completed? && e.ok then
      && m.bracket.OpenSignal? && AsSent(m.bracket.sent, e.disposition)
      && n.bracket.Closed? && n.actions == m.actions + [Action(m.bracket.intent, e.disposition)]
    else
      && n.actions == m.actions
      && (e.Signalled? ==>
            && m.bracket.OpenSignal? && m.bracket.sent.None?
            && n.bracket == m.bracket.(sent := Some(e.disposition)))
      && (!e.Signalled? ==> n.bracket == m.bracket || (!NotedSend(m) && !NotedSend(n)))
  }

  lemma RowSteps(plan: Plan, policy: Policy, m: Monitor, e: Event)
    requires Advance(plan, policy, m, e).lawful && m.lawful
    ensures RowStep(m, Advance(plan, policy, m, e), e)
  {
    hide InTurn;
  }

  lemma RowFollows(m: Monitor, n: Monitor, e: Event, d: Disposition)
    requires RowStep(m, n, e) && (d == Delivered || d == DeliveryUnknown)
    ensures RowFor(n, d) <==> RowFor(m, d) || (e.Signalled? && e.disposition == d)
  {
    if e.Completed? && e.ok {
      assert n.actions[|m.actions|].disposition == e.disposition;
      assert forall j :: 0 <= j < |m.actions| ==> n.actions[j] == m.actions[j];
    }
  }

  lemma RowKept(plan: Plan, policy: Policy, m: Monitor, e: Event, d: Disposition)
    requires Advance(plan, policy, m, e).lawful && m.lawful && (d == Delivered || d == DeliveryUnknown)
    ensures RowFor(Advance(plan, policy, m, e), d) <==> RowFor(m, d) || (e.Signalled? && e.disposition == d)
  {
    hide Advance;
    RowSteps(plan, policy, m, e);
    RowFollows(m, Advance(plan, policy, m, e), e, d);
  }

  /** The same for the artifact rows. */
  ghost predicate ArtifactStep(m: Monitor, n: Monitor, e: Event) {
    if e.CompletedArtifact? && e.ok then
      && m.bracket.OpenArtifact? && AsRemoved(m.bracket.removal, e.removal)
      && n.bracket.Closed? && n.artifactActions ==
          m.artifactActions + [ArtifactAction(m.bracket.fingerprint, e.removal)]
    else
      && n.artifactActions == m.artifactActions
      && (e.Unlinked? ==>
            && m.bracket.OpenArtifact? && m.bracket.removal.None?
            && n.bracket == m.bracket.(removal := Some(e.removal)))
      && (!e.Unlinked? ==> n.bracket == m.bracket || (!NotedRemoval(m) && !NotedRemoval(n)))
  }

  lemma ArtifactSteps(plan: Plan, policy: Policy, m: Monitor, e: Event)
    requires Advance(plan, policy, m, e).lawful && m.lawful
    ensures ArtifactStep(m, Advance(plan, policy, m, e), e)
  {
    hide InTurn;
  }

  lemma ArtifactFollows(m: Monitor, n: Monitor, e: Event, d: ArtifactDisposition)
    requires ArtifactStep(m, n, e) && (d == Removed || d == ArtifactDeliveryUnknown)
    ensures ArtifactRowFor(n, d) <==> ArtifactRowFor(m, d) || (e.Unlinked? && e.removal == d)
  {
    if e.CompletedArtifact? && e.ok {
      assert n.artifactActions[|m.artifactActions|].disposition == e.removal;
      assert forall j :: 0 <= j < |m.artifactActions| ==> n.artifactActions[j] == m.artifactActions[j];
    }
  }

  lemma ArtifactRowKept(plan: Plan, policy: Policy, m: Monitor, e: Event, d: ArtifactDisposition)
    requires Advance(plan, policy, m, e).lawful && m.lawful && (d == Removed || d == ArtifactDeliveryUnknown)
    ensures ArtifactRowFor(Advance(plan, policy, m, e), d) <==> ArtifactRowFor(m, d) || (e.Unlinked? && e.removal == d)
  {
    hide Advance;
    ArtifactSteps(plan, policy, m, e);
    ArtifactFollows(m, Advance(plan, policy, m, e), e, d);
  }

  lemma {:induction false} EffectsHaveRows(plan: Plan, policy: Policy, trace: Trace, log: seq<Monitor>, n: nat)
    requires Logs(plan, policy, trace, log) && n <= |trace| && log[n].lawful
    ensures SignalledBefore(trace, n, Delivered) <==> RowFor(log[n], Delivered)
    ensures SignalledBefore(trace, n, DeliveryUnknown) <==> RowFor(log[n], DeliveryUnknown)
    ensures UnlinkedBefore(trace, n, Removed) <==> ArtifactRowFor(log[n], Removed)
    ensures UnlinkedBefore(trace, n, ArtifactDeliveryUnknown) <==> ArtifactRowFor(log[n], ArtifactDeliveryUnknown)
    decreases n
  {
    hide Advance;
    if n > 0 {
      assert StepAt(plan, policy, trace, log, n - 1);
      WaitsKept(plan, policy, log[n - 1], trace[n - 1]);
      EffectsHaveRows(plan, policy, trace, log, n - 1);
      RowKept(plan, policy, log[n - 1], trace[n - 1], Delivered);
      RowKept(plan, policy, log[n - 1], trace[n - 1], DeliveryUnknown);
      ArtifactRowKept(plan, policy, log[n - 1], trace[n - 1], Removed);
      ArtifactRowKept(plan, policy, log[n - 1], trace[n - 1], ArtifactDeliveryUnknown);
    }
  }

  // ------------------------------------------------------------------ reappearance and echoed reasons

  lemma MemoryKept(plan: Plan, policy: Policy, m: Monitor, e: Event)
    ensures var n := Advance(plan, policy, m, e);
            && (forall pid :: pid in n.everNotRunning && pid !in m.everNotRunning ==> e == LookedUp(pid, NotRunning))
            && (n.reappeared && !m.reappeared ==>
                  e.Snapshotted? && e.result.Some? && FrozenTargetListed(plan, m.everNotRunning, e.result.value))
            && (forall r :: r in n.verdictReasons && r !in m.verdictReasons ==> e.Revalidated? && e.verdict.reason == r)
  {
    hide InTurn, InPlace;
  }

  lemma {:induction false} LookupSource(plan: Plan, policy: Policy, trace: Trace, log: seq<Monitor>, n: nat,
                                        pid: nat)
      returns (i: nat)
    requires Logs(plan, policy, trace, log) && n <= |trace| && pid in log[n].everNotRunning
    ensures i < n && trace[i] == LookedUp(pid, NotRunning)
    decreases n
  {
    hide Advance;
    assert StepAt(plan, policy, trace, log, n - 1);
    MemoryKept(plan, policy, log[n - 1], trace[n - 1]);
    if pid in log[n - 1].everNotRunning {
      i := LookupSource(plan, policy, trace, log, n - 1, pid);
    } else {
      i := n - 1;
    }
  }

  /** A frozen identity looked up as not running at `i` is listed again at `j`. */
  ghost predicate Reappears(plan: Plan, trace: Trace, i: int, j: int, t: Target) {
    && 0 <= i < j < |trace| && t in plan.targets
    && trace[i] == LookedUp(t.identity.pid, NotRunning)
    && trace[j].Snapshotted? && trace[j].result.Some?
    && ByPid(trace[j].result.value, t.identity.pid).Some?
    && ExactMatch(t.identity, ByPid(trace[j].result.value, t.identity.pid).value.identity)
  }

  ghost predicate AbsenceIsPermanent(plan: Plan, trace: Trace) {
    forall i, j, t :: !Reappears(plan, trace, i, j, t)
  }

  lemma {:induction false} ReappearanceSource(plan: Plan, policy: Policy, trace: Trace, log: seq<Monitor>, n: nat)
    requires Logs(plan, policy, trace, log) && n <= |trace| && log[n].reappeared
    ensures exists i, j, t :: Reappears(plan, trace, i, j, t)
    decreases n
  {
    hide Advance;
    assert StepAt(plan, policy, trace, log, n - 1);
    MemoryKept(plan, policy, log[n - 1], trace[n - 1]);
    if log[n - 1].reappeared {
      ReappearanceSource(plan, policy, trace, log, n - 1);
    } else {
      var s := trace[n - 1].result.value;
      var t :| t in plan.targets && t.identity.pid in log[n - 1].everNotRunning
               && ByPid(s, t.identity.pid).Some? && ExactMatch(t.identity, ByPid(s, t.identity.pid).value.identity);
      var i := LookupSource(plan, policy, trace, log, n - 1, t.identity.pid);
      assert Reappears(plan, trace, i, n - 1, t);
    }
  }

  ghost predicate RevalidatorSaid(trace: Trace, r: Reason) {
    exists k :: 0 <= k < |trace| && trace[k].Revalidated? && trace[k].verdict.reason == r
  }

  lemma {:induction false} ReasonSource(plan: Plan, policy: Policy, trace: Trace, log: seq<Monitor>, n: nat,
                                        r: Reason)
    requires Logs(plan, policy, trace, log) && n <= |trace| && r in log[n].verdictReasons
    ensures RevalidatorSaid(trace, r)
    decreases n
  {
    hide Advance;
    assert StepAt(plan, policy, trace, log, n - 1);
    MemoryKept(plan, policy, log[n - 1], trace[n - 1]);
    if r in log[n - 1].verdictReasons { ReasonSource(plan, policy, trace, log, n - 1, r); }
  }

  // ------------------------------------------------------------------ theorems about a finished run

  ghost predicate ProvedAbsent(plan: Plan, policy: Policy, trace: Trace) {
    exists s, at :: AbsenceProof(plan, policy, trace, s, at)
  }

  /** A receipt that projects a cleared process tree, even one with state Failed and
      an artifact left over, rests on an absence proof after every revival window,
      unless the revalidator itself used an artifact reason. */
  lemma ClearedMeansAbsent(plan: Plan, policy: Policy, fp: Identity -> string, result: ExecResult, trace: Trace)
    requires Guarantee(plan, policy, fp, result, Watch(plan, policy, trace))
    requires IsTerminal(result) && ProcessOutcomeOf(ReceiptOf(result)) == ProcessCleared
    ensures ProvedAbsent(plan, policy, trace)
            || (ArtifactReason(ReceiptOf(result).reason) && RevalidatorSaid(trace, ReceiptOf(result).reason.value))
  {
    var log := LogExists(plan, policy, trace);
    if log[|trace|].terminal {
      var s, at := FirstTerminal(plan, policy, trace, log, |trace|);
    } else {
      ReasonSource(plan, policy, trace, log, |trace|, ReceiptOf(result).reason.value);
    }
  }

  /** The last snapshot, taken after everything that was done, shows the tree gone: no
      frozen target is listed, each was then looked up and not running, and the
      revalidator called the tree Gone. */
  ghost predicate GoneAtTheEnd(plan: Plan, trace: Trace, s: int) {
    && 0 <= s < |trace| && trace[s].Snapshotted? && trace[s].result.Some?
    && (forall k :: s < k < |trace| ==> !Opens(trace[k]) && !Acts(trace[k]) && !trace[k].Snapshotted?)
    && Judged(trace, s, |trace|, trace[s].result.value, RevivalCheck, Gone)
    && forall t :: t in plan.targets ==>
         && ByPid(trace[s].result.value, t.identity.pid).None?
         && FoundNotRunning(trace, s, |trace|, t.identity.pid)
  }

  /** A Cleared receipt always rests on an absence proof, which includes that every grace
      and every revival window was waited out and each window ended in a Gone verdict;
      and the tree was still gone after the last artifact was dealt with. */
  lemma ClearedIsProved(plan: Plan, policy: Policy, fp: Identity -> string, result: ExecResult, trace: Trace)
    requires Guarantee(plan, policy, fp, result, Watch(plan, policy, trace))
    requires ReceiptOf(result).state == Cleared
    ensures ProvedAbsent(plan, policy, trace)
    ensures exists s :: GoneAtTheEnd(plan, trace, s)
  {
    hide Watch, AbsenceProof;
    var log := LogExists(plan, policy, trace);
    var s, at := FirstTerminal(plan, policy, trace, log, |trace|);
    GoneInView(plan, policy, trace, log);
  }

  /** What the last view shows was seen after everything that was done. */
  lemma GoneInView(plan: Plan, policy: Policy, trace: Trace, log: seq<Monitor>)
    requires Logs(plan, policy, trace, log) && log[|trace|].lawful && TreeGone(plan, log[|trace|])
    ensures exists s :: GoneAtTheEnd(plan, trace, s)
  {
    hide Advance, CompletedWaits, Stages;
    var p, last := Remembered(plan, policy, trace, log, |trace|);
    assert GoneAtTheEnd(plan, trace, last);
  }

  /** If an identity once found not running never comes back, no KILL is refused for
      want of a TERM. */
  lemma NoKillWithoutTerm(plan: Plan, policy: Policy, fp: Identity -> string, result: ExecResult, trace: Trace)
    requires Guarantee(plan, policy, fp, result, Watch(plan, policy, trace))
    requires AbsenceIsPermanent(plan, trace) && !RevalidatorSaid(trace, KillWithoutTerm)
    ensures ReceiptOf(result).reason != Some(KillWithoutTerm)
  {
    var log := LogExists(plan, policy, trace);
    if log[|trace|].reappeared { ReappearanceSource(plan, policy, trace, log, |trace|); }
    if KillWithoutTerm in log[|trace|].verdictReasons {
      ReasonSource(plan, policy, trace, log, |trace|, KillWithoutTerm);
    }
  }

  // ------------------------------------------------------------------ what the daemon reads off a receipt

  /** A signal or a removal that may or may not have happened. */
  predicate InDoubt(r: Receipt) {
    || (exists a :: a in r.actions && a.disposition == DeliveryUnknown)
    || (exists a :: a in r.artifactActions && a.disposition == ArtifactDeliveryUnknown)
  }

  predicate DidSomething(r: Receipt) {
    || (exists a :: a in r.actions && a.disposition == Delivered)
    || (exists a :: a in r.artifactActions && a.disposition == Removed)
  }

  /** An artifact is left that should have gone: the run failed over it, or a row says so. */
  predicate LeavesResidue(r: Receipt) {
    || (r.reason.Some? && r.reason.value in {ArtifactIdentityChanged, ArtifactLiveReference, ArtifactUnsafeReason,
                                             ArtifactRejectedReason})
    || (r.state == Cleared && exists a :: a in r.artifactActions && a.disposition !in {Removed, AlreadyAbsent})
  }

  lemma SameRows(r: Receipt, d: Disposition, e: ArtifactDisposition)
    ensures AnySignal(r, d) <==> exists a :: a in r.actions && a.disposition == d
    ensures AnyArtifact(r, e) <==> exists a :: a in r.artifactActions && a.disposition == e
  {
    if a :| a in r.actions && a.disposition == d {
      var i :| 0 <= i < |r.actions| && r.actions[i] == a;
    }
    if a :| a in r.artifactActions && a.disposition == e {
      var i :| 0 <= i < |r.artifactActions| && r.artifactActions[i] == a;
    }
  }

  /** The outcome, field by field: cleared with residue when nothing is in doubt, the tree
      did not revive and an artifact is left; cleared when nothing is in doubt and
      nothing is left. */
  lemma OutcomesExactly(r: Receipt)
    ensures var doubt := InDoubt(r) || r.reason == Some(ArtifactUnknownReason);
      && (OverallOf(r) == ClearedWithResidue <==> !doubt && r.state != RevivedState && LeavesResidue(r))
      && (OverallOf(r) == OverallCleared <==> !doubt && r.state == Cleared && !LeavesResidue(r))
      && (OverallOf(r) == OverallRevived <==> !doubt && r.state == RevivedState)
  {
    SameRows(r, DeliveryUnknown, ArtifactDeliveryUnknown);
    forall i | 0 <= i < |r.artifactActions| ensures r.artifactActions[i] in r.artifactActions {}
    if a :| a in r.artifactActions && a.disposition !in {Removed, AlreadyAbsent} {
      var i :| 0 <= i < |r.artifactActions| && r.artifactActions[i] == a;
    }
  }

  /** When the daemon stops enforcing: something is in doubt, or something was done and
      the run neither cleared the tree nor failed over residue alone. */
  lemma FailsCloseExactly(r: Receipt)
    ensures RequiresFailClose(r) <==>
      InDoubt(r) || (DidSomething(r) && r.state != Cleared && (r.state == RevivedState || !LeavesResidue(r)))
  {
    SameRows(r, DeliveryUnknown, ArtifactDeliveryUnknown);
    SameRows(r, Delivered, Removed);
    OutcomesExactly(r);
  }

  ghost predicate Uncertain(trace: Trace) {
    SignalledBefore(trace, |trace|, DeliveryUnknown) || UnlinkedBefore(trace, |trace|, ArtifactDeliveryUnknown)
  }

  ghost predicate SideEffect(trace: Trace) {
    SignalledBefore(trace, |trace|, Delivered) || UnlinkedBefore(trace, |trace|, Removed)
  }

  /** The receipt of a finished run records a side effect exactly when one happened. */
  lemma ReceiptTellsEffects(plan: Plan, policy: Policy, fp: Identity -> string, r: Receipt, trace: Trace)
    requires Guarantee(plan, policy, fp, Ok(r), Watch(plan, policy, trace))
    ensures SignalledBefore(trace, |trace|, Delivered) <==> AnySignal(r, Delivered)
    ensures UnlinkedBefore(trace, |trace|, Removed) <==> AnyArtifact(r, Removed)
    ensures Uncertain(trace) <==> AnySignal(r, DeliveryUnknown) || AnyArtifact(r, ArtifactDeliveryUnknown)
  {
    var log := LogExists(plan, policy, trace);
    EffectsHaveRows(plan, policy, trace, log, |trace|);
  }

  /** The daemon keeps enforcing after a run exactly when nothing is uncertain and
      either nothing was done, or the state is Cleared, or only artifact residue is
      left; and in the last two cases the tree was proved absent. */
  lemma FailCloseIsComplete(plan: Plan, policy: Policy, fp: Identity -> string, r: Receipt, trace: Trace)
    requires Guarantee(plan, policy, fp, Ok(r), Watch(plan, policy, trace))
    ensures !RequiresFailClose(r) <==>
              !Uncertain(trace) && (!SideEffect(trace) || r.state == Cleared || OverallOf(r) == ClearedWithResidue)
    ensures !RequiresFailClose(r) && SideEffect(trace) ==>
              || ProvedAbsent(plan, policy, trace)
              || (ArtifactReason(r.reason) && RevalidatorSaid(trace, r.reason.value))
  {
    ReceiptTellsEffects(plan, policy, fp, r, trace);
    if !RequiresFailClose(r) && SideEffect(trace) {
      ClearedMeansAbsent(plan, policy, fp, Ok(r), trace);
    }
  }
}
