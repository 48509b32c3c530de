/** The order and the timing of the calls of a run, and why it ended. */
module CleanupOrder {
  import opened Wrappers
  import opened CleanupTypes
  import opened CleanupMonitor
  import opened CleanupEscalation
  import opened CleanupGuarantee
  import opened CleanupTrace
  import opened CleanupTheorems

  // ------------------------------------------------------------------ the calls since the last poll

  lemma TurnKept(plan: Plan, policy: Policy, m: Monitor, e: Event)
    ensures Advance(plan, policy, m, e).tail == TailAfter(m.tail, e)
    ensures Advance(plan, policy, m, e).lawful ==> InTurn(m, e) && InPlace(plan, policy, m, e)
  {
    hide InTurn, InPlace, Step;
  }

  lemma LawfulStep(plan: Plan, policy: Policy, trace: Trace, log: seq<Monitor>, k: nat)
    requires Logs(plan, policy, trace, log) && k < |trace| && log[|trace|].lawful
    ensures log[k].lawful && log[k + 1] == Advance(plan, policy, log[k], trace[k])
    ensures InTurn(log[k], trace[k]) && InPlace(plan, policy, log[k], trace[k])
    ensures log[k + 1].lawful && log[k + 1].tail == TailAfter(log[k].tail, trace[k])
  {
    hide Advance, InTurn, InPlace;
    LawfulBefore(plan, policy, trace, log, k);
    LawfulBefore(plan, policy, trace, log, k + 1);
    assert StepAt(plan, policy, trace, log, k);
    TurnKept(plan, policy, log[k], trace[k]);
  }

  /** The tail of the monitor is what was called since the last stop poll. */
  lemma {:induction false} TailIs(plan: Plan, policy: Policy, trace: Trace, log: seq<Monitor>, n: nat) returns (p: nat)
    requires Logs(plan, policy, trace, log) && 0 < n <= |trace| && log[|trace|].lawful
    ensures p < n && trace[p].StopPolled? && log[n].tail == trace[p..n]
    ensures forall k :: p < k < n ==> !trace[k].StopPolled?
    decreases n
  {
    hide Advance, InPlace, Ending, OwesPoll, OwesAbsence, OwesClock, OwesRow;
    LawfulStep(plan, policy, trace, log, n - 1);
    if trace[n - 1].StopPolled? {
      p := n - 1;
    } else {
      p := TailIs(plan, policy, trace, log, n - 1);
      assert trace[p..n] == trace[p..n - 1] + [trace[n - 1]];
    }
  }

  /** Nothing is sent, removed or waited for but directly after the stop flag was
      polled and said no. */
  lemma EffectsFollowPolls(plan: Plan, policy: Policy, trace: Trace, at: nat)
    requires at < |trace| && Watch(plan, policy, trace).lawful && (Acts(trace[at]) || trace[at].Waited?)
    ensures 0 < at && trace[at - 1] == StopPolled(false)
  {
    hide Advance, Watch;
    var log := LogExists(plan, policy, trace);
    LawfulStep(plan, policy, trace, log, at);
    if 0 < at {
      var p := TailIs(plan, policy, trace, log, at);
      assert trace[p..at][0] == trace[p];
    }
  }

  /** A row is opened only directly after a poll and the clock; before an artifact row
      there may be one look at its path between the two. */
  lemma RowsFollowPolls(plan: Plan, policy: Policy, trace: Trace, at: nat)
    requires at < |trace| && Watch(plan, policy, trace).lawful && (trace[at].Prepared? || trace[at].PreparedArtifact?)
    ensures 2 <= at && trace[at - 1] == ClockRead(true)
    ensures trace[at - 2] == StopPolled(false) || (
      && trace[at].PreparedArtifact? && 3 <= at && trace[at - 3] == StopPolled(false)
      && trace[at - 2].Froze? && trace[at - 2].candidate.fingerprint == trace[at].fingerprint)
  {
    hide Advance, Watch, InTurn;
    var log := LogExists(plan, policy, trace);
    LawfulStep(plan, policy, trace, log, at);
    if at == 0 { UntriedTail(plan, policy, trace, log); }
    var p := TailIs(plan, policy, trace, log, at);
    var tail := trace[p..at];
    assert forall k :: 0 <= k < |tail| ==> tail[k] == trace[p + k];
  }

  lemma UntriedTail(plan: Plan, policy: Policy, trace: Trace, log: seq<Monitor>)
    requires Logs(plan, policy, trace, log)
    ensures log[0].tail == []
  {
  }

  /** When a wait is over, and when a row was opened, the stop flag is polled at once. */
  lemma PollsFollow(plan: Plan, policy: Policy, fp: Identity -> string, result: ExecResult, trace: Trace, k: nat)
    requires Guarantee(plan, policy, fp, result, Watch(plan, policy, trace)) && k < |trace|
    requires Opens(trace[k]) || (trace[k].Waited? && trace[k].outcome.DeadlineReached?)
    ensures k + 1 < |trace| && trace[k + 1].StopPolled?
  {
    hide Advance, Watch, InPlace, Guarantee;
    var log := LogExists(plan, policy, trace);
    Lawful(plan, policy, fp, result, log[|trace|]);
    LawfulStep(plan, policy, trace, log, k);
    assert OwesPoll(log[k + 1]);
    assert k + 1 < |trace|;
    LawfulStep(plan, policy, trace, log, k + 1);
  }

  lemma Lawful(plan: Plan, policy: Policy, fp: Identity -> string, result: ExecResult, m: Monitor)
    requires Guarantee(plan, policy, fp, result, m)
    ensures m.lawful && JournalAgrees(result, m) && Concludes(plan, policy, result, m)
  {
  }

  // ------------------------------------------------------------------ graces

  /** While a signal row is open no wait is over but the graces of the stages before. */
  lemma RowPacedStep(plan: Plan, policy: Policy, m: Monitor, e: Event)
    requires Advance(plan, policy, m, e).lawful && Advance(plan, policy, m, e).bracket.OpenSignal?
    requires m.bracket.OpenSignal? ==> m.waits == Graces(policy)[..StageRank(m.bracket.intent.stage)]
    ensures var n := Advance(plan, policy, m, e);
            n.waits == Graces(policy)[..StageRank(n.bracket.intent.stage)]
  {
    hide InTurn, TruthfulSignal, TruthfulArtifact, UnlinkAllowed;
  }

  lemma {:induction false} RowPaced(plan: Plan, policy: Policy, trace: Trace, log: seq<Monitor>, n: nat)
    requires Logs(plan, policy, trace, log) && n <= |trace| && log[|trace|].lawful && log[n].bracket.OpenSignal?
    ensures log[n].waits == Graces(policy)[..StageRank(log[n].bracket.intent.stage)]
    decreases n
  {
    hide Advance, InTurn, InPlace;
    LawfulStep(plan, policy, trace, log, n - 1);
    if log[n - 1].bracket.OpenSignal? { RowPaced(plan, policy, trace, log, n - 1); }
    RowPacedStep(plan, policy, log[n - 1], trace[n - 1]);
  }

  /** Every stage begins with an observation of its own that found survivors fit to be
      signalled, and when exactly the graces of the stages before it are over. */
  lemma StagesArePaced(plan: Plan, policy: Policy, trace: Trace, p: nat)
    requires p < |trace| && Watch(plan, policy, trace).lawful && trace[p].Prepared?
    ensures Stages(trace, p) == StageRank(trace[p].intent.stage) + 1
    ensures CompletedWaits(trace, p) == Graces(policy)[..StageRank(trace[p].intent.stage)]
  {
    hide Advance, Watch, InTurn;
    var log := LogExists(plan, policy, trace);
    LawfulStep(plan, policy, trace, log, p);
    var q, s := Remembered(plan, policy, trace, log, p);
  }

  lemma {:induction false} WaitsGrow(trace: Trace, i: nat, j: nat)
    requires i <= j <= |trace|
    ensures CompletedWaits(trace, i) <= CompletedWaits(trace, j)
    decreases j
  {
    if i < j { WaitsGrow(trace, i, j - 1); }
  }

  /** The first wait after `i`. */
  lemma {:induction false} FirstWait(trace: Trace, i: nat, j: nat) returns (w: nat)
    requires i <= j <= |trace| && |CompletedWaits(trace, i)| < |CompletedWaits(trace, j)|
    ensures i <= w < j && trace[w] == Waited(CompletedWaits(trace, j)[|CompletedWaits(trace, i)|], DeadlineReached)
    ensures |CompletedWaits(trace, w + 1)| == |CompletedWaits(trace, i)| + 1
    decreases j
  {
    if |CompletedWaits(trace, i)| < |CompletedWaits(trace, j - 1)| {
      w := FirstWait(trace, i, j - 1);
    } else {
      w := j - 1;
      WaitsGrow(trace, i, j - 1);
    }
  }

  /** The row of a signal: its stage, and the waits that were over when it was sent. */
  lemma SignalIsPaced(plan: Plan, policy: Policy, trace: Trace, p: nat, i: nat)
    requires i < |trace| && Watch(plan, policy, trace).lawful && trace[i].Signalled?
    requires StillOpen(trace, p, i) && trace[p].Prepared? && trace[p].id.Some?
    ensures CompletedWaits(trace, i) == Graces(policy)[..StageRank(trace[p].intent.stage)]
  {
    hide Advance, Watch, InTurn, InPlace;
    var log := LogExists(plan, policy, trace);
    LawfulStep(plan, policy, trace, log, i);
    EffectAllowed(plan, policy, log[i], trace[i]);
    var q, s := Remembered(plan, policy, trace, log, i);
    assert Opens(trace[p]) && Opens(trace[q]);
    RowPaced(plan, policy, trace, log, i);
  }

  /** Between a signal and any row of a later stage the whole grace of the signal's own
      stage was waited out. */
  lemma GraceBeforeNextStage(plan: Plan, policy: Policy, trace: Trace, p: nat, i: nat, j: nat) returns (w: nat)
    requires Watch(plan, policy, trace).lawful && i < j < |trace| && trace[i].Signalled? && trace[j].Prepared?
    requires StillOpen(trace, p, i) && trace[p].Prepared? && trace[p].id.Some?
    requires StageRank(trace[p].intent.stage) < StageRank(trace[j].intent.stage)
    ensures i < w < j
    ensures trace[w] == Waited(Graces(policy)[StageRank(trace[p].intent.stage)], DeadlineReached)
  {
    hide Watch;
    SignalIsPaced(plan, policy, trace, p, i);
    StagesArePaced(plan, policy, trace, j);
    w := FirstWait(trace, i, j);
  }

  /** Between a signal and the snapshot that proves the tree gone the grace of its stage
      was waited out, and every revival window after it. */
  lemma GraceBeforeProof(plan: Plan, policy: Policy, trace: Trace, p: nat, i: nat, s: nat, at: nat) returns (w: nat)
    requires Watch(plan, policy, trace).lawful && i < |trace| && trace[i].Signalled? && i < s
    requires StillOpen(trace, p, i) && trace[p].Prepared? && trace[p].id.Some?
    requires AbsenceProof(plan, policy, trace, s, at)
    ensures i < w < s
    ensures trace[w] == Waited(Graces(policy)[StageRank(trace[p].intent.stage)], DeadlineReached)
    ensures |CompletedWaits(trace, s)| >= |CompletedWaits(trace, w + 1)| + |policy.windows|
  {
    hide Watch, WindowsEnded, FoundNotRunning;
    SignalIsPaced(plan, policy, trace, p, i);
    StagesArePaced(plan, policy, trace, p);
    StagesGrow(trace, p, at);
    w := FirstWait(trace, i, s);
  }

  lemma {:induction false} StagesGrow(trace: Trace, i: nat, j: nat)
    requires i <= j <= |trace|
    ensures Stages(trace, i) <= Stages(trace, j)
    decreases j
  {
    if i < j { StagesGrow(trace, i, j - 1); }
  }

  // ------------------------------------------------------------------ stopping

  /** Since the stop flag said stop, nothing was done but to complete the open row, as
      cancelled. */
  predicate Stopping(m: Monitor) {
    && 1 <= |m.tail| <= 3 && m.tail[0] == StopPolled(true) && !NotedSend(m) && !NotedRemoval(m)
    && (|m.tail| > 1 ==> m.tail[1].ClockRead? && (|m.tail| == 3 || !m.bracket.Closed?))
    && (|m.tail| > 2 ==>
          || (m.tail[2].Completed? && (m.tail[2].ok ==> m.tail[2].disposition == CancelledBeforeDelivery))
          || (m.tail[2].CompletedArtifact? && (m.tail[2].ok ==> m.tail[2].removal == ArtifactCancelled)))
  }

  /** What was sent or removed is written down before anything else. */
  predicate Noting(m: Monitor) {
    NotedSend(m) || NotedRemoval(m) ==> m.tail != [] && (OwesClock(m) || OwesRow(m) || Ending(m))
  }

  lemma NotingStep(plan: Plan, policy: Policy, m: Monitor, e: Event)
    requires Noting(m) && Advance(plan, policy, m, e).lawful
    ensures Noting(Advance(plan, policy, m, e))
  {
    hide TruthfulSignal, TruthfulArtifact, SignalAllowed, UnlinkAllowed, FrozenTargetListed, WindowsPassed, InPlace,
      LooksForLast, OwesPoll, OwesAbsence;
  }

  lemma {:induction false} NotingThroughout(plan: Plan, policy: Policy, trace: Trace, log: seq<Monitor>, n: nat)
    requires Logs(plan, policy, trace, log) && n <= |trace| && log[|trace|].lawful
    ensures Noting(log[n])
    decreases n
  {
    hide Advance, InTurn, InPlace;
    if n > 0 {
      NotingThroughout(plan, policy, trace, log, n - 1);
      LawfulStep(plan, policy, trace, log, n - 1);
      NotingStep(plan, policy, log[n - 1], trace[n - 1]);
    }
  }

  lemma StoppingStep(plan: Plan, policy: Policy, m: Monitor, e: Event)
    requires Noting(m) && Advance(plan, policy, m, e).lawful && Advance(plan, policy, m, e).stopped
    requires m.stopped ==> Stopping(m)
    ensures Stopping(Advance(plan, policy, m, e)) && (m.stopped ==> !e.StopPolled?)
  {
  }

  lemma {:induction false} StoppingThroughout(plan: Plan, policy: Policy, trace: Trace, log: seq<Monitor>, n: nat)
    requires Logs(plan, policy, trace, log) && n <= |trace| && log[|trace|].lawful && log[n].stopped
    ensures Stopping(log[n])
    decreases n
  {
    hide Advance, InTurn, InPlace;
    LawfulStep(plan, policy, trace, log, n - 1);
    NotingThroughout(plan, policy, trace, log, n - 1);
    if log[n - 1].stopped { StoppingThroughout(plan, policy, trace, log, n - 1); }
    StoppingStep(plan, policy, log[n - 1], trace[n - 1]);
  }
}
