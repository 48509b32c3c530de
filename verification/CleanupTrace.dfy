/** What a lawful trace means, said over the calls themselves: the monitor is
    only the bookkeeping, these lemmas are the properties. */
module CleanupTrace {
  import opened Wrappers
  import opened CleanupTypes
  import opened CleanupMonitor

  // ------------------------------------------------------------------ plain readings of a trace

  ghost predicate FoundNotRunning(trace: Trace, lo: int, hi: int, pid: nat) {
    exists k :: 0 <= k < |trace| && lo < k < hi && trace[k] == LookedUp(pid, NotRunning)
  }

  ghost predicate Judged(trace: Trace, lo: int, hi: int, s: Snapshot, phase: Phase, status: Status) {
    exists k :: 0 <= k < |trace| && lo < k < hi
                && trace[k].Revalidated? && trace[k].snapshot == s && trace[k].phase == phase
                    && trace[k].verdict.status == status
  }

  /** The durations of those of the first `n` calls that waited to their deadline. */
  function CompletedWaits(trace: Trace, n: nat): seq<nat>
    requires n <= |trace|
  {
    if n == 0 then []
    else if trace[n - 1].Waited? && trace[n - 1].outcome.DeadlineReached?
    then CompletedWaits(trace, n - 1) + [trace[n - 1].duration]
    else CompletedWaits(trace, n - 1)
  }

  /** The stages entered by the first `n` calls: the Eligible verdicts between rows. */
  function Stages(trace: Trace, n: nat): nat
    requires n <= |trace|
  {
    if n == 0 then 0
    else Stages(trace, n - 1) + (if Enters(trace[n - 1]) && !RowOpen(trace, n - 1) then 1 else 0)
  }

  predicate Enters(e: Event) { e.Revalidated? && e.phase.BeforeSignal? && e.verdict.status.Eligible? }

  /** A row is open after the first `n` calls. */
  predicate RowOpen(trace: Trace, n: nat)
    requires n <= |trace|
  {
    if n == 0 then false
    else if Opens(trace[n - 1]) then true
    else if Closes(trace[n - 1]) then false
    else RowOpen(trace, n - 1)
  }

  /** Every stage that was entered was followed by its own grace, and then came all
      revival windows, and nothing else was waited for. */
  predicate Paced(policy: Policy, trace: Trace, n: nat)
    requires n <= |trace|
  {
    Stages(trace, n) <= 3 && CompletedWaits(trace, n) == Graces(policy)[..Stages(trace, n)] + policy.windows
  }

  /** A journal row was opened, or closed. */
  predicate Opens(e: Event) { (e.Prepared? || e.PreparedArtifact?) && e.id.Some? }

  predicate Closes(e: Event) { (e.Completed? || e.CompletedArtifact?) && e.ok }

  predicate Acts(e: Event) { e.Signalled? || e.Unlinked? }

  /** The row opened at `p` is still open at `at`, and nothing was done under it. */
  ghost predicate StillOpen(trace: Trace, p: int, at: int) {
    && 0 <= p < at <= |trace|
    && forall k :: p < k < at ==> !Opens(trace[k]) && !Closes(trace[k]) && !Acts(trace[k])
  }

  /** Fresh evidence for a signal to `identity` at position `at`: its own PREPARED row,
      still open and unused, a snapshot taken after that row, every frozen target accounted for
      by that snapshot or a later lookup, and an Eligible verdict on it. */
  ghost predicate SignalEvidence(plan: Plan, trace: Trace, at: int, identity: Identity, signal: Signal, p: int,
                                 s: int) {
    && 0 <= p < s < at < |trace|
    && trace[p].Prepared? && trace[p].id.Some?
    && trace[p].intent.pid == identity.pid && trace[p].intent.signal == signal
    && StillOpen(trace, p, at)
    && trace[s].Snapshotted? && trace[s].result.Some?
    && var snapshot := trace[s].result.value;
       && ByPid(snapshot, identity.pid).Some?
       && Judged(trace, s, at, snapshot, BeforeSignal, Eligible)
       && forall t :: t in plan.targets ==>
            match ByPid(snapshot, t.identity.pid)
            case Some(q) => ExactMatch(t.identity, q.identity)
            case None => FoundNotRunning(trace, s, at, t.identity.pid)
  }

  /** The wait with number `j` ended, before `hi` and before any other wait, in a Gone
      verdict on a snapshot taken after it. */
  ghost predicate WindowEnded(trace: Trace, hi: int, j: nat, w: int, s: int, v: int) {
    && 0 <= w < s < v < hi <= |trace|
    && trace[w].Waited? && trace[w].outcome.DeadlineReached? && |CompletedWaits(trace, w)| == j
    && trace[s].Snapshotted? && trace[s].result.Some?
    && trace[v].Revalidated? && trace[v].snapshot == trace[s].result.value
    && trace[v].phase == RevivalCheck && trace[v].verdict.status == Gone
    && |CompletedWaits(trace, v)| == j + 1
  }

  ghost predicate EndedBefore(trace: Trace, hi: int, j: nat) {
    exists w, s, v :: WindowEnded(trace, hi, j, w, s, v)
  }

  /** Each of the last `count` waits before `hi` ended in a Gone verdict. */
  ghost predicate WindowsEnded(trace: Trace, hi: nat, count: nat)
    requires hi <= |trace|
  {
    var waits := |CompletedWaits(trace, hi)|;
    count <= waits && forall j :: waits - count <= j < waits ==> EndedBefore(trace, hi, j)
  }

  /** Proof that the whole tree was gone when `trace[at]` was answered: the grace of every
      stage and all revival windows waited out, each window ended in a Gone verdict, then
      one snapshot without any
      frozen target, each of them looked up and not running, and a Gone verdict on it. */
  ghost predicate AbsenceProof(plan: Plan, policy: Policy, trace: Trace, s: int, at: int) {
    && 0 <= s < at < |trace|
    && trace[s].Snapshotted? && trace[s].result.Some?
    && trace[at].Revalidated? && trace[at].snapshot == trace[s].result.value
    && trace[at].phase == RevivalCheck && trace[at].verdict.status == Gone
    && Paced(policy, trace, at) && CompletedWaits(trace, s) == CompletedWaits(trace, at)
    && WindowsEnded(trace, at + 1, |policy.windows|)
    && forall t :: t in plan.targets ==>
         ByPid(trace[s].result.value, t.identity.pid).None? && FoundNotRunning(trace, s, at, t.identity.pid)
  }

  /** The artifact was frozen before any row was opened, the tree was proved absent
      after that, and the removal's own PREPARED row is still open and unused. */
  ghost predicate UnlinkEvidence(plan: Plan, policy: Policy, trace: Trace, at: int, f: int, s: int, a: int, p: int) {
    && 0 <= f < a < p < at < |trace| && trace[at].Unlinked?
    && trace[f].Froze? && trace[f].freeze == Some(Freeze.Frozen(trace[at].artifact))
    && (forall k :: 0 <= k < f ==> !Opens(trace[k]) && !Acts(trace[k]))
    && StillOpen(trace, p, at)
    && AbsenceProof(plan, policy, trace, s, a)
    && trace[p].PreparedArtifact? && trace[p].id.Some? && trace[p].fingerprint == trace[f].candidate.fingerprint
  }

  // ------------------------------------------------------------------ what the monitor remembers, and why

  lemma {:induction false} LawfulBefore(plan: Plan, policy: Policy, trace: Trace, log: seq<Monitor>, n: nat)
    requires Logs(plan, policy, trace, log) && n <= |trace| && log[|trace|].lawful
    ensures log[n].lawful
    decreases |trace| - n
  {
    if n < |trace| {
      LawfulBefore(plan, policy, trace, log, n + 1);
      assert StepAt(plan, policy, trace, log, n);
    }
  }

  lemma {:induction false} Lasts(plan: Plan, policy: Policy, trace: Trace, log: seq<Monitor>, n: nat, k: nat)
    requires Logs(plan, policy, trace, log) && n <= k <= |trace|
    ensures log[n].stopped ==> log[k].stopped
    ensures log[n].terminal ==> log[k].terminal
    decreases k
  {
    if n < k {
      Lasts(plan, policy, trace, log, n, k - 1);
      assert StepAt(plan, policy, trace, log, k - 1);
    }
  }

  /** Where the open row came from: position `p`, with nothing sent since. */
  ghost predicate BracketFrom(m: Monitor, trace: Trace, n: nat, p: int)
    requires n <= |trace|
  {
    m.bracket.OpenSignal? ==>
      && 0 <= p < n
      && trace[p] == Prepared(m.bracket.intent, Some(m.bracket.id))
      && (forall k :: p < k < n ==> !Opens(trace[k]) && !Closes(trace[k]))
      && (m.bracket.sent.None? ==> forall k :: p < k < n ==> !Acts(trace[k]))
  }

  /** Where the view came from: position `s`. */
  ghost predicate ViewFrom(m: Monitor, trace: Trace, n: nat, p: int, s: int)
    requires n <= |trace|
  {
    m.view.Some? ==>
      && 0 <= s < n
      && trace[s] == Snapshotted(Some(m.view.value.snapshot))
      && (m.bracket.OpenSignal? ==> p < s)
      && CompletedWaits(trace, s) == m.waits
      && forall k :: s < k < n ==>
           !Opens(trace[k]) && !Acts(trace[k]) && !trace[k].Waited? && !trace[k].Snapshotted?
  }

  ghost predicate FoundRunning(trace: Trace, lo: int, hi: int, pid: nat) {
    exists k :: 0 <= k < |trace| && lo < k < hi
                && trace[k].LookedUp? && trace[k].pid == pid && trace[k].answer.Running?
  }

  /** What was learned about the view since position `s`. */
  ghost predicate LearnedSince(v: View, trace: Trace, n: nat, s: int) {
    && (forall pid :: pid in v.notRunning ==> FoundNotRunning(trace, s, n, pid))
    && (forall pid :: pid in v.running ==> FoundRunning(trace, s, n, pid))
    && (v.eligible ==> Judged(trace, s, n, v.snapshot, BeforeSignal, Eligible))
    && (v.gone ==> Judged(trace, s, n, v.snapshot, RevivalCheck, Gone))
  }

  lemma BracketStep(plan: Plan, policy: Policy, trace: Trace, m: Monitor, e: Event, n: nat, p: int)
    requires n < |trace| && trace[n] == e && BracketFrom(m, trace, n, p) && Advance(plan, policy, m, e).lawful
    ensures BracketFrom(Advance(plan, policy, m, e), trace, n + 1, if e.Prepared? && e.id.Some? then n else p)
  {
    hide InTurn, InPlace, TruthfulSignal, TruthfulArtifact, WindowsPassed, FrozenTargetListed;
  }

  lemma ViewTaken(plan: Plan, policy: Policy, m: Monitor, e: Event)
    requires e.Snapshotted?
    ensures var n := Advance(plan, policy, m, e);
            n.view.Some? ==>
              && e.result.Some? && n.view.value == View(e.result.value, {}, {}, false, false)
              && n.bracket == m.bracket && n.waits == m.waits
  {
    hide InTurn, InPlace;
  }

  /** A view survives only events that are neither a snapshot, a wait, a new row nor an
      effect. */
  lemma ViewKept(plan: Plan, policy: Policy, m: Monitor, e: Event)
    requires !e.Snapshotted? && Advance(plan, policy, m, e).lawful
    ensures var n := Advance(plan, policy, m, e);
            n.view.Some? ==>
              && m.view.Some? && n.waits == m.waits && !Opens(e) && !Acts(e) && !e.Waited?
              && (n.bracket.OpenSignal? ==> m.bracket.OpenSignal?)
              && n.view.value.snapshot == m.view.value.snapshot
  {
    hide InTurn, InPlace, WindowsPassed;
    if !e.Revalidated? { ViewKeptOtherwise(plan, policy, m, e); }
  }

  lemma ViewKeptOtherwise(plan: Plan, policy: Policy, m: Monitor, e: Event)
    requires !e.Snapshotted? && !e.Revalidated? && Advance(plan, policy, m, e).lawful
    ensures var n := Advance(plan, policy, m, e);
            n.view.Some? ==>
              && m.view.Some? && n.waits == m.waits && !Opens(e) && !Acts(e) && !e.Waited?
              && (n.bracket.OpenSignal? ==> m.bracket.OpenSignal?)
              && n.view.value.snapshot == m.view.value.snapshot
  {
    hide InTurn, InPlace, Judge, SignalAllowed, TruthfulSignal, TruthfulArtifact, UnlinkAllowed;
  }

  /** A verdict on this view. */
  predicate Favours(e: Event, v: View, phase: Phase, status: Status) {
    e.Revalidated? && e.snapshot == v.snapshot && e.phase == phase && e.verdict.status == status
  }

  /** It grows only by a lookup */
  lemma ViewGrows(plan: Plan, policy: Policy, m: Monitor, e: Event)
    requires !e.Snapshotted?
    ensures var n := Advance(plan, policy, m, e);
            n.view.Some? && m.view.Some? ==>
              && (forall pid :: pid in n.view.value.notRunning && pid !in m.view.value.notRunning ==>
                    e == LookedUp(pid, NotRunning))
              && (forall pid :: pid in n.view.value.running && pid !in m.view.value.running ==>
                    e.LookedUp? && e.pid == pid && e.answer.Running?)
  {
    hide InTurn, InPlace, SignalAllowed, TruthfulSignal, TruthfulArtifact, WindowsPassed, FrozenTargetListed,
      UnlinkAllowed;
  }

  /** or a verdict on its own snapshot. */
  lemma ViewJudged(plan: Plan, policy: Policy, m: Monitor, e: Event)
    requires !e.Snapshotted?
    ensures var n := Advance(plan, policy, m, e);
            n.view.Some? && m.view.Some? ==>
              && (n.view.value.eligible ==> m.view.value.eligible || Favours(e, n.view.value, BeforeSignal, Eligible))
              && (n.view.value.gone ==> m.view.value.gone || Favours(e, n.view.value, RevivalCheck, Gone))
  {
    hide InTurn, InPlace, WindowsPassed;
    if !e.Revalidated? { OnlyVerdictsJudge(plan, policy, m, e); }
  }

  lemma OnlyVerdictsJudge(plan: Plan, policy: Policy, m: Monitor, e: Event)
    requires !e.Snapshotted? && !e.Revalidated?
    ensures var n := Advance(plan, policy, m, e);
            n.view.Some? && m.view.Some? ==>
              n.view.value.eligible == m.view.value.eligible && n.view.value.gone == m.view.value.gone
  {
    hide InTurn, InPlace, Judge, SignalAllowed, TruthfulSignal, TruthfulArtifact, UnlinkAllowed;
  }

  lemma ViewStep(plan: Plan, policy: Policy, trace: Trace, m: Monitor, e: Event, n: nat, p: int, s: int)
    requires n < |trace| && trace[n] == e && p < n && s < n
    requires ViewFrom(m, trace, n, p, s) && m.waits == CompletedWaits(trace, n)
    requires m.view.Some? ==> LearnedSince(m.view.value, trace, n, s)
    requires Advance(plan, policy, m, e).lawful
    ensures var (view, s') := (Advance(plan, policy, m, e).view, if e.Snapshotted? && e.result.Some? then n else s);
            && ViewFrom(Advance(plan, policy, m, e), trace, n + 1, if e.Prepared? && e.id.Some? then n else p, s')
            && (view.Some? ==> LearnedSince(view.value, trace, n + 1, s'))
  {
    hide Advance;
    var after := Advance(plan, policy, m, e);
    if e.Snapshotted? { ViewTaken(plan, policy, m, e); } else { ViewKept(plan, policy, m, e); }
    if after.view.Some? && !e.Snapshotted? {
      ViewGrows(plan, policy, m, e);
      ViewJudged(plan, policy, m, e);
      LearnMore(m.view.value, after.view.value, trace, e, n, s);
    }
  }

  lemma WaitsKept(plan: Plan, policy: Policy, m: Monitor, e: Event)
    ensures var n := Advance(plan, policy, m, e);
            n.waits == if e.Waited? && e.outcome.DeadlineReached? then m.waits + [e.duration] else m.waits
    ensures Advance(plan, policy, m, e).lawful ==> m.lawful
  {
    hide InTurn, InPlace, SignalAllowed, TruthfulSignal, TruthfulArtifact, WindowsPassed, FrozenTargetListed;
    hide UnlinkAllowed;
  }

  lemma RowsKept(plan: Plan, policy: Policy, m: Monitor, e: Event)
    requires Advance(plan, policy, m, e).lawful
    ensures Advance(plan, policy, m, e).bracket.Closed? <==> Closes(e) || (m.bracket.Closed? && !Opens(e))
  {
    hide InTurn, InPlace, TruthfulSignal, TruthfulArtifact, WindowsPassed, FrozenTargetListed;
  }

  lemma StagesKept(plan: Plan, policy: Policy, m: Monitor, e: Event)
    requires Advance(plan, policy, m, e).lawful
    ensures Advance(plan, policy, m, e).stages == m.stages + (if Enters(e) && m.bracket.Closed? then 1 else 0)
  {
    hide InTurn, SignalAllowed, TruthfulSignal, TruthfulArtifact, WindowsPassed, FrozenTargetListed, UnlinkAllowed;
  }

  lemma LearnMore(v: View, w: View, trace: Trace, e: Event, n: nat, s: int)
    requires n < |trace| && trace[n] == e && s < n && LearnedSince(v, trace, n, s) && w.snapshot == v.snapshot
    requires forall pid :: pid in w.notRunning && pid !in v.notRunning ==> e == LookedUp(pid, NotRunning)
    requires forall pid :: pid in w.running && pid !in v.running ==> e.LookedUp? && e.pid == pid && e.answer.Running?
    requires w.eligible ==> v.eligible || Favours(e, w, BeforeSignal, Eligible)
    requires w.gone ==> v.gone || Favours(e, w, RevivalCheck, Gone)
    ensures LearnedSince(w, trace, n + 1, s)
  {
  }

  lemma {:induction false} Remembered(plan: Plan, policy: Policy, trace: Trace, log: seq<Monitor>, n: nat)
      returns (p: int, s: int)
    requires Logs(plan, policy, trace, log) && n <= |trace| && log[n].lawful
    ensures p < n && s < n
    ensures BracketFrom(log[n], trace, n, p)
    ensures ViewFrom(log[n], trace, n, p, s)
    ensures log[n].view.Some? ==> LearnedSince(log[n].view.value, trace, n, s)
    ensures log[n].waits == CompletedWaits(trace, n) && log[n].stages == Stages(trace, n)
    ensures log[n].bracket.Closed? <==> !RowOpen(trace, n)
    decreases n
  {
    hide Advance;
    p, s := -1, -1;
    if n > 0 {
      assert StepAt(plan, policy, trace, log, n - 1);
      WaitsKept(plan, policy, log[n - 1], trace[n - 1]);
      p, s := Remembered(plan, policy, trace, log, n - 1);
      BracketStep(plan, policy, trace, log[n - 1], trace[n - 1], n - 1, p);
      ViewStep(plan, policy, trace, log[n - 1], trace[n - 1], n - 1, p, s);
      RowsKept(plan, policy, log[n - 1], trace[n - 1]);
      StagesKept(plan, policy, log[n - 1], trace[n - 1]);
      if trace[n - 1].Prepared? && trace[n - 1].id.Some? { p := n - 1; }
      if trace[n - 1].Snapshotted? && trace[n - 1].result.Some? { s := n - 1; }
    }
  }

  /** The wait with number `j`. */
  lemma {:induction false} NthWait(trace: Trace, n: nat, j: nat) returns (w: int)
    requires n <= |trace| && j < |CompletedWaits(trace, n)|
    ensures 0 <= w < n && trace[w].Waited? && trace[w].outcome.DeadlineReached? && |CompletedWaits(trace, w)| == j
    decreases n
  {
    if j < |CompletedWaits(trace, n - 1)| { w := NthWait(trace, n - 1, j); } else { w := n - 1; }
  }

  lemma EndedKept(plan: Plan, policy: Policy, m: Monitor, e: Event)
    ensures var n := Advance(plan, policy, m, e);
            forall j :: j in n.ended && j !in m.ended ==>
              && e.Revalidated? && e.phase == RevivalCheck && e.verdict.status == Gone
              && m.view.Some? && e.snapshot == m.view.value.snapshot && j + 1 == |m.waits|
  {
    hide InTurn, InPlace;
  }

  /** Each window that the monitor counts as ended did so in the trace. */
  lemma {:induction false} EndedSource(plan: Plan, policy: Policy, trace: Trace, log: seq<Monitor>, n: nat, j: nat)
      returns (w: int, s: int, v: int)
    requires Logs(plan, policy, trace, log) && n <= |trace| && log[n].lawful && j in log[n].ended
    ensures WindowEnded(trace, n, j, w, s, v)
    decreases n
  {
    hide Advance;
    assert StepAt(plan, policy, trace, log, n - 1);
    WaitsKept(plan, policy, log[n - 1], trace[n - 1]);
    EndedKept(plan, policy, log[n - 1], trace[n - 1]);
    if j in log[n - 1].ended {
      w, s, v := EndedSource(plan, policy, trace, log, n - 1, j);
    } else {
      var p;
      p, s := Remembered(plan, policy, trace, log, n - 1);
      v := n - 1;
      w := NthWait(trace, s, j);
    }
  }

  lemma TerminalKept(plan: Plan, policy: Policy, m: Monitor, e: Event)
    requires !m.terminal && Advance(plan, policy, m, e).terminal
    ensures var n := Advance(plan, policy, m, e);
            && e.Revalidated? && e.phase == RevivalCheck && e.verdict.status == Gone
            && m.view.Some? && e.snapshot == m.view.value.snapshot && TreeAbsent(plan, m.view.value)
            && n.waits == m.waits && n.stages == m.stages && WindowsPassed(policy, n)
  {
    hide InTurn, InPlace;
  }

  /** The event that first makes the tree terminal is an absence proof. */
  lemma {:induction false} FirstTerminal(plan: Plan, policy: Policy, trace: Trace, log: seq<Monitor>, n: nat)
      returns (s: int, at: int)
    requires Logs(plan, policy, trace, log) && n <= |trace| && log[n].lawful && log[n].terminal
    ensures at < n && AbsenceProof(plan, policy, trace, s, at)
    ensures log[at + 1].terminal
    decreases n
  {
    hide Advance;
    assert StepAt(plan, policy, trace, log, n - 1);
    if log[n - 1].terminal {
      WaitsKept(plan, policy, log[n - 1], trace[n - 1]);
      s, at := FirstTerminal(plan, policy, trace, log, n - 1);
    } else {
      TerminalKept(plan, policy, log[n - 1], trace[n - 1]);
      WaitsKept(plan, policy, log[n - 1], trace[n - 1]);
      var p;
      p, s := Remembered(plan, policy, trace, log, n - 1);
      at := n - 1;
      AllEnded(plan, policy, trace, log, n);
    }
  }

  lemma AllEnded(plan: Plan, policy: Policy, trace: Trace, log: seq<Monitor>, n: nat)
    requires Logs(plan, policy, trace, log) && n <= |trace| && log[n].lawful
    requires WindowsPassed(policy, log[n])
    ensures WindowsEnded(trace, n, |policy.windows|)
  {
    hide Advance;
    var p, s := Remembered(plan, policy, trace, log, n);
    var waits := |CompletedWaits(trace, n)|;
    forall j | waits - |policy.windows| <= j < waits ensures EndedBefore(trace, n, j) {
      var w, t, v := EndedSource(plan, policy, trace, log, n, j);
    }
  }

  lemma ArtifactKept(plan: Plan, policy: Policy, m: Monitor, e: Event)
    ensures var n := Advance(plan, policy, m, e);
            && (forall x :: x in n.freezes && x !in m.freezes ==> e == Froze(x.0, Some(x.1)) && Untouched(m))
            && (n.lawful && n.bracket.OpenArtifact? ==>
                  || (e == PreparedArtifact(n.bracket.fingerprint, Some(n.bracket.id)) && m.terminal
                        && n.bracket.removal.None?)
                  || (m.lawful && m.bracket.OpenArtifact? && !Opens(e) && !Closes(e)
                      && m.bracket.fingerprint == n.bracket.fingerprint && m.bracket.id == n.bracket.id
                      && (n.bracket.removal.None? ==> m.bracket.removal.None? && !Acts(e))))
  {
    hide InTurn, InPlace, SignalAllowed, TruthfulSignal, WindowsPassed, FrozenTargetListed;
  }

  /** An artifact that may be unlinked was frozen before any row was opened. */
  lemma {:induction false} FreezeSource(plan: Plan, policy: Policy, trace: Trace, log: seq<Monitor>, n: nat,
                                        x: (Candidate, Freeze))
      returns (f: nat)
    requires Logs(plan, policy, trace, log) && n <= |trace| && x in log[n].freezes
    ensures f < n && trace[f] == Froze(x.0, Some(x.1)) && Untouched(log[f])
    decreases n
  {
    hide Advance;
    assert StepAt(plan, policy, trace, log, n - 1);
    ArtifactKept(plan, policy, log[n - 1], trace[n - 1]);
    if x in log[n - 1].freezes { f := FreezeSource(plan, policy, trace, log, n - 1, x); } else { f := n - 1; }
  }

  lemma UntouchedBefore(plan: Plan, policy: Policy, m: Monitor, e: Event)
    requires Advance(plan, policy, m, e).lawful && Untouched(Advance(plan, policy, m, e))
    requires m.lawful && m.bracket.OpenArtifact? ==> m.terminal
    ensures m.lawful && Untouched(m) && !Opens(e) && !Acts(e)
  {
    hide InTurn, InPlace;
  }

  /** Artifact rows are opened only once the tree is terminal. */
  lemma {:induction false} ArtifactsAfterProof(plan: Plan, policy: Policy, trace: Trace, log: seq<Monitor>, n: nat)
    requires Logs(plan, policy, trace, log) && n <= |trace| && log[n].lawful && log[n].bracket.OpenArtifact?
    ensures log[n].terminal
    decreases n
  {
    hide Advance;
    assert StepAt(plan, policy, trace, log, n - 1);
    ArtifactKept(plan, policy, log[n - 1], trace[n - 1]);
    Lasts(plan, policy, trace, log, n - 1, n);
    if !log[n - 1].terminal { ArtifactsAfterProof(plan, policy, trace, log, n - 1); }
  }

  /** While the monitor is untouched nothing was opened, sent or removed. */
  lemma {:induction false} NothingYet(plan: Plan, policy: Policy, trace: Trace, log: seq<Monitor>, n: nat)
    requires Logs(plan, policy, trace, log) && n <= |trace| && log[n].lawful && Untouched(log[n])
    ensures forall k :: 0 <= k < n ==> !Opens(trace[k]) && !Acts(trace[k])
    decreases n
  {
    hide Advance;
    if n > 0 {
      assert StepAt(plan, policy, trace, log, n - 1);
      if log[n - 1].lawful && log[n - 1].bracket.OpenArtifact? {
        ArtifactsAfterProof(plan, policy, trace, log, n - 1);
      }
      UntouchedBefore(plan, policy, log[n - 1], trace[n - 1]);
      NothingYet(plan, policy, trace, log, n - 1);
    }
  }

  /** The open artifact row was written when the tree was already terminal, and is
      unused unless a removal is noted. */
  lemma {:induction false} RowSource(plan: Plan, policy: Policy, trace: Trace, log: seq<Monitor>, n: nat)
      returns (p: nat)
    requires Logs(plan, policy, trace, log) && n <= |trace| && log[n].lawful
    requires log[n].bracket.OpenArtifact? && log[n].bracket.removal.None?
    ensures p < n && log[p].terminal
    ensures trace[p] == PreparedArtifact(log[n].bracket.fingerprint, Some(log[n].bracket.id))
    ensures StillOpen(trace, p, n)
    decreases n
  {
    hide Advance;
    assert StepAt(plan, policy, trace, log, n - 1);
    ArtifactKept(plan, policy, log[n - 1], trace[n - 1]);
    if trace[n - 1] == PreparedArtifact(log[n].bracket.fingerprint, Some(log[n].bracket.id)) && log[n - 1].terminal {
      p := n - 1;
    } else {
      p := RowSource(plan, policy, trace, log, n - 1);
    }
  }

  /** A lawful signal or removal was allowed. */
  lemma EffectAllowed(plan: Plan, policy: Policy, m: Monitor, e: Event)
    requires Advance(plan, policy, m, e).lawful
    ensures e.Signalled? ==> SignalAllowed(plan, m, e.identity, e.signal)
    ensures e.Unlinked? ==> UnlinkAllowed(m, e.artifact)
    ensures e == StopPolled(true) ==> Advance(plan, policy, m, e).stopped
  {
  }

  // ------------------------------------------------------------------ the properties

  /** No signal leaves without fresh evidence, whatever the environment answers. */
  lemma SignalsAreAuthorised(plan: Plan, policy: Policy, trace: Trace, at: nat)
    requires at < |trace| && trace[at].Signalled? && Watch(plan, policy, trace).lawful
    ensures exists p, s :: SignalEvidence(plan, trace, at, trace[at].identity, trace[at].signal, p, s)
    ensures exists t :: t in plan.targets && t.identity == trace[at].identity
  {
    hide Advance, Watch;
    var log := LogExists(plan, policy, trace);
    LawfulBefore(plan, policy, trace, log, at + 1);
    LawfulBefore(plan, policy, trace, log, at);
    assert StepAt(plan, policy, trace, log, at);
    EffectAllowed(plan, policy, log[at], trace[at]);
    var p, s := Remembered(plan, policy, trace, log, at);
    assert SignalEvidence(plan, trace, at, trace[at].identity, trace[at].signal, p, s);
  }

  /** Once a direct stop poll said stop, nothing is signalled or unlinked any more. */
  lemma NothingAfterStop(plan: Plan, policy: Policy, trace: Trace, i: nat, j: nat)
    requires i < j < |trace| && trace[i] == StopPolled(true) && Watch(plan, policy, trace).lawful
    ensures !trace[j].Signalled? && !trace[j].Unlinked?
  {
    hide Advance, Watch;
    var log := LogExists(plan, policy, trace);
    LawfulBefore(plan, policy, trace, log, i + 1);
    LawfulBefore(plan, policy, trace, log, j + 1);
    assert StepAt(plan, policy, trace, log, i);
    EffectAllowed(plan, policy, log[i], trace[i]);
    Lasts(plan, policy, trace, log, i + 1, j);
    assert StepAt(plan, policy, trace, log, j);
    EffectAllowed(plan, policy, log[j], trace[j]);
  }

  /** An artifact is unlinked only if it was frozen before anything was signalled, the
      tree was proved gone since, and its own PREPARED row is open and unused. */
  lemma UnlinksAreAuthorised(plan: Plan, policy: Policy, trace: Trace, at: nat)
    requires at < |trace| && trace[at].Unlinked? && Watch(plan, policy, trace).lawful
    ensures exists f, s, a, p :: UnlinkEvidence(plan, policy, trace, at, f, s, a, p)
  {
    hide Advance, Watch;
    var log := LogExists(plan, policy, trace);
    UnlinkAllowedAt(plan, policy, trace, log, at);
    var m := log[at];
    var c: Candidate :| (c, Freeze.Frozen(trace[at].artifact)) in m.freezes && c.fingerprint == m.bracket.fingerprint;
    var f := FreezeSource(plan, policy, trace, log, at, (c, Freeze.Frozen(trace[at].artifact)));
    var p := RowSource(plan, policy, trace, log, at);
    LawfulBefore(plan, policy, trace, log, p);
    var s, a := FirstTerminal(plan, policy, trace, log, p);
    if a < f { Lasts(plan, policy, trace, log, a + 1, f); }
    LawfulBefore(plan, policy, trace, log, f);
    NothingYet(plan, policy, trace, log, f);
    assert UnlinkEvidence(plan, policy, trace, at, f, s, a, p);
  }

  lemma UnlinkAllowedAt(plan: Plan, policy: Policy, trace: Trace, log: seq<Monitor>, at: nat)
    requires Logs(plan, policy, trace, log) && at < |trace| && trace[at].Unlinked? && log[|trace|].lawful
    ensures log[at].lawful && UnlinkAllowed(log[at], trace[at].artifact)
  {
    hide Advance;
    LawfulBefore(plan, policy, trace, log, at + 1);
    LawfulBefore(plan, policy, trace, log, at);
    assert StepAt(plan, policy, trace, log, at);
    EffectAllowed(plan, policy, log[at], trace[at]);
  }
}
