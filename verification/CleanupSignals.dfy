/** The escalation discipline of the signals themselves, whether or not the journal
    could record them. */
module CleanupSignals {
  import opened Wrappers
  import opened CleanupTypes
  import opened CleanupMonitor
  import opened CleanupEscalation
  import opened CleanupGuarantee
  import opened CleanupTrace
  import opened CleanupTheorems

  /** The ledger only grows. */
  lemma LedgerGrows(m: Monitor, n: Monitor, e: Event)
    requires RowStep(m, n, e)
    ensures Ledger(m) <= Ledger(n)
    ensures e.Signalled? ==>
      Ledger(m) == m.actions && Ledger(n) == m.actions + [Action(m.bracket.intent, e.disposition)]
  {
  }

  lemma {:induction false} LedgerPrefix(plan: Plan, policy: Policy, trace: Trace, log: seq<Monitor>, k: nat, n: nat)
    requires Logs(plan, policy, trace, log) && k <= n <= |trace| && log[|trace|].lawful
    ensures Ledger(log[k]) <= Ledger(log[n])
    decreases n
  {
    hide Advance;
    if k < n {
      LedgerPrefix(plan, policy, trace, log, k, n - 1);
      LawfulBefore(plan, policy, trace, log, n);
      LawfulBefore(plan, policy, trace, log, n - 1);
      assert StepAt(plan, policy, trace, log, n - 1);
      RowSteps(plan, policy, log[n - 1], trace[n - 1]);
      LedgerGrows(log[n - 1], log[n], trace[n - 1]);
    }
  }

  /** A lawful signal is the one that its open row announces. */
  lemma SignalIsAnnounced(plan: Plan, policy: Policy, m: Monitor, e: Event)
    requires e.Signalled? && Advance(plan, policy, m, e).lawful
    ensures m.bracket.OpenSignal? && m.bracket.intent.pid == e.identity.pid && m.bracket.intent.signal == e.signal
  {
    hide InTurn, InPlace;
  }

  lemma LedgerAfterSignal(plan: Plan, policy: Policy, trace: Trace, log: seq<Monitor>, k: nat)
    requires Logs(plan, policy, trace, log) && k < |trace| && log[|trace|].lawful && trace[k].Signalled?
    ensures log[k].bracket.OpenSignal? && Ledger(log[k]) == log[k].actions
    ensures Ledger(log[k + 1]) == log[k].actions + [Action(log[k].bracket.intent, trace[k].disposition)]
    ensures log[k].bracket.intent.pid == trace[k].identity.pid && log[k].bracket.intent.signal == trace[k].signal
  {
    hide Advance;
    LawfulBefore(plan, policy, trace, log, k + 1);
    LawfulBefore(plan, policy, trace, log, k);
    assert StepAt(plan, policy, trace, log, k);
    SignalIsAnnounced(plan, policy, log[k], trace[k]);
    RowSteps(plan, policy, log[k], trace[k]);
    LedgerGrows(log[k], log[k + 1], trace[k]);
  }

  /** The entry of the final ledger that stands for the signal sent at `k`. */
  lemma EntryOf(plan: Plan, policy: Policy, trace: Trace, log: seq<Monitor>, k: nat) returns (a: Action)
    requires Logs(plan, policy, trace, log) && k < |trace| && log[|trace|].lawful && trace[k].Signalled?
    ensures log[k].actions + [a] <= Ledger(log[|trace|])
    ensures a.intent.pid == trace[k].identity.pid && a.intent.signal == trace[k].signal
    ensures a.disposition == trace[k].disposition
  {
    LedgerAfterSignal(plan, policy, trace, log, k);
    LedgerPrefix(plan, policy, trace, log, k + 1, |trace|);
    a := Action(log[k].bracket.intent, trace[k].disposition);
  }

  /** In a disciplined ledger no target has two entries for one signal. */
  lemma NoTwoAlike(plan: Plan, fp: Identity -> string, acts: seq<Action>, x: nat, y: nat)
    requires Disciplined(plan, fp, acts) && x < y < |acts| && acts[x].intent.signal == acts[y].intent.signal
    ensures acts[x].intent.pid != acts[y].intent.pid
  {
    assert WellAddressed(plan, fp, acts[x]) && WellAddressed(plan, fp, acts[y]);
    assert Before(plan, acts[x], acts[y]);
  }

  /** No target is sent the same signal twice, also when the journal fails. */
  lemma NoSignalTwice(plan: Plan, policy: Policy, fp: Identity -> string, result: ExecResult, trace: Trace, i: nat,
                      j: nat)
    requires Guarantee(plan, policy, fp, result, Watch(plan, policy, trace)) && DistinctPids(plan)
    requires i < j < |trace| && trace[i].Signalled? && trace[j].Signalled? && trace[i].signal == trace[j].signal
    ensures trace[i].identity.pid != trace[j].identity.pid
  {
    var log := LogExists(plan, policy, trace);
    var a := EntryOf(plan, policy, trace, log, i);
    var b := EntryOf(plan, policy, trace, log, j);
    FirstIsRecorded(plan, policy, trace, log, i, j);
    NoTwoAlike(plan, fp, Ledger(log[|trace|]), |log[i].actions|, |log[j].actions|);
  }

  /** By the time of a later signal the earlier one is a completed row. */
  lemma FirstIsRecorded(plan: Plan, policy: Policy, trace: Trace, log: seq<Monitor>, i: nat, j: nat)
    requires Logs(plan, policy, trace, log) && i < j < |trace| && log[|trace|].lawful && trace[i].Signalled?
    requires trace[j].Signalled?
    ensures |log[i].actions| < |log[j].actions|
  {
    LedgerAfterSignal(plan, policy, trace, log, i);
    LedgerPrefix(plan, policy, trace, log, i + 1, j);
    LedgerAfterSignal(plan, policy, trace, log, j);
  }

  /** A TERM for `pid` was journalled between `p` and `c`, and ended as delivered or as
      already exited. */
  ghost predicate TermRecorded(trace: Trace, p: int, c: int, pid: nat) {
    && 0 <= p < c < |trace|
    && trace[p].Prepared? && trace[p].id.Some? && trace[p].intent.pid == pid && trace[p].intent.signal == Term
    && trace[c].Completed? && trace[c].ok && trace[c].actionId == trace[p].id.value && Settled(trace[c].disposition)
  }

  /** Each completed row was opened and closed in the trace. */
  lemma {:induction false} RowEvents(plan: Plan, policy: Policy, trace: Trace, log: seq<Monitor>, n: nat, x: nat)
      returns (p: int, c: int)
    requires Logs(plan, policy, trace, log) && n <= |trace| && log[n].lawful && x < |log[n].actions|
    ensures 0 <= p < c < n && trace[p].Prepared? && trace[p].id.Some? && trace[p].intent == log[n].actions[x].intent
    ensures trace[c].Completed? && trace[c].ok && trace[c].actionId == trace[p].id.value
    ensures trace[c].disposition == log[n].actions[x].disposition
    decreases n
  {
    assert StepAt(plan, policy, trace, log, n - 1);
    WaitsKept(plan, policy, log[n - 1], trace[n - 1]);
    RowSteps(plan, policy, log[n - 1], trace[n - 1]);
    if x < |log[n - 1].actions| {
      p, c := RowEvents(plan, policy, trace, log, n - 1, x);
    } else {
      var s;
      p, s := Remembered(plan, policy, trace, log, n - 1);
      c := n - 1;
    }
  }

  /** Every KILL leaves after a TERM for its target was journalled and settled, also when
      the journal fails afterwards. */
  lemma KillsFollowTermsSent(plan: Plan, policy: Policy, fp: Identity -> string, result: ExecResult, trace: Trace,
                             j: nat)
    requires Guarantee(plan, policy, fp, result, Watch(plan, policy, trace)) && DistinctPids(plan)
    requires j < |trace| && trace[j].Signalled? && trace[j].signal == Kill
    ensures exists p, c :: TermRecorded(trace, p, c, trace[j].identity.pid) && c < j
  {
    var log := LogExists(plan, policy, trace);
    var a := EntryOf(plan, policy, trace, log, j);
    var ledger, n := Ledger(log[|trace|]), |log[j].actions|;
    assert ledger[n] == a && ledger[..n] == log[j].actions;
    assert TermSettled(ledger[..n], a.intent.pid);
    var x :| 0 <= x < n && log[j].actions[x].intent.signal == Term && log[j].actions[x].intent.pid == a.intent.pid
        && Settled(log[j].actions[x].disposition);
    LawfulBefore(plan, policy, trace, log, j);
    var p, c := RowEvents(plan, policy, trace, log, j, x);
    assert TermRecorded(trace, p, c, trace[j].identity.pid);
  }

  /** Controllers lead; browser roots do if the plan has no controller. */
  ghost predicate Leads(plan: Plan, t: Target) {
    t in plan.targets
      && (t.role == Controller || (t.role == BrowserRoot && forall u :: u in plan.targets ==> u.role != Controller))
  }

  ghost predicate LeaderHas(plan: Plan, pid: nat) {
    exists t :: Leads(plan, t) && t.identity.pid == pid
  }

  lemma PrimariesLead(plan: Plan, pid: nat)
    ensures IsPrimary(plan, pid) <==> LeaderHas(plan, pid)
  {
    if IsPrimary(plan, pid) {
      var t :| t in plan.targets && t.identity.pid == pid
        && t.role == (if HasController(plan) then Controller else BrowserRoot);
      assert Leads(plan, t);
    }
  }

  /** The first rows go to the leaders and to nobody else; a leader comes to the second
      stage only if it was found not running and listed again later. */
  lemma LeadersGoFirst(plan: Plan, policy: Policy, fp: Identity -> string, result: ExecResult, trace: Trace, i: nat)
    requires Guarantee(plan, policy, fp, result, Watch(plan, policy, trace)) && DistinctPids(plan)
    requires i < |ReceiptOf(result).actions|
    ensures var intent := ReceiptOf(result).actions[i].intent;
      && (intent.stage == PrimaryTerm ==> LeaderHas(plan, intent.pid))
      && (intent.stage == MemberTerm && LeaderHas(plan, intent.pid) ==> !AbsenceIsPermanent(plan, trace))
  {
    hide Watch;
    var log := LogExists(plan, policy, trace);
    var a := ReceiptOf(result).actions[i];
    assert Ledger(log[|trace|])[i] == a;
    assert WellAddressed(plan, fp, a);
    PrimariesLead(plan, a.intent.pid);
    if log[|trace|].reappeared { ReappearanceSource(plan, policy, trace, log, |trace|); }
  }
}
