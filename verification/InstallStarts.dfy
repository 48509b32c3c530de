/** What is started, and when: the prior generation before a rollback ends, and the
    candidate before it counts as ready. */
module InstallStarts {
  import opened Wrappers
  import opened InstallTypes
  import opened InstallInvariant
  import opened InstallRuns

  /** At step `k` nothing runs and the lock is free, and after it `p` runs. */
  ghost predicate StartsAt(log: seq<World>, k: nat, p: Plist) {
    && k + 1 < |log|
    && log[k].running.None? && !log[k].locked && log[k].plist == Some(p)
    && log[k + 1].running == Some(p)
  }

  /** What one move does to the note of what was started. */
  /** Only loads note a start; records, locks given up and crashes forget it. */
  lemma NotedAs(w: World, m: Move, v: World)
    requires Allowed(w, m) && v == After(w, m)
    ensures v.started ==
      if m.Load? then w.plist else if m.Persist? || m.Unlock? || m.Crash? then None else w.started
  {
    hide Allowed;
  }

  lemma LoadStep(w: World, v: World)
    requires Allowed(w, Load) && v == After(w, Load)
    ensures w.running.None? && !w.locked && v.running == w.plist && v.tx == w.tx
  {
  }

  lemma NoteStep(w: World, m: Move, v: World)
    requires Allowed(w, m) && v == After(w, m)
    ensures v.started.Some? && v.started != w.started ==>
      w.running.None? && !w.locked && w.plist == v.started && v.running == v.started && v.tx == w.tx
  {
    hide Allowed, After;
    NotedAs(w, m, v);
    if m.Load? { LoadStep(w, v); }
  }

  lemma RecordClearsNote(w: World, m: Move, v: World)
    requires Allowed(w, m) && v == After(w, m) && v.tx.Some? && v.tx != w.tx
    ensures v.started.None?
  {
    hide Allowed, After;
    NotedAs(w, m, v);
    if !m.Persist? { RecordStays(w, m, v); }
  }

  lemma NoteAt(log: seq<World>, k: nat)
    requires Run(log) && k + 1 < |log|
    ensures log[k + 1].started.Some? && log[k + 1].started != log[k].started ==>
      StartsAt(log, k, log[k + 1].started.value) && log[k + 1].tx == log[k].tx
    ensures log[k + 1].tx.Some? && log[k + 1].tx != log[k].tx ==> log[k + 1].started.None?
  {
    hide Allowed, After;
    assert StepAt(log, k);
    var m :| Allowed(log[k], m) && log[k + 1] == After(log[k], m);
    NoteStep(log[k], m, log[k + 1]);
    if log[k + 1].tx.Some? && log[k + 1].tx != log[k].tx { RecordClearsNote(log[k], m, log[k + 1]); }
  }

  /** Whatever is noted as started was started, under the record of now, since any
      earlier moment at which nothing was noted. */
  lemma {:induction false} WasStarted(log: seq<World>, i: nat, j: nat) returns (k: nat)
    requires Run(log) && Open(log, i, j) && log[i].started.None? && log[j].started.Some?
    ensures i <= k < j && StartsAt(log, k, log[j].started.value)
    ensures forall n :: k <= n <= j ==> log[n].tx == log[j].tx
    decreases j
  {
    NoteAt(log, j - 1);
    if log[j].started == log[j - 1].started {
      k := WasStarted(log, i, j - 1);
    } else {
      k := j - 1;
    }
  }

  // ------------------------------------------------------------------ rollback

  lemma RemovalConfirms(w: World, m: Move)
    requires RollingBack(w) && Allowed(w, m) && After(w, m).tx.None? && w.tx.value.priorLoaded
    ensures !w.locked && w.started == RestoredPlist(w.tx.value) == w.plist && !AsksForPrior(w.tx.value, w.live)
  {
  }

  /** A rollback of a transaction whose prior generation was loaded ends only after that
      generation was started again, with its rollback under way and its selection
      restored; and at the end its database does not ask for enforcement. */
  lemma RollbackRestartsPrior(log: seq<World>, i: nat, j: nat) returns (k: nat)
    requires Run(log) && Open(log, i, j) && log[i].started.None? && j + 1 < |log|
    requires RollingBack(log[j]) && log[j + 1].tx.None? && log[j].tx.value.priorLoaded
    ensures i <= k < j && log[j].tx.value.priorPlist.Some?
    ensures StartsAt(log, k, ReportOnlyForm(log[j].tx.value.priorPlist.value))
    ensures log[k].tx == log[j].tx && !AsksForPrior(log[j].tx.value, log[j].live)
  {
    InvThroughout(log, j);
    assert StepAt(log, j);
    var m :| Allowed(log[j], m) && log[j + 1] == After(log[j], m);
    RemovalConfirms(log[j], m);
    k := WasStarted(log, i, j);
  }

  // ------------------------------------------------------------------ readiness

  /** The record reaches `CandidateReady` and `CandidateSelected` in one way each. */
  lemma PhaseStep(w: World, m: Move, v: World)
    requires w.tx.Some? && Allowed(w, m) && v == After(w, m) && v.tx.Some?
    ensures var p, q := w.tx.value.phase, v.tx.value.phase;
      && (q == CandidateReady && p != CandidateReady ==>
            p == CandidateSelected && !w.locked && w.started == Some(Managed(w.tx.value.candidate)))
      && (q == CandidateSelected && p != CandidateSelected ==> v.started.None?)
  {
    hide HandedBack, Confirmed, MayReselect, MaySelect, MayRestore, MaySnapshot, MayWrite, SelectsCandidate, Consistent,
      Restorable, After;
    if m.Persist? { PersistedAs(w, m, v); } else { RecordStays(w, m, v); }
  }

  lemma PersistedAs(w: World, m: Move, v: World)
    requires Allowed(w, m) && m.Persist? && v == After(w, m)
    ensures v.tx == Some(m.next) && v.started.None? && MayPersist(w, m.next)
  {
    hide MayPersist;
  }

  lemma RecordStays(w: World, m: Move, v: World)
    requires Allowed(w, m) && !m.Persist? && v == After(w, m) && v.tx.Some?
    ensures v.tx == w.tx
  {
    hide Allowed;
  }

  lemma PhaseAt(log: seq<World>, k: nat)
    requires Run(log) && k + 1 < |log| && log[k].tx.Some? && log[k + 1].tx.Some?
    ensures var p, q := log[k].tx.value.phase, log[k + 1].tx.value.phase;
      && (q == CandidateReady && p != CandidateReady ==>
            p == CandidateSelected && !log[k].locked && log[k].started == Some(Managed(log[k].tx.value.candidate)))
      && (q == CandidateSelected && p != CandidateSelected ==> log[k + 1].started.None?)
  {
    hide Allowed, After;
    assert StepAt(log, k);
    var m :| Allowed(log[k], m) && log[k + 1] == After(log[k], m);
    PhaseStep(log[k], m, log[k + 1]);
  }

  /** Since it was selected, nothing was noted as started to begin with. */
  lemma {:induction false} SelectedBefore(log: seq<World>, i: nat, j: nat) returns (s: nat)
    requires Run(log) && Open(log, i, j)
    requires log[i].tx.value.phase != CandidateSelected && log[j].tx.value.phase == CandidateSelected
    ensures i < s <= j && log[s].started.None?
    ensures forall n :: s <= n <= j ==> log[n].tx.value.phase == CandidateSelected
    decreases j
  {
    PhaseAt(log, j - 1);
    if log[j - 1].tx.value.phase == CandidateSelected {
      s := SelectedBefore(log, i, j - 1);
    } else {
      s := j;
    }
  }

  /** A candidate counts as ready only after it was started since it was selected. */
  lemma {:induction false} ReadyWasStarted(log: seq<World>, i: nat, j: nat) returns (k: nat)
    requires Run(log) && Open(log, i, j) && log[i].tx.value.phase !in {CandidateSelected, CandidateReady}
    requires log[j].tx.value.phase == CandidateReady
    ensures i < k < j && log[k].tx.value.phase == CandidateSelected
    ensures StartsAt(log, k, Managed(log[j].tx.value.candidate))
    decreases j
  {
    PhaseAt(log, j - 1);
    if log[j - 1].tx.value.phase == CandidateReady {
      k := ReadyWasStarted(log, i, j - 1);
      FollowsAt(log, j - 1);
    } else {
      var s := SelectedBefore(log, i, j - 1);
      k := WasStarted(log, s, j - 1);
      FollowsAt(log, j - 1);
    }
  }
}
