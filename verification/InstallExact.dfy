/** Exactly when every run of a transaction keeps the prior database. */
module InstallExact {
  import opened Wrappers
  import opened InstallTypes
  import opened InstallInvariant
  import opened InstallRuns
  import opened InstallConservation
  import opened InstallCuts

  ghost predicate AllInEvidence(w: World) {
    forall c :: c in w.prior ==> InEvidence(w, c)
  }

  ghost predicate AllKept(w: World) {
    forall c :: c in w.prior ==> IsLive(w, c) || InEvidence(w, c)
  }

  /** Without a prior LaunchAgent no daemon of the prior generation can come back, and the
      candidate is started only over a database that is safe elsewhere. */
  ghost predicate Sheltered(w: World) {
    && w.tx.Some? && w.tx.value.priorPlist.None?
    && (!w.frozen ==> w.plist.None?)
    && (w.tx.value.phase != RollbackInProgress ==> Main in w.prior || AllInEvidence(w))
    && (Undecided(w) ==> w.tx.value.backedUp || AllInEvidence(w) || (w.plist.None? && AllKept(w)))
  }

  lemma ShelteredIsHeld(w: World)
    requires Inv(w) && Sheltered(w) && Undecided(w)
    ensures Held(w)
  {
  }

  // ------------------------------------------------------------------ one move

  /** Files, evidence, prior database and selection are untouched. */
  predicate SameFiles(w: World, v: World) {
    (v.live, v.evidence, v.prior, v.plist) == (w.live, w.evidence, w.prior, w.plist)
  }

  lemma SameFilesKeep(w: World, v: World)
    requires SameFiles(w, v)
    ensures AllInEvidence(w) ==> AllInEvidence(v)
    ensures AllKept(w) ==> AllKept(v)
  {
    forall c | c in w.prior ensures InEvidence(w, c) == InEvidence(v, c) && IsLive(w, c) == IsLive(v, c) {}
  }

  lemma PersistKeepsShelter(w: World, m: Move)
    requires Inv(w) && Sheltered(w) && Allowed(w, m) && m.Persist?
    ensures Sheltered(After(w, m))
  {
    var v := After(w, m);
    PersistFollows(w, m.next);
    assert SameFiles(w, v);
    SameFilesKeep(w, v);
    PersistShape(w, m.next);
  }

  lemma PersistShape(w: World, next: Tx)
    requires Inv(w) && w.tx.Some? && Allowed(w, Persist(next))
    ensures w.tx.value.phase == PriorDrained && next.phase == DatabaseBackedUp ==> next.backedUp == (Main in w.prior)
    ensures !(w.tx.value.phase == PriorDrained && next.phase == DatabaseBackedUp) ==>
      next.backedUp == w.tx.value.backedUp && After(w, Persist(next)).frozen == w.frozen
    ensures next.phase == RollbackInProgress || w.tx.value.phase != RollbackInProgress
  {
  }

  lemma PlistKeepsShelter(w: World, m: Move)
    requires Inv(w) && Sheltered(w) && Allowed(w, m) && m.WritePlist?
    ensures Sheltered(After(w, m))
  {
    var v := After(w, m);
    forall c | c in w.prior ensures InEvidence(w, c) == InEvidence(v, c) && IsLive(w, c) == IsLive(v, c) {}
  }

  lemma DaemonKeepsShelter(w: World, m: Move)
    requires Inv(w) && Sheltered(w) && Allowed(w, m) && m.DaemonWrites?
    ensures Sheltered(After(w, m))
  {
    var v := After(w, m);
    assert w.plist.Some? && w.frozen && v.prior == w.prior && v.evidence == w.evidence && v.tx == w.tx;
    forall c | c in w.prior ensures InEvidence(w, c) == InEvidence(v, c) {}
  }

  lemma FilesKeepShelter(w: World, m: Move)
    requires Inv(w) && Sheltered(w) && Allowed(w, m) && (m.MoveAside? || m.NewEvidence? || m.CopyBack?)
    ensures Sheltered(After(w, m))
  {
    var v := After(w, m);
    assert v.prior == w.prior && v.plist == w.plist && v.tx == w.tx && (w.frozen ==> v.frozen);
    forall c | c in w.prior && InEvidence(w, c) ensures InEvidence(v, c) { EvidenceKept(w, m, c); }
    if AllKept(w) && !m.CopyBack? {
      forall c | c in w.prior ensures IsLive(v, c) || InEvidence(v, c) {
        if m.MoveAside? { MovedIsKept(w, m.component, c); }
      }
    }
  }

  lemma OthersKeepShelter(w: World, m: Move)
    requires Inv(w) && Sheltered(w) && Allowed(w, m) && After(w, m).tx.Some?
    requires !(m.Persist? || m.WritePlist? || m.DaemonWrites? || m.MoveAside? || m.NewEvidence? || m.CopyBack?)
    ensures Sheltered(After(w, m))
  {
    var v := After(w, m);
    assert SameFiles(w, v) && v.tx == w.tx && v.frozen == w.frozen;
    SameFilesKeep(w, v);
  }

  lemma ShelterAt(log: seq<World>, k: nat)
    requires Run(log) && k + 1 < |log| && Sheltered(log[k]) && log[k + 1].tx.Some?
    ensures Sheltered(log[k + 1])
  {
    InvThroughout(log, k);
    assert StepAt(log, k);
    var m :| Allowed(log[k], m) && log[k + 1] == After(log[k], m);
    if m.Persist? { PersistKeepsShelter(log[k], m); }
    else if m.WritePlist? { PlistKeepsShelter(log[k], m); }
    else if m.DaemonWrites? { DaemonKeepsShelter(log[k], m); }
    else if m.MoveAside? || m.NewEvidence? || m.CopyBack? { FilesKeepShelter(log[k], m); }
    else { OthersKeepShelter(log[k], m); }
  }

  lemma {:induction false} ShelterThroughout(log: seq<World>, i: nat)
    requires Run(log) && Open(log, 0, i) && Sheltered(log[0])
    ensures Sheltered(log[i])
    decreases i
  {
    if i > 0 {
      ShelterThroughout(log, i - 1);
      ShelterAt(log, i - 1);
    }
  }

  lemma ShelterHolds(w: World, v: World)
    requires Sheltered(w) && LeadsOpen(w, v) && Undecided(v)
    ensures Held(v)
  {
    var log :| Run(log) && Open(log, 0, |log| - 1) && log[0] == w && log[|log| - 1] == v;
    ShelterThroughout(log, |log| - 1);
    InvThroughout(log, |log| - 1);
    ShelteredIsHeld(v);
  }

  // ------------------------------------------------------------------ exactly when

  /** Every run of the transaction of `w` keeps whatever is its prior database then. */
  ghost predicate AlwaysHeld(w: World) {
    forall v :: LeadsOpen(w, v) && Undecided(v) ==> Held(v)
  }

  /** From its opening: every run of a transaction keeps the prior database, if and only
      if there is no LaunchAgent to load, and either the main file is there or every
      file is in evidence already. */
  lemma KeptFromOpeningExactly(w: World)
    requires JustOpened(w)
    ensures AlwaysHeld(w) <==> w.plist.None? && (Main in w.prior || AllInEvidence(w))
  {
    if w.plist.Some? {
      ALoadableDaemonCanLose(w);
    } else if Main in w.prior || AllInEvidence(w) {
      forall v | LeadsOpen(w, v) && Undecided(v) ensures Held(v) { ShelterHolds(w, v); }
    } else {
      var c :| c in w.prior && !InEvidence(w, c);
      OrphansCanBeLost(w, c);
    }
  }

  lemma RollbackInEvidence(w: World, v: World)
    requires Inv(w) && RollingBack(w) && w.frozen && AllInEvidence(w) && LeadsOpen(w, v)
    ensures AllInEvidence(v)
  {
    var log :| Run(log) && Open(log, 0, |log| - 1) && log[0] == w && log[|log| - 1] == v;
    EvidenceThroughout(log, |log| - 1);
  }

  lemma {:induction false} EvidenceThroughout(log: seq<World>, i: nat)
    requires Run(log) && Open(log, 0, i) && RollingBack(log[0]) && log[0].frozen && AllInEvidence(log[0])
    ensures AllInEvidence(log[i])
    decreases i
  {
    if i > 0 {
      EvidenceThroughout(log, i - 1);
      FollowsThroughout(log, 0, i - 1);
      FollowsAt(log, i - 1);
      EvidenceAt(log, i - 1);
    }
  }

  lemma EvidenceAt(log: seq<World>, k: nat)
    requires Run(log) && k + 1 < |log| && AllInEvidence(log[k]) && log[k + 1].prior == log[k].prior
    ensures AllInEvidence(log[k + 1])
  {
    assert StepAt(log, k);
    var m :| Allowed(log[k], m) && log[k + 1] == After(log[k], m);
    forall c | c in log[k].prior ensures InEvidence(log[k + 1], c) { EvidenceKept(log[k], m, c); }
  }

  /** At a cut where the prior database is final and has no snapshot: every further run
      of the transaction keeps it, if and only if all of it is in evidence or there is
      no LaunchAgent to load. */
  lemma KeptFromCutExactly(w: World)
    requires Inv(w) && RollingBack(w) && w.frozen && !w.tx.value.backedUp && Held(w)
    ensures AlwaysHeld(w) <==> AllInEvidence(w) || w.plist.None?
  {
    if AllInEvidence(w) {
      forall v | LeadsOpen(w, v) && Undecided(v) ensures Held(v) { RollbackInEvidence(w, v); }
    } else if w.plist.None? {
      forall v | LeadsOpen(w, v) && Undecided(v) ensures Held(v) { ShelterHolds(w, v); }
    } else {
      var c :| c in w.prior && !InEvidence(w, c);
      OverwrittenWhileSplit(w, c);
      var v :| LeadsOpen(w, v) && v.prior == w.prior && !Held(v);
      RollbackStays(w, v);
    }
  }
}
