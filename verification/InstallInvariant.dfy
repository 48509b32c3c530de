/** What every durable write keeps, wherever the CLI is cut. */
module InstallInvariant {
  import opened Wrappers
  import opened InstallTypes

  predicate Late(p: Phase) { p in {DatabaseBackedUp, CandidateSelected, CandidateReady, AcceptanceInProgress} }

  predicate ManagedAtMost(p: Option<Plist>, g: nat) { p.Some? && p.value.Managed? ==> p.value.generation <= g }

  predicate ManifestAtMost(m: Option<Manifest>, g: nat) { m.Some? ==> m.value.generation <= g }

  predicate AsksAtMost(db: Database, g: nat) { Request(db).Some? ==> Request(db).value <= g }

  /** The recorded prior selection, and whatever the databases ask for, is older than
      the candidate. */
  predicate Numbered(w: World, tx: Tx) {
    && Restorable(tx) && tx.candidate <= w.newest + 1 && 0 < tx.candidate
    && ManagedAtMost(tx.priorPlist, tx.candidate - 1) && ManifestAtMost(tx.priorManifest, tx.candidate - 1)
    && (tx.phase != Prepared && tx.phase != RollbackInProgress ==> tx.candidate <= w.newest)
    && AsksAtMost(w.live, tx.candidate - 1) && AsksAtMost(w.prior, tx.candidate - 1)
  }

  /** Which selection each phase leaves on disk. */
  predicate Selection(w: World, tx: Tx) {
    if Early(tx.phase) then w.plist == tx.priorPlist && w.manifest == tx.priorManifest
    else if tx.phase == DatabaseBackedUp then
      && (w.plist == tx.priorPlist || w.plist == Some(Managed(tx.candidate)))
      && (w.manifest == tx.priorManifest || w.manifest == Some(Manifest(tx.candidate, ReportOnly)))
    else if tx.phase == RollbackInProgress then
      && (w.plist in {tx.priorPlist, RestoredPlist(tx)}
            || (w.plist == Some(Managed(tx.candidate)) && tx.candidate <= w.newest))
      && (w.manifest in {tx.priorManifest, RestoredManifest(tx)}
            || (w.manifest == Some(Manifest(tx.candidate, ReportOnly)) && tx.candidate <= w.newest))
    else SelectsCandidate(w, tx)
  }

  /** A committed backup is there until acceptance, and holds the prior database;
      until the commit the prior database is the live one. */
  predicate Backups(w: World, tx: Tx) {
    && (tx.backedUp && tx.phase != Accepted ==> w.backup == Some(SnapshotOf(w.prior)) && w.frozen && Main in w.prior)
    && (!w.frozen && tx.phase != Accepted ==> w.live == w.prior)
    && (Early(tx.phase) ==> !tx.backedUp && !tx.restore && !w.frozen && (tx.phase != PriorDrained ==> w.backup.None?))
    && (Late(tx.phase) ==> !tx.restore && w.frozen && (!tx.backedUp ==> w.backup.None? && Main !in w.prior))
    && (tx.phase == RollbackInProgress ==>
          && (!tx.backedUp ==> w.backup.None?)
          && (!tx.restore ==> !w.frozen && !tx.backedUp))
  }

  /** What a rollback gave back is the prior database, where it says so. */
  predicate Returned(w: World, tx: Tx) {
    tx.phase == RollbackInProgress && w.handed.Some? ==>
      && (tx.backedUp ==> w.handed.value.prior == w.prior)
      && (!tx.restore ==> w.handed.value.db == w.handed.value.prior)
  }

  predicate Inv(w: World) {
    && (w.locked ==> w.running.None?)
    && (w.running.Some? ==> w.running == w.plist)
    && (w.armed ==> w.running.Some? && w.running.value.Managed? && Request(w.live) == Some(w.running.value.generation))
    && AsksAtMost(w.live, w.newest)
    && ManagedAtMost(w.plist, w.newest) && ManifestAtMost(w.manifest, w.newest)
    && (w.tx.Some? ==>
          && Numbered(w, w.tx.value) && Selection(w, w.tx.value)
          && Backups(w, w.tx.value) && Returned(w, w.tx.value))
  }

  lemma OpeningKeepsInv(w: World, next: Tx)
    requires Inv(w) && w.tx.None? && Allowed(w, Persist(next))
    ensures Inv(After(w, Persist(next)))
  {
  }

  lemma MarkingKeepsInv(w: World, next: Tx)
    requires Inv(w) && w.tx.Some? && next == Marked(w.tx.value) && Allowed(w, Persist(next))
    ensures Inv(After(w, Persist(next)))
  {
    var tx, v := w.tx.value, After(w, Persist(next));
    assert Restorable(next) && RestoredPlist(next) == RestoredPlist(tx)
        && RestoredManifest(next) == RestoredManifest(tx);
    assert Numbered(v, next);
    assert Selection(v, next);
    assert Backups(v, next);
  }

  lemma AdvanceKeepsInv(w: World, next: Tx)
    requires Inv(w) && w.tx.Some? && next.phase != RollbackInProgress && Allowed(w, Persist(next))
    ensures Inv(After(w, Persist(next)))
  {
    var tx, v := w.tx.value, After(w, Persist(next));
    assert next == tx.(phase := next.phase, backedUp := next.backedUp);
    assert Numbered(v, next);
    assert Selection(v, next);
    assert Backups(v, next);
  }

  lemma PersistKeepsInv(w: World, next: Tx)
    requires Inv(w) && Allowed(w, Persist(next))
    ensures Inv(After(w, Persist(next)))
  {
    if w.tx.None? {
      OpeningKeepsInv(w, next);
    } else if next.phase == RollbackInProgress {
      MarkingKeepsInv(w, next);
    } else {
      AdvanceKeepsInv(w, next);
    }
  }

  lemma SelectionKeepsInv(w: World, m: Move)
    requires Inv(w) && Allowed(w, m) && (m.WritePlist? || m.WriteManifest? || m.CreateGeneration?)
    ensures Inv(After(w, m))
  {
  }

  lemma BackupKeepsInv(w: World, m: Move)
    requires Inv(w) && Allowed(w, m) && (m.Snapshot? || m.Publish? || m.DropPending? || m.DropBackup?)
    ensures Inv(After(w, m))
  {
  }

  lemma RestoreKeepsInv(w: World, m: Move)
    requires Inv(w) && Allowed(w, m) && (m.NewEvidence? || m.MoveAside? || m.CopyBack? || m.DropTx?)
    ensures Inv(After(w, m))
  {
  }

  lemma ProcessKeepsInv(w: World, m: Move)
    requires Inv(w) && Allowed(w, m)
    requires m.Load? || m.Stop? || m.DaemonWrites? || m.Arm? || m.Rearm? || m.OfflineClear?
    ensures Inv(After(w, m))
  {
  }

  lemma LockKeepsInv(w: World, m: Move)
    requires Inv(w) && Allowed(w, m) && (m.Lock? || m.Unlock? || m.Crash?)
    ensures Inv(After(w, m))
  {
  }

  /** Every move keeps the invariant. */
  lemma InvKept(w: World, m: Move)
    requires Inv(w) && Allowed(w, m)
    ensures Inv(After(w, m))
  {
    match m
    case Persist(next) => PersistKeepsInv(w, next);
    case WritePlist(_) => SelectionKeepsInv(w, m);
    case WriteManifest(_) => SelectionKeepsInv(w, m);
    case CreateGeneration => SelectionKeepsInv(w, m);
    case Snapshot(_) => BackupKeepsInv(w, m);
    case Publish => BackupKeepsInv(w, m);
    case DropPending => BackupKeepsInv(w, m);
    case DropBackup => BackupKeepsInv(w, m);
    case NewEvidence => RestoreKeepsInv(w, m);
    case MoveAside(_) => RestoreKeepsInv(w, m);
    case CopyBack(_) => RestoreKeepsInv(w, m);
    case DropTx => RestoreKeepsInv(w, m);
    case Lock => LockKeepsInv(w, m);
    case Unlock => LockKeepsInv(w, m);
    case Crash => LockKeepsInv(w, m);
    case _ => ProcessKeepsInv(w, m);
  }

  // ------------------------------------------------------------------ enforcement

  /** A runtime that is armed without an intent is exposed. */
  lemma UnwarrantedIsExposed(w: World)
    requires Inv(w) && Unwarranted(w)
    ensures Exposed(w)
  {
  }

  /** Only a rollback over a database that still asks for the prior generation can
      expose a world. */
  lemma OnlyLeaksExpose(w: World, m: Move)
    requires Inv(w) && !Exposed(w) && Allowed(w, m) && !Leak(w, m)
    ensures !Exposed(After(w, m))
  {
    if m.WritePlist? || m.WriteManifest? {
      SelectionDoesNotExpose(w, m);
    } else if m.CopyBack? {
      CopyDoesNotExpose(w, m);
    } else {
      OthersDoNotExpose(w, m);
    }
  }

  lemma SelectionDoesNotExpose(w: World, m: Move)
    requires Inv(w) && !Exposed(w) && Allowed(w, m) && !Leak(w, m) && (m.WritePlist? || m.WriteManifest?)
    ensures !Exposed(After(w, m))
  {
  }

  lemma CopyDoesNotExpose(w: World, m: Move)
    requires Inv(w) && !Exposed(w) && Allowed(w, m) && !Leak(w, m) && m.CopyBack?
    ensures !Exposed(After(w, m))
  {
  }

  lemma OthersDoNotExpose(w: World, m: Move)
    requires Inv(w) && !Exposed(w) && Allowed(w, m) && !m.WritePlist? && !m.WriteManifest? && !m.CopyBack?
    ensures !Exposed(After(w, m))
  {
    var v := After(w, m);
    assert v.plist == w.plist && v.manifest == w.manifest;
  }
}
