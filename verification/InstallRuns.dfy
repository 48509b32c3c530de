/** Whole runs of the service: installs, acceptances, rollbacks and mode changes, cut
    anywhere and resumed any number of times. */
module InstallRuns {
  import opened Wrappers
  import opened InstallTypes
  import opened InstallInvariant

  /** One move leads from each world to the next. */
  ghost predicate StepAt(log: seq<World>, i: nat)
    requires i + 1 < |log|
  {
    exists m :: Allowed(log[i], m) && log[i + 1] == After(log[i], m)
  }

  ghost predicate Run(log: seq<World>) {
    && log != [] && Inv(log[0])
    && forall i :: 0 <= i < |log| - 1 ==> StepAt(log, i)
  }

  lemma InvAt(log: seq<World>, k: nat)
    requires k + 1 < |log| && StepAt(log, k) && Inv(log[k])
    ensures Inv(log[k + 1])
  {
    var m :| Allowed(log[k], m) && log[k + 1] == After(log[k], m);
    InvKept(log[k], m);
  }

  lemma {:induction false} InvThroughout(log: seq<World>, i: nat)
    requires Run(log) && i < |log|
    ensures Inv(log[i])
    decreases i
  {
    if i > 0 {
      InvThroughout(log, i - 1);
      InvAt(log, i - 1);
    }
  }

  /** One more move. */
  lemma Grown(log: seq<World>, m: Move)
    requires Run(log) && Allowed(log[|log| - 1], m)
    ensures Run(log + [After(log[|log| - 1], m)])
  {
    var next := log + [After(log[|log| - 1], m)];
    forall i | 0 <= i < |next| - 1 ensures StepAt(next, i) {
      if i < |log| - 1 {
        assert StepAt(log, i);
        var k :| Allowed(log[i], k) && log[i + 1] == After(log[i], k);
        assert Allowed(next[i], k) && next[i + 1] == After(next[i], k);
      } else {
        assert Allowed(next[i], m) && next[i + 1] == After(next[i], m);
      }
    }
  }

  /** Some run leads from `v` to `w`. */
  ghost predicate Leads(v: World, w: World) {
    exists log :: Run(log) && log[0] == v && log[|log| - 1] == w
  }

  lemma Then(u: World, v: World, m: Move)
    requires Leads(u, v) && Allowed(v, m)
    ensures Leads(u, After(v, m))
  {
    var log :| Run(log) && log[0] == u && log[|log| - 1] == v;
    Grown(log, m);
    var next := log + [After(v, m)];
    assert next[0] == u && next[|next| - 1] == After(v, m);
  }

  lemma Stays(w: World)
    requires Inv(w)
    ensures Leads(w, w)
  {
    var log := [w];
    assert Run(log) && log[0] == w && log[|log| - 1] == w;
  }

  // ------------------------------------------------------------------ one transaction

  /** A transaction is on disk from `i` to `j`. */
  ghost predicate Open(log: seq<World>, i: nat, j: nat) {
    i <= j < |log| && forall k :: i <= k <= j ==> log[k].tx.Some?
  }

  /** Some run leads from `v` to `w` with the transaction on disk all the time. */
  ghost predicate LeadsOpen(v: World, w: World) {
    exists log :: Run(log) && Open(log, 0, |log| - 1) && log[0] == v && log[|log| - 1] == w
  }

  lemma ThenOpen(u: World, v: World, m: Move)
    requires LeadsOpen(u, v) && Allowed(v, m) && After(v, m).tx.Some?
    ensures LeadsOpen(u, After(v, m))
  {
    var log :| Run(log) && Open(log, 0, |log| - 1) && log[0] == u && log[|log| - 1] == v;
    Grown(log, m);
    var next := log + [After(v, m)];
    assert Open(next, 0, |next| - 1) && next[0] == u && next[|next| - 1] == After(v, m);
  }

  lemma StaysOpen(w: World)
    requires Inv(w) && w.tx.Some?
    ensures LeadsOpen(w, w)
  {
    var log := [w];
    assert Run(log) && Open(log, 0, |log| - 1) && log[0] == w && log[|log| - 1] == w;
  }

  /** A transaction was just opened, offline or beside a running daemon. */
  predicate JustOpened(w: World) {
    Inv(w) && w.tx.Some? && w.tx.value.phase == Prepared
  }

  lemma OpenIsRun(v: World, w: World)
    requires LeadsOpen(v, w)
    ensures Leads(v, w)
  {
  }

  /** Open runs compose. */
  lemma OpenOn(u: World, v: World, w: World)
    requires LeadsOpen(u, v) && LeadsOpen(v, w)
    ensures LeadsOpen(u, w)
  {
    var a :| Run(a) && Open(a, 0, |a| - 1) && a[0] == u && a[|a| - 1] == v;
    var b :| Run(b) && Open(b, 0, |b| - 1) && b[0] == v && b[|b| - 1] == w;
    var log := a + b[1..];
    forall i | 0 <= i < |log| - 1 ensures StepAt(log, i) { JoinedStep(a, b, i); }
    assert forall k :: 0 <= k < |log| ==> log[k] == if k < |a| then a[k] else b[k - |a| + 1];
    assert Open(log, 0, |log| - 1) && log[0] == u && log[|log| - 1] == w;
  }

  lemma JoinedStep(a: seq<World>, b: seq<World>, i: nat)
    requires Run(a) && Run(b) && a[|a| - 1] == b[0] && i + 1 < |a + b[1..]|
    ensures StepAt(a + b[1..], i)
  {
    var log := a + b[1..];
    if i < |a| - 1 {
      assert StepAt(a, i) && log[i] == a[i] && log[i + 1] == a[i + 1];
    } else {
      var k := i - |a| + 1;
      assert StepAt(b, k) && log[i] == b[k] && log[i + 1] == b[k + 1];
    }
  }

  /** What stays of a transaction while it is on disk. */
  predicate Follows(v: World, w: World)
    requires v.tx.Some? && w.tx.Some?
  {
    var t, u := v.tx.value, w.tx.value;
    && (t.candidate, t.priorManifest, t.priorPlist, t.priorLoaded) ==
          (u.candidate, u.priorManifest, u.priorPlist, u.priorLoaded)
    && (t.phase == Accepted ==> u.phase == Accepted)
    && (t.backedUp ==> u.backedUp)
    && (v.frozen ==> w.frozen && w.prior == v.prior)
    && (!Early(t.phase) ==> u.backedUp == t.backedUp)
    && (Late(t.phase) ==> Late(u.phase) || u.phase == Accepted || (u.phase == RollbackInProgress && u.restore))
    && (t.phase == RollbackInProgress ==> u.phase == RollbackInProgress && (t.restore ==> u.restore))
  }

  lemma MarkFollows(w: World)
    requires Inv(w) && w.tx.Some? && Allowed(w, Persist(Marked(w.tx.value)))
    requires w.tx.value.phase != Accepted
    ensures Follows(w, After(w, Persist(Marked(w.tx.value))))
  {
  }

  lemma AdvanceFollows(w: World)
    requires w.tx.Some? && MayAdvance(w, w.tx.value)
    requires Inv(w)
    ensures Follows(w, After(w, Persist(Advanced(w, w.tx.value))))
  {
  }

  lemma PersistFollows(w: World, next: Tx)
    requires Inv(w) && w.tx.Some? && Allowed(w, Persist(next))
    ensures Follows(w, After(w, Persist(next)))
  {
    if next == Marked(w.tx.value) && w.tx.value.phase != Accepted { MarkFollows(w); } else { AdvanceFollows(w); }
  }

  lemma OtherFollows(w: World, m: Move)
    requires w.tx.Some? && Allowed(w, m) && !m.Persist? && After(w, m).tx.Some?
    ensures After(w, m).tx == w.tx && (w.frozen ==> After(w, m).frozen && After(w, m).prior == w.prior)
  {
  }

  lemma FollowsStep(w: World, m: Move)
    requires Inv(w) && w.tx.Some? && Allowed(w, m) && After(w, m).tx.Some?
    ensures Follows(w, After(w, m))
  {
    if m.Persist? { PersistFollows(w, m.next); } else { OtherFollows(w, m); Unchanged(w, After(w, m)); }
  }

  lemma Unchanged(v: World, w: World)
    requires Inv(v) && v.tx.Some? && v.tx == w.tx && (v.frozen ==> w.frozen && w.prior == v.prior)
    ensures Follows(v, w)
  {
  }

  lemma FollowsOn(u: World, v: World, w: World)
    requires u.tx.Some? && v.tx.Some? && w.tx.Some? && Follows(u, v) && Follows(v, w)
    ensures Follows(u, w)
  {
  }

  lemma FollowsAt(log: seq<World>, k: nat)
    requires Run(log) && k + 1 < |log| && log[k].tx.Some? && log[k + 1].tx.Some?
    ensures Follows(log[k], log[k + 1])
  {
    InvThroughout(log, k);
    assert StepAt(log, k);
    var m :| Allowed(log[k], m) && log[k + 1] == After(log[k], m);
    FollowsStep(log[k], m);
  }

  lemma {:induction false} FollowsThroughout(log: seq<World>, i: nat, j: nat)
    requires Run(log) && Open(log, i, j)
    ensures Follows(log[i], log[j])
    decreases j
  {
    if i < j {
      FollowsThroughout(log, i, j - 1);
      FollowsAt(log, j - 1);
      FollowsOn(log[i], log[j - 1], log[j]);
    } else {
      InvThroughout(log, i);
      Unchanged(log[i], log[i]);
    }
  }

  /** What a rollback leaves behind when its transaction is removed. */
  lemma RemovalStep(w: World, m: Move)
    requires Inv(w) && w.tx.Some? && w.tx.value.phase == RollbackInProgress && Allowed(w, m) && After(w, m).tx.None?
    ensures var tx, v := w.tx.value, After(w, m);
      && v.plist == RestoredPlist(tx) && v.manifest == RestoredManifest(tx) && v.handed.Some?
      && (tx.backedUp ==> v.handed.value.prior == w.prior && v.handed.value.db == map[Main := SnapshotOf(w.prior)])
      && (tx.restore && !tx.backedUp ==> v.handed.value.db == map[])
      && (!tx.restore ==> v.handed.value.db == v.handed.value.prior)
  {
    hide MaySelect, MayReselect, MaySnapshot, MayRestore, MayWrite, MayPersist;
  }

  lemma RemovalAt(log: seq<World>, j: nat)
    requires Run(log) && j + 1 < |log| && RollingBack(log[j]) && log[j + 1].tx.None?
    ensures var tx, v := log[j].tx.value, log[j + 1];
      && v.plist == RestoredPlist(tx) && v.manifest == RestoredManifest(tx) && v.handed.Some?
      && (tx.backedUp ==>
            v.handed.value.prior == log[j].prior && v.handed.value.db == map[Main := SnapshotOf(log[j].prior)])
      && (tx.restore && !tx.backedUp ==> v.handed.value.db == map[])
      && (!tx.restore ==> v.handed.value.db == v.handed.value.prior)
  {
    InvThroughout(log, j);
    assert StepAt(log, j);
    var m :| Allowed(log[j], m) && log[j + 1] == After(log[j], m);
    RemovalStep(log[j], m);
  }

  /** The rollback is bound to restore: the candidate may have run. */
  predicate Bound(tx: Tx) { Late(tx.phase) || (tx.phase == RollbackInProgress && tx.restore) }

  /** The selection that a rollback gives back: the recorded generation at the report-only
      floor, or the legacy LaunchAgent in its report-only form, or nothing. */
  predicate SelectionRestored(tx: Tx, w: World) {
    && w.plist ==
        (match tx.priorPlist
         case None => None
         case Some(Managed(generation)) => Some(Managed(generation))
         case Some(Legacy(_)) => Some(Legacy(ReportOnly)))
    && w.manifest ==
        (match tx.priorManifest
         case None => None
         case Some(m) => Some(Manifest(m.generation, ReportOnly)))
  }

  lemma FloorRestores(tx: Tx, w: World)
    requires Restorable(tx) && w.plist == RestoredPlist(tx) && w.manifest == RestoredManifest(tx)
    ensures SelectionRestored(tx, w)
  {
  }

  /** Convergence: once the database backup is durable, however many passes are cut,
      the rollback that finishes restores the recorded selection at the report-only
      floor and gives back the snapshot that was committed, or no database if none
      was. */
  lemma RollbackConverges(log: seq<World>, i: nat, j: nat)
    requires Run(log) && Open(log, i, j) && j + 1 < |log|
    requires Bound(log[i].tx.value) && RollingBack(log[j]) && log[j + 1].tx.None?
    ensures var tx, v := log[i].tx.value, log[j + 1];
      && SelectionRestored(tx, v) && v.handed.Some?
      && v.handed.value.db == (if tx.backedUp then map[Main := SnapshotOf(log[i].prior)] else map[])
      && (Late(tx.phase) ==> (tx.backedUp <==> Main in log[i].prior))
  {
    FollowsThroughout(log, i, j);
    InvThroughout(log, i);
    InvThroughout(log, j);
    RemovalAt(log, j);
    FloorRestores(log[i].tx.value, log[j + 1]);
  }

  /** A rollback that completes gives the prior database back exactly when its record
      had committed a backup, or did not call for a restore, or there was none. */
  lemma GivesBackExactly(log: seq<World>, j: nat)
    requires Run(log) && j + 1 < |log| && RollingBack(log[j]) && log[j + 1].tx.None?
    ensures log[j + 1].handed.Some?
    ensures var tx, h := log[j].tx.value, log[j + 1].handed.value;
      (h.db == h.prior || h.db == map[Main := SnapshotOf(h.prior)]) <==> tx.backedUp || !tx.restore || h.prior == map[]
  {
    RemovalAt(log, j);
    var snapshot: Database := map[Main := SnapshotOf(log[j + 1].handed.value.prior)];
    assert Main in snapshot;
  }

  /** The committed snapshot outlives every need for it, unchanged. */
  lemma BackupOutlivesNeed(log: seq<World>, i: nat, j: nat)
    requires Run(log) && Open(log, i, j) && log[i].tx.value.backedUp && log[i].tx.value.phase != Accepted
    ensures log[j].tx.value.phase == Accepted || log[j].backup == Some(SnapshotOf(log[i].prior)) == log[i].backup
  {
    FollowsThroughout(log, i, j);
    InvThroughout(log, i);
    InvThroughout(log, j);
  }

  // ------------------------------------------------------------------ acceptance

  predicate PlistAtLeast(p: Option<Plist>, g: nat) { p.Some? ==> p.value.Managed? && g <= p.value.generation }

  predicate ManifestAtLeast(m: Option<Manifest>, g: nat) { m.Some? ==> g <= m.value.generation }

  /** Neither the selection nor anything a rollback could restore is older than `g`. */
  predicate NothingBefore(w: World, g: nat) {
    && g <= w.newest && PlistAtLeast(w.plist, g) && ManifestAtLeast(w.manifest, g)
    && (w.tx.Some? ==>
          && g <= w.tx.value.candidate
          && (w.tx.value.phase != Accepted ==>
                PlistAtLeast(w.tx.value.priorPlist, g) && ManifestAtLeast(w.tx.value.priorManifest, g)))
  }

  lemma OpeningNothingBefore(w: World, next: Tx, g: nat)
    requires Inv(w) && w.tx.None? && Allowed(w, Persist(next)) && NothingBefore(w, g)
    ensures NothingBefore(After(w, Persist(next)), g)
  {
    assert next == Opening(w, next.priorLoaded);
  }

  lemma PersistNothingBefore(w: World, next: Tx, g: nat)
    requires Inv(w) && w.tx.Some? && Allowed(w, Persist(next)) && NothingBefore(w, g)
    ensures NothingBefore(After(w, Persist(next)), g)
  {
    PersistFollows(w, next);
  }

  lemma SelectNothingBefore(w: World, m: Move, g: nat)
    requires Inv(w) && Allowed(w, m) && (m.WritePlist? || m.WriteManifest?) && NothingBefore(w, g)
    ensures NothingBefore(After(w, m), g)
  {
  }

  lemma NothingBeforeStep(w: World, m: Move, g: nat)
    requires Inv(w) && Allowed(w, m) && NothingBefore(w, g)
    ensures NothingBefore(After(w, m), g)
  {
    if m.Persist? {
      if w.tx.None? { OpeningNothingBefore(w, m.next, g); } else { PersistNothingBefore(w, m.next, g); }
    } else if m.WritePlist? || m.WriteManifest? {
      SelectNothingBefore(w, m, g);
    } else {
      var v := After(w, m);
      assert v.plist == w.plist && v.manifest == w.manifest && w.newest <= v.newest && v.tx in {w.tx, None};
    }
  }

  lemma NothingBeforeAt(log: seq<World>, k: nat, g: nat)
    requires Run(log) && k + 1 < |log| && NothingBefore(log[k], g)
    ensures NothingBefore(log[k + 1], g)
  {
    InvThroughout(log, k);
    assert StepAt(log, k);
    var m :| Allowed(log[k], m) && log[k + 1] == After(log[k], m);
    NothingBeforeStep(log[k], m, g);
  }

  lemma AcceptedSelects(w: World)
    requires Inv(w) && w.tx.Some? && w.tx.value.phase == Accepted
    ensures NothingBefore(w, w.tx.value.candidate)
  {
  }

  lemma {:induction false} NothingBeforeThroughout(log: seq<World>, i: nat, j: nat, g: nat)
    requires Run(log) && i <= j < |log| && NothingBefore(log[i], g)
    ensures NothingBefore(log[j], g)
    decreases j
  {
    if i < j {
      NothingBeforeThroughout(log, i, j - 1, g);
      NothingBeforeAt(log, j - 1, g);
    }
  }

  /** Acceptance is irrevocable: no later operation or crash selects an older
      generation, and the record stays Accepted until it is removed. */
  lemma AcceptanceIsFinal(log: seq<World>, i: nat, j: nat)
    requires Run(log) && i <= j < |log| && log[i].tx.Some? && log[i].tx.value.phase == Accepted
    ensures NothingBefore(log[j], log[i].tx.value.candidate)
    ensures Open(log, i, j) ==> log[j].tx.value.phase == Accepted
  {
    InvThroughout(log, i);
    AcceptedSelects(log[i]);
    NothingBeforeThroughout(log, i, j, log[i].tx.value.candidate);
    if Open(log, i, j) { FollowsThroughout(log, i, j); }
  }

  // ------------------------------------------------------------------ enforcement

  /** While a transaction is on disk, an Enforce intent can only be the recorded prior
      one, not yet replaced. */
  lemma EnforceIntentIsPrior(log: seq<World>, i: nat)
    requires Run(log) && i < |log|
    ensures var w := log[i];
      w.tx.Some? && w.manifest.Some? && w.manifest.value.desired == Enforce ==>
        w.manifest == w.tx.value.priorManifest
          && (Early(w.tx.value.phase) || w.tx.value.phase in {DatabaseBackedUp, RollbackInProgress})
  {
    InvThroughout(log, i);
  }

  ghost predicate LeakAt(log: seq<World>, k: nat)
    requires k + 1 < |log|
  {
    exists m :: Allowed(log[k], m) && log[k + 1] == After(log[k], m) && Leak(log[k], m)
  }

  lemma ExposedAt(log: seq<World>, k: nat)
    requires Run(log) && k + 1 < |log| && !Exposed(log[k]) && !LeakAt(log, k)
    ensures !Exposed(log[k + 1])
  {
    InvThroughout(log, k);
    assert StepAt(log, k);
    var m :| Allowed(log[k], m) && log[k + 1] == After(log[k], m);
    OnlyLeaksExpose(log[k], m);
  }

  lemma {:induction false} NeverExposed(log: seq<World>, i: nat)
    requires Run(log) && i < |log| && !Exposed(log[0])
    requires forall k :: 0 <= k < i ==> !LeakAt(log, k)
    ensures !Exposed(log[i])
    decreases i
  {
    if i > 0 {
      NeverExposed(log, i - 1);
      ExposedAt(log, i - 1);
    }
  }

  /** In every run, cut anywhere, in which no rollback writes over a database that still
      asks for the prior generation: a runtime is armed, and a selected generation
      asked to be, only under a durable Enforce intent for that generation. */
  lemma EnforceFloor(log: seq<World>, i: nat)
    requires Run(log) && i < |log| && !Exposed(log[0])
    requires forall k :: 0 <= k < i ==> !LeakAt(log, k)
    ensures !Exposed(log[i]) && !Unwarranted(log[i])
  {
    InvThroughout(log, i);
    NeverExposed(log, i);
    if Unwarranted(log[i]) { UnwarrantedIsExposed(log[i]); }
  }

  /** Mode changes, installations and acceptances keep the floor at every cut: a run that
      is not rolling back never arms without a durable intent. */
  lemma FloorWithoutRollback(log: seq<World>, i: nat)
    requires Run(log) && i < |log| && !Exposed(log[0])
    requires forall k :: 0 <= k < i ==> !RollingBack(log[k])
    ensures !Exposed(log[i]) && !Unwarranted(log[i])
  {
    forall k | 0 <= k < i ensures !LeakAt(log, k) {}
    EnforceFloor(log, i);
  }

  // ------------------------------------------------------------------ after a rollback

  /** The removal of the record ends a rollback with the selected generation exposed
      exactly when it was not loaded before and the database it gets back still asks
      for it. */
  lemma RemovalExposes(w: World)
    requires Inv(w) && RollingBack(w) && Allowed(w, DropTx)
    ensures After(w, DropTx).handed.Some?
    ensures Exposed(After(w, DropTx)) <==>
      !w.tx.value.priorLoaded && AsksForPrior(w.tx.value, After(w, DropTx).handed.value.db)
  {
  }

  lemma OnlyDropTxRemoves(w: World, m: Move)
    requires RollingBack(w) && Allowed(w, m) && After(w, m).tx.None?
    ensures m == DropTx
  {
  }

  /** The same in every run. */
  lemma RemovalExposesExactly(log: seq<World>, j: nat)
    requires Run(log) && j + 1 < |log| && RollingBack(log[j]) && log[j + 1].tx.None?
    ensures log[j + 1].handed.Some?
    ensures Exposed(log[j + 1]) <==>
      !log[j].tx.value.priorLoaded && AsksForPrior(log[j].tx.value, log[j + 1].handed.value.db)
  {
    InvThroughout(log, j);
    assert StepAt(log, j);
    var m :| Allowed(log[j], m) && log[j + 1] == After(log[j], m);
    OnlyDropTxRemoves(log[j], m);
    RemovalExposes(log[j]);
  }
}
