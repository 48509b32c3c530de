/** The prior database is kept, except where a daemon writes into a half-moved one. */
module InstallConservation {
  import opened Wrappers
  import opened InstallTypes
  import opened InstallInvariant
  import opened InstallRuns

  ghost predicate InEvidence(w: World, c: Component)
    requires c in w.prior
  {
    exists k :: 0 <= k < |w.evidence| && c in w.evidence[k] && w.evidence[k][c] == w.prior[c]
  }

  predicate IsLive(w: World, c: Component)
    requires c in w.prior
  {
    c in w.live && w.live[c] == w.prior[c]
  }

  /** The prior database still exists: in the committed snapshot, or file by file in
      place or in evidence. */
  ghost predicate Held(w: World) {
    || w.backup == Some(SnapshotOf(w.prior))
    || forall c :: c in w.prior ==> IsLive(w, c) || InEvidence(w, c)
  }

  /** A transaction is open and not yet accepted. */
  predicate Undecided(w: World) { w.tx.Some? && w.tx.value.phase != Accepted }

  ghost predicate Conserved(w: World) {
    Undecided(w) && Main in w.prior ==> Held(w)
  }

  /** Some of the prior database's files have been set aside without a snapshot and
      some have not. */
  ghost predicate Split(w: World) {
    && Undecided(w) && w.frozen && !w.tx.value.backedUp
    && exists c :: c in w.prior && !InEvidence(w, c)
  }

  ghost predicate DaemonWroteAt(log: seq<World>, i: nat)
    requires i + 1 < |log|
  {
    exists db :: Allowed(log[i], DaemonWrites(db)) && log[i + 1] == After(log[i], DaemonWrites(db))
  }

  // ------------------------------------------------------------------ one move

  /** Nothing is ever taken out of evidence. */
  lemma EvidenceGrows(w: World, m: Move)
    requires Allowed(w, m)
    ensures var v := After(w, m);
      || v.evidence == w.evidence
      || (m.NewEvidence? && v.evidence == w.evidence + [map[]])
      || (m.MoveAside? && v.evidence ==
            w.evidence[|w.evidence| - 1 := w.evidence[|w.evidence| - 1][m.component := w.live[m.component]]])
  {
  }

  lemma EvidenceKept(w: World, m: Move, c: Component)
    requires Allowed(w, m) && c in w.prior && InEvidence(w, c) && After(w, m).prior == w.prior
    ensures InEvidence(After(w, m), c)
  {
    EvidenceGrows(w, m);
    var k :| 0 <= k < |w.evidence| && c in w.evidence[k] && w.evidence[k][c] == w.prior[c];
    var v := After(w, m);
    assert k < |v.evidence| && c in v.evidence[k] && v.evidence[k][c] == w.prior[c];
  }

  lemma MovedIsKept(w: World, c: Component, d: Component)
    requires Allowed(w, MoveAside(c)) && d in w.prior && (IsLive(w, d) || InEvidence(w, d))
    ensures IsLive(After(w, MoveAside(c)), d) || InEvidence(After(w, MoveAside(c)), d)
  {
    var v := After(w, MoveAside(c));
    if InEvidence(w, d) {
      EvidenceKept(w, MoveAside(c), d);
    } else if c == d {
      var last := |w.evidence| - 1;
      assert d in v.evidence[last] && v.evidence[last][d] == w.prior[d];
    }
  }

  lemma SnapshotHolds(w: World)
    requires Inv(w) && Undecided(w) && (w.tx.value.backedUp || !w.frozen)
    ensures Held(w)
  {
  }

  lemma ConservedStep(w: World, m: Move)
    requires Inv(w) && Conserved(w) && Allowed(w, m)
    requires m.DaemonWrites? ==> !Split(w)
    ensures Conserved(After(w, m))
  {
    var v := After(w, m);
    InvKept(w, m);
    if Undecided(v) && Main in v.prior {
      if v.tx.value.backedUp || !v.frozen {
        SnapshotHolds(v);
      } else {
        FrozenStep(w, m);
      }
    }
  }

  /** Without a snapshot, what has been set aside stays, and what has not is either
      still in place or moved whole. */
  lemma FrozenStep(w: World, m: Move)
    requires Inv(w) && Conserved(w) && Allowed(w, m) && Inv(After(w, m))
    requires m.DaemonWrites? ==> !Split(w)
    requires var v := After(w, m); Undecided(v) && Main in v.prior && v.frozen && !v.tx.value.backedUp
    ensures Held(After(w, m))
  {
    var v := After(w, m);
    FrozenFrom(w, m);
    forall c | c in v.prior ensures IsLive(v, c) || InEvidence(v, c) {
      if m.MoveAside? {
        MovedIsKept(w, m.component, c);
      } else if InEvidence(w, c) {
        EvidenceKept(w, m, c);
      } else {
        assert IsLive(w, c);
      }
    }
  }

  /** Set aside, with a main file and no snapshot: only a rollback gets there. */
  lemma FrozenIsRollback(w: World)
    requires Inv(w) && Undecided(w) && Main in w.prior && w.frozen && !w.tx.value.backedUp
    ensures w.tx.value.phase == RollbackInProgress && w.backup.None?
  {
  }

  lemma PersistFrozen(w: World, m: Move, v: World)
    requires m.Persist? && Allowed(w, m) && v == After(w, m) && RollingBack(v) && v.frozen
    ensures Undecided(w) && w.frozen && v.prior == w.prior && v.live == w.live
    ensures w.tx.value.backedUp == v.tx.value.backedUp
  {
    hide HandedBack, Confirmed, MayReselect, MaySelect, MayRestore, MaySnapshot, MayWrite, Consistent,
      Restorable;
    var next := m.next;
    assert MayPersist(w, next) && v == w.(tx := Some(next), started := None, prior := v.prior, frozen := v.frozen,
      handed := v.handed);
  }

  lemma OtherFrozen(w: World, m: Move)
    requires Allowed(w, m) && !m.Persist? && After(w, m).tx.Some? && After(w, m).frozen
    ensures w.tx == After(w, m).tx && After(w, m).prior == w.prior && (m.MoveAside? || w.frozen)
    ensures After(w, m).live == w.live || m.MoveAside? || m.CopyBack? || m.DaemonWrites?
    ensures m.CopyBack? ==> w.tx.value.backedUp
  {
  }

  lemma HeldFiles(w: World)
    requires Inv(w) && Conserved(w) && Undecided(w) && Main in w.prior && !w.tx.value.backedUp
    requires (w.frozen || w.tx.value.phase == RollbackInProgress)
    ensures forall c :: c in w.prior ==> IsLive(w, c) || InEvidence(w, c)
  {
  }

  lemma FrozenFrom(w: World, m: Move)
    requires Inv(w) && Conserved(w) && Allowed(w, m) && Inv(After(w, m))
    requires m.DaemonWrites? ==> !Split(w)
    requires var v := After(w, m); Undecided(v) && Main in v.prior && v.frozen && !v.tx.value.backedUp
    ensures After(w, m).prior == w.prior && (forall c :: c in w.prior ==> IsLive(w, c) || InEvidence(w, c))
    ensures !m.MoveAside? ==> After(w, m).live == w.live || forall c :: c in w.prior ==> InEvidence(w, c)
  {
    FrozenIsRollback(After(w, m));
    if m.Persist? { PersistFrozen(w, m, After(w, m)); } else { OtherFrozen(w, m); }
    HeldFiles(w);
  }

  // ------------------------------------------------------------------ whole runs

  /** Conservation: at every cut of every run that lets no daemon write into a
      half-moved database, the prior database still exists until the candidate is
      accepted or the rollback completes. */
  lemma {:induction false} Conservation(log: seq<World>, i: nat)
    requires Run(log) && Conserved(log[0]) && i < |log|
    requires forall k :: 0 <= k < i && DaemonWroteAt(log, k) ==> !Split(log[k])
    ensures Conserved(log[i])
    decreases i
  {
    if i > 0 {
      Conservation(log, i - 1);
      InvThroughout(log, i - 1);
      assert StepAt(log, i - 1);
      var m :| Allowed(log[i - 1], m) && log[i] == After(log[i - 1], m);
      if m.DaemonWrites? { assert DaemonWroteAt(log, i - 1); }
      ConservedStep(log[i - 1], m);
    }
  }

  /** A single-file database is set aside whole. */
  ghost predicate SetAsideWhole(w: World) {
    Undecided(w) && w.prior.Keys == {Main} && w.frozen && !w.tx.value.backedUp ==> InEvidence(w, Main)
  }

  lemma SetAsideWholeStep(w: World, m: Move)
    requires Inv(w) && SetAsideWhole(w) && Allowed(w, m)
    ensures SetAsideWhole(After(w, m))
  {
    var v := After(w, m);
    InvKept(w, m);
    if Undecided(v) && v.prior.Keys == {Main} && v.frozen && !v.tx.value.backedUp {
      FrozenIsRollback(v);
      if m.Persist? { PersistFrozen(w, m, After(w, m)); } else { OtherFrozen(w, m); }
      if w.frozen {
        EvidenceKept(w, m, Main);
      } else {
        FirstMove(w, m.component);
      }
    }
  }

  lemma FirstMove(w: World, c: Component)
    requires Allowed(w, MoveAside(c)) && w.live == w.prior && w.prior.Keys == {Main}
    ensures InEvidence(After(w, MoveAside(c)), Main)
  {
    assert c in w.prior.Keys;
    MovedIsKept(w, c, Main);
    assert !IsLive(After(w, MoveAside(c)), Main);
  }

  lemma {:induction false} SetAsideWholeThroughout(log: seq<World>, i: nat)
    requires Run(log) && SetAsideWhole(log[0]) && i < |log|
    ensures SetAsideWhole(log[i])
    decreases i
  {
    if i > 0 {
      SetAsideWholeThroughout(log, i - 1);
      InvThroughout(log, i - 1);
      assert StepAt(log, i - 1);
      var m :| Allowed(log[i - 1], m) && log[i] == After(log[i - 1], m);
      SetAsideWholeStep(log[i - 1], m);
    }
  }

  /** Conservation of a database that is a single file, with no condition on the run. */
  lemma SingleFileConservation(log: seq<World>, i: nat)
    requires Run(log) && SetAsideWhole(log[0]) && i < |log|
    requires Undecided(log[i]) && log[i].prior.Keys == {Main}
    ensures Held(log[i])
  {
    InvThroughout(log, i);
    SetAsideWholeThroughout(log, i);
    var w := log[i];
    if w.tx.value.backedUp || !w.frozen {
      SnapshotHolds(w);
    } else {
      forall c | c in w.prior ensures InEvidence(w, c) { assert c in w.prior.Keys; }
    }
  }
}
