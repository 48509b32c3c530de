/** When a rollback keeps the enforcement floor. */
module InstallEnforcement {
  import opened Wrappers
  import opened InstallTypes
  import opened InstallInvariant
  import opened InstallRuns
  import opened InstallCuts

  /** Neither the live nor the prior database asks for the prior generation. */
  predicate Unasked(w: World) {
    w.tx.Some? && !AsksForPrior(w.tx.value, w.live) && !AsksForPrior(w.tx.value, w.prior)
  }

  lemma DataStaysUnasked(w: World, m: Move)
    requires Inv(w) && Unasked(w) && Allowed(w, m) && !m.Persist? && After(w, m).tx.Some?
    ensures Unasked(After(w, m))
  {
    assert After(w, m).tx == w.tx;
  }

  lemma PersistStaysUnasked(w: World, m: Move)
    requires Inv(w) && Unasked(w) && Allowed(w, m) && m.Persist?
    ensures Unasked(After(w, m))
  {
    PersistFollows(w, m.next);
  }

  lemma UnaskedAt(log: seq<World>, k: nat)
    requires Run(log) && k + 1 < |log| && Unasked(log[k]) && log[k + 1].tx.Some?
    ensures Unasked(log[k + 1]) && !LeakAt(log, k)
  {
    InvThroughout(log, k);
    assert StepAt(log, k);
    var m :| Allowed(log[k], m) && log[k + 1] == After(log[k], m);
    if m.Persist? { PersistStaysUnasked(log[k], m); } else { DataStaysUnasked(log[k], m); }
    FollowsAt(log, k);
  }

  lemma {:induction false} UnaskedThroughout(log: seq<World>, i: nat)
    requires Run(log) && Open(log, 0, i) && Unasked(log[0])
    ensures Unasked(log[i]) && forall k :: 0 <= k < i ==> !LeakAt(log, k)
    decreases i
  {
    if i > 0 {
      UnaskedThroughout(log, i - 1);
      UnaskedAt(log, i - 1);
    }
  }

  lemma UnaskedKeepsFloor(w: World, v: World)
    requires Inv(w) && !Exposed(w) && Unasked(w) && LeadsOpen(w, v)
    ensures !Unwarranted(v)
  {
    var log :| Run(log) && Open(log, 0, |log| - 1) && log[0] == w && log[|log| - 1] == v;
    UnaskedThroughout(log, |log| - 1);
    EnforceFloor(log, |log| - 1);
  }

  /** The offline rollback of a transaction that was just opened, up to its manifest. */
  function Floored(w: World): World
    requires w.tx.Some?
  {
    w.(tx := Some(Marked(w.tx.value)), handed := None, running := None, started := None, armed := false,
       locked := true, manifest := RestoredManifest(w.tx.value))
  }

  lemma ReachFloored(w: World)
    requires JustOpened(w) && w.tx.value.priorManifest.Some?
    ensures LeadsOpen(w, Floored(w))
  {
    var tx := w.tx.value;
    ReachCut(w);
    var marked := Cut(w).(tx := Some(Marked(tx)));
    assert Allowed(Cut(w), Persist(Marked(tx))) && After(Cut(w), Persist(Marked(tx))) == marked;
    ThenOpen(w, Cut(w), Persist(Marked(tx)));
    ReachOffline(w, marked);
    var held := Offline(marked);
    var m := WriteManifest(RestoredManifest(tx));
    assert RestoredManifest(Marked(tx)) == RestoredManifest(tx)
        && RestoredPlist(Marked(tx)) == RestoredPlist(tx) == w.plist;
    assert Allowed(held, m) && After(held, m) == Floored(w);
    ThenOpen(w, held, m);
  }

  /** The prior daemon started again over its restored database. */
  function Reloaded(w: World): World
    requires w.tx.Some?
  {
    Floored(w).(locked := false, handed := Some(Handed(w.live, w.prior)), running := w.plist, started := w.plist)
  }

  lemma ReachReloaded(w: World)
    requires JustOpened(w) && w.tx.value.priorManifest.Some?
    ensures w.plist.Some?
    ensures LeadsOpen(w, Reloaded(w))
  {
    ReachFloored(w);
    var f := Floored(w);
    var free := f.(locked := false, handed := Some(Handed(w.live, w.prior)));
    assert After(f, Unlock) == free;
    ThenOpen(w, f, Unlock);
    assert Allowed(free, Load) && After(free, Load) == Reloaded(w);
    ThenOpen(w, free, Load);
  }

  /** The failing run: the daemon is stopped without being disarmed, its manifest goes to
      report-only, and after its restart it arms itself again. */
  lemma AskedBreaksFloor(w: World)
    requires JustOpened(w) && AsksForPrior(w.tx.value, w.live)
    ensures exists v :: LeadsOpen(w, v) && Unwarranted(v)
  {
    ReachReloaded(w);
    var loaded := Reloaded(w);
    var v := loaded.(armed := true);
    assert Allowed(loaded, Rearm) && After(loaded, Rearm) == v;
    ThenOpen(w, loaded, Rearm);
  }

  /** Exactly when a transaction keeps the floor: every run of it, cut anywhere, arms a
      runtime only under a durable Enforce intent, if and only if the database does
      not ask enforcement for the generation to go back to. */
  lemma FloorKeptExactly(w: World)
    requires JustOpened(w) && !Exposed(w)
    ensures (forall v :: LeadsOpen(w, v) ==> !Unwarranted(v)) <==> !AsksForPrior(w.tx.value, w.live)
  {
    if AsksForPrior(w.tx.value, w.live) {
      AskedBreaksFloor(w);
    } else {
      forall v | LeadsOpen(w, v) ensures !Unwarranted(v) { UnaskedKeepsFloor(w, v); }
    }
  }

  // ------------------------------------------------------------------ after the rollback

  /** Some run of the transaction of `w` ends in a finished rollback that leaves `v`. */
  ghost predicate FinishesIn(w: World, v: World) {
    exists u :: LeadsOpen(w, u) && RollingBack(u) && Allowed(u, DropTx) && v == After(u, DropTx)
  }

  lemma FinishedUnexposed(w: World, v: World)
    requires JustOpened(w) && FinishesIn(w, v)
    requires w.tx.value.priorLoaded || !AsksForPrior(w.tx.value, w.live)
    ensures !Exposed(v)
  {
    var u :| LeadsOpen(w, u) && RollingBack(u) && Allowed(u, DropTx) && v == After(u, DropTx);
    var log :| Run(log) && Open(log, 0, |log| - 1) && log[0] == w && log[|log| - 1] == u;
    InvThroughout(log, |log| - 1);
    FollowsThroughout(log, 0, |log| - 1);
    RemovalExposes(u);
    if !w.tx.value.priorLoaded {
      UnaskedThroughout(log, |log| - 1);
      assert v.live == u.live && v.handed == Some(Handed(u.live, u.prior));
    }
  }

  /** The lasting failure: the record is gone and the prior generation, not loaded, is
      selected at report-only over a database that asks for it. */
  lemma FinishedExposed(w: World)
    requires JustOpened(w) && !w.tx.value.priorLoaded && AsksForPrior(w.tx.value, w.live)
    ensures exists v :: FinishesIn(w, v) && Exposed(v)
  {
    ReachFloored(w);
    var f := Floored(w);
    assert Allowed(f, DropTx);
    assert FinishesIn(w, After(f, DropTx)) && Exposed(After(f, DropTx));
  }

  /** The next start of an exposed generation arms it without an intent. */
  lemma ExposedArms(v: World)
    requires Inv(v) && Exposed(v)
    ensures exists x :: Leads(v, x) && Unwarranted(x)
  {
    RunRestarted(v);
    var loaded := Restarted(v);
    var x := loaded.(armed := true);
    assert Allowed(loaded, Rearm) && After(loaded, Rearm) == x;
    Then(v, loaded, Rearm);
  }

  /** Exactly when finished rollbacks keep the floor for good: the prior generation was
      loaded, so that its report-only state was seen before the record went, or the
      database did not ask for it. */
  lemma FinishedFloorExactly(w: World)
    requires JustOpened(w)
    ensures (forall v :: FinishesIn(w, v) ==> !Exposed(v)) <==>
      w.tx.value.priorLoaded || !AsksForPrior(w.tx.value, w.live)
  {
    if w.tx.value.priorLoaded || !AsksForPrior(w.tx.value, w.live) {
      forall v | FinishesIn(w, v) ensures !Exposed(v) { FinishedUnexposed(w, v); }
    } else {
      FinishedExposed(w);
    }
  }
}
