/** Runs in which the rollback does not give the prior database back, or loses it. */
module InstallCuts {
  import opened Wrappers
  import opened InstallTypes
  import opened InstallInvariant
  import opened InstallRuns
  import opened InstallConservation

  // ------------------------------------------------------------------ processes

  /** The CLI dies. */
  function Cut(w: World): World { w.(locked := false, started := None, handed := None) }

  lemma ReachCut(w: World)
    requires Inv(w) && w.tx.Some?
    ensures LeadsOpen(w, Cut(w))
  {
    StaysOpen(w);
    assert After(w, Crash) == Cut(w);
    ThenOpen(w, w, Crash);
  }

  /** The CLI dies and the selected daemon comes back. */
  function Restarted(w: World): World {
    w.(locked := false, handed := None, running := w.plist, started := w.plist, armed := false)
  }

  lemma ReachRestarted(u: World, w: World)
    requires LeadsOpen(u, w) && w.plist.Some?
    ensures LeadsOpen(u, Restarted(w))
  {
    var cut := Cut(w);
    assert After(w, Crash) == cut;
    ThenOpen(u, w, Crash);
    var stopped := cut.(running := None, armed := false);
    assert After(cut, Stop) == stopped;
    ThenOpen(u, cut, Stop);
    assert Allowed(stopped, Load) && After(stopped, Load) == Restarted(w);
    ThenOpen(u, stopped, Load);
  }

  /** The same with or without a transaction. */
  lemma RunRestarted(w: World)
    requires Inv(w) && w.plist.Some?
    ensures Leads(w, Restarted(w))
  {
    Stays(w);
    assert After(w, Crash) == Cut(w);
    Then(w, w, Crash);
    var stopped := Cut(w).(running := None, armed := false);
    assert After(Cut(w), Stop) == stopped;
    Then(w, Cut(w), Stop);
    assert Allowed(stopped, Load) && After(stopped, Load) == Restarted(w);
    Then(w, stopped, Load);
  }

  /** The daemon is stopped and the CLI holds its lock. */
  function Offline(w: World): World {
    w.(running := None, armed := false, locked := true)
  }

  lemma ReachOffline(u: World, w: World)
    requires LeadsOpen(u, w) && !w.locked
    ensures LeadsOpen(u, Offline(w))
  {
    var stopped := w.(running := None, armed := false);
    assert After(w, Stop) == stopped;
    ThenOpen(u, w, Stop);
    assert After(stopped, Lock) == Offline(w);
    ThenOpen(u, stopped, Lock);
  }

  /** A daemon overwrites everything while the prior database is final. */
  lemma ReachOverwritten(u: World, w: World)
    requires LeadsOpen(u, w) && w.running.Some? && !w.locked && w.frozen && !w.armed
    ensures LeadsOpen(u, w.(live := map[]))
  {
    assert Allowed(w, DaemonWrites(map[])) && After(w, DaemonWrites(map[])) == w.(live := map[]);
    ThenOpen(u, w, DaemonWrites(map[]));
  }

  // ------------------------------------------------------------------ the second pass

  /** The intent written twice, with a cut before each. */
  function TwiceMarked(w: World): World
    requires w.tx.Some?
  {
    Cut(w).(tx := Some(w.tx.value.(phase := RollbackInProgress, restore := true)))
  }

  lemma ReachTwiceMarked(w: World)
    requires JustOpened(w)
    ensures LeadsOpen(w, TwiceMarked(w))
  {
    var tx := w.tx.value;
    var cut := Cut(w);
    ReachCut(w);
    var first := cut.(tx := Some(tx.(phase := RollbackInProgress)));
    assert Allowed(cut, Persist(first.tx.value)) && After(cut, Persist(first.tx.value)) == first;
    ThenOpen(w, cut, Persist(first.tx.value));
    assert After(first, Crash) == first;
    var second := TwiceMarked(w);
    assert Allowed(first, Persist(second.tx.value)) && After(first, Persist(second.tx.value)) == second;
    ThenOpen(w, first, Persist(second.tx.value));
  }

  /** A first pass is cut after its intent, and a second one holds the daemon lock and
      has made its evidence directory. */
  function SecondPass(w: World): World
    requires w.tx.Some?
  {
    Offline(TwiceMarked(w)).(evidence := w.evidence + [map[]])
  }

  lemma ReachSecondPass(w: World)
    requires JustOpened(w)
    ensures LeadsOpen(w, SecondPass(w)) && MayRestore(SecondPass(w))
  {
    ReachTwiceMarked(w);
    var second := TwiceMarked(w);
    var held := Offline(second);
    ReachOffline(w, second);
    assert Allowed(held, NewEvidence) && After(held, NewEvidence) == SecondPass(w);
    ThenOpen(w, held, NewEvidence);
  }

  // ------------------------------------------------------------------ cut between two renames

  function HalfMoved(w: World): World
    requires w.tx.Some? && Main in w.live
  {
    SecondPass(w).(live := w.live - {Main}, evidence := w.evidence + [map[Main := w.live[Main]]], frozen := true)
  }

  lemma ReachHalfMoved(w: World)
    requires JustOpened(w) && Main in w.live
    ensures LeadsOpen(w, HalfMoved(w))
  {
    ReachSecondPass(w);
    var e := SecondPass(w);
    assert Allowed(e, MoveAside(Main));
    assert (w.evidence + [map[]])[|w.evidence| := map[Main := w.live[Main]]] ==
        w.evidence + [map[Main := w.live[Main]]];
    assert After(e, MoveAside(Main)) == HalfMoved(w);
    ThenOpen(w, e, MoveAside(Main));
  }

  /** While a rollback without a snapshot is cut with a file neither set aside nor
      safe, a daemon that comes back can overwrite it. */
  lemma OverwrittenWhileSplit(w: World, c: Component)
    requires Inv(w) && RollingBack(w) && w.frozen && !w.tx.value.backedUp && w.plist.Some? && c in w.prior
    requires !InEvidence(w, c)
    ensures exists v :: LeadsOpen(w, v) && v.prior == w.prior && !Held(v)
  {
    StaysOpen(w);
    ReachRestarted(w, w);
    ReachOverwritten(w, Restarted(w));
    var v := Restarted(w).(live := map[]);
    assert !InEvidence(v, c);
  }

  /** For every prior database with a sidecar: a rollback begun before the backup,
      cut once after its intent and once between two renames, lets the restarted
      prior daemon overwrite the sidecar that was left behind. */
  lemma SidecarCanBeLost(w: World, c: Component)
    requires JustOpened(w) && w.plist.Some? && Main in w.prior && c in w.prior && c != Main && !InEvidence(w, c)
    ensures exists v :: LeadsOpen(w, v) && Undecided(v) && v.prior == w.prior && !Held(v)
  {
    ReachHalfMoved(w);
    var h := HalfMoved(w);
    NotInNewEvidence(w, h, c);
    OpenKeepsInv(w, h);
    OverwrittenWhileSplit(h, c);
    var v :| LeadsOpen(h, v) && v.prior == h.prior && !Held(v);
    OpenOn(w, h, v);
    RollbackStays(h, v);
  }

  lemma LeadsKeepsInv(v: World, w: World)
    requires Leads(v, w)
    ensures Inv(w)
  {
    var log :| Run(log) && log[0] == v && log[|log| - 1] == w;
    InvThroughout(log, |log| - 1);
  }

  lemma OpenKeepsInv(v: World, w: World)
    requires LeadsOpen(v, w)
    ensures Inv(w) && w.tx.Some?
  {
    var log :| Run(log) && Open(log, 0, |log| - 1) && log[0] == v && log[|log| - 1] == w;
    InvThroughout(log, |log| - 1);
  }

  lemma RollbackStays(v: World, w: World)
    requires RollingBack(v) && LeadsOpen(v, w)
    ensures RollingBack(w) && w.tx.value.backedUp == v.tx.value.backedUp
    ensures (v.frozen ==> w.frozen && w.prior == v.prior)
  {
    var log :| Run(log) && Open(log, 0, |log| - 1) && log[0] == v && log[|log| - 1] == w;
    FollowsThroughout(log, 0, |log| - 1);
  }

  lemma NotInNewEvidence(w: World, v: World, c: Component)
    requires c in w.prior && v.prior == w.prior && c != Main && Main in w.live && !InEvidence(w, c)
    requires v.evidence == w.evidence + [map[Main := w.live[Main]]]
    ensures !InEvidence(v, c)
  {
    forall k | 0 <= k < |v.evidence| && c in v.evidence[k] ensures v.evidence[k][c] != v.prior[c] {
      assert v.evidence[k] == w.evidence[k];
    }
  }

  // ------------------------------------------------------------------ any database of a running daemon

  /** A tag that no file in evidence carries. */
  lemma {:induction false} FreshTag(evidence: seq<Database>) returns (n: nat)
    ensures forall k, t: nat :: 0 <= k < |evidence| && Wal in evidence[k] && evidence[k][Wal] == Original(t) ==> t < n
  {
    n := 0;
    if evidence != [] {
      var init, last := evidence[..|evidence| - 1], evidence[|evidence| - 1];
      n := FreshTag(init);
      if Wal in last && last[Wal].Original? && n <= last[Wal].tag { n := last[Wal].tag + 1; }
      forall k, t: nat | 0 <= k < |evidence| && Wal in evidence[k] && evidence[k][Wal] == Original(t) ensures t < n {
        if k < |init| { assert evidence[k] == init[k]; }
      }
    }
  }

  /** The prior daemon writes its database, sidecar included. */
  lemma ReachSidecar(w: World) returns (u: World)
    requires JustOpened(w) && w.plist.Some?
    ensures LeadsOpen(w, u) && JustOpened(u) && u.plist.Some? && Main in u.prior && Wal in u.prior
    ensures !InEvidence(u, Wal)
  {
    StaysOpen(w);
    ReachRestarted(w, w);
    var loaded := Restarted(w);
    var n := FreshTag(w.evidence);
    var db: Database := map[Main := Original(0), Wal := Original(n)];
    u := loaded.(live := db, prior := db);
    assert Allowed(loaded, DaemonWrites(db)) && After(loaded, DaemonWrites(db)) == u;
    ThenOpen(w, loaded, DaemonWrites(db));
    OpenKeepsInv(w, u);
    assert !InEvidence(u, Wal);
  }

  /** Wherever a daemon can be loaded, some run of the transaction loses its database:
      the daemon writes a sidecar, and the rest is as above. */
  lemma ALoadableDaemonCanLose(w: World)
    requires JustOpened(w) && w.plist.Some?
    ensures exists v :: LeadsOpen(w, v) && Undecided(v) && Main in v.prior && !Held(v)
  {
    var u := ReachSidecar(w);
    SidecarCanBeLost(u, Wal);
    var v :| LeadsOpen(u, v) && Undecided(v) && v.prior == u.prior && !Held(v);
    OpenOn(w, u, v);
  }

  // ------------------------------------------------------------------ stranded in evidence

  /** Everything is moved into the last evidence directory. */
  function Emptied(w: World): World
    requires w.evidence != []
  {
    var last := |w.evidence| - 1;
    w.(live := map[], evidence := w.evidence[last := w.evidence[last] + w.live], frozen := w.frozen || w.live != map[])
  }

  lemma {:induction false} ReachEmptied(u: World, w: World)
    requires LeadsOpen(u, w) && MayRestore(w) && w.evidence != [] && w.live.Keys !! w.evidence[|w.evidence| - 1].Keys
    ensures LeadsOpen(u, Emptied(w))
    decreases w.live.Keys
  {
    var last := |w.evidence| - 1;
    if w.live == map[] {
      assert w.evidence[last] + w.live == w.evidence[last];
      assert Emptied(w) == w;
    } else {
      var c :| c in w.live;
      assert c in w.live.Keys;
      ThenOpen(u, w, MoveAside(c));
      var v := After(w, MoveAside(c));
      assert v.live.Keys == w.live.Keys - {c};
      assert w.evidence[last][c := w.live[c]] + (w.live - {c}) == w.evidence[last] + w.live;
      assert Emptied(v) == Emptied(w);
      ReachEmptied(u, v);
    }
  }

  /** A rollback begun before the backup and cut once after its intent completes
      without giving the database back: all its files are left in evidence. */
  lemma EarlyReentryStrands(w: World)
    requires JustOpened(w)
    ensures exists v :: Leads(w, v) && v.tx.None? && v.live == map[] && v.handed == Some(Handed(map[], w.prior))
                        && v.evidence == w.evidence + [w.prior]
  {
    ReachSecondPass(w);
    var s := SecondPass(w);
    ReachEmptied(w, s);
    var e := Emptied(s);
    var none: Database := map[];
    assert none + w.live == w.live && s.evidence[|w.evidence| := w.live] == w.evidence + [w.live];
    OpenIsRun(w, e);
    FinishRollback(w, e);
  }

  /** The rest of a rollback whose database is in place. */
  lemma FinishRollback(u: World, w: World)
    requires Leads(u, w) && MayReselect(w) && !AsksForPrior(w.tx.value, w.live)
    ensures exists v :: Leads(u, v) && v.tx.None? && v.live == w.live && v.evidence == w.evidence
                        && v.handed == Some(Handed(w.live, w.prior))
  {
    var tx := w.tx.value;
    var p := w.(plist := RestoredPlist(tx));
    assert Allowed(w, WritePlist(p.plist)) && After(w, WritePlist(p.plist)) == p;
    Then(u, w, WritePlist(p.plist));
    var q := p.(manifest := RestoredManifest(tx));
    assert Allowed(p, WriteManifest(q.manifest)) && After(p, WriteManifest(q.manifest)) == q;
    Then(u, p, WriteManifest(q.manifest));
    RemoveRecord(u, q);
  }

  lemma RemoveRecord(u: World, w: World)
    requires Leads(u, w) && MayReselect(w) && !AsksForPrior(w.tx.value, w.live)
    requires w.plist == RestoredPlist(w.tx.value) && w.manifest == RestoredManifest(w.tx.value)
    ensures exists v :: Leads(u, v) && v.tx.None? && v.live == w.live && v.evidence == w.evidence
                        && v.handed == Some(Handed(w.live, w.prior))
  {
    var end := w;
    if w.tx.value.priorLoaded {
      var free := w.(locked := false, started := None, handed := Some(Handed(w.live, w.prior)));
      assert After(w, Unlock) == free;
      Then(u, w, Unlock);
      LeadsKeepsInv(u, w);
      end := free.(running := w.plist, started := w.plist, armed := false);
      assert Allowed(free, Load) && After(free, Load) == end;
      Then(u, free, Load);
    }
    assert Allowed(end, DropTx);
    Then(u, end, DropTx);
    assert After(end, DropTx) == end.(tx := None, handed := Some(Handed(w.live, w.prior)));
  }

  // ------------------------------------------------------------------ sidecars without a main file

  /** The candidate's files are published and the prior generation is drained. */
  function Drained(w: World): World
    requires w.tx.Some?
  {
    Offline(Made(w)).(tx := Some(w.tx.value.(phase := PriorDrained)))
  }

  /** The candidate's files are published. */
  function Made(w: World): World
    requires w.tx.Some?
  {
    Cut(w).(tx := Some(w.tx.value.(phase := CandidateDurable)),
            newest := if w.tx.value.candidate <= w.newest then w.newest else w.newest + 1)
  }

  lemma ReachMade(w: World)
    requires JustOpened(w)
    ensures LeadsOpen(w, Made(w))
  {
    var tx := w.tx.value;
    var cut := Cut(w);
    ReachCut(w);
    var made := cut.(newest := Made(w).newest);
    if tx.candidate > w.newest {
      assert Allowed(cut, CreateGeneration) && After(cut, CreateGeneration) == made;
      ThenOpen(w, cut, CreateGeneration);
    }
    assert Allowed(made, Persist(Made(w).tx.value)) && After(made, Persist(Made(w).tx.value)) == Made(w);
    ThenOpen(w, made, Persist(Made(w).tx.value));
  }

  lemma ReachDrained(w: World)
    requires JustOpened(w)
    ensures LeadsOpen(w, Drained(w))
  {
    ReachMade(w);
    ReachOffline(w, Made(w));
    var held := Offline(Made(w));
    assert Allowed(held, Persist(Drained(w).tx.value)) && After(held, Persist(Drained(w).tx.value)) == Drained(w);
    ThenOpen(w, held, Persist(Drained(w).tx.value));
  }

  /** The candidate is selected, nothing having been backed up. */
  function Selected(w: World): World
    requires w.tx.Some?
  {
    var tx := w.tx.value;
    Drained(w).(tx := Some(tx.(phase := CandidateSelected)), frozen := true,
                plist := Some(Managed(tx.candidate)), manifest := Some(Manifest(tx.candidate, ReportOnly)))
  }

  function Backed(w: World): World
    requires w.tx.Some?
  {
    Drained(w).(tx := Some(w.tx.value.(phase := DatabaseBackedUp)), frozen := true)
  }

  lemma ReachBacked(w: World)
    requires JustOpened(w) && Main !in w.live
    ensures LeadsOpen(w, Backed(w))
  {
    ReachDrained(w);
    var d, next := Drained(w), Backed(w).tx.value;
    assert Allowed(d, Persist(next)) && After(d, Persist(next)) == Backed(w);
    ThenOpen(w, d, Persist(next));
  }

  lemma ReachSelected(w: World)
    requires JustOpened(w) && Main !in w.live
    ensures LeadsOpen(w, Selected(w))
  {
    ReachBacked(w);
    var tx, backed := w.tx.value, Backed(w);
    var p := backed.(plist := Some(Managed(tx.candidate)));
    assert Allowed(backed, WritePlist(p.plist)) && After(backed, WritePlist(p.plist)) == p;
    ThenOpen(w, backed, WritePlist(p.plist));
    var q := p.(manifest := Some(Manifest(tx.candidate, ReportOnly)));
    assert Allowed(p, WriteManifest(q.manifest)) && After(p, WriteManifest(q.manifest)) == q;
    ThenOpen(w, p, WriteManifest(q.manifest));
    assert Allowed(q, Persist(Selected(w).tx.value)) && After(q, Persist(Selected(w).tx.value)) == Selected(w);
    ThenOpen(w, q, Persist(Selected(w).tx.value));
  }

  /** Sidecars without a main file are not backed up, so that the candidate may
      overwrite them. */
  lemma OrphansCanBeLost(w: World, c: Component)
    requires JustOpened(w) && Main !in w.prior && c in w.prior && !InEvidence(w, c)
    ensures exists v :: LeadsOpen(w, v) && Undecided(v) && v.prior == w.prior && !Held(v)
  {
    ReachSelected(w);
    var s := Selected(w);
    ReachRestarted(w, s);
    ReachOverwritten(w, Restarted(s));
    var v := Restarted(s).(live := map[]);
    assert !InEvidence(v, c);
  }
}
