/** The durable state of the service, and the single durable writes that may change it. */
module InstallTypes {
  import opened Wrappers

  datatype Mode = ReportOnly | Enforce

  datatype Manifest = Manifest(generation: nat, desired: Mode)

  /** A LaunchAgent selects a managed generation, or is a legacy one with a fixed mode. */
  datatype Plist = Managed(generation: nat) | Legacy(mode: Mode)

  /** The files of one SQLite database. */
  datatype Component = Main | Wal | Shm | Journal

  /** What one file holds. The lifecycle row that asks for enforcement lives in the
      database: `Updated` is a file after that row was written. */
  datatype Content =
    | Original(tag: nat)
    | Updated(base: Content, request: Option<nat>)
    | SnapshotOf(db: map<Component, Content>)
    | Partial

  type Database = map<Component, Content>

  /** The generation for which the file asks enforcement, if any. */
  function RequestIn(c: Content): Option<nat> {
    match c
    case Original(_) => None
    case Updated(_, request) => request
    case SnapshotOf(db) => if Main in db then RequestIn(db[Main]) else None
    case Partial => None
  }

  /** The generation for which the database asks enforcement, if any. It survives a
      restart of the daemon, which then arms itself after its first scan. */
  function Request(db: Database): Option<nat> {
    if Main in db then RequestIn(db[Main]) else None
  }

  /** The database after its lifecycle row was written. */
  function WithRequest(db: Database, request: Option<nat>): Database {
    if Main in db then db[Main := Updated(db[Main], request)] else db
  }

  datatype Phase =
    | Prepared | CandidateDurable | PriorDrained | DatabaseBackedUp | CandidateSelected
    | CandidateReady | AcceptanceInProgress | RollbackInProgress | Accepted

  datatype Tx = Tx(
    phase: Phase,
    candidate: nat,
    priorManifest: Option<Manifest>,
    priorPlist: Option<Plist>,
    priorLoaded: bool,
    backedUp: bool,
    restore: bool)

  /** The database a rollback gave back, beside the prior database at that moment. */
  datatype Handed = Handed(db: Database, prior: Database)

  /** What is on disk; which daemon runs, whether it is armed, and whether the CLI
      holds the daemon lock; and four variables of the specification: what launchd has
      started since the lock was last dropped and the record last written, the prior
      generation's database, whether it is final, and what was given back. */
  datatype World = World(
    tx: Option<Tx>,
    plist: Option<Plist>,
    manifest: Option<Manifest>,
    newest: nat,
    live: Database,
    backup: Option<Content>,
    pending: Option<Content>,
    evidence: seq<Database>,
    running: Option<Plist>,
    armed: bool,
    locked: bool,
    started: Option<Plist>,
    prior: Database,
    frozen: bool,
    handed: Option<Handed>)

  // ------------------------------------------------------------------ transaction rules

  /** The candidate may have touched the history database. */
  predicate MayHaveChanged(p: Phase) {
    p in {DatabaseBackedUp, CandidateSelected, CandidateReady, AcceptanceInProgress, RollbackInProgress}
  }

  datatype Disposition = RollbackPrior | HoldForExplicitDecision | FinalizeAccepted

  function RecoveryDisposition(p: Phase): Disposition {
    match p
    case CandidateReady => HoldForExplicitDecision
    case Accepted => FinalizeAccepted
    case _ => RollbackPrior
  }

  predicate Early(p: Phase) { p in {Prepared, CandidateDurable, PriorDrained} }

  function ReportOnlyForm(p: Plist): Plist {
    if p.Legacy? then Legacy(ReportOnly) else p
  }

  function RollbackFloor(m: Manifest): Manifest { m.(desired := ReportOnly) }

  function RestoredPlist(tx: Tx): Option<Plist> {
    if tx.priorPlist.None? then None else Some(ReportOnlyForm(tx.priorPlist.value))
  }

  function RestoredManifest(tx: Tx): Option<Manifest> {
    if tx.priorPlist.None? || tx.priorManifest.None? then None else Some(RollbackFloor(tx.priorManifest.value))
  }

  /** The recorded selection can be restored: a managed one selects the generation
      of its manifest, a legacy one has none, and without either nothing ran. */
  predicate Restorable(tx: Tx) {
    match tx.priorPlist
    case None => tx.priorManifest.None? && !tx.priorLoaded
    case Some(p) => if tx.priorManifest.Some? then p == Managed(tx.priorManifest.value.generation) else p.Legacy?
  }

  /** What the rollback of `tx` puts in place of the live database. */
  predicate DatabaseRestored(tx: Tx, db: Database, backup: Option<Content>) {
    tx.restore ==> if tx.backedUp then backup.Some? && db == map[Main := backup.value] else db == map[]
  }

  function Marked(tx: Tx): Tx {
    tx.(phase := RollbackInProgress, restore := tx.restore || MayHaveChanged(tx.phase))
  }

  predicate Consistent(tx: Tx, backup: Option<Content>) { tx.backedUp <==> backup.Some? }

  predicate SelectsCandidate(w: World, tx: Tx) {
    w.plist == Some(Managed(tx.candidate)) && w.manifest == Some(Manifest(tx.candidate, ReportOnly))
  }

  function Opening(w: World, loaded: bool): Tx {
    Tx(Prepared, w.newest + 1, w.manifest, w.plist, loaded, false, false)
  }

  /** The phase an undisturbed installation and acceptance reach next. */
  function NextPhase(p: Phase): Option<Phase> {
    match p
    case Prepared => Some(CandidateDurable)
    case CandidateDurable => Some(PriorDrained)
    case PriorDrained => Some(DatabaseBackedUp)
    case DatabaseBackedUp => Some(CandidateSelected)
    case CandidateSelected => Some(CandidateReady)
    case CandidateReady => Some(AcceptanceInProgress)
    case AcceptanceInProgress => Some(Accepted)
    case _ => None
  }

  function Advanced(w: World, tx: Tx): Tx
    requires NextPhase(tx.phase).Some?
  {
    tx.(phase := NextPhase(tx.phase).value,
      backedUp := if tx.phase == PriorDrained then Main in w.live else tx.backedUp)
  }

  /** What must be on disk before the record moves to its next phase. */
  predicate MayAdvance(w: World, tx: Tx) {
    match tx.phase
    case Prepared => tx.candidate <= w.newest
    case CandidateDurable => w.locked
    case PriorDrained => w.locked && w.backup == if Main in w.live then Some(SnapshotOf(w.live)) else None
    case DatabaseBackedUp => SelectsCandidate(w, tx)
    case CandidateSelected => !w.locked && w.started == Some(Managed(tx.candidate))
    case CandidateReady => SelectsCandidate(w, tx)
    case AcceptanceInProgress => SelectsCandidate(w, tx)
    case _ => false
  }

  /** The transaction record may be written as `next`: opened, marked for rollback
      while its backup is as it says, or moved to its next phase. */
  predicate MayPersist(w: World, next: Tx) {
    match w.tx
    case None =>
      next == Opening(w, next.priorLoaded) && Restorable(next) && w.backup.None? && w.pending.None?
    case Some(tx) =>
      || (tx.phase != Accepted && next == Marked(tx) && Consistent(tx, w.backup) && Restorable(tx))
      || (MayAdvance(w, tx) && next == Advanced(w, tx))
  }

  /** A rollback under way may rewrite the selection: the database is in place. */
  predicate MayReselect(w: World) {
    w.tx.Some? && w.tx.value.phase == RollbackInProgress && w.locked && DatabaseRestored(w.tx.value, w.live, w.backup)
  }

  predicate MaySelect(w: World) {
    w.tx.Some? && w.tx.value.phase == DatabaseBackedUp && w.locked
  }

  predicate MaySnapshot(w: World) {
    w.tx.Some? && w.tx.value.phase == PriorDrained && w.locked && Main in w.live
  }

  predicate MayRestore(w: World) {
    && w.tx.Some? && w.tx.value.phase == RollbackInProgress && w.tx.value.restore && w.locked
    && Consistent(w.tx.value, w.backup)
  }

  predicate HandedBack(w: World)
    requires w.tx.Some?
  {
    if w.locked then DatabaseRestored(w.tx.value, w.live, w.backup)
    else w.handed.Some? && DatabaseRestored(w.tx.value, w.handed.value.db, w.backup)
  }

  /** A daemon may write what it likes, but asks for enforcement only as it found it,
      and a managed one only for its own generation: another generation's request is
      dropped at boot. Disarming, draining and failing drop it too. */
  predicate MayWrite(w: World, db: Database) {
    && w.running.Some? && !w.locked
    && (|| Request(db).None?
        || (Request(db) == Request(w.live)
              && (w.running.value.Legacy? || Request(db) == Some(w.running.value.generation))))
  }

  /** The database asks enforcement for the generation that `tx` would go back to. */
  predicate AsksForPrior(tx: Tx, db: Database) {
    tx.priorManifest.Some? && Request(db) == Some(tx.priorManifest.value.generation)
  }

  /** A prior generation that was loaded has been started again and seen report-only; one
      that was not is still offline. */
  predicate Confirmed(w: World, tx: Tx) {
    if tx.priorLoaded then !w.locked && w.started == RestoredPlist(tx) && !AsksForPrior(tx, w.live) else w.locked
  }

  // ------------------------------------------------------------------ moves

  /** One durable write, or one event outside the CLI. */
  datatype Move =
    | Persist(next: Tx) | DropTx
    | WritePlist(plist: Option<Plist>) | WriteManifest(manifest: Option<Manifest>) | CreateGeneration
    | Snapshot(complete: bool) | Publish | DropPending | DropBackup
    | NewEvidence | MoveAside(component: Component) | CopyBack(complete: bool)
    | Lock | Unlock | Crash
    | OfflineClear
    | Load | Stop | DaemonWrites(db: Database) | Rearm | Arm

  /** What the disk alone must say before each move, wherever the CLI was cut. */
  predicate Allowed(w: World, m: Move) {
    match m
    case Persist(next) => MayPersist(w, next)
    case DropTx =>
      && w.tx.Some?
      && var tx := w.tx.value;
      || (tx.phase == Accepted && w.backup.None? && w.pending.None?)
      || (tx.phase == RollbackInProgress && w.plist == RestoredPlist(tx) && w.manifest == RestoredManifest(tx)
          && HandedBack(w) && Confirmed(w, tx))
    case WritePlist(p) =>
      || (MaySelect(w) && p == Some(Managed(w.tx.value.candidate)))
      || (MayReselect(w) && p == RestoredPlist(w.tx.value))
    case WriteManifest(m) =>
      || (MaySelect(w) && w.plist == Some(Managed(w.tx.value.candidate))
            && m == Some(Manifest(w.tx.value.candidate, ReportOnly)))
      || (MayReselect(w) && w.plist == RestoredPlist(w.tx.value) && m == RestoredManifest(w.tx.value))
      || (w.tx.None? && w.manifest.Some? && m.Some? && m.value.generation == w.manifest.value.generation
          && (m.value.desired == ReportOnly ==> Request(w.live) != Some(m.value.generation)))
    case CreateGeneration => w.tx.Some? && w.tx.value.phase == Prepared && w.tx.value.candidate == w.newest + 1
    case Snapshot(_) => MaySnapshot(w) && w.backup.None?
    case Publish => MaySnapshot(w) && w.pending == Some(SnapshotOf(w.live))
    case DropPending => true
    case DropBackup =>
      || w.tx.None? || w.tx.value.phase == Accepted
      || (w.tx.value.phase == PriorDrained && w.locked)
      || (w.tx.value.phase == RollbackInProgress && !w.tx.value.restore)
    case NewEvidence => MayRestore(w)
    case MoveAside(c) => MayRestore(w) && c in w.live && w.evidence != [] && c !in w.evidence[|w.evidence| - 1]
    case CopyBack(complete) =>
      MayRestore(w) && w.tx.value.backedUp && w.live == if complete then map[Main := Partial] else map[]
    case Lock => w.running.None? && !w.locked
    case Unlock => w.locked
    case Crash => true
    case Load => !w.locked && w.plist.Some? && w.running.None?
    case Stop => true
    case OfflineClear => w.locked && w.tx.None?
    case DaemonWrites(db) => MayWrite(w, db)
    case Rearm => w.running.Some? && w.running.value.Managed? && !w.locked
        && Request(w.live) == Some(w.running.value.generation)
    case Arm =>
      && w.tx.None? && w.running.Some? && w.running.value.Managed? && !w.locked && Main in w.live
      && w.manifest == Some(Manifest(w.running.value.generation, Enforce))
  }

  function After(w: World, m: Move): World
    requires Allowed(w, m)
  {
    match m
    case Persist(next) =>
      var v := w.(tx := Some(next), started := None);
      if w.tx.None? then v.(prior := w.live, frozen := false, handed := None)
      else if next.phase == DatabaseBackedUp then v.(frozen := true)
      else if next.phase == RollbackInProgress then v.(handed := None)
      else v
    case DropTx => w.(tx := None, handed := if w.locked then Some(Handed(w.live, w.prior)) else w.handed)
    case WritePlist(p) => w.(plist := p)
    case WriteManifest(m) => w.(manifest := m)
    case CreateGeneration => w.(newest := w.newest + 1)
    case Snapshot(complete) => w.(pending := Some(if complete then SnapshotOf(w.live) else Partial))
    case Publish => w.(backup := w.pending, pending := None)
    case DropPending => w.(pending := None)
    case DropBackup => w.(backup := None)
    case NewEvidence => w.(evidence := w.evidence + [map[]])
    case MoveAside(c) =>
      var last := |w.evidence| - 1;
      w.(live := w.live - {c}, evidence := w.evidence[last := w.evidence[last][c := w.live[c]]], frozen := true)
    case CopyBack(complete) => w.(live := map[Main := if complete then w.backup.value else Partial])
    case Lock => w.(locked := true)
    case Unlock => w.(locked := false, started := None,
        handed := if RollingBack(w) then Some(Handed(w.live, w.prior)) else w.handed)
    case Crash => w.(locked := false, started := None, handed := None)
    case Load => w.(running := w.plist, started := w.plist, armed := false)
    case Stop => w.(running := None, armed := false)
    case OfflineClear => w.(live := WithRequest(w.live, None))
    case DaemonWrites(db) => w.(live := db, prior := if w.frozen then w.prior else db,
        armed := w.armed && Request(db).Some?)
    case Rearm => w.(armed := true)
    case Arm => w.(armed := true, live := WithRequest(w.live, Some(w.running.value.generation)))
  }

  predicate RollingBack(w: World) { w.tx.Some? && w.tx.value.phase == RollbackInProgress }

  /** Moves made by launchd and by daemons, not by the CLI. */
  predicate Outside(m: Move) { m.Load? || m.Stop? || m.DaemonWrites? || m.Rearm? }

  // ------------------------------------------------------------------ enforcement

  /** The selected generation would arm itself, or has, without a durable intent. */
  predicate Exposed(w: World) {
    && w.plist.Some? && w.plist.value.Managed?
    && Request(w.live) == Some(w.plist.value.generation)
    && w.manifest != Some(Manifest(w.plist.value.generation, Enforce))
  }

  /** The runtime enforces although no durable intent for its generation asks for it. */
  predicate Unwarranted(w: World) {
    w.armed && !(w.running.Some? && w.running.value.Managed?
      && w.manifest == Some(Manifest(w.running.value.generation, Enforce)))
  }

  /** A rollback's write over a database that still asks for the prior generation. */
  predicate Leak(w: World, m: Move)
    requires Allowed(w, m)
  {
    RollingBack(w) && (m.WritePlist? || m.WriteManifest? || m.CopyBack?) && AsksForPrior(w.tx.value, After(w, m).live)
  }
}
