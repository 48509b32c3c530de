/** Freezing a confirmed incident into a cleanup plan. */
module CleanupPlan {
  import opened Wrappers
  import opened CleanupTypes

  datatype Report = Report(
    confirmed: bool,
    eligible: bool,
    session: string,
    rootPid: nat,
    targets: seq<Target>,
    artifacts: seq<Candidate>)

  datatype PlanError =
    | NotConfirmed | NoTargets | MissingSession
    | DuplicateTarget(pid: nat) | IncompleteIdentity(pid: nat)
    | TooManyArtifacts | ArtifactSessionMismatch | RootMissing | NoPrimaryTarget

  /** Unicode White_Space, which string trimming removes. */
  predicate IsSpace(c: char) {
    || '\U{9}' <= c <= '\U{D}' || c == ' ' || c == '\U{85}' || c == '\U{A0}' || c == '\U{1680}'
    || '\U{2000}' <= c <= '\U{200A}' || c == '\U{2028}' || c == '\U{2029}' || c == '\U{202F}' || c == '\U{205F}'
        || c == '\U{3000}'
  }

  /** Code by code. */
  lemma SpaceCodes(c: char)
    ensures IsSpace(c) <==> c as int in {9, 10, 11, 12, 13, 32, 133, 160, 5760, 8192, 8193, 8194, 8195, 8196, 8197,
      8198, 8199, 8200, 8201, 8202, 8232, 8233, 8239, 8287, 12288}
  {
  }

  predicate Blank(s: string) {
    forall i :: 0 <= i < |s| ==> IsSpace(s[i])
  }

  predicate Complete(t: Target) { t.identity.device.Some? && t.identity.inode.Some? }

  /** The first `n` targets have complete identities and pairwise different PIDs. */
  ghost predicate Sound(targets: seq<Target>, n: nat)
    requires n <= |targets|
  {
    && (forall i :: 0 <= i < n ==> Complete(targets[i]))
    && (forall i, j :: 0 <= i < j < n ==> targets[i].identity.pid != targets[j].identity.pid)
  }

  /** The report is confirmed and names targets and a session. */
  ghost predicate Presentable(r: Report) { r.confirmed && r.eligible && r.targets != [] && !Blank(r.session) }

  /** And its targets are complete and distinct. */
  ghost predicate WellTargeted(r: Report) { Presentable(r) && Sound(r.targets, |r.targets|) }

  ghost predicate OneSession(r: Report) { forall c :: c in r.artifacts ==> c.session == r.session }

  ghost predicate NamesRoot(r: Report) { exists t :: t in r.targets && t.identity.pid == r.rootPid }

  ghost predicate NamesPrimary(r: Report) {
    exists t :: t in r.targets && (t.role == Controller || t.role == BrowserRoot)
  }

  ghost predicate Admissible(r: Report) {
    WellTargeted(r) && |r.artifacts| <= 1 && OneSession(r) && NamesRoot(r) && NamesPrimary(r)
  }

  /** Nothing is frozen unless the report is admissible; what is frozen is the
      report's own target list, in its order. A refused report is told its first
      fault, and a refused list its first offending target. */
  method FromConfirmed(r: Report) returns (result: Result<Plan, PlanError>)
    ensures result.Ok? <==> Admissible(r)
    ensures result.Ok? ==>
      && result.value == Plan(r.targets, r.artifacts)
      && DistinctPids(result.value)
      && (exists t :: t in r.targets && IsPrimary(result.value, t.identity.pid))
    ensures result == Err(NotConfirmed) <==> !r.confirmed || !r.eligible
    ensures result == Err(NoTargets) <==> r.confirmed && r.eligible && r.targets == []
    ensures result == Err(MissingSession) <==> r.confirmed && r.eligible && r.targets != [] && Blank(r.session)
    ensures result.Err? && (result.error.DuplicateTarget? || result.error.IncompleteIdentity?) <==>
      Presentable(r) && !WellTargeted(r)
    ensures result.Err? && result.error.DuplicateTarget? ==>
      exists i, j :: 0 <= i < j < |r.targets| && Sound(r.targets, j)
                     && r.targets[i].identity.pid == r.targets[j].identity.pid == result.error.pid
    ensures result.Err? && result.error.IncompleteIdentity? ==>
      exists j :: 0 <= j < |r.targets| && Sound(r.targets, j) && !Complete(r.targets[j])
                  && r.targets[j].identity.pid == result.error.pid
                  && forall i :: 0 <= i < j ==> r.targets[i].identity.pid != result.error.pid
    ensures result == Err(TooManyArtifacts) <==> WellTargeted(r) && |r.artifacts| > 1
    ensures result == Err(ArtifactSessionMismatch) <==> WellTargeted(r) && |r.artifacts| <= 1 && !OneSession(r)
    ensures result == Err(RootMissing) <==> WellTargeted(r) && |r.artifacts| <= 1 && OneSession(r) && !NamesRoot(r)
    ensures result == Err(NoPrimaryTarget) <==>
      WellTargeted(r) && |r.artifacts| <= 1 && OneSession(r) && NamesRoot(r) && !NamesPrimary(r)
  {
    if !r.confirmed || !r.eligible { return Err(NotConfirmed); }
    if r.targets == [] { return Err(NoTargets); }
    if Blank(r.session) { return Err(MissingSession); }
    var pids: set<nat> := {};
    for j := 0 to |r.targets|
      invariant Sound(r.targets, j)
      invariant pids == set i | 0 <= i < j :: r.targets[i].identity.pid
    {
      var pid := r.targets[j].identity.pid;
      if pid in pids { return Err(DuplicateTarget(pid)); }
      pids := pids + {pid};
      if !Complete(r.targets[j]) { return Err(IncompleteIdentity(pid)); }
    }
    if |r.artifacts| > 1 { return Err(TooManyArtifacts); }
    if exists c :: c in r.artifacts && c.session != r.session { return Err(ArtifactSessionMismatch); }
    if !exists t :: t in r.targets && t.identity.pid == r.rootPid { return Err(RootMissing); }
    if !exists t :: t in r.targets && (t.role == Controller || t.role == BrowserRoot) { return Err(NoPrimaryTarget); }
    var plan := Plan(r.targets, r.artifacts);
    ghost var t :| t in r.targets && t.role == (if HasController(plan) then Controller else BrowserRoot);
    assert IsPrimary(plan, t.identity.pid);
    return Ok(plan);
  }
}
