/** What the list of journalled signals of one run must look like. */
module CleanupEscalation {
  import opened CleanupTypes

  /** The position of `pid` among the frozen targets, or their number. */
  function IndexOf(targets: seq<Target>, pid: nat): (i: nat)
    ensures i <= |targets|
    ensures i < |targets| ==> targets[i].identity.pid == pid
    ensures forall j :: 0 <= j < i ==> targets[j].identity.pid != pid
  {
    if targets == [] then 0
    else if targets[0].identity.pid == pid then 0
    else 1 + IndexOf(targets[1..], pid)
  }

  predicate TermSettled(acts: seq<Action>, pid: nat) {
    exists i :: 0 <= i < |acts| && acts[i].intent.signal == Term && acts[i].intent.pid == pid
      && Settled(acts[i].disposition)
  }

  /** Stages in escalation order, and plan order inside one stage. */
  predicate Before(plan: Plan, a: Action, b: Action) {
    || StageRank(a.intent.stage) < StageRank(b.intent.stage)
    || (a.intent.stage == b.intent.stage && IndexOf(plan.targets, a.intent.pid) < IndexOf(plan.targets, b.intent.pid))
  }

  ghost predicate WellAddressed(plan: Plan, fp: Identity -> string, a: Action) {
    var i := IndexOf(plan.targets, a.intent.pid);
    && i < |plan.targets|
    && a.intent.fingerprint == fp(plan.targets[i].identity)
    && (a.intent.signal == Kill <==> a.intent.stage == ExactKill)
    && (a.intent.stage == PrimaryTerm ==> IsPrimary(plan, a.intent.pid))
  }

  ghost predicate OneTermEach(acts: seq<Action>) {
    forall i, j :: 0 <= i < j < |acts| && acts[i].intent.signal == Term && acts[j].intent.signal == Term
      ==> acts[i].intent.pid != acts[j].intent.pid
  }

  ghost predicate KillsFollowTerms(acts: seq<Action>) {
    forall j :: 0 <= j < |acts| && acts[j].intent.signal == Kill ==> TermSettled(acts[..j], acts[j].intent.pid)
  }

  ghost predicate Disciplined(plan: Plan, fp: Identity -> string, acts: seq<Action>) {
    && (forall i :: 0 <= i < |acts| ==> WellAddressed(plan, fp, acts[i]))
    && (forall i, j :: 0 <= i < j < |acts| ==> Before(plan, acts[i], acts[j]))
    && OneTermEach(acts)
    && KillsFollowTerms(acts)
  }

  /** A primary target is terminated in the first stage, and can only come to the second
      one after it was once proved not running. */
  ghost predicate PrimariesFirst(plan: Plan, acts: seq<Action>, reappeared: bool) {
    forall i :: 0 <= i < |acts| && acts[i].intent.stage == MemberTerm && IsPrimary(plan, acts[i].intent.pid) ==>
      reappeared
  }

  /** The loop state of the escalation: everything journalled so far lies before
      position `next` of stage `stage`, and `termed` is exactly what was terminated. */
  ghost predicate Progress(plan: Plan, fp: Identity -> string, acts: seq<Action>, termed: set<nat>, stage: Stage,
                           next: nat) {
    && Disciplined(plan, fp, acts)
    && (forall i :: 0 <= i < |acts| && acts[i].intent.signal == Term ==> acts[i].intent.pid in termed)
    && (forall pid :: pid in termed ==> TermSettled(acts, pid))
    && (forall i :: 0 <= i < |acts| ==>
          || StageRank(acts[i].intent.stage) < StageRank(stage)
          || (acts[i].intent.stage == stage && IndexOf(plan.targets, acts[i].intent.pid) < next))
  }

  ghost predicate MayAppend(plan: Plan, fp: Identity -> string, termed: set<nat>, stage: Stage, next: nat, a: Action) {
    && next < |plan.targets|
    && a.intent == Intent(stage, plan.targets[next].identity.pid, fp(plan.targets[next].identity), if stage == ExactKill
        then Kill else Term)
    && (stage == ExactKill <==> a.intent.pid in termed)
    && (stage == PrimaryTerm ==> IsPrimary(plan, a.intent.pid))
  }

  lemma IndexOfDistinct(plan: Plan, i: nat)
    requires DistinctPids(plan) && i < |plan.targets|
    ensures IndexOf(plan.targets, plan.targets[i].identity.pid) == i
  {
  }

  lemma SettledStays(acts: seq<Action>, a: Action, pid: nat)
    requires TermSettled(acts, pid)
    ensures TermSettled(acts + [a], pid)
  {
    var i :| 0 <= i < |acts| && acts[i].intent.signal == Term && acts[i].intent.pid == pid
        && Settled(acts[i].disposition);
    assert (acts + [a])[i] == acts[i];
  }

  /** One more journalled signal keeps the discipline, whatever its disposition. */
  lemma AppendDisciplined(plan: Plan, fp: Identity -> string, acts: seq<Action>, termed: set<nat>, stage: Stage,
                          next: nat, a: Action)
    requires DistinctPids(plan) && Progress(plan, fp, acts, termed, stage, next)
    requires MayAppend(plan, fp, termed, stage, next, a)
    ensures Disciplined(plan, fp, acts + [a])
  {
    var more := acts + [a];
    IndexOfDistinct(plan, next);
    assert WellAddressed(plan, fp, a);
    forall j | 0 <= j < |more| && more[j].intent.signal == Kill
      ensures TermSettled(more[..j], more[j].intent.pid)
    {
      assert more[..j] == acts[..j];
      if j == |acts| { assert acts[..j] == acts; }
    }
  }

  /** A settled signal also advances the loop. */
  lemma AppendProgress(plan: Plan, fp: Identity -> string, acts: seq<Action>, termed: set<nat>, stage: Stage,
                       next: nat, a: Action)
    requires DistinctPids(plan) && Progress(plan, fp, acts, termed, stage, next)
    requires MayAppend(plan, fp, termed, stage, next, a) && Settled(a.disposition)
    ensures Progress(plan, fp, acts + [a], termed + {a.intent.pid}, stage, next + 1)
  {
    AppendDisciplined(plan, fp, acts, termed, stage, next, a);
    IndexOfDistinct(plan, next);
    var more := acts + [a];
    forall pid | pid in termed + {a.intent.pid} ensures TermSettled(more, pid) {
      if pid in termed { SettledStays(acts, a, pid); } else { assert more[|acts|] == a; }
    }
  }
}
