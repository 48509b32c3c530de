/** The process graph of one snapshot, whose parent links may form cycles. */
module Graph {
  import opened Wrappers
  import opened Sorting

  datatype Record = Record(pid: nat, parent: nat)

  datatype Graph = Graph(processes: map<nat, Record>, children: map<nat, seq<nat>>)

  datatype GraphError = DuplicatePid(pid: nat)

  predicate PidAtMost(a: nat, b: nat) { a <= b }

  predicate StrictlySorted(s: seq<nat>) {
    forall i, j :: 0 <= i < j < |s| ==> s[i] < s[j]
  }

  function ChildrenOf(g: Graph, pid: nat): seq<nat> {
    if pid in g.children then g.children[pid] else []
  }

  /** Records are filed under their own PID, and the child lists are the parent
      links read backwards. */
  ghost predicate WellFormed(g: Graph) {
    && (forall p :: p in g.processes ==> g.processes[p].pid == p)
    && (forall q :: q in g.children ==> StrictlySorted(g.children[q]))
    && (forall p, q :: p in ChildrenOf(g, q) <==> p in g.processes && g.processes[p].parent == q)
  }

  // ------------------------------------------------------------------ climbing

  /** The PID `n` parent links above `p`, while there are records to follow. */
  function Climb(g: Graph, p: nat, n: nat): Option<nat> {
    if n == 0 then Some(p)
    else var q := Climb(g, p, n - 1);
      if q.Some? && q.value in g.processes then Some(g.processes[q.value].parent) else None
  }

  /** Some chain of parent links leads from `p` to `r`. */
  ghost predicate Reaches(g: Graph, p: nat, r: nat) {
    exists n: nat :: Climb(g, p, n) == Some(r)
  }

  lemma {:induction false} ClimbFirst(g: Graph, p: nat, n: nat)
    requires p in g.processes
    ensures Climb(g, p, n + 1) == Climb(g, g.processes[p].parent, n)
  {
    if n > 0 { ClimbFirst(g, p, n - 1); }
  }

  lemma ChildReaches(g: Graph, p: nat, r: nat)
    requires p in g.processes && Reaches(g, g.processes[p].parent, r)
    ensures Reaches(g, p, r)
  {
    var n: nat :| Climb(g, g.processes[p].parent, n) == Some(r);
    ClimbFirst(g, p, n);
  }

  /** A set that holds `r` and every child of its members holds whatever reaches `r`. */
  lemma {:induction false} ClosedHoldsAll(g: Graph, seen: set<nat>, r: nat, p: nat, n: nat)
    requires WellFormed(g) && r in seen && Climb(g, p, n) == Some(r)
    requires forall q, c :: q in seen && c in ChildrenOf(g, q) ==> c in seen
    ensures p in seen
    decreases n
  {
    if n > 0 {
      if p !in g.processes {
        ClimbStuck(g, p, n);
      } else {
        ClimbFirst(g, p, n - 1);
        ClosedHoldsAll(g, seen, r, g.processes[p].parent, n - 1);
        assert p in ChildrenOf(g, g.processes[p].parent);
      }
    }
  }

  lemma {:induction false} ClimbStuck(g: Graph, p: nat, n: nat)
    requires p !in g.processes && n > 0
    ensures Climb(g, p, n).None?
  {
    if n > 1 { ClimbStuck(g, p, n - 1); }
  }

  lemma {:induction false} ClimbRepeats(g: Graph, p: nat, a: nat, b: nat, d: nat)
    requires Climb(g, p, a) == Climb(g, p, b)
    ensures Climb(g, p, a + d) == Climb(g, p, b + d)
  {
    if d > 0 { ClimbRepeats(g, p, a, b, d - 1); }
  }

  lemma {:induction false} ClimbEnds(g: Graph, p: nat, n: nat, m: nat)
    requires Climb(g, p, n).None? && n <= m
    ensures Climb(g, p, m).None?
    decreases m
  {
    if n < m { ClimbEnds(g, p, n, m - 1); }
  }

  /** `r` is `n` links above `p`, and no link in between leads to PID 0. */
  ghost predicate AboveBy(g: Graph, p: nat, r: nat, n: nat) {
    0 < n && Climb(g, p, n) == Some(r) && forall m :: 0 < m < n ==> Climb(g, p, m) != Some(0)
  }

  /** A proper ancestor, PID 0 being no ancestor and ending every line. */
  ghost predicate Above(g: Graph, p: nat, r: nat) {
    r != 0 && exists n :: AboveBy(g, p, r, n)
  }

  // ------------------------------------------------------------------ building

  /** Refuses exactly the snapshots that repeat a PID, naming the first repeat. */
  method FromSnapshot(records: seq<Record>) returns (r: Result<Graph, GraphError>)
    ensures r.Ok? <==> forall i, j :: 0 <= i < j < |records| ==> records[i].pid != records[j].pid
    ensures r.Ok? ==>
      && WellFormed(r.value)
      && (forall i :: 0 <= i < |records| ==>
            records[i].pid in r.value.processes && r.value.processes[records[i].pid] == records[i])
      && (forall p :: p in r.value.processes ==> r.value.processes[p] in records)
    ensures r.Err? ==>
      exists i, j :: 0 <= i < j < |records| && records[i].pid == records[j].pid == r.error.pid
                     && forall k, m :: 0 <= k < m < j ==> records[k].pid != records[m].pid
  {
    var processes: map<nat, Record> := map[];
    for i := 0 to |records|
      invariant forall k, m :: 0 <= k < m < i ==> records[k].pid != records[m].pid
      invariant forall k :: 0 <= k < i ==> records[k].pid in processes && processes[records[k].pid] == records[k]
      invariant forall p :: p in processes ==> exists k :: 0 <= k < i && records[k].pid == p
    {
      if records[i].pid in processes { return Err(DuplicatePid(records[i].pid)); }
      processes := processes[records[i].pid := records[i]];
    }
    var children := LinkChildren(processes);
    return Ok(Graph(processes, children));
  }

  method LinkChildren(processes: map<nat, Record>) returns (children: map<nat, seq<nat>>)
    requires forall p :: p in processes ==> processes[p].pid == p
    ensures WellFormed(Graph(processes, children))
  {
    var lists: map<nat, seq<nat>> := map[];
    var left := processes.Keys;
    while left != {}
      invariant left <= processes.Keys && Linked(processes, left, lists)
      decreases |left|
    {
      var pid :| pid in left;
      var parent := processes[pid].parent;
      var siblings := if parent in lists then lists[parent] else [];
      LinkOne(processes, left, lists, pid, siblings);
      lists := lists[parent := siblings + [pid]];
      left := left - {pid};
    }
    children := SortLists(lists);
    SortedLinks(processes, lists, children);
  }

  ghost predicate SortedForm(lists: map<nat, seq<nat>>, sorted: map<nat, seq<nat>>) {
    && sorted.Keys == lists.Keys
    && (forall q :: q in sorted ==> StrictlySorted(sorted[q]))
    && (forall p, q :: q in sorted ==> (p in sorted[q] <==> p in lists[q]))
  }

  lemma SortedLinks(processes: map<nat, Record>, lists: map<nat, seq<nat>>, children: map<nat, seq<nat>>)
    requires (forall p :: p in processes ==> processes[p].pid == p) && Linked(processes, {}, lists)
        && SortedForm(lists, children)
    ensures WellFormed(Graph(processes, children))
  {
  }

  /** The PIDs not yet left to file, under their parents. */
  ghost predicate Linked(processes: map<nat, Record>, left: set<nat>, lists: map<nat, seq<nat>>) {
    && (forall q :: q in lists ==> Distinct(lists[q]))
    && (forall p, q :: q in lists && p in lists[q] ==> p in processes && p !in left && processes[p].parent == q)
    && (forall p :: p in processes && p !in left ==> processes[p].parent in lists && p in lists[processes[p].parent])
  }

  lemma LinkOne(processes: map<nat, Record>, left: set<nat>, lists: map<nat, seq<nat>>, pid: nat, siblings: seq<nat>)
    requires Linked(processes, left, lists) && pid in left && pid in processes
    requires siblings == if processes[pid].parent in lists then lists[processes[pid].parent] else []
    ensures Linked(processes, left - {pid}, lists[processes[pid].parent := siblings + [pid]])
  {
  }

  ghost predicate Distinct(s: seq<nat>) {
    forall i, j :: 0 <= i < j < |s| ==> s[i] != s[j]
  }

  method SortLists(lists: map<nat, seq<nat>>) returns (sorted: map<nat, seq<nat>>)
    requires forall q :: q in lists ==> Distinct(lists[q])
    ensures SortedForm(lists, sorted)
  {
    sorted := map[];
    var left := lists.Keys;
    while left != {}
      invariant left <= lists.Keys && sorted.Keys == lists.Keys - left
      invariant forall q :: q in sorted ==> StrictlySorted(sorted[q])
      invariant forall p, q :: q in sorted ==> (p in sorted[q] <==> p in lists[q])
      decreases |left|
    {
      var q :| q in left;
      var s := SortPids(lists[q]);
      sorted := sorted[q := s];
      left := left - {q};
    }
  }

  method SortPids(pids: seq<nat>) returns (sorted: seq<nat>)
    requires Distinct(pids)
    ensures StrictlySorted(sorted) && forall p :: p in sorted <==> p in pids
  {
    sorted := SortBy(PidAtMost, pids);
    forall p ensures p in sorted <==> p in pids { assert p in sorted <==> p in multiset(sorted); }
    forall i, j | 0 <= i < j < |sorted| ensures sorted[i] < sorted[j] {
      assert PidAtMost(sorted[i], sorted[j]);
      if sorted[i] == sorted[j] { TwiceInMultiset(sorted, i, j); OnceInMultiset(pids, sorted[i]); }
    }
  }

  lemma TwiceInMultiset(s: seq<nat>, i: nat, j: nat)
    requires i < j < |s| && s[i] == s[j]
    ensures multiset(s)[s[i]] >= 2
  {
    assert s == s[..j] + s[j..];
    assert s[i] in s[..j] && s[j] in s[j..];
  }

  lemma {:induction false} OnceInMultiset(s: seq<nat>, x: nat)
    requires Distinct(s)
    ensures multiset(s)[x] <= 1
  {
    if s != [] {
      var init := s[..|s| - 1];
      OnceInMultiset(init, x);
      assert s == init + [s[|s| - 1]];
      assert x == s[|s| - 1] ==> x !in init;
    }
  }

  // ------------------------------------------------------------------ traversals

  /** On any graph, cyclic or not, exactly the recorded PIDs whose parent links
      lead to the root, in strictly increasing order. */
  method DescendantPids(g: Graph, root: nat) returns (result: seq<nat>)
    requires WellFormed(g)
    ensures StrictlySorted(result)
    ensures forall p :: p in result <==> p in g.processes && Reaches(g, p, root)
  {
    var found: seq<nat>, queue, seen: set<nat> := [], [root], {};
    ghost var universe := {root} + g.processes.Keys;
    assert Climb(g, root, 0) == Some(root);
    while queue != []
      invariant Frontier(g, root, seen, queue)
      invariant Distinct(found) && forall p :: p in found <==> p in seen && p in g.processes
      decreases universe - seen, |queue|
    {
      var pid := queue[0];
      if pid in seen {
        Skip(g, root, seen, queue);
        queue := queue[1..];
      } else {
        Visit(g, root, seen, queue);
        assert pid in universe - seen;
        seen := seen + {pid};
        if pid in g.processes { found := found + [pid]; }
        queue := queue[1..] + ChildrenOf(g, pid);
      }
    }
    AllSeen(g, root, seen);
    result := SortPids(found);
  }

  /** Everything met so far reaches the root, and the children of whatever has been
      visited have been met. */
  ghost predicate Frontier(g: Graph, root: nat, seen: set<nat>, queue: seq<nat>) {
    && (root in seen || root in queue)
    && (forall q :: q in seen || q in queue ==> (q == root || q in g.processes) && Reaches(g, q, root))
    && (forall q, c :: q in seen && c in ChildrenOf(g, q) ==> c in seen || c in queue)
  }

  lemma AllSeen(g: Graph, root: nat, seen: set<nat>)
    requires WellFormed(g) && Frontier(g, root, seen, [])
    ensures forall p :: p in g.processes ==> (p in seen <==> Reaches(g, p, root))
  {
    forall p | Reaches(g, p, root) ensures p in seen {
      var n: nat :| Climb(g, p, n) == Some(root);
      ClosedHoldsAll(g, seen, root, p, n);
    }
  }

  lemma Skip(g: Graph, root: nat, seen: set<nat>, queue: seq<nat>)
    requires queue != [] && queue[0] in seen && Frontier(g, root, seen, queue)
    ensures Frontier(g, root, seen, queue[1..])
  {
  }

  lemma Visit(g: Graph, root: nat, seen: set<nat>, queue: seq<nat>)
    requires WellFormed(g) && queue != [] && Frontier(g, root, seen, queue)
    ensures Frontier(g, root, seen + {queue[0]}, queue[1..] + ChildrenOf(g, queue[0]))
  {
    assert queue == [queue[0]] + queue[1..];
    forall c | c in ChildrenOf(g, queue[0]) ensures Reaches(g, c, root) { ChildReaches(g, c, root); }
  }

  /** The proper ancestors, nearest first. */
  method AncestorPids(g: Graph, pid: nat) returns (result: seq<nat>)
    requires WellFormed(g)
    ensures Distinct(result) && forall i :: 0 <= i < |result| ==> AboveBy(g, pid, result[i], i + 1)
    ensures forall r :: r in result <==> Above(g, pid, r)
  {
    result := [];
    var seen: set<nat> := {};
    ghost var universe := set p | p in g.processes :: g.processes[p].parent;
    var cursor := if pid in g.processes then Some(g.processes[pid].parent) else None;
    assert Climb(g, pid, 0) == Some(pid);
    while cursor.Some?
      invariant cursor == Climb(g, pid, |result| + 1) && (cursor.Some? ==> cursor.value in universe)
      invariant Distinct(result) && seen <= universe && forall r :: r in seen <==> r in result
      invariant Line(g, pid, result)
      decreases universe - seen
    {
      var parent := cursor.value;
      if parent == 0 || parent in seen { break; }
      seen := seen + {parent};
      result := result + [parent];
      cursor := if parent in g.processes then Some(g.processes[parent].parent) else None;
    }
    LineIsComplete(g, pid, result);
  }

  /** The next PIDs above `pid`, none of them 0. */
  ghost predicate Line(g: Graph, pid: nat, line: seq<nat>) {
    forall i :: 0 <= i < |line| ==> line[i] != 0 && Climb(g, pid, i + 1) == Some(line[i])
  }

  lemma LineIsComplete(g: Graph, pid: nat, line: seq<nat>)
    requires Line(g, pid, line)
    requires var next := Climb(g, pid, |line| + 1); next.None? || next.value == 0 || next.value in line
    ensures forall i :: 0 <= i < |line| ==> AboveBy(g, pid, line[i], i + 1)
    ensures forall r :: r in line <==> Above(g, pid, r)
  {
    forall i | 0 <= i < |line| ensures AboveBy(g, pid, line[i], i + 1) {
      forall m | 0 < m < i + 1 ensures Climb(g, pid, m) != Some(0) {
        assert Climb(g, pid, m - 1 + 1) == Some(line[m - 1]);
      }
    }
    forall r | Above(g, pid, r) ensures r in line {
      var n :| AboveBy(g, pid, r, n);
      LineHolds(g, pid, line, r, n);
    }
  }

  lemma {:induction false} LineHolds(g: Graph, pid: nat, line: seq<nat>, r: nat, n: nat)
    requires Line(g, pid, line) && r != 0 && AboveBy(g, pid, r, n)
    requires var next := Climb(g, pid, |line| + 1); next.None? || next.value == 0 || next.value in line
    ensures r in line
    decreases n
  {
    var k := |line| + 1;
    if n < k {
      assert Climb(g, pid, n - 1 + 1) == Some(line[n - 1]);
    } else if Climb(g, pid, k).None? {
      ClimbEnds(g, pid, k, n);
    } else if Climb(g, pid, k).value != 0 {
      var j :| 0 <= j < |line| && line[j] == Climb(g, pid, k).value;
      ClimbRepeats(g, pid, j + 1, k, n - k);
      LineHolds(g, pid, line, r, j + 1 + (n - k));
    }
  }

  method HasAncestor(g: Graph, pid: nat, ancestor: nat) returns (found: bool)
    requires WellFormed(g)
    ensures found <==> Above(g, pid, ancestor)
  {
    var line := AncestorPids(g, pid);
    found := ancestor in line;
  }

  /** The two traversals agree on every line that does not pass through PID 0. */
  lemma TraversalsAgree(g: Graph, p: nat, r: nat)
    requires r != 0 && p != r
    ensures Above(g, p, r) ==> Reaches(g, p, r)
    ensures Reaches(g, p, r) && !Above(g, p, r) ==> 0 in g.processes && Reaches(g, p, 0)
    ensures 0 !in g.processes ==> (Reaches(g, p, r) <==> Above(g, p, r))
  {
    if Reaches(g, p, r) && !Above(g, p, r) {
      var n: nat :| Climb(g, p, n) == Some(r);
      assert !AboveBy(g, p, r, n);
      var m :| 0 < m < n && Climb(g, p, m) == Some(0);
      if 0 !in g.processes { ClimbEnds(g, p, m + 1, n); }
    }
  }

  /** `r` lies beyond PID 0 on the line of `p`: the line comes to 0 before it comes to `r`,
      and goes on from the record of 0 to it. */
  ghost predicate BeyondZero(g: Graph, p: nat, r: nat, m: nat) {
    && 0 < m && Climb(g, p, m) == Some(0) && Reaches(g, 0, r)
    && forall k :: 0 < k < m ==> Climb(g, p, k) != Some(r) && Climb(g, p, k) != Some(0)
  }

  lemma {:induction false} ClimbFrom(g: Graph, p: nat, q: nat, m: nat, n: nat)
    requires Climb(g, p, m) == Some(q)
    ensures Climb(g, p, m + n) == Climb(g, q, n)
  {
    if n > 0 { ClimbFrom(g, p, q, m, n - 1); }
  }

  lemma {:induction false} FirstZero(g: Graph, p: nat, n: nat) returns (m: nat)
    requires 0 < n && Climb(g, p, n) == Some(0)
    ensures 0 < m <= n && Climb(g, p, m) == Some(0) && forall k :: 0 < k < m ==> Climb(g, p, k) != Some(0)
  {
    if k :| 0 < k < n && Climb(g, p, k) == Some(0) { m := FirstZero(g, p, k); } else { m := n; }
  }

  /** Exactly when the two traversals differ: a recorded descendant is no ancestor's
      child if and only if the ancestor lies beyond PID 0. */
  lemma TraversalsDifferExactly(g: Graph, p: nat, r: nat)
    requires r != 0 && p != r
    ensures Reaches(g, p, r) && !Above(g, p, r) <==> exists m :: BeyondZero(g, p, r, m)
  {
    if Reaches(g, p, r) && !Above(g, p, r) {
      var n: nat :| Climb(g, p, n) == Some(r);
      assert !AboveBy(g, p, r, n);
      var z :| 0 < z < n && Climb(g, p, z) == Some(0);
      var m := FirstZero(g, p, z);
      ClimbFrom(g, p, 0, m, n - m);
      assert forall k :: 0 < k < m ==> (AboveBy(g, p, r, k) <==> Climb(g, p, k) == Some(r));
      assert BeyondZero(g, p, r, m);
    }
    if m :| BeyondZero(g, p, r, m) {
      var n: nat :| Climb(g, 0, n) == Some(r);
      ClimbFrom(g, p, 0, m, n);
      assert forall k :: !AboveBy(g, p, r, k);
    }
  }

  /** With a record for PID 0 they can differ: 7 descends from 5 through 0, which
      the ancestor walk does not pass. */
  lemma TraversalsDiffer()
    ensures var g := Graph(map[0 := Record(0, 5), 7 := Record(7, 0)], map[5 := [0], 0 := [7]]);
      WellFormed(g) && Reaches(g, 7, 5) && !Above(g, 7, 5)
  {
    var g := Graph(map[0 := Record(0, 5), 7 := Record(7, 0)], map[5 := [0], 0 := [7]]);
    assert Climb(g, 7, 0) == Some(7) && Climb(g, 7, 1) == Some(0) && Climb(g, 7, 2) == Some(5);
    assert Climb(g, 7, 3).None?;
    forall n ensures !AboveBy(g, 7, 5, n) {
      if n >= 3 { ClimbEnds(g, 7, 3, n); }
    }
  }

  // ------------------------------------------------------------------ cycles

  /** The lineage of `p`: parent links, ending at a parent 0 or 1. */
  function Lineage(g: Graph, p: nat, n: nat): Option<nat> {
    if n == 0 then Some(p)
    else var q := Lineage(g, p, n - 1);
      if q.Some? && q.value in g.processes && g.processes[q.value].parent > 1 then Some(g.processes[q.value].parent)
        else None
  }

  lemma {:induction false} LineageRepeats(g: Graph, p: nat, a: nat, b: nat, d: nat)
    requires Lineage(g, p, a) == Lineage(g, p, b)
    ensures Lineage(g, p, a + d) == Lineage(g, p, b + d)
  {
    if d > 0 { LineageRepeats(g, p, a, b, d - 1); }
  }

  /** A lineage that repeats never ends. */
  lemma {:induction false} RepeatNeverEnds(g: Graph, p: nat, a: nat, b: nat, n: nat)
    requires a < b && Lineage(g, p, a) == Lineage(g, p, b) && Lineage(g, p, a).Some?
    requires forall m :: 0 <= m <= b ==> Lineage(g, p, m).Some?
    ensures Lineage(g, p, n).Some?
    decreases n
  {
    if n > b {
      LineageRepeats(g, p, a, b, n - b);
      RepeatNeverEnds(g, p, a, b, a + (n - b));
    }
  }

  /** True exactly when the lineage never ends. */
  method LineageHasCycle(g: Graph, pid: nat) returns (cycle: bool)
    ensures cycle <==> forall n: nat :: Lineage(g, pid, n).Some?
  {
    var seen: set<nat> := {};
    var cursor := Some(pid);
    ghost var steps := 0;
    ghost var universe := {pid} + set p | p in g.processes :: g.processes[p].parent;
    while cursor.Some?
      invariant cursor == Lineage(g, pid, steps) && (cursor.Some? ==> cursor.value in universe) && seen <= universe
      invariant forall q :: q in seen ==> exists m :: 0 <= m < steps && Lineage(g, pid, m) == Some(q)
      invariant forall m :: 0 <= m < steps ==> Lineage(g, pid, m).Some?
      decreases universe - seen
    {
      var current := cursor.value;
      if current in seen {
        ghost var m :| 0 <= m < steps && Lineage(g, pid, m) == Some(current);
        forall n: nat ensures Lineage(g, pid, n).Some? { RepeatNeverEnds(g, pid, m, steps, n); }
        return true;
      }
      seen := seen + {current};
      steps := steps + 1;
      cursor := if current in g.processes && g.processes[current].parent != 0 && g.processes[current].parent != 1
                then Some(g.processes[current].parent) else None;
    }
    return false;
  }
}
