/** Prerequisite graphs of investigation plans: paths, cycles, longest paths, and the pigeonhole argument. */
module TaskGraph {
  import opened Sequences

  datatype TaskId = TaskId(name: string)

  /** Each task with its list of prerequisites. The list may repeat a prerequisite. */
  type Graph = map<TaskId, seq<TaskId>>

  ghost predicate Closed(g: Graph) {
    forall v, u :: v in g && u in g[v] ==> u in g
  }

  ghost predicate Edge(g: Graph, u: TaskId, v: TaskId) {
    v in g && u in g[v]
  }

  /** A path runs from prerequisites to dependents and is measured in nodes. */
  ghost predicate IsPath(g: Graph, p: seq<TaskId>) {
    && |p| >= 1
    && (forall k :: 0 <= k < |p| ==> p[k] in g)
    && (forall k :: 0 <= k < |p| - 1 ==> Edge(g, p[k], p[k+1]))
  }

  ghost predicate PathTo(g: Graph, p: seq<TaskId>, v: TaskId) {
    IsPath(g, p) && p[|p|-1] == v
  }

  ghost predicate IsCycle(g: Graph, p: seq<TaskId>) {
    IsPath(g, p) && |p| >= 2 && p[0] == p[|p|-1]
  }

  ghost predicate Acyclic(g: Graph) {
    forall p :: !IsCycle(g, p)
  }

  ghost predicate PathsBounded(g: Graph, n: nat) {
    forall p :: IsPath(g, p) ==> |p| <= n
  }

  predicate IsRoot(g: Graph, v: TaskId) {
    v in g && g[v] == []
  }

  /** Some path of exactly `d` nodes leads from a root to `v`. */
  ghost predicate HasRootPath(g: Graph, v: TaskId, d: int) {
    exists p :: PathTo(g, p, v) && IsRoot(g, p[0]) && |p| == d
  }

  /** `d` is the number of nodes on the longest path that ends in `v`, and a root starts such a path. */
  ghost predicate LongestTo(g: Graph, v: TaskId, d: int) {
    HasRootPath(g, v, d) && forall p :: PathTo(g, p, v) ==> |p| <= d
  }

  // ---------------------------------------------------------------- pigeonhole

  lemma {:induction false} DistinctFitsInSet<T>(s: seq<T>, all: set<T>)
    requires Distinct(s)
    requires forall x :: x in s ==> x in all
    ensures |s| <= |all|
  {
    if s != [] {
      var last := s[|s|-1];
      DistinctFitsInSet(s[..|s|-1], all - {last});
    }
  }

  lemma LongSequenceRepeats<T>(s: seq<T>, all: set<T>) returns (i: nat, j: nat)
    requires forall x :: x in s ==> x in all
    requires |s| > |all|
    ensures i < j < |s| && s[i] == s[j]
  {
    if Distinct(s) {
      DistinctFitsInSet(s, all);
    }
    i, j :| 0 <= i < j < |s| && s[i] == s[j];
  }

  // ---------------------------------------------------------------- cycles

  /** A path longer than the number of tasks goes around a cycle. */
  lemma LongPathHasCycle(g: Graph, p: seq<TaskId>)
    requires IsPath(g, p) && |p| > |g.Keys|
    ensures !Acyclic(g)
  {
    var i, j := LongSequenceRepeats(p, g.Keys);
    assert IsCycle(g, p[i..j+1]);
  }

  ghost predicate WaitsFor(g: Graph, v: TaskId, blockers: set<TaskId>) {
    v in g && exists u :: u in g[v] && u in blockers
  }

  /** Backward walk: when every task of `stuck` waits for a task of `stuck`, there are paths of any length. */
  lemma {:induction false} BackwardWalk(g: Graph, stuck: set<TaskId>, n: nat) returns (p: seq<TaskId>)
    requires stuck != {} && stuck <= g.Keys
    requires forall v :: v in stuck ==> WaitsFor(g, v, stuck)
    ensures IsPath(g, p) && |p| == n + 1 && p[0] in stuck
  {
    if n == 0 {
      var v :| v in stuck;
      p := [v];
    } else {
      var q := BackwardWalk(g, stuck, n - 1);
      assert WaitsFor(g, q[0], stuck);
      var u :| u in g[q[0]] && u in stuck;
      p := [u] + q;
      forall k | 0 <= k < |p| - 1 ensures Edge(g, p[k], p[k+1]) {
        if k > 0 { assert p[k] == q[k-1] && p[k+1] == q[k]; }
      }
    }
  }

  lemma StuckTasksFormCycle(g: Graph, stuck: set<TaskId>)
    requires stuck != {} && stuck <= g.Keys
    requires forall v :: v in stuck ==> WaitsFor(g, v, stuck)
    ensures !Acyclic(g)
  {
    var p := BackwardWalk(g, stuck, |g.Keys|);
    LongPathHasCycle(g, p);
  }

  /** Going around a cycle again and again gives paths of any length. */
  lemma {:induction false} CycleGivesLongPath(g: Graph, c: seq<TaskId>, n: nat) returns (p: seq<TaskId>)
    requires IsCycle(g, c)
    ensures IsPath(g, p) && |p| >= n + 1 && p[|p|-1] == c[0]
  {
    if n == 0 {
      p := [c[0]];
    } else {
      var q := CycleGivesLongPath(g, c, n - 1);
      p := q + c[1..];
      forall k | 0 <= k < |p| - 1 ensures Edge(g, p[k], p[k+1]) {
        if k >= |q| - 1 {
          assert p[k] == c[k - (|q| - 1)] && p[k+1] == c[k - (|q| - 1) + 1];
        } else {
          assert p[k] == q[k] && p[k+1] == q[k+1];
        }
      }
    }
  }

  lemma BoundedPathsMeanAcyclic(g: Graph, n: nat)
    requires PathsBounded(g, n)
    ensures Acyclic(g)
  {
    forall c ensures !IsCycle(g, c) {
      if IsCycle(g, c) {
        var p := CycleGivesLongPath(g, c, n);
        assert false;
      }
    }
  }

  // ---------------------------------------------------------------- longest paths

  lemma RootPathExtends(g: Graph, u: TaskId, v: TaskId, d: int)
    requires HasRootPath(g, u, d) && Edge(g, u, v)
    ensures HasRootPath(g, v, d + 1)
  {
    var p :| PathTo(g, p, u) && IsRoot(g, p[0]) && |p| == d;
    var q := p + [v];
    forall k | 0 <= k < |q| - 1 ensures Edge(g, q[k], q[k+1]) {
      if k < |p| - 1 { assert q[k] == p[k] && q[k+1] == p[k+1]; }
    }
    assert PathTo(g, q, v);
  }

  lemma RootIsItsOwnLongestPath(g: Graph, v: TaskId)
    requires IsRoot(g, v)
    ensures LongestTo(g, v, 1)
  {
    assert PathTo(g, [v], v);
    forall p | PathTo(g, p, v) ensures |p| <= 1 {
      assert |p| > 1 ==> Edge(g, p[|p|-2], p[|p|-1]);
    }
  }

  /** The longest path to a task is one node longer than the longest path to a prerequisite. */
  lemma LongestFromPrerequisites(g: Graph, v: TaskId, depth: map<TaskId, int>)
    requires v in g && v in depth && HasRootPath(g, v, depth[v])
    requires forall u :: u in g[v] ==> u in depth && LongestTo(g, u, depth[u]) && depth[u] + 1 <= depth[v]
    ensures LongestTo(g, v, depth[v])
  {
    forall p | PathTo(g, p, v) ensures |p| <= depth[v] {
      if |p| > 1 {
        var q := p[..|p|-1];
        var u := q[|q|-1];
        assert Edge(g, p[|p|-2], p[|p|-1]);
        assert forall k :: 0 <= k < |q| - 1 ==> Edge(g, p[k], p[k+1]);
        assert PathTo(g, q, u);
      }
    }
  }
}
