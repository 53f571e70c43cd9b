/** Validation of investigation plans: front checks, edge tables, and Kahn's sort fused with longest-path depth. */
module DagValidator {
  import opened Wrappers
  import opened Sequences
  import opened TaskGraph

  datatype Task = Task(id: TaskId, dependsOn: seq<TaskId>)

  datatype Plan = Plan(tasks: seq<Task>, maxConcurrency: int)

  const MAX_TASKS := 20
  const MAX_CONCURRENCY := 8
  const MAX_FAN_OUT := 8
  const MAX_DEPTH: nat := 4

  datatype DagError =
    | EmptyPlan
    | TooManyTasks(count: nat)
    | TooConcurrent(concurrency: int)
    | DuplicateTask(id: TaskId)
    | SelfDependency(id: TaskId)
    | UnknownDependency(id: TaskId, missing: TaskId)
    | FanOutTooLarge(id: TaskId, fanOut: nat)
    | TooManyRoots(count: nat)
    | PoppedTooDeep(id: TaskId, depth: int)
    | TooDeep(id: TaskId, depth: int)
    | CycleDetected(total: nat, visited: nat)
    | MaxDepthExceeded(depth: int)

  // ---------------------------------------------------------------- what a plan must satisfy

  ghost predicate UniqueIds(tasks: seq<Task>) {
    forall i, j :: 0 <= i < j < |tasks| ==> tasks[i].id != tasks[j].id
  }

  ghost predicate Duplicated(tasks: seq<Task>, id: TaskId) {
    exists j, k :: 0 <= j < k < |tasks| && tasks[j].id == id && tasks[k].id == id
  }

  ghost predicate HasTask(tasks: seq<Task>, id: TaskId) {
    exists k :: 0 <= k < |tasks| && tasks[k].id == id
  }

  ghost predicate KnownDependencies(tasks: seq<Task>) {
    forall k, d :: 0 <= k < |tasks| && d in tasks[k].dependsOn ==> HasTask(tasks, d)
  }

  ghost function GraphOf(tasks: seq<Task>): Graph {
    if tasks == [] then map[] else
    var last := tasks[|tasks|-1];
    GraphOf(tasks[..|tasks|-1])[last.id := last.dependsOn]
  }

  /** How often `id` is listed as a prerequisite, repetitions included. */
  ghost function FanOut(tasks: seq<Task>, id: TaskId): nat {
    if tasks == [] then 0 else
    FanOut(tasks[..|tasks|-1], id) + multiset(tasks[|tasks|-1].dependsOn)[id]
  }

  ghost function RootIds(tasks: seq<Task>): set<TaskId> {
    set k | 0 <= k < |tasks| && tasks[k].dependsOn == [] :: tasks[k].id
  }

  ghost predicate FanOutsBounded(tasks: seq<Task>) {
    forall k :: 0 <= k < |tasks| ==> FanOut(tasks, tasks[k].id) <= MAX_FAN_OUT
  }

  ghost predicate WellFormed(plan: Plan) {
    && 0 < |plan.tasks| <= MAX_TASKS
    && plan.maxConcurrency <= MAX_CONCURRENCY
    && UniqueIds(plan.tasks)
    && KnownDependencies(plan.tasks)
    && FanOutsBounded(plan.tasks)
    && |RootIds(plan.tasks)| <= MAX_FAN_OUT
    && Acyclic(GraphOf(plan.tasks))
    && PathsBounded(GraphOf(plan.tasks), MAX_DEPTH)
  }

  /** What each reported error says about the plan. The two depth re-checks are never the reason. */
  ghost predicate Justified(plan: Plan, e: DagError) {
    match e
    case EmptyPlan => plan.tasks == []
    case TooManyTasks(n) => n == |plan.tasks| > MAX_TASKS
    case TooConcurrent(n) => n == plan.maxConcurrency > MAX_CONCURRENCY
    case DuplicateTask(id) => Duplicated(plan.tasks, id)
    case SelfDependency(id) =>
      exists k :: 0 <= k < |plan.tasks| && plan.tasks[k].id == id && id in plan.tasks[k].dependsOn
    case UnknownDependency(id, d) =>
      && !HasTask(plan.tasks, d)
      && exists k :: 0 <= k < |plan.tasks| && plan.tasks[k].id == id && d in plan.tasks[k].dependsOn
    case FanOutTooLarge(id, n) => HasTask(plan.tasks, id) && n == FanOut(plan.tasks, id) > MAX_FAN_OUT
    case TooManyRoots(n) => n == |RootIds(plan.tasks)| > MAX_FAN_OUT
    case TooDeep(id, d) => d == MAX_DEPTH + 1 && HasRootPath(GraphOf(plan.tasks), id, d)
    case CycleDetected(total, visited) => total == |plan.tasks| > visited && !Acyclic(GraphOf(plan.tasks))
    case PoppedTooDeep(_, _) => false
    case MaxDepthExceeded(_) => false
  }

  // ---------------------------------------------------------------- the edge tables

  function Repeat(id: TaskId, n: nat): seq<TaskId> {
    seq(n, _ => id)
  }

  /** The dependents of `id` in the order in which the build loop appends them. */
  ghost function Dependents(tasks: seq<Task>, id: TaskId): seq<TaskId> {
    if tasks == [] then [] else
    var last := tasks[|tasks|-1];
    Dependents(tasks[..|tasks|-1], id) + Repeat(last.id, multiset(last.dependsOn)[id])
  }

  lemma {:induction false} RepeatCounts(id: TaskId, n: nat)
    ensures multiset(Repeat(id, n)) == multiset{}[id := n]
  {
    if n > 0 {
      RepeatCounts(id, n - 1);
      assert Repeat(id, n) == Repeat(id, n - 1) + [id];
    }
  }

  lemma {:induction false} FanOutIsDependentCount(tasks: seq<Task>, id: TaskId)
    ensures |Dependents(tasks, id)| == FanOut(tasks, id)
  {
    if tasks != [] {
      FanOutIsDependentCount(tasks[..|tasks|-1], id);
    }
  }

  lemma {:induction false} GraphLookup(tasks: seq<Task>)
    requires UniqueIds(tasks)
    ensures forall k :: 0 <= k < |tasks| ==>
      tasks[k].id in GraphOf(tasks) && GraphOf(tasks)[tasks[k].id] == tasks[k].dependsOn
    ensures forall v :: v in GraphOf(tasks) <==> HasTask(tasks, v)
  {
    if tasks != [] {
      var init := tasks[..|tasks|-1];
      GraphLookup(init);
      forall v ensures v in GraphOf(tasks) <==> HasTask(tasks, v) {
        assert tasks[|tasks|-1].id == v || HasTask(init, v) <==> HasTask(tasks, v);
      }
    }
  }

  lemma {:induction false} GraphSize(tasks: seq<Task>)
    requires UniqueIds(tasks)
    ensures |GraphOf(tasks).Keys| == |tasks|
  {
    if tasks != [] {
      var init := tasks[..|tasks|-1];
      GraphSize(init);
      GraphLookup(init);
      assert GraphOf(tasks).Keys == GraphOf(init).Keys + {tasks[|tasks|-1].id};
    }
  }

  lemma {:induction false} DependentsAreTasks(tasks: seq<Task>, u: TaskId)
    ensures forall x :: x in Dependents(tasks, u) ==> HasTask(tasks, x)
  {
    if tasks != [] {
      var init, last := tasks[..|tasks|-1], tasks[|tasks|-1];
      DependentsAreTasks(init, u);
      forall x | x in Dependents(tasks, u) ensures HasTask(tasks, x) {
        if x in Dependents(init, u) {
          var k :| 0 <= k < |init| && init[k].id == x;
          assert tasks[k].id == x;
        } else {
          assert x == tasks[|tasks|-1].id;
        }
      }
    }
  }

  /** Both tables count the edge from `u` to `v` equally often. */
  lemma {:induction false} DependentsMirrorPrerequisites(tasks: seq<Task>, u: TaskId)
    requires UniqueIds(tasks)
    ensures forall k :: 0 <= k < |tasks| ==>
      multiset(Dependents(tasks, u))[tasks[k].id] == multiset(tasks[k].dependsOn)[u]
  {
    if tasks != [] {
      var init, last := tasks[..|tasks|-1], tasks[|tasks|-1];
      var earlier, added := Dependents(init, u), Repeat(last.id, multiset(last.dependsOn)[u]);
      DependentsMirrorPrerequisites(init, u);
      RepeatCounts(last.id, multiset(last.dependsOn)[u]);
      NoDependentYet(init, last.id, u);
      forall k | 0 <= k < |tasks| ensures multiset(earlier + added)[tasks[k].id] == multiset(tasks[k].dependsOn)[u] {
        assert multiset(earlier + added) == multiset(earlier) + multiset(added);
        if k < |init| { assert tasks[k] == init[k]; }
      }
    }
  }

  lemma NoDependentYet(tasks: seq<Task>, id: TaskId, u: TaskId)
    requires forall k :: 0 <= k < |tasks| ==> tasks[k].id != id
    ensures multiset(Dependents(tasks, u))[id] == 0
  {
    DependentsAreTasks(tasks, u);
    assert !HasTask(tasks, id);
    assert id !in Dependents(tasks, u);
  }

  /** The inner loop: one task is appended to the list of each of its prerequisites, once per mention. */
  method AddTask(task: Task, adj0: map<TaskId, seq<TaskId>>, inDegree0: map<TaskId, int>)
    returns (adj: map<TaskId, seq<TaskId>>, inDegree: map<TaskId, int>)
    requires task.id in inDegree0 && forall d :: d in task.dependsOn ==> d in adj0
    ensures adj.Keys == adj0.Keys
    ensures forall id {:trigger adj[id]} :: id in adj0 ==>
      adj[id] == adj0[id] + Repeat(task.id, multiset(task.dependsOn)[id])
    ensures inDegree == inDegree0[task.id := inDegree0[task.id] + |task.dependsOn|]
  {
    hide Repeat, Mentioned;
    adj := adj0;
    inDegree := inDegree0;
    NothingMentioned(adj0, task.id);
    for j := 0 to |task.dependsOn|
      invariant adj.Keys == adj0.Keys && Mentioned(adj0, adj, task.id, task.dependsOn[..j])
      invariant inDegree == inDegree0[task.id := inDegree0[task.id] + j]
    {
      var dep := task.dependsOn[j];
      assert dep in task.dependsOn;
      assert task.dependsOn[..j+1] == task.dependsOn[..j] + [dep];
      MentionNext(adj0, adj, task.id, task.dependsOn[..j], dep);
      adj := adj[dep := adj[dep] + [task.id]];
      inDegree := inDegree[task.id := inDegree[task.id] + 1];
    }
    assert task.dependsOn[..|task.dependsOn|] == task.dependsOn;
    MentionedMeans(adj0, adj, task.id, task.dependsOn);
  }

  lemma MentionedMeans(adj0: map<TaskId, seq<TaskId>>, adj: map<TaskId, seq<TaskId>>, id: TaskId, deps: seq<TaskId>)
    requires Mentioned(adj0, adj, id, deps)
    ensures adj.Keys == adj0.Keys
    ensures forall d {:trigger adj[d]} :: d in adj0 ==> adj[d] == adj0[d] + Repeat(id, multiset(deps)[d])
  {
  }

  /** The lists of `adj` have grown by one `id` for each mention in `deps`. */
  ghost predicate Mentioned(adj0: map<TaskId, seq<TaskId>>, adj: map<TaskId, seq<TaskId>>, id: TaskId,
                            deps: seq<TaskId>)
  {
    && adj.Keys == adj0.Keys
    && forall d {:trigger adj[d]} :: d in adj0 ==> adj[d] == adj0[d] + Repeat(id, multiset(deps)[d])
  }

  lemma NothingMentioned(adj0: map<TaskId, seq<TaskId>>, id: TaskId)
    ensures Mentioned(adj0, adj0, id, [])
  {
  }

  lemma MentionNext(adj0: map<TaskId, seq<TaskId>>, adj: map<TaskId, seq<TaskId>>, id: TaskId, deps: seq<TaskId>,
                    dep: TaskId)
    requires Mentioned(adj0, adj, id, deps) && dep in adj
    ensures Mentioned(adj0, adj[dep := adj[dep] + [id]], id, deps + [dep])
  {
    var n := multiset(deps)[dep];
    assert Repeat(id, n + 1) == Repeat(id, n) + [id];
    forall d ensures multiset(deps + [dep])[d] == multiset(deps)[d] + if d == dep then 1 else 0 {}
    hide Repeat;
  }

  method EmptyTables(tasks: seq<Task>) returns (adj: map<TaskId, seq<TaskId>>, inDegree: map<TaskId, int>)
    ensures adj.Keys == inDegree.Keys && forall id :: id in adj <==> HasTask(tasks, id)
    ensures forall id {:trigger adj[id]} :: id in adj ==> adj[id] == []
    ensures forall id {:trigger inDegree[id]} :: id in inDegree ==> inDegree[id] == 0
  {
    adj := map[];
    inDegree := map[];
    for i := 0 to |tasks|
      invariant adj.Keys == inDegree.Keys == set k | 0 <= k < i :: tasks[k].id
      invariant forall id {:trigger adj[id]} :: id in adj ==> adj[id] == []
      invariant forall id {:trigger inDegree[id]} :: id in inDegree ==> inDegree[id] == 0
    {
      adj := adj[tasks[i].id := []];
      inDegree := inDegree[tasks[i].id := 0];
    }
    forall id ensures id in adj <==> HasTask(tasks, id) {}
  }

  /** The tables after the first `i` tasks have been read. */
  ghost predicate Built(tasks: seq<Task>, i: nat, adj: map<TaskId, seq<TaskId>>, inDegree: map<TaskId, int>)
    requires i <= |tasks|
  {
    && adj.Keys == inDegree.Keys && (forall id :: id in adj <==> HasTask(tasks, id))
    && (forall id {:trigger adj[id]} :: id in adj ==> adj[id] == Dependents(tasks[..i], id))
    && (forall k :: 0 <= k < |tasks| ==>
      tasks[k].id in inDegree && inDegree[tasks[k].id] == if k < i then |tasks[k].dependsOn| else 0)
  }

  lemma BuiltNext(tasks: seq<Task>, i: nat, adj: map<TaskId, seq<TaskId>>, inDegree: map<TaskId, int>,
                  adj': map<TaskId, seq<TaskId>>, inDegree': map<TaskId, int>)
    requires UniqueIds(tasks) && i < |tasks| && Built(tasks, i, adj, inDegree)
    requires adj'.Keys == adj.Keys
    requires forall id {:trigger adj'[id]} :: id in adj ==>
      adj'[id] == adj[id] + Repeat(tasks[i].id, multiset(tasks[i].dependsOn)[id])
    requires inDegree' == inDegree[tasks[i].id := inDegree[tasks[i].id] + |tasks[i].dependsOn|]
    ensures Built(tasks, i + 1, adj', inDegree')
  {
    DependentsNext(tasks, i);
    OthersDiffer(tasks, i);
    hide HasTask, Repeat, Dependents, UniqueIds;
  }

  lemma DependentsNext(tasks: seq<Task>, i: nat)
    requires i < |tasks|
    ensures forall id ::
      Dependents(tasks[..i+1], id) == Dependents(tasks[..i], id) + Repeat(tasks[i].id, multiset(tasks[i].dependsOn)[id])
  {
    hide Repeat;
    assert tasks[..i+1][..i] == tasks[..i];
  }

  lemma OthersDiffer(tasks: seq<Task>, i: nat)
    requires UniqueIds(tasks) && i < |tasks|
    ensures forall k :: 0 <= k < |tasks| && k != i ==> tasks[k].id != tasks[i].id
  {
  }

  method BuildEdges(tasks: seq<Task>) returns (adj: map<TaskId, seq<TaskId>>, inDegree: map<TaskId, int>)
    requires UniqueIds(tasks) && KnownDependencies(tasks)
    ensures Built(tasks, |tasks|, adj, inDegree)
  {
    hide KnownDependencies, UniqueIds, HasTask, Dependents;
    adj, inDegree := EmptyTables(tasks);
    NothingBuilt(tasks, adj, inDegree);
    for i := 0 to |tasks|
      invariant Built(tasks, i, adj, inDegree)
    {
      PrerequisitesListed(tasks, i, adj, inDegree);
      ghost var adj0, inDegree0 := adj, inDegree;
      adj, inDegree := AddTask(tasks[i], adj, inDegree);
      BuiltNext(tasks, i, adj0, inDegree0, adj, inDegree);
    }
  }

  lemma NothingBuilt(tasks: seq<Task>, adj: map<TaskId, seq<TaskId>>, inDegree: map<TaskId, int>)
    requires adj.Keys == inDegree.Keys && forall id :: id in adj <==> HasTask(tasks, id)
    requires forall id {:trigger adj[id]} :: id in adj ==> adj[id] == []
    requires forall id {:trigger inDegree[id]} :: id in inDegree ==> inDegree[id] == 0
    ensures Built(tasks, 0, adj, inDegree)
  {
    assert tasks[..0] == [];
  }

  lemma PrerequisitesListed(tasks: seq<Task>, i: nat, adj: map<TaskId, seq<TaskId>>, inDegree: map<TaskId, int>)
    requires i < |tasks| && KnownDependencies(tasks) && Built(tasks, i, adj, inDegree)
    ensures tasks[i].id in inDegree && forall d :: d in tasks[i].dependsOn ==> d in adj
  {
    hide Dependents;
    forall d | d in tasks[i].dependsOn ensures d in adj {
      assert HasTask(tasks, d);
    }
  }

  // ---------------------------------------------------------------- Kahn's sort with depth

  /** Prerequisites in `s` that are not yet `done`, with multiplicity. */
  ghost function Waiting(s: seq<TaskId>, done: set<TaskId>): nat {
    if s == [] then 0 else (if s[0] in done then 0 else 1) + Waiting(s[1..], done)
  }

  lemma {:induction false} WaitingAfter(s: seq<TaskId>, done: set<TaskId>, u: TaskId)
    requires u !in done
    ensures Waiting(s, done + {u}) == Waiting(s, done) - multiset(s)[u]
  {
    if s != [] {
      WaitingAfter(s[1..], done, u);
      assert s == [s[0]] + s[1..];
      assert multiset(s)[u] == (if s[0] == u then 1 else 0) + multiset(s[1..])[u];
    }
  }

  lemma {:induction false} NothingWaiting(s: seq<TaskId>, done: set<TaskId>)
    ensures Waiting(s, done) == 0 <==> forall u :: u in s ==> u in done
  {
    if s != [] {
      NothingWaiting(s[1..], done);
      assert forall u :: u in s <==> u == s[0] || u in s[1..];
    }
  }

  lemma {:induction false} AllWaiting(s: seq<TaskId>)
    ensures Waiting(s, {}) == |s|
  {
    if s != [] { AllWaiting(s[1..]); }
  }

  lemma PrefixCounts(s: seq<TaskId>, k: nat, x: TaskId)
    requires k <= |s|
    ensures multiset(s[..k])[x] <= multiset(s)[x]
  {
    assert s == s[..k] + s[k..];
  }

  /** The two edge tables agree with the graph. */
  ghost predicate EdgeTables(g: Graph, adj: map<TaskId, seq<TaskId>>) {
    && adj.Keys == g.Keys
    && (forall u, v :: u in adj && v in adj[u] ==> v in g)
    && (forall u, v :: u in g && v in g ==> multiset(adj[u])[v] == multiset(g[v])[u])
  }

  /** Every recorded depth is the length of some path from a root, within the limit. */
  ghost predicate DepthsReached(g: Graph, depth: map<TaskId, int>) {
    forall v :: v in depth ==> v in g && 1 <= depth[v] <= MAX_DEPTH && HasRootPath(g, v, depth[v])
  }

  ghost predicate Settled(g: Graph, depth: map<TaskId, int>, s: set<TaskId>) {
    forall v :: v in s ==> v in depth && LongestTo(g, v, depth[v])
  }

  /** The edges that leave `done` have raised the depth of their targets. */
  ghost predicate EdgesApplied(g: Graph, depth: map<TaskId, int>, done: set<TaskId>) {
    forall u, v :: u in done && Edge(g, u, v) ==> u in depth && v in depth && depth[u] + 1 <= depth[v]
  }

  ghost predicate Counted(g: Graph, inDegree: map<TaskId, int>, done: set<TaskId>, applied: multiset<TaskId>) {
    && inDegree.Keys == g.Keys
    && forall v {:trigger inDegree[v]} :: v in g ==> inDegree[v] == Waiting(g[v], done) - applied[v]
  }

  /** Popped tasks followed by queued tasks are exactly those with no prerequisite left to wait for. */
  ghost predicate Ready(g: Graph, inDegree: map<TaskId, int>, ready: seq<TaskId>) {
    && inDegree.Keys == g.Keys
    && Distinct(ready)
    && (forall v :: v in ready ==> v in g)
    && (forall v {:trigger inDegree[v]} :: v in g ==> (inDegree[v] == 0 <==> v in ready))
  }

  ghost function Elements(s: seq<TaskId>): set<TaskId> {
    set x | x in s
  }

  datatype KahnResult =
    | Sorted(visited: nat, depth: map<TaskId, int>)
    | TooDeepAtPop(id: TaskId, found: int)
    | TooDeepAtEdge(id: TaskId, found: int)

  /** When the queue runs dry early, the tasks left over wait for each other in a cycle. */
  lemma LeftoverTasksFormCycle(g: Graph, inDegree: map<TaskId, int>, order: seq<TaskId>)
    requires Closed(g)
    requires Counted(g, inDegree, Elements(order), multiset{}) && Ready(g, inDegree, order)
    requires |order| < |g.Keys|
    ensures !Acyclic(g)
  {
    var stuck := set v | v in g && v !in order;
    if forall v :: v in g ==> v in order {
      EveryElementCounts(order, g.Keys);
    }
    forall v | v in stuck ensures WaitsFor(g, v, stuck) {
      NothingWaiting(g[v], Elements(order));
      var u :| u in g[v] && u !in Elements(order);
      assert u in stuck;
    }
    var v :| v in g && v !in order;
    assert v in stuck;
    StuckTasksFormCycle(g, stuck);
  }

  lemma {:induction false} EveryElementCounts(s: seq<TaskId>, all: set<TaskId>)
    requires forall x :: x in all ==> x in s
    ensures |all| <= |s|
  {
    if s == [] {
      assert all == {};
    } else {
      var last := s[|s|-1];
      assert s == s[..|s|-1] + [last];
      EveryElementCounts(s[..|s|-1], all - {last});
    }
  }

  /** Once every task is settled within the limit, no path is longer than the limit. */
  lemma AllSettledBoundsPaths(g: Graph, depth: map<TaskId, int>)
    requires DepthsReached(g, depth) && Settled(g, depth, g.Keys)
    ensures PathsBounded(g, MAX_DEPTH) && Acyclic(g)
  {
    forall p | IsPath(g, p) ensures |p| <= MAX_DEPTH {
      assert PathTo(g, p, p[|p|-1]);
    }
    BoundedPathsMeanAcyclic(g, MAX_DEPTH);
  }

  /** Loop invariant between two pops: `order` holds the popped tasks. */
  ghost predicate Outer(g: Graph, inDegree: map<TaskId, int>, depth: map<TaskId, int>, order: seq<TaskId>,
                        queue: seq<TaskId>)
  {
    && Counted(g, inDegree, Elements(order), multiset{})
    && Ready(g, inDegree, order + queue)
    && DepthsReached(g, depth)
    && Settled(g, depth, Elements(order + queue))
    && EdgesApplied(g, depth, Elements(order))
  }

  /** Loop invariant while the first `k` dependents of the popped task `curr`, the last of `order`, are updated. */
  ghost predicate Inner(g: Graph, adj: map<TaskId, seq<TaskId>>, inDegree: map<TaskId, int>, depth: map<TaskId, int>,
                        order: seq<TaskId>, queue: seq<TaskId>, curr: TaskId, k: nat)
  {
    && EdgeTables(g, adj) && curr in g && k <= |adj[curr]|
    && order != [] && order[|order|-1] == curr && curr !in Elements(order[..|order|-1])
    && Counted(g, inDegree, Elements(order[..|order|-1]), multiset(adj[curr][..k]))
    && Ready(g, inDegree, order + queue)
    && DepthsReached(g, depth)
    && Settled(g, depth, Elements(order + queue))
    && EdgesApplied(g, depth, Elements(order[..|order|-1]))
    && curr in depth && forall j :: 0 <= j < k ==> adj[curr][j] in depth && depth[curr] + 1 <= depth[adj[curr][j]]
  }

  lemma Start(g: Graph, inDegree: map<TaskId, int>, depth: map<TaskId, int>, roots: seq<TaskId>)
    requires inDegree.Keys == g.Keys && forall v :: v in g ==> inDegree[v] == |g[v]|
    requires Distinct(roots) && forall v :: v in roots <==> IsRoot(g, v)
    requires depth == map v | v in roots :: 1
    ensures Outer(g, inDegree, depth, [], roots)
  {
    forall v | v in g ensures Waiting(g[v], {}) == |g[v]| {
      AllWaiting(g[v]);
    }
    forall v | v in roots ensures LongestTo(g, v, 1) {
      RootIsItsOwnLongestPath(g, v);
    }
    assert [] + roots == roots;
    assert Elements([]) == {};
  }

  lemma Pop(g: Graph, adj: map<TaskId, seq<TaskId>>, inDegree: map<TaskId, int>, depth: map<TaskId, int>,
            order: seq<TaskId>, queue: seq<TaskId>)
    requires EdgeTables(g, adj) && Outer(g, inDegree, depth, order, queue) && queue != []
    ensures Inner(g, adj, inDegree, depth, order + [queue[0]], queue[1..], queue[0], 0)
    ensures |order| + 1 <= |g.Keys|
  {
    hide Counted, Settled, DepthsReached, EdgesApplied, EdgeTables, Ready, Elements;
    PopSequences(order, queue);
    FirstIsReady(g, inDegree, depth, order, queue);
    PrefixFits(g, inDegree, order + queue, |order| + 1);
    ListStarts(g, adj, queue[0]);
  }

  lemma PopSequences(order: seq<TaskId>, queue: seq<TaskId>)
    requires queue != []
    ensures var order' := order + [queue[0]];
      && order + queue == order' + queue[1..] && order'[..|order'|-1] == order && order'[|order'|-1] == queue[0]
      && |order| + 1 <= |order + queue|
  {
  }

  lemma ListStarts(g: Graph, adj: map<TaskId, seq<TaskId>>, curr: TaskId)
    requires EdgeTables(g, adj) && curr in g
    ensures curr in adj && multiset(adj[curr][..0]) == multiset{}
  {
  }

  lemma FirstIsReady(g: Graph, inDegree: map<TaskId, int>, depth: map<TaskId, int>, order: seq<TaskId>,
                     queue: seq<TaskId>)
    requires Ready(g, inDegree, order + queue) && Settled(g, depth, Elements(order + queue)) && queue != []
    ensures queue[0] in g && queue[0] in depth && queue[0] !in Elements(order)
  {
    hide LongestTo;
    assert (order + queue)[|order|] == queue[0];
    forall i | 0 <= i < |order| ensures order[i] != queue[0] {
      assert (order + queue)[i] == order[i];
    }
  }

  lemma PrefixFits(g: Graph, inDegree: map<TaskId, int>, ready: seq<TaskId>, n: nat)
    requires Ready(g, inDegree, ready) && n <= |ready|
    ensures Distinct(ready[..n]) && n <= |g.Keys|
  {
    DistinctFitsInSet(ready[..n], g.Keys);
  }

  lemma {:induction false} EdgeIsLive(g: Graph, adj: map<TaskId, seq<TaskId>>, inDegree: map<TaskId, int>,
                                      depth: map<TaskId, int>, order: seq<TaskId>, queue: seq<TaskId>,
                                      curr: TaskId, k: nat)
    requires Inner(g, adj, inDegree, depth, order, queue, curr, k) && k < |adj[curr]|
    ensures var nxt := adj[curr][k];
      nxt in g && nxt in inDegree && inDegree[nxt] >= 1 && Edge(g, curr, nxt) && nxt !in order + queue
  {
    hide Settled, DepthsReached, EdgesApplied, Distinct, Waiting;
    var nxt := adj[curr][k];
    PrefixCounts(adj[curr], k + 1, nxt);
    assert adj[curr][..k+1] == adj[curr][..k] + [nxt];
    WaitingAfter(g[nxt], Elements(order[..|order|-1]), curr);
  }

  lemma RaisedDepth(g: Graph, before: map<TaskId, int>, after: map<TaskId, int>, curr: TaskId, nxt: TaskId)
    requires DepthsReached(g, before) && curr in before && Edge(g, curr, nxt)
    requires after == before[nxt := Max(if nxt in before then before[nxt] else 1, before[curr] + 1)]
    ensures HasRootPath(g, nxt, after[nxt]) && 1 <= after[nxt] <= MAX_DEPTH + 1
    ensures after[nxt] <= MAX_DEPTH ==> DepthsReached(g, after)
  {
    RootPathExtends(g, curr, nxt, before[curr]);
  }

  /** Raising the depth of a task that is not yet ready disturbs nothing that is settled or applied. */
  lemma RaiseKeepsRest(g: Graph, before: map<TaskId, int>, after: map<TaskId, int>, nxt: TaskId, ready: set<TaskId>,
                       done: set<TaskId>)
    requires nxt in after && after == before[nxt := after[nxt]] && (nxt in before ==> before[nxt] <= after[nxt])
    requires nxt !in ready && done <= ready
    requires Settled(g, before, ready) && EdgesApplied(g, before, done)
    ensures Settled(g, after, ready) && EdgesApplied(g, after, done)
  {
    hide LongestTo;
  }

  lemma CountDown(g: Graph, before: map<TaskId, int>, after: map<TaskId, int>, done: set<TaskId>,
                  dependents: seq<TaskId>, k: nat)
    requires k < |dependents| && dependents[k] in g
    requires Counted(g, before, done, multiset(dependents[..k]))
      && after == before[dependents[k] := before[dependents[k]] - 1]
    ensures Counted(g, after, done, multiset(dependents[..k+1]))
  {
    hide Waiting;
    assert dependents[..k+1] == dependents[..k] + [dependents[k]];
  }

  /** When the last edge into a task is applied, its recorded depth is its longest path. */
  lemma {:induction false} LastEdgeSettles(g: Graph, adj: map<TaskId, seq<TaskId>>, inDegree: map<TaskId, int>,
                                           depth: map<TaskId, int>, done: set<TaskId>, curr: TaskId,
                                           nxt: TaskId, k: nat)
    requires EdgeTables(g, adj) && curr in g && curr !in done && k < |adj[curr]| && nxt == adj[curr][k]
    requires Counted(g, inDegree, done, multiset(adj[curr][..k+1])) && inDegree[nxt] == 0
    requires DepthsReached(g, depth) && EdgesApplied(g, depth, done) && Settled(g, depth, done + {curr})
    requires nxt in depth && depth[curr] + 1 <= depth[nxt]
    ensures LongestTo(g, nxt, depth[nxt])
  {
    hide Waiting, LongestTo, HasRootPath;
    NothingLeft(g, adj, inDegree, done, curr, nxt, k);
    hide Counted, EdgeTables;
    forall u | u in g[nxt] ensures u in depth && LongestTo(g, u, depth[u]) && depth[u] + 1 <= depth[nxt] {
      assert Edge(g, u, nxt);
    }
    LongestFromPrerequisites(g, nxt, depth);
  }

  /** A counter at zero means that every prerequisite is done. */
  lemma NothingLeft(g: Graph, adj: map<TaskId, seq<TaskId>>, inDegree: map<TaskId, int>,
                    done: set<TaskId>, curr: TaskId,
                                           nxt: TaskId, k: nat)
    requires EdgeTables(g, adj) && curr in g && curr !in done && k < |adj[curr]| && nxt == adj[curr][k]
    requires Counted(g, inDegree, done, multiset(adj[curr][..k+1])) && inDegree[nxt] == 0
    ensures nxt in g && forall u :: u in g[nxt] ==> u in done + {curr}
  {
    hide Waiting;
    PrefixCounts(adj[curr], k + 1, nxt);
    WaitingAfter(g[nxt], done, curr);
    NothingWaiting(g[nxt], done + {curr});
  }

  /** One round of the inner loop, before the target is queued. */
  lemma ApplyEdge(g: Graph, adj: map<TaskId, seq<TaskId>>, inDegree: map<TaskId, int>, inDegree': map<TaskId, int>,
                  depth: map<TaskId, int>, depth': map<TaskId, int>, order: seq<TaskId>, queue: seq<TaskId>,
                  curr: TaskId, k: nat)
    requires Inner(g, adj, inDegree, depth, order, queue, curr, k) && k < |adj[curr]| && adj[curr][k] in inDegree
    requires var nxt := adj[curr][k];
      && depth' == depth[nxt := Max(if nxt in depth then depth[nxt] else 1, depth[curr] + 1)]
      && depth'[nxt] <= MAX_DEPTH
      && inDegree' == inDegree[nxt := inDegree[nxt] - 1]
    ensures inDegree'[adj[curr][k]] != 0 ==> Inner(g, adj, inDegree', depth', order, queue, curr, k + 1)
    ensures inDegree'[adj[curr][k]] == 0 ==>
      Inner(g, adj, inDegree', depth', order, queue + [adj[curr][k]], curr, k + 1)
  {
    hide Waiting, LongestTo, HasRootPath, Counted, Settled, EdgesApplied, DepthsReached, Distinct, Ready;
    var nxt := adj[curr][k];
    var done := Elements(order[..|order|-1]);
    EdgeIsLive(g, adj, inDegree, depth, order, queue, curr, k);
    CurrIsReady(order, queue);
    RaisedDepth(g, depth, depth', curr, nxt);
    RaiseKeepsRest(g, depth, depth', nxt, Elements(order + queue), done);
    CountDown(g, inDegree, inDegree', done, adj[curr], k);
    if inDegree'[nxt] == 0 {
      QueueTarget(g, adj, inDegree, inDegree', depth', done, order, queue, curr, k);
    } else {
      NotYetReady(g, inDegree, inDegree', order + queue, nxt);
    }
  }

  lemma QueueTarget(g: Graph, adj: map<TaskId, seq<TaskId>>, inDegree: map<TaskId, int>, inDegree': map<TaskId, int>,
                    depth: map<TaskId, int>, done: set<TaskId>, order: seq<TaskId>, queue: seq<TaskId>,
                    curr: TaskId, k: nat)
    requires EdgeTables(g, adj) && curr in g && curr !in done && k < |adj[curr]|
    requires var nxt := adj[curr][k];
      && nxt in g && nxt !in order + queue && inDegree' == inDegree[nxt := 0]
      && nxt in depth && curr in depth && depth[curr] + 1 <= depth[nxt]
    requires Counted(g, inDegree', done, multiset(adj[curr][..k+1])) && Ready(g, inDegree, order + queue)
    requires DepthsReached(g, depth) && EdgesApplied(g, depth, done) && Settled(g, depth, Elements(order + queue))
    requires done + {curr} <= Elements(order + queue)
    ensures var nxt := adj[curr][k];
      Ready(g, inDegree', order + (queue + [nxt])) && Settled(g, depth, Elements(order + (queue + [nxt])))
  {
    hide Waiting, LongestTo, HasRootPath, Counted, Settled, EdgesApplied, DepthsReached, Distinct, Ready;
    var nxt := adj[curr][k];
    SettledSubset(g, depth, Elements(order + queue), done + {curr});
    LastEdgeSettles(g, adj, inDegree', depth, done, curr, nxt, k);
    assert order + (queue + [nxt]) == (order + queue) + [nxt];
    Enqueue(g, inDegree, inDegree', depth, order + queue, nxt);
  }

  lemma NotYetReady(g: Graph, inDegree: map<TaskId, int>, inDegree': map<TaskId, int>, ready: seq<TaskId>, nxt: TaskId)
    requires Ready(g, inDegree, ready) && nxt in g && nxt !in ready && nxt in inDegree'
    requires inDegree' == inDegree[nxt := inDegree'[nxt]] && inDegree'[nxt] != 0
    ensures Ready(g, inDegree', ready)
  {
  }

  lemma CurrIsReady(order: seq<TaskId>, queue: seq<TaskId>)
    requires order != []
    ensures order[|order|-1] in Elements(order + queue)
    ensures Elements(order[..|order|-1]) <= Elements(order + queue)
  {
  }

  lemma SettledSubset(g: Graph, depth: map<TaskId, int>, big: set<TaskId>, small: set<TaskId>)
    requires Settled(g, depth, big) && small <= big
    ensures Settled(g, depth, small)
  {
  }

  lemma Enqueue(g: Graph, inDegree: map<TaskId, int>, inDegree': map<TaskId, int>, depth: map<TaskId, int>,
                ready: seq<TaskId>, nxt: TaskId)
    requires Ready(g, inDegree, ready) && nxt in g && nxt !in ready && inDegree' == inDegree[nxt := 0]
    requires Settled(g, depth, Elements(ready)) && nxt in depth && LongestTo(g, nxt, depth[nxt])
    ensures Ready(g, inDegree', ready + [nxt]) && Settled(g, depth, Elements(ready + [nxt]))
  {
    hide LongestTo;
  }

  lemma DependentsDone(g: Graph, adj: map<TaskId, seq<TaskId>>, inDegree: map<TaskId, int>, depth: map<TaskId, int>,
                       order: seq<TaskId>, queue: seq<TaskId>, curr: TaskId)
    requires EdgeTables(g, adj) && curr in g && Inner(g, adj, inDegree, depth, order, queue, curr, |adj[curr]|)
    ensures Outer(g, inDegree, depth, order, queue)
  {
    assert curr in adj;
    hide Waiting, LongestTo, DepthsReached, Settled, Ready, EdgeTables, Counted, EdgesApplied, Elements;
    var done := Elements(order[..|order|-1]);
    assert adj[curr][..|adj[curr]|] == adj[curr];
    ElementsSplit(order);
    AllCounted(g, adj, inDegree, done, curr);
    AllApplied(g, adj, depth, done, curr);
  }

  lemma ElementsSplit(order: seq<TaskId>)
    requires order != []
    ensures Elements(order) == Elements(order[..|order|-1]) + {order[|order|-1]}
  {
    assert order == order[..|order|-1] + [order[|order|-1]];
  }

  lemma AllCounted(g: Graph, adj: map<TaskId, seq<TaskId>>, inDegree: map<TaskId, int>, done: set<TaskId>, curr: TaskId)
    requires EdgeTables(g, adj) && curr in g && curr !in done && Counted(g, inDegree, done, multiset(adj[curr]))
    ensures Counted(g, inDegree, done + {curr}, multiset{})
  {
    hide Waiting;
    forall v | v in g ensures inDegree[v] == Waiting(g[v], done + {curr}) {
      WaitingAfter(g[v], done, curr);
      assert multiset(adj[curr])[v] == multiset(g[v])[curr];
    }
  }

  lemma AllApplied(g: Graph, adj: map<TaskId, seq<TaskId>>, depth: map<TaskId, int>, done: set<TaskId>, curr: TaskId)
    requires EdgeTables(g, adj) && curr in g && EdgesApplied(g, depth, done) && curr in depth
    requires forall j :: 0 <= j < |adj[curr]| ==> adj[curr][j] in depth && depth[curr] + 1 <= depth[adj[curr][j]]
    ensures EdgesApplied(g, depth, done + {curr})
  {
    forall v | Edge(g, curr, v) ensures v in depth && depth[curr] + 1 <= depth[v] {
      assert multiset(adj[curr])[v] == multiset(g[v])[curr];
      assert v in multiset(adj[curr]);
    }
  }

  lemma QueueEmpty(g: Graph, inDegree: map<TaskId, int>, depth: map<TaskId, int>, order: seq<TaskId>)
    requires Closed(g) && Outer(g, inDegree, depth, order, [])
    ensures |order| < |g.Keys| ==> !Acyclic(g)
    ensures |order| >= |g.Keys| ==> Settled(g, depth, g.Keys) && PathsBounded(g, MAX_DEPTH) && Acyclic(g)
    ensures Distinct(order) && Settled(g, depth, Elements(order)) && DepthsReached(g, depth)
  {
    hide LongestTo, Waiting, WaitsFor, HasRootPath;
    assert order + [] == order;
    if |order| < |g.Keys| {
      LeftoverTasksFormCycle(g, inDegree, order);
    } else {
      forall v | v in g ensures v in Elements(order) {
        if v !in order { DistinctFitsInSet(order, g.Keys - {v}); }
      }
      AllSettledBoundsPaths(g, depth);
    }
  }

  /** The inner loop over the dependents of a popped task; it stops early when a depth passes the limit. */
  method UpdateDependents(ghost g: Graph, adj: map<TaskId, seq<TaskId>>, inDegree0: map<TaskId, int>,
                          depth0: map<TaskId, int>, ghost order: seq<TaskId>, queue0: seq<TaskId>,
                          curr: TaskId)
    returns (inDegree: map<TaskId, int>, depth: map<TaskId, int>, queue: seq<TaskId>, overflow: Option<KahnResult>)
    requires curr in adj && Inner(g, adj, inDegree0, depth0, order, queue0, curr, 0)
    ensures overflow.None? ==> Inner(g, adj, inDegree, depth, order, queue, curr, |adj[curr]|)
    ensures overflow.Some? ==>
      overflow.value.TooDeepAtEdge? && overflow.value.found == MAX_DEPTH + 1
        && HasRootPath(g, overflow.value.id, MAX_DEPTH + 1)
  {
    hide Closed, Counted, Ready, Settled, EdgesApplied, Distinct, HasRootPath;
    inDegree, depth, queue := inDegree0, depth0, queue0;
    for k := 0 to |adj[curr]|
      invariant Inner(g, adj, inDegree, depth, order, queue, curr, k)
    {
      var nxt := adj[curr][k];
      EdgeIsLive(g, adj, inDegree, depth, order, queue, curr, k);
      var depth' := depth[nxt := Max(if nxt in depth then depth[nxt] else 1, depth[curr] + 1)];
      RaisedDepth(g, depth, depth', curr, nxt);
      if depth'[nxt] > MAX_DEPTH {
        overflow := Some(TooDeepAtEdge(nxt, depth'[nxt]));
        return;
      }
      var inDegree' := inDegree[nxt := inDegree[nxt] - 1];
      ApplyEdge(g, adj, inDegree, inDegree', depth, depth', order, queue, curr, k);
      inDegree, depth := inDegree', depth';
      if inDegree[nxt] == 0 {
        queue := queue + [nxt];
      }
    }
    overflow := None;
  }

  method KahnSort(ghost g: Graph, adj: map<TaskId, seq<TaskId>>, inDegreeAtStart: map<TaskId, int>, roots: seq<TaskId>)
    returns (r: KahnResult, ghost order: seq<TaskId>)
    requires Closed(g) && EdgeTables(g, adj)
    requires inDegreeAtStart.Keys == g.Keys && forall v :: v in g ==> inDegreeAtStart[v] == |g[v]|
    requires Distinct(roots) && forall v :: v in roots <==> IsRoot(g, v)
    ensures !r.TooDeepAtPop?
    ensures r.TooDeepAtEdge? ==> r.found == MAX_DEPTH + 1 && HasRootPath(g, r.id, r.found)
    ensures r.Sorted? ==> r.visited <= |g.Keys| && (r.visited < |g.Keys| <==> !Acyclic(g))
    ensures r.Sorted? ==> |order| == r.visited && Distinct(order) && Settled(g, r.depth, Elements(order))
    ensures r.Sorted? ==> DepthsReached(g, r.depth)
    ensures r.Sorted? && r.visited == |g.Keys| ==> Settled(g, r.depth, g.Keys) && PathsBounded(g, MAX_DEPTH)
  {
    hide Closed, Counted, Ready, Settled, EdgesApplied, Distinct, HasRootPath, Acyclic, PathsBounded;
    var inDegree := inDegreeAtStart;
    var depth: map<TaskId, int> := map v | v in roots :: 1;
    var queue := roots;
    var visited := 0;
    order := [];
    Start(g, inDegree, depth, roots);
    while queue != []
      invariant visited == |order| <= |g.Keys|
      invariant Outer(g, inDegree, depth, order, queue)
      decreases |g.Keys| - visited
    {
      var curr := queue[0];
      Pop(g, adj, inDegree, depth, order, queue);
      queue := queue[1..];
      order := order + [curr];
      visited := visited + 1;
      var currDepth := depth[curr];
      if currDepth > MAX_DEPTH {
        return TooDeepAtPop(curr, currDepth), order;
      }
      var overflow: Option<KahnResult>;
      inDegree, depth, queue, overflow := UpdateDependents(g, adj, inDegree, depth, order, queue, curr);
      if overflow.Some? {
        return overflow.value, order;
      }
      DependentsDone(g, adj, inDegree, depth, order, queue, curr);
    }
    QueueEmpty(g, inDegree, depth, order);
    r := Sorted(visited, depth);
  }

  function Max(a: int, b: int): int {
    if a >= b then a else b
  }

  // ---------------------------------------------------------------- the validator

  method CheckUnique(tasks: seq<Task>) returns (r: Result<set<TaskId>, DagError>)
    ensures r.Success? <==> UniqueIds(tasks)
    ensures r.Success? ==> forall id :: id in r.value <==> HasTask(tasks, id)
    ensures r.Failure? ==> r.error.DuplicateTask? && Duplicated(tasks, r.error.id)
  {
    var seen: set<TaskId> := {};
    for i := 0 to |tasks|
      invariant seen == set k | 0 <= k < i :: tasks[k].id
      invariant forall j, k :: 0 <= j < k < i ==> tasks[j].id != tasks[k].id
    {
      if tasks[i].id in seen {
        ghost var j :| 0 <= j < i && tasks[j].id == tasks[i].id;
        return Failure(DuplicateTask(tasks[i].id));
      }
      seen := seen + {tasks[i].id};
    }
    r := Success(seen);
  }

  method CheckDependencies(tasks: seq<Task>, ids: set<TaskId>) returns (r: Result<bool, DagError>)
    requires forall id :: id in ids <==> HasTask(tasks, id)
    ensures r.Success? <==> KnownDependencies(tasks) && NoSelfDependency(tasks)
    ensures r.Failure? ==> r.error.SelfDependency? || r.error.UnknownDependency?
    ensures r.Failure? && r.error.SelfDependency? ==>
      exists k :: 0 <= k < |tasks| && tasks[k].id == r.error.id && r.error.id in tasks[k].dependsOn
    ensures r.Failure? && r.error.UnknownDependency? ==> !HasTask(tasks, r.error.missing)
    ensures r.Failure? && r.error.UnknownDependency? ==>
      exists k :: 0 <= k < |tasks| && tasks[k].id == r.error.id && r.error.missing in tasks[k].dependsOn
  {
    for i := 0 to |tasks|
      invariant forall k, d :: 0 <= k < i && d in tasks[k].dependsOn ==> d in ids
      invariant forall k :: 0 <= k < i ==> tasks[k].id !in tasks[k].dependsOn
    {
      var deps := tasks[i].dependsOn;
      for j := 0 to |deps|
        invariant forall m :: 0 <= m < j ==> deps[m] in ids && deps[m] != tasks[i].id
      {
        assert deps[j] in tasks[i].dependsOn;
        if deps[j] == tasks[i].id {
          return Failure(SelfDependency(tasks[i].id));
        }
        if deps[j] !in ids {
          return Failure(UnknownDependency(tasks[i].id, deps[j]));
        }
      }
      assert forall d :: d in deps ==> d in ids;
    }
    assert NoSelfDependency(tasks);
    r := Success(true);
  }

  ghost predicate NoSelfDependency(tasks: seq<Task>) {
    forall k :: 0 <= k < |tasks| ==> tasks[k].id !in tasks[k].dependsOn
  }

  lemma SelfDependencyIsCycle(tasks: seq<Task>)
    requires UniqueIds(tasks) && KnownDependencies(tasks) && !NoSelfDependency(tasks)
    ensures !Acyclic(GraphOf(tasks))
  {
    var k :| 0 <= k < |tasks| && tasks[k].id in tasks[k].dependsOn;
    GraphLookup(tasks);
    assert IsCycle(GraphOf(tasks), [tasks[k].id, tasks[k].id]);
  }

  method Roots(tasks: seq<Task>, inDegree: map<TaskId, int>) returns (roots: seq<TaskId>)
    requires UniqueIds(tasks)
    requires forall k :: 0 <= k < |tasks| ==> tasks[k].id in inDegree && inDegree[tasks[k].id] == |tasks[k].dependsOn|
    ensures Distinct(roots) && |roots| == |RootIds(tasks)|
    ensures forall v :: v in roots <==> v in RootIds(tasks)
  {
    hide RootIdsTo, RootIds, UniqueIds;
    roots := [];
    RootEnds(tasks);
    for i := 0 to |tasks|
      invariant Distinct(roots) && |roots| == |RootIdsTo(tasks, i)|
      invariant forall v :: v in roots <==> v in RootIdsTo(tasks, i)
    {
      RootNext(tasks, i);
      if inDegree[tasks[i].id] == 0 {
        roots := roots + [tasks[i].id];
      }
    }
  }

  ghost function RootIdsTo(tasks: seq<Task>, i: nat): set<TaskId>
    requires i <= |tasks|
  {
    set k | 0 <= k < i && tasks[k].dependsOn == [] :: tasks[k].id
  }

  lemma RootEnds(tasks: seq<Task>)
    ensures RootIdsTo(tasks, 0) == {} && RootIdsTo(tasks, |tasks|) == RootIds(tasks)
  {
  }

  lemma RootNext(tasks: seq<Task>, i: nat)
    requires UniqueIds(tasks) && i < |tasks|
    ensures RootIdsTo(tasks, i + 1) == RootIdsTo(tasks, i) + (if tasks[i].dependsOn == [] then {tasks[i].id} else {})
    ensures tasks[i].id !in RootIdsTo(tasks, i)
  {
  }

  method Validate(plan: Plan) returns (r: Result<bool, DagError>)
    ensures r.Success? <==> WellFormed(plan)
    ensures r.Success? ==> r.value
    ensures r.Failure? ==> Justified(plan, r.error)
  {
    hide HasTask, UniqueIds, KnownDependencies, FanOut, FanOutsBounded, GraphOf, Acyclic, PathsBounded, HasRootPath,
      RootIds, NoSelfDependency;
    var tasks := plan.tasks;
    if tasks == [] {
      return Failure(EmptyPlan);
    }
    if |tasks| > MAX_TASKS {
      return Failure(TooManyTasks(|tasks|));
    }
    if plan.maxConcurrency > MAX_CONCURRENCY {
      return Failure(TooConcurrent(plan.maxConcurrency));
    }
    var ids := CheckUnique(tasks);
    if ids.Failure? {
      return Failure(ids.error);
    }
    var known := CheckDependencies(tasks, ids.value);
    if known.Failure? {
      if KnownDependencies(tasks) { SelfDependencyIsCycle(tasks); }
      return known;
    }
    r := ValidateGraph(tasks);
    assert r.Failure? ==> Justified(Plan(tasks, plan.maxConcurrency), r.error);
  }

  /** Checks 3 to 6, for task lists of any length whose references are sound. */
  method ValidateGraph(tasks: seq<Task>) returns (r: Result<bool, DagError>)
    requires UniqueIds(tasks) && KnownDependencies(tasks)
    ensures r.Success? <==>
      && FanOutsBounded(tasks) && |RootIds(tasks)| <= MAX_FAN_OUT
      && Acyclic(GraphOf(tasks)) && PathsBounded(GraphOf(tasks), MAX_DEPTH)
    ensures r.Success? ==> r.value
    ensures r.Failure? ==> forall c :: Justified(Plan(tasks, c), r.error)
  {
    hide HasTask, UniqueIds, KnownDependencies, FanOut, FanOutsBounded, Dependents, GraphOf, Acyclic, PathsBounded,
      HasRootPath, Closed, EdgeTables, Distinct, Settled, RootIds;
    var adj, inDegree := BuildEdges(tasks);
    var wide := CheckFanOut(tasks, adj, inDegree);
    if wide.Some? {
      return Failure(wide.value);
    }
    var roots := Roots(tasks, inDegree);
    if |roots| > MAX_FAN_OUT {
      return Failure(TooManyRoots(|roots|));
    }
    TablesMatchGraph(tasks, adj, inDegree, roots);
    var sorted, _ := KahnSort(GraphOf(tasks), adj, inDegree, roots);
    match sorted {
      case TooDeepAtPop(id, d) =>
        return Failure(PoppedTooDeep(id, d));
      case TooDeepAtEdge(id, d) =>
        RootPathBreaksBound(GraphOf(tasks), id, MAX_DEPTH);
        return Failure(TooDeep(id, d));
      case Sorted(visited, depth) =>
        if visited < |tasks| {
          return Failure(CycleDetected(|tasks|, visited));
        }
        var deepest := DeepestOf(depth);
        if deepest > MAX_DEPTH {
          return Failure(MaxDepthExceeded(deepest));
        }
        return Success(true);
    }
  }

  lemma RootPathBreaksBound(g: Graph, id: TaskId, n: nat)
    requires HasRootPath(g, id, n + 1)
    ensures !PathsBounded(g, n)
  {
    var p :| PathTo(g, p, id) && IsRoot(g, p[0]) && |p| == n + 1;
  }

  method CheckFanOut(tasks: seq<Task>, adj: map<TaskId, seq<TaskId>>, ghost inDegree: map<TaskId, int>)
    returns (r: Option<DagError>)
    requires Built(tasks, |tasks|, adj, inDegree)
    ensures r.None? <==> FanOutsBounded(tasks)
    ensures r.Some? ==>
      r.value.FanOutTooLarge? && HasTask(tasks, r.value.id)
      && r.value.fanOut == FanOut(tasks, r.value.id) > MAX_FAN_OUT
  {
    hide FanOut, Dependents;
    assert tasks[..|tasks|] == tasks;
    for i := 0 to |tasks|
      invariant forall k :: 0 <= k < i ==> FanOut(tasks, tasks[k].id) <= MAX_FAN_OUT
    {
      FanOutIsDependentCount(tasks, tasks[i].id);
      assert HasTask(tasks, tasks[i].id);
      if |adj[tasks[i].id]| > MAX_FAN_OUT {
        return Some(FanOutTooLarge(tasks[i].id, |adj[tasks[i].id]|));
      }
    }
    r := None;
  }

  lemma TablesMatchGraph(tasks: seq<Task>, adj: map<TaskId, seq<TaskId>>, inDegree: map<TaskId, int>,
                         roots: seq<TaskId>)
    requires UniqueIds(tasks) && KnownDependencies(tasks) && Built(tasks, |tasks|, adj, inDegree)
    requires forall v :: v in roots <==> v in RootIds(tasks)
    ensures var g := GraphOf(tasks);
      Closed(g) && EdgeTables(g, adj) && |g.Keys| == |tasks|
      && inDegree.Keys == g.Keys && forall v :: v in g ==> inDegree[v] == |g[v]|
    ensures forall v :: v in roots <==> IsRoot(GraphOf(tasks), v)
  {
    hide Dependents, GraphOf, EdgeTables;
    var g := GraphOf(tasks);
    GraphLookup(tasks);
    GraphSize(tasks);
    forall v | v in g ensures inDegree[v] == |g[v]| && forall u :: u in g[v] ==> u in g {
      var k :| 0 <= k < |tasks| && tasks[k].id == v;
      assert g[v] == tasks[k].dependsOn;
    }
    RootsMatchGraph(tasks, roots);
    EdgesMatchGraph(tasks, adj, inDegree);
  }

  lemma EdgesMatchGraph(tasks: seq<Task>, adj: map<TaskId, seq<TaskId>>, inDegree: map<TaskId, int>)
    requires UniqueIds(tasks) && Built(tasks, |tasks|, adj, inDegree)
    ensures EdgeTables(GraphOf(tasks), adj)
  {
    hide Dependents, GraphOf;
    var g := GraphOf(tasks);
    assert tasks[..|tasks|] == tasks;
    GraphLookup(tasks);
    forall u | u in adj
      ensures forall v :: v in adj[u] ==> v in g
      ensures forall v :: v in g ==> multiset(adj[u])[v] == multiset(g[v])[u]
    {
      DependentsMirrorPrerequisites(tasks, u);
      DependentsAreTasks(tasks, u);
      forall v | v in g ensures multiset(adj[u])[v] == multiset(g[v])[u] {
        var k :| 0 <= k < |tasks| && tasks[k].id == v;
      }
    }
  }

  lemma RootsMatchGraph(tasks: seq<Task>, roots: seq<TaskId>)
    requires UniqueIds(tasks) && forall v :: v in roots <==> v in RootIds(tasks)
    ensures forall v :: v in roots <==> IsRoot(GraphOf(tasks), v)
  {
    hide GraphOf;
    GraphLookup(tasks);
    forall v ensures v in RootIds(tasks) <==> IsRoot(GraphOf(tasks), v) {
      if IsRoot(GraphOf(tasks), v) {
        var k :| 0 <= k < |tasks| && tasks[k].id == v;
      }
    }
  }

  /** The largest recorded depth. */
  method DeepestOf(depth: map<TaskId, int>) returns (m: int)
    requires forall v :: v in depth ==> depth[v] >= 1
    ensures depth == map[] ==> m == 0
    ensures forall v :: v in depth ==> depth[v] <= m
    ensures depth != map[] ==> exists v :: v in depth && depth[v] == m
  {
    m := 0;
    var rest := depth.Keys;
    while rest != {}
      invariant rest <= depth.Keys
      invariant forall v :: v in depth.Keys - rest ==> depth[v] <= m
      invariant m == 0 || exists v :: v in depth && depth[v] == m
      invariant rest != depth.Keys ==> exists v :: v in depth && depth[v] == m
      decreases |rest|
    {
      var v :| v in rest;
      m := Max(m, depth[v]);
      rest := rest - {v};
    }
  }
}
