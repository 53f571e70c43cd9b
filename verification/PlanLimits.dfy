/** The limits of a plan in numbers, on the task list itself. */
module PlanLimits {
  import opened TaskGraph
  import opened DagValidator

  /** Each of five tasks, the first aside, waits for the one before it. They need not differ. */
  predicate FiveInARow(tasks: seq<Task>, a: nat, b: nat, c: nat, d: nat, e: nat) {
    && a < |tasks| && b < |tasks| && c < |tasks| && d < |tasks| && e < |tasks|
    && tasks[a].id in tasks[b].dependsOn && tasks[b].id in tasks[c].dependsOn
    && tasks[c].id in tasks[d].dependsOn && tasks[d].id in tasks[e].dependsOn
  }

  lemma FiveMakePath(tasks: seq<Task>, a: nat, b: nat, c: nat, d: nat, e: nat)
    requires UniqueIds(tasks) && FiveInARow(tasks, a, b, c, d, e)
    ensures !PathsBounded(GraphOf(tasks), 4)
  {
    GraphLookup(tasks);
    hide GraphOf, UniqueIds;
    var p := [tasks[a].id, tasks[b].id, tasks[c].id, tasks[d].id, tasks[e].id];
    assert IsPath(GraphOf(tasks), p);
  }

  lemma PathMakesFive(tasks: seq<Task>, p: seq<TaskId>) returns (a: nat, b: nat, c: nat, d: nat, e: nat)
    requires UniqueIds(tasks) && IsPath(GraphOf(tasks), p) && |p| > 4
    ensures FiveInARow(tasks, a, b, c, d, e)
  {
    GraphLookup(tasks);
    hide GraphOf, UniqueIds;
    a := IndexOfTask(tasks, p[0]);
    b := IndexOfTask(tasks, p[1]);
    c := IndexOfTask(tasks, p[2]);
    d := IndexOfTask(tasks, p[3]);
    e := IndexOfTask(tasks, p[4]);
    assert Edge(GraphOf(tasks), p[0], p[1]) && Edge(GraphOf(tasks), p[1], p[2]);
    assert Edge(GraphOf(tasks), p[2], p[3]) && Edge(GraphOf(tasks), p[3], p[4]);
  }

  lemma IndexOfTask(tasks: seq<Task>, id: TaskId) returns (k: nat)
    requires HasTask(tasks, id)
    ensures k < |tasks| && tasks[k].id == id
  {
    k :| 0 <= k < |tasks| && tasks[k].id == id;
  }

  /**
   * A plan is well formed when it has one to 20 tasks under distinct ids and a concurrency of at most 8, every
   * prerequisite is one of its tasks, no task is mentioned more than 8 times, at most 8 tasks have no prerequisite, and
   * no five tasks wait in a row, which excludes cycles as well.
   */
  lemma WellFormedInNumbers(plan: Plan)
    ensures WellFormed(plan) <==>
      && 1 <= |plan.tasks| <= 20 && plan.maxConcurrency <= 8
      && (forall i, j :: 0 <= i < j < |plan.tasks| ==> plan.tasks[i].id != plan.tasks[j].id)
      && (forall k, d :: 0 <= k < |plan.tasks| && d in plan.tasks[k].dependsOn ==> HasTask(plan.tasks, d))
      && (forall k :: 0 <= k < |plan.tasks| ==> FanOut(plan.tasks, plan.tasks[k].id) <= 8)
      && |RootIds(plan.tasks)| <= 8
      && !(exists a, b, c, d, e :: FiveInARow(plan.tasks, a, b, c, d, e))
  {
    var tasks := plan.tasks;
    if UniqueIds(tasks) {
      if a, b, c, d, e :| FiveInARow(tasks, a, b, c, d, e) {
        FiveMakePath(tasks, a, b, c, d, e);
      } else {
        forall p | IsPath(GraphOf(tasks), p) ensures |p| <= 4 {
          if |p| > 4 { var a, b, c, d, e := PathMakesFive(tasks, p); }
        }
        BoundedPathsMeanAcyclic(GraphOf(tasks), 4);
      }
    }
    hide GraphOf, FanOut, Acyclic, PathsBounded, HasTask, FiveInARow, RootIds;
  }
}
