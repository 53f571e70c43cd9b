/** The fan-out limit as documented, by dependents, against the limit as checked, by mentions. */
module DagFanOut {
  import opened TaskGraph
  import opened DagValidator

  /** The tasks that wait for `id` directly, as the documentation of the limit counts them. */
  ghost function DependentTasks(tasks: seq<Task>, id: TaskId): set<TaskId> {
    set k | 0 <= k < |tasks| && id in tasks[k].dependsOn :: tasks[k].id
  }

  /** Mentions of `id` beyond the first in the list of each task. */
  ghost function Repeats(tasks: seq<Task>, id: TaskId): nat {
    if tasks == [] then 0
    else
      var mentions := multiset(tasks[|tasks|-1].dependsOn)[id];
      Repeats(tasks[..|tasks|-1], id) + if mentions > 0 then mentions - 1 else 0
  }

  ghost predicate MentionedOnce(tasks: seq<Task>, id: TaskId) {
    forall k :: 0 <= k < |tasks| ==> multiset(tasks[k].dependsOn)[id] <= 1
  }

  /** The limit is tested against the dependents plus the repeated mentions. */
  lemma {:induction false} FanOutSplits(tasks: seq<Task>, id: TaskId)
    requires UniqueIds(tasks)
    ensures FanOut(tasks, id) == |DependentTasks(tasks, id)| + Repeats(tasks, id)
  {
    if tasks == [] {
      assert DependentTasks(tasks, id) == {};
    } else {
      var init, last := tasks[..|tasks|-1], tasks[|tasks|-1];
      FanOutSplits(init, id);
      LastDependent(tasks, id);
      assert id in last.dependsOn <==> multiset(last.dependsOn)[id] > 0;
    }
  }

  lemma LastDependent(tasks: seq<Task>, id: TaskId)
    requires UniqueIds(tasks) && tasks != []
    ensures var init, last := tasks[..|tasks|-1], tasks[|tasks|-1];
      && DependentTasks(tasks, id) == DependentTasks(init, id) + (if id in last.dependsOn then {last.id} else {})
      && last.id !in DependentTasks(init, id)
  {
    var n := |tasks| - 1;
    var init, last := tasks[..n], tasks[n];
    forall v ensures v in DependentTasks(tasks, id) <==>
      v in DependentTasks(init, id) || (id in last.dependsOn && v == last.id)
    {
      if v in DependentTasks(init, id) {
        var k :| 0 <= k < n && id in init[k].dependsOn && init[k].id == v;
        assert tasks[k] == init[k];
      }
      if v in DependentTasks(tasks, id) {
        var k :| 0 <= k < |tasks| && id in tasks[k].dependsOn && tasks[k].id == v;
        if k < n { assert init[k] == tasks[k]; }
      }
    }
    forall k | 0 <= k < n ensures init[k].id != last.id {
      assert init[k] == tasks[k];
    }
  }

  lemma {:induction false} NoRepeatsIff(tasks: seq<Task>, id: TaskId)
    ensures Repeats(tasks, id) == 0 <==> MentionedOnce(tasks, id)
  {
    if tasks != [] {
      NoRepeatsIff(tasks[..|tasks|-1], id);
    }
  }

  /** Mentions and dependents agree exactly when no task lists the prerequisite more than once. */
  lemma FanOutIsDependentsIff(tasks: seq<Task>, id: TaskId)
    requires UniqueIds(tasks)
    ensures FanOut(tasks, id) == |DependentTasks(tasks, id)| <==> MentionedOnce(tasks, id)
  {
    FanOutSplits(tasks, id);
    NoRepeatsIff(tasks, id);
  }

  // ---------------------------------------------------------------- the validator's answer

  ghost predicate DependentsBounded(tasks: seq<Task>) {
    forall k :: 0 <= k < |tasks| ==> |DependentTasks(tasks, tasks[k].id)| <= MAX_FAN_OUT
  }

  /** What the documentation asks of a plan: the same limits, with fan-out by dependents. */
  ghost predicate WellFormedAsDocumented(plan: Plan) {
    && 0 < |plan.tasks| <= MAX_TASKS
    && plan.maxConcurrency <= MAX_CONCURRENCY
    && UniqueIds(plan.tasks)
    && KnownDependencies(plan.tasks)
    && DependentsBounded(plan.tasks)
    && |RootIds(plan.tasks)| <= MAX_FAN_OUT
    && Acyclic(GraphOf(plan.tasks))
    && PathsBounded(GraphOf(plan.tasks), MAX_DEPTH)
  }

  /** Some task is within the limit by its dependents, and over it once repeated mentions count. */
  ghost predicate OverByRepeats(tasks: seq<Task>) {
    exists k :: 0 <= k < |tasks| && var id := tasks[k].id;
      |DependentTasks(tasks, id)| <= MAX_FAN_OUT < |DependentTasks(tasks, id)| + Repeats(tasks, id)
  }

  /**
   * What is accepted is what the documentation accepts, less the plans that only repeated mentions take over the limit.
   */
  lemma AcceptedIffDocumented(plan: Plan)
    ensures WellFormed(plan) <==> WellFormedAsDocumented(plan) && !OverByRepeats(plan.tasks)
  {
    if UniqueIds(plan.tasks) {
      var tasks := plan.tasks;
      forall k | 0 <= k < |tasks| ensures FanOut(tasks, tasks[k].id)
        == |DependentTasks(tasks, tasks[k].id)| + Repeats(tasks, tasks[k].id)
      {
        FanOutSplits(tasks, tasks[k].id);
      }
      hide FanOut, DependentTasks, Repeats, GraphOf, RootIds, UniqueIds, KnownDependencies, Acyclic, PathsBounded;
    }
  }

  /** When no list repeats a prerequisite, the validator answers as documented. */
  lemma AnswerIsDocumented(plan: Plan)
    requires forall id :: MentionedOnce(plan.tasks, id)
    ensures WellFormed(plan) <==> WellFormedAsDocumented(plan)
  {
    AcceptedIffDocumented(plan);
    forall id ensures Repeats(plan.tasks, id) == 0 {
      NoRepeatsIff(plan.tasks, id);
    }
    hide WellFormed, WellFormedAsDocumented;
  }

  // ---------------------------------------------------------------- a plan on which they differ

  const A := TaskId("a")
  const B := TaskId("b")

  /** `b` lists `a` nine times: one dependent, nine mentions. */
  function NineMentions(): seq<Task> {
    [Task(A, []), Task(B, Repeat(A, 9))]
  }

  lemma NineMentionsParts()
    ensures A != B && NineMentions()[..1] == [Task(A, [])] && [Task(A, [])][..0] == []
    ensures multiset(Repeat(A, 9))[A] == 9 && multiset(Repeat(A, 9))[B] == 0
    ensures forall x :: x in Repeat(A, 9) <==> x == A
  {
    assert "a"[0] != "b"[0];
    RepeatCounts(A, 9);
    assert Repeat(A, 9)[0] == A;
  }

  lemma NineMentionsCounts()
    ensures var tasks := NineMentions();
      && DependentTasks(tasks, A) == {B} && DependentTasks(tasks, B) == {}
      && FanOut(tasks, A) == 9 && RootIds(tasks) == {A} && HasTask(tasks, A)
  {
    var tasks := NineMentions();
    NineMentionsParts();
    hide Repeat;
    assert tasks[0].id == A && tasks[1].id == B && tasks[1].dependsOn == Repeat(A, 9);
    assert A in tasks[1].dependsOn && B !in tasks[1].dependsOn;
    assert FanOut([Task(A, [])], A) == FanOut([], A) + multiset([])[A];
    assert FanOut(tasks, A) == FanOut(tasks[..1], A) + multiset(tasks[1].dependsOn)[A];
  }

  lemma NineMentionsShallow()
    ensures PathsBounded(GraphOf(NineMentions()), MAX_DEPTH) && Acyclic(GraphOf(NineMentions()))
  {
    NineMentionsParts();
    var g := GraphOf(NineMentions());
    assert GraphOf([Task(A, [])]) == map[A := []];
    assert g == map[A := [], B := Repeat(A, 9)];
    hide Repeat, GraphOf;
    forall u, v | Edge(g, u, v) ensures u == A && v == B {
      assert u in g[v];
    }
    forall p | IsPath(g, p) ensures |p| <= MAX_DEPTH {
      forall k | 1 <= k < |p| ensures p[k] == B {
        assert Edge(g, p[k-1], p[k]);
      }
      forall k | 0 <= k < |p| - 1 ensures p[k] == A {
        assert Edge(g, p[k], p[k+1]);
      }
      assert |p| >= 2 ==> p[1] == B;
    }
    BoundedPathsMeanAcyclic(g, MAX_DEPTH);
  }

  /** The documentation accepts this plan and the validator does not. */
  lemma NineMentionsRejected(concurrency: int)
    requires concurrency <= MAX_CONCURRENCY
    ensures WellFormedAsDocumented(Plan(NineMentions(), concurrency)) && !WellFormed(Plan(NineMentions(), concurrency))
    ensures |DependentTasks(NineMentions(), A)| == 1 && FanOut(NineMentions(), A) == 9
  {
    NineMentionsParts();
    NineMentionsCounts();
    NineMentionsShallow();
    var tasks := NineMentions();
    assert tasks[0].id == A && tasks[1].id == B;
    assert KnownDependencies(tasks) by {
      forall k, d | 0 <= k < |tasks| && d in tasks[k].dependsOn ensures HasTask(tasks, d) {
        assert d == A;
      }
    }
    hide DependentTasks, FanOut, RootIds, GraphOf, Acyclic, PathsBounded, KnownDependencies, HasTask, Repeat;
  }
}
