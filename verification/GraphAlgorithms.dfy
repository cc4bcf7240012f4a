/** The graph algorithms as they run: counters, ready lists, colour sets and ranks updated in place. */
module GraphAlgorithms {
  import opened Contracts
  import opened Sorting
  import opened Graphs

  ghost predicate UniqueIds(tasks: seq<Task>) {
    forall i, j :: 0 <= i < j < |tasks| ==> tasks[i].id != tasks[j].id
  }

  /** `by_id`, keeping what the algorithms read. */
  function ById(tasks: seq<Task>): Graph
    requires UniqueIds(tasks)
  {
    map i | 0 <= i < |tasks| :: tasks[i].id := tasks[i].dependencies
  }

  /** Identifiers are unique and every dependency is a task, as `validate` has checked before. */
  ghost predicate WellFormed(tasks: seq<Task>) {
    UniqueIds(tasks) && Known(ById(tasks))
  }

  lemma ByIdAppend(tasks: seq<Task>, i: nat)
    requires UniqueIds(tasks) && i < |tasks|
    ensures UniqueIds(tasks[..i]) && UniqueIds(tasks[..i + 1])
    ensures tasks[i].id !in ById(tasks[..i])
    ensures ById(tasks[..i + 1]) == ById(tasks[..i])[tasks[i].id := tasks[i].dependencies]
  {
    ByIdExtends(tasks[..i], tasks[..i + 1], tasks[i]);
  }

  lemma ByIdExtends(front: seq<Task>, all: seq<Task>, last: Task)
    requires UniqueIds(front) && UniqueIds(all) && all == front + [last]
    ensures last.id !in ById(front)
    ensures ById(all) == ById(front)[last.id := last.dependencies]
  {
    forall t | t in ById(front)
      ensures t != last.id && t in ById(all)
    {
      var i :| 0 <= i < |front| && front[i].id == t;
      assert all[i] == front[i] && all[|front|] == last;
    }
    assert all[|front|].id in ById(all);
  }

  // ---------------------------------------------------------------- successors

  /** How often `child` appears among the successors of `t`: once per listing of `t` among its dependencies. */
  ghost predicate Inverts(g: Graph, children: map<TaskId, seq<TaskId>>) {
    && children.Keys == g.Keys
    && forall t, c :: t in g ==> multiset(children[t])[c] == if c in g then multiset(g[c])[t] else 0
  }

  /** The listings of the tasks seen so far. */
  ghost predicate Lists(seen: Graph, children: map<TaskId, seq<TaskId>>) {
    forall t, c :: t in children ==> multiset(children[t])[c] == if c in seen then multiset(seen[c])[t] else 0
  }

  /** The dictionary of empty lists. */
  method EmptyLists(tasks: seq<Task>) returns (result: map<TaskId, seq<TaskId>>)
    requires UniqueIds(tasks)
    ensures result.Keys == ById(tasks).Keys && Lists(map[], result)
  {
    result := map i | 0 <= i < |tasks| :: tasks[i].id := [];
  }

  method Successors(tasks: seq<Task>) returns (result: map<TaskId, seq<TaskId>>)
    requires WellFormed(tasks)
    ensures Inverts(ById(tasks), result) && forall t :: t in result ==> Rising(result[t])
  {
    ghost var g := ById(tasks);
    ghost var seen: Graph := map[];
    result := EmptyLists(tasks);
    assert tasks[..0] == [];
    for i := 0 to |tasks|
      invariant result.Keys == g.Keys
      invariant UniqueIds(tasks[..i]) && seen == ById(tasks[..i]) && Lists(seen, result)
    {
      ByIdAppend(tasks, i);
      TaskIsKnown(tasks, i);
      result := AppendTask(seen, tasks[i], result);
      seen := seen[tasks[i].id := tasks[i].dependencies];
    }
    assert tasks[..|tasks|] == tasks;
    result := SortChildren(g, result);
  }

  lemma TaskIsKnown(tasks: seq<Task>, i: nat)
    requires WellFormed(tasks) && i < |tasks|
    ensures forall d :: d in tasks[i].dependencies ==> d in ById(tasks)
  {
    var g := ById(tasks);
    assert tasks[i].id in g && g[tasks[i].id] == tasks[i].dependencies;
  }

  method SortChildren(ghost g: Graph, start: map<TaskId, seq<TaskId>>) returns (result: map<TaskId, seq<TaskId>>)
    requires start.Keys == g.Keys && Lists(g, start)
    ensures Inverts(g, result) && forall t :: t in result ==> Rising(result[t])
  {
    result := map t | t in start :: SortList(start[t]);
    SameElements(g, start, result);
    forall t | t in result
      ensures Rising(result[t])
    {
      SortRises(start[t]);
    }
  }

  lemma SameElements(g: Graph, start: map<TaskId, seq<TaskId>>, result: map<TaskId, seq<TaskId>>)
    requires start.Keys == g.Keys && result.Keys == g.Keys && Lists(g, start)
    requires forall t :: t in g ==> multiset(result[t]) == multiset(start[t])
    ensures Inverts(g, result)
  {
    forall t, c | t in g
      ensures multiset(result[t])[c] == if c in g then multiset(g[c])[t] else 0
    {
      assert t in start && t in result;
      var sorted, listed := result[t], start[t];
      assert multiset(sorted) == multiset(listed);
      SameCount(multiset(sorted), multiset(listed), c);
      assert multiset(start[t])[c] == if c in g then multiset(g[c])[t] else 0;
    }
  }

  lemma SameCount(a: multiset<TaskId>, b: multiset<TaskId>, c: TaskId)
    requires a == b
    ensures a[c] == b[c]
  {
  }

  method AppendTask(ghost seen: Graph, task: Task, start: map<TaskId, seq<TaskId>>)
    returns (result: map<TaskId, seq<TaskId>>)
    requires Lists(seen, start) && task.id !in seen && forall d :: d in task.dependencies ==> d in start
    ensures result.Keys == start.Keys && Lists(seen[task.id := task.dependencies], result)
  {
    result := start;
    var deps := task.dependencies;
    for j := 0 to |deps|
      invariant result.Keys == start.Keys
      invariant Lists(seen[task.id := deps[..j]], result)
    {
      var d := deps[j];
      assert d in deps;
      ListsStep(seen, task.id, deps, j, result);
      result := result[d := result[d] + [task.id]];
    }
    assert deps[..|deps|] == deps;
  }

  lemma ListsStep(seen: Graph, id: TaskId, deps: seq<TaskId>, j: nat, children: map<TaskId, seq<TaskId>>)
    requires j < |deps| && deps[j] in children && Lists(seen[id := deps[..j]], children)
    ensures Lists(seen[id := deps[..j + 1]], children[deps[j] := children[deps[j]] + [id]])
  {
    assert deps[..j + 1] == deps[..j] + [deps[j]];
    assert multiset(deps[..j + 1]) == multiset(deps[..j]) + multiset{deps[j]};
    assert multiset(children[deps[j]] + [id]) == multiset(children[deps[j]]) + multiset{id};
    var before, after := seen[id := deps[..j]], seen[id := deps[..j + 1]];
    var longer := children[deps[j] := children[deps[j]] + [id]];
    forall t, c | t in longer
      ensures multiset(longer[t])[c] == if c in after then multiset(after[c])[t] else 0
    {
      assert multiset(children[t])[c] == if c in before then multiset(before[c])[t] else 0;
      if c != id {
        assert c in after <==> c in before;
        assert c in after ==> after[c] == before[c];
      }
    }
  }

  // ---------------------------------------------------------------- in-degrees

  /** How many listed dependencies are not done. */
  ghost function Pending(deps: seq<TaskId>, done: set<TaskId>): nat {
    if deps == [] then 0 else
    Pending(deps[..|deps| - 1], done) + if deps[|deps| - 1] in done then 0 else 1
  }

  lemma {:induction false} PendingIsZero(deps: seq<TaskId>, done: set<TaskId>)
    ensures Pending(deps, done) == 0 <==> forall d :: d in deps ==> d in done
  {
    if deps != [] {
      var front, last := deps[..|deps| - 1], deps[|deps| - 1];
      PendingIsZero(front, done);
      assert deps == front + [last];
    }
  }

  lemma {:induction false} PendingOfNothing(deps: seq<TaskId>)
    ensures Pending(deps, {}) == |deps|
  {
    if deps != [] {
      PendingOfNothing(deps[..|deps| - 1]);
    }
  }

  lemma {:induction false} PendingDrops(deps: seq<TaskId>, done: set<TaskId>, t: TaskId)
    requires t !in done
    ensures Pending(deps, done) == Pending(deps, done + {t}) + multiset(deps)[t]
  {
    if deps != [] {
      var front, last := deps[..|deps| - 1], deps[|deps| - 1];
      PendingDrops(front, done, t);
      assert deps == front + [last];
    }
  }

  // ---------------------------------------------------------------- topological order

  /** The counters say how many dependencies are pending, and the ready list is sorted. */
  ghost predicate Counts(g: Graph, done: set<TaskId>, indegree: map<TaskId, int>, ready: seq<TaskId>) {
    && indegree.Keys == g.Keys
    && (forall t :: t in g ==> indegree[t] == Pending(g[t], done))
    && ready == Sorted(Ready(g, done))
  }

  ghost predicate Closed(g: Graph, done: set<TaskId>) {
    done <= g.Keys && forall t, d :: t in done && d in g[t] ==> d in done
  }

  /** While the children of a finished task are visited: some decrements are still to come. */
  ghost predicate Releasing(g: Graph, done: set<TaskId>, coming: seq<TaskId>, indegree: map<TaskId, int>,
      ready: seq<TaskId>) {
    && indegree.Keys == g.Keys
    && (forall t :: t in g ==> indegree[t] == Pending(g[t], done) + multiset(coming)[t])
    && Ascending(ready)
    && forall t :: t in ready <==> t in g && t !in done && indegree[t] == 0
  }

  lemma ReleaseStarts(g: Graph, done: set<TaskId>, indegree: map<TaskId, int>, ready: seq<TaskId>,
      children: map<TaskId, seq<TaskId>>)
    requires Counts(g, done, indegree, ready) && Inverts(g, children) && ready != []
    ensures ready[0] == Least(Ready(g, done)) && ready[0] in g && ready[0] !in done
    ensures Releasing(g, done + {ready[0]}, children[ready[0]], indegree, ready[1..])
  {
    var t := ready[0];
    assert t in ready && Least(Ready(g, done)) in ready;
    forall c | c in g
      ensures indegree[c] == Pending(g[c], done + {t}) + multiset(children[t])[c]
    {
      PendingDrops(g[c], done, t);
    }
    forall c
      ensures c in ready[1..] <==> c in g && c !in done + {t} && indegree[c] == 0
    {
      if c in g { PendingIsZero(g[c], done); }
      if c in ready && c != t {
        var i :| 0 <= i < |ready| && ready[i] == c;
        assert ready[1..][i - 1] == c;
      }
      if c in ready[1..] {
        var i :| 0 <= i < |ready[1..]| && ready[1..][i] == c;
        assert ready[i + 1] == c && ready[0] < ready[i + 1];
      }
    }
  }

  lemma ReleaseEnds(g: Graph, done: set<TaskId>, indegree: map<TaskId, int>, ready: seq<TaskId>)
    requires Releasing(g, done, [], indegree, ready)
    ensures Counts(g, done, indegree, ready)
  {
    forall t
      ensures t in ready <==> t in Ready(g, done)
    {
      if t in g { PendingIsZero(g[t], done); }
    }
    AscendingIsSorted(ready, Ready(g, done));
  }

  /** One decrement; a child that reaches zero joins the ready list, which is sorted again. */
  method ReleaseChild(ghost g: Graph, ghost done: set<TaskId>, coming: seq<TaskId>, degrees: map<TaskId, int>,
      start: seq<TaskId>)
    returns (indegree: map<TaskId, int>, ready: seq<TaskId>)
    requires coming != [] && coming[0] in g && Releasing(g, done, coming, degrees, start)
    requires coming[0] !in done
    ensures Releasing(g, done, coming[1..], indegree, ready)
  {
    var child := coming[0];
    assert coming == [child] + coming[1..];
    assert multiset(coming)[child] == multiset(coming[1..])[child] + 1;
    indegree, ready := degrees[child := degrees[child] - 1], start;
    if indegree[child] == 0 {
      ready := Sorted(Elements(ready + [child]));
    }
  }

  /** The loop over the successors of a finished task. */
  method ReleaseAll(ghost g: Graph, ghost done: set<TaskId>, kids: seq<TaskId>, degrees: map<TaskId, int>,
      start: seq<TaskId>)
    returns (indegree: map<TaskId, int>, ready: seq<TaskId>)
    requires Releasing(g, done, kids, degrees, start)
    requires forall c :: c in kids ==> c in g && c !in done
    ensures Counts(g, done, indegree, ready)
  {
    indegree, ready := degrees, start;
    for i := 0 to |kids|
      invariant Releasing(g, done, kids[i..], indegree, ready)
    {
      assert kids[i..][0] == kids[i] && kids[i..][1..] == kids[i + 1..] && kids[i] in kids;
      indegree, ready := ReleaseChild(g, done, kids[i..], indegree, ready);
    }
    assert kids[|kids|..] == [];
    ReleaseEnds(g, done, indegree, ready);
  }

  lemma ChildrenAreOpen(g: Graph, done: set<TaskId>, t: TaskId, children: map<TaskId, seq<TaskId>>)
    requires Closed(g, done) && Inverts(g, children) && t in Ready(g, done)
    ensures Closed(g, done + {t})
    ensures forall c :: c in children[t] ==> c in g && c !in done + {t}
  {
    forall c | c in children[t]
      ensures c in g && c !in done + {t}
    {
      assert multiset(children[t])[c] > 0;
      assert t in multiset(g[c]);
    }
  }

  /** What `pop(0)` begins: the least ready task is finished and its successors released. */
  method FinishTask(ghost g: Graph, ghost done: set<TaskId>, children: map<TaskId, seq<TaskId>>,
      degrees: map<TaskId, int>, start: seq<TaskId>)
    returns (t: TaskId, indegree: map<TaskId, int>, ready: seq<TaskId>)
    requires Closed(g, done) && Inverts(g, children) && Counts(g, done, degrees, start) && start != []
    ensures Kahn(g, done) == [t] + Kahn(g, done + {t}) && |g.Keys - (done + {t})| < |g.Keys - done|
    ensures Closed(g, done + {t}) && Counts(g, done + {t}, indegree, ready)
  {
    t := start[0];
    assert t in start;
    ReleaseStarts(g, done, degrees, start, children);
    ChildrenAreOpen(g, done, t, children);
    KahnUnfolds(g, done);
    indegree, ready := ReleaseAll(g, done + {t}, children[t], degrees, start[1..]);
  }

  lemma StartCounts(g: Graph, indegree: map<TaskId, int>, zero: set<TaskId>)
    requires indegree.Keys == g.Keys && forall t :: t in g ==> indegree[t] == |g[t]|
    requires forall t :: t in zero <==> t in g && indegree[t] == 0
    ensures Counts(g, {}, indegree, Sorted(zero))
  {
    forall t | t in g
      ensures indegree[t] == Pending(g[t], {}) && (t in Ready(g, {}) <==> indegree[t] == 0)
    {
      PendingOfNothing(g[t]);
      PendingIsZero(g[t], {});
    }
    assert zero == Ready(g, {});
  }

  lemma SortedIsEmpty(s: set<nat>)
    ensures Sorted(s) == [] ==> s == {}
  {
    if s != {} {
      assert Least(s) in Sorted(s);
    }
  }

  lemma NothingReady(g: Graph, done: set<TaskId>, indegree: map<TaskId, int>)
    requires Counts(g, done, indegree, [])
    ensures Kahn(g, done) == []
  {
    SortedIsEmpty(Ready(g, done));
  }

  /** The counters at the start. */
  method CountDependencies(g: Graph) returns (indegree: map<TaskId, int>, ready: seq<TaskId>)
    ensures Counts(g, {}, indegree, ready)
  {
    indegree := map t | t in g :: |g[t]|;
    var zero := set t | t in g && indegree[t] == 0;
    ready := Sorted(zero);
    StartCounts(g, indegree, zero);
  }

  ghost predicate Continues(whole: seq<TaskId>, order: seq<TaskId>, rest: seq<TaskId>) {
    whole == order + rest
  }

  lemma MoveHead(whole: seq<TaskId>, order: seq<TaskId>, t: TaskId, rest: seq<TaskId>)
    requires Continues(whole, order, [t] + rest)
    ensures Continues(whole, order + [t], rest)
  {
    assert order + ([t] + rest) == (order + [t]) + rest;
  }

  lemma WholeContinues(whole: seq<TaskId>)
    ensures Continues(whole, [], whole)
  {
    assert [] + whole == whole;
  }

  /** Between two rounds of the main loop: the counters are right and the order goes on. */
  ghost predicate Midway(g: Graph, whole: seq<TaskId>, order: seq<TaskId>, finished: set<TaskId>,
      indegree: map<TaskId, int>, ready: seq<TaskId>) {
    Closed(g, finished) && Counts(g, finished, indegree, ready) && Continues(whole, order, Kahn(g, finished))
  }

  lemma MidwayEnds(g: Graph, whole: seq<TaskId>, order: seq<TaskId>, finished: set<TaskId>, indegree: map<TaskId, int>)
    requires Midway(g, whole, order, finished, indegree, [])
    ensures order == whole
  {
    NothingReady(g, finished, indegree);
  }

  /** One round of the main loop. */
  method DrainOne(ghost g: Graph, children: map<TaskId, seq<TaskId>>, ghost whole: seq<TaskId>, order: seq<TaskId>,
    ghost finished: set<TaskId>, degrees: map<TaskId, int>, start: seq<TaskId>)
    returns (t: TaskId, indegree: map<TaskId, int>, ready: seq<TaskId>)
    requires Inverts(g, children) && Midway(g, whole, order, finished, degrees, start) && start != []
    ensures Midway(g, whole, order + [t], finished + {t}, indegree, ready)
    ensures |g.Keys - (finished + {t})| < |g.Keys - finished|
  {
    t, indegree, ready := FinishTask(g, finished, children, degrees, start);
    MoveHead(whole, order, t, Kahn(g, finished + {t}));
  }

  /** The main loop: finish ready tasks until none is left. */
  method Drain(g: Graph, children: map<TaskId, seq<TaskId>>, ghost whole: seq<TaskId>) returns (order: seq<TaskId>)
    requires Inverts(g, children) && whole == Kahn(g, {})
    ensures order == whole
  {
    order := [];
    var indegree, ready := CountDependencies(g);
    ghost var finished: set<TaskId> := {};
    WholeContinues(whole);
    while ready != []
      invariant Midway(g, whole, order, finished, indegree, ready)
      decreases |g.Keys - finished|
    {
      var t;
      t, indegree, ready := DrainOne(g, children, whole, order, finished, indegree, ready);
      order := order + [t];
      finished := finished + {t};
    }
    MidwayEnds(g, whole, order, finished, indegree);
  }

  method TopologicalOrder(tasks: seq<Task>) returns (order: Option<seq<TaskId>>)
    requires WellFormed(tasks)
    ensures order == if |Kahn(ById(tasks), {})| == |ById(tasks)| then Some(Kahn(ById(tasks), {})) else None
  {
    var g := ById(tasks);
    var children := Successors(tasks);
    var done := Drain(g, children, Kahn(g, {}));
    if |done| != |g| {
      return None;
    }
    order := Some(done);
  }

  /** The order is least among all, and it is missing exactly when the graph has a cycle. */
  lemma OrderIsLeastOrCyclic(tasks: seq<Task>)
    requires WellFormed(tasks)
    ensures var g := ById(tasks);
      && (|Kahn(g, {})| == |g| <==> Acyclic(g))
      && (Acyclic(g) ==> Ordering(g, Kahn(g, {})))
      && forall rival :: Ordering(g, rival) ==> LexLeq(Kahn(g, {}), rival)
  {
    var g := ById(tasks);
    KahnCompletesIffAcyclic(g);
    KahnOfFullLength(g);
    forall rival | Ordering(g, rival)
      ensures LexLeq(Kahn(g, {}), rival)
    {
      KahnIsLeast(g, rival);
    }
  }

  // ---------------------------------------------------------------- the depth-first check

  /** The colours of the depth-first search; `order` lists the finished tasks as they finish. */
  class DepthFirst {
    var visiting: set<TaskId>
    var visited: set<TaskId>
    ghost var order: seq<TaskId>

    constructor ()
      ensures visiting == {} && visited == {} && order == []
    {
      visiting, visited, order := {}, {}, [];
    }

    /** The finished tasks form an order that respects the dependencies. */
    ghost predicate Valid(g: Graph)
      reads this
    {
      && Distinct(order) && Respects(g, order) && Elements(order) == visited
      && visiting !! visited && visiting <= g.Keys
    }

    /** The tasks being visited are those of the current chain, which leads to `t`. */
    ghost predicate Leads(g: Graph, stack: seq<TaskId>, t: TaskId)
      reads this
    {
      Elements(stack) == visiting && Chain(g, stack + [t])
    }

    /** Visit a task; `false` stands for the error raised on a cycle. */
    method Visit(g: Graph, t: TaskId, ghost stack: seq<TaskId>) returns (ok: bool)
      requires Known(g) && Valid(g) && t in g && Leads(g, stack, t)
      modifies this
      ensures ok ==> Valid(g) && visiting == old(visiting) && old(visited) + {t} <= visited
      ensures !ok ==> !Acyclic(g)
      decreases |g.Keys - visiting|, 0
    {
      if t in visiting {
        CycleOnStack(g, stack, t);
        return false;
      }
      if t in visited {
        return true;
      }
      ghost var before := visiting;
      visiting := visiting + {t};
      assert g.Keys - visiting == (g.Keys - before) - {t};
      assert Elements(stack + [t]) == visiting;
      ok := VisitDependencies(g, t, stack + [t]);
      if ok {
        Finish(g, t);
      }
    }

    /** The loop over the dependencies of the task on top of the stack. */
    method VisitDependencies(g: Graph, t: TaskId, ghost stack: seq<TaskId>) returns (ok: bool)
      requires Known(g) && Valid(g) && t in g && Elements(stack) == visiting && Chain(g, stack)
      requires stack[|stack| - 1] == t
      modifies this
      ensures ok ==>
        && Valid(g) && visiting == old(visiting) && old(visited) <= visited
        && forall d :: d in g[t] ==> d in visited
      ensures !ok ==> !Acyclic(g)
      decreases |g.Keys - visiting|, 1
    {
      var deps := g[t];
      for i := 0 to |deps|
        invariant Valid(g) && visiting == old(visiting) && old(visited) <= visited
        invariant forall d :: d in deps[..i] ==> d in visited
      {
        assert deps[i] in g[t];
        assert deps[..i + 1] == deps[..i] + [deps[i]];
        ChainGrows(g, stack, deps[i]);
        ok := Visit(g, deps[i], stack);
        if !ok {
          return;
        }
      }
      assert deps[..|deps|] == deps;
      ok := true;
    }

    /** The task leaves the stack and is visited. */
    method Finish(g: Graph, t: TaskId)
      requires Valid(g) && t in visiting && t in g && forall d :: d in g[t] ==> d in visited
      modifies this
      ensures Valid(g) && visiting == old(visiting) - {t} && visited == old(visited) + {t}
    {
      visiting := visiting - {t};
      visited := visited + {t};
      FinishedRespects(g, order, t);
      order := order + [t];
    }
  }

  lemma ChainGrows(g: Graph, stack: seq<TaskId>, d: TaskId)
    requires Chain(g, stack) && d in g && d in g[stack[|stack| - 1]]
    ensures Chain(g, stack + [d])
  {
  }

  lemma CycleOnStack(g: Graph, stack: seq<TaskId>, t: TaskId)
    requires Chain(g, stack + [t]) && t in Elements(stack)
    ensures !Acyclic(g)
  {
    var p := stack + [t];
    var i :| 0 <= i < |stack| && stack[i] == t;
    var cycle := p[i..];
    forall a, b | 0 <= a && b == a + 1 && b < |cycle|
      ensures cycle[b] in g[cycle[a]]
    {
      assert cycle[a] == p[i + a] && cycle[b] == p[(i + a) + 1];
    }
    assert Cycle(g, cycle);
  }

  lemma FinishedRespects(g: Graph, order: seq<TaskId>, t: TaskId)
    requires Distinct(order) && Respects(g, order) && t in g && t !in Elements(order)
    requires forall d :: d in g[t] ==> d in Elements(order)
    ensures Distinct(order + [t]) && Respects(g, order + [t]) && Elements(order + [t]) == Elements(order) + {t}
  {
    var longer := order + [t];
    forall i | 0 <= i < |longer|
      ensures longer[i] in g && forall d :: d in g[longer[i]] ==> d in longer[..i]
    {
      if i < |order| {
        assert longer[..i] == order[..i];
      } else {
        assert longer[..i] == order;
      }
    }
  }

  lemma FinishedOrders(g: Graph, order: seq<TaskId>)
    requires Distinct(order) && Respects(g, order) && g.Keys <= Elements(order)
    ensures Acyclic(g)
  {
    forall t | t in order
      ensures t in g
    {
      var i :| 0 <= i < |order| && order[i] == t;
    }
    OrderedIsAcyclic(g, order);
  }

  /** The loop over the sorted tasks. */
  method VisitAll(g: Graph, ids: seq<TaskId>, search: DepthFirst) returns (ok: bool)
    requires Known(g) && (forall t :: t in ids ==> t in g) && search.Valid(g) && search.visiting == {}
    modifies search
    ensures ok ==> search.Valid(g) && forall t :: t in ids ==> t in search.visited
    ensures !ok ==> !Acyclic(g)
  {
    for i := 0 to |ids|
      invariant search.Valid(g) && search.visiting == {}
      invariant forall t :: t in ids[..i] ==> t in search.visited
    {
      assert ids[i] in ids;
      assert ids[..i + 1] == ids[..i] + [ids[i]];
      EmptyStackLeads(g, ids[i]);
      ok := search.Visit(g, ids[i], []);
      if !ok {
        return;
      }
    }
    assert ids[..|ids|] == ids;
    ok := true;
  }

  lemma EmptyStackLeads(g: Graph, t: TaskId)
    requires t in g
    ensures Elements([]) == {} && Chain(g, [] + [t])
  {
  }

  /** `_validate_acyclic` raises exactly when there is a cycle. */
  method ValidateAcyclic(tasks: seq<Task>) returns (ok: bool)
    requires WellFormed(tasks)
    ensures ok <==> Acyclic(ById(tasks))
  {
    var g := ById(tasks);
    var search := new DepthFirst();
    ok := VisitAll(g, Sorted(g.Keys), search);
    if ok {
      FinishedOrders(g, search.order);
    }
  }

  // ---------------------------------------------------------------- upward ranks

  /** The largest rank of the successors, zero without any. */
  method LargestRank(kids: seq<TaskId>, ranks: map<TaskId, nat>) returns (best: nat)
    requires forall c :: c in kids ==> c in ranks
    ensures forall c :: c in kids ==> ranks[c] <= best
    ensures best == 0 || exists c :: c in kids && ranks[c] == best
  {
    best := 0;
    for i := 0 to |kids|
      invariant forall c :: c in kids[..i] ==> ranks[c] <= best
      invariant best == 0 || exists c :: c in kids && ranks[c] == best
    {
      assert kids[..i + 1] == kids[..i] + [kids[i]] && kids[i] in kids;
      if ranks[kids[i]] > best {
        best := ranks[kids[i]];
      }
    }
    assert kids[..|kids|] == kids;
  }

  /** Every entry is the largest total over the downstream paths of its task. */
  ghost predicate Exact(g: Graph, p95: map<TaskId, nat>, ranks: map<TaskId, nat>)
    requires g.Keys <= p95.Keys
  {
    forall t :: t in ranks ==> LongestFrom(g, p95, t, ranks[t])
  }

  /** `upward_ranks`: each rank is the largest total p95 over the downstream paths; a cyclic graph raises. */
  method UpwardRanks(tasks: seq<Task>, p95: map<TaskId, nat>) returns (result: Option<map<TaskId, nat>>)
    requires WellFormed(tasks) && ById(tasks).Keys <= p95.Keys
    ensures result.Some? <==> Acyclic(ById(tasks))
    ensures result.Some? ==> result.value.Keys == ById(tasks).Keys && Exact(ById(tasks), p95, result.value)
  {
    OrderIsLeastOrCyclic(tasks);
    var children := Successors(tasks);
    var order := TopologicalOrder(tasks);
    if order.None? {
      return None;
    }
    var ranks := RankBackwards(ById(tasks), p95, order.value, children);
    result := Some(ranks);
  }

  /** The loop over the reversed order. */
  method RankBackwards(ghost g: Graph, p95: map<TaskId, nat>, order: seq<TaskId>, children: map<TaskId, seq<TaskId>>)
    returns (ranks: map<TaskId, nat>)
    requires g.Keys <= p95.Keys && Ordering(g, order) && Inverts(g, children)
    ensures ranks.Keys == g.Keys && Exact(g, p95, ranks)
  {
    ranks := map[];
    var i := |order|;
    while i > 0
      invariant 0 <= i <= |order|
      invariant ranks.Keys == Elements(order[i..])
      invariant Exact(g, p95, ranks)
    {
      i := i - 1;
      ranks := RankOne(g, p95, order, i, children, ranks);
    }
    assert order[0..] == order;
  }

  /** One round: the task at position `i` after all its successors. */
  method RankOne(ghost g: Graph, p95: map<TaskId, nat>, order: seq<TaskId>, i: nat, children: map<TaskId,
      seq<TaskId>>, start: map<TaskId, nat>)
    returns (ranks: map<TaskId, nat>)
    requires i < |order| && g.Keys <= p95.Keys && Ordering(g, order) && Inverts(g, children)
    requires start.Keys == Elements(order[i + 1..]) && Exact(g, p95, start)
    ensures ranks.Keys == Elements(order[i..]) && Exact(g, p95, ranks)
  {
    var t := order[i];
    SuccessorsFollow(g, order, i, children);
    var best := LargestRank(children[t], start);
    ranks := start[t := p95[t] + best];
    RankNext(g, p95, t, start, best, ranks);
    DropOne(order, i);
  }

  lemma DropOne(order: seq<TaskId>, i: nat)
    requires i < |order|
    ensures Elements(order[i..]) == {order[i]} + Elements(order[i + 1..])
  {
    assert order[i..] == [order[i]] + order[i + 1..];
    ElementsCons(order[i], order[i + 1..]);
  }

  /** The successors of a task come after it. */
  lemma SuccessorsFollow(g: Graph, order: seq<TaskId>, i: nat, children: map<TaskId, seq<TaskId>>)
    requires i < |order| && Ordering(g, order) && Inverts(g, children)
    ensures order[i] in g
    ensures forall c :: c in children[order[i]] <==> c in g && order[i] in g[c]
    ensures forall c :: c in g && order[i] in g[c] ==> c in Elements(order[i + 1..])
  {
    var t := order[i];
    forall c
      ensures c in children[t] <==> c in g && t in g[c]
    {
      assert c in children[t] <==> multiset(children[t])[c] > 0;
      if c in g { assert t in g[c] <==> multiset(g[c])[t] > 0; }
    }
    forall c | c in g && t in g[c]
      ensures c in order[i + 1..]
    {
      SuccessorFollows(g, order, i, c);
    }
  }

  lemma SuccessorFollows(g: Graph, order: seq<TaskId>, i: nat, c: TaskId)
    requires i < |order| && Ordering(g, order) && c in g && order[i] in g[c]
    ensures c in order[i + 1..]
  {
    assert c in Elements(order);
    var k :| 0 <= k < |order| && order[k] == c;
    var j :| 0 <= j < |order[..k]| && order[..k][j] == order[i];
    assert order[j] == order[i];
    assert order[i + 1..][k - (i + 1)] == c;
  }

  lemma RankNext(g: Graph, p95: map<TaskId, nat>, t: TaskId, ranks: map<TaskId, nat>, best: nat, next: map<TaskId, nat>)
    requires g.Keys <= p95.Keys && Exact(g, p95, ranks) && t in g
    requires forall c :: c in g && t in g[c] ==> c in ranks && ranks[c] <= best
    requires best == 0 || exists c :: c in g && t in g[c] && ranks[c] == best
    requires next == ranks[t := p95[t] + best]
    ensures Exact(g, p95, next)
  {
    RankStep(g, p95, t, ranks, best);
  }
}
