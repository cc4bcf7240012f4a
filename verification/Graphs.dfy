/** Dependency graphs: orders, cycles and downstream paths. */
module Graphs {
  import opened Contracts
  import opened Sorting

  /** The dependencies of each task; a dependency may be listed twice. */
  type Graph = map<TaskId, seq<TaskId>>

  ghost predicate Known(g: Graph) {
    forall t, d :: t in g && d in g[t] ==> d in g
  }

  // ---------------------------------------------------------------- orders

  /** Every task comes after its dependencies. */
  ghost predicate Respects(g: Graph, order: seq<TaskId>) {
    forall i :: 0 <= i < |order| ==> order[i] in g && forall d :: d in g[order[i]] ==> d in order[..i]
  }

  /** A permutation of the tasks that respects the dependencies. */
  ghost predicate Ordering(g: Graph, order: seq<TaskId>) {
    Distinct(order) && Respects(g, order) && Elements(order) == g.Keys
  }

  /** The tasks whose dependencies are all done. */
  function Ready(g: Graph, done: set<TaskId>): set<TaskId> {
    set t | t in g && t !in done && forall d :: d in g[t] ==> d in done
  }

  /** Always the least ready task next. */
  function Kahn(g: Graph, done: set<TaskId>): seq<TaskId>
    decreases |g.Keys - done|
  {
    var ready := Ready(g, done);
    if ready == {} then [] else
    var t := Least(ready);
    assert g.Keys - (done + {t}) == (g.Keys - done) - {t};
    [t] + Kahn(g, done + {t})
  }

  lemma KahnUnfolds(g: Graph, done: set<TaskId>)
    requires Ready(g, done) != {}
    ensures var t := Least(Ready(g, done));
      && Kahn(g, done) == [t] + Kahn(g, done + {t})
      && t in g && t !in done && |g.Keys - (done + {t})| < |g.Keys - done|
      && forall d :: d in g[t] ==> d in done
  {
    var t := Least(Ready(g, done));
    assert g.Keys - (done + {t}) == (g.Keys - done) - {t};
  }

  lemma {:induction false} KahnAvoidsDone(g: Graph, done: set<TaskId>)
    ensures Distinct(Kahn(g, done))
    ensures forall t :: t in Kahn(g, done) ==> t in g && t !in done
    decreases |g.Keys - done|
  {
    if Ready(g, done) != {} {
      KahnUnfolds(g, done);
      KahnAvoidsDone(g, done + {Least(Ready(g, done))});
    }
  }

  lemma ElementsCons(t: TaskId, s: seq<TaskId>)
    ensures Elements([t] + s) == {t} + Elements(s)
  {
  }

  lemma ElementsJoin(done: set<TaskId>, t: TaskId, rest: seq<TaskId>)
    ensures done + Elements([t] + rest) == done + {t} + Elements(rest)
  {
    ElementsCons(t, rest);
  }

  lemma {:induction false} KahnExhausts(g: Graph, done: set<TaskId>, order: seq<TaskId>, all: set<TaskId>)
    requires order == Kahn(g, done) && all == done + Elements(order)
    ensures Ready(g, all) == {}
    decreases |g.Keys - done|
  {
    if Ready(g, done) == {} {
      assert all == done;
    } else {
      KahnUnfolds(g, done);
      var t := Least(Ready(g, done));
      var rest := Kahn(g, done + {t});
      ElementsJoin(done, t, rest);
      KahnExhausts(g, done + {t}, rest, all);
    }
  }

  lemma {:induction false} KahnFollowsDependencies(g: Graph, done: set<TaskId>, i: nat, d: TaskId)
    requires i < |Kahn(g, done)| && Kahn(g, done)[i] in g && d in g[Kahn(g, done)[i]]
    ensures d in done || d in Kahn(g, done)[..i]
    decreases |g.Keys - done|
  {
    KahnUnfolds(g, done);
    var t := Least(Ready(g, done));
    if i > 0 {
      var rest := Kahn(g, done + {t});
      assert Kahn(g, done)[..i] == [t] + rest[..i - 1];
      KahnFollowsDependencies(g, done + {t}, i - 1, d);
    }
  }

  lemma KahnRespects(g: Graph)
    ensures Distinct(Kahn(g, {})) && Respects(g, Kahn(g, {})) && Elements(Kahn(g, {})) <= g.Keys
  {
    var order := Kahn(g, {});
    KahnAvoidsDone(g, {});
    forall i | 0 <= i < |order|
      ensures order[i] in g && forall d :: d in g[order[i]] ==> d in order[..i]
    {
      assert order[i] in order;
      forall d | d in g[order[i]]
        ensures d in order[..i]
      {
        KahnFollowsDependencies(g, {}, i, d);
      }
    }
  }

  lemma SubsetOfSameSize(a: set<TaskId>, b: set<TaskId>)
    requires a <= b && |a| == |b|
    ensures a == b
  {
    assert |b - a| == |b| - |a|;
    if b - a == {} {
    } else {
      assert false;
    }
  }

  lemma SubsetIsSmaller(a: set<TaskId>, b: set<TaskId>)
    requires a <= b
    ensures |a| <= |b|
  {
    assert a + (b - a) == b;
  }

  /** A result of full length is an ordering, and only then. */
  lemma KahnOfFullLength(g: Graph)
    ensures |Kahn(g, {})| <= |g| && (|Kahn(g, {})| == |g| <==> Ordering(g, Kahn(g, {})))
  {
    var order := Kahn(g, {});
    KahnRespects(g);
    DistinctSize(order);
    SubsetIsSmaller(Elements(order), g.Keys);
    if |order| == |g| {
      SubsetOfSameSize(Elements(order), g.Keys);
    }
  }

  // ---------------------------------------------------------------- the least order

  /** `a` is `b`, or smaller at their first difference. */
  ghost predicate LexLeq(a: seq<TaskId>, b: seq<TaskId>) {
    a == b || exists i :: 0 <= i < |a| && i < |b| && a[..i] == b[..i] && a[i] < b[i]
  }

  lemma {:induction false} KahnBeats(g: Graph, done: seq<TaskId>, rest: seq<TaskId>)
    requires Ordering(g, done + rest)
    ensures LexLeq(Kahn(g, Elements(done)), rest)
    decreases |rest|
  {
    var order := Kahn(g, Elements(done));
    if rest == [] {
      assert done + rest == done;
    } else {
      var t := rest[0];
      HeadIsReady(g, done, rest);
      var least := Least(Ready(g, Elements(done)));
      assert order[0] == least;
      if least == t {
        assert (done + [t]) + rest[1..] == done + rest;
        KahnBeats(g, done + [t], rest[1..]);
        assert Elements(done + [t]) == Elements(done) + {t};
        assert order == [t] + Kahn(g, Elements(done + [t]));
        LexCons(t, Kahn(g, Elements(done + [t])), rest[1..]);
        assert rest == [t] + rest[1..];
      } else {
        assert order[..0] == rest[..0];
      }
    }
  }

  lemma LexCons(t: TaskId, a: seq<TaskId>, b: seq<TaskId>)
    requires LexLeq(a, b)
    ensures LexLeq([t] + a, [t] + b)
  {
    if a != b {
      var i :| 0 <= i < |a| && i < |b| && a[..i] == b[..i] && a[i] < b[i];
      assert ([t] + a)[..i + 1] == [t] + a[..i] && ([t] + b)[..i + 1] == [t] + b[..i];
      assert ([t] + a)[i + 1] == a[i] && ([t] + b)[i + 1] == b[i];
    }
  }

  lemma HeadIsReady(g: Graph, done: seq<TaskId>, rest: seq<TaskId>)
    requires Ordering(g, done + rest) && rest != []
    ensures rest[0] in Ready(g, Elements(done))
  {
    var all := done + rest;
    assert all[|done|] == rest[0] && all[..|done|] == done;
    forall i | 0 <= i < |done|
      ensures done[i] != rest[0]
    {
      assert all[i] == done[i];
    }
  }

  /** The computed order is the lexicographically least one. */
  lemma KahnIsLeast(g: Graph, rival: seq<TaskId>)
    requires Ordering(g, rival)
    ensures LexLeq(Kahn(g, {}), rival)
  {
    assert [] + rival == rival;
    assert Elements([]) == {};
    KahnBeats(g, [], rival);
  }

  // ---------------------------------------------------------------- cycles

  /** A walk from each task to one of its dependencies. */
  ghost predicate Chain(g: Graph, p: seq<TaskId>) {
    && p != []
    && (forall i :: 0 <= i < |p| ==> p[i] in g)
    && (forall i, j :: 0 <= i && j == i + 1 && j < |p| ==> p[j] in g[p[i]])
  }

  ghost predicate Cycle(g: Graph, p: seq<TaskId>) {
    Chain(g, p) && |p| > 1 && p[0] == p[|p| - 1]
  }

  ghost predicate Acyclic(g: Graph) {
    forall p :: !Cycle(g, p)
  }

  lemma {:induction false} Pigeonhole(p: seq<TaskId>, s: set<TaskId>) returns (i: nat, j: nat)
    requires |p| > |s| && forall k :: 0 <= k < |p| ==> p[k] in s
    ensures i < j < |p| && p[i] == p[j]
  {
    var last := p[|p| - 1];
    if k :| 0 <= k < |p| - 1 && p[k] == last {
      i, j := k, |p| - 1;
    } else {
      assert |s - {last}| == |s| - 1;
      i, j := Pigeonhole(p[..|p| - 1], s - {last});
    }
  }

  ghost predicate Blocked(g: Graph, stuck: set<TaskId>, t: TaskId) {
    t in g && exists d :: d in g[t] && d in stuck
  }

  /** Where every task has a dependency among them, one can walk for ever. */
  lemma {:induction false} LongWalk(g: Graph, stuck: set<TaskId>, n: nat) returns (p: seq<TaskId>)
    requires stuck != {} && stuck <= g.Keys
    requires forall t {:trigger Blocked(g, stuck, t)} :: t in stuck ==> Blocked(g, stuck, t)
    ensures Chain(g, p) && |p| == n + 1 && forall i :: 0 <= i < |p| ==> p[i] in stuck
  {
    if n == 0 {
      var t :| t in stuck;
      p := [t];
    } else {
      var front := LongWalk(g, stuck, n - 1);
      var last := front[|front| - 1];
      assert Blocked(g, stuck, last);
      var d :| d in g[last] && d in stuck;
      p := front + [d];
    }
  }

  lemma StuckHasCycle(g: Graph, stuck: set<TaskId>)
    requires stuck != {} && stuck <= g.Keys
    requires forall t {:trigger Blocked(g, stuck, t)} :: t in stuck ==> Blocked(g, stuck, t)
    ensures exists p :: Cycle(g, p)
  {
    var p := LongWalk(g, stuck, |stuck|);
    var i, j := Pigeonhole(p, stuck);
    var q := p[i..j + 1];
    assert q[0] == p[i] && q[|q| - 1] == p[j];
    assert Chain(g, q) by {
      forall a, b | 0 <= a && b == a + 1 && b < |q|
        ensures q[b] in g[q[a]]
      {
        assert q[a] == p[i + a] && q[b] == p[(i + a) + 1];
      }
    }
    assert Cycle(g, q);
  }

  /** In an ordering a chain goes strictly backwards. */
  lemma {:induction false} ChainGoesBack(g: Graph, order: seq<TaskId>, p: seq<TaskId>, a: nat) returns (b: nat)
    requires Ordering(g, order) && Chain(g, p) && a < |order| && order[a] == p[0]
    ensures b < |order| && order[b] == p[|p| - 1] && b <= a && (|p| > 1 ==> b < a)
    decreases |p|
  {
    if |p| == 1 {
      b := a;
    } else {
      assert p[1] in g[p[0]];
      var c :| 0 <= c < a && order[..a][c] == p[1];
      var rest := p[1..];
      assert Chain(g, rest) by {
        forall i, j | 0 <= i && j == i + 1 && j < |rest|
          ensures rest[j] in g[rest[i]]
        {
          assert rest[i] == p[i + 1] && rest[j] == p[(i + 1) + 1];
        }
      }
      b := ChainGoesBack(g, order, rest, c);
    }
  }

  lemma OrderedIsAcyclic(g: Graph, order: seq<TaskId>)
    requires Ordering(g, order)
    ensures Acyclic(g)
  {
    forall p
      ensures !Cycle(g, p)
    {
      if Cycle(g, p) {
        assert p[0] in Elements(order);
        var a :| 0 <= a < |order| && order[a] == p[0];
        var b := ChainGoesBack(g, order, p, a);
        assert false;
      }
    }
  }

  /** The order exists exactly when there is no cycle. */
  lemma KahnCompletesIffAcyclic(g: Graph)
    requires Known(g)
    ensures |Kahn(g, {})| == |g| <==> Acyclic(g)
  {
    var order := Kahn(g, {});
    KahnOfFullLength(g);
    if |order| == |g| {
      OrderedIsAcyclic(g, order);
    } else {
      KahnExhausts(g, {}, order, Elements(order));
      KahnRespects(g);
      var stuck := g.Keys - Elements(order);
      assert {} + Elements(order) == Elements(order);
      assert stuck == {} ==> Elements(order) == g.Keys;
      forall t | t in stuck
        ensures Blocked(g, stuck, t)
      {
        assert t !in Ready(g, Elements(order));
        var d :| d in g[t] && d !in Elements(order);
      }
      StuckHasCycle(g, stuck);
    }
  }

  // ---------------------------------------------------------------- critical paths

  /** A walk from a task to tasks that depend on it. */
  ghost predicate Downstream(g: Graph, p: seq<TaskId>) {
    && p != []
    && (forall i :: 0 <= i < |p| ==> p[i] in g)
    && (forall i, j :: 0 <= i && j == i + 1 && j < |p| ==> p[i] in g[p[j]])
  }

  ghost function Cost(cost: map<TaskId, nat>, p: seq<TaskId>): nat
    requires forall i :: 0 <= i < |p| ==> p[i] in cost
  {
    if p == [] then 0 else cost[p[0]] + Cost(cost, p[1..])
  }

  /** `rank` is the largest total over all downstream paths from the task. */
  ghost predicate LongestFrom(g: Graph, cost: map<TaskId, nat>, t: TaskId, rank: nat)
    requires g.Keys <= cost.Keys
  {
    && (forall p :: Downstream(g, p) && p[0] == t ==> Cost(cost, p) <= rank)
    && (exists p :: Downstream(g, p) && p[0] == t && Cost(cost, p) == rank)
  }

  lemma TailIsDownstream(g: Graph, p: seq<TaskId>)
    requires Downstream(g, p) && |p| > 1
    ensures Downstream(g, p[1..]) && p[0] in g[p[1]]
  {
    var rest := p[1..];
    forall i, j | 0 <= i && j == i + 1 && j < |rest|
      ensures rest[i] in g[rest[j]]
    {
      assert rest[i] == p[i + 1] && rest[j] == p[(i + 1) + 1];
    }
  }

  lemma ConsIsDownstream(g: Graph, t: TaskId, p: seq<TaskId>)
    requires Downstream(g, p) && t in g && t in g[p[0]]
    ensures Downstream(g, [t] + p)
  {
    var q := [t] + p;
    forall i, j | 0 <= i && j == i + 1 && j < |q|
      ensures q[i] in g[q[j]]
    {
      if i > 0 {
        assert q[i] == p[i - 1] && q[j] == p[(i - 1) + 1];
      }
    }
  }

  /** The rank recurrence: own cost plus the largest rank of a successor. */
  lemma RankStep(g: Graph, cost: map<TaskId, nat>, t: TaskId, ranks: map<TaskId, nat>, best: nat)
    requires g.Keys <= cost.Keys && t in g
    requires forall c :: c in g && t in g[c] ==> c in ranks && LongestFrom(g, cost, c, ranks[c]) && ranks[c] <= best
    requires best == 0 || exists c :: c in g && t in g[c] && ranks[c] == best
    ensures LongestFrom(g, cost, t, cost[t] + best)
  {
    forall p | Downstream(g, p) && p[0] == t
      ensures Cost(cost, p) <= cost[t] + best
    {
      if |p| == 1 {
        assert p[1..] == [];
      } else {
        TailIsDownstream(g, p);
        assert LongestFrom(g, cost, p[1], ranks[p[1]]);
        assert p[1..][0] == p[1];
      }
    }
    if c :| c in g && t in g[c] && ranks[c] == best {
      var p :| Downstream(g, p) && p[0] == c && Cost(cost, p) == ranks[c];
      ConsIsDownstream(g, t, p);
      assert ([t] + p)[1..] == p;
      assert Cost(cost, [t] + p) == cost[t] + best;
    } else {
      assert [t][1..] == [];
      assert Downstream(g, [t]) && Cost(cost, [t]) == cost[t];
    }
  }
}
