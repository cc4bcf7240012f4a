/** The greedy serial simulation behind every deadline decision of the controller. */
module SerialPlan {
  import opened Contracts
  import opened Plans

  ghost function Ready(p: Plan, done: set<TaskId>, pending: set<TaskId>): set<TaskId> {
    set t | t in pending && p.Deps(t) <= done
  }

  /** All pending tasks, run one at a time in dispatch order from `now`, meet their deadlines. */
  ghost predicate SerialFit(p: Plan, done: set<TaskId>, pending: set<TaskId>, now: nat)
    decreases pending
  {
    pending == {} ||
    (var ready := Ready(p, done, pending);
     ready != {} &&
     var t := p.Best(ready);
     var end := now + p.P95(t);
     end <= p.DeadlineOf(t) && SerialFit(p, done + {t}, pending - {t}, end))
  }

  /** The order in which the simulation runs tasks, up to the point where none is ready. */
  ghost function SerialOrder(p: Plan, done: set<TaskId>, pending: set<TaskId>): seq<TaskId>
    decreases pending
  {
    var ready := Ready(p, done, pending);
    if ready == {} then [] else
    var t := p.Best(ready);
    [t] + SerialOrder(p, done + {t}, pending - {t})
  }

  /** Every task of the order, started at `now` without gaps, ends by its deadline at p95. */
  ghost predicate OnTime(p: Plan, order: seq<TaskId>, now: nat) {
    order == [] ||
    (now + p.P95(order[0]) <= p.DeadlineOf(order[0]) && OnTime(p, order[1..], now + p.P95(order[0])))
  }

  /** One task put in front of an order of the rest. */
  lemma OrderFront(p: Plan, t: TaskId, rest: seq<TaskId>, order: seq<TaskId>, pending: set<TaskId>, now: nat)
    requires order == [t] + rest && t in pending && Elements(rest) <= pending - {t}
    ensures Elements(order) == pending && OnTime(p, order, now) <==>
            now + p.P95(t) <= p.DeadlineOf(t) && Elements(rest) == pending - {t} && OnTime(p, rest, now + p.P95(t))
  {
    OrderCovers(t, rest, pending);
    OnTimeCons(p, t, rest, now);
  }

  /** The simulation succeeds exactly when its order covers all pending tasks on time. */
  lemma {:induction false} SerialFitIsOrder(p: Plan, done: set<TaskId>, pending: set<TaskId>, now: nat)
    ensures SerialFit(p, done, pending, now) <==>
            Elements(SerialOrder(p, done, pending)) == pending && OnTime(p, SerialOrder(p, done, pending), now)
    decreases pending
  {
    var ready := Ready(p, done, pending);
    if ready == {} {
      assert SerialOrder(p, done, pending) == [];
    } else {
      var t := p.Best(ready);
      SerialFitIsOrder(p, done + {t}, pending - {t}, now + p.P95(t));
      OrderWithin(p, done + {t}, pending - {t});
      OrderUnfolds(p, done, pending, t);
      FitIsOrderStep(p, done, pending, now, t, SerialOrder(p, done + {t}, pending - {t}),
        SerialOrder(p, done, pending));
    }
  }

  lemma OrderUnfolds(p: Plan, done: set<TaskId>, pending: set<TaskId>, t: TaskId)
    requires Ready(p, done, pending) != {} && t == p.Best(Ready(p, done, pending))
    ensures t in pending && SerialOrder(p, done, pending) == [t] + SerialOrder(p, done + {t}, pending - {t})
  {
  }

  lemma FitIsOrderStep(p: Plan, done: set<TaskId>, pending: set<TaskId>, now: nat, t: TaskId,
      rest: seq<TaskId>, order: seq<TaskId>)
    requires Ready(p, done, pending) != {} && t == p.Best(Ready(p, done, pending)) && t in pending
    requires order == [t] + rest && Elements(rest) <= pending - {t}
    requires SerialFit(p, done + {t}, pending - {t}, now + p.P95(t)) <==>
             Elements(rest) == pending - {t} && OnTime(p, rest, now + p.P95(t))
    ensures SerialFit(p, done, pending, now) <==> Elements(order) == pending && OnTime(p, order, now)
  {
    OrderFront(p, t, rest, order, pending, now);
    FitStep(p, done, pending, now);
  }

  /** What success of the simulation says of its first task. */
  lemma FitHead(p: Plan, done: set<TaskId>, pending: set<TaskId>, now: nat, t: TaskId)
    requires SerialFit(p, done, pending, now) && Ready(p, done, pending) != {} && t == p.Best(Ready(p, done, pending))
    ensures t in pending && p.Deps(t) <= done && now + p.P95(t) <= p.DeadlineOf(t)
    ensures SerialFit(p, done + {t}, pending - {t}, now + p.P95(t))
  {
  }

  lemma FitStep(p: Plan, done: set<TaskId>, pending: set<TaskId>, now: nat)
    requires Ready(p, done, pending) != {}
    ensures var t := p.Best(Ready(p, done, pending));
            SerialFit(p, done, pending, now) <==>
            now + p.P95(t) <= p.DeadlineOf(t) && SerialFit(p, done + {t}, pending - {t}, now + p.P95(t))
  {
  }

  lemma OnTimeCons(p: Plan, t: TaskId, rest: seq<TaskId>, now: nat)
    ensures OnTime(p, [t] + rest, now) <==> now + p.P95(t) <= p.DeadlineOf(t) && OnTime(p, rest, now + p.P95(t))
  {
    assert ([t] + rest)[1..] == rest;
  }

  lemma OrderCovers(t: TaskId, rest: seq<TaskId>, pending: set<TaskId>)
    requires t in pending && Elements(rest) <= pending - {t}
    ensures Elements([t] + rest) == pending <==> Elements(rest) == pending - {t}
  {
    assert Elements([t] + rest) == {t} + Elements(rest);
  }

  lemma {:induction false} OrderWithin(p: Plan, done: set<TaskId>, pending: set<TaskId>)
    ensures Elements(SerialOrder(p, done, pending)) <= pending
    decreases pending
  {
    var ready := Ready(p, done, pending);
    if ready != {} {
      var t := p.Best(ready);
      OrderWithin(p, done + {t}, pending - {t});
    }
  }

  /**
   * `kept` may be simulated on its own inside `pending`: it holds every pending dependency of its
   * tasks, and both simulations have finished the same dependencies of kept tasks.
   */
  ghost predicate Embeds(p: Plan, done': set<TaskId>, kept: set<TaskId>, done: set<TaskId>, pending: set<TaskId>) {
    && kept <= pending
    && (forall t :: t in kept ==> p.Deps(t) * pending <= kept && p.Deps(t) * done == p.Deps(t) * done')
  }

  /** One step of the large simulation is one step of the small one, or leaves it alone. */
  lemma EmbedsStep(p: Plan, done': set<TaskId>, kept: set<TaskId>, done: set<TaskId>, pending: set<TaskId>)
    requires Embeds(p, done', kept, done, pending)
    requires Ready(p, done, pending) != {}
    ensures var t := p.Best(Ready(p, done, pending));
            if t in kept then
              && Ready(p, done', kept) != {}
              && p.Best(Ready(p, done', kept)) == t
              && Embeds(p, done' + {t}, kept - {t}, done + {t}, pending - {t})
            else
              Embeds(p, done', kept, done + {t}, pending - {t})
  {
    var t := p.Best(Ready(p, done, pending));
    forall u | u in kept
      ensures u in Ready(p, done, pending) <==> u in Ready(p, done', kept)
    {
      assert p.Deps(u) <= done <==> p.Deps(u) * done == p.Deps(u);
      assert p.Deps(u) <= done' <==> p.Deps(u) * done' == p.Deps(u);
    }
    if t in kept {
      p.BestIs(Ready(p, done', kept), t);
      forall u | u in kept
        ensures p.Deps(u) * (done + {t}) == p.Deps(u) * (done' + {t})
      {
        assert p.Deps(u) * (done + {t}) == p.Deps(u) * done + p.Deps(u) * {t};
        assert p.Deps(u) * (done' + {t}) == p.Deps(u) * done' + p.Deps(u) * {t};
      }
    }
  }

  /** The plan of a dependency-closed part is exactly the subsequence of the whole plan. */
  lemma {:induction false} SubsequencePlan(p: Plan, done': set<TaskId>, kept: set<TaskId>, done: set<TaskId>,
      pending: set<TaskId>)
    requires Embeds(p, done', kept, done, pending)
    ensures SerialOrder(p, done', kept) == Restrict(SerialOrder(p, done, pending), kept)
    decreases pending
  {
    var ready := Ready(p, done, pending);
    if ready == {} {
      assert Ready(p, done', kept) == {} by {
        forall u | u in kept
          ensures u !in Ready(p, done', kept)
        {
          assert u !in ready;
          assert p.Deps(u) <= done' ==> p.Deps(u) * done' == p.Deps(u);
        }
      }
    } else {
      var t := p.Best(ready);
      EmbedsStep(p, done', kept, done, pending);
      var rest := SerialOrder(p, done + {t}, pending - {t});
      OrderWithin(p, done + {t}, pending - {t});
      assert ([t] + rest)[1..] == rest;
      if t in kept {
        SubsequencePlan(p, done' + {t}, kept - {t}, done + {t}, pending - {t});
        RestrictIgnores(rest, kept, t);
      } else {
        SubsequencePlan(p, done', kept, done + {t}, pending - {t});
      }
    }
  }

  ghost function Restrict(order: seq<TaskId>, kept: set<TaskId>): seq<TaskId> {
    if order == [] then [] else
    (if order[0] in kept then [order[0]] else []) + Restrict(order[1..], kept)
  }

  lemma {:induction false} RestrictIgnores(order: seq<TaskId>, kept: set<TaskId>, t: TaskId)
    requires t !in order
    ensures Restrict(order, kept - {t}) == Restrict(order, kept)
  {
    if order != [] {
      assert order[0] in order;
      RestrictIgnores(order[1..], kept, t);
    }
  }

  /** A plan that fits still fits after dropping a dependent-closed part or starting earlier. */
  lemma {:induction false} SerialMonotone(p: Plan, done': set<TaskId>, kept: set<TaskId>, earlier: nat,
      done: set<TaskId>, pending: set<TaskId>, now: nat)
    requires SerialFit(p, done, pending, now)
    requires Embeds(p, done', kept, done, pending)
    requires earlier <= now
    ensures SerialFit(p, done', kept, earlier)
    decreases pending
  {
    if pending == {} {
      assert kept == {};
    } else {
      var t := p.Best(Ready(p, done, pending));
      EmbedsStep(p, done', kept, done, pending);
      if t in kept {
        SerialMonotone(p, done' + {t}, kept - {t}, earlier + p.P95(t), done + {t}, pending - {t}, now + p.P95(t));
      } else {
        SerialMonotone(p, done', kept, earlier, done + {t}, pending - {t}, now + p.P95(t));
      }
    }
  }

  /** A plan that fits runs every task after its dependencies. */
  lemma {:induction false} SerialDeps(p: Plan, done: set<TaskId>, pending: set<TaskId>, now: nat, t: TaskId)
    requires SerialFit(p, done, pending, now)
    requires done !! pending
    requires t in pending
    ensures p.Deps(t) <= done + (pending - {t})
    decreases pending
  {
    var head := p.Best(Ready(p, done, pending));
    if t != head {
      SerialDeps(p, done + {head}, pending - {head}, now + p.P95(head), t);
    }
  }

  /** Each task of the order is ready when its turn comes, and comes first in dispatch order among the ready ones. */
  lemma {:induction false} SerialRunsFirstReady(p: Plan, done: set<TaskId>, pending: set<TaskId>, i: nat)
    requires i < |SerialOrder(p, done, pending)|
    ensures var order := SerialOrder(p, done, pending);
      var finished := done + Elements(order[..i]);
      && order[i] in pending && order[i] !in order[..i] && p.Deps(order[i]) <= finished
      && forall u :: u in pending && u !in order[..i] && u != order[i] && p.Deps(u) <= finished ==>
        p.Before(order[i], u)
    decreases pending
  {
    var order := SerialOrder(p, done, pending);
    var t := p.Best(Ready(p, done, pending));
    var rest := SerialOrder(p, done + {t}, pending - {t});
    OrderUnfolds(p, done, pending, t);
    if i == 0 {
      assert done + Elements(order[..0]) == done;
    } else {
      SerialRunsFirstReady(p, done + {t}, pending - {t}, i - 1);
      assert order[..i] == [t] + rest[..i - 1];
      assert Elements(order[..i]) == {t} + Elements(rest[..i - 1]);
      assert done + Elements(order[..i]) == done + {t} + Elements(rest[..i - 1]);
    }
  }

  /** The order stops only where nothing is ready. */
  lemma {:induction false} SerialStopsWhenStuck(p: Plan, done: set<TaskId>, pending: set<TaskId>, u: TaskId)
    requires u in pending && u !in SerialOrder(p, done, pending)
    ensures !(p.Deps(u) <= done + Elements(SerialOrder(p, done, pending)))
    decreases pending
  {
    var order := SerialOrder(p, done, pending);
    if order == [] {
      assert done + Elements(order) == done;
      assert u !in Ready(p, done, pending);
    } else {
      var t := p.Best(Ready(p, done, pending));
      var rest := SerialOrder(p, done + {t}, pending - {t});
      OrderUnfolds(p, done, pending, t);
      assert forall x :: x in order <==> x == t || x in rest;
      SerialStopsWhenStuck(p, done + {t}, pending - {t}, u);
      assert done + Elements(order) == done + {t} + Elements(rest);
    }
  }
}
