/** A concrete admitted plan that the controller does not keep whole. */
module Examples {
  import opened Contracts
  import opened Plans
  import opened SerialPlan
  import opened Controller
  import opened Transitions
  import opened Runtime
  import opened Driving

  const CHEAP := Profile("fixture", "local", 1, 1, Usage(1, 1, 1))

  /** A worthy optional task that depends on a less worthy optional one. */
  const FEED := Task(0, [], true, 1.0, None)
  const ALERT := Task(1, [0], true, 10.0, None)

  const INVERTED := Plan(
    [FEED, ALERT], map[0 := FEED, 1 := ALERT],
    Envelope(100, Usage(10, 10, 10), 1, map[]),
    map[0 := CHEAP, 1 := CHEAP], {}, {})

  lemma InvertedGraph()
    ensures INVERTED.byId.Keys == INVERTED.admitted.Keys == {0, 1}
    ensures INVERTED.Deps(0) == {} && INVERTED.Deps(1) == {0}
    ensures INVERTED.ValidGraph() && INVERTED.ValidGuard()
  {
    assert INVERTED.tasks[0] == FEED && INVERTED.tasks[1] == ALERT;
  }

  lemma TotalOfOne(p: Plan, a: TaskId, one: set<TaskId>, none: set<TaskId>)
    requires one == {a} && none == one - {a}
    ensures p.Total(one) == p.Need(a)
  {
    p.TotalPick(one, a);
    assert none == {};
    p.TotalEmpty();
    AddLaws(p.Need(a), p.Total(none), ZERO);
  }

  lemma TotalOfTwo(p: Plan, a: TaskId, b: TaskId, one: set<TaskId>, two: set<TaskId>)
    requires a != b && one == {a} && two == one + {b}
    ensures p.Total(two) == p.Need(a).Add(p.Need(b))
  {
    TotalOfOne(p, a, one, one - {a});
    p.TotalInsert(one, b);
  }

  lemma InvertedTotal()
    ensures INVERTED.Total({0, 1}) == Usage(2, 2, 2)
  {
    assert {0} + {1} == {0, 1};
    TotalOfTwo(INVERTED, 0, 1, {0}, {0, 1});
  }

  lemma InvertedFits(all: set<TaskId>)
    requires all == {0, 1}
    ensures SerialFit(INVERTED, {}, all, 0)
  {
    InvertedGraph();
    var first := Ready(INVERTED, {}, all);
    assert first == {0};
    INVERTED.BestIs(first, 0);
    var rest := all - {0};
    assert rest == {1};
    var second := Ready(INVERTED, {} + {0}, rest);
    assert second == {1};
    INVERTED.BestIs(second, 1);
    assert rest - {1} == {};
    assert SerialFit(INVERTED, {} + {0} + {1}, rest - {1}, 2);
    assert SerialFit(INVERTED, {} + {0}, rest, 1);
  }

  lemma InvertedSelects()
    ensures INVERTED.ValidSelection()
  {
    InvertedGraph();
    InvertedTotal();
  }

  lemma InvertedIsAdmitted()
    ensures Admitted(INVERTED)
  {
    InvertedGraph();
    InvertedSelects();
    InvertedFits(INVERTED.admitted.Keys);
  }

  /** Admission takes both tasks, yet the controller sheds one of them before the run starts. */
  lemma AdmittedWorkCanBeShedAtOnce()
    ensures Admitted(INVERTED) && INVERTED.skipped == {}
    ensures Initial(INVERTED).values.shed != {}
  {
    InvertedIsAdmitted();
    InitialShedsOnlySkipped(INVERTED);
    InvertedGraph();
    assert 0 in INVERTED.Deps(1) && !INVERTED.Before(0, 1);
  }

  /** Two protected tasks, one after the other. */
  const FIRST := Task(0, [], false, 1.0, None)
  const SECOND := Task(1, [0], false, 10.0, Some(2))

  const PLAIN := Plan(
    [FIRST, SECOND], map[0 := FIRST, 1 := SECOND],
    Envelope(100, Usage(10, 10, 10), 1, map[]),
    map[0 := CHEAP, 1 := CHEAP], {}, {0, 1})

  lemma PlainGraph()
    ensures PLAIN.byId.Keys == PLAIN.admitted.Keys == {0, 1}
    ensures PLAIN.Deps(0) == {} && PLAIN.Deps(1) == {0}
    ensures PLAIN.ValidGraph() && PLAIN.ValidGuard()
  {
    assert PLAIN.tasks[0] == FIRST && PLAIN.tasks[1] == SECOND;
  }

  lemma PlainSelects()
    ensures PLAIN.ValidSelection()
  {
    PlainGraph();
    assert {0} + {1} == {0, 1};
    TotalOfTwo(PLAIN, 0, 1, {0}, {0, 1});
  }

  lemma PlainFits(all: set<TaskId>)
    requires all == {0, 1}
    ensures SerialFit(PLAIN, {}, all, 0)
  {
    PlainGraph();
    var first := Ready(PLAIN, {}, all);
    assert first == {0};
    PLAIN.BestIs(first, 0);
    var rest := all - {0};
    assert rest == {1};
    var second := Ready(PLAIN, {} + {0}, rest);
    assert second == {1};
    PLAIN.BestIs(second, 1);
    assert rest - {1} == {};
    assert SerialFit(PLAIN, {} + {0} + {1}, rest - {1}, 2);
    assert SerialFit(PLAIN, {} + {0}, rest, 1);
  }

  /** An admitted plan on which the end-to-end theorem applies from the start. */
  lemma PlainRunFinishes(work: TaskId -> Reply)
    requires FixtureWorkers(PLAIN, work)
    ensures Admitted(PLAIN) && Finishes(PLAIN, Opened(PLAIN), work)
  {
    PlainGraph();
    PlainSelects();
    PlainFits(PLAIN.admitted.Keys);
    OpenedHasNothingDone(PLAIN);
    FreshRunCompletes(PLAIN, work);
  }

  /** A run with protected work does not start completed. */
  lemma OpenedHasNothingDone(p: Plan)
    requires Admitted(p) && p.guarded != {}
    ensures Opened(p).state.values.status != Completed
  {
    var blank := System(Initial(p), [], map[], map[], []);
    OpenedIsInitial(p, blank, Event(StartId, 0, RuntimeStarted));
    InitialIsOnPlan(p);
  }
}
