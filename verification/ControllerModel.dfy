/**
 * The controller model as the program runs it: loops over sets, lists and clocks, and a dictionary
 * of working values changed in place, each proved against its specification function.
 */
module ControllerModel {
  import opened Contracts
  import opened Plans
  import opened SerialPlan
  import opened Controller
  import opened Replanning
  import opened Transitions
  import opened Choosing

  // ---------------------------------------------------------------- admission

  /** `min` by dispatch order over a nonempty set. */
  method PickBest(p: Plan, s: set<TaskId>) returns (best: TaskId)
    requires s != {}
    ensures best == p.Best(s)
  {
    best :| best in s;
    var rest := s - {best};
    while rest != {}
      invariant rest <= s && best in s && best !in rest
      invariant forall u :: u in s - rest && u != best ==> p.Before(best, u)
      decreases rest
    {
      var t :| t in rest;
      ghost var seen, was := s - rest, best;
      if p.Before(t, best) {
        best := t;
      }
      rest := rest - {t};
      forall u | u in seen + {t} && u != best
        ensures p.Before(best, u)
      {
        if u != t && u != was {
          assert p.Before(was, u);
        }
      }
      assert s - rest == seen + {t};
    }
    p.BestIs(s, best);
  }

  /** `_serial_deadlines_fit`: the greedy simulation, one task at a time. */
  method SerialDeadlinesFit(p: Plan, completed: set<TaskId>, included: set<TaskId>, start: nat) returns (fit: bool)
    ensures fit == SerialFit(p, completed, included - completed, start)
  {
    var pending := included - completed;
    var simulated := completed;
    var now: nat := start;
    while pending != {}
      invariant SerialFit(p, completed, included - completed, start) == SerialFit(p, simulated, pending, now)
      decreases pending
    {
      var ready := set t | t in pending && p.Deps(t) <= simulated;
      if ready == {} {
        return false;
      }
      var t := PickBest(p, ready);
      now := now + p.P95(t);
      if now > p.DeadlineOf(t) {
        return false;
      }
      pending := pending - {t};
      simulated := simulated + {t};
    }
    return true;
  }

  /** `_protected_task_ids`: mandatory tasks and, by a worklist, all their ancestors. */
  method ProtectedTaskIds(p: Plan) returns (guarded: set<TaskId>)
    requires p.ValidGraph()
    ensures guarded <= p.byId.Keys && p.Guard(guarded)
    ensures forall c :: p.Guard(c) ==> guarded <= c
  {
    guarded := set t | t in p.byId && !p.byId[t].optional;
    var stack := guarded;
    ghost var left := p.byId.Keys - guarded;
    while stack != {}
      invariant stack <= guarded <= p.byId.Keys
      invariant left == p.byId.Keys - guarded
      invariant forall t :: t in p.byId && !p.byId[t].optional ==> t in guarded
      invariant forall t :: t in guarded - stack ==> p.Deps(t) <= guarded
      invariant forall c :: p.Guard(c) ==> guarded <= c
      decreases left, stack
    {
      var t :| t in stack;
      var found := p.Deps(t) - guarded;
      GuardsHoldDeps(p, guarded, t);
      if found != {} {
        ghost var d := Any(found);
        assert d in left;
      }
      stack := stack - {t} + found;
      guarded := guarded + found;
      left := left - found;
    }
  }

  lemma GuardsHoldDeps(p: Plan, guarded: set<TaskId>, t: TaskId)
    requires p.ValidGraph() && t in guarded && guarded <= p.byId.Keys
    requires forall c :: p.Guard(c) ==> guarded <= c
    ensures p.Deps(t) <= p.byId.Keys
    ensures forall c :: p.Guard(c) ==> guarded + p.Deps(t) <= c
  {
  }

  /** One more element of a set is summed. */
  lemma SumStep(p: Plan, done: set<TaskId>, t: TaskId, total: Usage)
    requires t !in done && total == p.Total(done)
    ensures total.Add(p.Need(t)) == p.Total(done + {t})
  {
    p.TotalInsert(done, t);
  }

  /** `total` sums what is in `s` and no longer in `rest`. */
  ghost predicate Summed(p: Plan, s: set<TaskId>, rest: set<TaskId>, total: Usage) {
    rest <= s && total == p.Total(s - rest)
  }

  lemma SumStarts(p: Plan, s: set<TaskId>)
    ensures Summed(p, s, s, ZERO)
  {
    assert s - s == {};
    p.TotalEmpty();
  }

  lemma SumMoves(p: Plan, s: set<TaskId>, rest: set<TaskId>, t: TaskId, total: Usage)
    requires Summed(p, s, rest, total) && t in rest
    ensures Summed(p, s, rest - {t}, total.Add(p.Need(t)))
  {
    SumStep(p, s - rest, t, total);
    assert s - (rest - {t}) == (s - rest) + {t};
  }

  lemma SumEnds(p: Plan, s: set<TaskId>, rest: set<TaskId>, total: Usage)
    requires Summed(p, s, rest, total) && rest == {}
    ensures total == p.Total(s)
  {
    assert s - rest == s;
  }

  /** `_usage_add` over the reservations of a set of tasks. */
  method SumNeeds(p: Plan, s: set<TaskId>) returns (total: Usage)
    ensures total == p.Total(s)
  {
    total := ZERO;
    var rest := s;
    SumStarts(p, s);
    while rest != {}
      invariant Summed(p, s, rest, total)
      decreases rest
    {
      var t :| t in rest;
      SumMoves(p, s, rest, t, total);
      total := total.Add(p.Need(t));
      rest := rest - {t};
    }
    SumEnds(p, s, rest, total);
  }

  /** `sorted` in dispatch order. */
  method SortTasks(p: Plan, s: set<TaskId>) returns (order: seq<TaskId>)
    ensures order == Sorted(p, s)
  {
    order := [];
    var rest := s;
    while rest != {}
      invariant order + Sorted(p, rest) == Sorted(p, s)
      decreases rest
    {
      var t := PickBest(p, rest);
      assert order + ([t] + Sorted(p, rest - {t})) == order + [t] + Sorted(p, rest - {t});
      order := order + [t];
      rest := rest - {t};
    }
  }

  // ---------------------------------------------------------------- reconciliation

  /** The dictionary of working values that `apply` fills and `_reconcile` changes in place. */
  class WorkingValues {
    var caps: Usage
    var settled: Usage
    var unknownUsage: Usage
    var completed: set<TaskId>
    var shed: set<TaskId>
    var unknown: set<TaskId>
    var inflight: Option<Inflight>
    var resets: map<string, nat>
    var capacities: map<string, nat>
    var now: nat
    var status: Status

    constructor (v: Values)
      ensures View() == v
    {
      caps, settled, unknownUsage := v.caps, v.settled, v.unknownUsage;
      completed, shed, unknown, inflight := v.completed, v.shed, v.unknown, v.inflight;
      resets, capacities, now, status := v.resets, v.capacities, v.now, v.status;
    }

    function View(): Values
      reads this
    {
      Values(caps, settled, unknownUsage, completed, shed, unknown, inflight, resets, capacities, now, status)
    }

    method Refuse(alsoShed: set<TaskId>)
      modifies this`shed, this`status
      ensures View() == Controller.Refuse(old(View()), alsoShed)
    {
      shed := shed + alsoShed;
      status := Refused;
    }
  }

  lemma PendingIsFree(p: Plan, v: Values, included: set<TaskId>)
    requires included !! v.Busy()
    ensures included - v.Busy() == included
  {
  }

  /** Whether one more optional task is affordable and keeps the serial plan on time. */
  method AdmitsNext(p: Plan, v: Values, ghost selected: set<TaskId>, included: set<TaskId>, used: Usage,
      ghost committed: Usage, headroom: Usage, t: TaskId) returns (admitted: bool)
    requires included == PendingGuarded(p, v) + selected + {t} && included - v.Busy() == included
    requires used == p.Total(selected)
    requires committed == v.Committed().Add(p.Total(PendingGuarded(p, v)))
    requires committed.Fits(v.caps) && headroom == committed.LeftOf(v.caps)
    ensures admitted == Admits(p, v, selected, t)
  {
    var candidate := used.Add(p.Need(t));
    var start := v.now + if v.inflight.Some? then p.P95(v.inflight.value.task) else 0;
    AdmitsWithin(p, v, selected, t, committed, candidate, headroom, included, start);
    var fit := SerialDeadlinesFit(p, v.Busy(), included, start);
    var affordable := candidate.Fits(headroom);
    admitted := affordable && fit;
  }

  lemma AdmitsWithin(p: Plan, v: Values, selected: set<TaskId>, t: TaskId, committed: Usage, candidate: Usage,
      headroom: Usage, included: set<TaskId>, start: nat)
    requires included == PendingGuarded(p, v) + selected + {t} && start == Start(p, v)
    requires committed == v.Committed().Add(p.Total(PendingGuarded(p, v))) && committed.Fits(v.caps)
    requires headroom == committed.LeftOf(v.caps) && candidate == p.Total(selected).Add(p.Need(t))
    ensures Admits(p, v, selected, t) <==> candidate.Fits(headroom) && SerialFit(p, v.Busy(), included, start)
  {
    LeftFits(committed, v.caps, candidate);
  }

  /** The greedy pass over the optional candidates, in dispatch order. */
  method SelectOptional(p: Plan, v: Values, order: seq<TaskId>) returns (selected: set<TaskId>)
    requires Affords(p, v, {}) && Descending(p, order) && Elements(order) !! v.Busy()
    ensures selected == Select(p, v, order)
  {
    var guarded := p.guarded - v.Busy();
    var mandatory := SumNeeds(p, guarded);
    var committed := v.Committed().Add(mandatory);
    CommittedFits(p, v, committed);
    var used;
    selected, used := SelectNothing(p, v, order);
    for i := 0 to |order|
      invariant selected == Select(p, v, order[..i]) && selected <= Elements(order[..i])
      invariant used == p.Total(selected)
    {
      selected, used := SelectOne(p, v, order, i, guarded, committed, selected, used);
    }
    assert order[..|order|] == order;
  }

  method SelectNothing(p: Plan, v: Values, order: seq<TaskId>) returns (selected: set<TaskId>, used: Usage)
    ensures selected == Select(p, v, order[..0]) && selected <= Elements(order[..0]) && used == p.Total(selected)
  {
    selected, used := {}, ZERO;
    p.TotalEmpty();
  }

  /** One round of the loop over the optional tasks. */
  method SelectOne(p: Plan, v: Values, order: seq<TaskId>, i: nat, guarded: set<TaskId>, committed: Usage,
      start: set<TaskId>, spent: Usage) returns (selected: set<TaskId>, used: Usage)
    requires i < |order| && Descending(p, order) && Elements(order) !! v.Busy()
    requires guarded == PendingGuarded(p, v) && committed.Fits(v.caps)
    requires committed == v.Committed().Add(p.Total(guarded))
    requires start == Select(p, v, order[..i]) && start <= Elements(order[..i]) && spent == p.Total(start)
    ensures selected == Select(p, v, order[..i + 1]) && selected <= Elements(order[..i + 1])
    ensures used == p.Total(selected)
  {
    var t := order[i];
    selected, used := start, spent;
    SelectNext(p, v, order, i, guarded + start + {t});
    var admitted := AdmitsNext(p, v, start, guarded + start + {t}, spent, committed, committed.LeftOf(v.caps), t);
    if admitted {
      SumStep(p, start, t, spent);
      selected := start + {t};
      used := spent.Add(p.Need(t));
    }
  }

  lemma CommittedFits(p: Plan, v: Values, committed: Usage)
    requires Affords(p, v, {}) && committed == v.Committed().Add(p.Total(PendingGuarded(p, v)))
    ensures committed.Fits(v.caps)
  {
    p.TotalEmpty();
  }

  /** One more step of `Select`, for a task that is new and not busy. */
  lemma SelectUnfolds(p: Plan, v: Values, order: seq<TaskId>, i: nat)
    requires i < |order|
    ensures Select(p, v, order[..i + 1]) ==
            if Admits(p, v, Select(p, v, order[..i]), order[i])
            then Select(p, v, order[..i]) + {order[i]} else Select(p, v, order[..i])
  {
    assert order[..i + 1][..i] == order[..i];
  }

  lemma NextIsNew(p: Plan, order: seq<TaskId>, i: nat)
    requires i < |order| && Descending(p, order)
    ensures order[i] !in order[..i]
    ensures Elements(order[..i + 1]) == Elements(order[..i]) + {order[i]}
  {
    assert order[..i + 1] == order[..i] + [order[i]];
    assert forall u :: u in order[..i] ==> p.Before(u, order[i]);
  }

  lemma IncludedIsFree(p: Plan, v: Values, order: seq<TaskId>, i: nat, kept: set<TaskId>, included: set<TaskId>)
    requires i < |order| && Elements(order) !! v.Busy() && kept <= Elements(order[..i])
    requires included == PendingGuarded(p, v) + kept + {order[i]}
    ensures included - v.Busy() == included
  {
    forall u | u in kept + {order[i]}
      ensures u !in v.Busy()
    {
      assert u in Elements(order);
    }
  }

  lemma SelectNext(p: Plan, v: Values, order: seq<TaskId>, i: nat, included: set<TaskId>)
    requires i < |order| && Descending(p, order) && Elements(order) !! v.Busy()
    requires Select(p, v, order[..i]) <= Elements(order[..i])
    requires included == PendingGuarded(p, v) + Select(p, v, order[..i]) + {order[i]}
    ensures order[i] !in Select(p, v, order[..i])
    ensures included - v.Busy() == included
    ensures Elements(order[..i + 1]) == Elements(order[..i]) + {order[i]}
    ensures Select(p, v, order[..i + 1]) ==
            if Admits(p, v, Select(p, v, order[..i]), order[i])
            then Select(p, v, order[..i]) + {order[i]} else Select(p, v, order[..i])
  {
    SelectUnfolds(p, v, order, i);
    NextIsNew(p, order, i);
    IncludedIsFree(p, v, order, i, Select(p, v, order[..i]), included);
  }

  /** The cascade: as long as a kept task waits for shed work, it is shed too. */
  method Cascade(p: Plan, kept: set<TaskId>, shed0: set<TaskId>) returns (selected: set<TaskId>, shed: set<TaskId>)
    ensures selected == Survivors(p, kept, shed0)
    ensures shed == shed0 + (kept - selected)
  {
    selected, shed := kept, shed0;
    var changed := true;
    while changed
      invariant selected <= kept && shed == shed0 + (kept - selected)
      invariant forall part :: Sustained(p, kept, shed0, part) ==> part <= selected
      invariant !changed ==> forall t :: t in selected ==> p.Deps(t) !! shed
      decreases selected, changed
    {
      changed := false;
      var todo := selected;
      ghost var before := selected;
      while todo != {}
        invariant todo <= selected <= kept && shed == shed0 + (kept - selected)
        invariant forall part :: Sustained(p, kept, shed0, part) ==> part <= selected
        invariant if changed then selected < before else
                  selected == before && forall t :: t in selected - todo ==> p.Deps(t) !! shed
        decreases todo
      {
        var t :| t in todo;
        todo := todo - {t};
        if p.Deps(t) * shed != {} {
          OutsideAllParts(p, kept, shed0, selected, t);
          selected := selected - {t};
          shed := shed + {t};
          changed := true;
        } else {
          assert forall d :: d in p.Deps(t) && d in shed ==> d in p.Deps(t) * shed;
        }
      }
    }
    assert Sustained(p, kept, shed0, selected);
  }

  lemma OutsideAllParts(p: Plan, kept: set<TaskId>, shed0: set<TaskId>, selected: set<TaskId>, t: TaskId)
    requires selected <= kept && t in selected
    requires forall part :: Sustained(p, kept, shed0, part) ==> part <= selected
    requires p.Deps(t) * (shed0 + (kept - selected)) != {}
    ensures forall part :: Sustained(p, kept, shed0, part) ==> part <= selected - {t}
  {
    forall part | Sustained(p, kept, shed0, part)
      ensures t !in part
    {
      var d :| d in p.Deps(t) * (shed0 + (kept - selected));
      assert d in shed0 + (kept - part);
    }
  }

  /** Replanning proper: greedy selection, the shed cascade and the terminal test. */
  method Replan(p: Plan, w: WorkingValues)
    requires Affords(p, w.View(), {})
    modifies w`shed, w`status
    ensures w.View() == Replanned(p, old(w.View()))
  {
    var v := w.View();
    var candidates := p.admitted.Keys - p.guarded - v.completed - v.shed - v.Flying();
    var order := SortTasks(p, candidates);
    SortedSorts(p, candidates);
    var kept := SelectOptional(p, v, order);
    var survivors, shed := Cascade(p, kept, v.shed + (candidates - kept));
    ShedByReplan(p, v, order, kept, survivors);
    w.shed := shed;
    if v.inflight.None? && p.byId.Keys <= v.completed + shed && p.guarded <= v.completed {
      w.status := Completed;
    } else if w.status != Refused {
      w.status := Running;
    }
  }

  lemma ShedByReplan(p: Plan, v: Values, order: seq<TaskId>, kept: set<TaskId>, survivors: set<TaskId>)
    requires Elements(order) == Candidates(p, v) && kept == Select(p, v, order) && survivors <= kept
    ensures v.shed + (Candidates(p, v) - kept) + (kept - survivors) == v.shed + (Candidates(p, v) - survivors)
  {
    SelectWithin(p, v, order);
  }

  /** The lease, if any, is for an admitted task. */
  ghost predicate KnownLease(p: Plan, v: Values) {
    v.inflight.Some? ==> v.inflight.value.task in p.admitted && v.inflight.value.task in p.byId
  }

  /** `_reconcile`: the refusal tests in order, then replanning. */
  method Reconcile(p: Plan, w: WorkingValues)
    requires KnownLease(p, w.View())
    modifies w`shed, w`status
    ensures w.View() == Reconciled(p, old(w.View()))
  {
    var v := w.View();
    if v.status == Cancelled {
      return;
    }
    if p.guarded * v.shed != {} || (v.now > p.envelope.deadline && !(p.guarded <= v.completed)) {
      w.Refuse({});
      return;
    }
    var busy := v.Busy();
    var start := v.now;
    if v.inflight.Some? {
      start := start + p.P95(v.inflight.value.task);
      if start > p.DeadlineOf(v.inflight.value.task) {
        w.Refuse({});
        return;
      }
    }
    ReconcilePlan(p, w, busy, start);
  }

  /** The part of reconciliation that weighs the unfinished protected work. */
  method ReconcilePlan(p: Plan, w: WorkingValues, busy: set<TaskId>, start: nat)
    requires var v := w.View();
      && v.status != Cancelled && p.guarded * v.shed == {}
      && !(v.now > p.envelope.deadline && !(p.guarded <= v.completed))
      && !InflightLate(p, v) && busy == v.Busy() && start == Start(p, v)
    modifies w`shed, w`status
    ensures w.View() == Reconciled(p, old(w.View()))
  {
    var v := w.View();
    var pending := p.guarded - busy;
    PendingIsFree(p, v, pending);
    var fit := SerialDeadlinesFit(p, busy, pending, start);
    if !fit {
      w.Refuse(p.admitted.Keys - p.guarded - v.completed);
      return;
    }
    var mandatory := SumNeeds(p, pending);
    AffordsMandatory(p, v, mandatory);
    if !v.Committed().Add(mandatory).Fits(v.caps) {
      w.Refuse(p.byId.Keys - p.guarded - v.completed - v.Flying());
      return;
    }
    Replan(p, w);
  }

  lemma AffordsMandatory(p: Plan, v: Values, mandatory: Usage)
    requires mandatory == p.Total(PendingGuarded(p, v))
    ensures Affords(p, v, {}) <==> v.Committed().Add(mandatory).Fits(v.caps)
  {
    p.TotalEmpty();
    AddLaws(v.Committed().Add(mandatory), ZERO, ZERO);
  }

  // ---------------------------------------------------------------- dispatch

  /** One task against the filters of `_dispatch_choices`. */
  method IsChoice(p: Plan, v: Values, at: nat, t: TaskId) returns (ok: bool)
    ensures ok == Choice(p, v, at, t)
  {
    if t !in p.byId || t in v.completed + v.shed || !(p.Deps(t) <= v.completed) {
      return false;
    }
    if !Available(p, v, t) {
      return false;
    }
    var reserve := SumNeeds(p, p.guarded - v.completed - {t});
    if !v.settled.Add(v.unknownUsage).Add(p.Need(t)).Add(reserve).Fits(v.caps) {
      return false;
    }
    var end := at + p.P95(t);
    if end > p.DeadlineOf(t) {
      return false;
    }
    var remaining := p.admitted.Keys - v.completed - v.shed - {t};
    assert remaining == Unfinished(p, v) - {t};
    assert remaining - (v.completed + {t}) == remaining;
    ok := SerialDeadlinesFit(p, v.completed + {t}, remaining, end);
  }

  /** `_dispatch_choices`: all tasks of the graph that pass the filters. */
  method DispatchChoices(p: Plan, v: Values, at: nat) returns (choices: set<TaskId>)
    requires p.ValidGraph()
    ensures choices == Choices(p, v, at)
  {
    choices := {};
    if v.status != Running || v.inflight.Some? || at < v.now {
      return;
    }
    for i := 0 to |p.tasks|
      invariant forall t :: t in choices <==> Choice(p, v, at, t) && exists k :: 0 <= k < i && p.tasks[k].id == t
    {
      var t := p.tasks[i].id;
      var ok := IsChoice(p, v, at, t);
      if ok {
        choices := choices + {t};
      }
    }
    EveryTaskIsListed(p);
  }

  lemma EveryTaskIsListed(p: Plan)
    requires p.ValidGraph()
    ensures forall t :: t in p.byId ==> exists k :: 0 <= k < |p.tasks| && p.tasks[k].id == t
  {
    forall t | t in p.byId
      ensures exists k :: 0 <= k < |p.tasks| && p.tasks[k].id == t
    {
      var k :| 0 <= k < |p.tasks| && p.tasks[k] == p.byId[t];
      assert p.tasks[k].id == t;
    }
  }

  /** No other dispatchable task is worth more, or as much with a smaller identifier; `None` if there is none at all. */
  ghost predicate Leads(p: Plan, v: Values, at: nat, next: Option<TaskId>) {
    match next
    case None => forall u: TaskId :: !Dispatchable(p, v, at, u)
    case Some(t) =>
      && Dispatchable(p, v, at, t)
      && forall u: TaskId :: Dispatchable(p, v, at, u) && u != t ==>
        p.Worth(u) < p.Worth(t) || (p.Worth(u) == p.Worth(t) && t < u)
  }

  lemma NextLeads(p: Plan, v: Values, at: nat, next: Option<TaskId>)
    requires next == NextDispatch(p, v, at)
    ensures Leads(p, v, at, next)
  {
    DispatchIsFirst(p, v, at);
  }

  /** `next_dispatch`: the best choice, if any. */
  method FindDispatch(p: Plan, v: Values, at: nat) returns (next: Option<TaskId>)
    requires p.ValidGraph()
    ensures next == NextDispatch(p, v, at)
    ensures Leads(p, v, at, next)
  {
    NextLeads(p, v, at, NextDispatch(p, v, at));
    var choices := DispatchChoices(p, v, at);
    if choices == {} {
      return None;
    }
    var t := PickBest(p, choices);
    return Some(t);
  }

  // ---------------------------------------------------------------- apply

  datatype Change = Refusal | Change(action: Action, task: Option<TaskId>, reason: string)

  /** The change `c` left `w` in the values that `staged` describes. */
  ghost predicate Realizes(c: Change, v: Values, staged: Staged) {
    match staged
    case Illegal => c == Refusal
    case Staged(values, action, task, reason) => c == Change(action, task, reason) && v == values
  }

  /** The branches of `apply` that concern providers, caps and the start of the run. */
  method ApplyControl(p: Plan, revision: nat, e: Event, w: WorkingValues) returns (c: Change)
    requires w.status == Running || e.body.RuntimeStarted?
    requires w.now <= e.at
    requires e.body.RuntimeStarted? || e.body.Provider429? || e.body.ProviderReset? || e.body.ProviderCapacity?
      || e.body.BudgetCut?
    modifies w`now, w`resets, w`capacities, w`caps
    ensures Realizes(c, w.View(), Stage(p, revision, old(w.View()), e))
  {
    w.now := e.at;
    c := Refusal;
    match e.body
    case RuntimeStarted =>
      if revision == 0 && e.at == 0 {
        c := Change(Initialize, None, "controller_started");
      }
    case Provider429(provider, resetAt) =>
      if KnownProvider(p, provider) && resetAt > e.at {
        var reset := resetAt;
        if provider in w.resets && w.resets[provider] > resetAt {
          reset := w.resets[provider];
        }
        w.resets := w.resets[provider := reset];
        c := Change(Action.Replan, None, "provider_reset_window_applied");
      }
    case ProviderReset(provider) =>
      if KnownProvider(p, provider) && provider in w.resets && e.at >= w.resets[provider] {
        w.resets := w.resets - {provider};
        c := Change(Action.Replan, None, "provider_reset_window_cleared");
      }
    case ProviderCapacity(provider, capacity) =>
      if KnownProvider(p, provider) {
        w.capacities := w.capacities[provider := capacity];
        c := Change(Action.Replan, None, "provider_capacity_changed");
      }
    case BudgetCut(caps) =>
      if caps.Fits(w.caps) {
        w.caps := caps;
        c := Change(Action.Replan, None, "budget_cut_applied");
      }
    case _ =>
  }

  /** The branches of `apply` that move work. */
  method ApplyWork(p: Plan, revision: nat, e: Event, w: WorkingValues) returns (c: Change)
    requires p.ValidGraph() && w.status == Running && w.now <= e.at
    requires e.body.TaskDispatched? || e.body.UsageSettled?
    modifies w`now, w`inflight, w`completed, w`settled
    ensures Realizes(c, w.View(), Stage(p, revision, old(w.View()), e))
  {
    if e.body.TaskDispatched? {
      c := ApplyDispatch(p, revision, e, w);
    } else {
      c := ApplySettlement(p, revision, e, w);
    }
  }

  method ApplyDispatch(p: Plan, revision: nat, e: Event, w: WorkingValues) returns (c: Change)
    requires p.ValidGraph() && w.status == Running && w.now <= e.at && e.body.TaskDispatched?
    modifies w`now, w`inflight
    ensures Realizes(c, w.View(), Stage(p, revision, old(w.View()), e))
  {
    var prior, body := w.View(), e.body;
    w.now := e.at;
    c := Refusal;
    var expected := FindDispatch(p, prior, e.at);
    if expected == Some(body.task) && body.task in p.admitted {
      var profile := p.admitted[body.task];
      if body.provider == profile.provider && body.backend == profile.name && body.attempt == 1
        && body.reservation == profile.usage
      {
        w.inflight := Some(Inflight(body.task, 1, body.provider, body.backend, body.reservation, e));
        c := Change(Dispatch, Some(body.task), "task_dispatched_with_protected_budget");
      }
    }
  }

  method ApplySettlement(p: Plan, revision: nat, e: Event, w: WorkingValues) returns (c: Change)
    requires w.status == Running && w.now <= e.at && e.body.UsageSettled?
    modifies w`now, w`inflight, w`completed, w`settled
    ensures Realizes(c, w.View(), Stage(p, revision, old(w.View()), e))
  {
    var body := e.body;
    w.now := e.at;
    c := Refusal;
    if w.inflight.Some? {
      var lease := w.inflight.value;
      if lease.task == body.task && lease.attempt == body.attempt && body.actual.Fits(lease.reservation) {
        w.completed := w.completed + {body.task};
        w.settled := w.settled.Add(body.actual);
        w.inflight := None;
        c := Change(Settle, Some(body.task), "usage_settled_and_task_completed");
      }
    }
  }

  /** Charge the in-flight task in full, shed it unless protected, and empty the slot. */
  method ChargeInflight(p: Plan, w: WorkingValues, status: Status)
    modifies w`inflight, w`unknownUsage, w`unknown, w`shed, w`status
    ensures w.View() == Charged(p, old(w.View()), status)
  {
    var flying := w.View().Flying();
    w.unknownUsage := w.unknownUsage.Add(w.View().Reserved());
    w.unknown := w.unknown + flying;
    w.shed := w.shed + (flying - p.guarded);
    w.inflight := None;
    w.status := status;
  }

  /** The branches of `apply` that charge the in-flight task in full. */
  method ApplyCharge(p: Plan, revision: nat, e: Event, w: WorkingValues) returns (c: Change)
    requires w.status == Running && w.now <= e.at
    requires e.body.UnknownInflight? || e.body.Cancellation?
    modifies w`now, w`inflight, w`unknownUsage, w`unknown, w`shed, w`status
    ensures Realizes(c, w.View(), Stage(p, revision, old(w.View()), e))
  {
    w.now := e.at;
    match e.body
    case UnknownInflight(task, attempt, reservation) =>
      if w.inflight.Some? && w.inflight.value.task == task && w.inflight.value.attempt == attempt
        && w.inflight.value.reservation == reservation {
        ChargeInflight(p, w, if task in p.guarded then Refused else w.status);
        c := Change(Recover, Some(task), "unknown_inflight_charged_at_full_reservation");
      } else {
        c := Refusal;
      }
    case Cancellation(_) =>
      ChargeInflight(p, w, Cancelled);
      c := Change(Cancel, None, "cancellation_stopped_future_dispatch");
    case _ => c := Refusal;
  }

  /** All branches of `apply` before reconciliation, on the working values of the prior state. */
  method StageInPlace(p: Plan, revision: nat, e: Event, w: WorkingValues) returns (c: Change)
    requires p.ValidGraph()
    modifies w
    ensures Realizes(c, w.View(), Stage(p, revision, old(w.View()), e))
  {
    if e.at < w.now || (w.status != Running && !e.body.RuntimeStarted?) {
      return Refusal;
    }
    if e.body.TaskDispatched? || e.body.UsageSettled? {
      c := ApplyWork(p, revision, e, w);
    } else if e.body.UnknownInflight? || e.body.Cancellation? {
      c := ApplyCharge(p, revision, e, w);
    } else {
      c := ApplyControl(p, revision, e, w);
    }
  }

  lemma StagedLeaseIsKnown(p: Plan, revision: nat, v: Values, e: Event)
    requires KnownLease(p, v) && Stage(p, revision, v, e).Staged?
    ensures KnownLease(p, Stage(p, revision, v, e).values)
  {
    if e.body.TaskDispatched? {
      DispatchIsChoice(p, v, e.at);
    }
  }

  /** `apply`: one event on a copy of the prior values, then reconciliation, state and decision. */
  method ApplyEvent(p: Plan, prior: State, e: Event) returns (applied: Applied)
    requires p.ValidGraph() && KnownLease(p, prior.values)
    ensures applied == Apply(p, prior, e)
  {
    var w := new WorkingValues(prior.values);
    var c := StageInPlace(p, prior.revision, e, w);
    if c == Refusal {
      return Raises;
    }
    StagedLeaseIsKnown(p, prior.revision, prior.values, e);
    Reconcile(p, w);
    var values := w.View();
    var next := State(prior.revision + 1, Some(prior), values);
    var eligible := DispatchChoices(p, values, values.now);
    applied := Applied(next, Decision(
      next.revision, e, c.action, c.task, eligible, p.guarded,
      values.shed - prior.values.shed, prior, next, values.status, Reason(values.status, c.reason)));
  }

  /** `initial_state`: the envelope's caps and the skipped tasks, reconciled. */
  method InitialState(p: Plan) returns (s: State)
    ensures s == Initial(p)
  {
    var w := new WorkingValues(InitialValues(p));
    Reconcile(p, w);
    s := State(0, None, w.View());
  }

  /**
   * `plan_adaptive_admission` and the model's constructor: index the graph, close the protected set,
   * and check that the single-flight serial plan of the selection meets every deadline.
   */
  method Admit(tasks: seq<Task>, byId: map<TaskId, Task>, envelope: Envelope, admitted: map<TaskId, Profile>,
      skipped: set<TaskId>)
    returns (r: Option<Plan>)
    requires var p := Plan(tasks, byId, envelope, admitted, skipped, {});
             && p.ValidGraph() && p.Guard(byId.Keys - skipped)
             && skipped <= byId.Keys && admitted.Keys == byId.Keys - skipped
             && (forall t :: t in admitted ==>
               admitted[t].p50 <= admitted[t].p95 && admitted[t].name != "" && admitted[t].provider != "")
             && p.Total(admitted.Keys).Fits(envelope.caps)
    ensures r.Some? ==> Admitted(r.value) && r.value == Plan(tasks, byId, envelope, admitted, skipped, r.value.guarded)
    ensures r.Some? <==> SerialFit(Plan(tasks, byId, envelope, admitted, skipped, {}), {}, admitted.Keys, 0)
  {
    var bare := Plan(tasks, byId, envelope, admitted, skipped, {});
    var fit := SerialDeadlinesFit(bare, {}, admitted.Keys, 0);
    assert admitted.Keys - {} == admitted.Keys;
    if !fit {
      return None;
    }
    var guarded := ProtectedTaskIds(bare);
    var p := bare.(guarded := guarded);
    GuardedPlanIsAdmitted(bare, p);
    return Some(p);
  }

  /** The guarded set plays no part in the graph, the totals or the serial plan. */
  lemma {:induction false} SameSerial(bare: Plan, p: Plan, done: set<TaskId>, pending: set<TaskId>, now: nat)
    requires p == bare.(guarded := p.guarded)
    ensures SerialFit(p, done, pending, now) == SerialFit(bare, done, pending, now)
    decreases pending
  {
    SameReady(bare, p, done, pending);
    var ready := Ready(bare, done, pending);
    if pending != {} && ready != {} {
      var t := bare.Best(ready);
      p.BestIs(ready, t);
      SameSerial(bare, p, done + {t}, pending - {t}, now + bare.P95(t));
    }
  }

  lemma SameReady(bare: Plan, p: Plan, done: set<TaskId>, pending: set<TaskId>)
    requires p == bare.(guarded := p.guarded)
    ensures Ready(p, done, pending) == Ready(bare, done, pending)
    ensures forall a, b :: p.Before(a, b) == bare.Before(a, b)
    ensures forall t :: p.P95(t) == bare.P95(t) && p.DeadlineOf(t) == bare.DeadlineOf(t)
  {
    assert forall t :: p.Deps(t) == bare.Deps(t);
  }

  lemma {:induction false} SameTotal(bare: Plan, p: Plan, s: set<TaskId>)
    requires p == bare.(guarded := p.guarded)
    ensures p.Total(s) == bare.Total(s)
    decreases s
  {
    if s != {} {
      SameTotal(bare, p, s - {Any(s)});
      assert p.Need(Any(s)) == bare.Need(Any(s));
    }
  }

  lemma SameGuards(bare: Plan, p: Plan)
    requires p == bare.(guarded := p.guarded)
    ensures forall c :: p.Guard(c) == bare.Guard(c)
    ensures p.ValidGraph() == bare.ValidGraph()
  {
    assert forall t :: p.Deps(t) == bare.Deps(t);
  }

  lemma GuardedPlanIsAdmitted(bare: Plan, p: Plan)
    requires p == bare.(guarded := p.guarded)
    requires bare.ValidGraph() && bare.Guard(bare.byId.Keys - bare.skipped)
    requires bare.skipped <= bare.byId.Keys && bare.admitted.Keys == bare.byId.Keys - bare.skipped
    requires forall t :: t in bare.admitted ==>
      bare.admitted[t].p50 <= bare.admitted[t].p95 && bare.admitted[t].name != "" && bare.admitted[t].provider != ""
    requires bare.Total(bare.admitted.Keys).Fits(bare.envelope.caps)
    requires SerialFit(bare, {}, bare.admitted.Keys, 0)
    requires p.guarded <= bare.byId.Keys && bare.Guard(p.guarded)
    requires forall c :: bare.Guard(c) ==> p.guarded <= c
    ensures Admitted(p)
  {
    SameSerial(bare, p, {}, bare.admitted.Keys, 0);
    SameTotal(bare, p, bare.admitted.Keys);
    SameGuards(bare, p);
    assert p.guarded <= bare.byId.Keys - bare.skipped;
  }
}
