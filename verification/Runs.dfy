/** Invariants over every run of the controller: soundness, conservation and single dispatch. */
module Runs {
  import opened Contracts
  import opened Plans
  import opened Controller
  import opened Replanning
  import opened Transitions

  /** The state after a run of events, or `None` when some event of the run is illegal. */
  ghost function After(p: Plan, events: seq<Event>): Option<State> {
    if events == [] then Some(Initial(p)) else
    match After(p, events[..|events| - 1])
    case None => None
    case Some(s) =>
      match Apply(p, s, events[|events| - 1])
      case Raises => None
      case Applied(next, _) => Some(next)
  }

  lemma AfterFront(p: Plan, events: seq<Event>)
    requires events != [] && After(p, events).Some?
    ensures var front, e := events[..|events| - 1], events[|events| - 1];
            && After(p, front).Some?
            && var s := After(p, front).value;
            && Stage(p, s.revision, s.values, e).Staged?
            && Apply(p, s, e).Applied?
            && After(p, events).value == Apply(p, s, e).next
            && After(p, events).value.values == Reconciled(p, Stage(p, s.revision, s.values, e).values)
  {
  }

  lemma {:induction false} AfterPrefix(p: Plan, events: seq<Event>, n: nat)
    requires n <= |events| && After(p, events).Some?
    ensures After(p, events[..n]).Some?
    decreases |events|
  {
    if n == |events| {
      assert events[..n] == events;
    } else {
      AfterFront(p, events);
      AfterPrefix(p, events[..|events| - 1], n);
      assert events[..|events| - 1][..n] == events[..n];
    }
  }

  // ---------------------------------------------------------------- soundness of all states

  /** Facts of every state, whatever its status. */
  ghost predicate Accounted(p: Plan, v: Values) {
    && v.completed <= p.admitted.Keys
    && p.skipped <= v.shed <= p.byId.Keys
    && v.completed !! v.shed
    && p.guarded !! v.shed
    && v.unknown <= p.admitted.Keys - v.completed
    && v.unknown <= v.shed + p.guarded
    && v.unknownUsage == p.Total(v.unknown)
    && v.settled.Fits(p.Total(v.completed))
    && v.caps.Fits(p.envelope.caps)
    && (v.inflight.Some? ==>
      && v.inflight.value.task in p.admitted.Keys - v.completed - v.unknown
      && v.inflight.value.reservation == p.Need(v.inflight.value.task))
  }

  /** The invariant of all reachable states. */
  ghost predicate Sound(p: Plan, v: Values) {
    && Accounted(p, v)
    && v.Committed().Fits(p.envelope.caps)
    && (v.status == Running || v.status == Completed ==> v.unknown <= v.shed)
    && (v.status == Running ==> OnPlan(p, v))
    && (v.status == Completed ==> Finale(p, v))
    && (v.status == Cancelled ==> v.inflight.None?)
  }

  ghost predicate Finale(p: Plan, v: Values) {
    Shaped(p, v) && Planned(p, v) && v.inflight.None? && Remaining(p, v) == {} && p.guarded <= v.completed
  }

  /** What a branch of `apply` may hand to reconciliation. */
  ghost predicate StagedWell(p: Plan, v: Values) {
    && Accounted(p, v)
    && v.Committed().Fits(p.envelope.caps)
    && (v.status == Running ==> v.unknown <= v.shed)
    && (if v.status == Cancelled then v.inflight.None?
      else Shaped(p, v) && (v.status == Running || v.status == Refused))
  }

  lemma FitsThrough(a: Usage, b: Usage, c: Usage, d: Usage)
    requires a.Add(b).Fits(c) && c.Fits(d)
    ensures a.Fits(d)
  {
  }

  lemma OnPlanFits(p: Plan, v: Values)
    requires OnPlan(p, v) && v.caps.Fits(p.envelope.caps)
    ensures v.Committed().Fits(p.envelope.caps)
  {
    FitsThrough(v.Committed(), p.Total(Remaining(p, v)), v.caps, p.envelope.caps);
  }

  /** Reconciliation turns well-staged values into a sound state. */
  lemma ReconciledStaysSound(p: Plan, v: Values, r: Values)
    requires Scoped(p) && StagedWell(p, v) && r == Reconciled(p, v)
    ensures Sound(p, r)
  {
    if v.status != Cancelled {
      ReconciledIsSound(p, v);
      SameCommitment(v, r);
      if r.status == Completed {
        assert v.unknown !! p.guarded;
      }
    }
  }

  lemma SameCommitment(v: Values, w: Values)
    requires w == v.(shed := w.shed, status := w.status)
    ensures w.Committed() == v.Committed()
  {
  }

  // One lemma for each branch of `apply` from a running state.

  lemma ControlStagesWell(p: Plan, v: Values, w: Values)
    requires Scoped(p) && Sound(p, v) && v.status == Running
    requires w == v.(caps := w.caps, resets := w.resets, capacities := w.capacities, now := w.now)
    requires w.caps.Fits(v.caps)
    ensures StagedWell(p, w)
  {
    assert w.Committed() == v.Committed();
  }

  lemma DispatchStagesWell(p: Plan, s: State, e: Event)
    requires Scoped(p) && Sound(p, s.values) && s.values.status == Running
    requires e.body.TaskDispatched? && Stage(p, s.revision, s.values, e).Staged?
    ensures StagedWell(p, Leased(p, s.values, e))
    ensures e.body.task !in s.values.completed + s.values.unknown && s.values.inflight.None?
  {
    DispatchKeepsPlan(p, s, e);
    DispatchIsChoice(p, s.values, e.at);
    OnPlanFits(p, Leased(p, s.values, e));
  }

  lemma SettlementStagesWell(p: Plan, v: Values, e: Event)
    requires Scoped(p) && Sound(p, v) && v.status == Running && v.inflight.Some?
    requires e.body.UsageSettled? && e.body.task == v.inflight.value.task
    requires e.body.actual.Fits(v.inflight.value.reservation)
    ensures StagedWell(p, Finished(v, e))
  {
    var t := e.body.task;
    var w := Finished(v, e);
    p.TotalPick(w.completed, t);
    assert w.completed - {t} == v.completed;
    AddLaws(v.settled, v.unknownUsage, e.body.actual);
    AddLaws(v.settled, e.body.actual, v.unknownUsage);
    AddLaws(v.settled.Add(e.body.actual).Add(v.unknownUsage), ZERO, ZERO);
  }

  lemma ChargeTotals(p: Plan, v: Values, w: Values)
    requires Accounted(p, v)
    requires w.unknown == v.unknown + v.Flying() && w.unknownUsage == v.unknownUsage.Add(v.Reserved())
    ensures w.unknownUsage == p.Total(w.unknown)
  {
    if v.inflight.Some? {
      var t := v.inflight.value.task;
      p.TotalPick(w.unknown, t);
      assert w.unknown - {t} == v.unknown;
    } else {
      assert w.unknown == v.unknown;
      AddLaws(v.unknownUsage, ZERO, ZERO);
    }
  }

  lemma ChargeCommits(v: Values, w: Values)
    requires w.settled == v.settled && w.unknownUsage == v.unknownUsage.Add(v.Reserved()) && w.inflight.None?
    ensures w.Committed() == v.Committed()
  {
    AddLaws(v.settled, v.unknownUsage, v.Reserved());
    AddLaws(v.settled.Add(v.unknownUsage.Add(v.Reserved())), ZERO, ZERO);
  }

  lemma ChargeStagesWell(p: Plan, v: Values, at: nat, status: Status)
    requires Scoped(p) && Sound(p, v) && v.status == Running
    requires status == Cancelled || (v.inflight.Some? &&
      status == if v.inflight.value.task in p.guarded then Refused else Running)
    ensures StagedWell(p, Charged(p, v.(now := at), status))
  {
    var now := v.(now := at);
    assert now.Committed() == v.Committed();
    ChargeTotals(p, now, Charged(p, now, status));
    ChargeCommits(now, Charged(p, now, status));
  }

  /** What each branch of `apply` stages, kind by kind. */
  lemma ControlStages(p: Plan, revision: nat, v: Values, e: Event)
    requires Stage(p, revision, v, e).Staged?
    requires e.body.RuntimeStarted? || e.body.Provider429? || e.body.ProviderReset? || e.body.ProviderCapacity?
      || e.body.BudgetCut?
    ensures var w := Stage(p, revision, v, e).values;
            && w == v.(caps := w.caps, resets := w.resets, capacities := w.capacities, now := e.at)
            && w.caps.Fits(v.caps)
  {
  }

  lemma SettlementStages(p: Plan, revision: nat, v: Values, e: Event)
    requires Stage(p, revision, v, e).Staged? && e.body.UsageSettled?
    ensures v.inflight.Some? && v.now <= e.at
    ensures e.body.task == v.inflight.value.task && e.body.actual.Fits(v.inflight.value.reservation)
    ensures Stage(p, revision, v, e).values == Finished(v, e)
  {
  }

  lemma ChargeStages(p: Plan, revision: nat, v: Values, e: Event)
    requires Stage(p, revision, v, e).Staged? && (e.body.UnknownInflight? || e.body.Cancellation?)
    ensures var w := Stage(p, revision, v, e).values;
            && v.status == Running
            && w == Charged(p, v.(now := e.at), w.status)
            && (w.status == Cancelled || (v.inflight.Some? &&
              w.status == if v.inflight.value.task in p.guarded then Refused else Running))
  {
  }

  lemma StageIsWell(p: Plan, s: State, e: Event)
    requires Scoped(p) && Sound(p, s.values) && s.values.status == Running
    requires Stage(p, s.revision, s.values, e).Staged?
    ensures StagedWell(p, Stage(p, s.revision, s.values, e).values)
  {
    var v := s.values;
    var w := Stage(p, s.revision, v, e).values;
    if e.body.TaskDispatched? {
      DispatchStages(p, s, e);
      DispatchStagesWell(p, s, e);
    } else if e.body.UsageSettled? {
      SettlementStages(p, s.revision, v, e);
      SettlementStagesWell(p, v, e);
    } else if e.body.UnknownInflight? || e.body.Cancellation? {
      ChargeStages(p, s.revision, v, e);
      ChargeStagesWell(p, v, e.at, w.status);
    } else {
      ControlStages(p, s.revision, v, e);
      ControlStagesWell(p, v, w);
    }
  }

  lemma EmptyIsAccounted(p: Plan, v: Values)
    requires Scoped(p)
    requires v.completed == v.unknown == {} && v.inflight.None? && v.shed == p.skipped
    requires v.settled == v.unknownUsage == ZERO && v.caps == p.envelope.caps
    ensures Accounted(p, v)
  {
    p.TotalEmpty();
  }

  lemma InitialIsAccounted(p: Plan, v: Values)
    requires Scoped(p) && v == InitialValues(p)
    ensures Accounted(p, v) && Shaped(p, v)
    ensures v.Committed() == ZERO && v.status == Running && v.unknown <= v.shed
  {
    InitialRemains(p);
    InitialCommitsNothing(p);
    assert v.status == Running;
    assert v.completed == {};
    assert v.unknown == {};
    assert v.settled == ZERO;
    assert v.unknownUsage == ZERO;
    EmptyIsAccounted(p, v);
  }

  lemma FreshIsStaged(p: Plan, v: Values)
    requires Accounted(p, v) && Shaped(p, v)
    requires v.Committed().Fits(p.envelope.caps) && v.status == Running && v.unknown <= v.shed
    ensures StagedWell(p, v)
  {
  }

  lemma NothingFits(used: Usage, cap: Usage)
    requires used == ZERO
    ensures used.Fits(cap)
  {
  }

  lemma InitialIsStaged(p: Plan, v: Values)
    requires Scoped(p) && v == InitialValues(p)
    ensures StagedWell(p, v)
  {
    InitialIsAccounted(p, v);
    NothingFits(v.Committed(), p.envelope.caps);
    FreshIsStaged(p, v);
  }

  lemma InitialIsSound(p: Plan, v: Values, r: Values)
    requires Scoped(p) && v == InitialValues(p) && r == Reconciled(p, v)
    ensures Sound(p, r)
  {
    InitialIsStaged(p, v);
    ReconciledStaysSound(p, v, r);
  }

  /** Starting twice from a finished initial state changes nothing. */
  lemma FinaleIsFixpoint(p: Plan, v: Values)
    requires Scoped(p) && v.status == Completed && Finale(p, v)
    ensures Reconciled(p, v) == v
  {
    PlannedIsKept(p, v);
    GuardedAndRemaining(p, v);
  }

  /** A finished run accepts only a second start at revision zero, which changes nothing. */
  lemma RestartIsIdle(p: Plan, s: State, e: Event)
    requires Admitted(p) && s == Initial(p) && s.values.status == Completed
    requires Stage(p, s.revision, s.values, e).Staged?
    ensures Reconciled(p, Stage(p, s.revision, s.values, e).values) == s.values
  {
    AdmittedIsScoped(p);
    InitialIsOnPlan(p);
    assert s.values.(now := 0) == s.values;
    FinaleIsFixpoint(p, s.values);
  }

  /** Every reachable state is sound, and its revision counts its events. */
  lemma {:induction false} ReachableIsSound(p: Plan, events: seq<Event>)
    requires Admitted(p) && After(p, events).Some?
    ensures var s := After(p, events).value;
            && Sound(p, s.values)
            && s.revision == |events|
    decreases |events|
  {
    if events == [] {
      AdmittedIsScoped(p);
      InitialIsSound(p, InitialValues(p), After(p, events).value.values);
    } else {
      var front, e := events[..|events| - 1], events[|events| - 1];
      AfterFront(p, events);
      ReachableIsSound(p, front);
      AdmittedIsScoped(p);
      StepIsSound(p, front, After(p, front).value, e, After(p, events).value.values);
    }
  }

  lemma StepIsSound(p: Plan, front: seq<Event>, s: State, e: Event, r: Values)
    requires Admitted(p) && Scoped(p) && After(p, front) == Some(s)
    requires Sound(p, s.values) && s.revision == |front| && Stage(p, s.revision, s.values, e).Staged?
    requires r == Reconciled(p, Stage(p, s.revision, s.values, e).values)
    ensures Sound(p, r)
  {
    if s.values.status == Running {
      StageIsWell(p, s, e);
      ReconciledStaysSound(p, Stage(p, s.revision, s.values, e).values, r);
    } else {
      assert front == [] && s == Initial(p);
      InitialIsOnPlan(p);
      RestartIsIdle(p, s, e);
    }
  }
}
