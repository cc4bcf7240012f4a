/** What single events do to a running controller that is on plan. */
module Transitions {
  import opened Contracts
  import opened Plans
  import opened SerialPlan
  import opened Controller
  import opened Replanning

  // ---------------------------------------------------------------- admission

  lemma GuardedFits(p: Plan)
    requires Admitted(p)
    ensures SerialFit(p, {}, p.guarded, 0)
    ensures p.Total(p.guarded).Fits(p.envelope.caps)
  {
    AdmittedIsScoped(p);
    GuardedEmbeds(p);
    SerialMonotone(p, {}, p.guarded, 0, {}, p.admitted.Keys, 0);
    p.TotalMonotone(p.guarded, p.admitted.Keys);
  }

  lemma GuardedEmbeds(p: Plan)
    requires Scoped(p)
    ensures Embeds(p, {}, p.guarded, {}, p.admitted.Keys)
  {
  }

  /** The whole selection remains at revision zero before reconciliation. */
  lemma InitialRemains(p: Plan)
    requires Scoped(p)
    ensures var v := InitialValues(p);
            && Shaped(p, v) && p.guarded !! v.shed
            && Remaining(p, v) == p.admitted.Keys && PendingGuarded(p, v) == p.guarded
            && v.Busy() == {} && Start(p, v) == 0 && !InflightLate(p, v)
  {
  }

  lemma InitialAffords(p: Plan)
    requires Scoped(p)
    requires p.Total(p.admitted.Keys).Fits(p.envelope.caps) && p.Total(p.guarded).Fits(p.envelope.caps)
    ensures var v := InitialValues(p);
            && v.Committed().Add(p.Total(p.admitted.Keys)).Fits(v.caps)
            && Affords(p, v, {})
  {
    InitialRemains(p);
    var v := InitialValues(p);
    InitialCommitsNothing(p);
    p.TotalEmpty();
    ZeroAdds(p.Total(p.admitted.Keys));
    ZeroAdds(p.Total(p.guarded));
  }

  lemma InitialCommitsNothing(p: Plan)
    ensures InitialValues(p).Committed() == ZERO
  {
    var v := InitialValues(p);
    assert v.settled == ZERO;
    assert v.unknownUsage == ZERO;
    assert v.Reserved() == ZERO;
    NothingCommitted(v);
  }

  lemma NothingCommitted(v: Values)
    requires v.settled == v.unknownUsage == v.Reserved() == ZERO
    ensures v.Committed() == ZERO
  {
    ZeroAdds(ZERO);
  }

  lemma ZeroAdds(a: Usage)
    ensures ZERO.Add(a) == a && a.Add(ZERO) == a
  {
  }

  lemma InitialFits(p: Plan)
    requires Admitted(p)
    ensures var v := InitialValues(p);
            && v.Committed().Add(p.Total(p.admitted.Keys)).Fits(v.caps)
            && !Refuses(p, v)
  {
    AdmittedIsScoped(p);
    InitialRemains(p);
    GuardedFits(p);
    InitialAffords(p);
    assert InitialValues(p).now == 0;
  }

  /** Admission is honoured: the controller starts on plan, or has nothing to do. */
  lemma InitialIsOnPlan(p: Plan)
    requires Admitted(p)
    ensures var v := Initial(p).values;
            && Shaped(p, v) && Planned(p, v) && v.inflight.None?
            && v == InitialValues(p).(shed := v.shed, status := v.status)
            && (OnPlan(p, v) || (v.status == Completed && Remaining(p, v) == {} && p.guarded <= v.completed))
  {
    AdmittedIsScoped(p);
    InitialRemains(p);
    InitialFits(p);
    var v := InitialValues(p);
    assert Reconciled(p, v) == Replanned(p, v);
    ReconciledIsSound(p, v);
  }

  /** Each admitted optional task is worth less than the optional tasks it depends on. */
  ghost predicate ValueOrdered(p: Plan) {
    forall t, d :: t in p.admitted.Keys - p.guarded && d in p.Deps(t) && d !in p.guarded ==> p.Before(d, t)
  }

  /**
   * The controller keeps the scheduler's whole selection exactly when optional dependencies come
   * first in value order; otherwise it sheds admitted work at revision zero.
   */
  lemma InitialShedsOnlySkipped(p: Plan)
    requires Admitted(p)
    ensures Initial(p).values.shed == p.skipped <==> ValueOrdered(p)
  {
    AdmittedIsScoped(p);
    InitialRemains(p);
    var v := InitialValues(p);
    if ValueOrdered(p) {
      InitialFits(p);
      ValueOrderSuffices(p);
      PlannedIsKept(p, v);
    }
    if Initial(p).values.shed == p.skipped {
      InitialIsOnPlan(p);
      ValueOrderNeeded(p, Initial(p).values);
    }
  }

  lemma ValueOrderSuffices(p: Plan)
    requires Admitted(p) && ValueOrdered(p)
    ensures Ordered(p, {}, p.admitted.Keys)
  {
    forall t, d | t in p.admitted.Keys - p.guarded && d in p.Deps(t)
      ensures d in p.guarded || (d in p.admitted.Keys && p.Before(d, t))
    {
      SerialDeps(p, {}, p.admitted.Keys, 0, t);
    }
  }

  lemma ValueOrderNeeded(p: Plan, v: Values)
    requires Scoped(p) && Shaped(p, v) && Planned(p, v)
    requires v.shed == p.skipped && v.completed == {} && v.inflight.None?
    ensures ValueOrdered(p)
  {
    assert Remaining(p, v) == p.admitted.Keys;
    assert v.Busy() == {};
  }

  // ---------------------------------------------------------------- dispatch

  function DispatchBody(p: Plan, t: TaskId): Body
    requires t in p.admitted
  {
    var profile := p.admitted[t];
    TaskDispatched(t, 1, profile.provider, profile.name, profile.usage)
  }

  ghost function Leased(p: Plan, v: Values, e: Event): Values
    requires e.body.TaskDispatched?
  {
    v.(now := e.at,
       inflight := Some(Inflight(e.body.task, 1, e.body.provider, e.body.backend, e.body.reservation, e)))
  }

  /** The task of a dispatch is a legal choice of the prior state. */
  lemma DispatchIsChoice(p: Plan, v: Values, at: nat)
    requires NextDispatch(p, v, at).Some?
    ensures var t := NextDispatch(p, v, at).value;
            t in p.admitted && Choice(p, v, at, t) && v.status == Running && v.inflight.None? && v.now <= at
  {
  }

  /** Putting a chosen task in flight keeps the rest of the plan. */
  lemma LeaseIsPlanned(p: Plan, v: Values, e: Event)
    requires Scoped(p) && OnPlan(p, v) && v.inflight.None?
    requires e.body.TaskDispatched? && e.body.task in p.admitted && e.body.reservation == p.Need(e.body.task)
    requires Choice(p, v, e.at, e.body.task)
    ensures Shaped(p, Leased(p, v, e)) && Planned(p, Leased(p, v, e))
  {
    var t := e.body.task;
    var w := Leased(p, v, e);
    var rest := Remaining(p, v) - {t};
    assert v.Busy() == v.completed;
    assert w.Busy() == v.completed + {t};
    assert Remaining(p, w) == rest;
    assert rest == Unfinished(p, v) - {t};
    assert Start(p, w) == e.at + p.P95(t);
    assert w.Committed().Add(p.Total(rest)).Fits(w.caps) by {
      p.TotalPick(Remaining(p, v), t);
      AddLaws(v.settled.Add(v.unknownUsage), ZERO, ZERO);
    }
    assert Ordered(p, w.Busy(), rest);
  }

  /** An accepted dispatch changes the clock and the lease and nothing else: it never sheds or refuses. */
  lemma DispatchKeepsPlan(p: Plan, s: State, e: Event)
    requires Scoped(p) && OnPlan(p, s.values)
    requires e.body.TaskDispatched? && Stage(p, s.revision, s.values, e).Staged?
    ensures Apply(p, s, e).Applied? && Apply(p, s, e).next.values == Leased(p, s.values, e)
    ensures OnPlan(p, Leased(p, s.values, e))
    ensures Some(e.body.task) == NextDispatch(p, s.values, e.at)
    ensures Choice(p, s.values, e.at, e.body.task)
  {
    DispatchIsChoice(p, s.values, e.at);
    DispatchStages(p, s, e);
    LeaseIsPlanned(p, s.values, e);
    PlannedIsKept(p, Leased(p, s.values, e));
  }

  lemma DispatchStages(p: Plan, s: State, e: Event)
    requires e.body.TaskDispatched? && Stage(p, s.revision, s.values, e).Staged?
    ensures Some(e.body.task) == NextDispatch(p, s.values, e.at)
    ensures e.body.task in p.admitted && e.body.reservation == p.Need(e.body.task)
    ensures Stage(p, s.revision, s.values, e).values == Leased(p, s.values, e)
  {
  }

  /** The event the runtime builds from its own choice is always accepted. */
  lemma OwnDispatchIsAccepted(p: Plan, s: State, id: EventId, at: nat)
    requires NextDispatch(p, s.values, at).Some?
    ensures var t := NextDispatch(p, s.values, at).value;
            t in p.admitted && Stage(p, s.revision, s.values, Event(id, at, DispatchBody(p, t))).Staged?
  {
    DispatchIsChoice(p, s.values, at);
  }

  // ---------------------------------------------------------------- settlement

  ghost function Finished(v: Values, e: Event): Values
    requires e.body.UsageSettled?
  {
    v.(now := e.at, completed := v.completed + {e.body.task}, settled := v.settled.Add(e.body.actual), inflight := None)
  }

  lemma FinishIsPlanned(p: Plan, v: Values, e: Event)
    requires Scoped(p) && OnPlan(p, v) && v.inflight.Some?
    requires e.body.UsageSettled? && e.body.task == v.inflight.value.task
    requires e.body.actual.Fits(v.inflight.value.reservation)
    requires v.now <= e.at <= Start(p, v)
    ensures Shaped(p, Finished(v, e)) && Planned(p, Finished(v, e))
    ensures Remaining(p, Finished(v, e)) == Remaining(p, v)
  {
    var w := Finished(v, e);
    assert w.Busy() == v.Busy();
    assert Remaining(p, w) == Remaining(p, v);
    assert Embeds(p, v.Busy(), Remaining(p, v), v.Busy(), Remaining(p, v));
    SerialMonotone(p, v.Busy(), Remaining(p, v), e.at, v.Busy(), Remaining(p, v), Start(p, v));
    assert Start(p, w) == e.at;
    assert Ordered(p, w.Busy(), Remaining(p, w));
  }

  /** A settlement within the in-flight task's p95 never sheds or refuses; the run ends with its work. */
  lemma SettlementKeepsPlan(p: Plan, s: State, e: Event)
    requires Scoped(p) && OnPlan(p, s.values)
    requires e.body.UsageSettled? && Stage(p, s.revision, s.values, e).Staged?
    requires e.at <= Start(p, s.values)
    ensures var done := Remaining(p, s.values) == {};
            Apply(p, s, e).Applied? &&
            var next := Apply(p, s, e).next.values;
            && next == Finished(s.values, e).(status := if done then Completed else Running)
            && Remaining(p, next) == Remaining(p, s.values)
            && (!done ==> OnPlan(p, next))
  {
    FinishIsPlanned(p, s.values, e);
    PlannedIsKept(p, Finished(s.values, e));
    GuardedAndRemaining(p, Finished(s.values, e));
  }

  // ---------------------------------------------------------------- idle progress

  /** The head of the serial plan of the remaining work. */
  ghost function Head(p: Plan, v: Values): TaskId
    requires OnPlan(p, v) && v.inflight.None?
  {
    IdleHasHead(p, v);
    p.Best(Ready(p, v.completed, Remaining(p, v)))
  }

  lemma IdleHasHead(p: Plan, v: Values)
    requires OnPlan(p, v) && v.inflight.None?
    ensures Ready(p, v.completed, Remaining(p, v)) != {}
  {
    assert v.Busy() == v.completed;
  }

  /** Every filter but provider availability lets the head pass, and the head comes first. */
  lemma HeadIsDispatched(p: Plan, v: Values)
    requires Scoped(p) && OnPlan(p, v) && v.inflight.None?
    requires Available(p, v, Head(p, v))
    ensures NextDispatch(p, v, v.now) == Some(Head(p, v))
  {
    var rest := Remaining(p, v);
    var t := Head(p, v);
    IdleHasHead(p, v);
    HeadIsChoice(p, v);
    var choices := Choices(p, v, v.now);
    assert choices <= Ready(p, v.completed, rest);
    p.BestIs(choices, t);
  }

  lemma IdleIsSerial(p: Plan, v: Values)
    requires Scoped(p) && OnPlan(p, v) && v.inflight.None?
    ensures SerialFit(p, v.completed, Remaining(p, v), v.now) && Remaining(p, v) == Unfinished(p, v)
  {
    assert v.Busy() == v.completed && Start(p, v) == v.now;
    assert Remaining(p, v) == Unfinished(p, v);
  }

  lemma HeadIsChoice(p: Plan, v: Values)
    requires Scoped(p) && OnPlan(p, v) && v.inflight.None?
    requires Available(p, v, Head(p, v))
    ensures Choice(p, v, v.now, Head(p, v))
  {
    var t := Head(p, v);
    IdleHasHead(p, v);
    IdleIsSerial(p, v);
    FitHead(p, v.completed, Remaining(p, v), v.now, t);
    HeadAffordable(p, v, t);
    ChoiceFromHead(p, v, t, Remaining(p, v));
  }

  /** The tests of `_dispatch_choices`, one by one. */
  lemma ChoiceFromHead(p: Plan, v: Values, t: TaskId, rest: set<TaskId>)
    requires Scoped(p) && rest == Unfinished(p, v) && t in rest && p.Deps(t) <= v.completed && Available(p, v, t)
    requires v.settled.Add(v.unknownUsage).Add(p.Need(t)).Add(p.Total(p.guarded - v.completed - {t})).Fits(v.caps)
    requires v.now + p.P95(t) <= p.DeadlineOf(t)
    requires SerialFit(p, v.completed + {t}, rest - {t}, v.now + p.P95(t))
    ensures Choice(p, v, v.now, t)
  {
  }

  lemma HeadAffordable(p: Plan, v: Values, t: TaskId)
    requires Scoped(p) && OnPlan(p, v) && v.inflight.None? && t in Remaining(p, v)
    ensures v.settled.Add(v.unknownUsage).Add(p.Need(t)).Add(p.Total(p.guarded - v.completed - {t})).Fits(v.caps)
  {
    var rest := Remaining(p, v);
    p.TotalPick(rest, t);
    p.TotalMonotone(p.guarded - v.completed - {t}, rest - {t});
    AddLaws(v.settled.Add(v.unknownUsage), ZERO, ZERO);
  }

  // ---------------------------------------------------------------- control events

  predicate ControlEvent(e: Event) {
    e.body.Provider429? || e.body.ProviderReset? || e.body.ProviderCapacity? || e.body.BudgetCut?
  }

  /** The values after a control event: later, perhaps with other caps and provider facts. */
  ghost predicate Later(v: Values, w: Values) {
    v.now <= w.now && w == v.(now := w.now, caps := w.caps, resets := w.resets, capacities := w.capacities)
  }

  lemma ControlIsLater(p: Plan, revision: nat, v: Values, e: Event)
    requires ControlEvent(e) && Stage(p, revision, v, e).Staged?
    ensures var w := Stage(p, revision, v, e).values;
      Later(v, w) && w.now == e.at && w.caps == (if e.body.BudgetCut? then e.body.caps else v.caps)
  {
  }

  /** Past the deadline of the run, unfinished protected work is late in flight or cannot be planned any more. */
  lemma OverdueIsLate(p: Plan, w: Values)
    requires w.now > p.envelope.deadline && !(p.guarded <= w.completed)
    ensures InflightLate(p, w) || !SerialFit(p, w.Busy(), PendingGuarded(p, w), Start(p, w))
  {
    if w.inflight.None? {
      var t :| t in p.guarded && t !in w.completed;
      assert t in PendingGuarded(p, w);
    }
  }

  /** The budget that protected work still needs, on top of the commitment. */
  ghost predicate ProtectedFits(p: Plan, v: Values, caps: Usage) {
    v.Committed().Add(p.Total(PendingGuarded(p, v))).Fits(caps)
  }

  lemma LaterAffords(p: Plan, v: Values, w: Values)
    requires Later(v, w)
    ensures Affords(p, w, {}) <==> ProtectedFits(p, v, w.caps)
    ensures w.Busy() == v.Busy() && PendingGuarded(p, w) == PendingGuarded(p, v)
  {
    assert w.Committed() == v.Committed();
    p.TotalEmpty();
    ZeroAdds(w.Committed().Add(p.Total(PendingGuarded(p, w))));
  }

  /** Optional work that a refusal gives up, by its cause. */
  ghost function GivenUp(p: Plan, w: Values): set<TaskId> {
    if InflightLate(p, w) || (w.now > p.envelope.deadline && !(p.guarded <= w.completed)) then {}
    else if !SerialFit(p, w.Busy(), PendingGuarded(p, w), Start(p, w)) then p.admitted.Keys - p.guarded - w.completed
    else p.byId.Keys - p.guarded - w.completed - w.Flying()
  }

  lemma LaterReconciles(p: Plan, v: Values, w: Values)
    requires Scoped(p) && Shaped(p, v) && Planned(p, v) && v.status == Running && Later(v, w)
    ensures var r := Reconciled(p, w);
      if InflightLate(p, w) || !SerialFit(p, v.Busy(), PendingGuarded(p, v), Start(p, w))
        || !ProtectedFits(p, v, w.caps)
      then r == w.(shed := v.shed + GivenUp(p, w), status := Refused)
      else r.status != Refused && Planned(p, r)
  {
    LaterAffords(p, v, w);
    if w.now > p.envelope.deadline && !(p.guarded <= w.completed) {
      OverdueIsLate(p, w);
    } else if !Refuses(p, w) {
      ReplannedIsPlanned(p, w);
    }
  }

  /**
   * A provider event or budget cut, at any time from the clock of the state on, refuses a running plan
   * exactly when by then the in-flight task is late, the unfinished protected work no longer meets its
   * deadlines one after the other, or the commitment and its reservations exceed the caps. Otherwise the
   * state stays within budget and deadlines.
   */
  lemma ControlRefusesExactly(p: Plan, s: State, e: Event)
    requires Scoped(p) && OnPlan(p, s.values) && ControlEvent(e) && Stage(p, s.revision, s.values, e).Staged?
    ensures Apply(p, s, e).Applied?
    ensures var v, next := s.values, Apply(p, s, e).next.values;
      var w := Stage(p, s.revision, v, e).values;
      && (next.status == Refused <==>
        || InflightLate(p, w)
        || !SerialFit(p, v.Busy(), PendingGuarded(p, v), Start(p, w))
        || !ProtectedFits(p, v, if e.body.BudgetCut? then e.body.caps else v.caps))
      && (next.status == Refused ==> next.shed == v.shed + GivenUp(p, w))
      && (next.status != Refused ==> Planned(p, next))
  {
    ControlIsLater(p, s.revision, s.values, e);
    LaterReconciles(p, s.values, Stage(p, s.revision, s.values, e).values);
  }

  /** At the present time only a cut can refuse, and it gives up all unfinished optional work but the in-flight one. */
  lemma PromptControlRefusesExactly(p: Plan, s: State, e: Event)
    requires Scoped(p) && OnPlan(p, s.values) && ControlEvent(e) && Stage(p, s.revision, s.values, e).Staged?
    requires e.at == s.values.now
    ensures Apply(p, s, e).Applied?
    ensures var v, next := s.values, Apply(p, s, e).next.values;
      && (next.status == Refused <==> e.body.BudgetCut? && !ProtectedFits(p, v, e.body.caps))
      && (next.status == Refused ==> next.shed == v.shed + (p.byId.Keys - p.guarded - v.completed - v.Flying()))
  {
    var v, w := s.values, Stage(p, s.revision, s.values, e).values;
    ControlIsLater(p, s.revision, v, e);
    LaterReconciles(p, v, w);
    PlannedPasses(p, v);
    LaterAffords(p, v, v);
  }
}
