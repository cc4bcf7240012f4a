/** Which task is dispatched, which optional work is kept, and what a decision reports. */
module Choosing {
  import opened Contracts
  import opened Plans
  import opened SerialPlan
  import opened Controller
  import opened Replanning
  import opened Transitions

  /** From `start` on, the tasks of `work` run one after the other in dispatch order, all by their deadlines. */
  ghost predicate OnSchedule(p: Plan, done: set<TaskId>, work: set<TaskId>, start: nat) {
    var order := SerialOrder(p, done, work);
    Elements(order) == work && OnTime(p, order, start)
  }

  lemma ScheduleIsFit(p: Plan, done: set<TaskId>, work: set<TaskId>, start: nat)
    ensures SerialFit(p, done, work, start) <==> OnSchedule(p, done, work, start)
  {
    SerialFitIsOrder(p, done, work, start);
  }

  // ---------------------------------------------------------------- the next dispatch

  /** No reset window blocks the provider, and its capacity, as reported or declared, is positive. */
  ghost predicate Open(p: Plan, v: Values, provider: string) {
    && provider !in v.resets
    && (provider in v.capacities ==> v.capacities[provider] > 0)
    && (provider !in v.capacities && provider in p.envelope.providerLimits ==> p.envelope.providerLimits[provider] > 0)
    && (provider !in v.capacities && provider !in p.envelope.providerLimits ==> p.envelope.maxParallelism > 0)
  }

  /** Every condition under which task `t` may go into the empty slot at time `at`. */
  ghost predicate Dispatchable(p: Plan, v: Values, at: nat, t: TaskId) {
    && v.status == Running && v.inflight.None? && v.now <= at
    && t in p.byId && t in p.admitted && t !in v.completed && t !in v.shed
    && (forall d :: d in p.Deps(t) ==> d in v.completed)
    && Open(p, v, p.admitted[t].provider)
    && v.settled.Add(v.unknownUsage).Add(p.Need(t)).Add(p.Total(p.guarded - v.completed - {t})).Fits(v.caps)
    && at + p.P95(t) <= p.DeadlineOf(t)
    && OnSchedule(p, v.completed + {t}, p.admitted.Keys - v.completed - v.shed - {t}, at + p.P95(t))
  }

  lemma ChoiceIsDispatchable(p: Plan, v: Values, at: nat, t: TaskId)
    ensures t in Choices(p, v, at) <==> Dispatchable(p, v, at, t)
  {
    var rest := Unfinished(p, v) - {t};
    assert rest == p.admitted.Keys - v.completed - v.shed - {t};
    ScheduleIsFit(p, v.completed + {t}, rest, at + p.P95(t));
  }

  /** No other dispatchable task comes before `t` in dispatch order. */
  ghost predicate FirstDispatchable(p: Plan, v: Values, at: nat, t: TaskId) {
    && Dispatchable(p, v, at, t)
    && forall u :: Dispatchable(p, v, at, u) && u != t ==> p.Before(t, u)
  }

  lemma DispatchIsFirst(p: Plan, v: Values, at: nat)
    ensures match NextDispatch(p, v, at)
            case Some(t) => FirstDispatchable(p, v, at, t)
            case None => forall u :: !Dispatchable(p, v, at, u)
  {
    forall u
      ensures u in Choices(p, v, at) <==> Dispatchable(p, v, at, u)
    {
      ChoiceIsDispatchable(p, v, at, u);
    }
  }

  /** In any state and at any time: the first dispatchable task is dispatched, and nothing only if there is none. */
  lemma NextDispatchExactly(p: Plan, v: Values, at: nat, t: TaskId)
    ensures NextDispatch(p, v, at) == Some(t) <==> FirstDispatchable(p, v, at, t)
    ensures NextDispatch(p, v, at) == None <==> forall u :: !Dispatchable(p, v, at, u)
  {
    DispatchIsFirst(p, v, at);
    if FirstDispatchable(p, v, at, t) && NextDispatch(p, v, at).Some? {
      FirstIsUnique(p, v, at, t, NextDispatch(p, v, at).value);
    }
  }

  lemma FirstIsUnique(p: Plan, v: Values, at: nat, t: TaskId, u: TaskId)
    requires FirstDispatchable(p, v, at, t) && FirstDispatchable(p, v, at, u)
    ensures t == u
  {
  }

  // ---------------------------------------------------------------- what reconciliation keeps

  /** Optional admitted work that is neither done, nor in flight, nor shed. */
  ghost predicate Negotiable(p: Plan, v: Values, t: TaskId) {
    t in p.admitted && t !in p.guarded && t !in v.completed && t !in v.shed && t !in v.Flying()
  }

  /** Beside the commitment and the protected work there is budget and time for all of `optional`. */
  ghost predicate Room(p: Plan, v: Values, optional: set<TaskId>) {
    && v.Committed().Add(p.Total(PendingGuarded(p, v))).Add(p.Total(optional)).Fits(v.caps)
    && OnSchedule(p, v.Busy(), PendingGuarded(p, v) + optional, Start(p, v))
  }

  ghost function Above(p: Plan, kept: set<TaskId>, t: TaskId): set<TaskId> {
    set u | u in kept && p.Before(u, t)
  }

  lemma AdmitsIsRoom(p: Plan, v: Values, kept: set<TaskId>, t: TaskId)
    requires t !in kept
    ensures Admits(p, v, kept, t) <==> Room(p, v, kept + {t})
  {
    p.TotalInsert(kept, t);
    assert PendingGuarded(p, v) + kept + {t} == PendingGuarded(p, v) + (kept + {t});
    ScheduleIsFit(p, v.Busy(), PendingGuarded(p, v) + kept + {t}, Start(p, v));
  }

  lemma {:induction false} SelectWithin(p: Plan, v: Values, order: seq<TaskId>)
    ensures Select(p, v, order) <= Elements(order)
  {
    if order != [] {
      SelectWithin(p, v, order[..|order| - 1]);
      assert Elements(order[..|order| - 1]) <= Elements(order);
    }
  }

  /** The greedy pass keeps a task exactly when there is room for it beside the better ones it keeps. */
  lemma {:induction false} SelectExactly(p: Plan, v: Values, order: seq<TaskId>, t: TaskId)
    requires Descending(p, order) && t in order
    ensures var kept := Select(p, v, order); t in kept <==> Room(p, v, Above(p, kept, t) + {t})
  {
    var front, last := order[..|order| - 1], order[|order| - 1];
    PrefixDescending(p, order);
    SelectWithin(p, v, front);
    var before, kept := Select(p, v, front), Select(p, v, order);
    if t == last {
      assert Above(p, kept, t) == before;
      AdmitsIsRoom(p, v, before, t);
    } else {
      assert t in Elements(front);
      SelectExactly(p, v, front, t);
      assert Above(p, kept, t) == Above(p, before, t);
    }
  }

  lemma CandidatesAreNegotiable(p: Plan, v: Values)
    ensures forall t :: t in Candidates(p, v) <==> Negotiable(p, v, t)
  {
  }

  /** Replanning keeps negotiable work exactly when there is room for it beside the better work that is kept. */
  lemma KeptExactly(p: Plan, v: Values, t: TaskId)
    requires Scoped(p) && Shaped(p, v) && !Refuses(p, v) && v.status != Cancelled && Negotiable(p, v, t)
    ensures var r := Reconciled(p, v);
      var better := set u | u in p.admitted && Negotiable(p, v, u) && u !in r.shed && p.Before(u, t);
      t !in r.shed <==> Room(p, v, better + {t})
  {
    var r, order := Reconciled(p, v), Sorted(p, Candidates(p, v));
    var kept := Select(p, v, order);
    KeptIsSelected(p, v, r, kept);
    SortedSorts(p, Candidates(p, v));
    CandidatesAreNegotiable(p, v);
    assert t in Elements(order);
    SelectExactly(p, v, order, t);
    AboveInShed(p, v, r, kept, t);
  }

  lemma AboveInShed(p: Plan, v: Values, r: Values, kept: set<TaskId>, t: TaskId)
    requires forall u :: u in kept <==> Negotiable(p, v, u) && u !in r.shed
    ensures Above(p, kept, t) == set u | u in p.admitted && Negotiable(p, v, u) && u !in r.shed && p.Before(u, t)
  {
  }

  lemma KeptIsSelected(p: Plan, v: Values, r: Values, kept: set<TaskId>)
    requires Scoped(p) && Shaped(p, v) && !Refuses(p, v) && v.status != Cancelled && r == Reconciled(p, v)
    requires kept == Select(p, v, Sorted(p, Candidates(p, v)))
    ensures forall u :: u in kept <==> Negotiable(p, v, u) && u !in r.shed
  {
    ReplannedSheds(p, v);
    CandidatesAreNegotiable(p, v);
    KeptIsUnshed(p, v, r, kept);
  }

  lemma KeptIsUnshed(p: Plan, v: Values, r: Values, kept: set<TaskId>)
    requires kept <= Candidates(p, v) && r.shed == v.shed + (Candidates(p, v) - kept)
    requires forall t :: t in Candidates(p, v) <==> Negotiable(p, v, t)
    ensures forall u :: u in kept <==> Negotiable(p, v, u) && u !in r.shed
  {
    forall u
      ensures u in kept <==> Negotiable(p, v, u) && u !in r.shed
    {
      assert u in Candidates(p, v) <==> Negotiable(p, v, u);
    }
  }

  /** Nothing but negotiable work is shed by replanning. */
  lemma OnlyNegotiableIsShed(p: Plan, v: Values, t: TaskId)
    requires Scoped(p) && Shaped(p, v) && !Refuses(p, v) && v.status != Cancelled && t in Reconciled(p, v).shed
    ensures t in v.shed || Negotiable(p, v, t)
  {
    ReplannedSheds(p, v);
    CandidatesAreNegotiable(p, v);
  }

  // ---------------------------------------------------------------- when a run refuses or completes

  /** The in-flight task cannot end by its deadline, a protected task is shed, or the run is overdue. */
  ghost predicate Lost(p: Plan, v: Values) {
    || (exists t :: t in p.guarded && t in v.shed)
    || (v.now > p.envelope.deadline && exists t :: t in p.guarded && t !in v.completed)
    || (v.inflight.Some? &&
        var t := v.inflight.value.task; v.now + p.P95(t) > p.DeadlineOf(t))
  }

  /** Work of the graph that is neither done nor shed, or a task in flight. */
  ghost predicate Settled(p: Plan, v: Values, shed: set<TaskId>) {
    && v.inflight.None?
    && (forall t :: t in p.byId ==> t in v.completed || t in shed)
    && (forall t :: t in p.guarded ==> t in v.completed)
  }

  ghost predicate ProtectedOnTime(p: Plan, v: Values) {
    OnSchedule(p, v.Busy(), PendingGuarded(p, v), Start(p, v))
  }

  lemma RefusesExactly(p: Plan, v: Values)
    ensures Refuses(p, v) <==> Lost(p, v) || !ProtectedOnTime(p, v) || !ProtectedFits(p, v, v.caps)
    ensures Lost(p, v) <==> p.guarded * v.shed != {} || (v.now > p.envelope.deadline && !(p.guarded <= v.completed))
                            || InflightLate(p, v)
  {
    ScheduleIsFit(p, v.Busy(), PendingGuarded(p, v), Start(p, v));
    p.TotalEmpty();
    ZeroAdds(v.Committed().Add(p.Total(PendingGuarded(p, v))));
    LostIsEarly(p, v);
  }

  lemma LostIsEarly(p: Plan, v: Values)
    ensures Lost(p, v) <==> p.guarded * v.shed != {} || (v.now > p.envelope.deadline && !(p.guarded <= v.completed))
                            || InflightLate(p, v)
  {
    if p.guarded * v.shed != {} {
      var t :| t in p.guarded * v.shed;
    } else {
      assert forall t :: t in p.guarded && t in v.shed ==> t in p.guarded * v.shed;
    }
  }

  /** The status after reconciliation, for every state that is not cancelled. */
  lemma StatusExactly(p: Plan, v: Values)
    requires Scoped(p) && Shaped(p, v) && v.status != Cancelled
    ensures var r := Reconciled(p, v);
      var hopeless := Lost(p, v) || !ProtectedOnTime(p, v) || !ProtectedFits(p, v, v.caps);
      && r == v.(shed := r.shed, status := r.status)
      && (r.status == Completed <==> !hopeless && Settled(p, v, r.shed))
      && (r.status == Refused <==> hopeless || (v.status == Refused && !Settled(p, v, r.shed)))
      && (r.status != Completed && r.status != Refused ==> r.status == Running)
  {
    RefusesExactly(p, v);
    if Refuses(p, v) {
      RefusedIsSound(p, v);
    } else {
      ReplannedSheds(p, v);
    }
  }

  /** What a refusal gives up: nothing, all admitted optional work, or all optional work not in flight. */
  lemma RefusalShedsExactly(p: Plan, v: Values, t: TaskId)
    requires Scoped(p) && Shaped(p, v) && v.status != Cancelled && t !in v.shed
    ensures Lost(p, v) ==> t !in Reconciled(p, v).shed
    ensures !Lost(p, v) && !ProtectedOnTime(p, v) ==>
      (t in Reconciled(p, v).shed <==> t in p.admitted && t !in p.guarded && t !in v.completed)
    ensures !Lost(p, v) && ProtectedOnTime(p, v) && !ProtectedFits(p, v, v.caps) ==>
      (t in Reconciled(p, v).shed <==> Negotiable(p, v, t))
  {
    RefusesExactly(p, v);
    ScheduleIsFit(p, v.Busy(), PendingGuarded(p, v), Start(p, v));
  }

  // ---------------------------------------------------------------- the decision

  function ActionOf(body: Body): Action {
    match body
    case RuntimeStarted => Initialize
    case TaskDispatched(_, _, _, _, _) => Dispatch
    case UsageSettled(_, _, _, _) => Settle
    case UnknownInflight(_, _, _) => Recover
    case Cancellation(_) => Cancel
    case _ => Action.Replan
  }

  function SubjectOf(body: Body): Option<TaskId> {
    match body
    case TaskDispatched(t, _, _, _, _) => Some(t)
    case UsageSettled(t, _, _, _) => Some(t)
    case UnknownInflight(t, _, _) => Some(t)
    case _ => None
  }

  function CauseOf(body: Body): string {
    match body
    case RuntimeStarted => "controller_started"
    case Provider429(_, _) => "provider_reset_window_applied"
    case ProviderReset(_) => "provider_reset_window_cleared"
    case ProviderCapacity(_, _) => "provider_capacity_changed"
    case BudgetCut(_) => "budget_cut_applied"
    case TaskDispatched(_, _, _, _, _) => "task_dispatched_with_protected_budget"
    case UsageSettled(_, _, _, _) => "usage_settled_and_task_completed"
    case UnknownInflight(_, _, _) => "unknown_inflight_charged_at_full_reservation"
    case Cancellation(_) => "cancellation_stopped_future_dispatch"
  }

  lemma StagedReport(p: Plan, revision: nat, v: Values, e: Event)
    requires Stage(p, revision, v, e).Staged?
    ensures var staged := Stage(p, revision, v, e);
      staged.action == ActionOf(e.body) && staged.task == SubjectOf(e.body) && staged.reason == CauseOf(e.body)
  {
  }

  /** A decision reports the event, what it newly shed, and exactly the tasks that may be dispatched next. */
  lemma DecisionExactly(p: Plan, s: State, e: Event, next: State, d: Decision)
    requires Apply(p, s, e) == Applied(next, d)
    ensures next.revision == d.revision == s.revision + 1 && next.prior == Some(s) && d.prior == s && d.next == next
    ensures d.event == e && d.action == ActionOf(e.body) && d.task == SubjectOf(e.body)
    ensures d.guarded == p.guarded && d.status == next.values.status
    ensures forall t :: t in d.newlyShed <==> t in next.values.shed && t !in s.values.shed
    ensures forall t :: t in d.eligible <==> Dispatchable(p, next.values, next.values.now, t)
    ensures d.reason == if d.status == Refused then "mandatory_protection_failed"
                        else if d.status == Completed then "all_admitted_work_reached_a_terminal_fact"
                        else CauseOf(e.body)
  {
    StagedReport(p, s.revision, s.values, e);
    forall t
      ensures t in d.eligible <==> Dispatchable(p, next.values, next.values.now, t)
    {
      ChoiceIsDispatchable(p, next.values, next.values.now, t);
    }
  }
}
