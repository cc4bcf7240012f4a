/**
 * The adaptive controller as a function of the plan: how one event stages a change, how the
 * controller re-decides what to shed, refuse or complete, and which task it dispatches next.
 */
module Controller {
  import opened Contracts
  import opened Plans
  import opened SerialPlan

  datatype Status = Running | Completed | Refused | Cancelled

  datatype Body =
    | RuntimeStarted
    | Provider429(provider: string, resetAt: nat)
    | ProviderReset(provider: string)
    | ProviderCapacity(provider: string, capacity: nat)
    | BudgetCut(caps: Usage)
    | TaskDispatched(task: TaskId, attempt: nat, provider: string, backend: string, reservation: Usage)
    | UsageSettled(task: TaskId, attempt: nat, actual: Usage, output: string)
    | Cancellation(reason: string)
    | UnknownInflight(task: TaskId, attempt: nat, reservation: Usage)

  /** `runtime-started`, or the event kind numbered by the revision it creates. */
  datatype EventId = StartId | Numbered(kind: string, revision: nat)

  datatype Event = Event(id: EventId, at: nat, body: Body)

  function Kind(body: Body): string {
    match body
    case RuntimeStarted => "runtime.started"
    case Provider429(_, _) => "provider.429"
    case ProviderReset(_) => "provider.reset"
    case ProviderCapacity(_, _) => "provider.capacity"
    case BudgetCut(_) => "budget.cut"
    case TaskDispatched(_, _, _, _, _) => "task.dispatched"
    case UsageSettled(_, _, _, _) => "usage.settled"
    case Cancellation(_) => "runtime.cancelled"
    case UnknownInflight(_, _, _) => "recovery.unknown_inflight"
  }

  /** The checks on event details made both when an event is created and when it is decoded. */
  predicate ValidDetails(body: Body) {
    match body
    case RuntimeStarted => true
    case Provider429(provider, resetAt) => provider != "" && 1 <= resetAt
    case ProviderReset(provider) => provider != ""
    case ProviderCapacity(provider, _) => provider != ""
    case BudgetCut(_) => true
    case TaskDispatched(_, attempt, provider, backend, _) => 1 <= attempt && provider != "" && backend != ""
    case UsageSettled(_, attempt, _, _) => 1 <= attempt
    case Cancellation(reason) => reason != ""
    case UnknownInflight(_, attempt, _) => 1 <= attempt
  }

  /** The single in-flight reservation; a digest stands for the digested value. */
  datatype Inflight = Inflight(
    task: TaskId, attempt: nat, provider: string, backend: string, reservation: Usage, dispatch: Event)

  /** The part of the state that events change and reconciliation re-decides. */
  datatype Values = Values(
    caps: Usage,
    settled: Usage,
    unknownUsage: Usage,
    completed: set<TaskId>,
    shed: set<TaskId>,
    unknown: set<TaskId>,
    inflight: Option<Inflight>,
    resets: map<string, nat>,
    capacities: map<string, nat>,
    now: nat,
    status: Status)
  {
    function Flying(): set<TaskId> {
      if inflight.Some? then {inflight.value.task} else {}
    }

    function Busy(): set<TaskId> {
      completed + Flying()
    }

    function Reserved(): Usage {
      if inflight.Some? then inflight.value.reservation else ZERO
    }

    function Committed(): Usage {
      settled.Add(unknownUsage).Add(Reserved())
    }
  }

  // ---------------------------------------------------------------- reconciliation

  /** When the serial plan of the remaining tasks starts: after the in-flight task at its p95. */
  ghost function Start(p: Plan, v: Values): nat {
    v.now + if v.inflight.Some? then p.P95(v.inflight.value.task) else 0
  }

  ghost predicate InflightLate(p: Plan, v: Values) {
    v.inflight.Some? && Start(p, v) > p.DeadlineOf(v.inflight.value.task)
  }

  ghost function PendingGuarded(p: Plan, v: Values): set<TaskId> {
    p.guarded - v.Busy()
  }

  ghost function Candidates(p: Plan, v: Values): set<TaskId> {
    p.admitted.Keys - p.guarded - v.completed - v.shed - v.Flying()
  }

  /** `sorted(...)` in dispatch order. */
  ghost function Sorted(p: Plan, s: set<TaskId>): seq<TaskId> {
    if s == {} then [] else [p.Best(s)] + Sorted(p, s - {p.Best(s)})
  }

  ghost predicate Affords(p: Plan, v: Values, kept: set<TaskId>) {
    v.Committed().Add(p.Total(PendingGuarded(p, v))).Add(p.Total(kept)).Fits(v.caps)
  }

  /** The greedy test of one more optional task. */
  ghost predicate Admits(p: Plan, v: Values, kept: set<TaskId>, t: TaskId) {
    && v.Committed().Add(p.Total(PendingGuarded(p, v))).Add(p.Total(kept).Add(p.Need(t))).Fits(v.caps)
    && SerialFit(p, v.Busy(), PendingGuarded(p, v) + kept + {t}, Start(p, v))
  }

  /** The optional tasks kept by the greedy pass over `order`. */
  ghost function Select(p: Plan, v: Values, order: seq<TaskId>): set<TaskId> {
    if order == [] then {} else
    var kept := Select(p, v, order[..|order| - 1]);
    var t := order[|order| - 1];
    if Admits(p, v, kept, t) then kept + {t} else kept
  }

  /** A part of `kept` without dependencies on shed tasks or on the rest of `kept`. */
  ghost predicate Sustained(p: Plan, kept: set<TaskId>, shed: set<TaskId>, part: set<TaskId>) {
    part <= kept && forall t :: t in part ==> p.Deps(t) !! shed + (kept - part)
  }

  /** What the shed cascade leaves: the union of all sustained parts. */
  ghost function Survivors(p: Plan, kept: set<TaskId>, shed: set<TaskId>): set<TaskId> {
    set t | t in kept && exists part :: Sustained(p, kept, shed, part) && t in part
  }

  ghost function Refuse(v: Values, alsoShed: set<TaskId>): Values {
    v.(shed := v.shed + alsoShed, status := Refused)
  }

  /** Greedy selection, the shed cascade and the terminal test. */
  ghost function Replanned(p: Plan, v: Values): Values {
    var candidates := Candidates(p, v);
    var kept := Select(p, v, Sorted(p, candidates));
    var survivors := Survivors(p, kept, v.shed + (candidates - kept));
    var shed := v.shed + (candidates - survivors);
    v.(shed := shed, status := FinalStatus(p, v, shed))
  }

  ghost function FinalStatus(p: Plan, v: Values, shed: set<TaskId>): Status {
    if v.inflight.None? && p.byId.Keys <= v.completed + shed && p.guarded <= v.completed then Completed
    else if v.status == Refused then Refused
    else Running
  }

  ghost function Reconciled(p: Plan, v: Values): Values {
    if v.status == Cancelled then v
    else if p.guarded * v.shed != {} then Refuse(v, {})
    else if v.now > p.envelope.deadline && !(p.guarded <= v.completed) then Refuse(v, {})
    else if InflightLate(p, v) then Refuse(v, {})
    else if !SerialFit(p, v.Busy(), PendingGuarded(p, v), Start(p, v)) then
      Refuse(v, p.admitted.Keys - p.guarded - v.completed)
    else if !Affords(p, v, {}) then
      Refuse(v, p.byId.Keys - p.guarded - v.completed - v.Flying())
    else Replanned(p, v)
  }

  // ---------------------------------------------------------------- dispatch

  predicate Available(p: Plan, v: Values, t: TaskId) {
    && t in p.admitted
    && var provider := p.admitted[t].provider;
    && provider !in v.resets
    && 0 < if provider in v.capacities then v.capacities[provider] else p.envelope.ProviderLimit(provider)
  }

  ghost function Unfinished(p: Plan, v: Values): set<TaskId> {
    p.admitted.Keys - v.completed - v.shed
  }

  /** The filters of `_dispatch_choices` for one task at time `at`. */
  ghost predicate Choice(p: Plan, v: Values, at: nat, t: TaskId) {
    && t in p.byId.Keys - v.completed - v.shed
    && p.Deps(t) <= v.completed
    && Available(p, v, t)
    && v.settled.Add(v.unknownUsage).Add(p.Need(t)).Add(p.Total(p.guarded - v.completed - {t})).Fits(v.caps)
    && at + p.P95(t) <= p.DeadlineOf(t)
    && SerialFit(p, v.completed + {t}, Unfinished(p, v) - {t}, at + p.P95(t))
  }

  ghost function Choices(p: Plan, v: Values, at: nat): set<TaskId> {
    if v.status != Running || v.inflight.Some? || at < v.now then {}
    else set t | t in p.byId.Keys && Choice(p, v, at, t)
  }

  ghost function NextDispatch(p: Plan, v: Values, at: nat): Option<TaskId> {
    var choices := Choices(p, v, at);
    if choices == {} then None else Some(p.Best(choices))
  }

  // ---------------------------------------------------------------- events

  datatype Action = Initialize | Replan | Dispatch | Settle | Recover | Cancel

  /** The values after the branch of one event kind, before reconciliation. */
  datatype Staged = Illegal | Staged(values: Values, action: Action, task: Option<TaskId>, reason: string)

  predicate KnownProvider(p: Plan, provider: string) {
    exists t :: t in p.admitted && p.admitted[t].provider == provider
  }

  /** `apply` up to the call of `_reconcile`; `Illegal` stands for a raised invariant error. */
  ghost function Stage(p: Plan, revision: nat, prior: Values, e: Event): Staged {
    if e.at < prior.now || (prior.status != Running && !e.body.RuntimeStarted?) then Illegal else
    var v := prior.(now := e.at);
    match e.body
    case RuntimeStarted =>
      if revision != 0 || e.at != 0 then Illegal
      else Staged(v, Initialize, None, "controller_started")
    case Provider429(provider, resetAt) =>
      if !KnownProvider(p, provider) || resetAt <= e.at then Illegal
      else
        var reset := if provider in v.resets && v.resets[provider] > resetAt then v.resets[provider] else resetAt;
        Staged(v.(resets := v.resets[provider := reset]), Replan, None, "provider_reset_window_applied")
    case ProviderReset(provider) =>
      if !KnownProvider(p, provider) || provider !in v.resets || e.at < v.resets[provider] then Illegal
      else Staged(v.(resets := v.resets - {provider}), Replan, None, "provider_reset_window_cleared")
    case ProviderCapacity(provider, capacity) =>
      if !KnownProvider(p, provider) then Illegal
      else Staged(v.(capacities := v.capacities[provider := capacity]), Replan, None, "provider_capacity_changed")
    case BudgetCut(caps) =>
      if !caps.Fits(v.caps) then Illegal
      else Staged(v.(caps := caps), Replan, None, "budget_cut_applied")
    case TaskDispatched(task, attempt, provider, backend, reservation) =>
      var expected := NextDispatch(p, prior, e.at);
      if expected.None? || task != expected.value || task !in p.admitted then Illegal else
      var profile := p.admitted[task];
      if provider != profile.provider || backend != profile.name || attempt != 1 || reservation != profile.usage
      then Illegal
      else Staged(v.(inflight := Some(Inflight(task, 1, provider, backend, reservation, e))), Dispatch, Some(task),
                  "task_dispatched_with_protected_budget")
    case UsageSettled(task, attempt, actual, output) =>
      if v.inflight.None? then Illegal else
      var lease := v.inflight.value;
      if lease.task != task || lease.attempt != attempt || !actual.Fits(lease.reservation) then Illegal
      else Staged(v.(completed := v.completed + {task}, settled := v.settled.Add(actual), inflight := None),
                  Settle, Some(task), "usage_settled_and_task_completed")
    case UnknownInflight(task, attempt, reservation) =>
      if v.inflight.None? then Illegal else
      var lease := v.inflight.value;
      if lease.task != task || lease.attempt != attempt || reservation != lease.reservation then Illegal
      else Staged(Charged(p, v, if task in p.guarded then Refused else v.status), Recover, Some(task),
                  "unknown_inflight_charged_at_full_reservation")
    case Cancellation(_) =>
      Staged(Charged(p, v, Cancelled), Cancel, None, "cancellation_stopped_future_dispatch")
  }

  /** The in-flight task becomes unknown, is charged in full, and is shed unless protected. */
  ghost function Charged(p: Plan, v: Values, status: Status): Values {
    v.(unknownUsage := v.unknownUsage.Add(v.Reserved()),
       unknown := v.unknown + v.Flying(),
       shed := v.shed + (v.Flying() - p.guarded),
       inflight := None,
       status := status)
  }

  /** A revision of the controller; `prior` is the state its prior digest commits to. */
  datatype State = State(revision: nat, prior: Option<State>, values: Values)

  datatype Decision = Decision(
    revision: nat, event: Event, action: Action, task: Option<TaskId>, eligible: set<TaskId>,
    guarded: set<TaskId>, newlyShed: set<TaskId>, prior: State, next: State, status: Status, reason: string)

  /** `apply` raises on an illegal event and otherwise gives the next state and the decision. */
  datatype Applied = Raises | Applied(next: State, decision: Decision)

  function InitialValues(p: Plan): Values {
    Values(p.envelope.caps, ZERO, ZERO, {}, p.skipped, {}, None, map[], map[], 0, Running)
  }

  ghost function Initial(p: Plan): State {
    State(0, None, Reconciled(p, InitialValues(p)))
  }

  function Reason(status: Status, reason: string): string {
    match status
    case Refused => "mandatory_protection_failed"
    case Completed => "all_admitted_work_reached_a_terminal_fact"
    case _ => reason
  }

  ghost function Apply(p: Plan, prior: State, e: Event): Applied {
    match Stage(p, prior.revision, prior.values, e)
    case Illegal => Raises
    case Staged(staged, action, task, reason) =>
      var values := Reconciled(p, staged);
      var next := State(prior.revision + 1, Some(prior), values);
      Applied(next, Decision(
        next.revision, e, action, task, Choices(p, values, values.now), p.guarded,
        values.shed - prior.values.shed, prior, next, values.status, Reason(values.status, reason)))
  }

  /** Admission: valid graph and guard, a scheduler selection, and the single-flight plan fits. */
  ghost predicate Admitted(p: Plan) {
    && p.ValidGraph()
    && p.ValidGuard()
    && p.ValidSelection()
    && SerialFit(p, {}, p.admitted.Keys, 0)
  }
}
