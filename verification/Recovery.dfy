/** Crash recovery: what holds of the durable facts after any operations, crashes and restarts. */
module Recovery {
  import opened Contracts
  import opened Plans
  import opened Controller
  import opened Replanning
  import opened Transitions
  import opened Runs
  import opened Histories
  import opened Runtime

  /** The summed durable actual usage of a set of tasks. */
  ghost function Actuals(done: map<TaskId, Completion>, s: set<TaskId>): Usage {
    if s == {} then ZERO else
    var t := Any(s);
    Actuals(done, s - {t}).Add(if t in done then done[t].actual else ZERO)
  }

  lemma {:induction false} ActualsPick(done: map<TaskId, Completion>, s: set<TaskId>, t: TaskId)
    requires t in s
    ensures Actuals(done, s) == Actuals(done, s - {t}).Add(if t in done then done[t].actual else ZERO)
    decreases s
  {
    var u := Any(s);
    if u != t {
      ActualsPick(done, s - {u}, t);
      ActualsPick(done, s - {t}, u);
      assert s - {u} - {t} == s - {t} - {u};
      var rest := Actuals(done, s - {t} - {u});
      AddLaws(rest, if t in done then done[t].actual else ZERO, if u in done then done[u].actual else ZERO);
      AddLaws(rest, if u in done then done[u].actual else ZERO, if t in done then done[t].actual else ZERO);
      AddLaws(if u in done then done[u].actual else ZERO, if t in done then done[t].actual else ZERO, ZERO);
    }
  }

  lemma {:induction false} ActualsIgnore(done: map<TaskId, Completion>, s: set<TaskId>, t: TaskId, c: Completion)
    requires t !in s
    ensures Actuals(done[t := c], s) == Actuals(done, s)
    decreases s
  {
    if s != {} {
      ActualsIgnore(done, s - {Any(s)}, t, c);
    }
  }

  /** How the durable facts relate to the controller state. */
  ghost predicate Ledger(p: Plan, sys: System) {
    var v := sys.state.values;
    && v.completed <= sys.completions.Keys <= v.completed + v.Flying() + v.unknown
    && (forall t :: t in sys.completions ==> sys.completions[t].actual.Fits(p.Need(t)))
    && v.settled == Actuals(sys.completions, v.completed)
    && Distinct(sys.calls)
    && sys.completions.Keys <= Elements(sys.calls) <= Started(v)
    && sys.attempts.Keys <= Started(v)
    && (forall t :: t in sys.attempts ==> sys.attempts[t] == 1)
    && (v.status != Cancelled ==> sys.completions.Keys !! v.unknown)
  }

  /** The invariant of every run of the runtime. */
  ghost predicate Durable(p: Plan, sys: System) {
    && After(p, sys.events) == Some(sys.state)
    && Sound(p, sys.state.values)
    && Ledger(p, sys)
  }

  lemma AfterAppend(p: Plan, events: seq<Event>, e: Event)
    requires After(p, events).Some?
    ensures After(p, events + [e]) ==
            match Apply(p, After(p, events).value, e) { case Raises => None case Applied(next, _) => Some(next) }
  {
    assert (events + [e])[..|events|] == events;
  }

  /** An accepted event: the record is appended and the state is the reconciled staged one. */
  lemma AppendAccepted(p: Plan, sys: System, e: Event, next: System)
    requires Admitted(p) && Durable(p, sys) && next == Append(p, sys, e)
    requires Stage(p, sys.state.revision, sys.state.values, e).Staged?
    ensures next == sys.(state := next.state, events := sys.events + [e])
    ensures next.state.values == Reconciled(p, Stage(p, sys.state.revision, sys.state.values, e).values)
    ensures After(p, next.events) == Some(next.state)
    ensures Sound(p, next.state.values)
  {
    AfterAppend(p, sys.events, e);
    ReachableIsSound(p, sys.events + [e]);
  }

  // ---------------------------------------------------------------- one lemma per event family

  /** Events that move no work keep the ledger. */
  lemma ControlKeepsLedger(p: Plan, sys: System, e: Event, next: System)
    requires Admitted(p) && Durable(p, sys) && next == Append(p, sys, e)
    requires e.body.RuntimeStarted? || (ControlBody(e.body) && !e.body.Cancellation?)
    requires sys.state.values.status != Cancelled
    ensures Durable(p, next)
  {
    if Stage(p, sys.state.revision, sys.state.values, e).Staged? {
      AppendAccepted(p, sys, e, next);
      ControlStages(p, sys.state.revision, sys.state.values, e);
      ReconciledKeepsLedger(p, Stage(p, sys.state.revision, sys.state.values, e).values);
      SameLedger(p, sys, next);
    }
  }

  lemma SameLedger(p: Plan, sys: System, next: System)
    requires Ledger(p, sys)
    requires next == sys.(state := next.state, events := next.events)
    requires var v, w := sys.state.values, next.state.values;
             v.completed == w.completed && v.unknown == w.unknown && v.inflight == w.inflight && v.settled == w.settled
    requires sys.state.values.status != Cancelled
    ensures Ledger(p, next)
  {
  }

  /** Charging the in-flight task as unknown: cancellation, or recovery without a durable completion. */
  lemma ChargeKeepsLedger(p: Plan, sys: System, e: Event, next: System)
    requires Admitted(p) && Durable(p, sys) && next == Append(p, sys, e)
    requires e.body.Cancellation? || (e.body.UnknownInflight? && e.body.task !in sys.completions)
    ensures Durable(p, next)
  {
    if Stage(p, sys.state.revision, sys.state.values, e).Staged? {
      AppendAccepted(p, sys, e, next);
      ChargeStages(p, sys.state.revision, sys.state.values, e);
      ChargeTask(p, sys.state.revision, sys.state.values, e);
      ReconciledKeepsLedger(p, Stage(p, sys.state.revision, sys.state.values, e).values);
      ChargedLedger(p, sys, next);
    }
  }

  lemma ChargeTask(p: Plan, revision: nat, v: Values, e: Event)
    requires Stage(p, revision, v, e).Staged?
    ensures e.body.UnknownInflight? ==> v.Flying() == {e.body.task}
    ensures e.body.Cancellation? ==> Stage(p, revision, v, e).values.status == Cancelled
  {
  }

  lemma ChargedLedger(p: Plan, sys: System, next: System)
    requires Ledger(p, sys)
    requires next == sys.(state := next.state, events := next.events)
    requires var v, w := sys.state.values, next.state.values;
             && v.completed == w.completed && w.unknown == v.unknown + v.Flying() && w.inflight.None?
             && v.settled == w.settled && v.status == Running
             && (w.status == Cancelled || sys.completions.Keys !! v.Flying())
    ensures Ledger(p, next)
  {
  }

  /** Settling a task whose completion is already durable with the same usage. */
  lemma SettleKeepsLedger(p: Plan, sys: System, e: Event, next: System)
    requires Admitted(p) && Durable(p, sys) && next == Append(p, sys, e)
    requires e.body.UsageSettled? && e.body.task in sys.completions
    requires sys.completions[e.body.task].actual == e.body.actual
    ensures Durable(p, next)
  {
    if Stage(p, sys.state.revision, sys.state.values, e).Staged? {
      AppendAccepted(p, sys, e, next);
      SettlementStages(p, sys.state.revision, sys.state.values, e);
      ReconciledKeepsLedger(p, Finished(sys.state.values, e));
      SettledLedger(p, sys, next, e.body.task);
    }
  }

  lemma SettledLedger(p: Plan, sys: System, next: System, t: TaskId)
    requires Ledger(p, sys) && sys.state.values.status == Running
    requires next == sys.(state := next.state, events := next.events)
    requires sys.state.values.Flying() == {t} && t in sys.completions
    requires t !in sys.state.values.completed
    requires var v, w := sys.state.values, next.state.values;
             && w.completed == v.completed + {t} && w.unknown == v.unknown && w.inflight.None?
             && w.settled == v.settled.Add(sys.completions[t].actual)
    ensures Ledger(p, next)
  {
    var v, w := sys.state.values, next.state.values;
    ActualsPick(sys.completions, w.completed, t);
    assert w.completed - {t} == v.completed;
  }

  /** The event built for the runtime's own choice is accepted, on plan, and for a fresh task. */
  lemma OwnDispatch(p: Plan, s: State, at: nat, t: TaskId, e: Event)
    requires Scoped(p) && Sound(p, s.values)
    requires NextDispatch(p, s.values, at) == Some(t) && t in p.admitted
    requires e.at == at && e.body == DispatchBody(p, t)
    ensures Stage(p, s.revision, s.values, e).Staged?
    ensures Stage(p, s.revision, s.values, e).values == Leased(p, s.values, e)
    ensures Reconciled(p, Leased(p, s.values, e)) == Leased(p, s.values, e) && OnPlan(p, Leased(p, s.values, e))
    ensures s.values.status == Running && s.values.inflight.None? && t !in Started(s.values)
    ensures at + p.P95(t) <= p.DeadlineOf(t)
  {
    DispatchIsChoice(p, s.values, at);
    OwnDispatchIsAccepted(p, s, e.id, at);
    DispatchStages(p, s, e);
    DispatchKeepsPlan(p, s, e);
    DispatchStagesWell(p, s, e);
  }

  /** Recording a dispatch: the task is new to every durable fact. */
  lemma DispatchKeepsLedger(p: Plan, sys: System, at: nat, t: TaskId)
    requires Admitted(p) && Durable(p, sys)
    requires NextDispatch(p, sys.state.values, at) == Some(t) && t in p.admitted
    ensures var next := Recorded(p, sys, at, t);
            && Durable(p, next)
            && next == sys.(state := next.state, events := next.events)
            && next.state.values == Leased(p, sys.state.values, Issue(sys.state, at, DispatchBody(p, t)))
            && OnPlan(p, next.state.values)
            && t !in next.completions && t !in next.calls && t !in next.attempts
            && at + p.P95(t) <= p.DeadlineOf(t)
  {
    AdmittedIsScoped(p);
    var e := Issue(sys.state, at, DispatchBody(p, t));
    OwnDispatch(p, sys.state, at, t, e);
    AppendAccepted(p, sys, e, Append(p, sys, e));
    DispatchedLedger(p, sys, Recorded(p, sys, at, t), t);
  }

  lemma DispatchedLedger(p: Plan, sys: System, next: System, t: TaskId)
    requires Ledger(p, sys) && sys.state.values.status == Running
    requires next == sys.(state := next.state, events := next.events)
    requires sys.state.values.inflight.None? && t !in Started(sys.state.values)
    requires var v, w := sys.state.values, next.state.values;
             w.completed == v.completed && w.unknown == v.unknown && w.Flying() == {t} && w.settled == v.settled
    ensures Ledger(p, next)
    ensures t !in next.completions && t !in next.calls && t !in next.attempts
  {
    assert t !in Elements(next.calls);
  }

  // ---------------------------------------------------------------- dispatch and recovery

  lemma RecoveryKeepsLedger(p: Plan, sys: System, at: nat)
    requires Admitted(p) && Durable(p, sys)
    ensures Durable(p, Recovered(p, sys, at))
    ensures var next := Recovered(p, sys, at); next == sys.(state := next.state, events := next.events)
  {
    if sys.state.values.inflight.Some? {
      var lease := sys.state.values.inflight.value;
      var e := Issue(sys.state, at, RecoveryBody(sys, lease));
      if lease.task in sys.completions {
        SettleKeepsLedger(p, sys, e, Append(p, sys, e));
      } else {
        ChargeKeepsLedger(p, sys, e, Append(p, sys, e));
      }
    }
  }

  /** The task in flight has started its only attempt. */
  ghost predicate Airborne(p: Plan, sys: System, t: TaskId) {
    && Durable(p, sys)
    && sys.state.values.Flying() == {t}
    && sys.state.values.status == Running
    && t !in sys.completions
  }

  lemma AttemptIsFirst(p: Plan, sys: System, t: TaskId)
    requires Airborne(p, sys, t) && t !in sys.attempts
    ensures Airborne(p, Attempted(sys, t), t)
    ensures Attempted(sys, t).attempts[t] == 1
  {
  }

  lemma CallIsFirst(p: Plan, sys: System, t: TaskId)
    requires Airborne(p, sys, t) && t !in sys.calls
    ensures Airborne(p, sys.(calls := sys.calls + [t]), t)
  {
    DistinctAppend(sys.calls, t);
  }

  lemma CompletionIsDurable(p: Plan, sys: System, t: TaskId, c: Completion)
    requires Airborne(p, sys, t) && t in sys.calls && c.actual.Fits(p.Need(t))
    ensures Durable(p, sys.(completions := sys.completions[t := c]))
  {
    ActualsIgnore(sys.completions, sys.state.values.completed, t, c);
    assert t in Elements(sys.calls);
  }

  lemma DeliveryKeepsLedger(p: Plan, sys: System, at: nat, t: TaskId, actual: Usage, output: string, crash: Crash)
    requires Admitted(p) && Airborne(p, sys, t)
    requires t in sys.calls && actual.Fits(p.Need(t))
    ensures Durable(p, Delivered(p, sys, at, t, actual, output, crash))
  {
    var delivered := sys.(completions := sys.completions[t := Completion(actual, output)]);
    CompletionIsDurable(p, sys, t, Completion(actual, output));
    if crash != AfterCompletion {
      var e := Issue(delivered.state, at, UsageSettled(t, 1, actual, output));
      SettleKeepsLedger(p, delivered, e, Append(p, delivered, e));
      assert Delivered(p, sys, at, t, actual, output, crash) == Append(p, delivered, e);
    }
  }

  lemma AnswerKeepsLedger(p: Plan, called: System, at: nat, t: TaskId, actual: Usage, output: string, crash: Crash)
    requires Admitted(p) && Airborne(p, called, t) && t in called.calls
    ensures Durable(p, Answered(p, called, at, t, actual, output, crash))
  {
    var next := Answered(p, called, at, t, actual, output, crash);
    if actual.Fits(p.Need(t)) && at <= p.DeadlineOf(t) {
      DeliveryKeepsLedger(p, called, at, t, actual, output, crash);
      assert next == Delivered(p, called, at, t, actual, output, crash);
    } else {
      RecoveryKeepsLedger(p, called, at);
      assert next == Recovered(p, called, at);
    }
  }

  /** The ways in which a started attempt goes on. */
  lemma WorkedCases(p: Plan, started: System, called: System, at: nat, t: TaskId, reply: Reply, crash: Crash,
      next: System)
    requires called == started.(calls := started.calls + [t]) && next == Worked(p, started, at, t, reply, crash)
    ensures reply.NoWorker? ==> next == Recovered(p, started, at)
    ensures !reply.NoWorker? && crash == AfterWorker ==> next == called
    ensures reply.Threw? && crash != AfterWorker ==> next == Recovered(p, called, at)
    ensures reply.Returned? && crash != AfterWorker ==>
      next == Answered(p, called, at + reply.duration, t, reply.actual, reply.output, crash)
  {
  }

  /** An answered system is a recovered or a delivered one. */
  lemma AnswerKeeps(has: System -> bool, p: Plan, called: System, at: nat, t: TaskId, actual: Usage, output: string,
      crash: Crash)
    requires has(Recovered(p, called, at)) && has(Delivered(p, called, at, t, actual, output, crash))
    ensures has(Answered(p, called, at, t, actual, output, crash))
  {
  }

  /** A worked system is the called one, a recovered one or an answered one. */
  lemma WorkKeeps(has: System -> bool, p: Plan, started: System, called: System, at: nat, t: TaskId, reply: Reply,
      crash: Crash)
    requires called == started.(calls := started.calls + [t])
    requires has(called) && has(Recovered(p, started, at)) && has(Recovered(p, called, at))
    requires forall back: nat, actual, output :: has(Answered(p, called, back, t, actual, output, crash))
    ensures has(Worked(p, started, at, t, reply, crash))
  {
  }

  lemma WorkKeepsLedger(p: Plan, started: System, at: nat, t: TaskId, reply: Reply, crash: Crash)
    requires Admitted(p) && Airborne(p, started, t) && t !in started.calls
    ensures Durable(p, Worked(p, started, at, t, reply, crash))
  {
    var next := Worked(p, started, at, t, reply, crash);
    if reply.NoWorker? {
      RecoveryKeepsLedger(p, started, at);
      assert next == Recovered(p, started, at);
    } else {
      var called := started.(calls := started.calls + [t]);
      CallIsFirst(p, started, t);
      if crash == AfterWorker {
        assert next == called;
      } else if reply.Threw? {
        RecoveryKeepsLedger(p, called, at);
        assert next == Recovered(p, called, at);
      } else {
        AnswerKeepsLedger(p, called, at + reply.duration, t, reply.actual, reply.output, crash);
        assert next == Answered(p, called, at + reply.duration, t, reply.actual, reply.output, crash);
      }
    }
  }

  lemma LaunchIsAirborne(p: Plan, sys: System, at: nat, t: TaskId)
    requires Admitted(p) && Durable(p, sys)
    requires NextDispatch(p, sys.state.values, at) == Some(t) && t in p.admitted
    ensures var started := Attempted(Recorded(p, sys, at, t), t);
            && Durable(p, Recorded(p, sys, at, t))
            && Airborne(p, started, t) && t !in started.calls && started.attempts[t] == 1
  {
    DispatchKeepsLedger(p, sys, at, t);
    AttemptIsFirst(p, Recorded(p, sys, at, t), t);
  }

  lemma LaunchKeepsDurable(p: Plan, sys: System, at: nat, t: TaskId, reply: Reply, crash: Crash)
    requires Admitted(p) && Durable(p, sys)
    requires NextDispatch(p, sys.state.values, at) == Some(t) && t in p.admitted
    ensures Durable(p, Launched(p, sys, at, t, reply, crash))
  {
    LaunchIsAirborne(p, sys, at, t);
    var recorded := Recorded(p, sys, at, t);
    var started := Attempted(recorded, t);
    WorkKeepsLedger(p, started, at, t, reply, crash);
    assert Launched(p, sys, at, t, reply, crash) ==
           if crash == AfterRecord then recorded else if crash == AfterStart then started
           else Worked(p, started, at, t, reply, crash);
  }

  lemma DispatchKeepsDurable(p: Plan, sys: System, at: nat, work: TaskId -> Reply, crash: Crash)
    requires Admitted(p) && Durable(p, sys)
    ensures Durable(p, Runtime.Dispatched(p, sys, at, work, crash))
  {
    var choice := NextDispatch(p, sys.state.values, at);
    var next := Runtime.Dispatched(p, sys, at, work, crash);
    if choice.Some? {
      var t := choice.value;
      DispatchIsChoice(p, sys.state.values, at);
      LaunchKeepsDurable(p, sys, at, t, work(t), crash);
      assert next == Launched(p, sys, at, t, work(t), crash);
    }
  }

  lemma ControlKeepsDurable(p: Plan, sys: System, at: nat, body: Body, next: System)
    requires Admitted(p) && Durable(p, sys) && next == Performed(p, sys, Control(at, body))
    ensures Durable(p, next)
  {
    if ControlBody(body) {
      IssueKeepsDurable(p, sys, Issue(sys.state, at, body), next);
    }
  }

  lemma IssueKeepsDurable(p: Plan, sys: System, e: Event, next: System)
    requires Admitted(p) && Durable(p, sys) && ControlBody(e.body) && next == Append(p, sys, e)
    ensures Durable(p, next)
  {
    if e.body.Cancellation? {
      ChargeKeepsLedger(p, sys, e, next);
    } else if sys.state.values.status != Cancelled {
      ControlKeepsLedger(p, sys, e, next);
    } else {
      CancelledAppendsNothing(p, sys, e);
    }
  }

  lemma CancelledAppendsNothing(p: Plan, sys: System, e: Event)
    requires sys.state.values.status == Cancelled && !e.body.RuntimeStarted?
    ensures Append(p, sys, e) == sys
  {
  }

  lemma OpKeepsDurable(p: Plan, sys: System, op: Op)
    requires Admitted(p) && Durable(p, sys)
    ensures Durable(p, Performed(p, sys, op))
  {
    match op
    case Control(at, body) => ControlKeepsDurable(p, sys, at, body, Performed(p, sys, op));
    case DispatchNext(at, work, crash) => DispatchKeepsDurable(p, sys, at, work, crash);
    case RecoverInflight(at) => RecoveryKeepsLedger(p, sys, at);
  }
}
