/** The drive loop keeps the admitted plan from any idle running state to the end of the run. */
module Driving {
  import opened Contracts
  import opened Plans
  import opened SerialPlan
  import opened Controller
  import opened Replanning
  import opened Transitions
  import opened Runs
  import opened Runtime
  import opened Recovery
  import opened Agreement

  /** An idle running state that has no provider blocked for its remaining work. */
  ghost predicate Idle(p: Plan, v: Values) {
    && OnPlan(p, v)
    && v.inflight.None?
    && (forall t :: t in Remaining(p, v) ==> Available(p, v, t))
  }

  /** Workers answer within their p95 and within their reservation. */
  ghost predicate Punctual(p: Plan, work: TaskId -> Reply, tasks: set<TaskId>) {
    forall t :: t in tasks ==>
      work(t).Returned? && work(t).actual.Fits(p.Need(t)) && work(t).duration <= p.P95(t)
  }

  /** One turn of the loop: dispatch at the current time and settle. */
  ghost function Round(p: Plan, sys: System, work: TaskId -> Reply): System {
    Runtime.Dispatched(p, sys, sys.state.values.now, work, NoCrash)
  }

  /** The values after a round of task `t`, up to the status. */
  ghost function Served(v: Values, t: TaskId, reply: Reply): Values
    requires reply.Returned?
  {
    v.(now := v.now + reply.duration, completed := v.completed + {t}, settled := v.settled.Add(reply.actual))
  }

  lemma LaunchedHead(p: Plan, sys: System, t: TaskId)
    requires Admitted(p) && Durable(p, sys) && Idle(p, sys.state.values)
    requires t == Head(p, sys.state.values)
    ensures t in p.admitted && t in Remaining(p, sys.state.values)
    ensures NextDispatch(p, sys.state.values, sys.state.values.now) == Some(t)
  {
    AdmittedIsScoped(p);
    IdleHasHead(p, sys.state.values);
    HeadIsDispatched(p, sys.state.values);
    DispatchIsChoice(p, sys.state.values, sys.state.values.now);
  }

  /** The system when the worker of a dispatched task has answered and its output is durable. */
  ghost function Landed(started: System, t: TaskId, reply: Reply): System
    requires reply.Returned?
  {
    started.(calls := started.calls + [t],
             completions := started.completions[t := Completion(reply.actual, reply.output)])
  }

  ghost function Answer(landed: System, at: nat, t: TaskId, reply: Reply): Event
    requires reply.Returned?
  {
    Issue(landed.state, at, UsageSettled(t, 1, reply.actual, reply.output))
  }

  lemma RoundLaunches(p: Plan, sys: System, t: TaskId, work: TaskId -> Reply)
    requires NextDispatch(p, sys.state.values, sys.state.values.now) == Some(t) && t in p.admitted
    ensures Round(p, sys, work) == Launched(p, sys, sys.state.values.now, t, work(t), NoCrash)
  {
  }

  lemma RoundLands(p: Plan, sys: System, at: nat, t: TaskId, started: System, reply: Reply)
    requires Admitted(p) && Durable(p, sys)
    requires NextDispatch(p, sys.state.values, at) == Some(t) && t in p.admitted
    requires started == Attempted(Recorded(p, sys, at, t), t)
    requires reply.Returned? && reply.actual.Fits(p.Need(t)) && reply.duration <= p.P95(t)
    ensures var landed := Landed(started, t, reply);
            Launched(p, sys, at, t, reply, NoCrash) == Append(p, landed, Answer(landed, at + reply.duration, t, reply))
  {
    LaunchIsTimely(p, sys, at, t);
    LaunchWorks(p, sys, at, t, started, reply);
    WorkDelivers(p, started, at, t, reply);
  }

  lemma LaunchIsTimely(p: Plan, sys: System, at: nat, t: TaskId)
    requires Admitted(p) && Durable(p, sys)
    requires NextDispatch(p, sys.state.values, at) == Some(t) && t in p.admitted
    ensures Attempted(Recorded(p, sys, at, t), t).attempts[t] == 1
    ensures at + p.P95(t) <= p.DeadlineOf(t)
  {
    DispatchIsChoice(p, sys.state.values, at);
    LaunchIsAirborne(p, sys, at, t);
  }

  lemma LaunchWorks(p: Plan, sys: System, at: nat, t: TaskId, started: System, reply: Reply)
    requires t in p.admitted && started == Attempted(Recorded(p, sys, at, t), t) && started.attempts[t] == 1
    ensures Launched(p, sys, at, t, reply, NoCrash) == Worked(p, started, at, t, reply, NoCrash)
  {
  }

  lemma WorkDelivers(p: Plan, started: System, at: nat, t: TaskId, reply: Reply)
    requires reply.Returned? && reply.actual.Fits(p.Need(t)) && at + reply.duration <= p.DeadlineOf(t)
    ensures var landed := Landed(started, t, reply);
            Worked(p, started, at, t, reply, NoCrash) ==
              Append(p, landed, Answer(landed, at + reply.duration, t, reply))
  {
  }

  /** A settlement by the in-flight p95 that matches the lease is accepted and keeps the plan. */
  lemma SettlesOnPlan(p: Plan, s: State, e: Event, t: TaskId)
    requires Scoped(p) && OnPlan(p, s.values) && s.values.inflight.Some?
    requires s.values.inflight.value.task == t && s.values.inflight.value.attempt == 1
    requires e.body.UsageSettled? && e.body.task == t && e.body.attempt == 1 && e.body.actual.Fits(p.Need(t))
    requires s.values.now <= e.at <= s.values.now + p.P95(t)
    ensures Stage(p, s.revision, s.values, e).Staged?
    ensures var done := Remaining(p, s.values) == {};
            var w := Reconciled(p, Stage(p, s.revision, s.values, e).values);
            && w == Finished(s.values, e).(status := if done then Completed else Running)
            && Remaining(p, w) == Remaining(p, s.values)
            && (!done ==> OnPlan(p, w))
  {
    assert s.values.inflight.value.reservation == p.Need(t);
    SettlementKeepsPlan(p, s, e);
  }

  /** `next` ended the round of `t` that began in `sys`. */
  ghost predicate Serves(p: Plan, sys: System, next: System, t: TaskId, reply: Reply)
    requires reply.Returned?
  {
    var v := sys.state.values;
    var rest := Remaining(p, v) - {t};
    && next.calls == sys.calls + [t]
    && next.state.values == Served(v, t, reply).(status := if rest == {} then Completed else Running)
    && Remaining(p, next.state.values) == rest
    && (rest != {} ==> Idle(p, next.state.values))
    && next.state.values.now <= p.DeadlineOf(t)
  }

  lemma LaunchServes(p: Plan, sys: System, t: TaskId, reply: Reply)
    requires Admitted(p) && Durable(p, sys) && Idle(p, sys.state.values)
    requires t in Remaining(p, sys.state.values) && t in p.admitted
    requires NextDispatch(p, sys.state.values, sys.state.values.now) == Some(t)
    requires reply.Returned? && reply.actual.Fits(p.Need(t)) && reply.duration <= p.P95(t)
    ensures Serves(p, sys, Launched(p, sys, sys.state.values.now, t, reply, NoCrash), t, reply)
  {
    var at := sys.state.values.now;
    var started := Attempted(Recorded(p, sys, at, t), t);
    RoundLands(p, sys, at, t, started, reply);
    DispatchKeepsLedger(p, sys, at, t);
    var landed := Landed(started, t, reply);
    LandedServes(p, sys, t, reply, landed, Answer(landed, at + reply.duration, t, reply));
  }

  lemma LandedServes(p: Plan, sys: System, t: TaskId, reply: Reply, landed: System, e: Event)
    requires Admitted(p) && Idle(p, sys.state.values)
    requires t in Remaining(p, sys.state.values) && t in p.admitted
    requires reply.Returned? && reply.actual.Fits(p.Need(t)) && reply.duration <= p.P95(t)
    requires var v := sys.state.values;
             && landed.calls == sys.calls + [t]
             && landed.state.values == v.(inflight := landed.state.values.inflight)
             && landed.state.values.Flying() == {t} && landed.state.values.inflight.value.attempt == 1
             && OnPlan(p, landed.state.values)
             && v.now + p.P95(t) <= p.DeadlineOf(t)
             && e.at == v.now + reply.duration
    requires e.body.UsageSettled? && e.body.task == t && e.body.attempt == 1 && e.body.actual == reply.actual
    ensures Serves(p, sys, Append(p, landed, e), t, reply)
  {
    AdmittedIsScoped(p);
    var flying := landed.state.values;
    SettlesOnPlan(p, landed.state, e, t);
    AppendStaged(p, landed, e);
    RoundServes(p, sys.state.values, flying, Append(p, landed, e).state.values, e, t, reply);
  }

  lemma AppendStaged(p: Plan, sys: System, e: Event)
    requires Stage(p, sys.state.revision, sys.state.values, e).Staged?
    ensures Append(p, sys, e).state.values == Reconciled(p, Stage(p, sys.state.revision, sys.state.values, e).values)
    ensures Append(p, sys, e).calls == sys.calls
  {
  }

  lemma RoundServes(p: Plan, v: Values, flying: Values, w: Values, e: Event, t: TaskId, reply: Reply)
    requires Idle(p, v) && t in Remaining(p, v) && reply.Returned?
    requires flying == v.(now := v.now, inflight := flying.inflight) && flying.Flying() == {t}
    requires e.body.UsageSettled? && e.body.task == t && e.body.actual == reply.actual && e.at == v.now + reply.duration
    requires w == Finished(flying, e).(status := if Remaining(p, flying) == {} then Completed else Running)
    requires Remaining(p, w) == Remaining(p, flying)
    requires Remaining(p, flying) != {} ==> OnPlan(p, w)
    ensures var rest := Remaining(p, v) - {t};
            && w == Served(v, t, reply).(status := if rest == {} then Completed else Running)
            && Remaining(p, w) == rest
            && (rest != {} ==> Idle(p, w))
  {
    assert Remaining(p, flying) == Remaining(p, v) - {t};
  }

  /**
   * One round from an idle state: the head of the serial plan is called once and completes by its
   * deadline; nothing is shed, and the run is over exactly when nothing else remains.
   */
  lemma RoundKeepsPlan(p: Plan, sys: System, work: TaskId -> Reply)
    requires Admitted(p) && Durable(p, sys) && Idle(p, sys.state.values)
    requires Punctual(p, work, Remaining(p, sys.state.values))
    ensures var t := Head(p, sys.state.values);
            && t in Remaining(p, sys.state.values)
            && Durable(p, Round(p, sys, work))
            && Serves(p, sys, Round(p, sys, work), t, work(t))
  {
    var at := sys.state.values.now;
    var t := Head(p, sys.state.values);
    LaunchedHead(p, sys, t);
    RoundLaunches(p, sys, t, work);
    LaunchKeepsDurable(p, sys, at, t, work(t), NoCrash);
    LaunchServes(p, sys, t, work(t));
  }

  // ---------------------------------------------------------------- the whole loop

  ghost function Iterated<S>(f: S -> S, s: S, n: nat): S
    decreases n
  {
    if n == 0 then s else Iterated(f, f(s), n - 1)
  }

  ghost function Orbit<S>(f: S -> S, s: S, n: nat): seq<S>
    decreases n
  {
    if n == 0 then [] else [f(s)] + Orbit(f, f(s), n - 1)
  }

  lemma {:induction false} IteratedSnoc<S>(f: S -> S, s: S, n: nat)
    ensures Iterated(f, s, n + 1) == f(Iterated(f, s, n))
    decreases n
  {
    if n > 0 {
      IteratedSnoc(f, f(s), n - 1);
    }
  }

  lemma {:induction false} OrbitAt<S>(f: S -> S, s: S, n: nat, k: nat)
    requires k < n
    ensures |Orbit(f, s, n)| == n && Orbit(f, s, n)[k] == Iterated(f, s, k + 1)
    decreases n
  {
    if k > 0 {
      OrbitAt(f, f(s), n - 1, k - 1);
    } else if n > 1 {
      OrbitAt(f, f(s), n - 1, 0);
    }
  }

  ghost function Turning(p: Plan, work: TaskId -> Reply): System -> System {
    (sys: System) => Round(p, sys, work)
  }

  ghost function Rounds(p: Plan, sys: System, work: TaskId -> Reply, n: nat): System {
    Iterated(Turning(p, work), sys, n)
  }

  /** The systems after each of the next `n` rounds. */
  ghost function Trace(p: Plan, sys: System, work: TaskId -> Reply, n: nat): seq<System> {
    Orbit(Turning(p, work), sys, n)
  }

  /**
   * `last` ends the run of `sys`: it made the calls `order`, shed nothing, and went through `trace`,
   * running before the last round and settling each task by its deadline.
   */
  ghost predicate Driven(p: Plan, sys: System, last: System, order: seq<TaskId>, trace: seq<System>) {
    var v, w := sys.state.values, last.state.values;
    && w.status == Completed
    && w.completed == v.completed + Remaining(p, v)
    && w.shed == v.shed && w.unknown == v.unknown && w.caps == v.caps
    && w.Committed().Fits(w.caps)
    && last.calls == sys.calls + order
    && |trace| == |order|
    && forall k :: 0 <= k < |order| ==>
      && trace[k].state.values.now <= p.DeadlineOf(order[k])
      && (k < |order| - 1 ==> trace[k].state.values.status == Running)
  }

  /** The facts of one round, in the form the loop composes. */
  ghost predicate Turned(p: Plan, sys: System, next: System, t: TaskId) {
    var v, w := sys.state.values, next.state.values;
    && t in Remaining(p, v)
    && next.calls == sys.calls + [t]
    && w.completed == v.completed + {t} && w.shed == v.shed && w.unknown == v.unknown && w.caps == v.caps
    && Remaining(p, w) == Remaining(p, v) - {t}
    && w.now <= p.DeadlineOf(t)
  }

  lemma DrivenStep(p: Plan, sys: System, next: System, t: TaskId, last: System, order: seq<TaskId>, trace: seq<System>)
    requires Turned(p, sys, next, t) && Driven(p, next, last, order, trace)
    requires next.state.values.status == Running
    ensures Driven(p, sys, last, [t] + order, [next] + trace)
  {
    assert sys.calls + [t] + order == sys.calls + ([t] + order);
    assert sys.state.values.completed + {t} + (Remaining(p, sys.state.values) - {t})
        == sys.state.values.completed + Remaining(p, sys.state.values);
  }

  lemma DrivenLast(p: Plan, sys: System, next: System, t: TaskId)
    requires Turned(p, sys, next, t) && next.state.values.status == Completed
    requires Remaining(p, sys.state.values) == {t}
    requires next.state.values.Committed().Fits(next.state.values.caps)
    ensures Driven(p, sys, next, [t], [next])
  {
  }

  lemma CompletedFits(p: Plan, v: Values)
    requires Sound(p, v) && v.status == Completed
    ensures v.Committed().Fits(v.caps)
  {
  }

  /**
   * End to end: from an idle running state with no provider blocked and punctual workers, the loop
   * ends completed after exactly one round for each remaining task. The calls follow the serial
   * plan, nothing is shed, every task settles by its deadline, and the caps are kept.
   */
  lemma {:induction false} DriveCompletes(p: Plan, sys: System, work: TaskId -> Reply)
    requires Admitted(p) && Durable(p, sys) && Idle(p, sys.state.values)
    requires Punctual(p, work, Remaining(p, sys.state.values))
    ensures Finishes(p, sys, work)
    decreases Remaining(p, sys.state.values)
  {
    var v := sys.state.values;
    var t := Head(p, v);
    var next := Round(p, sys, work);
    RoundTurns(p, sys, work);
    OrderStep(p, v, t);
    if Remaining(p, v) == {t} {
      CompletedFits(p, next.state.values);
      DrivenLast(p, sys, next, t);
      FinishesLast(p, sys, next, work, t);
    } else {
      DriveCompletes(p, next, work);
      FinishesStep(p, sys, next, work, t);
    }
  }

  /** One round for each remaining task, in the order of the serial plan, ends the run. */
  ghost predicate Finishes(p: Plan, sys: System, work: TaskId -> Reply) {
    var v := sys.state.values;
    var n := |Remaining(p, v)|;
    Driven(p, sys, Rounds(p, sys, work, n), SerialOrder(p, v.completed, Remaining(p, v)), Trace(p, sys, work, n))
  }

  lemma OneRound(p: Plan, sys: System, next: System, work: TaskId -> Reply)
    requires next == Round(p, sys, work)
    ensures Rounds(p, sys, work, 1) == next && Trace(p, sys, work, 1) == [next]
  {
    RoundsStep(p, sys, work, 0);
    RoundsDone(p, next, work);
  }

  lemma FinishesLast(p: Plan, sys: System, next: System, work: TaskId -> Reply, t: TaskId)
    requires next == Round(p, sys, work) && Driven(p, sys, next, [t], [next])
    requires Remaining(p, sys.state.values) == {t}
    requires SerialOrder(p, sys.state.values.completed, Remaining(p, sys.state.values)) == [t]
    ensures Finishes(p, sys, work)
  {
    OneRound(p, sys, next, work);
    assert |Remaining(p, sys.state.values)| == 1;
  }

  lemma FinishesStep(p: Plan, sys: System, next: System, work: TaskId -> Reply, t: TaskId)
    requires next == Round(p, sys, work) && Turned(p, sys, next, t) && Finishes(p, next, work)
    requires next.state.values.status == Running
    requires |Remaining(p, sys.state.values)| == |Remaining(p, next.state.values)| + 1
    requires var v, w := sys.state.values, next.state.values;
             SerialOrder(p, v.completed, Remaining(p, v)) == [t] + SerialOrder(p, w.completed, Remaining(p, w))
    ensures Finishes(p, sys, work)
  {
    var w := next.state.values;
    var n := |Remaining(p, w)|;
    RoundsStep(p, sys, work, n);
    DrivenStep(p, sys, next, t, Rounds(p, next, work, n),
               SerialOrder(p, w.completed, Remaining(p, w)), Trace(p, next, work, n));
  }

  lemma RoundTurns(p: Plan, sys: System, work: TaskId -> Reply)
    requires Admitted(p) && Durable(p, sys) && Idle(p, sys.state.values)
    requires Punctual(p, work, Remaining(p, sys.state.values))
    ensures var v := sys.state.values;
            var next := Round(p, sys, work);
            && Durable(p, next)
            && Turned(p, sys, next, Head(p, v))
            && (if Remaining(p, v) == {Head(p, v)}
                then next.state.values.status == Completed
                else Idle(p, next.state.values))
  {
    RoundKeepsPlan(p, sys, work);
    var t := Head(p, sys.state.values);
    ServedTurns(p, sys, Round(p, sys, work), t, work(t));
  }

  lemma ServedTurns(p: Plan, sys: System, next: System, t: TaskId, reply: Reply)
    requires reply.Returned? && t in Remaining(p, sys.state.values) && Serves(p, sys, next, t, reply)
    ensures Turned(p, sys, next, t)
    ensures if Remaining(p, sys.state.values) == {t}
            then next.state.values.status == Completed
            else Idle(p, next.state.values)
  {
    if Remaining(p, sys.state.values) - {t} == {} {
      assert Remaining(p, sys.state.values) == {t};
    }
  }

  lemma RoundsDone(p: Plan, sys: System, work: TaskId -> Reply)
    ensures Rounds(p, sys, work, 0) == sys
    ensures Trace(p, sys, work, 0) == []
  {
  }

  lemma OrderStep(p: Plan, v: Values, t: TaskId)
    requires OnPlan(p, v) && v.inflight.None? && t == Head(p, v)
    ensures t in Remaining(p, v)
    ensures |Remaining(p, v)| == |Remaining(p, v) - {t}| + 1
    ensures SerialOrder(p, v.completed, Remaining(p, v)) ==
      [t] + SerialOrder(p, v.completed + {t}, Remaining(p, v) - {t})
    ensures Remaining(p, v) == {t} ==> SerialOrder(p, v.completed, Remaining(p, v)) == [t]
  {
    IdleHasHead(p, v);
  }

  lemma RoundsStep(p: Plan, sys: System, work: TaskId -> Reply, n: nat)
    ensures Rounds(p, sys, work, n + 1) == Rounds(p, Round(p, sys, work), work, n)
    ensures Trace(p, sys, work, n + 1) == [Round(p, sys, work)] + Trace(p, Round(p, sys, work), work, n)
  {
  }

  lemma RoundsSnoc(p: Plan, sys: System, work: TaskId -> Reply, k: nat)
    ensures Rounds(p, sys, work, k + 1) == Round(p, Rounds(p, sys, work, k), work)
  {
    IteratedSnoc(Turning(p, work), sys, k);
  }

  lemma TraceIsRounds(p: Plan, sys: System, work: TaskId -> Reply, n: nat, k: nat)
    requires k < n
    ensures |Trace(p, sys, work, n)| == n && Trace(p, sys, work, n)[k] == Rounds(p, sys, work, k + 1)
  {
    OrbitAt(Turning(p, work), sys, n, k);
  }

  /** The status after each round of a drive that finishes. */
  lemma DrivenStatus(p: Plan, sys: System, last: System, order: seq<TaskId>, trace: seq<System>, k: nat)
    requires Driven(p, sys, last, order, trace) && k < |order| && (k == |order| - 1 ==> trace[k] == last)
    ensures trace[k].state.values.status == if k + 1 < |order| then Running else Completed
  {
  }

  lemma DrivenLength(p: Plan, sys: System, last: System, order: seq<TaskId>, trace: seq<System>)
    requires Driven(p, sys, last, order, trace)
    ensures |order| == |trace|
  {
  }

  /** The systems along a trace of rounds. */
  lemma AlongTrace(p: Plan, sys: System, work: TaskId -> Reply, n: nat, k: nat, trace: seq<System>)
    requires 0 < k <= n && trace == Trace(p, sys, work, n)
    ensures |trace| == n && trace[k - 1] == Rounds(p, sys, work, k)
  {
    TraceIsRounds(p, sys, work, n, k - 1);
  }

  /** In a drive that finishes, the run is running before its last round and completed after it. */
  lemma StatusAlong(p: Plan, sys: System, work: TaskId -> Reply, k: nat)
    requires Finishes(p, sys, work) && sys.state.values.status == Running
    requires k <= |Remaining(p, sys.state.values)|
    ensures Rounds(p, sys, work, k).state.values.status ==
            if k < |Remaining(p, sys.state.values)| then Running else Completed
  {
    var n := |Remaining(p, sys.state.values)|;
    if n == 0 || k == 0 {
      RoundsDone(p, sys, work);
    } else {
      var trace := Trace(p, sys, work, n);
      var order := SerialOrder(p, sys.state.values.completed, Remaining(p, sys.state.values));
      AlongTrace(p, sys, work, n, k, trace);
      DrivenLength(p, sys, Rounds(p, sys, work, n), order, trace);
      if k == n { AlongTrace(p, sys, work, n, n, trace); }
      DrivenStatus(p, sys, Rounds(p, sys, work, n), order, trace, k - 1);
    }
  }

  /** Every provider of the run is admitted with a positive limit. */
  ghost predicate OpenProviders(p: Plan) {
    forall t :: t in p.admitted ==> 0 < p.envelope.ProviderLimit(p.admitted[t].provider)
  }

  lemma OpenedIsInitial(p: Plan, blank: System, e: Event)
    requires Admitted(p) && blank.state == Initial(p) && e.at == 0 && e.body.RuntimeStarted?
    ensures Append(p, blank, e).state.values == Initial(p).values
  {
    AdmittedIsScoped(p);
    InitialIsOnPlan(p);
    var v := Initial(p).values;
    InitialStartsNothing(p, v);
    assert v.(now := 0) == v;
    if v.status == Running {
      RunningIsFixpoint(p, v);
    } else {
      FinaleIsFixpoint(p, v);
    }
  }

  /**
   * The control service's workers, whose logical time is the admitted profile's p50, and write tasks,
   * which only propose their effect, at no time and no usage.
   */
  ghost predicate FixtureWorkers(p: Plan, work: TaskId -> Reply) {
    forall t :: t in p.admitted ==>
      && work(t).Returned? && work(t).actual.Fits(p.Need(t))
      && (work(t).duration == p.admitted[t].p50 || (work(t).duration == 0 && work(t).actual == ZERO))
  }

  /** A fresh run driven with fixture workers completes all the work that admission kept. */
  lemma FreshRunCompletes(p: Plan, work: TaskId -> Reply)
    requires Admitted(p) && OpenProviders(p) && FixtureWorkers(p, work)
    requires Opened(p).state.values.status != Completed
    ensures Finishes(p, Opened(p), work)
  {
    var first := Opened(p);
    OpenedIsDurable(p);
    OpenedStarts(p, first);
    InitialIsSmooth(p, work, first.state.values);
    DriveCompletes(p, first, work);
  }

  /**
   * The stranding cancellation is reachable from every idle running state: let the process die
   * between the worker's durable completion and its settlement, then cancel.
   */
  lemma StrandingIsReachable(p: Plan, sys: System, work: TaskId -> Reply, reason: string)
    requires reason != ""
    requires Admitted(p) && Durable(p, sys) && Idle(p, sys.state.values)
    requires Punctual(p, work, Remaining(p, sys.state.values))
    ensures var now := sys.state.values.now;
            var died := Performed(p, sys, DispatchNext(now, work, AfterCompletion));
            && Strands(died, Control(now, Cancellation(reason)))
            && !Agrees(Performed(p, died, Control(now, Cancellation(reason))))
  {
    var at, t := sys.state.values.now, Head(p, sys.state.values);
    LaunchedHead(p, sys, t);
    DeathLands(p, sys, at, t, work, Attempted(Recorded(p, sys, at, t), t));
    var died := Performed(p, sys, DispatchNext(at, work, AfterCompletion));
    var cancel := Control(at, Cancellation(reason));
    LandedStrands(died, t, cancel);
    OpKeepsDurable(p, sys, DispatchNext(at, work, AfterCompletion));
    StrandingBreaksAgreement(p, died, cancel);
  }

  /** The process dies after the completion of a punctual dispatch: the slot is taken and its output durable. */
  lemma DeathLands(p: Plan, sys: System, at: nat, t: TaskId, work: TaskId -> Reply, started: System)
    requires Admitted(p) && Durable(p, sys) && NextDispatch(p, sys.state.values, at) == Some(t) && t in p.admitted
    requires started == Attempted(Recorded(p, sys, at, t), t)
    requires work(t).Returned? && work(t).actual.Fits(p.Need(t)) && work(t).duration <= p.P95(t)
    ensures var died := Performed(p, sys, DispatchNext(at, work, AfterCompletion));
      && died.state.values.status == Running && died.state.values.Flying() == {t} && t in died.completions
      && died.state.values.now == at
  {
    LaunchIsTimely(p, sys, at, t);
    DispatchKeepsLedger(p, sys, at, t);
    DeathAfterCompletion(p, sys, at, t, started, work);
  }

  lemma StrandingBreaksAgreement(p: Plan, sys: System, op: Op)
    requires Admitted(p) && Durable(p, sys) && Strands(sys, op)
    ensures !Agrees(Performed(p, sys, op))
  {
    AgreementStep(p, sys, op);
  }

  lemma LandedStrands(landed: System, t: TaskId, op: Op)
    requires landed.state.values.status == Running && landed.state.values.Flying() == {t} && t in landed.completions
    requires op.Control? && op.body.Cancellation? && ValidDetails(op.body) && landed.state.values.now <= op.at
    ensures Strands(landed, op)
  {
  }

  lemma DeathAfterCompletion(p: Plan, sys: System, at: nat, t: TaskId, started: System, work: TaskId -> Reply)
    requires NextDispatch(p, sys.state.values, at) == Some(t) && t in p.admitted
    requires started == Attempted(Recorded(p, sys, at, t), t) && started.attempts[t] == 1
    requires work(t).Returned? && work(t).actual.Fits(p.Need(t)) && at + work(t).duration <= p.DeadlineOf(t)
    ensures Runtime.Dispatched(p, sys, at, work, AfterCompletion) == Landed(started, t, work(t))
  {
  }

  // ---------------------------------------------------------------- why every drive ends

  lemma AppendKeepsAttempts(p: Plan, sys: System, e: Event)
    ensures Append(p, sys, e).attempts == sys.attempts
  {
  }

  lemma RecoveredKeepsAttempts(p: Plan, sys: System, at: nat)
    ensures Recovered(p, sys, at).attempts == sys.attempts
  {
    if sys.state.values.inflight.Some? {
      AppendKeepsAttempts(p, sys, Issue(sys.state, at, RecoveryBody(sys, sys.state.values.inflight.value)));
    }
  }

  lemma AnsweredKeepsAttempts(p: Plan, called: System, at: nat, t: TaskId, actual: Usage, output: string, crash: Crash)
    ensures Answered(p, called, at, t, actual, output, crash).attempts == called.attempts
  {
    RecoveredKeepsAttempts(p, called, at);
    var delivered := called.(completions := called.completions[t := Completion(actual, output)]);
    AppendKeepsAttempts(p, delivered, Issue(delivered.state, at, UsageSettled(t, 1, actual, output)));
  }

  lemma WorkedKeepsAttempts(p: Plan, started: System, at: nat, t: TaskId, reply: Reply, crash: Crash)
    ensures Worked(p, started, at, t, reply, crash).attempts == started.attempts
  {
    var called := started.(calls := started.calls + [t]);
    if reply.Returned? {
      AnsweredKeepsAttempts(p, called, at + reply.duration, t, reply.actual, reply.output, crash);
    } else {
      RecoveredKeepsAttempts(p, started, at);
      RecoveredKeepsAttempts(p, called, at);
    }
  }

  /** A round that dispatches starts an admitted task that was never started before. */
  lemma RoundStartsNewTask(p: Plan, sys: System, work: TaskId -> Reply, t: TaskId, next: System)
    requires Admitted(p) && Durable(p, sys) && next == Round(p, sys, work)
    requires NextDispatch(p, sys.state.values, sys.state.values.now) == Some(t)
    ensures sys.attempts.Keys <= p.admitted.Keys && t in p.admitted && t !in sys.attempts
    ensures next.attempts == sys.attempts[t := 1]
  {
    var at := sys.state.values.now;
    DispatchIsChoice(p, sys.state.values, at);
    AttemptsAreAdmitted(p, sys);
    RoundLaunches(p, sys, t, work);
    LaunchStarts(p, sys, at, t, work(t), Attempted(Recorded(p, sys, at, t), t), next);
  }

  lemma LaunchStarts(p: Plan, sys: System, at: nat, t: TaskId, reply: Reply, started: System, next: System)
    requires Admitted(p) && Durable(p, sys) && NextDispatch(p, sys.state.values, at) == Some(t) && t in p.admitted
    requires started == Attempted(Recorded(p, sys, at, t), t) && next == Launched(p, sys, at, t, reply, NoCrash)
    ensures t !in sys.attempts && next.attempts == sys.attempts[t := 1]
  {
    DispatchKeepsLedger(p, sys, at, t);
    LaunchIsTimely(p, sys, at, t);
    LaunchWorks(p, sys, at, t, started, reply);
    WorkedKeepsAttempts(p, started, at, t, reply, NoCrash);
  }

  lemma AttemptsAreAdmitted(p: Plan, sys: System)
    requires Durable(p, sys)
    ensures sys.attempts.Keys <= p.admitted.Keys
  {
  }

  /** How many tasks a drive can still start. */
  ghost function Unstarted(p: Plan, sys: System): int {
    |p.admitted.Keys - sys.attempts.Keys|
  }

  lemma FewerLeft(all: set<TaskId>, before: set<TaskId>, after: set<TaskId>, t: TaskId)
    requires after == before + {t} && t in all && t !in before
    ensures |all - after| < |all - before|
  {
    assert all - after == (all - before) - {t};
  }

  lemma OneMore(before: map<TaskId, nat>, after: map<TaskId, nat>, t: TaskId)
    requires after == before[t := 1]
    ensures after.Keys == before.Keys + {t}
  {
  }

  lemma RoundLeavesFewer(p: Plan, sys: System, work: TaskId -> Reply, t: TaskId, next: System)
    requires Admitted(p) && Durable(p, sys) && next == Round(p, sys, work)
    requires NextDispatch(p, sys.state.values, sys.state.values.now) == Some(t)
    ensures Unstarted(p, next) < Unstarted(p, sys)
  {
    RoundStartsNewTask(p, sys, work, t, next);
    OneMore(sys.attempts, next.attempts, t);
    FewerLeft(p.admitted.Keys, sys.attempts.Keys, next.attempts.Keys, t);
  }

  // ---------------------------------------------------------------- a drive that keeps its plan

  /** The hypotheses of the end-to-end theorem hold now. */
  ghost predicate Smooth(p: Plan, v: Values, work: TaskId -> Reply) {
    Idle(p, v) && Punctual(p, work, Remaining(p, v))
  }

  /** One round of a smooth drive: one task fewer, and smooth again unless it was the last. */
  lemma SmoothRound(p: Plan, sys: System, work: TaskId -> Reply)
    requires Admitted(p) && Durable(p, sys) && Smooth(p, sys.state.values, work)
    ensures var t, w := Head(p, sys.state.values), Round(p, sys, work).state.values;
      && NextDispatch(p, sys.state.values, sys.state.values.now) == Some(t) && t in w.completed
      && |Remaining(p, w)| + 1 == |Remaining(p, sys.state.values)|
      && (if Remaining(p, w) == {} then w.status == Completed else Smooth(p, w, work))
  {
    var v := sys.state.values;
    LaunchedHead(p, sys, Head(p, v));
    RoundTurns(p, sys, work);
    assert |Remaining(p, v) - {Head(p, v)}| + 1 == |Remaining(p, v)|;
  }

  /** What the whole drive leaves behind. */
  ghost predicate PlanKept(p: Plan, sys: System, last: System) {
    var v, w := sys.state.values, last.state.values;
    && w.status == Completed
    && w.completed == v.completed + Remaining(p, v)
    && w.shed == v.shed && w.unknown == v.unknown && w.caps == v.caps
    && w.Committed().Fits(w.caps)
    && last.calls == sys.calls + SerialOrder(p, v.completed, Remaining(p, v))
  }

  lemma SmoothDriveKeepsPlan(p: Plan, sys: System, work: TaskId -> Reply, rounds: nat)
    requires Admitted(p) && Durable(p, sys) && Smooth(p, sys.state.values, work)
    requires rounds == |Remaining(p, sys.state.values)|
    ensures PlanKept(p, sys, Rounds(p, sys, work, rounds))
  {
    DriveCompletes(p, sys, work);
  }

  /** Where a drive from `start` stands after some rounds; a smooth one is on its way to the end. */
  ghost predicate Along(p: Plan, start: System, work: TaskId -> Reply, rounds: nat, smooth: bool, sys: System) {
    && Durable(p, sys) && sys == Rounds(p, start, work, rounds)
    && (smooth ==>
      && Smooth(p, start.state.values, work)
      && rounds + |Remaining(p, sys.state.values)| == |Remaining(p, start.state.values)|
      && if sys.state.values.status == Running then Smooth(p, sys.state.values, work)
        else Remaining(p, sys.state.values) == {})
  }

  lemma AlongStarts(p: Plan, start: System, work: TaskId -> Reply, smooth: bool)
    requires Durable(p, start) && (smooth ==> Smooth(p, start.state.values, work))
    ensures Along(p, start, work, 0, smooth, start)
  {
    RoundsDone(p, start, work);
  }

  lemma AlongStep(p: Plan, start: System, work: TaskId -> Reply, rounds: nat, smooth: bool, sys: System, next: System,
      t: TaskId)
    requires Admitted(p) && Along(p, start, work, rounds, smooth, sys)
    requires sys.state.values.status == Running && next == Round(p, sys, work)
    requires NextDispatch(p, sys.state.values, sys.state.values.now) == Some(t)
    ensures Along(p, start, work, rounds + 1, smooth, next)
    ensures Unstarted(p, next) < Unstarted(p, sys)
    ensures smooth ==> t in next.state.values.completed
  {
    RoundKeepsDurable(p, sys, work, next);
    RoundsSnoc(p, start, work, rounds);
    RoundLeavesFewer(p, sys, work, t, next);
    if smooth {
      SmoothRound(p, sys, work);
    }
  }

  lemma RoundKeepsDurable(p: Plan, sys: System, work: TaskId -> Reply, next: System)
    requires Admitted(p) && Durable(p, sys) && next == Round(p, sys, work)
    ensures Durable(p, next)
  {
    OpKeepsDurable(p, sys, Op.DispatchNext(sys.state.values.now, work, NoCrash));
  }

  /** A smooth drive never runs out of something to dispatch. */
  lemma AlongMoves(p: Plan, start: System, work: TaskId -> Reply, rounds: nat, sys: System)
    requires Admitted(p) && Along(p, start, work, rounds, true, sys) && sys.state.values.status == Running
    ensures NextDispatch(p, sys.state.values, sys.state.values.now).Some?
  {
    LaunchedHead(p, sys, Head(p, sys.state.values));
  }

  lemma AlongEnds(p: Plan, start: System, work: TaskId -> Reply, rounds: nat, sys: System)
    requires Admitted(p) && Durable(p, start) && Along(p, start, work, rounds, true, sys)
    requires sys.state.values.status != Running
    ensures rounds == |Remaining(p, start.state.values)| && PlanKept(p, start, sys)
  {
    SmoothDriveKeepsPlan(p, start, work, rounds);
  }

  /** What the first state of a run has done, and what is left of it. */
  lemma InitialIsUntouched(p: Plan, v: Values)
    requires Admitted(p) && v == Initial(p).values
    ensures v.completed == {} && v.inflight.None? && Remaining(p, v) == p.byId.Keys - v.shed
    ensures v.status != Completed ==> OnPlan(p, v)
    ensures v.status == Completed ==> Remaining(p, v) == {}
  {
    InitialStartsNothing(p, v);
    NothingDoneRemains(p, v);
    InitialStatus(p, v);
  }

  lemma NothingDoneRemains(p: Plan, v: Values)
    requires v.completed == {} && v.inflight.None?
    ensures Remaining(p, v) == p.byId.Keys - v.shed
  {
  }

  lemma InitialStatus(p: Plan, v: Values)
    requires Admitted(p) && v == Initial(p).values
    ensures OnPlan(p, v) || (v.status == Completed && Remaining(p, v) == {})
  {
    InitialIsOnPlan(p);
  }

  lemma PunctualFixtures(p: Plan, v: Values, work: TaskId -> Reply)
    requires Admitted(p) && FixtureWorkers(p, work) && v.completed == {} && Remaining(p, v) <= p.admitted.Keys
    ensures Punctual(p, work, Remaining(p, v))
  {
  }

  lemma OpenedStarts(p: Plan, first: System)
    requires Admitted(p) && first == Opened(p)
    ensures first.state.values == Initial(p).values && first.calls == []
  {
    var blank := System(Initial(p), [], map[], map[], []);
    OpenedIsInitial(p, blank, Event(StartId, 0, RuntimeStarted));
  }

  /** A run that the control service has just opened is smooth, or over with nothing left to do. */
  lemma InitialIsSmooth(p: Plan, work: TaskId -> Reply, v: Values)
    requires Admitted(p) && OpenProviders(p) && FixtureWorkers(p, work) && v == Initial(p).values
    ensures v.status == Running ==> Smooth(p, v, work)
    ensures v.status == Running || v.status == Completed
  {
    InitialIsUntouched(p, v);
    InitialRemainsAdmitted(p, v);
    PunctualFixtures(p, v, work);
    InitialIsOnPlan(p);
  }

  lemma InitialRemainsAdmitted(p: Plan, v: Values)
    requires Admitted(p) && v == Initial(p).values
    ensures Remaining(p, v) <= p.admitted.Keys
    ensures v.resets == map[] && v.capacities == map[]
  {
    InitialIsOnPlan(p);
    AdmittedIsScoped(p);
  }

  /** A run that did everything its first reconciliation kept, in the order of the serial plan. */
  ghost predicate Fulfilled(p: Plan, sys: System) {
    var v, shed := sys.state.values, Initial(p).values.shed;
    && v.status == Completed
    && v.shed == shed && v.completed == p.byId.Keys - shed
    && v.Committed().Fits(p.envelope.caps)
    && sys.calls == SerialOrder(p, {}, p.byId.Keys - shed)
  }

  lemma SmoothRunIsFulfilled(p: Plan, first: System, last: System, shed: set<TaskId>)
    requires first.state.values.completed == {} && first.state.values.shed == shed == Initial(p).values.shed
    requires first.calls == [] && Remaining(p, first.state.values) == p.byId.Keys - shed
    requires if first.state.values.status == Running then PlanKept(p, first, last)
             else last == first && first.state.values.status == Completed && p.byId.Keys - shed == {}
    requires last.state.values.Committed().Fits(p.envelope.caps)
    ensures Fulfilled(p, last)
  {
    AllIsServed(p, first, last, shed, p.byId.Keys - shed);
  }

  lemma AllIsServed(p: Plan, first: System, last: System, shed: set<TaskId>, rest: set<TaskId>)
    requires first.state.values.completed == {} && first.state.values.shed == shed && first.calls == []
    requires Remaining(p, first.state.values) == rest
    requires if first.state.values.status == Running then PlanKept(p, first, last)
             else last == first && first.state.values.status == Completed && rest == {}
    ensures last.state.values.status == Completed && last.state.values.shed == shed
    ensures last.state.values.completed == rest && last.calls == SerialOrder(p, {}, rest)
  {
    assert {} + rest == rest;
    if first.state.values.status == Running {
      assert [] + SerialOrder(p, {}, rest) == SerialOrder(p, {}, rest);
    } else {
      assert SerialOrder(p, {}, rest) == [];
    }
  }
}
