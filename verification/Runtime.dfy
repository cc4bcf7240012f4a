/**
 * The runtime around the controller: two kinds of durable facts, controller records and task
 * completions, written one after the other, with a possible crash after each write.
 */
module Runtime {
  import opened Contracts
  import opened Plans
  import opened Controller
  import opened Transitions

  /** What a worker, or the effect broker for a write task, answers. */
  datatype Reply =
    | NoWorker
    | Threw
    | Returned(actual: Usage, duration: nat, output: string)

  datatype Completion = Completion(actual: Usage, output: string)

  /** The point of a dispatch after which the process dies. */
  datatype Crash = NoCrash | AfterRecord | AfterStart | AfterWorker | AfterCompletion

  /**
   * The durable store of one run. `state` is the state that replaying `events` gives; `calls` lists
   * the worker calls made by all processes of the run.
   */
  datatype System = System(
    state: State,
    events: seq<Event>,
    completions: map<TaskId, Completion>,
    attempts: map<TaskId, nat>,
    calls: seq<TaskId>)

  function Issue(s: State, at: nat, body: Body): Event {
    Event(Numbered(Kind(body), s.revision + 1), at, body)
  }

  /** `_append_transition`: an illegal event raises and leaves no durable trace. */
  ghost function Append(p: Plan, sys: System, e: Event): System {
    match Apply(p, sys.state, e)
    case Raises => sys
    case Applied(next, _) => sys.(state := next, events := sys.events + [e])
  }

  ghost function Opened(p: Plan): System {
    var blank := System(Initial(p), [], map[], map[], []);
    Append(p, blank, Event(StartId, 0, RuntimeStarted))
  }

  /** `recover_unknown_inflight`: settle a durable completion, otherwise charge the reservation. */
  ghost function Recovered(p: Plan, sys: System, at: nat): System {
    match sys.state.values.inflight
    case None => sys
    case Some(lease) => Append(p, sys, Issue(sys.state, at, RecoveryBody(sys, lease)))
  }

  function RecoveryBody(sys: System, lease: Inflight): Body {
    if lease.task in sys.completions then
      UsageSettled(lease.task, lease.attempt, sys.completions[lease.task].actual, sys.completions[lease.task].output)
    else UnknownInflight(lease.task, lease.attempt, lease.reservation)
  }

  function Attempts(sys: System, t: TaskId): nat {
    if t in sys.attempts then sys.attempts[t] else 0
  }

  /** `dispatch_next` at time `at`, dying after the durable write named by `crash`. */
  ghost function Dispatched(p: Plan, sys: System, at: nat, work: TaskId -> Reply, crash: Crash): System {
    match NextDispatch(p, sys.state.values, at)
    case None => sys
    case Some(t) => if t !in p.admitted then sys else Launched(p, sys, at, t, work(t), crash)
  }

  ghost function Recorded(p: Plan, sys: System, at: nat, t: TaskId): System
    requires t in p.admitted
  {
    Append(p, sys, Issue(sys.state, at, DispatchBody(p, t)))
  }

  ghost function Attempted(sys: System, t: TaskId): System {
    sys.(attempts := sys.attempts[t := Attempts(sys, t) + 1])
  }

  ghost function Launched(p: Plan, sys: System, at: nat, t: TaskId, reply: Reply, crash: Crash): System
    requires t in p.admitted
  {
    var recorded := Recorded(p, sys, at, t);
    var started := Attempted(recorded, t);
    if crash == AfterRecord then recorded
    else if crash == AfterStart || started.attempts[t] != 1 then started
    else Worked(p, started, at, t, reply, crash)
  }

  /** The rest of a dispatch once the attempt has been started durably. */
  ghost function Worked(p: Plan, started: System, at: nat, t: TaskId, reply: Reply, crash: Crash): System {
    var called := started.(calls := started.calls + [t]);
    match reply
    case NoWorker => Recovered(p, started, at)
    case Threw => if crash == AfterWorker then called else Recovered(p, called, at)
    case Returned(actual, duration, output) =>
      if crash == AfterWorker then called else Answered(p, called, at + duration, t, actual, output, crash)
  }

  /** A result above its reservation or after the deadline counts as unknown; any other is delivered. */
  ghost function Answered(p: Plan, called: System, at: nat, t: TaskId, actual: Usage, output: string,
      crash: Crash): System {
    if !actual.Fits(p.Need(t)) || at > p.DeadlineOf(t) then Recovered(p, called, at)
    else Delivered(p, called, at, t, actual, output, crash)
  }

  ghost function Delivered(p: Plan, called: System, at: nat, t: TaskId, actual: Usage, output: string,
      crash: Crash): System {
    var delivered := called.(completions := called.completions[t := Completion(actual, output)]);
    if crash == AfterCompletion then delivered
    else Append(p, delivered, Issue(delivered.state, at, UsageSettled(t, 1, actual, output)))
  }

  /** The operations of the runtime; a restart replays the durable events and changes nothing. */
  datatype Op =
    | Control(at: nat, body: Body)
    | DispatchNext(at: nat, work: TaskId -> Reply, crash: Crash)
    | RecoverInflight(at: nat)

  predicate ControlBody(body: Body) {
    && ValidDetails(body)
    && (body.Provider429? || body.ProviderReset? || body.ProviderCapacity? || body.BudgetCut? || body.Cancellation?)
  }

  ghost function Performed(p: Plan, sys: System, op: Op): System {
    match op
    case Control(at, body) => if ControlBody(body) then Append(p, sys, Issue(sys.state, at, body)) else sys
    case DispatchNext(at, work, crash) => Dispatched(p, sys, at, work, crash)
    case RecoverInflight(at) => Recovered(p, sys, at)
  }

  ghost function Run(p: Plan, ops: seq<Op>): System {
    if ops == [] then Opened(p) else Performed(p, Run(p, ops[..|ops| - 1]), ops[|ops| - 1])
  }

  /** The constructor's check that controller records and durable task outputs agree. */
  ghost predicate Agrees(sys: System) {
    var v := sys.state.values;
    v.completed <= sys.completions.Keys <= v.completed + v.Flying()
  }
}
