/** What a dispatch leaves behind: for every reply of the worker and every point where the process dies. */
module Outcomes {
  import opened Contracts
  import opened Plans
  import opened Controller
  import opened Replanning
  import opened Transitions
  import opened Runs
  import opened Histories
  import opened Runtime
  import opened Recovery
  import opened Agreement
  import opened Acceptance

  /** The task is in flight since `at`, and nothing else of the run has changed. */
  ghost predicate StillFlying(before: System, next: System, t: TaskId, at: nat) {
    var v, w := before.state.values, next.state.values;
    && w == v.(now := at, inflight := w.inflight) && w.Flying() == {t} && w.status == Running
  }

  /** The task has no durable completion; its full reservation is charged, and the run refuses if it was protected. */
  ghost predicate CountsUnknown(p: Plan, before: System, next: System, t: TaskId, at: nat) {
    var v, w := before.state.values, next.state.values;
    && next.completions == before.completions && t !in next.completions
    && w.inflight.None? && w.completed == v.completed && t !in w.completed && w.unknown == v.unknown + {t}
    && w.settled == v.settled && w.unknownUsage == v.unknownUsage.Add(p.Need(t)) && w.now == at
    && (if t in p.guarded then w.status == Refused else t in w.shed)
  }

  /** The output is durable and its actual usage is settled. */
  ghost predicate CountsDone(before: System, next: System, t: TaskId, at: nat, c: Completion) {
    var v, w := before.state.values, next.state.values;
    && next.completions == before.completions[t := c]
    && w.inflight.None? && w.completed == v.completed + {t} && w.unknown == v.unknown
    && w.settled == v.settled.Add(c.actual) && w.unknownUsage == v.unknownUsage && w.now == at
  }

  /** The result is within the reservation, and its worker took no longer than the deadline allows. */
  predicate InTime(p: Plan, t: TaskId, at: nat, reply: Reply) {
    reply.Returned? && reply.actual.Fits(p.Need(t)) && at + reply.duration <= p.DeadlineOf(t)
  }

  // ---------------------------------------------------------------- recovery and settlement

  lemma UnknownAfter(p: Plan, flying: System, t: TaskId, at: nat, next: System)
    requires Admitted(p) && Airborne(p, flying, t) && flying.state.values.now <= at
    requires next == Recovered(p, flying, at)
    ensures CountsUnknown(p, flying, next, t, at)
    ensures next.calls == flying.calls && next.attempts == flying.attempts
  {
    var v, lease := flying.state.values, flying.state.values.inflight.value;
    var e := Issue(flying.state, at, RecoveryBody(flying, lease));
    RecoveryStages(p, flying.state.revision, v, flying, e);
    AppendAccepted(p, flying, e, next);
    ReconciledKeepsLedger(p, Stage(p, flying.state.revision, v, e).values);
    ChargedCounts(p, v, at, if t in p.guarded then Refused else Running, next.state.values, t);
    UnknownIsLost(p, flying.state, e, t, next.state.values);
  }

  lemma ChargedCounts(p: Plan, v: Values, at: nat, status: Status, w: Values, t: TaskId)
    requires Accounted(p, v) && v.Flying() == {t}
    requires w == Charged(p, v.(now := at), status).(shed := w.shed, status := w.status)
    ensures w.inflight.None? && w.completed == v.completed && t !in w.completed && w.unknown == v.unknown + {t}
    ensures w.settled == v.settled && w.unknownUsage == v.unknownUsage.Add(p.Need(t)) && w.now == at
  {
  }

  lemma UnknownIsLost(p: Plan, s: State, e: Event, t: TaskId, next: Values)
    requires Admitted(p) && Sound(p, s.values) && s.values.status == Running && s.values.Flying() == {t}
    requires e.body.UnknownInflight? && e.body.task == t
    requires Apply(p, s, e).Applied? && next == Apply(p, s, e).next.values
    ensures if t in p.guarded then next.status == Refused else t in next.shed
  {
    StatusAfterExactly(p, s, e, next);
    AdmittedIsScoped(p);
    StageIsWell(p, s, e);
    StageCarries(p, s.revision, s.values, e, Stage(p, s.revision, s.values, e).values);
    ReconciledIsSound(p, Stage(p, s.revision, s.values, e).values);
  }

  lemma DoneAfter(p: Plan, flying: System, t: TaskId, at: nat, c: Completion, next: System)
    requires Admitted(p) && Airborne(p, flying, t) && flying.state.values.now <= at && c.actual.Fits(p.Need(t))
    requires flying.state.values.inflight.Some? && flying.state.values.inflight.value.attempt == 1 && t in flying.calls
    requires next == Delivered(p, flying, at, t, c.actual, c.output, NoCrash)
    ensures CountsDone(flying, next, t, at, c)
    ensures next.calls == flying.calls && next.attempts == flying.attempts
  {
    var delivered := flying.(completions := flying.completions[t := c]);
    var e := Issue(delivered.state, at, UsageSettled(t, 1, c.actual, c.output));
    CompletionIsDurable(p, flying, t, c);
    LeaseSettles(p, delivered.state, e, t);
    AppendAccepted(p, delivered, e, next);
    ReconciledKeepsLedger(p, Finished(delivered.state.values, e));
    FinishedCounts(flying.state.values, e, next.state.values);
  }

  lemma LeaseSettles(p: Plan, s: State, e: Event, t: TaskId)
    requires Accounted(p, s.values) && s.values.status == Running && s.values.now <= e.at
    requires s.values.inflight.Some? && s.values.inflight.value.task == t && s.values.inflight.value.attempt == 1
    requires e.body.UsageSettled? && e.body.task == t && e.body.attempt == 1 && e.body.actual.Fits(p.Need(t))
    ensures Stage(p, s.revision, s.values, e).Staged?
    ensures Stage(p, s.revision, s.values, e).values == Finished(s.values, e)
  {
  }

  lemma FinishedCounts(v: Values, e: Event, w: Values)
    requires e.body.UsageSettled?
    requires w == Finished(v, e).(shed := w.shed, status := w.status)
    ensures w.inflight.None? && w.completed == v.completed + {e.body.task} && w.unknown == v.unknown
    ensures w.settled == v.settled.Add(e.body.actual) && w.unknownUsage == v.unknownUsage && w.now == e.at
  {
  }

  // ---------------------------------------------------------------- one dispatch

  /** The system once the dispatch is recorded and its attempt started. */
  ghost predicate LiftedOff(p: Plan, sys: System, flying: System, t: TaskId, at: nat) {
    && Airborne(p, flying, t) && StillFlying(sys, flying, t, at)
    && flying.completions == sys.completions && flying.attempts == sys.attempts[t := 1]
    && flying.state.values.inflight.Some? && flying.state.values.inflight.value.attempt == 1
  }

  lemma Lifts(p: Plan, sys: System, at: nat, t: TaskId, recorded: System, started: System)
    requires Admitted(p) && Durable(p, sys) && NextDispatch(p, sys.state.values, at) == Some(t) && t in p.admitted
    requires recorded == Recorded(p, sys, at, t) && started == Attempted(recorded, t)
    ensures StillFlying(sys, recorded, t, at) && recorded == sys.(state := recorded.state, events := recorded.events)
    ensures LiftedOff(p, sys, started, t, at) && t !in sys.completions && t !in sys.calls && started.calls == sys.calls
    ensures started.attempts[t] == 1
  {
    DispatchKeepsLedger(p, sys, at, t);
    LaunchIsAirborne(p, sys, at, t);
  }

  lemma Calls(p: Plan, sys: System, started: System, called: System, t: TaskId, at: nat)
    requires LiftedOff(p, sys, started, t, at) && t !in started.calls
    requires called == started.(calls := started.calls + [t])
    ensures LiftedOff(p, sys, called, t, at)
  {
    CallIsFirst(p, started, t);
  }

  lemma UnknownSince(p: Plan, sys: System, flying: System, next: System, t: TaskId, since: nat, at: nat)
    requires StillFlying(sys, flying, t, since) && flying.completions == sys.completions
    requires CountsUnknown(p, flying, next, t, at)
    ensures CountsUnknown(p, sys, next, t, at)
  {
  }

  lemma DoneSince(sys: System, flying: System, next: System, t: TaskId, since: nat, at: nat, c: Completion)
    requires StillFlying(sys, flying, t, since) && flying.completions == sys.completions
    requires CountsDone(flying, next, t, at, c)
    ensures CountsDone(sys, next, t, at, c)
  {
  }

  /** The cases of a launched dispatch. */
  lemma LaunchCases(p: Plan, sys: System, at: nat, t: TaskId, reply: Reply, crash: Crash, recorded: System,
      started: System, next: System)
    requires t in p.admitted && recorded == Recorded(p, sys, at, t) && started == Attempted(recorded, t)
    requires started.attempts[t] == 1 && next == Launched(p, sys, at, t, reply, crash)
    ensures next == if crash == AfterRecord then recorded else if crash == AfterStart then started
                    else Worked(p, started, at, t, reply, crash)
  {
  }

  /** Neither the worker nor the recovery after it touches anything but its own facts. */
  ghost predicate AttemptedOnce(sys: System, next: System, t: TaskId, calls: seq<TaskId>) {
    next.attempts == sys.attempts[t := 1] && next.calls == calls
  }

  lemma AnswerCases(p: Plan, called: System, at: nat, t: TaskId, reply: Reply, crash: Crash, next: System)
    requires reply.Returned? && (crash == NoCrash || crash == AfterCompletion)
    requires next == Answered(p, called, at + reply.duration, t, reply.actual, reply.output, crash)
    ensures !InTime(p, t, at, reply) ==> next == Recovered(p, called, at + reply.duration)
    ensures InTime(p, t, at, reply) && crash == NoCrash ==>
      next == Delivered(p, called, at + reply.duration, t, reply.actual, reply.output, NoCrash)
    ensures InTime(p, t, at, reply) && crash == AfterCompletion ==>
      next == called.(completions := called.completions[t := Completion(reply.actual, reply.output)])
  {
  }

  lemma AnswerOutcome(p: Plan, sys: System, called: System, at: nat, t: TaskId, reply: Reply, crash: Crash,
      next: System)
    requires Admitted(p) && LiftedOff(p, sys, called, t, at) && t in called.calls && reply.Returned?
    requires crash == NoCrash || crash == AfterCompletion
    requires next == Answered(p, called, at + reply.duration, t, reply.actual, reply.output, crash)
    ensures Replied(p, sys, next, t, at, reply, crash)
    ensures AttemptedOnce(sys, next, t, called.calls)
  {
    AnswerCases(p, called, at, t, reply, crash, next);
    if !InTime(p, t, at, reply) {
      LateAnswer(p, sys, called, at, t, reply, crash, next);
    } else if crash == NoCrash {
      TimelyAnswer(p, sys, called, at, t, reply, next);
    } else {
      WrittenAnswer(p, sys, called, at, t, reply, next);
    }
  }

  lemma LateAnswer(p: Plan, sys: System, called: System, at: nat, t: TaskId, reply: Reply, crash: Crash, next: System)
    requires Admitted(p) && LiftedOff(p, sys, called, t, at) && reply.Returned? && !InTime(p, t, at, reply)
    requires (crash == NoCrash || crash == AfterCompletion) && next == Recovered(p, called, at + reply.duration)
    ensures Replied(p, sys, next, t, at, reply, crash) && AttemptedOnce(sys, next, t, called.calls)
  {
    UnknownAfter(p, called, t, at + reply.duration, next);
    UnknownSince(p, sys, called, next, t, at, at + reply.duration);
    LateReply(p, sys, next, t, at, reply, crash);
  }

  lemma LateReply(p: Plan, sys: System, next: System, t: TaskId, at: nat, reply: Reply, crash: Crash)
    requires reply.Returned? && !InTime(p, t, at, reply) && CountsUnknown(p, sys, next, t, at + reply.duration)
    requires crash == NoCrash || crash == AfterCompletion
    ensures Replied(p, sys, next, t, at, reply, crash)
  {
  }

  lemma TimelyAnswer(p: Plan, sys: System, called: System, at: nat, t: TaskId, reply: Reply, next: System)
    requires Admitted(p) && LiftedOff(p, sys, called, t, at) && t in called.calls && InTime(p, t, at, reply)
    requires next == Delivered(p, called, at + reply.duration, t, reply.actual, reply.output, NoCrash)
    ensures Replied(p, sys, next, t, at, reply, NoCrash) && AttemptedOnce(sys, next, t, called.calls)
  {
    var c := Completion(reply.actual, reply.output);
    DoneAfter(p, called, t, at + reply.duration, c, next);
    DoneSince(sys, called, next, t, at, at + reply.duration, c);
  }

  lemma WrittenAnswer(p: Plan, sys: System, called: System, at: nat, t: TaskId, reply: Reply, next: System)
    requires LiftedOff(p, sys, called, t, at) && InTime(p, t, at, reply)
    requires next == called.(completions := called.completions[t := Completion(reply.actual, reply.output)])
    ensures Replied(p, sys, next, t, at, reply, AfterCompletion) && AttemptedOnce(sys, next, t, called.calls)
  {
  }

  lemma FailureOutcome(p: Plan, sys: System, flying: System, at: nat, t: TaskId, next: System)
    requires Admitted(p) && LiftedOff(p, sys, flying, t, at) && next == Recovered(p, flying, at)
    ensures CountsUnknown(p, sys, next, t, at) && AttemptedOnce(sys, next, t, flying.calls)
  {
    UnknownAfter(p, flying, t, at, next);
    UnknownSince(p, sys, flying, next, t, at, at);
  }

  /** What a dispatch of `t` at `at` has left behind, for its reply and the write after which the process died. */
  ghost predicate Concluded(p: Plan, sys: System, next: System, t: TaskId, at: nat, reply: Reply, crash: Crash) {
    match crash
    case AfterRecord =>
      && StillFlying(sys, next, t, at) && next.completions == sys.completions
      && next.attempts == sys.attempts && next.calls == sys.calls
    case AfterStart =>
      StillFlying(sys, next, t, at) && next.completions == sys.completions && AttemptedOnce(sys, next, t, sys.calls)
    case _ =>
      && AttemptedOnce(sys, next, t, if reply.NoWorker? then sys.calls else sys.calls + [t])
      && Replied(p, sys, next, t, at, reply, crash)
  }

  ghost predicate Replied(p: Plan, sys: System, next: System, t: TaskId, at: nat, reply: Reply, crash: Crash) {
    match reply
    case NoWorker => CountsUnknown(p, sys, next, t, at)
    case Threw =>
      if crash == AfterWorker then StillFlying(sys, next, t, at) && next.completions == sys.completions
      else CountsUnknown(p, sys, next, t, at)
    case Returned(actual, duration, output) =>
      if crash == AfterWorker then StillFlying(sys, next, t, at) && next.completions == sys.completions
      else if !actual.Fits(p.Need(t)) || p.DeadlineOf(t) < at + duration then
        CountsUnknown(p, sys, next, t, at + duration)
      else if crash == AfterCompletion then
        StillFlying(sys, next, t, at) && next.completions == sys.completions[t := Completion(actual, output)]
      else CountsDone(sys, next, t, at + duration, Completion(actual, output))
  }

  lemma WorkOutcome(p: Plan, sys: System, started: System, at: nat, t: TaskId, reply: Reply, crash: Crash, next: System)
    requires Admitted(p) && LiftedOff(p, sys, started, t, at) && t !in started.calls && started.calls == sys.calls
    requires next == Worked(p, started, at, t, reply, crash) && crash != AfterRecord && crash != AfterStart
    ensures AttemptedOnce(sys, next, t, if reply.NoWorker? then sys.calls else sys.calls + [t])
    ensures Replied(p, sys, next, t, at, reply, crash)
  {
    var called := started.(calls := started.calls + [t]);
    WorkedCases(p, started, called, at, t, reply, crash, next);
    Calls(p, sys, started, called, t, at);
    if reply.NoWorker? {
      FailureOutcome(p, sys, started, at, t, next);
    } else if crash != AfterWorker {
      if reply.Threw? {
        FailureOutcome(p, sys, called, at, t, next);
      } else {
        AnswerOutcome(p, sys, called, at, t, reply, crash, next);
      }
    }
  }

  lemma LaunchOutcome(p: Plan, sys: System, at: nat, t: TaskId, reply: Reply, crash: Crash, next: System)
    requires Admitted(p) && Durable(p, sys) && NextDispatch(p, sys.state.values, at) == Some(t) && t in p.admitted
    requires next == Launched(p, sys, at, t, reply, crash)
    ensures Concluded(p, sys, next, t, at, reply, crash)
  {
    var recorded := Recorded(p, sys, at, t);
    var started := Attempted(recorded, t);
    Lifts(p, sys, at, t, recorded, started);
    LaunchCases(p, sys, at, t, reply, crash, recorded, started, next);
    if crash != AfterRecord && crash != AfterStart {
      WorkOutcome(p, sys, started, at, t, reply, crash, next);
    }
  }

  /** Every dispatch, with every reply and every crash, leaves exactly these facts; without a choice it leaves none. */
  lemma DispatchOutcome(p: Plan, sys: System, at: nat, work: TaskId -> Reply, crash: Crash, next: System)
    requires Admitted(p) && Durable(p, sys) && next == Performed(p, sys, DispatchNext(at, work, crash))
    ensures match NextDispatch(p, sys.state.values, at)
            case None => next == sys
            case Some(t) => Concluded(p, sys, next, t, at, work(t), crash)
  {
    var choice := NextDispatch(p, sys.state.values, at);
    if choice.Some? {
      DispatchIsChoice(p, sys.state.values, at);
      LaunchOutcome(p, sys, at, choice.value, work(choice.value), crash, next);
    }
  }

  /** A result after its deadline never counts: no durable completion, the full reservation charged as unknown. */
  lemma LateResultIsUnknown(p: Plan, sys: System, at: nat, work: TaskId -> Reply, t: TaskId, next: System)
    requires Admitted(p) && Durable(p, sys) && NextDispatch(p, sys.state.values, at) == Some(t)
    requires work(t).Returned? && at + work(t).duration > p.DeadlineOf(t)
    requires next == Performed(p, sys, DispatchNext(at, work, NoCrash))
    ensures t !in next.completions && t !in next.state.values.completed && t in next.state.values.unknown
    ensures next.state.values.unknownUsage == sys.state.values.unknownUsage.Add(p.Need(t))
    ensures t in p.guarded ==> next.state.values.status == Refused
  {
    DispatchOutcome(p, sys, at, work, NoCrash, next);
    LateIsUnknown(p, sys, next, t, at, work(t));
  }

  lemma LateIsUnknown(p: Plan, sys: System, next: System, t: TaskId, at: nat, reply: Reply)
    requires Concluded(p, sys, next, t, at, reply, NoCrash) && reply.Returned? && at + reply.duration > p.DeadlineOf(t)
    ensures CountsUnknown(p, sys, next, t, at + reply.duration)
  {
  }

  // ---------------------------------------------------------------- the other operations

  /** The requests that the runtime offers to its operator. */
  predicate Requestable(body: Body) {
    match body
    case Provider429(provider, resetAt) => provider != "" && resetAt > 0
    case ProviderReset(provider) => provider != ""
    case ProviderCapacity(provider, _) => provider != ""
    case BudgetCut(_) => true
    case Cancellation(reason) => reason != ""
    case _ => false
  }

  /** A control operation appends its numbered event if that is acceptable, and otherwise leaves no trace. */
  lemma ControlOutcome(p: Plan, sys: System, at: nat, body: Body, next: System)
    requires Admitted(p) && Durable(p, sys) && next == Performed(p, sys, Control(at, body))
    ensures var e := Event(Numbered(Kind(body), |sys.events| + 1), at, body);
      if Requestable(body) && Acceptable(p, sys.events, sys.state.values, e)
      then next == sys.(state := next.state, events := sys.events + [e]) && After(p, next.events) == Some(next.state)
      else next == sys
  {
    RequestableIsControl(body);
    if Requestable(body) {
      var e := IssueIsNumbered(p, sys, at, body);
      IssueOutcome(p, sys, e, next);
    }
  }

  lemma RequestableIsControl(body: Body)
    ensures ControlBody(body) <==> Requestable(body)
  {
  }

  lemma IssueIsNumbered(p: Plan, sys: System, at: nat, body: Body) returns (e: Event)
    requires Admitted(p) && Durable(p, sys)
    ensures e == Issue(sys.state, at, body) == Event(Numbered(Kind(body), |sys.events| + 1), at, body)
  {
    ReachableIsSound(p, sys.events);
    e := Issue(sys.state, at, body);
  }

  lemma IssueOutcome(p: Plan, sys: System, e: Event, next: System)
    requires Admitted(p) && Durable(p, sys) && next == Append(p, sys, e)
    ensures
      if Acceptable(p, sys.events, sys.state.values, e)
      then next == sys.(state := next.state, events := sys.events + [e]) && After(p, next.events) == Some(next.state)
      else next == sys
  {
    AcceptedExactly(p, sys.events, sys.state, e);
    SnocIsStaged(p, sys.events, sys.state, e);
    if Stage(p, sys.state.revision, sys.state.values, e).Staged? {
      AppendAccepted(p, sys, e, next);
    }
  }

  /** Recovery settles a durable completion, charges any other lease in full, and does nothing without one. */
  lemma RecoveryOutcome(p: Plan, sys: System, at: nat, next: System)
    requires Admitted(p) && Durable(p, sys) && next == Performed(p, sys, RecoverInflight(at))
    ensures var v := sys.state.values;
      if v.status == Running && v.inflight.Some? && v.now <= at then
        var t := v.inflight.value.task;
        if t in sys.completions then CountsDone(sys, next, t, at, sys.completions[t])
        else CountsUnknown(p, sys, next, t, at)
      else next == sys
  {
    var v := sys.state.values;
    if v.status == Running && v.inflight.Some? && v.now <= at {
      var t := v.inflight.value.task;
      if t in sys.completions {
        SettlesDurable(p, sys, at, next, t);
      } else {
        UnknownAfter(p, sys, t, at, next);
      }
    }
  }

  lemma SettlesDurable(p: Plan, sys: System, at: nat, next: System, t: TaskId)
    requires Admitted(p) && Durable(p, sys) && next == Recovered(p, sys, at) && t in sys.completions
    requires sys.state.values.status == Running && sys.state.values.Flying() == {t} && sys.state.values.now <= at
    ensures CountsDone(sys, next, t, at, sys.completions[t])
  {
    var e := Issue(sys.state, at, RecoveryBody(sys, sys.state.values.inflight.value));
    RecoveryStages(p, sys.state.revision, sys.state.values, sys, e);
    SettlesBy(p, sys, e, sys.completions[t], next, t);
  }

  lemma SettlesBy(p: Plan, sys: System, e: Event, c: Completion, next: System, t: TaskId)
    requires Admitted(p) && Durable(p, sys) && next == Append(p, sys, e) && t in sys.completions
    requires sys.completions[t] == c && e.body.UsageSettled? && e.body.task == t && e.body.actual == c.actual
    requires Stage(p, sys.state.revision, sys.state.values, e).Staged?
    ensures CountsDone(sys, next, t, e.at, c)
  {
    AppendAccepted(p, sys, e, next);
    SettlementStages(p, sys.state.revision, sys.state.values, e);
    ReconciledKeepsLedger(p, Finished(sys.state.values, e));
    FinishedCounts(sys.state.values, e, next.state.values);
    SameCompletions(sys.completions, t, c);
  }

  lemma SameCompletions(completions: map<TaskId, Completion>, t: TaskId, c: Completion)
    requires t in completions && completions[t] == c
    ensures completions[t := c] == completions
  {
  }

  // ---------------------------------------------------------------- durable completions over whole runs

  /** The operation dispatched `t` and wrote down an answer that was within its reservation and its deadline. */
  ghost predicate Answers(p: Plan, v: Values, op: Op, t: TaskId) {
    && op.DispatchNext? && (op.crash == NoCrash || op.crash == AfterCompletion)
    && NextDispatch(p, v, op.at) == Some(t) && InTime(p, t, op.at, op.work(t))
  }

  lemma ControlKeepsCompletions(p: Plan, sys: System, op: Op)
    requires !op.DispatchNext?
    ensures Performed(p, sys, op).completions == sys.completions
  {
  }

  /** Only an answer in time that outlives its write adds a completion. */
  lemma ConclusionCompletes(p: Plan, sys: System, next: System, t: TaskId, at: nat, reply: Reply, crash: Crash)
    requires Concluded(p, sys, next, t, at, reply, crash)
    ensures next.completions ==
      if (crash == NoCrash || crash == AfterCompletion) && InTime(p, t, at, reply)
      then sys.completions[t := Completion(reply.actual, reply.output)] else sys.completions
  {
  }

  lemma OpCompletes(p: Plan, sys: System, op: Op, next: System, t: TaskId)
    requires Admitted(p) && Durable(p, sys) && next == Performed(p, sys, op)
    ensures Adds(p, sys.state.values, op, sys.completions, next.completions, t)
  {
    if op.DispatchNext? {
      DispatchCompletes(p, sys, op.at, op.work, op.crash, next, t);
    } else {
      ControlKeepsCompletions(p, sys, op);
    }
  }

  /** The operation adds a completion of `t` if it answers it, and changes no other. */
  ghost predicate Adds(p: Plan, v: Values, op: Op, before: map<TaskId, Completion>, after: map<TaskId, Completion>,
      t: TaskId) {
    && (t in after <==> t in before || Answers(p, v, op, t))
    && (t in before ==> t in after && after[t] == before[t])
    && (Answers(p, v, op, t) ==> t in after && after[t] == Completion(op.work(t).actual, op.work(t).output))
  }

  lemma DispatchCompletes(p: Plan, sys: System, at: nat, work: TaskId -> Reply, crash: Crash, next: System, t: TaskId)
    requires Admitted(p) && Durable(p, sys) && next == Performed(p, sys, DispatchNext(at, work, crash))
    ensures Adds(p, sys.state.values, DispatchNext(at, work, crash), sys.completions, next.completions, t)
  {
    var choice := NextDispatch(p, sys.state.values, at);
    DispatchOutcome(p, sys, at, work, crash, next);
    if choice.Some? {
      DispatchedIsNew(p, sys, at);
      ConclusionCompletes(p, sys, next, choice.value, at, work(choice.value), crash);
      ChoiceAdds(p, sys.state.values, DispatchNext(at, work, crash), choice.value,
                 sys.completions, next.completions, t);
    }
  }

  lemma ChoiceAdds(p: Plan, v: Values, op: Op, choice: TaskId, before: map<TaskId, Completion>,
      after: map<TaskId, Completion>, t: TaskId)
    requires op.DispatchNext? && NextDispatch(p, v, op.at) == Some(choice) && choice !in before
    requires after ==
      if (op.crash == NoCrash || op.crash == AfterCompletion) && InTime(p, choice, op.at, op.work(choice))
      then before[choice := Completion(op.work(choice).actual, op.work(choice).output)] else before
    ensures Adds(p, v, op, before, after, t)
  {
  }

  lemma DispatchedIsNew(p: Plan, sys: System, at: nat)
    requires Admitted(p) && Durable(p, sys)
    ensures var choice := NextDispatch(p, sys.state.values, at); choice.Some? ==> choice.value !in sys.completions
  {
    if NextDispatch(p, sys.state.values, at).Some? {
      DispatchIsChoice(p, sys.state.values, at);
      DispatchKeepsLedger(p, sys, at, NextDispatch(p, sys.state.values, at).value);
    }
  }

  ghost predicate AnsweredAt(p: Plan, ops: seq<Op>, i: nat, t: TaskId) {
    i < |ops| && Answers(p, Run(p, ops[..i]).state.values, ops[i], t)
  }

  lemma AnsweredSnoc(p: Plan, front: seq<Op>, op: Op, i: nat, t: TaskId)
    ensures i < |front| ==> (AnsweredAt(p, front + [op], i, t) <==> AnsweredAt(p, front, i, t))
    ensures AnsweredAt(p, front + [op], |front|, t) <==> Answers(p, Run(p, front).state.values, op, t)
    ensures i < |front| ==> (front + [op])[i] == front[i]
  {
    var ops := front + [op];
    assert ops[..|front|] == front && ops[|front|] == op;
    if i < |front| {
      assert ops[..i] == front[..i] && ops[i] == front[i];
    }
  }

  /** The completions are the answers of the operations so far. */
  ghost predicate Accounts(p: Plan, ops: seq<Op>, completions: map<TaskId, Completion>, t: TaskId) {
    && (t in completions <==> exists i: nat :: AnsweredAt(p, ops, i, t))
    && (forall i: nat :: AnsweredAt(p, ops, i, t) ==>
      t in completions && completions[t] == Completion(ops[i].work(t).actual, ops[i].work(t).output))
  }

  /** Some operation answered the task exactly if one of the earlier ones or the last did. */
  lemma SomeAnswer(p: Plan, front: seq<Op>, op: Op, t: TaskId)
    ensures (exists i: nat :: AnsweredAt(p, front + [op], i, t)) <==>
      (exists i: nat :: AnsweredAt(p, front, i, t)) || Answers(p, Run(p, front).state.values, op, t)
  {
    AnsweredSnoc(p, front, op, |front|, t);
    if exists i: nat :: AnsweredAt(p, front, i, t) {
      var i: nat :| AnsweredAt(p, front, i, t);
      AnsweredSnoc(p, front, op, i, t);
    }
    if exists i: nat :: AnsweredAt(p, front + [op], i, t) {
      var i: nat :| AnsweredAt(p, front + [op], i, t);
      AnsweredSnoc(p, front, op, i, t);
    }
  }

  lemma RecordedStep(p: Plan, front: seq<Op>, op: Op, before: map<TaskId, Completion>,
      after: map<TaskId, Completion>, t: TaskId)
    requires Accounts(p, front, before, t) && Adds(p, Run(p, front).state.values, op, before, after, t)
    ensures Accounts(p, front + [op], after, t)
  {
    SomeAnswer(p, front, op, t);
    forall i: nat | AnsweredAt(p, front + [op], i, t)
      ensures t in after
      ensures after[t] == Completion((front + [op])[i].work(t).actual, (front + [op])[i].work(t).output)
    {
      AnsweredSnoc(p, front, op, i, t);
    }
  }

  /**
   * Over any operations, crashes and restarts: a task has a durable completion exactly when some dispatch of it
   * was answered within reservation and deadline, and the completion is that answer.
   */
  lemma {:induction false} CompletionsAreAnswers(p: Plan, ops: seq<Op>, t: TaskId)
    requires Admitted(p)
    ensures t in Run(p, ops).completions <==> exists i: nat :: AnsweredAt(p, ops, i, t)
    ensures forall i: nat :: AnsweredAt(p, ops, i, t) ==>
      && t in Run(p, ops).completions
      && Run(p, ops).completions[t] == Completion(ops[i].work(t).actual, ops[i].work(t).output)
    decreases |ops|
  {
    if ops == [] {
      NothingCompleted(p, Opened(p));
    } else {
      var front, op := ops[..|ops| - 1], ops[|ops| - 1];
      CompletionsAreAnswers(p, front, t);
      RunIsDurable(p, front);
      OpCompletes(p, Run(p, front), op, Run(p, ops), t);
      RecordedStep(p, front, op, Run(p, front).completions, Run(p, ops).completions, t);
      SplitLast(ops);
    }
  }

  lemma NothingCompleted(p: Plan, first: System)
    requires first == Opened(p)
    ensures first.completions.Keys == {}
  {
  }
}
