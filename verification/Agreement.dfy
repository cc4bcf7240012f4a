/** Restarts: worker calls, charges, and exactly when the constructor's agreement check passes. */
module Agreement {
  import opened Contracts
  import opened Plans
  import opened Controller
  import opened Transitions
  import opened Runs
  import opened Histories
  import opened Runtime
  import opened Recovery

  /** The invariant holds after any operations, crashes and restarts. */
  lemma {:induction false} RunIsDurable(p: Plan, ops: seq<Op>)
    requires Admitted(p)
    ensures Durable(p, Run(p, ops))
    decreases |ops|
  {
    if ops == [] {
      OpenedIsDurable(p);
    } else {
      var front := ops[..|ops| - 1];
      RunIsDurable(p, front);
      OpKeepsDurable(p, Run(p, front), ops[|ops| - 1]);
    }
  }

  lemma EmptyLedger(p: Plan, sys: System)
    requires sys.completions == map[] && sys.attempts == map[] && sys.calls == []
    requires sys.state.values.completed == {} && sys.state.values.settled == ZERO
    ensures Ledger(p, sys)
  {
    assert Actuals(sys.completions, {}) == ZERO;
  }

  lemma AfterNothing(p: Plan, events: seq<Event>)
    requires events == []
    ensures After(p, events) == Some(Initial(p))
  {
  }

  lemma BlankIsSound(p: Plan, blank: System)
    requires Admitted(p) && blank.state == Initial(p) && blank.events == []
    ensures After(p, blank.events) == Some(blank.state)
    ensures Sound(p, blank.state.values)
  {
    AfterNothing(p, blank.events);
    ReachableIsSound(p, blank.events);
  }

  lemma InitialStartsNothing(p: Plan, v: Values)
    requires v == Initial(p).values
    ensures v.completed == {} && v.unknown == {} && v.inflight.None? && v.settled == ZERO && v.status != Cancelled
  {
    ReconciledKeepsLedger(p, InitialValues(p));
    ReconciledIsNotCancelled(p, InitialValues(p));
  }

  lemma OpenedIsDurable(p: Plan)
    requires Admitted(p)
    ensures Durable(p, Opened(p))
  {
    var blank := System(Initial(p), [], map[], map[], []);
    BlankIsSound(p, blank);
    InitialStartsNothing(p, blank.state.values);
    EmptyLedger(p, blank);
    ControlKeepsLedger(p, blank, Event(StartId, 0, RuntimeStarted), Opened(p));
  }

  /** No worker is called twice and no attempt but the first is ever started, whatever crashes. */
  lemma WorkersAreCalledOnce(p: Plan, ops: seq<Op>)
    requires Admitted(p)
    ensures Distinct(Run(p, ops).calls)
    ensures forall t :: t in Run(p, ops).attempts ==> Run(p, ops).attempts[t] == 1
  {
    RunIsDurable(p, ops);
  }

  /** Each started task is charged its durable actual usage or its full reservation. */
  lemma ChargesAreExact(p: Plan, ops: seq<Op>)
    requires Admitted(p)
    ensures var sys := Run(p, ops);
            var v := sys.state.values;
            && v.completed <= sys.completions.Keys
            && v.settled == Actuals(sys.completions, v.completed)
            && v.unknownUsage == p.Total(v.unknown)
            && v.Committed().Fits(p.envelope.caps)
            && (forall t :: t in sys.completions ==> sys.completions[t].actual.Fits(p.Need(t)))
  {
    RunIsDurable(p, ops);
  }

  /** Recovery of a running state appends one accepted event and empties the in-flight slot. */
  lemma RecoveryEmptiesSlot(p: Plan, sys: System, at: nat)
    requires Admitted(p) && Durable(p, sys)
    requires sys.state.values.status == Running && sys.state.values.inflight.Some?
    requires sys.state.values.now <= at
    ensures var t := sys.state.values.inflight.value.task;
            var v, next := sys.state.values, Recovered(p, sys, at);
            var w := next.state.values;
            && |next.events| == |sys.events| + 1
            && next.calls == sys.calls && next.completions == sys.completions
            && w.inflight.None?
            && (if t in sys.completions then
                 && w.completed == v.completed + {t} && w.unknown == v.unknown
                 && w.settled == v.settled.Add(sys.completions[t].actual)
               else
                 && w.completed == v.completed && w.unknown == v.unknown + {t}
                 && w.unknownUsage == v.unknownUsage.Add(p.Need(t)))
  {
    var lease := sys.state.values.inflight.value;
    var e := Issue(sys.state, at, RecoveryBody(sys, lease));
    RecoveryStages(p, sys.state.revision, sys.state.values, sys, e);
    AppendAccepted(p, sys, e, Append(p, sys, e));
    ReconciledKeepsLedger(p, Stage(p, sys.state.revision, sys.state.values, e).values);
  }

  lemma RecoveryStages(p: Plan, revision: nat, v: Values, sys: System, e: Event)
    requires v.status == Running && v.inflight.Some? && v.now <= e.at
    requires e.body == RecoveryBody(sys, v.inflight.value)
    requires v.inflight.value.task in sys.completions ==>
      sys.completions[v.inflight.value.task].actual.Fits(v.inflight.value.reservation)
    ensures Stage(p, revision, v, e).Staged?
    ensures Stage(p, revision, v, e).values ==
      if e.body.UsageSettled? then Finished(v, e)
      else Charged(p, v.(now := e.at), if v.inflight.value.task in p.guarded then Refused else Running)
  {
  }

  // ---------------------------------------------------------------- the agreement check

  lemma AgreementIsDisjointness(p: Plan, sys: System)
    requires Durable(p, sys)
    ensures Agrees(sys) <==> sys.completions.Keys !! sys.state.values.unknown
    ensures !Agrees(sys) ==> sys.state.values.status == Cancelled
  {
  }

  /** A cancellation accepted while the in-flight task already has a durable completion. */
  ghost predicate Strands(sys: System, op: Op) {
    var v := sys.state.values;
    && op.Control? && op.body.Cancellation? && ValidDetails(op.body)
    && v.status == Running && v.now <= op.at
    && v.inflight.Some? && v.inflight.value.task in sys.completions
  }

  lemma ReconciledIsNotCancelled(p: Plan, v: Values)
    requires v.status != Cancelled
    ensures Reconciled(p, v).status != Cancelled
  {
  }

  lemma StageIsNotCancelled(p: Plan, revision: nat, v: Values, e: Event)
    requires v.status != Cancelled && !e.body.Cancellation? && Stage(p, revision, v, e).Staged?
    ensures Stage(p, revision, v, e).values.status != Cancelled
  {
  }

  lemma AppendIsNotCancelled(p: Plan, sys: System, e: Event)
    requires sys.state.values.status != Cancelled && !e.body.Cancellation?
    ensures Append(p, sys, e).state.values.status != Cancelled
  {
    if Stage(p, sys.state.revision, sys.state.values, e).Staged? {
      StageIsNotCancelled(p, sys.state.revision, sys.state.values, e);
      ReconciledIsNotCancelled(p, Stage(p, sys.state.revision, sys.state.values, e).values);
    }
  }

  lemma RecoveryIsNotCancelled(p: Plan, sys: System, at: nat)
    requires sys.state.values.status != Cancelled
    ensures Recovered(p, sys, at).state.values.status != Cancelled
  {
    if sys.state.values.inflight.Some? {
      AppendIsNotCancelled(p, sys, Issue(sys.state, at, RecoveryBody(sys, sys.state.values.inflight.value)));
    }
  }

  lemma DeliveryIsNotCancelled(p: Plan, called: System, at: nat, t: TaskId, actual: Usage, output: string,
      crash: Crash)
    requires called.state.values.status != Cancelled
    ensures Delivered(p, called, at, t, actual, output, crash).state.values.status != Cancelled
  {
    var delivered := called.(completions := called.completions[t := Completion(actual, output)]);
    AppendIsNotCancelled(p, delivered, Issue(delivered.state, at, UsageSettled(t, 1, actual, output)));
  }

  lemma AnswerIsNotCancelled(p: Plan, called: System, at: nat, t: TaskId, actual: Usage, output: string, crash: Crash)
    requires called.state.values.status != Cancelled
    ensures Answered(p, called, at, t, actual, output, crash).state.values.status != Cancelled
  {
    RecoveryIsNotCancelled(p, called, at);
    DeliveryIsNotCancelled(p, called, at, t, actual, output, crash);
    AnswerKeeps((s: System) => s.state.values.status != Cancelled, p, called, at, t, actual, output, crash);
  }

  lemma WorkIsNotCancelled(p: Plan, started: System, at: nat, t: TaskId, reply: Reply, crash: Crash)
    requires started.state.values.status != Cancelled
    ensures Worked(p, started, at, t, reply, crash).state.values.status != Cancelled
  {
    var called := started.(calls := started.calls + [t]);
    RecoveryIsNotCancelled(p, started, at);
    RecoveryIsNotCancelled(p, called, at);
    forall back: nat, actual, output
      ensures Answered(p, called, back, t, actual, output, crash).state.values.status != Cancelled
    {
      AnswerIsNotCancelled(p, called, back, t, actual, output, crash);
    }
    WorkKeeps((s: System) => s.state.values.status != Cancelled, p, started, called, at, t, reply, crash);
  }

  lemma LaunchIsNotCancelled(p: Plan, sys: System, at: nat, t: TaskId, reply: Reply, crash: Crash)
    requires t in p.admitted && sys.state.values.status != Cancelled
    ensures Launched(p, sys, at, t, reply, crash).state.values.status != Cancelled
  {
    var recorded := Recorded(p, sys, at, t);
    AppendIsNotCancelled(p, sys, Issue(sys.state, at, DispatchBody(p, t)));
    var started := Attempted(recorded, t);
    WorkIsNotCancelled(p, started, at, t, reply, crash);
  }

  lemma DispatchIsNotCancelled(p: Plan, sys: System, at: nat, work: TaskId -> Reply, crash: Crash)
    requires sys.state.values.status != Cancelled
    ensures Runtime.Dispatched(p, sys, at, work, crash).state.values.status != Cancelled
  {
    var choice := NextDispatch(p, sys.state.values, at);
    if choice.Some? && choice.value in p.admitted {
      LaunchIsNotCancelled(p, sys, at, choice.value, work(choice.value), crash);
    }
  }

  /** A cancelled run is final: every operation raises or does nothing. */
  lemma CancelledIsFinal(p: Plan, sys: System, op: Op)
    requires Durable(p, sys) && sys.state.values.status == Cancelled
    ensures Performed(p, sys, op) == sys
  {
  }

  lemma CancelCharges(p: Plan, sys: System, e: Event)
    requires Admitted(p) && Durable(p, sys) && e.body.Cancellation?
    requires Stage(p, sys.state.revision, sys.state.values, e).Staged?
    ensures var next := Append(p, sys, e);
            && next.completions == sys.completions
            && next.state.values.unknown == sys.state.values.unknown + sys.state.values.Flying()
  {
    AppendAccepted(p, sys, e, Append(p, sys, e));
    ChargeStages(p, sys.state.revision, sys.state.values, e);
    ReconciledKeepsLedger(p, Stage(p, sys.state.revision, sys.state.values, e).values);
  }

  lemma CancelIsStaged(p: Plan, revision: nat, v: Values, e: Event)
    requires e.body.Cancellation?
    ensures Stage(p, revision, v, e).Staged? <==> v.status == Running && v.now <= e.at
  {
  }

  lemma CancelStrands(p: Plan, sys: System, op: Op)
    requires Admitted(p) && Durable(p, sys) && sys.state.values.status != Cancelled
    requires op.Control? && op.body.Cancellation? && ValidDetails(op.body)
    ensures Agrees(Append(p, sys, Issue(sys.state, op.at, op.body))) <==> !Strands(sys, op)
  {
    var e := Issue(sys.state, op.at, op.body);
    var next := Append(p, sys, e);
    AgreementIsDisjointness(p, sys);
    CancelIsStaged(p, sys.state.revision, sys.state.values, e);
    if Stage(p, sys.state.revision, sys.state.values, e).Staged? {
      CancelCharges(p, sys, e);
      ChargeKeepsLedger(p, sys, e, Append(p, sys, e));
      AgreementIsDisjointness(p, next);
      ChargedOverlap(sys, next, op);
    } else {
      assert next == sys;
      assert Agrees(next) && !Strands(sys, op);
    }
  }

  lemma ChargedOverlap(sys: System, next: System, op: Op)
    requires op.Control? && op.body.Cancellation? && ValidDetails(op.body)
    requires sys.state.values.status == Running && sys.state.values.now <= op.at
    requires sys.completions.Keys !! sys.state.values.unknown
    requires next.completions == sys.completions
    requires next.state.values.unknown == sys.state.values.unknown + sys.state.values.Flying()
    ensures next.completions.Keys !! next.state.values.unknown <==> !Strands(sys, op)
  {
  }

  lemma AgreementStep(p: Plan, sys: System, op: Op)
    requires Admitted(p) && Durable(p, sys)
    ensures Agrees(Performed(p, sys, op)) <==> Agrees(sys) && !Strands(sys, op)
  {
    AgreementIsDisjointness(p, sys);
    if sys.state.values.status == Cancelled {
      CancelledIsFinal(p, sys, op);
    } else if op.Control? && op.body.Cancellation? && ValidDetails(op.body) {
      CancelStrands(p, sys, op);
    } else {
      OpKeepsDurable(p, sys, op);
      OpIsNotCancelled(p, sys, op);
      AgreementIsDisjointness(p, Performed(p, sys, op));
    }
  }

  lemma OpIsNotCancelled(p: Plan, sys: System, op: Op)
    requires sys.state.values.status != Cancelled && !(op.Control? && op.body.Cancellation? && ValidDetails(op.body))
    ensures Performed(p, sys, op).state.values.status != Cancelled
  {
    match op
    case Control(at, body) =>
      if !body.Cancellation? {
        AppendIsNotCancelled(p, sys, Issue(sys.state, at, body));
      }
    case DispatchNext(at, work, crash) => DispatchIsNotCancelled(p, sys, at, work, crash);
    case RecoverInflight(at) => RecoveryIsNotCancelled(p, sys, at);
  }

  ghost predicate NeverStranded(p: Plan, ops: seq<Op>) {
    forall i :: 0 <= i < |ops| ==> !Strands(Run(p, ops[..i]), ops[i])
  }

  lemma NeverStrandedStep(p: Plan, front: seq<Op>, op: Op)
    ensures NeverStranded(p, front + [op]) <==> NeverStranded(p, front) && !Strands(Run(p, front), op)
  {
    var ops := front + [op];
    assert ops[..|front|] == front && ops[|front|] == op;
    assert forall i :: 0 <= i < |front| ==> ops[..i] == front[..i] && ops[i] == front[i];
  }

  /**
   * A restart succeeds exactly when no cancellation was accepted between a durable completion and
   * its settlement: such a cancellation charges the finished task as unknown, and from then on
   * controller records and durable outputs disagree for good.
   */
  lemma {:induction false} RestartAgreesExactly(p: Plan, ops: seq<Op>)
    requires Admitted(p)
    ensures Agrees(Run(p, ops)) <==> NeverStranded(p, ops)
    decreases |ops|
  {
    if ops == [] {
      OpenedAgrees(p);
    } else {
      var front, op := ops[..|ops| - 1], ops[|ops| - 1];
      assert front + [op] == ops;
      RunIsDurable(p, front);
      RestartAgreesExactly(p, front);
      AgreementStep(p, Run(p, front), op);
      NeverStrandedStep(p, front, op);
    }
  }

  lemma OpenedAgrees(p: Plan)
    requires Admitted(p)
    ensures Agrees(Opened(p))
  {
    OpenedIsDurable(p);
    AgreementIsDisjointness(p, Opened(p));
    assert Opened(p).completions == map[];
  }
}
