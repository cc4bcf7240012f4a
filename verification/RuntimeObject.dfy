/** The runtime object over its durable store: replay on opening, and transitions in place. */
module RuntimeObject {
  import opened Contracts
  import opened Plans
  import opened Controller
  import opened Replanning
  import opened Transitions
  import opened Runs
  import opened Histories
  import opened Runtime
  import opened Recovery
  import opened Agreement
  import opened Driving
  import opened Replay
  import opened ControllerModel

  /** `replay_adaptive_records`: one pass over the records, stopping at the first mismatch. */
  method ReplayRecords(p: Plan, records: seq<Record>) returns (verdict: Verdict)
    requires Admitted(p)
    ensures verdict == Replayed(p, records)
  {
    var state := InitialState(p);
    var seen: set<EventId> := {};
    LeaseStaysKnown(p, []);
    for i := 0 to |records|
      invariant KnownLease(p, state.values)
      invariant Replayed(p, records) == ReplayFrom(p, state, seen, i, records[i..])
    {
      var r := records[i];
      assert records[i..][0] == r && records[i..][1..] == records[i + 1..];
      if !RecordDecodes(r) || r.revision != i + 1 || r.event.id in seen || r.prior != state {
        return Failed(i + 1);
      }
      var applied := ApplyEvent(p, state, r.event);
      if applied == Raises {
        return Escaped;
      }
      if r.next != applied.next || r.decision != applied.decision {
        return Failed(i + 1);
      }
      AppliedLeaseIsKnown(p, state, r.event);
      state := r.next;
      seen := seen + {r.event.id};
    }
    return Passed(state);
  }

  lemma AppliedLeaseIsKnown(p: Plan, s: State, e: Event)
    requires KnownLease(p, s.values) && Apply(p, s, e).Applied?
    ensures KnownLease(p, Apply(p, s, e).next.values)
  {
    StagedLeaseIsKnown(p, s.revision, s.values, e);
    ReconciledKeepsLedger(p, Stage(p, s.revision, s.values, e).values);
  }

  lemma LeaseStaysKnown(p: Plan, events: seq<Event>)
    requires Admitted(p) && After(p, events).Some?
    ensures KnownLease(p, After(p, events).value.values)
  {
    ReachableIsSound(p, events);
    AdmittedIsScoped(p);
  }

  /** The record of an accepted event continues the journal. */
  lemma RecordContinues(p: Plan, sys: System, records: seq<Record>, at: nat, body: Body, e: Event, r: Record,
      next: System)
    requires Admitted(p) && Logged(p, sys) && sys.events == EventsOf(records)
    requires records == Journal(p, EventsOf(records))
    requires e == Issue(sys.state, at, body) && ValidDetails(body) && Apply(p, sys.state, e).Applied?
    requires r == RecordOf(p, sys.state, e) && next == Append(p, sys, e)
    ensures EventsOf(records + [r]) == next.events && records + [r] == Journal(p, next.events)
    ensures Logged(p, next) && next == sys.(state := r.next, events := next.events)
  {
    AppendIsLogged(p, sys, at, body);
    JournalStep(p, EventsOf(records), e);
    EventsOfSnoc(records, r);
  }

  lemma LaunchedBy(p: Plan, sys: System, at: nat, t: TaskId, reply: Reply, crash: Crash)
    requires t in p.admitted
    ensures var recorded := Append(p, sys, Issue(sys.state, at, DispatchBody(p, t)));
            var started := Attempted(recorded, t);
            Launched(p, sys, at, t, reply, crash) ==
            if crash == AfterRecord then recorded
            else if crash == AfterStart || started.attempts[t] != 1 then started
            else Worked(p, started, at, t, reply, crash)
  {
  }

  // ---------------------------------------------------------------- durable store

  class RunStore {
    var records: seq<Record>
    var completions: map<TaskId, Completion>
    var attempts: map<TaskId, nat>
    var calls: seq<TaskId>

    constructor ()
      ensures records == [] && completions == map[] && attempts == map[] && calls == []
    {
      records, completions, attempts, calls := [], map[], map[], [];
    }

    /** Allocate the next attempt number of a task and append its start record. */
    method StartAttempt(t: TaskId) returns (attempt: nat)
      modifies this`attempts
      ensures attempt == (if t in old(attempts) then old(attempts)[t] else 0) + 1
      ensures attempts == old(attempts)[t := attempt]
    {
      attempt := (if t in attempts then attempts[t] else 0) + 1;
      attempts := attempts[t := attempt];
    }
  }

  // ---------------------------------------------------------------- the runtime

  class AdaptiveRuntime {
    const plan: Plan
    const store: RunStore
    var state: State

    /** The run as the specification sees it: the object's state over the durable facts. */
    ghost function View(): System
      reads this, store
    {
      System(state, EventsOf(store.records), store.completions, store.attempts, store.calls)
    }

    /** The store holds exactly the records of its events, and the state is their replay. */
    ghost predicate Coherent()
      reads this, store
    {
      && Admitted(plan)
      && Logged(plan, View())
      && store.records == Journal(plan, EventsOf(store.records))
    }

    /** Resume from replayed records; `Open` has checked them. */
    constructor Resume(plan: Plan, store: RunStore, state: State)
      ensures this.plan == plan && this.store == store && this.state == state
    {
      this.plan, this.store, this.state := plan, store, state;
    }

    /** `_append_transition`: apply, append the record durably, then take over the new state. */
    method AppendTransition(at: nat, body: Body) returns (accepted: bool)
      requires Coherent() && ValidDetails(body)
      modifies this`state, store`records
      ensures Coherent() && View() == Append(plan, old(View()), Issue(old(state), at, body))
      ensures accepted <==> Apply(plan, old(state), Issue(old(state), at, body)).Applied?
    {
      var e := Issue(state, at, body);
      LeaseStaysKnown(plan, EventsOf(store.records));
      var applied := ApplyEvent(plan, state, e);
      if applied == Raises {
        return false;
      }
      var r := Record(applied.next.revision, state, e, applied.next, applied.decision);
      RecordContinues(plan, View(), store.records, at, body, e, r, Append(plan, View(), e));
      store.records := store.records + [r];
      state := applied.next;
      return true;
    }

    /** `recover_unknown_inflight`: settle a durable completion, otherwise charge the reservation. */
    method RecoverUnknownInflight(at: nat)
      requires Coherent()
      modifies this`state, store`records
      ensures Coherent() && View() == Recovered(plan, old(View()), at)
    {
      if state.values.inflight.None? {
        return;
      }
      var lease := state.values.inflight.value;
      ReachableIsNamed(plan, EventsOf(store.records));
      var body := if lease.task in store.completions
        then UsageSettled(lease.task, lease.attempt, store.completions[lease.task].actual,
          store.completions[lease.task].output)
        else UnknownInflight(lease.task, lease.attempt, lease.reservation);
      var _ := AppendTransition(at, body);
    }

    /** The control operations: provider events, budget cuts and cancellation. */
    method ApplyControlEvent(at: nat, body: Body)
      requires Coherent()
      modifies this`state, store`records
      ensures Coherent() && View() == Performed(plan, old(View()), Control(at, body))
    {
      if ControlBody(body) {
        var _ := AppendTransition(at, body);
      }
    }

    /** The last part of a dispatch: write the completion durably, then settle. */
    method Deliver(at: nat, t: TaskId, actual: Usage, output: string, crash: Crash)
      requires Coherent()
      modifies this`state, store`records, store`completions
      ensures Coherent() && View() == Delivered(plan, old(View()), at, t, actual, output, crash)
    {
      store.completions := store.completions[t := Completion(actual, output)];
      if crash != AfterCompletion {
        var _ := AppendTransition(at, UsageSettled(t, 1, actual, output));
      }
    }

    method Answer(at: nat, t: TaskId, actual: Usage, output: string, crash: Crash)
      requires Coherent()
      modifies this`state, store`records, store`completions
      ensures Coherent() && View() == Answered(plan, old(View()), at, t, actual, output, crash)
    {
      if !actual.Fits(plan.Need(t)) || at > plan.DeadlineOf(t) {
        RecoverUnknownInflight(at);
      } else {
        Deliver(at, t, actual, output, crash);
      }
    }

    /** Call the worker, if there is one, and handle its reply. */
    method Work(at: nat, t: TaskId, reply: Reply, crash: Crash)
      requires Coherent()
      modifies this`state, store
      ensures Coherent() && View() == Worked(plan, old(View()), at, t, reply, crash)
    {
      ghost var started := View();
      ghost var called := started.(calls := started.calls + [t]);
      WorkedCases(plan, started, called, at, t, reply, crash, Worked(plan, started, at, t, reply, crash));
      if reply.NoWorker? {
        RecoverUnknownInflight(at);
      } else {
        store.calls := store.calls + [t];
        OtherFactsAreIgnored(plan, started, called);
        if crash == AfterWorker {
        } else if reply.Threw? {
          RecoverUnknownInflight(at);
        } else {
          Answer(at + reply.duration, t, reply.actual, reply.output, crash);
        }
      }
    }

    /** Start the attempt and, if it is the first, work. */
    method Attempt(at: nat, t: TaskId, reply: Reply, crash: Crash)
      requires Coherent() && crash != AfterRecord
      modifies this`state, store
      ensures Coherent()
      ensures var started := Attempted(old(View()), t);
              View() == if crash == AfterStart || started.attempts[t] != 1 then started
                        else Worked(plan, started, at, t, reply, crash)
    {
      var attempt := BeginAttempt(t);
      if attempt == 1 && crash != AfterStart {
        Work(at, t, reply, crash);
      }
    }

    /** The durable count of attempts, which the records do not depend on. */
    method BeginAttempt(t: TaskId) returns (attempt: nat)
      requires Coherent()
      modifies store`attempts
      ensures Coherent() && View() == Attempted(old(View()), t)
      ensures attempt == View().attempts[t]
    {
      ghost var before := View();
      attempt := store.StartAttempt(t);
      ghost var after := View();
      assert after == before.(attempts := before.attempts[t := attempt]);
      assert attempt == Attempts(before, t) + 1;
      OtherFactsAreIgnored(plan, before, after);
    }

    /** Everything of a dispatch after the choice: record, start the attempt, work. */
    method Launch(at: nat, t: TaskId, reply: Reply, crash: Crash)
      requires Coherent() && t in plan.admitted
      modifies this`state, store
      ensures Coherent() && View() == Launched(plan, old(View()), at, t, reply, crash)
    {
      LaunchedBy(plan, View(), at, t, reply, crash);
      var _ := AppendTransition(at, DispatchBody(plan, t));
      if crash != AfterRecord {
        Attempt(at, t, reply, crash);
      }
    }

    /** `dispatch_next`; a crash leaves the durable facts written so far. */
    method DispatchNext(at: nat, work: TaskId -> Reply, crash: Crash) returns (dispatched: Option<TaskId>)
      requires Coherent()
      modifies this`state, store
      ensures Coherent() && View() == Runtime.Dispatched(plan, old(View()), at, work, crash)
      ensures dispatched == NextDispatch(plan, old(state).values, at)
    {
      dispatched := FindDispatch(plan, state.values, at);
      if dispatched.Some? {
        DispatchIsChoice(plan, state.values, at);
        Launch(at, dispatched.value, work(dispatched.value), crash);
      }
    }

    /**
     * The controller's own drive loop: dispatch at the current time while the run is running. It stops
     * when the run is over, when nothing can be dispatched before some control changes, or when a
     * dispatch raised, and it always stops. From an idle state with open providers and punctual workers
     * it completes the whole plan.
     */
    method Drive(work: TaskId -> Reply) returns (rounds: nat, raised: bool)
      requires Coherent() && Durable(plan, View())
      modifies this`state, store
      ensures Coherent() && Durable(plan, View())
      ensures View() == Rounds(plan, old(View()), work, rounds)
      ensures old(state.values.status) != Running ==> !raised && View() == old(View())
      ensures !raised && state.values.status == Running ==> NextDispatch(plan, state.values, state.values.now).None?
      ensures old(Smooth(plan, state.values, work)) ==>
        && !raised && rounds == |old(Remaining(plan, state.values))|
        && PlanKept(plan, old(View()), View())
    {
      rounds, raised := 0, false;
      ghost var start, smooth := View(), Smooth(plan, state.values, work);
      AlongStarts(plan, start, work, smooth);
      var more := true;
      while state.values.status == Running && !raised && more
        invariant Coherent() && Along(plan, start, work, rounds, smooth, View())
        invariant smooth ==> !raised && more
        invariant !more ==> NextDispatch(plan, state.values, state.values.now).None?
        invariant start.state.values.status != Running ==> View() == start && !raised
        decreases Unstarted(plan, View()), more
      {
        more, raised := DriveOnce(work, start, rounds, smooth);
        rounds := if more then rounds + 1 else rounds;
      }
      if smooth {
        AlongEnds(plan, start, work, rounds, View());
      }
    }

    /** One turn of the loop: a dispatch that finds nothing leaves all as it is, and one that does not settle raised. */
    method DriveOnce(work: TaskId -> Reply, ghost start: System, ghost rounds: nat, ghost smooth: bool)
      returns (more: bool, raised: bool)
      requires Coherent() && Along(plan, start, work, rounds, smooth, View()) && state.values.status == Running
      modifies this`state, store
      ensures Coherent() && Along(plan, start, work, if more then rounds + 1 else rounds, smooth, View())
      ensures smooth ==> more && !raised
      ensures !more ==> View() == old(View()) && !raised && NextDispatch(plan, state.values, state.values.now).None?
      ensures more ==> Unstarted(plan, View()) < Unstarted(plan, old(View()))
    {
      ghost var before := View();
      if smooth {
        AlongMoves(plan, start, work, rounds, before);
      }
      var dispatched := DispatchNext(state.values.now, work, NoCrash);
      if dispatched.None? {
        return false, false;
      }
      AlongStep(plan, start, work, rounds, smooth, before, View(), dispatched.value);
      more, raised := true, dispatched.value !in state.values.completed;
    }
  }

  /** The system that a store and a replayed state make up. */
  ghost function SystemOf(store: RunStore, state: State): System
    reads store
  {
    System(state, EventsOf(store.records), store.completions, store.attempts, store.calls)
  }

  /** Start a run over an empty store: the start event is the first record. */
  method StartRun(p: Plan, store: RunStore) returns (runtime: AdaptiveRuntime)
    requires Admitted(p) && store.records == []
    modifies store`records
    ensures runtime.plan == p && runtime.store == store && runtime.Coherent()
    ensures runtime.View() == Append(p, old(SystemOf(store, Initial(p))), Event(StartId, 0, RuntimeStarted))
  {
    var state := InitialState(p);
    var e := Event(StartId, 0, RuntimeStarted);
    ghost var none := EventsOf(store.records);
    AfterNothing(p, none);
    LeaseStaysKnown(p, none);
    OpenedIsLogged(p, SystemOf(store, state), e);
    var applied := ApplyEvent(p, state, e);
    JournalStep(p, none, e);
    EventsOfSnoc(store.records, RecordOf(p, state, e));
    store.records := store.records + [Record(applied.next.revision, state, e, applied.next, applied.decision)];
    runtime := new AdaptiveRuntime.Resume(p, store, applied.next);
  }

  /**
   * `execute` for a new run: start it and drive it. With open providers and the service's own workers the
   * run completes all the work that its first reconciliation kept, in the order of the serial plan.
   */
  method ExecuteRun(p: Plan, work: TaskId -> Reply) returns (runtime: AdaptiveRuntime, raised: bool)
    requires Admitted(p)
    ensures runtime.plan == p && runtime.Coherent() && Durable(p, runtime.View())
    ensures OpenProviders(p) && FixtureWorkers(p, work) ==> !raised && Fulfilled(p, runtime.View())
  {
    var store := new RunStore();
    runtime := StartRun(p, store);
    ghost var first, fixtures := runtime.View(), OpenProviders(p) && FixtureWorkers(p, work);
    OpenedIsDurable(p);
    OpenedStarts(p, first);
    if fixtures {
      InitialIsSmooth(p, work, first.state.values);
    }
    var rounds;
    rounds, raised := runtime.Drive(work);
    if fixtures {
      InitialIsUntouched(p, first.state.values);
      SmoothRunIsFulfilled(p, first, runtime.View(), first.state.values.shed);
    }
  }

  /**
   * The constructor over a nonempty store: a history that fails replay or disagrees with the durable
   * completions is refused, and any other is resumed as it is.
   */
  method ResumeRun(p: Plan, store: RunStore) returns (runtime: AdaptiveRuntime?)
    requires Admitted(p) && store.records != []
    ensures runtime != null <==>
      Replayed(p, store.records).Passed? && Agrees(SystemOf(store, Replayed(p, store.records).state))
    ensures runtime != null ==>
      && runtime.plan == p && runtime.store == store
      && runtime.View() == SystemOf(store, Replayed(p, store.records).state)
      && (runtime.Coherent() <==> WellNumbered(EventsOf(store.records)))
  {
    var verdict := ReplayRecords(p, store.records);
    if !verdict.Passed? {
      return null;
    }
    var v := verdict.state.values;
    var durable := store.completions.Keys;
    if !(v.completed <= durable) || !(durable <= v.completed + v.Flying()) {
      return null;
    }
    ReplayIsFold(p, store.records);
    ReplayIsSound(p, store.records);
    EventsOfLength(store.records);
    runtime := new AdaptiveRuntime.Resume(p, store, verdict.state);
  }

  /**
   * A restart of a store that the runtime's own operations wrote is refused exactly when one of them
   * stranded a durable completion, and otherwise resumes in the very same system.
   */
  method Restart(p: Plan, store: RunStore, ghost ops: seq<Op>) returns (runtime: AdaptiveRuntime?)
    requires Admitted(p)
    requires var sys := Run(p, ops);
             && After(p, sys.events).Some? && store.records == Journal(p, sys.events)
             && store.completions == sys.completions && store.attempts == sys.attempts && store.calls == sys.calls
    ensures runtime != null <==> NeverStranded(p, ops)
    ensures runtime != null ==> runtime.Coherent() && runtime.View() == Run(p, ops)
  {
    ghost var sys := Run(p, ops);
    RunIsLogged(p, ops);
    RunReplays(p, ops);
    WellNumberedIsDistinct(sys.events);
    ReplayIsComplete(p, sys.events);
    RestartAgreesExactly(p, ops);
    runtime := ResumeRun(p, store);
    assert SystemOf(store, sys.state) == sys;
  }
}
