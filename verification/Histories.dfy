/** Conservation laws over whole runs: who was dispatched, what was charged, and when. */
module Histories {
  import opened Contracts
  import opened Plans
  import opened Controller
  import opened Replanning
  import opened Transitions
  import opened Runs

  /** The tasks dispatched by a run, in order. */
  ghost function Dispatched(events: seq<Event>): seq<TaskId> {
    if events == [] then [] else
    var e := events[|events| - 1];
    Dispatched(events[..|events| - 1]) + if e.body.TaskDispatched? then [e.body.task] else []
  }

  /** The summed actual usage of the settlements of a run. */
  ghost function SettledBy(events: seq<Event>): Usage {
    if events == [] then ZERO else
    var e := events[|events| - 1];
    SettledBy(events[..|events| - 1]).Add(if e.body.UsageSettled? then e.body.actual else ZERO)
  }

  ghost function Started(v: Values): set<TaskId> {
    v.completed + v.unknown + v.Flying()
  }

  lemma ReconciledKeepsLedger(p: Plan, v: Values)
    ensures var r := Reconciled(p, v); r == v.(shed := r.shed, status := r.status)
  {
  }

  /** How one event moves started work and settled usage. */
  ghost predicate Moves(v: Values, w: Values, e: Event) {
    && Started(w) == Started(v) + (if e.body.TaskDispatched? then {e.body.task} else {})
    && (e.body.TaskDispatched? ==> e.body.task !in Started(v))
    && w.settled == v.settled.Add(if e.body.UsageSettled? then e.body.actual else ZERO)
  }

  lemma LeaseMoves(p: Plan, v: Values, w: Values, e: Event)
    requires e.body.TaskDispatched? && v.inflight.None? && w == Leased(p, v, e)
    requires e.body.task !in v.completed && e.body.task !in v.unknown
    ensures Moves(v, w, e)
  {
    AddLaws(v.settled, ZERO, ZERO);
    assert Started(v) == v.completed + v.unknown;
    assert Started(w) == Started(v) + {e.body.task};
  }

  lemma SettlementMoves(v: Values, w: Values, e: Event)
    requires e.body.UsageSettled? && v.inflight.Some? && v.inflight.value.task == e.body.task && w == Finished(v, e)
    ensures Moves(v, w, e)
  {
    assert Started(w) == Started(v);
  }

  /** A charged task stays started, and nothing is settled. */
  lemma ChargeMoves(v: Values, w: Values, e: Event)
    requires !e.body.TaskDispatched? && !e.body.UsageSettled?
    requires w.completed == v.completed && w.settled == v.settled
    requires w.unknown == v.unknown + v.Flying() && w.inflight.None?
    ensures Moves(v, w, e)
  {
    AddLaws(v.settled, ZERO, ZERO);
    assert Started(w) == Started(v);
  }

  lemma ControlMoves(v: Values, w: Values, e: Event)
    requires !e.body.TaskDispatched? && !e.body.UsageSettled?
    requires w.completed == v.completed && w.settled == v.settled && w.unknown == v.unknown && w.inflight == v.inflight
    ensures Moves(v, w, e)
  {
    AddLaws(v.settled, ZERO, ZERO);
    assert Started(w) == Started(v);
  }

  lemma StageDispatches(p: Plan, s: State, e: Event)
    requires Scoped(p) && Sound(p, s.values) && e.body.TaskDispatched?
    requires Stage(p, s.revision, s.values, e).Staged?
    ensures Moves(s.values, Stage(p, s.revision, s.values, e).values, e)
  {
    DispatchStages(p, s, e);
    DispatchIsChoice(p, s.values, e.at);
    DispatchStagesWell(p, s, e);
    LeaseMoves(p, s.values, Leased(p, s.values, e), e);
  }

  lemma StageSettles(p: Plan, s: State, e: Event)
    requires e.body.UsageSettled? && Stage(p, s.revision, s.values, e).Staged?
    ensures Moves(s.values, Stage(p, s.revision, s.values, e).values, e)
  {
    SettlementStages(p, s.revision, s.values, e);
    SettlementMoves(s.values, Finished(s.values, e), e);
  }

  lemma StageCharges(p: Plan, s: State, e: Event)
    requires e.body.UnknownInflight? || e.body.Cancellation?
    requires Stage(p, s.revision, s.values, e).Staged?
    ensures Moves(s.values, Stage(p, s.revision, s.values, e).values, e)
  {
    ChargeStages(p, s.revision, s.values, e);
    ChargeMoves(s.values, Stage(p, s.revision, s.values, e).values, e);
  }

  lemma StageControls(p: Plan, s: State, e: Event)
    requires !e.body.TaskDispatched? && !e.body.UsageSettled? && !e.body.UnknownInflight? && !e.body.Cancellation?
    requires Stage(p, s.revision, s.values, e).Staged?
    ensures Moves(s.values, Stage(p, s.revision, s.values, e).values, e)
  {
    ControlStages(p, s.revision, s.values, e);
    ControlMoves(s.values, Stage(p, s.revision, s.values, e).values, e);
  }

  /** How one accepted event moves started work and settled usage. */
  lemma StageMoves(p: Plan, s: State, e: Event, w: Values)
    requires Scoped(p) && Sound(p, s.values)
    requires Stage(p, s.revision, s.values, e).Staged? && w == Stage(p, s.revision, s.values, e).values
    ensures Moves(s.values, w, e)
  {
    if e.body.TaskDispatched? {
      StageDispatches(p, s, e);
    } else if e.body.UsageSettled? {
      StageSettles(p, s, e);
    } else if e.body.UnknownInflight? || e.body.Cancellation? {
      StageCharges(p, s, e);
    } else {
      StageControls(p, s, e);
    }
  }

  lemma DistinctAppend(s: seq<TaskId>, t: TaskId)
    requires Distinct(s) && t !in s
    ensures Distinct(s + [t])
    ensures Elements(s + [t]) == Elements(s) + {t}
  {
  }

  /**
   * Conservation: each task is dispatched at most once; the dispatched tasks are exactly the
   * completed, unknown and in-flight ones; settled usage is the sum of the settled actuals and
   * unknown usage the sum of the full reservations of unknown tasks.
   */
  lemma {:induction false} Conservation(p: Plan, events: seq<Event>)
    requires Admitted(p) && After(p, events).Some?
    ensures var v := After(p, events).value.values;
            && Distinct(Dispatched(events))
            && Elements(Dispatched(events)) == v.completed + v.unknown + v.Flying()
            && v.completed !! v.unknown !! v.Flying()
            && v.settled == SettledBy(events)
            && v.unknownUsage == p.Total(v.unknown)
    decreases |events|
  {
    ReachableIsSound(p, events);
    LedgerIsKept(p, events, After(p, events).value);
  }

  /** Single dispatch and the sums, for the values `v` after `events`. */
  ghost predicate Conserved(events: seq<Event>, v: Values) {
    Distinct(Dispatched(events)) && Elements(Dispatched(events)) == Started(v) && v.settled == SettledBy(events)
  }

  lemma {:induction false} LedgerIsKept(p: Plan, events: seq<Event>, s: State)
    requires Admitted(p) && After(p, events) == Some(s)
    ensures Conserved(events, s.values)
    decreases |events|
  {
    if events == [] {
      NothingStarted(p, s.values);
    } else {
      var front := events[..|events| - 1];
      FrontRuns(p, events);
      LedgerIsKept(p, front, After(p, front).value);
      ConservationNext(p, events, front, s);
    }
  }

  lemma FrontRuns(p: Plan, events: seq<Event>)
    requires events != [] && After(p, events).Some?
    ensures After(p, events[..|events| - 1]).Some?
  {
  }

  lemma ConservationNext(p: Plan, events: seq<Event>, front: seq<Event>, s: State)
    requires Admitted(p) && After(p, events) == Some(s) && events != [] && front == events[..|events| - 1]
    requires After(p, front).Some? && Conserved(front, After(p, front).value.values)
    ensures Conserved(events, s.values)
  {
    AfterFront(p, events);
    SplitLast(events);
    ReachableIsSound(p, front);
    AdmittedIsScoped(p);
    ConservationStep(p, front, After(p, front).value, events[|events| - 1], s.values);
  }

  lemma NothingStarted(p: Plan, v: Values)
    requires v == Reconciled(p, InitialValues(p))
    ensures Conserved([], v)
  {
    ReconciledKeepsLedger(p, InitialValues(p));
  }

  /** One event more: the histories grow as the values do. */
  lemma LedgerStep(front: seq<Event>, e: Event, v: Values, r: Values)
    requires Conserved(front, v) && Moves(v, r, e)
    ensures Conserved(front + [e], r)
  {
    AppendDispatch(front, e);
    if e.body.TaskDispatched? {
      DistinctAppend(Dispatched(front), e.body.task);
    }
  }

  lemma StartedIsKept(v: Values, r: Values)
    requires r == v.(shed := r.shed, status := r.status)
    ensures Started(r) == Started(v)
  {
  }

  lemma ConservationStep(p: Plan, front: seq<Event>, s: State, e: Event, r: Values)
    requires Scoped(p) && Sound(p, s.values) && Stage(p, s.revision, s.values, e).Staged?
    requires Conserved(front, s.values) && r == Reconciled(p, Stage(p, s.revision, s.values, e).values)
    ensures Conserved(front + [e], r)
  {
    var w := Stage(p, s.revision, s.values, e).values;
    StageMoves(p, s, e, w);
    ReconciledKeepsLedger(p, w);
    StartedIsKept(w, r);
    LedgerStep(front, e, s.values, r);
  }

  lemma AppendDispatch(front: seq<Event>, e: Event)
    ensures Dispatched(front + [e]) ==
            if e.body.TaskDispatched? then Dispatched(front) + [e.body.task] else Dispatched(front)
    ensures SettledBy(front + [e]) == SettledBy(front).Add(if e.body.UsageSettled? then e.body.actual else ZERO)
  {
    assert (front + [e])[..|front|] == front;
  }

  /** Total commitment never exceeds the original envelope, in terminal states included. */
  lemma NeverOvercommitted(p: Plan, events: seq<Event>)
    requires Admitted(p) && After(p, events).Some?
    ensures var v := After(p, events).value.values;
            && v.settled.Add(v.unknownUsage).Add(if v.inflight.Some? then v.inflight.value.reservation else ZERO)
                 .Fits(p.envelope.caps)
            && v.settled.Fits(p.Total(v.completed))
            && (v.status == Running ==> v.Committed().Add(p.Total(Remaining(p, v))).Fits(v.caps))
  {
    ReachableIsSound(p, events);
  }

  /** Protected work is never shed; unknown work of a live or completed run is optional and shed. */
  lemma ProtectionHolds(p: Plan, events: seq<Event>)
    requires Admitted(p) && After(p, events).Some?
    ensures var v := After(p, events).value.values;
            && p.guarded !! v.shed
            && v.completed !! v.shed
            && (v.status == Completed ==> p.guarded <= v.completed && p.byId.Keys == v.completed + v.shed)
            && (v.status == Running || v.status == Completed ==> v.unknown <= v.shed)
  {
    ReachableIsSound(p, events);
    var v := After(p, events).value.values;
    if v.status == Completed {
      forall t | t in p.byId.Keys
        ensures t in v.completed + v.shed
      {
        assert t !in Remaining(p, v);
      }
      AdmittedIsScoped(p);
    }
  }

  // ---------------------------------------------------------------- provider windows

  /** Each past 429 is over, or its provider still carries a reset at least as late. */
  ghost predicate Waited(v: Values, events: seq<Event>) {
    forall i :: 0 <= i < |events| && events[i].body.Provider429? ==>
      var provider, resetAt := events[i].body.provider, events[i].body.resetAt;
      resetAt <= v.now || (provider in v.resets && resetAt <= v.resets[provider])
  }

  /** A reset window leaves the state only at or after its end. */
  lemma StageKeepsResets(p: Plan, revision: nat, v: Values, e: Event)
    requires Stage(p, revision, v, e).Staged?
    ensures var w := Stage(p, revision, v, e).values;
            && v.now <= w.now == e.at
            && (forall provider :: provider in v.resets ==>
              v.resets[provider] <= w.now || (provider in w.resets && v.resets[provider] <= w.resets[provider]))
            && (e.body.Provider429? ==> e.body.provider in w.resets && e.body.resetAt <= w.resets[e.body.provider])
  {
    StageAdvances(p, revision, v, e);
    ProvidersFollow(p, revision, v, e, Stage(p, revision, v, e).values);
  }

  lemma StageAdvances(p: Plan, revision: nat, v: Values, e: Event)
    requires Stage(p, revision, v, e).Staged?
    ensures v.now <= Stage(p, revision, v, e).values.now == e.at
  {
  }

  /** Only a 429 and a reset touch the reset windows, and only a capacity report the capacities. */
  lemma ProviderStages(p: Plan, revision: nat, v: Values, e: Event, w: Values)
    requires Stage(p, revision, v, e).Staged? && w == Stage(p, revision, v, e).values
    requires !e.body.TaskDispatched? && !e.body.UsageSettled? && !e.body.UnknownInflight? && !e.body.Cancellation?
    ensures ResetsFollow(v.resets, w.resets, e)
    ensures CapacitiesFollow(v.capacities, w.capacities, e)
  {
  }

  lemma WorkStages(p: Plan, revision: nat, v: Values, e: Event, w: Values)
    requires Stage(p, revision, v, e).Staged? && w == Stage(p, revision, v, e).values
    requires e.body.TaskDispatched? || e.body.UsageSettled? || e.body.UnknownInflight? || e.body.Cancellation?
    ensures w.resets == v.resets && w.capacities == v.capacities
  {
  }

  ghost predicate ResetsFollow(before: map<string, nat>, after: map<string, nat>, e: Event) {
    match e.body
    case Provider429(provider, resetAt) =>
      && provider in after && resetAt <= after[provider]
      && (provider in before ==> before[provider] <= after[provider])
      && (after[provider] == resetAt || (provider in before && after[provider] == before[provider]))
      && after == before[provider := after[provider]]
    case ProviderReset(provider) =>
      after == before - {provider} && (provider in before ==> before[provider] <= e.at)
    case _ => after == before
  }

  ghost predicate CapacitiesFollow(before: map<string, nat>, after: map<string, nat>, e: Event) {
    after == if e.body.ProviderCapacity? then before[e.body.provider := e.body.capacity] else before
  }

  lemma ProvidersFollow(p: Plan, revision: nat, v: Values, e: Event, w: Values)
    requires Stage(p, revision, v, e).Staged? && w == Stage(p, revision, v, e).values
    ensures ResetsFollow(v.resets, w.resets, e) && CapacitiesFollow(v.capacities, w.capacities, e)
  {
    if e.body.TaskDispatched? || e.body.UsageSettled? || e.body.UnknownInflight? || e.body.Cancellation? {
      WorkStages(p, revision, v, e, w);
    } else {
      ProviderStages(p, revision, v, e, w);
    }
  }

  lemma WaitedStep(v: Values, w: Values, front: seq<Event>, e: Event)
    requires Waited(v, front)
    requires v.now <= w.now
    requires forall provider :: provider in v.resets ==>
      v.resets[provider] <= w.now || (provider in w.resets && v.resets[provider] <= w.resets[provider])
    requires e.body.Provider429? ==> e.body.provider in w.resets && e.body.resetAt <= w.resets[e.body.provider]
    ensures Waited(w, front + [e])
  {
    var events := front + [e];
    forall i | 0 <= i < |events| && events[i].body.Provider429?
      ensures var provider, resetAt := events[i].body.provider, events[i].body.resetAt;
              resetAt <= w.now || (provider in w.resets && resetAt <= w.resets[provider])
    {
      if i < |front| {
        assert events[i] == front[i];
      }
    }
  }

  lemma {:induction false} WindowsAreKept(p: Plan, events: seq<Event>)
    requires After(p, events).Some?
    ensures Waited(After(p, events).value.values, events)
    decreases |events|
  {
    if events != [] {
      var front, e := events[..|events| - 1], events[|events| - 1];
      assert front + [e] == events;
      AfterFront(p, events);
      WindowsAreKept(p, front);
      WindowStep(p, front, After(p, front).value, e, After(p, events).value.values);
    }
  }

  lemma WindowStep(p: Plan, front: seq<Event>, s: State, e: Event, r: Values)
    requires Stage(p, s.revision, s.values, e).Staged? && Waited(s.values, front)
    requires r == Reconciled(p, Stage(p, s.revision, s.values, e).values)
    ensures Waited(r, front + [e])
  {
    StageKeepsResets(p, s.revision, s.values, e);
    ReconciledKeepsLedger(p, Stage(p, s.revision, s.values, e).values);
    WaitedStep(s.values, r, front, e);
  }

  /** No dispatch to a provider precedes the reset time of any earlier 429 of that provider. */
  lemma DispatchHonoursWindows(p: Plan, events: seq<Event>, i: nat, j: nat)
    requires After(p, events).Some?
    requires i < j < |events|
    requires events[i].body.Provider429? && events[j].body.TaskDispatched?
    requires events[i].body.provider == events[j].body.provider
    ensures events[i].body.resetAt <= events[j].at
  {
    AfterAt(p, events, j);
    WindowsAreKept(p, events[..j]);
    WindowBinds(p, events[..j], After(p, events[..j]).value, events[j], i);
  }

  lemma AfterAt(p: Plan, events: seq<Event>, j: nat)
    requires After(p, events).Some? && j < |events|
    ensures After(p, events[..j]).Some?
    ensures var s := After(p, events[..j]).value; Stage(p, s.revision, s.values, events[j]).Staged?
  {
    AfterPrefix(p, events, j + 1);
    AfterFront(p, events[..j + 1]);
    assert events[..j + 1][..j] == events[..j];
  }

  lemma WindowBinds(p: Plan, front: seq<Event>, s: State, e: Event, i: nat)
    requires e.body.TaskDispatched? && Stage(p, s.revision, s.values, e).Staged? && Waited(s.values, front)
    requires i < |front| && front[i].body.Provider429? && front[i].body.provider == e.body.provider
    ensures front[i].body.resetAt <= e.at
  {
    DispatchStages(p, s, e);
    DispatchIsChoice(p, s.values, e.at);
    DispatchNamesProvider(p, s, e);
  }

  lemma DispatchNamesProvider(p: Plan, s: State, e: Event)
    requires e.body.TaskDispatched? && Stage(p, s.revision, s.values, e).Staged?
    ensures e.body.task in p.admitted && e.body.provider == p.admitted[e.body.task].provider
  {
  }

  // ---------------------------------------------------------------- provider capacities

  /** The capacity last reported for a provider. */
  ghost function Reported(events: seq<Event>, provider: string): Option<nat> {
    if events == [] then None else
    var e := events[|events| - 1];
    if e.body.ProviderCapacity? && e.body.provider == provider then Some(e.body.capacity)
    else Reported(events[..|events| - 1], provider)
  }

  ghost predicate Tracks(v: Values, provider: string, reported: Option<nat>) {
    if provider in v.capacities then reported == Some(v.capacities[provider]) else reported == None
  }

  lemma StageTracks(p: Plan, revision: nat, v: Values, e: Event, provider: string, reported: Option<nat>)
    requires Stage(p, revision, v, e).Staged? && Tracks(v, provider, reported)
    ensures Tracks(Stage(p, revision, v, e).values, provider,
      if e.body.ProviderCapacity? && e.body.provider == provider then Some(e.body.capacity) else reported)
  {
    ProvidersFollow(p, revision, v, e, Stage(p, revision, v, e).values);
  }

  lemma {:induction false} CapacityIsLastReported(p: Plan, events: seq<Event>, provider: string)
    requires After(p, events).Some?
    ensures Tracks(After(p, events).value.values, provider, Reported(events, provider))
    decreases |events|
  {
    if events == [] {
      ReconciledKeepsLedger(p, InitialValues(p));
    } else {
      var front, e := events[..|events| - 1], events[|events| - 1];
      AfterFront(p, events);
      CapacityIsLastReported(p, front, provider);
      var s := After(p, front).value;
      StageTracks(p, s.revision, s.values, e, provider, Reported(front, provider));
      ReconciledKeepsLedger(p, Stage(p, s.revision, s.values, e).values);
    }
  }

  /** No dispatch goes to a provider whose last reported capacity, or declared limit without one, is zero. */
  lemma DispatchHonoursCapacity(p: Plan, events: seq<Event>, j: nat)
    requires After(p, events).Some? && j < |events| && events[j].body.TaskDispatched?
    ensures var provider := events[j].body.provider;
      0 < match Reported(events[..j], provider)
          case Some(capacity) => capacity
          case None => p.envelope.ProviderLimit(provider)
  {
    AfterAt(p, events, j);
    CapacityIsLastReported(p, events[..j], events[j].body.provider);
    CapacityBinds(p, After(p, events[..j]).value, events[j], Reported(events[..j], events[j].body.provider));
  }

  lemma CapacityBinds(p: Plan, s: State, e: Event, reported: Option<nat>)
    requires e.body.TaskDispatched? && Stage(p, s.revision, s.values, e).Staged?
    requires Tracks(s.values, e.body.provider, reported)
    ensures 0 < match reported case Some(capacity) => capacity case None => p.envelope.ProviderLimit(e.body.provider)
  {
    DispatchStages(p, s, e);
    DispatchIsChoice(p, s.values, e.at);
    DispatchNamesProvider(p, s, e);
  }
}
