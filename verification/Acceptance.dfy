/** What a history of events says of its state, and which event it accepts next. */
module Acceptance {
  import opened Contracts
  import opened Plans
  import opened Controller
  import opened Replanning
  import opened Transitions
  import opened Choosing
  import opened Runs
  import opened Histories

  // ---------------------------------------------------------------- reading a history

  ghost function Clock(events: seq<Event>): nat {
    if events == [] then 0 else events[|events| - 1].at
  }

  /** The caps of the last cut. */
  ghost function CapsAfter(p: Plan, events: seq<Event>): Usage {
    if events == [] then p.envelope.caps else
    var last := events[|events| - 1].body;
    if last.BudgetCut? then last.caps else CapsAfter(p, events[..|events| - 1])
  }

  /** The dispatch that nothing has ended yet. */
  ghost function Flight(events: seq<Event>): Option<Event> {
    if events == [] then None else
    var last := events[|events| - 1];
    if last.body.TaskDispatched? then Some(last)
    else if Ends(last) then None
    else Flight(events[..|events| - 1])
  }

  predicate Ends(e: Event) {
    e.body.UsageSettled? || e.body.UnknownInflight? || e.body.Cancellation?
  }

  ghost function SettledTasks(events: seq<Event>): set<TaskId> {
    set i | 0 <= i < |events| && events[i].body.UsageSettled? :: events[i].body.task
  }

  /** A 429 of the provider since its last reset. */
  ghost predicate Standing(events: seq<Event>, i: nat, provider: string) {
    && i < |events| && events[i].body.Provider429? && events[i].body.provider == provider
    && forall j :: i < j < |events| ==> events[j].body != ProviderReset(provider)
  }

  lemma StandingSnoc(front: seq<Event>, e: Event, i: nat, provider: string)
    ensures Standing(front + [e], i, provider) <==>
      if i == |front| then e.body.Provider429? && e.body.provider == provider
      else Standing(front, i, provider) && e.body != ProviderReset(provider)
    ensures i < |front| ==> (front + [e])[i] == front[i]
  {
    var events := front + [e];
    assert forall j :: 0 <= j < |front| ==> events[j] == front[j];
    assert events[|front|] == e;
    if i < |front| && Standing(events, i, provider) {
      assert events[|front|].body != ProviderReset(provider);
      forall j | i < j < |front|
        ensures front[j].body != ProviderReset(provider)
      {
        assert events[j] == front[j];
      }
    }
  }

  // ---------------------------------------------------------------- reset windows

  /** The stored window is the latest reset time of the standing 429s, and there is none without one. */
  ghost predicate WindowTells(resets: map<string, nat>, events: seq<Event>, provider: string) {
    if provider in resets then
      && (exists i: nat :: Standing(events, i, provider) && events[i].body.resetAt == resets[provider])
      && (forall i: nat :: Standing(events, i, provider) ==> events[i].body.resetAt <= resets[provider])
    else forall i: nat :: !Standing(events, i, provider)
  }

  lemma WindowFollows(before: map<string, nat>, after: map<string, nat>, front: seq<Event>, e: Event, provider: string)
    requires WindowTells(before, front, provider) && ResetsFollow(before, after, e)
    ensures WindowTells(after, front + [e], provider)
  {
    var events := front + [e];
    forall i: nat
      ensures Standing(events, i, provider) <==>
        if i == |front| then e.body.Provider429? && e.body.provider == provider
        else Standing(front, i, provider) && e.body != ProviderReset(provider)
      ensures i < |front| ==> events[i] == front[i]
    {
      StandingSnoc(front, e, i, provider);
    }
    if e.body.Provider429? && e.body.provider == provider {
      NewestWindow(before, after, front, e, provider);
    } else if e.body != ProviderReset(provider) && provider in after {
      var i: nat :| Standing(front, i, provider) && front[i].body.resetAt == before[provider];
      assert Standing(events, i, provider);
    }
  }

  lemma NewestWindow(before: map<string, nat>, after: map<string, nat>, front: seq<Event>, e: Event, provider: string)
    requires WindowTells(before, front, provider) && ResetsFollow(before, after, e)
    requires e.body.Provider429? && e.body.provider == provider
    ensures exists i: nat :: Standing(front + [e], i, provider) && (front + [e])[i].body.resetAt == after[provider]
  {
    var events := front + [e];
    if after[provider] == e.body.resetAt {
      StandingSnoc(front, e, |front|, provider);
      assert Standing(events, |front|, provider) && events[|front|] == e;
    } else {
      var i: nat :| Standing(front, i, provider) && front[i].body.resetAt == before[provider];
      StandingSnoc(front, e, i, provider);
    }
  }

  // ---------------------------------------------------------------- what a state remembers

  /** The lease of the dispatch in flight. */
  ghost predicate LeaseTells(inflight: Option<Inflight>, events: seq<Event>) {
    match Flight(events)
    case None => inflight.None?
    case Some(d) =>
      && d.body.TaskDispatched?
      && inflight == Some(Inflight(d.body.task, 1, d.body.provider, d.body.backend, d.body.reservation, d))
  }

  ghost predicate KnownWindows(p: Plan, resets: map<string, nat>) {
    forall provider :: provider in resets ==> KnownProvider(p, provider)
  }

  /** Clock, caps, windows, lease and finished work are those of the history. */
  ghost predicate Remembers(p: Plan, v: Values, events: seq<Event>) {
    && v.now == Clock(events) && v.caps == CapsAfter(p, events) && v.completed == SettledTasks(events)
    && LeaseTells(v.inflight, events) && KnownWindows(p, v.resets)
    && forall provider :: WindowTells(v.resets, events, provider)
  }

  /** What one accepted event changes of that. */
  ghost predicate Advances(v: Values, w: Values, e: Event) {
    && w.now == e.at
    && w.caps == (if e.body.BudgetCut? then e.body.caps else v.caps)
    && w.completed == (if e.body.UsageSettled? then v.completed + {e.body.task} else v.completed)
    && w.inflight == if e.body.TaskDispatched? then
         Some(Inflight(e.body.task, 1, e.body.provider, e.body.backend, e.body.reservation, e))
       else if Ends(e) then None else v.inflight
  }

  lemma DispatchAdvances(p: Plan, revision: nat, v: Values, e: Event, w: Values)
    requires Stage(p, revision, v, e).Staged? && w == Stage(p, revision, v, e).values
    requires e.body.TaskDispatched?
    ensures Advances(v, w, e)
  {
    DispatchStages(p, State(revision, None, v), e);
  }

  lemma EndAdvances(p: Plan, revision: nat, v: Values, e: Event, w: Values)
    requires Stage(p, revision, v, e).Staged? && w == Stage(p, revision, v, e).values
    requires Ends(e)
    ensures Advances(v, w, e)
  {
    if e.body.UsageSettled? {
      SettlementStages(p, revision, v, e);
    } else {
      ChargeStages(p, revision, v, e);
    }
  }

  lemma ControlAdvances(p: Plan, revision: nat, v: Values, e: Event, w: Values)
    requires Stage(p, revision, v, e).Staged? && w == Stage(p, revision, v, e).values
    requires !e.body.TaskDispatched? && !Ends(e)
    ensures Advances(v, w, e)
    ensures e.body.Provider429? ==> KnownProvider(p, e.body.provider)
  {
  }

  lemma StageAdvancesBy(p: Plan, revision: nat, v: Values, e: Event, w: Values)
    requires Stage(p, revision, v, e).Staged? && w == Stage(p, revision, v, e).values
    ensures Advances(v, w, e)
    ensures e.body.Provider429? ==> KnownProvider(p, e.body.provider)
  {
    if e.body.TaskDispatched? {
      DispatchAdvances(p, revision, v, e, w);
    } else if Ends(e) {
      EndAdvances(p, revision, v, e, w);
    } else {
      ControlAdvances(p, revision, v, e, w);
    }
  }

  lemma WindowsFollow(p: Plan, v: Values, w: Values, front: seq<Event>, e: Event)
    requires forall provider :: WindowTells(v.resets, front, provider)
    requires ResetsFollow(v.resets, w.resets, e)
    ensures forall provider :: WindowTells(w.resets, front + [e], provider)
  {
    forall provider
      ensures WindowTells(w.resets, front + [e], provider)
    {
      WindowFollows(v.resets, w.resets, front, e, provider);
    }
  }

  lemma SettledSnoc(front: seq<Event>, e: Event)
    ensures SettledTasks(front + [e]) ==
            SettledTasks(front) + if e.body.UsageSettled? then {e.body.task} else {}
  {
    var events := front + [e];
    assert events[|front|] == e && forall i :: 0 <= i < |front| ==> events[i] == front[i];
    forall t
      ensures t in SettledTasks(events) <==>
        t in SettledTasks(front) || (e.body.UsageSettled? && t == e.body.task)
    {
      if t in SettledTasks(front) {
        var i :| 0 <= i < |front| && front[i].body.UsageSettled? && front[i].body.task == t;
        assert events[i].body.task == t;
      }
    }
  }

  lemma ReadSnoc(p: Plan, front: seq<Event>, e: Event)
    ensures Clock(front + [e]) == e.at
    ensures CapsAfter(p, front + [e]) == if e.body.BudgetCut? then e.body.caps else CapsAfter(p, front)
    ensures Flight(front + [e]) ==
            if e.body.TaskDispatched? then Some(e) else if Ends(e) then None else Flight(front)
  {
    assert (front + [e])[..|front|] == front;
  }

  lemma RemembersStep(p: Plan, front: seq<Event>, s: State, e: Event, r: Values)
    requires Remembers(p, s.values, front) && Stage(p, s.revision, s.values, e).Staged?
    requires r == Reconciled(p, Stage(p, s.revision, s.values, e).values)
    ensures Remembers(p, r, front + [e])
  {
    var w := Stage(p, s.revision, s.values, e).values;
    StageAdvancesBy(p, s.revision, s.values, e, w);
    ProvidersFollow(p, s.revision, s.values, e, w);
    ReconciledKeepsLedger(p, w);
    RemembersAfter(p, front, s.values, w, e);
    RemembersTheSame(p, front + [e], w, r);
  }

  lemma RemembersAfter(p: Plan, front: seq<Event>, v: Values, w: Values, e: Event)
    requires Remembers(p, v, front) && Advances(v, w, e) && ResetsFollow(v.resets, w.resets, e)
    requires e.body.Provider429? ==> KnownProvider(p, e.body.provider)
    ensures Remembers(p, w, front + [e])
  {
    ReadSnoc(p, front, e);
    SettledSnoc(front, e);
    WindowsFollow(p, v, w, front, e);
  }

  lemma RemembersTheSame(p: Plan, events: seq<Event>, w: Values, r: Values)
    requires Remembers(p, w, events) && r == w.(shed := r.shed, status := r.status)
    ensures Remembers(p, r, events)
  {
  }

  lemma RemembersNothing(p: Plan, v: Values)
    requires v == Reconciled(p, InitialValues(p))
    ensures Remembers(p, v, [])
  {
    ReconciledKeepsLedger(p, InitialValues(p));
  }

  /** After any accepted history: the clock, the caps, every reset window, the lease and the finished tasks. */
  lemma {:induction false} StateTellsHistory(p: Plan, events: seq<Event>, s: State)
    requires After(p, events) == Some(s)
    ensures Remembers(p, s.values, events)
    decreases |events|
  {
    if events == [] {
      RemembersNothing(p, s.values);
    } else {
      var front := events[..|events| - 1];
      FrontRuns(p, events);
      StateTellsHistory(p, front, After(p, front).value);
      RemembersNext(p, events, front, s);
    }
  }

  lemma RemembersNext(p: Plan, events: seq<Event>, front: seq<Event>, s: State)
    requires After(p, events) == Some(s) && events != [] && front == events[..|events| - 1]
    requires After(p, front).Some? && Remembers(p, After(p, front).value.values, front)
    ensures Remembers(p, s.values, events)
  {
    AfterFront(p, events);
    SplitLast(events);
    RemembersStep(p, front, After(p, front).value, events[|events| - 1], s.values);
  }

  // ---------------------------------------------------------------- the next event

  /** What must be true of an event of a running state, in terms of the history. */
  ghost predicate Fits(p: Plan, events: seq<Event>, v: Values, e: Event) {
    match e.body
    case RuntimeStarted => false
    case Provider429(provider, resetAt) => KnownProvider(p, provider) && e.at < resetAt
    case ProviderReset(provider) =>
      && (exists i: nat :: Standing(events, i, provider))
      && (forall i: nat :: Standing(events, i, provider) ==> events[i].body.resetAt <= e.at)
    case ProviderCapacity(provider, _) => KnownProvider(p, provider)
    case BudgetCut(caps) => caps.Fits(CapsAfter(p, events))
    case TaskDispatched(t, _, _, _, _) => FirstDispatchable(p, v, e.at, t) && e.body == DispatchBody(p, t)
    case UsageSettled(t, attempt, actual, _) =>
      Flight(events).Some? && Flight(events).value.body.TaskDispatched?
      && t == Flight(events).value.body.task && attempt == 1 && actual.Fits(p.Need(t))
    case UnknownInflight(t, attempt, reservation) =>
      Flight(events).Some? && Flight(events).value.body.TaskDispatched?
      && t == Flight(events).value.body.task && attempt == 1 && reservation == p.Need(t)
    case Cancellation(_) => true
  }

  /** A start opens an empty history at zero; any other event needs a running state and may not be earlier. */
  ghost predicate Acceptable(p: Plan, events: seq<Event>, v: Values, e: Event) {
    if e.body.RuntimeStarted? then events == [] && e.at == 0
    else v.status == Running && Clock(events) <= e.at && Fits(p, events, v, e)
  }

  lemma WindowAllows(resets: map<string, nat>, events: seq<Event>, provider: string, at: nat)
    requires WindowTells(resets, events, provider)
    ensures provider in resets && resets[provider] <= at <==>
      && (exists i: nat :: Standing(events, i, provider))
      && (forall i: nat :: Standing(events, i, provider) ==> events[i].body.resetAt <= at)
  {
  }

  lemma ResetAccepted(p: Plan, revision: nat, events: seq<Event>, v: Values, e: Event)
    requires Remembers(p, v, events) && v.status == Running && Clock(events) <= e.at && e.body.ProviderReset?
    ensures Stage(p, revision, v, e).Staged? <==> Fits(p, events, v, e)
  {
    WindowAllows(v.resets, events, e.body.provider, e.at);
  }

  lemma DispatchAccepted(p: Plan, revision: nat, events: seq<Event>, v: Values, e: Event)
    requires v.status == Running && v.now <= e.at && e.body.TaskDispatched?
    ensures Stage(p, revision, v, e).Staged? <==> Fits(p, events, v, e)
  {
    NextDispatchExactly(p, v, e.at, e.body.task);
  }

  lemma EndAccepted(p: Plan, revision: nat, events: seq<Event>, v: Values, e: Event)
    requires LeaseTells(v.inflight, events) && v.status == Running && v.now <= e.at && Ends(e)
    requires v.inflight.Some? ==> v.inflight.value.reservation == p.Need(v.inflight.value.task)
    ensures Stage(p, revision, v, e).Staged? <==> Fits(p, events, v, e)
  {
  }

  lemma ControlAccepted(p: Plan, revision: nat, events: seq<Event>, v: Values, e: Event)
    requires v.caps == CapsAfter(p, events) && v.status == Running && v.now <= e.at
    requires e.body.Provider429? || e.body.ProviderCapacity? || e.body.BudgetCut?
    ensures Stage(p, revision, v, e).Staged? <==> Fits(p, events, v, e)
  {
  }

  lemma RunningAccepts(p: Plan, revision: nat, events: seq<Event>, v: Values, e: Event)
    requires Remembers(p, v, events) && Accounted(p, v) && v.status == Running && Clock(events) <= e.at
    requires !e.body.RuntimeStarted?
    ensures Stage(p, revision, v, e).Staged? <==> Fits(p, events, v, e)
  {
    if e.body.TaskDispatched? {
      DispatchAccepted(p, revision, events, v, e);
    } else if Ends(e) {
      EndAccepted(p, revision, events, v, e);
    } else if e.body.ProviderReset? {
      ResetAccepted(p, revision, events, v, e);
    } else {
      ControlAccepted(p, revision, events, v, e);
    }
  }

  lemma StageIsAcceptance(p: Plan, events: seq<Event>, s: State, e: Event)
    requires Remembers(p, s.values, events) && Accounted(p, s.values) && s.revision == |events|
    ensures Stage(p, s.revision, s.values, e).Staged? <==> Acceptable(p, events, s.values, e)
  {
    if s.values.status == Running && Clock(events) <= e.at && !e.body.RuntimeStarted? {
      RunningAccepts(p, s.revision, events, s.values, e);
    } else {
      RefusedAtOnce(p, events, s, e);
    }
  }

  lemma RefusedAtOnce(p: Plan, events: seq<Event>, s: State, e: Event)
    requires s.values.now == Clock(events) && s.revision == |events|
    requires s.values.status != Running || e.at < Clock(events) || e.body.RuntimeStarted?
    ensures Stage(p, s.revision, s.values, e).Staged? <==> Acceptable(p, events, s.values, e)
  {
  }

  /** After any accepted history an event is accepted exactly when it fits that history. */
  lemma AcceptedExactly(p: Plan, events: seq<Event>, s: State, e: Event)
    requires Admitted(p) && After(p, events) == Some(s)
    ensures After(p, events + [e]).Some? <==> Acceptable(p, events, s.values, e)
  {
    StateTellsHistory(p, events, s);
    ReachableIsSound(p, events);
    StageIsAcceptance(p, events, s, e);
    SnocIsStaged(p, events, s, e);
  }

  lemma SnocIsStaged(p: Plan, events: seq<Event>, s: State, e: Event)
    requires After(p, events) == Some(s)
    ensures After(p, events + [e]).Some? <==> Stage(p, s.revision, s.values, e).Staged?
  {
    assert (events + [e])[..|events|] == events;
  }

  // ---------------------------------------------------------------- how the run goes on

  /** Nothing can save the protected work any more. */
  ghost predicate Hopeless(p: Plan, v: Values) {
    Lost(p, v) || !ProtectedOnTime(p, v) || !ProtectedFits(p, v, v.caps)
  }

  lemma SameBurden(p: Plan, v: Values, w: Values)
    requires w == v.(status := w.status)
    ensures w.Busy() == v.Busy() && PendingGuarded(p, w) == PendingGuarded(p, v) && Start(p, w) == Start(p, v)
    ensures ProtectedFits(p, w, w.caps) <==> ProtectedFits(p, v, v.caps)
  {
    assert w.Committed() == v.Committed();
  }

  lemma LostIgnoresStatus(p: Plan, v: Values, w: Values)
    requires w == v.(status := w.status)
    ensures Lost(p, w) <==> Lost(p, v)
  {
  }

  lemma SettledIgnoresStatus(p: Plan, v: Values, w: Values, shed: set<TaskId>)
    requires w == v.(status := w.status)
    ensures Settled(p, w, shed) <==> Settled(p, v, shed)
  {
  }

  lemma HopelessIgnoresStatus(p: Plan, v: Values, w: Values)
    requires w == v.(status := w.status)
    ensures Hopeless(p, w) <==> Hopeless(p, v)
  {
    SameBurden(p, v, w);
    LostIgnoresStatus(p, v, w);
    SameSchedule(p, v, w);
  }

  lemma SameSchedule(p: Plan, v: Values, w: Values)
    requires w.Busy() == v.Busy() && PendingGuarded(p, w) == PendingGuarded(p, v) && Start(p, w) == Start(p, v)
    ensures ProtectedOnTime(p, w) <==> ProtectedOnTime(p, v)
  {
  }

  /** What an event charges as unknown and sheds by itself. */
  ghost function Dropped(p: Plan, v: Values, e: Event): set<TaskId> {
    if e.body.UnknownInflight? || e.body.Cancellation? then v.Flying() - p.guarded else {}
  }

  /** The values that reconciliation starts from: those of the next state, before it sheds anything. */
  ghost function Carried(p: Plan, v: Values, e: Event, next: Values): Values {
    next.(shed := v.shed + Dropped(p, v, e), status := Running)
  }

  lemma StageCarries(p: Plan, revision: nat, v: Values, e: Event, w: Values)
    requires Stage(p, revision, v, e).Staged? && w == Stage(p, revision, v, e).values && v.status == Running
    ensures w.shed == v.shed + Dropped(p, v, e)
    ensures w.status == if e.body.Cancellation? then Cancelled
                        else if e.body.UnknownInflight? && e.body.task in p.guarded then Refused else Running
    ensures e.body.UnknownInflight? ==> v.inflight.Some? && v.inflight.value.task == e.body.task
    ensures e.body.UnknownInflight? ==> w.completed == v.completed
  {
    if e.body.UnknownInflight? || e.body.Cancellation? {
      ChargeStages(p, revision, v, e);
    }
  }

  /**
   * After an accepted event of a running state: a cancellation cancels, losing protected work refuses, and
   * otherwise the run refuses exactly when it is hopeless and completes exactly when nothing is left to do.
   */
  lemma StatusAfterExactly(p: Plan, s: State, e: Event, next: Values)
    requires Admitted(p) && Sound(p, s.values) && s.values.status == Running
    requires Apply(p, s, e).Applied? && next == Apply(p, s, e).next.values
    ensures next.status == Cancelled <==> e.body.Cancellation?
    ensures e.body.Cancellation? ==> next.shed == s.values.shed + Dropped(p, s.values, e)
    ensures !e.body.Cancellation? ==>
      var w, lost := Carried(p, s.values, e, next), e.body.UnknownInflight? && e.body.task in p.guarded;
      && (next.status == Refused <==> lost || Hopeless(p, w))
      && (next.status == Completed <==> !lost && !Hopeless(p, w) && Settled(p, w, next.shed))
  {
    var v, w := s.values, Stage(p, s.revision, s.values, e).values;
    AdmittedIsScoped(p);
    StageIsWell(p, s, e);
    StageCarries(p, s.revision, v, e, w);
    if !e.body.Cancellation? {
      StatusExactly(p, w);
      HopelessIgnoresStatus(p, w, Carried(p, v, e, next));
      SettledIgnoresStatus(p, w, Carried(p, v, e, next), next.shed);
    }
  }
}
