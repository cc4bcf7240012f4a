/** Strict replay of controller records: it accepts exactly the histories the controller writes. */
module Replay {
  import opened Contracts
  import opened Plans
  import opened Controller
  import opened Transitions
  import opened Runs
  import opened Histories
  import opened Runtime
  import opened Recovery
  import opened Agreement

  datatype Record = Record(revision: nat, prior: State, event: Event, next: State, decision: Decision)

  /** The facts about names and reset times that only the decoder looks at. */
  predicate Named(v: Values) {
    WindowsNamed(v) && CapacitiesNamed(v) && LeaseNamed(v)
  }

  predicate WindowsNamed(v: Values) {
    forall provider :: provider in v.resets ==> provider != "" && 1 <= v.resets[provider]
  }

  predicate CapacitiesNamed(v: Values) {
    forall provider :: provider in v.capacities ==> provider != ""
  }

  predicate LeaseNamed(v: Values) {
    v.inflight.Some? ==>
      1 <= v.inflight.value.attempt && v.inflight.value.provider != "" && v.inflight.value.backend != ""
  }

  /** `AdaptiveState.from_dict`, beyond the types of the fields. */
  predicate StateDecodes(v: Values) {
    && v.completed !! v.shed
    && (v.status == Running || v.status == Completed ==> v.unknown <= v.shed)
    && Named(v)
  }

  predicate RecordDecodes(r: Record) {
    1 <= r.revision && ValidDetails(r.event.body) && StateDecodes(r.next.values)
  }

  /** The third outcome: an illegal event raises an error that replay does not catch. */
  datatype Verdict = Passed(state: State) | Failed(index: nat) | Escaped

  /** One record: decode, then revision, identifier, chain, replayed state and decision must match. */
  ghost function ReplayOne(p: Plan, state: State, seen: set<EventId>, count: nat, r: Record): Verdict {
    if !RecordDecodes(r) || r.revision != count + 1 || r.event.id in seen || r.prior != state then Failed(count + 1)
    else
      match Apply(p, state, r.event)
      case Raises => Escaped
      case Applied(next, decision) =>
        if r.next != next || r.decision != decision then Failed(count + 1) else Passed(next)
  }

  ghost function ReplayFrom(p: Plan, state: State, seen: set<EventId>, count: nat, records: seq<Record>): Verdict
    decreases |records|
  {
    if records == [] then Passed(state) else
    match ReplayOne(p, state, seen, count, records[0])
    case Failed(index) => Failed(index)
    case Escaped => Escaped
    case Passed(next) => ReplayFrom(p, next, seen + {records[0].event.id}, count + 1, records[1..])
  }

  ghost function Replayed(p: Plan, records: seq<Record>): Verdict {
    ReplayFrom(p, Initial(p), {}, 0, records)
  }

  /** The report passes only for a nonempty history. */
  ghost predicate ReplayPasses(p: Plan, records: seq<Record>) {
    records != [] && Replayed(p, records).Passed?
  }

  // ---------------------------------------------------------------- the records of a run

  ghost function RecordOf(p: Plan, s: State, e: Event): Record
    requires Apply(p, s, e).Applied?
  {
    var Applied(next, decision) := Apply(p, s, e);
    Record(next.revision, s, e, next, decision)
  }

  /** The records that `_append_transition` writes for a run. */
  ghost function Journal(p: Plan, events: seq<Event>): seq<Record>
    requires After(p, events).Some?
    decreases |events|
  {
    if events == [] then [] else
    AfterFront(p, events);
    var front, e := events[..|events| - 1], events[|events| - 1];
    Journal(p, front) + [RecordOf(p, After(p, front).value, e)]
  }

  function EventsOf(records: seq<Record>): seq<Event> {
    if records == [] then [] else EventsOf(records[..|records| - 1]) + [records[|records| - 1].event]
  }

  ghost function Ids(events: seq<Event>): set<EventId> {
    set i | 0 <= i < |events| :: events[i].id
  }

  ghost predicate DistinctIds(events: seq<Event>) {
    forall i, j :: 0 <= i < j < |events| ==> events[i].id != events[j].id
  }

  lemma IdsAppend(events: seq<Event>, e: Event)
    ensures Ids(events + [e]) == Ids(events) + {e.id}
    ensures DistinctIds(events + [e]) <==> DistinctIds(events) && e.id !in Ids(events)
  {
    var all := events + [e];
    assert all[|events|] == e;
    assert forall i :: 0 <= i < |events| ==> all[i] == events[i];
    if DistinctIds(events) && e.id !in Ids(events) {
      forall i, j | 0 <= i < j < |all|
        ensures all[i].id != all[j].id
      {
        if j == |events| {
          assert events[i].id in Ids(events);
        }
      }
    }
  }

  // ---------------------------------------------------------------- one record more

  lemma {:induction false} ReplaySnoc(p: Plan, state: State, seen: set<EventId>, count: nat,
      front: seq<Record>, r: Record)
    ensures var before := ReplayFrom(p, state, seen, count, front);
            ReplayFrom(p, state, seen, count, front + [r]) ==
            if before.Passed?
            then ReplayOne(p, before.state, seen + Ids(EventsOf(front)), count + |front|, r) else before
    decreases |front|
  {
    var all := front + [r];
    if front == [] {
      assert all == [r] && all[1..] == [];
      assert seen + Ids(EventsOf(front)) == seen;
    } else {
      var head := front[0];
      assert all[0] == head && all[1..] == front[1..] + [r];
      IdsOfHead(front);
      var step := ReplayOne(p, state, seen, count, head);
      if step.Passed? {
        ReplaySnoc(p, step.state, seen + {head.event.id}, count + 1, front[1..], r);
        assert seen + {head.event.id} + Ids(EventsOf(front[1..])) == seen + Ids(EventsOf(front));
      }
    }
  }

  lemma {:induction false} EventsOfHead(records: seq<Record>)
    requires records != []
    ensures EventsOf(records) == [records[0].event] + EventsOf(records[1..])
    decreases |records|
  {
    if |records| == 1 {
      assert records[1..] == [] && records[..0] == [];
    } else {
      var front := records[..|records| - 1];
      EventsOfHead(front);
      assert front[1..] == records[1..][..|records| - 2];
      assert records[1..][|records| - 2] == records[|records| - 1];
    }
  }

  lemma IdsOfHead(records: seq<Record>)
    requires records != []
    ensures Ids(EventsOf(records)) == {records[0].event.id} + Ids(EventsOf(records[1..]))
  {
    EventsOfHead(records);
    IdsPrepend(records[0].event, EventsOf(records[1..]));
  }

  lemma IdsPrepend(e: Event, events: seq<Event>)
    ensures Ids([e] + events) == {e.id} + Ids(events)
  {
    var all := [e] + events;
    assert all[0] == e;
    assert forall i :: 0 <= i < |events| ==> all[i + 1] == events[i];
    forall id | id in {e.id} + Ids(events)
      ensures id in Ids(all)
    {
      if id != e.id {
        var i :| 0 <= i < |events| && events[i].id == id;
        assert all[i + 1].id == id;
      }
    }
  }

  // ---------------------------------------------------------------- completeness

  ghost predicate AllValid(events: seq<Event>) {
    forall i :: 0 <= i < |events| ==> ValidDetails(events[i].body)
  }

  lemma StageNamesWindows(p: Plan, revision: nat, v: Values, e: Event)
    requires Stage(p, revision, v, e).Staged? && WindowsNamed(v) && ValidDetails(e.body)
    ensures WindowsNamed(Stage(p, revision, v, e).values)
  {
    ProvidersFollow(p, revision, v, e, Stage(p, revision, v, e).values);
  }

  lemma StageNamesCapacities(p: Plan, revision: nat, v: Values, e: Event)
    requires Stage(p, revision, v, e).Staged? && CapacitiesNamed(v) && ValidDetails(e.body)
    ensures CapacitiesNamed(Stage(p, revision, v, e).values)
  {
    ProvidersFollow(p, revision, v, e, Stage(p, revision, v, e).values);
  }

  lemma StageNamesLease(p: Plan, revision: nat, v: Values, e: Event)
    requires Stage(p, revision, v, e).Staged? && LeaseNamed(v) && ValidDetails(e.body)
    ensures LeaseNamed(Stage(p, revision, v, e).values)
  {
    var w := Stage(p, revision, v, e).values;
    if e.body.TaskDispatched? {
      DispatchLeases(p, revision, v, e, w);
    } else {
      LeaseStaysOrEnds(p, revision, v, e, w);
    }
  }

  lemma DispatchLeases(p: Plan, revision: nat, v: Values, e: Event, w: Values)
    requires Stage(p, revision, v, e).Staged? && w == Stage(p, revision, v, e).values && e.body.TaskDispatched?
    ensures w.inflight == Some(Inflight(e.body.task, 1, e.body.provider, e.body.backend, e.body.reservation, e))
  {
  }

  lemma LeaseStaysOrEnds(p: Plan, revision: nat, v: Values, e: Event, w: Values)
    requires Stage(p, revision, v, e).Staged? && w == Stage(p, revision, v, e).values && !e.body.TaskDispatched?
    ensures w.inflight == v.inflight || w.inflight.None?
  {
    if e.body.UsageSettled? {
      SettlementStages(p, revision, v, e);
    } else if e.body.UnknownInflight? || e.body.Cancellation? {
      ChargeStages(p, revision, v, e);
    } else {
      ControlStages(p, revision, v, e);
    }
  }

  lemma {:induction false} ReachableIsNamed(p: Plan, events: seq<Event>)
    requires After(p, events).Some? && AllValid(events)
    ensures Named(After(p, events).value.values)
    decreases |events|
  {
    if events == [] {
      ReconciledKeepsLedger(p, InitialValues(p));
    } else {
      var front, e := events[..|events| - 1], events[|events| - 1];
      AfterFront(p, events);
      ReachableIsNamed(p, front);
      NamedStep(p, After(p, front).value, e);
    }
  }

  lemma NamedStep(p: Plan, s: State, e: Event)
    requires Stage(p, s.revision, s.values, e).Staged? && Named(s.values) && ValidDetails(e.body)
    ensures Named(Reconciled(p, Stage(p, s.revision, s.values, e).values))
  {
    StageNamesWindows(p, s.revision, s.values, e);
    StageNamesCapacities(p, s.revision, s.values, e);
    StageNamesLease(p, s.revision, s.values, e);
    ReconciledKeepsLedger(p, Stage(p, s.revision, s.values, e).values);
  }

  /** Every reachable state passes the controller's own strict decoder. */
  lemma ReachableDecodes(p: Plan, events: seq<Event>)
    requires Admitted(p) && After(p, events).Some? && AllValid(events)
    ensures StateDecodes(After(p, events).value.values)
  {
    ReachableIsSound(p, events);
    ReachableIsNamed(p, events);
  }

  lemma JournalStep(p: Plan, front: seq<Event>, e: Event)
    requires After(p, front).Some? && Apply(p, After(p, front).value, e).Applied?
    ensures After(p, front + [e]).Some?
    ensures Journal(p, front + [e]) == Journal(p, front) + [RecordOf(p, After(p, front).value, e)]
    ensures EventsOf(Journal(p, front) + [RecordOf(p, After(p, front).value, e)]) == EventsOf(Journal(p, front)) + [e]
  {
    AfterAppend(p, front, e);
    assert (front + [e])[..|front|] == front;
  }

  lemma OneAccepts(p: Plan, s: State, seen: set<EventId>, e: Event)
    requires Apply(p, s, e).Applied? && ValidDetails(e.body) && e.id !in seen
    requires StateDecodes(Apply(p, s, e).next.values)
    ensures ReplayOne(p, s, seen, s.revision, RecordOf(p, s, e)) == Passed(Apply(p, s, e).next)
  {
  }

  /** Replay accepts every history of distinct, valid events and ends in the same state. */
  lemma {:induction false} ReplayIsComplete(p: Plan, events: seq<Event>)
    requires Admitted(p) && After(p, events).Some? && AllValid(events) && DistinctIds(events)
    ensures Replayed(p, Journal(p, events)) == Passed(After(p, events).value)
    ensures EventsOf(Journal(p, events)) == events && |Journal(p, events)| == |events|
    decreases |events|
  {
    if events != [] {
      FrontRuns(p, events);
      FrontIsValid(events);
      ReplayIsComplete(p, events[..|events| - 1]);
      CompleteNext(p, events, events[..|events| - 1]);
    }
  }

  lemma {:induction false} FrontIsValid(events: seq<Event>)
    requires events != [] && AllValid(events) && DistinctIds(events)
    ensures AllValid(events[..|events| - 1]) && DistinctIds(events[..|events| - 1])
  {
  }

  lemma CompleteNext(p: Plan, events: seq<Event>, front: seq<Event>)
    requires Admitted(p) && After(p, front).Some? && After(p, events).Some?
    requires events != [] && front == events[..|events| - 1] && AllValid(events) && DistinctIds(events)
    requires Replayed(p, Journal(p, front)) == Passed(After(p, front).value)
    requires EventsOf(Journal(p, front)) == front && |Journal(p, front)| == |front|
    ensures Replayed(p, Journal(p, events)) == Passed(After(p, events).value)
    ensures EventsOf(Journal(p, events)) == events && |Journal(p, events)| == |events|
  {
    LastIsNew(events, front);
    LastApplies(p, events, front, After(p, front).value);
    CompleteStep(p, front, After(p, front).value, events[|front|]);
  }

  lemma {:induction false} LastIsNew(events: seq<Event>, front: seq<Event>)
    requires events != [] && front == events[..|events| - 1] && AllValid(events) && DistinctIds(events)
    ensures events == front + [events[|front|]]
    ensures ValidDetails(events[|front|].body) && events[|front|].id !in Ids(front)
  {
    IdsAppend(front, events[|front|]);
  }

  lemma {:induction false} LastApplies(p: Plan, events: seq<Event>, front: seq<Event>, s: State)
    requires Admitted(p) && After(p, events).Some? && AllValid(events)
    requires events != [] && front == events[..|events| - 1] && After(p, front) == Some(s)
    ensures Apply(p, s, events[|front|]).Applied? && s.revision == |front|
    ensures StateDecodes(Apply(p, s, events[|front|]).next.values)
  {
    AfterFront(p, events);
    RevisionCounts(p, front);
    ReachableDecodes(p, events);
  }

  /** One more record that replays from where the journal ends. */
  lemma ReplayedExtends(p: Plan, journal: seq<Record>, s: State, seen: set<EventId>, r: Record)
    requires Replayed(p, journal) == Passed(s) && seen == Ids(EventsOf(journal))
    ensures Replayed(p, journal + [r]) == ReplayOne(p, s, seen, |journal|, r)
  {
    ReplaySnoc(p, Initial(p), {}, 0, journal, r);
    assert {} + seen == seen;
  }

  lemma CompleteStep(p: Plan, front: seq<Event>, s: State, e: Event)
    requires After(p, front) == Some(s) && s.revision == |front|
    requires Apply(p, s, e).Applied? && ValidDetails(e.body) && e.id !in Ids(front)
    requires StateDecodes(Apply(p, s, e).next.values)
    requires Replayed(p, Journal(p, front)) == Passed(s)
    requires EventsOf(Journal(p, front)) == front && |Journal(p, front)| == |front|
    ensures After(p, front + [e]) == Some(Apply(p, s, e).next)
    ensures Replayed(p, Journal(p, front + [e])) == Passed(Apply(p, s, e).next)
    ensures EventsOf(Journal(p, front + [e])) == front + [e] && |Journal(p, front + [e])| == |front| + 1
  {
    AfterAppend(p, front, e);
    JournalStep(p, front, e);
    ReplayedExtends(p, Journal(p, front), s, Ids(front), RecordOf(p, s, e));
    OneAccepts(p, s, Ids(front), e);
  }

  // ---------------------------------------------------------------- soundness

  lemma {:induction false} RevisionCounts(p: Plan, events: seq<Event>)
    requires After(p, events).Some?
    ensures After(p, events).value.revision == |events|
    decreases |events|
  {
    if events != [] {
      AfterFront(p, events);
      RevisionCounts(p, events[..|events| - 1]);
    }
  }

  lemma {:induction false} EventsOfLength(records: seq<Record>)
    ensures |EventsOf(records)| == |records|
    decreases |records|
  {
    if records != [] {
      EventsOfLength(records[..|records| - 1]);
    }
  }

  lemma ReplayedSnoc(p: Plan, front: seq<Record>, r: Record)
    requires Replayed(p, front + [r]).Passed?
    ensures Replayed(p, front).Passed?
    ensures ReplayOne(p, Replayed(p, front).state, Ids(EventsOf(front)), |front|, r) == Replayed(p, front + [r])
  {
    SnocFrom(p, Initial(p), {}, front, r, Ids(EventsOf(front)));
  }

  lemma SnocFrom(p: Plan, s: State, none: set<EventId>, front: seq<Record>, r: Record,
      seen: set<EventId>)
    requires none == {} && seen == Ids(EventsOf(front))
    ensures var before := ReplayFrom(p, s, none, 0, front);
            ReplayFrom(p, s, none, 0, front + [r]) ==
            if before.Passed? then ReplayOne(p, before.state, seen, |front|, r) else before
  {
    ReplaySnoc(p, s, none, 0, front, r);
    assert none + seen == seen;
  }

  lemma EventsOfSnoc(front: seq<Record>, r: Record)
    ensures EventsOf(front + [r]) == EventsOf(front) + [r.event]
  {
    assert (front + [r])[..|front|] == front;
  }

  lemma NothingReplays(p: Plan, records: seq<Record>)
    requires records == []
    ensures EventsOf(records) == [] && Replayed(p, records) == Passed(Initial(p))
    ensures After(p, EventsOf(records)) == Some(Initial(p))
  {
    AfterNothing(p, EventsOf(records));
  }

  lemma FoldStep(p: Plan, front: seq<Record>, s: State, r: Record)
    requires After(p, EventsOf(front)) == Some(s)
    requires ReplayOne(p, s, Ids(EventsOf(front)), |front|, r).Passed?
    ensures r == RecordOf(p, s, r.event) && ValidDetails(r.event.body) && r.event.id !in Ids(EventsOf(front))
    ensures ReplayOne(p, s, Ids(EventsOf(front)), |front|, r).state == Apply(p, s, r.event).next
    ensures After(p, EventsOf(front) + [r.event]) == Some(Apply(p, s, r.event).next)
  {
    RevisionCounts(p, EventsOf(front));
    EventsOfLength(front);
    OneMatches(p, s, Ids(EventsOf(front)), r);
    AfterAppend(p, EventsOf(front), r.event);
  }

  /** A history that replays is the fold of `apply` over its own events from the initial state. */
  lemma {:induction false} ReplayIsFold(p: Plan, records: seq<Record>)
    requires Replayed(p, records).Passed?
    ensures After(p, EventsOf(records)) == Some(Replayed(p, records).state)
    decreases |records|
  {
    if records == [] {
      NothingReplays(p, records);
    } else {
      var front, r := records[..|records| - 1], records[|records| - 1];
      SplitLast(records);
      ReplayedSnoc(p, front, r);
      EventsOfSnoc(front, r);
      ReplayIsFold(p, front);
      FoldStep(p, front, Replayed(p, front).state, r);
    }
  }

  /** A history that replays holds exactly the records that the controller writes for its events. */
  lemma {:induction false} ReplayIsSound(p: Plan, records: seq<Record>)
    requires Replayed(p, records).Passed?
    ensures After(p, EventsOf(records)).Some? && Journal(p, EventsOf(records)) == records
    ensures DistinctIds(EventsOf(records)) && AllValid(EventsOf(records))
    decreases |records|
  {
    ReplayIsFold(p, records);
    if records == [] {
      NothingReplays(p, records);
    } else {
      var front, r := records[..|records| - 1], records[|records| - 1];
      SplitLast(records);
      ReplayedSnoc(p, front, r);
      EventsOfSnoc(front, r);
      ReplayIsFold(p, front);
      ReplayIsSound(p, front);
      FoldStep(p, front, Replayed(p, front).state, r);
      JournalStep(p, EventsOf(front), r.event);
      IdsAppend(EventsOf(front), r.event);
    }
  }

  lemma OneMatches(p: Plan, s: State, seen: set<EventId>, r: Record)
    requires ReplayOne(p, s, seen, s.revision, r).Passed?
    ensures Apply(p, s, r.event).Applied? && r.event.id !in seen && ValidDetails(r.event.body)
    ensures ReplayOne(p, s, seen, s.revision, r).state == Apply(p, s, r.event).next
    ensures r == RecordOf(p, s, r.event)
  {
  }

  // ---------------------------------------------------------------- histories of the runtime

  /** The identifiers a runtime gives its events: the start, then kind and revision. */
  ghost predicate WellNumbered(events: seq<Event>) {
    forall i :: 0 <= i < |events| ==>
      events[i].id == if i == 0 then StartId else Numbered(Kind(events[i].body), i + 1)
  }

  lemma WellNumberedIsDistinct(events: seq<Event>)
    requires WellNumbered(events)
    ensures DistinctIds(events)
  {
  }

  /** The durable history of a runtime: its fold is the state, and its events are valid and numbered. */
  ghost predicate Logged(p: Plan, sys: System) {
    && After(p, sys.events) == Some(sys.state)
    && sys.events != []
    && WellNumbered(sys.events)
    && AllValid(sys.events)
  }

  lemma EventsExtend(events: seq<Event>, e: Event)
    requires WellNumbered(events) && AllValid(events) && ValidDetails(e.body) && events != []
    requires e.id == Numbered(Kind(e.body), |events| + 1)
    ensures WellNumbered(events + [e]) && AllValid(events + [e])
  {
  }

  lemma AppendIsLogged(p: Plan, sys: System, at: nat, body: Body)
    requires Logged(p, sys) && ValidDetails(body)
    ensures Logged(p, Append(p, sys, Issue(sys.state, at, body)))
  {
    RevisionCounts(p, sys.events);
    AfterAppend(p, sys.events, Issue(sys.state, at, body));
    EventsExtend(sys.events, Issue(sys.state, at, body));
  }

  lemma RecoveryIsLogged(p: Plan, sys: System, at: nat)
    requires Logged(p, sys)
    ensures Logged(p, Recovered(p, sys, at))
  {
    ReachableIsNamed(p, sys.events);
    if sys.state.values.inflight.Some? {
      AppendIsLogged(p, sys, at, RecoveryBody(sys, sys.state.values.inflight.value));
    }
  }

  lemma OtherFactsAreIgnored(p: Plan, sys: System, next: System)
    requires Logged(p, sys) && next.events == sys.events && next.state == sys.state
    ensures Logged(p, next)
  {
  }

  lemma DeliveryIsLogged(p: Plan, called: System, at: nat, t: TaskId, actual: Usage, output: string, crash: Crash)
    requires Logged(p, called)
    ensures Logged(p, Delivered(p, called, at, t, actual, output, crash))
  {
    var delivered := called.(completions := called.completions[t := Completion(actual, output)]);
    OtherFactsAreIgnored(p, called, delivered);
    AppendIsLogged(p, delivered, at, UsageSettled(t, 1, actual, output));
  }

  lemma AnswerIsLogged(p: Plan, called: System, at: nat, t: TaskId, actual: Usage, output: string, crash: Crash)
    requires Logged(p, called)
    ensures Logged(p, Answered(p, called, at, t, actual, output, crash))
  {
    RecoveryIsLogged(p, called, at);
    DeliveryIsLogged(p, called, at, t, actual, output, crash);
    AnswerKeeps(s => Logged(p, s), p, called, at, t, actual, output, crash);
  }

  lemma WorkIsLogged(p: Plan, started: System, at: nat, t: TaskId, reply: Reply, crash: Crash)
    requires Logged(p, started)
    ensures Logged(p, Worked(p, started, at, t, reply, crash))
  {
    var called := started.(calls := started.calls + [t]);
    OtherFactsAreIgnored(p, started, called);
    RecoveryIsLogged(p, started, at);
    RecoveryIsLogged(p, called, at);
    forall back: nat, actual, output
      ensures Logged(p, Answered(p, called, back, t, actual, output, crash))
    {
      AnswerIsLogged(p, called, back, t, actual, output, crash);
    }
    WorkKeeps(s => Logged(p, s), p, started, called, at, t, reply, crash);
  }

  lemma LaunchIsLogged(p: Plan, sys: System, at: nat, t: TaskId, reply: Reply, crash: Crash, next: System)
    requires Admitted(p) && Logged(p, sys) && t in p.admitted && next == Launched(p, sys, at, t, reply, crash)
    ensures Logged(p, next)
  {
    var recorded := Recorded(p, sys, at, t);
    var started := Attempted(recorded, t);
    AppendIsLogged(p, sys, at, DispatchBody(p, t));
    OtherFactsAreIgnored(p, recorded, started);
    WorkIsLogged(p, started, at, t, reply, crash);
    assert next == if crash == AfterRecord then recorded
                   else if crash == AfterStart || started.attempts[t] != 1 then started
                   else Worked(p, started, at, t, reply, crash);
  }

  lemma OpIsLogged(p: Plan, sys: System, op: Op)
    requires Admitted(p) && Logged(p, sys)
    ensures Logged(p, Performed(p, sys, op))
  {
    match op
    case Control(at, body) =>
      if ControlBody(body) {
        AppendIsLogged(p, sys, at, body);
      }
    case DispatchNext(at, work, crash) =>
      var choice := NextDispatch(p, sys.state.values, at);
      if choice.Some? && choice.value in p.admitted {
        LaunchIsLogged(p, sys, at, choice.value, work(choice.value), crash, Performed(p, sys, op));
      }
    case RecoverInflight(at) => RecoveryIsLogged(p, sys, at);
  }

  lemma OpenedIsLogged(p: Plan, blank: System, e: Event)
    requires blank.state == Initial(p) && blank.events == [] && e == Event(StartId, 0, RuntimeStarted)
    ensures Logged(p, Append(p, blank, e))
  {
    AfterNothing(p, blank.events);
    AfterAppend(p, blank.events, e);
    ReconciledKeepsLedger(p, InitialValues(p));
    assert Stage(p, blank.state.revision, blank.state.values, e).Staged?;
  }

  lemma {:induction false} RunIsLogged(p: Plan, ops: seq<Op>)
    requires Admitted(p)
    ensures Logged(p, Run(p, ops))
    decreases |ops|
  {
    if ops == [] {
      OpenedIsLogged(p, System(Initial(p), [], map[], map[], []), Event(StartId, 0, RuntimeStarted));
    } else {
      RunIsLogged(p, ops[..|ops| - 1]);
      OpIsLogged(p, Run(p, ops[..|ops| - 1]), ops[|ops| - 1]);
    }
  }

  /** Whatever operations and crashes produced it, a durable history replays to the runtime's state. */
  lemma RunReplays(p: Plan, ops: seq<Op>)
    requires Admitted(p)
    ensures var sys := Run(p, ops);
            && After(p, sys.events).Some?
            && ReplayPasses(p, Journal(p, sys.events))
            && Replayed(p, Journal(p, sys.events)).state == sys.state
  {
    RunIsLogged(p, ops);
    var events := Run(p, ops).events;
    WellNumberedIsDistinct(events);
    ReplayIsComplete(p, events);
  }
}
