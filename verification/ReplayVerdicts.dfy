/** When replay passes, when it fails and at which record, and when an illegal event escapes from it. */
module ReplayVerdicts {
  import opened Contracts
  import opened Plans
  import opened Controller
  import opened Runs
  import opened Runtime
  import opened Acceptance
  import opened Replay

  /** The records are the journal of a history with valid events and distinct identifiers. */
  ghost predicate Authentic(p: Plan, records: seq<Record>) {
    && After(p, EventsOf(records)).Some? && records == Journal(p, EventsOf(records))
    && DistinctIds(EventsOf(records)) && AllValid(EventsOf(records))
  }

  lemma PassedExactly(p: Plan, records: seq<Record>)
    requires Admitted(p)
    ensures Replayed(p, records).Passed? <==> Authentic(p, records)
    ensures Authentic(p, records) ==> Replayed(p, records) == Passed(After(p, EventsOf(records)).value)
  {
    if Replayed(p, records).Passed? {
      ReplayIsSound(p, records);
    }
    if Authentic(p, records) {
      ReplayIsComplete(p, EventsOf(records));
    }
  }

  // ---------------------------------------------------------------- one record after an authentic journal

  /** The record decodes and continues the chain of revisions, identifiers and states. */
  ghost predicate Chained(seen: set<EventId>, count: nat, s: State, r: Record) {
    RecordDecodes(r) && r.revision == count + 1 && r.event.id !in seen && r.prior == s
  }

  /** The chain breaks here, or the recorded state or decision is not what the event leads to. */
  ghost predicate Mismatch(p: Plan, journal: seq<Record>, s: State, r: Record) {
    || !Chained(Ids(EventsOf(journal)), |journal|, s, r)
    || (Acceptable(p, EventsOf(journal), s.values, r.event) && !Authentic(p, journal + [r]))
  }

  /** The chain is intact, but no run could have had this event. */
  ghost predicate Forbidden(p: Plan, journal: seq<Record>, s: State, r: Record) {
    Chained(Ids(EventsOf(journal)), |journal|, s, r) && !Acceptable(p, EventsOf(journal), s.values, r.event)
  }

  lemma RecordCases(p: Plan, seen: set<EventId>, count: nat, s: State, r: Record, verdict: Verdict)
    requires verdict == ReplayOne(p, s, seen, count, r)
    ensures !Chained(seen, count, s, r) ==> verdict == Failed(count + 1)
    ensures Chained(seen, count, s, r) && !Stage(p, s.revision, s.values, r.event).Staged? ==> verdict == Escaped
    ensures Chained(seen, count, s, r) && Stage(p, s.revision, s.values, r.event).Staged? ==>
      verdict.Passed? || verdict == Failed(count + 1)
  {
  }

  lemma StagedIsAcceptable(p: Plan, events: seq<Event>, s: State, e: Event)
    requires Admitted(p) && After(p, events) == Some(s)
    ensures Stage(p, s.revision, s.values, e).Staged? <==> Acceptable(p, events, s.values, e)
  {
    AcceptedExactly(p, events, s, e);
    SnocIsStaged(p, events, s, e);
  }

  /** One record more after records that pass. */
  lemma RecordDecides(p: Plan, journal: seq<Record>, events: seq<Event>, s: State, r: Record, verdict: Verdict)
    requires Admitted(p) && events == EventsOf(journal) && After(p, events) == Some(s)
    requires Replayed(p, journal) == Passed(s) && verdict == Replayed(p, journal + [r])
    ensures !Chained(Ids(events), |journal|, s, r) ==> verdict == Failed(|journal| + 1)
    ensures Forbidden(p, journal, s, r) ==> verdict == Escaped
    ensures Chained(Ids(events), |journal|, s, r) && Acceptable(p, events, s.values, r.event) ==>
      verdict.Passed? || verdict == Failed(|journal| + 1)
  {
    ReplayedExtends(p, journal, s, Ids(events), r);
    RecordCases(p, Ids(events), |journal|, s, r, verdict);
    StagedIsAcceptable(p, events, s, r.event);
  }

  lemma RecordReplays(p: Plan, journal: seq<Record>, s: State, r: Record, verdict: Verdict)
    requires Admitted(p) && After(p, EventsOf(journal)) == Some(s)
    requires Replayed(p, journal) == Passed(s) && verdict == Replayed(p, journal + [r])
    requires verdict.Passed? <==> Authentic(p, journal + [r])
    ensures Mismatch(p, journal, s, r) ==> verdict == Failed(|journal| + 1)
    ensures Forbidden(p, journal, s, r) ==> verdict == Escaped
    ensures !Mismatch(p, journal, s, r) && !Forbidden(p, journal, s, r) ==> Authentic(p, journal + [r])
  {
    RecordDecides(p, journal, EventsOf(journal), s, r, verdict);
  }

  // ---------------------------------------------------------------- the first break

  /** After a failing record the rest does not matter. */
  lemma {:induction false} ReplayStops(p: Plan, s: State, seen: set<EventId>, count: nat, head: seq<Record>,
      tail: seq<Record>)
    requires !ReplayFrom(p, s, seen, count, head).Passed?
    ensures ReplayFrom(p, s, seen, count, head + tail) == ReplayFrom(p, s, seen, count, head)
    decreases |head|
  {
    if head != [] {
      assert (head + tail)[0] == head[0] && (head + tail)[1..] == head[1..] + tail;
      var step := ReplayOne(p, s, seen, count, head[0]);
      if step.Passed? {
        ReplayStops(p, step.state, seen + {head[0].event.id}, count + 1, head[1..], tail);
      }
    }
  }

  /** How many of the records may be read before the journal breaks. */
  ghost function IntactLengths(p: Plan, records: seq<Record>): set<nat> {
    set n: nat | n <= |records| && Authentic(p, records[..n])
  }

  lemma {:induction false} FirstGap(lengths: set<nat>, n: nat) returns (k: nat)
    requires 0 in lengths && n !in lengths
    ensures k < n && k in lengths && k + 1 !in lengths
    decreases n
  {
    if n - 1 in lengths {
      k := n - 1;
    } else {
      k := FirstGap(lengths, n - 1);
    }
  }

  lemma TakeAll(records: seq<Record>)
    ensures records[..|records|] == records
  {
  }

  lemma TakeOneMore(records: seq<Record>, m: nat)
    requires m < |records|
    ensures records[..m + 1] == records[..m] + [records[m]]
    ensures records == records[..m] + [records[m]] + records[m + 1..]
  {
  }

  lemma NothingIsAuthentic(p: Plan, records: seq<Record>)
    requires Admitted(p)
    ensures records == [] ==> Authentic(p, records)
  {
    if records == [] {
      NothingReplays(p, records);
      PassedExactly(p, records);
    }
  }

  /** The records before index `k` are authentic and lead to state `s`. */
  ghost predicate Leads(p: Plan, records: seq<Record>, k: nat, s: State) {
    k < |records| && Authentic(p, records[..k]) && After(p, EventsOf(records[..k])) == Some(s)
  }

  ghost predicate FailsAt(p: Plan, records: seq<Record>, k: nat, s: State) {
    Leads(p, records, k, s) && Mismatch(p, records[..k], s, records[k])
  }

  ghost predicate EscapesAt(p: Plan, records: seq<Record>, k: nat, s: State) {
    Leads(p, records, k, s) && Forbidden(p, records[..k], s, records[k])
  }

  lemma VerdictFrom(p: Plan, journal: seq<Record>, s: State, r: Record, tail: seq<Record>, records: seq<Record>)
    requires Admitted(p) && Authentic(p, journal) && After(p, EventsOf(journal)) == Some(s)
    requires records == journal + [r] + tail
    ensures Mismatch(p, journal, s, r) ==> Replayed(p, records) == Failed(|journal| + 1)
    ensures Forbidden(p, journal, s, r) ==> Replayed(p, records) == Escaped
    ensures !Mismatch(p, journal, s, r) && !Forbidden(p, journal, s, r) ==> Authentic(p, journal + [r])
  {
    PassedExactly(p, journal);
    PassedExactly(p, journal + [r]);
    RecordReplays(p, journal, s, r, Replayed(p, journal + [r]));
    if Mismatch(p, journal, s, r) || Forbidden(p, journal, s, r) {
      ReplayStops(p, Initial(p), {}, 0, journal + [r], tail);
    }
  }

  lemma VerdictAt(p: Plan, records: seq<Record>, k: nat, s: State)
    requires Admitted(p) && Leads(p, records, k, s)
    ensures Mismatch(p, records[..k], s, records[k]) ==> Replayed(p, records) == Failed(k + 1)
    ensures Forbidden(p, records[..k], s, records[k]) ==> Replayed(p, records) == Escaped
    ensures !Mismatch(p, records[..k], s, records[k]) && !Forbidden(p, records[..k], s, records[k]) ==>
      Authentic(p, records[..k + 1])
  {
    TakeOneMore(records, k);
    VerdictFrom(p, records[..k], s, records[k], records[k + 1..], records);
  }

  /**
   * Replay passes exactly the authentic records, in the state of their history. Otherwise it fails with the
   * number of the first record that is mismatched, or an event that no run could have had escapes.
   */
  lemma VerdictExactly(p: Plan, records: seq<Record>)
    requires Admitted(p)
    ensures match Replayed(p, records)
            case Passed(s) => Authentic(p, records) && After(p, EventsOf(records)) == Some(s)
            case Failed(n) => exists k: nat, s :: FailsAt(p, records, k, s) && n == k + 1
            case Escaped => exists k: nat, s :: EscapesAt(p, records, k, s)
  {
    PassedExactly(p, records);
    if !Authentic(p, records) {
      TakeAll(records);
      NothingIsAuthentic(p, records[..0]);
      var k := FirstGap(IntactLengths(p, records), |records|);
      GapDecides(p, records, k);
    }
  }

  lemma GapDecides(p: Plan, records: seq<Record>, k: nat)
    requires Admitted(p) && k < |records|
    requires Authentic(p, records[..k]) && !Authentic(p, records[..k + 1])
    ensures exists s :: FailsAt(p, records, k, s) || EscapesAt(p, records, k, s)
    ensures forall s :: FailsAt(p, records, k, s) ==> Replayed(p, records) == Failed(k + 1)
    ensures forall s :: EscapesAt(p, records, k, s) ==> Replayed(p, records) == Escaped
  {
    var s := After(p, EventsOf(records[..k])).value;
    assert Leads(p, records, k, s);
    VerdictAt(p, records, k, s);
    assert FailsAt(p, records, k, s) || EscapesAt(p, records, k, s);
    assert forall other :: Leads(p, records, k, other) ==> other == s;
  }

  /** And the other way round: the kind of the first break decides the verdict. */
  lemma BreakDecides(p: Plan, records: seq<Record>, k: nat, s: State)
    requires Admitted(p)
    ensures FailsAt(p, records, k, s) ==> Replayed(p, records) == Failed(k + 1)
    ensures EscapesAt(p, records, k, s) ==> Replayed(p, records) == Escaped
  {
    if FailsAt(p, records, k, s) || EscapesAt(p, records, k, s) {
      VerdictAt(p, records, k, s);
    }
  }
}
