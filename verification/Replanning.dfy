/**
 * Reconciliation and the plan it protects: a state whose remaining work is planned is a fixed
 * point, and whatever reconciliation leaves running is planned.
 */
module Replanning {
  import opened Contracts
  import opened Plans
  import opened SerialPlan
  import opened Controller

  /** The part of admission that replanning rests on. */
  ghost predicate Scoped(p: Plan) {
    && p.guarded <= p.byId.Keys
    && p.skipped <= p.byId.Keys
    && p.skipped !! p.guarded
    && p.admitted.Keys == p.byId.Keys - p.skipped
    && (forall t :: t in p.guarded ==> p.Deps(t) <= p.guarded)
  }

  lemma AdmittedIsScoped(p: Plan)
    requires Admitted(p)
    ensures Scoped(p)
  {
  }

  ghost function Remaining(p: Plan, v: Values): set<TaskId> {
    p.byId.Keys - v.completed - v.shed - v.Flying()
  }

  /** Completed, shed and in-flight work are disjoint, and the lease reserves the task's profile. */
  ghost predicate Shaped(p: Plan, v: Values) {
    && v.completed <= p.admitted.Keys
    && p.skipped <= v.shed <= p.byId.Keys
    && v.completed !! v.shed
    && (v.inflight.Some? ==>
      && v.inflight.value.task in p.admitted.Keys - v.completed - v.shed
      && v.inflight.value.reservation == p.Need(v.inflight.value.task))
  }

  /** An unfinished optional task waits only for protected, started, or better optional work. */
  ghost predicate Ordered(p: Plan, busy: set<TaskId>, rest: set<TaskId>) {
    forall t, d :: t in rest - p.guarded && d in p.Deps(t) ==>
      d in busy || d in p.guarded || (d in rest && p.Before(d, t))
  }

  /** The remaining work is affordable and meets every deadline after the in-flight task's p95. */
  ghost predicate Planned(p: Plan, v: Values) {
    && p.guarded !! v.shed
    && !InflightLate(p, v)
    && SerialFit(p, v.Busy(), Remaining(p, v), Start(p, v))
    && v.Committed().Add(p.Total(Remaining(p, v))).Fits(v.caps)
    && Ordered(p, v.Busy(), Remaining(p, v))
  }

  /** The invariant of a running controller. */
  ghost predicate OnPlan(p: Plan, v: Values) {
    && v.status == Running
    && Shaped(p, v)
    && Planned(p, v)
    && (v.inflight.Some? || Remaining(p, v) != {})
  }

  // ---------------------------------------------------------------- sorting

  ghost predicate Descending(p: Plan, order: seq<TaskId>) {
    forall i, j :: 0 <= i < j < |order| ==> p.Before(order[i], order[j])
  }

  lemma {:induction false} SortedSorts(p: Plan, s: set<TaskId>)
    ensures Elements(Sorted(p, s)) == s
    ensures Descending(p, Sorted(p, s))
    decreases s
  {
    if s != {} {
      var t := p.Best(s);
      var rest := Sorted(p, s - {t});
      SortedSorts(p, s - {t});
      assert Elements([t] + rest) == {t} + Elements(rest);
      forall j | 0 <= j < |rest|
        ensures p.Before(t, rest[j])
      {
        assert rest[j] in Elements(rest);
      }
    }
  }

  lemma PrefixDescending(p: Plan, order: seq<TaskId>)
    requires order != [] && Descending(p, order)
    ensures var front, last := order[..|order| - 1], order[|order| - 1];
            && Descending(p, front)
            && Elements(order) == Elements(front) + {last}
            && last !in Elements(front)
            && forall u :: u in front ==> p.Before(u, last)
  {
    var front, last := order[..|order| - 1], order[|order| - 1];
    assert order == front + [last];
  }

  // ---------------------------------------------------------------- a planned state is kept

  lemma RemainingSplit(p: Plan, v: Values)
    requires Scoped(p) && Shaped(p, v) && p.guarded !! v.shed
    ensures PendingGuarded(p, v) !! Candidates(p, v)
    ensures PendingGuarded(p, v) + Candidates(p, v) == Remaining(p, v)
    ensures PendingGuarded(p, v) == Remaining(p, v) * p.guarded
    ensures v.Busy() !! Remaining(p, v)
  {
  }

  /** The protected part and an initial segment of the optional part embed in the whole plan. */
  lemma SegmentEmbeds(p: Plan, v: Values, kept: set<TaskId>)
    requires Scoped(p) && Shaped(p, v) && Planned(p, v)
    requires kept <= Candidates(p, v)
    requires forall t, u :: t in kept && u in Candidates(p, v) && p.Before(u, t) ==> u in kept
    ensures Embeds(p, v.Busy(), PendingGuarded(p, v) + kept, v.Busy(), Remaining(p, v))
  {
    RemainingSplit(p, v);
    var part := PendingGuarded(p, v) + kept;
    forall t | t in part
      ensures p.Deps(t) * Remaining(p, v) <= part
    {
      if t in p.guarded {
        assert p.Deps(t) <= p.guarded;
      } else {
        assert t in kept;
      }
    }
  }

  lemma SegmentAffordable(p: Plan, v: Values, kept: set<TaskId>)
    requires Scoped(p) && Shaped(p, v) && Planned(p, v)
    requires kept <= Candidates(p, v)
    ensures Affords(p, v, kept)
  {
    RemainingSplit(p, v);
    p.TotalUnion(PendingGuarded(p, v), kept);
    p.TotalMonotone(PendingGuarded(p, v) + kept, Remaining(p, v));
    AddLaws(v.Committed(), p.Total(PendingGuarded(p, v)), p.Total(kept));
  }

  lemma SegmentAdmitted(p: Plan, v: Values, kept: set<TaskId>, t: TaskId)
    requires Scoped(p) && Shaped(p, v) && Planned(p, v)
    requires kept + {t} <= Candidates(p, v) && t !in kept
    requires forall t', u :: t' in kept + {t} && u in Candidates(p, v) && p.Before(u, t') ==> u in kept + {t}
    ensures Admits(p, v, kept, t)
  {
    var more := kept + {t};
    SegmentEmbeds(p, v, more);
    SerialMonotone(p, v.Busy(), PendingGuarded(p, v) + more, Start(p, v), v.Busy(), Remaining(p, v), Start(p, v));
    assert PendingGuarded(p, v) + more == PendingGuarded(p, v) + kept + {t};
    SegmentAffordable(p, v, more);
    p.TotalPick(more, t);
    assert more - {t} == kept;
  }

  lemma {:induction false} SelectKeepsSegment(p: Plan, v: Values, order: seq<TaskId>)
    requires Scoped(p) && Shaped(p, v) && Planned(p, v)
    requires Descending(p, order)
    requires Elements(order) <= Candidates(p, v)
    requires forall t, u :: t in Elements(order) && u in Candidates(p, v) && p.Before(u, t) ==> u in Elements(order)
    ensures Select(p, v, order) == Elements(order)
    decreases |order|
  {
    if order != [] {
      var front, last := order[..|order| - 1], order[|order| - 1];
      PrefixDescending(p, order);
      forall t, u | t in Elements(front) && u in Candidates(p, v) && p.Before(u, t)
        ensures u in Elements(front)
      {
        assert t in Elements(order) && u in Elements(order);
        assert p.Before(t, last);
      }
      SelectKeepsSegment(p, v, front);
      SegmentAdmitted(p, v, Elements(front), last);
    }
  }

  lemma SelectKeepsAll(p: Plan, v: Values)
    requires Scoped(p) && Shaped(p, v) && Planned(p, v)
    ensures Select(p, v, Sorted(p, Candidates(p, v))) == Candidates(p, v)
  {
    SortedSorts(p, Candidates(p, v));
    SelectKeepsSegment(p, v, Sorted(p, Candidates(p, v)));
  }

  lemma SurvivorsAll(p: Plan, kept: set<TaskId>, shed: set<TaskId>)
    requires forall t :: t in kept ==> p.Deps(t) !! shed
    ensures Survivors(p, kept, shed) == kept
  {
    assert Sustained(p, kept, shed, kept);
  }

  /** A planned state passes every refusal test of reconciliation. */
  lemma PlannedPasses(p: Plan, v: Values)
    requires Scoped(p) && Shaped(p, v) && Planned(p, v)
    ensures v.now > p.envelope.deadline ==> p.guarded <= v.completed
    ensures SerialFit(p, v.Busy(), PendingGuarded(p, v), Start(p, v))
    ensures Affords(p, v, {})
  {
    RemainingSplit(p, v);
    SegmentEmbeds(p, v, {});
    assert PendingGuarded(p, v) + {} == PendingGuarded(p, v);
    SerialMonotone(p, v.Busy(), PendingGuarded(p, v), Start(p, v), v.Busy(), Remaining(p, v), Start(p, v));
    SegmentAffordable(p, v, {});
    if !(p.guarded <= v.completed) && v.inflight.None? {
      var t :| t in p.guarded && t !in v.completed;
      assert t in Remaining(p, v);
    }
  }

  lemma PlannedReplans(p: Plan, v: Values)
    requires Scoped(p) && Shaped(p, v) && Planned(p, v)
    ensures Replanned(p, v) == v.(status := FinalStatus(p, v, v.shed))
  {
    var kept := Candidates(p, v);
    SelectKeepsAll(p, v);
    RemainingSplit(p, v);
    forall t | t in kept
      ensures p.Deps(t) !! v.shed
    {
      OrderedAvoidsShed(p, v, t);
    }
    SurvivorsAll(p, kept, v.shed);
    assert kept - kept == {};
    assert v.shed + {} == v.shed;
  }

  lemma OrderedAvoidsShed(p: Plan, v: Values, t: TaskId)
    requires Shaped(p, v) && Planned(p, v)
    requires t in Remaining(p, v) - p.guarded
    ensures p.Deps(t) !! v.shed
  {
  }

  /** Reconciliation sheds nothing and refuses nothing of a planned state; only the status settles. */
  lemma PlannedIsKept(p: Plan, v: Values)
    requires Scoped(p) && Shaped(p, v) && Planned(p, v) && v.status != Cancelled
    ensures Reconciled(p, v) == v.(status := FinalStatus(p, v, v.shed))
  {
    PlannedPasses(p, v);
    PlannedReplans(p, v);
    assert p.guarded * v.shed == {};
  }

  /** Reconciliation is idempotent on running states: it never sheds, refuses or cascades twice. */
  lemma RunningIsFixpoint(p: Plan, v: Values)
    requires Scoped(p) && OnPlan(p, v)
    ensures Reconciled(p, v) == v
  {
    PlannedIsKept(p, v);
  }

  // ---------------------------------------------------------------- replanning makes a plan

  /** What the greedy pass over `order` has kept so far is affordable, on time and ordered. */
  ghost predicate Selected(p: Plan, v: Values, order: seq<TaskId>, kept: set<TaskId>) {
    && kept <= Elements(order)
    && Affords(p, v, kept)
    && SerialFit(p, v.Busy(), PendingGuarded(p, v) + kept, Start(p, v))
    && (forall t, d :: t in kept && d in p.Deps(t) ==>
      d in v.Busy() || d in p.guarded || (d in kept && p.Before(d, t)))
  }

  lemma SelectStep(p: Plan, v: Values, front: seq<TaskId>, t: TaskId, kept: set<TaskId>)
    requires Selected(p, v, front, kept)
    requires Admits(p, v, kept, t)
    requires t !in kept && t !in v.Busy() && kept !! v.Busy()
    requires forall u :: u in front ==> p.Before(u, t)
    ensures Selected(p, v, front + [t], kept + {t})
  {
    var pending := PendingGuarded(p, v) + (kept + {t});
    assert PendingGuarded(p, v) + kept + {t} == pending;
    assert Affords(p, v, kept + {t}) by {
      assert kept + {t} - {t} == kept;
      p.TotalPick(kept + {t}, t);
    }
    forall d | d in p.Deps(t)
      ensures d in v.Busy() || d in p.guarded || (d in kept && p.Before(d, t))
    {
      SerialDeps(p, v.Busy(), pending, Start(p, v), t);
    }
  }

  lemma {:induction false} SelectPlans(p: Plan, v: Values, order: seq<TaskId>)
    requires SerialFit(p, v.Busy(), PendingGuarded(p, v), Start(p, v))
    requires Affords(p, v, {})
    requires Descending(p, order)
    requires Elements(order) <= Candidates(p, v)
    ensures Selected(p, v, order, Select(p, v, order))
    decreases |order|
  {
    if order == [] {
      assert PendingGuarded(p, v) + {} == PendingGuarded(p, v);
    } else {
      var front, last := order[..|order| - 1], order[|order| - 1];
      PrefixDescending(p, order);
      assert front + [last] == order;
      SelectPlans(p, v, front);
      var kept := Select(p, v, front);
      if Admits(p, v, kept, last) {
        SelectStep(p, v, front, last, kept);
      }
    }
  }

  /** The shed cascade removes nothing: the greedy pass never keeps a task that waits for shed work. */
  lemma CascadeIsIdle(p: Plan, v: Values)
    requires Scoped(p) && Shaped(p, v) && p.guarded !! v.shed
    requires SerialFit(p, v.Busy(), PendingGuarded(p, v), Start(p, v)) && Affords(p, v, {})
    ensures var candidates := Candidates(p, v);
            var kept := Select(p, v, Sorted(p, candidates));
            && kept <= candidates
            && Selected(p, v, Sorted(p, candidates), kept)
            && Survivors(p, kept, v.shed + (candidates - kept)) == kept
  {
    var candidates := Candidates(p, v);
    var order := Sorted(p, candidates);
    SortedSorts(p, candidates);
    SelectPlans(p, v, order);
    var kept := Select(p, v, order);
    forall t | t in kept
      ensures p.Deps(t) !! v.shed + (candidates - kept)
    {
      SelectedAvoidsShed(p, v, order, kept, t);
    }
    SurvivorsAll(p, kept, v.shed + (candidates - kept));
  }

  lemma SelectedAvoidsShed(p: Plan, v: Values, order: seq<TaskId>, kept: set<TaskId>, t: TaskId)
    requires Shaped(p, v) && p.guarded !! v.shed
    requires Selected(p, v, order, kept) && kept <= Candidates(p, v) && t in kept
    ensures p.Deps(t) !! v.shed + (Candidates(p, v) - kept)
  {
  }

  lemma ReplannedSheds(p: Plan, v: Values)
    requires Scoped(p) && Shaped(p, v) && p.guarded !! v.shed
    requires SerialFit(p, v.Busy(), PendingGuarded(p, v), Start(p, v)) && Affords(p, v, {})
    ensures var r := Replanned(p, v);
            var candidates := Candidates(p, v);
            var kept := Select(p, v, Sorted(p, candidates));
            && kept <= candidates
            && Selected(p, v, Sorted(p, candidates), kept)
            && r.shed == v.shed + (candidates - kept)
            && r == v.(shed := r.shed, status := FinalStatus(p, v, r.shed))
  {
    CascadeIsIdle(p, v);
  }

  /** Shedding the rejected candidates leaves exactly the protected and the selected work. */
  lemma SheddingLeaves(p: Plan, v: Values, kept: set<TaskId>, r: Values)
    requires Scoped(p) && Shaped(p, v) && p.guarded !! v.shed
    requires kept <= Candidates(p, v)
    requires r == v.(shed := v.shed + (Candidates(p, v) - kept), status := r.status)
    ensures Shaped(p, r) && p.guarded !! r.shed
    ensures Remaining(p, r) == PendingGuarded(p, v) + kept
    ensures PendingGuarded(p, v) !! kept
  {
    RemainingSplit(p, v);
  }

  lemma SelectedIsPlanned(p: Plan, v: Values, order: seq<TaskId>, kept: set<TaskId>, r: Values)
    requires Scoped(p) && Shaped(p, v) && p.guarded !! v.shed && !InflightLate(p, v)
    requires kept <= Candidates(p, v) && Selected(p, v, order, kept)
    requires r == v.(shed := v.shed + (Candidates(p, v) - kept), status := r.status)
    ensures Shaped(p, r) && Planned(p, r)
  {
    SheddingLeaves(p, v, kept, r);
    assert r.Busy() == v.Busy() && Start(p, r) == Start(p, v) && r.Committed() == v.Committed();
    assert Ordered(p, r.Busy(), Remaining(p, r));
    var guarded := PendingGuarded(p, v);
    assert v.Committed().Add(p.Total(guarded + kept)).Fits(v.caps) by {
      p.TotalUnion(guarded, kept);
      AddLaws(v.Committed(), p.Total(guarded), p.Total(kept));
    }
  }

  /** Whatever replanning leaves is planned: it fits the caps and every deadline. */
  lemma ReplannedIsPlanned(p: Plan, v: Values)
    requires Scoped(p) && Shaped(p, v) && p.guarded !! v.shed && !InflightLate(p, v)
    requires SerialFit(p, v.Busy(), PendingGuarded(p, v), Start(p, v)) && Affords(p, v, {})
    ensures var r := Replanned(p, v);
            && Shaped(p, r) && Planned(p, r)
            && v.shed <= r.shed
            && r == v.(shed := r.shed, status := FinalStatus(p, v, r.shed))
  {
    var r := Replanned(p, v);
    var kept := Select(p, v, Sorted(p, Candidates(p, v)));
    ReplannedSheds(p, v);
    SelectedIsPlanned(p, v, Sorted(p, Candidates(p, v)), kept, r);
  }

  ghost predicate Refuses(p: Plan, v: Values) {
    || p.guarded * v.shed != {}
    || (v.now > p.envelope.deadline && !(p.guarded <= v.completed))
    || InflightLate(p, v)
    || !SerialFit(p, v.Busy(), PendingGuarded(p, v), Start(p, v))
    || !Affords(p, v, {})
  }

  lemma RefusedIsSound(p: Plan, v: Values)
    requires Scoped(p) && Shaped(p, v) && v.status != Cancelled && Refuses(p, v)
    ensures var r := Reconciled(p, v);
            && r == v.(shed := r.shed, status := Refused)
            && v.shed <= r.shed <= p.byId.Keys
            && r.shed !! v.completed
            && (p.guarded !! v.shed ==> p.guarded !! r.shed)
  {
  }

  /** Reconciliation changes only the shed set and the status, and leaves running only what is on plan. */
  lemma ReconciledIsSound(p: Plan, v: Values)
    requires Scoped(p) && Shaped(p, v) && v.status != Cancelled
    ensures var r := Reconciled(p, v);
            && r == v.(shed := r.shed, status := r.status)
            && v.shed <= r.shed <= p.byId.Keys
            && r.shed !! v.completed
            && (p.guarded !! v.shed ==> p.guarded !! r.shed)
            && (r.status == Running || r.status == Refused || r.status == Completed)
            && (r.status == Running ==> v.status != Refused && OnPlan(p, r))
            && (r.status == Completed ==>
              Shaped(p, r) && Planned(p, r) && r.inflight.None? && Remaining(p, r) == {} && p.guarded <= r.completed)
  {
    if Refuses(p, v) {
      RefusedIsSound(p, v);
    } else {
      var r := Replanned(p, v);
      assert Reconciled(p, v) == r;
      ReplannedIsPlanned(p, v);
      if r.inflight.None? {
        GuardedAndRemaining(p, r);
      }
    }
  }

  lemma GuardedAndRemaining(p: Plan, v: Values)
    requires Scoped(p) && Shaped(p, v) && p.guarded !! v.shed && v.inflight.None?
    ensures Remaining(p, v) == {} <==> p.byId.Keys <= v.completed + v.shed && p.guarded <= v.completed
  {
    if Remaining(p, v) == {} {
      forall t | t in p.byId.Keys
        ensures t in v.completed + v.shed
      {
        assert t !in Remaining(p, v);
      }
    }
  }
}
