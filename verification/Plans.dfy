/** The admitted plan of one run: the graph, the envelope and the scheduler's choice of profiles. */
module Plans {
  import opened Contracts

  /** What the controller model holds after its constructor: `byId` indexes `tasks`. */
  datatype Plan = Plan(
    tasks: seq<Task>,
    byId: map<TaskId, Task>,
    envelope: Envelope,
    admitted: map<TaskId, Profile>,
    skipped: set<TaskId>,
    guarded: set<TaskId>)
  {
    // The accessors are total; on identifiers outside the plan, which no caller uses, they
    // return a neutral value.

    function Deps(t: TaskId): set<TaskId> {
      if t in byId then Elements(byId[t].dependencies) else {}
    }

    function Worth(t: TaskId): real {
      if t in byId then byId[t].value else 0.0
    }

    function P95(t: TaskId): nat {
      if t in admitted then admitted[t].p95 else 0
    }

    function Need(t: TaskId): Usage {
      if t in admitted then admitted[t].usage else ZERO
    }

    /** A missing or zero task deadline falls back to the deadline of the run. */
    function DeadlineOf(t: TaskId): nat {
      if t in byId then Deadline(byId[t]) else envelope.deadline
    }

    function Deadline(task: Task): (d: nat)
      ensures d <= envelope.deadline && (d == envelope.deadline || task.deadline == Some(d))
      ensures task.deadline.Some? && task.deadline.value != 0 ==> d <= task.deadline.value
      ensures task.deadline == Some(0) ==> d == envelope.deadline
    {
      match task.deadline
      case Some(d) => if d != 0 && d <= envelope.deadline then d else envelope.deadline
      case None => envelope.deadline
    }

    /** The dispatch order: higher value first, then smaller identifier. */
    predicate Before(a: TaskId, b: TaskId) {
      Worth(a) > Worth(b) || (Worth(a) == Worth(b) && a < b)
    }

    /** The first task of a nonempty set in dispatch order. */
    ghost function Best(s: set<TaskId>): (t: TaskId)
      requires s != {}
      ensures t in s
      ensures forall u :: u in s && u != t ==> Before(t, u)
    {
      BestExists(s);
      var t :| t in s && forall u :: u in s && u != t ==> Before(t, u);
      t
    }

    lemma BestExists(s: set<TaskId>)
      requires s != {}
      ensures exists t :: t in s && forall u :: u in s && u != t ==> Before(t, u)
    {
      var x := Any(s);
      var rest := s - {x};
      if rest == {} {
        assert s == {x};
      } else {
        BestExists(rest);
        var y :| y in rest && forall u :: u in rest && u != y ==> Before(y, u);
        var t := if Before(x, y) then x else y;
        forall u | u in s && u != t
          ensures Before(t, u)
        {
          if u != x && u != y {
            assert Before(y, u);
          }
        }
      }
    }

    lemma BestIs(s: set<TaskId>, t: TaskId)
      requires t in s
      requires forall u :: u in s && u != t ==> Before(t, u)
      ensures Best(s) == t
    {
    }

    /** The summed p95 reservations of a set of tasks. */
    ghost function Total(s: set<TaskId>): Usage {
      if s == {} then ZERO else Total(s - {Any(s)}).Add(Need(Any(s)))
    }

    lemma TotalEmpty()
      ensures Total({}) == ZERO
    {
    }

    lemma {:induction false} TotalPick(s: set<TaskId>, x: TaskId)
      requires x in s
      ensures Total(s) == Total(s - {x}).Add(Need(x))
      decreases s
    {
      var y := Any(s);
      if y != x {
        TotalPick(s - {y}, x);
        TotalPick(s - {x}, y);
        assert s - {y} - {x} == s - {x} - {y};
      }
    }

    lemma TotalInsert(s: set<TaskId>, x: TaskId)
      requires x !in s
      ensures Total(s + {x}) == Total(s).Add(Need(x))
    {
      TotalPick(s + {x}, x);
      assert s + {x} - {x} == s;
    }

    lemma {:induction false} TotalUnion(a: set<TaskId>, b: set<TaskId>)
      requires a !! b
      ensures Total(a + b) == Total(a).Add(Total(b))
      decreases b
    {
      if b == {} {
        assert a + b == a;
        AddLaws(Total(a), ZERO, ZERO);
      } else {
        var x := Any(b);
        var c := b - {x};
        assert Total(a + b) == Total(a + c).Add(Need(x)) by {
          TotalPick(a + b, x);
          assert a + b - {x} == a + c;
        }
        assert Total(b) == Total(c).Add(Need(x));
        TotalUnion(a, c);
        AddLaws(Total(a), Total(c), Need(x));
      }
    }

    lemma TotalMonotone(a: set<TaskId>, b: set<TaskId>)
      requires a <= b
      ensures Total(a).Fits(Total(b))
    {
      TotalUnion(a, b - a);
      assert a + (b - a) == b;
    }

    /** Sets closed under dependencies that hold every mandatory task. */
    ghost predicate Guard(c: set<TaskId>) {
      && (forall t :: t in byId && !byId[t].optional ==> t in c)
      && (forall t :: t in c && t in byId ==> Deps(t) <= c)
    }

    /** `graph.validate`: unique identifiers and known dependencies. */
    ghost predicate ValidGraph() {
      && (forall i :: 0 <= i < |tasks| ==> tasks[i].id in byId && byId[tasks[i].id] == tasks[i])
      && (forall t :: t in byId ==> byId[t].id == t && byId[t] in tasks)
      && (forall t :: t in byId ==> Deps(t) <= byId.Keys)
    }

    /** The protected set is the least guard: mandatory tasks and all their ancestors. */
    ghost predicate ValidGuard() {
      && guarded <= byId.Keys
      && Guard(guarded)
      && (forall c :: Guard(c) ==> guarded <= c)
    }

    /** What the scheduler promises about its selection. */
    ghost predicate ValidSelection() {
      && skipped <= byId.Keys
      && skipped !! guarded
      && admitted.Keys == byId.Keys - skipped
      && (forall t :: t in admitted ==>
        admitted[t].p50 <= admitted[t].p95 && admitted[t].name != "" && admitted[t].provider != "")
      && Total(admitted.Keys).Fits(envelope.caps)
    }
  }
}
