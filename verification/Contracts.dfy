/** Integer resource usage in three dimensions, and the typed contracts of a run. */
module Contracts {
  datatype Option<+T> = None | Some(value: T)

  /** Tokens, micro-dollars and context bytes. */
  datatype Usage = Usage(tokens: nat, cost: nat, context: nat) {

    function Add(other: Usage): Usage {
      Usage(tokens + other.tokens, cost + other.cost, context + other.context)
    }

    predicate Fits(cap: Usage) {
      tokens <= cap.tokens && cost <= cap.cost && context <= cap.context
    }

    /** What is left of a cap; the source raises when the result would be negative. */
    function LeftOf(cap: Usage): Usage
      requires Fits(cap)
    {
      Usage(cap.tokens - tokens, cap.cost - cost, cap.context - context)
    }
  }

  lemma LeftFits(used: Usage, cap: Usage, more: Usage)
    requires used.Fits(cap)
    ensures more.Fits(used.LeftOf(cap)) <==> used.Add(more).Fits(cap)
  {
  }

  const ZERO := Usage(0, 0, 0)

  lemma AddLaws(a: Usage, b: Usage, c: Usage)
    ensures a.Add(b) == b.Add(a)
    ensures a.Add(b).Add(c) == a.Add(b.Add(c))
    ensures a.Add(ZERO) == a
  {
  }

  /** Only the equality and the total order of task identifiers matter. */
  type TaskId = nat

  datatype Profile = Profile(name: string, provider: string, p50: nat, p95: nat, usage: Usage)

  datatype Task = Task(
    id: TaskId,
    dependencies: seq<TaskId>,
    optional: bool,
    value: real,
    deadline: Option<nat>)

  datatype Envelope = Envelope(
    deadline: nat,
    caps: Usage,
    maxParallelism: nat,
    providerLimits: map<string, nat>)
  {
    function ProviderLimit(provider: string): nat {
      if provider in providerLimits then providerLimits[provider] else maxParallelism
    }
  }

  /** The set of the elements of a sequence of task identifiers. */
  function Elements(s: seq<TaskId>): set<TaskId> {
    set t | t in s
  }

  ghost predicate Distinct(order: seq<TaskId>) {
    forall i, j :: 0 <= i < j < |order| ==> order[i] != order[j]
  }

  lemma {:induction false} DistinctSize(s: seq<TaskId>)
    requires Distinct(s)
    ensures |Elements(s)| == |s|
  {
    if s == [] {
      assert Elements(s) == {};
    } else {
      var front, last := s[..|s| - 1], s[|s| - 1];
      DistinctSize(front);
      assert last !in front;
      assert Elements(s) == Elements(front) + {last};
    }
  }

  ghost function Any(s: set<TaskId>): (t: TaskId)
    requires s != {}
    ensures t in s
  {
    var t :| t in s;
    t
  }

  lemma SplitLast<T>(s: seq<T>)
    requires s != []
    ensures s == s[..|s| - 1] + [s[|s| - 1]]
  {
  }
}
