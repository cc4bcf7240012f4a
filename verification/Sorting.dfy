/** Sorted sequences of identifiers. */
module Sorting {
  predicate Ascending(s: seq<nat>) {
    forall i, j :: 0 <= i < j < |s| ==> s[i] < s[j]
  }

  lemma {:induction false} LeastExists(s: set<nat>)
    requires s != {}
    ensures exists m :: IsLeast(m, s)
  {
    var x :| x in s;
    var rest := s - {x};
    if rest != {} {
      LeastExists(rest);
      var m :| IsLeast(m, rest);
      LeastOfTwo(s, x, m);
    } else {
      assert s == {x};
      assert IsLeast(x, s);
    }
  }

  lemma LeastOfTwo(s: set<nat>, x: nat, m: nat)
    requires x in s && IsLeast(m, s - {x})
    ensures IsLeast(if m <= x then m else x, s)
  {
    forall y | y in s
      ensures m <= y || x == y
    {
      assert y == x || y in s - {x};
    }
  }

  ghost predicate IsLeast(m: nat, s: set<nat>) {
    m in s && forall x :: x in s ==> m <= x
  }

  function Least(s: set<nat>): (m: nat)
    requires s != {}
    ensures m in s && forall x :: x in s ==> m <= x
  {
    LeastExists(s);
    var m :| m in s && forall x :: x in s ==> m <= x;
    m
  }

  function Sorted(s: set<nat>): (r: seq<nat>)
    ensures Ascending(r) && forall x :: x in r <==> x in s
    decreases |s|
  {
    if s == {} then [] else
    var m := Least(s);
    [m] + Sorted(s - {m})
  }

  lemma FirstIsLeast(s: seq<nat>, elements: set<nat>)
    requires Ascending(s) && s != [] && forall x :: x in s <==> x in elements
    ensures s[0] in elements && Least(elements) == s[0]
    ensures forall x :: x in s[1..] <==> x in elements - {s[0]}
  {
    assert s[0] in s && Least(elements) in s;
    forall x
      ensures x in s[1..] <==> x in elements - {s[0]}
    {
      assert x in s <==> x == s[0] || x in s[1..];
      if x in s[1..] {
        var i :| 0 <= i < |s[1..]| && s[1..][i] == x;
        assert s[i + 1] == x && s[0] < s[i + 1];
      }
    }
  }

  lemma SortedUnfolds(elements: set<nat>)
    requires elements != {}
    ensures Sorted(elements) == [Least(elements)] + Sorted(elements - {Least(elements)})
  {
  }

  lemma {:induction false} AscendingIsSorted(s: seq<nat>, elements: set<nat>)
    requires Ascending(s) && forall x :: x in s <==> x in elements
    ensures s == Sorted(elements)
    decreases |s|
  {
    if s == [] {
      assert elements == {};
    } else {
      FirstIsLeast(s, elements);
      AscendingIsSorted(s[1..], elements - {s[0]});
      SortedUnfolds(elements);
      assert s == [s[0]] + s[1..];
    }
  }

  /** Sorted with repetitions. */
  predicate Rising(s: seq<nat>) {
    forall i, j :: 0 <= i < j < |s| ==> s[i] <= s[j]
  }

  function InsertSorted(x: nat, s: seq<nat>): (r: seq<nat>)
    ensures multiset(r) == multiset(s) + multiset{x}
  {
    if s == [] || x <= s[0] then [x] + s else
    assert s == [s[0]] + s[1..];
    [s[0]] + InsertSorted(x, s[1..])
  }

  /** The sort of a list that may repeat an element. */
  function SortList(s: seq<nat>): (r: seq<nat>)
    ensures multiset(r) == multiset(s)
  {
    if s == [] then [] else
    assert s == [s[0]] + s[1..];
    InsertSorted(s[0], SortList(s[1..]))
  }

  lemma {:induction false} InsertRises(x: nat, s: seq<nat>)
    requires Rising(s)
    ensures Rising(InsertSorted(x, s))
  {
    if s == [] || x <= s[0] {
      assert forall y :: y in s ==> s[0] <= y;
      RisingCons(x, s);
    } else {
      var rest := InsertSorted(x, s[1..]);
      InsertRises(x, s[1..]);
      forall y | y in rest
        ensures s[0] <= y
      {
        assert y in multiset(rest);
        assert y == x || y in s[1..];
      }
      RisingCons(s[0], rest);
    }
  }

  lemma RisingCons(x: nat, s: seq<nat>)
    requires Rising(s) && forall y :: y in s ==> x <= y
    ensures Rising([x] + s)
  {
    forall i, j | 0 <= i < j < |s| + 1
      ensures ([x] + s)[i] <= ([x] + s)[j]
    {
      assert ([x] + s)[j] == s[j - 1] && s[j - 1] in s;
      if i > 0 {
        assert ([x] + s)[i] == s[i - 1];
      }
    }
  }

  lemma {:induction false} SortRises(s: seq<nat>)
    ensures Rising(SortList(s))
  {
    if s == [] {
      assert SortList(s) == [];
    } else {
      SortRises(s[1..]);
      InsertRises(s[0], SortList(s[1..]));
    }
  }
}
