/** The greedy choice of optional evidence by value density, and what it guarantees. */
module Knapsack {
  import opened Contracts
  import opened Evidence

  datatype Kind = ArtifactKind | ClaimKind

  function Max(a: int, b: int): int {
    if a >= b then a else b
  }

  /** A framed block; its digest and identifier are those of the whole value. */
  datatype Block = Block(kind: Kind, ref: Ref, byteSize: Size)
  {
    /** One token per byte. */
    function TokenSize(): Size {
      Max(1, byteSize)
    }

    function Footprint(): Size {
      Max(1, byteSize + 4 * TokenSize())
    }
  }

  datatype Budget = Budget(maxBytes: nat, maxTokens: nat)

  datatype Candidate = Candidate(value: nat, block: Block)

  // ---------------------------------------------------------------- the order of candidates

  /** Cross-multiplied comparison of the exact fractions value / footprint. */
  function Denser(a: Candidate, b: Candidate): int {
    a.value * b.block.Footprint() - b.value * a.block.Footprint()
  }

  /** The sort key: density, value, then the smaller block and the smaller reference. */
  predicate Precedes(a: Candidate, b: Candidate) {
    if Denser(a, b) != 0 then Denser(a, b) > 0
    else if a.value != b.value then a.value > b.value
    else if a.block.byteSize != b.block.byteSize then a.block.byteSize < b.block.byteSize
    else if a.block.TokenSize() != b.block.TokenSize() then a.block.TokenSize() < b.block.TokenSize()
    else a.block.ref <= b.block.ref
  }

  function Insert(c: Candidate, s: seq<Candidate>): seq<Candidate> {
    if s == [] || Precedes(c, s[0]) then [c] + s else [s[0]] + Insert(c, s[1..])
  }

  /** The sort of the candidates. */
  function Ranked(s: seq<Candidate>): seq<Candidate> {
    if s == [] then [] else Insert(s[0], Ranked(s[1..]))
  }

  lemma {:induction false} InsertIsPermutation(c: Candidate, s: seq<Candidate>)
    ensures multiset(Insert(c, s)) == multiset(s) + multiset{c}
  {
    if s == [] || Precedes(c, s[0]) {
    } else {
      assert s == [s[0]] + s[1..];
      InsertIsPermutation(c, s[1..]);
    }
  }

  lemma {:induction false} RankedIsPermutation(s: seq<Candidate>)
    ensures multiset(Ranked(s)) == multiset(s)
  {
    if s != [] {
      RankedIsPermutation(s[1..]);
      InsertIsPermutation(s[0], Ranked(s[1..]));
      assert s == [s[0]] + s[1..];
    }
  }

  /** Density never rises along the sequence. */
  ghost predicate Declining(s: seq<Candidate>) {
    forall i, j :: 0 <= i < j < |s| ==> Denser(s[i], s[j]) >= 0
  }

  lemma DenserIsTransitive(a: Candidate, b: Candidate, c: Candidate)
    requires Denser(a, b) >= 0 && Denser(b, c) >= 0
    ensures Denser(a, c) >= 0
  {
    var fa, fb, fc := a.block.Footprint(), b.block.Footprint(), c.block.Footprint();
    ScaleUp(a.value * fb, b.value * fa, fc);
    ScaleUp(b.value * fc, c.value * fb, fa);
    assert a.value * fb * fc >= c.value * fb * fa by {
      assert b.value * fa * fc == b.value * fc * fa;
    }
    assert (a.value * fc) * fb >= (c.value * fa) * fb by {
      assert a.value * fb * fc == (a.value * fc) * fb;
      assert c.value * fb * fa == (c.value * fa) * fb;
    }
    if a.value * fc < c.value * fa {
      StrictScaleUp(c.value * fa, a.value * fc, fb);
    }
  }

  lemma ScaleUp(x: int, y: int, f: int)
    requires x >= y && f >= 0
    ensures x * f >= y * f
  {
  }

  lemma StrictScaleUp(x: int, y: int, f: int)
    requires x > y && f > 0
    ensures x * f > y * f
  {
  }

  lemma {:induction false} InsertDeclines(c: Candidate, s: seq<Candidate>)
    requires Declining(s)
    ensures Declining(Insert(c, s))
  {
    if s == [] {
    } else if Precedes(c, s[0]) {
      assert Denser(c, s[0]) >= 0;
      forall j | 0 <= j < |s|
        ensures Denser(c, s[j]) >= 0
      {
        if j > 0 { DenserIsTransitive(c, s[0], s[j]); }
      }
    } else {
      var rest := Insert(c, s[1..]);
      InsertDeclines(c, s[1..]);
      InsertIsPermutation(c, s[1..]);
      forall j | 0 <= j < |rest|
        ensures Denser(s[0], rest[j]) >= 0
      {
        assert rest[j] in multiset(rest);
        assert rest[j] == c || rest[j] in s[1..];
        if rest[j] != c {
          var k :| 0 <= k < |s[1..]| && s[1..][k] == rest[j];
          assert s[k + 1] == rest[j];
        }
      }
    }
  }

  lemma {:induction false} RankedDeclines(s: seq<Candidate>)
    ensures Declining(Ranked(s))
  {
    if s != [] {
      RankedDeclines(s[1..]);
      InsertDeclines(s[0], Ranked(s[1..]));
    }
  }

  /** Each candidate comes before the next by the whole sort key. */
  ghost predicate ByKey(s: seq<Candidate>) {
    forall i :: 0 < i < |s| ==> Precedes(s[i - 1], s[i])
  }

  lemma PrecedesIsTotal(a: Candidate, b: Candidate)
    ensures Precedes(a, b) || Precedes(b, a)
  {
    assert Denser(b, a) == -Denser(a, b);
  }

  lemma {:induction false} InsertByKey(c: Candidate, s: seq<Candidate>)
    requires ByKey(s)
    ensures ByKey(Insert(c, s))
  {
    if s == [] || Precedes(c, s[0]) {
    } else {
      PrecedesIsTotal(c, s[0]);
      var rest := Insert(c, s[1..]);
      assert forall i :: 0 < i < |s[1..]| ==> s[1..][i - 1] == s[i] && s[1..][i] == s[i + 1];
      InsertByKey(c, s[1..]);
      assert rest[0] == c || rest[0] == s[1];
      forall i | 0 < i < |rest| + 1
        ensures Precedes(([s[0]] + rest)[i - 1], ([s[0]] + rest)[i])
      {
        if i > 1 {
          assert ([s[0]] + rest)[i - 1] == rest[i - 2] && ([s[0]] + rest)[i] == rest[i - 1];
        }
      }
    }
  }

  lemma {:induction false} RankedByKey(s: seq<Candidate>)
    ensures ByKey(Ranked(s))
  {
    if s != [] {
      RankedByKey(s[1..]);
      InsertByKey(s[0], Ranked(s[1..]));
    }
  }

  // ---------------------------------------------------------------- the greedy pass

  /** What is used so far. */
  datatype Level = Level(bytes: nat, tokens: nat)
  {
    predicate Takes(b: Block, budget: Budget) {
      bytes + b.byteSize <= budget.maxBytes && tokens + b.TokenSize() <= budget.maxTokens
    }

    function With(b: Block): Level {
      Level(bytes + b.byteSize, tokens + b.TokenSize())
    }
  }

  datatype Selection = Selection(chosen: seq<Candidate>, rejected: seq<Candidate>, level: Level)

  /** Take each candidate, in order, that still fits. */
  function Filled(s: seq<Candidate>, level: Level, budget: Budget): Selection {
    if s == [] then Selection([], [], level) else
    var front, last := Filled(s[..|s| - 1], level, budget), s[|s| - 1];
    if front.level.Takes(last.block, budget)
    then front.(chosen := front.chosen + [last], level := front.level.With(last.block))
    else front.(rejected := front.rejected + [last])
  }

  function Value(s: seq<Candidate>): nat {
    if s == [] then 0 else Value(s[..|s| - 1]) + s[|s| - 1].value
  }

  function Bytes(s: seq<Candidate>): nat {
    if s == [] then 0 else Bytes(s[..|s| - 1]) + s[|s| - 1].block.byteSize
  }

  lemma ValueAppend(s: seq<Candidate>, c: Candidate)
    ensures Value(s + [c]) == Value(s) + c.value && Bytes(s + [c]) == Bytes(s) + c.block.byteSize
  {
    assert (s + [c])[..|s|] == s;
  }

  lemma FilledUnfolds(s: seq<Candidate>, level: Level, budget: Budget)
    requires s != []
    ensures var front, last := Filled(s[..|s| - 1], level, budget), s[|s| - 1];
      Filled(s, level, budget) ==
        if front.level.Takes(last.block, budget)
        then front.(chosen := front.chosen + [last], level := front.level.With(last.block))
        else front.(rejected := front.rejected + [last])
  {
  }

  /** Both meters move together. */
  ghost predicate Metered(r: Selection, level: Level) {
    r.level.bytes == level.bytes + Bytes(r.chosen) && r.level.tokens == level.tokens + Bytes(r.chosen)
  }

  lemma MeterStep(front: Selection, last: Candidate, level: Level)
    requires Metered(front, level)
    ensures Metered(front.(chosen := front.chosen + [last], level := front.level.With(last.block)), level)
  {
    ValueAppend(front.chosen, last);
    assert last.block.TokenSize() == last.block.byteSize;
  }

  /** Both meters move together. */
  lemma {:induction false} FilledMeters(s: seq<Candidate>, level: Level, budget: Budget)
    ensures Metered(Filled(s, level, budget), level)
  {
    if s != [] {
      FilledMeters(s[..|s| - 1], level, budget);
      MeterStep(Filled(s[..|s| - 1], level, budget), s[|s| - 1], level);
      FilledUnfolds(s, level, budget);
    }
  }

  lemma MultisetAppend(s: seq<Candidate>, c: Candidate)
    ensures multiset(s + [c]) == multiset(s) + multiset{c}
  {
  }

  lemma {:induction false} FilledIsPermutation(s: seq<Candidate>, level: Level, budget: Budget)
    ensures var r := Filled(s, level, budget); multiset(r.chosen) + multiset(r.rejected) == multiset(s)
  {
    if s != [] {
      var front, last := Filled(s[..|s| - 1], level, budget), s[|s| - 1];
      FilledIsPermutation(s[..|s| - 1], level, budget);
      FilledUnfolds(s, level, budget);
      MultisetAppend(front.chosen, last);
      MultisetAppend(front.rejected, last);
      MultisetAppend(s[..|s| - 1], last);
      SplitLast(s);
    }
  }

  lemma {:induction false} FilledSplits(s: seq<Candidate>, level: Level, budget: Budget)
    ensures var r := Filled(s, level, budget); Value(r.chosen) + Value(r.rejected) == Value(s)
  {
    if s != [] {
      var front, last := Filled(s[..|s| - 1], level, budget), s[|s| - 1];
      FilledSplits(s[..|s| - 1], level, budget);
      FilledUnfolds(s, level, budget);
      ValueAppend(front.chosen, last);
      ValueAppend(front.rejected, last);
    }
  }

  /** The result stays within a budget that held before. */
  lemma {:induction false} FilledFits(s: seq<Candidate>, level: Level, budget: Budget)
    requires level.bytes <= budget.maxBytes && level.tokens <= budget.maxTokens
    ensures var r := Filled(s, level, budget); r.level.bytes <= budget.maxBytes && r.level.tokens <= budget.maxTokens
  {
    if s != [] {
      FilledFits(s[..|s| - 1], level, budget);
      FilledUnfolds(s, level, budget);
    }
  }

  /** At the end no rejected candidate would still fit. */
  lemma {:induction false} NothingLeftFits(s: seq<Candidate>, level: Level, budget: Budget, c: Candidate)
    requires c in Filled(s, level, budget).rejected
    ensures !Filled(s, level, budget).level.Takes(c.block, budget)
  {
    var front, last := Filled(s[..|s| - 1], level, budget), s[|s| - 1];
    if c in front.rejected {
      NothingLeftFits(s[..|s| - 1], level, budget, c);
    }
  }

  // ---------------------------------------------------------------- the bound

  /** The candidates whose reference is in a set. */
  ghost function Within(s: seq<Candidate>, refs: set<Ref>): seq<Candidate> {
    if s == [] then [] else
    var front, last := Within(s[..|s| - 1], refs), s[|s| - 1];
    if last.block.ref in refs then front + [last] else front
  }

  /** Value gained over what the same bytes are worth at the density of `c`. */
  ghost function Gain(s: seq<Candidate>, c: Candidate): int {
    Value(s) * c.block.byteSize - c.value * Bytes(s)
  }

  lemma GainAppend(s: seq<Candidate>, x: Candidate, c: Candidate)
    ensures Gain(s + [x], c) == Gain(s, c) + x.value * c.block.byteSize - c.value * x.block.byteSize
  {
    ValueAppend(s, x);
    Distribute(Value(s), x.value, c.block.byteSize);
    Distribute(Bytes(s), x.block.byteSize, c.value);
  }

  lemma Distribute(x: int, y: int, f: int)
    ensures (x + y) * f == x * f + y * f && f * (x + y) == f * x + f * y
  {
  }

  /** A footprint is five times the byte size, so density per byte orders like density per footprint. */
  lemma DenserPerByte(a: Candidate, b: Candidate)
    ensures Denser(a, b) == 5 * (a.value * b.block.byteSize - b.value * a.block.byteSize)
  {
    assert a.block.Footprint() == 5 * a.block.byteSize && b.block.Footprint() == 5 * b.block.byteSize;
    Five(a.value, b.block.byteSize);
    Five(b.value, a.block.byteSize);
  }

  lemma Five(x: int, y: int)
    ensures x * (5 * y) == 5 * (x * y)
  {
  }

  /** Up to `c` every candidate gains, so taking all of them gains at least as much as any selection. */
  lemma {:induction false} PrefixGainsMost(s: seq<Candidate>, refs: set<Ref>, c: Candidate)
    requires forall i :: 0 <= i < |s| ==> Denser(s[i], c) >= 0
    ensures Gain(Within(s, refs), c) <= Gain(s, c)
  {
    if s != [] {
      var front, last := s[..|s| - 1], s[|s| - 1];
      PrefixGainsMost(front, refs, c);
      assert s == front + [last];
      DenserPerByte(last, c);
      GainAppend(front, last, c);
      GainAppend(Within(front, refs), last, c);
    }
  }

  /** From `c` on no candidate gains. */
  lemma {:induction false} SuffixGainsNothing(s: seq<Candidate>, k: nat, refs: set<Ref>, c: Candidate)
    requires k <= |s| && forall i :: k <= i < |s| ==> Denser(c, s[i]) >= 0
    ensures Gain(Within(s, refs), c) <= Gain(Within(s[..k], refs), c)
  {
    if k == |s| {
      assert s[..k] == s;
    } else {
      var front, last := s[..|s| - 1], s[|s| - 1];
      SuffixGainsNothing(front, k, refs, c);
      assert front[..k] == s[..k];
      DenserPerByte(c, last);
      GainAppend(Within(front, refs), last, c);
    }
  }

  /** The first rejected candidate: everything before it is taken. */
  lemma {:induction false} FirstRejected(s: seq<Candidate>, level: Level, budget: Budget) returns (k: nat)
    requires Filled(s, level, budget).rejected != []
    ensures k < |s| && s[k] == Filled(s, level, budget).rejected[0]
    ensures Filled(s[..k], level, budget).rejected == []
    ensures !Filled(s[..k], level, budget).level.Takes(s[k].block, budget)
    ensures Filled(s[..k], level, budget).chosen <= Filled(s, level, budget).chosen
  {
    var front := s[..|s| - 1];
    FilledUnfolds(s, level, budget);
    if Filled(front, level, budget).rejected == [] {
      k := |s| - 1;
    } else {
      k := FirstRejected(front, level, budget);
      assert front[..k] == s[..k];
    }
  }

  lemma {:induction false} AllTaken(s: seq<Candidate>, level: Level, budget: Budget)
    requires Filled(s, level, budget).rejected == []
    ensures Filled(s, level, budget).chosen == s
  {
    if s != [] {
      FilledUnfolds(s, level, budget);
      AllTaken(s[..|s| - 1], level, budget);
      SplitLast(s);
    }
  }

  lemma {:induction false} PrefixIsWorthLess(a: seq<Candidate>, b: seq<Candidate>)
    requires a <= b
    ensures Value(a) <= Value(b)
  {
    if |a| < |b| {
      assert a <= b[..|b| - 1];
      PrefixIsWorthLess(a, b[..|b| - 1]);
    } else {
      assert a == b;
    }
  }

  lemma {:induction false} WithinIsWorthLess(s: seq<Candidate>, refs: set<Ref>)
    ensures Value(Within(s, refs)) <= Value(s)
  {
    if s != [] {
      WithinIsWorthLess(s[..|s| - 1], refs);
      ValueAppend(Within(s[..|s| - 1], refs), s[|s| - 1]);
    }
  }

  /** Scaled inequality to plain bound. */
  lemma BoundFromGain(v: int, bytes: int, prefix: int, used: int, room: int, size: int, value: int)
    requires v * size - value * bytes <= prefix * size - value * used
    requires bytes <= room < used + size && size >= 1 && value >= 0
    ensures v <= prefix + value
  {
    assert value * (bytes - used) <= value * size;
    assert value * bytes - value * used == value * (bytes - used);
    assert v * size <= (prefix + value) * size by {
      Distribute(prefix, value, size);
    }
    if v > prefix + value {
      StrictScaleUp(v, prefix + value, size);
    }
  }

  ghost function Room(level: Level, budget: Budget): int {
    if budget.maxBytes - level.bytes <= budget.maxTokens - level.tokens
    then budget.maxBytes - level.bytes else budget.maxTokens - level.tokens
  }

  /**
   * Any selection of the candidates that fits the free space is worth at most what the greedy pass
   * takes, plus the value of the first candidate it had to reject.
   */
  lemma GreedyBound(s: seq<Candidate>, level: Level, budget: Budget, refs: set<Ref>)
    requires Declining(s) && Bytes(Within(s, refs)) <= Room(level, budget)
    ensures var r := Filled(s, level, budget);
      Value(Within(s, refs)) <= Value(r.chosen) + if r.rejected == [] then 0 else r.rejected[0].value
  {
    var r := Filled(s, level, budget);
    if r.rejected == [] {
      AllTaken(s, level, budget);
      WithinIsWorthLess(s, refs);
    } else {
      var k := FirstRejected(s, level, budget);
      var c, prefix := s[k], s[..k];
      FilledMeters(prefix, level, budget);
      AllTaken(prefix, level, budget);
      forall i | 0 <= i < |prefix|
        ensures Denser(prefix[i], c) >= 0
      {
        assert prefix[i] == s[i];
      }
      PrefixGainsMost(prefix, refs, c);
      SelfIsNeutral(c);
      SuffixGainsNothing(s, k, refs, c);
      BoundFromGain(Value(Within(s, refs)), Bytes(Within(s, refs)), Value(prefix), Bytes(prefix),
        Room(level, budget), c.block.byteSize, c.value);
      PrefixIsWorthLess(prefix, r.chosen);
    }
  }

  lemma SelfIsNeutral(c: Candidate)
    ensures Denser(c, c) == 0
  {
  }

  // ---------------------------------------------------------------- sums do not depend on the order

  lemma {:induction false} ValueCons(x: Candidate, s: seq<Candidate>)
    ensures Value([x] + s) == x.value + Value(s) && Bytes([x] + s) == x.block.byteSize + Bytes(s)
  {
    if s == [] {
      assert [x] + s == [x] && [x][..0] == [];
    } else {
      var front, last := s[..|s| - 1], s[|s| - 1];
      ValueCons(x, front);
      assert [x] + s == ([x] + front) + [last];
      ValueAppend([x] + front, last);
    }
  }

  lemma {:induction false} WithinCons(x: Candidate, s: seq<Candidate>, refs: set<Ref>)
    ensures Within([x] + s, refs) == (if x.block.ref in refs then [x] else []) + Within(s, refs)
  {
    if s == [] {
      assert [x] + s == [x] && [x][..0] == [];
    } else {
      var front, last := s[..|s| - 1], s[|s| - 1];
      WithinCons(x, front, refs);
      assert [x] + s == ([x] + front) + [last];
      assert (([x] + front) + [last])[..|s|] == [x] + front;
    }
  }

  /** What a set of references is worth and weighs in a sequence of candidates. */
  ghost predicate SameWithin(a: seq<Candidate>, b: seq<Candidate>, refs: set<Ref>) {
    Value(Within(a, refs)) == Value(Within(b, refs)) && Bytes(Within(a, refs)) == Bytes(Within(b, refs))
  }

  lemma ConsSameWithin(x: Candidate, a: seq<Candidate>, b: seq<Candidate>, refs: set<Ref>)
    requires SameWithin(a, b, refs)
    ensures SameWithin([x] + a, [x] + b, refs)
  {
    WithinValueCons(x, a, refs);
    WithinValueCons(x, b, refs);
  }

  lemma SwapSameWithin(x: Candidate, y: Candidate, s: seq<Candidate>, refs: set<Ref>)
    ensures SameWithin([x] + ([y] + s), [y] + ([x] + s), refs)
  {
    WithinValueCons(x, [y] + s, refs);
    WithinValueCons(y, s, refs);
    WithinValueCons(y, [x] + s, refs);
    WithinValueCons(x, s, refs);
  }

  lemma WithinValueCons(x: Candidate, s: seq<Candidate>, refs: set<Ref>)
    ensures Value(Within([x] + s, refs)) == Value(Within(s, refs)) + if x.block.ref in refs then x.value else 0
    ensures Bytes(Within([x] + s, refs)) == Bytes(Within(s, refs)) + if x.block.ref in refs then x.block.byteSize else 0
  {
    WithinCons(x, s, refs);
    ValueCons(x, Within(s, refs));
    assert [] + Within(s, refs) == Within(s, refs);
  }

  lemma {:induction false} InsertSameWithin(c: Candidate, s: seq<Candidate>, refs: set<Ref>)
    ensures SameWithin(Insert(c, s), [c] + s, refs)
  {
    if s == [] || Precedes(c, s[0]) {
    } else {
      InsertSameWithin(c, s[1..], refs);
      ConsSameWithin(s[0], Insert(c, s[1..]), [c] + s[1..], refs);
      SwapSameWithin(s[0], c, s[1..], refs);
      assert [s[0]] + s[1..] == s;
    }
  }

  lemma {:induction false} RankedSameWithin(s: seq<Candidate>, refs: set<Ref>)
    ensures SameWithin(Ranked(s), s, refs)
  {
    if s != [] {
      RankedSameWithin(s[1..], refs);
      InsertSameWithin(s[0], Ranked(s[1..]), refs);
      ConsSameWithin(s[0], Ranked(s[1..]), s[1..], refs);
      assert [s[0]] + s[1..] == s;
    }
  }
}
