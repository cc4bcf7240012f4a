/** Which optional artifacts a packing takes, in terms of the evidence, the obligations and the offers alone. */
module PackingChoice {
  import opened Contracts
  import opened Evidence
  import opened Knapsack
  import opened Packing
  import opened PackingTheorems
  import opened Sorting

  // ---------------------------------------------------------------- evidence and obligations

  /** The artifact is required itself or is evidence of a required claim. */
  ghost predicate Needed(e: EvidenceSet, o: Obligations, ref: Ref) {
    || ref in o.requiredArtifacts
    || exists c :: c in o.requiredClaims && FindClaim(e.claims, c).Some? && ref in FindClaim(e.claims, c).value.evidence
  }

  lemma NeededIsMandatory(e: EvidenceSet, o: Obligations, asOf: nat, ref: Ref)
    requires Satisfied(e, o, asOf)
    ensures ref in MandatoryArtifacts(e, o, asOf) <==> Needed(e, o, ref)
  {
    assert forall c :: c in o.requiredClaims ==> c in GoodClaims(e, o, asOf);
    if ref in o.requiredArtifacts {
      assert ref in GoodArtifacts(e, o, asOf);
    } else if Needed(e, o, ref) {
      var c :| c in o.requiredClaims && FindClaim(e.claims, c).Some? && ref in FindClaim(e.claims, c).value.evidence;
      assert ref in EvidenceOf(e, GoodClaims(e, o, asOf));
    }
  }

  /** Offered, in force and not needed anyway. */
  ghost predicate Eligible(e: EvidenceSet, o: Obligations, asOf: nat, values: map<Ref, nat>, ref: Ref) {
    ref in values && InForce(e, ref, asOf) && !Needed(e, o, ref)
  }

  function SizeOf(e: EvidenceSet, ref: Ref): nat {
    if FindArtifact(e.artifacts, ref).Some? then FindArtifact(e.artifacts, ref).value.wireSize else 0
  }

  function ClaimSizeOf(e: EvidenceSet, ref: Ref): nat {
    if FindClaim(e.claims, ref).Some? then FindClaim(e.claims, ref).value.wireSize else 0
  }

  // ---------------------------------------------------------------- sums over sets of references

  ghost function Weight(e: EvidenceSet, refs: set<Ref>): nat {
    if refs == {} then 0 else Weight(e, refs - {Any(refs)}) + SizeOf(e, Any(refs))
  }

  ghost function ClaimWeight(e: EvidenceSet, refs: set<Ref>): nat {
    if refs == {} then 0 else ClaimWeight(e, refs - {Any(refs)}) + ClaimSizeOf(e, Any(refs))
  }

  ghost function Worth(values: map<Ref, nat>, refs: set<Ref>): nat {
    if refs == {} then 0 else
    Worth(values, refs - {Any(refs)}) + if Any(refs) in values then values[Any(refs)] else 0
  }

  lemma {:induction false} WeightPick(e: EvidenceSet, refs: set<Ref>, x: Ref)
    requires x in refs
    ensures Weight(e, refs) == Weight(e, refs - {x}) + SizeOf(e, x)
    decreases refs
  {
    var y := Any(refs);
    if y != x {
      WeightPick(e, refs - {y}, x);
      WeightPick(e, refs - {x}, y);
      assert refs - {y} - {x} == refs - {x} - {y};
    }
  }

  lemma {:induction false} ClaimWeightPick(e: EvidenceSet, refs: set<Ref>, x: Ref)
    requires x in refs
    ensures ClaimWeight(e, refs) == ClaimWeight(e, refs - {x}) + ClaimSizeOf(e, x)
    decreases refs
  {
    var y := Any(refs);
    if y != x {
      ClaimWeightPick(e, refs - {y}, x);
      ClaimWeightPick(e, refs - {x}, y);
      assert refs - {y} - {x} == refs - {x} - {y};
    }
  }

  lemma {:induction false} WorthPick(values: map<Ref, nat>, refs: set<Ref>, x: Ref)
    requires x in refs && x in values
    ensures Worth(values, refs) == Worth(values, refs - {x}) + values[x]
    decreases refs
  {
    var y := Any(refs);
    if y != x {
      WorthPick(values, refs - {y}, x);
      if y in values {
        WorthPick(values, refs - {x}, y);
        assert refs - {y} - {x} == refs - {x} - {y};
      } else {
        WorthSkip(values, refs - {x}, y);
        assert refs - {y} - {x} == refs - {x} - {y};
      }
    }
  }

  lemma {:induction false} WorthSkip(values: map<Ref, nat>, refs: set<Ref>, x: Ref)
    requires x in refs && x !in values
    ensures Worth(values, refs) == Worth(values, refs - {x})
    decreases refs
  {
    var y := Any(refs);
    if y != x {
      WorthSkip(values, refs - {y}, x);
      var rest := refs - {x};
      assert refs - {y} - {x} == rest - {y};
      if y in values {
        WorthPick(values, rest, y);
      } else {
        WorthSkip(values, rest, y);
      }
    }
  }

  // ---------------------------------------------------------------- the mandatory weight

  /** Everything that must be packed. */
  ghost function NeededSet(e: EvidenceSet, o: Obligations): set<Ref> {
    o.requiredArtifacts +
    set c, ref | c in o.requiredClaims && FindClaim(e.claims, c).Some? && ref in FindClaim(e.claims, c).value.evidence
      :: ref
  }

  ghost function NeededWeight(e: EvidenceSet, o: Obligations): nat {
    Weight(e, NeededSet(e, o)) + ClaimWeight(e, o.requiredClaims)
  }

  lemma NeededSetIsMandatory(e: EvidenceSet, o: Obligations, asOf: nat)
    requires Satisfied(e, o, asOf)
    ensures MandatoryArtifacts(e, o, asOf) == NeededSet(e, o) && GoodClaims(e, o, asOf) == o.requiredClaims
  {
    forall ref
      ensures ref in MandatoryArtifacts(e, o, asOf) <==> ref in NeededSet(e, o)
    {
      NeededIsMandatory(e, o, asOf, ref);
    }
  }

  lemma {:induction false} ArtifactBlocksWeigh(e: EvidenceSet, refs: seq<Ref>)
    requires Ascending(refs) && forall ref :: ref in refs ==> Present(e, ref)
    ensures BlockBytes(ArtifactBlocks(e, refs)) == Weight(e, Elements(refs))
  {
    if refs != [] {
      var front, last := refs[..|refs| - 1], refs[|refs| - 1];
      AscendingSplits(refs);
      ArtifactBlocksWeigh(e, front);
      BlocksAppend(ArtifactBlocks(e, front), [ArtifactBlock(e, last)]);
      OneBlock(ArtifactBlock(e, last));
      WeightPick(e, Elements(refs), last);
    }
  }

  lemma {:induction false} ClaimBlocksWeigh(e: EvidenceSet, refs: seq<Ref>)
    requires Ascending(refs) && forall ref :: ref in refs ==> FindClaim(e.claims, ref).Some?
    ensures BlockBytes(ClaimBlocks(e, refs)) == ClaimWeight(e, Elements(refs))
  {
    if refs != [] {
      var front, last := refs[..|refs| - 1], refs[|refs| - 1];
      AscendingSplits(refs);
      ClaimBlocksWeigh(e, front);
      BlocksAppend(ClaimBlocks(e, front), [ClaimBlock(e, last)]);
      OneBlock(ClaimBlock(e, last));
      ClaimWeightPick(e, Elements(refs), last);
    }
  }

  lemma OneBlock(b: Block)
    ensures BlockBytes([b]) == b.byteSize
  {
    assert [b][..0] == [];
  }

  /** The last element of an ascending sequence is new. */
  lemma AscendingSplits(refs: seq<Ref>)
    requires Ascending(refs) && refs != []
    ensures var front, last := refs[..|refs| - 1], refs[|refs| - 1];
      && Ascending(front) && last !in front && Elements(refs) - {last} == Elements(front)
      && forall ref :: ref in refs <==> ref in front || ref == last
  {
    var front, last := refs[..|refs| - 1], refs[|refs| - 1];
    assert refs == front + [last];
  }

  lemma ElementsOfSorted(refs: set<Ref>)
    ensures Elements(Sorted(refs)) == refs
  {
  }

  /** The mandatory blocks weigh what the obligations need. */
  lemma MandatoryWeighs(e: EvidenceSet, o: Obligations, asOf: nat)
    requires Satisfied(e, o, asOf)
    ensures LevelOf(MandatoryBlocks(e, o, asOf)) == Level(NeededWeight(e, o), NeededWeight(e, o))
  {
    var artifacts, claims := MandatoryArtifacts(e, o, asOf), GoodClaims(e, o, asOf);
    NeededSetIsMandatory(e, o, asOf);
    ElementsOfSorted(artifacts);
    ElementsOfSorted(claims);
    ArtifactBlocksWeigh(e, Sorted(artifacts));
    ClaimBlocksWeigh(e, Sorted(claims));
    BlocksAppend(ArtifactBlocks(e, Sorted(artifacts)), ClaimBlocks(e, Sorted(claims)));
    TokensAreBytes(MandatoryBlocks(e, o, asOf));
  }

  // ---------------------------------------------------------------- what may be chosen

  function OfferOf(e: EvidenceSet, values: map<Ref, nat>, ref: Ref): Candidate
    requires ref in values && Present(e, ref)
  {
    Candidate(values[ref], Block(ArtifactKind, ref, FindArtifact(e.artifacts, ref).value.wireSize))
  }

  /** Each candidate is the offer of its own reference. */
  ghost predicate Offers(e: EvidenceSet, values: map<Ref, nat>, s: seq<Candidate>) {
    forall c :: c in s ==>
      c.block.ref in values && Present(e, c.block.ref) && c == OfferOf(e, values, c.block.ref)
  }

  ghost function Refs(s: seq<Candidate>): set<Ref> {
    set i | 0 <= i < |s| :: s[i].block.ref
  }

  /** No reference occurs twice. */
  ghost predicate Unique(s: seq<Candidate>) {
    forall i, j :: 0 <= i < j < |s| ==> s[i].block.ref != s[j].block.ref
  }

  lemma RefsSnoc(s: seq<Candidate>, c: Candidate)
    ensures Refs(s + [c]) == Refs(s) + {c.block.ref}
    ensures Unique(s + [c]) <==> Unique(s) && c.block.ref !in Refs(s)
  {
    var all := s + [c];
    assert all[|s|] == c && forall i :: 0 <= i < |s| ==> all[i] == s[i];
    forall ref
      ensures ref in Refs(all) <==> ref in Refs(s) || ref == c.block.ref
    {
      if ref in Refs(s) {
        var i :| 0 <= i < |s| && s[i].block.ref == ref;
        assert all[i].block.ref == ref;
      }
    }
    if Unique(s) && c.block.ref !in Refs(s) {
      forall i, j | 0 <= i < j < |all|
        ensures all[i].block.ref != all[j].block.ref
      {
        if j == |s| {
          assert s[i].block.ref in Refs(s);
        }
      }
    }
    if Unique(all) {
      forall i | 0 <= i < |s|
        ensures s[i].block.ref != c.block.ref
      {
        assert all[i].block.ref != all[|s|].block.ref;
      }
    }
  }

  lemma RefsCons(c: Candidate, s: seq<Candidate>)
    ensures Refs([c] + s) == {c.block.ref} + Refs(s)
    ensures Unique([c] + s) <==> Unique(s) && c.block.ref !in Refs(s)
  {
    var all := [c] + s;
    assert all[0] == c && forall i :: 0 <= i < |s| ==> all[i + 1] == s[i];
    forall ref
      ensures ref in Refs(all) <==> ref in Refs(s) || ref == c.block.ref
    {
      if ref in Refs(s) {
        var i :| 0 <= i < |s| && s[i].block.ref == ref;
        assert all[i + 1].block.ref == ref;
      }
      if ref in Refs(all) {
        var i :| 0 <= i < |all| && all[i].block.ref == ref;
        assert i > 0 ==> s[i - 1].block.ref == ref;
      }
    }
    if Unique(s) && c.block.ref !in Refs(s) {
      forall i, j | 0 <= i < j < |all|
        ensures all[i].block.ref != all[j].block.ref
      {
        assert all[j] == s[j - 1];
        if i > 0 {
          assert all[i] == s[i - 1];
        } else {
          assert s[j - 1].block.ref in Refs(s);
        }
      }
    }
    if Unique(all) {
      forall i, j | 0 <= i < j < |s|
        ensures s[i].block.ref != s[j].block.ref
      {
        assert all[i + 1].block.ref != all[j + 1].block.ref;
      }
      forall i | 0 <= i < |s|
        ensures s[i].block.ref != c.block.ref
      {
        assert all[0].block.ref != all[i + 1].block.ref;
      }
    }
  }

  /** The candidates are exactly the offers in force that are not mandatory, each once. */
  lemma {:induction false} CandidatesExactly(e: EvidenceSet, mandatory: set<Ref>, refs: seq<Ref>, values: map<Ref, nat>,
      asOf: nat)
    requires Ascending(refs) && forall ref :: ref in refs ==> ref in values
    ensures var s := Candidates(e, mandatory, refs, values, asOf);
      && Offers(e, values, s) && Unique(s)
      && forall ref :: ref in Refs(s) <==> ref in refs && ref !in mandatory && InForce(e, ref, asOf)
  {
    if refs != [] {
      var front, last := refs[..|refs| - 1], refs[|refs| - 1];
      AscendingSplits(refs);
      CandidatesExactly(e, mandatory, front, values, asOf);
      InForceIsUsable(e, last, asOf);
      RefsSnoc(Candidates(e, mandatory, front, values, asOf), Candidate(values[last], LastBlock(e, last)));
    }
  }

  ghost function LastBlock(e: EvidenceSet, ref: Ref): Block {
    Block(ArtifactKind, ref, if Present(e, ref) then FindArtifact(e.artifacts, ref).value.wireSize else 1)
  }

  lemma {:induction false} InsertKeepsUnique(c: Candidate, s: seq<Candidate>)
    requires Unique([c] + s)
    ensures Unique(Insert(c, s)) && Refs(Insert(c, s)) == {c.block.ref} + Refs(s)
  {
    RefsCons(c, s);
    if s != [] && !Precedes(c, s[0]) {
      assert s == [s[0]] + s[1..];
      RefsCons(s[0], s[1..]);
      RefsCons(c, s[1..]);
      InsertKeepsUnique(c, s[1..]);
      RefsCons(s[0], Insert(c, s[1..]));
    }
  }

  lemma {:induction false} RankedKeepsUnique(s: seq<Candidate>)
    requires Unique(s)
    ensures Unique(Ranked(s)) && Refs(Ranked(s)) == Refs(s)
  {
    if s != [] {
      assert s == [s[0]] + s[1..];
      RefsCons(s[0], s[1..]);
      RankedKeepsUnique(s[1..]);
      RefsCons(s[0], Ranked(s[1..]));
      InsertKeepsUnique(s[0], Ranked(s[1..]));
    }
  }

  lemma RankedKeepsOffers(e: EvidenceSet, values: map<Ref, nat>, s: seq<Candidate>)
    requires Offers(e, values, s)
    ensures Offers(e, values, Ranked(s))
  {
    RankedIsPermutation(s);
    forall c | c in Ranked(s)
      ensures c in s
    {
      assert c in multiset(Ranked(s));
    }
  }

  // ---------------------------------------------------------------- the order of preference

  /** More value per byte, then more value, then fewer bytes, then the smaller reference. */
  predicate Outranks(e: EvidenceSet, values: map<Ref, nat>, a: Ref, b: Ref)
    requires a in values && b in values
  {
    var x, y, p, q := values[a], values[b], SizeOf(e, a), SizeOf(e, b);
    || x * q > y * p
    || (x * q == y * p && (x > y || (x == y && (p < q || (p == q && a < b)))))
  }

  lemma PrecedesIsOutranks(e: EvidenceSet, values: map<Ref, nat>, a: Candidate, b: Candidate)
    requires a.block.ref in values && Present(e, a.block.ref) && a == OfferOf(e, values, a.block.ref)
    requires b.block.ref in values && Present(e, b.block.ref) && b == OfferOf(e, values, b.block.ref)
    requires a.block.ref != b.block.ref
    ensures Precedes(a, b) <==> Outranks(e, values, a.block.ref, b.block.ref)
    ensures Outranks(e, values, a.block.ref, b.block.ref) ==> !Outranks(e, values, b.block.ref, a.block.ref)
  {
    DenserPerByte(a, b);
    assert a.block.TokenSize() == a.block.byteSize && b.block.TokenSize() == b.block.byteSize;
  }

  lemma PrecedesIsTransitive(a: Candidate, b: Candidate, c: Candidate)
    requires Precedes(a, b) && Precedes(b, c)
    ensures Precedes(a, c)
  {
    DenserIsTransitive(a, b, c);
    DenserFlips(a, b);
    DenserFlips(b, c);
    DenserFlips(a, c);
    if Denser(a, c) == 0 {
      DenserIsTransitive(b, c, a);
      DenserIsTransitive(c, a, b);
    }
  }

  lemma DenserFlips(a: Candidate, b: Candidate)
    ensures Denser(b, a) == -Denser(a, b)
  {
  }

  lemma {:induction false} KeyIsOrder(s: seq<Candidate>, i: nat, j: nat)
    requires ByKey(s) && i < j < |s|
    ensures Precedes(s[i], s[j])
    decreases j
  {
    if i + 1 < j {
      KeyIsOrder(s, i, j - 1);
      PrecedesIsTransitive(s[i], s[j - 1], s[j]);
    }
  }

  /** Where a candidate stands in the ranking tells which others it outranks. */
  lemma RankIsOrder(e: EvidenceSet, values: map<Ref, nat>, s: seq<Candidate>, i: nat, j: nat)
    requires ByKey(s) && Unique(s) && Offers(e, values, s) && i < |s| && j < |s| && i != j
    ensures s[i].block.ref in values && s[j].block.ref in values
    ensures i < j <==> Outranks(e, values, s[i].block.ref, s[j].block.ref)
  {
    assert s[i] in s && s[j] in s;
    if i < j {
      KeyIsOrder(s, i, j);
      PrecedesIsOutranks(e, values, s[i], s[j]);
    } else {
      KeyIsOrder(s, j, i);
      PrecedesIsOutranks(e, values, s[j], s[i]);
    }
  }

  // ---------------------------------------------------------------- the greedy pass over references

  lemma {:induction false} ChosenIsUnique(s: seq<Candidate>, level: Level, budget: Budget)
    requires Unique(s)
    ensures var r := Filled(s, level, budget);
      && Unique(r.chosen) && Unique(r.rejected) && Refs(r.chosen) !! Refs(r.rejected)
      && Refs(r.chosen) + Refs(r.rejected) == Refs(s)
  {
    if s != [] {
      var front, last := s[..|s| - 1], s[|s| - 1];
      SplitLast(s);
      RefsSnoc(front, last);
      ChosenIsUnique(front, level, budget);
      FilledUnfolds(s, level, budget);
      RefsSnoc(Filled(front, level, budget).chosen, last);
      RefsSnoc(Filled(front, level, budget).rejected, last);
    }
  }

  /** Later candidates do not change what was taken before them. */
  lemma {:induction false} TakenStays(s: seq<Candidate>, n: nat, level: Level, budget: Budget)
    requires Unique(s) && n <= |s|
    ensures Refs(Filled(s[..n], level, budget).chosen) == Refs(Filled(s, level, budget).chosen) * Refs(s[..n])
    decreases |s|
  {
    ChosenIsUnique(s[..n], level, budget);
    if n == |s| {
      assert s[..n] == s;
    } else {
      var front, last := s[..|s| - 1], s[|s| - 1];
      SplitLast(s);
      RefsSnoc(front, last);
      TakenStays(front, n, level, budget);
      assert front[..n] == s[..n];
      FilledUnfolds(s, level, budget);
      RefsSnoc(Filled(front, level, budget).chosen, last);
      PrefixRefs(front, n);
    }
  }

  lemma PrefixRefs(s: seq<Candidate>, n: nat)
    requires n <= |s|
    ensures Refs(s[..n]) <= Refs(s)
  {
  }

  lemma {:induction false} BytesAreWeight(e: EvidenceSet, values: map<Ref, nat>, s: seq<Candidate>)
    requires Unique(s) && Offers(e, values, s)
    ensures Bytes(s) == Weight(e, Refs(s)) && Value(s) == Worth(values, Refs(s))
  {
    if s != [] {
      var front, last := s[..|s| - 1], s[|s| - 1];
      FrontOffers(e, values, s);
      BytesAreWeight(e, values, front);
      WeightPick(e, Refs(s), last.block.ref);
      WorthPick(values, Refs(s), last.block.ref);
    }
  }

  lemma FrontOffers(e: EvidenceSet, values: map<Ref, nat>, s: seq<Candidate>)
    requires Unique(s) && Offers(e, values, s) && s != []
    ensures var front, last := s[..|s| - 1], s[|s| - 1];
      && Unique(front) && Offers(e, values, front) && last.block.ref in Refs(s)
      && Refs(s) - {last.block.ref} == Refs(front)
      && last.block.ref in values && Present(e, last.block.ref) && last == OfferOf(e, values, last.block.ref)
  {
    var front, last := s[..|s| - 1], s[|s| - 1];
    SplitLast(s);
    RefsSnoc(front, last);
    assert last in s && forall c :: c in front ==> c in s;
  }

  lemma {:induction false} ChosenInside(s: seq<Candidate>, level: Level, budget: Budget)
    ensures forall c :: c in Filled(s, level, budget).chosen || c in Filled(s, level, budget).rejected ==> c in s
  {
    if s != [] {
      var front := s[..|s| - 1];
      FilledUnfolds(s, level, budget);
      ChosenInside(front, level, budget);
      assert forall c :: c in front ==> c in s;
    }
  }

  /** The references taken by the greedy pass that outrank `ref`. */
  ghost function Better(e: EvidenceSet, values: map<Ref, nat>, taken: set<Ref>, ref: Ref): set<Ref>
    requires ref in values
  {
    set u | u in taken && u in values && Outranks(e, values, u, ref)
  }

  lemma BetterIsEarlier(e: EvidenceSet, values: map<Ref, nat>, s: seq<Candidate>, i: nat, taken: set<Ref>)
    requires ByKey(s) && Unique(s) && Offers(e, values, s) && i < |s| && taken <= Refs(s)
    ensures s[i].block.ref in values && Better(e, values, taken, s[i].block.ref) == taken * Refs(s[..i])
  {
    assert s[i] in s;
    var ref := s[i].block.ref;
    forall u | u in taken
      ensures u in values && (Outranks(e, values, u, ref) <==> u in Refs(s[..i]))
    {
      var j :| 0 <= j < |s| && s[j].block.ref == u;
      assert s[j] in s;
      EarlierRefs(s, i, j);
      if j == i {
        assert !Outranks(e, values, u, u);
      } else {
        RankIsOrder(e, values, s, j, i);
      }
    }
  }

  lemma EarlierRefs(s: seq<Candidate>, i: nat, j: nat)
    requires Unique(s) && i <= |s| && j < |s|
    ensures s[j].block.ref in Refs(s[..i]) <==> j < i
  {
    if j < i {
      assert s[..i][j] == s[j];
    } else {
      forall k | 0 <= k < i
        ensures s[..i][k].block.ref != s[j].block.ref
      {
        assert s[k].block.ref != s[j].block.ref;
      }
    }
  }

  /** The greedy pass takes a candidate exactly when it fits beside the better ones that it takes. */
  lemma GreedyAt(e: EvidenceSet, values: map<Ref, nat>, s: seq<Candidate>, i: nat, level: Level, budget: Budget)
    requires ByKey(s) && Unique(s) && Offers(e, values, s) && i < |s|
    ensures s[i].block.ref in values
    ensures var taken, ref := Refs(Filled(s, level, budget).chosen), s[i].block.ref;
      var more := Weight(e, Better(e, values, taken, ref)) + SizeOf(e, ref);
      ref in taken <==> level.bytes + more <= budget.maxBytes && level.tokens + more <= budget.maxTokens
  {
    var taken, ref := Refs(Filled(s, level, budget).chosen), s[i].block.ref;
    var before := Filled(s[..i], level, budget);
    assert s[i] in s;
    ChosenIsUnique(s, level, budget);
    BetterIsEarlier(e, values, s, i, taken);
    TakenStays(s, i, level, budget);
    PrefixWeighs(e, values, s, i, level, budget);
    TakenAt(s, i, level, budget);
    assert s[i].block.byteSize == SizeOf(e, ref) && s[i].block.TokenSize() == s[i].block.byteSize;
  }

  lemma PrefixWeighs(e: EvidenceSet, values: map<Ref, nat>, s: seq<Candidate>, i: nat, level: Level, budget: Budget)
    requires Unique(s) && Offers(e, values, s) && i <= |s|
    ensures var before := Filled(s[..i], level, budget);
      before.level == Level(level.bytes + Weight(e, Refs(before.chosen)), level.tokens + Weight(e, Refs(before.chosen)))
  {
    var prefix := s[..i];
    assert forall c :: c in prefix ==> c in s;
    ChosenIsUnique(prefix, level, budget);
    ChosenInside(prefix, level, budget);
    BytesAreWeight(e, values, Filled(prefix, level, budget).chosen);
    FilledMeters(prefix, level, budget);
  }

  lemma TakenAt(s: seq<Candidate>, i: nat, level: Level, budget: Budget)
    requires Unique(s) && i < |s|
    ensures s[i].block.ref in Refs(Filled(s, level, budget).chosen) <==>
      Filled(s[..i], level, budget).level.Takes(s[i].block, budget)
  {
    var prefix, more, c := s[..i], s[..i + 1], s[i];
    assert more == prefix + [c] && more[..|more| - 1] == prefix;
    TakenStays(s, i + 1, level, budget);
    FilledUnfolds(more, level, budget);
    RefsSnoc(prefix, c);
    EarlierRefs(s, i + 1, i);
    EarlierRefs(s, i, i);
    ChosenIsUnique(prefix, level, budget);
    RefsSnoc(Filled(prefix, level, budget).chosen, c);
  }

  // ---------------------------------------------------------------- the packed result

  /** The eligible offer is among the blocks. */
  ghost predicate Taken(e: EvidenceSet, o: Obligations, asOf: nat, values: map<Ref, nat>, blocks: seq<Block>,
      ref: Ref) {
    Eligible(e, o, asOf, values, ref) && ArtifactBlock(e, ref) in blocks
  }

  ghost function TakenSet(e: EvidenceSet, o: Obligations, asOf: nat, values: map<Ref, nat>,
      blocks: seq<Block>): set<Ref> {
    set ref | ref in values && Taken(e, o, asOf, values, blocks, ref)
  }

  lemma MandatoryBlockIsNeeded(e: EvidenceSet, o: Obligations, asOf: nat, b: Block)
    requires b in MandatoryBlocks(e, o, asOf)
    ensures b.kind == ArtifactKind ==> b.ref in MandatoryArtifacts(e, o, asOf)
    ensures b.kind == ClaimKind ==> b.ref in GoodClaims(e, o, asOf)
  {
    var refs, claims := Sorted(MandatoryArtifacts(e, o, asOf)), Sorted(GoodClaims(e, o, asOf));
    if b in ArtifactBlocks(e, refs) {
      var i :| 0 <= i < |refs| && ArtifactBlocks(e, refs)[i] == b;
      assert refs[i] in refs;
    } else {
      var i :| 0 <= i < |claims| && ClaimBlocks(e, claims)[i] == b;
      assert claims[i] in claims;
    }
  }

  lemma ChosenBlocks(s: seq<Candidate>, b: Block)
    ensures b in CandidateBlocks(s) <==> exists i :: 0 <= i < |s| && s[i].block == b
  {
    if b in CandidateBlocks(s) {
      var i :| 0 <= i < |s| && CandidateBlocks(s)[i] == b;
    }
    if exists i :: 0 <= i < |s| && s[i].block == b {
      var i :| 0 <= i < |s| && s[i].block == b;
      assert CandidateBlocks(s)[i] == b;
    }
  }

  /** The ranking of a packing: every eligible offer once, best first. */
  lemma RankingExactly(e: EvidenceSet, o: Obligations, asOf: nat, values: map<Ref, nat>)
    requires Satisfied(e, o, asOf)
    ensures var s := Ranking(e, o, asOf, values);
      && ByKey(s) && Unique(s) && Offers(e, values, s)
      && forall ref :: ref in Refs(s) <==> Eligible(e, o, asOf, values, ref)
  {
    var mandatory := MandatoryArtifacts(e, o, asOf);
    var s := Candidates(e, mandatory, Sorted(values.Keys), values, asOf);
    CandidatesExactly(e, mandatory, Sorted(values.Keys), values, asOf);
    RankedKeepsUnique(s);
    RankedKeepsOffers(e, values, s);
    RankedByKey(s);
    forall ref
      ensures ref in Refs(s) <==> Eligible(e, o, asOf, values, ref)
    {
      NeededIsMandatory(e, o, asOf, ref);
    }
  }

  /** The blocks are the mandatory ones and the chosen ones, so what is taken is what the greedy pass chose. */
  lemma TakenIsChosen(e: EvidenceSet, o: Obligations, budget: Budget, asOf: nat, values: map<Ref, nat>, ref: Ref)
    requires Pack(e, o, budget, asOf, values).manifest.payload.status == Packed
    ensures Taken(e, o, asOf, values, Pack(e, o, budget, asOf, values).blocks, ref) <==>
      ref in Refs(Picked(e, o, budget, asOf, values).chosen)
  {
    var chosen := Picked(e, o, budget, asOf, values).chosen;
    if ref in Refs(chosen) {
      var i :| 0 <= i < |chosen| && chosen[i].block.ref == ref;
      ChosenIsPacked(e, o, budget, asOf, values, chosen[i]);
    }
    if Taken(e, o, asOf, values, Pack(e, o, budget, asOf, values).blocks, ref) {
      PackedWasChosen(e, o, budget, asOf, values, ref);
    }
  }

  lemma ChosenIsPacked(e: EvidenceSet, o: Obligations, budget: Budget, asOf: nat, values: map<Ref, nat>, c: Candidate)
    requires Pack(e, o, budget, asOf, values).manifest.payload.status == Packed
    requires c in Picked(e, o, budget, asOf, values).chosen
    ensures Taken(e, o, asOf, values, Pack(e, o, budget, asOf, values).blocks, c.block.ref)
  {
    var chosen := Picked(e, o, budget, asOf, values).chosen;
    PackedIffSatisfied(e, o, budget, asOf, values);
    ChosenInside(Ranking(e, o, asOf, values), LevelOf(MandatoryBlocks(e, o, asOf)), budget);
    ChosenIsRanked(e, o, asOf, values, c);
    ChosenBlocks(chosen, c.block);
  }

  lemma PackedWasChosen(e: EvidenceSet, o: Obligations, budget: Budget, asOf: nat, values: map<Ref, nat>, ref: Ref)
    requires Pack(e, o, budget, asOf, values).manifest.payload.status == Packed
    requires Taken(e, o, asOf, values, Pack(e, o, budget, asOf, values).blocks, ref)
    ensures ref in Refs(Picked(e, o, budget, asOf, values).chosen)
  {
    var b := ArtifactBlock(e, ref);
    PackedIffSatisfied(e, o, budget, asOf, values);
    NeededIsMandatory(e, o, asOf, ref);
    if b in MandatoryBlocks(e, o, asOf) {
      MandatoryBlockIsNeeded(e, o, asOf, b);
    }
    ChosenBlocks(Picked(e, o, budget, asOf, values).chosen, b);
  }

  lemma ChosenIsRanked(e: EvidenceSet, o: Obligations, asOf: nat, values: map<Ref, nat>, c: Candidate)
    requires Satisfied(e, o, asOf) && c in Ranking(e, o, asOf, values)
    ensures Eligible(e, o, asOf, values, c.block.ref) && c == OfferOf(e, values, c.block.ref)
  {
    var s := Ranking(e, o, asOf, values);
    RankingExactly(e, o, asOf, values);
    var i :| 0 <= i < |s| && s[i] == c;
    assert c.block.ref in Refs(s);
  }

  lemma ChosenIsTaken(e: EvidenceSet, o: Obligations, budget: Budget, asOf: nat, values: map<Ref, nat>, c: Candidate)
    requires Pack(e, o, budget, asOf, values).manifest.payload.status == Packed
    requires c in Picked(e, o, budget, asOf, values).chosen
    ensures Eligible(e, o, asOf, values, c.block.ref) && c == OfferOf(e, values, c.block.ref)
    ensures Taken(e, o, asOf, values, Pack(e, o, budget, asOf, values).blocks, c.block.ref)
  {
    PackedIffSatisfied(e, o, budget, asOf, values);
    ChosenInside(Ranking(e, o, asOf, values), LevelOf(MandatoryBlocks(e, o, asOf)), budget);
    ChosenIsRanked(e, o, asOf, values, c);
    MemberHasRef(Picked(e, o, budget, asOf, values).chosen, c);
    TakenIsChosen(e, o, budget, asOf, values, c.block.ref);
  }

  lemma RejectedIsLeftOut(e: EvidenceSet, o: Obligations, budget: Budget, asOf: nat, values: map<Ref, nat>,
      c: Candidate)
    requires Pack(e, o, budget, asOf, values).manifest.payload.status == Packed
    requires c in Picked(e, o, budget, asOf, values).rejected
    ensures Eligible(e, o, asOf, values, c.block.ref) && c == OfferOf(e, values, c.block.ref)
    ensures !Taken(e, o, asOf, values, Pack(e, o, budget, asOf, values).blocks, c.block.ref)
  {
    var s, level := Ranking(e, o, asOf, values), LevelOf(MandatoryBlocks(e, o, asOf));
    PackedIffSatisfied(e, o, budget, asOf, values);
    RankingExactly(e, o, asOf, values);
    ChosenInside(s, level, budget);
    ChosenIsUnique(s, level, budget);
    ChosenIsRanked(e, o, asOf, values, c);
    MemberHasRef(Picked(e, o, budget, asOf, values).rejected, c);
    TakenIsChosen(e, o, budget, asOf, values, c.block.ref);
  }

  lemma MemberHasRef(s: seq<Candidate>, c: Candidate)
    requires c in s
    ensures c.block.ref in Refs(s)
  {
  }

  /** Each eligible offer is a chosen or a rejected candidate. */
  lemma EligibleIsDecided(e: EvidenceSet, o: Obligations, budget: Budget, asOf: nat, values: map<Ref, nat>, ref: Ref)
      returns (c: Candidate)
    requires Pack(e, o, budget, asOf, values).manifest.payload.status == Packed && Eligible(e, o, asOf, values, ref)
    ensures c == OfferOf(e, values, ref)
    ensures var picked := Picked(e, o, budget, asOf, values); c in picked.chosen || c in picked.rejected
  {
    var s, level := Ranking(e, o, asOf, values), LevelOf(MandatoryBlocks(e, o, asOf));
    PackedIffSatisfied(e, o, budget, asOf, values);
    RankingExactly(e, o, asOf, values);
    assert ref in Refs(s);
    c := EachIsDecided(s, level, budget, ref);
    ChosenIsRanked(e, o, asOf, values, c);
  }

  lemma EachIsDecided(s: seq<Candidate>, level: Level, budget: Budget, ref: Ref) returns (c: Candidate)
    requires Unique(s) && ref in Refs(s)
    ensures c in s && c.block.ref == ref
    ensures var picked := Filled(s, level, budget); c in picked.chosen || c in picked.rejected
  {
    var picked := Filled(s, level, budget);
    ChosenInside(s, level, budget);
    ChosenIsUnique(s, level, budget);
    if ref in Refs(picked.chosen) {
      var i :| 0 <= i < |picked.chosen| && picked.chosen[i].block.ref == ref;
      c := picked.chosen[i];
    } else {
      var i :| 0 <= i < |picked.rejected| && picked.rejected[i].block.ref == ref;
      c := picked.rejected[i];
    }
  }

  /**
   * An eligible offer is packed exactly when it fits both caps together with what the obligations need and with
   * the better offers that are packed. This determines the packed set.
   */
  lemma TakenExactly(e: EvidenceSet, o: Obligations, budget: Budget, asOf: nat, values: map<Ref, nat>, ref: Ref)
    requires Pack(e, o, budget, asOf, values).manifest.payload.status == Packed && Eligible(e, o, asOf, values, ref)
    ensures var blocks := Pack(e, o, budget, asOf, values).blocks;
      var better := Better(e, values, TakenSet(e, o, asOf, values, blocks), ref);
      var total := NeededWeight(e, o) + Weight(e, better) + SizeOf(e, ref);
      Taken(e, o, asOf, values, blocks, ref) <==> total <= budget.maxBytes && total <= budget.maxTokens
  {
    var blocks, s := Pack(e, o, budget, asOf, values).blocks, Ranking(e, o, asOf, values);
    PackedIffSatisfied(e, o, budget, asOf, values);
    MandatoryWeighs(e, o, asOf);
    RankingExactly(e, o, asOf, values);
    assert ref in Refs(s);
    var i :| 0 <= i < |s| && s[i].block.ref == ref;
    TakenSetIsChosen(e, o, budget, asOf, values);
    TakenIsChosen(e, o, budget, asOf, values, ref);
    GreedyAt(e, values, s, i, LevelOf(MandatoryBlocks(e, o, asOf)), budget);
  }

  lemma TakenSetIsChosen(e: EvidenceSet, o: Obligations, budget: Budget, asOf: nat, values: map<Ref, nat>)
    requires Pack(e, o, budget, asOf, values).manifest.payload.status == Packed
    ensures TakenSet(e, o, asOf, values, Pack(e, o, budget, asOf, values).blocks) ==
      Refs(Picked(e, o, budget, asOf, values).chosen)
  {
    forall ref
      ensures ref in TakenSet(e, o, asOf, values, Pack(e, o, budget, asOf, values).blocks) <==>
        ref in Refs(Picked(e, o, budget, asOf, values).chosen)
    {
      TakenIsChosen(e, o, budget, asOf, values, ref);
    }
  }

  /** No eligible offer is left out that would still fit the final usage. */
  lemma OffersAreTakenOrTooLarge(e: EvidenceSet, o: Obligations, budget: Budget, asOf: nat, values: map<Ref, nat>,
      ref: Ref)
    requires Pack(e, o, budget, asOf, values).manifest.payload.status == Packed && Eligible(e, o, asOf, values, ref)
    ensures var r := Pack(e, o, budget, asOf, values);
      || ArtifactBlock(e, ref) in r.blocks
      || BlockBytes(r.blocks) + SizeOf(e, ref) > budget.maxBytes
      || BlockTokens(r.blocks) + SizeOf(e, ref) > budget.maxTokens
  {
    var c := EligibleIsDecided(e, o, budget, asOf, values, ref);
    if c in Picked(e, o, budget, asOf, values).chosen {
      ChosenIsTaken(e, o, budget, asOf, values, c);
    } else {
      PackingIsMaximal(e, o, budget, asOf, values, c);
      UsageIsWeight(e, o, budget, asOf, values);
    }
  }

  lemma UsageIsWeight(e: EvidenceSet, o: Obligations, budget: Budget, asOf: nat, values: map<Ref, nat>)
    requires Pack(e, o, budget, asOf, values).manifest.payload.status == Packed
    ensures var r := Pack(e, o, budget, asOf, values);
      r.manifest.payload.usedBytes == BlockBytes(r.blocks) && r.manifest.payload.usedTokens == BlockTokens(r.blocks)
  {
    PackingVerifies(e, o, budget, asOf, values);
  }

  // ---------------------------------------------------------------- how good the choice is

  lemma {:induction false} WithinExactly(e: EvidenceSet, values: map<Ref, nat>, s: seq<Candidate>, rivals: set<Ref>)
    requires Unique(s) && Offers(e, values, s)
    ensures var r := Within(s, rivals); Unique(r) && Offers(e, values, r) && Refs(r) == Refs(s) * rivals
  {
    if s != [] {
      var front, last := s[..|s| - 1], s[|s| - 1];
      SplitLast(s);
      RefsSnoc(front, last);
      assert last in s && forall c :: c in front ==> c in s;
      WithinExactly(e, values, front, rivals);
      RefsSnoc(Within(front, rivals), last);
    }
  }

  /** The value that a packing keeps is that of the offers it takes. */
  lemma KeptIsWorth(e: EvidenceSet, o: Obligations, budget: Budget, asOf: nat, values: map<Ref, nat>)
    requires Pack(e, o, budget, asOf, values).manifest.payload.status == Packed
    ensures var r := Pack(e, o, budget, asOf, values);
      r.manifest.payload.loss.kept == Worth(values, TakenSet(e, o, asOf, values, r.blocks))
  {
    var s, level := Ranking(e, o, asOf, values), LevelOf(MandatoryBlocks(e, o, asOf));
    PackedIffSatisfied(e, o, budget, asOf, values);
    RankingExactly(e, o, asOf, values);
    TakenSetIsChosen(e, o, budget, asOf, values);
    ChosenIsUnique(s, level, budget);
    ChosenInside(s, level, budget);
    BytesAreWeight(e, values, Picked(e, o, budget, asOf, values).chosen);
  }

  lemma RivalsWeigh(e: EvidenceSet, o: Obligations, asOf: nat, values: map<Ref, nat>, rivals: set<Ref>)
    requires Satisfied(e, o, asOf) && forall ref :: ref in rivals ==> Eligible(e, o, asOf, values, ref)
    ensures var s := Offered(e, o, asOf, values);
      Bytes(Within(s, rivals)) == Weight(e, rivals) && Value(Within(s, rivals)) == Worth(values, rivals)
  {
    var mandatory, s := MandatoryArtifacts(e, o, asOf), Offered(e, o, asOf, values);
    CandidatesExactly(e, mandatory, Sorted(values.Keys), values, asOf);
    WithinExactly(e, values, s, rivals);
    forall ref | ref in rivals
      ensures ref in Refs(s)
    {
      NeededIsMandatory(e, o, asOf, ref);
    }
    assert Refs(s) * rivals == rivals;
    BytesAreWeight(e, values, Within(s, rivals));
  }

  /**
   * Any set of eligible offers that fits beside what the obligations need is worth at most what the packing keeps,
   * plus the worth of a single offer that it leaves out.
   */
  lemma ChoiceIsNearlyBest(e: EvidenceSet, o: Obligations, budget: Budget, asOf: nat, values: map<Ref, nat>,
      rivals: set<Ref>)
    requires Pack(e, o, budget, asOf, values).manifest.payload.status == Packed
    requires forall ref :: ref in rivals ==> Eligible(e, o, asOf, values, ref)
    requires NeededWeight(e, o) + Weight(e, rivals) <= budget.maxBytes
    requires NeededWeight(e, o) + Weight(e, rivals) <= budget.maxTokens
    ensures var r := Pack(e, o, budget, asOf, values);
      var kept := Worth(values, TakenSet(e, o, asOf, values, r.blocks));
      || Worth(values, rivals) <= kept
      || exists ref :: Eligible(e, o, asOf, values, ref) && !Taken(e, o, asOf, values, r.blocks, ref)
                       && Worth(values, rivals) <= kept + values[ref]
  {
    PackedIffSatisfied(e, o, budget, asOf, values);
    MandatoryWeighs(e, o, asOf);
    RivalsWeigh(e, o, asOf, values, rivals);
    KeptIsWorth(e, o, budget, asOf, values);
    PackingIsNearlyBest(e, o, budget, asOf, values, rivals);
    if Picked(e, o, budget, asOf, values).rejected != [] {
      RejectedIsLeftOut(e, o, budget, asOf, values, Picked(e, o, budget, asOf, values).rejected[0]);
    }
  }
}
