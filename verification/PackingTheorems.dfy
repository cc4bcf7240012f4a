/** What packing promises for every evidence set, obligation and budget. */
module PackingTheorems {
  import opened Evidence
  import opened Knapsack
  import opened Packing
  import opened Sorting

  // ---------------------------------------------------------------- sums of blocks

  lemma {:induction false} BlocksAppend(a: seq<Block>, b: seq<Block>)
    ensures BlockBytes(a + b) == BlockBytes(a) + BlockBytes(b) && BlockTokens(a + b) == BlockTokens(a) + BlockTokens(b)
  {
    if b == [] {
      assert a + b == a;
    } else {
      BlocksAppend(a, b[..|b| - 1]);
      assert (a + b)[..|a + b| - 1] == a + b[..|b| - 1];
    }
  }

  lemma {:induction false} TokensAreBytes(blocks: seq<Block>)
    ensures BlockTokens(blocks) == BlockBytes(blocks)
  {
    if blocks != [] {
      TokensAreBytes(blocks[..|blocks| - 1]);
    }
  }

  lemma {:induction false} CandidateBytes(s: seq<Candidate>)
    ensures BlockBytes(CandidateBlocks(s)) == Bytes(s)
  {
    if s != [] {
      CandidateBytes(s[..|s| - 1]);
      assert CandidateBlocks(s)[..|s| - 1] == CandidateBlocks(s[..|s| - 1]);
    }
  }

  // ---------------------------------------------------------------- the internal assertion

  /** The level a selection ends at is what its blocks and the mandatory ones weigh, within both caps. */
  lemma PackedAccounting(mandatory: seq<Block>, ranking: seq<Candidate>, budget: Budget)
    requires BlockBytes(mandatory) <= budget.maxBytes && BlockTokens(mandatory) <= budget.maxTokens
    ensures var picked := Filled(ranking, LevelOf(mandatory), budget);
      var blocks := mandatory + CandidateBlocks(picked.chosen);
      && picked.level == LevelOf(blocks)
      && BlockBytes(blocks) <= budget.maxBytes && BlockTokens(blocks) <= budget.maxTokens
  {
    FilledFits(ranking, LevelOf(mandatory), budget);
    FilledMeters(ranking, LevelOf(mandatory), budget);
    MeteredLevel(mandatory, Filled(ranking, LevelOf(mandatory), budget));
  }

  lemma MeteredLevel(mandatory: seq<Block>, picked: Selection)
    requires Metered(picked, LevelOf(mandatory))
    ensures picked.level == LevelOf(mandatory + CandidateBlocks(picked.chosen))
  {
    BlocksAppend(mandatory, CandidateBlocks(picked.chosen));
    CandidateBytes(picked.chosen);
    TokensAreBytes(CandidateBlocks(picked.chosen));
  }

  lemma EntriesDescribe(mandatory: seq<Block>, chosen: seq<Candidate>, i: nat)
    requires i < |mandatory| + |chosen|
    ensures Describes((BlockEntries(mandatory, true, MandatoryObligation) + ChosenEntries(chosen))[i],
                      (mandatory + CandidateBlocks(chosen))[i])
  {
    if i < |mandatory| {
      assert (BlockEntries(mandatory, true, MandatoryObligation) + ChosenEntries(chosen))[i]
          == BlockEntries(mandatory, true, MandatoryObligation)[i];
    } else {
      assert (BlockEntries(mandatory, true, MandatoryObligation) + ChosenEntries(chosen))[i]
          == ChosenEntries(chosen)[i - |mandatory|];
    }
  }

  lemma PackedOverVerifies(mandatory: seq<Block>, budget: Budget, asOf: nat, faults: seq<Entry>,
      picked: Selection, total: nat)
    requires var blocks := mandatory + CandidateBlocks(picked.chosen);
      && picked.level == LevelOf(blocks) && BlockBytes(blocks) <= budget.maxBytes
      && BlockTokens(blocks) <= budget.maxTokens
    ensures PackedOver(mandatory, budget, asOf, faults, picked, total).Verify()
  {
    forall i | 0 <= i < |mandatory| + |picked.chosen|
      ensures Describes((BlockEntries(mandatory, true, MandatoryObligation) + ChosenEntries(picked.chosen))[i],
                        (mandatory + CandidateBlocks(picked.chosen))[i])
    {
      EntriesDescribe(mandatory, picked.chosen, i);
    }
  }

  /** Every context that is packed or refused passes its own verification: the assertion never fires. */
  lemma PackingVerifies(e: EvidenceSet, o: Obligations, budget: Budget, asOf: nat, values: map<Ref, nat>)
    ensures Pack(e, o, budget, asOf, values).Verify()
  {
    var r := Pack(e, o, budget, asOf, values);
    if r.manifest.payload.status == Packed {
      var options := Sorted(values.Keys);
      var mandatory := MandatoryBlocks(e, o, asOf);
      PackedAccounting(mandatory, Ranking(e, o, asOf, values), budget);
      PackedOverVerifies(mandatory, budget, asOf,
        FaultEntries(e, MandatoryArtifacts(e, o, asOf), options, values, asOf),
        Picked(e, o, budget, asOf, values), TotalValue(options, values));
    }
  }

  /** A verified manifest belongs to one sequence of blocks: none can be dropped, added or exchanged under it. */
  lemma ManifestDeterminesBlocks(a: PackedContext, b: PackedContext)
    requires a.manifest == b.manifest && a.Verify() && b.Verify()
    ensures a.blocks == b.blocks
  {
    if a.manifest.payload.status == Packed {
      forall i | 0 <= i < |a.blocks|
        ensures a.blocks[i] == b.blocks[i]
      {
        assert Describes(a.manifest.payload.included[i], a.blocks[i]);
        assert Describes(b.manifest.payload.included[i], b.blocks[i]);
      }
    }
  }

  // ---------------------------------------------------------------- all or refuse

  lemma {:induction false} NoBadArtifacts(e: EvidenceSet, refs: seq<Ref>, asOf: nat)
    ensures BadArtifactEntries(e, refs, asOf) == [] <==> forall ref :: ref in refs ==> Usable(e, ref, asOf)
  {
    if refs != [] {
      var front, last := refs[..|refs| - 1], refs[|refs| - 1];
      NoBadArtifacts(e, front, asOf);
      assert last in refs && forall ref :: ref in refs <==> ref in front || ref == last;
      assert DefectOf(e, last, asOf).None? <==> Usable(e, last, asOf);
    }
  }

  lemma {:induction false} NoBadClaims(e: EvidenceSet, refs: seq<Ref>, asOf: nat)
    ensures BadClaimEntries(e, refs, asOf) == [] <==> forall ref :: ref in refs ==> Upheld(e, ref, asOf)
  {
    if refs != [] {
      var front, last := refs[..|refs| - 1], refs[|refs| - 1];
      NoBadClaims(e, front, asOf);
      assert last in refs && forall ref :: ref in refs <==> ref in front || ref == last;
    }
  }

  /** Packed exactly when every obligation is satisfied and together they fit both caps. */
  lemma PackedIffSatisfied(e: EvidenceSet, o: Obligations, budget: Budget, asOf: nat, values: map<Ref, nat>)
    ensures Pack(e, o, budget, asOf, values).manifest.payload.status == Packed <==>
      Satisfied(e, o, asOf) && !Overflows(e, o, budget, asOf)
  {
    NoBadArtifacts(e, Sorted(o.requiredArtifacts), asOf);
    NoBadClaims(e, Sorted(o.requiredClaims), asOf);
  }

  lemma MandatoryHolds(e: EvidenceSet, o: Obligations, asOf: nat)
    requires Satisfied(e, o, asOf)
    ensures forall ref :: ref in o.requiredArtifacts ==>
      Present(e, ref) && ArtifactBlock(e, ref) in MandatoryBlocks(e, o, asOf)
    ensures forall c :: c in o.requiredClaims ==>
      FindClaim(e.claims, c).Some? && ClaimBlock(e, c) in MandatoryBlocks(e, o, asOf)
    ensures forall c, ref :: c in o.requiredClaims && ref in FindClaim(e.claims, c).value.evidence ==>
      Usable(e, ref, asOf) && ArtifactBlock(e, ref) in MandatoryBlocks(e, o, asOf)
  {
    forall ref | ref in MandatoryArtifacts(e, o, asOf)
      ensures ArtifactBlock(e, ref) in MandatoryBlocks(e, o, asOf)
    {
      MandatoryArtifactIn(e, o, asOf, ref);
    }
    forall c | c in o.requiredClaims
      ensures ClaimBlock(e, c) in MandatoryBlocks(e, o, asOf)
    {
      MandatoryClaimIn(e, o, asOf, c);
    }
  }

  lemma MandatoryArtifactIn(e: EvidenceSet, o: Obligations, asOf: nat, ref: Ref)
    requires ref in MandatoryArtifacts(e, o, asOf)
    ensures ArtifactBlock(e, ref) in MandatoryBlocks(e, o, asOf)
  {
    var refs := Sorted(MandatoryArtifacts(e, o, asOf));
    var i :| 0 <= i < |refs| && refs[i] == ref;
    assert MandatoryBlocks(e, o, asOf)[i] == ArtifactBlock(e, ref);
  }

  lemma MandatoryClaimIn(e: EvidenceSet, o: Obligations, asOf: nat, c: Ref)
    requires c in GoodClaims(e, o, asOf)
    ensures ClaimBlock(e, c) in MandatoryBlocks(e, o, asOf)
  {
    var refs := Sorted(GoodClaims(e, o, asOf));
    var i :| 0 <= i < |refs| && refs[i] == c;
    assert MandatoryBlocks(e, o, asOf)[|Sorted(MandatoryArtifacts(e, o, asOf))| + i] == ClaimBlock(e, c);
  }

  /** A packed context holds every obligation, the evidence of every required claim, and nothing that is not usable. */
  lemma PackedHoldsEverything(e: EvidenceSet, o: Obligations, budget: Budget, asOf: nat, values: map<Ref, nat>)
    requires Pack(e, o, budget, asOf, values).manifest.payload.status == Packed
    ensures var blocks := Pack(e, o, budget, asOf, values).blocks;
      && (forall ref :: ref in o.requiredArtifacts ==> Usable(e, ref, asOf) && ArtifactBlock(e, ref) in blocks)
      && (forall c :: c in o.requiredClaims ==> Upheld(e, c, asOf) && ClaimBlock(e, c) in blocks)
      && (forall c, ref :: c in o.requiredClaims && ref in FindClaim(e.claims, c).value.evidence ==>
            Usable(e, ref, asOf) && ArtifactBlock(e, ref) in blocks)
  {
    PackedIffSatisfied(e, o, budget, asOf, values);
    MandatoryHolds(e, o, asOf);
    var blocks := Pack(e, o, budget, asOf, values).blocks;
    assert forall b :: b in MandatoryBlocks(e, o, asOf) ==> b in blocks;
  }

  ghost predicate Genuine(e: EvidenceSet, b: Block, asOf: nat) {
    if b.kind == ArtifactKind then Usable(e, b.ref, asOf) && b == ArtifactBlock(e, b.ref)
    else Upheld(e, b.ref, asOf) && b == ClaimBlock(e, b.ref)
  }

  lemma ArtifactBlocksAreGenuine(e: EvidenceSet, refs: seq<Ref>, asOf: nat, b: Block)
    requires forall ref :: ref in refs ==> Present(e, ref) && Usable(e, ref, asOf)
    requires b in ArtifactBlocks(e, refs)
    ensures Genuine(e, b, asOf)
  {
    var i :| 0 <= i < |refs| && ArtifactBlocks(e, refs)[i] == b;
    assert refs[i] in refs;
  }

  lemma ClaimBlocksAreGenuine(e: EvidenceSet, refs: seq<Ref>, asOf: nat, b: Block)
    requires forall ref :: ref in refs ==> FindClaim(e.claims, ref).Some? && Upheld(e, ref, asOf)
    requires b in ClaimBlocks(e, refs)
    ensures Genuine(e, b, asOf)
  {
    var i :| 0 <= i < |refs| && ClaimBlocks(e, refs)[i] == b;
    assert refs[i] in refs;
  }

  lemma MandatoryIsGenuine(e: EvidenceSet, o: Obligations, asOf: nat, b: Block)
    requires b in MandatoryBlocks(e, o, asOf)
    ensures Genuine(e, b, asOf)
  {
    var refs, claims := Sorted(MandatoryArtifacts(e, o, asOf)), Sorted(GoodClaims(e, o, asOf));
    if b in ArtifactBlocks(e, refs) {
      ArtifactBlocksAreGenuine(e, refs, asOf, b);
    } else {
      ClaimBlocksAreGenuine(e, claims, asOf, b);
    }
  }

  lemma {:induction false} CandidatesAreGenuine(
    e: EvidenceSet, mandatory: set<Ref>, refs: seq<Ref>, values: map<Ref, nat>, asOf: nat, c: Candidate)
    requires forall ref :: ref in refs ==> ref in values
    requires c in Candidates(e, mandatory, refs, values, asOf)
    ensures Genuine(e, c.block, asOf) && c.block.ref in refs && c.block.ref !in mandatory
    ensures c.value == values[c.block.ref]
  {
    var front := Candidates(e, mandatory, refs[..|refs| - 1], values, asOf);
    if c in front {
      CandidatesAreGenuine(e, mandatory, refs[..|refs| - 1], values, asOf, c);
    }
  }

  lemma ChosenWasCandidate(s: seq<Candidate>, level: Level, budget: Budget, c: Candidate)
    requires c in Filled(Ranked(s), level, budget).chosen
    ensures c in s
  {
    FilledIsPermutation(Ranked(s), level, budget);
    RankedIsPermutation(s);
    assert c in multiset(Filled(Ranked(s), level, budget).chosen);
    assert c in multiset(s);
  }

  lemma ChosenIsGenuine(e: EvidenceSet, mandatory: set<Ref>, refs: seq<Ref>, values: map<Ref, nat>, asOf: nat,
    level: Level, budget: Budget, b: Block)
    requires forall ref :: ref in refs ==> ref in values
    requires b in CandidateBlocks(Filled(Ranked(Candidates(e, mandatory, refs, values, asOf)), level, budget).chosen)
    ensures Genuine(e, b, asOf)
  {
    var s := Candidates(e, mandatory, refs, values, asOf);
    var chosen := Filled(Ranked(s), level, budget).chosen;
    var i :| 0 <= i < |chosen| && CandidateBlocks(chosen)[i] == b;
    ChosenWasCandidate(s, level, budget, chosen[i]);
    CandidatesAreGenuine(e, mandatory, refs, values, asOf, chosen[i]);
  }

  /** Every block of the result is a usable artifact or an upheld claim of the set. */
  lemma PackedIsGenuine(e: EvidenceSet, o: Obligations, budget: Budget, asOf: nat, values: map<Ref, nat>, b: Block)
    requires b in Pack(e, o, budget, asOf, values).blocks
    ensures Genuine(e, b, asOf)
  {
    if b in MandatoryBlocks(e, o, asOf) {
      MandatoryIsGenuine(e, o, asOf, b);
    } else {
      ChosenIsGenuine(e, MandatoryArtifacts(e, o, asOf), Sorted(values.Keys), values, asOf,
        LevelOf(MandatoryBlocks(e, o, asOf)), budget, b);
    }
  }

  /** No two packed claims contradict each other, even when only one of them declares it. */
  lemma PackedClaimsAgree(e: EvidenceSet, o: Obligations, budget: Budget, asOf: nat, values: map<Ref, nat>,
      a: Block, b: Block)
    requires a in Pack(e, o, budget, asOf, values).blocks && b in Pack(e, o, budget, asOf, values).blocks
    requires a.kind == ClaimKind && b.kind == ClaimKind
    ensures FindClaim(e.claims, a.ref).Some? && FindClaim(e.claims, b.ref).Some?
    ensures !Conflict(FindClaim(e.claims, a.ref).value, FindClaim(e.claims, b.ref).value)
  {
    PackedIsGenuine(e, o, budget, asOf, values, a);
    PackedIsGenuine(e, o, budget, asOf, values, b);
    UpheldNeverConflict(e, a.ref, b.ref, asOf);
  }

  /** A refusal carries nothing and reports every obligation as unsatisfied and all optional value as lost. */
  lemma RefusalIsTotal(e: EvidenceSet, o: Obligations, budget: Budget, asOf: nat, values: map<Ref, nat>)
    requires Pack(e, o, budget, asOf, values).manifest.payload.status == Refused
    ensures var r := Pack(e, o, budget, asOf, values);
      && r.blocks == [] && r.manifest.payload.included == [] && r.manifest.payload.refusals != {}
      && r.manifest.payload.loss.lost == TotalValue(Sorted(values.Keys), values)
      && r.manifest.payload.loss.unsatisfied == Obliged(o)
  {
    var bad := BadArtifactEntries(e, Sorted(o.requiredArtifacts), asOf)
      + BadClaimEntries(e, Sorted(o.requiredClaims), asOf);
    RefusalsAreSome(bad);
  }

  lemma RefusalsAreSome(bad: seq<Entry>)
    ensures RefusalsOf(bad) == {} <==> bad == []
  {
    if bad != [] {
      assert BadObligation(bad[0].key, bad[0].reason) in RefusalsOf(bad);
    }
  }

  // ---------------------------------------------------------------- optional value

  /** The value of the optional entries of a list. */
  ghost function OptionalValue(entries: seq<Entry>): nat {
    if entries == [] then 0 else
    OptionalValue(entries[..|entries| - 1])
      + if entries[|entries| - 1].mandatory then 0 else entries[|entries| - 1].value
  }

  lemma {:induction false} OptionalValueAppend(a: seq<Entry>, b: seq<Entry>)
    ensures OptionalValue(a + b) == OptionalValue(a) + OptionalValue(b)
  {
    if b == [] {
      assert a + b == a;
    } else {
      OptionalValueAppend(a, b[..|b| - 1]);
      assert (a + b)[..|a + b| - 1] == a + b[..|b| - 1];
    }
  }

  lemma {:induction false} BlockEntriesAreMandatory(entries: seq<Entry>)
    requires forall i :: 0 <= i < |entries| ==> entries[i].mandatory
    ensures OptionalValue(entries) == 0
  {
    if entries != [] {
      BlockEntriesAreMandatory(entries[..|entries| - 1]);
    }
  }

  lemma {:induction false} EntriesOfCandidates(s: seq<Candidate>)
    ensures OptionalValue(ChosenEntries(s)) == Value(s) && OptionalValue(RejectedEntries(s)) == Value(s)
  {
    if s != [] {
      EntriesOfCandidates(s[..|s| - 1]);
      assert ChosenEntries(s)[..|s| - 1] == ChosenEntries(s[..|s| - 1]);
      assert RejectedEntries(s)[..|s| - 1] == RejectedEntries(s[..|s| - 1]);
    }
  }

  /** Every option is a candidate or a fault, with the best value offered for it. */
  lemma {:induction false} OptionsSplit(e: EvidenceSet, mandatory: set<Ref>, refs: seq<Ref>, values: map<Ref,
      nat>, asOf: nat)
    requires forall ref :: ref in refs ==> ref in values
    ensures Value(Candidates(e, mandatory, refs, values, asOf))
      + OptionalValue(FaultEntries(e, mandatory, refs, values, asOf))
            == TotalValue(refs, values)
  {
    if refs != [] {
      var front, last := refs[..|refs| - 1], refs[|refs| - 1];
      OptionsSplit(e, mandatory, front, values, asOf);
      var fault := OptionFault(e, mandatory, last, asOf);
      if fault.None? {
        ValueAppend(Candidates(e, mandatory, front, values, asOf), Candidate(values[last], ArtifactBlock(e, last)));
      } else {
        OptionalValueAppend(FaultEntries(e, mandatory, front, values, asOf),
          [MissingEntry(Key(ArtifactKind, last), false, fault.value, values[last])]);
        assert [MissingEntry(Key(ArtifactKind, last), false, fault.value, values[last])][..0] == [];
      }
    }
  }

  lemma {:induction false} SkippedValue(refs: seq<Ref>, values: map<Ref, nat>)
    requires forall ref :: ref in refs ==> ref in values
    ensures OptionalValue(SkippedEntries(refs, values)) == TotalValue(refs, values)
  {
    if refs != [] {
      SkippedValue(refs[..|refs| - 1], values);
      var last := refs[|refs| - 1];
      assert SkippedEntries(refs, values)[..|SkippedEntries(refs, values)| - 1] ==
        SkippedEntries(refs[..|refs| - 1], values);
    }
  }

  lemma {:induction false} RankedValue(s: seq<Candidate>)
    ensures Value(Ranked(s)) == Value(s)
  {
    if s != [] {
      RankedValue(s[1..]);
      InsertValue(s[0], Ranked(s[1..]));
      ValueCons(s[0], s[1..]);
      assert [s[0]] + s[1..] == s;
    }
  }

  lemma {:induction false} InsertValue(c: Candidate, s: seq<Candidate>)
    ensures Value(Insert(c, s)) == c.value + Value(s)
  {
    if s == [] || Precedes(c, s[0]) {
      ValueCons(c, s);
    } else {
      InsertValue(c, s[1..]);
      ValueCons(s[0], Insert(c, s[1..]));
      ValueCons(s[0], s[1..]);
      assert [s[0]] + s[1..] == s;
    }
  }

  lemma {:induction false} BadArtifactsAreMandatory(e: EvidenceSet, refs: seq<Ref>, asOf: nat)
    ensures OptionalValue(BadArtifactEntries(e, refs, asOf)) == 0
  {
    if refs != [] {
      BadArtifactsAreMandatory(e, refs[..|refs| - 1], asOf);
      var front := BadArtifactEntries(e, refs[..|refs| - 1], asOf);
      var r := BadArtifactEntries(e, refs, asOf);
      if r != front { assert r[..|r| - 1] == front; }
    }
  }

  lemma {:induction false} BadClaimsAreMandatory(e: EvidenceSet, refs: seq<Ref>, asOf: nat)
    ensures OptionalValue(BadClaimEntries(e, refs, asOf)) == 0
  {
    if refs != [] {
      BadClaimsAreMandatory(e, refs[..|refs| - 1], asOf);
      var front := BadClaimEntries(e, refs[..|refs| - 1], asOf);
      var r := BadClaimEntries(e, refs, asOf);
      if r != front { assert r[..|r| - 1] == front; }
    }
  }

  /** Kept value is what the included entries hold, lost value what the excluded ones hold. */
  ghost predicate TrueReport(p: Payload) {
    && p.loss.kept == OptionalValue(p.included) && p.loss.lost == OptionalValue(p.excluded)
    && p.loss.total == p.loss.kept + p.loss.lost && p.loss.excludedCount == OptionalCount(p.excluded)
  }

  lemma IncludedValue(mandatory: seq<Block>, chosen: seq<Candidate>)
    ensures OptionalValue(BlockEntries(mandatory, true, MandatoryObligation) + ChosenEntries(chosen)) == Value(chosen)
  {
    EntriesOfCandidates(chosen);
    BlockEntriesAreMandatory(BlockEntries(mandatory, true, MandatoryObligation));
    OptionalValueAppend(BlockEntries(mandatory, true, MandatoryObligation), ChosenEntries(chosen));
  }

  lemma ExcludedValue(faults: seq<Entry>, rejected: seq<Candidate>)
    ensures OptionalValue(faults + RejectedEntries(rejected)) == OptionalValue(faults) + Value(rejected)
  {
    EntriesOfCandidates(rejected);
    OptionalValueAppend(faults, RejectedEntries(rejected));
  }

  lemma PackedOverReport(mandatory: seq<Block>, budget: Budget, asOf: nat, faults: seq<Entry>,
      picked: Selection, total: nat, p: Payload)
    requires Value(picked.chosen) + Value(picked.rejected) + OptionalValue(faults) == total
    requires p == PackedOver(mandatory, budget, asOf, faults, picked, total).manifest.payload
    ensures TrueReport(p)
  {
    IncludedValue(mandatory, picked.chosen);
    ExcludedValue(faults, picked.rejected);
  }

  lemma PickedSplits(s: seq<Candidate>, level: Level, budget: Budget)
    ensures Value(Filled(Ranked(s), level, budget).chosen)
      + Value(Filled(Ranked(s), level, budget).rejected) == Value(s)
  {
    FilledSplits(Ranked(s), level, budget);
    RankedValue(s);
  }

  lemma RefusedReport(entries: seq<Entry>, blocks: seq<Block>, reason: Reason, options: seq<Ref>, values: map<Ref, nat>,
    o: Obligations, budget: Budget, asOf: nat, refusals: set<Refusal>)
    requires forall ref :: ref in options ==> ref in values
    requires OptionalValue(entries) == 0
    ensures var excluded := entries + BlockEntries(blocks, false, reason) + SkippedEntries(options, values);
      TrueReport(RefusedContext(o, budget, asOf, excluded, refusals, TotalValue(options, values)).manifest.payload)
  {
    BlockEntriesAreMandatory(BlockEntries(blocks, false, reason));
    OptionalValueAppend(entries, BlockEntries(blocks, false, reason));
    OptionalValueAppend(entries + BlockEntries(blocks, false, reason), SkippedEntries(options, values));
    SkippedValue(options, values);
  }

  lemma BadEntriesAreMandatory(e: EvidenceSet, artifacts: seq<Ref>, claims: seq<Ref>, asOf: nat)
    ensures OptionalValue(BadArtifactEntries(e, artifacts, asOf) + BadClaimEntries(e, claims, asOf)) == 0
  {
    BadArtifactsAreMandatory(e, artifacts, asOf);
    BadClaimsAreMandatory(e, claims, asOf);
    OptionalValueAppend(BadArtifactEntries(e, artifacts, asOf), BadClaimEntries(e, claims, asOf));
  }

  lemma OptionalReport(e: EvidenceSet, artifacts: set<Ref>, options: seq<Ref>, values: map<Ref, nat>,
    blocks: seq<Block>, budget: Budget, asOf: nat)
    requires forall ref :: ref in options ==> ref in values
    ensures var s := Candidates(e, artifacts, options, values, asOf);
      TrueReport(PackedOver(blocks, budget, asOf, FaultEntries(e, artifacts, options, values, asOf),
        Filled(Ranked(s), LevelOf(blocks), budget), TotalValue(options, values)).manifest.payload)
  {
    var s := Candidates(e, artifacts, options, values, asOf);
    var faults := FaultEntries(e, artifacts, options, values, asOf);
    var picked := Filled(Ranked(s), LevelOf(blocks), budget);
    OptionsSplit(e, artifacts, options, values, asOf);
    PickedSplits(s, LevelOf(blocks), budget);
    PackedOverReport(blocks, budget, asOf, faults, picked, TotalValue(options, values),
      PackedOver(blocks, budget, asOf, faults, picked, TotalValue(options, values)).manifest.payload);
  }

  /** Optional value splits exactly into what is included and what is excluded, packed or refused. */
  lemma OptionalValueSplits(e: EvidenceSet, o: Obligations, budget: Budget, asOf: nat, values: map<Ref, nat>)
    ensures TrueReport(Pack(e, o, budget, asOf, values).manifest.payload)
    ensures Pack(e, o, budget, asOf, values).manifest.payload.loss.total == TotalValue(Sorted(values.Keys), values)
  {
    if Pack(e, o, budget, asOf, values).manifest.payload.status == Packed {
      PackedReport(e, o, budget, asOf, values);
    } else {
      RefusalReport(e, o, budget, asOf, values);
    }
  }

  lemma PackedReport(e: EvidenceSet, o: Obligations, budget: Budget, asOf: nat, values: map<Ref, nat>)
    requires Pack(e, o, budget, asOf, values).manifest.payload.status == Packed
    ensures TrueReport(Pack(e, o, budget, asOf, values).manifest.payload)
  {
    OptionalReport(e, MandatoryArtifacts(e, o, asOf), Sorted(values.Keys), values, MandatoryBlocks(e, o, asOf), budget,
      asOf);
  }

  lemma RefusalReport(e: EvidenceSet, o: Obligations, budget: Budget, asOf: nat, values: map<Ref, nat>)
    requires Pack(e, o, budget, asOf, values).manifest.payload.status == Refused
    ensures TrueReport(Pack(e, o, budget, asOf, values).manifest.payload)
  {
    var options := Sorted(values.Keys);
    var blocks := MandatoryBlocks(e, o, asOf);
    var bad := BadArtifactEntries(e, Sorted(o.requiredArtifacts), asOf)
      + BadClaimEntries(e, Sorted(o.requiredClaims), asOf);
    BadEntriesAreMandatory(e, Sorted(o.requiredArtifacts), Sorted(o.requiredClaims), asOf);
    RefusedReport(bad, blocks, RefusedWithAnother, options, values, o, budget, asOf, RefusalsOf(bad));
    if bad == [] {
      RefusedReport([], blocks, ExceedsCap, options, values, o, budget, asOf,
        {OverCap(BlockBytes(blocks), BlockTokens(blocks))});
      assert [] + BlockEntries(blocks, false, ExceedsCap) == BlockEntries(blocks, false, ExceedsCap);
    }
  }

  // ---------------------------------------------------------------- how good the choice is

  /** The candidates of a packing, in order of reference. */
  ghost function Offered(e: EvidenceSet, o: Obligations, asOf: nat, values: map<Ref, nat>): seq<Candidate> {
    Candidates(e, MandatoryArtifacts(e, o, asOf), Sorted(values.Keys), values, asOf)
  }

  /**
   * For every set of valid optional artifacts that fits the space left after the mandatory blocks, its
   * value is at most the value kept plus that of the first candidate rejected.
   */
  lemma PackingIsNearlyBest(e: EvidenceSet, o: Obligations, budget: Budget, asOf: nat, values: map<Ref, nat>,
      rivals: set<Ref>)
    requires Pack(e, o, budget, asOf, values).manifest.payload.status == Packed
    requires var weight := Bytes(Within(Offered(e, o, asOf, values), rivals));
      var blocks := MandatoryBlocks(e, o, asOf);
      BlockBytes(blocks) + weight <= budget.maxBytes && BlockTokens(blocks) + weight <= budget.maxTokens
    ensures var picked := Picked(e, o, budget, asOf, values);
      Value(Within(Offered(e, o, asOf, values), rivals)) <=
        Pack(e, o, budget, asOf, values).manifest.payload.loss.kept
          + if picked.rejected == [] then 0 else picked.rejected[0].value
  {
    var s := Offered(e, o, asOf, values);
    RankedDeclines(s);
    RankedSameWithin(s, rivals);
    GreedyBound(Ranked(s), LevelOf(MandatoryBlocks(e, o, asOf)), budget, rivals);
  }

  /** No optional artifact left out for lack of space would still fit. */
  lemma PackingIsMaximal(e: EvidenceSet, o: Obligations, budget: Budget, asOf: nat, values: map<Ref, nat>, c: Candidate)
    requires Pack(e, o, budget, asOf, values).manifest.payload.status == Packed
    requires c in Picked(e, o, budget, asOf, values).rejected
    ensures var p := Pack(e, o, budget, asOf, values).manifest.payload;
      p.usedBytes + c.block.byteSize > budget.maxBytes || p.usedTokens + c.block.TokenSize() > budget.maxTokens
  {
    NothingLeftFits(Ranking(e, o, asOf, values), LevelOf(MandatoryBlocks(e, o, asOf)), budget, c);
  }

  // ---------------------------------------------------------------- options as a set

  lemma {:induction false} BestIsLargest(options: seq<OptionalArtifact>, ref: Ref)
    ensures ref in BestValues(options) <==> exists i :: 0 <= i < |options| && options[i].ref == ref
    ensures ref in BestValues(options) ==>
      && (exists i :: 0 <= i < |options| && options[i] == OptionalArtifact(ref, BestValues(options)[ref]))
      && (forall i :: 0 <= i < |options| && options[i].ref == ref ==> options[i].valueUnits <= BestValues(options)[ref])
  {
    if options != [] {
      var front, last := options[..|options| - 1], options[|options| - 1];
      BestIsLargest(front, ref);
      assert forall i :: 0 <= i < |front| ==> options[i] == front[i];
      if ref in BestValues(front) {
        var i :| 0 <= i < |front| && front[i] == OptionalArtifact(ref, BestValues(front)[ref]);
        assert options[i] == front[i];
      }
      if last.ref == ref {
        assert options[|options| - 1].ref == ref;
        assert last == OptionalArtifact(ref, last.valueUnits);
      }
    }
  }

  ghost predicate SameOffers(a: seq<OptionalArtifact>, b: seq<OptionalArtifact>) {
    forall x :: x in a <==> x in b
  }

  lemma BestOf(a: seq<OptionalArtifact>, b: seq<OptionalArtifact>, ref: Ref)
    requires SameOffers(a, b) && ref in BestValues(a)
    ensures ref in BestValues(b) && BestValues(a)[ref] <= BestValues(b)[ref]
  {
    BestIsLargest(a, ref);
    BestIsLargest(b, ref);
    var i :| 0 <= i < |a| && a[i] == OptionalArtifact(ref, BestValues(a)[ref]);
    assert a[i] in b;
    var j :| 0 <= j < |b| && b[j] == a[i];
  }

  /** The result ignores the order and the duplicates of the options. */
  lemma OrderOfOptionsIsIrrelevant(
    e: EvidenceSet, o: Obligations, budget: Budget, asOf: nat, a: seq<OptionalArtifact>, b: seq<OptionalArtifact>)
    requires SameOffers(a, b)
    ensures Pack(e, o, budget, asOf, BestValues(a)) == Pack(e, o, budget, asOf, BestValues(b))
  {
    SameBest(a, b);
  }

  lemma SameBest(a: seq<OptionalArtifact>, b: seq<OptionalArtifact>)
    requires SameOffers(a, b)
    ensures BestValues(a) == BestValues(b)
  {
    forall ref
      ensures ref in BestValues(a) <==> ref in BestValues(b)
      ensures ref in BestValues(a) && ref in BestValues(b) ==> BestValues(a)[ref] == BestValues(b)[ref]
    {
      if ref in BestValues(a) { BestOf(a, b, ref); }
      if ref in BestValues(b) { BestOf(b, a, ref); }
    }
  }
}
