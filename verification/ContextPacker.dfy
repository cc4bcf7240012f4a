/** The packer as it runs: its loops, dictionaries and meters, against the packing it must produce. */
module ContextPacker {
  import opened Contracts
  import opened Evidence
  import opened Knapsack
  import opened Packing
  import opened Sorting
  import opened PackingTheorems

  /** The dictionary of best option values. */
  method CollectOptions(options: seq<OptionalArtifact>) returns (values: map<Ref, nat>)
    ensures values == BestValues(options)
  {
    values := map[];
    for i := 0 to |options|
      invariant values == BestValues(options[..i])
    {
      var option := options[i];
      assert options[..i + 1][..i] == options[..i];
      values := values[option.ref := Max(option.valueUnits, if option.ref in values then values[option.ref] else 0)];
    }
    assert options[..|options|] == options;
  }

  /** What the required-block dictionary holds. */
  ghost predicate Holds(e: EvidenceSet, blocks: map<Key, Block>, artifacts: set<Ref>, claims: set<Ref>) {
    && (forall ref :: Key(ArtifactKind, ref) in blocks <==> ref in artifacts)
    && (forall ref :: Key(ClaimKind, ref) in blocks <==> ref in claims)
    && (forall ref :: ref in artifacts ==> Present(e, ref) && blocks[Key(ArtifactKind, ref)] == ArtifactBlock(e, ref))
    && (forall ref :: ref in claims ==>
      FindClaim(e.claims, ref).Some? && blocks[Key(ClaimKind, ref)] == ClaimBlock(e, ref))
  }

  method FaultOf(e: EvidenceSet, ref: Ref, asOf: nat) returns (fault: Option<Reason>)
    ensures fault == if DefectOf(e, ref, asOf).Some? then Some(ArtifactFault(DefectOf(e, ref, asOf).value)) else None
  {
    var artifact := FindArtifact(e.artifacts, ref);
    fault := None;
    if artifact.None? {
      fault := Some(ArtifactFault(Absent));
    } else if !artifact.value.Verify() {
      fault := Some(ArtifactFault(Broken));
    } else if !artifact.value.IsFresh(asOf) {
      fault := Some(ArtifactFault(Expired));
    }
  }

  method RequireArtifacts(e: EvidenceSet, refs: seq<Ref>, asOf: nat)
    returns (blocks: map<Key, Block>, invalid: seq<Entry>)
    ensures invalid == BadArtifactEntries(e, refs, asOf)
    ensures Holds(e, blocks, set ref | ref in refs && Usable(e, ref, asOf), {})
  {
    blocks, invalid := map[], [];
    for i := 0 to |refs|
      invariant invalid == BadArtifactEntries(e, refs[..i], asOf)
      invariant Holds(e, blocks, set ref | ref in refs[..i] && Usable(e, ref, asOf), {})
    {
      var ref := refs[i];
      assert refs[..i + 1][..i] == refs[..i];
      var fault := FaultOf(e, ref, asOf);
      if fault.Some? {
        invalid := invalid + [MissingEntry(Key(ArtifactKind, ref), true, fault.value, 0)];
      } else {
        blocks := blocks[Key(ArtifactKind, ref) := ArtifactBlock(e, ref)];
      }
    }
    assert refs[..|refs|] == refs;
  }

  ghost function UpheldIn(e: EvidenceSet, refs: seq<Ref>, asOf: nat): set<Ref> {
    set ref | ref in refs && Upheld(e, ref, asOf)
  }

  lemma UpheldGrows(e: EvidenceSet, refs: seq<Ref>, i: nat, asOf: nat, artifacts: set<Ref>)
    requires i < |refs| && Upheld(e, refs[i], asOf)
    ensures var before, after := UpheldIn(e, refs[..i], asOf), UpheldIn(e, refs[..i + 1], asOf);
      && after == before + {refs[i]}
      && artifacts + EvidenceOf(e, after)
         == artifacts + EvidenceOf(e, before) + Elements(FindClaim(e.claims, refs[i]).value.evidence)
  {
    var before, after := UpheldIn(e, refs[..i], asOf), UpheldIn(e, refs[..i + 1], asOf);
    assert refs[..i + 1] == refs[..i] + [refs[i]];
    assert after == before + {refs[i]};
    assert EvidenceOf(e, after) == EvidenceOf(e, before) + Elements(FindClaim(e.claims, refs[i]).value.evidence);
  }

  method RequireClaims(e: EvidenceSet, refs: seq<Ref>, asOf: nat, start: map<Key, Block>, ghost artifacts: set<Ref>)
    returns (blocks: map<Key, Block>, invalid: seq<Entry>)
    requires Holds(e, start, artifacts, {})
    ensures invalid == BadClaimEntries(e, refs, asOf)
    ensures Holds(e, blocks, artifacts + EvidenceOf(e, UpheldIn(e, refs, asOf)), UpheldIn(e, refs, asOf))
  {
    blocks, invalid := start, [];
    assert UpheldIn(e, refs[..0], asOf) == {};
    assert artifacts + EvidenceOf(e, {}) == artifacts;
    for i := 0 to |refs|
      invariant invalid == BadClaimEntries(e, refs[..i], asOf)
      invariant Holds(e, blocks, artifacts + EvidenceOf(e, UpheldIn(e, refs[..i], asOf)), UpheldIn(e, refs[..i], asOf))
    {
      var ref := refs[i];
      assert refs[..i + 1][..i] == refs[..i] && refs[..i + 1] == refs[..i] + [ref];
      var assessment := AssessClaim(e, ref, asOf);
      if assessment.status != Supported {
        invalid := invalid + [MissingEntry(Key(ClaimKind, ref), true, ClaimFault(assessment.status), 0)];
        assert UpheldIn(e, refs[..i + 1], asOf) == UpheldIn(e, refs[..i], asOf);
      } else {
        ghost var before := UpheldIn(e, refs[..i], asOf);
        UpheldGrows(e, refs, i, asOf, artifacts);
        blocks := RequireClaim(e, ref, asOf, blocks, artifacts + EvidenceOf(e, before), before);
      }
    }
    assert refs[..|refs|] == refs;
  }

  /** A supported claim and each of its evidence blocks. */
  method RequireClaim(e: EvidenceSet, ref: Ref, asOf: nat, start: map<Key, Block>, ghost artifacts: set<Ref>,
      ghost claims: set<Ref>)
    returns (blocks: map<Key, Block>)
    requires Upheld(e, ref, asOf) && Holds(e, start, artifacts, claims)
    ensures Holds(e, blocks, artifacts + Elements(FindClaim(e.claims, ref).value.evidence), claims + {ref})
  {
    var claim := FindClaim(e.claims, ref).value;
    blocks := start[Key(ClaimKind, ref) := ClaimBlock(e, ref)];
    assert artifacts + Elements(claim.evidence[..0]) == artifacts;
    for i := 0 to |claim.evidence|
      invariant Holds(e, blocks, artifacts + Elements(claim.evidence[..i]), claims + {ref})
    {
      var evidence := claim.evidence[i];
      assert evidence in claim.evidence && Usable(e, evidence, asOf);
      assert Elements(claim.evidence[..i + 1]) == Elements(claim.evidence[..i]) + {evidence};
      blocks := blocks[Key(ArtifactKind, evidence) := ArtifactBlock(e, evidence)];
    }
    assert claim.evidence[..|claim.evidence|] == claim.evidence;
  }

  /** The references of one kind among the keys. */
  method RefsOfKind(e: EvidenceSet, blocks: map<Key, Block>, ghost artifacts: set<Ref>, ghost claims: set<Ref>)
    returns (artifactRefs: set<Ref>, claimRefs: set<Ref>)
    requires Holds(e, blocks, artifacts, claims)
    ensures artifactRefs == artifacts && claimRefs == claims
  {
    artifactRefs := set k | k in blocks && k.kind == ArtifactKind :: k.ref;
    claimRefs := set k | k in blocks && k.kind == ClaimKind :: k.ref;
    assert forall ref :: ref in artifacts ==> Key(ArtifactKind, ref) in blocks;
    assert forall ref :: ref in claims ==> Key(ClaimKind, ref) in blocks;
  }

  method OrderArtifacts(e: EvidenceSet, blocks: map<Key, Block>, refs: seq<Ref>) returns (ordered: seq<Block>)
    requires forall ref :: ref in refs ==>
      Key(ArtifactKind, ref) in blocks && Present(e, ref) && blocks[Key(ArtifactKind, ref)] == ArtifactBlock(e, ref)
    ensures ordered == ArtifactBlocks(e, refs)
  {
    ordered := [];
    for i := 0 to |refs|
      invariant |ordered| == i && forall k :: 0 <= k < i ==> ordered[k] == ArtifactBlocks(e, refs)[k]
    {
      ordered := ordered + [blocks[Key(ArtifactKind, refs[i])]];
    }
  }

  method OrderClaims(e: EvidenceSet, blocks: map<Key, Block>, refs: seq<Ref>) returns (ordered: seq<Block>)
    requires forall ref :: ref in refs ==>
      && Key(ClaimKind, ref) in blocks && FindClaim(e.claims, ref).Some?
      && blocks[Key(ClaimKind, ref)] == ClaimBlock(e, ref)
    ensures ordered == ClaimBlocks(e, refs)
  {
    ordered := [];
    for i := 0 to |refs|
      invariant |ordered| == i && forall k :: 0 <= k < i ==> ordered[k] == ClaimBlocks(e, refs)[k]
    {
      ordered := ordered + [blocks[Key(ClaimKind, refs[i])]];
    }
  }

  method Weigh(blocks: seq<Block>) returns (level: Level)
    ensures level == LevelOf(blocks)
  {
    var usedBytes, usedTokens := 0, 0;
    for i := 0 to |blocks|
      invariant usedBytes == BlockBytes(blocks[..i]) && usedTokens == BlockTokens(blocks[..i])
    {
      assert blocks[..i + 1][..i] == blocks[..i];
      usedBytes := usedBytes + blocks[i].byteSize;
      usedTokens := usedTokens + blocks[i].TokenSize();
    }
    assert blocks[..|blocks|] == blocks;
    level := Level(usedBytes, usedTokens);
  }

  /** The sum of the dictionary's values. */
  method SumValues(refs: seq<Ref>, values: map<Ref, nat>) returns (total: nat)
    requires forall ref :: ref in refs ==> ref in values
    ensures total == TotalValue(refs, values)
  {
    total := 0;
    for i := 0 to |refs|
      invariant total == TotalValue(refs[..i], values)
    {
      assert refs[..i + 1][..i] == refs[..i];
      total := total + values[refs[i]];
    }
    assert refs[..|refs|] == refs;
  }

  /** The candidates in order of reference, and the options that cannot be one. */
  method GatherCandidates(e: EvidenceSet, mandatory: set<Ref>, refs: seq<Ref>, values: map<Ref, nat>, asOf: nat)
    returns (candidates: seq<Candidate>, excluded: seq<Entry>)
    requires forall ref :: ref in refs ==> ref in values
    ensures candidates == Candidates(e, mandatory, refs, values, asOf)
    ensures excluded == FaultEntries(e, mandatory, refs, values, asOf)
  {
    candidates, excluded := [], [];
    for i := 0 to |refs|
      invariant candidates == Candidates(e, mandatory, refs[..i], values, asOf)
      invariant excluded == FaultEntries(e, mandatory, refs[..i], values, asOf)
    {
      var ref := refs[i];
      assert refs[..i + 1][..i] == refs[..i];
      if ref in mandatory {
        excluded := excluded + [MissingEntry(Key(ArtifactKind, ref), false, AlreadyMandatory, values[ref])];
        continue;
      }
      var fault := FaultOf(e, ref, asOf);
      if fault.Some? {
        excluded := excluded + [MissingEntry(Key(ArtifactKind, ref), false, fault.value, values[ref])];
      } else {
        candidates := candidates + [Candidate(values[ref], ArtifactBlock(e, ref))];
      }
    }
    assert refs[..|refs|] == refs;
  }

  lemma FilledStep(ranking: seq<Candidate>, i: nat, start: Level, budget: Budget)
    requires i < |ranking|
    ensures Filled(ranking[..i + 1], start, budget) ==
      var front, c := Filled(ranking[..i], start, budget), ranking[i];
      if front.level.Takes(c.block, budget)
      then front.(chosen := front.chosen + [c], level := front.level.With(c.block))
      else front.(rejected := front.rejected + [c])
  {
    assert ranking[..i + 1][..i] == ranking[..i];
  }

  lemma EntriesStep(s: seq<Candidate>, c: Candidate)
    ensures CandidateBlocks(s + [c]) == CandidateBlocks(s) + [c.block]
    ensures ChosenEntries(s + [c]) == ChosenEntries(s) + [BlockEntry(c.block, false, true, SelectedByDensity, c.value)]
    ensures RejectedEntries(s + [c]) == RejectedEntries(s) + [BlockEntry(c.block, false, false, DoesNotFit, c.value)]
    ensures Value(s + [c]) == Value(s) + c.value
  {
    assert (s + [c])[..|s|] == s;
  }

  /** The lists and meters of the greedy loop record this selection. */
  ghost predicate Records(picked: Selection, blocks: seq<Block>, included: seq<Entry>, excluded: seq<Entry>,
      level: Level, kept: nat) {
    && blocks == CandidateBlocks(picked.chosen) && included == ChosenEntries(picked.chosen)
    && excluded == RejectedEntries(picked.rejected) && level == picked.level && kept == Value(picked.chosen)
  }

  lemma ChosenStep(picked: Selection, blocks: seq<Block>, included: seq<Entry>, excluded: seq<Entry>, level: Level,
      kept: nat, c: Candidate)
    requires Records(picked, blocks, included, excluded, level, kept)
    ensures Records(picked.(chosen := picked.chosen + [c], level := picked.level.With(c.block)), blocks + [c.block],
      included + [BlockEntry(c.block, false, true, SelectedByDensity, c.value)], excluded, level.With(c.block),
      kept + c.value)
  {
    EntriesStep(picked.chosen, c);
  }

  lemma RejectedStep(picked: Selection, blocks: seq<Block>, included: seq<Entry>, excluded: seq<Entry>, level: Level,
      kept: nat, c: Candidate)
    requires Records(picked, blocks, included, excluded, level, kept)
    ensures Records(picked.(rejected := picked.rejected + [c]), blocks, included,
      excluded + [BlockEntry(c.block, false, false, DoesNotFit, c.value)], level, kept)
  {
    EntriesStep(picked.rejected, c);
  }

  /** The greedy loop with its running meters. */
  method FillGreedily(ranking: seq<Candidate>, start: Level, budget: Budget)
    returns (blocks: seq<Block>, included: seq<Entry>, excluded: seq<Entry>, level: Level, kept: nat)
    ensures Records(Filled(ranking, start, budget), blocks, included, excluded, level, kept)
  {
    blocks, included, excluded, kept := [], [], [], 0;
    var usedBytes: nat, usedTokens: nat := start.bytes, start.tokens;
    assert ranking[..0] == [];
    for i := 0 to |ranking|
      invariant Records(Filled(ranking[..i], start, budget), blocks, included, excluded, Level(usedBytes, usedTokens),
        kept)
    {
      var c := ranking[i];
      ghost var picked := Filled(ranking[..i], start, budget);
      FilledStep(ranking, i, start, budget);
      if usedBytes + c.block.byteSize <= budget.maxBytes && usedTokens + c.block.TokenSize() <= budget.maxTokens {
        ChosenStep(picked, blocks, included, excluded, Level(usedBytes, usedTokens), kept, c);
        blocks := blocks + [c.block];
        included := included + [BlockEntry(c.block, false, true, SelectedByDensity, c.value)];
        usedBytes := usedBytes + c.block.byteSize;
        usedTokens := usedTokens + c.block.TokenSize();
        kept := kept + c.value;
      } else {
        RejectedStep(picked, blocks, included, excluded, Level(usedBytes, usedTokens), kept, c);
        excluded := excluded + [BlockEntry(c.block, false, false, DoesNotFit, c.value)];
      }
    }
    assert ranking[..|ranking|] == ranking;
    level := Level(usedBytes, usedTokens);
  }

  /** Both mandatory loops: the ordered blocks, the artifacts among them, and the entries of what failed. */
  method GatherMandatory(e: EvidenceSet, o: Obligations, asOf: nat)
    returns (ordered: seq<Block>, mandatoryRefs: set<Ref>, invalid: seq<Entry>)
    ensures ordered == MandatoryBlocks(e, o, asOf) && mandatoryRefs == MandatoryArtifacts(e, o, asOf)
    ensures invalid ==
      BadArtifactEntries(e, Sorted(o.requiredArtifacts), asOf) + BadClaimEntries(e, Sorted(o.requiredClaims), asOf)
  {
    var requiredArtifacts, requiredClaims := Sorted(o.requiredArtifacts), Sorted(o.requiredClaims);
    var blocks, badArtifacts := RequireArtifacts(e, requiredArtifacts, asOf);
    ghost var good := GoodArtifacts(e, o, asOf);
    assert (set ref | ref in requiredArtifacts && Usable(e, ref, asOf)) == good;
    var badClaims;
    blocks, badClaims := RequireClaims(e, requiredClaims, asOf, blocks, good);
    assert UpheldIn(e, requiredClaims, asOf) == GoodClaims(e, o, asOf);
    invalid := badArtifacts + badClaims;
    var claimRefs;
    mandatoryRefs, claimRefs := RefsOfKind(e, blocks, MandatoryArtifacts(e, o, asOf), GoodClaims(e, o, asOf));
    ordered := OrderArtifacts(e, blocks, Sorted(mandatoryRefs));
    var orderedClaims := OrderClaims(e, blocks, Sorted(claimRefs));
    ordered := ordered + orderedClaims;
  }

  /** The optional part of a packing whose mandatory blocks fit. */
  method PackOptional(e: EvidenceSet, budget: Budget, asOf: nat, ordered: seq<Block>, mandatoryRefs: set<Ref>,
      level: Level, optionRefs: seq<Ref>, values: map<Ref, nat>, total: nat) returns (packed: PackedContext)
    requires forall ref :: ref in optionRefs ==> ref in values
    ensures packed == PackedOver(ordered, budget, asOf, FaultEntries(e, mandatoryRefs, optionRefs, values, asOf),
      Filled(Ranked(Candidates(e, mandatoryRefs, optionRefs, values, asOf)), level, budget), total)
  {
    var candidates, faults := GatherCandidates(e, mandatoryRefs, optionRefs, values, asOf);
    var chosen, included, rejected, used, kept := FillGreedily(Ranked(candidates), level, budget);
    RecordsMakePacked(Filled(Ranked(candidates), level, budget), ordered, budget, asOf, faults, total,
                      chosen, included, rejected, used, kept);
    included := BlockEntries(ordered, true, MandatoryObligation) + included;
    var excluded := faults + rejected;
    packed := Signed(ordered + chosen, Payload(Packed, asOf, budget, used.bytes, used.tokens, included, excluded,
      LossReport(total, kept, total - kept, OptionalCount(excluded), {}), {}));
  }

  lemma RecordsMakePacked(picked: Selection, ordered: seq<Block>, budget: Budget, asOf: nat, faults: seq<Entry>,
      total: nat, chosen: seq<Block>, included: seq<Entry>, rejected: seq<Entry>, used: Level, kept: nat)
    requires Records(picked, chosen, included, rejected, used, kept)
    ensures PackedOver(ordered, budget, asOf, faults, picked, total) ==
      Signed(ordered + chosen, Payload(Packed, asOf, budget, used.bytes, used.tokens,
        BlockEntries(ordered, true, MandatoryObligation) + included, faults + rejected,
        LossReport(total, kept, total - kept, OptionalCount(faults + rejected), {}), {}))
  {
  }

  /** `pack`; the assertion before the last return is the source's own internal check. */
  method PackContext(e: EvidenceSet, o: Obligations, budget: Budget, asOf: nat, options: seq<OptionalArtifact>)
    returns (packed: PackedContext)
    ensures packed == Pack(e, o, budget, asOf, BestValues(options))
  {
    var values := CollectOptions(options);
    var ordered, mandatoryRefs, invalid := GatherMandatory(e, o, asOf);
    var optionRefs := Sorted(values.Keys);
    var total := SumValues(optionRefs, values);
    if invalid != [] {
      var excluded := invalid + BlockEntries(ordered, false, RefusedWithAnother) + SkippedEntries(optionRefs, values);
      return RefusedContext(o, budget, asOf, excluded, RefusalsOf(invalid), total);
    }
    var level := Weigh(ordered);
    if level.bytes > budget.maxBytes || level.tokens > budget.maxTokens {
      var excluded := BlockEntries(ordered, false, ExceedsCap) + SkippedEntries(optionRefs, values);
      return RefusedContext(o, budget, asOf, excluded, {OverCap(level.bytes, level.tokens)}, total);
    }
    packed := PackOptional(e, budget, asOf, ordered, mandatoryRefs, level, optionRefs, values, total);
    PackingVerifies(e, o, budget, asOf, values);
    assert packed.Verify();
  }
}
