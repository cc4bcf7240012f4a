/** What a manifest reports: one reason for each offer, each obligation and each block. */
module PackingReports {
  import opened Contracts
  import opened Evidence
  import opened Knapsack
  import opened Packing
  import opened PackingTheorems
  import opened PackingChoice
  import opened Sorting

  // ---------------------------------------------------------------- lists of entries

  lemma {:induction false} FaultEntriesExactly(e: EvidenceSet, mandatory: set<Ref>, refs: seq<Ref>,
      values: map<Ref, nat>, asOf: nat, x: Entry)
    requires forall ref :: ref in refs ==> ref in values
    ensures x in FaultEntries(e, mandatory, refs, values, asOf) <==>
      exists ref :: ref in refs && OptionFault(e, mandatory, ref, asOf).Some? &&
        x == MissingEntry(Key(ArtifactKind, ref), false, OptionFault(e, mandatory, ref, asOf).value, values[ref])
  {
    if refs != [] {
      var front, last := refs[..|refs| - 1], refs[|refs| - 1];
      SplitLast(refs);
      FaultEntriesExactly(e, mandatory, front, values, asOf, x);
      assert forall ref :: ref in refs <==> ref in front || ref == last;
    }
  }

  lemma {:induction false} SkippedExactly(refs: seq<Ref>, values: map<Ref, nat>, x: Entry)
    requires forall ref :: ref in refs ==> ref in values
    ensures x in SkippedEntries(refs, values) <==>
      exists ref :: ref in refs && x == MissingEntry(Key(ArtifactKind, ref), false, NotEvaluated, values[ref])
  {
    if refs != [] {
      var front, last := refs[..|refs| - 1], refs[|refs| - 1];
      SplitLast(refs);
      SkippedExactly(front, values, x);
      assert forall ref :: ref in refs <==> ref in front || ref == last;
    }
  }

  lemma {:induction false} BadArtifactsExactly(e: EvidenceSet, refs: seq<Ref>, asOf: nat, x: Entry)
    ensures x in BadArtifactEntries(e, refs, asOf) <==>
      exists ref :: ref in refs && DefectOf(e, ref, asOf).Some? &&
        x == MissingEntry(Key(ArtifactKind, ref), true, ArtifactFault(DefectOf(e, ref, asOf).value), 0)
  {
    if refs != [] {
      var front, last := refs[..|refs| - 1], refs[|refs| - 1];
      SplitLast(refs);
      BadArtifactsExactly(e, front, asOf, x);
      assert forall ref :: ref in refs <==> ref in front || ref == last;
    }
  }

  lemma {:induction false} BadClaimsExactly(e: EvidenceSet, refs: seq<Ref>, asOf: nat, x: Entry)
    ensures x in BadClaimEntries(e, refs, asOf) <==>
      exists ref :: ref in refs && AssessedStatus(e, ref, asOf) != Supported &&
        x == MissingEntry(Key(ClaimKind, ref), true, ClaimFault(AssessedStatus(e, ref, asOf)), 0)
  {
    if refs != [] {
      var front, last := refs[..|refs| - 1], refs[|refs| - 1];
      SplitLast(refs);
      BadClaimsExactly(e, front, asOf, x);
      assert forall ref :: ref in refs <==> ref in front || ref == last;
    }
  }

  // ---------------------------------------------------------------- offers

  /** Why an offer is where it is in the manifest of a packed context. */
  ghost predicate RightReason(e: EvidenceSet, o: Obligations, asOf: nat, values: map<Ref, nat>, blocks: seq<Block>,
      ref: Ref, reason: Reason) {
    match reason
    case SelectedByDensity => Taken(e, o, asOf, values, blocks, ref)
    case DoesNotFit => Eligible(e, o, asOf, values, ref) && !Taken(e, o, asOf, values, blocks, ref)
    case AlreadyMandatory => Needed(e, o, ref)
    case ArtifactFault(d) => !Needed(e, o, ref) && ShowsDefect(e, ref, asOf, d)
    case _ => false
  }

  /** An optional entry about an offer, with its value. */
  ghost predicate ReportsOffer(x: Entry, values: map<Ref, nat>, ref: Ref) {
    ref in values && x.key == Key(ArtifactKind, ref) && !x.mandatory && x.value == values[ref]
  }

  lemma FaultReasons(e: EvidenceSet, o: Obligations, asOf: nat, values: map<Ref, nat>, blocks: seq<Block>, ref: Ref)
    requires Satisfied(e, o, asOf)
    ensures var fault := OptionFault(e, MandatoryArtifacts(e, o, asOf), ref, asOf);
      && (fault.Some? ==> RightReason(e, o, asOf, values, blocks, ref, fault.value))
      && (fault.None? <==> InForce(e, ref, asOf) && !Needed(e, o, ref))
  {
    NeededIsMandatory(e, o, asOf, ref);
    var d := DefectOf(e, ref, asOf);
    if d.Some? {
      DefectExactly(e, ref, asOf, d.value);
    } else {
      DefectExactly(e, ref, asOf, Absent);
    }
  }

  /** Every optional entry of a packed manifest is about an offer, carries its value and gives the right reason. */
  lemma PackedEntriesAreRight(e: EvidenceSet, o: Obligations, budget: Budget, asOf: nat, values: map<Ref, nat>,
      x: Entry)
    requires Pack(e, o, budget, asOf, values).manifest.payload.status == Packed && !x.mandatory
    requires var p := Pack(e, o, budget, asOf, values).manifest.payload; x in p.included || x in p.excluded
    ensures var r := Pack(e, o, budget, asOf, values);
      && ReportsOffer(x, values, x.key.ref) && RightReason(e, o, asOf, values, r.blocks, x.key.ref, x.reason)
      && (x.included <==> x.reason == SelectedByDensity) && (x in r.manifest.payload.included <==> x.included)
  {
    var r, picked := Pack(e, o, budget, asOf, values), Picked(e, o, budget, asOf, values);
    var faults := FaultEntries(e, MandatoryArtifacts(e, o, asOf), Sorted(values.Keys), values, asOf);
    PackedIffSatisfied(e, o, budget, asOf, values);
    IncludedEntry(MandatoryBlocks(e, o, asOf), picked.chosen, x);
    ExcludedEntry(faults, picked.rejected, x);
    FaultEntriesExactly(e, MandatoryArtifacts(e, o, asOf), Sorted(values.Keys), values, asOf, x);
    if x in faults {
      FaultReasons(e, o, asOf, values, r.blocks, x.key.ref);
    } else {
      CandidateReasons(e, o, budget, asOf, values, x);
    }
  }

  lemma IncludedEntry(mandatory: seq<Block>, chosen: seq<Candidate>, x: Entry)
    ensures x in BlockEntries(mandatory, true, MandatoryObligation) + ChosenEntries(chosen) && !x.mandatory ==>
      exists i :: 0 <= i < |chosen| && x == BlockEntry(chosen[i].block, false, true, SelectedByDensity, chosen[i].value)
    ensures forall i :: 0 <= i < |chosen| ==>
      BlockEntry(chosen[i].block, false, true, SelectedByDensity, chosen[i].value) in
        BlockEntries(mandatory, true, MandatoryObligation) + ChosenEntries(chosen)
  {
    forall i | 0 <= i < |chosen|
      ensures BlockEntry(chosen[i].block, false, true, SelectedByDensity, chosen[i].value) in ChosenEntries(chosen)
    {
      assert ChosenEntries(chosen)[i] == BlockEntry(chosen[i].block, false, true, SelectedByDensity, chosen[i].value);
    }
  }

  ghost predicate Rejects(rejected: seq<Candidate>, x: Entry) {
    exists i :: 0 <= i < |rejected| &&
      x == BlockEntry(rejected[i].block, false, false, DoesNotFit, rejected[i].value)
  }

  lemma ExcludedEntry(faults: seq<Entry>, rejected: seq<Candidate>, x: Entry)
    ensures x in faults + RejectedEntries(rejected) <==> x in faults || Rejects(rejected, x)
  {
    if Rejects(rejected, x) {
      var i :| 0 <= i < |rejected| && x == BlockEntry(rejected[i].block, false, false, DoesNotFit, rejected[i].value);
      assert RejectedEntries(rejected)[i] == x;
    }
  }

  /** The entry of a candidate, chosen or rejected. */
  lemma CandidateReasons(e: EvidenceSet, o: Obligations, budget: Budget, asOf: nat, values: map<Ref, nat>, x: Entry)
    requires Pack(e, o, budget, asOf, values).manifest.payload.status == Packed
    requires var picked := Picked(e, o, budget, asOf, values);
      || (exists i :: 0 <= i < |picked.chosen| &&
           x == BlockEntry(picked.chosen[i].block, false, true, SelectedByDensity, picked.chosen[i].value))
      || Rejects(picked.rejected, x)
    ensures var r := Pack(e, o, budget, asOf, values);
      ReportsOffer(x, values, x.key.ref) && RightReason(e, o, asOf, values, r.blocks, x.key.ref, x.reason)
    ensures x.included <==> x.reason == SelectedByDensity
    ensures x.reason == SelectedByDensity || x.reason == DoesNotFit
  {
    var picked := Picked(e, o, budget, asOf, values);
    if x.included {
      var i :| 0 <= i < |picked.chosen|
        && x == BlockEntry(picked.chosen[i].block, false, true, SelectedByDensity, picked.chosen[i].value);
      ChosenIsTaken(e, o, budget, asOf, values, picked.chosen[i]);
    } else {
      var i :| 0 <= i < |picked.rejected|
        && x == BlockEntry(picked.rejected[i].block, false, false, DoesNotFit, picked.rejected[i].value);
      RejectedIsLeftOut(e, o, budget, asOf, values, picked.rejected[i]);
    }
  }

  /** Every offer has an entry in the manifest, packed or refused. */
  lemma EveryOfferIsReported(e: EvidenceSet, o: Obligations, budget: Budget, asOf: nat, values: map<Ref, nat>, ref: Ref)
    requires ref in values
    ensures var p := Pack(e, o, budget, asOf, values).manifest.payload;
      && (exists x :: (x in p.included || x in p.excluded) && ReportsOffer(x, values, ref))
      && (p.status == Refused ==>
            MissingEntry(Key(ArtifactKind, ref), false, NotEvaluated, values[ref]) in p.excluded)
  {
    if Pack(e, o, budget, asOf, values).manifest.payload.status == Packed {
      PackedReportsOffer(e, o, budget, asOf, values, ref);
    } else {
      var x := MissingEntry(Key(ArtifactKind, ref), false, NotEvaluated, values[ref]);
      SkippedExactly(Sorted(values.Keys), values, x);
      assert x in SkippedEntries(Sorted(values.Keys), values);
      assert x in Pack(e, o, budget, asOf, values).manifest.payload.excluded && ReportsOffer(x, values, ref);
    }
  }

  lemma PackedReportsOffer(e: EvidenceSet, o: Obligations, budget: Budget, asOf: nat, values: map<Ref, nat>, ref: Ref)
    requires Pack(e, o, budget, asOf, values).manifest.payload.status == Packed && ref in values
    ensures var p := Pack(e, o, budget, asOf, values).manifest.payload;
      exists x :: (x in p.included || x in p.excluded) && ReportsOffer(x, values, ref)
  {
    var p, picked := Pack(e, o, budget, asOf, values).manifest.payload, Picked(e, o, budget, asOf, values);
    var mandatory := MandatoryArtifacts(e, o, asOf);
    var fault := OptionFault(e, mandatory, ref, asOf);
    PackedIffSatisfied(e, o, budget, asOf, values);
    if fault.Some? {
      var x := MissingEntry(Key(ArtifactKind, ref), false, fault.value, values[ref]);
      FaultEntriesExactly(e, mandatory, Sorted(values.Keys), values, asOf, x);
      ExcludedEntry(FaultEntries(e, mandatory, Sorted(values.Keys), values, asOf), picked.rejected, x);
      assert x in p.excluded && ReportsOffer(x, values, ref);
    } else {
      CandidateIsReported(e, o, budget, asOf, values, ref);
    }
  }

  lemma CandidateIsReported(e: EvidenceSet, o: Obligations, budget: Budget, asOf: nat, values: map<Ref, nat>, ref: Ref)
    requires Pack(e, o, budget, asOf, values).manifest.payload.status == Packed && ref in values
    requires OptionFault(e, MandatoryArtifacts(e, o, asOf), ref, asOf).None?
    ensures var p := Pack(e, o, budget, asOf, values).manifest.payload;
      exists x :: (x in p.included || x in p.excluded) && ReportsOffer(x, values, ref)
  {
    var p, picked := Pack(e, o, budget, asOf, values).manifest.payload, Picked(e, o, budget, asOf, values);
    var faults := FaultEntries(e, MandatoryArtifacts(e, o, asOf), Sorted(values.Keys), values, asOf);
    PackedIffSatisfied(e, o, budget, asOf, values);
    FaultReasons(e, o, asOf, values, [], ref);
    var c := EligibleIsDecided(e, o, budget, asOf, values, ref);
    if c in picked.chosen {
      var i :| 0 <= i < |picked.chosen| && picked.chosen[i] == c;
      var x := BlockEntry(c.block, false, true, SelectedByDensity, c.value);
      IncludedEntry(MandatoryBlocks(e, o, asOf), picked.chosen, x);
      assert x in p.included && ReportsOffer(x, values, ref);
    } else {
      var i :| 0 <= i < |picked.rejected| && picked.rejected[i] == c;
      var x := BlockEntry(c.block, false, false, DoesNotFit, c.value);
      ExcludedEntry(faults, picked.rejected, x);
      assert x in p.excluded && ReportsOffer(x, values, ref);
    }
  }

  // ---------------------------------------------------------------- obligations

  /** The reason that an obligation gives for a refusal. */
  ghost predicate Faulty(e: EvidenceSet, o: Obligations, asOf: nat, key: Key, reason: Reason) {
    match reason
    case ArtifactFault(d) =>
      key.kind == ArtifactKind && key.ref in o.requiredArtifacts && ShowsDefect(e, key.ref, asOf, d)
    case ClaimFault(status) =>
      && key.kind == ClaimKind && key.ref in o.requiredClaims
      && status == AssessedStatus(e, key.ref, asOf) && status != Supported
    case _ => false
  }

  ghost function BadEntries(e: EvidenceSet, o: Obligations, asOf: nat): seq<Entry> {
    BadArtifactEntries(e, Sorted(o.requiredArtifacts), asOf) + BadClaimEntries(e, Sorted(o.requiredClaims), asOf)
  }

  lemma BadEntryIsFaulty(e: EvidenceSet, o: Obligations, asOf: nat, key: Key, reason: Reason)
    ensures Faulty(e, o, asOf, key, reason) <==> MissingEntry(key, true, reason, 0) in BadEntries(e, o, asOf)
  {
    var x := MissingEntry(key, true, reason, 0);
    BadArtifactsExactly(e, Sorted(o.requiredArtifacts), asOf, x);
    BadClaimsExactly(e, Sorted(o.requiredClaims), asOf, x);
    if reason.ArtifactFault? {
      DefectExactly(e, key.ref, asOf, reason.defect);
    }
  }

  lemma BadEntriesAreMissing(e: EvidenceSet, o: Obligations, asOf: nat, x: Entry)
    requires x in BadEntries(e, o, asOf)
    ensures x == MissingEntry(x.key, true, x.reason, 0)
  {
    BadArtifactsExactly(e, Sorted(o.requiredArtifacts), asOf, x);
    BadClaimsExactly(e, Sorted(o.requiredClaims), asOf, x);
  }

  /** A refusal names exactly the obligations at fault, each with its own reason; or, with none, the caps exceeded. */
  lemma RefusalsExactly(e: EvidenceSet, o: Obligations, budget: Budget, asOf: nat, values: map<Ref, nat>,
      refusal: Refusal)
    requires Pack(e, o, budget, asOf, values).manifest.payload.status == Refused
    ensures refusal in Pack(e, o, budget, asOf, values).manifest.payload.refusals <==>
      match refusal
      case BadObligation(key, reason) => Faulty(e, o, asOf, key, reason)
      case OverCap(bytes, tokens) =>
        Satisfied(e, o, asOf) && bytes == tokens == NeededWeight(e, o)
  {
    PackedIffSatisfied(e, o, budget, asOf, values);
    NoBadEntries(e, o, asOf);
    if BadEntries(e, o, asOf) != [] {
      if refusal.BadObligation? {
        BadEntryIsFaulty(e, o, asOf, refusal.key, refusal.reason);
        RefusalsOfEntries(BadEntries(e, o, asOf), refusal.key, refusal.reason);
        if refusal in RefusalsOf(BadEntries(e, o, asOf)) {
          var i :| 0 <= i < |BadEntries(e, o, asOf)|
            && refusal == BadObligation(BadEntries(e, o, asOf)[i].key, BadEntries(e, o, asOf)[i].reason);
          BadEntriesAreMissing(e, o, asOf, BadEntries(e, o, asOf)[i]);
        }
      }
    } else {
      MandatoryWeighs(e, o, asOf);
      if refusal.BadObligation? {
        BadEntryIsFaulty(e, o, asOf, refusal.key, refusal.reason);
      }
    }
  }

  /** Packed exactly when all obligations hold and what they need fits both caps. */
  lemma PackedExactlyWhen(e: EvidenceSet, o: Obligations, budget: Budget, asOf: nat, values: map<Ref, nat>)
    ensures Pack(e, o, budget, asOf, values).manifest.payload.status == Packed <==>
      && (forall ref :: ref in o.requiredArtifacts ==> InForce(e, ref, asOf))
      && (forall c :: c in o.requiredClaims ==> Upheld(e, c, asOf))
      && NeededWeight(e, o) <= budget.maxBytes && NeededWeight(e, o) <= budget.maxTokens
  {
    PackedIffSatisfied(e, o, budget, asOf, values);
    forall ref | ref in o.requiredArtifacts
      ensures InForce(e, ref, asOf) <==> Usable(e, ref, asOf)
    {
      InForceIsUsable(e, ref, asOf);
    }
    if Satisfied(e, o, asOf) {
      MandatoryWeighs(e, o, asOf);
    }
  }

  lemma NoBadEntries(e: EvidenceSet, o: Obligations, asOf: nat)
    ensures BadEntries(e, o, asOf) == [] <==> Satisfied(e, o, asOf)
  {
    NoBadArtifacts(e, Sorted(o.requiredArtifacts), asOf);
    NoBadClaims(e, Sorted(o.requiredClaims), asOf);
  }

  lemma RefusalsOfEntries(entries: seq<Entry>, key: Key, reason: Reason)
    ensures MissingEntry(key, true, reason, 0) in entries ==> BadObligation(key, reason) in RefusalsOf(entries)
  {
    if MissingEntry(key, true, reason, 0) in entries {
      var i :| 0 <= i < |entries| && entries[i] == MissingEntry(key, true, reason, 0);
      assert BadObligation(entries[i].key, entries[i].reason) in RefusalsOf(entries);
    }
  }

  /** Why a mandatory entry of a refused manifest is there. */
  ghost predicate RefusedFor(e: EvidenceSet, o: Obligations, asOf: nat, x: Entry) {
    match x.reason
    case RefusedWithAnother => !Satisfied(e, o, asOf) && Spared(e, o, asOf, x)
    case ExceedsCap => Satisfied(e, o, asOf) && Spared(e, o, asOf, x)
    case _ => Faulty(e, o, asOf, x.key, x.reason) && x.block == None && x.bytes == x.tokens == 0
  }

  /** The entry shows a block that the obligations need. */
  ghost predicate Spared(e: EvidenceSet, o: Obligations, asOf: nat, x: Entry) {
    && x.block.Some? && Genuine(e, x.block.value, asOf)
    && x == BlockEntry(x.block.value, true, false, x.reason, 0)
    && if x.key.kind == ArtifactKind then Needed(e, o, x.key.ref) else x.key.ref in o.requiredClaims
  }

  /** Every mandatory entry of a refusal is an obligation at fault, or a needed block and the reason it is missing. */
  lemma RefusedEntriesAreRight(e: EvidenceSet, o: Obligations, budget: Budget, asOf: nat, values: map<Ref, nat>,
      x: Entry)
    requires Pack(e, o, budget, asOf, values).manifest.payload.status == Refused && x.mandatory
    requires x in Pack(e, o, budget, asOf, values).manifest.payload.excluded
    ensures RefusedFor(e, o, asOf, x)
  {
    var reason := if Satisfied(e, o, asOf) then ExceedsCap else RefusedWithAnother;
    RefusedMembers(e, o, budget, asOf, values, x);
    if x in BadEntries(e, o, asOf) {
      BadEntriesAreMissing(e, o, asOf, x);
      BadEntryIsFaulty(e, o, asOf, x.key, x.reason);
    } else {
      SparedEntry(e, o, asOf, MandatoryBlocks(e, o, asOf), reason, x);
    }
  }

  lemma RefusedMembers(e: EvidenceSet, o: Obligations, budget: Budget, asOf: nat, values: map<Ref, nat>, x: Entry)
    requires Pack(e, o, budget, asOf, values).manifest.payload.status == Refused && x.mandatory
    requires x in Pack(e, o, budget, asOf, values).manifest.payload.excluded
    ensures x in BadEntries(e, o, asOf) || x in BlockEntries(MandatoryBlocks(e, o, asOf), false,
      if Satisfied(e, o, asOf) then ExceedsCap else RefusedWithAnother)
  {
    PackedIffSatisfied(e, o, budget, asOf, values);
    NoBadEntries(e, o, asOf);
    SkippedExactly(Sorted(values.Keys), values, x);
  }

  lemma SparedEntry(e: EvidenceSet, o: Obligations, asOf: nat, blocks: seq<Block>, reason: Reason, x: Entry)
    requires blocks == MandatoryBlocks(e, o, asOf) && x in BlockEntries(blocks, false, reason)
    ensures x.reason == reason && Spared(e, o, asOf, x)
  {
    var i :| 0 <= i < |blocks| && x == BlockEntry(blocks[i], true, false, reason, 0);
    SparedBlock(e, o, asOf, blocks[i], x);
  }

  lemma SparedBlock(e: EvidenceSet, o: Obligations, asOf: nat, b: Block, x: Entry)
    requires b in MandatoryBlocks(e, o, asOf) && x == BlockEntry(b, true, false, x.reason, 0)
    ensures Spared(e, o, asOf, x)
  {
    MandatoryIsGenuine(e, o, asOf, b);
    MandatoryBlockIsNeeded(e, o, asOf, b);
    if b.kind == ArtifactKind && b.ref !in o.requiredArtifacts {
      assert b.ref in EvidenceOf(e, GoodClaims(e, o, asOf));
    }
  }

  // ---------------------------------------------------------------- blocks

  /** A packed context holds the required claims, the artifacts that are needed, what it took, and no more. */
  lemma BlocksExactly(e: EvidenceSet, o: Obligations, budget: Budget, asOf: nat, values: map<Ref, nat>, b: Block)
    requires Pack(e, o, budget, asOf, values).manifest.payload.status == Packed
    ensures var blocks := Pack(e, o, budget, asOf, values).blocks;
      b in blocks <==>
        if b.kind == ClaimKind
        then b.ref in o.requiredClaims && FindClaim(e.claims, b.ref).Some? && b == ClaimBlock(e, b.ref)
        else Present(e, b.ref) && b == ArtifactBlock(e, b.ref)
             && (Needed(e, o, b.ref) || Taken(e, o, asOf, values, blocks, b.ref))
  {
    var blocks, chosen := Pack(e, o, budget, asOf, values).blocks, Picked(e, o, budget, asOf, values).chosen;
    PackedIffSatisfied(e, o, budget, asOf, values);
    NeededIsMandatory(e, o, asOf, b.ref);
    NeededSetIsMandatory(e, o, asOf);
    if b in blocks {
      PackedIsGenuine(e, o, budget, asOf, values, b);
      if b in MandatoryBlocks(e, o, asOf) {
        MandatoryBlockIsNeeded(e, o, asOf, b);
      } else {
        ChosenBlockIsTaken(e, o, budget, asOf, values, b);
      }
    } else {
      if b.kind == ArtifactKind && Needed(e, o, b.ref) && Present(e, b.ref) && b == ArtifactBlock(e, b.ref) {
        MandatoryArtifactIn(e, o, asOf, b.ref);
      }
      if b.kind == ClaimKind && b.ref in o.requiredClaims && b == ClaimBlock(e, b.ref) {
        MandatoryClaimIn(e, o, asOf, b.ref);
      }
    }
  }

  lemma ChosenBlockIsTaken(e: EvidenceSet, o: Obligations, budget: Budget, asOf: nat, values: map<Ref, nat>, b: Block)
    requires Pack(e, o, budget, asOf, values).manifest.payload.status == Packed
    requires b in CandidateBlocks(Picked(e, o, budget, asOf, values).chosen)
    ensures b.kind == ArtifactKind && Taken(e, o, asOf, values, Pack(e, o, budget, asOf, values).blocks, b.ref)
  {
    var chosen := Picked(e, o, budget, asOf, values).chosen;
    ChosenBlocks(chosen, b);
    var i :| 0 <= i < |chosen| && chosen[i].block == b;
    ChosenIsTaken(e, o, budget, asOf, values, chosen[i]);
  }
}
