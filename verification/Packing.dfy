/** What the context packer computes: all mandatory evidence or a refusal, then optional value. */
module Packing {
  import opened Contracts
  import opened Evidence
  import opened Knapsack
  import opened Sorting

  datatype Obligations = Obligations(requiredArtifacts: set<Ref>, requiredClaims: set<Ref>)

  datatype OptionalArtifact = OptionalArtifact(ref: Ref, valueUnits: nat)

  datatype Key = Key(kind: Kind, ref: Ref)

  datatype Reason =
    | MandatoryObligation | SelectedByDensity | DoesNotFit | AlreadyMandatory
    | ArtifactFault(defect: Defect) | ClaimFault(status: AssessmentStatus)
    | RefusedWithAnother | ExceedsCap | NotEvaluated

  datatype Entry = Entry(
    key: Key, mandatory: bool, included: bool, reason: Reason, block: Option<Block>, bytes: nat, tokens: nat,
    value: nat)

  datatype Refusal = BadObligation(key: Key, reason: Reason) | OverCap(bytes: nat, tokens: nat)

  datatype PackingStatus = Packed | Refused

  datatype LossReport = LossReport(total: nat, kept: nat, lost: int, excludedCount: nat, unsatisfied: set<Key>)

  datatype Payload = Payload(
    status: PackingStatus, asOf: nat, budget: Budget, usedBytes: nat, usedTokens: nat,
    included: seq<Entry>, excluded: seq<Entry>, loss: LossReport, refusals: set<Refusal>)

  /** The digest of a manifest stands for the payload it was taken of. */
  datatype Manifest = Manifest(payload: Payload, digest: Payload)

  datatype PackedContext = PackedContext(blocks: seq<Block>, manifest: Manifest)
  {
    function UsedBytes(): nat { BlockBytes(blocks) }

    function UsedTokens(): nat { BlockTokens(blocks) }

    /** Manifest integrity, block digests, accounting and caps. */
    predicate Verify() {
      var p := manifest.payload;
      && manifest.digest == p
      && if p.status == Refused then blocks == [] && p.included == [] else
        && p.refusals == {}
        && |p.included| == |blocks|
        && (forall i :: 0 <= i < |blocks| ==> Describes(p.included[i], blocks[i]))
        && UsedBytes() == p.usedBytes && UsedTokens() == p.usedTokens
        && UsedBytes() <= p.budget.maxBytes && UsedTokens() <= p.budget.maxTokens
    }
  }

  predicate Describes(entry: Entry, b: Block) {
    && entry.included && entry.key == Key(b.kind, b.ref) && entry.block == Some(b)
    && entry.bytes == b.byteSize && entry.tokens == b.TokenSize()
  }

  function BlockBytes(blocks: seq<Block>): nat {
    if blocks == [] then 0 else BlockBytes(blocks[..|blocks| - 1]) + blocks[|blocks| - 1].byteSize
  }

  function BlockTokens(blocks: seq<Block>): nat {
    if blocks == [] then 0 else BlockTokens(blocks[..|blocks| - 1]) + blocks[|blocks| - 1].TokenSize()
  }

  // ---------------------------------------------------------------- mandatory blocks

  function ArtifactBlock(e: EvidenceSet, ref: Ref): Block
    requires Present(e, ref)
  {
    Block(ArtifactKind, ref, FindArtifact(e.artifacts, ref).value.wireSize)
  }

  function ClaimBlock(e: EvidenceSet, ref: Ref): Block
    requires FindClaim(e.claims, ref).Some?
  {
    Block(ClaimKind, ref, FindClaim(e.claims, ref).value.wireSize)
  }

  ghost function GoodArtifacts(e: EvidenceSet, o: Obligations, asOf: nat): set<Ref> {
    set ref | ref in o.requiredArtifacts && Usable(e, ref, asOf)
  }

  ghost function GoodClaims(e: EvidenceSet, o: Obligations, asOf: nat): set<Ref> {
    set ref | ref in o.requiredClaims && Upheld(e, ref, asOf)
  }

  ghost function EvidenceOf(e: EvidenceSet, claims: set<Ref>): set<Ref>
    requires forall c :: c in claims ==> FindClaim(e.claims, c).Some?
  {
    set c, ref | c in claims && ref in FindClaim(e.claims, c).value.evidence :: ref
  }

  /** The satisfied artifacts, and the evidence of every satisfied claim. */
  ghost function MandatoryArtifacts(e: EvidenceSet, o: Obligations, asOf: nat): (r: set<Ref>)
    ensures forall ref :: ref in r ==> Usable(e, ref, asOf)
  {
    GoodArtifacts(e, o, asOf) + EvidenceOf(e, GoodClaims(e, o, asOf))
  }

  function ArtifactBlocks(e: EvidenceSet, refs: seq<Ref>): (blocks: seq<Block>)
    requires forall ref :: ref in refs ==> Present(e, ref)
    ensures |blocks| == |refs| && forall i :: 0 <= i < |refs| ==> blocks[i] == ArtifactBlock(e, refs[i])
  {
    if refs == [] then [] else ArtifactBlocks(e, refs[..|refs| - 1]) + [ArtifactBlock(e, refs[|refs| - 1])]
  }

  function ClaimBlocks(e: EvidenceSet, refs: seq<Ref>): (blocks: seq<Block>)
    requires forall ref :: ref in refs ==> FindClaim(e.claims, ref).Some?
    ensures |blocks| == |refs| && forall i :: 0 <= i < |refs| ==> blocks[i] == ClaimBlock(e, refs[i])
  {
    if refs == [] then [] else ClaimBlocks(e, refs[..|refs| - 1]) + [ClaimBlock(e, refs[|refs| - 1])]
  }

  /** Artifacts before claims, each by reference. */
  ghost function MandatoryBlocks(e: EvidenceSet, o: Obligations, asOf: nat): seq<Block> {
    ArtifactBlocks(e, Sorted(MandatoryArtifacts(e, o, asOf))) + ClaimBlocks(e, Sorted(GoodClaims(e, o, asOf)))
  }

  ghost predicate Satisfied(e: EvidenceSet, o: Obligations, asOf: nat) {
    && (forall ref :: ref in o.requiredArtifacts ==> Usable(e, ref, asOf))
    && (forall ref :: ref in o.requiredClaims ==> Upheld(e, ref, asOf))
  }

  // ---------------------------------------------------------------- manifest entries

  function BlockEntry(b: Block, mandatory: bool, included: bool, reason: Reason, value: nat): Entry {
    Entry(Key(b.kind, b.ref), mandatory, included, reason, Some(b), b.byteSize, b.TokenSize(), value)
  }

  function MissingEntry(key: Key, mandatory: bool, reason: Reason, value: nat): Entry {
    Entry(key, mandatory, false, reason, None, 0, 0, value)
  }

  function BlockEntries(blocks: seq<Block>, included: bool, reason: Reason): (r: seq<Entry>)
    ensures |r| == |blocks| && forall i :: 0 <= i < |r| ==> r[i] == BlockEntry(blocks[i], true, included, reason, 0)
  {
    if blocks == [] then [] else
    BlockEntries(blocks[..|blocks| - 1], included, reason)
      + [BlockEntry(blocks[|blocks| - 1], true, included, reason, 0)]
  }

  function ChosenEntries(s: seq<Candidate>): (r: seq<Entry>)
    ensures |r| == |s| && forall i :: 0 <= i < |r| ==>
      r[i] == BlockEntry(s[i].block, false, true, SelectedByDensity, s[i].value)
  {
    if s == [] then [] else
    var last := s[|s| - 1];
    ChosenEntries(s[..|s| - 1]) + [BlockEntry(last.block, false, true, SelectedByDensity, last.value)]
  }

  function RejectedEntries(s: seq<Candidate>): (r: seq<Entry>)
    ensures |r| == |s| && forall i :: 0 <= i < |r| ==>
      r[i] == BlockEntry(s[i].block, false, false, DoesNotFit, s[i].value)
  {
    if s == [] then [] else
    var last := s[|s| - 1];
    RejectedEntries(s[..|s| - 1]) + [BlockEntry(last.block, false, false, DoesNotFit, last.value)]
  }

  function BadArtifactEntries(e: EvidenceSet, refs: seq<Ref>, asOf: nat): seq<Entry> {
    if refs == [] then [] else
    var front, last := BadArtifactEntries(e, refs[..|refs| - 1], asOf), refs[|refs| - 1];
    var d := DefectOf(e, last, asOf);
    if d.Some? then front + [MissingEntry(Key(ArtifactKind, last), true, ArtifactFault(d.value), 0)] else front
  }

  ghost function BadClaimEntries(e: EvidenceSet, refs: seq<Ref>, asOf: nat): seq<Entry> {
    if refs == [] then [] else
    var front, last := BadClaimEntries(e, refs[..|refs| - 1], asOf), refs[|refs| - 1];
    var status := AssessedStatus(e, last, asOf);
    if status != Supported then front + [MissingEntry(Key(ClaimKind, last), true, ClaimFault(status), 0)] else front
  }

  function SkippedEntries(refs: seq<Ref>, values: map<Ref, nat>): seq<Entry>
    requires forall ref :: ref in refs ==> ref in values
  {
    if refs == [] then [] else
    var last := refs[|refs| - 1];
    SkippedEntries(refs[..|refs| - 1], values)
      + [MissingEntry(Key(ArtifactKind, last), false, NotEvaluated, values[last])]
  }

  /** The refusal reason behind each unsatisfied obligation. */
  function RefusalsOf(entries: seq<Entry>): set<Refusal> {
    set i | 0 <= i < |entries| :: BadObligation(entries[i].key, entries[i].reason)
  }

  // ---------------------------------------------------------------- options

  /** The largest value offered for each artifact. */
  function BestValues(options: seq<OptionalArtifact>): map<Ref, nat> {
    if options == [] then map[] else
    var front, last := BestValues(options[..|options| - 1]), options[|options| - 1];
    front[last.ref := Max(last.valueUnits, if last.ref in front then front[last.ref] else 0)]
  }

  function TotalValue(refs: seq<Ref>, values: map<Ref, nat>): nat
    requires forall ref :: ref in refs ==> ref in values
  {
    if refs == [] then 0 else TotalValue(refs[..|refs| - 1], values) + values[refs[|refs| - 1]]
  }

  /** Why an option is not a candidate. */
  function OptionFault(e: EvidenceSet, mandatory: set<Ref>, ref: Ref, asOf: nat): Option<Reason> {
    if ref in mandatory then Some(AlreadyMandatory) else
    var d := DefectOf(e, ref, asOf);
    if d.Some? then Some(ArtifactFault(d.value)) else None
  }

  function Candidates(e: EvidenceSet, mandatory: set<Ref>, refs: seq<Ref>, values: map<Ref, nat>,
      asOf: nat): seq<Candidate>
    requires forall ref :: ref in refs ==> ref in values
  {
    if refs == [] then [] else
    var front, last := Candidates(e, mandatory, refs[..|refs| - 1], values, asOf), refs[|refs| - 1];
    if OptionFault(e, mandatory, last, asOf).None?
    then front + [Candidate(values[last], ArtifactBlock(e, last))] else front
  }

  function FaultEntries(e: EvidenceSet, mandatory: set<Ref>, refs: seq<Ref>, values: map<Ref, nat>,
      asOf: nat): seq<Entry>
    requires forall ref :: ref in refs ==> ref in values
  {
    if refs == [] then [] else
    var front, last := FaultEntries(e, mandatory, refs[..|refs| - 1], values, asOf), refs[|refs| - 1];
    var fault := OptionFault(e, mandatory, last, asOf);
    if fault.Some? then front + [MissingEntry(Key(ArtifactKind, last), false, fault.value, values[last])] else front
  }

  function CandidateBlocks(s: seq<Candidate>): (r: seq<Block>)
    ensures |r| == |s| && forall i :: 0 <= i < |s| ==> r[i] == s[i].block
  {
    if s == [] then [] else CandidateBlocks(s[..|s| - 1]) + [s[|s| - 1].block]
  }

  // ---------------------------------------------------------------- the packed context

  function OptionalCount(entries: seq<Entry>): nat {
    if entries == [] then 0 else
    OptionalCount(entries[..|entries| - 1]) + if entries[|entries| - 1].mandatory then 0 else 1
  }

  function Signed(blocks: seq<Block>, payload: Payload): PackedContext {
    PackedContext(blocks, Manifest(payload, payload))
  }

  function Obliged(o: Obligations): set<Key> {
    (set ref | ref in o.requiredArtifacts :: Key(ArtifactKind, ref))
      + (set ref | ref in o.requiredClaims :: Key(ClaimKind, ref))
  }

  /** `_refused`. */
  function RefusedContext(o: Obligations, budget: Budget, asOf: nat, excluded: seq<Entry>,
      refusals: set<Refusal>, total: nat): PackedContext {
    Signed([], Payload(Refused, asOf, budget, 0, 0, [], excluded,
      LossReport(total, 0, total, OptionalCount(excluded), Obliged(o)), refusals))
  }

  function PackedOver(
    mandatory: seq<Block>, budget: Budget, asOf: nat, faults: seq<Entry>, picked: Selection, total: nat): PackedContext
  {
    var excluded := faults + RejectedEntries(picked.rejected);
    Signed(mandatory + CandidateBlocks(picked.chosen),
      Payload(Packed, asOf, budget, picked.level.bytes, picked.level.tokens,
        BlockEntries(mandatory, true, MandatoryObligation) + ChosenEntries(picked.chosen), excluded,
        LossReport(total, Value(picked.chosen), total - Value(picked.chosen), OptionalCount(excluded), {}), {}))
  }

  function LevelOf(blocks: seq<Block>): Level {
    Level(BlockBytes(blocks), BlockTokens(blocks))
  }

  ghost predicate Overflows(e: EvidenceSet, o: Obligations, budget: Budget, asOf: nat) {
    var blocks := MandatoryBlocks(e, o, asOf);
    BlockBytes(blocks) > budget.maxBytes || BlockTokens(blocks) > budget.maxTokens
  }

  ghost function Ranking(e: EvidenceSet, o: Obligations, asOf: nat, values: map<Ref, nat>): seq<Candidate> {
    Ranked(Candidates(e, MandatoryArtifacts(e, o, asOf), Sorted(values.Keys), values, asOf))
  }

  ghost function Picked(e: EvidenceSet, o: Obligations, budget: Budget, asOf: nat, values: map<Ref, nat>): Selection {
    Filled(Ranking(e, o, asOf, values), LevelOf(MandatoryBlocks(e, o, asOf)), budget)
  }

  ghost function Pack(e: EvidenceSet, o: Obligations, budget: Budget, asOf: nat, values: map<Ref, nat>): PackedContext {
    var options := Sorted(values.Keys);
    var total := TotalValue(options, values);
    var blocks := MandatoryBlocks(e, o, asOf);
    var bad := BadArtifactEntries(e, Sorted(o.requiredArtifacts), asOf)
      + BadClaimEntries(e, Sorted(o.requiredClaims), asOf);
    if bad != [] then
      RefusedContext(o, budget, asOf,
        bad + BlockEntries(blocks, false, RefusedWithAnother) + SkippedEntries(options, values), RefusalsOf(bad), total)
    else if Overflows(e, o, budget, asOf) then
      RefusedContext(o, budget, asOf,
        BlockEntries(blocks, false, ExceedsCap) + SkippedEntries(options, values),
        {OverCap(BlockBytes(blocks), BlockTokens(blocks))}, total)
    else
      PackedOver(blocks, budget, asOf, FaultEntries(e, MandatoryArtifacts(e, o, asOf), options, values, asOf),
        Picked(e, o, budget, asOf, values), total)
  }
}
