/** Artifacts, claims and the assessment of a claim against an evidence set. */
module Evidence {
  import opened Contracts
  import opened Sorting

  /** Content addresses and claim identifiers; only their equality and order matter. */
  type Ref = nat

  /** A length in bytes of a framed block, whose envelope is never empty. */
  type Size = n: int | 0 < n witness 1

  /** `intact` says that the recalculated digests match and the required fields are present. */
  datatype Artifact = Artifact(id: Ref, created: nat, freshUntil: Option<nat>, intact: bool, wireSize: Size)
  {
    predicate Verify() {
      intact && (freshUntil.Some? ==> created <= freshUntil.value)
    }

    predicate IsFresh(asOf: nat) {
      created <= asOf && (freshUntil.None? || asOf <= freshUntil.value)
    }
  }

  datatype ClaimStatus = DeclaredSupported | DeclaredUnverified | DeclaredStale | DeclaredContradicted
    | DeclaredRetracted

  datatype Claim = Claim(
    id: Ref, evidence: seq<Ref>, status: ClaimStatus, contradicts: seq<Ref>, created: nat, intact: bool, wireSize: Size)
  {
    predicate Verify() {
      intact && Ascending(evidence) && Ascending(contradicts) && id !in contradicts
    }
  }

  datatype EvidenceSet = EvidenceSet(artifacts: seq<Artifact>, claims: seq<Claim>)

  datatype AssessmentStatus = Supported | Unverified | Stale | Contradicted | Retracted | Invalid | Missing

  datatype Assessment = Assessment(claim: Ref, status: AssessmentStatus, reasons: seq<Ref>)

  // ---------------------------------------------------------------- look-ups

  /** The first record with the identifier. */
  function FindArtifact(artifacts: seq<Artifact>, ref: Ref): (found: Option<Artifact>)
    ensures found.Some? <==> exists i :: 0 <= i < |artifacts| && artifacts[i].id == ref
    ensures found.Some? ==> found.value in artifacts && found.value.id == ref
  {
    if artifacts == [] then None
    else if artifacts[0].id == ref then Some(artifacts[0])
    else FindArtifact(artifacts[1..], ref)
  }

  function FindClaim(claims: seq<Claim>, ref: Ref): (found: Option<Claim>)
    ensures found.Some? <==> exists i :: 0 <= i < |claims| && claims[i].id == ref
    ensures found.Some? ==> found.value in claims && found.value.id == ref
  {
    if claims == [] then None
    else if claims[0].id == ref then Some(claims[0])
    else FindClaim(claims[1..], ref)
  }

  // ---------------------------------------------------------------- what support means

  predicate Present(e: EvidenceSet, ref: Ref) {
    FindArtifact(e.artifacts, ref).Some?
  }

  predicate Sound(e: EvidenceSet, ref: Ref) {
    Present(e, ref) && FindArtifact(e.artifacts, ref).value.Verify()
  }

  /** Present, verified and fresh. */
  predicate Usable(e: EvidenceSet, ref: Ref, asOf: nat) {
    Sound(e, ref) && FindArtifact(e.artifacts, ref).value.IsFresh(asOf)
  }

  /** The claim stands on its own evidence. */
  ghost predicate StandsAlone(e: EvidenceSet, c: Claim, asOf: nat) {
    && c.Verify() && c.created <= asOf && c.status == DeclaredSupported
    && c.evidence != []
    && forall ref :: ref in c.evidence ==> Usable(e, ref, asOf)
  }

  /** Either of the two declares the conflict. */
  predicate Conflict(a: Claim, b: Claim) {
    a.id != b.id && (b.id in a.contradicts || a.id in b.contradicts)
  }

  /** The claim is present, stands alone, and no conflicting claim of the set does. */
  ghost predicate Upheld(e: EvidenceSet, ref: Ref, asOf: nat) {
    && FindClaim(e.claims, ref).Some?
    && var c := FindClaim(e.claims, ref).value;
    && StandsAlone(e, c, asOf)
    && forall other :: other in e.claims && Conflict(c, other) ==> !StandsAlone(e, other, asOf)
  }

  // ---------------------------------------------------------------- the assessment

  function DeclaredStatus(s: ClaimStatus): AssessmentStatus {
    match s
    case DeclaredSupported => Supported
    case DeclaredUnverified => Unverified
    case DeclaredStale => Stale
    case DeclaredContradicted => Contradicted
    case DeclaredRetracted => Retracted
  }

  datatype Defect = Absent | Broken | Expired

  /** The first check that a reference fails. */
  function DefectOf(e: EvidenceSet, ref: Ref, asOf: nat): Option<Defect> {
    if !Present(e, ref) then Some(Absent)
    else if !Sound(e, ref) then Some(Broken)
    else if !Usable(e, ref, asOf) then Some(Expired)
    else None
  }

  /** The references with one defect, in order. */
  function Defective(e: EvidenceSet, refs: seq<Ref>, asOf: nat, d: Defect): (r: seq<Ref>)
    ensures forall ref :: ref in r <==> ref in refs && DefectOf(e, ref, asOf) == Some(d)
  {
    if refs == [] then [] else
    var last := refs[|refs| - 1];
    var front := Defective(e, refs[..|refs| - 1], asOf, d);
    if DefectOf(e, last, asOf) == Some(d) then front + [last] else front
  }

  ghost predicate Shows(e: EvidenceSet, c: Claim, asOf: nat, d: Defect) {
    exists ref :: ref in c.evidence && DefectOf(e, ref, asOf) == Some(d)
  }

  /** Absent evidence outranks broken evidence, which outranks expired evidence. */
  ghost function BaseStatus(e: EvidenceSet, c: Claim, asOf: nat): (status: AssessmentStatus)
    ensures status == Supported <==> StandsAlone(e, c, asOf)
  {
    if !c.Verify() || asOf < c.created then Invalid
    else if c.status != DeclaredSupported then DeclaredStatus(c.status)
    else if c.evidence == [] || Shows(e, c, asOf, Absent) then Unverified
    else if Shows(e, c, asOf, Broken) then Invalid
    else if Shows(e, c, asOf, Expired) then Stale
    else
      assert forall ref :: ref in c.evidence ==> DefectOf(e, ref, asOf) == None;
      Supported
  }

  /** The defect that a status reports. */
  function Blamed(status: AssessmentStatus): Defect {
    if status == Unverified then Absent else if status == Invalid then Broken else Expired
  }

  /** `_base_assessment`, naming the references at fault in their order. */
  method BaseAssessment(e: EvidenceSet, c: Claim, asOf: nat) returns (r: Assessment)
    ensures r.claim == c.id
    ensures r.status == BaseStatus(e, c, asOf)
    ensures c.Verify() && c.created <= asOf && c.status == DeclaredSupported ==>
      r.reasons == Defective(e, c.evidence, asOf, Blamed(r.status))
  {
    if !c.Verify() {
      return Assessment(c.id, Invalid, []);
    }
    if c.created > asOf {
      return Assessment(c.id, Invalid, []);
    }
    if c.status != DeclaredSupported {
      return Assessment(c.id, DeclaredStatus(c.status), []);
    }
    if c.evidence == [] {
      return Assessment(c.id, Unverified, []);
    }
    var missing, invalid, stale := SiftEvidence(e, c.evidence, asOf);
    DefectiveShows(e, c, asOf, Absent);
    DefectiveShows(e, c, asOf, Broken);
    DefectiveShows(e, c, asOf, Expired);
    if missing != [] {
      return Assessment(c.id, Unverified, missing);
    }
    if invalid != [] {
      return Assessment(c.id, Invalid, invalid);
    }
    if stale != [] {
      return Assessment(c.id, Stale, stale);
    }
    r := Assessment(c.id, Supported, []);
  }

  lemma DefectiveShows(e: EvidenceSet, c: Claim, asOf: nat, d: Defect)
    ensures Defective(e, c.evidence, asOf, d) != [] <==> Shows(e, c, asOf, d)
  {
    var r := Defective(e, c.evidence, asOf, d);
    if r != [] {
      assert r[0] in r;
    }
  }

  /** The loop over the references. */
  method SiftEvidence(e: EvidenceSet, refs: seq<Ref>, asOf: nat)
    returns (missing: seq<Ref>, invalid: seq<Ref>, stale: seq<Ref>)
    ensures missing == Defective(e, refs, asOf, Absent)
    ensures invalid == Defective(e, refs, asOf, Broken)
    ensures stale == Defective(e, refs, asOf, Expired)
  {
    missing, invalid, stale := [], [], [];
    for i := 0 to |refs|
      invariant missing == Defective(e, refs[..i], asOf, Absent)
      invariant invalid == Defective(e, refs[..i], asOf, Broken)
      invariant stale == Defective(e, refs[..i], asOf, Expired)
    {
      var ref := refs[i];
      var artifact := FindArtifact(e.artifacts, ref);
      assert refs[..i + 1][..i] == refs[..i];
      if artifact.None? {
        missing := missing + [ref];
      } else if !artifact.value.Verify() {
        invalid := invalid + [ref];
      } else if !artifact.value.IsFresh(asOf) {
        stale := stale + [ref];
      }
    }
    assert refs[..|refs|] == refs;
  }

  /** The conflicting claims that stand alone, in the order of the set. */
  ghost function Opponents(e: EvidenceSet, c: Claim, others: seq<Claim>, asOf: nat): (r: seq<Ref>)
    ensures r == [] <==> forall other :: other in others && Conflict(c, other) ==> !StandsAlone(e, other, asOf)
  {
    if others == [] then [] else
    var last := others[|others| - 1];
    var front := Opponents(e, c, others[..|others| - 1], asOf);
    assert others == others[..|others| - 1] + [last];
    if Conflict(c, last) && StandsAlone(e, last, asOf) then front + [last.id] else front
  }

  /** The status of a claim in the set. */
  ghost function AssessedStatus(e: EvidenceSet, ref: Ref, asOf: nat): (status: AssessmentStatus)
    ensures status == Supported <==> Upheld(e, ref, asOf)
  {
    if FindClaim(e.claims, ref).None? then Missing else
    var c := FindClaim(e.claims, ref).value;
    if !StandsAlone(e, c, asOf) then BaseStatus(e, c, asOf)
    else if !Upheld(e, ref, asOf) then Contradicted
    else Supported
  }

  /** `assess_claim`: supported exactly when upheld; otherwise the conflicting claims are named. */
  method AssessClaim(e: EvidenceSet, ref: Ref, asOf: nat) returns (r: Assessment)
    ensures r.claim == ref && r.status == AssessedStatus(e, ref, asOf)
    ensures var found := FindClaim(e.claims, ref);
      found.Some? && StandsAlone(e, found.value, asOf) && !Upheld(e, ref, asOf) ==>
      r.reasons == Opponents(e, found.value, e.claims, asOf)
  {
    var found := FindClaim(e.claims, ref);
    if found.None? {
      return Assessment(ref, Missing, []);
    }
    var c := found.value;
    var base := BaseAssessment(e, c, asOf);
    if base.status != Supported {
      return base;
    }
    var conflicting: seq<Ref> := [];
    for i := 0 to |e.claims|
      invariant conflicting == Opponents(e, c, e.claims[..i], asOf)
    {
      var other := e.claims[i];
      assert e.claims[..i + 1][..i] == e.claims[..i];
      if other.id == ref {
        continue;
      }
      if !(other.id in c.contradicts || ref in other.contradicts) {
        continue;
      }
      var otherBase := BaseAssessment(e, other, asOf);
      if otherBase.status == Supported {
        conflicting := conflicting + [other.id];
      }
    }
    assert e.claims[..|e.claims|] == e.claims;
    if conflicting != [] {
      return Assessment(ref, Contradicted, conflicting);
    }
    r := base;
  }

  // ---------------------------------------------------------------- defects and statuses spelled out

  /** The artifact is in the set, intact, and `asOf` lies in its lifetime. */
  predicate InForce(e: EvidenceSet, ref: Ref, asOf: nat) {
    && FindArtifact(e.artifacts, ref).Some?
    && var a := FindArtifact(e.artifacts, ref).value;
    && a.intact && a.created <= asOf && (a.freshUntil.Some? ==> asOf <= a.freshUntil.value)
  }

  lemma InForceIsUsable(e: EvidenceSet, ref: Ref, asOf: nat)
    ensures InForce(e, ref, asOf) <==> Usable(e, ref, asOf)
  {
  }

  /** The defect a reference shows: absent from the set, broken, or outside its lifetime. */
  ghost predicate ShowsDefect(e: EvidenceSet, ref: Ref, asOf: nat, d: Defect) {
    match d
    case Absent => forall i :: 0 <= i < |e.artifacts| ==> e.artifacts[i].id != ref
    case Broken =>
      && FindArtifact(e.artifacts, ref).Some?
      && var a := FindArtifact(e.artifacts, ref).value;
      && (!a.intact || (a.freshUntil.Some? && a.freshUntil.value < a.created))
    case Expired =>
      && FindArtifact(e.artifacts, ref).Some?
      && var a := FindArtifact(e.artifacts, ref).value;
      && a.intact && (a.freshUntil.Some? ==> a.created <= a.freshUntil.value)
      && (asOf < a.created || (a.freshUntil.Some? && a.freshUntil.value < asOf))
  }

  lemma DefectExactly(e: EvidenceSet, ref: Ref, asOf: nat, d: Defect)
    ensures DefectOf(e, ref, asOf) == Some(d) <==> ShowsDefect(e, ref, asOf, d)
    ensures DefectOf(e, ref, asOf) == None <==> InForce(e, ref, asOf)
  {
  }

  /** The declared claim may be weighed at all. */
  predicate Weighed(c: Claim, asOf: nat) {
    c.intact && Ascending(c.evidence) && Ascending(c.contradicts) && c.id !in c.contradicts && c.created <= asOf
  }

  /** A claim that may be weighed and declares itself supported. */
  predicate Claimed(c: Claim, asOf: nat) {
    Weighed(c, asOf) && c.status == DeclaredSupported
  }

  /** Some evidence shows the defect. */
  ghost predicate SomeShows(e: EvidenceSet, c: Claim, asOf: nat, d: Defect) {
    exists ref :: ref in c.evidence && ShowsDefect(e, ref, asOf, d)
  }

  lemma ShowsExactly(e: EvidenceSet, c: Claim, asOf: nat, d: Defect)
    ensures Shows(e, c, asOf, d) <==> SomeShows(e, c, asOf, d)
  {
    forall ref
      ensures DefectOf(e, ref, asOf) == Some(d) <==> ShowsDefect(e, ref, asOf, d)
    {
      DefectExactly(e, ref, asOf, d);
    }
  }

  /** Each status of a claim by itself: absent evidence comes before broken, and broken before expired evidence. */
  lemma StatusExactly(e: EvidenceSet, c: Claim, asOf: nat)
    ensures BaseStatus(e, c, asOf) == Unverified <==>
      || (Weighed(c, asOf) && c.status == DeclaredUnverified)
      || (Claimed(c, asOf) && (c.evidence == [] || SomeShows(e, c, asOf, Absent)))
    ensures BaseStatus(e, c, asOf) == Invalid <==>
      || !Weighed(c, asOf)
      || (Claimed(c, asOf) && c.evidence != [] && !SomeShows(e, c, asOf, Absent) && SomeShows(e, c, asOf, Broken))
    ensures BaseStatus(e, c, asOf) == Stale <==>
      || (Weighed(c, asOf) && c.status == DeclaredStale)
      || (Claimed(c, asOf) && c.evidence != [] && !SomeShows(e, c, asOf, Absent) && !SomeShows(e, c, asOf, Broken)
          && SomeShows(e, c, asOf, Expired))
    ensures BaseStatus(e, c, asOf) == Contradicted <==> Weighed(c, asOf) && c.status == DeclaredContradicted
    ensures BaseStatus(e, c, asOf) == Retracted <==> Weighed(c, asOf) && c.status == DeclaredRetracted
    ensures BaseStatus(e, c, asOf) == Supported <==>
      Claimed(c, asOf) && c.evidence != [] && forall ref :: ref in c.evidence ==> InForce(e, ref, asOf)
  {
    ShowsExactly(e, c, asOf, Absent);
    ShowsExactly(e, c, asOf, Broken);
    ShowsExactly(e, c, asOf, Expired);
    forall ref
      ensures InForce(e, ref, asOf) <==> Usable(e, ref, asOf)
    {
      InForceIsUsable(e, ref, asOf);
    }
  }

  /** The opponents of a claim are exactly the conflicting claims that stand on their own. */
  lemma {:induction false} OpponentsExactly(e: EvidenceSet, c: Claim, others: seq<Claim>, asOf: nat, ref: Ref)
    ensures ref in Opponents(e, c, others, asOf) <==>
      exists i :: 0 <= i < |others| && others[i].id == ref && c.id != ref
        && (ref in c.contradicts || c.id in others[i].contradicts) && BaseStatus(e, others[i], asOf) == Supported
  {
    if others != [] {
      var front, last := others[..|others| - 1], others[|others| - 1];
      OpponentsExactly(e, c, front, asOf, ref);
      assert others == front + [last];
    }
  }

  /** The status of a claim in the set: missing, its own, or contradicted by a claim that stands as well. */
  lemma AssessedExactly(e: EvidenceSet, ref: Ref, asOf: nat)
    ensures AssessedStatus(e, ref, asOf) ==
      match FindClaim(e.claims, ref)
      case None => Missing
      case Some(c) =>
        if BaseStatus(e, c, asOf) == Supported && Opponents(e, c, e.claims, asOf) != [] then Contradicted
        else BaseStatus(e, c, asOf)
  {
  }

  // ---------------------------------------------------------------- contradictions

  /** Two upheld claims never conflict, even when only one of them declares it. */
  lemma UpheldNeverConflict(e: EvidenceSet, a: Ref, b: Ref, asOf: nat)
    requires Upheld(e, a, asOf) && Upheld(e, b, asOf)
    ensures !Conflict(FindClaim(e.claims, a).value, FindClaim(e.claims, b).value)
  {
    var x, y := FindClaim(e.claims, a).value, FindClaim(e.claims, b).value;
    assert Conflict(x, y) ==> !StandsAlone(e, y, asOf);
  }

  /** A conflict between two claims that stand alone brings down both. */
  lemma ConflictBringsDownBoth(e: EvidenceSet, a: Ref, b: Ref, asOf: nat)
    requires FindClaim(e.claims, a).Some? && FindClaim(e.claims, b).Some?
    requires StandsAlone(e, FindClaim(e.claims, a).value, asOf) && StandsAlone(e, FindClaim(e.claims, b).value, asOf)
    requires Conflict(FindClaim(e.claims, a).value, FindClaim(e.claims, b).value)
    ensures !Upheld(e, a, asOf) && !Upheld(e, b, asOf)
  {
  }
}
