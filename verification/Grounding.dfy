/** Grounding and quality: which claims need support, which have it, and what may pass. */
module Grounding {
  import opened Budget
  import opened Strings
  import opened Knowledge
  import opened Draft

  // ---------------------------------------------------------------- data

  datatype GroundingStatus = SupportedClaim | PartialClaim | UnsupportedClaim | ConflictingClaim | NotRequired
  datatype GroundingOutcome = Grounded | SupplementRequired | PartiallyGrounded
  datatype FindingReason =
    | NotGroundingRequired | ConflictOpen | FactSupport | FactTypeMismatch | FactScopeMismatch | FactRequired
    | EvidenceMissing | ReferenceInvalid | ReferenceValid
  datatype Finding = Finding(claimId: ClaimId, status: GroundingStatus, reason: FindingReason,
                             facts: set<FactId>, evidence: set<EvidenceId>, refs: seq<string>)

  /** What claims are held against: validated facts, or only the references of stored evidence. */
  datatype View = ByFacts(content: Content) | ByReferences(available: set<string>)

  /** Whether a fact mentions a statement, given the evidence; the token matching is not modelled. */
  type Mentions = (Fact, string, map<EvidenceId, Record>) -> bool

  predicate Required(t: ClaimType) {
    t.CurrentStateClaim? || t.ConstraintClaim?
  }

  predicate Bad(s: GroundingStatus) {
    s.UnsupportedClaim? || s.PartialClaim? || s.ConflictingClaim?
  }

  // ---------------------------------------------------------------- findings

  predicate ScopeMatches(f: Fact, t: ClaimType) {
    || (t.CurrentStateClaim? && f.scope.CurrentState?)
    || (t.ConstraintClaim? && (f.scope.CurrentState? || f.scope.TargetDecision?))
  }

  predicate ScopeSupports(f: Fact, t: ClaimType) {
    ScopeMatches(f, t) && (f.factType.CodeVerified? || f.factType.UserConfirmed?)
  }

  function Related(m: Mentions, c: Content, statement: string): set<FactId> {
    set k | k in c.facts && m(c.facts[k], statement, c.evidence)
  }

  function Contested(c: Content): set<FactId> {
    set x, k | x in c.conflicts && k in x.id.factIds :: k
  }

  function Supporting(m: Mentions, c: Content, claim: Claim): set<FactId> {
    set k | k in Related(m, c, claim.statement) && ScopeSupports(c.facts[k], claim.claimType)
        && c.facts[k].status.Supported?
  }

  function Citing(claim: Claim, status: GroundingStatus, reason: FindingReason, c: Content,
                  facts: set<FactId>): Finding
  {
    var evidence := set k, e | k in facts && k in c.facts && e in c.facts[k].evidenceIds :: e;
    Finding(claim.id, status, reason, facts, evidence, [])
  }

  function FindingByFacts(m: Mentions, c: Content, claim: Claim): Finding {
    if !Required(claim.claimType) then Finding(claim.id, NotRequired, NotGroundingRequired, {}, {}, [])
    else
      var related := Related(m, c, claim.statement);
      if related * Contested(c) != {} then Citing(claim, ConflictingClaim, ConflictOpen, c, related * Contested(c))
      else if Supporting(m, c, claim) != {} then Citing(claim, SupportedClaim, FactSupport, c, Supporting(m, c, claim))
      else if related != {} then
        var fits := exists k | k in related :: ScopeMatches(c.facts[k], claim.claimType);
        var reason := if fits then FactTypeMismatch else FactScopeMismatch;
        Citing(claim, UnsupportedClaim, reason, c, related)
      else Finding(claim.id, UnsupportedClaim, FactRequired, {}, {}, [])
  }

  function FindingByReferences(available: set<string>, claim: Claim): Finding {
    if !Required(claim.claimType) then Finding(claim.id, NotRequired, NotGroundingRequired, {}, {}, [])
    else if claim.evidenceRefs == [] then Finding(claim.id, UnsupportedClaim, EvidenceMissing, {}, {}, [])
    else if exists r | r in claim.evidenceRefs :: r !in available then Finding(claim.id, UnsupportedClaim,
        ReferenceInvalid, {}, {}, claim.evidenceRefs)
    else Finding(claim.id, SupportedClaim, ReferenceValid, {}, {}, claim.evidenceRefs)
  }

  function FindingOf(m: Mentions, v: View, claim: Claim): Finding {
    match v
    case ByFacts(c) => FindingByFacts(m, c, claim)
    case ByReferences(available) => FindingByReferences(available, claim)
  }

  function Findings(m: Mentions, v: View, claims: seq<Claim>): seq<Finding> {
    seq(|claims|, i requires 0 <= i < |claims| => FindingOf(m, v, claims[i]))
  }

  /** A fact that can carry a claim: about the current state, or for a constraint also a target decision, verified by
      code or confirmed by the user, supported, and mentioning the claim. */
  predicate Carries(m: Mentions, c: Content, claim: Claim, k: FactId) {
    && k in c.facts && c.facts[k].status == Supported && m(c.facts[k], claim.statement, c.evidence)
    && (c.facts[k].factType == CodeVerified || c.facts[k].factType == UserConfirmed)
    && (c.facts[k].scope == CurrentState || (claim.claimType == ConstraintClaim && c.facts[k].scope == TargetDecision))
  }

  /** Some fact that mentions the claim is in an open conflict. */
  predicate IsContested(m: Mentions, c: Content, claim: Claim) {
    exists k | k in c.facts :: m(c.facts[k], claim.statement, c.evidence) && k in Contested(c)
  }

  /** By facts, a claim that needs support is CONFLICTING exactly when a fact mentioning it is contested, else SUPPORTED
      exactly when some fact carries it, and its finding cites exactly the facts that do. */
  lemma FactsDecide(m: Mentions, c: Content, claim: Claim)
    requires Required(claim.claimType)
    ensures var f := FindingByFacts(m, c, claim);
            && (f.status == ConflictingClaim <==> IsContested(m, c, claim))
            && (f.status == SupportedClaim <==>
                !IsContested(m, c, claim) && exists k | k in c.facts :: Carries(m, c, claim, k))
            && (f.status == SupportedClaim ==> f.facts == set k | k in c.facts && Carries(m, c, claim, k))
            && (f.status == UnsupportedClaim <==> f.status != ConflictingClaim && f.status != SupportedClaim)
  {
    var related, contested := Related(m, c, claim.statement), Contested(c);
    if k :| k in c.facts && m(c.facts[k], claim.statement, c.evidence) && k in contested {
      assert k in related * contested;
    }
    if k :| k in related * contested {
      assert IsContested(m, c, claim);
    }
    var carrying := set k | k in c.facts && Carries(m, c, claim, k);
    assert Supporting(m, c, claim) == carrying;
    if k :| k in c.facts && Carries(m, c, claim, k) {
      assert k in carrying;
    }
  }

  /** Every finding is about its claim, and only claims that need no support are exempt. */
  lemma FindingMeans(m: Mentions, v: View, claim: Claim)
    ensures var f := FindingOf(m, v, claim);
            f.claimId == claim.id && (f.status.NotRequired? <==> !Required(claim.claimType)) && !f.status.PartialClaim?
  {
  }

  // ---------------------------------------------------------------- the outcome

  /** The first claim with an identifier. */
  function First(claims: seq<Claim>, id: ClaimId): (r: Claim)
    requires exists c :: c in claims && c.id == id
    ensures r in claims && r.id == id
  {
    if claims[0].id == id then claims[0] else First(claims[1..], id)
  }

  /** Whether an unsupported claim counts against the outcome.  The assessment by facts asks the first claim with the
      same identifier, the assessment by references the claim itself. */
  predicate Counts(v: View, claims: seq<Claim>, i: nat)
    requires i < |claims|
  {
    match v
    case ByFacts(_) => assert claims[i] in claims; !First(claims, claims[i].id).criticality.Informational?
    case ByReferences(_) => !claims[i].criticality.Informational?
  }

  predicate Blocked(m: Mentions, v: View, claims: seq<Claim>) {
    exists i | 0 <= i < |claims| :: Bad(FindingOf(m, v, claims[i]).status) && Counts(v, claims, i)
  }

  function OutcomeOf(blocked: bool, supplements: int, maxSupplements: int, toolBudget: bool): GroundingOutcome {
    if !blocked then Grounded
    else if supplements < maxSupplements && toolBudget then SupplementRequired
    else PartiallyGrounded
  }

  /** The assessment by facts: a finding per claim, then a search for a blocking one. */
  method AssessByFacts(m: Mentions, c: Content, claims: seq<Claim>, supplements: int, maxSupplements: int,
                       toolBudget: bool)
    returns (findings: seq<Finding>, outcome: GroundingOutcome)
    ensures findings == Findings(m, ByFacts(c), claims)
    ensures outcome == OutcomeOf(Blocked(m, ByFacts(c), claims), supplements, maxSupplements, toolBudget)
  {
    findings := [];
    for i := 0 to |claims|
      invariant |findings| == i && forall k | 0 <= k < i :: findings[k] == FindingByFacts(m, c, claims[k])
    {
      findings := findings + [FindingByFacts(m, c, claims[i])];
    }
    assert findings == Findings(m, ByFacts(c), claims);
    var blocking := SearchBlocking(m, c, claims, findings);
    if !blocking {
      outcome := Grounded;
    } else if supplements < maxSupplements && toolBudget {
      outcome := SupplementRequired;
    } else {
      outcome := PartiallyGrounded;
    }
  }

  method SearchBlocking(m: Mentions, c: Content, claims: seq<Claim>, findings: seq<Finding>) returns (blocking: bool)
    requires findings == Findings(m, ByFacts(c), claims)
    ensures blocking <==> Blocked(m, ByFacts(c), claims)
  {
    blocking := false;
    for i := 0 to |findings|
      invariant blocking <==>
                  exists k | 0 <= k < i ::
                    Bad(FindingOf(m, ByFacts(c), claims[k]).status) && Counts(ByFacts(c), claims, k)
    {
      FindingMeans(m, ByFacts(c), claims[i]);
      assert claims[i] in claims;
      if Bad(findings[i].status) && !First(claims, findings[i].claimId).criticality.Informational? {
        blocking := true;
      }
    }
  }

  /** The assessment by references: one loop that keeps two flags. */
  method AssessByReferences(m: Mentions, available: set<string>, claims: seq<Claim>, supplements: int,
      maxSupplements: int, toolBudget: bool)
    returns (findings: seq<Finding>, outcome: GroundingOutcome)
    ensures findings == Findings(m, ByReferences(available), claims)
    ensures outcome == OutcomeOf(Blocked(m, ByReferences(available), claims), supplements, maxSupplements, toolBudget)
  {
    findings := [];
    var blockingMissing, blockingConflict := false, false;
    for i := 0 to |claims|
      invariant |findings| == i && forall k | 0 <= k < i :: findings[k] == FindingByReferences(available, claims[k])
      invariant !blockingConflict
      invariant blockingMissing <==> exists k | 0 <= k < i ::
                Bad(FindingOf(m, ByReferences(available), claims[k]).status)
                && Counts(ByReferences(available), claims, k)
    {
      var finding := FindingByReferences(available, claims[i]);
      findings := findings + [finding];
      if !claims[i].criticality.Informational? {
        blockingMissing := blockingMissing || finding.status.UnsupportedClaim? || finding.status.PartialClaim?;
        blockingConflict := blockingConflict || finding.status.ConflictingClaim?;
      }
    }
    assert findings == Findings(m, ByReferences(available), claims);
    if !blockingMissing && !blockingConflict {
      outcome := Grounded;
    } else if blockingMissing && supplements < maxSupplements && toolBudget {
      outcome := SupplementRequired;
    } else {
      outcome := PartiallyGrounded;
    }
  }

  // ---------------------------------------------------------------- the gate

  /** Every claim that needs support and is not informational has it. */
  predicate Gate(m: Mentions, v: View, claims: seq<Claim>) {
    forall i | 0 <= i < |claims| && Required(claims[i].claimType) && !claims[i].criticality.Informational? ::
      FindingOf(m, v, claims[i]).status.SupportedClaim?
  }

  predicate DistinctIds(claims: seq<Claim>) {
    forall i, j | 0 <= i < j < |claims| :: claims[i].id != claims[j].id
  }

  /** The outcome is GROUNDED exactly when every claim that counts and needs support has it. */
  lemma GroundedIff(m: Mentions, v: View, claims: seq<Claim>)
    ensures !Blocked(m, v, claims) <==>
            forall i | 0 <= i < |claims| && Required(claims[i].claimType) && Counts(v, claims, i) ::
                FindingOf(m, v, claims[i]).status.SupportedClaim?
  {
    forall i | 0 <= i < |claims| ensures Bad(FindingOf(m, v, claims[i]).status) <==>
        Required(claims[i].claimType)
        && !FindingOf(m, v, claims[i]).status.SupportedClaim? {
      FindingMeans(m, v, claims[i]);
    }
  }

  /** Whether a claim counts when held against facts: the first claim with its identifier is not informational. */
  predicate Weighs(claims: seq<Claim>, i: nat)
    requires i < |claims|
  {
    Counts(ByFacts(Content(map[], map[], map[], {})), claims, i)
  }

  /** Support of the second claim is support of the first: the same statement, and the same type or the stricter one. */
  predicate Implied(c: Claim, d: Claim) {
    c.statement == d.statement
        && (c.claimType == d.claimType || (c.claimType.ConstraintClaim? && d.claimType.CurrentStateClaim?))
  }

  predicate VouchedFor(claims: seq<Claim>, i: nat)
    requires i < |claims|
  {
    exists j | 0 <= j < |claims| :: Weighs(claims, j) && Implied(claims[i], claims[j])
  }

  /** Every claim that needs support and is not informational counts, or another that counts asks for no less. */
  predicate Vouched(claims: seq<Claim>) {
    forall i | 0 <= i < |claims| && Required(claims[i].claimType) && !claims[i].criticality.Informational? ::
      VouchedFor(claims, i)
  }

  /** What carries the stricter claim carries the other. */
  lemma ImpliedSupport(m: Mentions, c: Content, weak: Claim, strict: Claim)
    requires Required(weak.claimType) && Implied(weak, strict) && FindingByFacts(m, c, strict).status.SupportedClaim?
    ensures FindingByFacts(m, c, weak).status.SupportedClaim?
  {
    FactsDecide(m, c, strict);
    FactsDecide(m, c, weak);
    var k :| k in c.facts && Carries(m, c, strict, k);
    assert Carries(m, c, weak, k);
  }

  lemma VouchedIsGated(m: Mentions, c: Content, claims: seq<Claim>)
    requires Vouched(claims) && !Blocked(m, ByFacts(c), claims)
    ensures Gate(m, ByFacts(c), claims)
  {
    GroundedIff(m, ByFacts(c), claims);
    forall i | 0 <= i < |claims| && Required(claims[i].claimType) && !claims[i].criticality.Informational?
      ensures FindingOf(m, ByFacts(c), claims[i]).status.SupportedClaim?
    {
      assert VouchedFor(claims, i);
      var j :| 0 <= j < |claims| && Weighs(claims, j) && Implied(claims[i], claims[j]);
      assert Counts(ByFacts(c), claims, j) && Required(claims[j].claimType);
      ImpliedSupport(m, c, claims[i], claims[j]);
    }
  }

  /** By references GROUNDED is the gate. */
  lemma ReferencesGateExactly(m: Mentions, available: set<string>, claims: seq<Claim>)
    ensures !Blocked(m, ByReferences(available), claims) <==> Gate(m, ByReferences(available), claims)
  {
    GroundedIff(m, ByReferences(available), claims);
  }

  /** Distinct identifiers are enough. */
  lemma DistinctIdsAreVouched(claims: seq<Claim>)
    requires DistinctIds(claims)
    ensures Vouched(claims)
  {
    forall i | 0 <= i < |claims| && !claims[i].criticality.Informational? ensures VouchedFor(claims, i) {
      assert claims[i] in claims;
      assert First(claims, claims[i].id) == claims[i];
      assert Weighs(claims, i) && Implied(claims[i], claims[i]);
    }
  }

  /** An informational claim hides every later claim of the same identifier: for any two claims that differ in weight
      only, the informational one first, GROUNDED says nothing about the other. */
  lemma ShadowedClaimPasses(m: Mentions, c: Content, informational: Claim, other: Claim)
    requires informational.criticality.Informational? && !other.criticality.Informational?
             && informational.id == other.id
    ensures !Blocked(m, ByFacts(c), [informational, other])
    ensures Gate(m, ByFacts(c), [informational, other]) <==> (Required(other.claimType) ==>
              FindingOf(m, ByFacts(c), other).status.SupportedClaim?)
  {
    var claims := [informational, other];
    assert claims[0] == informational && claims[1] == other;
    assert First(claims, informational.id) == informational;
  }

  /** Claims made up from units need no support, so a scoped revision, which has no other claims, is always GROUNDED. */
  lemma DefaultClaimsAreGrounded(m: Mentions, v: View, runId: string, generation: int, units: seq<DraftUnit>)
    ensures !Blocked(m, v, DefaultClaims(runId, generation, units))
  {
    var claims := DefaultClaims(runId, generation, units);
    forall i | 0 <= i < |claims| ensures !Bad(FindingOf(m, v, claims[i]).status) {
      FindingMeans(m, v, claims[i]);
    }
  }

  // ---------------------------------------------------------------- unknowns

  function LastFinding(findings: seq<Finding>, id: ClaimId): Option<Finding> {
    if findings == [] then None
    else if findings[|findings| - 1].claimId == id then Some(findings[|findings| - 1])
    else LastFinding(findings[..|findings| - 1], id)
  }

  predicate Lacking(findings: seq<Finding>, claim: Claim) {
    var f := LastFinding(findings, claim.id);
    f.Some? && Bad(f.value.status)
  }

  function UnknownsOf(claims: seq<Claim>, findings: seq<Finding>): seq<DraftUnknown> {
    if claims == [] then []
    else
      var last := claims[|claims| - 1];
      UnknownsOf(claims[..|claims| - 1], findings) + if Lacking(findings,
          last) then [DraftUnknown(last.id, last.unitKey, last.statement)] else []
  }

  /** The unknowns are exactly those of the claims without support. */
  lemma {:induction false} UnknownsHold(claims: seq<Claim>, findings: seq<Finding>)
    ensures forall u | u in UnknownsOf(claims, findings) ::
              exists c :: c in claims && u == DraftUnknown(c.id, c.unitKey, c.statement) && Lacking(findings, c)
    ensures forall c | c in claims && Lacking(findings, c) ::
              DraftUnknown(c.id, c.unitKey, c.statement) in UnknownsOf(claims, findings)
  {
    if claims != [] {
      var front, last := claims[..|claims| - 1], claims[|claims| - 1];
      UnknownsHold(front, findings);
      assert claims == front + [last];
    }
  }

  /** Each claim without support becomes an unknown; claims and existing units stay. */
  method MaterializeUnknowns(b: DraftBundle, findings: seq<Finding>, appendix: seq<DraftUnknown> -> string)
    returns (r: DraftBundle)
    ensures r == WithUnknowns(b, UnknownsOf(b.claims, findings), appendix)
    ensures r.claims == b.claims && b.units <= r.units && r.generation == b.generation
    ensures r == b || forall u | u in r.unknowns :: exists c ::
        c in b.claims && u == DraftUnknown(c.id, c.unitKey, c.statement) && Lacking(findings, c)
    ensures forall c | c in b.claims && Lacking(findings, c) :: DraftUnknown(c.id, c.unitKey, c.statement) in r.unknowns
  {
    var unknowns := [];
    for i := 0 to |b.claims|
      invariant unknowns == UnknownsOf(b.claims[..i], findings)
    {
      var claim := b.claims[i];
      assert b.claims[..i + 1][..i] == b.claims[..i];
      var finding := LastFinding(findings, claim.id);
      if finding.Some? && Bad(finding.value.status) {
        unknowns := unknowns + [DraftUnknown(claim.id, claim.unitKey, claim.statement)];
      }
    }
    assert b.claims[..|b.claims|] == b.claims;
    UnknownsHold(b.claims, findings);
    return WithUnknowns(b, unknowns, appendix);
  }

  // ---------------------------------------------------------------- quality

  datatype QualityOutcome = Passed | RepairRequired | NeedsHuman
  datatype Issue = UnsupportedCurrentState | EmptyUnit(key: string) | DuplicateUnit(key: string)

  predicate Fatal(i: Issue) {
    i.UnsupportedCurrentState? || i.DuplicateUnit?
  }

  predicate HasFatal(issues: seq<Issue>) {
    exists x | x in issues :: Fatal(x)
  }

  predicate NoBlanks(units: seq<DraftUnit>) {
    forall u | u in units :: !IsBlank(u)
  }

  function QualityOf(units: seq<DraftUnit>, grounding: GroundingOutcome, repairs: int,
                     maxRepairs: int): QualityOutcome
  {
    if grounding.PartiallyGrounded? || !DistinctKeys(units) then NeedsHuman
    else if NoBlanks(units) then Passed
    else if repairs < maxRepairs then RepairRequired
    else NeedsHuman
  }

  predicate IsBlank(u: DraftUnit) {
    Strip(u.markdown) == ""
  }

  /** The issues of the units: blank ones, and keys seen before. */
  method UnitIssues(units: seq<DraftUnit>) returns (issues: seq<Issue>)
    ensures HasFatal(issues) <==> !DistinctKeys(units)
    ensures issues == [] <==> DistinctKeys(units) && forall u | u in units :: !IsBlank(u)
    ensures forall u | u in units && IsBlank(u) :: EmptyUnit(u.key) in issues
  {
    issues := [];
    var seen := {};
    for i := 0 to |units|
      invariant Seen(seen, units, i)
      invariant HasFatal(issues) <==> !DistinctUpTo(units, i)
      invariant issues == [] <==> DistinctUpTo(units, i) && forall j | 0 <= j < i :: !IsBlank(units[j])
      invariant forall j | 0 <= j < i && IsBlank(units[j]) :: EmptyUnit(units[j].key) in issues
    {
      DistinctKeysSnoc(units, i, seen);
      issues := AddIssues(issues, units[i], units[i].key in seen);
      SeenSnoc(seen, units, i);
      seen := seen + {units[i].key};
    }
  }

  /** The issues of one more unit. */
  method AddIssues(issues: seq<Issue>, u: DraftUnit, again: bool) returns (r: seq<Issue>)
    ensures issues <= r && (IsBlank(u) ==> EmptyUnit(u.key) in r)
    ensures r == [] <==> issues == [] && !IsBlank(u) && !again
    ensures HasFatal(r) <==> again || HasFatal(issues)
  {
    r := issues;
    if IsBlank(u) {
      r := r + [EmptyUnit(u.key)];
    }
    if again {
      r := r + [DuplicateUnit(u.key)];
      assert DuplicateUnit(u.key) in r && Fatal(DuplicateUnit(u.key));
    }
  }

  /** The quality check passes exactly the drafts that are not partially grounded, have no blank unit and no key
      twice. */
  method CheckQuality(units: seq<DraftUnit>, grounding: GroundingOutcome, repairs: int, maxRepairs: int)
      returns (issues: seq<Issue>, outcome: QualityOutcome)
    ensures outcome == QualityOf(units, grounding, repairs, maxRepairs)
    ensures outcome.Passed? ==> issues == []
    ensures forall u | u in units && IsBlank(u) :: EmptyUnit(u.key) in issues
  {
    issues := UnitIssues(units);
    if grounding.PartiallyGrounded? {
      issues := [UnsupportedCurrentState] + issues;
      assert UnsupportedCurrentState in issues && Fatal(UnsupportedCurrentState);
    }
    if HasFatal(issues) {
      outcome := NeedsHuman;
    } else if issues != [] {
      outcome := if repairs < maxRepairs then RepairRequired else NeedsHuman;
    } else {
      outcome := Passed;
    }
  }

  /** The keys of the first units. */
  ghost predicate Seen(seen: set<string>, units: seq<DraftUnit>, n: nat)
    requires n <= |units|
  {
    forall k :: k in seen <==> exists j :: 0 <= j < n && units[j].key == k
  }

  lemma SeenSnoc(seen: set<string>, units: seq<DraftUnit>, i: nat)
    requires i < |units| && Seen(seen, units, i)
    ensures Seen(seen + {units[i].key}, units, i + 1)
  {
  }

  predicate DistinctUpTo(units: seq<DraftUnit>, n: nat)
    requires n <= |units|
  {
    forall i, j | 0 <= i < j < n :: units[i].key != units[j].key
  }

  lemma DistinctKeysSnoc(units: seq<DraftUnit>, i: nat, seen: set<string>)
    requires i < |units| && Seen(seen, units, i)
    ensures DistinctUpTo(units, i + 1) <==> DistinctUpTo(units, i) && units[i].key !in seen
  {
  }
}
