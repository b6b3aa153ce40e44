/** When GROUNDED is the gate: the exact condition over all knowledge that builds can reach. */
module GroundingGate {
  import opened Budget
  import opened Evidence
  import opened Knowledge
  import opened KnowledgeLaws
  import opened Draft
  import opened Grounding

  // ---------------------------------------------------------------- knowledge in which a claim lacks support

  /** The excerpt is a parser fact of the given scope. */
  predicate Reads(t: Text, excerpt: string, scope: Scope) {
    match t.parse(excerpt)
    case None => false
    case Some(raw) =>
      && raw.Obj? && raw.fields.Keys == {"subject", "predicate", "value", "scope"}
      && ScopeNamed(t.show(raw.fields["scope"])) == Some(scope)
  }

  const SAMPLE_AUTHORITY := Authority("openapi", "b", "s", "v", "")
  const SAMPLE_ACTION := Action(ParseOpenapi, "", "", map[], "", [])

  function SampleItem(t: Text, excerpt: string): EvidenceItem {
    EvidenceItem("openapi", "s", "l", t.sha(excerpt), excerpt, "openapi", "b", "v", "", "")
  }

  function SampleFact(t: Text, excerpt: string, scope: Scope): Fact
    requires Reads(t, excerpt, scope)
  {
    ParserFact(t, SAMPLE_ACTION, RecordOf(SampleItem(t, excerpt), SAMPLE_AUTHORITY, SignatureOf(SAMPLE_ACTION))).value
  }

  /** A request that reads a fact about the current state and, if wanted, a decision. */
  function SampleRequest(t: Text, state: string, decision: string, both: bool): Request {
    var items := [SampleItem(t, state)] + if both then [SampleItem(t, decision)] else [];
    Request(Header("", "", "", ""), SAMPLE_ACTION, items, [SAMPLE_AUTHORITY], map[])
  }

  function SampleContent(t: Text, state: string, decision: string, both: bool): Content {
    Prior(Chain(t, [SampleRequest(t, state, decision, both)]))
  }

  /** An item more is a fact more. */
  lemma OneFactMore(t: Text, items: seq<EvidenceItem>, excerpt: string, scope: Scope)
    requires Reads(t, excerpt, scope)
    ensures var s := Sources(SignatureOf(SAMPLE_ACTION), [SAMPLE_AUTHORITY]);
            Extract(t, SAMPLE_ACTION, Records(t, s, items + [SampleItem(t, excerpt)]))
            == Extract(t, SAMPLE_ACTION, Records(t, s, items)) + [SampleFact(t, excerpt, scope)]
  {
    var s, item := Sources(SignatureOf(SAMPLE_ACTION), [SAMPLE_AUTHORITY]), SampleItem(t, excerpt);
    assert (items + [item])[..|items|] == items;
    assert ValidateSource(t, item, s.authorities) == Valid(SAMPLE_AUTHORITY);
    var records, record := Records(t, s, items), RecordOf(item, SAMPLE_AUTHORITY, s.signature);
    assert (records + [record])[..|records|] == records;
  }

  /** The facts read, by identifier. */
  function SampleFacts(t: Text, state: string, decision: string, both: bool): map<FactId, Fact>
    requires Reads(t, state, CurrentState) && Reads(t, decision, TargetDecision)
  {
    var f, g := SampleFact(t, state, CurrentState), SampleFact(t, decision, TargetDecision);
    if both then map[f.id := f, g.id := g] else map[f.id := f]
  }

  lemma SampleMerged(t: Text, state: string, decision: string, both: bool)
    requires Reads(t, state, CurrentState) && Reads(t, decision, TargetDecision)
    ensures Merged(t, SampleRequest(t, state, decision, both), None) == SampleFacts(t, state, decision, both)
  {
    var f, g := SampleFact(t, state, CurrentState), SampleFact(t, decision, TargetDecision);
    OneFactMore(t, [], state, CurrentState);
    assert [] + [SampleItem(t, state)] == [SampleItem(t, state)]
           && [SampleItem(t, state)] + [] == [SampleItem(t, state)];
    OneFactMore(t, [SampleItem(t, state)], decision, TargetDecision);
    var none: seq<Fact> := [];
    assert none + [f] == [f] && [f] + [g] == [f, g] && [f][..0] == none && [f, g][..1] == [f];
    assert StoreFacts(map[], [f]) == map[f.id := f];
    assert StoreFacts(map[], [f, g]) == map[f.id := f][g.id := g];
  }

  /** A first build without a clash leaves the facts as they were read. */
  lemma PeacefulBuild(t: Text, req: Request)
    requires IsParser(req.action.tool) && forall k | k in Merged(t, req, None) :: !InClash(Merged(t, req, None), k)
    ensures var c := Prior(Chain(t, [req])); c.facts == Merged(t, req, None) && c.conflicts == {}
  {
    assert [req][..0] == [];
    assert Mark(Merged(t, req, None)) == Merged(t, req, None);
  }

  /** What the request leaves: the facts it reads, both supported, and no conflict. */
  lemma SampleKnowledge(t: Text, state: string, decision: string, both: bool)
    requires Reads(t, state, CurrentState) && Reads(t, decision, TargetDecision)
    ensures var c := SampleContent(t, state, decision, both);
            c.facts == SampleFacts(t, state, decision, both) && c.conflicts == {}
  {
    SampleMerged(t, state, decision, both);
    var facts := SampleFacts(t, state, decision, both);
    assert forall x, y | x in facts && y in facts && facts[x].scope == facts[y].scope :: x == y;
    PeacefulBuild(t, SampleRequest(t, state, decision, both));
  }

  function SampleMentions(statement: string): Mentions {
    (f: Fact, text: string, evidence: map<EvidenceId, Record>) => (text == statement) == (f.scope == TargetDecision)
  }

  /** A supported fact that code verifies. */
  predicate Verified(f: Fact, scope: Scope) {
    f.scope == scope && f.status == Supported && f.factType == CodeVerified
  }

  /** With a fact about the current state and, if wanted, a decision, a claim that needs support has it unless it makes
      the one statement and, if that may be a decision, is about the current state. */
  lemma TwoFactsSupport(c: Content, f: Fact, g: Fact, claim: Claim, statement: string, both: bool)
    requires Verified(f, CurrentState) && Verified(g, TargetDecision) && Required(claim.claimType)
    requires c.facts == (if both then map[f.id := f, g.id := g] else map[f.id := f]) && c.conflicts == {}
    requires f.id != g.id
    ensures FindingByFacts(SampleMentions(statement), c, claim).status.SupportedClaim? <==>
              claim.statement != statement || (both && claim.claimType.ConstraintClaim?)
  {
    var m := SampleMentions(statement);
    FactsDecide(m, c, claim);
    assert f.id in c.facts && (both <==> g.id in c.facts);
    assert Contested(c) == {};
    assert claim.statement != statement ==> Carries(m, c, claim, f.id);
    assert both && claim.statement == statement && claim.claimType.ConstraintClaim? ==> Carries(m, c, claim, g.id);
  }

  lemma SampleSupports(t: Text, state: string, decision: string, claim: Claim, statement: string, both: bool)
    requires Reads(t, state, CurrentState) && Reads(t, decision, TargetDecision) && Required(claim.claimType)
    ensures var c := SampleContent(t, state, decision, both);
            FindingByFacts(SampleMentions(statement), c, claim).status.SupportedClaim? <==>
              claim.statement != statement || (both && claim.claimType.ConstraintClaim?)
  {
    SampleKnowledge(t, state, decision, both);
    TwoFactsSupport(SampleContent(t, state, decision, both), SampleFact(t, state, CurrentState),
                    SampleFact(t, decision, TargetDecision), claim, statement, both);
  }

  /** A claim for which none vouches lacks support after a build of two parser facts, while the outcome is GROUNDED. */
  lemma UnvouchedPasses(t: Text, state: string, decision: string, claims: seq<Claim>, i: nat)
    requires Reads(t, state, CurrentState) && Reads(t, decision, TargetDecision)
    requires i < |claims| && Required(claims[i].claimType) && !claims[i].criticality.Informational?
             && !VouchedFor(claims, i)
    ensures var m := SampleMentions(claims[i].statement);
            var v := ByFacts(SampleContent(t, state, decision, claims[i].claimType.CurrentStateClaim?));
            !Blocked(m, v, claims) && !Gate(m, v, claims)
  {
    var both := claims[i].claimType.CurrentStateClaim?;
    var m, c := SampleMentions(claims[i].statement), SampleContent(t, state, decision, both);
    SampleSupports(t, state, decision, claims[i], claims[i].statement, both);
    GroundedIff(m, ByFacts(c), claims);
    forall j | 0 <= j < |claims| && Required(claims[j].claimType) && Counts(ByFacts(c), claims, j)
      ensures FindingOf(m, ByFacts(c), claims[j]).status.SupportedClaim?
    {
      assert Weighs(claims, j) && !Implied(claims[i], claims[j]);
      SampleSupports(t, state, decision, claims[j], claims[i].statement, both);
    }
  }

  // ---------------------------------------------------------------- when the outcome is the gate

  /** The text functions can read a fact about the current state and a decision. */
  ghost predicate ReadsBoth(t: Text) {
    (exists state :: Reads(t, state, CurrentState)) && exists decision :: Reads(t, decision, TargetDecision)
  }

  predicate Passes(m: Mentions, c: Content, claims: seq<Claim>) {
    !Blocked(m, ByFacts(c), claims) ==> Gate(m, ByFacts(c), claims)
  }

  /** GROUNDED implies the gate after every sequence of builds and whatever facts mention. */
  ghost predicate GroundedIsSafe(t: Text, claims: seq<Claim>) {
    forall m: Mentions, requests: seq<Request> :: Passes(m, Prior(Chain(t, requests)), claims)
  }

  /** GROUNDED implies the gate, over all knowledge that builds can reach, if and only if every claim that needs
      support and is not informational counts, or shares its statement with a claim that counts and asks for no less. */
  lemma GroundedImpliesGateIff(t: Text, claims: seq<Claim>)
    requires ReadsBoth(t)
    ensures GroundedIsSafe(t, claims) <==> Vouched(claims)
  {
    if Vouched(claims) {
      forall m: Mentions, requests: seq<Request> ensures Passes(m, Prior(Chain(t, requests)), claims) {
        if !Blocked(m, ByFacts(Prior(Chain(t, requests))), claims) {
          VouchedIsGated(m, Prior(Chain(t, requests)), claims);
        }
      }
    } else {
      var i :| 0 <= i < |claims| && Required(claims[i].claimType) && !claims[i].criticality.Informational?
               && !VouchedFor(claims, i);
      var state :| Reads(t, state, CurrentState);
      var decision :| Reads(t, decision, TargetDecision);
      UnvouchedPasses(t, state, decision, claims, i);
      var request := SampleRequest(t, state, decision, claims[i].claimType.CurrentStateClaim?);
      assert !Passes(SampleMentions(claims[i].statement), Prior(Chain(t, [request])), claims);
    }
  }

  /** The identifiers are those of the claims' types and statements, as every build makes them. */
  predicate IdsOwn(claims: seq<Claim>) {
    forall c | c in claims :: c.id.claimType == c.claimType && c.id.statement == c.statement
  }

  /** Nothing else is blocked: with such identifiers, and always by references, the gate implies GROUNDED. */
  lemma GateIsGrounded(m: Mentions, v: View, claims: seq<Claim>)
    requires Gate(m, v, claims) && (v.ByReferences? || IdsOwn(claims))
    ensures !Blocked(m, v, claims)
  {
    GroundedIff(m, v, claims);
    forall i | 0 <= i < |claims| && Required(claims[i].claimType) && Counts(v, claims, i)
      ensures FindingOf(m, v, claims[i]).status.SupportedClaim?
    {
      if v.ByFacts? {
        assert claims[i] in claims;
        var first := First(claims, claims[i].id);
        var j :| 0 <= j < |claims| && claims[j] == first;
        assert FindingOf(m, v, claims[j]).status.SupportedClaim?;
        ImpliedSupport(m, v.content, claims[i], claims[j]);
      }
    }
  }

  predicate Agrees(m: Mentions, c: Content, claims: seq<Claim>) {
    !Blocked(m, ByFacts(c), claims) <==> Gate(m, ByFacts(c), claims)
  }

  /** GROUNDED is the gate after every sequence of builds and whatever facts mention. */
  ghost predicate GroundedIsGate(t: Text, claims: seq<Claim>) {
    forall m: Mentions, requests: seq<Request> :: Agrees(m, Prior(Chain(t, requests)), claims)
  }

  lemma PassingAgrees(m: Mentions, c: Content, claims: seq<Claim>)
    requires IdsOwn(claims)
    ensures Agrees(m, c, claims) <==> Passes(m, c, claims)
  {
    if Gate(m, ByFacts(c), claims) {
      GateIsGrounded(m, ByFacts(c), claims);
    }
  }

  /** With such identifiers GROUNDED is the gate, over all knowledge that builds can reach, if and only if every
      claim is vouched for. */
  lemma GroundedIsGateIff(t: Text, claims: seq<Claim>)
    requires ReadsBoth(t) && IdsOwn(claims)
    ensures GroundedIsGate(t, claims) <==> Vouched(claims)
  {
    GroundedImpliesGateIff(t, claims);
    forall m: Mentions, requests: seq<Request>
      ensures Agrees(m, Prior(Chain(t, requests)), claims) <==> Passes(m, Prior(Chain(t, requests)), claims)
    {
      PassingAgrees(m, Prior(Chain(t, requests)), claims);
    }
  }
}
