/** What a build finds: which evidence it stores, which facts it reads from it, and what it reports for its targets,
    all in terms of the request and the excerpts alone. */
module KnowledgeFindings {
  import opened Budget
  import opened JsonTree
  import opened Evidence
  import opened Knowledge
  import opened KnowledgeBuild
  import opened KnowledgeLaws

  // ---------------------------------------------------------------- evidence

  /** The item names the source: by its kind, or else its type, and by its binding, or else its source. */
  predicate Claims(item: EvidenceItem, a: Authority) {
    && a.sourceKind == (if item.sourceKind == "" then item.sourceType else item.sourceKind)
    && (if item.bindingId == "" then item.sourceId else item.bindingId) in {a.sourceId, a.bindingId}
  }

  /** The item is of the authorized version and access scope, where it names them, and a repository locator lies in the
      authorized revision. */
  predicate Current(item: EvidenceItem, a: Authority) {
    && item.sourceVersion in {"", a.sourceVersion} && item.accessScopeHash in {"", a.accessScopeHash}
    && (a.sourceKind == "github" ==> "github://" + a.bindingId + "@" + a.sourceVersion + "/" <= item.locator)
  }

  /** The item has its recorded hash and is current under the first authority that it names. */
  ghost predicate Accepted(t: Text, req: Request, item: EvidenceItem, a: Authority) {
    && t.sha(item.excerpt) == item.excerptHash && Current(item, a)
    && exists i :: NamedFirst(item, req.authorities, a, i)
  }

  ghost predicate NamedFirst(item: EvidenceItem, authorities: seq<Authority>, a: Authority, i: int) {
    && 0 <= i < |authorities| && authorities[i] == a && Claims(item, a)
    && forall j | 0 <= j < i :: !Claims(item, authorities[j])
  }

  function IdOf(item: EvidenceItem, a: Authority): EvidenceId {
    EvidenceId(a, item.locator, item.excerptHash)
  }

  lemma {:induction false} FirstMatchIff(item: EvidenceItem, authorities: seq<Authority>, a: Authority)
    ensures FirstMatch(item, authorities) == Valid(a) <==>
              Current(item, a) && exists i :: NamedFirst(item, authorities, a, i)
  {
    if authorities != [] {
      var rest := authorities[1..];
      if Matches(item, authorities[0]) {
        assert NamedFirst(item, authorities, authorities[0], 0);
      } else {
        FirstMatchIff(item, rest, a);
        if i :| NamedFirst(item, rest, a, i) {
          assert forall j | 0 <= j <= i :: authorities[j] == if j == 0 then authorities[0] else rest[j - 1];
          assert NamedFirst(item, authorities, a, i + 1);
        }
        if i :| NamedFirst(item, authorities, a, i) {
          assert NamedFirst(item, rest, a, i - 1);
        }
      }
    }
  }

  /** An item is accepted under an authority exactly when the validation says so. */
  lemma AcceptedIff(t: Text, req: Request, item: EvidenceItem, a: Authority)
    ensures ValidateSource(t, item, req.authorities) == Valid(a) <==> Accepted(t, req, item, a)
  {
    FirstMatchIff(item, req.authorities, a);
  }

  lemma {:induction false} RecordsIff(t: Text, req: Request, items: seq<EvidenceItem>, r: Record)
    ensures r in Records(t, SourcesOf(req), items) <==>
              exists item, a | item in items ::
                Accepted(t, req, item, a) && r == RecordOf(item, a, SignatureOf(req.action))
  {
    if items != [] {
      var front, last := items[..|items| - 1], items[|items| - 1];
      assert items == front + [last];
      RecordsIff(t, req, front, r);
      forall a ensures ValidateSource(t, last, req.authorities) == Valid(a) <==> Accepted(t, req, last, a) {
        AcceptedIff(t, req, last, a);
      }
    }
  }

  /** The evidence after a build is that before it and that of the accepted items, with excerpt and signature. */
  lemma EvidenceIs(t: Text, req: Request, prior: Option<Bundle>, id: EvidenceId)
    requires CollisionFree(t) && Result(t, req, prior).Built?
    ensures var after, before := Result(t, req, prior).bundle.content.evidence, Prior(prior).evidence;
            && (id in after <==>
                  id in before
                      || exists item, a | item in req.items :: Accepted(t, req, item, a) && id == IdOf(item, a))
            && (forall item, a | item in req.items && Accepted(t, req, item, a) && id == IdOf(item, a) ::
                  after[id] == Record(id, item.excerpt, SignatureOf(req.action)))
  {
    var records := Records(t, SourcesOf(req), req.items);
    RequestAgrees(t, SourcesOf(req), req.items);
    StoredRecordAt(Prior(prior).evidence, records, id);
    forall item, a | item in req.items && Accepted(t, req, item, a)
      ensures RecordOf(item, a, SignatureOf(req.action)) in records
    {
      RecordsIff(t, req, req.items, RecordOf(item, a, SignatureOf(req.action)));
    }
    if r :| r in records && r.id == id {
      RecordsIff(t, req, req.items, r);
    }
  }

  // ---------------------------------------------------------------- facts

  /** The text searched for. */
  function Query(t: Text, a: Action): string {
    t.show(if "query" in a.arguments then a.arguments["query"] else Str(""))
  }

  /** The excerpt has every token of the query that is longer than one character, and there is one. */
  ghost predicate Answers(t: Text, query: string, excerpt: string) {
    && (exists x :: x in t.tokens(query) && |x| > 1)
    && (forall x | x in t.tokens(query) && |x| > 1 :: x in t.tokens(excerpt))
  }

  function DirectScope(kind: string): Scope {
    if kind == "github" then CurrentState else HistoricalContext
  }

  function DirectType(kind: string): FactType {
    if kind == "github" then CodeVerified else DocumentSupported
  }

  /** A search finds a fact: its subject is the first target, and it quotes an accepted excerpt that answers the
      query. */
  ghost predicate Found(t: Text, req: Request, id: FactId, item: EvidenceItem, a: Authority)
    requires req.action.targets != []
  {
    && Accepted(t, req, item, a) && Answers(t, Query(t, req.action), item.excerpt)
    && id == DirectId(req.action.targets[0], item.excerpt, DirectScope(a.sourceKind), DirectType(a.sourceKind),
                      IdOf(item, a))
  }

  lemma AnswersIff(t: Text, a: Action, r: Record)
    ensures Supports(t, a, r) <==> Answers(t, Query(t, a), r.excerpt)
  {
    var wanted := set x | x in t.tokens(Question(t, a)) && |x| > 1;
    if wanted != {} {
      var x :| x in wanted;
    }
    if x :| x in t.tokens(Query(t, a)) && |x| > 1 {
      assert x in wanted;
    }
  }

  /** The facts stored are those before and those read from the records. */
  lemma MergedIff(t: Text, req: Request, prior: Option<Bundle>, id: FactId)
    ensures var records := Records(t, SourcesOf(req), req.items);
            && (id in Merged(t, req, prior) <==>
                  || id in Prior(prior).facts
                  || exists r | r in records ::
                       ExtractOne(t, req.action, r).Some? && ExtractOne(t, req.action, r).value.id == id)
            && (forall r | r in records && ExtractOne(t, req.action, r).Some?
                && ExtractOne(t, req.action, r).value.id == id ::
                  Merged(t, req, prior)[id] == ExtractOne(t, req.action, r).value)
  {
    var records := Records(t, SourcesOf(req), req.items);
    var facts := Extract(t, req.action, records);
    ExtractedFrom(t, req.action, records);
    ExtractedOk(t, req.action, records);
    StoredFactAt(Prior(prior).facts, facts, id);
    if f :| f in facts && f.id == id {
      var r :| r in records && ExtractOne(t, req.action, r) == Some(f);
    }
  }

  /** The facts of a result are the merged ones, marked. */
  lemma ResultFacts(t: Text, req: Request, prior: Option<Bundle>)
    requires IsParser(req.action.tool) || req.action.targets != []
    ensures Result(t, req, prior).Built? && Result(t, req, prior).bundle.content.facts == Mark(Merged(t, req, prior))
  {
  }

  /** The fact that quotes an excerpt. */
  function QuotingFact(req: Request, id: FactId, item: EvidenceItem, a: Authority): Fact
    requires req.action.targets != []
  {
    Fact(id, req.action.targets[0], "direct_source_support", Str(item.excerpt), DirectScope(a.sourceKind),
         DirectType(a.sourceKind), Supported, [IdOf(item, a)], req.action.targets, DirectTokenMatch)
  }

  lemma FoundIsRead(t: Text, req: Request, id: FactId, item: EvidenceItem, a: Authority)
    requires !IsParser(req.action.tool) && req.action.targets != [] && item in req.items && Found(t, req, id, item, a)
    ensures var r := RecordOf(item, a, SignatureOf(req.action));
            && r in Records(t, SourcesOf(req), req.items)
            && ExtractOne(t, req.action, r) == Some(QuotingFact(req, id, item, a))
  {
    var r := RecordOf(item, a, SignatureOf(req.action));
    RecordsIff(t, req, req.items, r);
    AnswersIff(t, req.action, r);
  }

  lemma ReadIsFound(t: Text, req: Request, id: FactId, r: Record)
    requires !IsParser(req.action.tool) && req.action.targets != [] && r in Records(t, SourcesOf(req), req.items)
    requires ExtractOne(t, req.action, r).Some? && ExtractOne(t, req.action, r).value.id == id
    ensures exists item, a | item in req.items :: Found(t, req, id, item, a)
  {
    RecordsIff(t, req, req.items, r);
    AnswersIff(t, req.action, r);
    var item, a :| item in req.items && Accepted(t, req, item, a) && r == RecordOf(item, a, SignatureOf(req.action));
    assert Found(t, req, id, item, a);
  }

  lemma DirectIsUnmarked(facts: map<FactId, Fact>, id: FactId)
    requires id in facts && facts[id].extractor == DirectTokenMatch
    ensures Mark(facts)[id] == facts[id]
  {
  }

  /** The facts after a search are those before it and those it found, and nothing else; what it found supports its
      targets and quotes the excerpt. */
  lemma SearchFinds(t: Text, req: Request, prior: Option<Bundle>, id: FactId)
    requires !IsParser(req.action.tool) && req.action.targets != []
    ensures Result(t, req, prior).Built?
    ensures var facts := Result(t, req, prior).bundle.content.facts;
            && (id in facts <==>
                  id in Prior(prior).facts || exists item, a | item in req.items :: Found(t, req, id, item, a))
            && (forall item, a | item in req.items && Found(t, req, id, item, a) ::
                  facts[id] == QuotingFact(req, id, item, a))
  {
    ResultFacts(t, req, prior);
    MergedIff(t, req, prior, id);
    var merged := Merged(t, req, prior);
    forall item, a | item in req.items && Found(t, req, id, item, a)
      ensures id in merged && merged[id] == QuotingFact(req, id, item, a) && Mark(merged)[id] == merged[id]
    {
      FoundIsRead(t, req, id, item, a);
      DirectIsUnmarked(merged, id);
    }
    if id in merged && id !in Prior(prior).facts {
      var r :| r in Records(t, SourcesOf(req), req.items) && ExtractOne(t, req.action, r).Some?
               && ExtractOne(t, req.action, r).value.id == id;
      ReadIsFound(t, req, id, r);
    }
  }

  /** The names of the scopes. */
  function ScopeText(scope: Scope): string {
    match scope
    case CurrentState => "CURRENT_STATE"
    case HistoricalContext => "HISTORICAL_CONTEXT"
    case TargetDecision => "TARGET_DECISION"
    case Assumption => "ASSUMPTION"
  }

  lemma ScopeNamedIff(name: string, scope: Scope)
    ensures ScopeNamed(name) == Some(scope) <==> name == ScopeText(scope)
  {
    assert "CURRENT_STATE"[0] == 'C' && "HISTORICAL_CONTEXT"[0] == 'H' && "TARGET_DECISION"[0] == 'T';
    assert "ASSUMPTION"[0] == 'A';
  }

  /** A parser reads a fact: the excerpt is an object of exactly the four fields, and the fact is what they say. */
  ghost predicate ReadFrom(t: Text, req: Request, id: FactId, item: EvidenceItem, a: Authority) {
    && Accepted(t, req, item, a) && id.ParserId?
    && t.parse(item.excerpt).Some? && t.parse(item.excerpt).value.Obj?
    && var fields := t.parse(item.excerpt).value.fields;
    && fields.Keys == {"subject", "predicate", "value", "scope"}
    && id.subject == t.show(fields["subject"]) && id.predicateName == t.show(fields["predicate"])
    && id.value == fields["value"] && ScopeText(id.scope) == t.show(fields["scope"])
    && id.factType
         == (if a.sourceKind in {"github", "openapi", "database_schema"} then CodeVerified else DocumentSupported)
    && id.evidence == IdOf(item, a) && id.coverage == req.action.targets && id.tool == req.action.tool
  }

  lemma ParserFactIff(t: Text, req: Request, id: FactId, item: EvidenceItem, a: Authority)
    requires Accepted(t, req, item, a)
    ensures var f := ParserFact(t, req.action, RecordOf(item, a, SignatureOf(req.action)));
            f.Some? && f.value.id == id <==> ReadFrom(t, req, id, item, a)
  {
    if id.ParserId? {
      var raw := t.parse(item.excerpt);
      if raw.Some? && raw.value.Obj? && "scope" in raw.value.fields {
        ScopeNamedIff(t.show(raw.value.fields["scope"]), id.scope);
      }
    }
  }

  /** The fact that a parser read. */
  function ParsedFact(req: Request, id: FactId, item: EvidenceItem, a: Authority, status: FactStatus): Fact
    requires id.ParserId?
  {
    Fact(id, id.subject, id.predicateName, id.value, id.scope, id.factType, status, [IdOf(item, a)],
         req.action.targets, req.action.tool)
  }

  lemma ParsedIsRead(t: Text, req: Request, id: FactId, item: EvidenceItem, a: Authority)
    requires IsParser(req.action.tool) && item in req.items && ReadFrom(t, req, id, item, a)
    ensures var r := RecordOf(item, a, SignatureOf(req.action));
            && r in Records(t, SourcesOf(req), req.items)
            && ExtractOne(t, req.action, r) == Some(ParsedFact(req, id, item, a, Supported))
  {
    RecordsIff(t, req, req.items, RecordOf(item, a, SignatureOf(req.action)));
    ParserFactIff(t, req, id, item, a);
  }

  lemma ReadIsParsed(t: Text, req: Request, id: FactId, r: Record)
    requires IsParser(req.action.tool) && r in Records(t, SourcesOf(req), req.items)
    requires ExtractOne(t, req.action, r).Some? && ExtractOne(t, req.action, r).value.id == id
    ensures exists item, a | item in req.items :: ReadFrom(t, req, id, item, a)
  {
    RecordsIff(t, req, req.items, r);
    var item, a :| item in req.items && Accepted(t, req, item, a) && r == RecordOf(item, a, SignatureOf(req.action));
    ParserFactIff(t, req, id, item, a);
  }

  /** The facts after a parser action are those before it and those it read, and nothing else; a fact it read is
      supported, or conflicting. */
  lemma ParserFinds(t: Text, req: Request, prior: Option<Bundle>, id: FactId)
    requires IsParser(req.action.tool)
    ensures Result(t, req, prior).Built?
    ensures var facts := Result(t, req, prior).bundle.content.facts;
            && (id in facts <==>
                  id in Prior(prior).facts || exists item, a | item in req.items :: ReadFrom(t, req, id, item, a))
            && (forall item, a | item in req.items && ReadFrom(t, req, id, item, a) ::
                  || facts[id] == ParsedFact(req, id, item, a, Supported)
                  || facts[id] == ParsedFact(req, id, item, a, Conflicting))
  {
    ResultFacts(t, req, prior);
    MergedIff(t, req, prior, id);
    var merged := Merged(t, req, prior);
    forall item, a | item in req.items && ReadFrom(t, req, id, item, a)
      ensures id in merged && merged[id] == ParsedFact(req, id, item, a, Supported)
    {
      ParsedIsRead(t, req, id, item, a);
    }
    if id in merged && id !in Prior(prior).facts {
      var r :| r in Records(t, SourcesOf(req), req.items) && ExtractOne(t, req.action, r).Some?
               && ExtractOne(t, req.action, r).value.id == id;
      ReadIsParsed(t, req, id, r);
    }
  }

  // ---------------------------------------------------------------- why an item is refused

  /** An item of the authority's source is of another version or access scope, or lies elsewhere. */
  predicate RefusedBy(item: EvidenceItem, a: Authority, reason: Reason) {
    var versionFits := item.sourceVersion in {"", a.sourceVersion};
    var scopeFits := item.accessScopeHash in {"", a.accessScopeHash};
    var elsewhere := a.sourceKind == "github"
        && !("github://" + a.bindingId + "@" + a.sourceVersion + "/" <= item.locator);
    var otherRevision := "github://" + a.bindingId + "@" <= item.locator;
    match reason
    case StaleSource => !versionFits || (scopeFits && elsewhere && otherRevision)
    case AccessScopeMismatch => versionFits && !scopeFits
    case LocatorMismatch => versionFits && scopeFits && elsewhere && !otherRevision
    case _ => false
  }

  /** Why an item is refused: its hash, then an unknown source, then what the first authority it names finds. */
  ghost predicate Refused(t: Text, req: Request, item: EvidenceItem, reason: Reason) {
    if t.sha(item.excerpt) != item.excerptHash then reason == HashMismatch
    else if forall a | a in req.authorities :: !Claims(item, a) then reason == InvalidSource
    else exists a, i :: NamedFirst(item, req.authorities, a, i) && RefusedBy(item, a, reason)
  }

  lemma JudgeIff(item: EvidenceItem, a: Authority, reason: Reason)
    ensures Judge(item, a) == Invalid(reason) <==> RefusedBy(item, a, reason)
  {
  }

  lemma {:induction false} FirstMatchRefuses(item: EvidenceItem, authorities: seq<Authority>, reason: Reason)
    ensures FirstMatch(item, authorities) == Invalid(reason) <==>
              if forall a | a in authorities :: !Claims(item, a) then reason == InvalidSource
              else exists a, i :: NamedFirst(item, authorities, a, i) && RefusedBy(item, a, reason)
  {
    if authorities != [] {
      var first, rest := authorities[0], authorities[1..];
      assert first in authorities && authorities == [first] + rest;
      if Matches(item, first) {
        assert NamedFirst(item, authorities, first, 0);
        JudgeIff(item, first, reason);
      } else {
        FirstMatchRefuses(item, rest, reason);
        if a, i :| NamedFirst(item, rest, a, i) && RefusedBy(item, a, reason) {
          assert NamedFirst(item, authorities, a, i + 1);
        }
        if a, i :| NamedFirst(item, authorities, a, i) && RefusedBy(item, a, reason) {
          assert NamedFirst(item, rest, a, i - 1);
        }
      }
    }
  }

  lemma RefusedIff(t: Text, req: Request, item: EvidenceItem, reason: Reason)
    ensures ValidateSource(t, item, req.authorities) == Invalid(reason) <==> Refused(t, req, item, reason)
  {
    FirstMatchRefuses(item, req.authorities, reason);
  }

  // ---------------------------------------------------------------- targets

  /** A conflict of the knowledge touches the key. */
  predicate Contested(c: Content, key: string) {
    exists x | x in c.conflicts :: ContestedBy(c, x, key)
  }

  predicate ContestedBy(c: Content, x: Conflict, key: string) {
    exists k | k in x.id.factIds :: k in c.facts && key in c.facts[k].coverage
  }

  /** The supported facts for the key. */
  function SupportingFacts(c: Content, key: string): set<FactId> {
    set k | k in c.facts && c.facts[k].status == Supported && key in c.facts[k].coverage
  }

  function ContestingIds(c: Content, key: string): set<ConflictId> {
    set x | x in c.conflicts && ContestedBy(c, x, key) :: x.id
  }

  /** The status of a target after the build. */
  function StatusAfter(c: Content, before: Status, key: string): Status {
    if Contested(c, key) then InConflict else if SupportingFacts(c, key) != {} then Covered else before
  }

  /** The build leaves the key unknown. */
  predicate LeftOpen(c: Content, key: string) {
    !Contested(c, key) && SupportingFacts(c, key) == {}
  }

  ghost predicate Usable(t: Text, req: Request, item: EvidenceItem) {
    exists a :: Accepted(t, req, item, a)
  }

  /** The reason reported for keys left open: that of the first refused item, else that there was none, or none
      helped. */
  ghost predicate OpenBecause(t: Text, req: Request, reason: Reason) {
    if req.items == [] then reason == EmptyResult
    else if forall item | item in req.items :: Usable(t, req, item) then reason == UnsupportedEvidence
    else exists i :: RefusedFirst(t, req, req.items, i, reason)
  }

  ghost predicate RefusedFirst(t: Text, req: Request, items: seq<EvidenceItem>, i: int, reason: Reason) {
    && 0 <= i < |items| && Refused(t, req, items[i], reason) && !Usable(t, req, items[i])
    && forall j | 0 <= j < i :: Usable(t, req, items[j])
  }

  lemma RefusedIsUnusable(t: Text, req: Request, item: EvidenceItem, reason: Reason)
    requires ValidateSource(t, item, req.authorities) == Invalid(reason)
    ensures Refused(t, req, item, reason) && !Usable(t, req, item)
  {
    RefusedIff(t, req, item, reason);
    forall a ensures !Accepted(t, req, item, a) {
      AcceptedIff(t, req, item, a);
    }
  }

  lemma {:induction false} ReasonsBegin(t: Text, req: Request, items: seq<EvidenceItem>)
    ensures var reasons := Reasons(t, SourcesOf(req), items);
            if reasons == [] then forall i | 0 <= i < |items| :: Usable(t, req, items[i])
            else exists i :: RefusedFirst(t, req, items, i, reasons[0])
  {
    if items != [] {
      var front, last := items[..|items| - 1], items[|items| - 1];
      ReasonsBegin(t, req, front);
      var reasons := Reasons(t, SourcesOf(req), front);
      if reasons != [] {
        var i :| RefusedFirst(t, req, front, i, reasons[0]);
        assert RefusedFirst(t, req, items, i, Reasons(t, SourcesOf(req), items)[0]);
      } else {
        assert forall i | 0 <= i < |front| :: items[i] == front[i] && Usable(t, req, front[i]);
        match ValidateSource(t, last, req.authorities) {
          case Valid(a) =>
            AcceptedIff(t, req, last, a);
            assert Reasons(t, SourcesOf(req), items) == [];
            forall i | 0 <= i < |items| ensures Usable(t, req, items[i]) {
              assert i < |front| ==> Usable(t, req, front[i]);
            }
          case Invalid(reason) =>
            RefusedIsUnusable(t, req, last, reason);
            assert Reasons(t, SourcesOf(req), items)[0] == reason;
            assert RefusedFirst(t, req, items, |front|, Reasons(t, SourcesOf(req), items)[0]);
        }
      }
    }
  }

  lemma WhyOpenIs(t: Text, req: Request)
    ensures OpenBecause(t, req, WhyOpen(t, req))
  {
    ReasonsBegin(t, req, req.items);
    var reasons := Reasons(t, SourcesOf(req), req.items);
    if reasons != [] {
      var i :| RefusedFirst(t, req, req.items, i, reasons[0]);
      assert req.items[i] in req.items;
    }
  }

  /** The unknown recorded for a key left open. */
  function UnknownOf(t: Text, req: Request, key: string): UnknownId {
    UnknownId(req.header.needPlan, key, WhyOpen(t, req), SignatureOf(req.action),
              multiset(Ids(Records(t, SourcesOf(req), req.items))))
  }

  /** What is reported for a target. */
  function Report(t: Text, req: Request, c: Content, key: string, before: Status): Update {
    var reason := if Contested(c, key) then OpenSourceConflict
                  else if SupportingFacts(c, key) != {} then SupportedFactsAvailable
                  else WhyOpen(t, req);
    Update(key, before, StatusAfter(c, before, key), SupportingFacts(c, key),
           if LeftOpen(c, key) then [UnknownOf(t, req, key)] else [], ContestingIds(c, key), reason)
  }

  lemma SameKnowledge(c: Content, x: Context, key: string)
    requires c.facts == x.facts && c.conflicts == x.conflicts
    ensures (BlockingFor(x, key) != {} <==> Contested(c, key)) && BlockingFor(x, key) == ContestingIds(c, key)
    ensures SupportedFor(x.facts, key) == SupportingFacts(c, key) && (Open(x, key) <==> LeftOpen(c, key))
  {
    assert forall y | y in c.conflicts :: Touches(x.facts, y, key) <==> ContestedBy(c, y, key);
    if y :| y in c.conflicts && ContestedBy(c, y, key) {
      assert y.id in BlockingFor(x, key);
    }
    if id :| id in BlockingFor(x, key) {
      var y :| y in x.conflicts && Touches(x.facts, y, key) && y.id == id;
      assert ContestedBy(c, y, key);
    }
  }

  lemma ContextIsContent(t: Text, req: Request, prior: Option<Bundle>, key: string)
    requires Result(t, req, prior).Built?
    ensures var c, x := Result(t, req, prior).bundle.content, ContextOf(t, req, Merged(t, req, prior));
            && (BlockingFor(x, key) != {} <==> Contested(c, key)) && BlockingFor(x, key) == ContestingIds(c, key)
            && SupportedFor(x.facts, key) == SupportingFacts(c, key)
            && (Open(x, key) <==> LeftOpen(c, key)) && UnknownFor(x, key).id == UnknownOf(t, req, key)
  {
    SameKnowledge(Result(t, req, prior).bundle.content, ContextOf(t, req, Merged(t, req, prior)), key);
  }

  /** After a build a target is in conflict if an open conflict touches it, else covered if a supported fact is for
      it, else as it was; every other key is as it was. */
  lemma TargetsAre(t: Text, req: Request, prior: Option<Bundle>, key: string)
    requires Result(t, req, prior).Built?
    ensures var r := Result(t, req, prior);
            && (key in r.coverage <==> key in req.coverage || key in req.action.targets)
            && Lookup(r.coverage, key) == if key in req.action.targets
                                          then StatusAfter(r.bundle.content, Lookup(req.coverage, key), key)
                                          else Lookup(req.coverage, key)
  {
    ContextIsContent(t, req, prior, key);
    var x := ContextOf(t, req, Merged(t, req, prior));
    CoveredAt(x, Coverage(req.coverage, Prior(prior).unknowns, []), req.action.targets, key);
  }

  /** The unknowns after a build are those before it and one for each target that it leaves open. */
  lemma UnknownsAre(t: Text, req: Request, prior: Option<Bundle>, id: UnknownId)
    requires Result(t, req, prior).Built?
    ensures var c := Result(t, req, prior).bundle.content;
            && (id in c.unknowns <==>
                  || id in Prior(prior).unknowns
                  || exists key | key in req.action.targets :: LeftOpen(c, key) && id == UnknownOf(t, req, key))
            && (forall key | key in req.action.targets && LeftOpen(c, key) && id == UnknownOf(t, req, key) ::
                  c.unknowns[id] == Unknown(id, Query(t, req.action)))
  {
    var x := ContextOf(t, req, Merged(t, req, prior));
    forall key ensures (Open(x, key) <==> LeftOpen(Result(t, req, prior).bundle.content, key))
                       && UnknownFor(x, key).id == UnknownOf(t, req, key)
    {
      ContextIsContent(t, req, prior, key);
    }
    UnknownKeys(x, Coverage(req.coverage, Prior(prior).unknowns, []), req.action.targets);
  }

  lemma {:induction false} UpdatesAt(c: Context, s: Coverage, keys: seq<string>, i: nat)
    requires i < |keys|
    ensures var updates := Cover(c, s, keys).updates;
            var before := Lookup(Cover(c, s, keys[..i]).coverage, keys[i]);
            && |updates| == |s.updates| + |keys|
            && updates[|s.updates| + i].key == keys[i] && updates[|s.updates| + i].before == before
            && updates[|s.updates| + i].after == Verdicted(c, before, keys[i])
            && updates[|s.updates| + i].supported == SupportedFor(c.facts, keys[i])
            && updates[|s.updates| + i].unknowns == (if Open(c, keys[i]) then [UnknownFor(c, keys[i]).id] else [])
            && updates[|s.updates| + i].conflicts == BlockingFor(c, keys[i])
            && updates[|s.updates| + i].reason
                 == (if BlockingFor(c, keys[i]) != {} then OpenSourceConflict
                     else if SupportedFor(c.facts, keys[i]) != {} then SupportedFactsAvailable else c.reason)
  {
    var front := keys[..|keys| - 1];
    assert keys[..i] == front[..i];
    if i < |front| {
      UpdatesAt(c, s, front, i);
    } else if i > 0 {
      UpdatesAt(c, s, front, i - 1);
    }
  }

  /** A build reports its targets one by one, in order: where each stood, where it stands, and the facts, unknowns and
      conflicts behind that. */
  lemma UpdatesAre(t: Text, req: Request, prior: Option<Bundle>, i: nat)
    requires Result(t, req, prior).Built? && i < |req.action.targets|
    ensures var r, key := Result(t, req, prior), req.action.targets[i];
            var first := Lookup(req.coverage, key);
            var before := if key in req.action.targets[..i] then StatusAfter(r.bundle.content, first, key) else first;
            && |r.bundle.updates| == |req.action.targets|
            && r.bundle.updates[i] == Report(t, req, r.bundle.content, key, before)
  {
    var key := req.action.targets[i];
    var x, s := ContextOf(t, req, Merged(t, req, prior)), Coverage(req.coverage, Prior(prior).unknowns, []);
    ContextIsContent(t, req, prior, key);
    UpdatesAt(x, s, req.action.targets, i);
    CoveredAt(x, s, req.action.targets[..i], key);
  }

  // ---------------------------------------------------------------- conflicts and progress

  /** The parser facts of one subject, predicate and scope. */
  function Peers(c: Content, f: Fact): set<FactId> {
    set k | k in c.facts && (c.facts[k].extractor == ParseOpenapi || c.facts[k].extractor == ParseDatabaseSchema)
            && c.facts[k].subject == f.subject && c.facts[k].predicateName == f.predicateName
            && c.facts[k].scope == f.scope
  }

  /** The fact is a parser fact, and one of its peers says something else. */
  predicate Disputed(c: Content, k: FactId) {
    k in c.facts
        && exists x | x in Peers(c, c.facts[k]) :: k in Peers(c, c.facts[k]) && c.facts[x].value != c.facts[k].value
  }

  lemma DisputedIff(facts: map<FactId, Fact>, c: Content, k: FactId)
    requires c.facts == Mark(facts)
    ensures Disputed(c, k) <==> InClash(facts, k)
    ensures k in facts ==> Members(facts, GroupOf(facts[k])) == Peers(c, c.facts[k])
  {
    if k in facts {
      var g := GroupOf(facts[k]);
      assert Members(facts, g) == Peers(c, c.facts[k]);
      if InClash(facts, k) {
        var x, y :| x in Members(facts, g) && y in Members(facts, g) && facts[x].value != facts[y].value;
        assert facts[x].value != facts[k].value || facts[y].value != facts[k].value;
      }
    }
  }

  /** The conflict about a fact: it names all parser facts of its subject, predicate and scope, and their evidence. */
  function ConflictAbout(c: Content, k: FactId): Conflict
    requires k in c.facts
  {
    Conflict(ConflictId(c.facts[k].subject, c.facts[k].predicateName, Peers(c, c.facts[k])),
             set j, e | j in Peers(c, c.facts[k]) && e in c.facts[j].evidenceIds :: e)
  }

  lemma ConflictAboutIs(facts: map<FactId, Fact>, c: Content, k: FactId)
    requires c.facts == Mark(facts) && k in facts
    ensures ConflictOf(facts, GroupOf(facts[k])) == ConflictAbout(c, k)
  {
    DisputedIff(facts, c, k);
    assert forall j | j in Peers(c, c.facts[k]) :: c.facts[j].evidenceIds == facts[j].evidenceIds;
  }

  /** The conflicts after a build are exactly those about disputed facts. */
  lemma ConflictsAre(t: Text, req: Request, prior: Option<Bundle>, x: Conflict)
    requires Result(t, req, prior).Built?
    ensures var c := Result(t, req, prior).bundle.content;
            x in c.conflicts <==> exists k | k in c.facts :: Disputed(c, k) && x == ConflictAbout(c, k)
  {
    var c, facts := Result(t, req, prior).bundle.content, Merged(t, req, prior);
    assert c.facts == Mark(facts) && c.conflicts == Conflicts(facts);
    forall k | k in facts
      ensures (Disputed(c, k) <==> InClash(facts, k)) && ConflictOf(facts, GroupOf(facts[k])) == ConflictAbout(c, k)
    {
      DisputedIff(facts, c, k);
      ConflictAboutIs(facts, c, k);
    }
  }

  /** A build has progressed if it is the first or if the supported facts, unknowns, conflicts or the coverage differ
      from what the fingerprint of the prior knowledge stands for. */
  lemma ProgressIs(t: Text, req: Request, prior: Option<Bundle>, before: Progress)
    requires Result(t, req, prior).Built? && (prior.Some? ==> prior.value.progressFingerprint == Sha256(before))
    ensures var r := Result(t, req, prior);
            var c := r.bundle.content;
            && r.bundle.header == req.header && r.bundle.knowledgeFingerprint == Sha256(c)
            && r.bundle.progressFingerprint
                 == Sha256(Progress((set k | k in c.facts && c.facts[k].status == Supported), c.unknowns.Keys,
                                    (set x | x in c.conflicts :: x.id), r.coverage))
            && (r.progressed <==>
                  || prior.None?
                  || before.supported != (set k | k in c.facts && c.facts[k].status == Supported)
                  || before.unknowns != c.unknowns.Keys || before.conflicts != (set x | x in c.conflicts :: x.id)
                  || before.coverage != r.coverage)
  {
    var c := Result(t, req, prior).bundle.content;
    assert (set k | k in c.facts && c.facts[k].status == Supported) == set k | k in c.facts
           && c.facts[k].status.Supported?;
  }
}
