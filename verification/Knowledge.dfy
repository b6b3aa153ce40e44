/** The evidence knowledge builder: source validation, fact extraction, conflicts and coverage. */
module Knowledge {
  import opened Budget
  import opened JsonTree
  import opened Evidence

  // ---------------------------------------------------------------- data

  datatype Tool = SearchRepository | SearchPrdCatalog | ParseOpenapi | ParseDatabaseSchema | DirectTokenMatch
      | OtherTool(name: string)

  datatype Action = Action(tool: Tool, schemaVersion: string, strategy: string, arguments: map<string, Json>,
                           purpose: string, targets: seq<string>)

  datatype Signature = Signature(tool: Tool, schemaVersion: string, strategy: string, arguments: map<string, Json>,
                                 targets: seq<string>)

  datatype Authority = Authority(sourceKind: string, bindingId: string, sourceId: string, sourceVersion: string,
                                 accessScopeHash: string)

  datatype Reason =
    | HashMismatch | StaleSource | AccessScopeMismatch | LocatorMismatch | InvalidSource
    | EmptyResult | UnsupportedEvidence | OpenSourceConflict | SupportedFactsAvailable

  datatype Verdict = Valid(authority: Authority) | Invalid(reason: Reason)

  datatype EvidenceId = EvidenceId(authority: Authority, locator: string, excerptHash: string)
  datatype Record = Record(id: EvidenceId, excerpt: string, signature: Digest<Signature>)

  datatype Scope = CurrentState | HistoricalContext | TargetDecision | Assumption
  datatype FactType = UserConfirmed | CodeVerified | DocumentSupported | Inferred
  datatype FactStatus = Supported | PartiallySupported | Unsupported | Conflicting

  datatype FactId =
    | DirectId(subject: string, excerpt: string, scope: Scope, factType: FactType, evidence: EvidenceId)
    | ParserId(subject: string, predicateName: string, value: Json, scope: Scope, factType: FactType,
               evidence: EvidenceId, coverage: seq<string>, tool: Tool)
  datatype Fact = Fact(id: FactId, subject: string, predicateName: string, value: Json, scope: Scope,
                       factType: FactType,
                       status: FactStatus, evidenceIds: seq<EvidenceId>, coverage: seq<string>, extractor: Tool)

  datatype Group = Group(subject: string, predicateName: string, scope: Scope)
  datatype ConflictId = ConflictId(subject: string, predicateName: string, factIds: set<FactId>)
  datatype Conflict = Conflict(id: ConflictId, evidenceIds: set<EvidenceId>)

  datatype UnknownId = UnknownId(needPlan: string, key: string, reason: Reason, signature: Digest<Signature>,
      evidenceIds: multiset<EvidenceId>)
  datatype Unknown = Unknown(id: UnknownId, question: string)

  datatype Status = Missing | Partial | Covered | InConflict | OtherStatus(text: string)

  datatype Update = Update(key: string, before: Status, after: Status, supported: set<FactId>, unknowns: seq<UnknownId>,
                           conflicts: set<ConflictId>, reason: Reason)

  datatype Header = Header(runId: string, taskId: string, needPlan: string, needContextHash: string)

  /** A bundle's sorted tuples, indexed by identifier. */
  datatype Content = Content(evidence: map<EvidenceId, Record>, facts: map<FactId, Fact>,
                             unknowns: map<UnknownId, Unknown>, conflicts: set<Conflict>)
  datatype Progress = Progress(supported: set<FactId>, unknowns: set<UnknownId>, conflicts: set<ConflictId>,
                               coverage: map<string, Status>)
  datatype Bundle = Bundle(header: Header, content: Content, updates: seq<Update>,
                           knowledgeFingerprint: Digest<Content>, progressFingerprint: Digest<Progress>)

  datatype Request = Request(header: Header, action: Action, items: seq<EvidenceItem>, authorities: seq<Authority>,
                             coverage: map<string, Status>)

  /** IndexFailure is the error of a direct fact for an action without target coverage. */
  datatype Outcome = Built(bundle: Bundle, coverage: map<string, Status>, progressed: bool) | IndexFailure

  /** The text functions that are not modelled: hashing, splitting into tokens, JSON reading and str(). */
  datatype Text = Text(sha: string -> string, tokens: string -> set<string>, parse: string -> Option<Json>,
                       show: Json -> string)

  /** No two excerpts have the same hash. */
  ghost predicate CollisionFree(t: Text) {
    forall x, y | t.sha(x) == t.sha(y) :: x == y
  }

  function SignatureOf(a: Action): Digest<Signature> {
    Sha256(Signature(a.tool, a.schemaVersion, a.strategy, a.arguments, a.targets))
  }

  function Question(t: Text, a: Action): string {
    if "query" in a.arguments then t.show(a.arguments["query"]) else t.show(Str(""))
  }

  predicate IsParser(tool: Tool) {
    tool.ParseOpenapi? || tool.ParseDatabaseSchema?
  }

  // ---------------------------------------------------------------- sources

  predicate Matches(item: EvidenceItem, a: Authority) {
    var kind := if item.sourceKind != "" then item.sourceKind else item.sourceType;
    var binding := if item.bindingId != "" then item.bindingId else item.sourceId;
    kind == a.sourceKind && (binding == a.sourceId || binding == a.bindingId)
  }

  function Judge(item: EvidenceItem, a: Authority): Verdict {
    if item.sourceVersion != "" && item.sourceVersion != a.sourceVersion then Invalid(StaleSource)
    else if item.accessScopeHash != "" && item.accessScopeHash != a.accessScopeHash then Invalid(AccessScopeMismatch)
    else if a.sourceKind == "github" && !("github://" + a.bindingId + "@" + a.sourceVersion + "/" <= item.locator) then
      Invalid(if "github://" + a.bindingId + "@" <= item.locator then StaleSource else LocatorMismatch)
    else Valid(a)
  }

  ghost predicate DecidedBy(item: EvidenceItem, authorities: seq<Authority>, i: nat) {
    i < |authorities| && Matches(item, authorities[i]) && forall j | 0 <= j < i :: !Matches(item, authorities[j])
  }

  /** The verdict on an item: its hash first, then the first matching authority. */
  function ValidateSource(t: Text, item: EvidenceItem, authorities: seq<Authority>): Verdict {
    if t.sha(item.excerpt) != item.excerptHash then Invalid(HashMismatch) else FirstMatch(item, authorities)
  }

  function FirstMatch(item: EvidenceItem, authorities: seq<Authority>): Verdict {
    if authorities == [] then Invalid(InvalidSource)
    else if Matches(item, authorities[0]) then Judge(item, authorities[0])
    else FirstMatch(item, authorities[1..])
  }

  /** The scan for a source decides by the first matching authority, or finds none. */
  method Scan(t: Text, item: EvidenceItem, authorities: seq<Authority>) returns (v: Verdict)
    ensures v == ValidateSource(t, item, authorities)
    ensures t.sha(item.excerpt) != item.excerptHash ==> v == Invalid(HashMismatch)
    ensures t.sha(item.excerpt) == item.excerptHash ==>
              || (exists i: nat :: DecidedBy(item, authorities, i) && v == Judge(item, authorities[i]))
              || (v == Invalid(InvalidSource) && forall i | 0 <= i < |authorities| :: !Matches(item, authorities[i]))
  {
    if t.sha(item.excerpt) != item.excerptHash {
      return Invalid(HashMismatch);
    }
    for i := 0 to |authorities|
      invariant forall j | 0 <= j < i :: !Matches(item, authorities[j])
      invariant FirstMatch(item, authorities) == FirstMatch(item, authorities[i..])
    {
      if Matches(item, authorities[i]) {
        assert DecidedBy(item, authorities, i);
        return Judge(item, authorities[i]);
      }
    }
    return Invalid(InvalidSource);
  }

  function RecordOf(item: EvidenceItem, a: Authority, signature: Digest<Signature>): Record {
    Record(EvidenceId(a, item.locator, item.excerptHash), item.excerpt, signature)
  }

  /** What the reading of evidence items depends on. */
  datatype Sources = Sources(signature: Digest<Signature>, authorities: seq<Authority>)

  function SourcesOf(req: Request): Sources {
    Sources(SignatureOf(req.action), req.authorities)
  }

  /** The records of the valid items, in order. */
  function Records(t: Text, s: Sources, items: seq<EvidenceItem>): seq<Record> {
    if items == [] then []
    else
      var last := items[|items| - 1];
      var front := Records(t, s, items[..|items| - 1]);
      match ValidateSource(t, last, s.authorities)
      case Valid(a) => front + [RecordOf(last, a, s.signature)]
      case Invalid(_) => front
  }

  /** The reasons of the invalid items, in order. */
  function Reasons(t: Text, s: Sources, items: seq<EvidenceItem>): seq<Reason> {
    if items == [] then []
    else
      var front := Reasons(t, s, items[..|items| - 1]);
      match ValidateSource(t, items[|items| - 1], s.authorities)
      case Valid(_) => front
      case Invalid(reason) => front + [reason]
  }

  function Ids(records: seq<Record>): seq<EvidenceId> {
    seq(|records|, i requires 0 <= i < |records| => records[i].id)
  }

  // ---------------------------------------------------------------- facts

  function DirectFact(a: Action, r: Record): Fact
    requires a.targets != []
  {
    var isCode := r.id.authority.sourceKind == "github";
    var scope := if isCode then CurrentState else HistoricalContext;
    var factType := if isCode then CodeVerified else DocumentSupported;
    Fact(DirectId(a.targets[0], r.excerpt, scope, factType, r.id), a.targets[0], "direct_source_support",
         Str(r.excerpt),
         scope, factType, Supported, [r.id], a.targets, DirectTokenMatch)
  }

  function ScopeNamed(name: string): Option<Scope> {
    if name == "CURRENT_STATE" then Some(CurrentState)
    else if name == "HISTORICAL_CONTEXT" then Some(HistoricalContext)
    else if name == "TARGET_DECISION" then Some(TargetDecision)
    else if name == "ASSUMPTION" then Some(Assumption)
    else None
  }

  function ParserFact(t: Text, a: Action, r: Record): Option<Fact> {
    match t.parse(r.excerpt)
    case None => None
    case Some(raw) =>
      if !raw.Obj? || raw.fields.Keys != {"subject", "predicate", "value", "scope"} then None
      else
        match ScopeNamed(t.show(raw.fields["scope"]))
        case None => None
        case Some(scope) =>
          var factType := if r.id.authority.sourceKind in {"github", "openapi", "database_schema"} then CodeVerified
            else DocumentSupported;
          var subject, predicateName, value := t.show(raw.fields["subject"]), t.show(raw.fields["predicate"]),
              raw.fields["value"];
          Some(Fact(ParserId(subject, predicateName, value, scope, factType, r.id, a.targets, a.tool),
                    subject, predicateName, value, scope, factType, Supported, [r.id], a.targets, a.tool))
  }

  predicate Supports(t: Text, a: Action, r: Record) {
    var wanted := set x | x in t.tokens(Question(t, a)) && |x| > 1;
    wanted != {} && wanted <= t.tokens(r.excerpt)
  }

  function ExtractOne(t: Text, a: Action, r: Record): Option<Fact> {
    if IsParser(a.tool) then ParserFact(t, a, r)
    else if a.targets != [] && Supports(t, a, r) then Some(DirectFact(a, r))
    else None
  }

  function Extract(t: Text, a: Action, records: seq<Record>): seq<Fact> {
    if records == [] then []
    else
      var front := Extract(t, a, records[..|records| - 1]);
      match ExtractOne(t, a, records[|records| - 1])
      case Some(f) => front + [f]
      case None => front
  }

  predicate Fails(t: Text, a: Action, records: seq<Record>) {
    !IsParser(a.tool) && a.targets == [] && exists r | r in records :: Supports(t, a, r)
  }

  // ---------------------------------------------------------------- dictionaries

  function StoreRecords(base: map<EvidenceId, Record>, records: seq<Record>): map<EvidenceId, Record> {
    if records == [] then base
    else
      var last := records[|records| - 1];
      StoreRecords(base, records[..|records| - 1])[last.id := last]
  }

  function StoreFacts(base: map<FactId, Fact>, facts: seq<Fact>): map<FactId, Fact> {
    if facts == [] then base
    else
      var last := facts[|facts| - 1];
      StoreFacts(base, facts[..|facts| - 1])[last.id := last]
  }

  ghost predicate RecordsAgree(records: seq<Record>) {
    forall x, y | x in records && y in records && x.id == y.id :: x == y
  }

  ghost predicate FactsAgree(facts: seq<Fact>) {
    forall x, y | x in facts && y in facts && x.id == y.id :: x == y
  }

  /** What is stored: the new entries, and the old ones under other keys. */
  lemma {:induction false} StoredRecords(base: map<EvidenceId, Record>, records: seq<Record>)
    requires RecordsAgree(records)
    ensures var m := StoreRecords(base, records);
            && (forall r | r in records :: r.id in m && m[r.id] == r)
            && (forall k | k in m :: (exists r :: r in records && r.id == k) || (k in base && m[k] == base[k]))
            && (forall k | k in base :: k in m)
  {
    if records != [] {
      var front, last := records[..|records| - 1], records[|records| - 1];
      assert records == front + [last];
      StoredRecords(base, front);
    }
  }

  lemma {:induction false} StoredFacts(base: map<FactId, Fact>, facts: seq<Fact>)
    requires FactsAgree(facts)
    ensures var m := StoreFacts(base, facts);
            && (forall f | f in facts :: f.id in m && m[f.id] == f)
            && (forall k | k in m :: (exists f :: f in facts && f.id == k) || (k in base && m[k] == base[k]))
            && (forall k | k in base :: k in m)
  {
    if facts != [] {
      var front, last := facts[..|facts| - 1], facts[|facts| - 1];
      assert facts == front + [last];
      StoredFacts(base, front);
    }
  }

  // ---------------------------------------------------------------- conflicts

  function GroupOf(f: Fact): Group {
    Group(f.subject, f.predicateName, f.scope)
  }

  function Members(facts: map<FactId, Fact>, g: Group): set<FactId> {
    set k | k in facts && IsParser(facts[k].extractor) && GroupOf(facts[k]) == g
  }

  predicate Clash(facts: map<FactId, Fact>, g: Group) {
    exists x, y | x in Members(facts, g) && y in Members(facts, g) :: facts[x].value != facts[y].value
  }

  function ConflictOf(facts: map<FactId, Fact>, g: Group): Conflict {
    Conflict(ConflictId(g.subject, g.predicateName, Members(facts, g)),
             set k, e | k in Members(facts, g) && e in facts[k].evidenceIds :: e)
  }

  predicate InClash(facts: map<FactId, Fact>, k: FactId) {
    k in facts && IsParser(facts[k].extractor) && Clash(facts, GroupOf(facts[k]))
  }

  function Mark(facts: map<FactId, Fact>): map<FactId, Fact> {
    map k | k in facts :: if InClash(facts, k) then facts[k].(status := Conflicting) else facts[k]
  }

  function Conflicts(facts: map<FactId, Fact>): set<Conflict> {
    set k | k in facts && InClash(facts, k) :: ConflictOf(facts, GroupOf(facts[k]))
  }

  // ---------------------------------------------------------------- coverage

  /** What one build knows when it turns to coverage. */
  datatype Context = Context(facts: map<FactId, Fact>, conflicts: set<Conflict>, needPlan: string, question: string,
                             reason: Reason, signature: Digest<Signature>, evidenceIds: multiset<EvidenceId>)

  datatype Coverage = Coverage(coverage: map<string, Status>, unknowns: map<UnknownId, Unknown>, updates: seq<Update>)

  function SupportedFor(facts: map<FactId, Fact>, key: string): set<FactId> {
    set k | k in facts && facts[k].status.Supported? && key in facts[k].coverage
  }

  predicate Touches(facts: map<FactId, Fact>, c: Conflict, key: string) {
    exists k | k in c.id.factIds :: k in facts && key in facts[k].coverage
  }

  function BlockingFor(c: Context, key: string): set<ConflictId> {
    set x | x in c.conflicts && Touches(c.facts, x, key) :: x.id
  }

  function UnknownFor(c: Context, key: string): Unknown {
    Unknown(UnknownId(c.needPlan, key, c.reason, c.signature, c.evidenceIds), c.question)
  }

  /** Nothing is known for the key: no conflict and no supported fact. */
  predicate Open(c: Context, key: string) {
    BlockingFor(c, key) == {} && SupportedFor(c.facts, key) == {}
  }

  function Lookup(coverage: map<string, Status>, key: string): Status {
    if key in coverage then coverage[key] else Missing
  }

  function Verdicted(c: Context, before: Status, key: string): Status {
    if BlockingFor(c, key) != {} then InConflict
    else if SupportedFor(c.facts, key) != {} then Covered
    else before
  }

  function CoverStep(c: Context, s: Coverage, key: string): Coverage {
    var before := Lookup(s.coverage, key);
    var after := Verdicted(c, before, key);
    var unknown := UnknownFor(c, key);
    var reason := if BlockingFor(c, key) != {} then OpenSourceConflict
                  else if SupportedFor(c.facts, key) != {} then SupportedFactsAvailable else c.reason;
    Coverage(
      s.coverage[key := after],
      if Open(c, key) then s.unknowns[unknown.id := unknown] else s.unknowns,
      s.updates + [Update(key, before, after, SupportedFor(c.facts, key), if Open(c, key) then [unknown.id] else [],
          BlockingFor(c, key), reason)])
  }

  function Cover(c: Context, s: Coverage, keys: seq<string>): Coverage {
    if keys == [] then s else CoverStep(c, Cover(c, s, keys[..|keys| - 1]), keys[|keys| - 1])
  }

  // ---------------------------------------------------------------- the whole build

  function Prior(prior: Option<Bundle>): Content {
    if prior.Some? then prior.value.content else Content(map[], map[], map[], {})
  }

  function WhyOpen(t: Text, req: Request): Reason {
    var reasons := Reasons(t, SourcesOf(req), req.items);
    if reasons != [] then reasons[0] else if req.items == [] then EmptyResult else UnsupportedEvidence
  }

  function Merged(t: Text, req: Request, prior: Option<Bundle>): map<FactId, Fact> {
    StoreFacts(Prior(prior).facts, Extract(t, req.action, Records(t, SourcesOf(req), req.items)))
  }

  function ContextOf(t: Text, req: Request, merged: map<FactId, Fact>): Context {
    Context(Mark(merged), Conflicts(merged), req.header.needPlan, Question(t, req.action), WhyOpen(t, req),
            SignatureOf(req.action), multiset(Ids(Records(t, SourcesOf(req), req.items))))
  }

  function ProgressOf(content: Content, coverage: map<string, Status>): Progress {
    Progress((set k | k in content.facts && content.facts[k].status.Supported?), content.unknowns.Keys,
             (set c | c in content.conflicts :: c.id), coverage)
  }

  function Package(header: Header, content: Content, s: Coverage, prior: Option<Bundle>): Outcome {
    var progress := Sha256(ProgressOf(content, s.coverage));
    Built(Bundle(header, content, s.updates, Sha256(content), progress), s.coverage,
          prior.None? || prior.value.progressFingerprint != progress)
  }

  function Result(t: Text, req: Request, prior: Option<Bundle>): Outcome {
    var records := Records(t, SourcesOf(req), req.items);
    if Fails(t, req.action, records) then IndexFailure
    else
      var merged := Merged(t, req, prior);
      var c := ContextOf(t, req, merged);
      var s := Cover(c, Coverage(req.coverage, Prior(prior).unknowns, []), req.action.targets);
      Package(req.header, Content(StoreRecords(Prior(prior).evidence, records), c.facts, s.unknowns, c.conflicts), s,
              prior)
  }
}
