/** What builds keep: the chain invariant, the fixed point, and independence of evidence order. */
module KnowledgeLaws {
  import opened Budget
  import opened JsonTree
  import opened Evidence
  import opened Knowledge
  import opened KnowledgeBuild

  // ---------------------------------------------------------------- extracted facts

  predicate IsCode(e: EvidenceId) {
    e.authority.sourceKind == "github"
  }

  /** A fact's fields are those its identifier was made from, and its type is what its source warrants. */
  predicate FactOk(k: FactId, f: Fact) {
    && f.id == k
    && match k
       case DirectId(subject, excerpt, scope, factType, e) =>
         && f == Fact(k, subject, "direct_source_support", Str(excerpt), scope, factType, Supported, [e], f.coverage,
                      DirectTokenMatch)
         && scope == (if IsCode(e) then CurrentState else HistoricalContext)
         && factType == (if IsCode(e) then CodeVerified else DocumentSupported)
       case ParserId(subject, name, value, scope, factType, e, coverage, tool) =>
         && f == Fact(k, subject, name, value, scope, factType, f.status, [e], coverage, tool) && IsParser(tool)
         && var verified := e.authority.sourceKind in {"github", "openapi", "database_schema"};
         && factType == (if verified then CodeVerified else DocumentSupported)
  }

  lemma {:induction false} ExtractedFrom(t: Text, a: Action, records: seq<Record>)
    ensures forall f | f in Extract(t, a, records) :: exists r :: r in records && ExtractOne(t, a, r) == Some(f)
    ensures forall r | r in records && ExtractOne(t, a, r).Some? :: ExtractOne(t, a, r).value in Extract(t, a, records)
  {
    if records != [] {
      var front, last := records[..|records| - 1], records[|records| - 1];
      assert records == front + [last];
      ExtractedFrom(t, a, front);
    }
  }

  lemma ExtractedOk(t: Text, a: Action, records: seq<Record>)
    ensures forall f | f in Extract(t, a, records) ::
              FactOk(f.id, f) && f.status.Supported? && f.coverage == a.targets
                  && exists r :: r in records && f.evidenceIds == [r.id]
    ensures FactsAgree(Extract(t, a, records))
  {
    ExtractedFrom(t, a, records);
    forall f | f in Extract(t, a, records)
      ensures FactOk(f.id, f) && f.status.Supported? && f.coverage == a.targets
              && exists r :: r in records && f.evidenceIds == [r.id]
    {
      var r :| r in records && ExtractOne(t, a, r) == Some(f);
    }
  }

  // ---------------------------------------------------------------- clashes

  /** Two parser facts about the same thing with different values. */
  predicate Rivals(facts: map<FactId, Fact>, k: FactId, j: FactId) {
    && k in facts && j in facts && IsParser(facts[k].extractor) && IsParser(facts[j].extractor)
    && facts[k].subject == facts[j].subject && facts[k].predicateName == facts[j].predicateName
    && facts[k].scope == facts[j].scope
    && facts[k].value != facts[j].value
  }

  lemma ClashIsRivalry(facts: map<FactId, Fact>, k: FactId)
    ensures InClash(facts, k) <==> exists j :: Rivals(facts, k, j)
  {
    if InClash(facts, k) {
      var g := GroupOf(facts[k]);
      var x, y :| x in Members(facts, g) && y in Members(facts, g) && facts[x].value != facts[y].value;
      assert Rivals(facts, k, x) || Rivals(facts, k, y);
    }
    if j :| Rivals(facts, k, j) {
      var g := GroupOf(facts[k]);
      assert k in Members(facts, g) && j in Members(facts, g);
    }
  }

  /** Every fact of the first map is in the second, up to its status. */
  predicate Below(a: map<FactId, Fact>, b: map<FactId, Fact>) {
    forall k | k in a :: k in b && a[k].(status := Supported) == b[k].(status := Supported)
  }

  /** Marking changes no clash, so the conflicts of marked facts are those of the facts. */
  lemma AlikeFacts(a: map<FactId, Fact>, b: map<FactId, Fact>)
    requires Below(a, b) && Below(b, a)
    ensures Conflicts(a) == Conflicts(b) && forall k :: InClash(a, k) <==> InClash(b, k)
  {
    assert forall k :: InClash(a, k) <==> InClash(b, k);
    forall k | k in a
      ensures GroupOf(a[k]) == GroupOf(b[k]) && ConflictOf(a, GroupOf(a[k])) == ConflictOf(b, GroupOf(a[k]))
    {
      assert GroupOf(a[k]) == GroupOf(a[k].(status := Supported))
             && GroupOf(b[k]) == GroupOf(b[k].(status := Supported));
    }
  }

  lemma MarkAlike(a: map<FactId, Fact>)
    ensures Below(a, Mark(a)) && Below(Mark(a), a)
  {
  }

  // ---------------------------------------------------------------- the chain of builds

  /** The invariant of stored knowledge. */
  ghost predicate Sound(t: Text, c: Content) {
    && (forall k | k in c.evidence :: c.evidence[k].id == k && RecordOk(t, c.evidence[k]))
    && (forall k | k in c.facts && k.DirectId? :: t.sha(k.excerpt) == k.evidence.excerptHash)
    && (forall k | k in c.facts :: FactOk(k, c.facts[k]) && c.facts[k].evidenceIds[0] in c.evidence)
    && (forall k | k in c.facts :: c.facts[k].status.Conflicting? <==> InClash(c.facts, k))
    && c.conflicts == Conflicts(c.facts)
  }

  lemma {:induction false} RecordKeys(base: map<EvidenceId, Record>, records: seq<Record>)
    ensures forall k | k in base :: k in StoreRecords(base, records)
    ensures forall r | r in records :: r.id in StoreRecords(base, records)
    ensures var m := StoreRecords(base, records);
            forall k | k in m :: (m[k] in records && m[k].id == k) || (k in base && m[k] == base[k])
  {
    if records != [] {
      RecordKeys(base, records[..|records| - 1]);
    }
  }

  /** A direct fact quotes an excerpt with the hash its evidence records. */
  lemma ExtractedQuotes(t: Text, s: Sources, a: Action, items: seq<EvidenceItem>)
    ensures forall f | f in Extract(t, a, Records(t, s, items)) && f.id.DirectId? ::
              t.sha(f.id.excerpt) == f.id.evidence.excerptHash
  {
    RecordsAreOf(t, s, items);
    ExtractedFrom(t, a, Records(t, s, items));
  }

  lemma StoredQuotes(t: Text, req: Request, prior: Option<Bundle>)
    requires Sound(t, Prior(prior))
    ensures forall k | k in Merged(t, req, prior) && k.DirectId? :: t.sha(k.excerpt) == k.evidence.excerptHash
    ensures var m := StoreRecords(Prior(prior).evidence, Records(t, SourcesOf(req), req.items));
            forall k | k in m :: m[k].id == k && RecordOk(t, m[k])
  {
    var records := Records(t, SourcesOf(req), req.items);
    RecordsAreOf(t, SourcesOf(req), req.items);
    RecordKeys(Prior(prior).evidence, records);
    ExtractedQuotes(t, SourcesOf(req), req.action, req.items);
    ExtractedOk(t, req.action, records);
    StoredFacts(Prior(prior).facts, Extract(t, req.action, records));
  }

  /** New facts contain the old ones, and what was already CONFLICTING was so for a reason. */
  ghost predicate MergeOk(before: map<FactId, Fact>, merged: map<FactId, Fact>) {
    && (forall k | k in merged :: FactOk(k, merged[k]))
    && (forall k | k in before :: k in merged && FactOk(k, before[k]))
    && (forall k | k in merged && merged[k].status.Conflicting? :: InClash(before, k))
  }

  /** A fact as its identifier says, citing stored evidence. */
  predicate Cited(evidence: map<EvidenceId, Record>, k: FactId, f: Fact) {
    FactOk(k, f) && f.evidenceIds[0] in evidence
  }

  lemma MergeKeeps(before: map<FactId, Fact>, facts: seq<Fact>, evidence: map<EvidenceId, Record>)
    requires forall k | k in before ::
               Cited(evidence, k, before[k]) && (before[k].status.Conflicting? ==> InClash(before, k))
    requires FactsAgree(facts) && forall f | f in facts :: Cited(evidence, f.id, f) && f.status.Supported?
    ensures MergeOk(before, StoreFacts(before, facts))
    ensures forall k | k in StoreFacts(before, facts) :: Cited(evidence, k, StoreFacts(before, facts)[k])
  {
    StoredFacts(before, facts);
  }

  /** Merging keeps every old fact up to its status, and every merged fact cites stored evidence. */
  lemma MergedSound(t: Text, req: Request, prior: Option<Bundle>)
    requires Sound(t, Prior(prior))
    ensures MergeOk(Prior(prior).facts, Merged(t, req, prior))
    ensures var evidence := StoreRecords(Prior(prior).evidence, Records(t, SourcesOf(req), req.items));
            forall k | k in Merged(t, req, prior) :: Cited(evidence, k, Merged(t, req, prior)[k])
  {
    var records := Records(t, SourcesOf(req), req.items);
    RecordKeys(Prior(prior).evidence, records);
    ExtractedOk(t, req.action, records);
    MergeKeeps(Prior(prior).facts, Extract(t, req.action, records), StoreRecords(Prior(prior).evidence, records));
  }

  /** Each old conflict is part of a new one about the same thing. */
  ghost predicate Extends(c: Conflict, d: Conflict) {
    c.id.subject == d.id.subject && c.id.predicateName == d.id.predicateName && c.id.factIds <= d.id.factIds
        && c.evidenceIds <= d.evidenceIds
  }

  ghost predicate Grows(a: Content, b: Content) {
    && a.evidence.Keys <= b.evidence.Keys && a.facts.Keys <= b.facts.Keys && a.unknowns.Keys <= b.unknowns.Keys
    && (forall k | k in a.facts && a.facts[k].status.Conflicting? :: b.facts[k].status.Conflicting?)
    && (forall c | c in a.conflicts :: exists d :: d in b.conflicts && Extends(c, d))
  }

  lemma ConflictGrows(a: map<FactId, Fact>, b: map<FactId, Fact>, k: FactId)
    requires forall k | k in a :: k in b && FactOk(k, a[k]) && FactOk(k, b[k])
    requires InClash(a, k)
    ensures InClash(b, k) && Extends(ConflictOf(a, GroupOf(a[k])), ConflictOf(b, GroupOf(b[k])))
  {
    var g := GroupOf(a[k]);
    assert GroupOf(b[k]) == g;
    assert Members(a, g) <= Members(b, g);
    assert forall j | j in Members(a, g) :: a[j].evidenceIds == b[j].evidenceIds;
  }

  lemma {:induction false} UnknownsGrow(c: Context, s: Coverage, keys: seq<string>)
    ensures s.unknowns.Keys <= Cover(c, s, keys).unknowns.Keys
  {
    if keys != [] {
      UnknownsGrow(c, s, keys[..|keys| - 1]);
    }
  }

  lemma MarkOk(before: map<FactId, Fact>, merged: map<FactId, Fact>)
    requires MergeOk(before, merged)
    ensures forall k | k in merged :: FactOk(k, Mark(merged)[k])
    ensures forall k | k in merged :: Mark(merged)[k].status.Conflicting? <==> InClash(merged, k)
    ensures forall k | InClash(before, k) :: InClash(merged, k)
  {
    forall k ensures InClash(before, k) ==> InClash(merged, k) {
    }
    forall k | k in merged ensures FactOk(k, Mark(merged)[k]) {
      assert FactOk(k, merged[k]);
    }
  }

  lemma ConflictsGrow(before: map<FactId, Fact>, merged: map<FactId, Fact>)
    requires MergeOk(before, merged)
    ensures forall c | c in Conflicts(before) :: exists d :: d in Conflicts(merged) && Extends(c, d)
  {
    forall c | c in Conflicts(before) ensures exists d :: d in Conflicts(merged) && Extends(c, d) {
      var k :| k in before && InClash(before, k) && c == ConflictOf(before, GroupOf(before[k]));
      ConflictGrows(before, merged, k);
      assert ConflictOf(merged, GroupOf(merged[k])) in Conflicts(merged);
    }
  }

  /** One build keeps the invariant and only adds. */
  lemma BuildKeeps(t: Text, req: Request, prior: Option<Bundle>)
    requires Sound(t, Prior(prior)) && Result(t, req, prior).Built?
    ensures Sound(t, Result(t, req, prior).bundle.content)
    ensures Grows(Prior(prior), Result(t, req, prior).bundle.content)
  {
    var before, merged := Prior(prior), Merged(t, req, prior);
    MergedSound(t, req, prior);
    StoredQuotes(t, req, prior);
    MarkOk(before.facts, merged);
    ConflictsGrow(before.facts, merged);
    MarkAlike(merged);
    AlikeFacts(merged, Mark(merged));
    RecordKeys(before.evidence, Records(t, SourcesOf(req), req.items));
    UnknownsGrow(ContextOf(t, req, merged), Coverage(req.coverage, before.unknowns, []), req.action.targets);
  }

  /** The bundle after a sequence of builds, each on the result of the one before; a failed build changes nothing. */
  function Chain(t: Text, requests: seq<Request>): Option<Bundle> {
    if requests == [] then None
    else
      var prior := Chain(t, requests[..|requests| - 1]);
      var r := Result(t, requests[|requests| - 1], prior);
      if r.Built? then Some(r.bundle) else prior
  }

  lemma {:induction false} ChainSound(t: Text, requests: seq<Request>)
    ensures Sound(t, Prior(Chain(t, requests)))
  {
    if requests != [] {
      var front, last := requests[..|requests| - 1], requests[|requests| - 1];
      ChainSound(t, front);
      if Result(t, last, Chain(t, front)).Built? {
        BuildKeeps(t, last, Chain(t, front));
      }
    }
  }

  lemma GrowsTransitive(a: Content, b: Content, c: Content)
    requires Grows(a, b) && Grows(b, c)
    ensures Grows(a, c)
  {
    forall x | x in a.conflicts ensures exists z :: z in c.conflicts && Extends(x, z) {
      var y :| y in b.conflicts && Extends(x, y);
      var z :| z in c.conflicts && Extends(y, z);
      assert Extends(x, z);
    }
  }

  /** Over any sequence of builds knowledge only grows: identifiers stay, and a conflict never heals. */
  lemma {:induction false} ChainGrows(t: Text, requests: seq<Request>, n: nat)
    requires n <= |requests|
    ensures Grows(Prior(Chain(t, requests[..n])), Prior(Chain(t, requests)))
  {
    if n == |requests| {
      assert requests[..n] == requests;
      assert forall c: Conflict :: Extends(c, c);
    } else {
      var front, last := requests[..|requests| - 1], requests[|requests| - 1];
      ChainGrows(t, front, n);
      assert front[..n] == requests[..n];
      if Result(t, last, Chain(t, front)).Built? {
        ChainSound(t, front);
        BuildKeeps(t, last, Chain(t, front));
        GrowsTransitive(Prior(Chain(t, requests[..n])), Prior(Chain(t, front)), Prior(Chain(t, requests)));
      }
    }
  }

  /** The invariant, spelled out. */
  ghost predicate Cites(c: Content) {
    && (forall k, e | k in c.facts && e in c.facts[k].evidenceIds :: e in c.evidence)
    && (forall x, k | x in c.conflicts && k in x.id.factIds :: k in c.facts && c.facts[k].status.Conflicting?)
    && (forall x, e | x in c.conflicts && e in x.evidenceIds :: e in c.evidence)
    && (forall k | k in c.facts :: c.facts[k].status.Conflicting? <==> exists j :: Rivals(c.facts, k, j))
  }

  lemma FactsCite(t: Text, c: Content, k: FactId)
    requires Sound(t, c) && k in c.facts
    ensures forall e | e in c.facts[k].evidenceIds :: e in c.evidence
  {
    assert FactOk(k, c.facts[k]);
  }

  lemma SoundCites(t: Text, c: Content)
    requires Sound(t, c)
    ensures Cites(c)
  {
    forall k | k in c.facts
      ensures c.facts[k].status.Conflicting? <==> exists j :: Rivals(c.facts, k, j)
      ensures forall e | e in c.facts[k].evidenceIds :: e in c.evidence
    {
      ClashIsRivalry(c.facts, k);
      FactsCite(t, c, k);
    }
    forall x | x in c.conflicts
      ensures forall k | k in x.id.factIds :: k in c.facts && c.facts[k].status.Conflicting?
      ensures forall e | e in x.evidenceIds :: e in c.evidence
    {
    }
  }

  /** After any sequence of builds every stored excerpt has the recorded hash, every repository record lies in the
      authorized revision, and a directly supported fact quotes its stored evidence word for word; it is verified by
      code exactly when its evidence is code. */
  lemma FactsQuoteEvidence(t: Text, requests: seq<Request>)
    requires CollisionFree(t)
    ensures var c := Prior(Chain(t, requests));
            && (forall k | k in c.evidence :: c.evidence[k].id == k && RecordOk(t, c.evidence[k]))
            && (forall k | k in c.facts && k.DirectId? ::
                  && k.evidence in c.evidence && c.facts[k].value == Str(c.evidence[k.evidence].excerpt)
                  && (c.facts[k].factType == CodeVerified <==> k.evidence.authority.sourceKind == "github"))
  {
    ChainSound(t, requests);
    var c := Prior(Chain(t, requests));
    forall k | k in c.facts && k.DirectId?
      ensures k.evidence in c.evidence && c.facts[k].value == Str(c.evidence[k.evidence].excerpt)
              && (c.facts[k].factType == CodeVerified <==> k.evidence.authority.sourceKind == "github")
    {
      assert FactOk(k, c.facts[k]) && c.facts[k].evidenceIds == [k.evidence];
    }
  }

  /** After any sequence of builds facts cite stored evidence, conflicts cite stored facts and their evidence, and a
      fact is CONFLICTING exactly when another parser fact says something else of the same subject, predicate and
      scope. */
  lemma ChainInvariant(t: Text, requests: seq<Request>)
    ensures Cites(Prior(Chain(t, requests)))
  {
    ChainSound(t, requests);
    SoundCites(t, Prior(Chain(t, requests)));
  }

  // ---------------------------------------------------------------- the fixed point

  lemma StoreRecordsAgain(base: map<EvidenceId, Record>, records: seq<Record>)
    requires RecordsAgree(records)
    ensures StoreRecords(StoreRecords(base, records), records) == StoreRecords(base, records)
  {
    StoredRecords(base, records);
    StoredRecords(StoreRecords(base, records), records);
  }

  predicate Names(facts: seq<Fact>, k: FactId) {
    exists f | f in facts :: f.id == k
  }

  /** What is stored under one key. */
  lemma StoredFactAt(base: map<FactId, Fact>, facts: seq<Fact>, k: FactId)
    requires FactsAgree(facts)
    ensures k in StoreFacts(base, facts) <==> k in base || Names(facts, k)
    ensures forall f | f in facts && f.id == k :: StoreFacts(base, facts)[k] == f
    ensures k in base && !Names(facts, k) ==> StoreFacts(base, facts)[k] == base[k]
  {
    StoredFacts(base, facts);
  }

  lemma StoreFactsAgain(base: map<FactId, Fact>, facts: seq<Fact>)
    requires FactsAgree(facts)
    ensures var once := StoreFacts(base, facts);
            var twice := StoreFacts(Mark(once), facts);
            twice.Keys == once.Keys && forall k | k in once :: twice[k] == once[k] || twice[k] == Mark(once)[k]
  {
    var once := StoreFacts(base, facts);
    var twice := StoreFacts(Mark(once), facts);
    forall k ensures (k in once <==> k in twice) && (k in once ==> twice[k] == once[k] || twice[k] == Mark(once)[k]) {
      StoredFactAt(base, facts, k);
      StoredFactAt(Mark(once), facts, k);
    }
  }

  /** Facts that agree with marked or unmarked ones are marked alike. */
  lemma MarkAgain(once: map<FactId, Fact>, twice: map<FactId, Fact>)
    requires twice.Keys == once.Keys && forall k | k in once :: twice[k] == once[k] || twice[k] == Mark(once)[k]
    ensures Mark(twice) == Mark(once) && Conflicts(twice) == Conflicts(once)
  {
    MarkAlike(once);
    assert Below(once, twice) && Below(twice, once);
    AlikeFacts(once, twice);
  }

  /** What coverage becomes, key by key. */
  lemma {:induction false} CoveredAt(c: Context, s: Coverage, keys: seq<string>, k: string)
    ensures var r := Cover(c, s, keys).coverage;
            && (k in r <==> k in s.coverage || k in keys)
            && Lookup(r, k) == if k !in keys then Lookup(s.coverage, k)
                               else if BlockingFor(c, k) != {} then InConflict
                               else if SupportedFor(c.facts, k) != {} then Covered
                               else Lookup(s.coverage, k)
  {
    if keys != [] {
      var front, last := keys[..|keys| - 1], keys[|keys| - 1];
      assert keys == front + [last];
      CoveredAt(c, s, front, k);
    }
  }

  /** What the unknowns become: one more for each key about which nothing is known. */
  lemma {:induction false} UnknownKeys(c: Context, s: Coverage, keys: seq<string>)
    ensures var r := Cover(c, s, keys).unknowns;
            && (forall k | k in keys && Open(c, k) ::
                UnknownFor(c, k).id in r && r[UnknownFor(c, k).id] == UnknownFor(c, k))
            && (forall u | u in r ::
                (exists k :: k in keys && Open(c, k) && u == UnknownFor(c, k).id)
                || (u in s.unknowns && r[u] == s.unknowns[u]))
            && (forall u | u in s.unknowns :: u in r)
  {
    if keys != [] {
      var front, last := keys[..|keys| - 1], keys[|keys| - 1];
      assert keys == front + [last];
      UnknownKeys(c, s, front);
    }
  }

  lemma CoverageAgainAt(c: Context, s: Coverage, again: Coverage, keys: seq<string>, k: string)
    requires again.coverage == s.coverage || again.coverage == Cover(c, s, keys).coverage
    ensures k in Cover(c, again, keys).coverage <==> k in Cover(c, s, keys).coverage
    ensures Lookup(Cover(c, again, keys).coverage, k) == Lookup(Cover(c, s, keys).coverage, k)
  {
    CoveredAt(c, s, keys, k);
    CoveredAt(c, again, keys, k);
  }

  lemma SameCoverage(a: map<string, Status>, b: map<string, Status>)
    requires forall k :: (k in a <==> k in b) && Lookup(a, k) == Lookup(b, k)
    ensures a == b
  {
    assert forall k | k in a :: a[k] == Lookup(a, k) && b[k] == Lookup(b, k);
  }

  lemma CoverageAgain(c: Context, s: Coverage, again: Coverage, keys: seq<string>)
    requires again.coverage == s.coverage || again.coverage == Cover(c, s, keys).coverage
    ensures Cover(c, again, keys).coverage == Cover(c, s, keys).coverage
  {
    forall k ensures (k in Cover(c, again, keys).coverage <==> k in Cover(c, s, keys).coverage)
                     && Lookup(Cover(c, again, keys).coverage, k) == Lookup(Cover(c, s, keys).coverage, k) {
      CoverageAgainAt(c, s, again, keys, k);
    }
    SameCoverage(Cover(c, again, keys).coverage, Cover(c, s, keys).coverage);
  }

  lemma UnknownsAgain(c: Context, s: Coverage, again: Coverage, keys: seq<string>)
    requires again.unknowns == Cover(c, s, keys).unknowns
    ensures Cover(c, again, keys).unknowns == Cover(c, s, keys).unknowns
  {
    UnknownKeys(c, s, keys);
    UnknownKeys(c, again, keys);
  }

  /** Rebuilding the same request on its own result, with the old coverage or the new, changes nothing and reports no
      progress. */
  lemma BuildIsFixedPoint(t: Text, req: Request, prior: Option<Bundle>, coverage: map<string, Status>)
    requires CollisionFree(t) && Result(t, req, prior).Built?
    requires coverage == req.coverage || coverage == Result(t, req, prior).coverage
    ensures var once := Result(t, req, prior);
            var again := Result(t, req.(coverage := coverage), Some(once.bundle));
            && again.Built? && !again.progressed && again.coverage == once.coverage
            && again.bundle.content == once.bundle.content
            && again.bundle.knowledgeFingerprint == once.bundle.knowledgeFingerprint
            && again.bundle.progressFingerprint == once.bundle.progressFingerprint
  {
    var once, next := Result(t, req, prior), req.(coverage := coverage);
    var records := Records(t, SourcesOf(req), req.items);
    assert SourcesOf(next) == SourcesOf(req);
    RequestAgrees(t, SourcesOf(req), req.items);
    StoreRecordsAgain(Prior(prior).evidence, records);
    ExtractedOk(t, req.action, records);
    StoreFactsAgain(Prior(prior).facts, Extract(t, req.action, records));
    MarkAgain(Merged(t, req, prior), Merged(t, next, Some(once.bundle)));
    var c := ContextOf(t, req, Merged(t, req, prior));
    assert ContextOf(t, next, Merged(t, next, Some(once.bundle))) == c;
    var start, restart := Coverage(req.coverage, Prior(prior).unknowns, []),
        Coverage(coverage, once.bundle.content.unknowns, []);
    CoverageAgain(c, start, restart, req.action.targets);
    UnknownsAgain(c, start, restart, req.action.targets);
  }

  // ---------------------------------------------------------------- the order of evidence

  lemma {:induction false} RecordsSplit(t: Text, s: Sources, a: seq<EvidenceItem>, b: seq<EvidenceItem>)
    ensures Records(t, s, a + b) == Records(t, s, a) + Records(t, s, b)
  {
    if b == [] {
      assert a + b == a;
    } else {
      RecordsSplit(t, s, a, b[..|b| - 1]);
      assert (a + b)[..|a + b| - 1] == a + b[..|b| - 1];
    }
  }

  lemma MiddleOut<T>(x: seq<T>, m: seq<T>, y: seq<T>)
    ensures multiset(x + m + y) == multiset(x + y) + multiset(m)
  {
  }

  lemma Cancel<T>(x: multiset<T>, y: multiset<T>, m: multiset<T>)
    requires x + m == y + m
    ensures x == y
  {
    assert (x + m) - m == x && (y + m) - m == y;
  }

  /** The last element of one sequence can be taken out of a permutation of it. */
  lemma TakeOut<T>(a: seq<T>, b: seq<T>) returns (i: nat)
    requires a != [] && multiset(a) == multiset(b)
    ensures i < |b| && b[i] == a[|a| - 1] && multiset(a[..|a| - 1]) == multiset(b[..i] + b[i + 1..])
  {
    var front, last := a[..|a| - 1], a[|a| - 1];
    SameElements(a, b);
    assert last in a;
    i :| 0 <= i < |b| && b[i] == last;
    MiddleOut(front, [last], []);
    MiddleOut(b[..i], [last], b[i + 1..]);
    assert a == front + [last] + [] && front + [] == front && b == b[..i] + [last] + b[i + 1..];
    Cancel(multiset(front), multiset(b[..i] + b[i + 1..]), multiset([last]));
  }

  /** Permuting the items permutes the records. */
  lemma {:induction false} RecordsPermute(t: Text, s: Sources, a: seq<EvidenceItem>, b: seq<EvidenceItem>)
    requires multiset(a) == multiset(b)
    ensures multiset(Records(t, s, a)) == multiset(Records(t, s, b))
    decreases |a|
  {
    if a == [] {
      assert |multiset(b)| == 0;
    } else {
      var i := TakeOut(a, b);
      var front, last, left, right := a[..|a| - 1], a[|a| - 1], b[..i], b[i + 1..];
      RecordsPermute(t, s, front, left + right);
      RecordsPermuteStep(t, s, front, last, left, right);
      assert a == front + [last] && b == left + [last] + right;
    }
  }

  lemma RecordsPermuteStep(t: Text, s: Sources, front: seq<EvidenceItem>, last: EvidenceItem, left: seq<EvidenceItem>,
      right: seq<EvidenceItem>)
    requires multiset(Records(t, s, front)) == multiset(Records(t, s, left + right))
    ensures multiset(Records(t, s, front + [last])) == multiset(Records(t, s, left + [last] + right))
  {
    RecordsSplit(t, s, front, [last]);
    RecordsSplit(t, s, left, right);
    RecordsSplit(t, s, left + [last], right);
    RecordsSplit(t, s, left, [last]);
    MiddleOut(Records(t, s, left), Records(t, s, [last]), Records(t, s, right));
  }

  lemma {:induction false} IdsPermute(a: seq<Record>, b: seq<Record>)
    requires multiset(a) == multiset(b)
    ensures multiset(Ids(a)) == multiset(Ids(b))
    decreases |a|
  {
    if a == [] {
      assert |multiset(b)| == 0;
    } else {
      var i := TakeOut(a, b);
      var front, left, right := a[..|a| - 1], b[..i], b[i + 1..];
      IdsPermute(front, left + right);
      assert Ids(a) == Ids(front) + [b[i].id];
      assert Ids(b) == Ids(left) + [b[i].id] + Ids(right);
      assert Ids(left + right) == Ids(left) + Ids(right);
      MiddleOut(Ids(left), [b[i].id], Ids(right));
    }
  }

  predicate Holds(records: seq<Record>, k: EvidenceId) {
    exists r | r in records :: r.id == k
  }

  lemma StoredRecordAt(base: map<EvidenceId, Record>, records: seq<Record>, k: EvidenceId)
    requires RecordsAgree(records)
    ensures k in StoreRecords(base, records) <==> k in base || Holds(records, k)
    ensures forall r | r in records && r.id == k :: StoreRecords(base, records)[k] == r
    ensures k in base && !Holds(records, k) ==> StoreRecords(base, records)[k] == base[k]
  {
    StoredRecords(base, records);
  }

  lemma SameRecordsStored(base: map<EvidenceId, Record>, a: seq<Record>, b: seq<Record>)
    requires RecordsAgree(a) && forall r :: r in a <==> r in b
    ensures StoreRecords(base, a) == StoreRecords(base, b)
  {
    forall k ensures (k in StoreRecords(base, a) <==> k in StoreRecords(base, b))
                     && (k in StoreRecords(base, a) ==> StoreRecords(base, a)[k] == StoreRecords(base, b)[k]) {
      StoredRecordAt(base, a, k);
      StoredRecordAt(base, b, k);
    }
  }

  lemma SameFactsStored(base: map<FactId, Fact>, a: seq<Fact>, b: seq<Fact>)
    requires FactsAgree(a) && forall f :: f in a <==> f in b
    ensures StoreFacts(base, a) == StoreFacts(base, b)
  {
    forall k ensures (k in StoreFacts(base, a) <==> k in StoreFacts(base, b))
                     && (k in StoreFacts(base, a) ==> StoreFacts(base, a)[k] == StoreFacts(base, b)[k]) {
      StoredFactAt(base, a, k);
      StoredFactAt(base, b, k);
    }
  }

  lemma SameElements<T>(a: seq<T>, b: seq<T>)
    requires multiset(a) == multiset(b)
    ensures forall x :: x in a <==> x in b
  {
    assert forall x :: x in a <==> x in multiset(a);
    assert forall x :: x in b <==> x in multiset(b);
  }

  lemma SameExtracted(t: Text, a: Action, rs: seq<Record>, qs: seq<Record>)
    requires forall r :: r in rs <==> r in qs
    ensures forall f :: f in Extract(t, a, rs) <==> f in Extract(t, a, qs)
    ensures Fails(t, a, rs) <==> Fails(t, a, qs)
  {
    ExtractedFrom(t, a, rs);
    ExtractedFrom(t, a, qs);
  }

  /** The order of the evidence items matters only through the first rejection reason. */
  lemma OrderIsIrrelevant(t: Text, req: Request, items: seq<EvidenceItem>, prior: Option<Bundle>)
    requires CollisionFree(t) && multiset(items) == multiset(req.items)
    requires WhyOpen(t, req.(items := items)) == WhyOpen(t, req)
    ensures Result(t, req.(items := items), prior) == Result(t, req, prior)
  {
    var next := req.(items := items);
    var rs, qs := Records(t, SourcesOf(req), req.items), Records(t, SourcesOf(req), items);
    assert SourcesOf(next) == SourcesOf(req);
    RecordsPermute(t, SourcesOf(req), req.items, items);
    RequestAgrees(t, SourcesOf(req), req.items);
    IdsPermute(rs, qs);
    SameElements(rs, qs);
    SameRecordsStored(Prior(prior).evidence, rs, qs);
    SameExtracted(t, req.action, rs, qs);
    ExtractedOk(t, req.action, rs);
    SameFactsStored(Prior(prior).facts, Extract(t, req.action, rs), Extract(t, req.action, qs));
    assert ContextOf(t, next, Merged(t, next, prior)) == ContextOf(t, req, Merged(t, req, prior));
  }

  lemma {:induction false} NoReasons(t: Text, s: Sources, items: seq<EvidenceItem>)
    requires forall x | x in items :: ValidateSource(t, x, s.authorities).Valid?
    ensures Reasons(t, s, items) == []
  {
    if items != [] {
      assert items[|items| - 1] in items;
      NoReasons(t, s, items[..|items| - 1]);
    }
  }

  /** Permuting items that all validate changes nothing at all. */
  lemma PermutationKeepsBuild(t: Text, req: Request, items: seq<EvidenceItem>, prior: Option<Bundle>)
    requires CollisionFree(t) && multiset(items) == multiset(req.items)
    requires forall x | x in req.items :: ValidateSource(t, x, req.authorities).Valid?
    ensures Result(t, req.(items := items), prior) == Result(t, req, prior)
  {
    SameElements(items, req.items);
    assert |items| == |multiset(items)| == |multiset(req.items)| == |req.items|;
    NoReasons(t, SourcesOf(req), req.items);
    NoReasons(t, SourcesOf(req), items);
    OrderIsIrrelevant(t, req, items, prior);
  }

  // ---------------------------------------------------------------- rounds of direct search

  predicate Peaceful(facts: map<FactId, Fact>) {
    forall k | k in facts :: !InClash(facts, k)
  }

  /** Direct facts add no clash. */
  lemma DirectFactsKeepPeace(base: map<FactId, Fact>, facts: seq<Fact>)
    requires Peaceful(base) && FactsAgree(facts) && forall f | f in facts :: !IsParser(f.extractor)
    ensures Peaceful(StoreFacts(base, facts)) && Mark(StoreFacts(base, facts)) == StoreFacts(base, facts)
              && Conflicts(StoreFacts(base, facts)) == {}
  {
    var m := StoreFacts(base, facts);
    StoredFacts(base, facts);
    forall k | k in m ensures !InClash(m, k) {
      ClashIsRivalry(m, k);
      ClashIsRivalry(base, k);
      forall j ensures !Rivals(m, k, j) {
        assert Rivals(m, k, j) ==> Rivals(base, k, j);
      }
    }
  }

  /** A search action's round: it raises no conflict, covers all its targets if it finds a new fact, and uncovers
      nothing. */
  lemma DirectRound(t: Text, req: Request, prior: Option<Bundle>)
    requires !IsParser(req.action.tool) && Result(t, req, prior).Built? && Peaceful(Prior(prior).facts)
    ensures var r := Result(t, req, prior);
            && Peaceful(r.bundle.content.facts) && Prior(prior).facts.Keys <= r.bundle.content.facts.Keys
            && r.coverage.Keys == req.coverage.Keys + (set k | k in req.action.targets)
            && (forall k | k in r.bundle.content.facts && k !in Prior(prior).facts ::
                forall key | key in req.action.targets :: r.coverage[key] == Covered)
            && (forall key | key in req.coverage && req.coverage[key] == Covered :: r.coverage[key] == Covered)
            && (forall key | key in req.coverage && key !in req.action.targets :: r.coverage[key] == req.coverage[key])
  {
    var records := Records(t, SourcesOf(req), req.items);
    var facts := Extract(t, req.action, records);
    var merged := Merged(t, req, prior);
    ExtractedOk(t, req.action, records);
    ExtractedAreDirect(t, req.action, records);
    StoredFacts(Prior(prior).facts, facts);
    DirectFactsKeepPeace(Prior(prior).facts, facts);
    var c, s := ContextOf(t, req, merged), Coverage(req.coverage, Prior(prior).unknowns, []);
    forall key ensures BlockingFor(c, key) == {} {
    }
    forall key ensures var r := Cover(c, s, req.action.targets).coverage;
            && (key in r <==> key in s.coverage || key in req.action.targets)
            && Lookup(r, key) == if key in req.action.targets then Verdicted(c, Lookup(s.coverage, key), key)
                 else Lookup(s.coverage, key) {
      CoveredAt(c, s, req.action.targets, key);
    }
    forall k, key | k in merged && k !in Prior(prior).facts && key in req.action.targets
      ensures SupportedFor(c.facts, key) != {}
    {
      assert k in SupportedFor(c.facts, key);
    }
  }

  lemma ExtractedAreDirect(t: Text, a: Action, records: seq<Record>)
    requires !IsParser(a.tool)
    ensures forall f | f in Extract(t, a, records) :: !IsParser(f.extractor)
  {
    ExtractedFrom(t, a, records);
  }

  lemma ParserCoverageIsFixed(k: FactId, f: Fact, g: Fact)
    requires FactOk(k, f) && FactOk(k, g) && IsParser(f.extractor)
    ensures f.coverage == g.coverage
  {
  }

  lemma TouchGrows(before: map<FactId, Fact>, merged: map<FactId, Fact>, c: Conflict, key: string) returns (d: Conflict)
    requires MergeOk(before, merged) && c in Conflicts(before) && Touches(before, c, key)
    ensures d in Conflicts(merged) && Touches(Mark(merged), d, key)
  {
    ConflictsGrow(before, merged);
    d :| d in Conflicts(merged) && Extends(c, d);
    var j := TouchedBy(before, c, key);
    ParserCoverageIsFixed(j, before[j], merged[j]);
    assert Mark(merged)[j].coverage == merged[j].coverage;
  }

  /** A key touched by an open conflict stays in conflict whatever later builds find. */
  lemma ConflictIsNeverCovered(t: Text, req: Request, prior: Option<Bundle>, c: Conflict, key: string)
    requires Sound(t, Prior(prior)) && Result(t, req, prior).Built?
    requires c in Prior(prior).conflicts && Touches(Prior(prior).facts, c, key)
    ensures var r := Result(t, req, prior);
            && (key in req.action.targets ==> Lookup(r.coverage, key) == InConflict)
            && exists d :: d in r.bundle.content.conflicts && Touches(r.bundle.content.facts, d, key)
  {
    MergedSound(t, req, prior);
    var d := TouchGrows(Prior(prior).facts, Merged(t, req, prior), c, key);
    var ctx := ContextOf(t, req, Merged(t, req, prior));
    assert d.id in BlockingFor(ctx, key);
    CoveredAt(ctx, Coverage(req.coverage, Prior(prior).unknowns, []), req.action.targets, key);
  }

  ghost function TouchedBy(facts: map<FactId, Fact>, c: Conflict, key: string): (k: FactId)
    requires Touches(facts, c, key)
    ensures k in c.id.factIds && k in facts && key in facts[k].coverage
  {
    var k :| k in c.id.factIds && k in facts && key in facts[k].coverage;
    k
  }
}
