/** The build as the program runs it, proved against its definition. */
module KnowledgeBuild {
  import opened Budget
  import opened Evidence
  import opened Knowledge

  /** The groups of parser facts, filled one fact at a time. */
  method GroupFacts(facts: map<FactId, Fact>) returns (grouped: map<Group, set<FactId>>)
    ensures forall g | g in grouped :: grouped[g] == Members(facts, g) && grouped[g] != {}
    ensures forall k | k in facts && IsParser(facts[k].extractor) :: GroupOf(facts[k]) in grouped
  {
    grouped := map[];
    var todo := facts.Keys;
    while todo != {}
      invariant todo <= facts.Keys
      invariant forall g | g in grouped :: grouped[g] == Members(facts, g) - todo && grouped[g] != {}
      invariant forall k | k in facts.Keys - todo && IsParser(facts[k].extractor) :: GroupOf(facts[k]) in grouped
      decreases todo
    {
      var k :| k in todo;
      if IsParser(facts[k].extractor) {
        var g := GroupOf(facts[k]);
        var before := if g in grouped then grouped[g] else {};
        assert g !in grouped ==> Members(facts, g) <= todo;
        grouped := grouped[g := before + {k}];
      }
      todo := todo - {k};
    }
  }

  lemma FewerThanTwo<T>(s: set<T>)
    ensures |s| < 2 <==> forall x, y | x in s && y in s :: x == y
  {
    if s != {} {
      var x :| x in s;
      assert s == {x} + (s - {x});
      if y :| y in s - {x} {
        assert {x, y} <= s;
        assert |{x, y} + (s - {x, y})| == 2 + |s - {x, y}|;
        assert s == {x, y} + (s - {x, y});
      } else {
        assert s == {x};
      }
    }
  }

  /** Fewer than two distinct value hashes is having no clash. */
  lemma HashesTellClash(facts: map<FactId, Fact>, g: Group)
    ensures |(set k | k in Members(facts, g) :: Sha256(facts[k].value))| < 2 <==> !Clash(facts, g)
  {
    var hashes := set k | k in Members(facts, g) :: Sha256(facts[k].value);
    FewerThanTwo(hashes);
    if Clash(facts, g) {
      var x, y :| x in Members(facts, g) && y in Members(facts, g) && facts[x].value != facts[y].value;
      assert Sha256(facts[x].value) in hashes && Sha256(facts[y].value) in hashes;
    }
  }

  /** The conflict of one group, if its facts clash. */
  method ConflictIn(facts: map<FactId, Fact>, g: Group, group: set<FactId>) returns (found: Option<Conflict>)
    requires group == Members(facts, g)
    ensures found == if Clash(facts, g) then Some(ConflictOf(facts, g)) else None
  {
    HashesTellClash(facts, g);
    if |(set k | k in group :: Sha256(facts[k].value))| < 2 {
      return None;
    }
    var evidenceIds := set k, e | k in group && e in facts[k].evidenceIds :: e;
    return Some(Conflict(ConflictId(g.subject, g.predicateName, group), evidenceIds));
  }

  ghost function MarkedBeyond(facts: map<FactId, Fact>, todo: set<Group>): set<FactId> {
    set k | k in facts && InClash(facts, k) && GroupOf(facts[k]) !in todo
  }

  ghost function ConflictsBeyond(facts: map<FactId, Fact>, todo: set<Group>): set<Conflict> {
    set k | k in facts && InClash(facts, k) && GroupOf(facts[k]) !in todo :: ConflictOf(facts, GroupOf(facts[k]))
  }

  lemma OneGroupMore(facts: map<FactId, Fact>, todo: set<Group>, g: Group)
    requires g in todo && Members(facts, g) != {}
    ensures MarkedBeyond(facts, todo - {g}) == MarkedBeyond(facts, todo) + if Clash(facts, g) then Members(facts, g)
      else {}
    ensures ConflictsBeyond(facts, todo - {g}) == ConflictsBeyond(facts, todo) + if Clash(facts, g)
      then {ConflictOf(facts, g)} else {}
  {
    if Clash(facts, g) {
      var k :| k in Members(facts, g);
      assert k in MarkedBeyond(facts, todo - {g});
      assert ConflictOf(facts, GroupOf(facts[k])) in ConflictsBeyond(facts, todo - {g});
    }
  }

  /** Conflict detection marks exactly the facts in a clash and reports exactly the clashing groups. */
  method DetectConflicts(facts: map<FactId, Fact>) returns (marked: map<FactId, Fact>, conflicts: set<Conflict>)
    ensures marked == Mark(facts) && conflicts == Conflicts(facts)
  {
    var grouped := GroupFacts(facts);
    var conflicting: set<FactId> := {};
    conflicts := {};
    var todo := grouped.Keys;
    assert MarkedBeyond(facts, todo) == {} && ConflictsBeyond(facts, todo) == {};
    while todo != {}
      invariant todo <= grouped.Keys
      invariant conflicting == MarkedBeyond(facts, todo) && conflicts == ConflictsBeyond(facts, todo)
      decreases todo
    {
      var g :| g in todo;
      var found := ConflictIn(facts, g, grouped[g]);
      OneGroupMore(facts, todo, g);
      if found.Some? {
        conflicting := conflicting + grouped[g];
        conflicts := conflicts + {found.value};
      }
      todo := todo - {g};
    }
    marked := map k | k in facts :: if k in conflicting then facts[k].(status := Conflicting) else facts[k];
  }

  // ---------------------------------------------------------------- the build

  /** The records of one request carry their excerpt's hash and the request's signature. */
  lemma {:induction false} RecordsAreOf(t: Text, s: Sources, items: seq<EvidenceItem>)
    ensures forall r | r in Records(t, s, items) :: RecordOk(t, r) && r.signature == s.signature
  {
    if items != [] {
      RecordsAreOf(t, s, items[..|items| - 1]);
      ValidIsPinned(items[|items| - 1], s.authorities);
    }
  }

  /** A record's excerpt has the recorded hash, and a repository record lies in the authorized revision. */
  predicate RecordOk(t: Text, r: Record) {
    && t.sha(r.excerpt) == r.id.excerptHash
    && (r.id.authority.sourceKind == "github" ==>
          "github://" + r.id.authority.bindingId + "@" + r.id.authority.sourceVersion + "/" <= r.id.locator)
  }

  /** A valid item's authority is one of those given, and it is current under it. */
  lemma {:induction false} ValidIsPinned(item: EvidenceItem, authorities: seq<Authority>)
    ensures var v := FirstMatch(item, authorities);
            v.Valid? ==> v.authority in authorities && Matches(item, v.authority) && Judge(item, v.authority).Valid?
  {
    if authorities != [] && !Matches(item, authorities[0]) {
      ValidIsPinned(item, authorities[1..]);
    }
  }

  lemma RequestAgrees(t: Text, s: Sources, items: seq<EvidenceItem>)
    requires CollisionFree(t)
    ensures RecordsAgree(Records(t, s, items))
  {
    RecordsAreOf(t, s, items);
  }

  /** One item more: a reason, or a record to store. */
  lemma OneItemMore(t: Text, req: Request, base: map<EvidenceId, Record>, i: nat)
    requires i < |req.items|
    ensures var v := ValidateSource(t, req.items[i], req.authorities);
            var before, after := req.items[..i], req.items[..i + 1];
            && (v.Invalid? ==>
                Records(t, SourcesOf(req), after) == Records(t, SourcesOf(req), before)
                && Reasons(t, SourcesOf(req), after) == Reasons(t, SourcesOf(req), before) + [v.reason])
            && (v.Valid? ==>
                  var r := RecordOf(req.items[i], v.authority, SignatureOf(req.action));
                  && Reasons(t, SourcesOf(req), after) == Reasons(t, SourcesOf(req), before)
                  && Ids(Records(t, SourcesOf(req), after)) == Ids(Records(t, SourcesOf(req), before)) + [r.id]
                  && StoreRecords(base, Records(t, SourcesOf(req), after)) == StoreRecords(base,
                      Records(t, SourcesOf(req), before))[r.id := r])
  {
    assert req.items[..i + 1][..i] == req.items[..i];
    var v := ValidateSource(t, req.items[i], req.authorities);
    if v.Valid? {
      var before := Records(t, SourcesOf(req), req.items[..i]);
      var r := RecordOf(req.items[i], v.authority, SignatureOf(req.action));
      assert Records(t, SourcesOf(req), req.items[..i + 1]) == before + [r];
      assert (before + [r])[..|before|] == before;
    }
  }

  method Collect(t: Text, req: Request, base: map<EvidenceId, Record>)
    returns (evidence: map<EvidenceId, Record>, validIds: seq<EvidenceId>, reasons: seq<Reason>)
    ensures evidence == StoreRecords(base, Records(t, SourcesOf(req), req.items))
    ensures validIds == Ids(Records(t, SourcesOf(req), req.items)) && reasons == Reasons(t, SourcesOf(req), req.items)
  {
    evidence, validIds, reasons := base, [], [];
    for i := 0 to |req.items|
      invariant evidence == StoreRecords(base, Records(t, SourcesOf(req), req.items[..i]))
      invariant validIds == Ids(Records(t, SourcesOf(req), req.items[..i]))
                && reasons == Reasons(t, SourcesOf(req), req.items[..i])
    {
      OneItemMore(t, req, base, i);
      var v := Scan(t, req.items[i], req.authorities);
      match v {
        case Invalid(reason) =>
          reasons := reasons + [reason];
        case Valid(authority) =>
          var record := RecordOf(req.items[i], authority, SignatureOf(req.action));
          evidence := evidence[record.id := record];
          validIds := validIds + [record.id];
      }
    }
    assert req.items[..|req.items|] == req.items;
  }

  /** Looking the valid ids up again gives the request's own records. */
  lemma ChosenAreRecords(base: map<EvidenceId, Record>, records: seq<Record>)
    requires RecordsAgree(records)
    ensures var m := StoreRecords(base, records);
            forall i | 0 <= i < |records| :: Ids(records)[i] in m && m[Ids(records)[i]] == records[i]
  {
    StoredRecords(base, records);
    assert forall i | 0 <= i < |records| :: records[i] in records;
  }

  method MergeFacts(base: map<FactId, Fact>, extracted: seq<Fact>) returns (facts: map<FactId, Fact>)
    ensures facts == StoreFacts(base, extracted)
  {
    facts := base;
    for i := 0 to |extracted|
      invariant facts == StoreFacts(base, extracted[..i])
    {
      assert extracted[..i + 1][..i] == extracted[..i];
      facts := facts[extracted[i].id := extracted[i]];
    }
    assert extracted[..|extracted|] == extracted;
  }

  method CoverTargets(c: Context, start: map<string, Status>, known: map<UnknownId, Unknown>, targets: seq<string>)
    returns (coverage: map<string, Status>, unknowns: map<UnknownId, Unknown>, updates: seq<Update>)
    ensures Coverage(coverage, unknowns, updates) == Cover(c, Coverage(start, known, []), targets)
  {
    coverage, unknowns, updates := start, known, [];
    for i := 0 to |targets|
      invariant Coverage(coverage, unknowns, updates) == Cover(c, Coverage(start, known, []), targets[..i])
    {
      assert targets[..i + 1][..i] == targets[..i];
      var key := targets[i];
      var before := Lookup(coverage, key);
      var supported, blocking := SupportedFor(c.facts, key), BlockingFor(c, key);
      var after, reason, newUnknowns := before, c.reason, [];
      if blocking != {} {
        after, reason := InConflict, OpenSourceConflict;
      } else if supported != {} {
        after, reason := Covered, SupportedFactsAvailable;
      } else {
        var unknown := UnknownFor(c, key);
        unknowns := unknowns[unknown.id := unknown];
        newUnknowns := [unknown.id];
      }
      coverage := coverage[key := after];
      updates := updates + [Update(key, before, after, supported, newUnknowns, blocking, reason)];
    }
    assert targets[..|targets|] == targets;
  }

  /** The build computes its definition. */
  method Build(t: Text, req: Request, prior: Option<Bundle>) returns (r: Outcome)
    requires CollisionFree(t)
    ensures r == Result(t, req, prior)
  {
    var known := Prior(prior);
    var evidence, validIds, reasons := Collect(t, req, known.evidence);
    ghost var records := Records(t, SourcesOf(req), req.items);
    RequestAgrees(t, SourcesOf(req), req.items);
    ChosenAreRecords(known.evidence, records);
    var chosen := seq(|validIds|, i requires 0 <= i < |validIds| && validIds[i] in evidence => evidence[validIds[i]]);
    assert chosen == records;
    if Fails(t, req.action, chosen) {
      return IndexFailure;
    }
    var facts := MergeFacts(known.facts, Extract(t, req.action, chosen));
    var marked, conflicts := DetectConflicts(facts);
    var reason := if reasons != [] then reasons[0] else if req.items == [] then EmptyResult else UnsupportedEvidence;
    var c := Context(marked, conflicts, req.header.needPlan, Question(t, req.action), reason, SignatureOf(req.action),
                     multiset(validIds));
    var coverage, unknowns, updates := CoverTargets(c, req.coverage, known.unknowns, req.action.targets);
    return Package(req.header, Content(evidence, marked, unknowns, conflicts), Coverage(coverage, unknowns, updates),
                   prior);
  }
}
