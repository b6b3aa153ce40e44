/** Draft bundles: their units, their claims, and revisions that reopen only some units. */
module Draft {
  import opened Budget
  import opened Strings

  // ---------------------------------------------------------------- data

  datatype ClaimType = UserRequirement | CurrentStateClaim | ConstraintClaim | ProposedBehavior | AcceptanceCriterion
      | AssumptionClaim
  datatype Criticality = Blocking | Important | Informational

  /** The identifier is a digest of run, generation, unit, type and statement. */
  datatype ClaimId = ClaimId(runId: string, generation: int, unitKey: string, claimType: ClaimType, statement: string)
  datatype Claim = Claim(id: ClaimId, unitKey: string, claimType: ClaimType, criticality: Criticality,
                         statement: string,
                         evidenceRefs: seq<string>)

  datatype DraftUnit = DraftUnit(key: string, title: string, markdown: string, order: int, dependsOn: seq<string>)
  datatype DraftUnknown = DraftUnknown(claim: ClaimId, unitKey: string, statement: string)
  datatype DraftBundle = DraftBundle(generation: int, units: seq<DraftUnit>, claims: seq<Claim>,
                                     unknowns: seq<DraftUnknown>)

  datatype Result<T> = Ok(value: T) | Err

  /** A unit as the model or an earlier draft gives it; the order may be absent. */
  datatype RawUnit = NotAnObject
      | RawUnit(key: string, title: string, markdown: string, order: Option<int>, dependsOn: seq<string>)

  // ---------------------------------------------------------------- units

  function KeyOf(digest: string -> string, raw: RawUnit): string
    requires raw.RawUnit?
  {
    UnitKey(digest, if raw.key != "" then raw.key else Strip(raw.title))
  }

  function UnitOf(digest: string -> string, raw: RawUnit, index: nat): DraftUnit
    requires raw.RawUnit?
  {
    DraftUnit(KeyOf(digest, raw), Strip(raw.title), Strip(raw.markdown),
              if raw.order.Some? then raw.order.value else (index + 1) * 10, raw.dependsOn)
  }

  predicate RawOk(raw: RawUnit) {
    raw.RawUnit? && Strip(raw.title) != "" && Strip(raw.markdown) != ""
  }

  function UnitsOf(digest: string -> string, raws: seq<RawUnit>): seq<DraftUnit>
    requires forall i | 0 <= i < |raws| :: raws[i].RawUnit?
  {
    seq(|raws|, i requires 0 <= i < |raws| => UnitOf(digest, raws[i], i))
  }

  predicate DistinctKeys(units: seq<DraftUnit>) {
    forall i, j | 0 <= i < j < |units| :: units[i].key != units[j].key
  }

  /** Insertion behind every unit of no greater order, which keeps the sort stable. */
  function Insert(units: seq<DraftUnit>, u: DraftUnit): seq<DraftUnit> {
    if units == [] || units[|units| - 1].order <= u.order then units + [u]
    else Insert(units[..|units| - 1], u) + [units[|units| - 1]]
  }

  function SortByOrder(units: seq<DraftUnit>): seq<DraftUnit> {
    if units == [] then [] else Insert(SortByOrder(units[..|units| - 1]), units[|units| - 1])
  }

  predicate Ordered(units: seq<DraftUnit>) {
    forall i, j | 0 <= i < j < |units| :: units[i].order <= units[j].order
  }

  lemma {:induction false} InsertBound(units: seq<DraftUnit>, u: DraftUnit, bound: int)
    requires u.order <= bound && forall i | 0 <= i < |units| :: units[i].order <= bound
    ensures forall i | 0 <= i < |Insert(units, u)| :: Insert(units, u)[i].order <= bound
  {
    if units != [] && units[|units| - 1].order > u.order {
      InsertBound(units[..|units| - 1], u, bound);
    }
  }

  lemma {:induction false} InsertOrders(units: seq<DraftUnit>, u: DraftUnit)
    requires Ordered(units)
    ensures Ordered(Insert(units, u))
  {
    if units != [] && units[|units| - 1].order > u.order {
      InsertOrders(units[..|units| - 1], u);
      InsertBound(units[..|units| - 1], u, units[|units| - 1].order);
    }
  }

  lemma {:induction false} InsertKeeps(units: seq<DraftUnit>, u: DraftUnit)
    ensures multiset(Insert(units, u)) == multiset(units) + multiset{u}
  {
    if units != [] && units[|units| - 1].order > u.order {
      InsertKeeps(units[..|units| - 1], u);
      assert units == units[..|units| - 1] + [units[|units| - 1]];
    }
  }

  /** Sorting orders the units. */
  lemma {:induction false} SortOrders(units: seq<DraftUnit>)
    ensures Ordered(SortByOrder(units))
  {
    if units != [] {
      SortOrders(units[..|units| - 1]);
      InsertOrders(SortByOrder(units[..|units| - 1]), units[|units| - 1]);
    }
  }

  /** It keeps them all. */
  lemma {:induction false} SortKeeps(units: seq<DraftUnit>)
    ensures multiset(SortByOrder(units)) == multiset(units)
  {
    if units != [] {
      SortKeeps(units[..|units| - 1]);
      InsertKeeps(SortByOrder(units[..|units| - 1]), units[|units| - 1]);
      assert units == units[..|units| - 1] + [units[|units| - 1]];
    }
  }

  lemma SortedFrom(units: seq<DraftUnit>, i: nat) returns (j: nat)
    requires i < |SortByOrder(units)|
    ensures j < |units| && units[j] == SortByOrder(units)[i]
  {
    SortKeeps(units);
    var u := SortByOrder(units)[i];
    assert u in multiset(SortByOrder(units));
    assert u in multiset(units);
    j :| 0 <= j < |units| && units[j] == u;
  }

  /** The units of one order, in sequence. */
  function OfOrder(units: seq<DraftUnit>, order: int): seq<DraftUnit> {
    if units == [] then []
    else
      var last := units[|units| - 1];
      OfOrder(units[..|units| - 1], order) + if last.order == order then [last] else []
  }

  lemma OfOrderSnoc(units: seq<DraftUnit>, u: DraftUnit, order: int)
    ensures OfOrder(units + [u], order) == OfOrder(units, order) + if u.order == order then [u] else []
  {
    assert (units + [u])[..|units|] == units;
  }

  lemma {:induction false} InsertIsStable(units: seq<DraftUnit>, u: DraftUnit, order: int)
    ensures OfOrder(Insert(units, u), order) == OfOrder(units, order) + if u.order == order then [u] else []
  {
    if units == [] || units[|units| - 1].order <= u.order {
      OfOrderSnoc(units, u, order);
    } else {
      var front, last := units[..|units| - 1], units[|units| - 1];
      InsertIsStable(front, u, order);
      OfOrderSnoc(Insert(front, u), last, order);
    }
  }

  /** The sort is stable: units of the same order stay in their sequence. */
  lemma {:induction false} SortIsStable(units: seq<DraftUnit>, order: int)
    ensures OfOrder(SortByOrder(units), order) == OfOrder(units, order)
  {
    if units != [] {
      var front, last := units[..|units| - 1], units[|units| - 1];
      SortIsStable(front, order);
      InsertIsStable(SortByOrder(front), last, order);
    }
  }

  /** Ordered units stay where they are. */
  lemma {:induction false} OrderedIsFixed(units: seq<DraftUnit>)
    requires Ordered(units)
    ensures SortByOrder(units) == units
  {
    if units != [] {
      var front, last := units[..|units| - 1], units[|units| - 1];
      OrderedIsFixed(front);
      assert front != [] ==> front[|front| - 1] == units[|units| - 2];
      assert Insert(front, last) == front + [last] == units;
    }
  }

  /** All raw units are objects with title and content, and their normal keys differ. */
  predicate RawsOk(digest: string -> string, raws: seq<RawUnit>) {
    && (forall i | 0 <= i < |raws| :: RawOk(raws[i]))
    && (forall i, j | 0 <= i < j < |raws| :: KeyOf(digest, raws[i]) != KeyOf(digest, raws[j]))
  }

  /** The units of the first raw units. */
  predicate Parsed(digest: string -> string, raws: seq<RawUnit>, units: seq<DraftUnit>, n: nat) {
    n == |units| <= |raws| && forall k | 0 <= k < n :: raws[k].RawUnit? && units[k] == UnitOf(digest, raws[k], k)
  }

  lemma ParsedAll(digest: string -> string, raws: seq<RawUnit>, units: seq<DraftUnit>)
    requires RawsOk(digest, raws) && Parsed(digest, raws, units, |raws|)
    ensures units == UnitsOf(digest, raws)
  {
  }

  /** One raw unit more. */
  lemma RawsSnoc(digest: string -> string, raws: seq<RawUnit>, i: nat, units: seq<DraftUnit>, seen: set<string>)
    requires i < |raws| && RawsOk(digest, raws[..i]) && Parsed(digest, raws, units, i)
    requires forall key :: key in seen <==> exists k :: 0 <= k < i && units[k].key == key
    ensures RawsOk(digest, raws[..i + 1]) <==> RawOk(raws[i]) && KeyOf(digest, raws[i]) !in seen
    ensures RawsOk(digest, raws) ==> RawsOk(digest, raws[..i + 1])
  {
    var prefix := raws[..i + 1];
    assert prefix == raws[..i] + [raws[i]];
    if RawsOk(digest, prefix) {
      assert prefix[i] == raws[i];
      forall k | 0 <= k < i ensures KeyOf(digest, raws[k]) != KeyOf(digest, raws[i]) {
        assert prefix[k] == raws[k];
      }
    }
  }

  /** The units in the order they are given, or an error. */
  method CollectUnits(digest: string -> string, raws: seq<RawUnit>) returns (ok: bool, units: seq<DraftUnit>)
    ensures ok <==> RawsOk(digest, raws)
    ensures ok ==> Parsed(digest, raws, units, |raws|)
  {
    units := [];
    var seen := {};
    for i := 0 to |raws|
      invariant RawsOk(digest, raws[..i]) && Parsed(digest, raws, units, i)
      invariant forall key :: key in seen <==> exists k :: 0 <= k < i && units[k].key == key
    {
      RawsSnoc(digest, raws, i, units, seen);
      if !raws[i].RawUnit? || Strip(raws[i].title) == "" || Strip(raws[i].markdown) == ""
         || KeyOf(digest, raws[i]) in seen {
        return false, [];
      }
      seen := seen + {KeyOf(digest, raws[i])};
      units := ParseNext(digest, raws, units, i);
    }
    assert raws[..|raws|] == raws;
    return true, units;
  }

  method ParseNext(digest: string -> string, raws: seq<RawUnit>, units: seq<DraftUnit>, i: nat)
    returns (next: seq<DraftUnit>)
    requires i < |raws| && raws[i].RawUnit? && Parsed(digest, raws, units, i)
    ensures Parsed(digest, raws, next, i + 1) && next[..i] == units && next[i].key == KeyOf(digest, raws[i])
  {
    next := units + [UnitOf(digest, raws[i], i)];
  }

  /** Structured units are accepted exactly when they are well formed. */
  method ParseUnits(digest: string -> string, raws: seq<RawUnit>) returns (r: Result<seq<DraftUnit>>)
    ensures r.Ok? <==> RawsOk(digest, raws)
    ensures r.Ok? ==> r.value == SortByOrder(UnitsOf(digest, raws))
  {
    var ok, units := CollectUnits(digest, raws);
    if !ok {
      return Err;
    }
    ParsedAll(digest, raws, units);
    return Ok(SortByOrder(units));
  }

  lemma TenApart(units: seq<DraftUnit>)
    requires forall i | 0 <= i < |units| :: units[i].order == 10 + 10 * i
    ensures SortByOrder(units) == units
  {
    OrderedIsFixed(units);
  }

  /** Units that name no order come in the order they are given, ten apart from ten on. */
  lemma UnorderedUnitsStay(digest: string -> string, raws: seq<RawUnit>)
    requires forall i | 0 <= i < |raws| :: raws[i].RawUnit? && raws[i].order == None
    ensures var units := SortByOrder(UnitsOf(digest, raws));
            |units| == |raws| && units == UnitsOf(digest, raws)
                && forall i | 0 <= i < |raws| :: units[i].order == 10 + 10 * i
  {
    var units := UnitsOf(digest, raws);
    forall i | 0 <= i < |units| ensures units[i].order == 10 + 10 * i {
      assert units[i] == UnitOf(digest, raws[i], i);
    }
    TenApart(units);
  }

  // ---------------------------------------------------------------- bundles

  function DefaultClaims(runId: string, generation: int, units: seq<DraftUnit>): seq<Claim> {
    seq(|units|, i requires 0 <= i < |units| =>
      Claim(ClaimId(runId, generation, units[i].key, ProposedBehavior, Strip(units[i].title)), units[i].key,
          ProposedBehavior, Important, units[i].title, []))
  }

  const UNKNOWNS_KEY := "unknowns"

  function LastOrder(units: seq<DraftUnit>): int {
    if units == [] then 0
    else if |units| == 1 then units[0].order
    else Max(LastOrder(units[..|units| - 1]), units[|units| - 1].order)
  }

  lemma {:induction false} LastOrderBounds(units: seq<DraftUnit>)
    ensures forall i | 0 <= i < |units| :: units[i].order <= LastOrder(units)
  {
    if |units| > 1 {
      LastOrderBounds(units[..|units| - 1]);
    }
  }

  /** Unknowns become one more unit behind all others, whose text is the given appendix. */
  function WithUnknowns(b: DraftBundle, unknowns: seq<DraftUnknown>,
                        appendix: seq<DraftUnknown> -> string): DraftBundle
  {
    if unknowns == [] then b
    else
      b.(units :=
         b.units + [DraftUnit(UNKNOWNS_KEY, UNKNOWNS_TITLE, Strip(appendix(unknowns)), LastOrder(b.units) + 10, [])],
         unknowns := unknowns)
  }

  const UNKNOWNS_TITLE := "待确认与未知项"

  // ---------------------------------------------------------------- scoped revisions

  datatype RevisionScope = RevisionScope(reopened: set<string>, immutable: set<string>, feedback: string)

  function OrderOf(raw: RawUnit): int
    requires raw.RawUnit?
  {
    if raw.order.Some? then raw.order.value else 0
  }

  /** The markdown of a reopened unit: the candidate's if it has the unit, with the user's feedback added once. */
  function Revised(raw: RawUnit, scope: RevisionScope, candidates: map<string, DraftUnit>): RawUnit
    requires raw.RawUnit?
  {
    var placed := raw.(order := Some(OrderOf(raw)));
    if raw.key !in scope.reopened then placed
    else
      var chosen := if raw.key in candidates then placed.(title := candidates[raw.key].title,
          markdown := candidates[raw.key].markdown) else placed;
      var feedback := Strip(scope.feedback);
      if feedback != "" && !Within(feedback, chosen.markdown)
      then chosen.(markdown := TrimRight(chosen.markdown, IsSpace) + "\n\n修订反馈：" + feedback)
      else chosen
  }

  predicate BaseOk(base: seq<RawUnit>) {
    && (forall i | 0 <= i < |base| :: base[i].RawUnit? && base[i].key != "")
    && (forall i, j | 0 <= i < j < |base| :: base[i].key != base[j].key)
  }

  function MergedUnits(base: seq<RawUnit>, scope: RevisionScope, candidates: map<string, DraftUnit>): seq<RawUnit>
    requires BaseOk(base)
  {
    seq(|base|, i requires 0 <= i < |base| => Revised(base[i], scope, candidates))
  }

  predicate HasKey(base: seq<RawUnit>, key: string) {
    exists i | 0 <= i < |base| :: base[i].RawUnit? && base[i].key == key
  }

  predicate ScopeOk(scope: RevisionScope) {
    scope.reopened != {} && scope.reopened !! scope.immutable
  }

  /** The merge of a base draft with a candidate: it keeps every base unit and fails on an inconsistent scope or
      base. */
  method MergeUnits(base: seq<RawUnit>, scope: RevisionScope, candidates: map<string, DraftUnit>)
    returns (r: Result<seq<RawUnit>>)
    ensures r.Ok? <==> ScopeOk(scope) && BaseOk(base) && forall key | key in scope.reopened :: HasKey(base, key)
    ensures r.Ok? ==> r.value == MergedUnits(base, scope, candidates)
  {
    if scope.reopened == {} || !(scope.reopened !! scope.immutable) {
      return Err;
    }
    var merged, seen := [], {};
    for i := 0 to |base|
      invariant |merged| == i && BaseOk(base[..i]) && forall k | 0 <= k < i ::
                base[k].RawUnit?
                && merged[k] == Revised(base[k], scope, candidates)
      invariant forall key :: key in seen <==> HasKey(base[..i], key)
    {
      var raw := base[i];
      if raw.NotAnObject? || raw.key == "" || raw.key in seen {
        assert raw.RawUnit? && raw.key in seen ==> exists k :: 0 <= k < i && base[k].key == raw.key;
        return Err;
      }
      seen := seen + {raw.key};
      merged := merged + [Revised(raw, scope, candidates)];
      assert base[..i + 1] == base[..i] + [raw];
    }
    assert base[..|base|] == base;
    assert forall key | key in scope.reopened :: key in seen <==> HasKey(base, key);
    if !(scope.reopened <= seen) {
      return Err;
    }
    assert merged == MergedUnits(base, scope, candidates);
    return Ok(merged);
  }

  /** The units of a revision. */
  function RevisedUnits(digest: string -> string, base: seq<RawUnit>, scope: RevisionScope, candidates: map<string,
      DraftUnit>): seq<DraftUnit>
    requires BaseOk(base)
  {
    SortByOrder(UnitsOf(digest, MergedUnits(base, scope, candidates)))
  }

  function ByKey(units: seq<DraftUnit>): map<string, DraftUnit> {
    if units == [] then map[] else ByKey(units[..|units| - 1])[units[|units| - 1].key := units[|units| - 1]]
  }

  /** A run either drafts freely or revises the confirmation units of an earlier draft, if that has any. */
  datatype Revision = Unscoped | Scoped(scope: RevisionScope, base: Option<seq<RawUnit>>)

  /** When a scoped revision succeeds. */
  predicate Revisable(digest: string -> string, rev: Revision, candidates: map<string, DraftUnit>)
    requires rev.Scoped?
  {
    && rev.base.Some? && ScopeOk(rev.scope) && BaseOk(rev.base.value)
    && (forall key | key in rev.scope.reopened :: HasKey(rev.base.value, key))
    && RawsOk(digest, MergedUnits(rev.base.value, rev.scope, candidates))
  }

  /** A scoped revision takes its units from the base, and its claims from the units alone. */
  method ApplyRevisionScope(digest: string -> string, runId: string, rev: Revision, candidate: DraftBundle)
    returns (r: Result<DraftBundle>)
    ensures rev.Unscoped? ==> r == Ok(candidate)
    ensures rev.Scoped? ==> (r.Ok? <==> Revisable(digest, rev, ByKey(candidate.units)))
    ensures rev.Scoped? && r.Ok? ==>
              var units := RevisedUnits(digest, rev.base.value, rev.scope, ByKey(candidate.units));
              r.value == DraftBundle(candidate.generation, units, DefaultClaims(runId, candidate.generation, units), [])
  {
    if rev.Unscoped? {
      return Ok(candidate);
    }
    if rev.base.None? {
      return Err;
    }
    var merged := MergeUnits(rev.base.value, rev.scope, ByKey(candidate.units));
    if merged.Err? {
      return Err;
    }
    var units := ParseUnits(digest, merged.value);
    if units.Err? {
      return Err;
    }
    return Ok(DraftBundle(candidate.generation, units.value, DefaultClaims(runId, candidate.generation, units.value),
                          []));
  }

  // ---------------------------------------------------------------- drafts

  /** A claim as the model gives it; its type and its criticality may be none that is known. */
  datatype RawClaim =
    | NoClaimObject
    | RawClaim(unitKey: string, claimType: Option<ClaimType>, criticality: Option<Criticality>, statement: string,
               evidenceRefs: seq<string>)

  /** What a draft is built from: structured units, or else the units its markdown splits into, and structured claims
      if any. */
  datatype Material = Material(raws: seq<RawUnit>, plain: seq<DraftUnit>, claims: Option<seq<RawClaim>>)

  predicate Typed(raw: RawClaim) {
    raw.RawClaim? && raw.claimType.Some? && raw.criticality.Some?
  }

  function ClaimOf(digest: string -> string, runId: string, generation: int, raw: RawClaim): Claim
    requires Typed(raw)
  {
    var key, claimType, statement := UnitKey(digest, raw.unitKey), raw.claimType.value, Strip(raw.statement);
    Claim(ClaimId(runId, generation, key, claimType, statement), key, claimType, raw.criticality.value, statement,
          raw.evidenceRefs)
  }

  predicate HasUnit(units: seq<DraftUnit>, key: string) {
    exists i | 0 <= i < |units| :: units[i].key == key
  }

  predicate RawClaimOk(digest: string -> string, units: seq<DraftUnit>, raw: RawClaim) {
    Typed(raw) && HasUnit(units, UnitKey(digest, raw.unitKey)) && Strip(raw.statement) != ""
  }

  function ClaimsOf(digest: string -> string, runId: string, generation: int, raws: seq<RawClaim>): seq<Claim>
    requires forall i | 0 <= i < |raws| :: Typed(raws[i])
  {
    seq(|raws|, i requires 0 <= i < |raws| && Typed(raws[i]) => ClaimOf(digest, runId, generation, raws[i]))
  }

  /** Structured claims are accepted exactly when each is an object of known type and criticality, names a unit and
      states something. */
  method ParseClaims(digest: string -> string, runId: string, generation: int, units: seq<DraftUnit>,
                     raws: seq<RawClaim>)
    returns (r: Result<seq<Claim>>)
    ensures r.Ok? <==> forall i | 0 <= i < |raws| :: RawClaimOk(digest, units, raws[i])
    ensures r.Ok? ==> r.value == ClaimsOf(digest, runId, generation, raws)
  {
    var claims, known := [], set u | u in units :: u.key;
    for i := 0 to |raws|
      invariant |claims| == i
      invariant forall k | 0 <= k < i ::
                  RawClaimOk(digest, units, raws[k]) && claims[k] == ClaimOf(digest, runId, generation, raws[k])
    {
      if !Typed(raws[i]) || UnitKey(digest, raws[i].unitKey) !in known || Strip(raws[i].statement) == "" {
        return Err;
      }
      claims := claims + [ClaimOf(digest, runId, generation, raws[i])];
    }
    assert claims == ClaimsOf(digest, runId, generation, raws);
    return Ok(claims);
  }

  predicate MaterialOk(digest: string -> string, d: Material) {
    && (d.raws != [] ==> RawsOk(digest, d.raws))
    && (d.claims.Some? ==>
        forall i | 0 <= i < |d.claims.value| :: RawClaimOk(digest, UnitsFrom(digest, d), d.claims.value[i]))
  }

  function UnitsFrom(digest: string -> string, d: Material): seq<DraftUnit>
    requires d.raws != [] ==> RawsOk(digest, d.raws)
  {
    if d.raws != [] then SortByOrder(UnitsOf(digest, d.raws)) else d.plain
  }

  function CandidateFrom(digest: string -> string, runId: string, generation: int, d: Material): DraftBundle
    requires MaterialOk(digest, d)
  {
    var units := UnitsFrom(digest, d);
    DraftBundle(generation, units,
                if d.claims.Some? then ClaimsOf(digest, runId, generation, d.claims.value)
                else DefaultClaims(runId, generation, units), [])
  }

  /** When a draft can be built. */
  predicate Draftable(digest: string -> string, rev: Revision, d: Material) {
    MaterialOk(digest, d) && (rev.Scoped? ==> Revisable(digest, rev, ByKey(UnitsFrom(digest, d))))
  }

  /** The draft: the candidate, or the revision of the base it leads to. */
  function DraftFrom(digest: string -> string, runId: string, rev: Revision, generation: int, d: Material): DraftBundle
    requires Draftable(digest, rev, d)
  {
    var candidate := CandidateFrom(digest, runId, generation, d);
    if rev.Unscoped? then candidate
    else
      var units := RevisedUnits(digest, rev.base.value, rev.scope, ByKey(candidate.units));
      DraftBundle(generation, units, DefaultClaims(runId, generation, units), [])
  }

  /** The draft as the draft node builds it. */
  method BuildDraft(digest: string -> string, runId: string, rev: Revision, generation: int, d: Material)
    returns (r: Result<DraftBundle>)
    ensures r.Ok? <==> Draftable(digest, rev, d)
    ensures r.Ok? ==> r.value == DraftFrom(digest, runId, rev, generation, d)
  {
    var units := d.plain;
    if d.raws != [] {
      var parsed := ParseUnits(digest, d.raws);
      if parsed.Err? {
        return Err;
      }
      units := parsed.value;
    }
    var claims := DefaultClaims(runId, generation, units);
    if d.claims.Some? {
      var parsed := ParseClaims(digest, runId, generation, units, d.claims.value);
      if parsed.Err? {
        return Err;
      }
      claims := parsed.value;
    }
    r := ApplyRevisionScope(digest, runId, rev, DraftBundle(generation, units, claims, []));
  }

  // ---------------------------------------------------------------- the frame of a revision

  /** What a revision leaves of each base unit: key, order and dependencies always, the rest unless it was reopened. */
  lemma MergedUnitAt(digest: string -> string, base: seq<RawUnit>, scope: RevisionScope,
                     candidates: map<string, DraftUnit>, i: nat)
    requires BaseOk(base) && i < |base|
    ensures var u := UnitsOf(digest, MergedUnits(base, scope, candidates))[i];
            && u.key == UnitKey(digest, base[i].key) && u.order == OrderOf(base[i]) && u.dependsOn == base[i].dependsOn
            && (base[i].key !in scope.reopened ==>
                u.title == Strip(base[i].title) && u.markdown == Strip(base[i].markdown))
  {
  }

  ghost predicate KeysKept(base: seq<RawUnit>, units: seq<DraftUnit>)
    requires BaseOk(base)
  {
    |units| == |base| && forall i | 0 <= i < |base| :: units[i].key == base[i].key
  }

  /** The base keys are normal and its orders do not fall: what earlier builds leave. */
  ghost predicate BaseNormal(base: seq<RawUnit>)
    requires BaseOk(base)
  {
    && (forall i | 0 <= i < |base| :: NormalKey(base[i].key))
    && (forall i, j | 0 <= i < j < |base| :: OrderOf(base[i]) <= OrderOf(base[j]))
  }

  lemma NormalBaseIsKept(digest: string -> string, base: seq<RawUnit>, scope: RevisionScope,
                         candidates: map<string, DraftUnit>)
    requires BaseOk(base) && BaseNormal(base)
    ensures RevisedUnits(digest, base, scope, candidates) == UnitsOf(digest, MergedUnits(base, scope, candidates))
    ensures KeysKept(base, RevisedUnits(digest, base, scope, candidates))
  {
    var units := UnitsOf(digest, MergedUnits(base, scope, candidates));
    forall i | 0 <= i < |base| ensures units[i].key == base[i].key && units[i].order == OrderOf(base[i]) {
      MergedUnitAt(digest, base, scope, candidates, i);
      NormalKeyIsFixed(digest, base[i].key);
    }
    OrderedIsFixed(units);
  }

  /** If the keys are kept, each sorted unit is the one of the same base unit. */
  lemma KeptUnitIsOwn(digest: string -> string, base: seq<RawUnit>, scope: RevisionScope,
                      candidates: map<string, DraftUnit>, i: nat)
    requires Hexadecimal(digest) && BaseOk(base) && i < |base|
    requires RawsOk(digest, MergedUnits(base, scope, candidates))
             && KeysKept(base, RevisedUnits(digest, base, scope, candidates))
    ensures NormalKey(base[i].key)
  {
    var units := UnitsOf(digest, MergedUnits(base, scope, candidates));
    var j := SortedFrom(units, i);
    MergedUnitAt(digest, base, scope, candidates, j);
    UnitKeyIsNormal(digest, base[j].key);
  }

  lemma KeptUnitsAreOwn(digest: string -> string, base: seq<RawUnit>, scope: RevisionScope,
                        candidates: map<string, DraftUnit>, i: nat)
    requires BaseOk(base) && i < |base| && forall k | 0 <= k < |base| :: NormalKey(base[k].key)
    requires KeysKept(base, RevisedUnits(digest, base, scope, candidates))
    ensures RevisedUnits(digest, base, scope, candidates)[i].order == OrderOf(base[i])
  {
    var units := UnitsOf(digest, MergedUnits(base, scope, candidates));
    var j := SortedFrom(units, i);
    MergedUnitAt(digest, base, scope, candidates, j);
    NormalKeyIsFixed(digest, base[j].key);
    assert base[i].key == base[j].key && i == j;
  }

  /** A successful revision keeps the base keys in the base order if and only if the base keys are normal and its
      orders do not fall. */
  lemma RevisionKeepsKeysIff(digest: string -> string, base: seq<RawUnit>, scope: RevisionScope,
                             candidates: map<string, DraftUnit>)
    requires Hexadecimal(digest) && BaseOk(base) && RawsOk(digest, MergedUnits(base, scope, candidates))
    ensures KeysKept(base, RevisedUnits(digest, base, scope, candidates)) <==> BaseNormal(base)
  {
    if BaseNormal(base) {
      NormalBaseIsKept(digest, base, scope, candidates);
    }
    if KeysKept(base, RevisedUnits(digest, base, scope, candidates)) {
      forall i | 0 <= i < |base| ensures NormalKey(base[i].key) {
        KeptUnitIsOwn(digest, base, scope, candidates, i);
      }
      forall i | 0 <= i < |base| ensures RevisedUnits(digest, base, scope, candidates)[i].order == OrderOf(base[i]) {
        KeptUnitsAreOwn(digest, base, scope, candidates, i);
      }
      SortOrders(UnitsOf(digest, MergedUnits(base, scope, candidates)));
    }
  }

  // ---------------------------------------------------------------- revisions of built drafts

  predicate UnitBuilt(u: DraftUnit) {
    NormalKey(u.key) && Trimmed(u.title, IsSpace) && Trimmed(u.markdown, IsSpace)
  }

  ghost predicate WellBuilt(units: seq<DraftUnit>) {
    (forall i | 0 <= i < |units| :: UnitBuilt(units[i])) && Ordered(units)
  }

  lemma UnitOfIsBuilt(digest: string -> string, raw: RawUnit, index: nat)
    requires Hexadecimal(digest) && raw.RawUnit?
    ensures UnitBuilt(UnitOf(digest, raw, index))
  {
    UnitKeyIsNormal(digest, if raw.key != "" then raw.key else Strip(raw.title));
    TrimTrims(raw.title, IsSpace);
    TrimTrims(raw.markdown, IsSpace);
  }

  /** Every build leaves normal keys, trimmed text and ordered units. */
  lemma BuildIsWellBuilt(digest: string -> string, raws: seq<RawUnit>)
    requires Hexadecimal(digest) && RawsOk(digest, raws)
    ensures WellBuilt(SortByOrder(UnitsOf(digest, raws)))
  {
    var units := UnitsOf(digest, raws);
    SortOrders(units);
    forall i | 0 <= i < |SortByOrder(units)| ensures UnitBuilt(SortByOrder(units)[i]) {
      var j := SortedFrom(units, i);
      UnitOfIsBuilt(digest, raws[j], j);
    }
  }

  /** So does adding the unit of unknowns. */
  lemma UnknownsKeepWellBuilt(b: DraftBundle, unknowns: seq<DraftUnknown>, appendix: seq<DraftUnknown> -> string)
    requires WellBuilt(b.units)
    ensures WellBuilt(WithUnknowns(b, unknowns, appendix).units)
  {
    LastOrderBounds(b.units);
    TrimTrims(appendix(unknowns), IsSpace);
    assert NormalKey(UNKNOWNS_KEY);
    assert !IsSpace(UNKNOWNS_TITLE[0]) && !IsSpace(UNKNOWNS_TITLE[|UNKNOWNS_TITLE| - 1]);
  }

  function AsBase(units: seq<DraftUnit>): seq<RawUnit> {
    seq(|units|, i requires 0 <= i < |units| => RawUnit(units[i].key, units[i].title, units[i].markdown,
        Some(units[i].order), units[i].dependsOn))
  }

  /** The frame: revising a built draft keeps all keys in order, and leaves every unit that was not reopened exactly
      as it was. */
  lemma ScopedRevisionFrame(digest: string -> string, units: seq<DraftUnit>, scope: RevisionScope,
                            candidates: map<string,
      DraftUnit>, i: nat)
    requires WellBuilt(units) && DistinctKeys(units) && i < |units|
    ensures BaseOk(AsBase(units))
    ensures var revised := RevisedUnits(digest, AsBase(units), scope, candidates);
            && |revised| == |units| && revised[i].key == units[i].key && revised[i].order == units[i].order
                && revised[i].dependsOn == units[i].dependsOn
            && (units[i].key !in scope.reopened ==> revised[i] == units[i])
  {
    var base := AsBase(units);
    NormalBaseIsKept(digest, base, scope, candidates);
    MergedUnitAt(digest, base, scope, candidates, i);
    TrimmedIsFixed(units[i].title, IsSpace);
    TrimmedIsFixed(units[i].markdown, IsSpace);
  }

  /** A text followed by another contains it. */
  lemma EndsWithin(before: string, part: string)
    ensures Within(part, before + part)
  {
    var text := before + part;
    assert text[|before|..|text|] == part;
  }

  /** The user's feedback stands in every reopened unit as it is merged. */
  lemma FeedbackIsMerged(digest: string -> string, base: seq<RawUnit>, scope: RevisionScope,
                         candidates: map<string, DraftUnit>, i: nat)
    requires BaseOk(base) && i < |base| && base[i].key in scope.reopened && Strip(scope.feedback) != ""
    ensures Within(Strip(scope.feedback), UnitsOf(digest, MergedUnits(base, scope, candidates))[i].markdown)
  {
    var feedback, raw := Strip(scope.feedback), Revised(base[i], scope, candidates);
    var chosen := if base[i].key in candidates then candidates[base[i].key].markdown else base[i].markdown;
    if !Within(feedback, chosen) {
      EndsWithin(TrimRight(chosen, IsSpace) + "\n\n修订反馈：", feedback);
    }
    TrimTrims(scope.feedback, IsSpace);
    TrimKeepsWithin(feedback, raw.markdown, IsSpace);
  }

  lemma SortedMembers(units: seq<DraftUnit>)
    ensures forall u :: u in SortByOrder(units) <==> u in units
  {
    SortKeeps(units);
    forall u ensures u in SortByOrder(units) <==> u in units {
      assert u in multiset(SortByOrder(units)) <==> u in multiset(units);
    }
  }

  lemma OneUnitPerKey(digest: string -> string, raws: seq<RawUnit>, i: nat, j: nat)
    requires RawsOk(digest, raws) && i < |raws| && j < |raws|
    requires UnitOf(digest, raws[i], i).key == UnitOf(digest, raws[j], j).key
    ensures i == j
  {
    assert KeyOf(digest, raws[j]) == KeyOf(digest, raws[i]);
  }

  /** The text of a reopened unit: with the user's feedback added, unless there is none or it is there already. */
  function WithFeedback(markdown: string, feedback: string): string {
    if feedback == "" || Within(feedback, markdown) then markdown
    else TrimRight(markdown, IsSpace) + "\n\n修订反馈：" + feedback
  }

  /** The unit of a revision that stems from a base unit: it keeps order and dependencies; reopened, it takes title and
      text of the candidate's unit of that key, if there is one, and the user's feedback; else it is the base unit. */
  lemma RevisedUnitIs(digest: string -> string, base: seq<RawUnit>, scope: RevisionScope,
                      candidates: map<string, DraftUnit>, i: nat, u: DraftUnit)
    requires BaseOk(base) && RawsOk(digest, MergedUnits(base, scope, candidates)) && i < |base|
    requires u in RevisedUnits(digest, base, scope, candidates) && u.key == UnitKey(digest, base[i].key)
    ensures var key, taken := base[i].key, base[i].key in scope.reopened && base[i].key in candidates;
            var title := if taken then candidates[key].title else base[i].title;
            var markdown := if taken then candidates[key].markdown else base[i].markdown;
            && u.title == Strip(title) && u.dependsOn == base[i].dependsOn
            && u.order == (if base[i].order.Some? then base[i].order.value else 0)
            && u.markdown
                 == Strip(if key in scope.reopened then WithFeedback(markdown, Strip(scope.feedback)) else markdown)
  {
    var merged := MergedUnits(base, scope, candidates);
    var units := UnitsOf(digest, merged);
    SortedMembers(units);
    var j :| 0 <= j < |units| && units[j] == u;
    MergedUnitAt(digest, base, scope, candidates, i);
    OneUnitPerKey(digest, merged, i, j);
  }

  /** The user's feedback stands in every unit of a revision that stems from a reopened one, and each reopened one
      has such a unit. */
  lemma FeedbackIsKept(digest: string -> string, base: seq<RawUnit>, scope: RevisionScope,
                       candidates: map<string, DraftUnit>, i: nat)
    requires BaseOk(base) && RawsOk(digest, MergedUnits(base, scope, candidates))
    requires i < |base| && base[i].key in scope.reopened && Strip(scope.feedback) != ""
    ensures exists u | u in RevisedUnits(digest, base, scope, candidates) :: u.key == UnitKey(digest, base[i].key)
    ensures forall u | u in RevisedUnits(digest, base, scope, candidates) && u.key == UnitKey(digest, base[i].key) ::
              Within(Strip(scope.feedback), u.markdown)
  {
    var units := UnitsOf(digest, MergedUnits(base, scope, candidates));
    SortedMembers(units);
    FeedbackIsMerged(digest, base, scope, candidates, i);
    MergedUnitAt(digest, base, scope, candidates, i);
    assert units[i] in units;
    forall u | u in units && u.key == units[i].key ensures u == units[i] {
      var j :| 0 <= j < |units| && units[j] == u;
      OneUnitPerKey(digest, MergedUnits(base, scope, candidates), i, j);
    }
  }

  /** Units from structured material, and all units of a scoped revision, have content. */
  lemma StructuredUnitsHaveContent(digest: string -> string, raws: seq<RawUnit>)
    requires RawsOk(digest, raws)
    ensures forall u | u in SortByOrder(UnitsOf(digest, raws)) :: u.markdown != "" && Trimmed(u.markdown, IsSpace)
  {
    var units := UnitsOf(digest, raws);
    forall u | u in SortByOrder(units) ensures u.markdown != "" && Trimmed(u.markdown, IsSpace) {
      var i :| 0 <= i < |SortByOrder(units)| && SortByOrder(units)[i] == u;
      var j := SortedFrom(units, i);
      assert RawOk(raws[j]);
      TrimTrims(raws[j].markdown, IsSpace);
    }
  }
}
