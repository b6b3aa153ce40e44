/** What whole runs of the graph leave alone: drafts that need no repair, and the units outside a revision. */
module GraphRuns {
  import opened Budget
  import opened Strings
  import opened Draft
  import opened Grounding
  import opened AdvancedGraph

  // ---------------------------------------------------------------- repairs

  /** The material cannot leave a blank unit: it is structured, or what its markdown splits into is not blank. */
  ghost predicate Filling(code: Code, event: Label) {
    event.Advance? && event.input.drafted.Some? && code.revision.Unscoped? && event.input.drafted.value.raws == [] ==>
      NoBlanks(event.input.drafted.value.plain)
  }

  ghost predicate FillingAll(code: Code, labels: seq<Label>) {
    forall i | 0 <= i < |labels| :: Filling(code, labels[i])
  }

  /** The appendix of unknowns has a heading, so it is never blank. */
  ghost predicate Headed(code: Code) {
    forall unknowns :: unknowns != [] ==> Strip(code.appendix(unknowns)) != ""
  }

  ghost predicate Filled(c: Core) {
    (c.bundle.Some? ==> NoBlanks(c.bundle.value.units)) && !c.status.QualityRepairRequired? && c.repairs == 0
  }

  ghost predicate Unrepaired(p: Process) {
    Filled(p.core) && Filled(p.saved) && !p.node.RepairNode?
  }

  lemma DraftIsFilled(code: Code, d: Material, generation: int)
    requires Draftable(code.digest, code.revision, d) && (code.revision.Scoped? || d.raws != [] || NoBlanks(d.plain))
    ensures NoBlanks(DraftFrom(code.digest, code.runId, code.revision, generation, d).units)
  {
    var units := DraftFrom(code.digest, code.runId, code.revision, generation, d).units;
    if code.revision.Scoped? {
      StructuredUnitsHaveContent(code.digest,
                                 MergedUnits(code.revision.base.value, code.revision.scope,
                                             ByKey(UnitsFrom(code.digest, d))));
    } else if d.raws != [] {
      StructuredUnitsHaveContent(code.digest, d.raws);
    }
    forall u | u in units && u.markdown != "" && Trimmed(u.markdown, IsSpace) ensures !IsBlank(u) {
      TrimmedIsFixed(u.markdown, IsSpace);
    }
  }

  lemma MaterializedIsFilled(code: Code, b: DraftBundle, findings: seq<Finding>)
    requires Headed(code) && NoBlanks(b.units)
    ensures NoBlanks(Materialized(code, b, findings).units)
  {
    var unknowns := UnknownsOf(b.claims, findings);
    if unknowns != [] {
      var text := Strip(code.appendix(unknowns));
      TrimTrims(code.appendix(unknowns), IsSpace);
      TrimmedIsFixed(text, IsSpace);
    }
  }

  lemma GroundUnrepaired(code: Code, p: Process, input: Input)
    requires Unrepaired(p) && Headed(code)
    ensures Unrepaired(StepGround(code, p, input))
  {
    if p.core.bundle.Some? {
      var b := p.core.bundle.value;
      MaterializedIsFilled(code, b, Findings(code.mentions, ViewOf(p, input), b.claims));
    }
  }

  lemma StepUnrepaired(code: Code, p: Process, event: Label)
    requires Unrepaired(p) && Headed(code) && Filling(code, event)
    ensures Unrepaired(Step(code, p, event))
  {
    if event.Advance? {
      match p.node {
        case DraftNode =>
          if event.input.drafted.Some? && Draftable(code.digest, code.revision, event.input.drafted.value) {
            DraftIsFilled(code, event.input.drafted.value, p.core.generation + 1);
          }
        case GroundNode => GroundUnrepaired(code, p, event.input);
        case _ =>
      }
    }
  }

  /** A quality repair never happens: over every run whose drafts are structured, or split into units that are not
      blank, no checkpoint asks for a repair and none is counted. */
  lemma {:induction false} StructuredDraftsNeedNoRepair(code: Code, config: Config, refs: seq<string>,
                                                        labels: seq<Label>)
    requires Headed(code) && FillingAll(code, labels)
    ensures Unrepaired(After(code, Start(config, refs), labels))
  {
    if labels != [] {
      var front := labels[..|labels| - 1];
      assert forall i | 0 <= i < |front| :: front[i] == labels[i];
      StructuredDraftsNeedNoRepair(code, config, refs, front);
      StepUnrepaired(code, After(code, Start(config, refs), front), labels[|labels| - 1]);
    }
  }

  // ---------------------------------------------------------------- revisions

  /** The bundle revises the given units: all their keys in order, the units not reopened as they were, and no claim
      that needs support. */
  ghost predicate Revises(units: seq<DraftUnit>, scope: RevisionScope, b: DraftBundle) {
    Framed(units, scope, b.units) && forall c | c in b.claims :: !Required(c.claimType)
  }

  ghost predicate CoreRevises(units: seq<DraftUnit>, scope: RevisionScope, c: Core) {
    c.bundle.Some? ==> Revises(units, scope, c.bundle.value)
  }

  /** The run revises the given units of an earlier build. */
  ghost predicate BaseGiven(code: Code, units: seq<DraftUnit>) {
    code.revision.Scoped? && code.revision.base == Some(AsBase(units)) && WellBuilt(units) && DistinctKeys(units)
  }

  ghost predicate Framed(units: seq<DraftUnit>, scope: RevisionScope, revised: seq<DraftUnit>) {
    && |revised| == |units|
    && (forall i | 0 <= i < |units| ::
          revised[i].key == units[i].key && (units[i].key !in scope.reopened ==> revised[i] == units[i]))
  }

  lemma RevisionFrames(digest: string -> string, units: seq<DraftUnit>, scope: RevisionScope,
                       candidates: map<string, DraftUnit>)
    requires WellBuilt(units) && DistinctKeys(units)
    ensures BaseOk(AsBase(units)) && Framed(units, scope, RevisedUnits(digest, AsBase(units), scope, candidates))
  {
    NormalBaseIsKept(digest, AsBase(units), scope, candidates);
    forall i | 0 <= i < |units|
      ensures var u := RevisedUnits(digest, AsBase(units), scope, candidates)[i];
              u.key == units[i].key && (units[i].key !in scope.reopened ==> u == units[i])
    {
      ScopedRevisionFrame(digest, units, scope, candidates, i);
    }
  }

  lemma DraftRevises(code: Code, units: seq<DraftUnit>, d: Material, generation: int)
    requires BaseGiven(code, units) && Draftable(code.digest, code.revision, d)
    ensures Revises(units, code.revision.scope, DraftFrom(code.digest, code.runId, code.revision, generation, d))
  {
    RevisionFrames(code.digest, units, code.revision.scope, ByKey(UnitsFrom(code.digest, d)));
  }

  lemma DraftStepRevises(code: Code, units: seq<DraftUnit>, p: Process, input: Input)
    requires BaseGiven(code, units) && ProcessRevises(units, code.revision.scope, p)
    ensures ProcessRevises(units, code.revision.scope, StepDraft(code, p, input))
  {
    if input.drafted.Some? && Draftable(code.digest, code.revision, input.drafted.value) {
      DraftRevises(code, units, input.drafted.value, p.core.generation + 1);
    }
  }

  ghost predicate ProcessRevises(units: seq<DraftUnit>, scope: RevisionScope, p: Process) {
    CoreRevises(units, scope, p.core) && CoreRevises(units, scope, p.saved)
  }

  lemma StepRevises(code: Code, units: seq<DraftUnit>, p: Process, event: Label)
    requires BaseGiven(code, units) && ProcessRevises(units, code.revision.scope, p)
    ensures ProcessRevises(units, code.revision.scope, Step(code, p, event))
  {
    if event.Advance? {
      match p.node {
        case DraftNode => DraftStepRevises(code, units, p, event.input);
        case GroundNode =>
        case SupplementNode(_) =>
        case _ =>
      }
    }
  }

  /** Over every run of a scoped revision of a built draft, with any crashes and whatever the callbacks give, the
      draft at every checkpoint, and so at confirmation, has the base's keys in order and every unit that was not
      reopened exactly as it was. */
  lemma {:induction false} RevisionRunKeepsBase(code: Code, config: Config, refs: seq<string>, units: seq<DraftUnit>,
                                                labels: seq<Label>)
    requires BaseGiven(code, units)
    ensures ProcessRevises(units, code.revision.scope, After(code, Start(config, refs), labels))
  {
    if labels != [] {
      RevisionRunKeepsBase(code, config, refs, units, labels[..|labels| - 1]);
      StepRevises(code, units, After(code, Start(config, refs), labels[..|labels| - 1]), labels[|labels| - 1]);
    }
  }

  // ---------------------------------------------------------------- claims stated once

  /** No two claims of the material have the same unit, type and statement. */
  ghost predicate StatesOnce(digest: string -> string, d: Material) {
    d.claims.Some? ==>
      forall i, j | 0 <= i < j < |d.claims.value| && Typed(d.claims.value[i]) && Typed(d.claims.value[j]) ::
        var a, b := d.claims.value[i], d.claims.value[j];
        || UnitKey(digest, a.unitKey) != UnitKey(digest, b.unitKey)
        || a.claimType != b.claimType
        || Strip(a.statement) != Strip(b.statement)
  }

  ghost predicate Stating(code: Code, event: Label) {
    event.Advance? && event.input.drafted.Some? ==> StatesOnce(code.digest, event.input.drafted.value)
  }

  /** No claim needs support, or the identifiers of all are distinct. */
  predicate Separate(claims: seq<Claim>) {
    (forall c | c in claims :: !Required(c.claimType)) || DistinctIds(claims)
  }

  ghost predicate ProcessSeparate(p: Process) {
    && (p.core.bundle.Some? ==> Separate(p.core.bundle.value.claims))
    && (p.saved.bundle.Some? ==> Separate(p.saved.bundle.value.claims))
  }

  lemma DraftIsSeparate(code: Code, d: Material, generation: int)
    requires Draftable(code.digest, code.revision, d) && StatesOnce(code.digest, d)
    ensures Separate(DraftFrom(code.digest, code.runId, code.revision, generation, d).claims)
  {
    if code.revision.Unscoped? && d.claims.Some? {
      var raws := d.claims.value;
      var claims := ClaimsOf(code.digest, code.runId, generation, raws);
      forall i, j | 0 <= i < j < |claims| ensures claims[i].id != claims[j].id {
        assert Typed(raws[i]) && Typed(raws[j]);
      }
    }
  }

  lemma DraftStepIsSeparate(code: Code, p: Process, input: Input)
    requires ProcessSeparate(p) && (input.drafted.Some? ==> StatesOnce(code.digest, input.drafted.value))
    ensures ProcessSeparate(StepDraft(code, p, input))
  {
    if input.drafted.Some? && Draftable(code.digest, code.revision, input.drafted.value) {
      DraftIsSeparate(code, input.drafted.value, p.core.generation + 1);
    }
  }

  lemma SupplementIsSeparate(p: Process, input: Input)
    requires ProcessSeparate(p)
    ensures ProcessSeparate(StepSupplement(p, input))
  {
  }

  lemma StepIsSeparate(code: Code, p: Process, event: Label)
    requires ProcessSeparate(p) && Stating(code, event)
    ensures ProcessSeparate(Step(code, p, event))
  {
    if event.Advance? {
      match p.node {
        case DraftNode => DraftStepIsSeparate(code, p, event.input);
        case SupplementNode(_) => SupplementIsSeparate(p, event.input);
        case _ =>
      }
    }
  }

  lemma {:induction false} RunIsSeparate(code: Code, config: Config, refs: seq<string>, labels: seq<Label>)
    requires forall i | 0 <= i < |labels| :: Stating(code, labels[i])
    ensures ProcessSeparate(After(code, Start(config, refs), labels))
  {
    if labels != [] {
      RunIsSeparate(code, config, refs, labels[..|labels| - 1]);
      StepIsSeparate(code, After(code, Start(config, refs), labels[..|labels| - 1]), labels[|labels| - 1]);
    }
  }

  /** Over every run whose drafts state no claim twice, with any crashes and resumptions and against facts or
      references: a draft that reaches confirmation having passed quality has every claim that needs support and is
      not informational supported. */
  lemma ClaimsStatedOnceAreGated(code: Code, config: Config, refs: seq<string>, labels: seq<Label>, i: nat)
    requires forall k | 0 <= k < |labels| :: Stating(code, labels[k])
    requires var p := After(code, Start(config, refs), labels);
             && p.node.Done? && p.core.quality == Some(Passed) && p.core.bundle.Some?
             && i < |p.core.bundle.value.claims|
    ensures var c := After(code, Start(config, refs), labels).core;
            var claim := c.bundle.value.claims[i];
            && i < |c.findings| && c.findings[i].claimId == claim.id
            && (Required(claim.claimType) && !claim.criticality.Informational? ==> c.findings[i].status.SupportedClaim?)
  {
    var claims := After(code, Start(config, refs), labels).core.bundle.value.claims;
    RunIsSeparate(code, config, refs, labels);
    if DistinctIds(claims) {
      DistinctIdsAreVouched(claims);
    } else {
      assert Vouched(claims);
    }
    EndToEndGate(code, config, refs, labels);
  }
}
