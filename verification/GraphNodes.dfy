/** What each node of the graph does to a run: where it goes, what it saves, and what it counts. */
module GraphNodes {
  import opened Budget
  import opened Strings
  import opened Draft
  import opened Grounding
  import opened AdvancedGraph

  /** The step saved its state under a status and went on to a node. */
  predicate Saves(p: Process, q: Process, status: LoopStatus, next: Node) {
    q.config == p.config && q.node == next && q.core.status == status && q.saved == q.core
  }

  /** The step raised: nothing was saved. */
  predicate Raises(p: Process, q: Process) {
    q == p.(node := Failed)
  }

  // ---------------------------------------------------------------- resumption and draft

  /** A process resumes where its checkpoint says: it redoes no node whose checkpoint is saved and skips none that is
      not. */
  lemma ResumeGoesOn(code: Code, p: Process, input: Input)
    requires p.node == Resume
    ensures var q, s := Step(code, p, Advance(input)), p.core.status;
      && q == p.(node := q.node)
      && (q.node == DraftNode <==> s == InvestigationFinished)
      && (q.node == GroundNode <==> s == Drafted)
      && (q.node == SupplementNode(false) <==> s == GroundingSupplementRequired)
      && (q.node == QualityNode <==> s == GroundedPoint || s == GroundingPartial)
      && (q.node == RepairNode(false) <==> s == QualityRepairRequired)
      && (q.node == ConfirmationNode <==> s == QualityPassed || s == QualityNeedsHuman)
      && (q.node == Done <==> s == ConfirmationUnitsBuilt)
      && (q.node == Failed <==> s.OtherPoint?)
  {
  }

  /** A crash loses what was not saved, and nothing else. */
  lemma CrashLosesUnsaved(code: Code, p: Process, config: Config)
    ensures var q := Step(code, p, CrashAndResume(config)); q == Process(config, Resume, p.saved, p.saved)
  {
  }

  /** The draft node saves the draft built from the material under the next generation, and raises exactly if none
      can be built. */
  lemma DraftSaves(code: Code, p: Process, input: Input)
    requires p.node == DraftNode
    ensures var q, built := Step(code, p, Advance(input)),
                            input.drafted.Some? && Draftable(code.digest, code.revision, input.drafted.value);
      && (!built ==> Raises(p, q))
      && (built ==>
            && Saves(p, q, Drafted, GroundNode)
            && q.core.generation == p.core.generation + 1
            && q.core.bundle
                 == Some(DraftFrom(code.digest, code.runId, code.revision, q.core.generation, input.drafted.value))
            && q.core == p.core.(status := Drafted, generation := q.core.generation, bundle := q.core.bundle))
  {
  }

  // ---------------------------------------------------------------- ground

  /** A supplement is still possible. */
  predicate CanSupplement(p: Process, input: Input) {
    (p.config.canSearch || p.config.canInvestigate) && input.toolBudget && p.core.supplements < p.config.maxSupplements
  }

  /** The ground node saves the findings and its outcome: GROUNDED exactly if no lacking claim counts, else a
      supplement if one is possible, else PARTIAL.  Only a partial outcome changes the draft. */
  lemma GroundSaves(code: Code, p: Process, input: Input)
    requires p.node == GroundNode
    ensures var q := Step(code, p, Advance(input));
      && (p.core.bundle == None ==> Raises(p, q))
      && (p.core.bundle != None ==>
            var blocked := Blocked(code.mentions, Given(p, Advance(input)).value, p.core.bundle.value.claims);
            && (Saves(p, q, GroundedPoint, QualityNode) <==> !blocked)
            && (Saves(p, q, GroundingSupplementRequired, SupplementNode(true)) <==> blocked && CanSupplement(p, input))
            && (Saves(p, q, GroundingPartial, QualityNode) <==> blocked && !CanSupplement(p, input))
            && q.core.outcome == Some(if !blocked then Grounded
                                      else if CanSupplement(p, input) then SupplementRequired
                                      else PartiallyGrounded)
            && q.core.supplements == p.core.supplements && q.core.repairs == p.core.repairs
            && q.core.refs == p.core.refs && q.core.quality == p.core.quality
            && (!blocked || CanSupplement(p, input) ==>
                  q.core.bundle == p.core.bundle && q.core.generation == p.core.generation))
  {
  }

  /** A partial outcome adds one unit of unknowns behind the others, under the next generation, with one unknown for
      each lacking claim and no other, unless no claim is lacking; the other units and the claims stay. */
  lemma PartialAddsUnknowns(code: Code, p: Process, input: Input)
    requires p.node == GroundNode && p.core.bundle.Some?
    requires Blocked(code.mentions, ViewOf(p, input), p.core.bundle.value.claims) && !CanSupplement(p, input)
    ensures var q, b := Step(code, p, Advance(input)).core, p.core.bundle.value;
            && q.bundle.Some?
            && ((forall c | c in b.claims :: !Lacking(q.findings, c)) ==> q.bundle == p.core.bundle)
            && ((exists c | c in b.claims :: Lacking(q.findings, c)) ==>
                  UnknownsAdded(b, q.bundle.value, q.findings, code.appendix))
            && q.generation == if q.bundle == p.core.bundle then p.core.generation else b.generation + 1
  {
    var b := p.core.bundle.value;
    var findings := Findings(code.mentions, ViewOf(p, input), b.claims);
    UnknownsHold(b.claims, findings);
    if UnknownsOf(b.claims, findings) != [] {
      assert UnknownsOf(b.claims, findings)[0] in UnknownsOf(b.claims, findings);
    }
  }

  ghost predicate UnknownsAdded(before: DraftBundle, after: DraftBundle, findings: seq<Finding>,
                                appendix: seq<DraftUnknown> -> string)
  {
    && after.claims == before.claims && after.generation == before.generation + 1
    && |after.units| == |before.units| + 1 && after.units[..|before.units|] == before.units
    && after.units[|before.units|].key == UNKNOWNS_KEY
    && after.units[|before.units|].markdown == Strip(appendix(after.unknowns))
    && (forall c | c in before.claims && Lacking(findings, c) ::
          DraftUnknown(c.id, c.unitKey, c.statement) in after.unknowns)
    && (forall u | u in after.unknowns ::
          exists c :: c in before.claims && u == DraftUnknown(c.id, c.unitKey, c.statement) && Lacking(findings, c))
  }

  // ---------------------------------------------------------------- supplement

  /** The supplement node counts itself exactly when it investigates or searches, and then goes back to grounding
      with the references it has: those of the investigation, or those before and the new ones found, each once. */
  lemma SupplementSaves(code: Code, p: Process, input: Input)
    requires p.node.SupplementNode? && p.core.bundle.Some? && HasTarget(p.core)
    ensures var q, b := Step(code, p, Advance(input)), p.core.bundle.value;
      if p.config.canInvestigate then
        && (input.investigated == None ==> Raises(p, q))
        && (input.investigated != None ==>
              && Saves(p, q, Drafted, GroundNode)
              && q.core == p.core.(status := Drafted, refs := input.investigated.value,
                                   supplements := p.core.supplements + 1))
      else if p.config.canSearch then
        && (input.found == None ==> Raises(p, q))
        && (input.found != None ==>
              && Saves(p, q, Drafted, GroundNode) && q.core.bundle.Some?
              && q.core.supplements == p.core.supplements + 1 && q.core.repairs == p.core.repairs
              && q.core.generation == q.core.bundle.value.generation == b.generation + 1
              && q.core.bundle.value.units == b.units && q.core.bundle.value.unknowns == b.unknowns
              && (forall r :: r in q.core.refs <==> r in p.core.refs || r in input.found.value)
              && p.core.refs <= q.core.refs
              && |q.core.bundle.value.claims| == |b.claims|
              && (forall i | 0 <= i < |b.claims| && b.claims[i].id !in LackingIds(p.core.findings) ::
                    q.core.bundle.value.claims[i] == b.claims[i]))
      else Saves(p, q, GroundingPartial, GroundNode) && q.core.outcome == Some(PartiallyGrounded)
           && q.core == p.core.(status := GroundingPartial, outcome := Some(PartiallyGrounded))
  {
    if input.found.Some? {
      AddNewHolds(p.core.refs, input.found.value);
      AddNewExtends(p.core.refs, input.found.value);
    }
  }

  lemma {:induction false} AddNewExtends(base: seq<string>, more: seq<string>)
    ensures base <= AddNew(base, more)
  {
    if more != [] {
      AddNewExtends(base, more[..|more| - 1]);
    }
  }

  // ---------------------------------------------------------------- quality, repair, confirmation

  /** The quality node saves its outcome and changes nothing else: to confirmation if it passes or needs a human, to
      repair exactly if the draft has a blank unit and no repeated key, is not partially grounded, and repairs are
      left. */
  lemma QualitySaves(code: Code, p: Process, input: Input)
    requires p.node == QualityNode
    ensures var q := Step(code, p, Advance(input));
      && (p.core.bundle == None ==> Raises(p, q))
      && (p.core.bundle != None ==>
            var units, partial := p.core.bundle.value.units, p.core.outcome == Some(PartiallyGrounded);
            && q.core == p.core.(status := q.core.status, quality := q.core.quality)
            && (Saves(p, q, QualityPassed, ConfirmationNode) && q.core.quality == Some(Passed) <==>
                  !partial && NoBlanks(units) && DistinctKeys(units))
            && (Saves(p, q, QualityRepairRequired, RepairNode(true)) && q.core.quality == Some(RepairRequired) <==>
                  !partial && !NoBlanks(units) && DistinctKeys(units) && p.core.repairs < p.config.maxRepairs)
            && (|| Saves(p, q, QualityPassed, ConfirmationNode) || Saves(p, q, QualityRepairRequired, RepairNode(true))
                || (Saves(p, q, QualityNeedsHuman, ConfirmationNode) && q.core.quality == Some(NeedsHuman))))
  {
  }

  /** A repair is counted and followed by a draft; it is not saved. */
  lemma RepairCounts(code: Code, p: Process, input: Input)
    requires p.node.RepairNode?
    ensures var q := Step(code, p, Advance(input));
      && (!input.repaired ==> Raises(p, q))
      && (input.repaired ==>
            && q.node == DraftNode && q.saved == p.saved && q.config == p.config
            && q.core == p.core.(repairs := p.core.repairs + 1))
  {
  }

  /** The confirmation node saves that the confirmation units are built, and changes nothing else. */
  lemma ConfirmationSaves(code: Code, p: Process, input: Input)
    requires p.node == ConfirmationNode
    ensures var q := Step(code, p, Advance(input));
      && (p.core.bundle == None ==> Raises(p, q))
      && (p.core.bundle != None ==>
            Saves(p, q, ConfirmationUnitsBuilt, Done) && q.core == p.core.(status := ConfirmationUnitsBuilt))
  {
  }

  /** A run that ended stays as it is until it is resumed. */
  lemma EndedStays(code: Code, p: Process, input: Input)
    requires p.node == Done || p.node == Failed
    ensures Step(code, p, Advance(input)) == p
  {
  }

  // ---------------------------------------------------------------- resumption

  /** The same but for whether a supplement or a repair was decided by this process. */
  predicate Alike(p: Process, q: Process) {
    && p.config == q.config && p.core == q.core && p.saved == q.saved
    && (p.node == q.node || (p.node.SupplementNode? && q.node.SupplementNode?)
        || (p.node.RepairNode? && q.node.RepairNode?))
  }

  lemma AlikeSteps(code: Code, p: Process, q: Process, event: Label)
    requires Alike(p, q)
    ensures Alike(Step(code, p, event), Step(code, q, event))
  {
  }

  /** Runs from like states stay alike, whatever the callbacks give and wherever they crash. */
  lemma {:induction false} AlikeRuns(code: Code, p: Process, q: Process, labels: seq<Label>)
    requires Alike(p, q)
    ensures Alike(After(code, p, labels), After(code, q, labels))
  {
    if labels != [] {
      var before := labels[..|labels| - 1];
      AlikeRuns(code, p, q, before);
      AlikeSteps(code, After(code, p, before), After(code, q, before), labels[|labels| - 1]);
    }
  }

  lemma {:induction false} RunsCompose(code: Code, p: Process, first: seq<Label>, rest: seq<Label>)
    ensures After(code, p, first + rest) == After(code, After(code, p, first), rest)
  {
    var labels := first + rest;
    if rest == [] {
      assert labels == first;
    } else {
      RunsCompose(code, p, first, rest[..|rest| - 1]);
      assert labels[..|labels| - 1] == first + rest[..|rest| - 1];
    }
  }

  /** The process crashes and is resumed with the same configuration. */
  function Resumed(p: Process, input: Input): seq<Label> {
    [CrashAndResume(p.config), Advance(input)]
  }

  /** A node that saves. */
  predicate Saving(n: Node) {
    n.DraftNode? || n.GroundNode? || n.SupplementNode? || n.QualityNode? || n.ConfirmationNode?
  }

  lemma ResumedIs(code: Code, p: Process, input: Input)
    ensures After(code, p, Resumed(p, input)) == p.(node := Route(p.saved), core := p.saved)
  {
    var labels := Resumed(p, input);
    assert labels[..1] == [CrashAndResume(p.config)] && labels[..1][..0] == [];
    assert After(code, p, labels[..1]) == Step(code, p, labels[0]);
  }

  /** A process that crashes after a node saved goes on where it was, if and only if the node was no supplement, or one
      that had something to supplement and the means to. */
  lemma ResumesInPlaceIff(code: Code, p: Process, input: Input, any: Input)
    requires Saving(p.node) && !Step(code, p, Advance(input)).node.Failed?
    ensures var q := Step(code, p, Advance(input));
            Alike(After(code, q, Resumed(q, any)), q) <==>
              p.node.SupplementNode? ==> HasTarget(p.core) && (p.config.canSearch || p.config.canInvestigate)
  {
    ResumedIs(code, Step(code, p, Advance(input)), any);
  }

  /** Then the crash costs nothing: with the same callbacks the rest of the run is the same. */
  lemma CrashCostsNothing(code: Code, p: Process, input: Input, any: Input, labels: seq<Label>)
    requires Saving(p.node) && !Step(code, p, Advance(input)).node.Failed?
    requires p.node.SupplementNode? ==> HasTarget(p.core) && (p.config.canSearch || p.config.canInvestigate)
    ensures var q := Step(code, p, Advance(input));
            Alike(After(code, q, Resumed(q, any) + labels), After(code, q, labels))
  {
    var q := Step(code, p, Advance(input));
    ResumesInPlaceIff(code, p, input, any);
    RunsCompose(code, q, Resumed(q, any), labels);
    AlikeRuns(code, After(code, q, Resumed(q, any)), q, labels);
  }

  /** The failing case: resumed without the means to supplement, every run that has to supplement goes back to
      grounding, but on to quality if it crashes before. */
  lemma CrashSkipsGrounding(code: Code, p: Process, config: Config, input: Input)
    requires p.saved.status == GroundingSupplementRequired && p.saved.bundle.Some?
    requires !config.canSearch && !config.canInvestigate
    ensures var crash := CrashAndResume(config);
            var q := Step(code, Step(code, Step(code, p, crash), Advance(input)), Advance(input));
            q.node == GroundNode && Step(code, Step(code, q, crash), Advance(input)).node == QualityNode
  {
  }

  // ---------------------------------------------------------------- whole runs

  predicate Numbered(c: Core) {
    c.bundle.Some? ==> c.bundle.value.generation == c.generation
  }

  /** A node that changes the draft raises its generation by one, and a node that does not leaves it. */
  lemma StepNumbers(code: Code, p: Process, event: Label)
    requires Numbered(p.core) && Numbered(p.saved)
    ensures var q := Step(code, p, event);
            && Numbered(q.core) && Numbered(q.saved)
            && (event.Advance? ==>
                  q.core.generation == p.core.generation + if q.core.bundle == p.core.bundle then 0 else 1)
  {
  }

  /** A run may go on to supplement or repair only below the limits. */
  predicate Below(c: Core, supplements: int, repairs: int) {
    && c.supplements <= supplements && c.repairs <= repairs
    && (c.status == GroundingSupplementRequired ==> c.supplements < supplements)
    && (c.status == QualityRepairRequired ==> c.repairs < repairs)
  }

  predicate Within(p: Process, supplements: int, repairs: int) {
    && Below(p.saved, supplements, repairs) && p.config.maxSupplements <= supplements && p.config.maxRepairs <= repairs
    && p.core.supplements <= supplements && p.core.repairs <= repairs
    && (p.node.DraftNode? || p.node.Failed? || Below(p.core, supplements, repairs))
    && (p.node.SupplementNode? ==> p.core.supplements < supplements)
    && (p.node.RepairNode? ==> p.core.repairs < repairs)
  }

  /** No process of the run is configured beyond the limits. */
  predicate Configured(labels: seq<Label>, supplements: int, repairs: int) {
    forall i | 0 <= i < |labels| && labels[i].CrashAndResume? ::
      labels[i].config.maxSupplements <= supplements && labels[i].config.maxRepairs <= repairs
  }

  lemma StepWithin(code: Code, p: Process, event: Label, supplements: int, repairs: int)
    requires Within(p, supplements, repairs) && Configured([event], supplements, repairs)
    ensures Within(Step(code, p, event), supplements, repairs)
  {
    assert event.CrashAndResume? ==> [event][0].CrashAndResume?;
  }

  /** Over every run, with any crashes and resumptions: the draft has the generation of its state, and neither
      supplements nor repairs are counted beyond the largest limit configured. */
  lemma {:induction false} RunsStayWithinLimits(code: Code, config: Config, refs: seq<string>, labels: seq<Label>,
                                                supplements: nat, repairs: nat)
    requires config.maxSupplements <= supplements && config.maxRepairs <= repairs
    requires Configured(labels, supplements, repairs)
    ensures var p := After(code, Start(config, refs), labels);
            Numbered(p.core) && Numbered(p.saved) && Within(p, supplements, repairs)
  {
    if labels != [] {
      var before, last := labels[..|labels| - 1], labels[|labels| - 1];
      RunsStayWithinLimits(code, config, refs, before, supplements, repairs);
      StepNumbers(code, After(code, Start(config, refs), before), last);
      StepWithin(code, After(code, Start(config, refs), before), last, supplements, repairs);
    }
  }
}
