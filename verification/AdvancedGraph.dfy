/** The advanced draft graph: draft, ground, supplement, quality, repair and confirmation, resumable at every
    checkpoint. */
module AdvancedGraph {
  import opened Budget
  import opened Strings
  import opened Knowledge
  import opened Draft
  import opened Grounding

  // ---------------------------------------------------------------- data

  datatype LoopStatus =
    | InvestigationFinished | Drafted | GroundingSupplementRequired | GroundedPoint | GroundingPartial
    | QualityRepairRequired | QualityPassed | QualityNeedsHuman | ConfirmationUnitsBuilt | OtherPoint(name: string)

  /** What a checkpoint keeps.  The view is what the last grounding was held against. */
  datatype Core = Core(status: LoopStatus, repairs: int, supplements: int, generation: int, bundle: Option<DraftBundle>,
                       findings: seq<Finding>, outcome: Option<GroundingOutcome>, quality: Option<QualityOutcome>,
                       refs: seq<string>, view: Option<View>)

  /** What is the same for all processes of a run: its revision scope, and the program text that is not modelled. */
  datatype Code = Code(mentions: Mentions, appendix: seq<DraftUnknown> -> string, digest: string -> string,
                       runId: string,
                       revision: Revision)

  datatype Config = Config(canSearch: bool, canInvestigate: bool, maxSupplements: int, maxRepairs: int)

  /** The next node; supplement and repair know whether this process has just decided on them or has been resumed
      into them. */
  datatype Node =
    | Resume | DraftNode | GroundNode | SupplementNode(decided: bool) | QualityNode | RepairNode(decided: bool)
    | ConfirmationNode
    | Done | Failed

  datatype Process = Process(config: Config, node: Node, core: Core, saved: Core)

  /** What the callbacks give the next node; None is an exception. */
  datatype Input = Input(drafted: Option<Material>, knowledge: Option<Content>, toolBudget: bool,
                         found: Option<seq<string>>, investigated: Option<seq<string>>, repaired: bool)

  datatype Label = Advance(input: Input) | CrashAndResume(config: Config)

  // ---------------------------------------------------------------- nodes

  function Checkpoint(p: Process, c: Core, status: LoopStatus, next: Node): Process {
    var saved := c.(status := status);
    Process(p.config, next, saved, saved)
  }

  function Route(c: Core): Node {
    match c.status
    case InvestigationFinished => DraftNode
    case Drafted => GroundNode
    case GroundingSupplementRequired => SupplementNode(false)
    case GroundedPoint => QualityNode
    case GroundingPartial => QualityNode
    case QualityRepairRequired => RepairNode(false)
    case QualityPassed => ConfirmationNode
    case QualityNeedsHuman => ConfirmationNode
    case ConfirmationUnitsBuilt => Done
    case OtherPoint(_) => Failed
  }

  function StepDraft(code: Code, p: Process, input: Input): Process {
    if input.drafted.None? || !Draftable(code.digest, code.revision, input.drafted.value) then p.(node := Failed)
    else
      var generation := p.core.generation + 1;
      var b := DraftFrom(code.digest, code.runId, code.revision, generation, input.drafted.value);
      Checkpoint(p, p.core.(generation := generation, bundle := Some(b)), Drafted, GroundNode)
  }

  function ViewOf(p: Process, input: Input): View {
    if input.knowledge.Some? then ByFacts(input.knowledge.value) else ByReferences(set r | r in p.core.refs)
  }

  /** The grounded bundle: unchanged, or of the next generation with the unit of unknowns. */
  function Materialized(code: Code, b: DraftBundle, findings: seq<Finding>): DraftBundle {
    var unknowns := UnknownsOf(b.claims, findings);
    if unknowns == [] then b else WithUnknowns(b, unknowns, code.appendix).(generation := b.generation + 1)
  }

  function StepGround(code: Code, p: Process, input: Input): Process {
    if p.core.bundle.None? then p.(node := Failed)
    else
      var b, v := p.core.bundle.value, ViewOf(p, input);
      var findings := Findings(code.mentions, v, b.claims);
      var budget := (p.config.canSearch || p.config.canInvestigate) && input.toolBudget;
      var outcome :=
          OutcomeOf(Blocked(code.mentions, v, b.claims), p.core.supplements, p.config.maxSupplements, budget);
      var c := p.core.(findings := findings, outcome := Some(outcome), view := Some(v));
      match outcome
      case Grounded => Checkpoint(p, c, GroundedPoint, QualityNode)
      case SupplementRequired => Checkpoint(p, c, GroundingSupplementRequired, SupplementNode(true))
      case PartiallyGrounded =>
        var grounded := Materialized(code, b, findings);
        Checkpoint(p,
            c.(bundle := Some(grounded), generation := if grounded == b then c.generation else grounded.generation),
                GroundingPartial, QualityNode)
  }

  function LackingIds(findings: seq<Finding>): set<ClaimId> {
    set i | 0 <= i < |findings| && Bad(findings[i].status) :: findings[i].claimId
  }

  predicate HasTarget(c: Core) {
    c.bundle.Some? && exists x | x in c.bundle.value.claims :: x.id in LackingIds(c.findings)
  }

  function Referring(claims: seq<Claim>, lacking: set<ClaimId>, refs: seq<string>): seq<Claim> {
    seq(|claims|, i requires 0 <= i < |claims| =>
      if claims[i].id in lacking then claims[i].(evidenceRefs := AddNew(AddNew([], claims[i].evidenceRefs), refs))
      else claims[i])
  }

  function StepSupplement(p: Process, input: Input): Process {
    if p.core.bundle.None? then p.(node := Failed)
    else if !HasTarget(p.core) then Checkpoint(p, p.core, GroundedPoint, GroundNode)
    else if p.config.canInvestigate then
      if input.investigated.None? then p.(node := Failed)
      else Checkpoint(p, p.core.(refs := input.investigated.value, supplements := p.core.supplements + 1), Drafted,
                      GroundNode)
    else if !p.config.canSearch
    then Checkpoint(p, p.core.(outcome := Some(PartiallyGrounded)), GroundingPartial, GroundNode)
    else if input.found.None? then p.(node := Failed)
    else
      var b, refs := p.core.bundle.value, AddNew(p.core.refs, input.found.value);
      var revised :=
          b.(generation := b.generation + 1, claims := Referring(b.claims, LackingIds(p.core.findings), refs));
      Checkpoint(p, p.core.(bundle := Some(revised), generation := revised.generation, refs := refs,
          supplements := p.core.supplements + 1), Drafted, GroundNode)
  }

  function StepQuality(p: Process): Process {
    if p.core.bundle.None? then p.(node := Failed)
    else
      var grounding := if p.core.outcome.Some? then p.core.outcome.value else Grounded;
      var quality := QualityOf(p.core.bundle.value.units, grounding, p.core.repairs, p.config.maxRepairs);
      var c := p.core.(quality := Some(quality));
      match quality
      case Passed => Checkpoint(p, c, QualityPassed, ConfirmationNode)
      case RepairRequired => Checkpoint(p, c, QualityRepairRequired, RepairNode(true))
      case NeedsHuman => Checkpoint(p, c, QualityNeedsHuman, ConfirmationNode)
  }

  /** A repair is not checkpointed; the draft after it is. */
  function StepRepair(p: Process, input: Input): Process {
    if !input.repaired then p.(node := Failed)
    else p.(node := DraftNode, core := p.core.(repairs := p.core.repairs + 1))
  }

  function StepConfirmation(p: Process): Process {
    if p.core.bundle.None? then p.(node := Failed) else Checkpoint(p, p.core, ConfirmationUnitsBuilt, Done)
  }

  function Execute(code: Code, p: Process, input: Input): Process {
    match p.node
    case Resume => p.(node := Route(p.core))
    case DraftNode => StepDraft(code, p, input)
    case GroundNode => StepGround(code, p, input)
    case SupplementNode(_) => StepSupplement(p, input)
    case QualityNode => StepQuality(p)
    case RepairNode(_) => StepRepair(p, input)
    case ConfirmationNode => StepConfirmation(p)
    case Done => p
    case Failed => p
  }

  function Step(code: Code, p: Process, event: Label): Process {
    match event
    case Advance(input) => Execute(code, p, input)
    case CrashAndResume(config) => Process(config, Resume, p.saved, p.saved)
  }

  function After(code: Code, p: Process, labels: seq<Label>): Process {
    if labels == [] then p else Step(code, After(code, p, labels[..|labels| - 1]), labels[|labels| - 1])
  }

  // ---------------------------------------------------------------- termination

  predicate Ended(p: Process) {
    p.node.Done? || p.node.Failed?
  }

  function Left(used: int, limit: int): nat {
    if used < limit then limit - used else 0
  }

  function Rank(n: Node): nat {
    match n
    case Resume => 6
    case DraftNode => 4
    case GroundNode => 3
    case SupplementNode(decided) => if decided then 2 else 4
    case QualityNode => 2
    case RepairNode(decided) => if decided then 1 else 5
    case ConfirmationNode => 1
    case Done => 0
    case Failed => 0
  }

  function Measure(p: Process): nat {
    4 * Left(p.core.repairs, p.config.maxRepairs) + 2 * Left(p.core.supplements, p.config.maxSupplements) + Rank(p.node)
  }

  /** What the process knows at a node it decided on itself. */
  ghost predicate Decided(p: Process) {
    && (p.node == SupplementNode(true) ==>
        p.core.supplements < p.config.maxSupplements && HasTarget(p.core)
        && (p.config.canSearch || p.config.canInvestigate))
    && (p.node == RepairNode(true) ==> p.core.repairs < p.config.maxRepairs)
    && (p.node.Done? ==> p.core.status.ConfirmationUnitsBuilt?)
  }

  lemma BlockedHasTarget(m: Mentions, v: View, claims: seq<Claim>)
    requires Blocked(m, v, claims)
    ensures exists x | x in claims :: x.id in LackingIds(Findings(m, v, claims))
  {
    var i :| 0 <= i < |claims| && Bad(FindingOf(m, v, claims[i]).status) && Counts(v, claims, i);
    FindingMeans(m, v, claims[i]);
    assert Findings(m, v, claims)[i].claimId in LackingIds(Findings(m, v, claims));
    assert claims[i] in claims;
  }

  ghost predicate Descends(p: Process, q: Process) {
    Decided(q) && Measure(q) < Measure(p) && q.config == p.config
  }

  lemma GroundDescends(code: Code, p: Process, input: Input)
    requires p.node.GroundNode?
    ensures Descends(p, StepGround(code, p, input))
  {
    if p.core.bundle.Some? {
      var v := ViewOf(p, input);
      if Blocked(code.mentions, v, p.core.bundle.value.claims) {
        BlockedHasTarget(code.mentions, v, p.core.bundle.value.claims);
      }
    }
  }

  lemma QualityDescends(p: Process)
    requires p.node.QualityNode?
    ensures Descends(p, StepQuality(p))
  {
  }

  /** Every node brings the end nearer. */
  lemma StepDescends(code: Code, p: Process, input: Input)
    requires Decided(p) && !Ended(p)
    ensures Descends(p, Execute(code, p, input))
  {
    match p.node {
      case GroundNode => GroundDescends(code, p, input);
      case SupplementNode(_) =>
      case QualityNode => QualityDescends(p);
      case _ =>
    }
  }

  function Advances(inputs: seq<Input>): seq<Label> {
    seq(|inputs|, i requires 0 <= i < |inputs| => Advance(inputs[i]))
  }

  /** Left alone, a process runs no more nodes than its measure says. */
  lemma {:induction false} RunDescends(code: Code, p: Process, inputs: seq<Input>)
    requires Decided(p)
    ensures var q := After(code, p, Advances(inputs));
            Decided(q) && (Ended(q) || Measure(q) + |inputs| <= Measure(p))
  {
    if inputs != [] {
      var front, last := inputs[..|inputs| - 1], inputs[|inputs| - 1];
      RunDescends(code, p, front);
      assert Advances(inputs)[..|inputs| - 1] == Advances(front);
      var q := After(code, p, Advances(front));
      if !Ended(q) {
        StepDescends(code, q, last);
      }
    }
  }

  /** From every resume status, whatever the callbacks give, the graph ends within the measure: with its confirmation
      units built, or with an exception. */
  lemma GraphTerminates(code: Code, config: Config, saved: Core, inputs: seq<Input>)
    requires |inputs| >= 4 * Left(saved.repairs, config.maxRepairs) + 2 * Left(saved.supplements, config.maxSupplements)
        + 6
    ensures var q := After(code, Process(config, Resume, saved, saved), Advances(inputs));
            (q.node.Done? && q.core.status.ConfirmationUnitsBuilt?) || q.node.Failed?
  {
    var p := Process(config, Resume, saved, saved);
    RunDescends(code, p, inputs);
    var q := After(code, p, Advances(inputs));
    assert !Ended(q) ==> Rank(q.node) > 0;
  }

  // ---------------------------------------------------------------- success

  predicate Cooperative(code: Code, input: Input) {
    && input.drafted.Some? && Draftable(code.digest, code.revision, input.drafted.value)
    && input.found.Some? && input.investigated.Some? && input.repaired
  }

  /** A state to resume from: its status is known, and its draft is there unless it is still to be written. */
  predicate Resumable(c: Core) {
    !c.status.OtherPoint? && (c.bundle.Some? || c.status.InvestigationFinished? || c.status.QualityRepairRequired?)
  }

  predicate Healthy(p: Process) {
    match p.node
    case Resume => Resumable(p.core)
    case Failed => false
    case DraftNode => true
    case RepairNode(_) => true
    case _ => p.core.bundle.Some?
  }

  lemma StepHealthy(code: Code, p: Process, input: Input)
    requires Healthy(p) && Cooperative(code, input)
    ensures Healthy(Execute(code, p, input))
  {
  }

  lemma {:induction false} RunHealthy(code: Code, p: Process, inputs: seq<Input>)
    requires Healthy(p) && forall i | 0 <= i < |inputs| :: Cooperative(code, inputs[i])
    ensures Healthy(After(code, p, Advances(inputs)))
  {
    if inputs != [] {
      var front := inputs[..|inputs| - 1];
      RunHealthy(code, p, front);
      assert Advances(inputs)[..|inputs| - 1] == Advances(front);
      StepHealthy(code, After(code, p, Advances(front)), inputs[|inputs| - 1]);
    }
  }

  /** If no callback raises and every draft can be built, the graph builds the confirmation units from every resumable
      state, whatever the callbacks give. */
  lemma CooperativeRunConfirms(code: Code, config: Config, saved: Core, inputs: seq<Input>)
    requires Resumable(saved) && forall i | 0 <= i < |inputs| :: Cooperative(code, inputs[i])
    requires |inputs| >= 4 * Left(saved.repairs, config.maxRepairs) + 2 * Left(saved.supplements, config.maxSupplements)
        + 6
    ensures var q := After(code, Process(config, Resume, saved, saved), Advances(inputs));
            q.node.Done? && q.core.status.ConfirmationUnitsBuilt? && q.core.bundle.Some?
  {
    GraphTerminates(code, config, saved, inputs);
    RunHealthy(code, Process(config, Resume, saved, saved), inputs);
  }

  // ---------------------------------------------------------------- supplements

  /** After a search the next grounding by references supports a claim that lacked support exactly when there is any
      evidence at all and the claim cited nothing unknown; all other claims are left alone. */
  lemma SearchSupports(m: Mentions, claims: seq<Claim>, lacking: set<ClaimId>, before: seq<string>, found: seq<string>,
                       i: nat)
    requires i < |claims| && Required(claims[i].claimType)
    ensures var refs := AddNew(before, found);
            var claim := Referring(claims, lacking, refs)[i];
            var available := set r | r in refs;
            && claim.(evidenceRefs := claims[i].evidenceRefs) == claims[i]
            && (claims[i].id !in lacking ==> claim == claims[i])
            && (claims[i].id in lacking ==>
                  (FindingOf(m, ByReferences(available), claim).status.SupportedClaim? <==>
                     && (before != [] || found != [] || claims[i].evidenceRefs != [])
                     && forall r | r in claims[i].evidenceRefs :: r in before || r in found))
  {
    var refs := AddNew(before, found);
    var available := set r | r in refs;
    var claim := Referring(claims, lacking, refs)[i];
    AddNewHolds(before, found);
    if claims[i].id in lacking {
      AddNewHolds([], claims[i].evidenceRefs);
      AddNewHolds(AddNew([], claims[i].evidenceRefs), refs);
      NonEmpty(claim.evidenceRefs, claims[i].evidenceRefs, before, found);
    }
  }

  /** The failing case: any one reference supports any claim that needs support and cited nothing. */
  lemma UnrelatedEvidenceSupports(m: Mentions, claim: Claim, r: string)
    requires Required(claim.claimType) && claim.evidenceRefs == []
    ensures var refs := AddNew([], [r]);
            && !FindingOf(m, ByReferences({}), claim).status.SupportedClaim?
            && FindingOf(m, ByReferences(set x | x in refs),
                         Referring([claim], {claim.id}, refs)[0]).status.SupportedClaim?
  {
    SearchSupports(m, [claim], {claim.id}, [], [r], 0);
  }

  /** A sequence with the elements of three others is empty exactly when they are. */
  lemma NonEmpty(all: seq<string>, a: seq<string>, b: seq<string>, c: seq<string>)
    requires forall r :: r in all <==> r in a || r in b || r in c
    ensures all != [] <==> a != [] || b != [] || c != []
  {
    if all != [] {
      assert all[0] in all;
    }
    if a != [] {
      assert a[0] in all;
    } else if b != [] {
      assert b[0] in all;
    } else if c != [] {
      assert c[0] in all;
    }
  }

  // ---------------------------------------------------------------- the gate

  /** The bundle passed grounding, and the findings are those of its claims. */
  ghost predicate Passing(code: Code, c: Core) {
    && c.bundle.Some? && c.view.Some? && c.findings == Findings(code.mentions, c.view.value, c.bundle.value.claims)
    && !Blocked(code.mentions, c.view.value, c.bundle.value.claims)
  }

  ghost predicate Confirmable(code: Code, c: Core) {
    Passing(code, c) && DistinctKeys(c.bundle.value.units) && NoBlanks(c.bundle.value.units)
  }

  /** What a status stands for. */
  ghost predicate CoreOk(code: Code, c: Core) {
    match c.status
    case GroundedPoint => Passing(code, c) && c.outcome == Some(Grounded)
    case GroundingPartial => c.outcome == Some(PartiallyGrounded)
    case GroundingSupplementRequired => HasTarget(c)
    case QualityPassed => Confirmable(code, c) && c.quality == Some(Passed)
    case QualityNeedsHuman => c.quality == Some(NeedsHuman)
    case QualityRepairRequired => c.quality == Some(RepairRequired)
    case ConfirmationUnitsBuilt => c.bundle.Some? && (c.quality == Some(Passed) ==> Confirmable(code, c))
    case _ => true
  }

  ghost predicate NodeOk(p: Process) {
    match p.node
    case SupplementNode(_) => p.core.status.GroundingSupplementRequired?
    case QualityNode => p.core.status.GroundedPoint? || p.core.status.GroundingPartial?
    case ConfirmationNode => p.core.status.QualityPassed? || p.core.status.QualityNeedsHuman?
    case Done => p.core.status.ConfirmationUnitsBuilt?
    case _ => true
  }

  ghost predicate Inv(code: Code, p: Process) {
    NodeOk(p) && CoreOk(code, p.core) && CoreOk(code, p.saved)
  }

  lemma GroundKeeps(code: Code, p: Process, input: Input)
    requires Inv(code, p) && p.node.GroundNode?
    ensures Inv(code, StepGround(code, p, input))
  {
    if p.core.bundle.Some? {
      var v := ViewOf(p, input);
      if Blocked(code.mentions, v, p.core.bundle.value.claims) {
        BlockedHasTarget(code.mentions, v, p.core.bundle.value.claims);
      }
    }
  }

  lemma SupplementKeeps(code: Code, p: Process, input: Input)
    requires Inv(code, p) && p.node.SupplementNode?
    ensures Inv(code, StepSupplement(p, input))
  {
  }

  lemma QualityKeeps(code: Code, p: Process)
    requires Inv(code, p) && p.node.QualityNode?
    ensures Inv(code, StepQuality(p))
  {
  }

  lemma StepKeeps(code: Code, p: Process, event: Label)
    requires Inv(code, p)
    ensures Inv(code, Step(code, p, event))
  {
    if event.Advance? {
      match p.node {
        case GroundNode => GroundKeeps(code, p, event.input);
        case SupplementNode(_) => SupplementKeeps(code, p, event.input);
        case QualityNode => QualityKeeps(code, p);
        case _ =>
      }
    }
  }

  lemma {:induction false} RunKeeps(code: Code, p: Process, labels: seq<Label>)
    requires Inv(code, p)
    ensures Inv(code, After(code, p, labels))
  {
    if labels != [] {
      RunKeeps(code, p, labels[..|labels| - 1]);
      StepKeeps(code, After(code, p, labels[..|labels| - 1]), labels[|labels| - 1]);
    }
  }

  /** An investigation just finished: nothing is drafted yet. */
  function Start(config: Config, refs: seq<string>): Process {
    var c := Core(InvestigationFinished, 0, 0, 0, None, [], None, None, refs, None);
    Process(config, Resume, c, c)
  }

  // ---------------------------------------------------------------- what a grounding is held against

  /** What a ground node is given: the knowledge if there is any, else the references of the stored evidence. */
  ghost function Given(p: Process, event: Label): Option<View> {
    if event.Advance? && p.node == GroundNode && p.core.bundle != None then
      match event.input.knowledge
      case Some(content) => Some(ByFacts(content))
      case None => Some(ByReferences(set r | r in p.core.refs))
    else None
  }

  /** What the last ground node of a run was given. */
  ghost function LastGiven(code: Code, p: Process, labels: seq<Label>): Option<View> {
    if labels == [] then None
    else
      var before, last := labels[..|labels| - 1], labels[|labels| - 1];
      var given := Given(After(code, p, before), last);
      if given.Some? then given else LastGiven(code, p, before)
  }

  lemma StepView(code: Code, p: Process, event: Label)
    requires p.core.view == p.saved.view
    ensures var q := Step(code, p, event);
            q.core.view == q.saved.view == if Given(p, event).Some? then Given(p, event) else p.core.view
  {
  }

  /** The view in the state is what the last ground node was given, through all crashes and resumptions. */
  lemma {:induction false} ViewIsGiven(code: Code, p: Process, labels: seq<Label>)
    requires p.core.view == None && p.saved.view == None
    ensures After(code, p, labels).core.view == LastGiven(code, p, labels)
    ensures After(code, p, labels).saved.view == LastGiven(code, p, labels)
  {
    if labels != [] {
      ViewIsGiven(code, p, labels[..|labels| - 1]);
      StepView(code, After(code, p, labels[..|labels| - 1]), labels[|labels| - 1]);
    }
  }

  /** What the ground node finds out about a claim.  A claim on the current state or a constraint needs support and
      no other does: with knowledge, it is CONFLICTING exactly where a fact that mentions it is contested, and else
      SUPPORTED exactly where a verified fact of fitting scope mentions it; without knowledge, SUPPORTED exactly
      where the claim cites something and only stored references. */
  lemma GroundDecides(code: Code, p: Process, input: Input, i: nat)
    requires p.node.GroundNode? && p.core.bundle.Some? && i < |p.core.bundle.value.claims|
    ensures var claim, findings := p.core.bundle.value.claims[i], Step(code, p, Advance(input)).saved.findings;
            && |findings| == |p.core.bundle.value.claims| && findings[i].claimId == claim.id
            && (findings[i].status == NotRequired <==> claim.claimType !in {CurrentStateClaim, ConstraintClaim})
            && (findings[i].status != NotRequired ==> match input.knowledge
               case Some(c) =>
                 && (findings[i].status == ConflictingClaim <==> IsContested(code.mentions, c, claim))
                 && (findings[i].status == SupportedClaim <==>
                       && !IsContested(code.mentions, c, claim)
                       && exists k | k in c.facts :: Carries(code.mentions, c, claim, k))
               case None =>
                 && findings[i].status != ConflictingClaim
                 && (findings[i].status == SupportedClaim <==>
                       claim.evidenceRefs != [] && forall r | r in claim.evidenceRefs :: r in p.core.refs))
  {
    var claim := p.core.bundle.value.claims[i];
    FindingMeans(code.mentions, ViewOf(p, input), claim);
    if Required(claim.claimType) && input.knowledge.Some? {
      FactsDecide(code.mentions, input.knowledge.value, claim);
    }
  }

  /** Step i of the run is its last ground node. */
  ghost predicate GroundsLast(code: Code, p: Process, labels: seq<Label>, i: nat) {
    && i < |labels| && Given(After(code, p, labels[..i]), labels[i]).Some?
    && forall j | i < j < |labels| :: Given(After(code, p, labels[..j]), labels[j]).None?
  }

  lemma GroundsLastLonger(code: Code, p: Process, labels: seq<Label>, n: nat, i: nat)
    requires n == |labels| - 1 && GroundsLast(code, p, labels[..n], i)
    requires Given(After(code, p, labels[..n]), labels[n]).None?
    ensures GroundsLast(code, p, labels, i)
    ensures labels[..n][..i] == labels[..i] && labels[..n][i] == labels[i]
  {
    forall j | 0 <= j <= n ensures labels[..n][..j] == labels[..j] {
    }
    forall j | i < j < |labels| ensures Given(After(code, p, labels[..j]), labels[j]).None? {
      if j < n {
        assert labels[..n][j] == labels[j];
      }
    }
  }

  lemma {:induction false} LastGround(code: Code, p: Process, labels: seq<Label>) returns (i: nat)
    requires LastGiven(code, p, labels).Some?
    ensures GroundsLast(code, p, labels, i)
    ensures LastGiven(code, p, labels) == Given(After(code, p, labels[..i]), labels[i])
  {
    var n := |labels| - 1;
    if Given(After(code, p, labels[..n]), labels[n]).Some? {
      i := n;
    } else {
      i := LastGround(code, p, labels[..n]);
      GroundsLastLonger(code, p, labels, n, i);
    }
  }

  /** Every node of the run was given knowledge. */
  ghost predicate Informed(labels: seq<Label>) {
    forall i | 0 <= i < |labels| && labels[i].Advance? :: labels[i].input.knowledge.Some?
  }

  /** Then a grounding is held against facts alone, and they are the knowledge given to the last ground node. */
  lemma InformedIsByFacts(code: Code, p: Process, labels: seq<Label>) returns (i: nat)
    requires Informed(labels) && LastGiven(code, p, labels).Some?
    ensures GroundsLast(code, p, labels, i) && labels[i].Advance?
    ensures LastGiven(code, p, labels) == Some(ByFacts(labels[i].input.knowledge.value))
  {
    i := LastGround(code, p, labels);
  }

  /** Over every run, with any crashes and resumptions: a draft that reaches confirmation having passed quality has
      all its units non-blank under distinct keys, its findings are those of its claims against what the last ground
      node was given, and, if that were references or if each claim that needs support is vouched for by one that
      counts, they show every claim that needs support and is not informational as supported. */
  lemma EndToEndGate(code: Code, config: Config, refs: seq<string>, labels: seq<Label>)
    ensures var p, v := After(code, Start(config, refs), labels), LastGiven(code, Start(config, refs), labels);
            p.node.Done? && p.core.quality == Some(Passed) ==>
              && p.core.bundle.Some? && v.Some?
              && p.core.findings == Findings(code.mentions, v.value, p.core.bundle.value.claims)
              && DistinctKeys(p.core.bundle.value.units) && NoBlanks(p.core.bundle.value.units)
              && (Vouched(p.core.bundle.value.claims) || v.value.ByReferences? ==>
                    Gate(code.mentions, v.value, p.core.bundle.value.claims))
              && (Vouched(p.core.bundle.value.claims) || v.value.ByReferences? ==>
                    forall i | 0 <= i < |p.core.bundle.value.claims| ::
                      var claim := p.core.bundle.value.claims[i];
                      && p.core.findings[i].claimId == claim.id
                      && (Required(claim.claimType) && !claim.criticality.Informational? ==>
                          p.core.findings[i].status.SupportedClaim?))
  {
    RunKeeps(code, Start(config, refs), labels);
    ViewIsGiven(code, Start(config, refs), labels);
    var c := After(code, Start(config, refs), labels).core;
    if Confirmable(code, c) {
      var m, v, claims := code.mentions, c.view.value, c.bundle.value.claims;
      if v.ByReferences? {
        ReferencesGateExactly(m, v.available, claims);
      } else if Vouched(claims) {
        VouchedIsGated(m, v.content, claims);
      }
      forall i | 0 <= i < |claims| ensures c.findings[i].claimId == claims[i].id {
        FindingMeans(m, v, claims[i]);
      }
    }
  }

  /** So a confirmed claim that needs support and was held against knowledge is carried by a verified fact of that
      knowledge, and by none in conflict. */
  lemma ConfirmedClaimsAreCarried(code: Code, config: Config, refs: seq<string>, labels: seq<Label>, i: nat)
    requires var p, v := After(code, Start(config, refs), labels), LastGiven(code, Start(config, refs), labels);
             && p.node.Done? && p.core.quality == Some(Passed) && p.core.bundle.Some? && v.Some? && v.value.ByFacts?
             && Vouched(p.core.bundle.value.claims) && i < |p.core.bundle.value.claims|
             && Required(p.core.bundle.value.claims[i].claimType)
             && !p.core.bundle.value.claims[i].criticality.Informational?
    ensures var claim := After(code, Start(config, refs), labels).core.bundle.value.claims[i];
            var facts := LastGiven(code, Start(config, refs), labels).value.content;
            && !IsContested(code.mentions, facts, claim)
            && exists k | k in facts.facts :: Carries(code.mentions, facts, claim, k)
  {
    EndToEndGate(code, config, refs, labels);
    var claims := After(code, Start(config, refs), labels).core.bundle.value.claims;
    FactsDecide(code.mentions, LastGiven(code, Start(config, refs), labels).value.content, claims[i]);
  }
}
