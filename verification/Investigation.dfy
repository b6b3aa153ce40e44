/** The investigation loop: bounded, resumable, and driven by what each round adds to the knowledge. */
module Investigation {
  import opened Budget
  import opened Strings
  import opened Evidence
  import opened Knowledge
  import opened KnowledgeBuild
  import opened KnowledgeLaws

  // ---------------------------------------------------------------- data

  datatype Mode = Initial | Replan | Supplement

  datatype Limit = AtMost(n: int) | Unlimited

  datatype InvestigationBudget = InvestigationBudget(maxIterations: Limit, maxToolCalls: Limit, maxReplans: nat)

  datatype ActionRecord = ActionRecord(roundIndex: nat, mode: Mode, signature: Digest<Signature>, action: Action,
                                       newFacts: set<FactId>,
                                       progressBefore: Option<Digest<Progress>>, progressAfter: Digest<Progress>)

  /** What a round changes and what is observed after it.  The coverage dictionary remembers the order of its keys. */
  datatype State = State(order: seq<string>, coverage: map<string, Status>, knowledge: Option<Bundle>,
                         history: seq<ActionRecord>)

  datatype InvestigationRequest = InvestigationRequest(
    header: Header, mode: Mode, authorities: seq<Authority>, budget: InvestigationBudget, pending: Option<Action>,
    pendingSignature: Option<Digest<Signature>>)

  datatype NoProgressReason = EmptyOutcome | OnlyRelatedEvidence

  datatype Selection = Selection(mode: Mode, gap: string, state: State, noProgressReason: Option<NoProgressReason>,
      rounds: nat, replans: nat)

  /** The callbacks; None is an exception.  Blankness of a query is not modelled. */
  datatype Environment = Environment(text: Text, blank: string -> bool,
                                     select: Selection -> Option<Action>, execute: Action -> Option<seq<EvidenceItem>>)

  datatype StopReason = CoverageComplete | MaxIterationsReached | ToolBudgetExhausted | NoProgress | ReplanExhausted
      | Raised

  datatype RunStatus = Complete | PartialResult | Empty | Failed

  // ---------------------------------------------------------------- policies

  function FirstWith(order: seq<string>, coverage: map<string, Status>, status: Status): Option<string> {
    if order == [] then None
    else if Lookup(coverage, order[0]) == status then Some(order[0])
    else FirstWith(order[1..], coverage, status)
  }

  function NextGap(s: State): Option<string> {
    var conflicting, missing := FirstWith(s.order, s.coverage, InConflict), FirstWith(s.order, s.coverage, Missing);
    if conflicting.Some? then conflicting else if missing.Some? then missing
    else FirstWith(s.order, s.coverage, Partial)
  }

  ghost predicate FirstAt(order: seq<string>, coverage: map<string, Status>, status: Status, k: string, i: int) {
    && 0 <= i < |order| && order[i] == k && Lookup(coverage, k) == status
    && forall j | 0 <= j < i :: Lookup(coverage, order[j]) != status
  }

  /** The key is the first of the status. */
  ghost predicate FirstOf(order: seq<string>, coverage: map<string, Status>, status: Status, k: string) {
    exists i :: FirstAt(order, coverage, status, k, i)
  }

  lemma {:induction false} FirstWithFinds(order: seq<string>, coverage: map<string, Status>, status: Status)
    ensures match FirstWith(order, coverage, status)
            case Some(k) => FirstOf(order, coverage, status, k)
            case None => forall k | k in order :: Lookup(coverage, k) != status
  {
    if order != [] {
      FirstWithFinds(order[1..], coverage, status);
      var rest := FirstWith(order[1..], coverage, status);
      if Lookup(coverage, order[0]) == status {
        assert FirstAt(order, coverage, status, order[0], 0);
      } else if rest.Some? {
        var i :| FirstAt(order[1..], coverage, status, rest.value, i);
        assert forall j | 0 <= j <= i :: order[j] == if j == 0 then order[0] else order[1..][j - 1];
        assert FirstAt(order, coverage, status, rest.value, i + 1);
      }
    }
  }

  /** The next gap is the first conflicting key if there is one, else the first missing one, else the first partial
      one. */
  lemma NextGapIsFirst(s: State)
    requires OrderOk(s)
    ensures match NextGap(s)
            case None => forall k | k in s.coverage :: s.coverage[k].Covered? || s.coverage[k].OtherStatus?
            case Some(gap) =>
              && gap in s.coverage && FirstOf(s.order, s.coverage, s.coverage[gap], gap)
              && (s.coverage[gap].InConflict? || s.coverage[gap].Missing? || s.coverage[gap].Partial?)
              && (s.coverage[gap].Missing? ==> forall k | k in s.coverage :: !s.coverage[k].InConflict?)
              && (s.coverage[gap].Partial? ==>
                  forall k | k in s.coverage :: !s.coverage[k].InConflict? && !s.coverage[k].Missing?)
  {
    FirstWithFinds(s.order, s.coverage, InConflict);
    FirstWithFinds(s.order, s.coverage, Missing);
    FirstWithFinds(s.order, s.coverage, Partial);
  }

  ghost predicate OrderOk(s: State) {
    forall k :: k in s.order <==> k in s.coverage
  }

  predicate IsComplete(s: State) {
    s.coverage != map[] && forall k | k in s.coverage :: s.coverage[k].Covered?
  }

  datatype Validation = Accepted(signature: Digest<Signature>) | Rejected | Duplicate

  predicate IsSearch(tool: Tool) {
    tool.SearchRepository? || tool.SearchPrdCatalog?
  }

  function ValidateAction(env: Environment, action: Action, gap: string,
                          attempted: seq<Digest<Signature>>): (r: Validation)
    ensures !r.Rejected? ==> IsSearch(action.tool) && gap in action.targets
    ensures r.Accepted? ==> r.signature == SignatureOf(action) && r.signature !in attempted
  {
    if !IsSearch(action.tool) || action.schemaVersion != "1" || gap !in action.targets then Rejected
    else if "query" !in action.arguments || !action.arguments["query"].Str? then Rejected
    else
      var query := action.arguments["query"].s;
      if env.blank(query) || |query| > 1000 then Rejected
      else if SignatureOf(action) in attempted then Duplicate
      else Accepted(SignatureOf(action))
  }

  // ---------------------------------------------------------------- one round

  function BuildRequest(req: InvestigationRequest, s: State, action: Action, items: seq<EvidenceItem>): Request {
    Request(req.header, action, items, req.authorities, s.coverage)
  }

  function FactsOf(knowledge: Option<Bundle>): map<FactId, Fact> {
    Prior(knowledge).facts
  }

  function SupportedFacts(knowledge: Option<Bundle>): set<FactId> {
    set k | k in FactsOf(knowledge) && FactsOf(knowledge)[k].status.Supported?
  }

  function Observed(t: Text, req: InvestigationRequest, s: State, mode: Mode, action: Action,
                    items: seq<EvidenceItem>): State
  {
    match Result(t, BuildRequest(req, s, action, items), s.knowledge)
    case IndexFailure => s
    case Built(bundle, coverage, _) =>
      var newFacts := SupportedFacts(Some(bundle)) - FactsOf(s.knowledge).Keys;
      var before := if s.knowledge.Some? then Some(s.knowledge.value.progressFingerprint) else None;
      State(AddNew(s.order, action.targets), coverage, Some(bundle),
            s.history + [ActionRecord(|s.history| + 1, mode, SignatureOf(action), action, newFacts, before,
                                      bundle.progressFingerprint)])
  }

  predicate Uncovered(s: State, k: string) {
    k in s.coverage && !s.coverage[k].Covered?
  }

  function Gaps(s: State): set<string> {
    set k | k in s.coverage && Uncovered(s, k)
  }

  /** What a round of an accepted action always does: it keeps old facts and records exactly the new supported ones. */
  lemma RoundRecords(t: Text, req: InvestigationRequest, s: State, mode: Mode, action: Action, items: seq<EvidenceItem>)
    requires action.targets != [] && OrderOk(s)
    ensures var n := Observed(t, req, s, mode, action, items);
            && |n.history| == |s.history| + 1 && n.history[..|s.history|] == s.history && OrderOk(n)
            && FactsOf(s.knowledge).Keys <= FactsOf(n.knowledge).Keys
            && n.history[|s.history|].newFacts == SupportedFacts(n.knowledge) - FactsOf(s.knowledge).Keys
            && (forall k :: k in n.history[|s.history|].newFacts <==>
                  && k in FactsOf(n.knowledge) && FactsOf(n.knowledge)[k].status == Supported
                  && k !in FactsOf(s.knowledge))
            && n.history[|s.history|].mode == mode && n.history[|s.history|].signature == SignatureOf(action)
            && n.history[|s.history|].roundIndex == |s.history| + 1
  {
    var r := BuildRequest(req, s, action, items);
    var records := Records(t, SourcesOf(r), items);
    ExtractedOk(t, action, records);
    StoredFacts(FactsOf(s.knowledge), Extract(t, action, records));
    AddNewHolds(s.order, action.targets);
    var merged := Merged(t, r, s.knowledge);
    var c := Coverage(s.coverage, Prior(s.knowledge).unknowns, []);
    forall k
      ensures k in Cover(ContextOf(t, r, merged), c, action.targets).coverage <==>
              k in s.coverage || k in action.targets
    {
      CoveredAt(ContextOf(t, r, merged), c, action.targets, k);
    }
  }

  /** Without conflicts a round with a new fact closes the gap and opens none; no round uncovers a key. */
  lemma RoundCovers(t: Text, req: InvestigationRequest, s: State, mode: Mode, action: Action, items: seq<EvidenceItem>,
                    gap: string)
    requires IsSearch(action.tool) && gap in action.targets && gap in s.coverage && Peaceful(FactsOf(s.knowledge))
    ensures var n := Observed(t, req, s, mode, action, items);
            && Peaceful(FactsOf(n.knowledge))
            && (forall k | k in s.coverage && s.coverage[k].Covered? :: k in n.coverage && n.coverage[k].Covered?)
            && ((exists k :: k in FactsOf(n.knowledge) && k !in FactsOf(s.knowledge)) ==>
                Gaps(n) <= Gaps(s) && !Uncovered(n, gap))
  {
    DirectRound(t, BuildRequest(req, s, action, items), s.knowledge);
  }

  // ---------------------------------------------------------------- what runs keep

  function Signatures(h: seq<ActionRecord>): seq<Digest<Signature>> {
    seq(|h|, i requires 0 <= i < |h| => h[i].signature)
  }

  function Replans(h: seq<ActionRecord>): nat {
    if h == [] then 0 else Replans(h[..|h| - 1]) + if h[|h| - 1].mode.Replan? then 1 else 0
  }

  ghost predicate SignaturesDistinct(h: seq<ActionRecord>) {
    forall i, j | 0 <= i < j < |h| :: h[i].signature != h[j].signature
  }

  /** No fact is new in two rounds, and facts that were new are still known. */
  ghost predicate NewFactsDisjoint(s: State) {
    && (forall i, j | 0 <= i < j < |s.history| :: s.history[i].newFacts !! s.history[j].newFacts)
    && (forall i | 0 <= i < |s.history| :: s.history[i].newFacts <= FactsOf(s.knowledge).Keys)
  }

  ghost predicate CoveredStays(a: State, b: State) {
    forall k | k in a.coverage && a.coverage[k].Covered? :: k in b.coverage && b.coverage[k].Covered?
  }

  /** A later state of the same investigation. */
  ghost predicate Follows(start: State, s: State) {
    && OrderOk(s) && start.history <= s.history
    && (SignaturesDistinct(start.history) ==> SignaturesDistinct(s.history))
    && (NewFactsDisjoint(start) ==> NewFactsDisjoint(s))
    && (Peaceful(FactsOf(start.knowledge)) ==> Peaceful(FactsOf(s.knowledge)) && CoveredStays(start, s))
  }

  /** The next state's history is one record longer: of the given mode and numbered by its position. */
  ghost predicate Recorded(s: State, n: State, mode: Mode) {
    && |n.history| == |s.history| + 1 && n.history[..|s.history|] == s.history
    && n.history[|s.history|].mode == mode && n.history[|s.history|].roundIndex == |s.history| + 1
  }

  lemma HistoryExtends(s: State, n: State)
    requires |n.history| == |s.history| + 1 && n.history[..|s.history|] == s.history
    requires FactsOf(s.knowledge).Keys <= FactsOf(n.knowledge).Keys
    requires n.history[|s.history|].newFacts == SupportedFacts(n.knowledge) - FactsOf(s.knowledge).Keys
    requires n.history[|s.history|].signature !in Signatures(s.history)
    ensures SignaturesDistinct(s.history) ==> SignaturesDistinct(n.history)
    ensures NewFactsDisjoint(s) ==> NewFactsDisjoint(n)
    ensures Replans(n.history) == Replans(s.history) + if n.history[|s.history|].mode.Replan? then 1 else 0
    ensures Signatures(n.history) == Signatures(s.history) + [n.history[|s.history|].signature]
  {
    assert n.history == s.history + [n.history[|s.history|]];
    assert forall i | 0 <= i < |s.history| ::
             n.history[i] == s.history[i] && Signatures(s.history)[i] == s.history[i].signature;
  }

  /** One round of an accepted action. */
  lemma RoundFollows(t: Text, req: InvestigationRequest, start: State, s: State, mode: Mode, action: Action,
      items: seq<EvidenceItem>, gap: string)
    requires Follows(start, s) && IsSearch(action.tool) && gap in action.targets && Uncovered(s, gap)
              && SignatureOf(action) !in Signatures(s.history)
    ensures var n := Observed(t, req, s, mode, action, items);
            && Follows(start, n) && Recorded(s, n, mode)
            && n.history[|s.history|].newFacts <= FactsOf(n.knowledge).Keys - FactsOf(s.knowledge).Keys
            && Signatures(n.history) == Signatures(s.history) + [SignatureOf(action)]
            && Replans(n.history) == Replans(s.history) + (if mode.Replan? then 1 else 0)
            && (Peaceful(FactsOf(start.knowledge)) && n.history[|s.history|].newFacts != {} ==> Gaps(n) < Gaps(s))
  {
    var n := Observed(t, req, s, mode, action, items);
    RoundRecords(t, req, s, mode, action, items);
    HistoryExtends(s, n);
    if Peaceful(FactsOf(start.knowledge)) {
      RoundCovers(t, req, s, mode, action, items, gap);
      if k :| k in n.history[|s.history|].newFacts {
        assert gap in Gaps(s) && gap !in Gaps(n);
      }
    }
  }

  // ---------------------------------------------------------------- the loop

  predicate Reached(limit: Limit, rounds: int) {
    limit.AtMost? && rounds >= limit.n
  }

  datatype Choice = Chosen(action: Action) | Stop(reason: StopReason)

  /** An action that may be carried out for a gap: a search by the known schema, for the gap, with a query that is text,
      not blank and not too long. */
  predicate Admissible(env: Environment, a: Action, gap: string) {
    && (a.tool == SearchRepository || a.tool == SearchPrdCatalog) && a.schemaVersion == "1" && gap in a.targets
    && "query" in a.arguments && a.arguments["query"].Str?
    && !env.blank(a.arguments["query"].s) && |a.arguments["query"].s| <= 1000
  }

  /** The pending action of a resumed run, or the one selected now. */
  function Offered(env: Environment, pending: Option<Action>, selection: Selection): Option<Action> {
    if pending.Some? then pending else env.select(selection)
  }

  /** A pending action has the signature that was validated before, if one is given. */
  predicate Matching(req: InvestigationRequest, pending: Option<Action>) {
    pending.Some? && req.pendingSignature.Some? ==> req.pendingSignature.value == SignatureOf(pending.value)
  }

  /** The action offered may be carried out and was not before. */
  predicate Playable(env: Environment, req: InvestigationRequest, pending: Option<Action>, selection: Selection) {
    && Offered(env, pending, selection).Some? && Matching(req, pending)
    && Admissible(env, Offered(env, pending, selection).value, selection.gap)
    && SignatureOf(Offered(env, pending, selection).value) !in Signatures(selection.state.history)
  }

  /** The action selected may be carried out, but was before. */
  predicate Repeated(env: Environment, pending: Option<Action>, selection: Selection) {
    && pending.None? && env.select(selection).Some?
    && Admissible(env, env.select(selection).value, selection.gap)
    && SignatureOf(env.select(selection).value) in Signatures(selection.state.history)
  }

  /** The action of a round: the one offered, exactly if it may be carried out and was not before; a repeated selection
      ends the run, and everything else raises. */
  method Choose(env: Environment, req: InvestigationRequest, pending: Option<Action>, selection: Selection)
    returns (choice: Choice)
    ensures choice.Chosen? <==> Playable(env, req, pending, selection)
    ensures choice.Chosen? ==> Some(choice.action) == Offered(env, pending, selection)
    ensures choice == Stop(ReplanExhausted) <==> Repeated(env, pending, selection)
    ensures choice.Stop? ==> choice.reason.Raised? || choice.reason.ReplanExhausted?
  {
    var attempted := Signatures(selection.state.history);
    if pending.Some? {
      var v := ValidateAction(env, pending.value, selection.gap, attempted);
      if !v.Accepted? || (req.pendingSignature.Some? && req.pendingSignature.value != v.signature) {
        return Stop(Raised);
      }
      return Chosen(pending.value);
    }
    var selected := env.select(selection);
    if selected.None? {
      return Stop(Raised);
    }
    match ValidateAction(env, selected.value, selection.gap, attempted) {
      case Rejected => return Stop(Raised);
      case Duplicate => return Stop(ReplanExhausted);
      case Accepted(_) => return Chosen(selected.value);
    }
  }

  /** The execution of an action, the build on its evidence, and the record of the round. */
  method Observe(t: Text, req: InvestigationRequest, s: State, mode: Mode, action: Action, items: seq<EvidenceItem>)
    returns (n: State)
    requires CollisionFree(t) && action.targets != []
    ensures n == Observed(t, req, s, mode, action, items)
  {
    var build := Build(t, BuildRequest(req, s, action, items), s.knowledge);
    var beforeFacts := FactsOf(s.knowledge).Keys;
    var before := if s.knowledge.Some? then Some(s.knowledge.value.progressFingerprint) else None;
    var afterFacts := SupportedFacts(Some(build.bundle));
    var record := ActionRecord(|s.history| + 1, mode, SignatureOf(action), action, afterFacts - beforeFacts, before,
        build.bundle.progressFingerprint);
    n := State(AddNew(s.order, action.targets), build.coverage, Some(build.bundle), s.history + [record]);
  }

  /** The facts a round newly supports. */
  predicate Progressed(s: State) {
    s.history != [] && s.history[|s.history| - 1].newFacts != {}
  }

  /** A round, and what it means for the investigation that began in the given state. */
  method Round(t: Text, req: InvestigationRequest, ghost start: State, s: State, mode: Mode, action: Action,
      items: seq<EvidenceItem>, gap: string)
    returns (n: State)
    requires CollisionFree(t)
    requires Follows(start, s) && IsSearch(action.tool) && gap in action.targets && Uncovered(s, gap)
              && SignatureOf(action) !in Signatures(s.history)
    ensures n == Observed(t, req, s, mode, action, items)
    ensures Follows(start, n) && Recorded(s, n, mode)
            && Signatures(n.history) == Signatures(s.history) + [SignatureOf(action)]
    ensures Replans(n.history) == Replans(s.history) + (if mode.Replan? then 1 else 0)
    ensures Peaceful(FactsOf(start.knowledge)) && Progressed(n) ==> Gaps(n) < Gaps(s)
  {
    RoundFollows(t, req, start, s, mode, action, items, gap);
    n := Observe(t, req, s, mode, action, items);
  }

  /** Nothing stops the loop before it chooses an action. */
  predicate Opens(budget: InvestigationBudget, s: State, rounds: int) {
    && !IsComplete(s) && NextGap(s).Some?
    && !Reached(budget.maxIterations, rounds) && !Reached(budget.maxToolCalls, rounds)
  }

  /** Why the loop stops before it chooses an action: coverage comes first, then iterations, then tool calls. */
  predicate Closes(budget: InvestigationBudget, s: State, rounds: int, stop: StopReason) {
    var iterations, toolCalls := Reached(budget.maxIterations, rounds), Reached(budget.maxToolCalls, rounds);
    && (stop.CoverageComplete? || stop.MaxIterationsReached? || stop.ToolBudgetExhausted?)
    && (stop.CoverageComplete? <==> IsComplete(s) || (!iterations && !toolCalls && NextGap(s).None?))
    && (stop.MaxIterationsReached? <==> !IsComplete(s) && iterations)
    && (stop.ToolBudgetExhausted? <==> !IsComplete(s) && !iterations && toolCalls)
  }

  /** Whether the loop stops before choosing an action, and the gap if it does not. */
  method Ready(budget: InvestigationBudget, s: State, rounds: int) returns (stop: Option<StopReason>, gap: string)
    requires OrderOk(s)
    ensures stop.None? <==> Opens(budget, s, rounds)
    ensures stop.None? ==> Uncovered(s, gap) && NextGap(s) == Some(gap)
    ensures stop.Some? ==> Closes(budget, s, rounds, stop.value)
    ensures stop == Some(CoverageComplete) ==> NextGap(s).None?
    ensures s.coverage != map[] && (forall k | k in s.coverage :: s.coverage[k] == Covered) ==>
              stop == Some(CoverageComplete)
    ensures stop == Some(MaxIterationsReached) ==> budget.maxIterations.AtMost? && budget.maxIterations.n <= rounds
    ensures stop == Some(ToolBudgetExhausted) ==> budget.maxToolCalls.AtMost? && budget.maxToolCalls.n <= rounds
    ensures stop.None? ==>
              && (budget.maxIterations.AtMost? ==> rounds < budget.maxIterations.n)
              && (budget.maxToolCalls.AtMost? ==> rounds < budget.maxToolCalls.n)
  {
    NextGapIsFirst(s);
    if IsComplete(s) {
      return Some(CoverageComplete), "";
    }
    if Reached(budget.maxIterations, rounds) {
      return Some(MaxIterationsReached), "";
    }
    if Reached(budget.maxToolCalls, rounds) {
      return Some(ToolBudgetExhausted), "";
    }
    var next := NextGap(s);
    if next.None? {
      return Some(CoverageComplete), "";
    }
    return None, next.value;
  }

  /** What one pass does in a state: it plays a round, or stops for a reason. */
  ghost predicate Plays(env: Environment, req: InvestigationRequest, pending: Option<Action>, selection: Selection) {
    && Opens(req.budget, selection.state, selection.rounds) && NextGap(selection.state) == Some(selection.gap)
    && Playable(env, req, pending, selection) && env.execute(Offered(env, pending, selection).value).Some?
  }

  ghost predicate Stops(env: Environment, req: InvestigationRequest, pending: Option<Action>, selection: Selection,
                        stop: StopReason)
  {
    if !Opens(req.budget, selection.state, selection.rounds)
    then Closes(req.budget, selection.state, selection.rounds, stop)
    else
      && (stop.ReplanExhausted? || stop.Raised?)
      && (stop.ReplanExhausted? <==> Repeated(env, pending, selection))
      && !Plays(env, req, pending, selection)
  }

  /** The gap of the next action, if there is one. */
  function GapOf(s: State): string {
    if NextGap(s).Some? then NextGap(s).value else ""
  }

  /** What a pass up to the record of its round leaves: the state as it was and the reason for the stop, or the state
      after carrying out the action. */
  ghost predicate Turned(env: Environment, req: InvestigationRequest, pending: Option<Action>, selection: Selection,
                         n: State, stop: Option<StopReason>, why: NoProgressReason)
  {
    if stop.Some? then
      n == selection.state && !Plays(env, req, pending, selection) && Stops(env, req, pending, selection, stop.value)
    else
      && Plays(env, req, pending, selection)
      && var action := Offered(env, pending, selection).value;
      && var items := env.execute(action).value;
      && n == Observed(env.text, req, selection.state, selection.mode, action, items) && why == WhyStalled(items)
  }

  /** What a recorded round means for the bounds of the loop. */
  ghost predicate NewRound(start: State, selection: Selection, n: State) {
    && Recorded(selection.state, n, selection.mode)
    && Replans(n.history) == Replans(selection.state.history) + (if selection.mode.Replan? then 1 else 0)
    && (Peaceful(FactsOf(start.knowledge)) && Progressed(n) ==> Gaps(n) < Gaps(selection.state))
  }

  /** The round of an action that may be carried out. */
  method Carry(env: Environment, req: InvestigationRequest, ghost start: State, selection: Selection, action: Action,
               items: seq<EvidenceItem>)
    returns (n: State)
    requires CollisionFree(env.text) && Follows(start, selection.state) && Uncovered(selection.state, selection.gap)
    requires Admissible(env, action, selection.gap)
    requires SignatureOf(action) !in Signatures(selection.state.history)
    ensures n == Observed(env.text, req, selection.state, selection.mode, action, items)
    ensures Follows(start, n) && NewRound(start, selection, n)
  {
    n := Round(env.text, req, start, selection.state, selection.mode, action, items, selection.gap);
  }

  lemma StopIsTurned(env: Environment, req: InvestigationRequest, pending: Option<Action>, selection: Selection,
                     stop: StopReason)
    requires Opens(req.budget, selection.state, selection.rounds) && !Plays(env, req, pending, selection)
    requires stop == if Repeated(env, pending, selection) then ReplanExhausted else Raised
    ensures Turned(env, req, pending, selection, selection.state, Some(stop), EmptyOutcome)
  {
  }

  lemma PlayIsTurned(env: Environment, req: InvestigationRequest, pending: Option<Action>, selection: Selection,
                     action: Action, items: seq<EvidenceItem>)
    requires Plays(env, req, pending, selection) && Offered(env, pending, selection) == Some(action)
    requires env.execute(action) == Some(items)
    ensures Turned(env, req, pending, selection,
                   Observed(env.text, req, selection.state, selection.mode, action, items), None,
                   if items == [] then EmptyOutcome else OnlyRelatedEvidence)
  {
  }

  /** A pass that nothing stops before it chooses an action. */
  method Act(env: Environment, req: InvestigationRequest, ghost start: State, selection: Selection,
             pending: Option<Action>)
    returns (n: State, stop: Option<StopReason>, why: NoProgressReason)
    requires CollisionFree(env.text) && Follows(start, selection.state)
             && NextGap(selection.state) == Some(selection.gap)
    requires Opens(req.budget, selection.state, selection.rounds) && Uncovered(selection.state, selection.gap)
    ensures Follows(start, n) && Turned(env, req, pending, selection, n, stop, why)
    ensures stop != Some(CoverageComplete)
    ensures stop.None? ==> NewRound(start, selection, n)
  {
    n, why := selection.state, EmptyOutcome;
    var choice := Choose(env, req, pending, selection);
    if choice.Stop? {
      stop := Some(choice.reason);
      StopIsTurned(env, req, pending, selection, choice.reason);
      return;
    }
    var items := env.execute(choice.action);
    if items.None? {
      stop := Some(Raised);
      StopIsTurned(env, req, pending, selection, Raised);
      return;
    }
    PlayIsTurned(env, req, pending, selection, choice.action, items.value);
    n := Carry(env, req, start, selection, choice.action, items.value);
    stop, why := None, if items.value == [] then EmptyOutcome else OnlyRelatedEvidence;
  }

  /** One pass of the loop up to the record of its round: either it stops and nothing changes, or a round is added. */
  method Turn(env: Environment, req: InvestigationRequest, ghost start: State, selection: Selection,
              pending: Option<Action>)
    returns (n: State, stop: Option<StopReason>, why: NoProgressReason)
    requires CollisionFree(env.text) && Follows(start, selection.state) && selection.gap == GapOf(selection.state)
    ensures Follows(start, n) && Turned(env, req, pending, selection, n, stop, why)
    ensures stop == Some(CoverageComplete) ==> NextGap(n).None?
    ensures stop.None? ==> NewRound(start, selection, n)
    ensures stop.None? ==> !Reached(req.budget.maxIterations, selection.rounds)
    ensures stop.None? ==> !Reached(req.budget.maxToolCalls, selection.rounds)
  {
    var gap;
    stop, gap := Ready(req.budget, selection.state, selection.rounds);
    if stop.Some? {
      return selection.state, stop, EmptyOutcome;
    }
    n, stop, why := Act(env, req, start, selection, pending);
  }

  /** Why a round that found nothing new did not. */
  function WhyStalled(items: seq<EvidenceItem>): NoProgressReason {
    if items == [] then EmptyOutcome else OnlyRelatedEvidence
  }

  ghost predicate WithinLimits(budget: InvestigationBudget, rounds: int) {
    (budget.maxIterations.AtMost? ==> rounds <= budget.maxIterations.n)
        && (budget.maxToolCalls.AtMost? ==> rounds <= budget.maxToolCalls.n)
  }

  function StatusOf(stop: StopReason, s: State): RunStatus {
    if stop.CoverageComplete? then Complete
    else if stop.Raised? then Failed
    else if FactsOf(s.knowledge) != map[] then PartialResult
    else Empty
  }

  /** Record i is numbered by its position, and is a replan exactly when the round before it in this run found
      nothing new. */
  ghost predicate ModeFollows(mode: Mode, first: nat, h: seq<ActionRecord>, i: nat)
    requires i < |h|
  {
    h[i].roundIndex == i + 1 && h[i].mode == if i <= first || h[i - 1].newFacts != {} then mode else Replan
  }

  ghost predicate ModesFollow(mode: Mode, first: nat, h: seq<ActionRecord>) {
    forall i | first <= i < |h| :: ModeFollows(mode, first, h, i)
  }

  function NextMode(mode: Mode, first: nat, s: State): Mode {
    if |s.history| <= first || Progressed(s) then mode else Replan
  }

  lemma ModesExtend(mode: Mode, first: nat, s: State, n: State)
    requires first <= |s.history| && ModesFollow(mode, first, s.history) && Recorded(s, n, NextMode(mode, first, s))
    ensures ModesFollow(mode, first, n.history)
  {
    assert forall i | 0 <= i < |s.history| :: n.history[i] == s.history[i];
    forall i | first <= i < |n.history| ensures ModeFollows(mode, first, n.history, i) {
      if i < |s.history| {
        assert ModeFollows(mode, first, s.history, i);
      }
    }
  }

  /** The variables of the loop. */
  datatype Loop = Loop(s: State, replans: nat, noProgress: nat, nextMode: Mode, reason: Option<NoProgressReason>)

  function Offset(req: InvestigationRequest, start: State): nat {
    if req.mode.Supplement? then |start.history| else 0
  }

  function FirstReplans(req: InvestigationRequest, start: State): nat {
    if req.mode.Supplement? then 0 else Replans(start.history)
  }

  ghost predicate LoopOk(req: InvestigationRequest, start: State, v: Loop) {
    && Follows(start, v.s)
    && (v.s == start || WithinLimits(req.budget, |v.s.history| - Offset(req, start)))
    && (req.mode.Initial? ==> Replans(v.s.history) + (if v.nextMode.Replan? then 1 else 0) <= v.replans)
    && FirstReplans(req, start) <= v.replans <= Max(req.budget.maxReplans, FirstReplans(req, start))
    && ModesFollow(req.mode, |start.history|, v.s.history) && v.nextMode == NextMode(req.mode, |start.history|, v.s)
  }

  /** What one more round does to the bounds: it uses up a replan, or closes a gap without opening one. */
  ghost predicate Nearer(req: InvestigationRequest, v: Loop, n: Loop) {
    || (v.replans < req.budget.maxReplans && n.replans == v.replans + 1)
    || (n.replans == v.replans && Gaps(n.s) < Gaps(v.s))
  }

  /** What a round that was recorded within the limits leaves: the bounds of the loop, whether it goes on or ends
      there. */
  lemma RoundKeepsBounds(req: InvestigationRequest, start: State, v: Loop, s: State)
    requires LoopOk(req, start, v) && Follows(start, s) && Recorded(v.s, s, v.nextMode)
    requires Replans(s.history) == Replans(v.s.history) + (if v.nextMode.Replan? then 1 else 0)
    requires var rounds := |v.s.history| - Offset(req, start);
             !Reached(req.budget.maxIterations, rounds) && !Reached(req.budget.maxToolCalls, rounds)
    ensures WithinLimits(req.budget, |s.history| - Offset(req, start))
            && ModesFollow(req.mode, |start.history|, s.history)
    ensures req.mode.Initial? ==> Replans(s.history) <= v.replans
    ensures s != start && NextMode(req.mode, |start.history|, s) == (if Progressed(s) then req.mode else Replan)
  {
    ModesExtend(req.mode, |start.history|, v.s, s);
  }

  /** What the loop asks for next. */
  function SelectionOf(v: Loop, offset: nat): Selection
    requires offset <= |v.s.history|
  {
    Selection(v.nextMode, GapOf(v.s), v.s, v.reason, |v.s.history| - offset, v.replans)
  }

  /** How one pass moves the variables of the loop. */
  ghost predicate Moved(env: Environment, req: InvestigationRequest, pending: Option<Action>, offset: nat, v: Loop,
                        n: Loop, stop: Option<StopReason>)
    requires offset <= |v.s.history|
  {
    var selection := SelectionOf(v, offset);
    if !Plays(env, req, pending, selection) then
      && stop.Some? && !stop.value.NoProgress? && Stops(env, req, pending, selection, stop.value)
      && n.s == v.s && n.replans == v.replans
      && n.noProgress == v.noProgress + if stop.value.ReplanExhausted? then 1 else 0
    else
      var action := Offered(env, pending, selection).value;
      var items := env.execute(action).value;
      var s := Observed(env.text, req, v.s, v.nextMode, action, items);
      if Progressed(s) then stop.None? && n == Loop(s, v.replans, 0, req.mode, None)
      else if v.replans < req.budget.maxReplans then
        stop.None? && n == Loop(s, v.replans + 1, v.noProgress + 1, Replan, Some(WhyStalled(items)))
      else stop == Some(NoProgress) && n.s == s && n.replans == v.replans && n.noProgress == v.noProgress + 1
  }

  /** The variables after a round, and whether the run ends there for want of progress. */
  function Advance(req: InvestigationRequest, v: Loop, s: State, why: NoProgressReason): (Loop, Option<StopReason>) {
    if Progressed(s) then (Loop(s, v.replans, 0, req.mode, None), None)
    else if v.replans >= req.budget.maxReplans then
      (Loop(s, v.replans, v.noProgress + 1, v.nextMode, Some(why)), Some(NoProgress))
    else (Loop(s, v.replans + 1, v.noProgress + 1, Replan, Some(why)), None)
  }

  lemma AdvanceMoves(env: Environment, req: InvestigationRequest, pending: Option<Action>, offset: nat, v: Loop,
                     s: State, why: NoProgressReason)
    requires offset <= |v.s.history| && Turned(env, req, pending, SelectionOf(v, offset), s, None, why)
    ensures Moved(env, req, pending, offset, v, Advance(req, v, s, why).0, Advance(req, v, s, why).1)
  {
  }

  /** The bounds of a run that ended. */
  ghost predicate Bounded(req: InvestigationRequest, start: State, n: Loop) {
    && Follows(start, n.s) && ModesFollow(req.mode, |start.history|, n.s.history)
    && (n.s == start || WithinLimits(req.budget, |n.s.history| - Offset(req, start)))
    && (req.mode.Initial? ==> Replans(n.s.history) <= n.replans)
    && n.replans <= Max(req.budget.maxReplans, FirstReplans(req, start))
  }

  lemma AdvanceKeeps(req: InvestigationRequest, start: State, v: Loop, s: State, why: NoProgressReason)
    requires LoopOk(req, start, v) && Follows(start, s)
    requires NewRound(start, SelectionOf(v, Offset(req, start)), s)
    requires var rounds := |v.s.history| - Offset(req, start);
             !Reached(req.budget.maxIterations, rounds) && !Reached(req.budget.maxToolCalls, rounds)
    ensures var (n, stop) := Advance(req, v, s, why);
            && (stop.None? ==> LoopOk(req, start, n) && |n.s.history| == |v.s.history| + 1)
            && (stop.None? && Peaceful(FactsOf(start.knowledge)) ==> Nearer(req, v, n))
            && (stop.Some? ==> Bounded(req, start, n))
  {
    RoundKeepsBounds(req, start, v, s);
  }

  lemma StopMoves(env: Environment, req: InvestigationRequest, start: State, pending: Option<Action>, offset: nat,
                  v: Loop,
                  stop: StopReason, why: NoProgressReason)
    requires LoopOk(req, start, v) && offset <= |v.s.history|
    requires Turned(env, req, pending, SelectionOf(v, offset), v.s, Some(stop), why)
    ensures var n := v.(noProgress := if stop.ReplanExhausted? then v.noProgress + 1 else v.noProgress);
            Moved(env, req, pending, offset, v, n, Some(stop)) && Bounded(req, start, n)
  {
  }

  /** One pass of the loop. */
  method Pass(env: Environment, req: InvestigationRequest, ghost start: State, v: Loop, offset: nat,
              pending: Option<Action>)
    returns (n: Loop, stop: Option<StopReason>)
    requires CollisionFree(env.text) && LoopOk(req, start, v) && offset == Offset(req, start)
    ensures Moved(env, req, pending, offset, v, n, stop)
    ensures stop.None? ==> LoopOk(req, start, n)
    ensures stop.Some? ==> Bounded(req, start, n)
    ensures stop == Some(CoverageComplete) ==> NextGap(n.s).None?
    ensures stop.None? ==>
              !Reached(req.budget.maxIterations, |v.s.history| - offset)
              && !Reached(req.budget.maxToolCalls, |v.s.history| - offset)
    ensures stop.None? ==> |n.s.history| == |v.s.history| + 1
    ensures stop.None? && Peaceful(FactsOf(start.knowledge)) ==> Nearer(req, v, n)
  {
    var s, why;
    s, stop, why := Turn(env, req, start, SelectionOf(v, offset), pending);
    if stop.Some? {
      StopMoves(env, req, start, pending, offset, v, stop.value, why);
      n := v.(noProgress := if stop.value.ReplanExhausted? then v.noProgress + 1 else v.noProgress);
      return;
    }
    AdvanceMoves(env, req, pending, offset, v, s, why);
    AdvanceKeeps(req, start, v, s, why);
    var next := Advance(req, v, s, why);
    return next.0, next.1;
  }

  // ---------------------------------------------------------------- what a run did

  /** A round of a run: what the loop asked for, the action it carried out and what that found. */
  datatype Entry = Entry(selection: Selection, action: Action, items: seq<EvidenceItem>)

  /** The state after the rounds. */
  ghost function Played(t: Text, req: InvestigationRequest, start: State, journal: seq<Entry>): State {
    if journal == [] then start
    else
      var e := journal[|journal| - 1];
      Observed(t, req, Played(t, req, start, journal[..|journal| - 1]), e.selection.mode, e.action, e.items)
  }

  /** The last round found nothing new. */
  ghost predicate Stalled(t: Text, req: InvestigationRequest, start: State, journal: seq<Entry>) {
    journal != [] && !Progressed(Played(t, req, start, journal))
  }

  /** How many rounds found nothing new. */
  ghost function Stalls(t: Text, req: InvestigationRequest, start: State, journal: seq<Entry>): nat {
    if journal == [] then 0
    else
      Stalls(t, req, start, journal[..|journal| - 1]) + if Stalled(t, req, start, journal) then 1 else 0
  }

  /** How many rounds have found nothing new since the last that did. */
  ghost function Idle(t: Text, req: InvestigationRequest, start: State, journal: seq<Entry>): nat {
    if Stalled(t, req, start, journal) then Idle(t, req, start, journal[..|journal| - 1]) + 1 else 0
  }

  /** The replans used up after the rounds. */
  ghost function Used(t: Text, req: InvestigationRequest, start: State, journal: seq<Entry>): nat {
    FirstReplans(req, start) + Stalls(t, req, start, journal)
  }

  /** What the loop asks for after the rounds: an action for the next gap, as a replan exactly after a round that found
      nothing new, with the reason why it did not. */
  ghost function SelectionAfter(t: Text, req: InvestigationRequest, start: State, journal: seq<Entry>): Selection {
    var s, stalled := Played(t, req, start, journal), Stalled(t, req, start, journal);
    Selection(if stalled then Replan else req.mode, GapOf(s), s,
              if stalled then Some(WhyStalled(journal[|journal| - 1].items)) else None,
              Max(0, |s.history| - Offset(req, start)), Used(t, req, start, journal))
  }

  function PendingAfter(req: InvestigationRequest, journal: seq<Entry>): Option<Action> {
    if journal == [] then req.pending else None
  }

  /** A stalled run may go on only while replans are left. */
  ghost predicate MayGoOn(t: Text, req: InvestigationRequest, start: State, journal: seq<Entry>) {
    Stalled(t, req, start, journal) ==> Used(t, req, start, journal) <= req.budget.maxReplans
  }

  /** The next round is the one that the callbacks and the state after the rounds before it determine. */
  ghost predicate NextRound(env: Environment, req: InvestigationRequest, start: State, journal: seq<Entry>, e: Entry) {
    var selection, pending := SelectionAfter(env.text, req, start, journal), PendingAfter(req, journal);
    && MayGoOn(env.text, req, start, journal) && Plays(env, req, pending, selection)
    && e.selection == selection && Offered(env, pending, selection) == Some(e.action)
    && env.execute(e.action) == Some(e.items)
  }

  ghost predicate Explained(env: Environment, req: InvestigationRequest, start: State, journal: seq<Entry>) {
    forall i | 0 <= i < |journal| :: NextRound(env, req, start, journal[..i], journal[i])
  }

  /** Why the run ended after the rounds: no replan was left after a round that found nothing new, or nothing could be
      carried out. */
  ghost predicate EndsWith(env: Environment, req: InvestigationRequest, start: State, journal: seq<Entry>,
                           stop: StopReason)
  {
    if stop.NoProgress? then !MayGoOn(env.text, req, start, journal)
    else
      && MayGoOn(env.text, req, start, journal)
      && Stops(env, req, PendingAfter(req, journal), SelectionAfter(env.text, req, start, journal), stop)
  }

  /** The variables of the loop after the rounds. */
  ghost predicate LoopAfter(env: Environment, req: InvestigationRequest, start: State, journal: seq<Entry>, v: Loop) {
    var selection := SelectionAfter(env.text, req, start, journal);
    && v == Loop(selection.state, selection.replans, Idle(env.text, req, start, journal), selection.mode,
                 selection.noProgressReason)
    && MayGoOn(env.text, req, start, journal) && Offset(req, start) <= |v.s.history|
  }

  /** The counters a run reports. */
  ghost predicate Reported(env: Environment, req: InvestigationRequest, start: State, journal: seq<Entry>,
                           stop: StopReason, replans: nat, noProgress: nat)
  {
    && replans == Used(env.text, req, start, journal) - (if stop.NoProgress? then 1 else 0)
    && noProgress == Idle(env.text, req, start, journal) + (if stop.ReplanExhausted? then 1 else 0)
  }

  lemma RoundIsNext(env: Environment, req: InvestigationRequest, start: State, journal: seq<Entry>, e: Entry)
    requires Explained(env, req, start, journal) && NextRound(env, req, start, journal, e)
    ensures Explained(env, req, start, journal + [e])
  {
    var longer := journal + [e];
    forall i | 0 <= i < |longer| ensures NextRound(env, req, start, longer[..i], longer[i]) {
      if i < |journal| {
        assert longer[..i] == journal[..i] && longer[i] == journal[i];
        assert NextRound(env, req, start, journal[..i], journal[i]);
      } else {
        assert longer[..i] == journal && longer[i] == e;
      }
    }
  }

  /** One round more, in what it leaves. */
  lemma OneRoundMore(t: Text, req: InvestigationRequest, start: State, journal: seq<Entry>, e: Entry)
    ensures var longer, s := journal + [e], Played(t, req, start, journal);
            var n := Observed(t, req, s, e.selection.mode, e.action, e.items);
            && Played(t, req, start, longer) == n
            && (Stalled(t, req, start, longer) <==> !Progressed(n))
            && Used(t, req, start, longer) == Used(t, req, start, journal) + (if Progressed(n) then 0 else 1)
            && Idle(t, req, start, longer) == if Progressed(n) then 0 else Idle(t, req, start, journal) + 1
  {
    assert (journal + [e])[..|journal|] == journal;
  }

  /** The entry of a round that is played. */
  ghost function EntryOf(env: Environment, pending: Option<Action>, selection: Selection): Entry
    requires Offered(env, pending, selection).Some?
    requires env.execute(Offered(env, pending, selection).value).Some?
  {
    Entry(selection, Offered(env, pending, selection).value, env.execute(Offered(env, pending, selection).value).value)
  }

  lemma PlayedPass(env: Environment, req: InvestigationRequest, start: State, journal: seq<Entry>, v: Loop, n: Loop,
                   stop: Option<StopReason>)
    requires LoopAfter(env, req, start, journal, v)
    requires Moved(env, req, PendingAfter(req, journal), Offset(req, start), v, n, stop)
    requires Plays(env, req, PendingAfter(req, journal), SelectionOf(v, Offset(req, start)))
    requires stop.None? ==> Offset(req, start) <= |n.s.history|
    ensures SelectionOf(v, Offset(req, start)) == SelectionAfter(env.text, req, start, journal)
    ensures var e := EntryOf(env, PendingAfter(req, journal), SelectionOf(v, Offset(req, start)));
            var longer := journal + [e];
            && n.s == Played(env.text, req, start, longer)
            && (stop.None? ==> LoopAfter(env, req, start, longer, n))
            && (stop.Some? ==>
                  && EndsWith(env, req, start, longer, stop.value)
                  && Reported(env, req, start, longer, stop.value, n.replans, n.noProgress))
  {
    var selection := SelectionOf(v, Offset(req, start));
    assert selection == SelectionAfter(env.text, req, start, journal);
    var e := EntryOf(env, PendingAfter(req, journal), selection);
    OneRoundMore(env.text, req, start, journal, e);
    assert (journal + [e])[|journal|] == e;
  }

  lemma UnplayedPass(env: Environment, req: InvestigationRequest, start: State, journal: seq<Entry>, v: Loop, n: Loop,
                     stop: Option<StopReason>)
    requires LoopAfter(env, req, start, journal, v)
    requires Moved(env, req, PendingAfter(req, journal), Offset(req, start), v, n, stop)
    requires !Plays(env, req, PendingAfter(req, journal), SelectionOf(v, Offset(req, start)))
    ensures stop.Some? && n.s == Played(env.text, req, start, journal)
    ensures EndsWith(env, req, start, journal, stop.value)
    ensures Reported(env, req, start, journal, stop.value, n.replans, n.noProgress)
  {
    assert SelectionOf(v, Offset(req, start)) == SelectionAfter(env.text, req, start, journal);
  }

  lemma PassIsRound(env: Environment, req: InvestigationRequest, start: State, journal: seq<Entry>, v: Loop, n: Loop,
                    stop: Option<StopReason>)
    returns (longer: seq<Entry>)
    requires LoopAfter(env, req, start, journal, v) && Explained(env, req, start, journal)
    requires Moved(env, req, PendingAfter(req, journal), Offset(req, start), v, n, stop)
    requires stop.None? ==> Offset(req, start) <= |n.s.history|
    ensures stop.None? ==> longer != [] && Going(env, req, start, longer, n)
    ensures stop.Some? ==> Over(env, req, start, longer, n, stop.value)
  {
    var selection, pending := SelectionOf(v, Offset(req, start)), PendingAfter(req, journal);
    if Plays(env, req, pending, selection) {
      PlayedPass(env, req, start, journal, v, n, stop);
      var e := EntryOf(env, pending, selection);
      RoundIsNext(env, req, start, journal, e);
      longer := journal + [e];
    } else {
      UnplayedPass(env, req, start, journal, v, n, stop);
      longer := journal;
    }
  }

  /** The rounds so far are explained, and the variables of the loop are what they leave. */
  ghost predicate Going(env: Environment, req: InvestigationRequest, start: State, journal: seq<Entry>, v: Loop) {
    Explained(env, req, start, journal) && LoopAfter(env, req, start, journal, v)
  }

  /** The rounds are explained, and so is the end. */
  ghost predicate Over(env: Environment, req: InvestigationRequest, start: State, journal: seq<Entry>, v: Loop,
                       stop: StopReason)
  {
    && Explained(env, req, start, journal) && v.s == Played(env.text, req, start, journal)
    && EndsWith(env, req, start, journal, stop)
    && Reported(env, req, start, journal, stop, v.replans, v.noProgress)
  }

  /** How far a limit is, if there is one. */
  function Distance(budget: InvestigationBudget, rounds: int): int {
    if budget.maxIterations.AtMost? then budget.maxIterations.n - rounds
    else if budget.maxToolCalls.AtMost? then budget.maxToolCalls.n - rounds
    else 0
  }

  lemma RunBegins(env: Environment, req: InvestigationRequest, start: State)
    requires OrderOk(start)
    ensures var v := Loop(start, FirstReplans(req, start), 0, req.mode, None);
            LoopOk(req, start, v) && Going(env, req, start, [], v)
  {
  }

  /** The rounds until the run ends. */
  method Rounds(env: Environment, req: InvestigationRequest, start: State)
    returns (v: Loop, stop: StopReason, ghost journal: seq<Entry>)
    requires CollisionFree(env.text) && OrderOk(start)
    requires Peaceful(FactsOf(start.knowledge)) || req.budget.maxIterations.AtMost? || req.budget.maxToolCalls.AtMost?
    ensures Bounded(req, start, v) && Over(env, req, start, journal, v, stop)
    ensures stop.CoverageComplete? ==> NextGap(v.s).None?
  {
    var offset := Offset(req, start);
    v := Loop(start, FirstReplans(req, start), 0, req.mode, None);
    var pending := req.pending;
    ghost var peaceful := Peaceful(FactsOf(start.knowledge));
    var ended := None;
    journal := [];
    RunBegins(env, req, start);
    while ended.None?
      invariant ended.None? ==> LoopOk(req, start, v) && Going(env, req, start, journal, v)
      invariant ended.None? ==> pending == PendingAfter(req, journal)
      invariant ended.Some? ==> Bounded(req, start, v) && Over(env, req, start, journal, v, ended.value)
      invariant ended == Some(CoverageComplete) ==> NextGap(v.s).None?
      decreases ended.None?, if peaceful then req.budget.maxReplans - v.replans else Distance(req.budget,
          |v.s.history| - offset), if peaceful then Gaps(v.s) else {}
    {
      ghost var before := v;
      v, ended := Pass(env, req, start, v, offset, pending);
      journal := PassIsRound(env, req, start, journal, before, v, ended);
      pending := None;
    }
    stop := ended.value;
  }

  /** The loop.  It ends although both limits may be absent, as long as the knowledge it starts from has no clash:
      every round either uses up a replan or closes a gap without opening one. */
  method Run(env: Environment, req: InvestigationRequest, start: State)
    returns (s: State, stop: StopReason, status: RunStatus, replans: nat, noProgress: nat, ghost journal: seq<Entry>)
    requires CollisionFree(env.text) && OrderOk(start)
    requires Peaceful(FactsOf(start.knowledge)) || req.budget.maxIterations.AtMost? || req.budget.maxToolCalls.AtMost?
    ensures Follows(start, s)
    ensures s == start || WithinLimits(req.budget, |s.history| - if req.mode.Supplement? then |start.history| else 0)
    ensures req.mode.Initial? ==> Replans(s.history) <= Max(req.budget.maxReplans, Replans(start.history))
    ensures ModesFollow(req.mode, |start.history|, s.history)
    ensures stop.CoverageComplete? ==> NextGap(s).None?
    ensures Explained(env, req, start, journal) && s == Played(env.text, req, start, journal)
    ensures EndsWith(env, req, start, journal, stop)
    ensures Reported(env, req, start, journal, stop, replans, noProgress)
    ensures status == StatusOf(stop, s)
    ensures (status == Complete <==> stop == CoverageComplete) && (status == Failed <==> stop == Raised)
    ensures status == Empty <==>
              stop != CoverageComplete && stop != Raised
                  && (s.knowledge.None? || s.knowledge.value.content.facts == map[])
  {
    var v;
    v, stop, journal := Rounds(env, req, start);
    s, status, replans, noProgress := v.s, StatusOf(stop, v.s), v.replans, v.noProgress;
  }

  /** Callbacks that always give an action that may be carried out, and a tool that always answers. */
  ghost predicate Obliging(env: Environment) {
    && (forall selection :: env.select(selection).Some?
                            && Admissible(env, env.select(selection).value, selection.gap))
    && (forall action :: env.execute(action).Some?)
  }

  /** The selector never selects what was carried out before. */
  ghost predicate Inventive(env: Environment) {
    forall selection :: env.select(selection).Some? ==>
      SignatureOf(env.select(selection).value) !in Signatures(selection.state.history)
  }

  /** With such callbacks and no pending action, a run ends for coverage, a limit, want of progress or a repeated
      selection alone, and without the last if the selector never repeats itself. */
  lemma ObligingRunsNeverRaise(env: Environment, req: InvestigationRequest, start: State, journal: seq<Entry>,
                               stop: StopReason)
    requires Obliging(env) && req.pending.None? && EndsWith(env, req, start, journal, stop)
    ensures !stop.Raised? && (Inventive(env) ==> !stop.ReplanExhausted?)
  {
  }

  /** A run raises only where a callback raises or offers what may not be carried out. */
  lemma RaisedOnlyByCallbacks(env: Environment, req: InvestigationRequest, start: State, journal: seq<Entry>)
    requires EndsWith(env, req, start, journal, Raised)
    ensures var selection, pending := SelectionAfter(env.text, req, start, journal), PendingAfter(req, journal);
            var offered := Offered(env, pending, selection);
            || offered.None? || !Matching(req, pending) || !Admissible(env, offered.value, selection.gap)
            || env.execute(offered.value).None?
            || (pending.Some? && SignatureOf(offered.value) in Signatures(selection.state.history))
  {
  }

  // ---------------------------------------------------------------- chains of resumed runs

  datatype Resumption = Resumption(env: Environment, pending: Option<Action>,
                                   pendingSignature: Option<Digest<Signature>>)

  ghost predicate Positive(budget: InvestigationBudget) {
    (budget.maxIterations.AtMost? ==> budget.maxIterations.n >= 1)
        && (budget.maxToolCalls.AtMost? ==> budget.maxToolCalls.n >= 1)
  }

  /** Any chain of INITIAL runs, each resumed from what the one before left, keeps the bounds of a single run. */
  method ResumeChain(header: Header, authorities: seq<Authority>, budget: InvestigationBudget, runs: seq<Resumption>,
      start: State) returns (s: State)
    requires forall r | r in runs :: CollisionFree(r.env.text)
    requires OrderOk(start) && start.history == [] && Positive(budget)
    requires Peaceful(FactsOf(start.knowledge)) || budget.maxIterations.AtMost? || budget.maxToolCalls.AtMost?
    ensures SignaturesDistinct(s.history) && NewFactsDisjoint(s)
    ensures WithinLimits(budget, |s.history|) && Replans(s.history) <= budget.maxReplans
    ensures Peaceful(FactsOf(start.knowledge)) ==> CoveredStays(start, s)
  {
    s := start;
    for i := 0 to |runs|
      invariant Follows(start, s) && WithinLimits(budget, |s.history|) && Replans(s.history) <= budget.maxReplans
    {
      var run := runs[i];
      assert run in runs;
      var request := InvestigationRequest(header, Initial, authorities, budget, run.pending, run.pendingSignature);
      ghost var before := s;
      var stop, status, replans, noProgress;
      ghost var journal;
      s, stop, status, replans, noProgress, journal := Run(run.env, request, s);
    }
  }
}
