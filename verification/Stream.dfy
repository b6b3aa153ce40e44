/** The event stream of one run, for every behaviour of the loop whose events are all acknowledged. */
module Stream {
  import opened Budget

  datatype Payload =
    | ModelAttempt(attemptKey: string, operation: string, requestHash: string, status: string)
    | EvidenceAppended(count: nat)
    | ArtifactSaved(artifactKey: string, artifactType: string, requestHash: string, contentHash: string, size: nat)
    | CheckpointSaved(checkpoint: int, size: nat)
    | LedgerEvent(eventType: string, operationKey: string, operation: string, requestHash: string, entryKind: string)
    | Unsupported(eventType: string)

  datatype Failure = Cancelled | InvalidAgentResult | LoopError(name: string)

  datatype Kind =
    | RunStarted
    | Progress(payload: Payload)
    | DraftSubmitted(draftKey: string)
    | RunOutputSubmitted
    | RunCompleted
    | RunFailed(failure: Failure)

  datatype Event = Event(sequence: nat, kind: Kind)

  datatype Limits = Limits(maxCheckpointBytes: nat, maxDraftBytes: nat, maxArtifactBytes: nat, maxEvidenceItems: nat)

  datatype Disposition = NotReady | SubmitRequired | TerminalAckOnly

  /** A run output, reduced to whether its identity fields are present, its version and its size. */
  datatype RunOutput = RunOutput(identified: bool, expectedTaskVersion: int, size: nat)

  datatype AgentResult = AgentResult(
    attempts: seq<Payload>, evidence: nat, checkpointSequence: Option<int>, checkpointSize: nat,
    draftKey: Option<string>, draftPatchSize: nat, expectedTaskVersion: Option<int>,
    runOutput: Option<RunOutput>, disposition: Disposition)

  /** How the loop thread ends: with a result and perhaps a shadow artifact, with an exception that the stream
      reports, or with one outside the Exception hierarchy. */
  datatype Ending =
    | Finished(result: AgentResult, shadow: Option<Payload>)
    | Threw(failure: Failure)
    | ThrewOutside

  /** One run: what it was given, what its loop emits, how it ends, and whether it is cancelled by then. */
  datatype Run = Run(limits: Limits, checkpoint: int, hasSubmittedDraft: bool, signals: seq<Payload>,
                     ending: Ending, cancelled: bool)

  predicate Terminal(kind: Kind) {
    kind.RunCompleted? || kind.RunFailed?
  }

  predicate AttemptComplete(p: Payload) {
    p.ModelAttempt? && p.attemptKey != "" && p.operation != "" && p.requestHash != "" && p.status != ""
  }

  predicate ArtifactComplete(limits: Limits, p: Payload) {
    p.ArtifactSaved? && p.artifactKey != "" && p.artifactType != "" && p.requestHash != "" && p.contentHash != ""
    && 0 < p.size <= limits.maxArtifactBytes
  }

  /** Whether the generator accepts a signal, given the latest checkpoint sequence. */
  predicate SignalOk(limits: Limits, latest: int, p: Payload) {
    match p
    case ModelAttempt(_, _, _, _) => AttemptComplete(p)
    case EvidenceAppended(count) => count <= limits.maxEvidenceItems
    case ArtifactSaved(_, _, _, _, _) => ArtifactComplete(limits, p)
    case CheckpointSaved(checkpoint, size) => latest < checkpoint && 0 < size <= limits.maxCheckpointBytes
    case LedgerEvent(eventType, operationKey, operation, requestHash, entryKind) =>
      && eventType in {"LEDGER_RESERVED", "LEDGER_CALL_STARTED", "LEDGER_FINISHED"}
      && operationKey != "" && operation != "" && requestHash != "" && entryKind != ""
    case Unsupported(_) => false
  }

  function LatestAfter(latest: int, p: Payload): int {
    if p.CheckpointSaved? then p.checkpoint else latest
  }

  /** The latest checkpoint sequence after the given signals. */
  function Latest(start: int, signals: seq<Payload>): int {
    if signals == [] then start else LatestAfter(Latest(start, signals[..|signals| - 1]), signals[|signals| - 1])
  }

  /** Every signal is accepted when its turn comes. */
  ghost predicate SignalsOk(run: Run, n: nat)
    requires n <= |run.signals|
  {
    n == 0 || (SignalsOk(run, n - 1)
               && SignalOk(run.limits, Latest(run.checkpoint, run.signals[..n - 1]), run.signals[n - 1]))
  }

  predicate ResultOk(limits: Limits, latest: int, r: AgentResult) {
    var hasDraft := (r.draftKey.Some? && r.draftKey.value != "") || r.draftPatchSize > 0;
    && (forall i | 0 <= i < |r.attempts| :: AttemptComplete(r.attempts[i]))
    && r.evidence <= limits.maxEvidenceItems
    && r.checkpointSize <= limits.maxCheckpointBytes
    && (r.checkpointSequence.Some? ==> latest < r.checkpointSequence.value && r.checkpointSize > 0)
    && r.draftPatchSize <= limits.maxDraftBytes
    && if r.disposition.TerminalAckOnly?
       then !hasDraft && r.runOutput.None? && r.expectedTaskVersion.None?
       else
         && !(hasDraft && r.runOutput.Some?)
         && (hasDraft ==> r.draftKey.Some? && r.draftKey.value != "" && r.draftPatchSize > 0
                          && r.expectedTaskVersion.Some? && r.expectedTaskVersion.value >= 1)
         && (r.runOutput.Some? ==> r.runOutput.value.identified && r.runOutput.value.expectedTaskVersion >= 1
                                   && 0 < r.runOutput.value.size <= limits.maxDraftBytes)
  }

  /** The run ends with a result that the stream reports as a success. */
  ghost predicate Succeeds(run: Run) {
    && SignalsOk(run, |run.signals|)
    && run.ending.Finished?
    && !run.cancelled
    && ResultOk(run.limits, Latest(run.checkpoint, run.signals), run.ending.result)
    && (run.ending.result.disposition.TerminalAckOnly? ==> run.hasSubmittedDraft)
    && (run.ending.shadow.Some? ==> ArtifactComplete(run.limits, run.ending.shadow.value))
  }

  predicate IsCheckpoint(kind: Kind) {
    kind.Progress? && kind.payload.CheckpointSaved?
  }

  /** A stream in progress: it starts with RUN_STARTED, is numbered without gap or reuse from one, holds no terminal
      event, and its checkpoint sequences rise strictly from above the run's input to at most the latest. */
  ghost predicate Open(events: seq<Event>, start: int, latest: int) {
    && 0 < |events| && events[0].kind.RunStarted?
    && (forall i | 0 <= i < |events| :: events[i].sequence == i + 1 && !Terminal(events[i].kind))
    && (forall i | 0 <= i < |events| && IsCheckpoint(events[i].kind) ::
          start < events[i].kind.payload.checkpoint <= latest)
    && (forall i, j | 0 <= i < j < |events| && IsCheckpoint(events[i].kind) && IsCheckpoint(events[j].kind) ::
          events[i].kind.payload.checkpoint < events[j].kind.payload.checkpoint)
  }

  /** Appending an event that is not terminal, and no checkpoint or a later one, keeps the stream open. */
  lemma Appended(events: seq<Event>, start: int, latest: int, kind: Kind, reached: int)
    requires Open(events, start, latest) && !Terminal(kind) && start <= latest <= reached
    requires IsCheckpoint(kind) ==> latest < kind.payload.checkpoint == reached
    ensures Open(Append(events, kind), start, reached)
    ensures Kinds(Append(events, kind)) == Kinds(events) + [kind]
  {
    var after := Append(events, kind);
    forall i | 0 <= i < |events| ensures after[i] == events[i] {
    }
    assert after[|events|] == Event(|events| + 1, kind);
  }

  function Append(events: seq<Event>, kind: Kind): seq<Event> {
    events + [Event(|events| + 1, kind)]
  }

  /** The events a valid result adds, in order, without the terminal one. */
  function ResultKinds(r: AgentResult): seq<Kind> {
    seq(|r.attempts|, i requires 0 <= i < |r.attempts| => Progress(r.attempts[i])) + RestKinds(r)
  }

  function RestKinds(r: AgentResult): seq<Kind> {
    DurableKinds(r) + OutputKinds(r)
  }

  function DurableKinds(r: AgentResult): seq<Kind> {
    (if r.evidence > 0 then [Progress(EvidenceAppended(r.evidence))] else [])
    + (if r.checkpointSequence.Some? then [Progress(CheckpointSaved(r.checkpointSequence.value, r.checkpointSize))]
       else [])
  }

  function OutputKinds(r: AgentResult): seq<Kind> {
    (if r.disposition.SubmitRequired? && r.draftKey.Some?
        && r.expectedTaskVersion.Some? then [DraftSubmitted(r.draftKey.value)] else [])
    + (if r.disposition.SubmitRequired? && r.runOutput.Some? then [RunOutputSubmitted] else [])
  }

  /** Attempts come first, then the evidence, the checkpoint, the draft and the output. */
  function Place(kind: Kind): nat {
    match kind
    case Progress(ModelAttempt(_, _, _, _)) => 0
    case Progress(EvidenceAppended(_)) => 1
    case Progress(CheckpointSaved(_, _)) => 2
    case DraftSubmitted(_) => 3
    case RunOutputSubmitted => 4
    case _ => 5
  }

  /** Each kind has its own place, and they come in that order. */
  ghost predicate Ascending(kinds: seq<Kind>, low: nat, high: nat) {
    && (forall i | 0 <= i < |kinds| :: low <= Place(kinds[i]) < high)
    && (forall i, j | 0 <= i < j < |kinds| :: Place(kinds[i]) < Place(kinds[j]))
  }

  lemma AscendingJoins(a: seq<Kind>, b: seq<Kind>, low: nat, middle: nat, high: nat)
    requires low <= middle <= high && Ascending(a, low, middle) && Ascending(b, middle, high)
    ensures Ascending(a + b, low, high)
  {
  }

  lemma DurableAscends(r: AgentResult)
    ensures Ascending(DurableKinds(r), 1, 3)
  {
    AscendingJoins(if r.evidence > 0 then [Progress(EvidenceAppended(r.evidence))] else [],
                   if r.checkpointSequence.Some?
                   then [Progress(CheckpointSaved(r.checkpointSequence.value, r.checkpointSize))] else [], 1, 2, 3);
  }

  lemma OutputAscends(r: AgentResult)
    ensures Ascending(OutputKinds(r), 3, 5)
  {
    AscendingJoins(if r.disposition.SubmitRequired? && r.draftKey.Some? && r.expectedTaskVersion.Some?
                   then [DraftSubmitted(r.draftKey.value)] else [],
                   if r.disposition.SubmitRequired? && r.runOutput.Some? then [RunOutputSubmitted] else [], 3, 4, 5);
  }

  /** The evidence, the checkpoint, the draft to submit and the output to submit of a result. */
  predicate InResult(r: AgentResult, kind: Kind) {
    match kind
    case Progress(EvidenceAppended(count)) => r.evidence == count > 0
    case Progress(CheckpointSaved(checkpoint, size)) =>
      r.checkpointSequence == Some(checkpoint) && r.checkpointSize == size
    case DraftSubmitted(key) =>
      r.disposition == SubmitRequired && r.draftKey == Some(key) && r.expectedTaskVersion != None
    case RunOutputSubmitted => r.disposition == SubmitRequired && r.runOutput != None
    case _ => false
  }

  lemma RestHas(r: AgentResult, kind: Kind)
    ensures kind in RestKinds(r) <==> InResult(r, kind)
  {
    assert kind in DurableKinds(r) <==> Place(kind) < 3 && InResult(r, kind);
    assert kind in OutputKinds(r) <==> Place(kind) >= 3 && InResult(r, kind);
  }

  lemma RestAscends(r: AgentResult)
    ensures Ascending(RestKinds(r), 1, 5)
  {
    DurableAscends(r);
    OutputAscends(r);
    AscendingJoins(DurableKinds(r), OutputKinds(r), 1, 3, 5);
  }

  /** The events of a valid result are its attempts, in order, and then its evidence, its checkpoint, its draft and its
      output, each exactly once and exactly if the result has it, in this order. */
  lemma ResultEvents(r: AgentResult, kind: Kind)
    ensures var kinds, n := ResultKinds(r), |r.attempts|;
            && n <= |kinds| && (forall i | 0 <= i < n :: kinds[i] == Progress(r.attempts[i]))
            && (kind in kinds[n..] <==> InResult(r, kind)) && Ascending(kinds[n..], 1, 5)
  {
    RestHas(r, kind);
    RestAscends(r);
    assert ResultKinds(r)[|r.attempts|..] == RestKinds(r);
  }

  /** The events that end a successful run. */
  function ClosingKinds(r: AgentResult, shadow: Option<Payload>): seq<Kind> {
    ResultKinds(r) + (if shadow.Some? then [Progress(shadow.value)] else []) + [RunCompleted]
  }

  ghost function Kinds(events: seq<Event>): seq<Kind> {
    seq(|events|, i requires 0 <= i < |events| => events[i].kind)
  }

  /** RUN_STARTED, then one event per signal. */
  ghost function Forward(signals: seq<Payload>): seq<Kind> {
    if signals == [] then [RunStarted] else Forward(signals[..|signals| - 1]) + [Progress(signals[|signals| - 1])]
  }

  /** The checks of a signal, in the order of its kinds. */
  method CheckSignal(limits: Limits, latest: int, p: Payload) returns (ok: bool)
    ensures ok <==> SignalOk(limits, latest, p)
  {
    match p {
      case ModelAttempt(key, operation, hash, status) =>
        return !(key == "" || operation == "" || hash == "" || status == "");
      case EvidenceAppended(count) =>
        return !(count > limits.maxEvidenceItems);
      case ArtifactSaved(key, kind, request, content, size) =>
        return !(key == "" || kind == "" || request == "" || content == "" || size == 0
                 || size > limits.maxArtifactBytes);
      case CheckpointSaved(checkpoint, size) =>
        return !(checkpoint <= latest || size == 0 || size > limits.maxCheckpointBytes);
      case LedgerEvent(eventType, key, operation, hash, kind) =>
        if eventType !in {"LEDGER_RESERVED", "LEDGER_CALL_STARTED", "LEDGER_FINISHED"} {
          return false;
        }
        return !(key == "" || operation == "" || hash == "" || kind == "");
      case Unsupported(_) =>
        return false;
    }
  }

  /** The checks of a result, in their order. */
  method ValidateResult(limits: Limits, latest: int, r: AgentResult) returns (ok: bool)
    ensures ok <==> ResultOk(limits, latest, r)
  {
    for i := 0 to |r.attempts|
      invariant forall j | 0 <= j < i :: AttemptComplete(r.attempts[j])
    {
      var attempt := r.attempts[i];
      if !attempt.ModelAttempt? || attempt.attemptKey == "" || attempt.operation == "" || attempt.requestHash == ""
         || attempt.status == "" {
        return false;
      }
    }
    if r.evidence > limits.maxEvidenceItems || r.checkpointSize > limits.maxCheckpointBytes {
      return false;
    }
    if r.checkpointSequence.Some? && (r.checkpointSequence.value <= latest || r.checkpointSize == 0) {
      return false;
    }
    if r.draftPatchSize > limits.maxDraftBytes {
      return false;
    }
    var hasKey := r.draftKey.Some? && r.draftKey.value != "";
    var hasDraft, hasOutput := hasKey || r.draftPatchSize != 0, r.runOutput.Some?;
    if r.disposition.TerminalAckOnly? {
      return !(hasDraft || hasOutput || r.expectedTaskVersion.Some?);
    }
    if hasDraft && hasOutput {
      return false;
    }
    if hasDraft
       && (!hasKey || r.expectedTaskVersion.None? || r.expectedTaskVersion.value < 1 || r.draftPatchSize == 0) {
      return false;
    }
    if hasOutput {
      var output := r.runOutput.value;
      return !(!output.identified || output.expectedTaskVersion < 1 || output.size == 0
               || output.size > limits.maxDraftBytes);
    }
    return true;
  }

  /** The loop's signals, one event each, until one is refused. */
  method ForwardSignals(run: Run) returns (events: seq<Event>, n: nat)
    ensures n <= |run.signals| && SignalsOk(run, n)
    ensures n < |run.signals| ==> !SignalOk(run.limits, Latest(run.checkpoint, run.signals[..n]), run.signals[n])
    ensures Open(events, run.checkpoint, Latest(run.checkpoint, run.signals[..n]))
    ensures |events| == n + 1
    ensures Kinds(events) == Forward(run.signals[..n])
    ensures run.checkpoint <= Latest(run.checkpoint, run.signals[..n])
  {
    events, n := [Event(1, RunStarted)], 0;
    var latest := run.checkpoint;
    while n < |run.signals|
      invariant n <= |run.signals| && SignalsOk(run, n)
      invariant latest == Latest(run.checkpoint, run.signals[..n]) && run.checkpoint <= latest
      invariant Open(events, run.checkpoint, latest)
      invariant |events| == n + 1
      invariant Kinds(events) == Forward(run.signals[..n])
    {
      var signal := run.signals[n];
      var ok := CheckSignal(run.limits, latest, signal);
      if !ok {
        return;
      }
      Appended(events, run.checkpoint, latest, Progress(signal), LatestAfter(latest, signal));
      events := Append(events, Progress(signal));
      assert run.signals[..n + 1][..n] == run.signals[..n];
      latest := LatestAfter(latest, signal);
      n := n + 1;
    }
  }

  /** The events of a valid result. */
  method ForwardResult(before: seq<Event>, start: int, latest: int, r: AgentResult) returns (events: seq<Event>)
    requires Open(before, start, latest) && start <= latest
    requires forall i | 0 <= i < |r.attempts| :: r.attempts[i].ModelAttempt?
    requires r.checkpointSequence.Some? ==> latest < r.checkpointSequence.value
    ensures before <= events
    ensures Open(events, start, if r.checkpointSequence.Some? then r.checkpointSequence.value else latest)
    ensures Kinds(events) == Kinds(before) + ResultKinds(r)
  {
    events := before;
    for n := 0 to |r.attempts|
      invariant before <= events && Open(events, start, latest)
      invariant Kinds(events) == Kinds(before) + ResultKinds(r)[..n]
    {
      Appended(events, start, latest, Progress(r.attempts[n]), latest);
      events := Append(events, Progress(r.attempts[n]));
      assert ResultKinds(r)[..n + 1] == ResultKinds(r)[..n] + [Progress(r.attempts[n])];
    }
    events := ForwardRest(events, start, latest, r);
    assert ResultKinds(r) == ResultKinds(r)[..|r.attempts|] + RestKinds(r);
  }

  /** The events of a result after its attempts. */
  method ForwardRest(before: seq<Event>, start: int, latest: int, r: AgentResult) returns (events: seq<Event>)
    requires Open(before, start, latest) && start <= latest
    requires r.checkpointSequence.Some? ==> latest < r.checkpointSequence.value
    ensures before <= events
    ensures Open(events, start, if r.checkpointSequence.Some? then r.checkpointSequence.value else latest)
    ensures Kinds(events) == Kinds(before) + RestKinds(r)
  {
    var reached := if r.checkpointSequence.Some? then r.checkpointSequence.value else latest;
    var evidenced := AppendIf(r.evidence > 0, before, start, latest, Progress(EvidenceAppended(r.evidence)), latest);
    var saved := AppendIf(r.checkpointSequence.Some?, evidenced, start, latest,
                          Progress(CheckpointSaved(reached, r.checkpointSize)), reached);
    assert Kinds(saved) == Kinds(before) + DurableKinds(r);
    events := ForwardOutputs(saved, start, reached, r);
    assert Kinds(events) == Kinds(before) + RestKinds(r);
  }

  method ForwardOutputs(before: seq<Event>, start: int, latest: int, r: AgentResult) returns (events: seq<Event>)
    requires Open(before, start, latest) && start <= latest
    ensures before <= events && Open(events, start, latest)
    ensures Kinds(events) == Kinds(before) + OutputKinds(r)
  {
    var drafted :=
        AppendIf(r.disposition.SubmitRequired? && r.draftKey.Some?
                 && r.expectedTaskVersion.Some?, before, start, latest,
                            DraftSubmitted(if r.draftKey.Some? then r.draftKey.value else ""), latest);
    events := AppendIf(r.disposition.SubmitRequired?
                       && r.runOutput.Some?, drafted, start, latest, RunOutputSubmitted, latest);
    assert Kinds(events) == Kinds(before) + OutputKinds(r);
  }

  method AppendIf(condition: bool, before: seq<Event>, start: int, latest: int, kind: Kind, reached: int)
    returns (events: seq<Event>)
    requires Open(before, start, latest) && !Terminal(kind) && start <= latest <= reached
    requires condition && IsCheckpoint(kind) ==> latest < kind.payload.checkpoint == reached
    ensures before <= events
    ensures Open(events, start, if condition then reached else latest)
    ensures Kinds(events) == Kinds(before) + (if condition then [kind] else [])
  {
    events := before;
    if condition {
      Appended(before, start, latest, kind, reached);
      events := Append(before, kind);
    }
  }

  /** Numbered from one without gap or reuse, started by RUN_STARTED, with strictly rising checkpoint sequences above
      the input's, and no terminal event before the last. */
  ghost predicate WellFormed(events: seq<Event>, start: int) {
    && 0 < |events| && events[0].kind.RunStarted?
    && (forall i | 0 <= i < |events| :: events[i].sequence == i + 1)
    && (forall i | 0 <= i < |events| - 1 :: !Terminal(events[i].kind))
    && (forall i | 0 <= i < |events| && IsCheckpoint(events[i].kind) :: start < events[i].kind.payload.checkpoint)
    && (forall i, j | 0 <= i < j < |events| && IsCheckpoint(events[i].kind) && IsCheckpoint(events[j].kind) ::
          events[i].kind.payload.checkpoint < events[j].kind.payload.checkpoint)
  }

  lemma OpenIsWellFormed(events: seq<Event>, start: int, latest: int, kind: Kind)
    requires Open(events, start, latest) && Terminal(kind)
    ensures WellFormed(events, start) && WellFormed(Append(events, kind), start)
    ensures Kinds(Append(events, kind)) == Kinds(events) + [kind]
  {
    var after := Append(events, kind);
    assert after[|events|] == Event(|events| + 1, kind);
  }

  /** The stream carries the first n signals in order; a refused signal ends it. */
  ghost predicate Forwarded(run: Run, events: seq<Event>, n: nat) {
    && n <= |run.signals| && n < |events| && SignalsOk(run, n)
    && Forward(run.signals[..n]) <= Kinds(events)
    && (n < |run.signals| ==>
          && !SignalOk(run.limits, Latest(run.checkpoint, run.signals[..n]), run.signals[n])
          && events[|events| - 1].kind == RunFailed(InvalidAgentResult) && |events| == n + 2)
  }

  /** A whole run.  The stream is well formed for every behaviour of the loop; it ends with a terminal event unless
      the loop ends with an exception outside the Exception hierarchy, and with RUN_COMPLETED exactly when the run
      succeeds. */
  method ExecuteRun(run: Run) returns (events: seq<Event>)
    ensures WellFormed(events, run.checkpoint)
    ensures Terminal(events[|events| - 1].kind) <==> !(SignalsOk(run, |run.signals|) && run.ending.ThrewOutside?)
    ensures events[|events| - 1].kind.RunCompleted? <==> Succeeds(run)
    ensures exists n: nat :: Forwarded(run, events, n)
    ensures Succeeds(run) ==> Kinds(events) == Forward(run.signals) + ClosingKinds(run.ending.result, run.ending.shadow)
    ensures SignalsOk(run, |run.signals|) && run.ending.ThrewOutside? ==> Kinds(events) == Forward(run.signals)
    ensures SignalsOk(run, |run.signals|) && run.ending.Threw? ==>
              Kinds(events) == Forward(run.signals) + [RunFailed(run.ending.failure)]
    ensures SignalsOk(run, |run.signals|) && run.ending.Finished? && run.cancelled ==>
              Kinds(events) == Forward(run.signals) + [RunFailed(Cancelled)]
    ensures SignalsOk(run, |run.signals|) && run.ending.Finished? && !run.cancelled && !Succeeds(run) ==>
              Kinds(events) == Forward(run.signals)
                               + (if Acceptable(run, Latest(run.checkpoint, run.signals))
                                  then ResultKinds(run.ending.result) else [])
                               + [RunFailed(InvalidAgentResult)]
  {
    var n;
    events, n := ForwardSignals(run);
    ghost var forwarded := events;
    var latest := Latest(run.checkpoint, run.signals[..n]);
    if n < |run.signals| {
      if SignalsOk(run, |run.signals|) {
        SignalsOkPrefix(run, n + 1, |run.signals|);
      }
      OpenIsWellFormed(events, run.checkpoint, latest, RunFailed(InvalidAgentResult));
      events := Append(events, RunFailed(InvalidAgentResult));
    } else {
      assert run.signals[..n] == run.signals;
      events := Conclude(run, events, latest);
    }
    assert Kinds(events)[..|forwarded|] == Kinds(forwarded);
    assert Forwarded(run, events, n);
  }

  lemma {:induction false} SignalsOkPrefix(run: Run, n: nat, m: nat)
    requires n <= m <= |run.signals| && SignalsOk(run, m)
    ensures SignalsOk(run, n)
  {
    if n < m {
      SignalsOkPrefix(run, n, m - 1);
    }
  }

  /** The result is valid, and one that submits nothing has a draft that was submitted before. */
  predicate Acceptable(run: Run, latest: int)
    requires run.ending.Finished?
  {
    && ResultOk(run.limits, latest, run.ending.result)
    && (run.ending.result.disposition == TerminalAckOnly ==> run.hasSubmittedDraft)
  }

  /** The end of a run whose signals were all forwarded. */
  method Conclude(run: Run, before: seq<Event>, latest: int) returns (events: seq<Event>)
    requires SignalsOk(run, |run.signals|) && latest == Latest(run.checkpoint, run.signals)
    requires Open(before, run.checkpoint, latest) && run.checkpoint <= latest
    ensures WellFormed(events, run.checkpoint) && before <= events
    ensures Terminal(events[|events| - 1].kind) <==> !run.ending.ThrewOutside?
    ensures events[|events| - 1].kind.RunCompleted? <==> Succeeds(run)
    ensures Succeeds(run) ==> Kinds(events) == Kinds(before) + ClosingKinds(run.ending.result, run.ending.shadow)
    ensures run.ending.ThrewOutside? ==> events == before
    ensures run.ending.Threw? ==> Kinds(events) == Kinds(before) + [RunFailed(run.ending.failure)]
    ensures run.ending.Finished? && run.cancelled ==> Kinds(events) == Kinds(before) + [RunFailed(Cancelled)]
    ensures run.ending.Finished? && !run.cancelled && !Acceptable(run, latest) ==>
              Kinds(events) == Kinds(before) + [RunFailed(InvalidAgentResult)]
    ensures run.ending.Finished? && !run.cancelled && Acceptable(run, latest) && !Succeeds(run) ==>
              Kinds(events) == Kinds(before) + ResultKinds(run.ending.result) + [RunFailed(InvalidAgentResult)]
  {
    events := before;
    match run.ending {
      case ThrewOutside =>
        OpenIsWellFormed(events, run.checkpoint, latest, RunCompleted);
      case Threw(failure) =>
        OpenIsWellFormed(events, run.checkpoint, latest, RunFailed(failure));
        events := Append(events, RunFailed(failure));
      case Finished(result, shadow) =>
        var ok := ValidateResult(run.limits, latest, result);
        if run.cancelled {
          OpenIsWellFormed(events, run.checkpoint, latest, RunFailed(Cancelled));
          events := Append(events, RunFailed(Cancelled));
        } else if !ok || (result.disposition.TerminalAckOnly? && !run.hasSubmittedDraft) {
          OpenIsWellFormed(events, run.checkpoint, latest, RunFailed(InvalidAgentResult));
          events := Append(events, RunFailed(InvalidAgentResult));
        } else {
          events := CloseSuccessfully(run, events, latest, result, shadow);
        }
    }
  }

  method CloseSuccessfully(run: Run, before: seq<Event>, latest: int, result: AgentResult, shadow: Option<Payload>)
    returns (events: seq<Event>)
    requires Open(before, run.checkpoint, latest) && run.checkpoint <= latest
    requires ResultOk(run.limits, latest, result)
    ensures WellFormed(events, run.checkpoint) && before <= events
    ensures shadow.None? || ArtifactComplete(run.limits, shadow.value) ==>
              Kinds(events) == Kinds(before) + ClosingKinds(result, shadow)
    ensures shadow.Some? && !ArtifactComplete(run.limits, shadow.value) ==>
              Kinds(events) == Kinds(before) + ResultKinds(result) + [RunFailed(InvalidAgentResult)]
    ensures events[|events| - 1].kind ==
      if shadow.None? || ArtifactComplete(run.limits, shadow.value) then RunCompleted else RunFailed(InvalidAgentResult)
  {
    events := ForwardResult(before, run.checkpoint, latest, result);
    var reached := if result.checkpointSequence.Some? then result.checkpointSequence.value else latest;
    var ok := true;
    if shadow.Some? {
      ok := CheckSignal(run.limits, reached, shadow.value);
    }
    if shadow.Some? && (!shadow.value.ArtifactSaved? || !ok) {
      OpenIsWellFormed(events, run.checkpoint, reached, RunFailed(InvalidAgentResult));
      events := Append(events, RunFailed(InvalidAgentResult));
      return;
    }
    events := AppendIf(shadow.Some?, events, run.checkpoint, reached,
        Progress(if shadow.Some? then shadow.value else Unsupported("")), reached);
    OpenIsWellFormed(events, run.checkpoint, reached, RunCompleted);
    events := Append(events, RunCompleted);
    Regroup(Kinds(before), ResultKinds(result), if shadow.Some? then [Progress(shadow.value)] else [], [RunCompleted]);
  }

  lemma Regroup<T>(a: seq<T>, b: seq<T>, c: seq<T>, d: seq<T>)
    ensures a + b + c + d == a + (b + c + d)
  {
  }
}
