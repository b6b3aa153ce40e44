/** Replay, recovery and repeated transitions: what presenting a call again returns and charges. */
module LedgerReplay {
  import opened Budget
  import opened JsonTree
  import opened Evidence
  import opened Outcomes
  import opened LedgerProtocol
  import opened LedgerSafety

  datatype Answer =
    | Returned(value: Json, replayed: bool, consumption: Vector)
    | InvalidCall
    | IdentityMismatch
    | BudgetRefused(refusal: Refusal)
    | TerminalFailure(category: string)
    | UnknownOutcome
    | DecodeFailed
    | Raised

  /** The answer for a call that already succeeded: the stored outcome, decoded again. */
  function ReplayAnswer(runId: string, artifacts: map<ArtifactKey, Artifact>, row: Row, call: Call,
      validate: Json -> Option<Json>): Answer {
    var found := ArtifactFor(runId, artifacts, row, call);
    if found.None? then UnknownOutcome
    else
      var value := Decode(found.value.content, call.schema, validate);
      if value.None? then DecodeFailed else Returned(value.value, true, row.consumption)
  }

  /** A durable success has its artifact, under its key, request hash and content hash, holding the value that
      `invoke` produced. */
  lemma SucceededHasArtifact(runId: string, limits: Vector, labels: seq<Label>, k: string)
    requires var s := After(Init(runId, limits), labels);
      k in s.store.rows && s.store.rows[k].status.Succeeded? && !s.store.rows[k].identity.kind.LocalTransition?
    ensures var s := After(Init(runId, limits), labels);
      && OutcomeKey(s.runId, k) in s.store.artifacts && k in s.produced
      && var artifact := s.store.artifacts[OutcomeKey(s.runId, k)];
      && s.store.rows[k].output == Some(Output(artifact.key, Sha256(artifact.content)))
      && artifact.key == OutcomeKey(s.runId, k)
      && artifact.requestHash == s.store.rows[k].identity.requestHash
      && artifact.content.Canonical? && artifact.content == Encode(artifact.content.schema, s.produced[k])
  {
    RunKeeps(Init(runId, limits), labels);
    var s := After(Init(runId, limits), labels);
    assert RowOk(s, k);
    assert ArtifactOk(s, OutcomeKey(s.runId, k));
  }

  /** A failed row says so and charges its whole reservation; a transition holds no reservation; neither cites an
      outcome or evidence, and no other row names an error. */
  predicate Tells(row: Row) {
    && row.errorCategory == (if row.status == Failed then "REMOTE_CALL_FAILED" else "")
    && (row.status == Failed ==> row.consumption == row.reservation)
    && (row.identity.kind == LocalTransition ==> row.reservation == ZERO)
    && (row.status == Failed || row.identity.kind == LocalTransition ==> row.output == None && row.evidenceRefs == [])
  }

  lemma StepTells(s: Sys, l: Label)
    requires PcOk(s) && forall k | k in s.store.rows :: Tells(s.store.rows[k])
    ensures forall k | k in Step(s, l).store.rows :: Tells(Step(s, l).store.rows[k])
  {
  }

  /** Every durable row of every run tells how it ended. */
  lemma {:induction false} RowsTell(runId: string, limits: Vector, labels: seq<Label>)
    ensures forall k | k in After(Init(runId, limits), labels).store.rows ::
              Tells(After(Init(runId, limits), labels).store.rows[k])
  {
    if labels != [] {
      var before := labels[..|labels| - 1];
      RowsTell(runId, limits, before);
      RunKeeps(Init(runId, limits), before);
      StepTells(After(Init(runId, limits), before), labels[|labels| - 1]);
    }
  }

  lemma StepProducesOnce(s: Sys, l: Label)
    requires EnteredOk(s) && PcOk(s)
    ensures forall k | k in s.produced :: k in Step(s, l).produced && Step(s, l).produced[k] == s.produced[k]
  {
    if s.process.Up? && s.process.pc.ToInvoke? && l.Invoke? {
      assert Step(s, l) == StepInvoke(s, s.process.pc.call, l.outcome);
    } else {
      assert Step(s, l).produced == s.produced;
    }
  }

  /** The value produced for a key is never produced again. */
  lemma {:induction false} ProducedOnce(s: Sys, labels: seq<Label>)
    requires Inv(s)
    ensures forall k | k in s.produced ::
              k in After(s, labels).produced && After(s, labels).produced[k] == s.produced[k]
  {
    if labels != [] {
      var before := labels[..|labels| - 1];
      RunKeeps(s, before);
      ProducedOnce(s, before);
      StepProducesOnce(After(s, before), labels[|labels| - 1]);
    }
  }

  /** The validator accepts the value produced for a key unchanged, or not at all. */
  ghost predicate Stable(validate: Json -> Option<Json>, s: Sys, k: string) {
    k in s.produced && validate(s.produced[k]).Some? ==> validate(s.produced[k]) == Some(s.produced[k])
  }

  /** Presenting a succeeded call again writes nothing and charges nothing, and returns the value first produced
      if and only if it asks for the schema the outcome was stored under and its validator accepts the value; the
      identity check covers neither. */
  lemma ReplayReturnsOriginalIff(s: Sys, call: Call, validate: Json -> Option<Json>)
    requires Inv(s) && s.process.Up? && s.process.pc.Idle?
    requires call.key in s.store.rows && s.store.rows[call.key].status.Succeeded?
    requires s.store.rows[call.key].identity == call.identity && !call.identity.kind.LocalTransition?
    requires Stable(validate, s, call.key)
    ensures Step(s, Present(call)) == s
    ensures call.key in s.produced && OutcomeKey(s.runId, call.key) in s.store.artifacts
    ensures var stored := s.store.artifacts[OutcomeKey(s.runId, call.key)].content;
      && stored.Canonical?
      && ReplayAnswer(s.runId, s.process.memory.artifacts, s.store.rows[call.key], call, validate)
         == if stored.schema == call.schema && validate(s.produced[call.key]).Some?
            then Returned(s.produced[call.key], true, s.store.rows[call.key].consumption)
            else DecodeFailed
  {
    assert RowOk(s, call.key);
    assert ArtifactOk(s, OutcomeKey(s.runId, call.key));
    assert StepPresent(s, call) == s;
  }

  /** The outcome of a started call is stored, under the schema it is asked for. */
  ghost predicate Recoverable(s: Sys, call: Call) {
    && OutcomeKey(s.runId, call.key) in s.store.artifacts
    && s.store.artifacts[OutcomeKey(s.runId, call.key)].content.Canonical?
    && s.store.artifacts[OutcomeKey(s.runId, call.key)].content.schema == call.schema
  }

  /** A process finds a call of its own run started and not finished. */
  ghost predicate Unfinished(s: Sys, call: Call) {
    && s.process.Up? && s.process.pc.Idle? && call.key in s.store.rows && s.store.rows[call.key].status.CallStarted?
    && s.store.rows[call.key].identity == call.identity && ValidCall(call) && ValidArtifactType(call.artifactType)
  }

  /** However a started call was left, presenting it again goes to its stored outcome with the value first produced, and
      otherwise does nothing. */
  lemma RecoveryFindsOriginal(s: Sys, call: Call)
    requires Inv(s) && Unfinished(s, call)
    ensures !Recoverable(s, call) ==> Step(s, Present(call)) == s
    ensures Recoverable(s, call) ==>
              && call.key in s.produced
              && var artifact := s.store.artifacts[OutcomeKey(s.runId, call.key)];
                 && artifact.content.value == s.produced[call.key]
                 && Step(s, Present(call))
                      == s.(process := Up(s.process.memory, ToEvidence(call, artifact, s.produced[call.key], true)))
  {
    assert RowOk(s, call.key);
    if OutcomeKey(s.runId, call.key) in s.store.artifacts {
      assert ArtifactOk(s, OutcomeKey(s.runId, call.key));
    }
    assert Step(s, Present(call)) == StepPresent(s, call);
  }

  /** The last write of a recovery, from any state that is about to make it. */
  lemma RecoveryFinishes(s: Sys, call: Call, artifact: Artifact, value: Json, items: seq<EvidenceItem>, other: Vector)
    requires s.process.Up? && s.process.pc == ToFinish(call, artifact, value, items, true)
    requires call.key in s.process.memory.entries && s.process.memory.entries[call.key].consumption == ZERO
    ensures var t := Step(s, WriteFinished(other));
            && t.process.Up? && t.process.pc.Idle? && t.store.artifacts == s.store.artifacts
            && t.store.rows == s.store.rows[call.key := SucceededRow(call, artifact, items, call.reservation)]
            && t.store.evidence == s.store.evidence && t.entered == s.entered && t.produced == s.produced
  {
    assert Step(s, WriteFinished(other)) == StepFinished(s, call, artifact, items, true, other);
  }

  /** The rest of a recovery leaves exactly a success that cites the stored outcome and charges the full reservation; it
      writes the derived evidence, and enters and produces nothing. */
  lemma RecoveryAgrees(s: Sys, call: Call, other: Vector)
    requires Inv(s) && Unfinished(s, call) && Recoverable(s, call)
    ensures call.key in s.produced
    ensures var artifact := s.store.artifacts[OutcomeKey(s.runId, call.key)];
      var derived := Derived(call, s.produced[call.key]);
      var written := Step(Step(s, Present(call)), WriteEvidence);
      var finished := Step(written, WriteFinished(other));
      && (derived.None? ==> written == s)
      && (derived.Some? ==>
            && finished.process.Up? && finished.process.pc.Idle?
            && finished.store.rows
                 == s.store.rows[call.key := SucceededRow(call, artifact, derived.value, call.reservation)]
            && finished.store.artifacts == s.store.artifacts
            && finished.store.evidence == s.store.evidence + derived.value
            && finished.entered == s.entered && finished.produced == s.produced)
  {
    RecoveryFindsOriginal(s, call);
    assert RowOk(s, call.key);
    var artifact := s.store.artifacts[OutcomeKey(s.runId, call.key)];
    var value := s.produced[call.key];
    var p := Step(s, Present(call));
    var written := Step(p, WriteEvidence);
    assert written == StepEvidence(p, call, artifact, value, true);
    var derived := Derived(call, value);
    if derived.Some? {
      RecoveryFinishes(written, call, artifact, value, derived.value, other);
    }
  }

  /** Artifacts are never replaced. */
  lemma StepKeepsArtifacts(s: Sys, l: Label)
    requires PcOk(s)
    ensures forall a | a in s.store.artifacts ::
              a in Step(s, l).store.artifacts && Step(s, l).store.artifacts[a] == s.store.artifacts[a]
  {
    if s.process.Up? && s.process.pc.ToArtifact? && l.WriteArtifact? {
      assert Step(s, l) == StepArtifact(s, s.process.pc.call, s.process.pc.value);
    } else {
      assert Step(s, l).store.artifacts == s.store.artifacts;
    }
  }

  lemma {:induction false} RunKeepsArtifacts(s: Sys, labels: seq<Label>)
    requires Inv(s)
    ensures forall a | a in s.store.artifacts ::
              a in After(s, labels).store.artifacts && After(s, labels).store.artifacts[a] == s.store.artifacts[a]
    ensures After(s, labels).runId == s.runId
  {
    if labels != [] {
      var before := labels[..|labels| - 1];
      RunKeeps(s, before);
      RunKeepsArtifacts(s, before);
      StepKeepsArtifacts(After(s, before), labels[|labels| - 1]);
    }
  }

  /** A process stands after the write of an outcome: before its evidence or before its last row, first time or
      recovering. */
  ghost predicate Stored(s: Sys, call: Call, artifact: Artifact, value: Json) {
    s.process.Up? &&
    match s.process.pc
    case ToEvidence(c, a, v, _) => c == call && a == artifact && v == value
    case ToFinish(c, a, v, _, _) => c == call && a == artifact && v == value
    case _ => false
  }

  lemma StoredIsProduced(s: Sys, call: Call, artifact: Artifact, value: Json)
    requires Inv(s) && Stored(s, call, artifact, value)
    ensures Saved(s, call, artifact, value) && call.key in s.produced && s.produced[call.key] == value
  {
    assert ArtifactOk(s, OutcomeKey(s.runId, call.key));
  }

  /** The rest of a call, uninterrupted. */
  ghost function Uninterrupted(s: Sys, actual: Vector): Sys {
    if s.process.Up? && s.process.pc.ToEvidence? then Step(Step(s, WriteEvidence), WriteFinished(actual))
    else Step(s, WriteFinished(actual))
  }

  lemma UninterruptedSucceeds(s: Sys, call: Call, artifact: Artifact, value: Json, actual: Vector)
    requires Inv(s) && Stored(s, call, artifact, value) && !s.process.pc.recovered && Derived(call, value).Some?
    ensures var t := Uninterrupted(s, actual);
      call.key in t.store.rows
          && t.store.rows[call.key] == SucceededRow(call, artifact, Derived(call, value).value, actual)
  {
    if s.process.pc.ToEvidence? {
      var t := Step(s, WriteEvidence);
      assert t == StepEvidence(s, call, artifact, value, false);
      assert Step(t, WriteFinished(actual))
          == StepFinished(t, call, artifact, Derived(call, value).value, false, actual);
    } else {
      assert Step(s, WriteFinished(actual)) == StepFinished(s, call, artifact, s.process.pc.evidence, false, actual);
    }
  }

  /** A call that is left anywhere after its outcome was written, by a crash or otherwise, and whatever runs, crashes
      and recoveries come in between: as long as it is unfinished, recovering it goes on with the value first
      produced and leaves the row that the uninterrupted call would have left, but for the charge, which is the full
      reservation and so at least any use within it. */
  lemma LeftCallIsRecovered(s: Sys, call: Call, artifact: Artifact, value: Json, labels: seq<Label>, actual: Vector,
                            other: Vector)
    requires Inv(s) && Stored(s, call, artifact, value) && !s.process.pc.recovered && Unfinished(After(s, labels), call)
    ensures var t := After(s, labels);
      var p := Step(t, Present(call));
      && p.process == Up(t.process.memory, ToEvidence(call, artifact, value, true)) && p.store == t.store
      && (Derived(call, value).Some? ==>
            var uninterrupted := Uninterrupted(s, actual).store.rows;
            var finished := Step(Step(p, WriteEvidence), WriteFinished(other));
            && call.key in uninterrupted && uninterrupted[call.key].consumption == actual
            && call.key in finished.store.rows
            && finished.store.rows[call.key] == uninterrupted[call.key].(consumption := call.reservation)
            && finished.entered == t.entered && finished.produced == t.produced
            && forall d ::
                 actual.At(d) <= call.reservation.At(d) ==>
                   actual.At(d) <= finished.store.rows[call.key].consumption.At(d))
  {
    StoredIsProduced(s, call, artifact, value);
    RunKeeps(s, labels);
    ProducedOnce(s, labels);
    RunKeepsArtifacts(s, labels);
    var t := After(s, labels);
    RecoveryFindsOriginal(t, call);
    RecoveryAgrees(t, call, other);
    if Derived(call, value).Some? {
      UninterruptedSucceeds(s, call, artifact, value, actual);
    }
  }

  /** A transition whose key is durable changes nothing when presented again, whatever ran in between. */
  lemma TransitionChargedOnce(s: Sys, call: Call, labels: seq<Label>)
    requires Inv(s) && call.key in s.store.rows
    ensures var t := After(s, labels); Step(t, Transition(call)) == t
  {
    RunKeeps(s, labels);
    RowsOnlyAdvance(s, labels);
  }
}
