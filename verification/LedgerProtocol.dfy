/** The durable execution ledger as a step system.

    A run has durable rows, artifacts and evidence, and at most one process working
    on them.  Every sink write is one step, and the process can crash after any step;
    a new process rebuilds its memory from the durable state alone.

    `entered` and `produced` are history: the operation keys whose `invoke` was
    entered, in order, and the validated value each produced.
 */
module LedgerProtocol {
  import opened Budget
  import opened JsonTree
  import opened Evidence
  import opened Outcomes

  datatype Kind = Model | Capability | LocalDerivation | LocalTransition
  datatype Status = Reserved | CallStarted | Succeeded | Failed | OutcomeUnknown
  datatype Identity = Identity(kind: Kind, operation: string, requestHash: string)

  /** What a caller presents: the call specification, the artifact type and whether evidence is derived. */
  datatype Call = Call(key: string, identity: Identity, reservation: Vector, schema: string,
                       artifactType: string, withEvidence: bool)

  datatype Output = Output(key: ArtifactKey, contentHash: Digest<Content>)

  datatype Row = Row(key: string, identity: Identity, status: Status, reservation: Vector, consumption: Vector,
                     output: Option<Output>, evidenceRefs: seq<Digest<string>>, errorCategory: string)

  datatype Store = Store(rows: map<string, Row>, artifacts: map<ArtifactKey, Artifact>, evidence: seq<EvidenceItem>)

  datatype Memory = Memory(entries: map<string, Row>, artifacts: map<ArtifactKey, Artifact>,
                           consumed: Vector, reserved: Vector)

  /** Where a process stands inside one ledger call. */
  datatype Pc =
    | Idle
    | ToStart(call: Call)
    | ToInvoke(call: Call)
    | ToFail(call: Call)
    | ToArtifact(call: Call, value: Json)
    | ToEvidence(call: Call, artifact: Artifact, value: Json, recovered: bool)
    | ToFinish(call: Call, artifact: Artifact, value: Json, evidence: seq<EvidenceItem>, recovered: bool)

  datatype Process = Down | Up(memory: Memory, pc: Pc)

  datatype Sys = Sys(runId: string, limits: Vector, store: Store, process: Process,
                     entered: seq<string>, produced: map<string, Json>)

  datatype Label =
    | Boot
    | Crash
    | Present(call: Call)
    | WriteStarted
    | Invoke(outcome: Option<Json>)
    | WriteFailed
    | WriteArtifact
    | WriteEvidence
    | WriteFinished(actual: Vector)
    | Abort
    | Transition(call: Call)

  // ---------------------------------------------------------------- call specifications

  predicate SegmentChar(c: char) {
    'a' <= c <= 'z' || '0' <= c <= '9' || c in "_.-"
  }

  /** The segments of a key, split at colons. */
  function Segments(key: string): (segments: seq<string>)
    ensures |segments| > 0
  {
    if key == "" then [""]
    else
      var rest := Segments(key[1..]);
      if key[0] == ':' then [""] + rest else [[key[0]] + rest[0]] + rest[1..]
  }

  /** Bounded, low-cardinality identities: three to nine non-empty segments, the first starting with a letter. */
  predicate ValidOperationKey(key: string) {
    var segments := Segments(key);
    && |key| <= 240
    && 3 <= |segments| <= 9
    && (forall i | 0 <= i < |segments| :: segments[i] != "" && forall c | c in segments[i] :: SegmentChar(c))
    && 'a' <= segments[0][0] <= 'z'
  }

  predicate ValidArtifactType(artifactType: string) {
    0 < |artifactType| <= 80
  }

  predicate ValidCall(call: Call) {
    && ValidOperationKey(call.key)
    && call.identity.operation != ""
    && "sha256:" <= call.identity.requestHash
  }

  // ---------------------------------------------------------------- budget totals over rows

  predicate InFlight(row: Row) {
    row.status.Reserved? || row.status.CallStarted?
  }

  /** The sum of a weight over the rows of a map. */
  ghost function SumOver(rows: map<string, Row>, weight: Row -> int): int
    decreases |rows|
  {
    if rows == map[] then 0
    else
      var k :| k in rows;
      weight(rows[k]) + SumOver(rows - {k}, weight)
  }

  /** What a row in flight holds reserved. */
  function Hold(row: Row, d: Dim): int {
    if InFlight(row) then row.reservation.At(d) else 0
  }

  /** What a terminal row has spent. */
  function Spend(row: Row, d: Dim): int {
    if InFlight(row) then 0 else row.consumption.At(d)
  }

  function ReservedAt(d: Dim): Row -> int {
    (row: Row) => Hold(row, d)
  }

  function ConsumedAt(d: Dim): Row -> int {
    (row: Row) => Spend(row, d)
  }

  ghost function TotalReserved(rows: map<string, Row>): (total: Vector)
    ensures forall d :: total.At(d) == SumOver(rows, ReservedAt(d))
  {
    Tabulate(d => SumOver(rows, ReservedAt(d)))
  }

  ghost function TotalConsumed(rows: map<string, Row>): (total: Vector)
    ensures forall d :: total.At(d) == SumOver(rows, ConsumedAt(d))
  {
    Tabulate(d => SumOver(rows, ConsumedAt(d)))
  }

  // ---------------------------------------------------------------- steps

  /** The memory of a process started on the given durable state. */
  ghost function Rebuild(store: Store): Memory {
    Memory(store.rows, store.artifacts, TotalConsumed(store.rows), TotalReserved(store.rows))
  }

  ghost function Init(runId: string, limits: Vector): Sys {
    Sys(runId, limits, Store(map[], map[], []), Down, [], map[])
  }

  function StartedRow(call: Call, status: Status): Row {
    Row(call.key, call.identity, status, call.reservation, ZERO, None, [], "")
  }

  function FailedRow(call: Call): Row {
    Row(call.key, call.identity, Failed, call.reservation, call.reservation, None, [], "REMOTE_CALL_FAILED")
  }

  function SucceededRow(call: Call, artifact: Artifact, evidence: seq<EvidenceItem>, actual: Vector): Row {
    Row(call.key, call.identity, Succeeded, call.reservation, actual,
        Some(Output(artifact.key, artifact.contentHash)), References(evidence), "")
  }

  function TransitionRow(call: Call): Row {
    Row(call.key, call.identity, Succeeded, ZERO, call.reservation, None, [], "")
  }

  /** The artifact a row's outcome is read from; None where the outcome is not known or does not match. */
  function ArtifactFor(runId: string, artifacts: map<ArtifactKey, Artifact>, row: Row, call: Call): Option<Artifact> {
    var key := if row.output.Some? then row.output.value.key else OutcomeKey(runId, call.key);
    if key !in artifacts || artifacts[key].requestHash != call.identity.requestHash then None
    else if row.output.Some? && artifacts[key].contentHash != row.output.value.contentHash then None
    else Some(artifacts[key])
  }

  /** What finishing a recovered call charges. */
  function RecoveredCharge(row: Row, call: Call): Vector {
    if row.consumption == ZERO then call.reservation else row.consumption
  }

  /** Replaces a row in the durable store and in the memory of the process writing it. */
  ghost function WriteRow(s: Sys, row: Row, consumed: Vector, reserved: Vector, pc: Pc): Sys
    requires s.process.Up?
  {
    var m := s.process.memory;
    s.(store := s.store.(rows := s.store.rows[row.key := row]),
       process := Up(Memory(m.entries[row.key := row], m.artifacts, consumed, reserved), pc))
  }

  /** A call is presented to an idle process. */
  ghost function StepPresent(s: Sys, call: Call): Sys
    requires s.process.Up?
  {
    var m := s.process.memory;
    if !ValidCall(call) || call.identity.kind.LocalTransition? || !ValidArtifactType(call.artifactType) then s
    else if call.key !in m.entries then
      if Fits(s.limits, m.consumed.Add(m.reserved), call.reservation)
      then WriteRow(s, StartedRow(call, Reserved), m.consumed, m.reserved.Add(call.reservation), ToStart(call))
      else s
    else
      var row := m.entries[call.key];
      if row.identity != call.identity then s
      else match row.status
        case Reserved => s.(process := Up(m, ToStart(call)))
        case CallStarted =>
          var found := ArtifactFor(s.runId, m.artifacts, row, call);
          if found.Some? && found.value.content.Canonical? && found.value.content.schema == call.schema
          then s.(process := Up(m, ToEvidence(call, found.value, found.value.content.value, true)))
          else s
        case _ => s
  }

  ghost function StepInvoke(s: Sys, call: Call, outcome: Option<Json>): Sys
    requires s.process.Up?
  {
    var after := s.(entered := s.entered + [call.key]);
    match outcome
    case None => after.(process := Up(s.process.memory, ToFail(call)))
    case Some(value) =>
      after.(process := Up(s.process.memory, ToArtifact(call, value)),
             produced := s.produced[call.key := value])
  }

  ghost function StepFailed(s: Sys, call: Call): Sys
    requires s.process.Up?
  {
    var m := s.process.memory;
    WriteRow(s, FailedRow(call), m.consumed.Add(call.reservation), m.reserved.SubtractFloor(call.reservation), Idle)
  }

  ghost function StepArtifact(s: Sys, call: Call, value: Json): Sys
    requires s.process.Up?
  {
    var m := s.process.memory;
    var artifact :=
        Build(OutcomeKey(s.runId, call.key), call.artifactType, call.identity.requestHash, call.schema, value);
    s.(store := s.store.(artifacts := s.store.artifacts[artifact.key := artifact]),
       process := Up(m.(artifacts := m.artifacts[artifact.key := artifact]), ToEvidence(call, artifact, value, false)))
  }

  /** The evidence a call derives from its value: None where the derivation fails. */
  function Derived(call: Call, value: Json): Option<seq<EvidenceItem>> {
    if call.withEvidence then AsEvidence(value) else Some([])
  }

  /** Evidence is derived from the value and written where there is any; a failing derivation leaves the call. */
  ghost function StepEvidence(s: Sys, call: Call, artifact: Artifact, value: Json, recovered: bool): Sys
    requires s.process.Up?
  {
    var m := s.process.memory;
    match Derived(call, value)
    case None => s.(process := Up(m, Idle))
    case Some(items) =>
      s.(store := s.store.(evidence := s.store.evidence + items),
         process := Up(m, ToFinish(call, artifact, value, items, recovered)))
  }

  ghost function StepFinished(s: Sys, call: Call, artifact: Artifact, items: seq<EvidenceItem>, recovered: bool,
                              actual: Vector): Sys
    requires s.process.Up?
  {
    var m := s.process.memory;
    var charge :=
      if recovered && call.key in m.entries then RecoveredCharge(m.entries[call.key], call) else actual;
    WriteRow(s, SucceededRow(call, artifact, items, charge),
             m.consumed.Add(charge), m.reserved.SubtractFloor(call.reservation), Idle)
  }

  ghost function StepTransition(s: Sys, call: Call): Sys
    requires s.process.Up?
  {
    var m := s.process.memory;
    if !ValidCall(call) || !call.identity.kind.LocalTransition? || call.key in m.entries
       || !Fits(s.limits, m.consumed, call.reservation)
    then s
    else WriteRow(s, TransitionRow(call), m.consumed.Add(call.reservation), m.reserved, Idle)
  }

  ghost function StepStarted(s: Sys, call: Call): Sys
    requires s.process.Up?
  {
    var m := s.process.memory;
    WriteRow(s, StartedRow(call, CallStarted), m.consumed, m.reserved, ToInvoke(call))
  }

  /** Something other than a sink raised inside a call after `invoke` returned: the call is left where it is. */
  ghost function StepAbort(s: Sys): Sys
    requires s.process.Up?
  {
    s.(process := Up(s.process.memory, Idle))
  }

  /** One step.  A label that is not enabled leaves the state unchanged. */
  ghost function Step(s: Sys, l: Label): Sys {
    if l.Crash? then s.(process := Down)
    else if s.process.Down? then (if l.Boot? then s.(process := Up(Rebuild(s.store), Idle)) else s)
    else match s.process.pc
      case Idle =>
        if l.Present? then StepPresent(s, l.call)
        else if l.Transition? then StepTransition(s, l.call)
        else s
      case ToStart(call) => if l.WriteStarted? then StepStarted(s, call) else s
      case ToInvoke(call) => if l.Invoke? then StepInvoke(s, call, l.outcome) else s
      case ToFail(call) => if l.WriteFailed? then StepFailed(s, call) else s
      case ToArtifact(call, value) =>
        if l.WriteArtifact? then StepArtifact(s, call, value) else if l.Abort? then StepAbort(s) else s
      case ToEvidence(call, artifact, value, recovered) =>
        if l.WriteEvidence? then StepEvidence(s, call, artifact, value, recovered) else if l.Abort? then StepAbort(s)
        else s
      case ToFinish(call, artifact, _, items, recovered) =>
        if l.WriteFinished? then StepFinished(s, call, artifact, items, recovered, l.actual)
        else if l.Abort? then StepAbort(s) else s
  }

  /** The state after a run. */
  ghost function After(s: Sys, labels: seq<Label>): Sys {
    if labels == [] then s else Step(After(s, labels[..|labels| - 1]), labels[|labels| - 1])
  }

  // ---------------------------------------------------------------- the invariant

  predicate NoDuplicates<T(==)>(s: seq<T>) {
    forall i, j | 0 <= i < j < |s| :: s[i] != s[j]
  }

  ghost predicate RowOk(s: Sys, k: string) {
    k in s.store.rows
    && var row := s.store.rows[k];
    && row.key == k
    && k != "" && row.identity.requestHash != ""
    && (InFlight(row) ==> row.consumption == ZERO && row.output == None && row.evidenceRefs == [])
    && !row.status.OutcomeUnknown?
    && (row.status.Reserved? ==> k !in s.entered)
    && (row.identity.kind.LocalTransition? ==> row.status.Succeeded? && k !in s.entered && row.evidenceRefs == [])
    && (row.status.Succeeded? && !row.identity.kind.LocalTransition? ==>
          && OutcomeKey(s.runId, k) in s.store.artifacts
          && row.output == Some(Output(OutcomeKey(s.runId, k), s.store.artifacts[OutcomeKey(s.runId, k)].contentHash)))
  }

  ghost predicate ArtifactOk(s: Sys, a: ArtifactKey) {
    && a in s.store.artifacts
    && var artifact := s.store.artifacts[a];
    var k := a.operationKey;
    && a == OutcomeKey(s.runId, k)
    && artifact.key == a
    && ValidArtifactType(artifact.artifactType)
    && k in s.store.rows
    && (s.store.rows[k].status.CallStarted? || s.store.rows[k].status.Succeeded?)
    && !s.store.rows[k].identity.kind.LocalTransition?
    && artifact.requestHash == s.store.rows[k].identity.requestHash
    && artifact.contentHash == Sha256(artifact.content)
    && artifact.content.Canonical?
    && k in s.produced && artifact.content.value == s.produced[k]
  }

  ghost predicate EnteredOk(s: Sys) {
    && NoDuplicates(s.entered)
    && (forall k | k in s.entered :: k in s.store.rows)
    && (forall k | k in s.produced :: k in s.entered)
  }

  /** The row of the call a process is working on. */
  ghost predicate Owns(s: Sys, call: Call, status: Status) {
    && ValidCall(call)
    && ValidArtifactType(call.artifactType)
    && !call.identity.kind.LocalTransition?
    && call.key in s.store.rows
    && s.store.rows[call.key].identity == call.identity
    && s.store.rows[call.key].status == status
  }

  ghost predicate Saved(s: Sys, call: Call, artifact: Artifact, value: Json) {
    && Owns(s, call, CallStarted)
    && OutcomeKey(s.runId, call.key) in s.store.artifacts
    && s.store.artifacts[OutcomeKey(s.runId, call.key)] == artifact
    && artifact.content == Canonical(call.schema, value)
  }

  ghost predicate PcOk(s: Sys) {
    s.process.Down? || (
      && s.process.memory.entries == s.store.rows
      && s.process.memory.artifacts == s.store.artifacts
      && match s.process.pc
         case Idle => true
         case ToStart(call) => Owns(s, call, Reserved)
         case ToInvoke(call) => Owns(s, call, CallStarted) && call.key !in s.entered
         case ToFail(call) => Owns(s, call, CallStarted) && call.key in s.entered && call.key !in s.produced
         case ToArtifact(call, value) =>
           && Owns(s, call, CallStarted)
           && call.key in s.produced && s.produced[call.key] == value
           && OutcomeKey(s.runId, call.key) !in s.store.artifacts
         case ToEvidence(call, artifact, value, _) => Saved(s, call, artifact, value)
         case ToFinish(call, artifact, value, items, _) =>
           Saved(s, call, artifact, value) && Derived(call, value) == Some(items)
    )
  }

  ghost predicate Inv(s: Sys) {
    && (forall k | k in s.store.rows :: RowOk(s, k))
    && (forall a | a in s.store.artifacts :: ArtifactOk(s, a))
    && EnteredOk(s)
    && PcOk(s)
  }

  /** What one row may become: identities and terminal rows never change, and a status never goes back. */
  predicate RowAdvances(before: Row, after: Row) {
    && after.key == before.key
    && after.identity == before.identity
    && (!InFlight(before) ==> after == before)
    && (before.status.CallStarted? ==> !after.status.Reserved?)
  }

  ghost predicate RowsAdvance(before: Store, after: Store) {
    forall k | k in before.rows :: k in after.rows && RowAdvances(before.rows[k], after.rows[k])
  }
}
