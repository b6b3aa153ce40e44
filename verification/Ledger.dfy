/** The execution ledger of one process, and the durable indexes it starts from.

    Every statement of `Execute` and `ConsumeTransition` that writes to the sink is one
    label of the step system in LedgerProtocol, recorded in the ghost field `trace`.
    A crash leaves the durable state of some prefix of the trace.
 */
module Ledger {
  import opened Budget
  import opened JsonTree
  import opened Evidence
  import opened Outcomes
  import opened LedgerProtocol
  import opened LedgerSafety
  import opened LedgerBudget
  import opened LedgerReplay

  // ---------------------------------------------------------------- durable indexes

  /** Position i holds the first item with its key. */
  ghost predicate First<K, V>(items: seq<V>, key: V -> K, i: int) {
    0 <= i < |items| && forall j | 0 <= j < i :: key(items[j]) != key(items[i])
  }

  /** A durable index keeps the first item of every key and refuses items that give one key two identities; it
      compares nothing else. */
  method Index<K(==), V, I(==)>(items: seq<V>, key: V -> K, identity: V -> I) returns (index: Option<map<K, V>>)
    ensures index.Some? <==> forall i, j | 0 <= i < |items| && 0 <= j < |items| && key(items[i]) == key(items[j]) ::
                               identity(items[i]) == identity(items[j])
    ensures index.Some? ==> forall k | k in index.value :: exists i :: 0 <= i < |items| && key(items[i]) == k
    ensures index.Some? ==> forall i | 0 <= i < |items| :: key(items[i]) in index.value
    ensures index.Some? ==> forall i | First(items, key, i) :: index.value[key(items[i])] == items[i]
  {
    var seen: map<K, V> := map[];
    for n := 0 to |items|
      invariant forall k | k in seen :: exists i :: 0 <= i < n && seen[k] == items[i] && key(items[i]) == k
      invariant forall i | 0 <= i < n :: key(items[i]) in seen && identity(seen[key(items[i])]) == identity(items[i])
      invariant forall i | 0 <= i < n && First(items, key, i) :: seen[key(items[i])] == items[i]
    {
      var item := items[n];
      if key(item) !in seen {
        seen := seen[key(item) := item];
      }
      if identity(seen[key(item)]) != identity(item) {
        return None;
      }
    }
    return Some(seen);
  }

  /** A listing of durable items: each key once. */
  ghost predicate Lists<K, V>(items: seq<V>, key: V -> K, contents: map<K, V>) {
    && (forall i, j | 0 <= i < j < |items| :: key(items[i]) != key(items[j]))
    && (forall i | 0 <= i < |items| :: key(items[i]) in contents && contents[key(items[i])] == items[i])
    && (forall k | k in contents :: exists i :: 0 <= i < |items| && key(items[i]) == k)
  }

  /** Indexing a listing gives back what it lists. */
  method IndexListing<K(==), V, I(==)>(items: seq<V>, key: V -> K, identity: V -> I, ghost contents: map<K, V>)
    returns (index: map<K, V>)
    requires Lists(items, key, contents)
    ensures index == contents
  {
    var found := Index(items, key, identity);
    forall i | 0 <= i < |items| ensures First(items, key, i) {
    }
    index := found.value;
    assert forall k :: k in index <==> k in contents;
  }

  function RowKey(): Row -> string {
    (row: Row) => row.key
  }

  function ArtifactKeyOf(): Artifact -> ArtifactKey {
    (artifact: Artifact) => artifact.key
  }

  lemma AddedRow(rows: map<string, Row>, row: Row)
    requires row.key !in rows
    ensures TotalReserved(rows[row.key := row])
            == if InFlight(row) then TotalReserved(rows).Add(row.reservation) else TotalReserved(rows)
  {
    var total := if InFlight(row) then TotalReserved(rows).Add(row.reservation) else TotalReserved(rows);
    forall d ensures total.At(d) == TotalReserved(rows[row.key := row]).At(d) {
      TotalsUpdate(rows, row.key, row, d);
    }
    Extensional(total, TotalReserved(rows[row.key := row]));
  }

  /** Adding up the reservations of the listed rows in flight. */
  method SumReserved(items: seq<Row>, ghost rows: map<string, Row>) returns (reserved: Vector)
    requires Lists(items, RowKey(), rows)
    ensures reserved == TotalReserved(rows)
  {
    reserved := ZERO;
    ghost var done: map<string, Row> := map[];
    Extensional(ZERO, TotalReserved(done));
    for n := 0 to |items|
      invariant forall k | k in done :: k in rows && done[k] == rows[k] && exists i :: 0 <= i < n && items[i].key == k
      invariant forall i | 0 <= i < n :: items[i].key in done
      invariant reserved == TotalReserved(done)
    {
      AddedRow(done, items[n]);
      if items[n].status in {Reserved, CallStarted} {
        reserved := reserved.Add(items[n].reservation);
      }
      done := done[items[n].key := items[n]];
    }
    assert done == rows;
  }

  // ---------------------------------------------------------------- one ledger call

  /** The labels of one call, given what `invoke`, the validator and the consumption function do. */
  ghost function Script(s: Sys, call: Call, invoked: Option<Json>, validate: Json -> Option<Json>,
                        consumption: Json -> Option<Vector>): seq<Label>
  {
    var p := Step(s, Present(call));
    if p.process.Down? then [Present(call)]
    else match p.process.pc
      case ToStart(_) => [Present(call)] + RunScript(call, invoked, consumption)
      case ToEvidence(_, artifact, value, _) =>
        if validate(value).None? then []
        else [Present(call)] + FinishScript(call, value, Some(
          if call.key in p.store.rows then RecoveredCharge(p.store.rows[call.key], call) else call.reservation))
      case _ => [Present(call)]
  }

  ghost function RunScript(call: Call, invoked: Option<Json>, consumption: Json -> Option<Vector>): seq<Label> {
    [WriteStarted, Invoke(invoked)]
    + (if invoked.None? then [WriteFailed]
       else [WriteArtifact] + FinishScript(call, invoked.value, consumption(invoked.value)))
  }

  ghost function FinishScript(call: Call, value: Json, charge: Option<Vector>): seq<Label> {
    if Derived(call, value).None? then [WriteEvidence]
    else if charge.None? then [WriteEvidence, Abort]
    else [WriteEvidence, WriteFinished(charge.value)]
  }

  // ---------------------------------------------------------------- the answer to a call

  predicate Presentable(call: Call) {
    ValidCall(call) && !call.identity.kind.LocalTransition? && ValidArtifactType(call.artifactType)
  }

  /** What a call that is carried out answers. */
  function FreshAnswer(call: Call, invoked: Option<Json>, consumption: Json -> Option<Vector>): Answer {
    if invoked.None? || Derived(call, invoked.value).None? || consumption(invoked.value).None? then Raised
    else Returned(invoked.value, false, consumption(invoked.value).value)
  }

  /** The value first produced for the key is stored under the schema asked for, and the validator accepts it. */
  ghost predicate Legible(s: Sys, call: Call, validate: Json -> Option<Json>) {
    Recoverable(s, call) && call.key in s.produced && validate(s.produced[call.key]).Some?
  }

  /** The budget has no room for a new call. */
  ghost predicate Unaffordable(s: Sys, call: Call) {
    && s.process.Up? && Presentable(call) && call.key !in s.store.rows
    && !Fits(s.limits, s.process.memory.consumed.Add(s.process.memory.reserved), call.reservation)
  }

  /** What the durable state and the history make of a call that the budget does not refuse. */
  ghost function Expected(s: Sys, call: Call, invoked: Option<Json>, validate: Json -> Option<Json>,
                          consumption: Json -> Option<Vector>): Answer
  {
    if !Presentable(call) then InvalidCall
    else if call.key !in s.store.rows then FreshAnswer(call, invoked, consumption)
    else
      var row := s.store.rows[call.key];
      if row.identity != call.identity then IdentityMismatch
      else match row.status
        case Reserved => FreshAnswer(call, invoked, consumption)
        case CallStarted => RecoveredAnswer(s, call, validate)
        case Succeeded =>
          if Legible(s, call, validate) then Returned(s.produced[call.key], true, row.consumption) else DecodeFailed
        case Failed => TerminalFailure(row.errorCategory)
        case OutcomeUnknown => UnknownOutcome
  }

  ghost function RecoveredAnswer(s: Sys, call: Call, validate: Json -> Option<Json>): Answer {
    if OutcomeKey(s.runId, call.key) !in s.store.artifacts then UnknownOutcome
    else if !Legible(s, call, validate) then DecodeFailed
    else if Derived(call, s.produced[call.key]).None? then Raised
    else Returned(s.produced[call.key], true, call.reservation)
  }

  /** The key is durable for this very call, at the given status. */
  ghost predicate Held(s: Sys, call: Call, status: Status) {
    && Presentable(call) && call.key in s.store.rows
    && s.store.rows[call.key].identity == call.identity && s.store.rows[call.key].status == status
  }

  /** Each answer occurs exactly in its own states. */
  lemma AnswersIff(s: Sys, call: Call, invoked: Option<Json>, validate: Json -> Option<Json>,
                   consumption: Json -> Option<Vector>)
    requires Inv(s)
    ensures var answer := Expected(s, call, invoked, validate, consumption);
      var claimed := Presentable(call) && (call.key !in s.store.rows || Held(s, call, Reserved));
      var stored := OutcomeKey(s.runId, call.key) in s.store.artifacts;
      && !answer.BudgetRefused?
      && (answer.InvalidCall? <==>
            || !ValidOperationKey(call.key) || call.identity.operation == ""
            || !("sha256:" <= call.identity.requestHash) || call.identity.kind == LocalTransition
            || call.artifactType == "" || |call.artifactType| > 80)
      && (answer.IdentityMismatch? <==>
            Presentable(call) && call.key in s.store.rows && s.store.rows[call.key].identity != call.identity)
      && (answer.TerminalFailure? <==> Held(s, call, Failed))
      && (answer.TerminalFailure? ==> answer.category == s.store.rows[call.key].errorCategory)
      && (answer.UnknownOutcome? <==> Held(s, call, CallStarted) && !stored)
      && (answer.DecodeFailed? <==>
            (Held(s, call, Succeeded) || (Held(s, call, CallStarted) && stored)) && !Legible(s, call, validate))
      && (answer.Returned? && !answer.replayed <==>
            && claimed && invoked.Some?
            && Derived(call, invoked.value).Some? && consumption(invoked.value).Some?)
      && (answer.Returned? && !answer.replayed ==>
            invoked == Some(answer.value) && consumption(answer.value) == Some(answer.consumption))
      && (answer.Returned? && answer.replayed <==>
            && Legible(s, call, validate)
            && (|| Held(s, call, Succeeded)
                || (Held(s, call, CallStarted) && Derived(call, s.produced[call.key]).Some?)))
      && (answer.Returned? && answer.replayed ==>
            && answer.value == s.produced[call.key]
            && answer.consumption == if Held(s, call, Succeeded) then s.store.rows[call.key].consumption
                                     else call.reservation)
  {
    if call.key in s.store.rows {
      assert RowOk(s, call.key);
    }
  }

  /** The durable store behind the event sink. */
  class DurableSink {
    var rows: map<string, Row>
    var artifacts: map<ArtifactKey, Artifact>
    var evidence: seq<EvidenceItem>

    constructor ()
      ensures rows == map[] && artifacts == map[] && evidence == []
    {
      rows, artifacts, evidence := map[], map[], [];
    }

    ghost function Durable(): Store
      reads this
    {
      Store(rows, artifacts, evidence)
    }
  }

  class RunExecutionLedger {
    const runId: string
    const sink: DurableSink
    const budget: BudgetState
    var entries: map<string, Row>
    var artifacts: map<ArtifactKey, Artifact>
    /** Everything that has happened in this run, earlier processes included. */
    ghost var trace: seq<Label>

    ghost function System(): Sys
      reads this
    {
      After(Init(runId, budget.limits), trace)
    }

    /** The object's fields are the live process of the system its trace has reached, at the given position. */
    ghost predicate Stands(pc: Pc)
      reads this, sink, budget
    {
      var s := System();
      && s.store == sink.Durable()
      && s.process == Up(Memory(entries, artifacts, budget.consumed, budget.reserved), pc)
    }

    ghost predicate Valid()
      reads this, sink, budget
    {
      Stands(Idle)
    }

    /** Nothing was entered and nothing produced since. */
    ghost predicate SameHistory(before: Sys)
      reads this
    {
      System().entered == before.entered && System().produced == before.produced
    }

    ghost method Log(l: Label)
      modifies this`trace
      ensures trace == old(trace) + [l]
      ensures System() == Step(old(System()), l)
    {
      OneMore(Init(runId, budget.limits), trace, l);
      trace := trace + [l];
    }

    lemma Sound()
      ensures Inv(System()) && System().runId == runId && System().limits == budget.limits
    {
      RunKeeps(Init(runId, budget.limits), trace);
      RunLimitsUnchanged(Init(runId, budget.limits), trace);
    }

    /** A new process starts from the durable rows and artifacts an earlier one left behind. */
    constructor (runId: string, limits: Vector, consumed: Vector, ledgerEntries: seq<Row>,
                 resumeArtifacts: seq<Artifact>,
                 sink: DurableSink, ghost history: seq<Label>)
      requires After(Init(runId, limits), history).store == sink.Durable()
      requires Lists(ledgerEntries, RowKey(), sink.rows) && Lists(resumeArtifacts, ArtifactKeyOf(), sink.artifacts)
      requires consumed == TotalConsumed(sink.rows)
      ensures Valid()
      ensures this.runId == runId && this.budget.limits == limits && this.sink == sink
      ensures trace == history + [Crash, Boot]
      ensures entries == sink.rows && artifacts == sink.artifacts
    {
      var index := IndexListing(ledgerEntries, RowKey(), (row: Row) => row.identity, sink.rows);
      var saved :=
          IndexListing(resumeArtifacts, ArtifactKeyOf(), (a: Artifact) => (a.contentHash, a.requestHash),
                       sink.artifacts);
      var reserved := SumReserved(ledgerEntries, sink.rows);
      var state := new BudgetState(limits, consumed, reserved);
      this.runId := runId;
      this.sink := sink;
      this.budget := state;
      this.entries := index;
      this.artifacts := saved;
      this.trace := history + [Crash, Boot];
      RunLimitsUnchanged(Init(runId, limits), history);
      CrashAndBoot(Init(runId, limits), history);
    }

    /** Writes a row to the sink, then takes it into memory. */
    method WriteEntry(row: Row, ghost l: Label)
      modifies this`entries, this`trace, sink`rows
      ensures sink.rows == old(sink.rows)[row.key := row] && entries == old(entries)[row.key := row]
      ensures trace == old(trace) + [l] && System() == Step(old(System()), l)
    {
      sink.rows := sink.rows[row.key := row];
      entries := entries[row.key := row];
      Log(l);
    }

    method SaveStarted(call: Call)
      requires Stands(ToStart(call))
      modifies this, sink
      ensures Stands(ToInvoke(call)) && trace == old(trace) + [WriteStarted] && SameHistory(old(System()))
    {
      WriteEntry(StartedRow(call, CallStarted), WriteStarted);
    }

    /** Enters `invoke`, which has not been entered for this key before. */
    ghost method Enter(call: Call, invoked: Option<Json>)
      requires Stands(ToInvoke(call))
      modifies this`trace
      ensures Stands(if invoked.None? then ToFail(call) else ToArtifact(call, invoked.value))
      ensures trace == old(trace) + [Invoke(invoked)]
      ensures call.key !in old(System()).entered && System().entered == old(System()).entered + [call.key]
      ensures invoked.Some? ==> System().produced == old(System()).produced[call.key := invoked.value]
    {
      Sound();
      Log(Invoke(invoked));
    }

    method SaveFailed(call: Call)
      requires Stands(ToFail(call))
      modifies this, sink, budget
      ensures Valid() && trace == old(trace) + [WriteFailed]
    {
      WriteEntry(FailedRow(call), WriteFailed);
      budget.Finish(call.reservation, call.reservation);
    }

    method SaveArtifact(call: Call, value: Json) returns (artifact: Artifact)
      requires Stands(ToArtifact(call, value))
      modifies this, sink
      ensures Stands(ToEvidence(call, artifact, value, false))
      ensures trace == old(trace) + [WriteArtifact] && SameHistory(old(System()))
    {
      Sound();
      artifact := Build(OutcomeKey(runId, call.key), call.artifactType, call.identity.requestHash, call.schema, value);
      sink.artifacts := sink.artifacts[artifact.key := artifact];
      artifacts := artifacts[artifact.key := artifact];
      Log(WriteArtifact);
    }

    method SaveEvidence(call: Call, artifact: Artifact, value: Json, recovered: bool)
      returns (derived: Option<seq<EvidenceItem>>)
      requires Stands(ToEvidence(call, artifact, value, recovered))
      modifies this, sink
      ensures derived == Derived(call, value)
      ensures Stands(if derived.None? then Idle else ToFinish(call, artifact, value, derived.value, recovered))
      ensures trace == old(trace) + [WriteEvidence] && SameHistory(old(System()))
      ensures entries == old(entries)
    {
      derived := Derived(call, value);
      if derived.Some? && derived.value != [] {
        sink.evidence := sink.evidence + derived.value;
      }
      Log(WriteEvidence);
    }

    method SaveFinished(call: Call, artifact: Artifact, value: Json, items: seq<EvidenceItem>, recovered: bool,
                        charge: Vector)
      requires Stands(ToFinish(call, artifact, value, items, recovered))
      requires recovered && call.key in entries ==> charge == RecoveredCharge(entries[call.key], call)
      modifies this, sink, budget
      ensures Valid() && trace == old(trace) + [WriteFinished(charge)] && SameHistory(old(System()))
      ensures call.key in sink.rows && sink.rows[call.key] == SucceededRow(call, artifact, items, charge)
    {
      WriteEntry(SucceededRow(call, artifact, items, charge), WriteFinished(charge));
      budget.Finish(call.reservation, charge);
    }

    ghost method Leave(call: Call, artifact: Artifact, value: Json, items: seq<EvidenceItem>, recovered: bool)
      requires Stands(ToFinish(call, artifact, value, items, recovered))
      modifies this`trace
      ensures Valid() && trace == old(trace) + [Abort]
    {
      Log(Abort);
    }

    /** Evidence and the final row of a call whose artifact is durable. */
    method Complete(call: Call, artifact: Artifact, value: Json, recovered: bool, charge: Option<Vector>)
      returns (answer: Answer)
      requires Stands(ToEvidence(call, artifact, value, recovered))
      requires recovered && call.key in entries ==> charge == Some(RecoveredCharge(entries[call.key], call))
      modifies this, sink, budget
      ensures Valid()
      ensures trace == old(trace) + FinishScript(call, value, charge)
      ensures var raised := Derived(call, value).None? || charge.None?;
              answer == if raised then Raised else Returned(value, recovered, charge.value)
      ensures answer.Returned? ==> Finished(call, answer.consumption) && SameHistory(old(System()))
    {
      var derived := SaveEvidence(call, artifact, value, recovered);
      if derived.None? {
        return Raised;
      }
      if charge.None? {
        Leave(call, artifact, value, derived.value, recovered);
        return Raised;
      }
      SaveFinished(call, artifact, value, derived.value, recovered, charge.value);
      return Returned(value, recovered, charge.value);
    }

    ghost predicate Finished(call: Call, consumption: Vector)
      reads this, sink
    {
      call.key in sink.rows && sink.rows[call.key].status.Succeeded? && sink.rows[call.key].consumption == consumption
    }

    /** A claimed call: started durably, invoked once, and carried to its end. */
    method Run(call: Call, invoked: Option<Json>, consumption: Json -> Option<Vector>) returns (answer: Answer)
      requires Stands(ToStart(call))
      modifies this, sink, budget
      ensures Valid()
      ensures trace == old(trace) + RunScript(call, invoked, consumption)
      ensures answer == FreshAnswer(call, invoked, consumption)
      ensures answer.Returned? ==>
        && Finished(call, answer.consumption)
        && call.key !in old(System()).entered && System().entered == old(System()).entered + [call.key]
        && System().produced == old(System()).produced[call.key := answer.value]
    {
      SaveStarted(call);
      Enter(call, invoked);
      if invoked.None? {
        SaveFailed(call);
        return Raised;
      }
      var artifact := SaveArtifact(call, invoked.value);
      answer := Complete(call, artifact, invoked.value, false, consumption(invoked.value));
    }

    /** A call was started and not finished: its stored outcome is taken up again, if there is one that can be read. */
    method Recover(row: Row, call: Call, validate: Json -> Option<Json>) returns (answer: Answer)
      requires Valid() && call.key in entries && entries[call.key] == row
      requires Unfinished(System(), call) && Stable(validate, System(), call.key)
      modifies this, sink, budget
      ensures Valid()
      ensures trace == old(trace) + RecoveryScript(row, call, old(ArtifactFor(runId, artifacts, row, call)), validate)
      ensures answer == RecoveredAnswer(old(System()), call, validate)
      ensures answer.Returned? ==> answer.replayed && Finished(call, answer.consumption) && SameHistory(old(System()))
      ensures answer.Returned? ==>
                call.key in old(System()).produced && answer.value == old(System()).produced[call.key]
      ensures !answer.Returned? && !answer.Raised? ==> sink.Durable() == old(sink.Durable())
    {
      var found := ArtifactFor(runId, artifacts, row, call);
      assert Readable(System(), call, found) && Told(System(), row, call, found, validate) by {
        Sound();
        RecoveryReads(System(), call);
        RecoveryTells(System(), call, validate);
      }
      if Unreadable(call, found) {
        Log(Present(call));
        return if found.None? then UnknownOutcome else DecodeFailed;
      }
      var decoded := Decode(found.value.content, call.schema, validate);
      if decoded.None? {
        return DecodeFailed;
      }
      Log(Present(call));
      answer := Complete(call, found.value, decoded.value, true, Some(RecoveredCharge(row, call)));
    }

    /** A row already exists for the key: replay it, refuse it, recover it or carry on from its reservation. */
    method Continue(row: Row, call: Call, invoked: Option<Json>, validate: Json -> Option<Json>,
                    consumption: Json -> Option<Vector>)
      returns (answer: Answer)
      requires Valid() && call.key in entries && entries[call.key] == row
      requires ValidCall(call) && !call.identity.kind.LocalTransition? && ValidArtifactType(call.artifactType)
      requires Stable(validate, System(), call.key)
      modifies this, sink, budget
      ensures Valid()
      ensures trace == old(trace) + Script(old(System()), call, invoked, validate, consumption)
      ensures Answered(answer, call, invoked, old(System()))
      ensures answer == Expected(old(System()), call, invoked, validate, consumption)
      ensures !answer.Returned? && !answer.Raised? ==> sink.Durable() == old(sink.Durable())
    {
      assert PcOk(System()) && System().runId == runId by {
        Sound();
      }
      if row.identity == call.identity && row.status.CallStarted? {
        assert RecoveryScript(row, call, ArtifactFor(runId, artifacts, row, call), validate)
               == Script(System(), call, invoked, validate, consumption) by {
          Sound();
          ScriptOfRecovery(System(), call, invoked, validate, consumption);
        }
        answer := Recover(row, call, validate);
        return;
      }
      if row.identity == call.identity && row.status.Succeeded? {
        answer := Replay(row, call, validate);
        return;
      }
      Log(Present(call));
      if row.identity != call.identity {
        return IdentityMismatch;
      }
      if row.status.Failed? {
        return TerminalFailure(row.errorCategory);
      }
      if row.status.OutcomeUnknown? {
        return UnknownOutcome;
      }
      answer := Run(call, invoked, consumption);
    }

    /** A finished call is answered from its stored outcome. */
    method Replay(row: Row, call: Call, validate: Json -> Option<Json>) returns (answer: Answer)
      requires Valid() && call.key in entries && entries[call.key] == row && row.status.Succeeded?
      requires row.identity == call.identity && !call.identity.kind.LocalTransition?
      requires Stable(validate, System(), call.key)
      modifies this`trace
      ensures Valid() && System() == old(System())
      ensures forall invoked, consumption ::
                trace == old(trace) + Script(old(System()), call, invoked, validate, consumption)
      ensures answer.Returned? ==> answer.replayed && Finished(call, answer.consumption)
      ensures answer.Returned? ==> call.key in System().produced && answer.value == System().produced[call.key]
      ensures answer == if Legible(System(), call, validate)
                        then Returned(System().produced[call.key], true, row.consumption)
                        else DecodeFailed
    {
      Sound();
      ReplayReturnsOriginalIff(System(), call, validate);
      answer := ReplayAnswer(runId, artifacts, row, call, validate);
      Log(Present(call));
    }

    /** What an answer says: a returned value is the one first produced for the key, of a durable success with that
        charge; a value that was not replayed is the one `invoke` produced, entered for the first time, and a
        replayed one entered and produced nothing. */
    ghost predicate Answered(answer: Answer, call: Call, invoked: Option<Json>, before: Sys)
      reads this, sink, budget
    {
      answer.Returned? ==>
        && Finished(call, answer.consumption)
        && call.key in System().produced && System().produced[call.key] == answer.value
        && (!answer.replayed ==>
              && invoked == Some(answer.value)
              && call.key !in before.entered && System().entered == before.entered + [call.key])
        && (answer.replayed ==> SameHistory(before))
    }

    /** A new key: its reservation is taken and written, or refused. */
    method Admit(call: Call) returns (refused: Option<Refusal>)
      requires Valid() && call.key !in entries
      requires ValidCall(call) && !call.identity.kind.LocalTransition? && ValidArtifactType(call.artifactType)
      modifies this, sink, budget
      ensures trace == old(trace) + [Present(call)] && System() == Step(old(System()), Present(call))
      ensures refused.None? <==> Fits(budget.limits, old(budget.consumed.Add(budget.reserved)), call.reservation)
      ensures refused.Some? ==>
                Refuses(budget.limits, old(budget.consumed.Add(budget.reserved)), call.reservation, refused.value)
      ensures refused.Some? ==> Valid() && System() == old(System()) && sink.Durable() == old(sink.Durable())
      ensures refused.None? ==> Stands(ToStart(call)) && SameHistory(old(System()))
    {
      Sound();
      refused := budget.Reserve(call.reservation);
      if refused.Some? {
        Log(Present(call));
      } else {
        WriteEntry(StartedRow(call, Reserved), Present(call));
      }
    }

    /** A call under a new key is carried out, or refused. */
    method Begin(call: Call, invoked: Option<Json>, ghost validate: Json -> Option<Json>,
                 consumption: Json -> Option<Vector>)
      returns (answer: Answer)
      requires Valid() && call.key !in entries && Presentable(call)
      modifies this, sink, budget
      ensures Valid()
      ensures trace == old(trace) + Script(old(System()), call, invoked, validate, consumption)
      ensures Answered(answer, call, invoked, old(System()))
      ensures answer.BudgetRefused? <==>
                !Fits(budget.limits, old(budget.consumed.Add(budget.reserved)), call.reservation)
      ensures answer.BudgetRefused? ==>
                Refuses(budget.limits, old(budget.consumed.Add(budget.reserved)), call.reservation, answer.refusal)
      ensures !answer.BudgetRefused? ==> answer == FreshAnswer(call, invoked, consumption)
      ensures answer.BudgetRefused? ==> sink.Durable() == old(sink.Durable())
    {
      var refused := Admit(call);
      if refused.Some? {
        return BudgetRefused(refused.value);
      }
      answer := Run(call, invoked, consumption);
    }

    /** Presents a call: it runs, replays, recovers or is refused, and the trace records exactly its script. */
    method Execute(call: Call, invoked: Option<Json>, validate: Json -> Option<Json>,
                   consumption: Json -> Option<Vector>)
      returns (answer: Answer)
      requires Valid() && Stable(validate, System(), call.key)
      modifies this, sink, budget
      ensures Valid()
      ensures trace == old(trace) + Script(old(System()), call, invoked, validate, consumption)
      ensures Answered(answer, call, invoked, old(System()))
      ensures answer.BudgetRefused? <==> Unaffordable(old(System()), call)
      ensures answer.BudgetRefused? ==>
                Refuses(budget.limits, old(budget.consumed.Add(budget.reserved)), call.reservation, answer.refusal)
      ensures !answer.BudgetRefused? ==> answer == Expected(old(System()), call, invoked, validate, consumption)
      ensures !answer.Returned? && !answer.Raised? ==> sink.Durable() == old(sink.Durable())
    {
      assert entries == sink.rows && System().limits == budget.limits by {
        Sound();
      }
      if !Presentable(call) {
        Log(Present(call));
        return InvalidCall;
      }
      if call.key in entries {
        answer := Continue(entries[call.key], call, invoked, validate, consumption);
        return;
      }
      answer := Begin(call, invoked, validate, consumption);
    }

    /** Charges a transition once: a key already durable is not charged again. */
    method ConsumeTransition(call: Call) returns (answer: Option<Answer>)
      requires Valid()
      modifies this, sink, budget
      ensures Valid()
      ensures trace == old(trace) + [Transition(call)]
      ensures answer.None? ==> call.key in sink.rows && sink.rows[call.key].status.Succeeded?
      ensures var row := if call.key in old(entries) then Some(old(entries)[call.key]) else None;
              var valid := ValidCall(call) && call.identity.kind.LocalTransition?;
              && (answer == Some(InvalidCall) <==> !valid)
              && (valid && row.None? ==>
                    && (answer.None? <==> Fits(budget.limits, old(budget.consumed), call.reservation))
                    && (answer.Some? ==>
                          && answer.value.BudgetRefused?
                          && Refuses(budget.limits, old(budget.consumed), call.reservation, answer.value.refusal)))
              && (valid && row.Some? ==>
                    answer == if row.value.identity != call.identity then Some(IdentityMismatch)
                              else if row.value.status.Succeeded? then None
                              else Some(UnknownOutcome))
      ensures answer.Some? || call.key in old(sink.rows) ==>
                sink.Durable() == old(sink.Durable())
                && budget.consumed == old(budget.consumed)
    {
      Sound();
      if !ValidCall(call) || !call.identity.kind.LocalTransition? {
        Log(Transition(call));
        return Some(InvalidCall);
      }
      if call.key in entries {
        var row := entries[call.key];
        Log(Transition(call));
        if row.identity != call.identity {
          return Some(IdentityMismatch);
        }
        return if row.status.Succeeded? then None else Some(UnknownOutcome);
      }
      var refused := budget.Consume(call.reservation);
      if refused.Some? {
        Log(Transition(call));
        return Some(BudgetRefused(refused.value));
      }
      WriteEntry(TransitionRow(call), Transition(call));
      return None;
    }
  }

  predicate Unreadable(call: Call, found: Option<Artifact>) {
    found.None? || !found.value.content.Canonical? || found.value.content.schema != call.schema
  }

  /** The labels of a recovery: the refusal, nothing if the validator raises, or the rest of the call. */
  ghost function RecoveryScript(row: Row, call: Call, found: Option<Artifact>,
                                validate: Json -> Option<Json>): seq<Label>
  {
    if Unreadable(call, found) then [Present(call)]
    else if validate(found.value.content.value).None? then []
    else [Present(call)] + FinishScript(call, found.value.content.value, Some(RecoveredCharge(row, call)))
  }

  /** What is found for an unfinished call, and what presenting it does. */
  ghost predicate Readable(s: Sys, call: Call, found: Option<Artifact>)
    requires Unfinished(s, call)
  {
    if Unreadable(call, found) then Step(s, Present(call)) == s
    else
      && call.key in s.produced && found.value.content.value == s.produced[call.key]
      && Step(s, Present(call))
           == s.(process := Up(s.process.memory, ToEvidence(call, found.value, s.produced[call.key], true)))
  }

  lemma RecoveryReads(s: Sys, call: Call)
    requires Inv(s) && Unfinished(s, call)
    ensures Readable(s, call, ArtifactFor(s.runId, s.store.artifacts, s.store.rows[call.key], call))
  {
    RecoveryFindsOriginal(s, call);
    assert RowOk(s, call.key);
    if OutcomeKey(s.runId, call.key) in s.store.artifacts {
      assert ArtifactOk(s, OutcomeKey(s.runId, call.key));
    }
  }

  /** What is found for an unfinished call decides its answer, and its charge is the full reservation. */
  ghost predicate Told(s: Sys, row: Row, call: Call, found: Option<Artifact>, validate: Json -> Option<Json>) {
    && RecoveredCharge(row, call) == call.reservation
    && (found.None? <==> OutcomeKey(s.runId, call.key) !in s.store.artifacts)
    && (Legible(s, call, validate) <==> !Unreadable(call, found) && validate(found.value.content.value).Some?)
  }

  lemma RecoveryTells(s: Sys, call: Call, validate: Json -> Option<Json>)
    requires Inv(s) && Unfinished(s, call)
    ensures var row := s.store.rows[call.key];
            Told(s, row, call, ArtifactFor(s.runId, s.store.artifacts, row, call), validate)
  {
    RecoveryFindsOriginal(s, call);
    assert RowOk(s, call.key);
    if OutcomeKey(s.runId, call.key) in s.store.artifacts {
      assert ArtifactOk(s, OutcomeKey(s.runId, call.key));
    }
  }

  lemma ScriptOfRecovery(s: Sys, call: Call, invoked: Option<Json>, validate: Json -> Option<Json>,
                         consumption: Json -> Option<Vector>)
    requires Inv(s) && Unfinished(s, call)
    ensures var row := s.store.rows[call.key];
      Script(s, call, invoked, validate, consumption)
      == RecoveryScript(row, call, ArtifactFor(s.runId, s.store.artifacts, row, call), validate)
  {
    RecoveryReads(s, call);
  }

  lemma OneMore(s: Sys, labels: seq<Label>, a: Label)
    ensures After(s, labels + [a]) == Step(After(s, labels), a)
  {
    assert (labels + [a])[..|labels|] == labels;
  }

  /** A crash and a boot leave the durable state and a process rebuilt from it. */
  lemma CrashAndBoot(s: Sys, labels: seq<Label>)
    ensures After(s, labels + [Crash, Boot]) == After(s, labels).(process := Up(Rebuild(After(s, labels).store), Idle))
  {
    var before := After(s, labels);
    OneMore(s, labels, Crash);
    assert After(s, labels + [Crash]) == before.(process := Down);
    OneMore(s, labels + [Crash], Boot);
    assert labels + [Crash, Boot] == labels + [Crash] + [Boot];
  }
}
