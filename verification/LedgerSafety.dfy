/** What every run of the ledger keeps, whatever is presented and wherever it crashes. */
module LedgerSafety {
  import opened Budget
  import opened JsonTree
  import opened Evidence
  import opened Outcomes
  import opened LedgerProtocol

  /** Replacing the row of a call in flight keeps everything but that row. */
  lemma WriteRowKeeps(s: Sys, row: Row, consumed: Vector, reserved: Vector, pc: Pc)
    requires Inv(s) && s.process.Up?
    requires row.key in s.store.rows ==>
               InFlight(s.store.rows[row.key]) && row.identity == s.store.rows[row.key].identity
    requires !row.identity.kind.LocalTransition? || row.key !in s.entered
    requires RowOk(WriteRow(s, row, consumed, reserved, pc), row.key)
    requires OutcomeKey(s.runId, row.key) in s.store.artifacts ==> row.status.CallStarted? || row.status.Succeeded?
    requires PcOk(WriteRow(s, row, consumed, reserved, pc))
    ensures Inv(WriteRow(s, row, consumed, reserved, pc))
  {
    var t := WriteRow(s, row, consumed, reserved, pc);
    forall k | k in t.store.rows ensures RowOk(t, k) {
      if k != row.key {
        assert RowOk(s, k);
      }
    }
    forall a | a in t.store.artifacts ensures ArtifactOk(t, a) {
      assert ArtifactOk(s, a);
    }
  }

  lemma ArtifactHasCall(s: Sys, k: string)
    requires Inv(s)
    ensures OutcomeKey(s.runId, k) in s.store.artifacts ==> ArtifactOk(s, OutcomeKey(s.runId, k))
  {
  }

  lemma PresentKeeps(s: Sys, call: Call)
    requires Inv(s) && s.process.Up? && s.process.pc.Idle?
    ensures Inv(StepPresent(s, call)) && RowsAdvance(s.store, StepPresent(s, call).store)
  {
    var m := s.process.memory;
    var t := StepPresent(s, call);
    if call.key !in m.entries {
      if t != s {
        ArtifactHasCall(s, call.key);
        NonEmptyKey(call.key);
        WriteRowKeeps(s, StartedRow(call, Reserved), m.consumed, m.reserved.Add(call.reservation), ToStart(call));
      }
    } else {
      assert RowOk(s, call.key);
      assert t.store == s.store && t.entered == s.entered && t.produced == s.produced;
      forall k | k in t.store.rows ensures RowOk(t, k) {
        assert RowOk(s, k);
      }
      forall a | a in t.store.artifacts ensures ArtifactOk(t, a) {
        assert ArtifactOk(s, a);
      }
    }
  }

  lemma NonEmptyKey(key: string)
    requires ValidOperationKey(key)
    ensures key != ""
  {
    assert key == "" ==> Segments(key) == [""];
  }

  lemma StartedKeeps(s: Sys, call: Call)
    requires Inv(s) && s.process.Up? && s.process.pc == ToStart(call)
    ensures Inv(StepStarted(s, call)) && RowsAdvance(s.store, StepStarted(s, call).store)
  {
    assert RowOk(s, call.key);
    WriteRowKeeps(s, StartedRow(call, CallStarted), s.process.memory.consumed, s.process.memory.reserved,
                  ToInvoke(call));
  }

  /** Entering `invoke`: the key was never entered before. */
  lemma InvokeKeeps(s: Sys, call: Call, outcome: Option<Json>)
    requires Inv(s) && s.process.Up? && s.process.pc == ToInvoke(call)
    ensures Inv(StepInvoke(s, call, outcome)) && RowsAdvance(s.store, StepInvoke(s, call, outcome).store)
  {
    var t := StepInvoke(s, call, outcome);
    ArtifactHasCall(s, call.key);
    forall k | k in t.store.rows ensures RowOk(t, k) {
      assert RowOk(s, k);
    }
    forall a | a in t.store.artifacts ensures ArtifactOk(t, a) {
      assert ArtifactOk(s, a);
    }
  }

  lemma FailedKeeps(s: Sys, call: Call)
    requires Inv(s) && s.process.Up? && s.process.pc == ToFail(call)
    ensures Inv(StepFailed(s, call)) && RowsAdvance(s.store, StepFailed(s, call).store)
  {
    assert RowOk(s, call.key);
    ArtifactHasCall(s, call.key);
    var m := s.process.memory;
    WriteRowKeeps(s, FailedRow(call), m.consumed.Add(call.reservation), m.reserved.SubtractFloor(call.reservation),
                  Idle);
  }

  lemma ArtifactKeeps(s: Sys, call: Call, value: Json)
    requires Inv(s) && s.process.Up? && s.process.pc == ToArtifact(call, value)
    ensures Inv(StepArtifact(s, call, value)) && RowsAdvance(s.store, StepArtifact(s, call, value).store)
  {
    var t := StepArtifact(s, call, value);
    forall k | k in t.store.rows ensures RowOk(t, k) {
      assert RowOk(s, k);
    }
    forall a | a in t.store.artifacts ensures ArtifactOk(t, a) {
      assert a in s.store.artifacts ==> ArtifactOk(s, a);
    }
  }

  lemma EvidenceKeeps(s: Sys, call: Call, artifact: Artifact, value: Json, recovered: bool)
    requires Inv(s) && s.process.Up? && s.process.pc == ToEvidence(call, artifact, value, recovered)
    ensures Inv(StepEvidence(s, call, artifact, value, recovered))
    ensures RowsAdvance(s.store, StepEvidence(s, call, artifact, value, recovered).store)
  {
    var t := StepEvidence(s, call, artifact, value, recovered);
    forall k | k in t.store.rows ensures RowOk(t, k) {
      assert RowOk(s, k);
    }
    forall a | a in t.store.artifacts ensures ArtifactOk(t, a) {
      assert ArtifactOk(s, a);
    }
  }

  lemma SucceededKeeps(s: Sys, call: Call, artifact: Artifact, items: seq<EvidenceItem>, charge: Vector,
                       reserved: Vector)
    requires Inv(s) && s.process.Up? && s.process.pc.ToFinish?
    requires s.process.pc.call == call && s.process.pc.artifact == artifact
    ensures var t := WriteRow(s, SucceededRow(call, artifact, items, charge), s.process.memory.consumed.Add(charge),
                              reserved, Idle);
            Inv(t) && RowsAdvance(s.store, t.store)
  {
    assert RowOk(s, call.key);
    assert ArtifactOk(s, OutcomeKey(s.runId, call.key));
    WriteRowKeeps(s, SucceededRow(call, artifact, items, charge), s.process.memory.consumed.Add(charge), reserved,
                  Idle);
  }

  lemma FinishedKeeps(s: Sys, call: Call, artifact: Artifact, value: Json, items: seq<EvidenceItem>, recovered: bool,
                      actual: Vector)
    requires Inv(s) && s.process.Up? && s.process.pc == ToFinish(call, artifact, value, items, recovered)
    ensures Inv(StepFinished(s, call, artifact, items, recovered, actual))
    ensures RowsAdvance(s.store, StepFinished(s, call, artifact, items, recovered, actual).store)
  {
    var m := s.process.memory;
    var charge := if recovered && call.key in m.entries then RecoveredCharge(m.entries[call.key], call) else actual;
    SucceededKeeps(s, call, artifact, items, charge, m.reserved.SubtractFloor(call.reservation));
  }

  lemma TransitionKeeps(s: Sys, call: Call)
    requires Inv(s) && s.process.Up? && s.process.pc.Idle?
    ensures Inv(StepTransition(s, call)) && RowsAdvance(s.store, StepTransition(s, call).store)
  {
    var m := s.process.memory;
    if StepTransition(s, call) != s {
      ArtifactHasCall(s, call.key);
      NonEmptyKey(call.key);
      WriteRowKeeps(s, TransitionRow(call), m.consumed.Add(call.reservation), m.reserved, Idle);
    }
  }

  /** Moving the process without writing keeps the invariant when the new position is in order. */
  lemma MoveKeeps(s: Sys, process: Process)
    requires Inv(s) && PcOk(s.(process := process))
    ensures Inv(s.(process := process))
  {
    var t := s.(process := process);
    forall k | k in t.store.rows ensures RowOk(t, k) {
      assert RowOk(s, k);
    }
    forall a | a in t.store.artifacts ensures ArtifactOk(t, a) {
      assert ArtifactOk(s, a);
    }
  }

  /** Every step keeps the invariant and only advances rows. */
  lemma StepKeeps(s: Sys, l: Label)
    requires Inv(s)
    ensures Inv(Step(s, l)) && RowsAdvance(s.store, Step(s, l).store)
  {
    if l.Crash? {
      MoveKeeps(s, Down);
    } else if s.process.Down? {
      if l.Boot? {
        MoveKeeps(s, Up(Rebuild(s.store), Idle));
      }
    } else {
      match s.process.pc
      case Idle =>
        if l.Present? {
          PresentKeeps(s, l.call);
        } else if l.Transition? {
          TransitionKeeps(s, l.call);
        }
      case ToStart(call) =>
        if l.WriteStarted? {
          StartedKeeps(s, call);
        }
      case ToInvoke(call) =>
        if l.Invoke? {
          InvokeKeeps(s, call, l.outcome);
        }
      case ToFail(call) =>
        if l.WriteFailed? {
          FailedKeeps(s, call);
        }
      case ToArtifact(call, value) =>
        if l.WriteArtifact? {
          ArtifactKeeps(s, call, value);
        } else if l.Abort? {
          MoveKeeps(s, Up(s.process.memory, Idle));
        }
      case ToEvidence(call, artifact, value, recovered) =>
        if l.WriteEvidence? {
          EvidenceKeeps(s, call, artifact, value, recovered);
        } else if l.Abort? {
          MoveKeeps(s, Up(s.process.memory, Idle));
        }
      case ToFinish(call, artifact, value, items, recovered) =>
        if l.WriteFinished? {
          FinishedKeeps(s, call, artifact, value, items, recovered, l.actual);
        } else if l.Abort? {
          MoveKeeps(s, Up(s.process.memory, Idle));
        }
    }
  }

  lemma {:induction false} RunKeeps(s: Sys, labels: seq<Label>)
    requires Inv(s)
    ensures Inv(After(s, labels))
  {
    if labels != [] {
      RunKeeps(s, labels[..|labels| - 1]);
      StepKeeps(After(s, labels[..|labels| - 1]), labels[|labels| - 1]);
    }
  }

  /** Over any number of processes and any crashes, the `invoke` of an operation key is entered at most once. */
  lemma AtMostOneInvocation(runId: string, limits: Vector, labels: seq<Label>)
    ensures NoDuplicates(After(Init(runId, limits), labels).entered)
  {
    RunKeeps(Init(runId, limits), labels);
  }

  /** Along any run, no key loses its identity, no terminal row changes and no status goes back. */
  lemma {:induction false} RowsOnlyAdvance(s: Sys, labels: seq<Label>)
    requires Inv(s)
    ensures RowsAdvance(s.store, After(s, labels).store)
  {
    if labels != [] {
      var before := labels[..|labels| - 1];
      RunKeeps(s, before);
      RowsOnlyAdvance(s, before);
      StepKeeps(After(s, before), labels[|labels| - 1]);
    }
  }
}
