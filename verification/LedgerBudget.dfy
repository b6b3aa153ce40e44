/** Budget accounting over whole runs of the ledger: memory against durable rows, and the run's limits. */
module LedgerBudget {
  import opened Budget
  import opened JsonTree
  import opened Evidence
  import opened Outcomes
  import opened LedgerProtocol
  import opened LedgerSafety

  // ---------------------------------------------------------------- sums over rows

  lemma {:induction false} SumRemove(rows: map<string, Row>, k: string, weight: Row -> int)
    requires k in rows
    ensures SumOver(rows, weight) == weight(rows[k]) + SumOver(rows - {k}, weight)
    decreases |rows|
  {
    var j :| j in rows && SumOver(rows, weight) == weight(rows[j]) + SumOver(rows - {j}, weight);
    if j != k {
      SumRemove(rows - {j}, k, weight);
      SumRemove(rows - {k}, j, weight);
      assert rows - {j} - {k} == rows - {k} - {j};
    }
  }

  lemma SumUpdate(rows: map<string, Row>, k: string, row: Row, weight: Row -> int)
    ensures SumOver(rows[k := row], weight) == SumOver(rows, weight) - (if k in rows then weight(rows[k]) else 0)
        + weight(row)
  {
    SumRemove(rows[k := row], k, weight);
    assert rows[k := row] - {k} == rows - {k};
    if k in rows {
      SumRemove(rows, k, weight);
    } else {
      assert rows - {k} == rows;
    }
  }

  lemma {:induction false} SumNonNegative(rows: map<string, Row>, weight: Row -> int)
    requires forall k | k in rows :: 0 <= weight(rows[k])
    ensures 0 <= SumOver(rows, weight)
    decreases |rows|
  {
    if rows != map[] {
      var k :| k in rows;
      SumRemove(rows, k, weight);
      SumNonNegative(rows - {k}, weight);
    }
  }

  lemma SumAtLeast(rows: map<string, Row>, k: string, weight: Row -> int)
    requires forall j | j in rows :: 0 <= weight(rows[j])
    requires k in rows
    ensures weight(rows[k]) <= SumOver(rows, weight)
  {
    SumRemove(rows, k, weight);
    SumNonNegative(rows - {k}, weight);
  }

  lemma {:induction false} SumZero(rows: map<string, Row>, weight: Row -> int)
    requires forall k | k in rows :: weight(rows[k]) == 0
    ensures SumOver(rows, weight) == 0
    decreases |rows|
  {
    if rows != map[] {
      var k :| k in rows;
      SumRemove(rows, k, weight);
      SumZero(rows - {k}, weight);
    }
  }

  function HeldBefore(rows: map<string, Row>, k: string, d: Dim): int {
    if k in rows then Hold(rows[k], d) else 0
  }

  function SpentBefore(rows: map<string, Row>, k: string, d: Dim): int {
    if k in rows then Spend(rows[k], d) else 0
  }

  /** The totals after one row is replaced. */
  lemma TotalsUpdate(rows: map<string, Row>, k: string, row: Row, d: Dim)
    ensures TotalReserved(rows[k := row]).At(d) == TotalReserved(rows).At(d) - HeldBefore(rows, k, d) + Hold(row, d)
    ensures TotalConsumed(rows[k := row]).At(d) == TotalConsumed(rows).At(d) - SpentBefore(rows, k, d) + Spend(row, d)
  {
    SumUpdate(rows, k, row, ReservedAt(d));
    SumUpdate(rows, k, row, ConsumedAt(d));
  }

  /** A row in flight holds no more than the total. */
  lemma HeldWithinTotal(rows: map<string, Row>, k: string, d: Dim)
    requires ReservationsOk(rows) && k in rows
    ensures 0 <= Hold(rows[k], d) <= TotalReserved(rows).At(d)
  {
    assert forall j | j in rows :: ReservedAt(d)(rows[j]) == Hold(rows[j], d);
    SumAtLeast(rows, k, ReservedAt(d));
  }

  // ---------------------------------------------------------------- memory against durable rows

  ghost predicate Within(v: Vector, bound: Vector) {
    forall d :: 0 <= v.At(d) <= bound.At(d)
  }

  /** A call presented again for a row in flight carries a reservation no larger than the stored one,
      or, in an exact run, the stored one itself. */
  ghost predicate Carries(exact: bool, s: Sys, l: Label) {
    l.Present? && s.process.Up? && l.call.key in s.process.memory.entries
    && InFlight(s.process.memory.entries[l.call.key]) ==>
      var stored := s.process.memory.entries[l.call.key].reservation;
      if exact then l.call.reservation == stored else Within(l.call.reservation, stored)
  }

  ghost predicate CarriesAll(exact: bool, s: Sys, labels: seq<Label>) {
    forall i | 0 <= i < |labels| :: Carries(exact, After(s, labels[..i]), labels[i])
  }

  ghost predicate CallWithin(exact: bool, s: Sys, call: Call)
    requires call.key in s.store.rows
  {
    && Within(call.reservation, s.store.rows[call.key].reservation)
    && (exact ==> call.reservation == s.store.rows[call.key].reservation)
  }

  ghost predicate ReservationsOk(rows: map<string, Row>) {
    forall k, d | k in rows && InFlight(rows[k]) :: 0 <= rows[k].reservation.At(d)
  }

  /** Consumed agrees with the terminal rows; reserved covers the rows in flight, exactly so in an exact run. */
  ghost predicate BudgetOk(exact: bool, s: Sys) {
    && ReservationsOk(s.store.rows)
    && (s.process.Up? ==>
          && s.process.memory.consumed == TotalConsumed(s.store.rows)
          && (forall d :: TotalReserved(s.store.rows).At(d) <= s.process.memory.reserved.At(d))
          && (exact ==> s.process.memory.reserved == TotalReserved(s.store.rows))
          && (!s.process.pc.Idle? ==>
                s.process.pc.call.key in s.store.rows && CallWithin(exact, s, s.process.pc.call)))
  }

  /** Replacing a row keeps the accounting when memory moves by what the row moves. */
  lemma WriteRowAccounts(exact: bool, s: Sys, row: Row, consumed: Vector, reserved: Vector, pc: Pc)
    requires BudgetOk(exact, s) && s.process.Up?
    requires forall d :: InFlight(row) ==> 0 <= row.reservation.At(d)
    requires forall d ::
               consumed.At(d) == s.process.memory.consumed.At(d) - SpentBefore(s.store.rows, row.key, d) + Spend(row, d)
    requires forall d ::
               reserved.At(d) >= s.process.memory.reserved.At(d) - HeldBefore(s.store.rows, row.key, d) + Hold(row, d)
    requires exact ==> forall d ::
               reserved.At(d) == s.process.memory.reserved.At(d) - HeldBefore(s.store.rows, row.key, d) + Hold(row, d)
    requires pc.Idle? || (pc.call.key == row.key && pc.call.reservation == row.reservation && InFlight(row))
    ensures BudgetOk(exact, WriteRow(s, row, consumed, reserved, pc))
  {
    var rows := s.store.rows[row.key := row];
    forall d
      ensures consumed.At(d) == TotalConsumed(rows).At(d)
      ensures TotalReserved(rows).At(d) <= reserved.At(d)
      ensures exact ==> reserved.At(d) == TotalReserved(rows).At(d)
    {
      TotalsUpdate(s.store.rows, row.key, row, d);
    }
    Extensional(consumed, TotalConsumed(rows));
    if exact {
      Extensional(reserved, TotalReserved(rows));
    }
  }

  lemma PresentAccounts(exact: bool, s: Sys, call: Call)
    requires PcOk(s) && BudgetOk(exact, s) && s.process.Up? && s.process.pc.Idle?
    requires Carries(exact, s, Present(call))
    ensures BudgetOk(exact, StepPresent(s, call))
  {
    var m := s.process.memory;
    if call.key !in m.entries {
      if StepPresent(s, call) != s {
        FitsAll(s.limits, m.consumed.Add(m.reserved), call.reservation);
        WriteRowAccounts(exact, s, StartedRow(call, Reserved), m.consumed, m.reserved.Add(call.reservation),
                         ToStart(call));
      }
    }
  }

  lemma StartedAccounts(exact: bool, s: Sys, call: Call)
    requires PcOk(s) && BudgetOk(exact, s) && s.process.Up? && s.process.pc == ToStart(call)
    ensures BudgetOk(exact, StepStarted(s, call))
  {
    assert CallWithin(exact, s, call);
    assert forall d :: Hold(s.store.rows[call.key], d) >= call.reservation.At(d);
    WriteRowAccounts(exact, s, StartedRow(call, CallStarted), s.process.memory.consumed, s.process.memory.reserved,
                     ToInvoke(call));
  }

  /** Finishing a call releases its reservation without clipping. */
  lemma FinishAccounts(exact: bool, s: Sys, row: Row, call: Call)
    requires PcOk(s) && BudgetOk(exact, s) && s.process.Up? && !s.process.pc.Idle? && s.process.pc.call == call
    requires row.key == call.key && !InFlight(row) && Owns(s, call, CallStarted)
    ensures var m := s.process.memory;
      BudgetOk(exact,
               WriteRow(s, row, m.consumed.Add(row.consumption), m.reserved.SubtractFloor(call.reservation), Idle))
    ensures forall d :: s.process.memory.reserved.SubtractFloor(call.reservation).At(d)
                        == s.process.memory.reserved.At(d) - call.reservation.At(d)
  {
    forall d ensures call.reservation.At(d) <= s.process.memory.reserved.At(d) {
      assert CallWithin(exact, s, call);
      HeldWithinTotal(s.store.rows, call.key, d);
    }
    var m := s.process.memory;
    WriteRowAccounts(exact, s, row, m.consumed.Add(row.consumption), m.reserved.SubtractFloor(call.reservation), Idle);
  }

  lemma TransitionAccounts(exact: bool, s: Sys, call: Call)
    requires PcOk(s) && BudgetOk(exact, s) && s.process.Up? && s.process.pc.Idle?
    ensures BudgetOk(exact, StepTransition(s, call))
  {
    var m := s.process.memory;
    if StepTransition(s, call) != s {
      WriteRowAccounts(exact, s, TransitionRow(call), m.consumed.Add(call.reservation), m.reserved, Idle);
    }
  }

  lemma FailedAccounts(exact: bool, s: Sys, call: Call)
    requires PcOk(s) && BudgetOk(exact, s) && s.process.Up? && s.process.pc == ToFail(call)
    ensures BudgetOk(exact, StepFailed(s, call))
  {
    FinishAccounts(exact, s, FailedRow(call), call);
  }

  lemma FinishedAccounts(exact: bool, s: Sys, call: Call, artifact: Artifact, value: Json, items: seq<EvidenceItem>,
      recovered: bool, actual: Vector)
    requires PcOk(s) && BudgetOk(exact, s) && s.process.Up?
             && s.process.pc == ToFinish(call, artifact, value, items, recovered)
    ensures BudgetOk(exact, StepFinished(s, call, artifact, items, recovered, actual))
  {
    var charge := if recovered then RecoveredCharge(s.process.memory.entries[call.key], call) else actual;
    FinishAccounts(exact, s, SucceededRow(call, artifact, items, charge), call);
  }

  lemma IdleAccounts(exact: bool, s: Sys, l: Label)
    requires PcOk(s) && BudgetOk(exact, s) && Carries(exact, s, l)
    requires s.process.Up? && s.process.pc.Idle? && !l.Crash?
    ensures BudgetOk(exact, Step(s, l))
  {
    if l.Present? {
      PresentAccounts(exact, s, l.call);
    } else if l.Transition? {
      TransitionAccounts(exact, s, l.call);
    }
  }

  /** The steps inside a call that write a row. */
  predicate Writes(pc: Pc, l: Label) {
    (pc.ToStart? && l.WriteStarted?) || (pc.ToFail? && l.WriteFailed?) || (pc.ToFinish? && l.WriteFinished?)
  }

  /** The others touch neither rows nor budgets. */
  lemma OtherSteps(s: Sys, l: Label)
    requires s.process.Up? && !s.process.pc.Idle? && !Writes(s.process.pc, l) && !l.Crash?
    ensures var t := Step(s, l);
      && t.limits == s.limits && t.store.rows == s.store.rows && t.process.Up?
      && t.process.memory.consumed == s.process.memory.consumed
      && t.process.memory.reserved == s.process.memory.reserved
      && (t.process.pc.Idle? || t.process.pc.call == s.process.pc.call)
  {
  }

  lemma OtherAccounts(exact: bool, s: Sys, l: Label)
    requires BudgetOk(exact, s) && s.process.Up? && !s.process.pc.Idle? && !Writes(s.process.pc, l) && !l.Crash?
    ensures BudgetOk(exact, Step(s, l))
  {
    OtherSteps(s, l);
  }

  lemma WritingAccounts(exact: bool, s: Sys, l: Label)
    requires PcOk(s) && BudgetOk(exact, s) && s.process.Up? && !s.process.pc.Idle? && Writes(s.process.pc, l)
    ensures BudgetOk(exact, Step(s, l))
  {
    var pc := s.process.pc;
    if l.WriteStarted? {
      StartedAccounts(exact, s, pc.call);
    } else if l.WriteFailed? {
      FailedAccounts(exact, s, pc.call);
    } else {
      FinishedAccounts(exact, s, pc.call, pc.artifact, pc.value, pc.evidence, pc.recovered, l.actual);
    }
  }

  lemma StepAccounts(exact: bool, s: Sys, l: Label)
    requires Inv(s) && BudgetOk(exact, s) && Carries(exact, s, l)
    ensures BudgetOk(exact, Step(s, l))
  {
    if s.process.Down? || l.Crash? {
    } else if s.process.pc.Idle? {
      IdleAccounts(exact, s, l);
    } else if Writes(s.process.pc, l) {
      WritingAccounts(exact, s, l);
    } else {
      OtherAccounts(exact, s, l);
    }
  }

  lemma {:induction false} RunAccounts(exact: bool, runId: string, limits: Vector, labels: seq<Label>)
    requires CarriesAll(exact, Init(runId, limits), labels)
    ensures Inv(After(Init(runId, limits), labels)) && BudgetOk(exact, After(Init(runId, limits), labels))
  {
    RunKeeps(Init(runId, limits), labels);
    if labels != [] {
      var n := |labels| - 1;
      forall i | 0 <= i < n
        ensures Carries(exact, After(Init(runId, limits), labels[..n][..i]), labels[..n][i])
      {
        assert labels[..n][..i] == labels[..i];
      }
      RunAccounts(exact, runId, limits, labels[..n]);
      StepAccounts(exact, After(Init(runId, limits), labels[..n]), labels[n]);
    }
  }

  // ---------------------------------------------------------------- limits

  /** By how much a finished call used more than it reserved. */
  function Excess(row: Row, d: Dim): nat {
    if InFlight(row) || row.identity.kind.LocalTransition? then 0
    else Max(0, row.consumption.At(d) - row.reservation.At(d))
  }

  function ExcessAt(d: Dim): Row -> int {
    (row: Row) => Excess(row, d)
  }

  ghost function TotalExcess(rows: map<string, Row>, d: Dim): (total: int)
    ensures 0 <= total
  {
    assert 0 <= SumOver(rows, ExcessAt(d)) by {
      SumNonNegative(rows, ExcessAt(d));
    }
    SumOver(rows, ExcessAt(d))
  }

  /** By how much a step can push the total past what was admitted: a row written with a larger reservation than it had,
      or a transition charged in a dimension in which something is reserved. */
  ghost function Strain(s: Sys, l: Label, d: Dim): nat {
    if s.process.Down? then 0
    else if s.process.pc.Idle? then
      if l.Transition? then Max(0, Min(l.call.reservation.At(d), TotalReserved(s.store.rows).At(d))) else 0
    else if Writes(s.process.pc, l) then
      Max(0, s.process.pc.call.reservation.At(d) - HeldBefore(s.store.rows, s.process.pc.call.key, d))
    else 0
  }

  ghost function TotalStrain(s: Sys, labels: seq<Label>, d: Dim): nat {
    if labels == [] then 0
    else TotalStrain(s, labels[..|labels| - 1], d) + Strain(After(s, labels[..|labels| - 1]), labels[|labels| - 1], d)
  }

  /** In one dimension: memory knows what is consumed, knows what is reserved up to the strain, and the total exceeds
      the limit by at most the overruns and the strain. */
  ghost predicate Strained(s: Sys, d: Dim, strain: int) {
    && (s.process.Up? ==>
          && s.process.memory.consumed.At(d) == TotalConsumed(s.store.rows).At(d)
          && s.process.memory.reserved.At(d) >= TotalReserved(s.store.rows).At(d) - strain)
    && TotalConsumed(s.store.rows).At(d) + TotalReserved(s.store.rows).At(d) <= s.limits.At(d)
         + TotalExcess(s.store.rows, d) + strain
  }

  /** The totals and overruns after a row in flight, or none, is replaced. */
  lemma RowMoves(rows: map<string, Row>, row: Row, d: Dim)
    requires row.key in rows ==> InFlight(rows[row.key])
    ensures TotalReserved(rows[row.key := row]).At(d) == TotalReserved(rows).At(d) - HeldBefore(rows, row.key, d)
        + Hold(row, d)
    ensures TotalConsumed(rows[row.key := row]).At(d) == TotalConsumed(rows).At(d) + Spend(row, d)
    ensures TotalExcess(rows[row.key := row], d) == TotalExcess(rows, d) + Excess(row, d)
  {
    TotalsUpdate(rows, row.key, row, d);
    SumUpdate(rows, row.key, row, ExcessAt(d));
  }

  /** A known key, or a refused one, moves neither rows nor budgets. */
  lemma KnownKey(s: Sys, call: Call)
    requires s.process.Up? && s.process.pc.Idle?
    requires call.key in s.process.memory.entries || StepPresent(s, call) == s
    ensures var t := StepPresent(s, call);
      && t.limits == s.limits && t.store.rows == s.store.rows && t.process.Up?
      && t.process.memory == s.process.memory && (t.process.pc.Idle? || t.process.pc.call == call)
  {
  }

  /** A new key is admitted only within the limits. */
  lemma NewKey(s: Sys, call: Call)
    requires s.process.Up? && s.process.pc.Idle? && call.key !in s.process.memory.entries && StepPresent(s, call) != s
    ensures var m := s.process.memory;
      && StepPresent(s, call)
           == WriteRow(s, StartedRow(call, Reserved), m.consumed, m.reserved.Add(call.reservation), ToStart(call))
      && forall d ::
           0 <= call.reservation.At(d) && m.consumed.At(d) + m.reserved.At(d) + call.reservation.At(d) <= s.limits.At(d)
  {
    FitsAll(s.limits, s.process.memory.consumed.Add(s.process.memory.reserved), call.reservation);
  }

  lemma AdmissionStrains(s: Sys, row: Row, reserved: Vector, pc: Pc, d: Dim, strain: nat)
    requires Strained(s, d, strain) && s.process.Up? && row.key !in s.store.rows && row.status.Reserved?
    requires reserved.At(d) == s.process.memory.reserved.At(d) + row.reservation.At(d)
    requires s.process.memory.consumed.At(d) + reserved.At(d) <= s.limits.At(d)
    ensures Strained(WriteRow(s, row, s.process.memory.consumed, reserved, pc), d, strain)
  {
    RowMoves(s.store.rows, row, d);
  }

  lemma PresentStrains(s: Sys, call: Call, d: Dim, strain: nat)
    requires PcOk(s) && Strained(s, d, strain) && s.process.Up? && s.process.pc.Idle?
    ensures Strained(StepPresent(s, call), d, strain)
  {
    if call.key in s.process.memory.entries || StepPresent(s, call) == s {
      KnownKey(s, call);
    } else {
      NewKey(s, call);
      AdmissionStrains(s, StartedRow(call, Reserved), s.process.memory.reserved.Add(call.reservation), ToStart(call), d,
                       strain);
    }
  }

  lemma TransitionStrains(s: Sys, call: Call, d: Dim, strain: nat)
    requires PcOk(s) && Strained(s, d, strain) && s.process.Up? && s.process.pc.Idle?
    ensures Strained(StepTransition(s, call), d, strain + Strain(s, Transition(call), d))
  {
    var m := s.process.memory;
    if StepTransition(s, call) != s {
      FitsAll(s.limits, m.consumed, call.reservation);
      RowMoves(s.store.rows, TransitionRow(call), d);
    }
  }

  /** The call in hand writes its row: started, or finished with some charge. */
  lemma OwnRowStrains(s: Sys, row: Row, consumed: Vector, reserved: Vector, pc: Pc, d: Dim, strain: nat)
    requires Strained(s, d, strain) && s.process.Up? && !s.process.pc.Idle?
    requires var call := s.process.pc.call; row.key == call.key && row.reservation == call.reservation
    requires row.key in s.store.rows && InFlight(s.store.rows[row.key]) && !row.identity.kind.LocalTransition?
    requires consumed.At(d) == s.process.memory.consumed.At(d) + Spend(row, d)
    requires reserved.At(d) >= s.process.memory.reserved.At(d) - (if InFlight(row) then 0 else row.reservation.At(d))
    ensures Strained(WriteRow(s, row, consumed, reserved, pc), d,
                     strain + Max(0, row.reservation.At(d) - HeldBefore(s.store.rows, row.key, d)))
  {
    RowMoves(s.store.rows, row, d);
  }

  /** Reservations and uses are counts. */
  predicate Counts(l: Label, d: Dim) {
    (l.Present? ==> l.call.reservation.At(d) >= 0) && (l.WriteFinished? ==> l.actual.At(d) >= 0)
  }

  /** What the call in hand writes. */
  lemma OwnRow(s: Sys, l: Label) returns (row: Row, consumed: Vector, reserved: Vector, next: Pc)
    requires PcOk(s) && s.process.Up? && !s.process.pc.Idle? && Writes(s.process.pc, l)
    ensures var m, call := s.process.memory, s.process.pc.call;
      && Step(s, l) == WriteRow(s, row, consumed, reserved, next) && (next.Idle? || next.call == call)
      && row.key == call.key && row.reservation == call.reservation && !row.identity.kind.LocalTransition?
      && row.key in s.store.rows && InFlight(s.store.rows[row.key])
      && consumed == (if InFlight(row) then m.consumed else m.consumed.Add(row.consumption))
      && reserved == (if InFlight(row) then m.reserved else m.reserved.SubtractFloor(call.reservation))
      && (InFlight(row) ==> row.consumption == ZERO)
      && (row.consumption == ZERO || row.consumption == call.reservation
          || row.consumption == s.store.rows[row.key].consumption
          || (l.WriteFinished? && row.consumption == l.actual))
  {
    var m, pc := s.process.memory, s.process.pc;
    var call := pc.call;
    if l.WriteStarted? {
      assert Step(s, l) == StepStarted(s, call);
      row, consumed, reserved, next := StartedRow(call, CallStarted), m.consumed, m.reserved, ToInvoke(call);
    } else if l.WriteFailed? {
      assert Step(s, l) == StepFailed(s, call);
      row, consumed, reserved, next := FailedRow(call), m.consumed.Add(call.reservation),
          m.reserved.SubtractFloor(call.reservation), Idle;
    } else {
      assert Step(s, l) == StepFinished(s, call, pc.artifact, pc.evidence, pc.recovered, l.actual);
      var charge := if pc.recovered
          && call.key in m.entries then RecoveredCharge(m.entries[call.key], call) else l.actual;
      row, consumed := SucceededRow(call, pc.artifact, pc.evidence, charge), m.consumed.Add(charge);
      reserved, next := m.reserved.SubtractFloor(call.reservation), Idle;
    }
  }

  /** The same, in one dimension. */
  lemma OwnAmounts(m: Memory, row: Row, consumed: Vector, reserved: Vector, d: Dim)
    requires consumed == (if InFlight(row) then m.consumed else m.consumed.Add(row.consumption))
    requires reserved == (if InFlight(row) then m.reserved else m.reserved.SubtractFloor(row.reservation))
    ensures consumed.At(d) == m.consumed.At(d) + Spend(row, d)
    ensures reserved.At(d) >= m.reserved.At(d) - (if InFlight(row) then 0 else row.reservation.At(d))
    ensures m.reserved.At(d) >= 0 ==> reserved.At(d) >= 0
    ensures ZERO.At(d) == 0
  {
  }

  lemma WritingStrains(s: Sys, l: Label, d: Dim, strain: nat)
    requires PcOk(s) && Strained(s, d, strain) && s.process.Up? && !s.process.pc.Idle? && Writes(s.process.pc, l)
    ensures Strained(Step(s, l), d, strain + Strain(s, l, d))
  {
    var row, consumed, reserved, next := OwnRow(s, l);
    OwnAmounts(s.process.memory, row, consumed, reserved, d);
    OwnRowStrains(s, row, consumed, reserved, next, d, strain);
  }

  lemma StepStrains(s: Sys, l: Label, d: Dim, strain: nat)
    requires PcOk(s) && Strained(s, d, strain)
    ensures Strained(Step(s, l), d, strain + Strain(s, l, d))
  {
    if s.process.Down? || l.Crash? {
    } else if s.process.pc.Idle? {
      if l.Present? {
        PresentStrains(s, l.call, d, strain);
      } else if l.Transition? {
        TransitionStrains(s, l.call, d, strain);
      }
    } else if Writes(s.process.pc, l) {
      WritingStrains(s, l, d, strain);
    } else {
      OtherSteps(s, l);
    }
  }

  lemma {:induction false} RunStrains(runId: string, limits: Vector, labels: seq<Label>, d: Dim)
    requires 0 <= limits.At(d)
    ensures Strained(After(Init(runId, limits), labels), d, TotalStrain(Init(runId, limits), labels, d))
  {
    var s := Init(runId, limits);
    if labels != [] {
      var before := labels[..|labels| - 1];
      RunStrains(runId, limits, before, d);
      RunKeeps(s, before);
      StepStrains(After(s, before), labels[|labels| - 1], d, TotalStrain(s, before, d));
    }
  }

  // ---------------------------------------------------------------- rebuild equals live

  ghost predicate KnowsConsumed(s: Sys, d: Dim) {
    s.process.Up? ==> s.process.memory.consumed.At(d) == TotalConsumed(s.store.rows).At(d)
  }

  lemma PresentKnowsConsumed(s: Sys, call: Call, d: Dim)
    requires PcOk(s) && KnowsConsumed(s, d) && s.process.Up? && s.process.pc.Idle?
    ensures KnowsConsumed(StepPresent(s, call), d)
  {
    if call.key in s.process.memory.entries || StepPresent(s, call) == s {
      KnownKey(s, call);
    } else {
      NewKey(s, call);
      RowMoves(s.store.rows, StartedRow(call, Reserved), d);
    }
  }

  lemma StepKnowsConsumed(s: Sys, l: Label, d: Dim)
    requires PcOk(s) && KnowsConsumed(s, d)
    ensures KnowsConsumed(Step(s, l), d)
  {
    if s.process.Down? || l.Crash? {
    } else if s.process.pc.Idle? {
      if l.Present? {
        PresentKnowsConsumed(s, l.call, d);
      } else if l.Transition? && StepTransition(s, l.call) != s {
        RowMoves(s.store.rows, TransitionRow(l.call), d);
      }
    } else if Writes(s.process.pc, l) {
      var row, consumed, reserved, _ := OwnRow(s, l);
      OwnAmounts(s.process.memory, row, consumed, reserved, d);
      RowMoves(s.store.rows, row, d);
    } else {
      OtherSteps(s, l);
    }
  }

  lemma {:induction false} RunKnowsConsumed(runId: string, limits: Vector, labels: seq<Label>, d: Dim)
    ensures KnowsConsumed(After(Init(runId, limits), labels), d)
  {
    if labels != [] {
      var before := labels[..|labels| - 1];
      RunKnowsConsumed(runId, limits, before, d);
      RunKeeps(Init(runId, limits), before);
      StepKnowsConsumed(After(Init(runId, limits), before), labels[|labels| - 1], d);
    }
  }

  /** Along every run a live process holds the rows, artifacts and consumed budget that a process started now would
      rebuild from the durable state, and also the reserved budget if calls presented again carry their stored
      reservations. */
  lemma RebuildEqualsLive(runId: string, limits: Vector, labels: seq<Label>)
    ensures var s := After(Init(runId, limits), labels);
      s.process.Up? ==>
        && s.process.memory.(reserved := TotalReserved(s.store.rows)) == Rebuild(s.store)
        && (CarriesAll(true, Init(runId, limits), labels) ==> s.process.memory == Rebuild(s.store))
  {
    var s := After(Init(runId, limits), labels);
    RunKeeps(Init(runId, limits), labels);
    if s.process.Up? {
      forall d ensures s.process.memory.consumed.At(d) == TotalConsumed(s.store.rows).At(d) {
        RunKnowsConsumed(runId, limits, labels, d);
      }
      Extensional(s.process.memory.consumed, TotalConsumed(s.store.rows));
      if CarriesAll(true, Init(runId, limits), labels) {
        RunAccounts(true, runId, limits, labels);
      }
    }
  }

  // ---------------------------------------------------------------- the bound

  /** Limit safety, over every run: consumed plus reserved exceeds a limit by no more than the overruns of finished
      calls, the enlargements of calls presented again with a larger reservation, and the charges of transitions in a
      dimension in which something is reserved. */
  lemma LimitSafety(runId: string, limits: Vector, labels: seq<Label>, d: Dim)
    requires 0 <= limits.At(d)
    ensures var rows := After(Init(runId, limits), labels).store.rows;
      TotalConsumed(rows).At(d) + TotalReserved(rows).At(d)
      <= limits.At(d) + TotalExcess(rows, d) + TotalStrain(Init(runId, limits), labels, d)
  {
    RunStrains(runId, limits, labels, d);
    RunLimitsUnchanged(Init(runId, limits), labels);
  }

  // ---------------------------------------------------------------- runs without strain

  /** Calls reserve only in the given dimensions and transitions charge only in the others. */
  ghost predicate Disjoint(callDims: set<Dim>, l: Label) {
    && (l.Present? ==> forall d :: d !in callDims ==> l.call.reservation.At(d) == 0)
    && (l.Transition? ==> forall d :: d in callDims ==> l.call.reservation.At(d) == 0)
  }

  ghost predicate DisjointAll(callDims: set<Dim>, labels: seq<Label>) {
    forall i | 0 <= i < |labels| :: Disjoint(callDims, labels[i])
  }

  /** Nothing is reserved in the dimension. */
  ghost predicate Unreserved(s: Sys, d: Dim) {
    && (forall k | k in s.store.rows && InFlight(s.store.rows[k]) :: s.store.rows[k].reservation.At(d) == 0)
    && (s.process.Up? && !s.process.pc.Idle? ==> s.process.pc.call.reservation.At(d) == 0)
  }

  lemma StepUnreserved(s: Sys, l: Label, d: Dim)
    requires PcOk(s) && Unreserved(s, d) && (l.Present? ==> l.call.reservation.At(d) == 0)
    ensures Unreserved(Step(s, l), d)
  {
    if s.process.Down? || l.Crash? {
    } else if s.process.pc.Idle? {
    } else if Writes(s.process.pc, l) {
    } else {
      OtherSteps(s, l);
    }
  }

  lemma NothingReserved(s: Sys, d: Dim)
    requires Unreserved(s, d)
    ensures TotalReserved(s.store.rows).At(d) == 0
  {
    assert forall k | k in s.store.rows :: Hold(s.store.rows[k], d) == 0;
    SumZero(s.store.rows, ReservedAt(d));
  }

  lemma CallFits(s: Sys, call: Call, d: Dim)
    requires call.key in s.store.rows && InFlight(s.store.rows[call.key]) && CallWithin(false, s, call)
    ensures call.reservation.At(d) <= HeldBefore(s.store.rows, call.key, d)
  {
  }

  lemma TransitionNoStrain(callDims: set<Dim>, s: Sys, call: Call, d: Dim)
    requires Disjoint(callDims, Transition(call)) && (d !in callDims ==> Unreserved(s, d))
    ensures Max(0, Min(call.reservation.At(d), TotalReserved(s.store.rows).At(d))) == 0
  {
    if d !in callDims {
      NothingReserved(s, d);
    }
  }

  lemma NoStrain(callDims: set<Dim>, s: Sys, l: Label, d: Dim)
    requires PcOk(s) && BudgetOk(false, s) && Disjoint(callDims, l) && (d !in callDims ==> Unreserved(s, d))
    ensures Strain(s, l, d) == 0
  {
    if s.process.Up? {
      if s.process.pc.Idle? {
        if l.Transition? {
          TransitionNoStrain(callDims, s, l.call, d);
        }
      } else if Writes(s.process.pc, l) {
        var row, _, _, _ := OwnRow(s, l);
        CallFits(s, s.process.pc.call, d);
      }
    }
  }

  lemma {:induction false} CarefulRuns(callDims: set<Dim>, runId: string, limits: Vector, labels: seq<Label>, d: Dim)
    requires CarriesAll(false, Init(runId, limits), labels) && DisjointAll(callDims, labels)
    ensures d !in callDims ==> Unreserved(After(Init(runId, limits), labels), d)
    ensures TotalStrain(Init(runId, limits), labels, d) == 0
  {
    var s := Init(runId, limits);
    if labels != [] {
      var n := |labels| - 1;
      forall i | 0 <= i < n ensures Carries(false, After(s, labels[..n][..i]), labels[..n][i]) {
        assert labels[..n][..i] == labels[..i];
      }
      CarefulRuns(callDims, runId, limits, labels[..n], d);
      RunAccounts(false, runId, limits, labels[..n]);
      NoStrain(callDims, After(s, labels[..n]), labels[n], d);
      if d !in callDims {
        StepUnreserved(After(s, labels[..n]), labels[n], d);
      }
    }
  }

  /** When calls and transitions use disjoint dimensions and calls presented again ask for no more than they
      reserved, a limit is exceeded by the overruns alone, and not at all while every finished call used at most what
      it reserved. */
  lemma CarefulLimitSafety(callDims: set<Dim>, runId: string, limits: Vector, labels: seq<Label>, d: Dim)
    requires 0 <= limits.At(d) && CarriesAll(false, Init(runId, limits), labels) && DisjointAll(callDims, labels)
    ensures var rows := After(Init(runId, limits), labels).store.rows;
      && TotalConsumed(rows).At(d) + TotalReserved(rows).At(d) <= limits.At(d) + TotalExcess(rows, d)
      && ((forall k | k in rows :: Excess(rows[k], d) == 0) ==>
            TotalConsumed(rows).At(d) + TotalReserved(rows).At(d) <= limits.At(d))
  {
    LimitSafety(runId, limits, labels, d);
    CarefulRuns(callDims, runId, limits, labels, d);
    var rows := After(Init(runId, limits), labels).store.rows;
    if forall k | k in rows :: Excess(rows[k], d) == 0 {
      SumZero(rows, ExcessAt(d));
    }
  }

  lemma {:induction false} RunLimitsUnchanged(s: Sys, labels: seq<Label>)
    ensures After(s, labels).limits == s.limits && After(s, labels).runId == s.runId
  {
    if labels != [] {
      RunLimitsUnchanged(s, labels[..|labels| - 1]);
    }
  }

  // ---------------------------------------------------------------- over the limit

  /** So everything held, spent and remembered is. */
  ghost predicate Counted(s: Sys, d: Dim) {
    && (forall k | k in s.store.rows ::
        s.store.rows[k].reservation.At(d) >= 0 && s.store.rows[k].consumption.At(d) >= 0)
    && (s.process.Up? ==>
        s.process.memory.reserved.At(d) >= 0 && s.process.memory.consumed.At(d) == TotalConsumed(s.store.rows).At(d))
    && (s.process.Up? && !s.process.pc.Idle? ==> s.process.pc.call.reservation.At(d) >= 0)
  }

  /** The dimension is spent: nothing new can be admitted. */
  ghost predicate Over(s: Sys, d: Dim) {
    TotalConsumed(s.store.rows).At(d) > s.limits.At(d)
  }

  lemma RowCounts(s: Sys, row: Row, consumed: Vector, reserved: Vector, pc: Pc, d: Dim)
    requires Counted(s, d) && s.process.Up? && row.reservation.At(d) >= 0 && row.consumption.At(d) >= 0
    requires row.key in s.store.rows ==> InFlight(s.store.rows[row.key])
    requires consumed.At(d) == s.process.memory.consumed.At(d) + Spend(row, d) && reserved.At(d) >= 0
    requires pc.Idle? || pc.call.reservation.At(d) >= 0
    ensures var t := WriteRow(s, row, consumed, reserved, pc);
      && Counted(t, d) && TotalConsumed(t.store.rows).At(d) >= TotalConsumed(s.store.rows).At(d)
      && (row.key in s.store.rows ==> t.store.rows.Keys == s.store.rows.Keys)
  {
    RowMoves(s.store.rows, row, d);
  }

  lemma PresentCounts(s: Sys, call: Call, d: Dim)
    requires PcOk(s) && Counted(s, d) && call.reservation.At(d) >= 0 && s.process.Up? && s.process.pc.Idle?
    ensures var t := StepPresent(s, call);
      && Counted(t, d) && TotalConsumed(t.store.rows).At(d) >= TotalConsumed(s.store.rows).At(d)
      && (Over(s, d) ==> t.store.rows == s.store.rows)
  {
    var m := s.process.memory;
    if call.key in m.entries || StepPresent(s, call) == s {
      KnownKey(s, call);
    } else {
      NewKey(s, call);
      RowCounts(s, StartedRow(call, Reserved), m.consumed, m.reserved.Add(call.reservation), ToStart(call), d);
    }
  }

  lemma TransitionCounts(s: Sys, call: Call, d: Dim)
    requires PcOk(s) && Counted(s, d) && s.process.Up? && s.process.pc.Idle?
    ensures var t := StepTransition(s, call);
      && Counted(t, d) && TotalConsumed(t.store.rows).At(d) >= TotalConsumed(s.store.rows).At(d)
      && (Over(s, d) ==> t.store.rows == s.store.rows)
  {
    var m := s.process.memory;
    if StepTransition(s, call) != s {
      FitsAll(s.limits, m.consumed, call.reservation);
      RowCounts(s, TransitionRow(call), m.consumed.Add(call.reservation), m.reserved, Idle, d);
    }
  }

  lemma WritingCounts(s: Sys, l: Label, d: Dim)
    requires PcOk(s) && Counted(s, d) && Counts(l, d) && s.process.Up? && !s.process.pc.Idle? && Writes(s.process.pc, l)
    ensures var t := Step(s, l);
      && Counted(t, d) && TotalConsumed(t.store.rows).At(d) >= TotalConsumed(s.store.rows).At(d)
      && t.store.rows.Keys == s.store.rows.Keys
  {
    var row, consumed, reserved, next := OwnRow(s, l);
    OwnAmounts(s.process.memory, row, consumed, reserved, d);
    RowCounts(s, row, consumed, reserved, next, d);
  }

  lemma StepCounts(s: Sys, l: Label, d: Dim)
    requires PcOk(s) && Counted(s, d) && Counts(l, d)
    ensures var t := Step(s, l);
      && Counted(t, d) && t.limits == s.limits && TotalConsumed(t.store.rows).At(d) >= TotalConsumed(s.store.rows).At(d)
      && (Over(s, d) ==> t.store.rows.Keys == s.store.rows.Keys)
  {
    if s.process.Down? || l.Crash? {
      SumNonNegative(s.store.rows, ReservedAt(d));
    } else if s.process.pc.Idle? {
      if l.Present? {
        PresentCounts(s, l.call, d);
      } else if l.Transition? {
        TransitionCounts(s, l.call, d);
      }
    } else if Writes(s.process.pc, l) {
      WritingCounts(s, l, d);
    } else {
      OtherSteps(s, l);
    }
  }

  lemma {:induction false} RunCounts(s: Sys, labels: seq<Label>, d: Dim)
    requires Inv(s) && Counted(s, d) && forall i | 0 <= i < |labels| :: Counts(labels[i], d)
    ensures Counted(After(s, labels), d) && Inv(After(s, labels)) && After(s, labels).limits == s.limits
    ensures Over(s, d) ==> Over(After(s, labels), d) && After(s, labels).store.rows.Keys == s.store.rows.Keys
  {
    RunKeeps(s, labels);
    if labels != [] {
      var before := labels[..|labels| - 1];
      RunCounts(s, before, d);
      StepCounts(After(s, before), labels[|labels| - 1], d);
    }
  }

  /** Once a consumed total is over its limit, no new key is ever admitted, neither as a call nor as a transition, by
      this process or any later one. */
  lemma NoAdmissionOverLimit(runId: string, limits: Vector, before: seq<Label>, after: seq<Label>, d: Dim)
    requires forall i | 0 <= i < |before| :: Counts(before[i], d)
    requires forall i | 0 <= i < |after| :: Counts(after[i], d)
    requires Over(After(Init(runId, limits), before), d)
    ensures var s := After(Init(runId, limits), before);
      After(s, after).store.rows.Keys == s.store.rows.Keys && Over(After(s, after), d)
  {
    RunCounts(Init(runId, limits), before, d);
    RunCounts(After(Init(runId, limits), before), after, d);
  }

  // ---------------------------------------------------------------- reservations across a restart

  /** The output-token part of a model call's reservation: what the call may produce, cut to what remains. */
  function OutputReservation(maxOutputTokens: int, limits: Vector, memory: Memory): int {
    Min(Max(maxOutputTokens, 0), Max(Remaining(limits, memory.consumed, memory.reserved).outputTokens, 0))
  }

  /** A model call reserved, then presented again after a crash, asks for the same output tokens if and only if
      twice its maximum was left at first, or nothing was. */
  lemma ReservationSurvivesRestartIff(s: Sys, call: Call, maxOutputTokens: nat)
    requires Inv(s) && BudgetOk(true, s) && s.process.Up? && s.process.pc.Idle?
    requires call.key !in s.store.rows && Step(s, Present(call)) != s
    requires call.reservation.outputTokens == OutputReservation(maxOutputTokens, s.limits, s.process.memory)
    ensures var left := Remaining(s.limits, s.process.memory.consumed, s.process.memory.reserved).outputTokens;
      var t := Step(Step(Step(s, Present(call)), Crash), Boot);
      && t.process.Up? && call.key in t.store.rows && t.store.rows[call.key].status.Reserved?
      && (OutputReservation(maxOutputTokens, t.limits, t.process.memory)
          == t.store.rows[call.key].reservation.outputTokens
          <==> left >= 2 * maxOutputTokens || left == 0)
  {
    var t1 := Step(s, Present(call));
    PresentAccounts(true, s, call);
    var t := Step(Step(t1, Crash), Boot);
    assert t.process.memory.reserved == t1.process.memory.reserved;
    assert t.process.memory.consumed == t1.process.memory.consumed;
    var left := Remaining(s.limits, s.process.memory.consumed, s.process.memory.reserved);
    var left' := Remaining(t.limits, t.process.memory.consumed, t.process.memory.reserved);
    assert left.At(OutputTokens) == left.outputTokens && left'.At(OutputTokens) == left'.outputTokens;
    assert call.reservation.At(OutputTokens) == call.reservation.outputTokens;
  }

  /** A whole call from its reservation to its end: a failure, or a success that used the given amount. */
  function WholeCall(call: Call, invoked: Option<Json>, actual: Vector): seq<Label> {
    [Present(call), WriteStarted, Invoke(invoked)]
    + (if invoked.None? then [WriteFailed] else [WriteArtifact, WriteEvidence, WriteFinished(actual)])
  }

  /** The call stands reserved, and can be carried to its end. */
  ghost predicate Claimed(s: Sys, call: Call, invoked: Option<Json>) {
    && s.process.Up? && s.process.pc.Idle?
    && ValidCall(call) && ValidArtifactType(call.artifactType) && !call.identity.kind.LocalTransition?
    && call.key in s.store.rows && s.store.rows[call.key].status.Reserved?
    && s.store.rows[call.key].identity == call.identity
    && (invoked.Some? ==> Derived(call, invoked.value).Some?)
  }

  /** Presenting a reserved call with another reservation and carrying it to either end leaves memory equal to a
      rebuild if and only if, in every dimension, the reservation is the stored one, or larger while nothing else is
      reserved. */
  lemma RepresentedExactIff(s: Sys, call: Call, invoked: Option<Json>, actual: Vector)
    requires Inv(s) && BudgetOk(true, s) && Claimed(s, call, invoked)
    ensures var t := After(s, WholeCall(call, invoked, actual));
      var stored := s.store.rows[call.key].reservation;
      && t.process.Up? && t.process.pc.Idle? && call.key in t.store.rows && !InFlight(t.store.rows[call.key])
      && (t.process.memory == Rebuild(t.store) <==>
            forall d :: call.reservation.At(d) == stored.At(d)
                        || (call.reservation.At(d) > stored.At(d) && TotalReserved(s.store.rows).At(d) == stored.At(d)))
  {
    var row := RunToEnd(s, call, invoked, actual);
    EndedExactIff(s, After(s, WholeCall(call, invoked, actual)), call, row);
  }

  /** The state after the end: one row finished, its charge consumed and its reservation released. */
  ghost predicate EndedWith(s: Sys, t: Sys, call: Call, row: Row)
    requires s.process.Up?
  {
    && row.key == call.key && !InFlight(row) && t.store.rows == s.store.rows[call.key := row]
    && t.process == Up(Memory(t.store.rows, t.store.artifacts, s.process.memory.consumed.Add(row.consumption),
                              s.process.memory.reserved.SubtractFloor(call.reservation)), Idle)
  }

  lemma EndedExactIff(s: Sys, t: Sys, call: Call, row: Row)
    requires BudgetOk(true, s) && s.process.Up? && EndedWith(s, t, call, row)
    requires call.key in s.store.rows && InFlight(s.store.rows[call.key])
    ensures var stored := s.store.rows[call.key].reservation;
      t.process.memory == Rebuild(t.store) <==>
        forall d :: call.reservation.At(d) == stored.At(d)
                    || (call.reservation.At(d) > stored.At(d) && TotalReserved(s.store.rows).At(d) == stored.At(d))
  {
    var stored := s.store.rows[call.key].reservation;
    forall d
      ensures TotalReserved(t.store.rows).At(d) == TotalReserved(s.store.rows).At(d) - stored.At(d)
      ensures TotalConsumed(t.store.rows).At(d) == t.process.memory.consumed.At(d)
      ensures stored.At(d) <= TotalReserved(s.store.rows).At(d)
    {
      TotalsUpdate(s.store.rows, call.key, row, d);
      HeldWithinTotal(s.store.rows, call.key, d);
    }
    Extensional(t.process.memory.consumed, TotalConsumed(t.store.rows));
    if forall d :: t.process.memory.reserved.At(d) == TotalReserved(t.store.rows).At(d) {
      Extensional(t.process.memory.reserved, TotalReserved(t.store.rows));
    }
  }

  /** One more step, given by the state it leads to. */
  lemma Then(s: Sys, labels: seq<Label>, l: Label, before: Sys, after: Sys)
    requires After(s, labels) == before && Step(before, l) == after
    ensures After(s, labels + [l]) == after
  {
    assert (labels + [l])[..|labels|] == labels;
  }

  /** The claimed call is started and invoked. */
  lemma RunToInvoked(s: Sys, call: Call, invoked: Option<Json>) returns (t: Sys)
    requires PcOk(s) && Claimed(s, call, invoked)
    ensures t == After(s, [Present(call), WriteStarted, Invoke(invoked)])
    ensures t.runId == s.runId && t.store == s.store.(rows := s.store.rows[call.key := StartedRow(call, CallStarted)])
    ensures var pc := if invoked.None? then ToFail(call) else ToArtifact(call, invoked.value);
            t.process == Up(s.process.memory.(entries := t.store.rows), pc)
  {
    var m := s.process.memory;
    var s1 := s.(process := Up(m, ToStart(call)));
    Then(s, [], Present(call), s, s1);
    var s2 := StepStarted(s1, call);
    Then(s, [] + [Present(call)], WriteStarted, s1, s2);
    t := StepInvoke(s2, call, invoked);
    Then(s, [] + [Present(call)] + [WriteStarted], Invoke(invoked), s2, t);
    assert [] + [Present(call)] + [WriteStarted] + [Invoke(invoked)] == [Present(call), WriteStarted, Invoke(invoked)];
  }

  lemma RunToEnd(s: Sys, call: Call, invoked: Option<Json>, actual: Vector) returns (row: Row)
    requires PcOk(s) && Claimed(s, call, invoked)
    ensures EndedWith(s, After(s, WholeCall(call, invoked, actual)), call, row)
    ensures row.identity == call.identity && row.status == (if invoked.Some? then Succeeded else Failed)
    ensures invoked.Some? ==>
              var artifacts := After(s, WholeCall(call, invoked, actual)).store.artifacts;
              && OutcomeKey(s.runId, call.key) in artifacts
              && artifacts[OutcomeKey(s.runId, call.key)].content == Encode(call.schema, invoked.value)
  {
    var l3 := [Present(call), WriteStarted, Invoke(invoked)];
    var t3 := RunToInvoked(s, call, invoked);
    if invoked.None? {
      row := FailedRow(call);
      Then(s, l3, WriteFailed, t3, StepFailed(t3, call));
      assert WholeCall(call, invoked, actual) == l3 + [WriteFailed];
      assert t3.store.rows[call.key := row] == s.store.rows[call.key := row];
    } else {
      var t4 := StepArtifact(t3, call, invoked.value);
      var artifact := t4.process.pc.artifact;
      var items := Derived(call, invoked.value).value;
      Then(s, l3, WriteArtifact, t3, t4);
      var t5 := StepEvidence(t4, call, artifact, invoked.value, false);
      Then(s, l3 + [WriteArtifact], WriteEvidence, t4, t5);
      row := SucceededRow(call, artifact, items, actual);
      Then(s, l3 + [WriteArtifact] + [WriteEvidence], WriteFinished(actual), t5,
           StepFinished(t5, call, artifact, items, false, actual));
      assert WholeCall(call, invoked, actual) == l3 + [WriteArtifact] + [WriteEvidence] + [WriteFinished(actual)];
      assert t3.store.rows[call.key := row] == s.store.rows[call.key := row];
    }
  }
}
