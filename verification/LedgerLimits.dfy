/** When limits hold: the disciplines under which no run exceeds one, and the runs that exceed one without them. */
module LedgerLimits {
  import opened Budget
  import opened LedgerProtocol
  import opened LedgerSafety
  import opened LedgerBudget

  // ---------------------------------------------------------------- a call that reserves a whole limit

  /** An amount in one dimension. */
  function Only(d: Dim, n: int): Vector {
    Tabulate(e => if e == d then n else 0)
  }

  function SampleKey(c: char): string {
    [c] + ":b:c"
  }

  function SampleCall(reservation: Vector, schema: string): Call {
    Call(SampleKey('a'), Identity(Model, "draft", "sha256:0"), reservation, schema, "MODEL_VALIDATED_OUTPUT", false)
  }

  function SampleTransition(charge: Vector): Call {
    Call(SampleKey('t'), Identity(LocalTransition, "replan", "sha256:0"), charge, "", "", false)
  }

  lemma LetterFirst(c: char, rest: string, first: string, others: seq<string>)
    requires c != ':' && Segments(rest) == [first] + others
    ensures Segments([c] + rest) == [[c] + first] + others
  {
    assert ([c] + rest)[1..] == rest && ([first] + others)[1..] == others;
  }

  lemma ColonFirst(rest: string)
    ensures Segments([':'] + rest) == [""] + Segments(rest)
  {
    assert ([':'] + rest)[1..] == rest;
  }

  lemma KeyIsValid(c: char)
    requires 'a' <= c <= 'z'
    ensures ValidOperationKey(SampleKey(c))
  {
    assert Segments("") == [""] + [];
    LetterFirst('c', "", "", []);
    assert ['c'] + "" == "c";
    assert Segments("c") == ["c"];
    ColonFirst("c");
    assert [':'] + "c" == ":c";
    assert Segments(":c") == [""] + ["c"];
    LetterFirst('b', ":c", "", ["c"]);
    assert ['b'] + ":c" == "b:c" && ['b'] + "" == "b";
    assert Segments("b:c") == ["b", "c"];
    ColonFirst("b:c");
    assert [':'] + "b:c" == ":b:c";
    assert Segments(":b:c") == [""] + ["b", "c"];
    LetterFirst(c, ":b:c", "", ["b", "c"]);
    assert [c] + "" == [c];
    assert Segments(SampleKey(c)) == [[c], "b", "c"];
  }

  lemma SampleIsValid(reservation: Vector, schema: string)
    ensures ValidCall(SampleCall(reservation, schema))
            && ValidArtifactType(SampleCall(reservation, schema).artifactType)
  {
    KeyIsValid('a');
  }

  ghost predicate NonNegative(v: Vector) {
    forall d :: 0 <= v.At(d)
  }

  ghost function Booted(limits: Vector): Sys {
    var s := Init("run", limits);
    s.(process := Up(Rebuild(s.store), Idle))
  }

  /** The call has reserved the whole limits and the process was restarted. */
  ghost function Full(limits: Vector): Sys {
    var call := SampleCall(limits, "one");
    var s := Booted(limits);
    var store := s.store.(rows := map[call.key := StartedRow(call, Reserved)]);
    s.(store := store, process := Up(Rebuild(store), Idle))
  }

  ghost function Filling(limits: Vector): seq<Label> {
    [] + [Boot] + [Present(SampleCall(limits, "one"))] + [Crash] + [Boot]
  }

  lemma FullIsAdmitted(limits: Vector)
    requires NonNegative(limits)
    ensures var call := SampleCall(limits, "one");
            Step(Booted(limits), Present(call))
                == WriteRow(Booted(limits), StartedRow(call, Reserved), ZERO, limits, ToStart(call))
  {
    var call := SampleCall(limits, "one");
    SampleIsValid(limits, "one");
    var m := Booted(limits).process.memory;
    assert m.consumed == ZERO && m.reserved == ZERO by {
      Extensional(TotalConsumed(map[]), ZERO);
      Extensional(TotalReserved(map[]), ZERO);
    }
    forall d ensures FitsAt(limits, m.consumed.Add(m.reserved), call.reservation, d) {
    }
    assert Fits(Booted(limits).limits, m.consumed.Add(m.reserved), call.reservation);
    Extensional(ZERO.Add(limits), limits);
  }

  lemma FillingRuns(limits: Vector)
    requires NonNegative(limits)
    ensures After(Init("run", limits), Filling(limits)) == Full(limits)
    ensures After(Init("run", limits), [] + [Boot]) == Booted(limits)
  {
    var call := SampleCall(limits, "one");
    var s := Init("run", limits);
    Then(s, [], Boot, s, Booted(limits));
    FullIsAdmitted(limits);
    var s2 := Step(Booted(limits), Present(call));
    Then(s, [] + [Boot], Present(call), Booted(limits), s2);
    var s3 := s2.(process := Down);
    Then(s, [] + [Boot] + [Present(call)], Crash, s2, s3);
    assert s2.store.rows == map[call.key := StartedRow(call, Reserved)];
    Then(s, [] + [Boot] + [Present(call)] + [Crash], Boot, s3, Full(limits));
  }

  /** No call in flight is presented again. */
  lemma FillingCarries(exact: bool, limits: Vector)
    requires NonNegative(limits)
    ensures CarriesAll(exact, Init("run", limits), Filling(limits))
    ensures CarriesAll(exact, Init("run", limits), [] + [Boot])
  {
    var s, labels := Init("run", limits), Filling(limits);
    FillingRuns(limits);
    forall i | 0 <= i < |labels| ensures Carries(exact, After(s, labels[..i]), labels[i]) {
      if i == 1 {
        assert labels[..1] == [] + [Boot];
      }
    }
  }

  lemma FullTotals(limits: Vector, d: Dim)
    ensures TotalReserved(Full(limits).store.rows).At(d) == limits.At(d)
            && TotalConsumed(Full(limits).store.rows).At(d) == 0
  {
    var empty: map<string, Row> := map[];
    var row := StartedRow(SampleCall(limits, "one"), Reserved);
    TotalsUpdate(empty, row.key, row, d);
    assert Full(limits).store.rows == empty[row.key := row];
  }

  // ---------------------------------------------------------------- two ways past a limit

  /** A transition charges the whole limits. */
  ghost function Charging(limits: Vector): seq<Label> {
    Filling(limits) + [Transition(SampleTransition(limits))]
  }

  /** The call is presented again with twice the limits and started. */
  ghost function Enlarging(limits: Vector): seq<Label> {
    Filling(limits) + [Present(SampleCall(limits.Add(limits), "one"))] + [WriteStarted]
  }

  /** What is consumed or reserved in a dimension after a run. */
  ghost function Taken(limits: Vector, labels: seq<Label>, d: Dim): int {
    var rows := After(Init("run", limits), labels).store.rows;
    TotalConsumed(rows).At(d) + TotalReserved(rows).At(d)
  }

  /** No finished call used more than it reserved. */
  ghost predicate NoOverrun(limits: Vector, labels: seq<Label>, d: Dim) {
    var rows := After(Init("run", limits), labels).store.rows;
    forall k | k in rows :: Excess(rows[k], d) == 0
  }

  lemma TransitionIsCharged(limits: Vector)
    requires NonNegative(limits)
    ensures var call, s := SampleTransition(limits), Full(limits);
            Step(s, Transition(call))
                == WriteRow(s, TransitionRow(call), s.process.memory.consumed.Add(limits), s.process.memory.reserved,
                            Idle)
    ensures SampleTransition(limits).key !in Full(limits).store.rows
  {
    var s := Full(limits);
    KeyIsValid('t');
    assert SampleKey('t')[0] != SampleKey('a')[0];
    forall d ensures FitsAt(limits, s.process.memory.consumed, limits, d) {
      FullTotals(limits, d);
    }
    assert Fits(limits, s.process.memory.consumed, limits);
  }

  /** A transition may charge the whole limit although a call has reserved it. */
  lemma TransitionExceeds(limits: Vector, d: Dim)
    requires NonNegative(limits)
    ensures Taken(limits, Charging(limits), d) == 2 * limits.At(d) && NoOverrun(limits, Charging(limits), d)
  {
    var call, s := SampleTransition(limits), Full(limits);
    FillingRuns(limits);
    TransitionIsCharged(limits);
    Then(Init("run", limits), Filling(limits), Transition(call), s, Step(s, Transition(call)));
    FullTotals(limits, d);
    TotalsUpdate(s.store.rows, call.key, TransitionRow(call), d);
  }

  lemma EnlargementIsStarted(limits: Vector)
    requires NonNegative(limits)
    ensures var call, s := SampleCall(limits.Add(limits), "one"), Full(limits);
            && Step(s, Present(call)) == s.(process := Up(s.process.memory, ToStart(call)))
            && Step(Step(s, Present(call)), WriteStarted).store.rows
                 == s.store.rows[call.key := StartedRow(call, CallStarted)]
  {
    SampleIsValid(limits.Add(limits), "one");
  }

  /** A reserved call may be presented again with twice its reservation. */
  lemma EnlargementExceeds(limits: Vector, d: Dim)
    requires NonNegative(limits)
    ensures Taken(limits, Enlarging(limits), d) == 2 * limits.At(d) && NoOverrun(limits, Enlarging(limits), d)
  {
    var call, s := SampleCall(limits.Add(limits), "one"), Full(limits);
    FillingRuns(limits);
    EnlargementIsStarted(limits);
    var claimed := Step(s, Present(call));
    Then(Init("run", limits), Filling(limits), Present(call), s, claimed);
    Then(Init("run", limits), Filling(limits) + [Present(call)], WriteStarted, claimed, Step(claimed, WriteStarted));
    FullTotals(limits, d);
    TotalsUpdate(s.store.rows, call.key, StartedRow(call, CallStarted), d);
  }

  // ---------------------------------------------------------------- disciplines

  /** Calls reserve and transitions charge only in the given dimensions. */
  ghost predicate Uses(callDims: set<Dim>, transitionDims: set<Dim>, l: Label) {
    && (l.Present? ==> forall d :: d !in callDims ==> l.call.reservation.At(d) == 0)
    && (l.Transition? ==> forall d :: d !in transitionDims ==> l.call.reservation.At(d) == 0)
  }

  /** The run uses those dimensions and, unless it may enlarge them, presents calls again with no more than they
      reserved. */
  ghost predicate Obeys(callDims: set<Dim>, transitionDims: set<Dim>, enlarging: bool, runId: string, limits: Vector,
                        labels: seq<Label>)
  {
    && (forall i | 0 <= i < |labels| :: Uses(callDims, transitionDims, labels[i]))
    && (enlarging || CarriesAll(false, Init(runId, limits), labels))
  }

  /** If no finished call used more than it reserved, the limit holds. */
  ghost predicate Holds(runId: string, limits: Vector, labels: seq<Label>, d: Dim) {
    var rows := After(Init(runId, limits), labels).store.rows;
    0 <= limits.At(d) && (forall k | k in rows :: Excess(rows[k], d) == 0) ==>
      TotalConsumed(rows).At(d) + TotalReserved(rows).At(d) <= limits.At(d)
  }

  ghost predicate Safe(callDims: set<Dim>, transitionDims: set<Dim>, enlarging: bool) {
    forall runId, limits, labels, d | Obeys(callDims, transitionDims, enlarging, runId, limits, labels) ::
      Holds(runId, limits, labels, d)
  }

  /** Calls that reserve nothing hold nothing, and so never ask for more than they did. */
  lemma {:induction false} EmptyCallsHoldNothing(transitionDims: set<Dim>, s: Sys, labels: seq<Label>, d: Dim)
    requires Inv(s) && Unreserved(s, d) && forall i | 0 <= i < |labels| :: Uses({}, transitionDims, labels[i])
    ensures Unreserved(After(s, labels), d)
  {
    if labels != [] {
      var n := |labels| - 1;
      EmptyCallsHoldNothing(transitionDims, s, labels[..n], d);
      RunKeeps(s, labels[..n]);
      StepUnreserved(After(s, labels[..n]), labels[n], d);
    }
  }

  lemma EmptyCallsCarry(transitionDims: set<Dim>, runId: string, limits: Vector, labels: seq<Label>)
    requires forall i | 0 <= i < |labels| :: Uses({}, transitionDims, labels[i])
    ensures CarriesAll(false, Init(runId, limits), labels)
  {
    forall i | 0 <= i < |labels| ensures Carries(false, After(Init(runId, limits), labels[..i]), labels[i]) {
      var s := After(Init(runId, limits), labels[..i]);
      RunKeeps(Init(runId, limits), labels[..i]);
      if labels[i].Present? && s.process.Up? && labels[i].call.key in s.store.rows
         && InFlight(s.store.rows[labels[i].call.key]) {
        forall d ensures labels[i].call.reservation.At(d) == 0 == s.store.rows[labels[i].call.key].reservation.At(d) {
          EmptyCallsHoldNothing(transitionDims, Init(runId, limits), labels[..i], d);
          assert Uses({}, transitionDims, labels[i]);
        }
      }
    }
  }

  lemma DisciplinedIsSafe(callDims: set<Dim>, transitionDims: set<Dim>, enlarging: bool, runId: string, limits: Vector,
                          labels: seq<Label>, d: Dim)
    requires callDims !! transitionDims && (enlarging ==> callDims == {})
    requires Obeys(callDims, transitionDims, enlarging, runId, limits, labels)
    ensures Holds(runId, limits, labels, d)
  {
    if enlarging {
      EmptyCallsCarry(transitionDims, runId, limits, labels);
    }
    forall i | 0 <= i < |labels| ensures Disjoint(callDims, labels[i]) {
      assert Uses(callDims, transitionDims, labels[i]);
    }
    if 0 <= limits.At(d) {
      CarefulLimitSafety(callDims, runId, limits, labels, d);
    }
  }

  /** The amounts of the failing runs are in the dimension alone. */
  lemma FillingUses(callDims: set<Dim>, transitionDims: set<Dim>, d: Dim)
    requires d in callDims
    ensures forall i | 0 <= i < |Filling(Only(d, 1))| :: Uses(callDims, transitionDims, Filling(Only(d, 1))[i])
  {
  }

  lemma CarriesMore(s: Sys, labels: seq<Label>, l: Label)
    requires CarriesAll(false, s, labels) && !l.Present?
    ensures CarriesAll(false, s, labels + [l])
  {
    forall i | 0 <= i < |labels| + 1 ensures Carries(false, After(s, (labels + [l])[..i]), (labels + [l])[i]) {
      if i < |labels| {
        assert (labels + [l])[..i] == labels[..i];
      }
    }
  }

  lemma ChargingObeys(callDims: set<Dim>, transitionDims: set<Dim>, enlarging: bool, d: Dim)
    requires d in callDims && d in transitionDims
    ensures var limits := Only(d, 1);
            Obeys(callDims, transitionDims, enlarging, "run", limits, Charging(limits))
  {
    var limits := Only(d, 1);
    FillingCarries(false, limits);
    CarriesMore(Init("run", limits), Filling(limits), Transition(SampleTransition(limits)));
    FillingUses(callDims, transitionDims, d);
    assert Uses(callDims, transitionDims, Transition(SampleTransition(limits)));
  }

  lemma SharedDimensionIsUnsafe(callDims: set<Dim>, transitionDims: set<Dim>, enlarging: bool, d: Dim)
    requires d in callDims && d in transitionDims
    ensures !Safe(callDims, transitionDims, enlarging)
  {
    var limits := Only(d, 1);
    ChargingObeys(callDims, transitionDims, enlarging, d);
    assert !Holds("run", limits, Charging(limits), d) by {
      TransitionExceeds(limits, d);
    }
  }

  lemma EnlargingObeys(callDims: set<Dim>, transitionDims: set<Dim>, d: Dim)
    requires d in callDims
    ensures Obeys(callDims, transitionDims, true, "run", Only(d, 1), Enlarging(Only(d, 1)))
  {
    var limits := Only(d, 1);
    FillingUses(callDims, transitionDims, d);
    assert Uses(callDims, transitionDims, Present(SampleCall(limits.Add(limits), "one")));
    assert Uses(callDims, transitionDims, WriteStarted);
  }

  lemma EnlargingIsUnsafe(callDims: set<Dim>, transitionDims: set<Dim>, d: Dim)
    requires d in callDims
    ensures !Safe(callDims, transitionDims, true)
  {
    var limits := Only(d, 1);
    EnlargingObeys(callDims, transitionDims, d);
    assert !Holds("run", limits, Enlarging(limits), d) by {
      EnlargementExceeds(limits, d);
    }
  }

  /** No run exceeds a limit without an overrun if and only if calls and transitions share no dimension and calls
      that are presented again never ask for more, or never reserve anything. */
  lemma LimitSafetyIff(callDims: set<Dim>, transitionDims: set<Dim>, enlarging: bool)
    ensures Safe(callDims, transitionDims, enlarging) <==> callDims !! transitionDims && (enlarging ==> callDims == {})
  {
    if d :| d in callDims && d in transitionDims {
      SharedDimensionIsUnsafe(callDims, transitionDims, enlarging, d);
    } else if enlarging && callDims != {} {
      var d :| d in callDims;
      EnlargingIsUnsafe(callDims, transitionDims, d);
    } else {
      forall runId, limits, labels, d | Obeys(callDims, transitionDims, enlarging, runId, limits, labels)
        ensures Holds(runId, limits, labels, d)
      {
        DisciplinedIsSafe(callDims, transitionDims, enlarging, runId, limits, labels, d);
      }
    }
  }
}
