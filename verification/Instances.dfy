/** Reachable cases in which the code does not do what it promises. */
module Instances {
  import opened Budget
  import opened Strings
  import opened JsonTree
  import opened Outcomes
  import opened LedgerProtocol
  import opened LedgerSafety
  import opened LedgerBudget
  import opened LedgerLimits
  import opened LedgerReplay
  import opened Draft
  import Reduction
  import Stream

  // ---------------------------------------------------------------- a run that reserves a call and crashes

  function OutputOnly(tokens: int): Vector {
    ZERO.(outputTokens := tokens)
  }

  function TokenCall(tokens: int, schema: string): Call {
    SampleCall(OutputOnly(tokens), schema)
  }

  /** The call has reserved ten output tokens of ten and the process was restarted. */
  ghost function Reserved10(): Sys {
    Full(OutputOnly(10))
  }

  ghost function Reservation(): seq<Label> {
    Filling(OutputOnly(10))
  }

  lemma AllIsLeft()
    ensures OutputReservation(10, OutputOnly(10), Booted(OutputOnly(10)).process.memory) == 10
  {
    var m := Booted(OutputOnly(10)).process.memory;
    assert Remaining(OutputOnly(10), m.consumed, m.reserved).At(OutputTokens) == 10;
  }

  lemma NothingIsLeft()
    ensures OutputReservation(10, OutputOnly(10), Rebuild(Reserved10().store)) == 0
  {
    FullTotals(OutputOnly(10), OutputTokens);
    var m := Rebuild(Reserved10().store);
    assert Remaining(OutputOnly(10), m.consumed, m.reserved).At(OutputTokens) == 0;
  }

  /** With a limit and a maximum of ten output tokens a call reserves ten, and after a restart asks for none. */
  lemma ReservationIsForgotten()
    ensures var call, limits := TokenCall(10, "one"), OutputOnly(10);
            var before, after := After(Init("run", limits), [] + [Boot]), After(Init("run", limits), Reservation());
            && before.process.Up?
            && OutputReservation(10, limits, before.process.memory) == 10 == call.reservation.outputTokens
            && after.process.Up? && call.key in after.store.rows
            && after.store.rows[call.key].reservation == call.reservation
            && OutputReservation(10, limits, after.process.memory) == 0
  {
    FillingRuns(OutputOnly(10));
    AllIsLeft();
    NothingIsLeft();
  }

  lemma Reserved10IsSound()
    ensures Inv(Reserved10()) && BudgetOk(true, Reserved10())
  {
    FillingRuns(OutputOnly(10));
    FillingCarries(true, OutputOnly(10));
    RunAccounts(true, "run", OutputOnly(10), Reservation());
  }

  lemma TokenCallIsClaimed(tokens: int, invoked: Option<Json>)
    ensures Claimed(Reserved10(), TokenCall(tokens, "one"), invoked)
  {
    SampleIsValid(OutputOnly(tokens), "one");
  }

  /** A smaller reservation always misleads. */
  lemma SmallerMisleads(s: Sys, call: Call, invoked: Option<Json>, actual: Vector, d: Dim)
    requires Inv(s) && BudgetOk(true, s) && Claimed(s, call, invoked)
    requires call.reservation.At(d) < s.store.rows[call.key].reservation.At(d)
    ensures var t := After(s, WholeCall(call, invoked, actual)); t.process.Up? && t.process.memory != Rebuild(t.store)
  {
    RepresentedExactIff(s, call, invoked, actual);
  }

  /** The reserved call, presented again with a reservation of five and failing, leaves a budget that no restart
      would rebuild. */
  lemma SmallerReservationMisleads()
    ensures Reserved10() == After(Init("run", OutputOnly(10)), Reservation())
    ensures var t := After(Reserved10(), WholeCall(TokenCall(5, "one"), None, ZERO));
            t.process.Up? && t.process.memory != Rebuild(t.store)
  {
    FillingRuns(OutputOnly(10));
    Reserved10IsSound();
    TokenCallIsClaimed(5, None);
    SmallerMisleads(Reserved10(), TokenCall(5, "one"), None, ZERO, OutputTokens);
  }

  /** A succeeded call answers under the schema it was stored under and under no other. */
  lemma SchemaDecides(t: Sys, call: Call, other: Call, validate: Json -> Option<Json>)
    requires Inv(t) && t.process.Up? && t.process.pc.Idle?
    requires call.key in t.store.rows && t.store.rows[call.key].status.Succeeded?
    requires t.store.rows[call.key].identity == call.identity && !call.identity.kind.LocalTransition?
    requires Recoverable(t, call) && call.key in t.produced
             && validate(t.produced[call.key]) == Some(t.produced[call.key])
    requires other == call.(schema := other.schema) && other.schema != call.schema
    ensures var artifacts, row := t.process.memory.artifacts, t.store.rows[call.key];
            && ReplayAnswer(t.runId, artifacts, row, call, validate)
                 == Returned(t.produced[call.key], true, row.consumption)
            && ReplayAnswer(t.runId, artifacts, row, other, validate) == DecodeFailed
  {
    ReplayReturnsOriginalIff(t, call, validate);
    ReplayReturnsOriginalIff(t, other, validate);
  }

  lemma SampleSucceeds()
    ensures var call := TokenCall(10, "one");
            var t := After(Reserved10(), WholeCall(call, Some(Null), ZERO));
            && Inv(t) && t.process.Up? && t.process.pc.Idle?
            && call.key in t.store.rows && t.store.rows[call.key].status.Succeeded?
            && t.store.rows[call.key].identity == call.identity && !call.identity.kind.LocalTransition?
            && Recoverable(t, call) && call.key in t.produced && t.produced[call.key] == Null
  {
    var call, s := TokenCall(10, "one"), Reserved10();
    Reserved10IsSound();
    TokenCallIsClaimed(10, Some(Null));
    var row := RunToEnd(s, call, Some(Null), ZERO);
    RunKeeps(s, WholeCall(call, Some(Null), ZERO));
    RunKeepsArtifacts(s, WholeCall(call, Some(Null), ZERO));
    assert ArtifactOk(After(s, WholeCall(call, Some(Null), ZERO)), OutcomeKey(s.runId, call.key));
  }

  /** A call that succeeded is refused when it is presented again, with the same identity, under another schema. */
  lemma OtherSchemaIsRefused(validate: Json -> Option<Json>)
    requires validate(Null) == Some(Null)
    ensures var call := TokenCall(10, "one");
            var t := After(Reserved10(), WholeCall(call, Some(Null), ZERO));
            && Reserved10() == After(Init("run", OutputOnly(10)), Reservation())
            && t.process.Up? && call.key in t.store.rows
            && t.store.rows[call.key].identity == TokenCall(10, "two").identity
            && var artifacts, row := t.process.memory.artifacts, t.store.rows[call.key];
            && ReplayAnswer(t.runId, artifacts, row, call, validate) == Returned(Null, true, row.consumption)
            && ReplayAnswer(t.runId, artifacts, row, TokenCall(10, "two"), validate) == DecodeFailed
  {
    FillingRuns(OutputOnly(10));
    SampleSucceeds();
    assert "one"[0] != "two"[0];
    SchemaDecides(After(Reserved10(), WholeCall(TokenCall(10, "one"), Some(Null), ZERO)), TokenCall(10, "one"),
                  TokenCall(10, "two"), validate);
  }

  // ---------------------------------------------------------------- a revision that renames a unit

  /** A base unit under the key A, which is not normal, comes back under another key. */
  lemma RevisionRenames(digest: string -> string)
    requires Hexadecimal(digest)
    ensures var base, scope := [RawUnit("A", "t", "m", Some(0), [])], RevisionScope({"A"}, {}, "");
            && BaseOk(base) && Revisable(digest, Scoped(scope, Some(base)), map[])
            && |RevisedUnits(digest, base, scope, map[])| == 1 && RevisedUnits(digest, base, scope, map[])[0].key != "A"
  {
    var base, scope := [RawUnit("A", "t", "m", Some(0), [])], RevisionScope({"A"}, {}, "");
    assert base[0].key == "A";
    assert HasKey(base, "A");
    var merged := MergedUnits(base, scope, map[]);
    assert Strip("") == "";
    assert merged[0] == base[0];
    TrimmedIsFixed("t", IsSpace);
    TrimmedIsFixed("m", IsSpace);
    assert RawOk(merged[0]);
    assert RawsOk(digest, merged);
    assert !IsKeyChar('A') && 'A' in "A" && !NormalKey("A");
    RevisionKeepsKeysIff(digest, base, scope, map[]);
    SortKeeps(UnitsOf(digest, merged));
    assert |multiset(SortByOrder(UnitsOf(digest, merged)))| == |multiset(UnitsOf(digest, merged))| == 1;
  }

  // ---------------------------------------------------------------- mandatory values that are changed

  /** Of a mandatory evidence list with a duplicate one item is left. */
  lemma DuplicateEvidenceIsDropped(t: Reduction.Text, limits: Reduction.Limits)
    ensures var payload: Reduction.View := map["evidence" := Arr([Int(1), Int(1)])];
            && Reduction.Reducible(t, "generate_working_draft", limits, payload)
            && Reduction.Deterministic(t, "generate_working_draft", limits, payload, {"evidence"})["evidence"]
                 == Arr([Int(1)])
  {
    var items := [Int(1), Int(1)];
    assert items[..1] == [Int(1)] && [Int(1)][..0] == [];
    assert Reduction.Unique([Int(1)]) == [Int(1)];
    assert Reduction.Unique(items) == [Int(1)];
  }

  function Confirmed(markdown: string): Json {
    Obj(map["unit_key" := Str("u"), "markdown" := Str(markdown)])
  }

  function UnitScope(markdown: string): Reduction.View {
    map["confirmed_context" := Arr([Confirmed(markdown)])]
  }

  lemma ScopeIsBlanked(t: Reduction.Text, operation: string, markdown: string)
    requires operation != "revise_unit" && markdown != ""
    ensures Reduction.ReduceScope(t, UnitScope(markdown), operation) == Some(UnitScope(""))
  {
    var item, scope, none: set<string> := Confirmed(markdown), UnitScope(markdown), {};
    assert "dependency_unit_keys"[0] != "confirmed_context"[0];
    assert "dependency_unit_keys" !in scope;
    assert Reduction.Members(t, Arr([])).value == none;
    assert Reduction.KeptUnits(t, scope, operation) == Some(none + {});
    assert none + {} == none;
    assert item.fields["markdown" := Str("")] == Confirmed("").fields;
    assert Reduction.ReduceItem(t, none, item) == Confirmed("");
    assert [item][..0] == [];
    assert Reduction.ReduceItems(t, none, [item]) == [Confirmed("")];
    assert scope["confirmed_context" := Arr([Confirmed("")])] == UnitScope("");
  }

  /** Of a mandatory unit scope the text of a confirmed unit is gone that the current unit does not depend on. */
  lemma UnitTextIsBlanked(t: Reduction.Text, limits: Reduction.Limits)
    ensures var payload: Reduction.View := map["unit_scope" := Obj(UnitScope("text"))];
            && Reduction.Reducible(t, "generate_unit", limits, payload)
            && Reduction.Deterministic(t, "generate_unit", limits, payload, {"unit_scope"})["unit_scope"]
                 == Obj(UnitScope(""))
  {
    assert "generate_unit"[0] != "revise_unit"[0];
    ScopeIsBlanked(t, "generate_unit", "text");
  }

  // ---------------------------------------------------------------- a stream without an end

  /** A loop that ends with an exception outside the Exception hierarchy leaves RUN_STARTED as the whole stream. */
  method StreamWithoutEnd() returns (events: seq<Stream.Event>)
    ensures events == [Stream.Event(1, Stream.RunStarted)]
  {
    var run := Stream.Run(Stream.Limits(1, 1, 1, 1), 0, false, [], Stream.ThrewOutside, false);
    events := Stream.ExecuteRun(run);
    assert Stream.Forward([]) == [Stream.RunStarted] && |Stream.Kinds(events)| == 1;
    assert events[0].sequence == 1 && events[0].kind == Stream.Kinds(events)[0];
  }
}
