/** The ledger half of resume validation, before the first checkpoint. */
module Resume {
  import opened Budget
  import opened JsonTree
  import opened Evidence
  import opened Outcomes
  import opened LedgerProtocol
  import opened LedgerSafety
  import opened Ledger

  const CAPABILITY_OUTPUT := "CAPABILITY_VALIDATED_OUTPUT"
  const CAPABILITY_SCHEMA := "capability-evidence.v1"

  /** The key of an artifact: that of an outcome, or any other text. */
  datatype DurableKey = Outcome(key: ArtifactKey) | OtherKey(text: string)

  /** An artifact as the control plane hands it over. */
  datatype DurableArtifact = DurableArtifact(key: DurableKey, artifactType: string, generation: int,
                                             requestHash: string,
                                             contentHash: Digest<Content>, content: Content)

  /** The ledger's artifacts are handed over under their outcome keys, in the first generation. */
  function HandOver(a: Artifact): DurableArtifact {
    DurableArtifact(Outcome(a.key), a.artifactType, 1, a.requestHash, a.contentHash, a.content)
  }

  function HandOverAll(artifacts: seq<Artifact>): seq<DurableArtifact> {
    seq(|artifacts|, i requires 0 <= i < |artifacts| => HandOver(artifacts[i]))
  }

  /** What a new process is given. */
  datatype Context = Context(runId: string, ledgerEntries: seq<Row>, resumeArtifacts: seq<DurableArtifact>,
                             resumeEvidence: seq<EvidenceItem>)

  /** The text functions that are not modelled: str(), and json.loads of bytes that are no canonical envelope. */
  datatype Reader = Reader(show: Json -> string, load: seq<bv8> -> Option<Json>)

  /** What json.loads makes of an artifact's bytes. */
  function Loaded(reader: Reader, content: Content): Option<Json> {
    match content
    case Canonical(schema, value) => Some(Obj(map["schema" := Str(schema), "value" := value]))
    case Foreign(bytes) => reader.load(bytes)
  }

  /** The items of a capability evidence envelope. */
  function EnvelopeItems(reader: Reader, content: Content): Option<seq<Json>> {
    match Loaded(reader, content)
    case None => None
    case Some(envelope) =>
      if envelope.Obj? && "schema" in envelope.fields && envelope.fields["schema"] == Str(CAPABILITY_SCHEMA)
         && "value" in envelope.fields && envelope.fields["value"].Arr?
      then Some(envelope.fields["value"].items)
      else None
  }

  predicate CallKind(kind: Kind) {
    kind.Model? || kind.Capability? || kind.LocalDerivation?
  }

  predicate Live(status: Status) {
    status.CallStarted? || status.Succeeded?
  }

  // ---------------------------------------------------------------- what the ledger owns

  /** A row owns its recorded output, and the outcome key of its operation once it has started. */
  predicate OwnsArtifact(runId: string, row: Row, key: DurableKey) {
    CallKind(row.identity.kind)
    && ((row.output.Some? && Outcome(row.output.value.key) == key)
        || (Live(row.status) && key == Outcome(OutcomeKey(runId, row.key))))
  }

  ghost predicate ArtifactOwned(context: Context, key: DurableKey) {
    exists i :: 0 <= i < |context.ledgerEntries| && OwnsArtifact(context.runId, context.ledgerEntries[i], key)
  }

  method LedgerArtifactKeys(context: Context) returns (keys: set<DurableKey>)
    ensures forall key :: key in keys <==> ArtifactOwned(context, key)
  {
    keys := {};
    for n := 0 to |context.ledgerEntries|
      invariant forall key :: key in keys <==>
                  exists i :: 0 <= i < n && OwnsArtifact(context.runId, context.ledgerEntries[i], key)
    {
      var row := context.ledgerEntries[n];
      if CallKind(row.identity.kind) {
        if row.output.Some? {
          keys := keys + {Outcome(row.output.value.key)};
        }
        if Live(row.status) {
          keys := keys + {Outcome(OutcomeKey(context.runId, row.key))};
        }
      }
    }
  }

  /** The reference of one item of a capability outcome, read from the text of its four identity fields. */
  function ItemReference(show: Json -> string, item: Json): Option<Digest<string>> {
    if item.Obj?
    then Some(Sha256(IdentityText(Shown(show, item.fields, "source_type"), Shown(show, item.fields, "source_id"),
                                  Shown(show, item.fields, "locator"), Shown(show, item.fields, "excerpt_hash"))))
    else None
  }

  /** Some item of the list has the reference. */
  predicate Mentions(show: Json -> string, items: seq<Json>, ref: Digest<string>) {
    exists i :: 0 <= i < |items| && ItemReference(show, items[i]) == Some(ref)
  }

  /** A row of a capability call that has started, and has not failed, made the request. */
  predicate Requested(context: Context, requestHash: string) {
    exists i :: 0 <= i < |context.ledgerEntries|
      && context.ledgerEntries[i].identity.kind == Capability
      && (context.ledgerEntries[i].status == CallStarted || context.ledgerEntries[i].status == Succeeded)
      && context.ledgerEntries[i].identity.requestHash == requestHash
  }

  /** A capability outcome artifact of a live capability row vouches for the references of its items. */
  predicate Vouches(reader: Reader, context: Context, artifact: DurableArtifact, ref: Digest<string>) {
    && artifact.artifactType == CAPABILITY_OUTPUT
    && Requested(context, artifact.requestHash)
    && EnvelopeItems(reader, artifact.content).Some?
    && Mentions(reader.show, EnvelopeItems(reader, artifact.content).value, ref)
  }

  function CapabilityRequests(context: Context): set<string> {
    set i: int | 0 <= i < |context.ledgerEntries|
      && context.ledgerEntries[i].identity.kind.Capability? && Live(context.ledgerEntries[i].status)
      :: context.ledgerEntries[i].identity.requestHash
  }

  ghost predicate OwnsEvidence(reader: Reader, context: Context, ref: Digest<string>) {
    || (exists i :: 0 <= i < |context.ledgerEntries| && ref in context.ledgerEntries[i].evidenceRefs)
    || (exists i :: 0 <= i < |context.resumeArtifacts|
          && Vouches(reader, context, context.resumeArtifacts[i], ref))
  }

  /** The references a row records, as a set. */
  method RecordedRefs(context: Context) returns (refs: set<Digest<string>>)
    ensures forall ref :: ref in refs <==>
              exists i :: 0 <= i < |context.ledgerEntries| && ref in context.ledgerEntries[i].evidenceRefs
  {
    refs := {};
    for n := 0 to |context.ledgerEntries|
      invariant forall ref :: ref in refs <==>
                  exists i :: 0 <= i < n && ref in context.ledgerEntries[i].evidenceRefs
    {
      refs := refs + set ref | ref in context.ledgerEntries[n].evidenceRefs;
    }
  }

  method ItemRefs(show: Json -> string, items: seq<Json>) returns (refs: set<Digest<string>>)
    ensures forall ref :: ref in refs <==> Mentions(show, items, ref)
  {
    refs := {};
    for n := 0 to |items|
      invariant forall ref :: ref in refs <==> exists i :: 0 <= i < n && ItemReference(show, items[i]) == Some(ref)
    {
      if ItemReference(show, items[n]).Some? {
        refs := refs + {ItemReference(show, items[n]).value};
      }
    }
  }

  method LedgerEvidenceRefs(reader: Reader, context: Context) returns (refs: set<Digest<string>>)
    ensures forall ref :: ref in refs <==> OwnsEvidence(reader, context, ref)
  {
    var requests := CapabilityRequests(context);
    refs := RecordedRefs(context);
    ghost var recorded := refs;
    for n := 0 to |context.resumeArtifacts|
      invariant forall ref :: ref in refs <==>
                  ref in recorded
                      || exists i :: 0 <= i < n && Vouches(reader, context, context.resumeArtifacts[i], ref)
    {
      var artifact := context.resumeArtifacts[n];
      var items := EnvelopeItems(reader, artifact.content);
      if artifact.artifactType == CAPABILITY_OUTPUT && artifact.requestHash in requests && items.Some? {
        var more := ItemRefs(reader.show, items.value);
        assert forall ref :: ref in more <==> Vouches(reader, context, artifact, ref);
        refs := refs + more;
      } else {
        assert forall ref :: !Vouches(reader, context, artifact, ref);
      }
    }
  }

  // ---------------------------------------------------------------- acceptance

  /** Rows are identified consistently. */
  ghost predicate ContractHolds(context: Context) {
    && (forall i | 0 <= i < |context.ledgerEntries| :: context.ledgerEntries[i].key != "")
    && (forall i, j | 0 <= i < |context.ledgerEntries| && 0 <= j < |context.ledgerEntries|
                      && context.ledgerEntries[i].key == context.ledgerEntries[j].key ::
          context.ledgerEntries[i].identity == context.ledgerEntries[j].identity)
  }

  predicate ArtifactComplete(artifact: DurableArtifact) {
    && artifact.key != OtherKey("")
    && artifact.artifactType != "" && artifact.generation >= 0 && artifact.requestHash != ""
    && artifact.contentHash == Sha256(artifact.content)
  }

  /** Artifacts have distinct keys, complete identities and the content they hash to. */
  ghost predicate ArtifactsHold(context: Context) {
    && (forall i, j | 0 <= i < j < |context.resumeArtifacts| ::
          context.resumeArtifacts[i].key != context.resumeArtifacts[j].key)
    && (forall i | 0 <= i < |context.resumeArtifacts| :: ArtifactComplete(context.resumeArtifacts[i]))
  }

  /** No evidence item is ahead of what the ledger owns, and no artifact but an information need plan. */
  ghost predicate NothingAhead(reader: Reader, plan: DurableArtifact -> bool, context: Context) {
    && (forall a | 0 <= a < |context.resumeArtifacts| ::
          ArtifactOwned(context, context.resumeArtifacts[a].key) || plan(context.resumeArtifacts[a]))
    && (forall e | 0 <= e < |context.resumeEvidence| ::
        OwnsEvidence(reader, context, Reference(context.resumeEvidence[e])))
  }

  datatype Verdict = Accepted | EntryInvalid | ArtifactInvalid | AheadOfCheckpoint

  method ValidateContract(context: Context) returns (ok: bool)
    ensures ok <==> ContractHolds(context)
  {
    var identities: map<string, Identity> := map[];
    for n := 0 to |context.ledgerEntries|
      invariant forall i | 0 <= i < n ::
                  context.ledgerEntries[i].key != "" && context.ledgerEntries[i].key in identities
                                         && identities[context.ledgerEntries[i].key]
                                              == context.ledgerEntries[i].identity
      invariant forall k | k in identities ::
                  exists i ::
                    0 <= i < n && context.ledgerEntries[i].key == k
                        && context.ledgerEntries[i].identity == identities[k]
    {
      var entry := context.ledgerEntries[n];
      if entry.key !in identities {
        identities := identities[entry.key := entry.identity];
      }
      if entry.key == "" || identities[entry.key] != entry.identity {
        return false;
      }
    }
    return true;
  }

  method IndexArtifacts(context: Context) returns (ok: bool)
    ensures ok <==> ArtifactsHold(context)
  {
    var indexed: set<DurableKey> := {};
    for n := 0 to |context.resumeArtifacts|
      invariant forall i | 0 <= i < n ::
                  context.resumeArtifacts[i].key in indexed && ArtifactComplete(context.resumeArtifacts[i])
      invariant forall key | key in indexed :: exists i :: 0 <= i < n && context.resumeArtifacts[i].key == key
      invariant forall i, j | 0 <= i < j < n :: context.resumeArtifacts[i].key != context.resumeArtifacts[j].key
    {
      var item := context.resumeArtifacts[n];
      if item.key in indexed || item.key == OtherKey("") || item.artifactType == "" || item.generation < 0
         || item.requestHash == "" || item.contentHash != Sha256(item.content) {
        return false;
      }
      indexed := indexed + {item.key};
    }
    return true;
  }

  /** Hydration of a run without a checkpoint; plan tells a valid information need plan of a succeeded planning row. */
  method Hydrate(reader: Reader, plan: DurableArtifact -> bool, context: Context) returns (verdict: Verdict)
    ensures verdict.Accepted? <==>
              ContractHolds(context) && ArtifactsHold(context) && NothingAhead(reader, plan, context)
    ensures verdict.EntryInvalid? <==> !ContractHolds(context)
    ensures verdict.ArtifactInvalid? <==> ContractHolds(context) && !ArtifactsHold(context)
  {
    var ok := ValidateContract(context);
    if !ok {
      return EntryInvalid;
    }
    ok := IndexArtifacts(context);
    if !ok {
      return ArtifactInvalid;
    }
    var allowed := LedgerArtifactKeys(context);
    for n := 0 to |context.resumeArtifacts|
      invariant forall a | 0 <= a < n :: context.resumeArtifacts[a].key in allowed || plan(context.resumeArtifacts[a])
    {
      if context.resumeArtifacts[n].key !in allowed && !plan(context.resumeArtifacts[n]) {
        return AheadOfCheckpoint;
      }
    }
    var refs := LedgerEvidenceRefs(reader, context);
    for n := 0 to |context.resumeEvidence|
      invariant forall e | 0 <= e < n :: Reference(context.resumeEvidence[e]) in refs
    {
      if Reference(context.resumeEvidence[n]) !in refs {
        return AheadOfCheckpoint;
      }
    }
    return Accepted;
  }

  // ---------------------------------------------------------------- every crash state is accepted

  /** Capability calls save capability outcomes, and evidence is derived only from outcomes under the
      capability evidence schema. */
  predicate Shaped(call: Call) {
    && (call.identity.kind.Capability? ==> call.artifactType == CAPABILITY_OUTPUT)
    && (call.withEvidence ==> call.identity.kind.Capability? && call.schema == CAPABILITY_SCHEMA)
  }

  ghost predicate ShapedAll(labels: seq<Label>) {
    forall i | 0 <= i < |labels| && labels[i].Present? :: Shaped(labels[i].call)
  }

  /** Row k's artifact holds the evidence item. */
  ghost predicate Backs(s: Sys, k: string, item: EvidenceItem) {
    && k in s.store.rows && s.store.rows[k].identity.kind.Capability?
    && OutcomeKey(s.runId, k) in s.store.artifacts
    && var content := s.store.artifacts[OutcomeKey(s.runId, k)].content;
    && content.Canonical? && content.schema == CAPABILITY_SCHEMA
    && AsEvidence(content.value).Some? && item in AsEvidence(content.value).value
  }

  ghost predicate EvidenceOk(s: Sys) {
    && (forall a | a in s.store.artifacts && a.operationKey in s.store.rows
                   && s.store.rows[a.operationKey].identity.kind.Capability? ::
          s.store.artifacts[a].artifactType == CAPABILITY_OUTPUT)
    && (forall item | item in s.store.evidence :: exists k :: Backs(s, k, item))
    && (s.process.Up? && !s.process.pc.Idle? ==> Shaped(s.process.pc.call))
  }

  /** Artifacts are never replaced, and a new one is that of the call in hand. */
  lemma StepArtifactsGrow(s: Sys, l: Label)
    requires PcOk(s)
    ensures var t := Step(s, l);
      && (forall a | a in s.store.artifacts :: a in t.store.artifacts && t.store.artifacts[a] == s.store.artifacts[a])
      && (forall a | a in t.store.artifacts && a !in s.store.artifacts ::
            s.process.Up? && s.process.pc.ToArtifact? && a.operationKey == s.process.pc.call.key
            && t.store.artifacts[a].artifactType == s.process.pc.call.artifactType)
  {
    if s.process.Up? && s.process.pc.ToArtifact? && l.WriteArtifact? {
      assert Step(s, l) == StepArtifact(s, s.process.pc.call, s.process.pc.value);
    } else {
      assert Step(s, l).store.artifacts == s.store.artifacts;
    }
  }

  /** Evidence is added only from the value of the call in hand. */
  lemma StepEvidenceGrows(s: Sys, l: Label)
    ensures var t := Step(s, l);
      || t.store.evidence == s.store.evidence
      || (&& s.process.Up? && s.process.pc.ToEvidence? && t.store.artifacts == s.store.artifacts
          && t.store.rows == s.store.rows
          && Derived(s.process.pc.call, s.process.pc.value).Some?
          && t.store.evidence == s.store.evidence + Derived(s.process.pc.call, s.process.pc.value).value)
  {
  }

  /** The call in hand is the one presented or the one in hand before. */
  lemma StepCall(s: Sys, l: Label)
    ensures var t := Step(s, l);
      && t.runId == s.runId
      && (t.process.Up? && !t.process.pc.Idle? ==>
            || (l.Present? && t.process.pc.call == l.call)
            || (s.process.Up? && !s.process.pc.Idle? && t.process.pc.call == s.process.pc.call))
  {
  }

  lemma StepBacks(s: Sys, l: Label)
    requires Inv(s) && EvidenceOk(s) && (l.Present? ==> Shaped(l.call))
    ensures EvidenceOk(Step(s, l))
  {
    var t := Step(s, l);
    StepKeeps(s, l);
    StepArtifactsGrow(s, l);
    StepEvidenceGrows(s, l);
    StepCall(s, l);
    forall a | a in t.store.artifacts && a.operationKey in t.store.rows
               && t.store.rows[a.operationKey].identity.kind.Capability?
      ensures t.store.artifacts[a].artifactType == CAPABILITY_OUTPUT
    {
      if a in s.store.artifacts {
        assert ArtifactOk(s, a);
      } else {
        assert Owns(s, s.process.pc.call, CallStarted);
      }
    }
    forall item | item in t.store.evidence ensures exists k :: Backs(t, k, item) {
      if item in s.store.evidence {
        var k :| Backs(s, k, item);
        assert Backs(t, k, item);
      } else {
        assert Backs(t, s.process.pc.call.key, item);
      }
    }
  }

  lemma {:induction false} RunBacks(s: Sys, labels: seq<Label>)
    requires Inv(s) && EvidenceOk(s) && ShapedAll(labels)
    ensures EvidenceOk(After(s, labels))
  {
    if labels != [] {
      var before := labels[..|labels| - 1];
      RunKeeps(s, before);
      RunBacks(s, before);
      StepBacks(After(s, before), labels[|labels| - 1]);
    }
  }

  lemma RowListed(items: seq<Row>, rows: map<string, Row>, k: string) returns (i: nat)
    requires Lists(items, RowKey(), rows) && k in rows
    ensures i < |items| && items[i] == rows[k]
  {
    i :| 0 <= i < |items| && RowKey()(items[i]) == k;
  }

  lemma ArtifactListed(items: seq<Artifact>, artifacts: map<ArtifactKey, Artifact>, a: ArtifactKey) returns (i: nat)
    requires Lists(items, ArtifactKeyOf(), artifacts) && a in artifacts
    ensures i < |items| && items[i] == artifacts[a]
  {
    i :| 0 <= i < |items| && ArtifactKeyOf()(items[i]) == a;
  }

  /** The reference read from an evidence object is the reference of the item it holds. */
  lemma ReferenceFromObject(show: Json -> string, value: Json)
    requires ShowsText(show) && FromObject(value).Some?
    ensures ItemReference(show, value) == Some(Reference(FromObject(value).value))
  {
  }

  /** Evidence that is backed by a row's artifact is owned in every listing of the durable state. */
  lemma BackedIsOwned(reader: Reader, s: Sys, context: Context, artifacts: seq<Artifact>, k: string, item: EvidenceItem)
    requires ShowsText(reader.show) && Inv(s) && EvidenceOk(s) && Backs(s, k, item)
    requires context.runId == s.runId
    requires Lists(context.ledgerEntries, RowKey(), s.store.rows)
    requires context.resumeArtifacts == HandOverAll(artifacts) && Lists(artifacts, ArtifactKeyOf(), s.store.artifacts)
    ensures OwnsEvidence(reader, context, Reference(item))
  {
    var a := OutcomeKey(s.runId, k);
    assert ArtifactOk(s, a);
    var artifact := s.store.artifacts[a];
    var r := RowListed(context.ledgerEntries, s.store.rows, k);
    assert Requested(context, artifact.requestHash);
    var n := ArtifactListed(artifacts, s.store.artifacts, a);
    assert context.resumeArtifacts[n] == HandOver(artifact);
    var items := artifact.content.value.items;
    var i :| 0 <= i < |items| && AsEvidence(artifact.content.value).value[i] == item;
    ReferenceFromObject(reader.show, items[i]);
    assert EnvelopeItems(reader, artifact.content) == Some(items);
    assert Vouches(reader, context, HandOver(artifact), Reference(item));
  }

  /** Recoverability: every durable state the ledger can leave at a crash before the first checkpoint is accepted,
      in whatever order the store lists it. */
  lemma EveryCrashStateIsAccepted(reader: Reader, plan: DurableArtifact -> bool, runId: string, limits: Vector,
                                  labels: seq<Label>, context: Context, artifacts: seq<Artifact>)
    requires ShowsText(reader.show) && ShapedAll(labels)
    requires var store := After(Init(runId, limits), labels).store;
      && context.runId == runId
      && Lists(context.ledgerEntries, RowKey(), store.rows)
      && context.resumeArtifacts == HandOverAll(artifacts) && Lists(artifacts, ArtifactKeyOf(), store.artifacts)
      && context.resumeEvidence == store.evidence
    ensures ContractHolds(context) && ArtifactsHold(context) && NothingAhead(reader, plan, context)
  {
    var s := After(Init(runId, limits), labels);
    RunKeeps(Init(runId, limits), labels);
    RunBacks(Init(runId, limits), labels);
    SameRun(Init(runId, limits), labels);
    forall i | 0 <= i < |context.ledgerEntries| ensures context.ledgerEntries[i].key != "" {
      assert RowKey()(context.ledgerEntries[i]) == context.ledgerEntries[i].key;
      assert RowOk(s, context.ledgerEntries[i].key);
    }
    forall i, j | 0 <= i < j < |context.ledgerEntries|
      ensures context.ledgerEntries[i].key != context.ledgerEntries[j].key
    {
      assert RowKey()(context.ledgerEntries[i]) != RowKey()(context.ledgerEntries[j]);
    }
    forall n | 0 <= n < |context.resumeArtifacts|
      ensures ArtifactComplete(context.resumeArtifacts[n])
      ensures ArtifactOwned(context, context.resumeArtifacts[n].key)
    {
      ListedArtifactIsOwned(s, context, artifacts, n);
    }
    forall i, j | 0 <= i < j < |context.resumeArtifacts|
      ensures context.resumeArtifacts[i].key != context.resumeArtifacts[j].key
    {
      assert ArtifactKeyOf()(artifacts[i]) != ArtifactKeyOf()(artifacts[j]);
    }
    forall e | 0 <= e < |context.resumeEvidence|
      ensures OwnsEvidence(reader, context, Reference(context.resumeEvidence[e]))
    {
      assert context.resumeEvidence[e] in s.store.evidence;
      var k :| Backs(s, k, context.resumeEvidence[e]);
      BackedIsOwned(reader, s, context, artifacts, k, context.resumeEvidence[e]);
    }
  }

  lemma ListedArtifactIsOwned(s: Sys, context: Context, artifacts: seq<Artifact>, n: int)
    requires Inv(s) && context.runId == s.runId
    requires Lists(context.ledgerEntries, RowKey(), s.store.rows)
    requires context.resumeArtifacts == HandOverAll(artifacts) && Lists(artifacts, ArtifactKeyOf(), s.store.artifacts)
    requires 0 <= n < |context.resumeArtifacts|
    ensures ArtifactComplete(context.resumeArtifacts[n])
    ensures ArtifactOwned(context, context.resumeArtifacts[n].key)
  {
    var a := ArtifactKeyOf()(artifacts[n]);
    assert ArtifactOk(s, a);
    var i := RowListed(context.ledgerEntries, s.store.rows, a.operationKey);
    assert OwnsArtifact(context.runId, context.ledgerEntries[i], Outcome(a));
  }

  lemma {:induction false} SameRun(s: Sys, labels: seq<Label>)
    ensures After(s, labels).runId == s.runId
  {
    if labels != [] {
      SameRun(s, labels[..|labels| - 1]);
    }
  }
}
