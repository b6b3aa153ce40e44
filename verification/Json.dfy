/** JSON trees, and evidence items with their JSON form. */
module JsonTree {

  /** A number of at most 53 bits, doubled at most the given number of times. */
  predicate Doubled(n: nat, times: nat) {
    n < 0x20_0000_0000_0000 || (times > 0 && n % 2 == 0 && Doubled(n / 2, times - 1))
  }

  /** A number of at most 53 bits, halved at most the given number of times. */
  predicate Halved(r: real, times: nat)
    decreases times
  {
    (r.Floor as real == r && -0x20_0000_0000_0000 < r.Floor < 0x20_0000_0000_0000)
    || (times > 0 && Halved(2.0 * r, times - 1))
  }

  /** The finite values of a double-precision float. */
  predicate IsDouble(r: real) {
    Halved(r, 1074) || (r.Floor as real == r && Doubled(if r.Floor < 0 then -r.Floor else r.Floor, 971))
  }

  type Double = r: real | IsDouble(r)

  /** The value of a float; negative zero is a float of its own, equal to zero and written otherwise. */
  datatype Json =
    | Null
    | Bool(b: bool)
    | Int(n: int)
    | Float(r: Double)
    | NegativeZero
    | Str(s: string)
    | Arr(items: seq<Json>)
    | Obj(fields: map<string, Json>)
}

module Evidence {
  import opened Budget
  import opened JsonTree

  datatype EvidenceItem = EvidenceItem(
    sourceType: string, sourceId: string, locator: string, excerptHash: string, excerpt: string,
    sourceKind: string, bindingId: string, sourceVersion: string, accessScopeHash: string, outcomeKind: string)

  /** A digest.  SHA-256 is taken to be injective, so a digest carries what was hashed. */
  datatype Digest<+T> = Sha256(content: T)

  /** The NUL-joined identity text of an evidence item. */
  function IdentityText(sourceType: string, sourceId: string, locator: string, excerptHash: string): string {
    sourceType + "\0" + sourceId + "\0" + locator + "\0" + excerptHash
  }

  function Reference(item: EvidenceItem): Digest<string> {
    Sha256(IdentityText(item.sourceType, item.sourceId, item.locator, item.excerptHash))
  }

  function References(items: seq<EvidenceItem>): seq<Digest<string>> {
    seq(|items|, i requires 0 <= i < |items| => Reference(items[i]))
  }

  function AsObject(item: EvidenceItem): Json {
    Obj(map[
      "source_type" := Str(item.sourceType),
      "source_id" := Str(item.sourceId),
      "locator" := Str(item.locator),
      "excerpt_hash" := Str(item.excerptHash),
      "excerpt" := Str(item.excerpt),
      "source_kind" := Str(item.sourceKind),
      "binding_id" := Str(item.bindingId),
      "source_version" := Str(item.sourceVersion),
      "access_scope_hash" := Str(item.accessScopeHash),
      "outcome_kind" := Str(item.outcomeKind)])
  }

  /** The text of a field; an absent field reads as the empty string. */
  function Field(value: Json, key: string): Option<string> {
    if !value.Obj? then None
    else if key !in value.fields then Some("")
    else if value.fields[key].Str? then Some(value.fields[key].s)
    else None
  }

  /** What a capability may return for an item: typed evidence, or a plain value. */
  datatype RawItem = Typed(item: EvidenceItem) | Plain(value: Json)

  /** The text form of a field, by str(); an absent field is the empty string. */
  function Shown(show: Json -> string, fields: map<string, Json>, key: string): string {
    show(if key in fields then fields[key] else Str(""))
  }

  function Coerced(show: Json -> string, fields: map<string, Json>): EvidenceItem {
    EvidenceItem(
      Shown(show, fields, "source_type"), Shown(show, fields, "source_id"), Shown(show, fields, "locator"),
      Shown(show, fields, "excerpt_hash"), Shown(show, fields, "excerpt"), Shown(show, fields, "source_kind"),
      Shown(show, fields, "binding_id"), Shown(show, fields, "source_version"),
      Shown(show, fields, "access_scope_hash"), Shown(show, fields, "outcome_kind"))
  }

  /** None for an item that is neither typed evidence nor an object. */
  function Read(show: Json -> string, raw: RawItem): Option<EvidenceItem> {
    match raw
    case Typed(item) => Some(item)
    case Plain(value) => if value.Obj? then Some(Coerced(show, value.fields)) else None
  }

  /** The normal form of a capability outcome: one object of texts per item. */
  function Normalize(show: Json -> string, raws: seq<RawItem>): Option<Json> {
    if exists i | 0 <= i < |raws| :: Read(show, raws[i]).None? then None
    else
      Some(Arr(seq(|raws|, i requires 0 <= i < |raws| && Read(show, raws[i]).Some? =>
        AsObject(Read(show, raws[i]).value))))
  }

  function Plains(items: seq<Json>): seq<RawItem> {
    seq(|items|, i requires 0 <= i < |items| => Plain(items[i]))
  }

  /** Reads an evidence item back from its object. */
  function FromObject(value: Json): Option<EvidenceItem> {
    if value.Obj?
       && Field(value, "source_type").Some? && Field(value, "source_id").Some?
       && Field(value, "locator").Some? && Field(value, "excerpt_hash").Some?
       && Field(value, "excerpt").Some? && Field(value, "source_kind").Some?
       && Field(value, "binding_id").Some? && Field(value, "source_version").Some?
       && Field(value, "access_scope_hash").Some? && Field(value, "outcome_kind").Some?
    then Some(EvidenceItem(
      Field(value, "source_type").value, Field(value, "source_id").value,
      Field(value, "locator").value, Field(value, "excerpt_hash").value,
      Field(value, "excerpt").value, Field(value, "source_kind").value,
      Field(value, "binding_id").value, Field(value, "source_version").value,
      Field(value, "access_scope_hash").value, Field(value, "outcome_kind").value))
    else None
  }

  /** The evidence items of a normalized capability outcome; None where the reading fails. */
  function AsEvidence(value: Json): Option<seq<EvidenceItem>> {
    if value.Arr? && forall i | 0 <= i < |value.items| :: FromObject(value.items[i]).Some?
    then Some(seq(|value.items|, i requires 0 <= i < |value.items| => FromObject(value.items[i]).value))
    else None
  }

  /** The text of a text is itself. */
  ghost predicate ShowsText(show: Json -> string) {
    forall s :: show(Str(s)) == s
  }

  lemma ObjectIsStable(show: Json -> string, item: EvidenceItem)
    requires ShowsText(show)
    ensures Coerced(show, AsObject(item).fields) == item
  {
    assert show(Str(item.sourceType)) == item.sourceType && show(Str(item.sourceId)) == item.sourceId;
  }

  /** What the normalizer makes of a capability's items reads back as these items, typed ones unchanged, and is
      accepted and left as it is when it is normalized again. */
  lemma NormalizeRoundTrip(show: Json -> string, raws: seq<RawItem>)
    requires ShowsText(show) && Normalize(show, raws).Some?
    ensures var value := Normalize(show, raws).value;
            && value.Arr? && Normalize(show, Plains(value.items)) == Some(value)
            && AsEvidence(value).Some? && |AsEvidence(value).value| == |raws|
            && forall i | 0 <= i < |raws| && raws[i].Typed? :: AsEvidence(value).value[i] == raws[i].item
  {
    var value := Normalize(show, raws).value;
    forall i | 0 <= i < |raws|
      ensures FromObject(value.items[i]) == Read(show, raws[i]) == Read(show, Plain(value.items[i]))
    {
      ObjectIsStable(show, Read(show, raws[i]).value);
    }
    assert Normalize(show, Plains(value.items)).value.items == value.items;
  }
}
