/** The outcome codec: what a ledger call's artifact holds and how it is read back. */
module Outcomes {
  import opened Budget
  import opened JsonTree
  import opened Evidence

  /** Artifact bytes: the canonical encoding of a {schema, value} envelope, or anything else.
      Canonical JSON is taken to be injective, so the encoding carries the envelope. */
  datatype Content = Canonical(schema: string, value: Json) | Foreign(bytes: seq<bv8>)

  /** Outcome artifact keys are a digest of run and operation key. */
  datatype ArtifactKey = OutcomeKey(runId: string, operationKey: string)

  datatype Artifact = Artifact(key: ArtifactKey, artifactType: string, requestHash: string,
                               contentHash: Digest<Content>, content: Content)

  function Encode(schema: string, value: Json): Content {
    Canonical(schema, value)
  }

  /** Decoding fails on foreign bytes, on another schema and when the validator refuses the value. */
  function Decode(content: Content, schema: string, validate: Json -> Option<Json>): Option<Json> {
    if content.Canonical? && content.schema == schema then validate(content.value) else None
  }

  function Build(key: ArtifactKey, artifactType: string, requestHash: string, schema: string, value: Json): Artifact {
    var content := Encode(schema, value);
    Artifact(key, artifactType, requestHash, Sha256(content), content)
  }
}
