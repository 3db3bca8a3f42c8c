/** Audit events and how they are hashed. JSON and SHA-256 are foreign: a codec stands for them. */
module Events {
  import opened Wrappers

  /** The hash a chain starts from: sixty-four zeros. */
  const GENESIS: string := "0000000000000000000000000000000000000000000000000000000000000000"

  datatype Event = Event(
    kind: string, timestamp: int, subject: string, actor: string, delegationDepth: int, action: string,
    resource: string, outcome: string, reason: string, engineLatencyMs: real, tokenFingerprint: Option<string>,
    argsHash: Option<string>, decisionId: Option<string>, eventId: string)

  /**
   * The foreign functions: hash of a text, canonical text of an event, event of a text (None when reading it
   * raises), and the printed value of one field of a text.
   */
  datatype Codec = Codec(
    digest: string -> string,
    canonical: Event -> string,
    decode: string -> Option<Event>,
    field: (string, string) -> string)

  /** The reporting columns stored beside the payload. */
  function Columns(e: Event): map<string, string> {
    map["kind" := e.kind, "subject" := e.subject, "actor" := e.actor, "action" := e.action,
        "resource" := e.resource, "outcome" := e.outcome, "reason" := e.reason]
  }

  /** Digests are sixty-four characters long. */
  ghost predicate Digests(c: Codec) {
    forall x :: |c.digest(x)| == 64
  }

  /** The canonical text of `e` reads back as `e`, field by field. */
  predicate Faithful(c: Codec, e: Event) {
    && c.decode(c.canonical(e)) == Some(e)
    && forall name :: name in Columns(e) ==> c.field(c.canonical(e), name) == Columns(e)[name]
  }

  /** What is hashed: the predecessor's hash followed by the canonical event. */
  function Input(c: Codec, prev: string, e: Event): string {
    prev + c.canonical(e)
  }

  function ComputeHash(c: Codec, prev: string, e: Event): string {
    c.digest(Input(c, prev, e))
  }
}
