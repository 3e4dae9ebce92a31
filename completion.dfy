/** The normalised result of a chat request (src/completion.rs). */
module Completions {
  import opened Wrappers
  import opened Usages

  /** Answer text, reasoning text and usage, each optional; all-absent is a legal value. */
  datatype Completion = Completion(content: Option<string>, reasoningContent: Option<string>, usage: Option<Usage>)

  /** A completion holding only answer text. */
  function WithContent(content: string): (c: Completion)
    ensures c.content == Some(content)
    ensures c.reasoningContent.None? && c.usage.None?
  {
    Completion(Some(content), None, None)
  }

  /** A completion holding only reasoning text. */
  function WithReasoningContent(reasoningContent: string): (c: Completion)
    ensures c.reasoningContent == Some(reasoningContent)
    ensures c.content.None? && c.usage.None?
  {
    Completion(None, Some(reasoningContent), None)
  }

  /** A completion holding only usage. */
  function WithUsage(usage: Usage): (c: Completion)
    ensures c.usage == Some(usage)
    ensures c.content.None? && c.reasoningContent.None?
  {
    Completion(None, None, Some(usage))
  }

  /** How one field appears in an input record: missing, `null`, or a value. */
  datatype Field<T> = Absent | Null | Present(value: T)

  /** `#[serde(default)]` on an `Option` field: missing and `null` both read as absent. */
  function FieldValue<T>(f: Field<T>): (r: Option<T>)
    ensures r.Some? <==> f.Present?
    ensures f.Present? ==> r.value == f.value
  {
    match f
    case Present(v) => Some(v)
    case _ => None
  }

  /** Reading a completion record whose three fields may each be missing. */
  function Deserialize(content: Field<string>, reasoningContent: Field<string>, usage: Field<Usage>): (c: Completion)
    ensures c.content.Some? <==> content.Present?
    ensures c.reasoningContent.Some? <==> reasoningContent.Present?
    ensures c.usage.Some? <==> usage.Present?
    ensures content.Present? ==> c.content == Some(content.value)
    ensures reasoningContent.Present? ==> c.reasoningContent == Some(reasoningContent.value)
    ensures usage.Present? ==> c.usage == Some(usage.value)
  {
    Completion(FieldValue(content), FieldValue(reasoningContent), FieldValue(usage))
  }

  /** A record with no fields at all is accepted, as the all-absent completion. */
  lemma EmptyRecordIsAllAbsent()
    ensures Deserialize(Absent, Absent, Absent) == Completion(None, None, None)
  {
  }

  /** Each constructor builds what reading a record with only that field gives. */
  lemma ConstructorsMatchSingleFieldRecords(content: string, reasoningContent: string, usage: Usage)
    ensures WithContent(content) == Deserialize(Present(content), Absent, Absent)
    ensures WithReasoningContent(reasoningContent) == Deserialize(Absent, Present(reasoningContent), Absent)
    ensures WithUsage(usage) == Deserialize(Absent, Absent, Present(usage))
  {
  }
}
