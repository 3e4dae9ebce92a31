/**
 * The fold of `StreamingChatModel::completion` in src/models/chat.rs: every
 * streamed `Completion` chunk is drained, the text fields are appended to
 * optional running totals and the usage is overwritten by each chunk that
 * reports one.
 */
module ChatFold {
  import opened Wrappers
  import opened Usages
  import opened Completions
  import opened Accumulation

  function ContentField(c: Completion): Option<string>
  {
    c.content
  }

  function ReasoningField(c: Completion): Option<string>
  {
    c.reasoningContent
  }

  function UsageField(c: Completion): Option<Usage>
  {
    c.usage
  }

  /** What the fold computes from the whole chunk sequence. */
  function Drained(chunks: seq<Completion>): Completion
  {
    Completion(ConcatSome(Map(chunks, ContentField)), ConcatSome(Map(chunks, ReasoningField)), LastSome(Map(chunks, UsageField)))
  }

  /**
   * One more chunk, whatever it holds, appends its texts and overwrites the usage
   * when it reports one: no chunk shape ends the fold early.
   */
  lemma DrainedSnoc(chunks: seq<Completion>, chunk: Completion)
    ensures Drained(chunks + [chunk]).content == Append(Drained(chunks).content, chunk.content)
    ensures Drained(chunks + [chunk]).reasoningContent == Append(Drained(chunks).reasoningContent, chunk.reasoningContent)
    ensures Drained(chunks + [chunk]).usage == if chunk.usage.Some? then chunk.usage else Drained(chunks).usage
  {
    MapSnoc(chunks, chunk, ContentField);
    MapSnoc(chunks, chunk, ReasoningField);
    MapSnoc(chunks, chunk, UsageField);
    ConcatSomeSnoc(Map(chunks, ContentField), chunk.content);
    ConcatSomeSnoc(Map(chunks, ReasoningField), chunk.reasoningContent);
    LastSomeSnoc(Map(chunks, UsageField), chunk.usage);
  }

  /**
   * `StreamingChatModel::completion`. Opening the stream may fail, and that error
   * is returned as is; otherwise the loop runs until the stream is exhausted.
   */
  method StreamingCompletion(stream: Result<seq<Completion>, string>) returns (r: Result<Completion, string>)
    ensures stream.Err? ==> r == Err(stream.error)
    ensures stream.Ok? ==> r == Ok(Drained(stream.value))
  {
    if stream.Err? {
      return Err(stream.error);
    }
    var chunks := stream.value;
    var content: Option<string> := None;
    var reasoningContent: Option<string> := None;
    var usage: Option<Usage> := None;
    var i := 0;
    while i < |chunks|
      invariant 0 <= i <= |chunks|
      invariant Completion(content, reasoningContent, usage) == Drained(chunks[..i])
    {
      var chunk := chunks[i];
      assert chunks[..i + 1] == chunks[..i] + [chunk];
      DrainedSnoc(chunks[..i], chunk);
      if chunk.content.Some? {
        content := Some(content.GetOr("") + chunk.content.value);
      }
      if chunk.reasoningContent.Some? {
        reasoningContent := Some(reasoningContent.GetOr("") + chunk.reasoningContent.value);
      }
      if chunk.usage.Some? {
        usage := chunk.usage;
      }
      i := i + 1;
    }
    assert chunks[..i] == chunks;
    r := Ok(Completion(content, reasoningContent, usage));
  }

  /**
   * Each text field is the in-order concatenation of the chunks' present pieces
   * for it, built independently of the other field, and absent when no chunk has one.
   */
  lemma DrainedTexts(chunks: seq<Completion>)
    ensures Drained(chunks).content ==
      if Somes(Map(chunks, ContentField)) == [] then None else Some(Concat(Somes(Map(chunks, ContentField))))
    ensures Drained(chunks).reasoningContent ==
      if Somes(Map(chunks, ReasoningField)) == [] then None else Some(Concat(Somes(Map(chunks, ReasoningField))))
  {
    ConcatSomeIsConcatOfSomes(Map(chunks, ContentField));
    ConcatSomeIsConcatOfSomes(Map(chunks, ReasoningField));
  }

  /** A text field is present as soon as one chunk carries it, even as the empty string. */
  lemma DrainedPresentIff(chunks: seq<Completion>)
    ensures Drained(chunks).content.Some? <==> exists i :: 0 <= i < |chunks| && chunks[i].content.Some?
    ensures Drained(chunks).reasoningContent.Some? <==> exists i :: 0 <= i < |chunks| && chunks[i].reasoningContent.Some?
  {
    var cs, rs := Map(chunks, ContentField), Map(chunks, ReasoningField);
    ConcatSomePresentIff(cs);
    ConcatSomePresentIff(rs);
    if exists i :: 0 <= i < |chunks| && chunks[i].content.Some? {
      var i :| 0 <= i < |chunks| && chunks[i].content.Some?;
      assert cs[i].Some?;
    }
    if exists i :: 0 <= i < |chunks| && chunks[i].reasoningContent.Some? {
      var i :| 0 <= i < |chunks| && chunks[i].reasoningContent.Some?;
      assert rs[i].Some?;
    }
  }

  /** The usage is that of the last chunk reporting one, and absent when none does. */
  lemma DrainedUsage(chunks: seq<Completion>)
    ensures Drained(chunks).usage.None? <==> forall i :: 0 <= i < |chunks| ==> chunks[i].usage.None?
    ensures Drained(chunks).usage.Some? ==>
      exists i :: 0 <= i < |chunks| && chunks[i].usage == Drained(chunks).usage &&
        forall j :: i < j < |chunks| ==> chunks[j].usage.None?
  {
    var us := Map(chunks, UsageField);
    LastSomeIsLastWrite(us);
    if Drained(chunks).usage.Some? {
      var i :| 0 <= i < |us| && us[i] == LastSome(us) && forall j :: i < j < |us| ==> us[j].None?;
      assert forall j :: i < j < |chunks| ==> chunks[j].usage == us[j];
    }
  }
}
