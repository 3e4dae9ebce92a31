/**
 * The two chunk-to-`Completion` mappers side by side: the one on the OpenAI
 * record in src/models/chat/openai.rs, where `message` wins, and the one on
 * `ChatResponse` in src/response.rs, where `delta` wins.
 */
module MapperPrecedence {
  import opened Wrappers
  import OpenAIChat
  import Responses

  function AsContent(c: OpenAIChat.Content): Responses.Content
  {
    Responses.Content(c.content, c.reasoningContent)
  }

  function AsChoice(ch: OpenAIChat.Choice): Responses.Choice
  {
    Responses.Choice(
      match ch.message case Some(m) => Some(AsContent(m)) case None => None,
      match ch.delta case Some(d) => Some(AsContent(d)) case None => None)
  }

  /** The same record read as a `ChatResponse`. */
  function AsChatResponse(r: OpenAIChat.Response): (cr: Responses.ChatResponse)
    ensures |cr.choices| == |r.choices|
    ensures cr.usage == r.usage
  {
    Responses.ChatResponse(seq(|r.choices|, i requires 0 <= i < |r.choices| => AsChoice(r.choices[i])), r.usage)
  }

  /** Both present in the first choice: the case where the two mappers can differ. */
  predicate BothPresent(r: OpenAIChat.Response)
  {
    r.choices != [] && r.choices[0].message.Some? && r.choices[0].delta.Some?
  }

  /** Unless the first choice holds both a message and a delta, the two mappers agree. */
  lemma AgreeUnlessBothPresent(r: OpenAIChat.Response)
    requires !BothPresent(r)
    ensures OpenAIChat.ToCompletion(r) == Responses.ToCompletion(AsChatResponse(r))
  {
    if r.choices != [] {
      assert AsChatResponse(r).choices[0] == AsChoice(r.choices[0]);
    }
  }

  /** With both present, each mapper takes the texts from a different one: the precedence is opposite. */
  lemma OppositePrecedence(r: OpenAIChat.Response)
    requires BothPresent(r)
    ensures OpenAIChat.ToCompletion(r).content == r.choices[0].message.value.content
    ensures OpenAIChat.ToCompletion(r).reasoningContent == r.choices[0].message.value.reasoningContent
    ensures Responses.ToCompletion(AsChatResponse(r)).content == r.choices[0].delta.value.content
    ensures Responses.ToCompletion(AsChatResponse(r)).reasoningContent == r.choices[0].delta.value.reasoningContent
    ensures OpenAIChat.ToCompletion(r) == Responses.ToCompletion(AsChatResponse(r)) <==>
      r.choices[0].message.value == r.choices[0].delta.value
  {
    assert AsChatResponse(r).choices[0] == AsChoice(r.choices[0]);
  }
}
