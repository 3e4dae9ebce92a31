/** The chunk mapper of src/response.rs, in which `delta` takes precedence over `message`. */
module Responses {
  import opened Wrappers
  import opened Usages
  import opened Completions

  datatype Content = Content(content: Option<string>, reasoningContent: Option<string>)

  datatype Choice = Choice(message: Option<Content>, delta: Option<Content>)

  /** A provider record; only the first choice is ever read. */
  datatype ChatResponse = ChatResponse(choices: seq<Choice>, usage: Option<Usage>)

  /**
   * `From<ChatResponse> for Completion`. The text fields start absent, are taken
   * from `message` when it is present, and then from `delta` when it is present,
   * so a present `delta` replaces `message` even where its own fields are absent.
   */
  function ToCompletion(response: ChatResponse): (c: Completion)
    ensures c.usage == response.usage
    ensures response.choices == [] ==> c.content.None? && c.reasoningContent.None?
    ensures response.choices != [] && response.choices[0].delta.Some? ==>
      c.content == response.choices[0].delta.value.content &&
      c.reasoningContent == response.choices[0].delta.value.reasoningContent
    ensures response.choices != [] && response.choices[0].delta.None? && response.choices[0].message.Some? ==>
      c.content == response.choices[0].message.value.content &&
      c.reasoningContent == response.choices[0].message.value.reasoningContent
    ensures response.choices != [] && response.choices[0].delta.None? && response.choices[0].message.None? ==>
      c.content.None? && c.reasoningContent.None?
  {
    if response.choices == [] then Completion(None, None, response.usage)
    else
      var choice := response.choices[0];
      var (content, reasoningContent) :=
        if choice.message.Some? then (choice.message.value.content, choice.message.value.reasoningContent)
        else (None, None);
      var (content', reasoningContent') :=
        if choice.delta.Some? then (choice.delta.value.content, choice.delta.value.reasoningContent)
        else (content, reasoningContent);
      Completion(content', reasoningContent', response.usage)
  }

  /** Only the first choice is consulted: the choices after it do not matter. */
  lemma OnlyFirstChoiceMatters(response: ChatResponse, others: seq<Choice>)
    requires response.choices != []
    ensures ToCompletion(response) == ToCompletion(response.(choices := [response.choices[0]] + others))
  {
  }

  /** Both text fields always come from the same content object of the first choice. */
  lemma TextFieldsShareOneSource(response: ChatResponse)
    ensures var c := ToCompletion(response);
      (c.content.None? && c.reasoningContent.None?) ||
      (response.choices != [] &&
       exists k :: k in [response.choices[0].message, response.choices[0].delta] && k.Some? &&
         c.content == k.value.content && c.reasoningContent == k.value.reasoningContent)
  {
    if response.choices != [] {
      var ch := response.choices[0];
      if ch.delta.Some? {
        assert ch.delta in [ch.message, ch.delta];
      } else if ch.message.Some? {
        assert ch.message in [ch.message, ch.delta];
      }
    }
  }
}
