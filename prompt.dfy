/** src/prompt.rs: a prompt is an ordered list of messages, built by appending. */
module Prompts {
  import opened Messages

  datatype Prompt = Prompt(messages: seq<Message>)

  /** `Prompt::new`. */
  function New(messages: seq<Message>): (p: Prompt)
    ensures p.messages == messages
  {
    Prompt(messages)
  }

  /** `From<Prompt> for Vec<Message>`. */
  function IntoMessages(p: Prompt): (ms: seq<Message>)
    ensures New(ms) == p
  {
    p.messages
  }

  /** A prompt built from a list converts back to that list, and a prompt is rebuilt from its list. */
  lemma NewRoundTrip(messages: seq<Message>, p: Prompt)
    ensures IntoMessages(New(messages)) == messages
    ensures New(IntoMessages(p)) == p
  {
  }

  /** `Prompt::user`: one user text message. */
  function UserPrompt(content: string): (p: Prompt)
    ensures |p.messages| == 1 && p.messages[0] == TextMessage(User, content)
  {
    New([UserMessage(content)])
  }

  /** `PromptBuilder`: the messages appended so far, in call order. */
  class PromptBuilder {
    var messages: seq<Message>

    constructor ()
      ensures messages == []
    {
      messages := [];
    }

    /** `message`: appends at the end, leaving the earlier messages untouched. */
    method Message(m: Message)
      modifies this
      ensures messages == old(messages) + [m]
    {
      messages := messages + [m];
    }

    method System(content: string)
      modifies this
      ensures messages == old(messages) + [TextMessage(Role.System, content)]
    {
      Message(SystemMessage(content));
    }

    method User(content: string)
      modifies this
      ensures messages == old(messages) + [TextMessage(Role.User, content)]
    {
      Message(UserMessage(content));
    }

    method Assistant(content: string)
      modifies this
      ensures messages == old(messages) + [TextMessage(Role.Assistant, content)]
    {
      Message(AssistantMessage(content));
    }

    /** `build`: the prompt holding the messages in insertion order. */
    function Build(): (p: Prompt)
      reads this
      ensures p.messages == messages
    {
      New(messages)
    }
  }

  /** The prompt of the chat example: a system instruction, then an image with a question from the user. */
  method ImageQuestionPrompt(instruction: string, url: string, question: string) returns (p: Prompt)
    ensures p.messages == [TextMessage(Role.System, instruction), MediaMessage(Role.User, [ImageUrl(url), Text(question)])]
  {
    var b := new PromptBuilder();
    b.System(instruction);
    var m := ImageQuestion(url, question);
    b.Message(m);
    p := b.Build();
  }
}
