/**
 * The request and response records of the client, reduced to the fields the client
 * itself reads or writes, and the message factories.
 */
module Models {
  import opened Wrappers

  const UserRole: string := "user"
  const SystemRole: string := "system"
  const AssistantRole: string := "assistant"

  /** A chat message: its text and the role of its author. */
  datatype Message = Message(content: string, role: string)

  /** A message built with no initialiser: empty content, authored by the user. */
  function DefaultMessage(): (m: Message)
    ensures m.content == [] && m.role == UserRole
  {
    Message("", "user")
  }

  function NewUserMessage(content: string): (m: Message)
    ensures m.content == content && m.role == UserRole
  {
    Message(content, "user")
  }

  function NewSystemMessage(content: string): (m: Message)
    ensures m.content == content && m.role == SystemRole
  {
    Message(content, "system")
  }

  function NewAssistantMessage(content: string): (m: Message)
    ensures m.content == content && m.role == AssistantRole
  {
    Message(content, "assistant")
  }

  /** The user factory applied to the empty text gives the default message. */
  lemma DefaultIsEmptyUserMessage()
    ensures DefaultMessage() == NewUserMessage("")
  {
  }

  /**
   * The three factories are inverted by reading the message back: every message is the
   * image of its own content under the factory of its role, and the three images never meet.
   */
  lemma FactoriesInvertedByFields(m: Message, a: string, b: string)
    ensures m.role == UserRole ==> m == NewUserMessage(m.content)
    ensures m.role == SystemRole ==> m == NewSystemMessage(m.content)
    ensures m.role == AssistantRole ==> m == NewAssistantMessage(m.content)
    ensures NewUserMessage(a) != NewSystemMessage(b)
    ensures NewUserMessage(a) != NewAssistantMessage(b)
    ensures NewSystemMessage(a) != NewAssistantMessage(b)
  {
  }

  /** One candidate of a response: a whole message, or a streaming delta, or completion text. */
  datatype Choice = Choice(
    index: int,
    finishReason: Option<string>,
    message: Option<Message>,
    delta: Option<Message>,
    text: string)

  /** A chat (or completion) response, reduced to its list of choices. */
  datatype ChatResponse = ChatResponse(choices: seq<Choice>)

  /** What the JSON deserialiser makes of a text: a record, the JSON literal `null`,
      or an exception for text that is not valid JSON for the record. */
  datatype Parsed<T> = Value(value: T) | JsonNull | Malformed

  /** A chat request; the client overwrites `stream` before every call. */
  class ChatRequest {
    var messages: seq<Message>
    var model: string
    var stream: bool

    constructor (messages: seq<Message>, model: string)
      ensures this.messages == messages && this.model == model && !stream
    {
      this.messages := messages;
      this.model := model;
      stream := false;
    }
  }

  /** A legacy completion request; the client overwrites `stream` before every call. */
  class CompletionRequest {
    var prompt: string
    var model: string
    var stream: bool

    constructor (prompt: string, model: string)
      ensures this.prompt == prompt && this.model == model && !stream
    {
      this.prompt := prompt;
      this.model := model;
      stream := false;
    }
  }
}
