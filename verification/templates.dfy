/** The in-memory prompt templates: a completion template with its example
    table, a chat template, and the three-way `Prompt` sum. */
module Templates {
  import opened Wrappers
  import opened Parameters

  /** One named column of a completion template's example table: its
      example values, one per row, and an optional value for the test row. */
  datatype CompletionExampleColumn = CompletionExampleColumn(name: string, values: seq<string>, test: Option<string>)

  /** One input/output exchange used to prime a chat model. */
  datatype ChatExample = ChatExample(input: string, output: Option<string>)

  /** One turn of the conversation of a chat template. */
  datatype Message = Message(input: string, output: Option<string>)

  /** A completion template. `promptType` is the document's `type` tag. */
  datatype Completion = Completion(
    promptType: string,
    vendor: string,
    model: string,
    prompt: string,
    parameters: Option<seq<Parameter>>,
    examples: Option<seq<CompletionExampleColumn>>)
  {
    function FindParameterAsI32(name: string): Result<Option<int>, Fault> {
      ParamAsI32(parameters, name)
    }

    function FindParameterAsF32(name: string): Result<Option<real>, Fault> {
      ParamAsF32(parameters, name)
    }

    function FindParameterAsStr(name: string): Result<Option<string>, Fault> {
      ParamAsStr(parameters, name)
    }

    function FindParameterAsBool(name: string): Result<Option<bool>, Fault> {
      ParamAsBool(parameters, name)
    }
  }

  /** A chat template; unlike a completion it has no base prompt. */
  datatype Chat = Chat(
    promptType: string,
    vendor: string,
    model: string,
    parameters: Option<seq<Parameter>>,
    examples: Option<seq<ChatExample>>,
    context: Option<string>,
    messages: Option<seq<Message>>)
  {
    function FindParameterAsI32(name: string): Result<Option<int>, Fault> {
      ParamAsI32(parameters, name)
    }

    function FindParameterAsF32(name: string): Result<Option<real>, Fault> {
      ParamAsF32(parameters, name)
    }

    function FindParameterAsStr(name: string): Result<Option<string>, Fault> {
      ParamAsStr(parameters, name)
    }

    function FindParameterAsBool(name: string): Result<Option<bool>, Fault> {
      ParamAsBool(parameters, name)
    }
  }

  /** A loaded template: a completion, a chat, or a kind this library does
      not know (which carries nothing). */
  datatype Prompt = CompletionPrompt(completion: Completion) | ChatPrompt(chat: Chat) | Unknown

  /** A completion and a chat holding the same parameter list answer every
      typed lookup identically. */
  lemma AccessorsAgree(c: Completion, ch: Chat, name: string)
    requires c.parameters == ch.parameters
    ensures c.FindParameterAsI32(name) == ch.FindParameterAsI32(name)
    ensures c.FindParameterAsF32(name) == ch.FindParameterAsF32(name)
    ensures c.FindParameterAsStr(name) == ch.FindParameterAsStr(name)
    ensures c.FindParameterAsBool(name) == ch.FindParameterAsBool(name)
  {
  }
}
