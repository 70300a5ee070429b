/** `deserialize_prompt`: choosing the template variant from the document's
    `type` tag. The YAML text is taken as already decoded into a `Document`
    whose keys each record whether they were absent, decoded, or present in
    a shape the variant cannot accept. */
module Dispatch {
  import opened Wrappers
  import opened Parameters
  import opened Templates

  /** One key of a decoded document, read against the shape the variant
      expects for it. */
  datatype Field<T> = Absent | Present(value: T) | Mistyped

  /** A decoded document. The `examples` key is read twice: as example
      columns (the completion shape) and as exchanges (the chat shape). */
  datatype Document = Document(
    promptType: Field<string>,
    vendor: Field<string>,
    model: Field<string>,
    prompt: Field<string>,
    parameters: Field<seq<Parameter>>,
    columns: Field<seq<CompletionExampleColumn>>,
    exchanges: Field<seq<ChatExample>>,
    context: Field<string>,
    messages: Field<seq<Message>>)

  /** Why a document is rejected where `deserialize_prompt` panics in `unwrap()`. */
  datatype ParseError =
    | MalformedDocument
    | SchemaMismatch(variant: string)

  /** An optional key: absent is `None`, a badly shaped value is an error
      (the outer `None`). */
  function Optional<T>(f: Field<T>): (r: Option<Option<T>>)
    ensures r.None? <==> f.Mistyped?
    ensures f.Absent? ==> r == Some(None)
    ensures f.Present? ==> r == Some(Some(f.value))
  {
    match f
    case Absent => Some(None)
    case Present(v) => Some(Some(v))
    case Mistyped => None
  }

  /** The document satisfies the completion schema. */
  predicate FitsCompletion(d: Document) {
    && d.vendor.Present? && d.model.Present? && d.prompt.Present?
    && !d.parameters.Mistyped? && !d.columns.Mistyped?
  }

  /** The document satisfies the chat schema. */
  predicate FitsChat(d: Document) {
    && d.vendor.Present? && d.model.Present?
    && !d.parameters.Mistyped? && !d.exchanges.Mistyped?
    && !d.context.Mistyped? && !d.messages.Mistyped?
  }

  /** Decoding the whole document as a completion template. */
  function DecodeCompletion(d: Document, tag: string): (r: Option<Completion>)
    ensures r.Some? <==> FitsCompletion(d)
    ensures r.Some? ==> r.value.promptType == tag
  {
    if FitsCompletion(d) then
      Some(Completion(tag, d.vendor.value, d.model.value, d.prompt.value,
                      Optional(d.parameters).value, Optional(d.columns).value))
    else None
  }

  /** Decoding the whole document as a chat template. */
  function DecodeChat(d: Document, tag: string): (r: Option<Chat>)
    ensures r.Some? <==> FitsChat(d)
    ensures r.Some? ==> r.value.promptType == tag
  {
    if FitsChat(d) then
      Some(Chat(tag, d.vendor.value, d.model.value, Optional(d.parameters).value,
                Optional(d.exchanges).value, Optional(d.context).value, Optional(d.messages).value))
    else None
  }

  /** `deserialize_prompt`: read the `type` tag, then decode the document as
      a completion for "completion", as a chat for "chat", and yield
      `Unknown` for any other tag. A missing tag, or a known tag whose schema
      the document does not meet, is an error. */
  function DeserializePrompt(d: Document): (r: Result<Prompt, ParseError>)
    ensures r == Failure(MalformedDocument) <==> !d.promptType.Present?
    ensures r == Success(Unknown) <==>
      d.promptType.Present? && d.promptType.value != "completion" && d.promptType.value != "chat"
    ensures r.Success? && r.value.CompletionPrompt? <==>
      d.promptType == Present("completion") && FitsCompletion(d)
    ensures r.Success? && r.value.ChatPrompt? <==>
      d.promptType == Present("chat") && FitsChat(d)
    ensures r.Failure? && r.error.SchemaMismatch? ==>
      r.error.variant == d.promptType.value &&
      (r.error.variant == "completion" || r.error.variant == "chat")
    ensures r.Success? && r.value.CompletionPrompt? ==>
      var c := r.value.completion;
      c.promptType == "completion" && d.vendor == Present(c.vendor) && d.model == Present(c.model)
      && d.prompt == Present(c.prompt)
      && Optional(d.parameters) == Some(c.parameters) && Optional(d.columns) == Some(c.examples)
    ensures r.Success? && r.value.ChatPrompt? ==>
      var ch := r.value.chat;
      ch.promptType == "chat" && d.vendor == Present(ch.vendor) && d.model == Present(ch.model)
      && Optional(d.parameters) == Some(ch.parameters) && Optional(d.exchanges) == Some(ch.examples)
      && Optional(d.context) == Some(ch.context) && Optional(d.messages) == Some(ch.messages)
  {
    match d.promptType
    case Present(tag) =>
      if tag == "completion" then
        match DecodeCompletion(d, tag)
        case Some(c) => Success(CompletionPrompt(c))
        case None => Failure(SchemaMismatch(tag))
      else if tag == "chat" then
        match DecodeChat(d, tag)
        case Some(ch) => Success(ChatPrompt(ch))
        case None => Failure(SchemaMismatch(tag))
      else Success(Unknown)
    case _ => Failure(MalformedDocument)
  }

  /** An optional value written back as a document key. */
  function ToField<T>(o: Option<T>): (f: Field<T>)
    ensures Optional(f) == Some(o)
  {
    match o
    case None => Absent
    case Some(v) => Present(v)
  }

  /** The document a template is loaded from: each field under its key,
      optional fields left out when absent. `Unknown` is written with the tag
      "unknown" and nothing else. */
  function ToDocument(p: Prompt): Document {
    match p
    case CompletionPrompt(c) =>
      Document(Present(c.promptType), Present(c.vendor), Present(c.model), Present(c.prompt),
               ToField(c.parameters), ToField(c.examples), Absent, Absent, Absent)
    case ChatPrompt(ch) =>
      Document(Present(ch.promptType), Present(ch.vendor), Present(ch.model), Absent,
               ToField(ch.parameters), Absent, ToField(ch.examples), ToField(ch.context), ToField(ch.messages))
    case Unknown =>
      Document(Present("unknown"), Absent, Absent, Absent, Absent, Absent, Absent, Absent, Absent)
  }

  /** A template carries the tag of its own kind. */
  predicate WellTagged(p: Prompt) {
    match p
    case CompletionPrompt(c) => c.promptType == "completion"
    case ChatPrompt(ch) => ch.promptType == "chat"
    case Unknown => true
  }

  /** Loading the document of a template gives that template back, field
      for field, with parameter, column, example and message lists intact. */
  lemma RoundTrip(p: Prompt)
    requires WellTagged(p)
    ensures DeserializePrompt(ToDocument(p)) == Success(p)
  {
  }

  /** Whatever loads successfully carries the tag of its kind and is
      reproduced exactly by writing it back and loading again. */
  lemma LoadedIsWellTagged(d: Document)
    requires DeserializePrompt(d).Success?
    ensures WellTagged(DeserializePrompt(d).value)
    ensures DeserializePrompt(ToDocument(DeserializePrompt(d).value)) == DeserializePrompt(d)
  {
  }

  /** A tag this library does not know never fails, whatever else the
      document holds. */
  lemma UnknownTagNeverFails(d: Document, d': Document)
    requires d.promptType.Present? && d.promptType.value != "completion" && d.promptType.value != "chat"
    requires d'.promptType == d.promptType
    ensures DeserializePrompt(d) == DeserializePrompt(d') == Success(Unknown)
  {
  }
}
