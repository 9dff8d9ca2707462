/** Values that flow through the request handler: the JSON-like metadata
    dictionary, the refusal reasons, the answers of the two external generative
    services, and the record of which services one request consulted. */
module Types {

  /** A JSON value as `json.loads` produces it. */
  datatype Json =
    | Null
    | Bool(b: bool)
    | Num(n: int)
    | Str(s: string)
    | Arr(items: seq<Json>)
    | Obj(fields: map<string, Json>)

  /** A Python dict with string keys: the metadata dictionary. */
  type Dict = map<string, Json>

  /** The machine-readable refusal reasons a caller can receive. */
  datatype Reason =
    | PromptSizeInvalid
    | PromptGibberishNotAllowed
    | PromptRefusedViolence
    | TechnicalError

  /** The wire spelling of each reason. */
  function ReasonCode(reason: Reason): string {
    match reason
    case PromptSizeInvalid => "PROMPT_SIZE_INVALID"
    case PromptGibberishNotAllowed => "PROMPT_GIBBERISH_NOT_ALLOWED"
    case PromptRefusedViolence => "PROMPT_REFUSED_VIOLENCE"
    case TechnicalError => "TECHNICAL_ERROR"
  }

  /** Distinct reasons are spelled differently, so a caller can tell them apart. */
  lemma ReasonCodeIsInjective(a: Reason, b: Reason)
    requires ReasonCode(a) == ReasonCode(b)
    ensures a == b
  {
  }

  /** The body `{"status": "refused", "reason": <code>}`. */
  function Refusal(reason: Reason): Dict {
    map["status" := Str("refused"), "reason" := Str(ReasonCode(reason))]
  }

  ghost predicate IsRefusal(d: Dict) {
    exists reason :: d == Refusal(reason)
  }

  /** An exception that escapes the endpoint; the framework then answers with a
      server error instead of a metadata body. */
  datatype Fault =
    | MalformedJson              // json.loads rejects the chat model's text
    | NotAnObject                // the parsed reply is not a JSON object
    | MissingKey(key: string)    // KeyError on `d[key]`
    | NotAString(key: string)    // `d[key].lower()` on a value that is not a str

  /** What the endpoint answers: a body, or an unhandled exception. */
  datatype Response = Body(payload: Dict) | Unhandled(fault: Fault)

  /** What `json.loads` makes of the chat model's reply text. `Malformed` also
      stands for a chat call that raises, or a reply without content. */
  datatype ChatReply = Parsed(data: Json) | Malformed

  /** The chat model, asked about the cleaned prompt and the allowed themes. */
  type ChatService = (string, seq<string>) -> ChatReply

  /** The image call, from the request to the end of the file write: either it
      completes, or it raises an exception with a message. */
  datatype RenderResult = Rendered | Raised(message: string)

  /** The image model, given the visual description to put in its template. */
  type RenderService = Json -> RenderResult

  /** One call to an external service. */
  datatype Call = AskChat(prompt: string, themes: seq<string>) | AskImage(description: Json)

  /** A result together with the external calls made to compute it, in order. */
  datatype Traced<T> = Traced(value: T, calls: seq<Call>)
}
