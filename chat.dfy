/** What the services see of the upstream chat-completion API: the chunks
    of a streamed reply and the upstream's failure kinds. The client library
    itself is not modelled; a call is represented by its outcome. */
module Chat {
  import opened Common
  import opened Relay

  /** `chunk.choices[i].delta`: its text, and `json.dumps(delta.model_dump())`,
      the serialised form of the whole delta object. */
  datatype Delta = Delta(content: Option<string>, dump: string)

  datatype Choice = Choice(delta: Option<Delta>)

  datatype Chunk = Chunk(choices: seq<Choice>)

  /** An exception raised while a generator consumes the upstream reply. */
  datatype StreamError =
    | IndexError                     // `chunk.choices[0]` on an empty list
    | NoneDelta                      // `.content` of a `None` delta
    | Interrupted(message: string)   // iterating the upstream response raised

  /** `str(e)` for each of them. */
  function Describe(e: StreamError): string
  {
    match e
    case IndexError => "list index out of range"
    case NoneDelta => "'NoneType' object has no attribute 'content'"
    case Interrupted(m) => m
  }

  /** A streamed reply: the chunks received, then how iteration ended. */
  datatype ChatStream = ChatStream(chunks: seq<Chunk>, end: End<StreamError>)

  /** The exceptions the upstream client raises, most specific first. */
  datatype UpstreamError =
    | ConnectionFailed        // openai.APIConnectionError
    | RateLimited             // openai.RateLimitError
    | StatusError(code: int)  // any other openai.APIStatusError
    | OtherApiError           // any other openai.OpenAIError
    | NonApiError             // an exception outside openai's hierarchy

  /** Outcome of one upstream request: building the client raised, the
      request raised, or it returned a value. */
  datatype Call<+T> = ClientFails(error: UpstreamError) | CallFails(error: UpstreamError) | Returns(value: T)
}
