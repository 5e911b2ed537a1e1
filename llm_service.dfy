/** backend/llm_service.py: `query_llm` relays one prompt and one message to
    a configured provider and turns the streamed reply into newline-ended
    JSON lines. */
module LlmService {
  import opened Common
  import opened Relay
  import opened Chat
  import Config
  import Text

  /** `{'type': 'json_object'}`, the only non-None `response_format`. */
  datatype ResponseFormat = JsonObject

  /** `{"role": "user", "content": c}`; `c` is None when no message was
      given. */
  datatype Message = UserTurn(content: Option<string>)

  /** The arguments of `client.chat.completions.create`. */
  datatype ChatRequest = ChatRequest(
    model: Value,
    messages: seq<Message>,
    stream: bool,
    responseFormat: Option<ResponseFormat>)

  /** The error tuples `query_llm` returns instead of a generator. */
  datatype QueryError =
    | ConfigNotFound     // 400: no (truthy) configuration for the name
    | ApiCallFailed      // 500: openai.OpenAIError
    | ConfigIncomplete   // 500: KeyError on a configuration key
    | UnknownError       // 500: any other exception

  function Status(e: QueryError): int
  {
    if e == ConfigNotFound then 400 else 500
  }

  datatype QueryResult = Streaming(lines: seq<string>) | Failed(error: QueryError)

  /** What the call did: the request it sent upstream, if it got that far,
      and what it returned. */
  datatype Outcome = Outcome(sent: Option<ChatRequest>, result: QueryResult)

  /** Lines 27-30: JSON mode when the prompt mentions `json`, unless the
      configuration sets `json_format` to exactly `false`. */
  function ResponseFormatFor(prompt: string, md: map<string, Value>): (r: Option<ResponseFormat>)
    ensures r == Some(JsonObject)
            <==> (exists i :: Text.OccursAt(prompt, "json", i)) && Get(md, "json_format") != Some(Bool(false))
    ensures Get(md, "json_format") == Some(Bool(false)) ==> r == None
  {
    Text.ContainsIff(prompt, "json");
    var byPrompt := if Text.Contains(prompt, "json") then Some(JsonObject) else None;
    if Get(md, "json_format") == Some(Bool(false)) then None else byPrompt
  }

  /** `json.dumps({"error": "流式生成过程中出错"}) + '\n'`, with the
      non-ASCII characters escaped as `json.dumps` does by default. */
  const ErrorLine: string :=
    "{\"error\": \"\\u6d41\\u5f0f\\u751f\\u6210\\u8fc7\\u7a0b\\u4e2d\\u51fa\\u9519\"}\n"

  /** One turn of the generator's loop: `chunk.choices[0].delta`, skipped
      when None, else one serialised line. */
  function LineStep(c: Chunk): Step<string, StreamError>
  {
    if c.choices == [] then Raise(IndexError)
    else if c.choices[0].delta.None? then Skip
    else Keep(c.choices[0].delta.value.dump + "\n")
  }

  function LineOnError(e: StreamError): string
  {
    ErrorLine
  }

  /** Everything the generator of lines 44-54 yields for a reply: the
      delta lines of the chunks before the first failure, followed by one
      error line exactly when a chunk or the iteration raised. */
  function Lines(s: ChatStream): (r: seq<string>)
    ensures var k := FirstRaise(s.chunks, LineStep);
            r == Kept(s.chunks[..k], LineStep)
                 + (if k < |s.chunks| || s.end.Broken? then [ErrorLine] else [])
  {
    StreamShape(s.chunks, s.end, LineStep, LineOnError);
    Stream(s.chunks, s.end, LineStep, LineOnError)
  }

  /** Failures in `query_llm` itself: OpenAIError is one message, the rest
      fall through to the generic handler. */
  function ErrorFor(e: UpstreamError): (r: QueryError)
    ensures r == (if e == NonApiError then UnknownError else ApiCallFailed)
  {
    match e
    case NonApiError => UnknownError
    case _ => ApiCallFailed
  }

  /** `query_llm(model_name, prompt, msg)` against the registry loaded at
      start-up; `upstream` is what building the client and sending the
      request give. A `None` prompt makes `'json' in prompt` raise; a
      configuration that is not a dict makes `md.get` raise. */
  function QueryLlm(reg: Config.Registry, modelName: string, prompt: Option<string>,
                    msg: Option<string>, upstream: Call<ChatStream>): (o: Outcome)
    ensures !TruthyOpt(Config.GetModelConfig(reg, modelName))
            ==> o == Outcome(None, Failed(ConfigNotFound))
    ensures o.result.Failed? && o.result.error == ConfigNotFound
            ==> !TruthyOpt(Config.GetModelConfig(reg, modelName))
    ensures o.sent.Some? ==>
              var md := Config.GetModelConfig(reg, modelName).value;
              && prompt.Some? && md.Object? && "model" in md.fields
              && o.sent.value == ChatRequest(md.fields["model"], [UserTurn(prompt), UserTurn(msg)],
                                             true, ResponseFormatFor(prompt.value, md.fields))
    ensures o.result.Streaming? <==> upstream.Returns? && o.sent.Some?
    ensures o.result.Streaming? ==> o.result.lines == Lines(upstream.value)
    ensures upstream.CallFails? && o.sent.Some? ==> o.result == Failed(ErrorFor(upstream.error))
    ensures var md := Config.GetModelConfig(reg, modelName);
            o.sent.Some? <==> TruthyOpt(md) && prompt.Some? && md.value.Object?
                              && "api_key" in md.value.fields && "base_url" in md.value.fields
                              && "model" in md.value.fields && !upstream.ClientFails?
    ensures var md := Config.GetModelConfig(reg, modelName);
            o.result == Failed(ConfigIncomplete)
            <==> TruthyOpt(md) && prompt.Some? && md.value.Object?
                 && ("api_key" !in md.value.fields || "base_url" !in md.value.fields
                     || ("model" !in md.value.fields && !upstream.ClientFails?))
    ensures var md := Config.GetModelConfig(reg, modelName);
            TruthyOpt(md) && prompt.Some? && md.value.Object?
            && "api_key" in md.value.fields && "base_url" in md.value.fields && upstream.ClientFails?
            ==> o == Outcome(None, Failed(ErrorFor(upstream.error)))
    ensures var md := Config.GetModelConfig(reg, modelName);
            TruthyOpt(md) && (prompt.None? || !md.value.Object?) ==> o == Outcome(None, Failed(UnknownError))
  {
    var md := Config.GetModelConfig(reg, modelName);
    if !TruthyOpt(md) then Outcome(None, Failed(ConfigNotFound))
    else if prompt.None? then Outcome(None, Failed(UnknownError))
    else if !md.value.Object? then Outcome(None, Failed(UnknownError))
    else
      var fields := md.value.fields;
      var format := ResponseFormatFor(prompt.value, fields);
      if "api_key" !in fields || "base_url" !in fields then Outcome(None, Failed(ConfigIncomplete))
      else if upstream.ClientFails? then Outcome(None, Failed(ErrorFor(upstream.error)))
      else if "model" !in fields then Outcome(None, Failed(ConfigIncomplete))
      else
        var request := ChatRequest(fields["model"], [UserTurn(prompt), UserTurn(msg)], true, format);
        match upstream
        case CallFails(e) => Outcome(Some(request), Failed(ErrorFor(e)))
        case Returns(s) => Outcome(Some(request), Streaming(Lines(s)))
  }

  /** The generator of lines 44-54, consuming the reply chunk by chunk. */
  method Generate(s: ChatStream) returns (lines: seq<string>)
    ensures lines == Lines(s)
  {
    lines := [];
    var i := 0;
    while i < |s.chunks|
      invariant 0 <= i <= |s.chunks|
      invariant NoRaise(s.chunks[..i], LineStep)
      invariant lines == Kept(s.chunks[..i], LineStep)
    {
      var chunk := s.chunks[i];
      if chunk.choices == [] {
        lines := lines + [ErrorLine];
        FirstRaiseExact(s.chunks, LineStep, i);
        StreamShape(s.chunks, s.end, LineStep, LineOnError);
        return;
      }
      var delta := chunk.choices[0].delta;
      if delta.Some? {
        lines := lines + [delta.value.dump + "\n"];
      }
      assert s.chunks[..i + 1] == s.chunks[..i] + [chunk];
      KeptAppend(s.chunks[..i], [chunk], LineStep);
      assert [chunk][1..] == [];
      i := i + 1;
    }
    if s.end.Broken? {
      lines := lines + [ErrorLine];
    }
    assert s.chunks[..i] == s.chunks;
    FirstRaiseExact(s.chunks, LineStep, i);
    StreamShape(s.chunks, s.end, LineStep, LineOnError);
  }

  /** Nothing dropped or reordered: the line of each chunk that carries a
      delta, before any failure, stands at the position given by the number
      of such chunks before it. */
  lemma LineOfChunk(s: ChatStream, j: nat)
    requires j < FirstRaise(s.chunks, LineStep)
    requires s.chunks[j].choices[0].delta.Some?
    ensures KeptCount(s.chunks[..j], LineStep) < |Lines(s)|
    ensures Lines(s)[KeptCount(s.chunks[..j], LineStep)] == s.chunks[j].choices[0].delta.value.dump + "\n"
  {
    var k := FirstRaise(s.chunks, LineStep);
    assert s.chunks[..k][j] == s.chunks[j];
    assert s.chunks[..k][..j] == s.chunks[..j];
    KeptAt(s.chunks[..k], LineStep, j);
  }

  /** Nothing duplicated or invented: every line before the terminal one is
      the serialised delta of exactly one chunk. */
  lemma ChunkOfLine(s: ChatStream, i: nat)
    requires i < KeptCount(s.chunks[..FirstRaise(s.chunks, LineStep)], LineStep)
    ensures exists j :: 0 <= j < FirstRaise(s.chunks, LineStep)
                        && KeptCount(s.chunks[..j], LineStep) == i
                        && s.chunks[j].choices[0].delta.Some?
                        && Lines(s)[i] == s.chunks[j].choices[0].delta.value.dump + "\n"
  {
    var k := FirstRaise(s.chunks, LineStep);
    KeptFrom(s.chunks[..k], LineStep, i);
    var j :| 0 <= j < k && KeptCount(s.chunks[..k][..j], LineStep) == i
             && LineStep(s.chunks[..k][j]) == Keep(Kept(s.chunks[..k], LineStep)[i]);
    assert s.chunks[..k][..j] == s.chunks[..j];
    assert s.chunks[..k][j] == s.chunks[j];
  }

  /** A reply that breaks off after some chunks yields the lines of those
      chunks and then exactly one error line. */
  lemma BrokenStreamAddsOneErrorLine(chunks: seq<Chunk>, e: StreamError)
    requires NoRaise(chunks, LineStep)
    ensures Lines(ChatStream(chunks, Broken(e))) == Lines(ChatStream(chunks, Completed)) + [ErrorLine]
  {
    StreamBroken(chunks, e, LineStep, LineOnError);
  }

  /** Every failure before the stream starts is an error tuple with status
      500, except a missing configuration, which is 400. */
  lemma EarlyFailuresAre500(reg: Config.Registry, modelName: string, prompt: Option<string>,
                            msg: Option<string>, upstream: Call<ChatStream>)
    requires TruthyOpt(Config.GetModelConfig(reg, modelName))
    requires QueryLlm(reg, modelName, prompt, msg, upstream).result.Failed?
    ensures Status(QueryLlm(reg, modelName, prompt, msg, upstream).result.error) == 500
  {
  }
}
