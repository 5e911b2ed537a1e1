/** backend/audio_service.py: the decisions of the audio workflow. The audio
    folder, the clock and the upstream model are not modelled; each function
    takes what they would report as a parameter (whether a file is present,
    what a read attempt finds, what the upstream call does). */
module AudioService {
  import opened Common
  import opened Relay
  import opened Chat
  import opened Text
  import opened Fence

  /** The error replies of the workflow, each with the message it names. */
  datatype AudioError =
    | MissingFileHash        // "缺少文件哈希参数"
    | MissingFilePart        // "缺少文件部分"
    | MissingObjectName      // "缺少 object_name 参数"
    | NoFileSelected         // "未选择文件"
    | SaveFailed             // "保存文件失败: ..."
    | Unreadable             // "无法读取本地文件: ... (尝试3次后失败)"
    | InvalidModel           // "无效的模型名称: ..."
    | AudioPromptUnreadable  // "读取音频提示失败: ..."
    | Upstream(raised: Raised)
    | MissingTranscription   // "缺少 transcription_text 参数"
    | ModelConfigNotFound    // "模型配置未找到: ..."
    | ReportPromptMissing    // "举报提示文件未找到"
    | ApiCallFailed          // "AI模型API调用失败"
    | InvalidJson(rawResponse: string)  // "模型未返回有效JSON", with the text that failed to parse
    | AnalysisFailed         // "分析举报信息失败: ..."

  /** A response body with status 200, or an error body with its status. */
  datatype Reply<+T> = Ok(body: T) | Fail(status: int, error: AudioError)

  /** Python's `not x` is false for a request parameter: given and non-empty. */
  predicate Given(x: Option<string>)
  {
    x.Some? && x.value != ""
  }

  // ---------------------------------------------------------------- names

  /** Lines 20-26: the extension chosen for an upload from its content type. */
  function ExtensionFor(contentType: string): (ext: string)
    ensures ext == ".wav" <==> '/' in contentType && AfterLast(contentType, '/') == "wav"
    ensures ext == ".ogg" <==> '/' in contentType && AfterLast(contentType, '/') == "ogg"
    ensures ext == ".aac" <==> '/' in contentType && AfterLast(contentType, '/') == "aac"
    ensures ext == ".mp3" <==> !('/' in contentType && AfterLast(contentType, '/') in {"wav", "ogg", "aac"})
  {
    if '/' in contentType then
      var suffix := AfterLast(contentType, '/');
      if suffix == "wav" then ".wav"
      else if suffix == "ogg" then ".ogg"
      else if suffix == "aac" then ".aac"
      else ".mp3"
    else ".mp3"
  }

  /** The extension depends on nothing but the text after the last `/`:
      only the prefix before it varies. */
  lemma ExtensionBySuffix(suffix: string, prefixA: string, prefixB: string)
    requires '/' !in suffix
    ensures ExtensionFor(prefixA + "/" + suffix) == ExtensionFor(prefixB + "/" + suffix)
  {
    AfterLastJoin(prefixA, '/', suffix);
    AfterLastJoin(prefixB, '/', suffix);
    assert prefixA + "/" + suffix == prefixA + ['/'] + suffix;
    assert prefixB + "/" + suffix == prefixB + ['/'] + suffix;
    assert (prefixA + ['/'] + suffix)[|prefixA|] == '/';
    assert (prefixB + ['/'] + suffix)[|prefixB|] == '/';
  }

  /** Line 161: the audio format named after the text following the last
      `.`, lower-cased, or `mp3` for a name without a `.`. */
  function AudioFormat(objectName: string): (f: string)
    ensures '.' !in objectName ==> f == "mp3"
    ensures '.' in objectName ==> f == Lower(AfterLast(objectName, '.'))
  {
    if '.' in objectName then Lower(AfterLast(objectName, '.')) else "mp3"
  }

  /** Any suffix is taken as the format, known or not. */
  lemma AudioFormatOfSuffix(stem: string, suffix: string)
    requires '.' !in suffix
    ensures AudioFormat(stem + "." + suffix) == Lower(suffix)
  {
    assert stem + "." + suffix == stem + ['.'] + suffix;
    assert (stem + ['.'] + suffix)[|stem|] == '.';
    AfterLastJoin(stem, '.', suffix);
  }

  /** Lines 297-303: MIME type of a lower-cased extension. */
  function MimeFor(ext: string): (mime: string)
    ensures ext == ".mp3" ==> mime == "audio/mpeg"
    ensures ext == ".wav" ==> mime == "audio/wav"
    ensures ext == ".ogg" ==> mime == "audio/ogg"
    ensures ext == ".aac" ==> mime == "audio/aac"
    ensures ext !in {".mp3", ".wav", ".ogg", ".aac"} ==> mime == "application/octet-stream"
  {
    if ext == ".mp3" then "audio/mpeg"
    else if ext == ".wav" then "audio/wav"
    else if ext == ".ogg" then "audio/ogg"
    else if ext == ".aac" then "audio/aac"
    else "application/octet-stream"
  }

  // ------------------------------------------------------- status, upload

  datatype FileStatus = Exists | New

  datatype StatusBody = StatusBody(status: FileStatus, objectName: string)

  /** `check_audio_file_status`: `present` is what `os.path.exists` reports
      for the computed name. */
  function CheckAudioFileStatus(contentType: string, fileHash: Option<string>, present: bool): (r: Reply<StatusBody>)
    ensures !Given(fileHash) <==> r == Fail(400, MissingFileHash)
    ensures Given(fileHash) ==>
              r == Ok(StatusBody(if present then Exists else New, fileHash.value + ExtensionFor(contentType)))
  {
    if !Given(fileHash) then Fail(400, MissingFileHash)
    else
      var objectName := fileHash.value + ExtensionFor(contentType);
      if present then Ok(StatusBody(Exists, objectName)) else Ok(StatusBody(New, objectName))
  }

  /** The "exists" and "new" answers differ only in their status, and the
      file system is not consulted for a missing hash. */
  lemma StatusOnlyDependsOnPresence(contentType: string, fileHash: Option<string>)
    ensures var yes := CheckAudioFileStatus(contentType, fileHash, true);
            var no := CheckAudioFileStatus(contentType, fileHash, false);
            && (yes.Ok? <==> no.Ok?)
            && (yes.Fail? ==> yes == no)
            && (yes.Ok? ==> yes.body.objectName == no.body.objectName
                            && yes.body.status == Exists && no.body.status == New)
  {
  }

  /** The uploaded part of a multipart request. */
  datatype Upload = Upload(filename: string, data: seq<byte>)

  /** What `save_uploaded_audio` answered, and the name it called
      `file.save` for, if it got that far. */
  datatype UploadResult = UploadResult(reply: Reply<string>, savedAs: Option<string>)

  /** `not file` is false for an upload whose file name is non-empty: the
      upload object's truth value is that of its file name (werkzeug's
      `FileStorage.__bool__`; werkzeug is not part of this model). */
  predicate UploadGiven(file: Option<Upload>)
  {
    file.Some? && file.value.filename != ""
  }

  /** `save_uploaded_audio`: three checks in order, then one save, which
      `saveSucceeds` says whether it raised. Since an upload with an empty
      file name already fails the first check, the third one (lines 54-55)
      never answers. */
  function SaveUploadedAudio(file: Option<Upload>, objectName: Option<string>, saveSucceeds: bool): (r: UploadResult)
    ensures !UploadGiven(file) ==> r == UploadResult(Fail(400, MissingFilePart), None)
    ensures UploadGiven(file) && !Given(objectName) ==> r == UploadResult(Fail(400, MissingObjectName), None)
    ensures r.reply != Fail(400, NoFileSelected)
    ensures r.savedAs.Some? <==> UploadGiven(file) && Given(objectName)
    ensures r.savedAs.Some? ==> r.savedAs == Some(objectName.value)
                                && r.reply == (if saveSucceeds then Ok(objectName.value) else Fail(500, SaveFailed))
  {
    if !UploadGiven(file) then UploadResult(Fail(400, MissingFilePart), None)
    else if !Given(objectName) then UploadResult(Fail(400, MissingObjectName), None)
    else if file.value.filename == "" then UploadResult(Fail(400, NoFileSelected), None)
    else if saveSucceeds then UploadResult(Ok(objectName.value), Some(objectName.value))
    else UploadResult(Fail(500, SaveFailed), Some(objectName.value))
  }

  // ------------------------------------------------------ reading, retries

  /** What one attempt to read a stored audio file finds. */
  datatype ReadOutcome =
    | NotPresent          // os.path.exists is false
    | PermissionDenied    // PermissionError
    | ReadError           // any other exception
    | Readable(data: seq<byte>)

  const MaxAttempts: nat := 3

  /** The wait after failed attempt `k` (counted from 0), in milliseconds:
      `time.sleep(0.2 * (attempt + 1))`. */
  function BackoffMillis(k: nat): nat
  {
    200 * (k + 1)
  }

  /** The first of the attempts `k`, `k + 1`, … below three that finds the
      file readable. */
  function FirstReadable(observe: nat -> ReadOutcome, k: nat): (r: Option<nat>)
    requires k <= MaxAttempts
    ensures r.Some? ==> k <= r.value < MaxAttempts && observe(r.value).Readable?
    ensures r.Some? ==> forall m :: k <= m < r.value ==> !observe(m).Readable?
    ensures r.None? ==> forall m :: k <= m < MaxAttempts ==> !observe(m).Readable?
    decreases MaxAttempts - k
  {
    if k == MaxAttempts then None
    else if observe(k).Readable? then Some(k)
    else FirstReadable(observe, k + 1)
  }

  /** Lines 135-153: up to three read attempts, waiting after each failed
      one and stopping at the first that succeeds. `observe(k)` is what
      attempt `k` finds. */
  method ReadWithRetry(observe: nat -> ReadOutcome) returns (content: Option<seq<byte>>, attempts: nat, waits: seq<nat>)
    ensures attempts <= MaxAttempts
    ensures var first := FirstReadable(observe, 0);
            && (first.Some? ==> content == Some(observe(first.value).data) && attempts == first.value + 1
                                && |waits| == first.value)
            && (first.None? ==> content.None? && attempts == MaxAttempts && |waits| == MaxAttempts)
    ensures forall k :: 0 <= k < |waits| ==> waits[k] == BackoffMillis(k)
  {
    content, attempts, waits := None, 0, [];
    for attempt := 0 to MaxAttempts
      invariant attempts == attempt && |waits| == attempt && content.None?
      invariant forall k :: 0 <= k < attempt ==> !observe(k).Readable? && waits[k] == BackoffMillis(k)
    {
      attempts := attempts + 1;
      var found := observe(attempt);
      match found
      case Readable(data) =>
        content := Some(data);
        return;
      case _ =>
        waits := waits + [BackoffMillis(attempt)];
    }
  }

  // ----------------------------------------------------------- transcribe

  /** The exceptions `_process_audio_with_ai` raises. */
  datatype Raised = ConnectionErr | ValueErr | RuntimeErr

  /** Lines 113-126: a connection failure becomes ConnectionError, a rate
      limit ValueError, every other failure RuntimeError. */
  function RaisedFor(e: UpstreamError): (x: Raised)
    ensures x == ConnectionErr <==> e == ConnectionFailed
    ensures x == ValueErr <==> e == RateLimited
    ensures x == RuntimeErr <==> e != ConnectionFailed && e != RateLimited
  {
    match e
    case ConnectionFailed => ConnectionErr
    case RateLimited => ValueErr
    case _ => RuntimeErr
  }

  /** Lines 186-190: 503 for ConnectionError, 429 for ValueError, 500 for
      RuntimeError. */
  function StatusFor(x: Raised): (status: int)
    ensures status == 503 <==> x == ConnectionErr
    ensures status == 429 <==> x == ValueErr
    ensures status == 500 <==> x == RuntimeErr
  {
    match x
    case ConnectionErr => 503
    case ValueErr => 429
    case RuntimeErr => 500
  }

  /** The upstream failure kinds reach the caller as 503, 429 or 500. */
  lemma UpstreamStatusTable(e: UpstreamError)
    ensures StatusFor(RaisedFor(e)) == 503 <==> e == ConnectionFailed
    ensures StatusFor(RaisedFor(e)) == 429 <==> e == RateLimited
    ensures StatusFor(RaisedFor(e)) == 500 <==> e != ConnectionFailed && e != RateLimited
  {
  }

  /** The single user turn sent for a transcription: an `input_audio` part
      (the file's bytes, base64-encoded on the wire, and its format) and a
      text part. */
  datatype AudioRequest = AudioRequest(model: Value, audio: seq<byte>, format: string, prompt: string)

  datatype Processed = Opened(request: AudioRequest, reply: ChatStream) | RaisedErr(raised: Raised)

  /** `_process_audio_with_ai`: a configuration that is not a dict or lacks
      a key fails inside the `try` and is re-raised as RuntimeError. */
  function ProcessAudio(md: Value, audio: seq<byte>, format: string, prompt: string,
                        upstream: Call<ChatStream>): (r: Processed)
    ensures r.Opened? <==> (upstream.Returns? && md.Object? && "api_key" in md.fields
                            && "base_url" in md.fields && "model" in md.fields)
    ensures r.Opened? ==> r == Opened(AudioRequest(md.fields["model"], audio, format, prompt), upstream.value)
    ensures (!md.Object? || "api_key" !in md.fields || "base_url" !in md.fields) ==> r == RaisedErr(RuntimeErr)
    ensures md.Object? && "api_key" in md.fields && "base_url" in md.fields
            && (upstream.ClientFails? || ("model" in md.fields && upstream.CallFails?))
            ==> r == RaisedErr(RaisedFor(upstream.error))
    ensures md.Object? && "model" !in md.fields && !upstream.ClientFails? ==> r == RaisedErr(RuntimeErr)
  {
    if !md.Object? || "api_key" !in md.fields || "base_url" !in md.fields then RaisedErr(RuntimeErr)
    else if upstream.ClientFails? then RaisedErr(RaisedFor(upstream.error))
    else if "model" !in md.fields then RaisedErr(RuntimeErr)
    else
      match upstream
      case CallFails(e) => RaisedErr(RaisedFor(e))
      case Returns(s) => Opened(AudioRequest(md.fields["model"], audio, format, prompt), s)
  }

  /** One turn of the generator of lines 98-109. */
  function FragmentStep(c: Chunk): Step<string, StreamError>
  {
    if c.choices == [] then Raise(IndexError)
    else if c.choices[0].delta.None? then Raise(NoneDelta)
    else
      var content := c.choices[0].delta.value.content;
      if content.Some? && content.value != "" then Keep(content.value) else Skip
  }

  function FragmentOnError(e: StreamError): string
  {
    "Error in stream: " + Describe(e)
  }

  /** The transcript fragments forwarded for a reply: every non-empty
      `delta.content` before the first failure, then one error fragment if
      a chunk or the iteration raised. */
  function Fragments(s: ChatStream): (r: seq<string>)
    ensures var k := FirstRaise(s.chunks, FragmentStep);
            r == Kept(s.chunks[..k], FragmentStep)
                 + (if k < |s.chunks| then [FragmentOnError(FragmentStep(s.chunks[k]).error)]
                    else if s.end.Broken? then [FragmentOnError(s.end.error)]
                    else [])
  {
    StreamShape(s.chunks, s.end, FragmentStep, FragmentOnError);
    Stream(s.chunks, s.end, FragmentStep, FragmentOnError)
  }

  /** The generator itself, consuming the reply chunk by chunk. */
  method GenerateTranscript(s: ChatStream) returns (fragments: seq<string>)
    ensures fragments == Fragments(s)
  {
    fragments := [];
    var i := 0;
    while i < |s.chunks|
      invariant 0 <= i <= |s.chunks|
      invariant NoRaise(s.chunks[..i], FragmentStep)
      invariant fragments == Kept(s.chunks[..i], FragmentStep)
    {
      var chunk := s.chunks[i];
      if chunk.choices == [] {
        fragments := fragments + ["Error in stream: " + Describe(IndexError)];
        FirstRaiseExact(s.chunks, FragmentStep, i);
        return;
      }
      var delta := chunk.choices[0].delta;
      if delta.None? {
        fragments := fragments + ["Error in stream: " + Describe(NoneDelta)];
        FirstRaiseExact(s.chunks, FragmentStep, i);
        return;
      }
      var content := delta.value.content;
      if content.Some? && content.value != "" {
        fragments := fragments + [content.value];
      }
      assert s.chunks[..i + 1] == s.chunks[..i] + [chunk];
      KeptAppend(s.chunks[..i], [chunk], FragmentStep);
      assert [chunk][1..] == [];
      i := i + 1;
    }
    if s.end.Broken? {
      fragments := fragments + ["Error in stream: " + Describe(s.end.error)];
    }
    assert s.chunks[..i] == s.chunks;
    FirstRaiseExact(s.chunks, FragmentStep, i);
  }

  /** Each non-empty `delta.content` before a failure is forwarded once, at
      the position given by the number of such chunks before it. */
  lemma FragmentOfChunk(s: ChatStream, j: nat)
    requires j < FirstRaise(s.chunks, FragmentStep)
    requires FragmentStep(s.chunks[j]).Keep?
    ensures KeptCount(s.chunks[..j], FragmentStep) < |Fragments(s)|
    ensures Fragments(s)[KeptCount(s.chunks[..j], FragmentStep)] == s.chunks[j].choices[0].delta.value.content.value
  {
    var k := FirstRaise(s.chunks, FragmentStep);
    assert s.chunks[..k][j] == s.chunks[j];
    assert s.chunks[..k][..j] == s.chunks[..j];
    KeptAt(s.chunks[..k], FragmentStep, j);
  }

  /** A stream that breaks off after some chunks forwards their fragments,
      then exactly one error fragment. */
  lemma BrokenTranscriptAddsOneFragment(chunks: seq<Chunk>, message: string)
    requires NoRaise(chunks, FragmentStep)
    ensures Fragments(ChatStream(chunks, Broken(Interrupted(message))))
            == Fragments(ChatStream(chunks, Completed)) + ["Error in stream: " + message]
  {
    StreamBroken(chunks, Interrupted(message), FragmentStep, FragmentOnError);
  }

  /** The `audio_prompt.txt` read of lines 167-176. */
  datatype TextFile = FileMissing | FileUnreadable | FileText(text: string)

  /** `transcribe_audio`. `observe` is what each read attempt finds, `md`
      what `get_gemini_config(model_name)` returns, `promptFile` the prompt
      read, and `upstream` the outcome of the streamed request. Besides the
      reply it gives the number of read attempts, the waits, and the request
      sent upstream. */
  method TranscribeAudio(objectName: Option<string>, observe: nat -> ReadOutcome, md: Option<Value>,
                         promptFile: TextFile, upstream: Call<ChatStream>)
    returns (r: Reply<seq<string>>, attempts: nat, waits: seq<nat>, sent: Option<AudioRequest>)
    ensures !Given(objectName) ==> r == Fail(400, MissingObjectName) && attempts == 0 && waits == [] && sent.None?
    ensures Given(objectName) ==>
              var first := FirstReadable(observe, 0);
              && attempts == (if first.Some? then first.value + 1 else MaxAttempts)
              && |waits| == (if first.Some? then first.value else MaxAttempts)
              && (forall k :: 0 <= k < |waits| ==> waits[k] == BackoffMillis(k))
              && (first.None? ==> r == Fail(500, Unreadable) && sent.None?)
              && (first.Some? && !TruthyOpt(md) ==> r == Fail(400, InvalidModel) && sent.None?)
              && (first.Some? && TruthyOpt(md) && promptFile.FileUnreadable? ==>
                    r == Fail(500, AudioPromptUnreadable) && sent.None?)
              && (first.Some? && TruthyOpt(md) && !promptFile.FileUnreadable? ==>
                    var prompt := if promptFile.FileText? then promptFile.text else "";
                    match ProcessAudio(md.value, observe(first.value).data, AudioFormat(objectName.value), prompt, upstream)
                    case RaisedErr(x) => r == Fail(StatusFor(x), Upstream(x)) && sent.None?
                    case Opened(request, reply) => r == Ok(Fragments(reply)) && sent == Some(request))
    ensures Given(objectName) && FirstReadable(observe, 0).Some? && TruthyOpt(md) && !promptFile.FileUnreadable?
            && md.value.Object? && "api_key" in md.value.fields && "base_url" in md.value.fields
            && (upstream.ClientFails? || ("model" in md.value.fields && upstream.CallFails?))
            ==> r == Fail(StatusFor(RaisedFor(upstream.error)), Upstream(RaisedFor(upstream.error)))
                && sent.None?
                && (upstream.error == ConnectionFailed ==> r.status == 503)
                && (upstream.error == RateLimited ==> r.status == 429)
                && (upstream.error != ConnectionFailed && upstream.error != RateLimited ==> r.status == 500)
  {
    if !Given(objectName) {
      return Fail(400, MissingObjectName), 0, [], None;
    }
    var content;
    content, attempts, waits := ReadWithRetry(observe);
    if content.None? {
      return Fail(500, Unreadable), attempts, waits, None;
    }
    var format := AudioFormat(objectName.value);
    if !TruthyOpt(md) {
      return Fail(400, InvalidModel), attempts, waits, None;
    }
    var prompt: string;
    match promptFile {
      case FileMissing => prompt := "";
      case FileUnreadable => return Fail(500, AudioPromptUnreadable), attempts, waits, None;
      case FileText(text) => prompt := text;
    }
    match ProcessAudio(md.value, content.value, format, prompt, upstream) {
      case RaisedErr(x) =>
        r, sent := Fail(StatusFor(x), Upstream(x)), None;
      case Opened(request, reply) =>
        var fragments := GenerateTranscript(reply);
        r, sent := Ok(fragments), Some(request);
    }
  }

  // -------------------------------------------------------------- analyze

  /** The four fields every analysis result carries. */
  const ReportFields: seq<string> := ["school", "method", "phone", "time"]

  /** Lines 256-257: `result.setdefault(key, "")` for each report field. */
  method FillDefaults(parsed: map<string, Value>) returns (result: map<string, Value>)
    ensures result.Keys == parsed.Keys + {"school", "method", "phone", "time"}
    ensures forall k :: k in parsed ==> result[k] == parsed[k]
    ensures forall k :: k in result && k !in parsed ==> result[k] == Str("")
  {
    result := parsed;
    for i := 0 to |ReportFields|
      invariant forall k :: k in result <==> k in parsed || k in ReportFields[..i]
      invariant forall k :: k in parsed ==> result[k] == parsed[k]
      invariant forall k :: k in result && k !in parsed ==> result[k] == Str("")
    {
      var key := ReportFields[i];
      assert ReportFields[..i + 1] == ReportFields[..i] + [key];
      if key !in result {
        result := result[key := Str("")];
      }
    }
    assert ReportFields[..4] == ReportFields;
    FieldKeys(parsed, result);
  }

  /** The keys of a map holding exactly the keys of `parsed` and the report
      fields. */
  lemma FieldKeys(parsed: map<string, Value>, result: map<string, Value>)
    requires forall k :: k in result <==> k in parsed || k in ReportFields
    ensures result.Keys == parsed.Keys + {"school", "method", "phone", "time"}
  {
    assert forall k :: k in ReportFields <==> k in {"school", "method", "phone", "time"};
  }

  /** The answer of lines 245-257 for the reply text `content`: a decoding
      failure reports the stripped text, a decoded value that is not an
      object makes `setdefault` raise, and an object gets the four report
      fields, keeping the values it has. */
  ghost predicate AnswerFor(content: string, parse: string -> Option<Value>, r: Reply<map<string, Value>>)
  {
    var text := Unfence(content);
    match parse(text)
    case None => r == Fail(500, InvalidJson(text))
    case Some(v) =>
      if !v.Object? then r == Fail(500, AnalysisFailed)
      else
        && r.Ok?
        && r.body.Keys == v.fields.Keys + {"school", "method", "phone", "time"}
        && (forall k :: k in v.fields ==> r.body[k] == v.fields[k])
        && (forall k :: k in r.body && k !in v.fields ==> r.body[k] == Str(""))
  }

  /** Lines 245-257 on the model's reply text; `parse` stands for
      `json.loads` (None for a JSONDecodeError). */
  method PostProcess(content: string, parse: string -> Option<Value>) returns (r: Reply<map<string, Value>>)
    ensures AnswerFor(content, parse, r)
  {
    var text := Unfence(content);
    var decoded := parse(text);
    if decoded.None? {
      return Fail(500, InvalidJson(text));
    }
    if !decoded.value.Object? {
      return Fail(500, AnalysisFailed);
    }
    var result := FillDefaults(decoded.value.fields);
    r := Ok(result);
  }

  /** The report prompt template read and formatted at lines 218-226. */
  datatype Template = TemplateMissing | TemplateFails | Prompt(text: string)

  /** Lines 264-271: an OpenAIError has its own message, anything else is
      the generic analysis failure. */
  function ApiFailure(e: UpstreamError): (err: AudioError)
    ensures err == AnalysisFailed <==> e == NonApiError
    ensures err == ApiCallFailed <==> e != NonApiError
  {
    if e == NonApiError then AnalysisFailed else ApiCallFailed
  }

  /** `analyze_report_info`. `md` is what `get_gemini_config` returns for the
      fixed extraction model, `template` the read and formatted prompt
      (`TemplateFails` when reading or formatting raised something other
      than FileNotFoundError), `upstream` the non-streaming call and the
      reply's `choices[0].message.content` (None when there is no choice or
      no content). */
  method AnalyzeReportInfo(objectName: Option<string>, transcription: Option<string>, md: Option<Value>,
                           template: Template, upstream: Call<Option<string>>,
                           parse: string -> Option<Value>)
    returns (r: Reply<map<string, Value>>)
    ensures !Given(objectName) ==> r == Fail(400, MissingObjectName)
    ensures Given(objectName) && !Given(transcription) ==> r == Fail(400, MissingTranscription)
    ensures Given(objectName) && Given(transcription) && !TruthyOpt(md) ==> r == Fail(500, ModelConfigNotFound)
    ensures Given(objectName) && Given(transcription) && TruthyOpt(md) ==>
              match template
              case TemplateMissing => r == Fail(500, ReportPromptMissing)
              case TemplateFails => r == Fail(500, AnalysisFailed)
              case Prompt(_) =>
                var config := md.value;
                if !config.Object? || "api_key" !in config.fields || "base_url" !in config.fields then
                  r == Fail(500, AnalysisFailed)
                else
                  match upstream
                  case ClientFails(e) => r == Fail(500, ApiFailure(e))
                  case CallFails(e) => r == Fail(500, if "model" in config.fields then ApiFailure(e) else AnalysisFailed)
                  case Returns(content) =>
                    if "model" !in config.fields || content.None? then r == Fail(500, AnalysisFailed)
                    else AnswerFor(content.value, parse, r)
    ensures r.Fail? ==> r.status == 400 || r.status == 500
    ensures r.Ok? ==> r.body.Keys >= {"school", "method", "phone", "time"}
  {
    if !Given(objectName) {
      return Fail(400, MissingObjectName);
    }
    if !Given(transcription) {
      return Fail(400, MissingTranscription);
    }
    if !TruthyOpt(md) {
      return Fail(500, ModelConfigNotFound);
    }
    match template {
      case TemplateMissing => return Fail(500, ReportPromptMissing);
      case TemplateFails => return Fail(500, AnalysisFailed);
      case Prompt(_) =>
    }
    var config := md.value;
    if !config.Object? || "api_key" !in config.fields || "base_url" !in config.fields {
      return Fail(500, AnalysisFailed);
    }
    if upstream.ClientFails? {
      return Fail(500, ApiFailure(upstream.error));
    }
    if "model" !in config.fields {
      return Fail(500, AnalysisFailed);
    }
    match upstream {
      case CallFails(e) => return Fail(500, ApiFailure(e));
      case Returns(content) =>
        if content.None? {
          return Fail(500, AnalysisFailed);
        }
        r := PostProcess(content.value, parse);
    }
  }

  // ------------------------------------------------------------ playback

  /** `get_audio_file`: `(data, content_type, status)`, with `probe` what
      the existence check and the read find. */
  function GetAudioFile(objectName: Option<string>, probe: ReadOutcome): (r: (Option<seq<byte>>, Option<string>, int))
    ensures !Given(objectName) ==> r == (None, None, 400)
    ensures Given(objectName) && probe.NotPresent? ==> r == (None, None, 404)
    ensures Given(objectName) && probe.PermissionDenied? ==> r == (None, None, 403)
    ensures Given(objectName) && probe.ReadError? ==> r == (None, None, 500)
    ensures r.0.Some? <==> r.2 == 200
    ensures r.2 == 200 ==> probe.Readable? && r.0 == Some(probe.data)
                           && r.1 == Some(MimeFor(Lower(SplitExt(objectName.value))))
    ensures Given(objectName) && probe.Readable?
            ==> r == (Some(probe.data), Some(MimeFor(Lower(SplitExt(objectName.value)))), 200)
  {
    if !Given(objectName) then (None, None, 400)
    else
      match probe
      case NotPresent => (None, None, 404)
      case PermissionDenied => (None, None, 403)
      case ReadError => (None, None, 500)
      case Readable(data) => (Some(data), Some(MimeFor(Lower(SplitExt(objectName.value)))), 200)
  }

  /** `splitext` of a plain name with one dot is the dot and what follows. */
  lemma SplitExtOfName(stem: string, ext: string)
    requires stem != [] && '/' !in stem && '.' !in stem && '/' !in ext && '.' !in ext
    ensures SplitExt(stem + "." + ext) == "." + ext
  {
    var p := stem + "." + ext;
    assert p == stem + ['.'] + ext;
    AfterLastWhole(p, '/');
    BaseExtJoin(stem, ext);
  }

  /** The MIME type follows the extension whatever its case: `take.WAV` is
      served as `audio/wav`, and an unknown extension as a byte stream. */
  lemma MimeOfName(stem: string, ext: string, data: seq<byte>)
    requires stem != [] && '/' !in stem && '.' !in stem && '/' !in ext && '.' !in ext
    ensures GetAudioFile(Some(stem + "." + ext), Readable(data)).1 == Some(MimeFor("." + Lower(ext)))
  {
    SplitExtOfName(stem, ext);
    LowerDot(ext);
  }

  lemma LowerDot(ext: string)
    ensures Lower("." + ext) == "." + Lower(ext)
  {
    assert ("." + ext)[1..] == ext;
  }
}
