# llm-web backend: a Dafny model of its decision logic

The backend of llm-web relays chat prompts to configured LLM providers and
streams the reply back as newline-ended JSON lines. It also runs an audio
report workflow:

1. check whether a recording is already stored, or upload it;
2. transcribe it with an audio-capable model, streaming the transcript;
3. extract four report fields (`school`, `method`, `phone`, `time`) from the
   transcript with a second model call;
4. store the report in a SQLite table.

This project models the sequential logic of four backend files in Dafny 4
and proves properties of it:

- `backend/config.py`: the provider registry.
- `backend/llm_service.py`: `query_llm` and its stream generator.
- `backend/audio_service.py`: the audio workflow.
- `backend/database_service.py`: the report store.

Some parts of the program are outside Dafny: the file system, the clock,
the OpenAI client, `json.loads`, `str.format` and SQLite's connection layer.
Each of these is a parameter that says what it returned. Examples:

- `present: bool` is what `os.path.exists` reports;
- a read oracle `observe: nat -> ReadOutcome` is what read attempt `k` finds;
- an upstream `Call<T>` says whether building the client raised, the
  request raised, or it returned a value;
- an upstream stream is a finite sequence of chunks plus how iteration
  ended;
- `parse: string -> Option<Value>` stands for `json.loads`;
- `now: string` is `datetime.now().isoformat()`.

Modules, one per file:

- `Common`: `Option`, bytes, decoded JSON values (`Value`) and Python
  truthiness.
- `Text`: the `str` operations the code uses, written over `seq<char>`:
  `strip`, `lstrip`, `rstrip`, `split(c)[-1]`, `in`, ASCII `lower`,
  `os.path.splitext` and `str(int)`.
- `Relay`: the shared shape of both generators and of the provider filter.
  It walks a sequence, keeps some items' images, and stops at the first item
  that raises. It also proves "nothing dropped, duplicated or reordered" and
  "one terminal error" once, for both generators.
- `Chat`: what the services see of the upstream chat API.
- `Config`, `LlmService`, `AudioService`, `DatabaseService`: the four
  source files.
- `Fence`: the removal of a markdown code fence from the extraction
  model's reply in `analyze_report_info`.

The report table is a class, `DatabaseService.ReportStore`. The source
updates this table in place. Its methods are proved against the pure
function `DatabaseService.Save`, and the lemmas state their properties about
`Save`. The two generators and the read-retry loop are methods with loops,
proved equal to the functions their lemmas are about. The fence stripping of
`analyze_report_info` is a function, `Fence.Unfence`; the `setdefault` loop is the
method `FillDefaults`.

Three behaviours of the code shape the model:

- **Report key.** `object_name` is the table's only `PRIMARY KEY`
  (`backend/database_service.py:16`), and rows are written with
  `INSERT OR REPLACE`. The store keeps no versions and has no read
  functions; the code has no credential rotation. So a second save under a
  name replaces the first (`SaveTwice`, `SaveCount`).
- **Upstream status errors.** `_process_audio_with_ai` re-raises an
  upstream status error as `RuntimeError`, and `transcribe_audio` answers
  that with 500, whatever status the upstream returned
  (`UpstreamStatusTable`).
- **`get_gemini_config`.** `backend/audio_service.py:10` imports this from
  `backend/config.py`, which does not define it. Its result is a parameter
  (`md`) of `TranscribeAudio` and `AnalyzeReportInfo`.

## Model

| member | source | states |
|---|---|---|
| Config.Load | backend/config.py:9-23 | a missing, malformed or unreadable file leaves `cg` and `model_list` empty; a loaded document becomes `cg`; a non-dict entry makes the comprehension raise and leaves `model_list` empty |
| Config.GetModelList | backend/config.py:29-31 | the names listed at load time, unchanged |
| Config.GetModelConfig | backend/config.py:33-35 | the value stored under exactly that name, and None exactly when no entry has that name |
| Config.ModelListMembers | backend/config.py:16 | a name is listed if and only if its entry is a dict with a truthy `api_key` and a truthy `base_url` (and no entry made the filter raise) |
| Config.ModelListOrder | backend/config.py:16 | listed names keep the order of the configuration file and no name is listed twice |
| Config.ListedHaveConfig | backend/config.py:16 | every name `get_model_list` returns has a configuration, and that configuration is usable |
| Relay.StreamShape | backend/llm_service.py:44-54 | a generator's output is the images of the items before the first failure, in order, then at most one error output |
| Relay.KeptAt | backend/llm_service.py:46-50 | nothing is dropped: each producing item's output stands at the position given by the number of producers before it |
| Relay.KeptFrom | backend/llm_service.py:46-50 | nothing is invented or duplicated: each output comes from exactly one producing item |
| Relay.KeptOrder | backend/config.py:16 | two outputs come from items in the same order as the outputs themselves |
| Relay.StreamBroken | backend/audio_service.py:107-109 | iteration that breaks off after raise-free items adds exactly one error output after theirs |
| Text.Strip | backend/audio_service.py:245 | the result is the input minus a whitespace prefix and a whitespace suffix, and it does not start or end with whitespace |
| Text.ContainsIff | backend/llm_service.py:27 | the substring scan holds exactly when `json` occurs at some position of the prompt |
| Text.AfterLast | backend/audio_service.py:22 | `split(c)[-1]`: a suffix without `c`, preceded by `c` unless it is the whole text |
| Text.SplitExt | backend/audio_service.py:297 | `os.path.splitext(p)[1]` is empty or a dot followed by text free of dots and `/` that ends `p`; it is non-empty exactly when the base name has a dot after some non-dot character, and then it is the base name from its last dot |
| LlmService.ResponseFormatFor | backend/llm_service.py:27-30 | JSON mode is requested if and only if the prompt contains `json` and `json_format` is not exactly `false`; `json_format: false` switches it off whatever the prompt says |
| LlmService.Lines | backend/llm_service.py:44-54 | the lines are the serialised deltas of the chunks before the first failure, then one error line exactly when a chunk or the iteration raised |
| LlmService.Generate | backend/llm_service.py:44-54 | the loop over the chunks yields exactly `Lines` |
| LlmService.ErrorFor | backend/llm_service.py:58-66 | an OpenAIError gives the API-failure tuple and any other exception the unknown-error tuple |
| LlmService.QueryLlm | backend/llm_service.py:19-66 | a missing or falsy configuration gives 400 with no request sent, and that is the only way to get 400; a request is sent exactly when the configuration is a dict with `api_key`, `base_url` and `model`, the prompt is given and the client is built, and it is two user turns, prompt then message, streamed, with the decided format; a missing key gives the incomplete-configuration error and only then; a failing client or request gives the mapped error; a missing prompt or a non-dict configuration gives the unknown-error tuple; a stream is returned exactly when the request is sent and returns |
| LlmService.LineOfChunk | backend/llm_service.py:46-50 | each chunk with a delta before any failure has its `json.dumps(...) + "\n"` line at the position given by the number of such chunks before it |
| LlmService.ChunkOfLine | backend/llm_service.py:46-50 | every line before the terminal one is the serialised delta of exactly one chunk |
| LlmService.BrokenStreamAddsOneErrorLine | backend/llm_service.py:51-54 | a stream that breaks off yields the lines of the chunks so far and then exactly one error line |
| LlmService.EarlyFailuresAre500 | backend/llm_service.py:58-66 | once a configuration is found, every error tuple has status 500 |
| AudioService.ExtensionFor | backend/audio_service.py:20-26 | `.wav`, `.ogg` or `.aac` exactly when the text after the last `/` is `wav`, `ogg` or `aac`; `.mp3` otherwise, including when there is no `/` |
| AudioService.ExtensionBySuffix | backend/audio_service.py:21-25 | two content types with the same text after their last `/` get the same extension, whatever comes before it |
| AudioService.CheckAudioFileStatus | backend/audio_service.py:14-43 | an empty or missing hash gives 400 and only then; otherwise the object name is the hash followed by the extension and the status is `exists` or `new` as the file is present |
| AudioService.StatusOnlyDependsOnPresence | backend/audio_service.py:32-43 | the `exists` and `new` answers carry the same object name and differ only in status |
| AudioService.SaveUploadedAudio | backend/audio_service.py:48-64 | a missing upload or one with an empty file name gives the missing-file answer, then a missing object name its 400, each with nothing saved; the empty-file-name check of lines 54-55 never answers; otherwise one save under the object name, 200 or 500 as it succeeds |
| AudioService.AudioFormat | backend/audio_service.py:161 | the lower-cased text after the last `.`, or `mp3` for a name without one |
| AudioService.AudioFormatOfSuffix | backend/audio_service.py:161 | any suffix becomes the format; none is checked against a list |
| AudioService.MimeFor | backend/audio_service.py:297-303 | the four known extensions map to their audio types and every other one to `application/octet-stream` |
| AudioService.FirstReadable | backend/audio_service.py:138-153 | the first of the three attempts that finds the file readable; the attempts before it all failed |
| AudioService.ReadWithRetry | backend/audio_service.py:138-153 | at most three attempts, the first success stops them, the wait after failed attempt `k` is `200 * (k + 1)` ms, and no content is read when all three fail |
| AudioService.UpstreamStatusTable | backend/audio_service.py:186-190 | connection failures give 503, rate limiting gives 429, and every other upstream failure gives 500 |
| AudioService.ProcessAudio | backend/audio_service.py:68-126 | a stream is opened exactly when the configuration has `api_key`, `base_url` and `model` and the request returns; the request is one user turn with the audio, its format and the prompt; a configuration lacking `api_key` or `base_url`, or lacking `model` with a client built, raises RuntimeError; a failing client or request is re-raised as `RaisedFor` of its error |
| AudioService.Fragments | backend/audio_service.py:98-109 | the non-empty `delta.content` of the chunks before the first failure, in order, then one `Error in stream: ...` fragment exactly when a chunk or the iteration raised |
| AudioService.GenerateTranscript | backend/audio_service.py:98-109 | the loop over the chunks yields exactly `Fragments` |
| AudioService.FragmentOfChunk | backend/audio_service.py:101-104 | each non-empty content before a failure is forwarded once, at the position given by the number of such chunks before it |
| AudioService.BrokenTranscriptAddsOneFragment | backend/audio_service.py:107-109 | a reply that breaks off adds exactly one `Error in stream: ` fragment after those already yielded |
| AudioService.RaisedFor | backend/audio_service.py:113-126 | a connection failure is re-raised as ConnectionError, rate limiting as ValueError, and every other failure as RuntimeError |
| AudioService.StatusFor | backend/audio_service.py:186-190 | ConnectionError answers 503, ValueError 429 and RuntimeError 500, each only for that exception |
| AudioService.TranscribeAudio | backend/audio_service.py:129-197 | a missing name gives 400 before any read; then the read-retry results; 500 when no attempt succeeds; 400 for a falsy configuration; 500 when the prompt file cannot be read; then the raised error's status, or the fragments of the opened stream; an upstream failure with the keys present sends nothing and answers 503 for a connection failure and 429 for rate limiting |
| Fence.OpenStrip | backend/audio_service.py:247 | the text the left strips leave, minus its trailing whitespace: a prefix of it, followed only by whitespace, with no whitespace at either end |
| Fence.OpenLeftIsLStrips | backend/audio_service.py:247 | the index-based left part is the chain `lstrip("`").lstrip("json").lstrip()` |
| Fence.Unfence | backend/audio_service.py:245-249 | text that does not start with three backticks after trimming is only trimmed |
| Fence.UnfenceFenced | backend/audio_service.py:245-249 | removing a fence, whatever its tag of the letters j, s, o, n, gives back the body it encloses |
| Fence.UnfenceUnclosed | backend/audio_service.py:245-249 | a reply that opens a fence but is cut off before the closing one loses the opening fence and its tag and keeps its body |
| Fence.UnfenceExample | backend/audio_service.py:245-249 | a fenced `json` block around `{"school":"X"}` becomes `{"school":"X"}` |
| AudioService.FillDefaults | backend/audio_service.py:256-257 | the four report fields are present afterwards, existing values are kept, and only missing fields are set to the empty string |
| AudioService.PostProcess | backend/audio_service.py:243-257 | unparsable text gives 500 with the stripped text as raw response; a non-object gives the analysis failure; an object gets the four defaults |
| AudioService.ApiFailure | backend/audio_service.py:264-271 | an OpenAIError gives the API-call failure and every other exception the generic analysis failure |
| AudioService.AnalyzeReportInfo | backend/audio_service.py:202-271 | missing name, then missing transcription, give 400; a falsy configuration, a missing template, a failing template, an incomplete configuration, an API error and a missing reply each give their 500; a reply is post-processed as `PostProcess` states; a success holds the four report fields |
| AudioService.GetAudioFile | backend/audio_service.py:273-313 | an empty name gives 400, an absent file 404, a denied read 403, any other read error 500; a readable file gives 200 with its data and the MIME type of the lower-cased extension, and 200 comes only from a readable file |
| AudioService.SplitExtOfName | backend/audio_service.py:297 | the extension of a plain name with one dot is that dot and what follows it |
| AudioService.MimeOfName | backend/audio_service.py:297-303 | the MIME type is chosen by the lower-cased extension, so `take.WAV` is served as `audio/wav` |
| DatabaseService.Bind | backend/database_service.py:53-56 | how a TEXT column stores a parameter: text kept, NULL for None or null and only for those, an in-range integer as its decimal text, `true` and `false` as `1` and `0`, lists and dicts refused, integers beyond 64 bits raising OverflowError |
| DatabaseService.BindAll | backend/database_service.py:53-56 | all parameters bound in order, or the failure, never a binding, of the first one that cannot be |
| DatabaseService.Params | backend/database_service.py:41-47 | the seven parameters in column order: the key, `school`, `method`, `phone`, `time` and `transcription_text` read with `get`, then the timestamp |
| DatabaseService.Upsert | backend/database_service.py:53-56 | a text key replaces or adds its row and leaves every other row, and the count grows by one only for a new key; a NULL key adds a row |
| DatabaseService.Save | backend/database_service.py:28-62 | the missing-`object_name` answer is given exactly when the key is absent, and the table is then unchanged; every failure leaves the table unchanged; it saves exactly when the table exists, the database does not fail and every parameter binds; the database-failure answer comes exactly from a database failure, a missing table or a list or dict parameter; only an oversized integer escapes as an exception |
| DatabaseService.SavedRow | backend/database_service.py:41-56 | the saved row holds the five fields as read with `get` (absent ones NULL) and the server clock's timestamp |
| DatabaseService.SaveKeepsOthers | backend/database_service.py:53-56 | a save leaves the rows of every other `object_name` untouched |
| DatabaseService.SaveCount | backend/database_service.py:16 | saving under a stored key keeps the row count; a new key adds one |
| DatabaseService.SaveTwice | backend/database_service.py:53-56 | when the second report saves on its own (always, for the same report), a second save of a report whose key binds to the same text leaves what that save alone would leave: one row, with the second report's values |
| DatabaseService.IntKeyMatchesTextKey | backend/database_service.py:16 | an integer key and its decimal text are the same key to the TEXT column |
| DatabaseService.NullKeysAccumulate | backend/database_service.py:16 | a report whose key is JSON null never replaces a row: a successful save adds one row after the existing unkeyed rows, holding the bound fields and the server clock's timestamp, and leaves the keyed rows alone |
| DatabaseService.ExtraFieldsIgnored | backend/database_service.py:41-47 | input keys other than the six read make no difference, `submission_timestamp` among them |
| DatabaseService.EmptyNameAccepted | backend/database_service.py:38-39 | only the presence of `object_name` is checked: a report with an empty name is saved exactly when its other fields bind, and then under the key `""` |
| DatabaseService.Init | backend/database_service.py:14-24 | an existing table is kept with its rows; a missing one is created empty |
| DatabaseService.InitIdempotent | backend/database_service.py:14-24 | initialising twice is the same as once |
| DatabaseService.ReportStore.constructor | backend/database_service.py:65 | module load runs `init_db` on the file as found |
| DatabaseService.ReportStore.InitDb | backend/database_service.py:10-26 | the table afterwards is `Init` of the table before |
| DatabaseService.ReportStore.SaveReportData | backend/database_service.py:28-62 | the new table and the outcome are `Save` of the old table; `ok` exactly when saved; a failure changes nothing |

## Left out

- Flask routing, `jsonify`, `Response` and `stream_with_context` in `backend/routes.py` and the two `app.py` files are not part of this model. This includes the route's own check that the requested model is in `model_list`.
- Rate limiting (`backend/app_setup.py`) is only `flask_limiter` configuration, with no algorithm in the repository. Credential rotation and the report read functions imported by the routes do not exist in the code.
- `get_gemini_config`'s behaviour is unknown. Its result is a parameter. Exceptions it might raise are not modelled: the `KeyError` handler of `backend/audio_service.py:191-192` and the analysis path before its `try` are therefore not reached in the model.
- The file system, `time.sleep`, `datetime.now`, `base64.b64encode`, `json.loads`, `json.dumps` and `str.format` are parameters or opaque values. A delta's `json.dumps(delta.model_dump())` is the field `Delta.dump`. Waits are recorded in milliseconds, not slept.
- `AudioService.SaveUploadedAudio`: the truth value of the upload object is taken to be that of its file name, as werkzeug's `FileStorage.__bool__` defines it; werkzeug is not part of this model. An upload with an empty file name therefore gets the missing-file answer of line 51.
- `CheckAudioFileStatus` leaves out the `except` of `backend/audio_service.py:44-46`, because `os.path.exists` does not raise. It also leaves out a `None` content type.
- The generic handler of `transcribe_audio` (`backend/audio_service.py:193-197`) has no modelled cause: every exception the modelled steps can raise is handled earlier.
- Error replies carry no exception text (`str(e)`). Each error is a constructor named after its message. The transcript's error fragment does carry the text of the modelled exceptions.
- Generators are modelled by everything they yield. Laziness, cancellation by the client and the console output interleaved with yields are not modelled.
- `Text.Lower` lower-cases ASCII letters only; Python's `str.lower` also maps other letters. The extensions and formats compared here are ASCII.
- JSON numbers are integers only; floats, NaN and infinities are not modelled. A top-level `ai.json` that is not an object is not modelled either.
- Request parameters are strings or missing, and the types Flask would give them are not modelled.
- Strings containing lone surrogates are not modelled. They cannot be stored as UTF-8 and would make SQLite binding raise UnicodeEncodeError.
- `DatabaseService.Save`: `dbFails` stands for every sqlite3.Error the model does not derive. Examples are an unopenable file, a lock and a full disk. Such a failure is taken to happen before any parameter is bound.
- `DatabaseService.ReportStore.constructor`: a failing `init_db` at import time is not modelled.
- Concurrency between requests is not modelled. Each call is atomic.
- Path handling in `os.path.join` (an absolute object name replaces the folder) is not modelled.
