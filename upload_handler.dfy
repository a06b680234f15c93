/** The upload path of the bot (src/uploadHandler.js): the guard chain a
    user's image goes through, the temporary copy kept under /tmp while its
    content type is sniffed, the inline `data:` reference handed to the
    chat-completion service, and the way that service's failures become
    reply text.

    The outside world enters as a `Services` value of oracles: the Telegram
    download, the `file-type` detector, `Buffer.toString('base64')` and the
    chat-completion call. The local filesystem is the `files` map of a
    `Host`, and every outside interaction is appended to its `trace`. */
module UploadHandler {
  import opened Common
  import opened Strings

  const MaxFileSize: int := 10 * 1024 * 1024
  const SupportedModels: seq<string> := ["gpt-4o", "gpt-4o-mini", "gpt-4"]
  const SupportedImageTypes: seq<string> := ["image/jpeg", "image/png"]
  const SupportedExtensions: seq<string> := ["jpg", "jpeg", "png"]
  const TempDir: string := "/tmp/"
  const MaxTokens: nat := 300
  const NoResponseMessage: string := "No response received from the API. Please try again later."

  /** What Telegram says about the uploaded file. `file_size` and
      `file_path` are optional in Telegram's file object, so either may be
      missing. */
  datatype FileInfo = FileInfo(fileId: string, filePath: Option<string>, fileSize: Option<int>)

  /** The four checks that answer with a fixed message. */
  datatype Rejection = TooLarge | UnsupportedModel | UnsupportedExtension | ContentMismatch

  function RejectionMessage(reason: Rejection): string
  {
    match reason
    case TooLarge => "File size exceeds the 10MB limit."
    case UnsupportedModel =>
      "Unsupported model. This feature only supports: " + Join(SupportedModels, ", ")
    case UnsupportedExtension =>
      "Unsupported file type. Supported types are: " + Join(SupportedExtensions, ", ")
    case ContentMismatch =>
      "Invalid file type. The file content does not match its extension. Only JPEG and PNG images are supported."
  }

  /** The model message lists the three supported models. */
  lemma ModelMessageSpelledOut()
    ensures RejectionMessage(UnsupportedModel)
         == "Unsupported model. This feature only supports: " + "gpt-4o, gpt-4o-mini, gpt-4"
  {
    assert Join(SupportedModels, ", ") == "gpt-4o, gpt-4o-mini, gpt-4";
  }

  /** The extension message lists the three supported extensions. */
  lemma ExtensionMessageSpelledOut()
    ensures RejectionMessage(UnsupportedExtension)
         == "Unsupported file type. Supported types are: " + "jpg, jpeg, png"
  {
    assert Join(SupportedExtensions, ", ") == "jpg, jpeg, png";
  }

  // ---------------------------------------------------------------- guards

  /** `file_path.split('.').pop().toLowerCase()`: the lower-cased text after
      the last dot, or the whole path lower-cased when it has no dot. */
  function FileExtension(path: string): (ext: string)
    ensures '.' !in ext
    ensures |ext| <= |path| && ext == ToLower(path[|path| - |ext|..])
    ensures |ext| == |path| || path[|path| - |ext| - 1] == '.'
  {
    var parts := Split(path, '.');
    LastOfSplit(path, '.');
    LowerKeepsOther(parts[|parts| - 1], '.');
    ToLower(parts[|parts| - 1])
  }

  /** `fileInfo.file_size > MAX_FILE_SIZE`; a missing size compares false. */
  predicate Oversized(info: FileInfo)
  {
    info.fileSize.Some? && info.fileSize.value > MaxFileSize
  }

  /** How the synchronous part of the handler ends: it goes on to the
      download of `path`, answers with a rejection message, or throws. */
  datatype Verdict = Proceed(path: string) | Refuse(reason: Rejection) | Throw(error: JsError)

  /** The synchronous guard chain: size, then model, then extension; the
      first check that fails decides the message. Without a `file_path`,
      taking its extension throws the TypeError of `undefined.split`. */
  function CheckGuards(info: FileInfo, model: string): (v: Verdict)
    ensures v.Proceed? ==> info.filePath == Some(v.path) && FileExtension(v.path) in {"jpg", "jpeg", "png"}
    ensures v.Refuse? ==> v.reason != ContentMismatch
    ensures v.Throw? <==> !Oversized(info) && model in SupportedModels && info.filePath.None?
  {
    if Oversized(info) then Refuse(TooLarge)
    else if model !in SupportedModels then Refuse(UnsupportedModel)
    else match info.filePath
      case None => Throw(ReadOfUndefined("split"))
      case Some(path) =>
        if FileExtension(path) !in SupportedExtensions then Refuse(UnsupportedExtension)
        else Proceed(path)
  }

  /** The size guard rejects exactly the files strictly larger than 10 MiB;
      exactly 10 MiB, and a file with no reported size, pass it. */
  lemma SizeGuard(info: FileInfo, model: string)
    ensures CheckGuards(info, model) == Refuse(TooLarge)
        <==> info.fileSize.Some? && info.fileSize.value > 10485760
  {
  }

  /** The model guard answers exactly for an in-size file whose model is
      none of the three supported ones, whatever the extension. */
  lemma ModelGuard(info: FileInfo, model: string)
    ensures CheckGuards(info, model) == Refuse(UnsupportedModel)
        <==> !Oversized(info) && model !in {"gpt-4o", "gpt-4o-mini", "gpt-4"}
  {
  }

  /** The extension guard answers exactly when the first two pass and the
      lower-cased extension of the path is none of jpg, jpeg, png. */
  lemma ExtensionGuard(info: FileInfo, model: string)
    ensures CheckGuards(info, model) == Refuse(UnsupportedExtension)
        <==> && !Oversized(info)
             && model in {"gpt-4o", "gpt-4o-mini", "gpt-4"}
             && info.filePath.Some?
             && FileExtension(info.filePath.value) !in {"jpg", "jpeg", "png"}
  {
  }

  /** A file that passes the size and model checks but has no `file_path`
      makes the extension step throw; no message is answered. */
  lemma MissingPathThrows(info: FileInfo, model: string)
    ensures CheckGuards(info, model) == Throw(ReadOfUndefined("split"))
        <==> !Oversized(info) && model in {"gpt-4o", "gpt-4o-mini", "gpt-4"} && info.filePath.None?
  {
  }

  /** The extension of `stem.ext`, for an `ext` without dots, is `ext`
      lower-cased, whatever the stem holds. */
  lemma {:induction false} ExtensionAfterLastDot(stem: string, ext: string)
    requires '.' !in ext
    ensures FileExtension(stem + "." + ext) == ToLower(ext)
  {
    var path := stem + "." + ext;
    var e := FileExtension(path);
    var dot := |path| - |ext| - 1;
    assert path[dot] == '.';
    assert path[dot + 1..] == ext;
    if |e| > |ext| {
      assert false;
    }
    if |e| < |ext| {
      assert false;
    }
  }

  /** The extension is case-insensitive: `PHOTO.PNG` is a png. */
  lemma UpperCaseExtension()
    ensures FileExtension("PHOTO.PNG") == "png"
  {
    ExtensionAfterLastDot("PHOTO", "PNG");
    assert "PHOTO" + "." + "PNG" == "PHOTO.PNG";
    assert ToLower("PNG") == "png";
  }

  /** `photo.gif` is a gif. */
  lemma GifExtension()
    ensures FileExtension("photo.gif") == "gif"
  {
    ExtensionAfterLastDot("photo", "gif");
    assert "photo" + "." + "gif" == "photo.gif";
    assert ToLower("gif") == "gif";
  }

  /** `SUPPORTED_IMAGE_TYPES.includes(detectedType.mime)` behind the
      `!detectedType` test: nothing detected fails the check. */
  predicate IsSupportedImage(detected: Option<string>)
    ensures IsSupportedImage(detected) <==> detected.Some? && detected.value in {"image/jpeg", "image/png"}
  {
    detected.Some? && detected.value in SupportedImageTypes
  }

  // ---------------------------------------------------------- data URIs

  const DataScheme: string := "data:"
  const Base64Marker: string := ";base64,"

  /** The inline image reference `data:<mime>;base64,<payload>`. */
  function DataUri(mime: string, payload: string): string
  {
    DataScheme + mime + Base64Marker + payload
  }

  /** Reads a `data:<mime>;base64,<payload>` reference back: the media type
      runs up to the first `;`, which must open `;base64,`. */
  function ParseDataUri(uri: string): Option<(string, string)>
  {
    ParseTagged(uri, DataScheme, Base64Marker)
  }

  /** Reads `<scheme><mime><marker><payload>` back, the media type running
      up to the first `;`, which must open the marker. */
  function ParseTagged(uri: string, scheme: string, marker: string): Option<(string, string)>
  {
    var n := |scheme|;
    if |uri| < n || uri[..n] != scheme then None
    else
      var rest := uri[n..];
      match IndexOf(rest, ';')
      case None => None
      case Some(i) =>
        if i + |marker| <= |rest| && rest[i..i + |marker|] == marker then Some((rest[..i], rest[i + |marker|..]))
        else None
  }

  /** A tagged reference whose marker opens with `;` reads back to a media
      type free of `;` and its payload. */
  lemma {:induction false} TaggedRoundTrip(scheme: string, marker: string, mime: string, payload: string)
    requires |marker| >= 1 && marker[0] == ';' && ';' !in mime
    ensures ParseTagged(scheme + mime + marker + payload, scheme, marker) == Some((mime, payload))
  {
    var uri := scheme + mime + marker + payload;
    var rest := mime + marker + payload;
    assert uri[..|scheme|] == scheme;
    assert uri[|scheme|..] == rest;
    assert rest[|mime|] == ';';
    assert IndexOf(rest, ';') == Some(|mime|);
    assert rest[|mime|..|mime| + |marker|] == marker;
    assert rest[..|mime|] == mime;
    assert rest[|mime| + |marker|..] == payload;
  }

  /** Whatever a tagged reference parses to rebuilds it. */
  lemma {:induction false} TaggedParsedIsBuilt(uri: string, scheme: string, marker: string, mime: string, payload: string)
    requires ParseTagged(uri, scheme, marker) == Some((mime, payload))
    ensures ';' !in mime && uri == scheme + mime + marker + payload
  {
    var n := |scheme|;
    var i := IndexOf(uri[n..], ';').value;
    Reassemble(uri, n, i, i + |marker|);
  }

  /** A reference built from a media type free of `;` reads back to that
      media type and payload. */
  lemma DataUriRoundTrip(mime: string, payload: string)
    requires ';' !in mime
    ensures ParseDataUri(DataUri(mime, payload)) == Some((mime, payload))
  {
    assert Base64Marker[0] == ';';
    TaggedRoundTrip(DataScheme, Base64Marker, mime, payload);
  }

  /** Conversely, whatever parses was built by `DataUri` from what it
      parses to, so no two references read back the same. */
  lemma ParsedDataUriIsBuilt(uri: string, mime: string, payload: string)
    requires ParseDataUri(uri) == Some((mime, payload))
    ensures ';' !in mime && uri == DataUri(mime, payload)
  {
    TaggedParsedIsBuilt(uri, DataScheme, Base64Marker, mime, payload);
  }

  // ------------------------------------------------ chat-completion call

  /** `SYSTEM_INIT_MESSAGE_ROLE` and `SYSTEM_INIT_MESSAGE` from the
      configuration. */
  datatype Config = Config(systemRole: string, systemMessage: string)

  datatype ContentPart = TextPart(text: string) | ImageUrlPart(url: string)
  datatype MessageContent = PlainText(text: string) | Parts(parts: seq<ContentPart>)
  datatype ChatMessage = ChatMessage(role: string, content: MessageContent)
  datatype CompletionRequest = CompletionRequest(model: string, messages: seq<ChatMessage>, maxTokens: nat)

  /** What the chat-completion call gives back: the `message.content` of
      each choice, or the error it rejects with. */
  datatype CompletionResult = Completed(choices: seq<string>) | CallFailed(error: JsError)

  /** How an async function settles: with a value, or by throwing. */
  datatype Settled = Returns(text: string) | Throws(error: JsError)

  /** The request `analyzeImage` sends: the configured system message, then
      one user message holding the prompt and the inline image. */
  function AnalysisRequest(cfg: Config, base64: string, mime: string, prompt: string, model: string): CompletionRequest
  {
    CompletionRequest(
      model,
      [ ChatMessage(cfg.systemRole, PlainText(cfg.systemMessage)),
        ChatMessage("user", Parts([TextPart(prompt), ImageUrlPart(DataUri(mime, base64))])) ],
      MaxTokens)
  }

  /** The image references a request carries, in message order. */
  function ImageUrls(messages: seq<ChatMessage>): seq<string>
    decreases |messages|
  {
    if messages == [] then []
    else
      var here := match messages[0].content
        case PlainText(_) => []
        case Parts(parts) => PartUrls(parts);
      here + ImageUrls(messages[1..])
  }

  function PartUrls(parts: seq<ContentPart>): seq<string>
    decreases |parts|
  {
    if parts == [] then []
    else (if parts[0].ImageUrlPart? then [parts[0].url] else []) + PartUrls(parts[1..])
  }

  /** The request is the configured system message followed by one user
      message; it carries one image, the `data:` reference to the detected
      type and the encoded bytes, which reads back to those two; it asks for
      at most 300 tokens from the caller's model, and carries the prompt. */
  lemma {:induction false} AnalysisRequestCarriesImage(cfg: Config, base64: string, mime: string, prompt: string, model: string)
    requires ';' !in mime
    ensures var req := AnalysisRequest(cfg, base64, mime, prompt, model);
            && req.model == model && req.maxTokens == 300
            && |req.messages| == 2
            && req.messages[0] == ChatMessage(cfg.systemRole, PlainText(cfg.systemMessage))
            && req.messages[1].role == "user"
            && ImageUrls(req.messages) == [DataUri(mime, base64)]
            && ParseDataUri(ImageUrls(req.messages)[0]) == Some((mime, base64))
            && TextPart(prompt) in req.messages[1].content.parts
  {
    var req := AnalysisRequest(cfg, base64, mime, prompt, model);
    var user := [TextPart(prompt), ImageUrlPart(DataUri(mime, base64))];
    assert PartUrls(user[1..][1..]) == [];
    assert PartUrls(user[1..]) == [DataUri(mime, base64)];
    assert PartUrls(user) == [DataUri(mime, base64)];
    assert req.messages[1..][1..] == [];
    assert ImageUrls(req.messages[1..]) == [DataUri(mime, base64)];
    DataUriRoundTrip(mime, base64);
  }

  /** The catch block of `analyzeImage`: a server answer wins, then a
      request that got no answer, then any other error. Reading
      `response.data.error.message` from a body that lacks it throws a
      TypeError out of the catch block itself. */
  function DescribeFailure(e: JsError): (r: Settled)
    ensures r.Throws? <==> e.response.Some? && !e.response.value.body.ErrorObject?
    ensures r.Throws? ==> r.error.response.None? && !r.error.request
  {
    match e.response
    case Some(answer) =>
      (match answer.body
       case ErrorObject(message) => Returns("API Error: " + NatToString(answer.status) + " - " + message)
       case NoErrorObject => Throws(ReadOfUndefined("message"))
       case NoData => Throws(ReadOfUndefined("error")))
    case None =>
      if e.request then Returns(NoResponseMessage) else Returns("Error: " + e.message)
  }

  /** The three-way precedence of the failure text, and the status in an
      `API Error` text is the number the server sent, written in decimal
      without leading zeros. */
  lemma {:induction false} FailurePrecedence(e: JsError)
    ensures e.response.Some? && e.response.value.body.ErrorObject? ==>
      exists status ::
        && DescribeFailure(e) == Returns("API Error: " + status + " - " + e.response.value.body.message)
        && |status| >= 1 && (forall i :: 0 <= i < |status| ==> IsDigit(status[i]))
        && (|status| == 1 || status[0] != '0')
        && DigitsValue(status) == e.response.value.status
    ensures e.response.None? && e.request ==> DescribeFailure(e) == Returns(NoResponseMessage)
    ensures e.response.None? && !e.request ==> DescribeFailure(e) == Returns("Error: " + e.message)
  {
    if e.response.Some? && e.response.value.body.ErrorObject? {
      var status := NatToString(e.response.value.status);
      NatToStringRoundTrip(e.response.value.status);
      assert DescribeFailure(e) == Returns("API Error: " + status + " - " + e.response.value.body.message);
    }
  }

  /** One `analyzeImage` call: the request it sent and how it settled. */
  datatype Analysis = Analysis(request: CompletionRequest, result: Settled)

  /** `analyzeImage`: send the request, answer the first choice's text, and
      turn every failure into text by `DescribeFailure`. An empty choice
      list throws a TypeError inside the try, which is described like any
      other local error. */
  function AnalyzeImage(cfg: Config, complete: CompletionRequest -> CompletionResult,
                        base64: string, mime: string, prompt: string, model: string): (a: Analysis)
    ensures a.request == AnalysisRequest(cfg, base64, mime, prompt, model)
    ensures a.result.Throws? ==> complete(a.request).CallFailed?
    ensures complete(a.request).Completed? && |complete(a.request).choices| > 0 ==>
              a.result == Returns(complete(a.request).choices[0])
  {
    var request := AnalysisRequest(cfg, base64, mime, prompt, model);
    var result := match complete(request)
      case Completed(choices) =>
        if |choices| > 0 then Returns(choices[0]) else DescribeFailure(ReadOfUndefined("message"))
      case CallFailed(e) => DescribeFailure(e);
    Analysis(request, result)
  }

  /** What the handler answers once the analysis settles: the first
      choice's text; for an empty choice list, the text of the TypeError the
      catch block turns into an `Error:` reply; for a failed call, the text
      the catch block describes, or the error it throws itself. */
  lemma AnalysisOutcome(cfg: Config, complete: CompletionRequest -> CompletionResult,
                        base64: string, mime: string, prompt: string, model: string)
    ensures var a := AnalyzeImage(cfg, complete, base64, mime, prompt, model);
            var reply := complete(a.request);
            && (reply.Completed? && |reply.choices| > 0 ==> Settle(a.result) == Analyzed(reply.choices[0]))
            && (reply.Completed? && |reply.choices| == 0 ==>
                  Settle(a.result) == Analyzed("Error: " + ReadOfUndefined("message").message))
            && (reply.CallFailed? ==>
                  match DescribeFailure(reply.error)
                  case Returns(text) => Settle(a.result) == Analyzed(text)
                  case Throws(e) => Settle(a.result) == Failed(e))
  {
  }

  // ------------------------------------------------------- the whole run

  /** How `downloadFile` ends: the bytes were written to the destination,
      or it rejected, possibly after the write stream had created (and
      partly filled) the destination file. */
  datatype FetchResult = Fetched(content: Bytes) | FetchFailed(error: JsError, leftBehind: Option<Bytes>)

  /** How `fileType.fromBuffer` settles: with the detected media type, if it
      recognised one, or by rejecting on input it cannot parse. */
  datatype Detection = Detected(mime: Option<string>) | DetectorThrew(error: JsError)

  /** The collaborators the handler calls but this model does not look into. */
  datatype Services = Services(
    fetch: string -> FetchResult,
    sniff: Bytes -> Detection,
    base64: Bytes -> string,
    complete: CompletionRequest -> CompletionResult)

  /** An outside interaction, in the order the handler performs them. */
  datatype Event = Fetch(remotePath: string, dest: string) | Read(path: string) | Remove(path: string) | Chat(request: CompletionRequest)

  /** How `handleImageUpload` ends. Every variant but `Escaped` resolves the
      promise with the string `ReplyText` gives; `Escaped` is an error thrown
      outside the `try` (a missing `file_path` or a failed download), which
      rejects the promise. `Analyzed` holds whatever `analyzeImage` resolved
      with, its own failure texts included; `Failed` is an error the `try`
      caught. */
  datatype Outcome = Rejected(reason: Rejection) | Analyzed(text: string) | Failed(error: JsError) | Escaped(error: JsError)

  /** The string the handler's promise resolves with. */
  function ReplyText(outcome: Outcome): string
    requires !outcome.Escaped?
  {
    match outcome
    case Rejected(reason) => RejectionMessage(reason)
    case Analyzed(text) => text
    case Failed(e) => "Image processing error: " + e.message
  }

  /** `/tmp/${fileInfo.file_id}`. */
  function TempPath(fileId: string): string
  {
    TempDir + fileId
  }

  /** The result of one run: the outcome, the filesystem afterwards, and the
      interactions performed. */
  datatype Run = Run(outcome: Outcome, files: map<string, Bytes>, events: seq<Event>)

  /** `handleImageUpload` on a filesystem `files`. */
  function UploadRun(cfg: Config, svc: Services, info: FileInfo, prompt: string, model: string,
                     files: map<string, Bytes>): (run: Run)
    ensures run.events == [] <==> !CheckGuards(info, model).Proceed?
    ensures run.events == [] ==> run.files == files
    ensures run.events != [] ==> run.events[0] == Fetch(CheckGuards(info, model).path, TempPath(info.fileId))
  {
    match CheckGuards(info, model)
    case Refuse(reason) => Run(Rejected(reason), files, [])
    case Throw(e) => Run(Escaped(e), files, [])
    case Proceed(path) =>
      var tmp := TempPath(info.fileId);
      match svc.fetch(path)
      case FetchFailed(e, leftBehind) =>
        Run(Escaped(e), if leftBehind.Some? then files[tmp := leftBehind.value] else files, [Fetch(path, tmp)])
      case Fetched(content) =>
        var steps := Inspect(cfg, svc, info, prompt, model, content);
        Run(steps.outcome, if steps.keepsTemp then files[tmp := content] else files - {tmp},
            [Fetch(path, tmp)] + steps.events)
  }

  /** The outcome of the steps after a download, the events they cause, and
      whether the temporary file is still there afterwards. */
  datatype Steps = Steps(outcome: Outcome, events: seq<Event>, keepsTemp: bool)

  /** The `try` block after a successful download of `content`: read the
      temporary file, check its detected type, remove the file, and analyse
      the image when the type is supported. A detector that throws skips
      the removal, and the catch answers with its message. */
  function Inspect(cfg: Config, svc: Services, info: FileInfo, prompt: string, model: string,
                   content: Bytes): (steps: Steps)
    ensures steps.keepsTemp <==> svc.sniff(content).DetectorThrew?
    ensures |steps.events| >= 1 && steps.events[0] == Read(TempPath(info.fileId))
    ensures !steps.keepsTemp ==> |steps.events| >= 2 && steps.events[1] == Remove(TempPath(info.fileId))
    ensures |steps.events| <= 3 && (|steps.events| == 3 ==> steps.events[2].Chat?)
  {
    var tmp := TempPath(info.fileId);
    match svc.sniff(content)
    case DetectorThrew(e) => Steps(Failed(e), [Read(tmp)], true)
    case Detected(detected) =>
      if !IsSupportedImage(detected) then
        Steps(Rejected(ContentMismatch), [Read(tmp), Remove(tmp)], false)
      else
        var a := AnalyzeImage(cfg, svc.complete, svc.base64(content), detected.value, prompt, model);
        Steps(Settle(a.result), [Read(tmp), Remove(tmp), Chat(a.request)], false)
  }

  /** How a settled analysis becomes the handler's outcome: a returned text
      is the reply, and an error thrown out of `analyzeImage` is caught. */
  function Settle(result: Settled): Outcome
  {
    match result
    case Returns(text) => Analyzed(text)
    case Throws(e) => Failed(e)
  }

  /** A file any of the three synchronous guards refuses is answered with
      that guard's message; nothing is downloaded, written or removed. */
  lemma GuardRejectionHasNoEffect(cfg: Config, svc: Services, info: FileInfo, prompt: string, model: string,
                                  files: map<string, Bytes>)
    requires CheckGuards(info, model).Refuse?
    ensures UploadRun(cfg, svc, info, prompt, model, files) == Run(Rejected(CheckGuards(info, model).reason), files, [])
  {
  }

  /** A file without a `file_path` that passes the size and model checks
      rejects the handler's promise with the TypeError, before any download
      and with the filesystem untouched. */
  lemma MissingPathEscapes(cfg: Config, svc: Services, info: FileInfo, prompt: string, model: string,
                           files: map<string, Bytes>)
    requires !Oversized(info) && model in {"gpt-4o", "gpt-4o-mini", "gpt-4"} && info.filePath.None?
    ensures UploadRun(cfg, svc, info, prompt, model, files) == Run(Escaped(ReadOfUndefined("split")), files, [])
  {
    MissingPathThrows(info, model);
  }

  /** An oversized file gets the size message whatever its model and
      extension, and nothing is downloaded or written. */
  lemma OversizedRejectedFirst(cfg: Config, svc: Services, info: FileInfo, prompt: string, model: string,
                               files: map<string, Bytes>)
    requires info.fileSize.Some? && info.fileSize.value > MaxFileSize
    ensures var run := UploadRun(cfg, svc, info, prompt, model, files);
            && run == Run(Rejected(TooLarge), files, [])
            && ReplyText(run.outcome) == "File size exceeds the 10MB limit."
  {
  }

  /** A failed download escapes the handler unchanged; it happens after the
      guards and before any read, and whatever the write stream left at the
      temporary path stays there, with every other file as it was. */
  lemma DownloadFailureEscapes(cfg: Config, svc: Services, info: FileInfo, prompt: string, model: string,
                               files: map<string, Bytes>)
    requires CheckGuards(info, model).Proceed? && svc.fetch(CheckGuards(info, model).path).FetchFailed?
    ensures var run := UploadRun(cfg, svc, info, prompt, model, files);
            var failure := svc.fetch(info.filePath.value);
            var tmp := TempPath(info.fileId);
            && run.outcome == Escaped(failure.error)
            && run.events == [Fetch(info.filePath.value, tmp)]
            && run.files == if failure.leftBehind.Some? then files[tmp := failure.leftBehind.value] else files
  {
  }

  /** The bytes a successful download delivered for a file that passed the
      guards. */
  function Downloaded(svc: Services, info: FileInfo, model: string): Bytes
    requires CheckGuards(info, model).Proceed? && svc.fetch(CheckGuards(info, model).path).Fetched?
  {
    svc.fetch(CheckGuards(info, model).path).content
  }

  /** When the sniffed type is missing or not JPEG/PNG, the temporary file is
      read, removed, and the mismatch message is the answer; no chat call. */
  lemma ContentMismatchRemovesTempFile(cfg: Config, svc: Services, info: FileInfo, prompt: string, model: string,
                                       files: map<string, Bytes>)
    requires CheckGuards(info, model).Proceed? && svc.fetch(CheckGuards(info, model).path).Fetched?
    requires var detection := svc.sniff(Downloaded(svc, info, model));
             detection.Detected? && (detection.mime.None? || detection.mime.value !in {"image/jpeg", "image/png"})
    ensures var run := UploadRun(cfg, svc, info, prompt, model, files);
            var tmp := TempPath(info.fileId);
            && run.outcome == Rejected(ContentMismatch)
            && run.files == files - {tmp}
            && run.events == [Fetch(info.filePath.value, tmp), Read(tmp), Remove(tmp)]
  {
    var detection := svc.sniff(Downloaded(svc, info, model));
    assert !IsSupportedImage(detection.mime);
  }

  /** When the detector itself throws, the catch answers with its message,
      and the temporary file, already read but never removed, stays behind
      with the downloaded bytes. */
  lemma DetectorFailureKeepsTempFile(cfg: Config, svc: Services, info: FileInfo, prompt: string, model: string,
                                     files: map<string, Bytes>)
    requires CheckGuards(info, model).Proceed? && svc.fetch(CheckGuards(info, model).path).Fetched?
    requires svc.sniff(Downloaded(svc, info, model)).DetectorThrew?
    ensures var run := UploadRun(cfg, svc, info, prompt, model, files);
            var error := svc.sniff(Downloaded(svc, info, model)).error;
            var tmp := TempPath(info.fileId);
            && run.outcome == Failed(error)
            && ReplyText(run.outcome) == "Image processing error: " + error.message
            && run.events == [Fetch(info.filePath.value, tmp), Read(tmp)]
            && run.files == files[tmp := Downloaded(svc, info, model)]
  {
  }

  /** On the accepted path the temporary file is read and removed before
      the one chat call, whose request carries the detected type (not the
      extension) and the encoded bytes; the reply is whatever that analysis
      settles to. */
  lemma AcceptedImageAnalyzed(cfg: Config, svc: Services, info: FileInfo, prompt: string, model: string,
                              files: map<string, Bytes>)
    requires CheckGuards(info, model).Proceed? && svc.fetch(CheckGuards(info, model).path).Fetched?
    requires var detection := svc.sniff(Downloaded(svc, info, model));
             detection.Detected? && IsSupportedImage(detection.mime)
    ensures var run := UploadRun(cfg, svc, info, prompt, model, files);
            var content := Downloaded(svc, info, model);
            var a := AnalyzeImage(cfg, svc.complete, svc.base64(content), svc.sniff(content).mime.value, prompt, model);
            var tmp := TempPath(info.fileId);
            && run.events == [Fetch(info.filePath.value, tmp), Read(tmp), Remove(tmp), Chat(a.request)]
            && run.files == files - {tmp}
            && run.outcome == Settle(a.result)
  {
  }

  /** An API error response whose body has no `error` object makes the
      catch block of `analyzeImage` throw a TypeError: reading `message` of
      the missing `error`, or reading `error` of a missing `data`. The
      handler's own catch turns it into an `Image processing error:` reply. */
  lemma MalformedApiErrorCaught(cfg: Config, svc: Services, info: FileInfo, prompt: string, model: string,
                                files: map<string, Bytes>)
    requires CheckGuards(info, model).Proceed? && svc.fetch(CheckGuards(info, model).path).Fetched?
    requires var detection := svc.sniff(Downloaded(svc, info, model));
             detection.Detected? && IsSupportedImage(detection.mime)
    requires var content := Downloaded(svc, info, model);
             var reply := svc.complete(AnalysisRequest(cfg, svc.base64(content), svc.sniff(content).mime.value, prompt, model));
             reply.CallFailed? && reply.error.response.Some? && !reply.error.response.value.body.ErrorObject?
    ensures var content := Downloaded(svc, info, model);
            var reply := svc.complete(AnalysisRequest(cfg, svc.base64(content), svc.sniff(content).mime.value, prompt, model));
            var missing := if reply.error.response.value.body.NoData? then "error" else "message";
            var run := UploadRun(cfg, svc, info, prompt, model, files);
            && run.outcome.Failed?
            && ReplyText(run.outcome) == "Image processing error: " + ReadOfUndefined(missing).message
  {
    var content := Downloaded(svc, info, model);
    AcceptedImageAnalyzed(cfg, svc, info, prompt, model, files);
    AnalysisOutcome(cfg, svc.complete, svc.base64(content), svc.sniff(content).mime.value, prompt, model);
  }

  /** The temporary file's lifecycle once the download succeeded: it is
      gone afterwards exactly when the handler removed it, it is removed
      exactly when the detector settled, and the removal comes right after
      the read, before any chat call. */
  lemma TempFileLifecycle(cfg: Config, svc: Services, info: FileInfo, prompt: string, model: string,
                          files: map<string, Bytes>)
    requires CheckGuards(info, model).Proceed? && svc.fetch(CheckGuards(info, model).path).Fetched?
    ensures var run := UploadRun(cfg, svc, info, prompt, model, files);
            var tmp := TempPath(info.fileId);
            && (tmp !in run.files <==> Remove(tmp) in run.events)
            && (Remove(tmp) in run.events <==> svc.sniff(Downloaded(svc, info, model)).Detected?)
            && (Remove(tmp) in run.events ==> run.events[..3] == [Fetch(info.filePath.value, tmp), Read(tmp), Remove(tmp)])
  {
    var run := UploadRun(cfg, svc, info, prompt, model, files);
    var tmp := TempPath(info.fileId);
    var steps := Inspect(cfg, svc, info, prompt, model, Downloaded(svc, info, model));
    assert run.events == [Fetch(info.filePath.value, tmp)] + steps.events;
    if steps.keepsTemp {
      assert run.events == [Fetch(info.filePath.value, tmp), Read(tmp)];
    }
  }

  /** A gif is refused by its extension before any download. */
  lemma GifScenario(cfg: Config, svc: Services, files: map<string, Bytes>)
    ensures UploadRun(cfg, svc, FileInfo("f1", Some("photo.gif"), Some(1000)), "describe", "gpt-4o", files)
         == Run(Rejected(UnsupportedExtension), files, [])
  {
    var info := FileInfo("f1", Some("photo.gif"), Some(1000));
    GifExtension();
    ExtensionGuard(info, "gpt-4o");
    GuardRejectionHasNoEffect(cfg, svc, info, "describe", "gpt-4o", files);
  }

  /** An 11 MB png is refused by its size before any download. */
  lemma OversizedScenario(cfg: Config, svc: Services, files: map<string, Bytes>)
    ensures var run := UploadRun(cfg, svc, FileInfo("f2", Some("photo.png"), Some(11000000)), "describe", "gpt-4o", files);
            && run == Run(Rejected(TooLarge), files, [])
            && ReplyText(run.outcome) == "File size exceeds the 10MB limit."
  {
  }

  // -------------------------------------------------------- the host

  /** Writing a file and then removing it leaves the filesystem as removing
      it alone would. */
  lemma RemoveAfterWrite(files: map<string, Bytes>, path: string, content: Bytes)
    ensures files[path := content] - {path} == files - {path}
  {
  }

  /** The process running the handler: its local filesystem and the log of
      its outside interactions. */
  class Host {
    var files: map<string, Bytes>
    var trace: seq<Event>

    constructor (initial: map<string, Bytes>)
      ensures files == initial && trace == []
    {
      files := initial;
      trace := [];
    }

    /** `downloadFile(filePath, destPath)`: stream the remote file into
        `destPath`, or reject. */
    method Download(svc: Services, remotePath: string, destPath: string) returns (error: Option<JsError>)
      modifies this
      ensures trace == old(trace) + [Fetch(remotePath, destPath)]
      ensures match svc.fetch(remotePath)
              case Fetched(content) => error.None? && files == old(files)[destPath := content]
              case FetchFailed(e, leftBehind) =>
                && error == Some(e)
                && files == if leftBehind.Some? then old(files)[destPath := leftBehind.value] else old(files)
    {
      trace := trace + [Fetch(remotePath, destPath)];
      match svc.fetch(remotePath)
      case Fetched(content) =>
        files := files[destPath := content];
        error := None;
      case FetchFailed(e, leftBehind) =>
        if leftBehind.Some? {
          files := files[destPath := leftBehind.value];
        }
        error := Some(e);
    }

    /** `fs.readFileSync(path)` of a file that exists. */
    method ReadFileSync(path: string) returns (content: Bytes)
      requires path in files
      modifies this
      ensures files == old(files) && content == files[path]
      ensures trace == old(trace) + [Read(path)]
    {
      content := files[path];
      trace := trace + [Read(path)];
    }

    /** `fs.unlinkSync(path)` of a file that exists. */
    method UnlinkSync(path: string)
      requires path in files
      modifies this
      ensures files == old(files) - {path}
      ensures trace == old(trace) + [Remove(path)]
    {
      files := files - {path};
      trace := trace + [Remove(path)];
    }

    /** `handleImageUpload(fileInfo, prompt, model)`, step by step. */
    method HandleImageUpload(cfg: Config, svc: Services, info: FileInfo, prompt: string, model: string)
      returns (outcome: Outcome)
      modifies this
      ensures var run := UploadRun(cfg, svc, info, prompt, model, old(files));
              && outcome == run.outcome
              && files == run.files
              && trace == old(trace) + run.events
      ensures outcome.Analyzed? || outcome == Rejected(ContentMismatch) ==> TempPath(info.fileId) !in files
    {
      match CheckGuards(info, model)
      case Refuse(reason) =>
        return Rejected(reason);
      case Throw(e) =>
        return Escaped(e);
      case Proceed(path) =>
        var tmp := TempPath(info.fileId);
        var downloadError := Download(svc, path, tmp);
        if downloadError.Some? {
          return Escaped(downloadError.value);
        }
        outcome := InspectDownload(cfg, svc, info, prompt, model);
        RemoveAfterWrite(old(files), tmp, svc.fetch(path).content);
    }

    /** The steps after a successful download, on the file it wrote. */
    method InspectDownload(cfg: Config, svc: Services, info: FileInfo, prompt: string, model: string)
      returns (outcome: Outcome)
      requires TempPath(info.fileId) in files
      modifies this
      ensures var tmp := TempPath(info.fileId);
              var steps := Inspect(cfg, svc, info, prompt, model, old(files)[tmp]);
              && outcome == steps.outcome
              && files == (if steps.keepsTemp then old(files) else old(files) - {tmp})
              && trace == old(trace) + steps.events
    {
      var tmp := TempPath(info.fileId);
      var buffer := ReadFileSync(tmp);
      match svc.sniff(buffer)
      case DetectorThrew(e) =>
        return Failed(e);
      case Detected(detected) =>
        if !IsSupportedImage(detected) {
          UnlinkSync(tmp);
          return Rejected(ContentMismatch);
        }
        var base64 := svc.base64(buffer);
        UnlinkSync(tmp);
        var analysis := AnalyzeImage(cfg, svc.complete, base64, detected.value, prompt, model);
        trace := trace + [Chat(analysis.request)];
        outcome := Settle(analysis.result);
    }
  }
}
