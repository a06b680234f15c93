# Image upload and image generation handlers, modelled in Dafny

The bot has two request handlers:

- `handleImageUpload` takes a Telegram file descriptor, a prompt and a chat model. It runs the file through a guard chain:
  - the size is at most 10 MiB;
  - the model is on the allow-list;
  - the lower-cased extension is jpg, jpeg or png.
- A missing `file_path` makes the extension step throw outside the `try`.
- It then downloads the file to `/tmp/<file_id>`, reads it back and sniffs its real type, and removes the temporary file. If the detector throws, the `try` catches the error before the removal, and the file stays.
- It hands `analyzeImage` the base64 text of the bytes and the detected media type.
- `analyzeImage` builds an inline `data:<mime>;base64,<payload>` reference from them (RFC 2397, section 3). It sends one chat-completion request with `max_tokens: 300`. It answers the first choice's text. Failures become text with a fixed precedence: a server answer, then a request that got no answer, then any other error.
- `generateImage` checks the requested size against three allowed sizes. It then sends one image-generation request with `n: 1`, and answers the first returned URL or throws.

The project has four files:

- `common.dfy`: optional values, bytes, and the shape of a thrown JavaScript error (`message`, `response`, `request`).
- `strings.dfy`: the JavaScript string operations the handlers use, each with a partner:
  - `split` with `join`;
  - `${n}` number rendering with reading the digits back;
  - `toLowerCase` restricted to ASCII.

  It also holds a first-occurrence search. Only the model's data-URI parser uses it; the handlers never call `indexOf`.
- `upload_handler.dfy`:
  - the guard chain as pure functions;
  - the data URI with its parser and round trip;
  - `analyzeImage` as a function of an oracle completion call;
  - `UploadRun`, a pure specification of one whole run: outcome, filesystem afterwards, and interactions in order;
  - a `Host` class with a `files` map (the local filesystem) and a `trace` of outside interactions. Its `HandleImageUpload` method performs the steps one by one and is proved to agree with `UploadRun`.
- `generate_image.dfy`: `generateImage` over an oracle image API. It returns the result and the list of requests sent, so that "no request was made" can be stated.

The outside world enters as oracles:

- the download, as an outcome per remote path;
- the `file-type` detector;
- the base64 encoder;
- the two OpenAI calls.

## Model

| member | source | states |
|---|---|---|
| Strings.Split | src/uploadHandler.js:29 | `split('.')` gives at least one piece and no piece holds the separator. A text without the separator gives exactly itself; a text with it gives at least two pieces. |
| Strings.JoinSplit | src/uploadHandler.js:29 | Joining the pieces of a split with the same separator gives the text back. |
| Strings.LastOfSplit | src/uploadHandler.js:29 | The piece `.pop()` takes is a suffix of the text. It is either the whole text or preceded by the separator, so it is the text after the last separator. |
| Strings.ToLower | src/uploadHandler.js:29 | `toLowerCase` keeps the length and maps each character by its ASCII lower-case. |
| Strings.LowerKeepsOther | src/uploadHandler.js:29 | Lower-casing neither adds nor removes a character that is not a letter (here the dot). |
| Strings.NatToString | src/uploadHandler.js:106 | The `${status}` rendering is a non-empty run of decimal digits with no leading zero unless the number is 0. |
| Strings.NatToStringRoundTrip | src/uploadHandler.js:106 | Reading the rendered digits back gives the status number. |
| Strings.Join | src/uploadHandler.js:25 | `join(', ')` of the allow-lists. The joined texts are spelled out by the three `…SpelledOut` lemmas. |
| UploadHandler.ModelMessageSpelledOut | src/uploadHandler.js:13-25 | The model message is the fixed prefix followed by `gpt-4o, gpt-4o-mini, gpt-4`. |
| UploadHandler.ExtensionMessageSpelledOut | src/uploadHandler.js:15-31 | The extension message is the fixed prefix followed by `jpg, jpeg, png`. |
| UploadHandler.RejectionMessage | src/uploadHandler.js:19-45 | Each rejection's answer text, the templated ones built by joining the allow-lists with `, `. |
| UploadHandler.Oversized | src/uploadHandler.js:19 | A size is reported and strictly above 10 MiB; a missing size compares false. |
| UploadHandler.CheckGuards | src/uploadHandler.js:19-32 | The verdict proceeds only with the file's own path, and only when its extension is jpg, jpeg or png. It never refuses with the content-mismatch reason. It throws exactly when size and model pass and the path is missing. |
| UploadHandler.FileExtension | src/uploadHandler.js:29 | The extension holds no dot. It is the lower-cased suffix of the path that is either the whole path or starts right after a dot. |
| UploadHandler.SizeGuard | src/uploadHandler.js:12-20 | The size rejection happens if and only if a size is reported and it is strictly above 10485760. Exactly 10 MiB passes, and so does a missing size. |
| UploadHandler.ModelGuard | src/uploadHandler.js:13-25 | The model rejection happens if and only if the size passes and the model is none of gpt-4o, gpt-4o-mini, gpt-4. |
| UploadHandler.ExtensionGuard | src/uploadHandler.js:15-31 | The extension rejection happens if and only if size and model pass, a path is present, and its extension is none of jpg, jpeg, png. |
| UploadHandler.MissingPathThrows | src/uploadHandler.js:29 | The guards throw the `split` TypeError if and only if size and model pass and there is no `file_path`. |
| UploadHandler.ExtensionAfterLastDot | src/uploadHandler.js:29 | For any stem and any dot-free `ext`, the extension of `stem.ext` is `ext` lower-cased. |
| UploadHandler.UpperCaseExtension | src/uploadHandler.js:29-30 | `PHOTO.PNG` has extension `png`, which is accepted. |
| UploadHandler.GifExtension | src/uploadHandler.js:29-30 | `photo.gif` has extension `gif`, which is refused. |
| UploadHandler.IsSupportedImage | src/uploadHandler.js:43 | The detected type passes if and only if one was detected and it is image/jpeg or image/png. |
| UploadHandler.DataUri | src/uploadHandler.js:93 | The `data:<mime>;base64,<payload>` template. Its meaning is given by the two lemmas below. |
| UploadHandler.DataUriRoundTrip | src/uploadHandler.js:93 | A `data:<mime>;base64,<payload>` reference built from a `;`-free media type parses back to that media type and payload. |
| UploadHandler.ParsedDataUriIsBuilt | src/uploadHandler.js:93 | Whatever parses is exactly the reference built from its parts. With the round trip, the construction is injective. |
| UploadHandler.AnalysisRequest | src/uploadHandler.js:82-100 | The chat request `analyzeImage` sends. Its content is stated by `AnalysisRequestCarriesImage`. |
| UploadHandler.AnalysisRequestCarriesImage | src/uploadHandler.js:82-98 | The request uses the caller's model and `max_tokens` 300, carries the prompt, and carries exactly one image reference. That reference is the data URI of the given media type and payload, and it parses back to them. |
| UploadHandler.DescribeFailure | src/uploadHandler.js:103-111 | The catch block throws exactly when the error has a `response` whose body lacks `error.message`. What it throws is a plain TypeError with neither `response` nor `request`. |
| UploadHandler.FailurePrecedence | src/uploadHandler.js:105-111 | A server answer gives `API Error: <status> - <message>`, whose status is the HTTP status in decimal, without leading zeros. Otherwise a sent request gives the no-response text. Otherwise the text is `Error: <message>`. |
| UploadHandler.AnalyzeImage | src/uploadHandler.js:80-113 | The request sent is the analysis request. The call settles by throwing only if the completion call failed. A non-empty choice list gives its first text. |
| UploadHandler.AnalysisOutcome | src/uploadHandler.js:55-60 | The handler's outcome follows from the chat reply in every case. The first choice wins. An empty choice list gives the `Error:` text of the TypeError. A failed call gives the described text, or a caught error when describing it throws. |
| UploadHandler.Settle | src/uploadHandler.js:55-60 | A text `analyzeImage` resolves with is the answer; an error it throws is caught by the handler. |
| UploadHandler.ReplyText | src/uploadHandler.js:57-60 | The string the handler resolves with: the rejection text, the analysis text, or `Image processing error: <message>` for a caught error. |
| UploadHandler.TempPath | src/uploadHandler.js:35 | The temporary path `/tmp/<file_id>`. |
| UploadHandler.UploadRun | src/uploadHandler.js:17-62 | A run has no interactions if and only if the guards do not proceed, and then the filesystem is unchanged. Otherwise the first interaction is the download of the file's path to `/tmp/<file_id>`. |
| UploadHandler.Inspect | src/uploadHandler.js:38-57 | The temporary file is kept if and only if the detector threw. The steps start with the read. When the file is removed, the removal comes second, before any chat call, and a chat call can only come third. |
| UploadHandler.GuardRejectionHasNoEffect | src/uploadHandler.js:17-36 | A guard rejection answers with that guard's reason. Nothing is downloaded, read, removed or sent, and the filesystem is unchanged. |
| UploadHandler.MissingPathEscapes | src/uploadHandler.js:17-36 | A file with no `file_path` that passes the size and model checks rejects the promise with the `split` TypeError. It makes no interaction and leaves the filesystem unchanged. |
| UploadHandler.OversizedRejectedFirst | src/uploadHandler.js:17-32 | An oversized file gets the size message whatever its model and extension, and has no effect. |
| UploadHandler.DownloadFailureEscapes | src/uploadHandler.js:34-38 | A failed download escapes with its own error after exactly one interaction. The filesystem afterwards is the old one, plus whatever the stream wrote at `/tmp/<file_id>`. |
| UploadHandler.ContentMismatchRemovesTempFile | src/uploadHandler.js:35-45 | A detected type that is missing or not JPEG/PNG gives the mismatch rejection. The temporary file is read and then removed, every other file is unchanged, and no chat call is made. |
| UploadHandler.DetectorFailureKeepsTempFile | src/uploadHandler.js:38-60 | If the detector throws, the answer is `Image processing error: <its message>`. The only interactions are the download and the read, and the temporary file stays with the downloaded bytes. |
| UploadHandler.AcceptedImageAnalyzed | src/uploadHandler.js:48-57 | On the accepted path the temporary file is read and removed, and only then is the one chat call made. The call is built from the detected type and the encoded bytes. The outcome is what that analysis settles to, and the filesystem is the old one without the temporary file. |
| UploadHandler.MalformedApiErrorCaught | src/uploadHandler.js:58-60 | An API error response without an `error` object ends as the `Image processing error:` reply. The TypeError reads `message` of a missing `error`, or `error` of a missing `data`. |
| UploadHandler.TempFileLifecycle | src/uploadHandler.js:38-57 | After a successful download, `/tmp/<file_id>` is gone if and only if the handler removed it. It is removed if and only if the detector settled. A removal comes right after the read and before any chat call. |
| UploadHandler.GifScenario | src/uploadHandler.js:28-32 | `photo.gif` with gpt-4o is refused with the extension rejection before any download. |
| UploadHandler.OversizedScenario | src/uploadHandler.js:19-20 | An 11000000-byte `photo.png` gets "File size exceeds the 10MB limit." and no download. |
| UploadHandler.Host.Download | src/uploadHandler.js:64-78 | The download records one fetch. On success the bytes are at the destination. On failure it returns the error and keeps whatever the stream left. |
| UploadHandler.Host.ReadFileSync | src/uploadHandler.js:40 | Reading returns the stored bytes and changes no file. |
| UploadHandler.Host.UnlinkSync | src/uploadHandler.js:44 | Unlinking removes exactly that path. |
| UploadHandler.Host.InspectDownload | src/uploadHandler.js:38-57 | The steps after the download give the outcome and interactions of `Inspect`. They remove the temporary file unless the detector threw, and change nothing else. |
| UploadHandler.Host.HandleImageUpload | src/uploadHandler.js:17-62 | The method's outcome, filesystem and trace are those of `UploadRun` on the old filesystem. After an analysed answer or a content-mismatch answer, `/tmp/<file_id>` no longer exists. |
| GenerateImage.GenerateImage | src/generateImage.js:11-39 | At most one request is made, and none exactly when the size is invalid. Each request has the configured model, the prompt, `n` 1 and the effective size. A URL is answered only from a non-empty `data`, as its first entry. A failed call rethrows its own error. |
| GenerateImage.EffectiveSize | src/generateImage.js:11 | The `size = '1024x1024'` default: an omitted size is 1024x1024. |
| GenerateImage.InvalidSizeMessageSpelledOut | src/generateImage.js:9-15 | The invalid-size message lists `1024x1024, 1792x1024, 1024x1792`. |
| GenerateImage.InvalidSizeFailsFast | src/generateImage.js:13-16 | Any size other than the three throws the invalid-size error, and no request is made. |
| GenerateImage.DefaultSizeAccepted | src/generateImage.js:9-11 | Omitting the size sends exactly one request, for 1024x1024. |
| GenerateImage.FirstUrlOrFailure | src/generateImage.js:18-38 | With a valid size exactly one request is sent. The answer is `data[0].url` for a non-empty list. A missing or empty list throws the generation-failed error. A failed call rethrows its error unchanged. |
| GenerateImage.SmallSizeScenario | src/generateImage.js:13-16 | A 512x512 request throws the invalid-size error without any request. |

## Left out

- The HTTP download (axios streaming, the Telegram URL and its bot token) is an oracle per remote path. It either delivers the bytes or rejects, possibly after leaving a partial file. A stream that never settles is not modelled.
- `file-type` detection is an oracle from bytes to a detected media type (or none), or a thrown error (`DetectorThrew`).
- `Buffer.toString('base64')` is an opaque encoder (RFC 4648, section 4 is not restated).
- The OpenAI calls are oracles from request to reply or error.
  - Only `message.content` of each choice is kept. A choice whose `message.content` is null, and an image entry without `url`, are not modelled.
  - An error without a string `message` is not modelled.
- Logging, client construction and the configuration values are left out. The system role and message are parameters.
- Async scheduling and the race of two uploads with the same `file_id` on one temporary path are out of scope for a sequential model.
- UploadHandler.Host.ReadFileSync: failures of `fs.readFileSync` are excluded by its precondition, because on the handler's path the file was just written by the download. A read that threw anyway would be caught as `Image processing error: …` and would leave the temporary file behind. `UploadHandler.UploadRun` and `UploadHandler.Host.HandleImageUpload` do not model that path.
- UploadHandler.Host.UnlinkSync: failures of `fs.unlinkSync` are excluded by its precondition, for the same reason.
- Strings.ToLower: only ASCII letters are lower-cased. For the jpg/jpeg/png decision this agrees with full Unicode `toLowerCase`: no non-ASCII character lower-cases to j, p, e, g or n.
- The temporary file is not removed on every path:
  - A failed download sits outside the `try`, escapes, and keeps whatever the stream wrote at `/tmp/<file_id>` (`DownloadFailureEscapes`).
  - A detector that throws is caught before the removal, and the downloaded file stays (`DetectorFailureKeepsTempFile`).
- An error response whose body has no `error` object (or no `data`) makes the catch block of `analyzeImage` throw. The handler's outer catch then answers `Image processing error: …` (`MalformedApiErrorCaught`).
- The TypeError texts (`Cannot read properties of undefined (reading '…')`) use the wording of Node.js 16.9 and later. Older Node.js says `Cannot read property '…' of undefined`. The reply texts stated by `AnalysisOutcome`, `MalformedApiErrorCaught` and `MissingPathEscapes` assume the newer runtime.
