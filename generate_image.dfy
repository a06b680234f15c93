/** Image generation (src/generateImage.js): a size allow-list checked
    before anything is sent, one request to the image-generation service,
    and the first returned URL as the answer. The service is an oracle
    from request to reply; the requests issued are returned beside the
    result so that "nothing was sent" can be stated. */
module GenerateImage {
  import opened Common
  import opened Strings

  const ValidSizes: seq<string> := ["1024x1024", "1792x1024", "1024x1792"]
  const DefaultSize: string := "1024x1024"
  const InvalidSizeMessage: string :=
    "Invalid size. Please use one of the following valid sizes: " + Join(ValidSizes, ", ")
  /** "Image generation failed, no image URL was returned." */
  const NoImageMessage: string := "生成图片失败，未返回图片URL。"

  datatype ImagesRequest = ImagesRequest(model: string, prompt: string, n: nat, size: string)
  datatype ImageData = ImageData(url: string)
  /** The service's answer; `data` may be missing. */
  datatype ImagesResponse = ImagesResponse(data: Option<seq<ImageData>>)
  datatype ApiReply = Responded(response: ImagesResponse) | CallFailed(error: JsError)

  /** How the returned promise settles: with a URL, or by throwing. */
  datatype Result = Ok(url: string) | Err(error: JsError)

  /** The result and the requests sent to the service, in order. */
  datatype Generation = Generation(result: Result, requests: seq<ImagesRequest>)

  /** The `size = '1024x1024'` default parameter: an omitted size. */
  function EffectiveSize(size: Option<string>): string
  {
    if size.Some? then size.value else DefaultSize
  }

  /** `generateImage(prompt, size)` with `DALL_E_MODEL` as `model`. */
  function GenerateImage(model: string, api: ImagesRequest -> ApiReply, prompt: string, size: Option<string>)
    : (g: Generation)
    ensures |g.requests| <= 1
    ensures g.requests == [] <==> EffectiveSize(size) !in ValidSizes
    ensures forall r :: r in g.requests ==>
              r.model == model && r.prompt == prompt && r.n == 1 && r.size == EffectiveSize(size)
    ensures g.result.Ok? ==>
              && |g.requests| == 1
              && api(g.requests[0]).Responded?
              && var data := api(g.requests[0]).response.data;
                 data.Some? && |data.value| > 0 && g.result.url == data.value[0].url
    ensures g.requests != [] && api(g.requests[0]).CallFailed? ==> g.result == Err(api(g.requests[0]).error)
  {
    var s := EffectiveSize(size);
    if s !in ValidSizes then Generation(Err(PlainError(InvalidSizeMessage)), [])
    else
      var request := ImagesRequest(model, prompt, 1, s);
      var result := match api(request)
        case CallFailed(e) => Err(e)
        case Responded(response) =>
          if response.data.Some? && |response.data.value| > 0 then Ok(response.data.value[0].url)
          else Err(PlainError(NoImageMessage));
      Generation(result, [request])
  }

  /** The invalid-size message lists the three sizes. */
  lemma InvalidSizeMessageSpelledOut()
    ensures InvalidSizeMessage
         == "Invalid size. Please use one of the following valid sizes: " + "1024x1024, 1792x1024, 1024x1792"
  {
    assert Join(ValidSizes, ", ") == "1024x1024, 1792x1024, 1024x1792";
  }

  /** A size outside the three allowed ones throws the invalid-size error,
      and no request is sent. */
  lemma InvalidSizeFailsFast(model: string, api: ImagesRequest -> ApiReply, prompt: string, size: string)
    requires size !in {"1024x1024", "1792x1024", "1024x1792"}
    ensures GenerateImage(model, api, prompt, Some(size)) == Generation(Err(PlainError(InvalidSizeMessage)), [])
  {
  }

  /** The default size is itself allowed: omitting the size sends exactly
      one request, for a 1024x1024 image. */
  lemma DefaultSizeAccepted(model: string, api: ImagesRequest -> ApiReply, prompt: string)
    ensures GenerateImage(model, api, prompt, None).requests == [ImagesRequest(model, prompt, 1, "1024x1024")]
  {
  }

  /** With an allowed size exactly one request is sent, with `n: 1`; the
      answer is the first URL, a missing or empty list throws the
      generation-failed error, and a failed call rethrows its own error. */
  lemma FirstUrlOrFailure(model: string, api: ImagesRequest -> ApiReply, prompt: string, size: Option<string>)
    requires EffectiveSize(size) in {"1024x1024", "1792x1024", "1024x1792"}
    ensures var request := ImagesRequest(model, prompt, 1, EffectiveSize(size));
            var g := GenerateImage(model, api, prompt, size);
            && g.requests == [request]
            && match api(request)
               case CallFailed(e) => g.result == Err(e)
               case Responded(ImagesResponse(Some(data))) =>
                 g.result == if |data| > 0 then Ok(data[0].url) else Err(PlainError(NoImageMessage))
               case Responded(ImagesResponse(None)) => g.result == Err(PlainError(NoImageMessage))
  {
  }

  /** The scenario of a 512x512 request: rejected before any call. */
  lemma SmallSizeScenario(model: string, api: ImagesRequest -> ApiReply)
    ensures var g := GenerateImage(model, api, "a red cube", Some("512x512"));
            && g.requests == []
            && g.result.Err? && g.result.error.message == InvalidSizeMessage
  {
  }
}
