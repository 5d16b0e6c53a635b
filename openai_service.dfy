/** besselchu/services/openaiService.ts: the browser client of the three serverless
    endpoints, with the daily cache in front of the bestseller call. */
module OpenAIService {
  import opened Wrappers
  import opened Text
  import opened Types
  import opened Images
  import opened DailyCache
  import BestsellersApi
  import GenerateContentApi
  import GenerateImageApi

  /** `fetchKyoboBestsellers`: a cache hit, or `GET /api/bestsellers` whose parsed body is
      stored on success; a not-ok answer or a thrown error becomes the one failure message. */
  method FetchKyoboBestsellers(slot: CacheSlot, today: string, response: FetchOutcome<SearchResult>)
    returns (r: Result<SearchResult, string>, called: bool)
    modifies slot
    ensures slot.record == Run(old(slot.record), today, FetchedResult(response)).record
    ensures r == Run(old(slot.record), today, FetchedResult(response)).result
    ensures called == Run(old(slot.record), today, FetchedResult(response)).fetched
  {
    var hit := slot.Lookup(today);
    if hit.Some? {
      return Success(hit.value), false;
    }
    called := true;
    if !response.Ok? {
      return Failure(FetchFailedMessage), called;
    }
    var result := response.value;
    slot.Store(today, result);
    r := Success(result);
  }

  /** The value an ok answer carries; None for any failure. */
  function FetchedResult(response: FetchOutcome<SearchResult>): Option<SearchResult> {
    if response.Ok? then Some(response.value) else None
  }

  /** A not-ok answer throws the failure message and leaves a parseable record in place. */
  lemma NotOkLeavesSlot(record: Option<StoredRecord>, today: string, status: int)
    requires CachedData(record, today).None? && record != Some(Unparseable)
    ensures Run(record, today, FetchedResult(NotOk(status))) == CacheRun(record, Failure(FetchFailedMessage), true)
  {
  }

  /** How the bestseller handler's answer reaches the client: a JSON answer arrives as its
      books and sources; the empty preflight answer cannot be read as JSON. */
  function DeliverBestsellers(r: BestsellersApi.BestsellerResponse): (o: FetchOutcome<SearchResult>)
    ensures o.Ok? <==> r.BestsellerJson?
    ensures o.Ok? ==> o.value.books == r.books && o.value.sourceUrls == r.sourceUrls
  {
    match r
    case Preflight => Threw
    case BestsellerJson(books, sourceUrls, _) => Ok(SearchResult(books, sourceUrls))
  }

  /** Over the bestseller handler a GET never fails: a miss stores and returns the mapped
      or the fallback list, at most ten books ranked 1..n. */
  lemma BestsellersNeverFail(record: Option<StoredRecord>, today: string, outcome: BestsellersApi.AladinOutcome)
    ensures Run(record, today, FetchedResult(DeliverBestsellers(BestsellersApi.Handle("GET", outcome)))).result.Success?
    ensures var run := Run(record, today, FetchedResult(DeliverBestsellers(BestsellersApi.Handle("GET", outcome))));
            run.fetched ==> 0 < |run.result.value.books| <= BestsellersApi.MaxBooks
                            && BestsellersApi.RankedInOrder(run.result.value.books)
                            && run.record == Some(Parsed(Some(today), Some(run.result.value)))
  {
    var r := BestsellersApi.Handle("GET", outcome);
    assert r.BestsellerJson?;
  }

  const GenerateFailedMessage := "Failed to generate content."

  /** `generateSocialContent`: the parsed body of an ok answer, or the one failure message
      with no partial content. */
  function GenerateSocialContent(response: FetchOutcome<GeneratedContent>): (r: Result<GeneratedContent, string>)
    ensures r.Success? <==> response.Ok?
    ensures r.Success? ==> r.value == response.value
    ensures r.Failure? ==> r.error == GenerateFailedMessage
  {
    match response
    case Ok(content) => Success(content)
    case _ => Failure(GenerateFailedMessage)
  }

  /** How the content handler's answer reaches the client, for a request of type `kind`;
      the body carries no image URL, and an error answer arrives as its non-2xx status. */
  function DeliverContent(kind: ContentType, r: GenerateContentApi.ContentResponse): (o: FetchOutcome<GeneratedContent>)
    ensures o.Ok? <==> r.ContentJson?
    ensures o.Ok? ==> o.value.kind == kind && o.value.imageUrl.None? && o.value.content == r.content
    ensures o.NotOk? ==> o.status == GenerateContentApi.Status(r) && o.status != 200
  {
    match r
    case Preflight => Threw
    case ContentJson(_, content, scenes, imagePrompt, originalCoverUrl) =>
      Ok(GeneratedContent(kind, content, Some(scenes), imagePrompt, None, originalCoverUrl))
    case _ => NotOk(GenerateContentApi.Status(r))
  }

  /** The `imageUrl` field of the image endpoint's answer. */
  datatype ImageBody = ImageBody(imageUrl: Option<string>)

  /** A call of `generateImage`: the body it posts and the URL it returns. */
  datatype ImageCall = ImageCall(request: GenerateImageApi.ImageRequest, imageUrl: Option<string>)

  /** `generateImage`: posts the prompt, reference and title with a square ratio; returns
      the URL of an ok answer, and None on any failure, never an error. */
  function GenerateImage(prompt: string, referenceImageUrl: Option<string>, bookTitle: Option<string>,
                         response: FetchOutcome<ImageBody>): (r: ImageCall)
    ensures r.request == GenerateImageApi.ImageRequest(prompt, referenceImageUrl, bookTitle, Some(SquareRatio))
    ensures response.Ok? ==> r.imageUrl == response.value.imageUrl
    ensures !response.Ok? ==> r.imageUrl.None?
  {
    var request := GenerateImageApi.ImageRequest(prompt, referenceImageUrl, bookTitle, Some(SquareRatio));
    match response
    case Ok(body) => ImageCall(request, body.imageUrl)
    case _ => ImageCall(request, None)
  }

  /** The outcome of `generateImagesForScenes`: the scenes and the bodies it posted. */
  datatype SceneBatch = SceneBatch(scenes: seq<Scene>, requests: seq<GenerateImageApi.ImageRequest>)

  /** `generateImagesForScenes`, its `Promise.all` taken one scene at a time: one body per
      scene, with the scene's prompt, the shared reference and title and a 9:16 ratio; the
      output keeps length and order, a scene whose answer is not ok or threw is unchanged,
      any other differs only in its image URL, which is the answer's. */
  function GenerateImagesForScenes(scenes: seq<Scene>, referenceImageUrl: Option<string>, bookTitle: Option<string>,
                                   responses: seq<FetchOutcome<ImageBody>>): (r: SceneBatch)
    requires |responses| == |scenes|
    ensures |r.scenes| == |scenes| && |r.requests| == |scenes|
    ensures forall i :: 0 <= i < |scenes| ==>
              r.requests[i] == GenerateImageApi.ImageRequest(scenes[i].imagePrompt, referenceImageUrl, bookTitle, Some(PortraitRatio))
    ensures forall i :: 0 <= i < |scenes| && !responses[i].Ok? ==> r.scenes[i] == scenes[i]
    ensures forall i :: 0 <= i < |scenes| && responses[i].Ok? ==>
              r.scenes[i].imageUrl == responses[i].value.imageUrl && r.scenes[i].(imageUrl := scenes[i].imageUrl) == scenes[i]
  {
    SceneBatch(
      seq(|scenes|, i requires 0 <= i < |scenes| =>
        match responses[i]
        case Ok(body) => scenes[i].(imageUrl := body.imageUrl)
        case _ => scenes[i]),
      seq(|scenes|, i requires 0 <= i < |scenes| =>
        GenerateImageApi.ImageRequest(scenes[i].imagePrompt, referenceImageUrl, bookTitle, Some(PortraitRatio))))
  }

  /** How the image handler's answer reaches the client: an image arrives as its URL, an
      error answer as its non-2xx status. */
  function DeliverImage(r: GenerateImageApi.ImageResponse): (o: FetchOutcome<ImageBody>)
    ensures o.Ok? <==> r.ImageJson?
    ensures o.Ok? ==> o.value.imageUrl == Some(r.imageUrl)
    ensures o.NotOk? ==> o.status == GenerateImageApi.Status(r) && o.status != 200
  {
    match r
    case Preflight => Threw
    case ImageJson(url) => Ok(ImageBody(Some(url)))
    case _ => NotOk(GenerateImageApi.Status(r))
  }

  /** Over the image handler, `generateImage` yields a URL exactly when the handler found an
      image, and that URL is the handler's PNG data URI. */
  lemma ImageThroughHandler(prompt: string, referenceImageUrl: Option<string>, bookTitle: Option<string>,
                            r: GenerateImageApi.ImageResponse)
    ensures GenerateImage(prompt, referenceImageUrl, bookTitle, DeliverImage(r)).imageUrl.Some? <==> r.ImageJson?
    ensures r.ImageJson? ==> GenerateImage(prompt, referenceImageUrl, bookTitle, DeliverImage(r)).imageUrl == Some(r.imageUrl)
  {
  }

  /** The handler keeps the client's ratios: the model is asked for a square post image and
      for 9:16 scene images. */
  lemma AspectRatiosSent(prompt: string, scenes: seq<Scene>, referenceImageUrl: Option<string>, bookTitle: Option<string>,
                         response: FetchOutcome<ImageBody>, responses: seq<FetchOutcome<ImageBody>>)
    requires |responses| == |scenes|
    ensures GenerateImageApi.AspectRatio(GenerateImage(prompt, referenceImageUrl, bookTitle, response).request.aspectRatio) == SquareRatio
    ensures forall i :: 0 <= i < |scenes| ==>
              GenerateImageApi.AspectRatio(GenerateImagesForScenes(scenes, referenceImageUrl, bookTitle, responses).requests[i].aspectRatio)
              == PortraitRatio
  {
  }
}
