/** services/geminiService.ts: the variant that calls the Gemini model from the browser.
    The model, `fetch` and `FileReader` are inputs (their outcomes); what is modelled is
    the cache, the post-processing of the bestseller reply, the content flattening and
    the assembly of image requests. */
module GeminiService {
  import opened Wrappers
  import opened Text
  import opened Types
  import opened Content
  import opened Images
  import opened DailyCache

  // ---------------------------------------------------------------- bestsellers

  datatype WebChunk = WebChunk(uri: Option<string>)

  /** A grounding chunk of the search-grounded reply. */
  datatype Chunk = Chunk(web: Option<WebChunk>)

  /** The `books` field of the parsed reply (or unusable: the parse threw). */
  datatype BooksJson = BooksUnusable | BooksObject(books: Option<seq<Book>>)

  /** The bestseller call: it threw, or it replied with text (parsed as `parsed` when
      non-empty) and grounding chunks. */
  datatype BestsellerReply = ReplyFailed | Reply(text: Option<string>, parsed: BooksJson, chunks: seq<Chunk>)

  const KyoboCoverPrefix := "https://" + "contents.kyobobook.co.kr/sih/fit-in/458x0/pdt/"

  function KyoboCoverUrl(isbnDigits: string): (r: string)
    ensures StartsWith(r, "http") && EndsWith(r, ".jpg")
  {
    var r := KyoboCoverPrefix + isbnDigits + ".jpg";
    assert r[..4] == KyoboCoverPrefix[..4] == "https://"[..4];
    assert r[|r| - 4..] == ".jpg";
    r
  }

  predicate HasHttpCover(book: Book) {
    book.coverUrl.Some? && StartsWith(book.coverUrl.value, "http")
  }

  /** The digits of a present, non-empty ISBN; "" otherwise. */
  function IsbnDigits(book: Book): string {
    if Truthy(book.isbn) then DigitsOnly(book.isbn.value) else ""
  }

  /** A cover URL that does not start with "http" is rebuilt from the ISBN's digits when
      there are at least ten of them; nothing else about the book changes. */
  function RepairCover(book: Book): (r: Book)
    ensures r.(coverUrl := book.coverUrl) == book
    ensures HasHttpCover(book) ==> r == book
    ensures !HasHttpCover(book) && |IsbnDigits(book)| >= 10 ==> r.coverUrl == Some(KyoboCoverUrl(IsbnDigits(book)))
    ensures !HasHttpCover(book) && |IsbnDigits(book)| < 10 ==> r == book
  {
    var finalCoverUrl :=
      if !Truthy(book.coverUrl) || !StartsWith(book.coverUrl.value, "http") then
        if Truthy(book.isbn) && |DigitsOnly(book.isbn.value)| >= 10
        then Some(KyoboCoverUrl(DigitsOnly(book.isbn.value)))
        else book.coverUrl
      else book.coverUrl;
    book.(coverUrl := finalCoverUrl)
  }

  /** After repair, a book whose ISBN has ten digits has an http cover URL. */
  lemma RepairedCoverIsHttp(book: Book)
    requires |IsbnDigits(book)| >= 10
    ensures HasHttpCover(RepairCover(book))
  {
  }

  /** Repairing twice is repairing once. */
  lemma RepairCoverIdempotent(book: Book)
    ensures RepairCover(RepairCover(book)) == RepairCover(book)
  {
    if !HasHttpCover(book) && |IsbnDigits(book)| >= 10 {
      RepairedCoverIsHttp(book);
    }
  }

  function RepairCovers(books: seq<Book>): (r: seq<Book>)
    ensures |r| == |books| && forall i :: 0 <= i < |books| ==> r[i] == RepairCover(books[i])
  {
    seq(|books|, i requires 0 <= i < |books| => RepairCover(books[i]))
  }

  predicate HasUri(chunk: Chunk) {
    chunk.web.Some? && Truthy(chunk.web.value.uri)
  }

  /** The `web.uri` of every chunk that has one, in chunk order. */
  function ChunkUris(chunks: seq<Chunk>): (r: seq<string>)
    ensures |r| <= |chunks|
    ensures forall u :: u in r <==> exists i :: 0 <= i < |chunks| && HasUri(chunks[i]) && chunks[i].web.value.uri.value == u
  {
    if chunks == [] then []
    else
      var last := chunks[|chunks| - 1];
      var init := chunks[..|chunks| - 1];
      var r := ChunkUris(init) + (if HasUri(last) then [last.web.value.uri.value] else []);
      assert forall i :: 0 <= i < |init| ==> init[i] == chunks[i];
      r
  }

  /** Collecting is done chunk by chunk in order: the URIs of a concatenation are those of
      the first list followed by those of the second. */
  lemma {:induction false} ChunkUrisAppend(a: seq<Chunk>, b: seq<Chunk>)
    ensures ChunkUris(a + b) == ChunkUris(a) + ChunkUris(b)
    decreases |b|
  {
    if b == [] {
      assert a + b == a;
    } else {
      var init := b[..|b| - 1];
      assert (a + b)[..|a + b| - 1] == a + init;
      ChunkUrisAppend(a, init);
    }
  }

  /** One chunk contributes its URI when it has one, and nothing otherwise. */
  lemma ChunkUrisOfOne(c: Chunk)
    ensures ChunkUris([c]) == if HasUri(c) then [c.web.value.uri.value] else []
  {
    assert [c][..0] == [];
  }

  /** The `forEach` that pushes each chunk's `web.uri`. */
  method CollectUris(chunks: seq<Chunk>) returns (urls: seq<string>)
    ensures urls == ChunkUris(chunks)
  {
    urls := [];
    for i := 0 to |chunks|
      invariant urls == ChunkUris(chunks[..i])
    {
      assert chunks[..i + 1][..i] == chunks[..i];
      if chunks[i].web.Some? && Truthy(chunks[i].web.value.uri) {
        urls := urls + [chunks[i].web.value.uri.value];
      }
    }
    assert chunks[..|chunks|] == chunks;
  }

  predicate NoDuplicates(s: seq<string>) {
    forall i, j :: 0 <= i < j < |s| ==> s[i] != s[j]
  }

  /** Index of the first occurrence of `x` in `s`. */
  function FirstIndex(s: seq<string>, x: string): (k: nat)
    requires x in s
    ensures k < |s| && s[k] == x && x !in s[..k]
  {
    if s[0] == x then 0 else 1 + FirstIndex(s[1..], x)
  }

  lemma {:induction false} FirstIndexSnoc(s: seq<string>, y: string, x: string)
    requires x in s
    ensures FirstIndex(s + [y], x) == FirstIndex(s, x)
  {
    if s[0] != x {
      assert (s + [y])[1..] == s[1..] + [y];
      FirstIndexSnoc(s[1..], y, x);
    }
  }

  /** `Array.from(new Set(s))`: each element once, in order of first occurrence. */
  function Dedup(s: seq<string>): (r: seq<string>)
    ensures NoDuplicates(r)
    ensures forall x :: x in r <==> x in s
    ensures forall i, j :: 0 <= i < j < |r| ==> FirstIndex(s, r[i]) < FirstIndex(s, r[j])
  {
    if s == [] then []
    else
      var init := s[..|s| - 1];
      var x := s[|s| - 1];
      var p := Dedup(init);
      assert init + [x] == s;
      forall y | y in init ensures FirstIndex(s, y) == FirstIndex(init, y) {
        FirstIndexSnoc(init, x, y);
      }
      if x in p then p
      else
        assert FirstIndex(s, x) == |init|;
        p + [x]
  }

  /** The first three distinct URIs, in order of first occurrence. */
  function SourceUrls(uris: seq<string>): (r: seq<string>)
    ensures |r| == (if |Dedup(uris)| < 3 then |Dedup(uris)| else 3) && r == Dedup(uris)[..|r|]
    ensures forall i, j :: 0 <= i < j < |r| ==> FirstIndex(uris, r[i]) < FirstIndex(uris, r[j])
    ensures |r| <= 3 && NoDuplicates(r)
    ensures forall u :: u in r ==> u in uris
    ensures |r| < 3 ==> forall u :: u in uris ==> u in r
  {
    var d := Dedup(uris);
    if |d| <= 3 then d else d[..3]
  }

  /** What a successful bestseller reply becomes; None when the call threw or the text
      did not parse. */
  function Postprocess(reply: BestsellerReply): (r: Option<SearchResult>)
    ensures r.None? <==> reply.ReplyFailed? || (Truthy(reply.text) && reply.parsed.BooksUnusable?)
    ensures r.Some? ==> |r.value.sourceUrls| <= 3 && NoDuplicates(r.value.sourceUrls)
    ensures r.Some? && !Truthy(reply.text) ==> r.value.books == []
  {
    match reply
    case ReplyFailed => None
    case Reply(text, parsed, chunks) =>
      match (if Truthy(text) then parsed else BooksObject(None))
      case BooksUnusable => None
      case BooksObject(books) => Some(SearchResult(RepairCovers(books.GetOr([])), SourceUrls(ChunkUris(chunks))))
  }

  /** `fetchKyoboBestsellers`: a cache hit, or the model call with its result stored. */
  method FetchKyoboBestsellers(slot: CacheSlot, today: string, reply: BestsellerReply)
    returns (r: Result<SearchResult, string>, called: bool)
    modifies slot
    ensures slot.record == Run(old(slot.record), today, Postprocess(reply)).record
    ensures r == Run(old(slot.record), today, Postprocess(reply)).result
    ensures called == Run(old(slot.record), today, Postprocess(reply)).fetched
  {
    var hit := slot.Lookup(today);
    if hit.Some? {
      return Success(hit.value), false;
    }
    called := true;
    if reply.ReplyFailed? {
      return Failure(FetchFailedMessage), called;
    }
    var json := if Truthy(reply.text) then reply.parsed else BooksObject(None);
    if json.BooksUnusable? {
      return Failure(FetchFailedMessage), called;
    }
    var books := RepairCovers(json.books.GetOr([]));
    var uris := CollectUris(reply.chunks);
    var result := SearchResult(books, SourceUrls(uris));
    slot.Store(today, result);
    r := Success(result);
  }

  // ---------------------------------------------------------------- content

  /** The text-generation call: it threw, or it replied with text (parsed as `parsed`
      when non-empty). */
  datatype ContentReply = ContentThrew | ContentReplied(text: Option<string>, parsed: ParsedJson)

  const GenerateFailedMessage := "Failed to generate content."

  /** `generateSocialContent`: a failed call is an error with no content; a reply that
      does not parse degrades to its raw text; otherwise the post or the reels text is
      flattened from the parsed fields. */
  function GenerateSocialContent(book: Book, kind: ContentType, reply: ContentReply): (r: Result<GeneratedContent, string>)
    ensures reply.ContentThrew? <==> r == Failure(GenerateFailedMessage)
    ensures r.Success? ==> r.value.kind == kind && r.value.originalCoverUrl == book.coverUrl && r.value.imageUrl.None?
    ensures r.Success? ==> (r.value.scenes.None? || |r.value.scenes.value| > 0) && (r.value.imagePrompt.None? || r.value.imagePrompt.value != "")
    ensures reply.ContentReplied? && ParseReply(reply.text, reply.parsed).Unusable? ==>
              r == Success(GeneratedContent(kind, reply.text.value, None, None, None, book.coverUrl))
    ensures reply.ContentReplied? ==> r.Success? && (kind == ReelsScript ==> r.value.imagePrompt.None?)
                                                  && (kind == InstagramPost ==> r.value.scenes.None?)
  {
    match reply
    case ContentThrew => Failure(GenerateFailedMessage)
    case ContentReplied(text, parsed) =>
      var json := ParseReply(text, parsed);
      var (content, scenes, imagePrompt) :=
        match json
        case Unusable => (OrElse(text, "Generation failed"), [], None)
        case JsonObject(caption, hashtags, prompt, jsonScenes) =>
          if kind == InstagramPost then (PostContent(caption, hashtags), [], prompt)
          else
            var s := jsonScenes.GetOr([]);
            (FlattenScenes(s), s, None);
      Success(GeneratedContent(
        kind, content,
        if |scenes| > 0 then Some(scenes) else None,
        if Truthy(imagePrompt) then imagePrompt else None,
        None,
        book.coverUrl))
  }

  /** A parsed reels reply carries its scenes and their flattened text; a parsed post reply
      carries caption-and-hashtags text and its non-empty image prompt. */
  lemma ParsedReplyContent(book: Book, kind: ContentType, text: Option<string>, parsed: ParsedJson)
    requires ParseReply(text, parsed).JsonObject?
    ensures var json := ParseReply(text, parsed);
            var g := GenerateSocialContent(book, kind, ContentReplied(text, parsed)).value;
            && (kind == ReelsScript ==> g.content == FlattenScenes(json.scenes.GetOr([]))
                                        && (g.scenes.Some? <==> |json.scenes.GetOr([])| > 0)
                                        && (g.scenes.Some? ==> g.scenes.value == json.scenes.value))
            && (kind == InstagramPost ==> g.content == PostContent(json.caption, json.hashtags)
                                          && (g.imagePrompt.Some? <==> Truthy(json.imagePrompt))
                                          && (g.imagePrompt.Some? ==> g.imagePrompt == json.imagePrompt))
  {
  }

  /** An empty reply parses as `{}`, so the "Generation failed" text is never produced:
      degraded content is always the reply's own non-empty text. */
  lemma DegradedContentIsReplyText(book: Book, kind: ContentType, text: Option<string>, parsed: ParsedJson)
    requires ParseReply(text, parsed).Unusable?
    ensures Truthy(text)
    ensures GenerateSocialContent(book, kind, ContentReplied(text, parsed)).value.content == text.value
  {
  }

  // ---------------------------------------------------------------- images

  const PostInstructionHead := "[Reference Image Provided] \n\nInstruction: Create a high-quality composition based on the prompt below. \nCRITICAL: You MUST include the book cover from the reference image in the scene. Preserve the title \""
  const PostInstructionMiddle := " and visual identity of the book cover as strictly as possible."
  const PromptLabel := "\n\nPrompt: "

  /** The rewritten text of a single-image request that carries a reference. */
  function PostInstruction(prompt: string): string {
    (PostInstructionHead + Prefix(prompt, 20) + "...\"") + PostInstructionMiddle + (PromptLabel + prompt)
  }

  /** It quotes the prompt's first twenty characters and ends with the prompt itself. */
  lemma PostInstructionShape(prompt: string)
    ensures StartsWith(PostInstruction(prompt), PostInstructionHead + Prefix(prompt, 20) + "...\"")
    ensures EndsWith(PostInstruction(prompt), PromptLabel + prompt)
  {
    ConcatEnds(PostInstructionHead + Prefix(prompt, 20) + "...\"", PostInstructionMiddle, PromptLabel + prompt);
  }

  const SceneInstruction := "[Reference Image Provided] \n\nInstruction: Generate a scene for a video storyboard. \nCRITICAL: If the book is present in the scene, it MUST look exactly like the reference image provided. Maintain the cover art and title text fidelity." + PromptLabel

  /** The reference cover comes first and the text part is rewritten; without a usable
      reference the request is the bare prompt. */
  predicate ReferenceRequest(parts: seq<Part>, reference: string, text: string) {
    parts == [ReferencePart(reference), TextPart(text)]
  }

  /** `generateImage`: never throws; the reference fetch (its outcome is `fetched`) is
      attempted only for a non-empty URL and is dropped when it yields nothing; the
      request asks for a square image. */
  method GenerateImage(prompt: string, referenceImageUrl: Option<string>, fetched: Option<string>, reply: ImageReply)
    returns (url: Option<string>, sent: ModelRequest)
    ensures sent.aspectRatio == SquareRatio
    ensures !(Truthy(referenceImageUrl) && Truthy(fetched)) ==> sent.parts == [TextPart(prompt)]
    ensures Truthy(referenceImageUrl) && Truthy(fetched) ==> ReferenceRequest(sent.parts, fetched.value, PostInstruction(prompt))
    ensures reply.ReplyThrew? ==> url.None?
    ensures reply.Replied? ==> url == FirstInlineImage(reply.parts)
  {
    var parts := [TextPart(prompt)];
    if Truthy(referenceImageUrl) {
      var base64Data := fetched;
      if Truthy(base64Data) {
        parts := [ReferencePart(base64Data.value)] + parts;
        parts := parts[1 := TextPart(PostInstruction(parts[1].text.value))];
      }
    }
    sent := ModelRequest(parts, SquareRatio);
    match reply {
      case ReplyThrew =>
        url := None;
      case Replied(replyParts) =>
        url := PickFirstImage(replyParts);
    }
  }

  /** One scene of `generateImagesForScenes`: a call that throws leaves the scene as it
      was; otherwise its image URL becomes the reply's first image (possibly none). The
      request asks for a 9:16 image. */
  method GenerateSceneImage(scene: Scene, reference: Option<string>, reply: ImageReply)
    returns (r: Scene, sent: ModelRequest)
    ensures sent.aspectRatio == PortraitRatio
    ensures !Truthy(reference) ==> sent.parts == [TextPart(scene.imagePrompt)]
    ensures Truthy(reference) ==> ReferenceRequest(sent.parts, reference.value, SceneInstruction + scene.imagePrompt)
    ensures reply.ReplyThrew? ==> r == scene
    ensures reply.Replied? ==> r == scene.(imageUrl := FirstInlineImage(reply.parts))
  {
    var parts := [TextPart(scene.imagePrompt)];
    if Truthy(reference) {
      parts := [ReferencePart(reference.value)] + parts;
      parts := parts[1 := TextPart(SceneInstruction + parts[1].text.value)];
    }
    sent := ModelRequest(parts, PortraitRatio);
    match reply {
      case ReplyThrew =>
        r := scene;
      case Replied(replyParts) =>
        var imageUrl := PickFirstImage(replyParts);
        r := scene.(imageUrl := imageUrl);
    }
  }

  /** The request of one scene: a 9:16 image from the scene's prompt, with the reference
      cover first when one was fetched. */
  predicate SceneRequest(sent: ModelRequest, scene: Scene, referenceImageUrl: Option<string>, fetched: Option<string>) {
    && sent.aspectRatio == PortraitRatio
    && if Truthy(referenceImageUrl) && Truthy(fetched)
       then ReferenceRequest(sent.parts, fetched.value, SceneInstruction + scene.imagePrompt)
       else sent.parts == [TextPart(scene.imagePrompt)]
  }

  /** The scene after its call: unchanged when the call threw, else with the reply's first image. */
  predicate SceneAfter(r: Scene, scene: Scene, reply: ImageReply) {
    match reply
    case ReplyThrew => r == scene
    case Replied(parts) => r == scene.(imageUrl := FirstInlineImage(parts))
  }

  /** `generateImagesForScenes`, its `Promise.all` taken one scene at a time: the reference
      is fetched once and shared by every request, the output keeps the input's length and
      order, a failed scene is returned unchanged and any other differs only in its image URL. */
  method GenerateImagesForScenes(scenes: seq<Scene>, referenceImageUrl: Option<string>, fetched: Option<string>,
                                 replies: seq<ImageReply>)
    returns (r: seq<Scene>, requests: seq<ModelRequest>)
    requires |replies| == |scenes|
    ensures |r| == |scenes| && |requests| == |scenes|
    ensures forall i :: 0 <= i < |scenes| ==> SceneAfter(r[i], scenes[i], replies[i])
    ensures forall i :: 0 <= i < |scenes| ==> SceneRequest(requests[i], scenes[i], referenceImageUrl, fetched)
  {
    var reference: Option<string> := None;
    if Truthy(referenceImageUrl) {
      reference := fetched;
    }
    r, requests := [], [];
    for i := 0 to |scenes|
      invariant |r| == i && |requests| == i
      invariant forall k :: 0 <= k < i ==> SceneAfter(r[k], scenes[k], replies[k])
      invariant forall k :: 0 <= k < i ==> SceneRequest(requests[k], scenes[k], referenceImageUrl, fetched)
    {
      var scene, sent := GenerateSceneImage(scenes[i], reference, replies[i]);
      assert SceneAfter(scene, scenes[i], replies[i]);
      assert SceneRequest(sent, scenes[i], referenceImageUrl, fetched);
      r := r + [scene];
      requests := requests + [sent];
    }
  }
}
