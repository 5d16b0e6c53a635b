/** besselchu/api/generate-content.ts: the serverless handler that asks the chat model for
    a post or a reels script and flattens the JSON it returns. */
module GenerateContentApi {
  import opened Wrappers
  import opened Text
  import opened Types
  import opened Content

  /** The request body; `book` may be missing, `contentType` is any string. */
  datatype ContentRequest = ContentRequest(book: Option<Book>, contentType: string)

  /** The chat completion: it threw, or it returned message text (parsed as `parsed`
      when non-empty). */
  datatype Completion = CompletionThrew | Completed(text: Option<string>, parsed: ParsedJson)

  datatype ContentResponse =
    | Preflight
    | MethodNotAllowed
    | ServerError(error: string)
    | ContentJson(contentType: string, content: string, scenes: seq<Scene>,
                  imagePrompt: Option<string>, originalCoverUrl: Option<string>)

  function Status(r: ContentResponse): int {
    match r
    case Preflight => 200
    case MethodNotAllowed => 405
    case ServerError(_) => 500
    case ContentJson(_, _, _, _, _) => 200
  }

  const GenerateFailedError := "Failed to generate content"

  /** The handler. OPTIONS is answered empty, methods other than POST get 405; a missing
      book, a failed completion or an unusable reply is a 500 with no content; otherwise
      the post or reels text is returned with the requested type and the book's cover URL. */
  function Handle(httpMethod: string, body: Option<ContentRequest>, completion: Completion): (r: ContentResponse)
    ensures r.Preflight? <==> httpMethod == "OPTIONS"
    ensures r.MethodNotAllowed? <==> httpMethod != "OPTIONS" && httpMethod != "POST"
    ensures Status(r) == 500 <==>
              httpMethod == "POST" && (body.None? || body.value.book.None? || completion.CompletionThrew?
                                       || ParseReply(completion.text, completion.parsed).Unusable?)
    ensures r.ServerError? ==> r.error == GenerateFailedError
    ensures r.ContentJson? ==> r.contentType == body.value.contentType
                               && r.originalCoverUrl == body.value.book.value.coverUrl
    ensures r.ContentJson? && body.value.contentType == "instagram_post" ==> r.scenes == []
    ensures r.ContentJson? && body.value.contentType != "instagram_post" ==>
              r.content == FlattenScenes(r.scenes) && r.imagePrompt == Some("")
  {
    if httpMethod == "OPTIONS" then Preflight
    else if httpMethod != "POST" then MethodNotAllowed
    else if body.None? || body.value.book.None? || completion.CompletionThrew? then ServerError(GenerateFailedError)
    else
      var json := ParseReply(completion.text, completion.parsed);
      match json
      case Unusable => ServerError(GenerateFailedError)
      case JsonObject(caption, hashtags, prompt, jsonScenes) =>
        var book := body.value.book.value;
        if body.value.contentType == "instagram_post" then
          ContentJson(body.value.contentType, PostContent(caption, hashtags), [], prompt, book.coverUrl)
        else
          var scenes := jsonScenes.GetOr([]);
          ContentJson(body.value.contentType, FlattenScenes(scenes), scenes, Some(""), book.coverUrl)
  }

  /** A post carries caption-and-hashtags text and the reply's own image prompt; a reels
      script carries the reply's scenes (none when the field is missing) and their text. */
  lemma HandledContent(book: Book, contentType: string, text: Option<string>, parsed: ParsedJson)
    requires ParseReply(text, parsed).JsonObject?
    ensures var json := ParseReply(text, parsed);
            var r := Handle("POST", Some(ContentRequest(Some(book), contentType)), Completed(text, parsed));
            && r.ContentJson?
            && (contentType == "instagram_post" ==>
                  r.content == PostContent(json.caption, json.hashtags) && r.imagePrompt == json.imagePrompt)
            && (contentType != "instagram_post" ==>
                  r.scenes == json.scenes.GetOr([]) && (json.scenes.None? ==> r.content == ""))
  {
  }
}
