/** besselchu/api/generate-image.ts: the serverless handler that asks the image model for
    one picture, conditioned on the book cover when it can be fetched. */
module GenerateImageApi {
  import opened Wrappers
  import opened Text
  import opened Images

  /** The request body; `aspectRatio` may be missing. */
  datatype ImageRequest = ImageRequest(prompt: string, referenceImageUrl: Option<string>,
                                       bookTitle: Option<string>, aspectRatio: Option<string>)

  datatype ImageResponse =
    | Preflight
    | MethodNotAllowed
    | ServerError(error: string)
    | ImageJson(imageUrl: string)

  function Status(r: ImageResponse): int {
    match r
    case Preflight => 200
    case MethodNotAllowed => 405
    case ServerError(_) => 500
    case ImageJson(_) => 200
  }

  const DefaultAspectRatio := SquareRatio
  const NoImageError := "No image generated"
  const GenerateFailedError := "Failed to generate image"

  /** The destructuring default: only a missing ratio becomes "1:1". */
  function AspectRatio(requested: Option<string>): (r: string)
    ensures requested.None? ==> r == DefaultAspectRatio
    ensures requested.Some? ==> r == requested.value
  {
    requested.GetOr(DefaultAspectRatio)
  }

  const SceneIdeaLabel := "Scene idea: "

  function ReferenceHeader(bookTitle: Option<string>): string {
    "[Reference Image: Book cover for \"" + Interpolate(bookTitle) + "\"]"
  }

  const ReferenceGuidance := "\n\nCreate a beautiful Instagram post image featuring this book.\n\nIMPORTANT:\n- Include the book cover from the reference image in the scene\n- Place it on an aesthetic surface (wooden table, marble counter, or cozy reading nook)\n- Add atmospheric elements: soft natural lighting, coffee/tea cup, reading glasses, bookmark, cozy blanket, plants\n- Style: Professional product photography, Instagram aesthetic, warm and inviting\n\n"

  /** Builds the request parts: the prompt alone, or, when the reference could be fetched
      (`fetched`), the cover image first and then the prompt rewritten to name the book and
      end with the original prompt as the scene idea. */
  method AssembleParts(prompt: string, referenceImageUrl: Option<string>, bookTitle: Option<string>, fetched: Option<string>)
    returns (parts: seq<Part>)
    ensures !(Truthy(referenceImageUrl) && Truthy(fetched)) ==> parts == [TextPart(prompt)]
    ensures Truthy(referenceImageUrl) && Truthy(fetched) ==>
              && |parts| == 2 && parts[0] == ReferencePart(fetched.value)
              && parts[1].inlineData.None? && parts[1].text.Some?
              && StartsWith(parts[1].text.value, ReferenceHeader(bookTitle))
              && EndsWith(parts[1].text.value, SceneIdeaLabel + prompt)
  {
    parts := [TextPart(prompt)];
    if Truthy(referenceImageUrl) {
      var base64Data := fetched;
      if Truthy(base64Data) {
        parts := [ReferencePart(base64Data.value)] + parts;
        var text := ReferenceHeader(bookTitle) + ReferenceGuidance + (SceneIdeaLabel + parts[1].text.value);
        ConcatEnds(ReferenceHeader(bookTitle), ReferenceGuidance, SceneIdeaLabel + prompt);
        parts := parts[1 := TextPart(text)];
      }
    }
  }

  /** The handler. OPTIONS is answered empty and methods other than POST get 405. A POST
      sends one request with the requested (or default) aspect ratio and answers with the
      first inline image as a PNG data URI, or 500 when there is none or anything failed. */
  method Handle(httpMethod: string, body: Option<ImageRequest>, fetched: Option<string>, reply: ImageReply)
    returns (r: ImageResponse, sent: Option<ModelRequest>)
    ensures r.Preflight? <==> httpMethod == "OPTIONS"
    ensures r.MethodNotAllowed? <==> httpMethod != "OPTIONS" && httpMethod != "POST"
    ensures sent.Some? <==> httpMethod == "POST" && body.Some?
    ensures sent.Some? ==> sent.value.aspectRatio == AspectRatio(body.value.aspectRatio)
    ensures sent.Some? && !(Truthy(body.value.referenceImageUrl) && Truthy(fetched)) ==>
              sent.value.parts == [TextPart(body.value.prompt)]
    ensures sent.Some? && Truthy(body.value.referenceImageUrl) && Truthy(fetched) ==>
              && |sent.value.parts| == 2 && sent.value.parts[0] == ReferencePart(fetched.value)
              && sent.value.parts[1].text.Some?
              && StartsWith(sent.value.parts[1].text.value, ReferenceHeader(body.value.bookTitle))
              && EndsWith(sent.value.parts[1].text.value, SceneIdeaLabel + body.value.prompt)
    ensures httpMethod == "POST" && (body.None? || reply.ReplyThrew?) ==> r == ServerError(GenerateFailedError)
    ensures sent.Some? && reply.Replied? ==>
              if FirstInlineImage(reply.parts).Some?
              then r == ImageJson(FirstInlineImage(reply.parts).value)
              else r == ServerError(NoImageError)
    ensures r.ImageJson? ==> StartsWith(r.imageUrl, PngDataUriPrefix)
  {
    sent := None;
    if httpMethod == "OPTIONS" {
      return Preflight, sent;
    }
    if httpMethod != "POST" {
      return MethodNotAllowed, sent;
    }
    if body.None? {
      return ServerError(GenerateFailedError), sent;
    }
    var request := body.value;
    var parts := AssembleParts(request.prompt, request.referenceImageUrl, request.bookTitle, fetched);
    sent := Some(ModelRequest(parts, AspectRatio(request.aspectRatio)));
    match reply {
      case ReplyThrew =>
        r := ServerError(GenerateFailedError);
      case Replied(replyParts) =>
        var url := PickFirstImage(replyParts);
        if url.Some? {
          r := ImageJson(url.value);
        } else {
          r := ServerError(NoImageError);
        }
    }
  }
}
