/** The parts of an image-generation request and the picking of the generated image
    out of a reply (services/geminiService.ts, besselchu/api/generate-image.ts). */
module Images {
  import opened Wrappers
  import opened Text

  datatype InlineData = InlineData(mimeType: string, data: string)

  /** A content part: text, inline image data, or (in a reply) both or neither. */
  datatype Part = Part(text: Option<string>, inlineData: Option<InlineData>)

  function TextPart(t: string): Part {
    Part(Some(t), None)
  }

  /** The reference cover, sent as base64 JPEG data. */
  function ReferencePart(base64: string): Part {
    Part(None, Some(InlineData("image/jpeg", base64)))
  }

  /** What is sent to the image model: the parts and `imageConfig.aspectRatio`. */
  datatype ModelRequest = ModelRequest(parts: seq<Part>, aspectRatio: string)

  /** The ratio of a post image, and the ratio of a reel scene. */
  const SquareRatio := "1:1"
  const PortraitRatio := "9:16"

  const PngMediaType := "image/png"

  /** `data:image/png;base64,`, the header of the data URIs (section 3 of RFC 2397) that
      carry a generated image. */
  const PngDataUriPrefix := "data" + [':'] + PngMediaType + [';'] + "base64" + [',']

  function PngDataUri(data: string): (r: string)
    ensures StartsWith(r, PngDataUriPrefix) && r[|PngDataUriPrefix|..] == data
  {
    PngDataUriPrefix + data
  }

  /** A model call: it threw, or it replied with the parts of its first candidate
      (`candidates?.[0]?.content?.parts || []`). */
  datatype ImageReply = ReplyThrew | Replied(parts: seq<Part>)

  predicate HasImage(p: Part) {
    p.inlineData.Some?
  }

  /** The first part carrying inline data, as a PNG data URI; None when no part does. */
  function FirstInlineImage(parts: seq<Part>): (r: Option<string>)
    ensures r.Some? <==> exists i :: 0 <= i < |parts| && HasImage(parts[i])
    ensures r.Some? ==> exists i :: 0 <= i < |parts| && HasImage(parts[i])
                                    && (forall j :: 0 <= j < i ==> !HasImage(parts[j]))
                                    && r.value == PngDataUri(parts[i].inlineData.value.data)
  {
    if parts == [] then None
    else if HasImage(parts[0]) then Some(PngDataUri(parts[0].inlineData.value.data))
    else
      var r := FirstInlineImage(parts[1..]);
      assert forall i :: 1 <= i < |parts| ==> parts[i] == parts[1..][i - 1];
      r
  }

  /** The `for (const part of parts)` loop that stops at the first inline data. */
  method PickFirstImage(parts: seq<Part>) returns (url: Option<string>)
    ensures url == FirstInlineImage(parts)
  {
    var i := 0;
    while i < |parts|
      invariant 0 <= i <= |parts|
      invariant FirstInlineImage(parts) == FirstInlineImage(parts[i..])
    {
      if parts[i].inlineData.Some? {
        return Some(PngDataUri(parts[i].inlineData.value.data));
      }
      assert parts[i..][1..] == parts[i + 1..];
      i := i + 1;
    }
    return None;
  }
}
