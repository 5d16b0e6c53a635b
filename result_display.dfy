/** components/ResultDisplay.tsx: turning the generated image's data URI into bytes,
    the share-or-copy-or-download chain behind the post button, and when that button
    is enabled. */
module ResultDisplay {
  import opened Wrappers
  import opened Text
  import opened Types
  import opened Images
  import App

  newtype byte = x: int | 0 <= x < 256

  /** A `Blob`: its bytes and its `type`. */
  datatype Blob = Blob(bytes: seq<byte>, mediaType: string)

  /** `dataURI.split(',')[1]`: the segment after the first comma, up to any second one;
      None when the URI has no comma. */
  function Payload(uri: string): (r: Option<string>)
    ensures r.None? <==> ',' !in uri
    ensures r.Some? ==> ',' !in r.value
  {
    match AfterFirst(uri, ',')
    case None => None
    case Some(rest) => Some(BeforeFirst(rest, ','))
  }

  /** `dataURI.split(',')[0].split(':')[1].split(';')[0]`: in the header before the
      first comma, the text after the first colon, cut at the next colon and then at the
      first semicolon. None when the header has no colon, where `.split` is called on
      undefined and throws. */
  function MediaType(uri: string): (r: Option<string>)
    ensures r.None? <==> ':' !in BeforeFirst(uri, ',')
    ensures r.Some? ==> ',' !in r.value && ':' !in r.value && ';' !in r.value
  {
    match AfterFirst(BeforeFirst(uri, ','), ':')
    case None => None
    case Some(afterColon) => Some(BeforeFirst(BeforeFirst(afterColon, ':'), ';'))
  }

  /** A string without `c` is its own first segment. */
  lemma BeforeFirstAbsent(s: string, c: char)
    requires c !in s
    ensures BeforeFirst(s, c) == s
  {
  }

  /** A data URI whose header is `scheme:mediatype;parameter` has that media type. */
  lemma {:induction false} MediaTypeOfHeader(scheme: string, mediaType: string, parameter: string, data: string)
    requires ',' !in scheme && ':' !in scheme
    requires ',' !in mediaType && ':' !in mediaType && ';' !in mediaType
    requires ',' !in parameter && ':' !in parameter
    ensures MediaType(scheme + [':'] + mediaType + [';'] + parameter + [','] + data) == Some(mediaType)
  {
    var header := scheme + [':'] + mediaType + [';'] + parameter;
    assert scheme + [':'] + mediaType + [';'] + parameter + [','] + data == header + [','] + data;
    BeforeFirstOfJoined(header, ',', data);
    var afterColon := mediaType + [';'] + parameter;
    assert header == scheme + [':'] + afterColon;
    BeforeFirstOfJoined(scheme, ':', afterColon);
    assert AfterFirst(header, ':') == Some(afterColon);
    BeforeFirstAbsent(afterColon, ':');
    BeforeFirstOfJoined(mediaType, ';', parameter);
  }

  /** The media type of the data URIs this application makes is `image/png`, as the
      `mediatype` of section 3 of RFC 2397 reads it; the payload is the base64 text. */
  lemma PngDataUriParts(data: string)
    ensures MediaType(PngDataUri(data)) == Some(PngMediaType)
    ensures ',' !in data ==> Payload(PngDataUri(data)) == Some(data)
  {
    MediaTypeOfHeader("data", PngMediaType, "base64", data);
    var header := "data" + [':'] + PngMediaType + [';'] + "base64";
    assert PngDataUri(data) == header + [','] + data;
    BeforeFirstOfJoined(header, ',', data);
    if ',' !in data {
      BeforeFirstAbsent(data, ',');
    }
  }

  /** `Uint8Array` element assignment keeps the low eight bits of the char code. */
  function ByteOf(c: char): (b: byte)
    ensures b as int == c as int % 256
  {
    (c as int % 256) as byte
  }

  /** The blob `dataURItoBlob` returns, given what `atob` made of the payload (None:
      `atob` threw); None when the call throws. */
  function BlobOf(uri: string, decoded: Option<string>): (r: Option<Blob>)
    ensures r.Some? <==> decoded.Some? && MediaType(uri).Some?
    ensures r.Some? ==> r.value.mediaType == MediaType(uri).value
    ensures r.Some? ==> |r.value.bytes| == |decoded.value|
    ensures r.Some? ==> forall i :: 0 <= i < |decoded.value| ==> r.value.bytes[i] as int == decoded.value[i] as int % 256
  {
    if decoded.None? || MediaType(uri).None? then None
    else Some(Blob(seq(|decoded.value|, i requires 0 <= i < |decoded.value| => ByteOf(decoded.value[i])),
                   MediaType(uri).value))
  }

  /** `dataURItoBlob`: fills a byte array of the decoded string's length one char code
      at a time. */
  method DataUriToBlob(uri: string, decoded: Option<string>) returns (r: Option<Blob>)
    ensures r == BlobOf(uri, decoded)
  {
    if decoded.None? {
      return None;
    }
    var mediaType := MediaType(uri);
    if mediaType.None? {
      return None;
    }
    var byteString := decoded.value;
    var ia := new byte[|byteString|];
    for i := 0 to |byteString|
      invariant forall k :: 0 <= k < i ==> ia[k] == ByteOf(byteString[k])
    {
      ia[i] := ByteOf(byteString[i]);
    }
    r := Some(Blob(ia[..], mediaType.value));
    assert r.value.bytes == BlobOf(uri, decoded).value.bytes;
  }

  /** What the browser offers and how each of its calls turns out: `navigator.share`
      exists, `ClipboardItem` exists, the caption's `writeText` resolved, what `atob`
      made of the payload, `navigator.canShare` accepts the file, `navigator.share`
      resolved, the image's `clipboard.write` resolved. */
  datatype ShareEnv = ShareEnv(
    canShare: bool,
    canCopyImage: bool,
    captionWritten: bool,
    decoded: Option<string>,
    fileShareable: bool,
    shareResolved: bool,
    imageWritten: bool)

  /** How one press of the post button ends: nothing to share, the share sheet, the image
      on the clipboard, the image downloaded, or the handler rejected half-way. */
  datatype ShareOutcome = Skipped | SharedNatively | ImageCopied | Downloaded | Aborted

  /** The outcome, the notifications shown in order, and `isSharing` afterwards. */
  datatype ShareRun = ShareRun(outcome: ShareOutcome, notifications: seq<string>, sharingAfter: bool)

  const CaptionCopiedNotice := "Caption " + "copied! Now handling image..."
  const ImageCopiedNotice := "Image " + "& Caption copied! Ready to paste."
  const DownloadedNotice := "Image " + "downloaded & Caption copied!"

  /** The notice after the caption copy, shown only when no share sheet is about to open. */
  function CaptionNotices(env: ShareEnv): (r: seq<string>)
    ensures r == [CaptionCopiedNotice] <==> env.captionWritten && !env.canShare
    ensures r == [] <==> !(env.captionWritten && !env.canShare)
  {
    if env.captionWritten && !env.canShare then [CaptionCopiedNotice] else []
  }

  /** The `try` block and its `catch`, once a blob exists: the share sheet first, else the
      clipboard, and every failure of either ends in the download. */
  function Attempt(env: ShareEnv): (o: ShareOutcome)
    ensures o == SharedNatively <==> env.canShare && env.fileShareable && env.shareResolved
    ensures o == ImageCopied <==> !env.canShare && env.canCopyImage && env.imageWritten
    ensures o == SharedNatively || o == ImageCopied || o == Downloaded
  {
    if env.canShare then
      if env.fileShareable && env.shareResolved then SharedNatively else Downloaded
    else if env.canCopyImage then
      if env.imageWritten then ImageCopied else Downloaded
    else Downloaded
  }

  /** The notice of the outcome; the download notice only when neither the share sheet nor
      the image clipboard exists. */
  function OutcomeNotices(env: ShareEnv, o: ShareOutcome): (r: seq<string>)
    ensures |r| <= 1
    ensures ImageCopiedNotice in r <==> o == ImageCopied
    ensures DownloadedNotice in r <==> o == Downloaded && !env.canShare && !env.canCopyImage
    ensures o == SharedNatively ==> r == []
  {
    if o == ImageCopied then [ImageCopiedNotice]
    else if o == Downloaded && !env.canShare && !env.canCopyImage then [DownloadedNotice]
    else []
  }

  /** `handleShareOrAction` as written: `dataURItoBlob` runs before the `try`, so when it
      throws the handler rejects with `isSharing` still set. */
  function ShareAsWritten(imageUrl: Option<string>, env: ShareEnv, sharing: bool): (r: ShareRun)
    ensures !Truthy(imageUrl) ==> r == ShareRun(Skipped, [], sharing)
    ensures Truthy(imageUrl) && BlobOf(imageUrl.value, env.decoded).None? ==> r.outcome == Aborted && r.sharingAfter
    ensures Truthy(imageUrl) && BlobOf(imageUrl.value, env.decoded).Some? ==> r.outcome == Attempt(env) && !r.sharingAfter
  {
    if !Truthy(imageUrl) then ShareRun(Skipped, [], sharing)
    else if BlobOf(imageUrl.value, env.decoded).None? then ShareRun(Aborted, CaptionNotices(env), true)
    else
      var o := Attempt(env);
      ShareRun(o, CaptionNotices(env) + OutcomeNotices(env, o), false)
  }

  /** A URL that is not a data URI (no comma: `atob` is given "undefined" and throws)
      leaves the post button disabled for good. */
  lemma StuckSharingExample(env: ShareEnv)
    requires env.decoded.None?
    ensures ShareAsWritten(Some("https://host/a.png"), env, false).sharingAfter
    ensures ShareAsWritten(Some("https://host/a.png"), env, false).outcome == Aborted
  {
  }

  /** `handleShareOrAction` with the conversion inside the `try`: a failed conversion falls
      back to the download like every other failure, and `isSharing` is cleared whatever
      the outcome. */
  function Share(imageUrl: Option<string>, env: ShareEnv, sharing: bool): (r: ShareRun)
    ensures !Truthy(imageUrl) ==> r == ShareRun(Skipped, [], sharing)
    ensures Truthy(imageUrl) ==> !r.sharingAfter && r.outcome != Skipped && r.outcome != Aborted
    ensures Truthy(imageUrl) && BlobOf(imageUrl.value, env.decoded).Some? ==>
              r == ShareAsWritten(imageUrl, env, sharing)
    ensures r.outcome == SharedNatively ==> env.canShare && env.fileShareable && env.shareResolved
    ensures r.outcome == ImageCopied ==> !env.canShare && env.canCopyImage && env.imageWritten
  {
    if !Truthy(imageUrl) then ShareRun(Skipped, [], sharing)
    else
      var o := if BlobOf(imageUrl.value, env.decoded).None? then Downloaded else Attempt(env);
      ShareRun(o, CaptionNotices(env) + OutcomeNotices(env, o), false)
  }

  /** The download notice appears exactly when the chain ends in the download and neither
      the share sheet nor the image clipboard exists. */
  lemma DownloadNoticeOnlyWithoutCapabilities(imageUrl: Option<string>, env: ShareEnv, sharing: bool)
    ensures DownloadedNotice in Share(imageUrl, env, sharing).notifications <==>
              Share(imageUrl, env, sharing).outcome == Downloaded && !env.canShare && !env.canCopyImage
  {
    var r := Share(imageUrl, env, sharing);
    if Truthy(imageUrl) {
      assert r.notifications == CaptionNotices(env) + OutcomeNotices(env, r.outcome);
      assert DownloadedNotice[0] != CaptionCopiedNotice[0];
      assert DownloadedNotice[6] != ImageCopiedNotice[6];
    }
  }

  /** The toast: the last notification stays on screen (its timer is not modelled). */
  datatype Toast = Toast(message: string, visible: bool)

  /** `isPostReady`: a post whose image has arrived and is not being regenerated. */
  function IsPostReady(result: GeneratedContent, isGeneratingImages: bool): (ready: bool)
    ensures ready ==> result.kind == InstagramPost && result.imageUrl.Some? && result.imageUrl.value != ""
    ensures isGeneratingImages ==> !ready
  {
    result.kind == InstagramPost && !isGeneratingImages && Truthy(result.imageUrl)
  }

  /** Once a post's image arrives the button is enabled and a press does not skip; a reel
      never enables it. */
  lemma PostReadyAfterImage(v: App.SessionView, url: string)
    requires v.generatedResult.Some? && v.generatedResult.value.kind == InstagramPost && url != ""
    ensures var w := App.Step(v, App.PostImageArrived(Some(url)));
            && IsPostReady(w.generatedResult.value, w.isGeneratingImages)
            && forall env: ShareEnv, sharing: bool :: Share(w.generatedResult.value.imageUrl, env, sharing).outcome != Skipped
    ensures forall result: GeneratedContent, generating: bool :: result.kind == ReelsScript ==> !IsPostReady(result, generating)
  {
  }

  /** The toast after showing `shown` in order, starting from `toast`. */
  function LastShown(toast: Toast, shown: seq<string>): (r: Toast)
    ensures shown == [] ==> r == toast
    ensures shown != [] ==> r == Toast(shown[|shown| - 1], true)
  {
    if shown == [] then toast else Toast(shown[|shown| - 1], true)
  }

  /** Showing two runs of notifications is showing their concatenation. */
  lemma LastShownAppend(toast: Toast, first: seq<string>, second: seq<string>)
    ensures LastShown(LastShown(toast, first), second) == LastShown(toast, first + second)
  {
    if second != [] {
      assert (first + second)[|first + second| - 1] == second[|second| - 1];
    }
  }

  /** The component's own state hooks. */
  class ResultView {
    var isSharing: bool
    var toast: Toast

    constructor ()
      ensures !isSharing && toast == Toast("", false)
    {
      isSharing := false;
      toast := Toast("", false);
    }

    /** `showNotification`. */
    method ShowNotification(message: string)
      modifies this
      ensures toast == Toast(message, true) && isSharing == old(isSharing)
    {
      toast := Toast(message, true);
    }

    /** The `try` and `catch` blocks: the share sheet, else the image clipboard, and the
        download after any failure, including a failed conversion (`converted` false). */
    method TryShare(env: ShareEnv, converted: bool) returns (outcome: ShareOutcome)
      modifies this
      ensures outcome == if converted then Attempt(env) else Downloaded
      ensures toast == LastShown(old(toast), OutcomeNotices(env, outcome))
      ensures isSharing == old(isSharing)
    {
      if !converted {
        outcome := Downloaded;
      } else if env.canShare {
        outcome := if env.fileShareable && env.shareResolved then SharedNatively else Downloaded;
      } else if env.canCopyImage {
        if env.imageWritten {
          outcome := ImageCopied;
          ShowNotification(ImageCopiedNotice);
        } else {
          outcome := Downloaded;
        }
      } else {
        outcome := Downloaded;
      }
      if outcome == Downloaded && !env.canShare && !env.canCopyImage {
        ShowNotification(DownloadedNotice);
      }
    }

    /** `handleShareOrAction` for `result`, with the conversion inside the `try`. */
    method HandleShareOrAction(result: GeneratedContent, env: ShareEnv) returns (outcome: ShareOutcome)
      modifies this
      ensures outcome == Share(result.imageUrl, env, old(isSharing)).outcome
      ensures isSharing == Share(result.imageUrl, env, old(isSharing)).sharingAfter
      ensures toast == LastShown(old(toast), Share(result.imageUrl, env, old(isSharing)).notifications)
    {
      if !Truthy(result.imageUrl) {
        return Skipped;
      }
      isSharing := true;
      if env.captionWritten && !env.canShare {
        ShowNotification(CaptionCopiedNotice);
      }
      ghost var afterCaption := toast;
      assert afterCaption == LastShown(old(toast), CaptionNotices(env));
      var blob := DataUriToBlob(result.imageUrl.value, env.decoded);
      outcome := TryShare(env, blob.Some?);
      LastShownAppend(old(toast), CaptionNotices(env), OutcomeNotices(env, outcome));
      isSharing := false;
    }
  }
}
