/** Turning a model's structured reply into the flat text shown to the user; shared by
    services/geminiService.ts and besselchu/api/generate-content.ts, which flatten alike. */
module Content {
  import opened Wrappers
  import opened Text
  import opened Types

  const SceneSeparator := "\n\n"

  /** One scene as `[timeRange] Scene n`, then its visual and its audio line. */
  function RenderScene(s: Scene): (r: string)
    ensures StartsWith(r, "[" + s.timeRange + "] Scene ")
    ensures EndsWith(r, "\nAudio: " + s.audioScript)
  {
    var head := "[" + s.timeRange + "] Scene ";
    var middle := IntToDecimal(s.sceneNumber) + "\nVisual: " + s.visualDescription;
    var tail := "\nAudio: " + s.audioScript;
    ConcatEnds(head, middle, tail);
    head + middle + tail
  }

  function RenderScenes(scenes: seq<Scene>): (r: seq<string>)
    ensures |r| == |scenes| && forall i :: 0 <= i < |scenes| ==> r[i] == RenderScene(scenes[i])
  {
    seq(|scenes|, i requires 0 <= i < |scenes| => RenderScene(scenes[i]))
  }

  /** The reels text: the rendered scenes, in order, joined by a blank line. */
  function FlattenScenes(scenes: seq<Scene>): string {
    Join(RenderScenes(scenes), SceneSeparator)
  }

  /** No scenes give no text; one scene is its rendering alone. */
  lemma FlattenFewScenes(scenes: seq<Scene>)
    ensures |scenes| == 0 ==> FlattenScenes(scenes) == ""
    ensures |scenes| == 1 ==> FlattenScenes(scenes) == RenderScene(scenes[0])
  {
  }

  /** Each further scene adds one separator and its rendering at the end, so the text
      keeps scene order and never ends with a separator. */
  lemma FlattenScenesSnoc(scenes: seq<Scene>, s: Scene)
    requires |scenes| > 0
    ensures FlattenScenes(scenes + [s]) == FlattenScenes(scenes) + SceneSeparator + RenderScene(s)
    ensures EndsWith(FlattenScenes(scenes + [s]), RenderScene(s))
  {
    assert RenderScenes(scenes + [s]) == RenderScenes(scenes) + [RenderScene(s)];
    JoinSnoc(RenderScenes(scenes), RenderScene(s), SceneSeparator);
  }

  /** The text's length: every scene's rendering plus one two-character separator
      between neighbours. */
  lemma FlattenScenesLength(scenes: seq<Scene>)
    requires |scenes| > 0
    ensures |FlattenScenes(scenes)| == TotalLength(RenderScenes(scenes)) + 2 * (|scenes| - 1)
  {
    JoinLength(RenderScenes(scenes), SceneSeparator);
  }

  /** The post text: caption, a blank line, hashtags (absent fields read `undefined`). */
  function PostContent(caption: Option<string>, hashtags: Option<string>): (r: string)
    ensures StartsWith(r, Interpolate(caption) + "\n\n") && EndsWith(r, Interpolate(hashtags))
    ensures |r| == |Interpolate(caption)| + 2 + |Interpolate(hashtags)|
  {
    Interpolate(caption) + "\n\n" + Interpolate(hashtags)
  }

  /** The cover sentence put into the text-generation prompt. */
  function VisualContext(book: Book): (r: string)
    ensures r == "" <==> !Truthy(book.coverDescription)
    ensures Truthy(book.coverDescription) ==> StartsWith(r, "The book cover looks like: \"")
  {
    if Truthy(book.coverDescription)
    then "The book cover looks like: \"" + book.coverDescription.value + "\"."
    else ""
  }

  /** A reply body after `JSON.parse`: unusable (the parse threw, or the value has no
      fields to read), or an object with the fields the core reads. */
  datatype ParsedJson =
    | Unusable
    | JsonObject(caption: Option<string>, hashtags: Option<string>,
                 imagePrompt: Option<string>, scenes: Option<seq<Scene>>)

  const EmptyObject := JsonObject(None, None, None, None)

  /** `JSON.parse(text || "{}")`: an empty or missing text parses as `{}`; otherwise
      `parsed` is what parsing the text gave. */
  function ParseReply(text: Option<string>, parsed: ParsedJson): (r: ParsedJson)
    ensures !Truthy(text) ==> r == EmptyObject
    ensures Truthy(text) ==> r == parsed
  {
    if Truthy(text) then parsed else EmptyObject
  }
}
