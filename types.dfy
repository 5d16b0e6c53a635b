/** The records of types.ts, and the shape of an HTTP call's outcome as the
    client code sees it. */
module Types {
  import opened Wrappers

  datatype Book = Book(
    title: string,
    author: string,
    description: string,
    rank: int,
    keyword: string,
    isbn: Option<string>,
    coverUrl: Option<string>,
    coverDescription: Option<string>)

  datatype Scene = Scene(
    sceneNumber: int,
    timeRange: string,
    visualDescription: string,
    audioScript: string,
    imagePrompt: string,
    imageUrl: Option<string>)

  datatype ContentType = InstagramPost | ReelsScript

  /** The wire name of a content type. */
  function ContentTypeName(kind: ContentType): string {
    match kind
    case InstagramPost => "instagram_post"
    case ReelsScript => "reels_script"
  }

  datatype GeneratedContent = GeneratedContent(
    kind: ContentType,
    content: string,
    scenes: Option<seq<Scene>>,
    imagePrompt: Option<string>,
    imageUrl: Option<string>,
    originalCoverUrl: Option<string>)

  datatype AppState = Idle | Searching | Selecting | Generating | ShowingResult | Failed

  datatype SearchResult = SearchResult(books: seq<Book>, sourceUrls: seq<string>)

  /** What `fetch` followed by `response.json()` yields: a parsed body of an ok
      response, a response that is not ok, or a thrown error (network failure,
      unreadable body). */
  datatype FetchOutcome<T> = Ok(value: T) | NotOk(status: int) | Threw
}
