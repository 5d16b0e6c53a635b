/** besselchu/App.tsx: the session of the browser app. The React state hooks are the
    fields of `Session`; each handler, and each asynchronous completion it waits for, is
    one event that moves the session from one `SessionView` to the next. */
module App {
  import opened Wrappers
  import opened Text
  import opened Types
  import Content
  import GenerateContentApi
  import OpenAIService

  /** The rotating texts shown while the bestsellers load. */
  const LoadingMessages: seq<string> := [
    "Connecting to Kyobo Book Centre...",
    "Accessing weekly bestseller charts...",
    "Analyzing book trends and keywords...",
    "Retrieving cover images...",
    "Finalizing book data..."
  ]

  const InitialLoadingMessage := "Scanning Bookshelf..."
  const FetchBooksError := "Failed to retrieve bestseller data. Please check your network or try again."
  const GenerateError := "Failed to generate content."

  /** The interval step of the loading-message counter. */
  function NextMessageIndex(i: nat): (j: nat)
    ensures j < |LoadingMessages|
    ensures i + 1 < |LoadingMessages| ==> j == i + 1
    ensures i + 1 == |LoadingMessages| ==> j == 0
  {
    (i + 1) % |LoadingMessages|
  }

  /** The counter after `ticks` interval callbacks, starting from 0. */
  function IndexAfter(ticks: nat): nat {
    if ticks == 0 then 0 else NextMessageIndex(IndexAfter(ticks - 1))
  }

  /** The counter is the tick count modulo the number of messages, so it never leaves
      the list. */
  lemma {:induction false} IndexAfterIsModulo(ticks: nat)
    ensures IndexAfter(ticks) == ticks % |LoadingMessages|
    ensures IndexAfter(ticks) < |LoadingMessages|
  {
    if ticks > 0 {
      IndexAfterIsModulo(ticks - 1);
    }
  }

  /** The background image work `handleGenerate` starts once the text has arrived. */
  datatype ImageJob =
    | NoJob
    | SceneImagesJob(scenes: seq<Scene>, referenceImageUrl: Option<string>, bookTitle: string)
    | PostImageJob(prompt: string, referenceImageUrl: Option<string>, bookTitle: string)

  /** Scene images only for a reel with a non-empty scene list, one post image only for a
      post with a truthy image prompt; both use the selected book's cover as reference. */
  function ImageJobFor(kind: ContentType, book: Book, result: GeneratedContent): (job: ImageJob)
    ensures job.SceneImagesJob? <==> kind == ReelsScript && result.scenes.Some? && |result.scenes.value| > 0
    ensures job.PostImageJob? <==> kind == InstagramPost && Truthy(result.imagePrompt)
    ensures job.SceneImagesJob? ==> job.scenes == result.scenes.value
    ensures job.PostImageJob? ==> Some(job.prompt) == result.imagePrompt
    ensures !job.NoJob? ==> job.referenceImageUrl == book.coverUrl && job.bookTitle == book.title
  {
    if kind == ReelsScript && result.scenes.Some? && |result.scenes.value| > 0 then
      SceneImagesJob(result.scenes.value, book.coverUrl, book.title)
    else if kind == InstagramPost && Truthy(result.imagePrompt) then
      PostImageJob(result.imagePrompt.value, book.coverUrl, book.title)
    else
      NoJob
  }

  /** Over the content handler, a reel starts scene images exactly when the model's reply
      listed scenes, and a post starts its image exactly when the reply had a non-empty
      image prompt; the handler's empty prompt of a reel starts nothing. */
  lemma ImageJobThroughHandler(kind: ContentType, book: Book, text: Option<string>, parsed: Content.ParsedJson)
    requires Content.ParseReply(text, parsed).JsonObject?
    ensures var json := Content.ParseReply(text, parsed);
            var request := GenerateContentApi.ContentRequest(Some(book), ContentTypeName(kind));
            var answer := GenerateContentApi.Handle("POST", Some(request), GenerateContentApi.Completed(text, parsed));
            var generated := OpenAIService.GenerateSocialContent(OpenAIService.DeliverContent(kind, answer));
            && generated.Success?
            && (kind == ReelsScript ==>
                  (ImageJobFor(kind, book, generated.value).SceneImagesJob? <==> |json.scenes.GetOr([])| > 0))
            && (kind == InstagramPost ==>
                  (ImageJobFor(kind, book, generated.value).PostImageJob? <==> Truthy(json.imagePrompt)))
  {
    GenerateContentApi.HandledContent(book, ContentTypeName(kind), text, parsed);
  }

  /** The functional update of the scene job: no result stays none; otherwise only the
      scene list is replaced. */
  function MergeScenes(prev: Option<GeneratedContent>, updated: seq<Scene>): (r: Option<GeneratedContent>)
    ensures r.Some? <==> prev.Some?
    ensures r.Some? ==> r.value.scenes == Some(updated) && r.value.(scenes := prev.value.scenes) == prev.value
  {
    match prev
    case None => None
    case Some(p) => Some(p.(scenes := Some(updated)))
  }

  /** The functional update of the post-image job: only the image URL is replaced. */
  function MergePostImage(prev: Option<GeneratedContent>, url: Option<string>): (r: Option<GeneratedContent>)
    ensures r.Some? <==> prev.Some?
    ensures r.Some? ==> r.value.imageUrl == url && r.value.(imageUrl := prev.value.imageUrl) == prev.value
  {
    match prev
    case None => None
    case Some(p) => Some(p.(imageUrl := url))
  }

  /** The values of the component's state hooks, the `msgIndex` counter of the running
      loading interval, and whether that interval is set. */
  datatype SessionView = SessionView(
    state: AppState,
    books: seq<Book>,
    sources: seq<string>,
    selectedBook: Option<Book>,
    generatedResult: Option<GeneratedContent>,
    errorMsg: string,
    isGeneratingImages: bool,
    loadingMessage: string,
    msgIndex: nat,
    intervalActive: bool)

  /** What the component holds when it mounts. */
  const InitialView := SessionView(Idle, [], [], None, None, "", false, InitialLoadingMessage, 0, false)

  /** A handler call or an asynchronous completion. */
  datatype Event =
    | FetchBooksStarted
    | LoadingTick
    | FetchBooksFinished(fetched: Result<SearchResult, string>)
    | BookSelected(book: Book)
    | GenerateStarted
    | GenerateFinished(kind: ContentType, book: Book, generated: Result<GeneratedContent, string>)
    | SceneImagesArrived(updated: seq<Scene>)
    | PostImageArrived(url: Option<string>)
    | ImageJobRejected
    | ResetPressed
    | FullResetPressed

  /** The session after one event. A tick of a cleared interval never happens and changes
      nothing; `handleGenerate` without a selected book returns at once. */
  function Step(v: SessionView, e: Event): SessionView {
    match e
    case FetchBooksStarted =>
      v.(state := Searching, errorMsg := "", msgIndex := 0, loadingMessage := LoadingMessages[0],
         intervalActive := true)
    case LoadingTick =>
      if v.intervalActive then
        var i := NextMessageIndex(v.msgIndex);
        v.(msgIndex := i, loadingMessage := LoadingMessages[i])
      else v
    case FetchBooksFinished(fetched) =>
      if fetched.Success? then
        v.(books := fetched.value.books, sources := fetched.value.sourceUrls, state := Selecting,
           intervalActive := false)
      else
        v.(errorMsg := FetchBooksError, state := Failed, intervalActive := false)
    case BookSelected(book) =>
      v.(selectedBook := Some(book))
    case GenerateStarted =>
      if v.selectedBook.None? then v
      else v.(state := Generating, generatedResult := None, isGeneratingImages := false)
    case GenerateFinished(kind, book, generated) =>
      if generated.Success? then
        var job := ImageJobFor(kind, book, generated.value);
        v.(generatedResult := Some(generated.value), state := ShowingResult,
           isGeneratingImages := if job.NoJob? then v.isGeneratingImages else true)
      else
        v.(errorMsg := GenerateError, state := Failed)
    case SceneImagesArrived(updated) =>
      v.(generatedResult := MergeScenes(v.generatedResult, updated), isGeneratingImages := false)
    case PostImageArrived(url) =>
      v.(generatedResult := MergePostImage(v.generatedResult, url), isGeneratingImages := false)
    case ImageJobRejected =>
      v.(isGeneratingImages := false)
    case ResetPressed =>
      v.(generatedResult := None, isGeneratingImages := false, state := Selecting)
    case FullResetPressed =>
      v.(intervalActive := false, books := [], selectedBook := None, generatedResult := None,
         isGeneratingImages := false, state := Idle)
  }

  /** The session after a sequence of events, in order. */
  function Replay(v: SessionView, events: seq<Event>): SessionView
    decreases |events|
  {
    if events == [] then v else Replay(Step(v, events[0]), events[1..])
  }

  /** What holds of every reachable session: the counter stays in the message list, the
      loading screen always has its interval running, and the result screen always has a
      result to show. */
  predicate Invariant(v: SessionView) {
    && v.msgIndex < |LoadingMessages|
    && (v.state == Searching ==> v.intervalActive)
    && (v.state == ShowingResult ==> v.generatedResult.Some?)
  }

  lemma InitialInvariant()
    ensures Invariant(InitialView)
  {
  }

  lemma StepKeepsInvariant(v: SessionView, e: Event)
    requires Invariant(v)
    ensures Invariant(Step(v, e))
  {
  }

  /** Every session reached from the mounted component satisfies the invariant. */
  lemma {:induction false} ReplayKeepsInvariant(v: SessionView, events: seq<Event>)
    requires Invariant(v)
    ensures Invariant(Replay(v, events))
    decreases |events|
  {
    if events != [] {
      StepKeepsInvariant(v, events[0]);
      ReplayKeepsInvariant(Step(v, events[0]), events[1..]);
    }
  }

  /** `ticks` loading ticks in a row. */
  function Ticks(ticks: nat): seq<Event> {
    seq(ticks, _ => LoadingTick)
  }

  /** While the bestsellers load, the message after `ticks` ticks is entry
      `ticks mod 5` of the list. */
  lemma {:induction false} LoadingMessageAfterTicks(v: SessionView, ticks: nat)
    ensures Replay(Step(v, FetchBooksStarted), Ticks(ticks)).msgIndex == ticks % |LoadingMessages|
    ensures Replay(Step(v, FetchBooksStarted), Ticks(ticks)).loadingMessage == LoadingMessages[ticks % |LoadingMessages|]
    ensures Replay(Step(v, FetchBooksStarted), Ticks(ticks)).state == Searching
  {
    TicksReplay(Step(v, FetchBooksStarted), ticks);
    IndexAfterIsModulo(ticks);
  }

  /** Ticks of a running interval move the counter along `IndexAfter` and touch nothing else. */
  lemma {:induction false} TicksReplay(v: SessionView, ticks: nat)
    requires v.intervalActive && v.msgIndex == 0 && v.loadingMessage == LoadingMessages[0]
    ensures Replay(v, Ticks(ticks)) ==
              v.(msgIndex := IndexAfter(ticks), loadingMessage := LoadingMessages[IndexAfter(ticks)])
  {
    if ticks > 0 {
      TicksReplay(v, ticks - 1);
      ReplaySnoc(v, Ticks(ticks - 1), LoadingTick);
      assert Ticks(ticks) == Ticks(ticks - 1) + [LoadingTick];
    }
  }

  /** Replaying one more event is one more step. */
  lemma {:induction false} ReplaySnoc(v: SessionView, events: seq<Event>, e: Event)
    ensures Replay(v, events + [e]) == Step(Replay(v, events), e)
    decreases |events|
  {
    if events == [] {
      assert [e][1..] == [];
    } else {
      assert (events + [e])[1..] == events[1..] + [e];
      ReplaySnoc(Step(v, events[0]), events[1..], e);
    }
  }

  /** Replaying two events is two steps. */
  lemma ReplayPair(v: SessionView, a: Event, b: Event)
    ensures Replay(v, [a, b]) == Step(Step(v, a), b)
  {
    assert [a, b][1..] == [b];
    assert [b][1..] == [];
    assert Replay(Step(v, a), [b]) == Replay(Step(Step(v, a), b), []);
  }

  /** `handleFetchBooks` ends on the list with books and sources set, or on the error
      banner; either way the interval is cleared. */
  lemma FetchBooksOutcome(v: SessionView, fetched: Result<SearchResult, string>)
    ensures var w := Replay(v, [FetchBooksStarted, FetchBooksFinished(fetched)]);
            && !w.intervalActive
            && (fetched.Success? ==> w.state == Selecting && w.books == fetched.value.books
                                     && w.sources == fetched.value.sourceUrls && w.errorMsg == "")
            && (fetched.Failure? ==> w.state == Failed && w.errorMsg == FetchBooksError && w.books == v.books)
  {
    ReplayPair(v, FetchBooksStarted, FetchBooksFinished(fetched));
  }

  /** `handleGenerate` without a selected book changes nothing; with one it ends on the
      result screen with that result and its image job flagged, or on the error banner. */
  lemma GenerateOutcome(v: SessionView, kind: ContentType, generated: Result<GeneratedContent, string>)
    ensures v.selectedBook.None? ==> Step(v, GenerateStarted) == v
    ensures v.selectedBook.Some? ==>
              var w := Replay(v, [GenerateStarted, GenerateFinished(kind, v.selectedBook.value, generated)]);
              && (generated.Success? ==>
                    w.state == ShowingResult && w.generatedResult == Some(generated.value)
                    && w.isGeneratingImages == !ImageJobFor(kind, v.selectedBook.value, generated.value).NoJob?)
              && (generated.Failure? ==> w.state == Failed && w.errorMsg == GenerateError && w.generatedResult.None?)
  {
    if v.selectedBook.Some? {
      ReplayPair(v, GenerateStarted, GenerateFinished(kind, v.selectedBook.value, generated));
    }
  }

  /** `handleReset` goes back to the list and keeps the books and the selection;
      `handleFullReset` empties both and returns to the start screen. */
  lemma ResetsOutcome(v: SessionView)
    ensures var w := Step(v, ResetPressed);
            w.state == Selecting && w.generatedResult.None? && w.books == v.books && w.selectedBook == v.selectedBook
    ensures var w := Step(v, FullResetPressed);
            w.state == Idle && w.books == [] && w.selectedBook.None? && w.generatedResult.None? && !w.intervalActive
  {
  }

  /** The merge reads whatever result is current when the images arrive: a scene job of an
      earlier reel, started before `handleReset` and a new `handleGenerate`, patches its
      scenes into the newer result. */
  lemma StaleSceneJobPatchesNewerResult(v: SessionView, book: Book, first: GeneratedContent,
                                        second: GeneratedContent, updated: seq<Scene>)
    requires v.selectedBook == Some(book)
    ensures Replay(v, [GenerateFinished(ReelsScript, book, Success(first)), ResetPressed, GenerateStarted,
                       GenerateFinished(InstagramPost, book, Success(second)), SceneImagesArrived(updated)]).generatedResult
            == Some(second.(scenes := Some(updated)))
  {
    var events := [GenerateFinished(ReelsScript, book, Success(first)), ResetPressed, GenerateStarted,
                   GenerateFinished(InstagramPost, book, Success(second)), SceneImagesArrived(updated)];
    ReplaySnoc(v, events[..4], events[4]);
    ReplaySnoc(v, events[..3], events[3]);
    ReplaySnoc(v, events[..2], events[2]);
    ReplayPair(v, events[0], events[1]);
    assert events == events[..4] + [events[4]];
    assert events[..4] == events[..3] + [events[3]];
    assert events[..3] == events[..2] + [events[2]];
    assert events[..2] == [events[0], events[1]];
  }

  /** The component's state hooks. */
  class Session {
    var state: AppState
    var books: seq<Book>
    var sources: seq<string>
    var selectedBook: Option<Book>
    var generatedResult: Option<GeneratedContent>
    var errorMsg: string
    var isGeneratingImages: bool
    var loadingMessage: string
    var msgIndex: nat
    var intervalActive: bool

    function View(): SessionView
      reads this
    {
      SessionView(state, books, sources, selectedBook, generatedResult, errorMsg, isGeneratingImages,
                  loadingMessage, msgIndex, intervalActive)
    }

    predicate Valid()
      reads this
    {
      Invariant(View())
    }

    constructor ()
      ensures Valid() && View() == InitialView
    {
      state := Idle;
      books := [];
      sources := [];
      selectedBook := None;
      generatedResult := None;
      errorMsg := "";
      isGeneratingImages := false;
      loadingMessage := InitialLoadingMessage;
      msgIndex := 0;
      intervalActive := false;
    }

    /** The synchronous part of `handleFetchBooks`: the loading screen and a fresh interval. */
    method BeginFetchBooks()
      requires Valid()
      modifies this
      ensures Valid() && View() == Step(old(View()), FetchBooksStarted)
    {
      state := Searching;
      errorMsg := "";
      msgIndex := 0;
      loadingMessage := LoadingMessages[0];
      intervalActive := true;
    }

    /** The interval callback. */
    method TickLoadingMessage()
      requires Valid()
      modifies this
      ensures Valid() && View() == Step(old(View()), LoadingTick)
    {
      if intervalActive {
        msgIndex := (msgIndex + 1) % |LoadingMessages|;
        loadingMessage := LoadingMessages[msgIndex];
      }
    }

    /** The rest of `handleFetchBooks`, once `fetchKyoboBestsellers` has settled. */
    method CompleteFetchBooks(fetched: Result<SearchResult, string>)
      requires Valid()
      modifies this
      ensures Valid() && View() == Step(old(View()), FetchBooksFinished(fetched))
    {
      if fetched.Success? {
        books := fetched.value.books;
        sources := fetched.value.sourceUrls;
        state := Selecting;
      } else {
        errorMsg := FetchBooksError;
        state := Failed;
      }
      intervalActive := false;
    }

    /** A book card's `onSelect`. */
    method SelectBook(book: Book)
      requires Valid()
      modifies this
      ensures Valid() && View() == Step(old(View()), BookSelected(book))
    {
      selectedBook := Some(book);
    }

    /** The synchronous part of `handleGenerate`; `target` is the book the request is for
      (the selection captured by the handler), none when nothing is selected. */
    method BeginGenerate() returns (target: Option<Book>)
      requires Valid()
      modifies this
      ensures Valid() && View() == Step(old(View()), GenerateStarted)
      ensures target == old(selectedBook)
    {
      target := selectedBook;
      if target.None? {
        return;
      }
      state := Generating;
      generatedResult := None;
      isGeneratingImages := false;
    }

    /** The rest of `handleGenerate`, once `generateSocialContent` has settled; `job` is
      the image work it starts in the background. */
    method CompleteGenerate(kind: ContentType, book: Book, generated: Result<GeneratedContent, string>)
      returns (job: ImageJob)
      requires Valid()
      modifies this
      ensures Valid() && View() == Step(old(View()), GenerateFinished(kind, book, generated))
      ensures job == if generated.Success? then ImageJobFor(kind, book, generated.value) else NoJob
    {
      if generated.Failure? {
        errorMsg := GenerateError;
        state := Failed;
        return NoJob;
      }
      var result := generated.value;
      generatedResult := Some(result);
      state := ShowingResult;
      job := NoJob;
      if kind == ReelsScript && result.scenes.Some? && |result.scenes.value| > 0 {
        isGeneratingImages := true;
        job := SceneImagesJob(result.scenes.value, book.coverUrl, book.title);
      }
      if kind == InstagramPost && Truthy(result.imagePrompt) {
        isGeneratingImages := true;
        job := PostImageJob(result.imagePrompt.value, book.coverUrl, book.title);
      }
    }

    /** The `.then` of the scene job. */
    method CompleteSceneImages(updated: seq<Scene>)
      requires Valid()
      modifies this
      ensures Valid() && View() == Step(old(View()), SceneImagesArrived(updated))
    {
      if generatedResult.Some? {
        generatedResult := Some(generatedResult.value.(scenes := Some(updated)));
      }
      isGeneratingImages := false;
    }

    /** The `.then` of the post-image job. */
    method CompletePostImage(url: Option<string>)
      requires Valid()
      modifies this
      ensures Valid() && View() == Step(old(View()), PostImageArrived(url))
    {
      if generatedResult.Some? {
        generatedResult := Some(generatedResult.value.(imageUrl := url));
      }
      isGeneratingImages := false;
    }

    /** The `.catch` of either job. */
    method ImageJobFailed()
      requires Valid()
      modifies this
      ensures Valid() && View() == Step(old(View()), ImageJobRejected)
    {
      isGeneratingImages := false;
    }

    /** `handleReset`. */
    method Reset()
      requires Valid()
      modifies this
      ensures Valid() && View() == Step(old(View()), ResetPressed)
    {
      generatedResult := None;
      isGeneratingImages := false;
      state := Selecting;
    }

    /** `handleFullReset`. */
    method FullReset()
      requires Valid()
      modifies this
      ensures Valid() && View() == Step(old(View()), FullResetPressed)
    {
      intervalActive := false;
      books := [];
      selectedBook := None;
      generatedResult := None;
      isGeneratingImages := false;
      state := Idle;
    }
  }
}
