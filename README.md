# Book agent: a Dafny model of its deterministic core

The book agent is a web app that turns Korean bestsellers into Instagram content:
it lists the current bestsellers, lets the user pick a book, has a language model write a
post caption or a Reels storyboard, and generates matching images in the background. Two
variants exist: one calls Gemini straight from the browser (services/geminiService.ts),
and one calls three serverless endpoints (besselchu/api/*.ts) through a browser client
(besselchu/services/openaiService.ts). This project models the logic inside that glue.
Every network, model, JSON, storage and browser call is an input to the model: the outcome
the call had.

What is modelled, module by module:

- `DailyCache`: the single-slot daily cache in front of both `fetchKyoboBestsellers`
  functions. It has a class `CacheSlot` (the storage slot, with `Lookup` and `Store`) and a
  specification `Run` of one cache-wrapped call. It covers hits, misses, removal of corrupt
  records, wholesale overwrite and "once per day".
- `GeminiService`: the browser-side Gemini variant.
  - The bestseller post-processing: cover-URL repair from ISBN digits, and source URLs
    collected, de-duplicated and capped at three.
  - The content flattening, with its degradation to raw text.
  - The assembly of image requests with a reference cover, and the first-inline-image pick.
  - The per-scene image batch.
- `BestsellersApi`: the Aladin-backed bestseller endpoint. It maps items to books (at most
  ten, ranked 1..n, with keyword and field defaults) and falls back to a fixed list of ten.
- `GenerateContentApi`: the text-generation endpoint. It has the post and reels shapes, the
  405 rule and the 500 rule.
- `GenerateImageApi`: the image endpoint. It has the aspect-ratio default, the part
  assembly, the first inline image as a PNG data URI, and the 405 and 500 rules.
- `OpenAIService`: the browser client of those endpoints: its cache, its error behaviour
  and its scene batch. It also joins the client to the handlers end to end.
- `App`: the session of besselchu/App.tsx. It has a class `Session` whose methods are the
  handlers and the asynchronous completions they wait for. Each method is specified by a
  transition function `Step` over a `SessionView` value. It covers the rotating loading
  message, the background image jobs and their merges, and an invariant of every reachable
  session. The states IDLE, SEARCHING, SELECTING, GENERATING, RESULT and ERROR are
  `Idle`, `Searching`, `Selecting`, `Generating`, `ShowingResult` and `Failed`.
- `ResultDisplay`: covers three things from components/ResultDisplay.tsx:
  - `dataURItoBlob`, with the media type read as in section 3 of RFC 2397 and a byte-copy
    loop over an array;
  - the share chain (native share, then clipboard image, then download) with its
    notifications and the `isSharing` flag;
  - `isPostReady`.
- `Text`, `Content`, `Images`, `Types`, `Wrappers`: shared pieces.
  - `Text` holds the JavaScript string operations the core uses: `split`/`pop`, `trim`,
    `replace(/[^0-9]/g, '')`, `substring`, `join`, and truthiness of optional strings.
  - `Content` holds the scene and post flattening shared by both variants.
  - `Images` holds request parts and the first-inline-image pick.
  - `Types` holds the records of types.ts.

Two behaviours of the code worth knowing, both modelled as written:

- In-flight image jobs are not cancelled by a reset. The merge reads whatever result is
  current when the images arrive, so a job started before `handleReset` and a new
  `handleGenerate` patches the newer result (`App.StaleSceneJobPatchesNewerResult`).
- A cached record is reused only when it is dated today and its stored `data` is truthy
  (`DailyCache.CachedData`); a record dated today without data is a miss.

## Model

| member | source | states |
|---|---|---|
| Text.Prefix | services/geminiService.ts:311 | `substring(0, n)`: a prefix of the input of length n, or the whole input when it is no longer than n |
| Text.DigitsOnly | services/geminiService.ts:124 | the result holds only digits and is no longer than the input |
| Text.DigitsOnlyOfChar | services/geminiService.ts:124 | one character: a digit is kept, any other character is dropped |
| Text.DigitsOnlyDropsNonDigits | services/geminiService.ts:124 | a string with no digit becomes empty |
| Text.DigitsOnlyAppend | services/geminiService.ts:124 | removing non-digits distributes over concatenation |
| Text.DigitsOnlyKeepsDigits | services/geminiService.ts:124 | a string of digits is left unchanged |
| Text.Trim | besselchu/api/bestsellers.ts:57 | the result is a slice of the input with only white space outside it, and neither starts nor ends with white space; so it is the input with exactly its leading and trailing white space cut |
| Text.TrimKeepsOut | besselchu/api/bestsellers.ts:57 | trimming adds no character, so a trimmed segment still has no `>` |
| Text.BeforeFirst | components/ResultDisplay.tsx:13-14 | `split(c)[0]`: the prefix before the first `c`, containing no `c` |
| Text.AfterFirst | components/ResultDisplay.tsx:13-14 | `split(c)` has an element 1 exactly when `c` occurs; the string is the head, `c`, then the rest |
| Text.BeforeFirstOfJoined | components/ResultDisplay.tsx:14 | in `a + c + b` with no `c` in `a`, the first segment is `a` |
| Text.AfterLast | besselchu/api/bestsellers.ts:57 | `split(c).pop()`: a suffix containing no `c`, preceded by `c` when shorter than the input |
| Text.AfterLastOfJoined | besselchu/api/bestsellers.ts:57 | in `a + c + b` with no `c` in `b`, the last segment is `b` |
| Text.Join | services/geminiService.ts:271-273 | `parts.join(sep)`: no parts give "", one part is itself, more start with the first part and the separator |
| Text.JoinSnoc | services/geminiService.ts:271-273 | `join` adds exactly one separator before an appended part and none after it |
| Text.JoinLength | services/geminiService.ts:271-273 | the joined length is the parts' lengths plus one separator between each pair of neighbours |
| Text.NatToDecimal | besselchu/api/bestsellers.ts:55 | a number renders as digits with no leading zero |
| Text.DecimalRoundTrip | besselchu/api/bestsellers.ts:55 | reading the rendered digits back gives the number |
| Content.ParseReply | services/geminiService.ts:258-264 | the reply text is parsed with `{}` as its default: an empty or missing text reads as `{}`, any other as what parsing it gave |
| Content.RenderScene | services/geminiService.ts:272 | a scene's line starts with `[timeRange] Scene ` and ends with `\nAudio: ` and the audio script |
| Content.RenderScenes | services/geminiService.ts:271-273 | one rendering per scene, in scene order |
| Content.FlattenScenes | besselchu/api/generate-content.ts:101-104 | the scene lines joined with a blank line; stated by the three lemmas below |
| Content.FlattenFewScenes | besselchu/api/generate-content.ts:101-104 | no scenes flatten to "", one scene to its rendering alone |
| Content.FlattenScenesSnoc | besselchu/api/generate-content.ts:102-104 | each further scene adds one blank-line separator and its rendering at the end; the text never ends with a separator |
| Content.FlattenScenesLength | services/geminiService.ts:271-273 | the reels text is the renderings plus one two-character separator between neighbours |
| Content.PostContent | services/geminiService.ts:267 | the post text starts with the caption and a blank line and ends with the hashtags; absent fields read "undefined" |
| Content.VisualContext | besselchu/api/generate-content.ts:37 | the cover sentence is empty exactly when the book has no cover description |
| Images.PngDataUri | besselchu/api/generate-image.ts:77 | the URI is `data:image/png;base64,` followed by the data |
| Images.FirstInlineImage | besselchu/api/generate-image.ts:74-80 | a URI exists exactly when some part has inline data, and it is the data URI of the first such part |
| Images.PickFirstImage | services/geminiService.ts:372-377 | the loop with its early exit returns the first inline image |
| DailyCache.AfterLookup | services/geminiService.ts:46-58 | the lookup removes an unparseable record and leaves any other record as it was |
| DailyCache.Run | services/geminiService.ts:42-162 | one cache-wrapped call: a usable record is returned with no fetch; otherwise the fetch is made, a success is stored as today's record, a failure gives the one message; stated by the lemmas below |
| DailyCache.CachedData | services/geminiService.ts:48-54 | a stored record is usable exactly when it parses, is dated today and has data |
| DailyCache.HitSkipsFetch | besselchu/services/openaiService.ts:13-19 | a usable record is returned as it is, with no fetch and the slot untouched |
| DailyCache.MissFetches | services/geminiService.ts:48-59 | anything else is a miss and the underlying fetch is made |
| DailyCache.CorruptRecordDiscarded | besselchu/services/openaiService.ts:20-23 | an unparseable record is removed and the call goes on to fetch |
| DailyCache.SuccessOverwrites | besselchu/services/openaiService.ts:33-40 | after a successful fetch the slot holds exactly today's record with the result |
| DailyCache.FailureKeepsParseableRecord | besselchu/services/openaiService.ts:29-45 | a failed fetch surfaces "Failed to fetch bestseller data." and leaves a parseable record untouched |
| DailyCache.SameDayFetchesOnce | services/geminiService.ts:45-59 | once a call succeeds, a second call on the same day makes no fetch and returns the same result |
| DailyCache.NewDayRefetches | services/geminiService.ts:45-53 | on a different day the stored record is stale and the fetch is made again |
| DailyCache.CacheSlot.Lookup | services/geminiService.ts:46-58 | the lookup returns the usable record and removes an unparseable one |
| DailyCache.CacheSlot.Store | services/geminiService.ts:152-155 | the write replaces the slot with `{date: today, data}` |
| GeminiService.KyoboCoverUrl | services/geminiService.ts:126 | the rebuilt cover URL starts with "http" and ends with ".jpg" |
| GeminiService.RepairCover | services/geminiService.ts:117-135 | an http cover is kept; otherwise ten or more ISBN digits rebuild it; otherwise it is unchanged; no other field changes |
| GeminiService.RepairedCoverIsHttp | services/geminiService.ts:121-129 | after repair, a book with ten ISBN digits has an http cover |
| GeminiService.RepairCoverIdempotent | services/geminiService.ts:117-135 | repairing twice is repairing once |
| GeminiService.RepairCovers | services/geminiService.ts:117 | every book is repaired, in order |
| GeminiService.ChunkUris | services/geminiService.ts:137-143 | a URI is collected exactly when some chunk carries it |
| GeminiService.ChunkUrisAppend | services/geminiService.ts:138-143 | URIs are collected chunk by chunk in order: those of a concatenation are those of the first list followed by those of the second |
| GeminiService.ChunkUrisOfOne | services/geminiService.ts:139-142 | one chunk contributes its truthy `web.uri`, or nothing |
| GeminiService.CollectUris | services/geminiService.ts:138-143 | the `forEach`/`push` loop collects exactly those URIs in chunk order |
| GeminiService.Dedup | services/geminiService.ts:145 | `Array.from(new Set(..))` keeps each element once, the same elements, in first-occurrence order |
| GeminiService.SourceUrls | services/geminiService.ts:145 | the first three elements of `Dedup` (all of them when fewer), hence distinct and in order of first occurrence |
| GeminiService.Postprocess | services/geminiService.ts:112-148 | no result exactly when the call failed or non-empty text did not parse; otherwise at most three distinct sources, and no books when the text was empty |
| GeminiService.FetchKyoboBestsellers | services/geminiService.ts:42-162 | the slot, the result and whether the model was called are those of the cache run over the post-processed reply |
| GeminiService.GenerateSocialContent | services/geminiService.ts:258-291 | a failed call is the one error; otherwise the content carries the type and original cover and no image URL, empty scenes and prompt become absent, and an unparseable reply degrades to its raw text |
| GeminiService.ParsedReplyContent | services/geminiService.ts:266-274 | a parsed reel carries its scenes and their flattened text; a parsed post carries caption and hashtags and its non-empty prompt |
| GeminiService.DegradedContentIsReplyText | services/geminiService.ts:275-278 | degraded content is always the reply's own non-empty text, since an empty reply parses as `{}` |
| GeminiService.PostInstruction | services/geminiService.ts:311 | the rewritten text of a post-image request with a reference; stated by `PostInstructionShape` |
| GeminiService.PostInstructionShape | services/geminiService.ts:311 | the rewritten text quotes the prompt's first twenty characters and ends with "Prompt: " and the prompt |
| GeminiService.GenerateImage | services/geminiService.ts:297-334 | it never fails; the request asks for a 1:1 image, is the bare prompt unless a non-empty reference was fetched, then the cover comes first; the result is the reply's first inline image |
| GeminiService.GenerateSceneImage | services/geminiService.ts:346-384 | the request asks for a 9:16 image, with the cover first when there is one; a failed call leaves the scene unchanged; otherwise only its image URL changes, to the reply's first inline image |
| GeminiService.GenerateImagesForScenes | services/geminiService.ts:339-391 | same length and order; a failed scene is unchanged, the others differ only in image URL; every request is 9:16 and shares the one fetched reference |
| BestsellersApi.Keyword | besselchu/api/bestsellers.ts:57 | non-empty, no `>`; "도서" for a missing category; a category without `>` gives itself trimmed, or "도서" when blank |
| BestsellersApi.KeywordOfPath | besselchu/api/bestsellers.ts:57 | for a category path the keyword is the trimmed last segment, or "도서" when that segment is blank |
| BestsellersApi.MapItem | besselchu/api/bestsellers.ts:51-61 | rank is index+1; title, author and cover are the item's or ""; isbn prefers isbn13, then isbn, then ""; a truthy description is kept, a missing one reads "n위 베스트셀러"; the keyword comes from the category; the cover description quotes the title |
| BestsellersApi.MapItems | besselchu/api/bestsellers.ts:51 | the first ten items are mapped, in order |
| BestsellersApi.MappedRanksIncrease | besselchu/api/bestsellers.ts:51-56 | mapped ranks are 1..n, strictly increasing |
| BestsellersApi.FallbackIsComplete | besselchu/api/bestsellers.ts:73-174 | the fallback has exactly ten books ranked 1..10 in order |
| BestsellersApi.UsesFallback | besselchu/api/bestsellers.ts:33-49 | a failed request or a non-zero `errorCode` uses the fallback; a body with no error code (or 0) and a non-empty item list does not; the mapped list is used only for such a body |
| BestsellersApi.Handle | besselchu/api/bestsellers.ts:16-180 | OPTIONS is empty; a failed, error-coded or empty reply gives the fallback with its note, otherwise the mapped books without a note; sources are the one Aladin URL (every answer has status 200) |
| GenerateContentApi.Handle | besselchu/api/generate-content.ts:23-121 | OPTIONS is empty, other non-POST methods get 405, a failure is a 500 with no content, and the response carries the requested type and the book's cover |
| GenerateContentApi.HandledContent | besselchu/api/generate-content.ts:93-105 | a post carries caption and hashtags and the reply's prompt; a reel carries the reply's scenes (none when missing) and their text |
| GenerateImageApi.AssembleParts | besselchu/api/generate-image.ts:38-62 | the bare prompt without a fetched reference; otherwise the cover first, then text naming the book and ending with "Scene idea: " and the prompt |
| GenerateImageApi.AspectRatio | besselchu/api/generate-image.ts:36 | a missing ratio becomes 1:1; a given one is kept |
| GenerateImageApi.ReferenceHeader | besselchu/api/generate-image.ts:50 | the first line of the rewritten prompt, naming the book (a missing title reads "undefined") |
| GenerateImageApi.Handle | besselchu/api/generate-image.ts:27-90 | 405 and empty OPTIONS; the requested or default aspect ratio is sent; with a fetched reference the cover comes first and the text names the book and ends with "Scene idea: " and the prompt; the first inline image as a PNG data URI, otherwise a 500 |
| OpenAIService.FetchKyoboBestsellers | besselchu/services/openaiService.ts:8-46 | the slot, the result and whether the endpoint was called are those of the cache run over the response |
| OpenAIService.NotOkLeavesSlot | besselchu/services/openaiService.ts:29-45 | a non-ok answer throws the one message and leaves a parseable record untouched |
| OpenAIService.BestsellersNeverFail | besselchu/services/openaiService.ts:26-40 | through the bestseller endpoint the call always succeeds; a miss stores and returns at most ten books ranked in order |
| OpenAIService.DeliverBestsellers | besselchu/services/openaiService.ts:26-33 | a JSON answer arrives as its books and sources |
| OpenAIService.GenerateSocialContent | besselchu/services/openaiService.ts:51-76 | an ok answer passes through; anything else is the one error, with no partial content |
| OpenAIService.DeliverContent | besselchu/services/openaiService.ts:66-70 | a JSON answer arrives as content of the requested type with no image URL; a 405 or 500 arrives as that status |
| OpenAIService.GenerateImage | besselchu/services/openaiService.ts:81-109 | the body posted is the prompt, reference and title with ratio 1:1; the result is the answer's URL when ok, and none on any failure |
| OpenAIService.GenerateImagesForScenes | besselchu/services/openaiService.ts:114-153 | one body per scene with its prompt, the shared reference and title and ratio 9:16; same length and order; a non-ok or thrown scene is unchanged, an ok one differs only in image URL |
| OpenAIService.DeliverImage | besselchu/services/openaiService.ts:98-103 | an image answer arrives as its URL; a 405 or 500 arrives as that status |
| OpenAIService.ImageThroughHandler | besselchu/services/openaiService.ts:98-103 | through the image endpoint a URL arrives exactly when the handler found an image, and it is that image |
| OpenAIService.AspectRatiosSent | besselchu/services/openaiService.ts:90-95 | the handler asks the model for 1:1 for the body `generateImage` posts and 9:16 for every body `generateImagesForScenes` posts |
| App.NextMessageIndex | besselchu/App.tsx:50 | the next index stays in the list and wraps to 0 after the last message |
| App.IndexAfterIsModulo | besselchu/App.tsx:45-51 | after t ticks the index is t mod 5 and within the list |
| App.ImageJobFor | besselchu/App.tsx:85-112 | scene images start only for a reel with scenes and the post image only for a truthy prompt, both with the book's cover and title |
| App.ImageJobThroughHandler | besselchu/App.tsx:85-100 | through the endpoint, a reel starts scene images exactly when the reply listed scenes, and a post its image exactly when the reply had a prompt |
| App.MergeScenes | besselchu/App.tsx:88-91 | no result stays none; otherwise only the scenes are replaced |
| App.MergePostImage | besselchu/App.tsx:103-106 | no result stays none; otherwise only the image URL is replaced |
| App.Step | besselchu/App.tsx:33-134 | the state update of each handler and completion; stated by the invariant and outcome lemmas and the `Session` methods |
| App.InitialInvariant | besselchu/App.tsx:10-17 | the mounted component satisfies the session invariant |
| App.StepKeepsInvariant | besselchu/App.tsx:33-134 | every handler and completion keeps the counter in range, the interval running while loading, and a result in the result state |
| App.ReplayKeepsInvariant | besselchu/App.tsx:33-134 | every session reached by any sequence of events satisfies the invariant |
| App.LoadingMessageAfterTicks | besselchu/App.tsx:45-52 | after t ticks the loading message is entry t mod 5 and the state is still loading |
| App.TicksReplay | besselchu/App.tsx:49-52 | ticks move only the counter and the message |
| App.FetchBooksOutcome | besselchu/App.tsx:33-66 | loading ends in the list with books and sources, or in the error banner; the interval is cleared |
| App.GenerateOutcome | besselchu/App.tsx:68-118 | without a selection nothing happens; otherwise the result state with that result and the image flag, or the error banner |
| App.ResetsOutcome | besselchu/App.tsx:121-134 | reset keeps books and selection and returns to the list; full reset empties them and returns to the start |
| App.StaleSceneJobPatchesNewerResult | besselchu/App.tsx:87-91 | a scene job from an earlier reel patches its scenes into a newer result |
| App.Session.constructor | besselchu/App.tsx:10-17 | the initial state values |
| App.Session.BeginFetchBooks | besselchu/App.tsx:34-52 | the loading state, the first message and a fresh interval |
| App.Session.TickLoadingMessage | besselchu/App.tsx:49-52 | the interval callback's step |
| App.Session.CompleteFetchBooks | besselchu/App.tsx:54-65 | books and sources with the list state, or the error message and state; the interval is cleared |
| App.Session.SelectBook | besselchu/App.tsx:208 | the selection |
| App.Session.BeginGenerate | besselchu/App.tsx:69-73 | nothing without a selection; otherwise the generating state with no result |
| App.Session.CompleteGenerate | besselchu/App.tsx:77-118 | the result state with the result and the started job, or the error |
| App.Session.CompleteSceneImages | besselchu/App.tsx:87-92 | the scene merge and the flag cleared |
| App.Session.CompletePostImage | besselchu/App.tsx:102-107 | the image merge and the flag cleared |
| App.Session.ImageJobFailed | besselchu/App.tsx:93-96 | the flag cleared |
| App.Session.Reset | besselchu/App.tsx:121-125 | back to the list without a result |
| App.Session.FullReset | besselchu/App.tsx:127-134 | back to the start with no books and no selection |
| ResultDisplay.Payload | components/ResultDisplay.tsx:13 | `split(',')[1]` exists exactly when the URI has a comma and holds no comma |
| ResultDisplay.MediaType | components/ResultDisplay.tsx:14 | defined exactly when the header has a colon; it holds no comma, colon or semicolon |
| ResultDisplay.MediaTypeOfHeader | components/ResultDisplay.tsx:14 | a header `scheme:type;parameter` has media type `type` |
| ResultDisplay.PngDataUriParts | components/ResultDisplay.tsx:13-14 | the application's data URIs have media type image/png and their base64 text as payload |
| ResultDisplay.ByteOf | components/ResultDisplay.tsx:18 | a stored byte is the char code mod 256 |
| ResultDisplay.BlobOf | components/ResultDisplay.tsx:12-21 | a blob exists exactly when decoding and the media type succeed; it has one byte per decoded char, each the char code mod 256 |
| ResultDisplay.DataUriToBlob | components/ResultDisplay.tsx:12-21 | the array loop produces exactly that blob |
| ResultDisplay.CaptionNotices | components/ResultDisplay.tsx:171-176 | the caption notice is shown exactly when the caption was written and no share sheet is about to open |
| ResultDisplay.Attempt | components/ResultDisplay.tsx:184-221 | native share only if available, shareable and resolved; else clipboard image only if available and written; else download |
| ResultDisplay.ShareAsWritten | components/ResultDisplay.tsx:180-228 | as written: no image does nothing; a failed conversion aborts with `isSharing` still set; otherwise the outcome is `Attempt` and `isSharing` is cleared |
| ResultDisplay.OutcomeNotices | components/ResultDisplay.tsx:206-224 | at most one notice: the image-copied notice exactly after a clipboard copy, the download notice exactly after a download with neither capability, none after a native share |
| ResultDisplay.StuckSharingExample | components/ResultDisplay.tsx:183 | as written, a URL that is not a data URI aborts the handler with `isSharing` still set |
| ResultDisplay.Share | components/ResultDisplay.tsx:166-228 | nothing without an image; otherwise never aborted, `isSharing` cleared, and the outcome follows the share-then-copy-then-download order |
| ResultDisplay.DownloadNoticeOnlyWithoutCapabilities | components/ResultDisplay.tsx:222-224 | the download notice appears exactly when the chain downloads and neither share nor image copy exists |
| ResultDisplay.IsPostReady | components/ResultDisplay.tsx:230 | ready only for a post whose image URL is non-empty, and never while images are being generated |
| ResultDisplay.PostReadyAfterImage | components/ResultDisplay.tsx:230 | a post whose image arrived enables the button and a press does not skip; a reel never enables it |
| ResultDisplay.ResultView.ShowNotification | components/ResultDisplay.tsx:148-151 | the toast shows the message |
| ResultDisplay.ResultView.TryShare | components/ResultDisplay.tsx:184-224 | the `try` and `catch` blocks end as `Attempt` says, or in the download when the conversion failed, and show that outcome's notice |
| ResultDisplay.ResultView.HandleShareOrAction | components/ResultDisplay.tsx:166-228 | the outcome, the final `isSharing` and the last toast are those of `Share` |

## Left out

- Network, model SDK, `FileReader`, `Buffer`, `atob`, `Blob`, `File`, `ClipboardItem` and `JSON.parse`/`JSON.stringify` are foreign calls. Each is an input: the outcome of the call (a parsed value, a failure or a thrown error).
- Clocks: `today` is a parameter; how `toISOString` derives it is not modelled.
- `Promise.all` concurrency: the scene batches are maps over independent per-scene outcomes.
- The outer `catch` of both `generateImagesForScenes` functions is not modelled. It cannot be reached: every per-scene task catches its own errors, and the reference fetch never throws.
- `fetchImageBase64` of both variants is left out beyond its result, which is an input.
- Prompt wording is left out beyond the structure stated above: what is quoted, what comes first and what the text ends with.
- React rendering, JSX, CSS, toast and copy timers (`setTimeout`), and `setInterval` timing are left out. Only the handlers' state updates are modelled.
- CORS headers of the serverless handlers are HTTP plumbing and are not modelled.
- `handleCopyCaption` and `handleCopyPrompt` in components/ResultDisplay.tsx are clipboard-only handlers with no state beyond a timer-reset flag.
- The Korean text of the fallback books is reproduced, but only their count, order and ranks are proved.
- Strings are sequences of Unicode scalar values. JavaScript's `substring` and `charCodeAt` count UTF-16 code units. The two agree on text in the Basic Multilingual Plane, and on `atob` output, whose char codes are all below 256.
- Content.RenderScene renders `sceneNumber` as an integer. Fractional JavaScript numbers are not modelled.
- DailyCache: an empty stored string is treated like a missing one, since both skip the cache. A stored value that parses to `null` is unusable and removed, since reading its `date` throws; one that parses to a number or `{}` is a record with no date and no data, so it is a miss that stays in place until overwritten.
- App: the button guards of the page (which handlers are visible in which state) are not preconditions of the methods. The invariant holds for any order of events.
- ResultDisplay.ResultView.HandleShareOrAction follows the corrected `Share` described under Findings. The code as written is `ResultDisplay.ShareAsWritten`.

## Findings

| source | as written | input that shows it | evidently intended | confidence | as-written member | corrected member |
|---|---|---|---|---|---|---|
| components/ResultDisplay.tsx:183 | `dataURItoBlob` runs after `setIsSharing(true)` but before the `try`, so when it throws, the `finally` that clears `isSharing` never runs and the post button stays disabled | `imageUrl` = "https://host/a.png": there is no comma, `atob` receives "undefined" (9 characters) and throws (`ResultDisplay.StuckSharingExample`) | a failed conversion falls back to the download like every other failure, and `isSharing` is false afterwards whatever the outcome | low: every URL the app produces is a PNG data URI; not executed | ResultDisplay.ShareAsWritten | ResultDisplay.Share |
