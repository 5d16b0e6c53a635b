/** besselchu/api/bestsellers.ts: the serverless handler that maps the Aladin bestseller
    list to books and falls back to a fixed list of ten on any failure. */
module BestsellersApi {
  import opened Wrappers
  import opened Text
  import opened Types

  /** An item of Aladin's `item` array; every field may be missing. */
  datatype AladinItem = AladinItem(
    title: Option<string>,
    author: Option<string>,
    description: Option<string>,
    categoryName: Option<string>,
    isbn13: Option<string>,
    isbn: Option<string>,
    cover: Option<string>)

  /** The Aladin request: it threw (network or unreadable body), answered not-ok, or gave
      a body with an `errorCode` (0 or missing is no error) and an `item` list. */
  datatype AladinOutcome =
    | AladinThrew
    | AladinNotOk(status: int)
    | AladinBody(errorCode: Option<int>, items: Option<seq<AladinItem>>)

  /** Every answer of the handler, the fallback included, has HTTP status 200. */
  datatype BestsellerResponse =
    | Preflight
    | BestsellerJson(books: seq<Book>, sourceUrls: seq<string>, note: Option<string>)

  const AladinSourceUrl := "http://www.aladin.co.kr/shop/common/wbest.aspx"
  const FallbackNote := "Using fallback data due to API error"
  const DefaultKeyword := "도서"
  const MaxBooks := 10

  /** A segment as the keyword: trimmed, or "도서" when nothing is left. */
  function SegmentKeyword(segment: string): string {
    if Trim(segment) == "" then DefaultKeyword else Trim(segment)
  }

  /** The keyword: the trimmed text after the last `>` of the category, or "도서" when the
      category is missing or that text is blank. A category with no `>` is one segment. */
  function Keyword(categoryName: Option<string>): (r: string)
    ensures r != "" && '>' !in r
    ensures r == DefaultKeyword || (!IsSpace(r[0]) && !IsSpace(r[|r| - 1]))
    ensures categoryName.None? ==> r == DefaultKeyword
    ensures categoryName.Some? && '>' !in categoryName.value ==> r == SegmentKeyword(categoryName.value)
  {
    var last := AfterLast(categoryName.GetOr(""), '>');
    var segment := Trim(last);
    TrimKeepsOut(last, '>');
    AfterLastAbsent(categoryName.GetOr(""), '>');
    if segment == "" then DefaultKeyword else segment
  }

  /** A category path gives its last segment: "국내도서>소설/시/희곡>한국소설" gives
      "한국소설" (trimmed), whatever comes before the last `>`, and "도서" when that
      segment is blank. */
  lemma KeywordOfPath(path: string, last: string)
    requires '>' !in last
    ensures Keyword(Some(path + ">" + last)) == SegmentKeyword(last)
  {
    AfterLastOfJoined(path, '>', last);
  }

  const RankSuffix := "위 베스트셀러"

  /** The description of an item that has none: "n위 베스트셀러" for rank n. */
  function RankDescription(rank: nat): (r: string)
    ensures EndsWith(r, RankSuffix) && StartsWith(r, NatToDecimal(rank))
  {
    var r := NatToDecimal(rank) + RankSuffix;
    assert r[|r| - |RankSuffix|..] == RankSuffix;
    r
  }

  /** One Aladin item as the `index`-th book (0-based): a missing or empty field falls back
      to "" (isbn13 before isbn), the description to its rank, and the keyword comes from
      the category. */
  function MapItem(item: AladinItem, index: nat): (b: Book)
    ensures b.rank == index + 1
    ensures b.title == (if Truthy(item.title) then item.title.value else "")
    ensures b.author == (if Truthy(item.author) then item.author.value else "")
    ensures Truthy(item.description) ==> b.description == item.description.value
    ensures !Truthy(item.description) ==> b.description == RankDescription(index + 1)
    ensures b.description != ""
    ensures b.keyword == Keyword(item.categoryName)
    ensures b.isbn == Some(if Truthy(item.isbn13) then item.isbn13.value
                           else if Truthy(item.isbn) then item.isbn.value else "")
    ensures b.coverUrl == Some(if Truthy(item.cover) then item.cover.value else "")
    ensures b.coverDescription == Some("\"" + Interpolate(item.title) + "\" book cover")
  {
    Book(
      title := OrElse(item.title, ""),
      author := OrElse(item.author, ""),
      description := OrElse(item.description, RankDescription(index + 1)),
      rank := index + 1,
      keyword := Keyword(item.categoryName),
      isbn := Some(OrElse(item.isbn13, OrElse(item.isbn, ""))),
      coverUrl := Some(OrElse(item.cover, "")),
      coverDescription := Some("\"" + Interpolate(item.title) + "\" book cover"))
  }

  /** `items.slice(0, 10).map(...)`: at most ten books, ranked 1..n in list order. */
  function MapItems(items: seq<AladinItem>): (r: seq<Book>)
    ensures |r| == if |items| < MaxBooks then |items| else MaxBooks
    ensures forall i :: 0 <= i < |r| ==> r[i] == MapItem(items[i], i)
  {
    var n := if |items| < MaxBooks then |items| else MaxBooks;
    seq(n, i requires 0 <= i < n => MapItem(items[i], i))
  }

  predicate RankedInOrder(books: seq<Book>) {
    forall i :: 0 <= i < |books| ==> books[i].rank == i + 1
  }

  /** Ranks are 1..n, hence strictly increasing. */
  lemma MappedRanksIncrease(items: seq<AladinItem>)
    ensures RankedInOrder(MapItems(items))
    ensures forall i, j :: 0 <= i < j < |MapItems(items)| ==> MapItems(items)[i].rank < MapItems(items)[j].rank
  {
  }

  function FallbackBook(title: string, author: string, description: string, rank: int, keyword: string,
                        isbn: string, coverUrl: string): Book {
    Book(title, author, description, rank, keyword, Some(isbn), Some(coverUrl), Some(title + " book cover"))
  }

  const FallbackBooks: seq<Book> := [
    FallbackBook("이해찬 회고록", "이해찬", "꿈이 모여 역사가 되다", 1, "정치인", "9791191438826",
                 "https://image.aladin.co.kr/product/30175/15/cover500/k442839798_1.jpg"),
    FallbackBook("눈과 돌멩이", "위수정 외", "2026년 제49회 이상문학상 작품집", 2, "소설", "9791130674643",
                 "https://image.aladin.co.kr/product/38496/16/cover500/k622135312_1.jpg"),
    FallbackBook("괴테는 모든 것을 말했다", "스즈키 유이", "제172회 아쿠타가와상 수상작", 3, "소설", "9791194530701",
                 "https://image.aladin.co.kr/product/37676/59/cover500/k212032349_3.jpg"),
    FallbackBook("돈의 방정식", "모건 하우젤", "돈을 지위와 성공의 기준, 그 이상으로 다루기 위한 21가지 이야기", 4, "재테크", "9791193904671",
                 "https://image.aladin.co.kr/product/38325/60/cover500/k952034340_2.jpg"),
    FallbackBook("떠난 것은 돌아오지 않는다", "줄리언 반스", "부커상 수상 작가의 마지막 소설", 5, "소설", "9791130681009",
                 "https://image.aladin.co.kr/product/38434/78/cover500/k232135794_2.jpg"),
    FallbackBook("퓨처 셀프", "벤저민 하디", "미래의 자신과 연결되어 현재를 변화시키는 방법", 6, "자기계발", "9791140710225",
                 "https://image.aladin.co.kr/product/32767/61/cover500/k232937637_1.jpg"),
    FallbackBook("역행자", "자청", "돈과 시간으로부터 자유로워지는 방법", 7, "자기계발", "9791168473690",
                 "https://image.aladin.co.kr/product/29354/32/cover500/k552835893_1.jpg"),
    FallbackBook("불편한 편의점", "김호연", "따뜻한 위로를 전하는 감동 소설", 8, "소설", "9788936434267",
                 "https://image.aladin.co.kr/product/27338/6/cover500/k222835565_1.jpg"),
    FallbackBook("트렌드 코리아 2026", "김난도", "2026년을 이끌 10가지 트렌드 키워드", 9, "트렌드", "9788959897629",
                 "https://image.aladin.co.kr/product/34951/47/cover500/k212935465_1.jpg"),
    FallbackBook("마흔에 읽는 니체", "장재형", "인생의 전환점에서 읽는 니체 철학", 10, "철학", "9791156759034",
                 "https://image.aladin.co.kr/product/11821/67/cover500/k672434296_1.jpg")
  ]

  /** The fallback list is ten books ranked 1..10 in order. */
  lemma FallbackIsComplete()
    ensures |FallbackBooks| == 10 && RankedInOrder(FallbackBooks)
  {
  }

  /** The Aladin answer could not be used: it failed, reported an error code, or listed no items. */
  function UsesFallback(outcome: AladinOutcome): (b: bool)
    ensures outcome.AladinThrew? || outcome.AladinNotOk? ==> b
    ensures outcome.AladinBody? && outcome.errorCode.Some? && outcome.errorCode.value != 0 ==> b
    ensures (&& outcome.AladinBody? && (outcome.errorCode.None? || outcome.errorCode.value == 0)
             && outcome.items.Some? && |outcome.items.value| > 0) ==> !b
    ensures !b ==> outcome.AladinBody? && outcome.items.Some? && |outcome.items.value| > 0
  {
    match outcome
    case AladinBody(errorCode, items) =>
      (errorCode.Some? && errorCode.value != 0) || |items.GetOr([])| == 0
    case _ => true
  }

  /** The handler: OPTIONS is answered empty; any other method gets the mapped list, or the
      fallback list with a note; both answers carry the one Aladin source URL and status 200. */
  function Handle(httpMethod: string, outcome: AladinOutcome): (r: BestsellerResponse)
    ensures r.Preflight? <==> httpMethod == "OPTIONS"
    ensures r.BestsellerJson? ==> r.sourceUrls == [AladinSourceUrl]
    ensures r.BestsellerJson? ==> (r.note.Some? <==> UsesFallback(outcome))
    ensures r.BestsellerJson? && UsesFallback(outcome) ==> r.books == FallbackBooks && r.note == Some(FallbackNote)
    ensures r.BestsellerJson? && !UsesFallback(outcome) ==> r.books == MapItems(outcome.items.value)
    ensures r.BestsellerJson? ==> 0 < |r.books| <= MaxBooks && RankedInOrder(r.books)
  {
    if httpMethod == "OPTIONS" then Preflight
    else if UsesFallback(outcome) then BestsellerJson(FallbackBooks, [AladinSourceUrl], Some(FallbackNote))
    else
      MappedRanksIncrease(outcome.items.value);
      BestsellerJson(MapItems(outcome.items.value), [AladinSourceUrl], None)
  }
}
