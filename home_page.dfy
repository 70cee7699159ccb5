/**
 * The landing page's data assembly (src/app/page.tsx): fetch the board list,
 * then for every board, in board order, the first page of its articles, and
 * fill in the first ("featured") article from its detail record when the list
 * preview lacks its content or thumbnail.
 *
 * Every fetch result is an input. The article-list and detail endpoints are
 * given as functions from the ids in their paths to the response they yield,
 * so the model fixes what each request returns without fixing the order in
 * which the concurrent requests settle (`Promise.all` keeps board order).
 */
module HomePage {
  import opened Wrappers
  import opened Types
  import Text
  import Api

  const GalleryType := "gallery"
  const CommunityType := "community"
  const BoardsPath := "/api/v1/boards"

  /** `BoardFeed`: a board and, unless it is a gallery, its first page of articles. */
  datatype BoardFeed = BoardFeed(board: Board, articles: Option<seq<ArticleListItem>>)

  /** `ArticlePreviewDetail`: the two fields read from an article's detail record. */
  datatype ArticlePreviewDetail = ArticlePreviewDetail(content: Option<string>, thumbnailKey: Option<string>)

  /** One board's feed and the paths fetched to build it, in the order they were requested. */
  datatype FeedLoad = FeedLoad(feed: BoardFeed, fetched: seq<string>)

  /** A community section of the page: its board, `feed.articles ?? []`, and its position. */
  datatype Section = Section(board: Board, articles: seq<ArticleListItem>, index: nat)

  /** What `Home` renders from the feeds: the sidebar's boards and the community sections. */
  datatype HomeView = HomeView(sidebar: seq<Board>, sections: seq<Section>)

  function ArticlesPath(boardId: int): (path: string) {
    "/api/v1/boards/" + Text.IntString(boardId) + "/articles?page=1&limit=6"
  }

  function DetailPath(boardId: int, articleId: int): (path: string) {
    "/api/v1/boards/" + Text.IntString(boardId) + "/articles/" + Text.IntString(articleId)
  }

  /**
   * `(await fetchApi<Board[]>(...)) ?? []`, then `.map`: null becomes the
   * empty list; a string payload has no `map` method, so the page fails (`None`).
   */
  function BoardList(data: Option<Api.Data<seq<Board>>>): (boards: Option<seq<Board>>)
    ensures data.None? ==> boards == Some([])
    ensures boards.None? <==> data.Some? && data.value.Str?
    ensures data.Some? && data.value.Typed? ==> boards == Some(data.value.value)
  {
    match data
    case None => Some([])
    case Some(Str(_)) => None
    case Some(Typed(bs)) => Some(bs)
  }

  /** `data?.articles ?? []`: null, and a string payload (which has no `articles`), give `[]`. */
  function ArticlesOf(data: Option<Api.Data<ArticleListResponse>>): (articles: seq<ArticleListItem>)
    ensures data.None? || data.value.Str? ==> articles == []
    ensures data.Some? && data.value.Typed? ==> articles == data.value.value.articles
  {
    match data
    case Some(Typed(list)) => list.articles
    case _ => []
  }

  /** `!featured.content || !featured.thumbnailKey`: truthiness, so an empty string counts as missing. */
  predicate NeedsDetail(item: ArticleListItem) {
    !Text.Truthy(item.content) || !Text.Truthy(item.thumbnailKey)
  }

  /** An article needs its detail exactly when its content or thumbnail key is absent or empty. */
  lemma NeedsDetailIffMissing(item: ArticleListItem)
    ensures NeedsDetail(item) <==>
              || item.content.None? || item.content == Some("")
              || item.thumbnailKey.None? || item.thumbnailKey == Some("")
  {
  }

  /** `detail?.…`: fields can be read only from a detail object, not from null or a string. */
  function DetailRecord(detail: Option<Api.Data<ArticlePreviewDetail>>): (record: Option<ArticlePreviewDetail>) {
    match detail
    case Some(Typed(d)) => Some(d)
    case _ => None
  }

  /**
   * `{...featured, content: detail?.content ?? featured.content, thumbnailKey: …}`:
   * `??` overrides only with a present detail value (an empty string included);
   * every other field is the featured article's own.
   */
  function MergeFeatured(featured: ArticleListItem, detail: Option<Api.Data<ArticlePreviewDetail>>): (merged: ArticleListItem)
    ensures var d := DetailRecord(detail);
            merged.content == if d.Some? && d.value.content.Some? then d.value.content else featured.content
    ensures var d := DetailRecord(detail);
            merged.thumbnailKey == if d.Some? && d.value.thumbnailKey.Some? then d.value.thumbnailKey else featured.thumbnailKey
    ensures merged.(content := featured.content, thumbnailKey := featured.thumbnailKey) == featured
  {
    var d := DetailRecord(detail);
    featured.(
      content := Coalesce(if d.Some? then d.value.content else None, featured.content),
      thumbnailKey := Coalesce(if d.Some? then d.value.thumbnailKey else None, featured.thumbnailKey))
  }

  /**
   * The async callback `loadBoardFeeds` maps over the boards. A gallery board
   * fetches nothing and carries no articles. Any other board fetches page 1
   * (limit 6) of its articles; when the first one needs detail, that
   * article's detail record is fetched and overlaid on it, and the rest of
   * the page is kept as it came.
   */
  function LoadFeed(
    board: Board,
    listOf: int -> Api.Response<ArticleListResponse>,
    detailOf: (int, int) -> Api.Response<ArticlePreviewDetail>): (r: FeedLoad)
    ensures r.feed.board == board
    ensures board.boardType == GalleryType ==> r.feed.articles.None? && r.fetched == []
    ensures board.boardType != GalleryType ==>
              var listed := ArticlesOf(Api.DataOrNull(listOf(board.id)));
              && r.feed.articles.Some?
              && |r.feed.articles.value| == |listed|
              && (forall i :: 1 <= i < |listed| ==> r.feed.articles.value[i] == listed[i])
              && (listed == [] || !NeedsDetail(listed[0]) ==>
                    r.feed.articles.value == listed && r.fetched == [ArticlesPath(board.id)])
              && (listed != [] && NeedsDetail(listed[0]) ==>
                    && r.feed.articles.value[0] == MergeFeatured(listed[0], Api.DataOrNull(detailOf(board.id, listed[0].id)))
                    && r.fetched == [ArticlesPath(board.id), DetailPath(board.id, listed[0].id)])
  {
    if board.boardType == GalleryType then
      FeedLoad(BoardFeed(board, None), [])
    else
      var articles := ArticlesOf(Api.DataOrNull(listOf(board.id)));
      if articles == [] || !NeedsDetail(articles[0]) then
        FeedLoad(BoardFeed(board, Some(articles)), [ArticlesPath(board.id)])
      else
        var featured := articles[0];
        var detail := Api.DataOrNull(detailOf(board.id, featured.id));
        FeedLoad(
          BoardFeed(board, Some([MergeFeatured(featured, detail)] + articles[1..])),
          [ArticlesPath(board.id), DetailPath(board.id, featured.id)])
  }

  /**
   * `loadBoardFeeds()`: one feed per board, in board order (`Promise.all` over
   * `map`). `None` when the board-list payload is a string and the page fails.
   */
  function LoadBoardFeeds(
    boardsResponse: Api.Response<seq<Board>>,
    listOf: int -> Api.Response<ArticleListResponse>,
    detailOf: (int, int) -> Api.Response<ArticlePreviewDetail>): (r: Option<seq<BoardFeed>>)
    ensures r.None? <==> boardsResponse.Received? && boardsResponse.json.result && boardsResponse.json.data.Str?
    ensures Api.DataOrNull(boardsResponse).None? ==> r == Some([])
    ensures r.Some? ==>
              var boards := BoardList(Api.DataOrNull(boardsResponse)).value;
              && |r.value| == |boards|
              && forall i :: 0 <= i < |boards| ==>
                   r.value[i].board == boards[i] && r.value[i] == LoadFeed(boards[i], listOf, detailOf).feed
  {
    match BoardList(Api.DataOrNull(boardsResponse))
    case None => None
    case Some(boards) =>
      Some(seq(|boards|, i requires 0 <= i < |boards| => LoadFeed(boards[i], listOf, detailOf).feed))
  }

  predicate IsCommunity(feed: BoardFeed) {
    feed.board.boardType == CommunityType
  }

  /** `feeds.filter((feed) => feed.board.type === "community")`. */
  function CommunityFeeds(feeds: seq<BoardFeed>): (r: seq<BoardFeed>)
    ensures |r| <= |feeds|
    ensures forall f :: f in r <==> f in feeds && IsCommunity(f)
  {
    if feeds == [] then []
    else (if IsCommunity(feeds[0]) then [feeds[0]] else []) + CommunityFeeds(feeds[1..])
  }

  /** Filtering keeps the original order: it distributes over concatenation. */
  lemma {:induction false} CommunityFeedsAppend(a: seq<BoardFeed>, b: seq<BoardFeed>)
    ensures CommunityFeeds(a + b) == CommunityFeeds(a) + CommunityFeeds(b)
  {
    if a == [] {
      assert a + b == b;
    } else {
      assert (a + b)[1..] == a[1..] + b;
      CommunityFeedsAppend(a[1..], b);
    }
  }

  /** `Home()`: the sidebar lists every feed's board; each community feed becomes a section. */
  function Home(feeds: seq<BoardFeed>): (view: HomeView)
    ensures |view.sidebar| == |feeds| && forall i :: 0 <= i < |feeds| ==> view.sidebar[i] == feeds[i].board
    ensures var community := CommunityFeeds(feeds);
            && |view.sections| == |community|
            && forall i :: 0 <= i < |community| ==>
                 view.sections[i] == Section(community[i].board, community[i].articles.GetOr([]), i)
  {
    var community := CommunityFeeds(feeds);
    HomeView(
      seq(|feeds|, i requires 0 <= i < |feeds| => feeds[i].board),
      seq(|community|, i requires 0 <= i < |community| => Section(community[i].board, community[i].articles.GetOr([]), i)))
  }

  /** The page shows the boards of the board list, in order, and a section only for community boards. */
  lemma HomeShowsLoadedBoards(
    boardsResponse: Api.Response<seq<Board>>,
    listOf: int -> Api.Response<ArticleListResponse>,
    detailOf: (int, int) -> Api.Response<ArticlePreviewDetail>,
    feeds: seq<BoardFeed>)
    requires LoadBoardFeeds(boardsResponse, listOf, detailOf) == Some(feeds)
    ensures Home(feeds).sidebar == BoardList(Api.DataOrNull(boardsResponse)).value
    ensures forall s :: s in Home(feeds).sections ==> s.board.boardType == CommunityType
  {
    var view := Home(feeds);
    forall s | s in view.sections ensures s.board.boardType == CommunityType {
      var i :| 0 <= i < |view.sections| && view.sections[i] == s;
      assert CommunityFeeds(feeds)[i] in CommunityFeeds(feeds);
    }
  }

  /** A detail that supplies a non-empty content and thumbnail satisfies the featured article. */
  lemma MergeWithFullDetail(featured: ArticleListItem, d: ArticlePreviewDetail)
    requires Text.Truthy(d.content) && Text.Truthy(d.thumbnailKey)
    ensures !NeedsDetail(MergeFeatured(featured, Some(Api.Typed(d))))
  {
  }

  /**
   * `??` lets an empty detail value win over the preview's own value, so the
   * merged article can be worse off than before the merge.
   */
  lemma EmptyDetailOverridesPreview(featured: ArticleListItem, d: ArticlePreviewDetail)
    requires d.content == Some("")
    ensures MergeFeatured(featured, Some(Api.Typed(d))).content == Some("")
    ensures NeedsDetail(MergeFeatured(featured, Some(Api.Typed(d))))
  {
  }

  /** A null or failed detail fetch leaves the featured article as it was. */
  lemma MergeWithoutDetail(featured: ArticleListItem, detail: Option<Api.Data<ArticlePreviewDetail>>)
    requires detail.None? || detail.value.Str?
    ensures MergeFeatured(featured, detail) == featured
  {
  }
}
