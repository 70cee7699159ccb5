/**
 * The like button of an article page (src/components/article/ArticleBody.tsx).
 *
 * `handleLike` is split at its `await`: `Click` is what runs before the
 * request settles (the login check, the busy guard, `setLoading(true)` and the
 * request itself) and `Settle` is what runs after it, so that a click arriving
 * while a request is in flight can be modelled.
 */
module ArticleBody {
  import opened Wrappers
  import opened Types
  import Text
  import Api
  import Auth

  /** The button's state: whether this viewer liked the article, and the count shown. */
  datatype Likes = Likes(liked: bool, count: int)

  /** A successful like request: the flag flips, and the count moves by one in that direction. */
  function Toggle(s: Likes): (t: Likes)
    ensures t.liked == !s.liked
    ensures s.liked ==> t.count == s.count - 1
    ensures !s.liked ==> t.count == s.count + 1
  {
    Likes(!s.liked, if s.liked then s.count - 1 else s.count + 1)
  }

  /** Two successful requests in a row restore both the flag and the count. */
  lemma ToggleTwice(s: Likes)
    ensures Toggle(Toggle(s)) == s
  {
  }

  /** The count net of this viewer's own like never changes. */
  lemma ToggleKeepsOthersLikes(s: Likes)
    ensures Toggle(s).count - (if Toggle(s).liked then 1 else 0) == s.count - (if s.liked then 1 else 0)
  {
  }

  function LikePath(boardId: int, articleId: int): (path: string) {
    "/api/v1/boards/" + Text.IntString(boardId) + "/articles/" + Text.IntString(articleId) + "/like"
  }

  class ArticleBody {
    const boardId: int
    const articleId: int
    var likesCount: int
    var liked: bool
    var loading: bool

    /** The initial state: the article's own count, not liked, idle. */
    constructor (article: ArticleResponse, boardId: int, articleId: int)
      ensures this.boardId == boardId && this.articleId == articleId
      ensures likesCount == article.likesCount && !liked && !loading
    {
      this.boardId := boardId;
      this.articleId := articleId;
      likesCount := article.likesCount;
      liked := false;
      loading := false;
    }

    function State(): (s: Likes)
      reads this
    {
      Likes(liked, likesCount)
    }

    /**
     * The part of `handleLike` before the `await`: logged out, an alert and
     * nothing else; while a request is in flight, nothing at all; otherwise
     * `loading` is set and the like request is sent.
     */
    method Click(store: Auth.TokenStore) returns (sent: Option<Api.HttpRequest>, alert: Option<string>)
      modifies this
      ensures !old(store.IsLoggedIn()) ==> sent.None? && alert == Some(Auth.LoginRequired) && unchanged(this)
      ensures old(store.IsLoggedIn()) && old(loading) ==> sent.None? && alert.None? && unchanged(this)
      ensures old(store.IsLoggedIn()) && !old(loading) ==>
                && alert.None? && loading && State() == old(State())
                && sent.Some?
                && sent.value.endpoint == LikePath(boardId, articleId)
                && sent.value.verb == Some(Api.POST) && sent.value.body.NoBody?
                && sent.value.headers == Api.RequestHeaders(old(store.GetToken()), map[])
    {
      if !store.IsLoggedIn() {
        return None, Some(Auth.LoginRequired);
      }
      if loading {
        return None, None;
      }
      loading := true;
      var req := Api.Prepare(LikePath(boardId, articleId), Api.PostInit(None), store.GetToken());
      sent, alert := Some(req), None;
    }

    /**
     * The part of `handleLike` after the `await`: on success the state toggles;
     * on an `ApiError` its message is alerted and the state is kept; in every
     * case `loading` ends false.
     */
    method Settle(response: Api.Response<LikeResponse>) returns (alert: Option<string>)
      requires loading
      modifies this
      ensures !loading
      ensures var outcome := Api.Receive(response, Api.RequestFallback);
              && (outcome.Returned? ==> State() == Toggle(old(State())) && alert.None?)
              && (outcome.Raised? ==> State() == old(State()))
              && (outcome.Raised? && outcome.error.ApiError? ==> alert == Some(outcome.error.message))
              && (outcome.Raised? && outcome.error.OtherError? ==> alert.None?)
    {
      var outcome := Api.Receive(response, Api.RequestFallback);
      alert := None;
      match outcome {
        case Returned(_) =>
          var wasLiked := liked;
          liked := !liked;
          likesCount := if wasLiked then likesCount - 1 else likesCount + 1;
        case Raised(error) =>
          if error.ApiError? {
            alert := Some(error.message);
          }
      }
      loading := false;
    }
  }
}
