/**
 * The header search box (src/components/home/SearchBar.tsx): the submit handler
 * that queries the search endpoint and fills the dropdown, the dropdown's
 * visibility rule, and the link each result points to.
 */
module SearchBar {
  import opened Wrappers
  import Text
  import Api

  const EnterKeyword := "검색어를 입력하세요."
  const NoResults := "검색 결과가 없습니다."
  const SearchFailed := "검색에 실패했습니다."
  const SearchError := "검색 중 문제가 발생했습니다."
  /** How many results the query asks for. */
  const SearchLimit := 5

  /** The author summary a hit carries. */
  datatype SearchAuthor = SearchAuthor(id: int, username: string)

  /** One hit: `kind` is the `type` field, "post" or "article". */
  datatype SearchResult = SearchResult(
    kind: string,
    id: int,
    boardId: int,
    boardName: string,
    title: string,
    content: string,
    author: SearchAuthor,
    views: int,
    likesCount: int,
    commentCount: int,
    createdAt: string)

  /** `SearchResponse`; `results` may be missing (null) in what the server actually sends. */
  datatype SearchResponse = SearchResponse(results: Option<seq<SearchResult>>, total: int)

  /** The query string's parameters; the keyword goes through `encodeURIComponent`. */
  datatype SearchQuery = SearchQuery(keyword: string, limit: int)

  /** The route segment of a hit: posts and articles live under different routes of their board. */
  function Route(result: SearchResult): (segment: string) {
    if result.kind == "post" then "posts" else "articles"
  }

  /** `getDetailLink`: `/boards/{boardId}/posts/{id}` for a post, `/boards/{boardId}/articles/{id}` otherwise. */
  function GetDetailLink(result: SearchResult): (link: string)
    ensures result.kind == "post" ==>
              link == "/boards/" + Text.IntString(result.boardId) + "/posts/" + Text.IntString(result.id)
    ensures result.kind != "post" ==>
              link == "/boards/" + Text.IntString(result.boardId) + "/articles/" + Text.IntString(result.id)
  {
    "/boards/" + Text.IntString(result.boardId) + "/" + Route(result) + "/" + Text.IntString(result.id)
  }

  /** When two strings free of '/' are each followed by a '/', equal concatenations split equally. */
  lemma SplitAtSlash(x: string, s: string, y: string, t: string)
    requires '/' !in x && '/' !in y
    requires x + "/" + s == y + "/" + t
    ensures x == y && s == t
  {
    var u := x + "/" + s;
    assert |x| == |y| by {
      assert u[|x|] == '/';
      assert u[|y|] == '/';
    }
    assert x == u[..|x|] == y;
    assert s == u[|x| + 1..] == t;
  }

  /** The part of a detail link after "/boards/". */
  lemma DetailLinkTail(r: SearchResult)
    ensures |GetDetailLink(r)| >= 8
    ensures GetDetailLink(r)[8..] == Text.IntString(r.boardId) + "/" + (Route(r) + "/" + Text.IntString(r.id))
  {
    var link := GetDetailLink(r);
    assert link == "/boards/" + (Text.IntString(r.boardId) + "/" + (Route(r) + "/" + Text.IntString(r.id)));
  }

  /** Distinct hits (by route, board and id) link to distinct pages. */
  lemma DetailLinkInjective(a: SearchResult, b: SearchResult)
    requires GetDetailLink(a) == GetDetailLink(b)
    ensures a.boardId == b.boardId && a.id == b.id
    ensures (a.kind == "post") == (b.kind == "post")
  {
    DetailLinkTail(a);
    DetailLinkTail(b);
    Text.IntStringHasNoSlash(a.boardId);
    Text.IntStringHasNoSlash(b.boardId);
    SplitAtSlash(Text.IntString(a.boardId), Route(a) + "/" + Text.IntString(a.id),
                 Text.IntString(b.boardId), Route(b) + "/" + Text.IntString(b.id));
    Text.IntStringInjective(a.boardId, b.boardId);
    SplitAtSlash(Route(a), Text.IntString(a.id), Route(b), Text.IntString(b.id));
    Text.IntStringInjective(a.id, b.id);
  }

  /** The state of one `SearchBar` component. */
  class SearchBar {
    var keyword: string
    var results: seq<SearchResult>
    var open: bool
    var loading: bool
    var message: Option<string>

    constructor ()
      ensures keyword == "" && results == [] && !open && !loading && message.None?
    {
      keyword := "";
      results := [];
      open := false;
      loading := false;
      message := None;
    }

    /** `open && (results.length > 0 || message)`: an empty message string shows nothing. */
    predicate DropdownVisible()
      reads this
      ensures DropdownVisible() <==> open && (results != [] || (message.Some? && message.value != ""))
    {
      open && (|results| > 0 || Text.Truthy(message))
    }

    /** The input's `onChange`. */
    method Edit(value: string)
      modifies this
      ensures keyword == value
      ensures results == old(results) && open == old(open) && loading == old(loading) && message == old(message)
    {
      keyword := value;
    }

    /** The input's `onFocus`: reopen the dropdown when the keyword is not blank. */
    method Focus()
      modifies this
      ensures open == (old(open) || Text.Trim(keyword) != "")
      ensures keyword == old(keyword) && results == old(results) && loading == old(loading) && message == old(message)
    {
      if Text.Trim(keyword) != "" {
        open := true;
      }
    }

    /** An outside click, Escape, or following a result: `setOpen(false)`. */
    method Dismiss()
      modifies this
      ensures !open
      ensures keyword == old(keyword) && results == old(results) && loading == old(loading) && message == old(message)
    {
      open := false;
    }

    /**
     * `handleSearch`. A blank keyword: no request, results cleared, the prompt
     * shown. Otherwise the trimmed keyword is queried with limit 5, and the
     * dropdown opens with the results, the server's error text, "no results",
     * or the generic error (for a thrown error, including the one `.length`
     * throws when the success payload has no `results`); `loading` ends false.
     */
    method HandleSearch(response: Api.Response<SearchResponse>) returns (query: Option<SearchQuery>)
      modifies this
      ensures keyword == old(keyword) && open
      ensures Text.Trim(keyword) == "" ==>
                && query.None? && results == [] && message == Some(EnterKeyword)
                && loading == old(loading)
      ensures Text.Trim(keyword) != "" ==>
                && query == Some(SearchQuery(Text.Trim(keyword), SearchLimit))
                && !loading
                && (response.Thrown? ==> results == [] && message == Some(SearchError))
                && (response.Received? && !response.json.result ==>
                      && results == []
                      && message == Some(Api.ErrorMessage(response.json.data, SearchFailed)))
                && (Api.Succeeded(response) ==>
                      var data := response.json.data;
                      if data.Typed? && data.value.results.Some? then
                        && results == data.value.results.value
                        && (message == Some(NoResults) <==> results == [])
                        && (results != [] ==> message.None?)
                      else
                        results == [] && message == Some(SearchError))
    {
      var trimmed := Text.Trim(keyword);
      if trimmed == "" {
        results := [];
        message := Some(EnterKeyword);
        open := true;
        return None;
      }
      loading := true;
      message := None;
      query := Some(SearchQuery(trimmed, SearchLimit));
      match response {
        case Thrown =>
          results := [];
          message := Some(SearchError);
          open := true;
        case Received(json) =>
          if !json.result {
            results := [];
            message := Some(Api.ErrorMessage(json.data, SearchFailed));
            open := true;
          } else if json.data.Typed? && json.data.value.results.Some? {
            results := json.data.value.results.value;
            message := if |results| == 0 then Some(NoResults) else None;
            open := true;
          } else {
            // `data.results.length` throws: the catch clause takes over.
            results := [];
            message := Some(SearchError);
            open := true;
          }
      }
      loading := false;
    }
  }
}
