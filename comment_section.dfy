/**
 * The comment section of an article page (src/components/article/CommentSection.tsx):
 * the recursive comment count shown in its heading, the indented rendering of
 * the reply tree, and the submit handler that posts a new root comment.
 */
module CommentSection {
  import opened Wrappers
  import opened Types
  import Text
  import Api
  import Auth

  /** Pixels of left margin per level of reply depth. */
  const IndentStep := 24
  /** Replies deeper than this are not indented any further. */
  const MaxIndentDepth := 3

  /**
   * `countAllComments`: `reduce` from the left, adding 1 for each comment and
   * the count of its replies.
   */
  function CountAllComments(comments: seq<CommentResponse>): (n: nat)
    ensures n >= |comments|
    ensures n == 0 <==> comments == []
  {
    if comments == [] then 0
    else CountAllComments(comments[..|comments| - 1]) + 1 + CountAllComments(comments[|comments| - 1].replies)
  }

  /** One comment counts itself and its whole reply tree. */
  lemma CountOne(c: CommentResponse)
    ensures CountAllComments([c]) == 1 + CountAllComments(c.replies)
  {
    assert [c][..0] == [];
  }

  /** The count of a concatenation is the sum of the counts. */
  lemma {:induction false} CountAppend(a: seq<CommentResponse>, b: seq<CommentResponse>)
    ensures CountAllComments(a + b) == CountAllComments(a) + CountAllComments(b)
    decreases |b|
  {
    if b == [] {
      assert a + b == a;
    } else {
      var last := b[|b| - 1];
      assert (a + b)[..|a + b| - 1] == a + b[..|b| - 1];
      assert (a + b)[|a + b| - 1] == last;
      CountAppend(a, b[..|b| - 1]);
    }
  }

  /** The count summed over the comments from the front: each adds 1 plus its replies' count. */
  lemma CountCons(c: CommentResponse, rest: seq<CommentResponse>)
    ensures CountAllComments([c] + rest) == 1 + CountAllComments(c.replies) + CountAllComments(rest)
  {
    CountAppend([c], rest);
    CountOne(c);
  }

  /** `marginLeft` of a comment at `depth`: none at the root, then `min(depth, 3) * 24` pixels. */
  function Indent(depth: nat): (margin: Option<nat>)
    ensures margin.None? <==> depth == 0
    ensures margin.Some? ==> IndentStep <= margin.value <= MaxIndentDepth * IndentStep
    ensures depth >= MaxIndentDepth ==> margin == Some(MaxIndentDepth * IndentStep)
  {
    if depth > 0 then Some((if depth < MaxIndentDepth then depth else MaxIndentDepth) * IndentStep) else None
  }

  /** Deeper replies are never indented less. */
  lemma IndentMonotone(d1: nat, d2: nat)
    requires 0 < d1 <= d2
    ensures Indent(d1).value <= Indent(d2).value
  {
  }

  /** One rendered comment: which comment, at what depth and margin, and whose reply it is shown as. */
  datatype Row = Row(comment: CommentResponse, depth: nat, marginLeft: Option<nat>, replyTo: Option<string>)

  /** `CommentItem`: the comment's own row, then its replies one level deeper, tagged with its author. */
  function ItemRows(c: CommentResponse, depth: nat, parentAuthor: Option<string>): (rows: seq<Row>)
    ensures |rows| >= 1 && rows[0] == Row(c, depth, Indent(depth), parentAuthor)
    decreases c
  {
    [Row(c, depth, Indent(depth), parentAuthor)] + ListRows(c.replies, depth + 1, Some(c.author.username))
  }

  /** A list of sibling comments rendered in order; the root list has depth 0 and no parent. */
  function ListRows(comments: seq<CommentResponse>, depth: nat, parentAuthor: Option<string>): (rows: seq<Row>)
    ensures |rows| >= |comments|
    ensures rows == [] <==> comments == []
    decreases comments
  {
    if comments == [] then []
    else ItemRows(comments[0], depth, parentAuthor) + ListRows(comments[1..], depth, parentAuthor)
  }

  /** The heading's count is exactly the number of comments rendered, whatever the tree's shape. */
  lemma {:induction false} ItemRowCount(c: CommentResponse, depth: nat, parentAuthor: Option<string>)
    ensures |ItemRows(c, depth, parentAuthor)| == 1 + CountAllComments(c.replies)
    decreases c, 1
  {
    ListRowCount(c.replies, depth + 1, Some(c.author.username));
  }

  lemma {:induction false} ListRowCount(comments: seq<CommentResponse>, depth: nat, parentAuthor: Option<string>)
    ensures |ListRows(comments, depth, parentAuthor)| == CountAllComments(comments)
    decreases comments, 0
  {
    if comments != [] {
      ItemRowCount(comments[0], depth, parentAuthor);
      ListRowCount(comments[1..], depth, parentAuthor);
      CountCons(comments[0], comments[1..]);
      assert [comments[0]] + comments[1..] == comments;
    }
  }

  /**
   * Every row is indented by the rule for its depth, and lies at least as deep
   * as its list; a row at the list's own depth is one of the list's comments,
   * shown as a reply to the list's parent author.
   */
  lemma {:induction false} ItemRowsShape(c: CommentResponse, depth: nat, parentAuthor: Option<string>)
    ensures forall row :: row in ItemRows(c, depth, parentAuthor) ==>
              && row.marginLeft == Indent(row.depth)
              && row.depth >= depth
              && (row.depth == depth ==> row.comment == c && row.replyTo == parentAuthor)
    decreases c, 1
  {
    ListRowsShape(c.replies, depth + 1, Some(c.author.username));
  }

  lemma {:induction false} ListRowsShape(comments: seq<CommentResponse>, depth: nat, parentAuthor: Option<string>)
    ensures forall row :: row in ListRows(comments, depth, parentAuthor) ==>
              && row.marginLeft == Indent(row.depth)
              && row.depth >= depth
              && (row.depth == depth ==> row.comment in comments && row.replyTo == parentAuthor)
    decreases comments, 0
  {
    if comments != [] {
      ItemRowsShape(comments[0], depth, parentAuthor);
      ListRowsShape(comments[1..], depth, parentAuthor);
      forall row | row in ListRows(comments[1..], depth, parentAuthor) && row.depth == depth
        ensures row.comment in comments
      {
        assert row.comment in comments[1..];
      }
    }
  }

  /** The comments of the rows rendered at exactly `depth`, in render order. */
  function RowsAt(rows: seq<Row>, depth: nat): (cs: seq<CommentResponse>)
    ensures |cs| <= |rows|
  {
    if rows == [] then []
    else (if rows[0].depth == depth then [rows[0].comment] else []) + RowsAt(rows[1..], depth)
  }

  lemma {:induction false} RowsAtAppend(a: seq<Row>, b: seq<Row>, depth: nat)
    ensures RowsAt(a + b, depth) == RowsAt(a, depth) + RowsAt(b, depth)
  {
    if a == [] {
      assert a + b == b;
    } else {
      var head := if a[0].depth == depth then [a[0].comment] else [];
      assert (a + b)[0] == a[0];
      assert (a + b)[1..] == a[1..] + b;
      RowsAtAppend(a[1..], b, depth);
      calc {
        RowsAt(a + b, depth);
        head + RowsAt(a[1..] + b, depth);
        head + (RowsAt(a[1..], depth) + RowsAt(b, depth));
        (head + RowsAt(a[1..], depth)) + RowsAt(b, depth);
      }
    }
  }

  lemma {:induction false} RowsAtDeeper(rows: seq<Row>, depth: nat)
    requires forall row :: row in rows ==> row.depth > depth
    ensures RowsAt(rows, depth) == []
  {
    if rows != [] {
      assert rows[0] in rows;
      RowsAtDeeper(rows[1..], depth);
    }
  }

  /**
   * The rows rendered at a list's own depth are exactly the list's comments,
   * in order: every comment is rendered once at that depth, and its replies
   * only deeper.
   */
  lemma {:induction false} ListRowsAtDepth(comments: seq<CommentResponse>, depth: nat, parentAuthor: Option<string>)
    ensures RowsAt(ListRows(comments, depth, parentAuthor), depth) == comments
    decreases comments
  {
    if comments != [] {
      var c := comments[0];
      var own := Row(c, depth, Indent(depth), parentAuthor);
      var replies := ListRows(c.replies, depth + 1, Some(c.author.username));
      ListRowsShape(c.replies, depth + 1, Some(c.author.username));
      RowsAtDeeper(replies, depth);
      RowsAtAppend([own], replies, depth);
      assert RowsAt([own], depth) == [c];
      RowsAtAppend(ItemRows(c, depth, parentAuthor), ListRows(comments[1..], depth, parentAuthor), depth);
      ListRowsAtDepth(comments[1..], depth, parentAuthor);
      assert [c] + comments[1..] == comments;
    }
  }

  /** Every comment of a list gets its own row at the list's depth, with that depth's margin and the list's parent author. */
  lemma {:induction false} ListRowsCoverComments(comments: seq<CommentResponse>, depth: nat, parentAuthor: Option<string>)
    ensures forall i :: 0 <= i < |comments| ==>
              Row(comments[i], depth, Indent(depth), parentAuthor) in ListRows(comments, depth, parentAuthor)
    decreases comments
  {
    if comments != [] {
      var rest := ListRows(comments[1..], depth, parentAuthor);
      ListRowsCoverComments(comments[1..], depth, parentAuthor);
      forall i | 0 <= i < |comments|
        ensures Row(comments[i], depth, Indent(depth), parentAuthor) in ListRows(comments, depth, parentAuthor)
      {
        if i > 0 {
          assert comments[i] == comments[1..][i - 1];
          assert Row(comments[i], depth, Indent(depth), parentAuthor) in rest;
        }
      }
    }
  }

  /** The path comments are posted to. */
  function CommentsPath(boardId: int, articleId: int): (path: string) {
    "/api/v1/boards/" + Text.IntString(boardId) + "/articles/" + Text.IntString(articleId) + "/comments"
  }

  function CommentBody(content: string): (body: Api.Json) {
    Api.JObject([Api.Member("content", Api.JString(content))])
  }

  /** The state of one `CommentSection` component. */
  class CommentSection {
    const boardId: int
    const articleId: int
    var comments: seq<CommentResponse>
    var text: string
    var submitting: bool

    constructor (initialComments: seq<CommentResponse>, boardId: int, articleId: int)
      ensures this.boardId == boardId && this.articleId == articleId
      ensures comments == initialComments && text == "" && !submitting
    {
      this.boardId := boardId;
      this.articleId := articleId;
      comments := initialComments;
      text := "";
      submitting := false;
    }

    /** `totalCount`, shown in the heading. */
    function TotalCount(): (n: nat)
      reads this
      ensures n >= |comments|
      ensures n == 0 <==> comments == []
    {
      CountAllComments(comments)
    }

    /** `totalCount > 0`: the list is shown, rather than the empty-state text, exactly when there is a root comment. */
    predicate ShowsList()
      reads this
      ensures ShowsList() <==> comments != []
    {
      TotalCount() > 0
    }

    /** The submit button is disabled while submitting or while the text is blank. */
    predicate SubmitDisabled()
      reads this
      ensures SubmitDisabled() <==> submitting || Text.Blank(text)
    {
      Text.TrimEmptyIffBlank(text);
      submitting || Text.Trim(text) == ""
    }

    /** The textarea's `onChange`. */
    method Edit(value: string)
      modifies this
      ensures text == value && comments == old(comments) && submitting == old(submitting)
    {
      text := value;
    }

    /**
     * `handleSubmit`. Logged out: an alert, no request. Blank text: nothing.
     * Otherwise the trimmed text is posted; on success the returned comment is
     * appended at the end of the root list and the text box is cleared; on an
     * `ApiError` its message is alerted and the list and text are kept; in every
     * case `submitting` ends false.
     */
    method HandleSubmit(store: Auth.TokenStore, response: Api.Response<CommentResponse>)
      returns (sent: Option<Api.HttpRequest>, alert: Option<string>)
      modifies this
      ensures !old(store.IsLoggedIn()) ==>
                sent.None? && alert == Some(Auth.LoginRequired) && unchanged(this)
      ensures old(store.IsLoggedIn()) && Text.Trim(old(text)) == "" ==>
                sent.None? && alert.None? && unchanged(this)
      ensures old(store.IsLoggedIn()) && Text.Trim(old(text)) != "" ==>
                && sent.Some?
                && sent.value.endpoint == CommentsPath(boardId, articleId)
                && sent.value.verb == Some(Api.POST)
                && sent.value.body == Api.JsonBody(CommentBody(Text.Trim(old(text))))
                && sent.value.headers == Api.RequestHeaders(old(store.GetToken()), map[])
                && !submitting
      ensures old(store.IsLoggedIn()) && Text.Trim(old(text)) != "" && Api.Succeeded(response) ==>
                alert.None? && text == ""
      ensures old(store.IsLoggedIn()) && Text.Trim(old(text)) != "" && Api.Succeeded(response) && response.json.data.Typed? ==>
                && comments == old(comments) + [response.json.data.value]
                && CountAllComments(comments) == CountAllComments(old(comments)) + 1 + CountAllComments(response.json.data.value.replies)
      ensures old(store.IsLoggedIn()) && Text.Trim(old(text)) != "" && Api.Succeeded(response) && response.json.data.Str? ==>
                comments == old(comments)
      ensures old(store.IsLoggedIn()) && Text.Trim(old(text)) != "" && !Api.Succeeded(response) ==>
                && comments == old(comments) && text == old(text)
                && alert == (if response.Received? then Some(Api.ErrorMessage(response.json.data, Api.RequestFallback)) else None)
    {
      if !store.IsLoggedIn() {
        return None, Some(Auth.LoginRequired);
      }
      var token, trimmed := store.GetToken(), Text.Trim(text);
      if trimmed == "" {
        return None, None;
      }
      submitting := true;
      var req, outcome := Api.Post(CommentsPath(boardId, articleId), Some(CommentBody(trimmed)), token, response);
      sent := Some(req);
      alert := Settle(outcome);
    }

    /**
     * The part of `handleSubmit` after the request settles: a returned comment
     * is appended and the text cleared; a returned string only clears the text;
     * an `ApiError` is alerted; `submitting` ends false.
     */
    method Settle(outcome: Api.Outcome<CommentResponse>) returns (alert: Option<string>)
      modifies this
      ensures !submitting
      ensures outcome.Returned? && outcome.data.Typed? ==>
                && comments == old(comments) + [outcome.data.value]
                && CountAllComments(comments) == CountAllComments(old(comments)) + 1 + CountAllComments(outcome.data.value.replies)
      ensures outcome.Returned? && outcome.data.Str? ==> comments == old(comments)
      ensures outcome.Returned? ==> text == "" && alert.None?
      ensures outcome.Raised? ==>
                && comments == old(comments) && text == old(text)
                && alert == (if outcome.error.ApiError? then Some(outcome.error.message) else None)
    {
      alert := None;
      match outcome {
        case Returned(data) =>
          if data.Typed? {
            CountAppend(comments, [data.value]);
            CountOne(data.value);
            comments := comments + [data.value];
          }
          text := "";
        case Raised(error) =>
          if error.ApiError? {
            alert := Some(error.message);
          }
      }
      submitting := false;
    }
  }
}
