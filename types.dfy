/**
 * The value shapes the backend sends (src/lib/types.ts). Numbers are integers;
 * a field the TypeScript type marks optional is an `Option`.
 */
module Types {
  import opened Wrappers

  datatype UserResponse = UserResponse(id: int, email: string, username: string, createdAt: string)

  /** A board; `boardType` is the `type` field ("community", "gallery", ...). */
  datatype Board = Board(id: int, boardType: string, name: string, description: string)

  /** A list preview: `content`, `thumbnailKey` and `likesCount` may be absent. */
  datatype ArticleListItem = ArticleListItem(
    id: int,
    title: string,
    content: Option<string>,
    thumbnailKey: Option<string>,
    author: UserResponse,
    views: int,
    likesCount: Option<int>,
    commentCount: int,
    createdAt: string)

  datatype ArticleListResponse = ArticleListResponse(articles: seq<ArticleListItem>, total: int)

  /** A comment owns the ordered sequence of its replies: a tree of unbounded depth. */
  datatype CommentResponse = CommentResponse(
    id: int,
    content: string,
    author: UserResponse,
    replies: seq<CommentResponse>,
    createdAt: string)

  datatype ReferencedPhoto = ReferencedPhoto(id: string, description: Option<string>, imageKey: string)

  datatype AttachedImage = AttachedImage(id: string, key: string)

  datatype ArticleResponse = ArticleResponse(
    id: int,
    title: string,
    content: string,
    author: UserResponse,
    views: int,
    likesCount: int,
    comments: seq<CommentResponse>,
    referencedPhotos: seq<ReferencedPhoto>,
    attachedImages: seq<AttachedImage>,
    createdAt: string,
    updatedAt: string)

  /** The like endpoint's answer (the component does not read it). */
  datatype LikeResponse = LikeResponse(liked: bool)

  datatype SignupResponse = SignupResponse(id: int, email: string, username: string)
}
