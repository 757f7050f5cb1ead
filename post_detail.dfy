/** The post page: the post loaded by id, the like toggle and comments appended by the
    comment box. */
module PostDetail {
  import opened Common
  import Comments

  /** The shown post as the page reads it; `None` is a missing field. */
  datatype DetailPost = DetailPost(id: Option<string>, title: Option<string>, authorEmail: Option<string>,
                                   likes: Option<int>, comments: Option<seq<Comments.Comment>>)

  /** What `{ ...null }` produces: an object with no fields. */
  const EmptyPost: DetailPost := DetailPost(None, None, None, None, None)

  /** How the load finished. A 401 or 403 is `Denied`; any other status yields its parsed
      body, which is stored as the post when it is not null, error bodies included. */
  datatype LoadOutcome = Denied | Body(data: Option<DetailPost>) | Failed

  /** How the like request finished; `likes` is the body's `likes` field. */
  datatype LikeOutcome = LikeDenied | LikeBody(likes: Option<int>) | LikeFailed

  /** `{ ...prev, likes }`, where a null `prev` spreads to nothing. */
  function ReplaceLikes(prev: Option<DetailPost>, likes: Option<int>): (r: DetailPost)
    ensures r.likes == likes
    ensures prev.Some? ==> r == prev.value.(likes := likes)
    ensures prev.None? ==> r == EmptyPost.(likes := likes)
  {
    prev.GetOr(EmptyPost).(likes := likes)
  }

  /** `{ ...prev, comments: prev.comments ? [...prev.comments, c] : [c] }`. Reading
      `prev.comments` on a null post throws; the comment box is rendered only once the
      post is loaded, so the updater always sees one. */
  function AppendComment(prev: Option<DetailPost>, c: Comments.Comment): (r: DetailPost)
    requires prev.Some?
    ensures r.comments == Some(prev.value.comments.GetOr([]) + [c])
    ensures r.(comments := None) == prev.value.(comments := None)
  {
    var p := prev.value;
    p.(comments := Some(p.comments.GetOr([]) + [c]))
  }

  /** `post.likes || 0` */
  function LikeCount(p: DetailPost): (n: int)
    ensures p.likes.Some? ==> n == p.likes.value
    ensures p.likes.None? ==> n == 0
  {
    p.likes.GetOr(0)
  }

  /** `post.author?.email || 'HoopScoop Admin'` */
  function AuthorLabel(p: DetailPost): (r: string)
    ensures Truthy(p.authorEmail) ==> r == p.authorEmail.value
    ensures !Truthy(p.authorEmail) ==> r == "HoopScoop Admin"
  {
    OrDefault(p.authorEmail, "HoopScoop Admin")
  }

  /** A comment added through the box shows first, and the heading counts one more. */
  lemma AddedCommentShownFirst(prev: Option<DetailPost>, c: Comments.Comment)
    requires prev.Some?
    ensures var v := Comments.View(AppendComment(prev, c).comments);
      v.listed[0] == c && !v.emptyNotice &&
      v.heading == Comments.View(prev.value.comments).heading + 1
  {
    Comments.AppendedShownFirst(prev.value.comments.GetOr([]), c);
  }

  /** A like never touches the comments, and a comment never touches the likes. */
  lemma LikesAndCommentsIndependent(p: DetailPost, likes: Option<int>, c: Comments.Comment)
    ensures ReplaceLikes(Some(AppendComment(Some(p), c)), likes) == AppendComment(Some(ReplaceLikes(Some(p), likes)), c)
    ensures LikeCount(AppendComment(Some(p), c)) == LikeCount(p)
  {
  }

  class PostDetailPage {
    var post: Option<DetailPost>
    var redirectedToLogin: bool

    constructor ()
      ensures post.None? && !redirectedToLogin
    {
      post, redirectedToLogin := None, false;
    }

    /** The end of the load effect. */
    method OnLoad(outcome: LoadOutcome)
      modifies this
      ensures post == (if outcome.Body? && outcome.data.Some? then outcome.data else old(post))
      ensures redirectedToLogin == (outcome.Denied? || old(redirectedToLogin))
    {
      match outcome
      case Denied => redirectedToLogin := true;
      case Body(data) =>
        if data.Some? {
          post := data;
        }
      case Failed =>
    }

    /** The end of `handleLike`. */
    method OnLikeResponse(outcome: LikeOutcome)
      modifies this
      ensures post == (if outcome.LikeBody? then Some(ReplaceLikes(old(post), outcome.likes)) else old(post))
      ensures redirectedToLogin == (outcome.LikeDenied? || old(redirectedToLogin))
    {
      match outcome
      case LikeDenied => redirectedToLogin := true;
      case LikeBody(likes) => post := Some(ReplaceLikes(post, likes));
      case LikeFailed =>
    }

    /** `handleCommentAdded`, the comment box's callback. */
    method OnCommentAdded(c: Comments.Comment)
      requires post.Some?
      modifies this
      ensures post == Some(AppendComment(old(post), c))
      ensures redirectedToLogin == old(redirectedToLogin)
    {
      post := Some(AppendComment(post, c));
    }
  }
}
