/**
 * `ReactionService`: comments and likes on posts. Each operation runs its checks
 * in a fixed order (post or comment existence, then ownership) and changes one
 * row of the comment table or one pair of the liker relation.
 */
module ReactionService {
  import opened Ids
  import opened Common
  import opened Database

  /** The fields of `ICommentInput`. */
  datatype CommentInput = CommentInput(description: string, userId: Id)

  /** The ids of the comments left on post `postId`. */
  function CommentsOn(comments: map<Id, Comment>, postId: Id): (ids: set<Id>)
    ensures forall c :: c in ids <==> c in comments && comments[c].postId == postId
  {
    set c | c in comments && comments[c].postId == postId
  }

  // ----- checks -----

  /** `_checkHasPost`: the post with that id, or the "no post" error. */
  function CheckHasPost(db: Store, postId: Id): (r: Result<Post>)
    reads db
    ensures r.Ok? <==> postId in db.posts
    ensures r.Ok? ==> r.value == db.posts[postId]
    ensures r.Err? ==> r.error == PostNotFound
  {
    if postId in db.posts then Ok(db.posts[postId]) else Err(PostNotFound)
  }

  /** `_checkHasComment`: the comment with that id, or the "no comment" error. */
  function CheckHasComment(db: Store, commentId: Id): (r: Result<Comment>)
    reads db
    ensures r.Ok? <==> commentId in db.comments
    ensures r.Ok? ==> r.value == db.comments[commentId]
    ensures r.Err? ==> r.error == CommentNotFound
  {
    if commentId in db.comments then Ok(db.comments[commentId]) else Err(CommentNotFound)
  }

  /** `_checkHasPermission`: the acting user may touch the comment exactly when the ids are equal; no grant overrides. */
  function CheckHasPermission(id: Id, commentUserId: Id): (r: Result<bool>)
    ensures r.Ok? <==> id == commentUserId
    ensures r.Ok? ==> r.value
    ensures r.Err? ==> r.error == NotCommentOwner
  {
    if id == commentUserId then Ok(true) else Err(NotCommentOwner)
  }

  // ----- comments -----

  /**
   * `getComments`: the comments on the post, in no particular order. Fails when the
   * post is missing, and also when it exists but has no comment.
   */
  method GetComments(db: Store, postId: Id) returns (r: Result<seq<Id>>)
    ensures postId !in db.posts ==> r == Err(PostNotFound)
    ensures postId in db.posts && CommentsOn(db.comments, postId) == {} ==> r == Err(NoComments)
    ensures postId in db.posts && CommentsOn(db.comments, postId) != {} ==>
              && r.Ok?
              && (forall c :: c in r.value <==> c in CommentsOn(db.comments, postId))
              && (forall i, j :: 0 <= i < j < |r.value| ==> r.value[i] != r.value[j])
  {
    var exPost := CheckHasPost(db, postId);
    if exPost.Err? {
      return Err(exPost.error);
    }
    var comments: seq<Id> := [];
    var rest := db.comments.Keys;
    while rest != {}
      invariant rest <= db.comments.Keys
      invariant forall c :: c in comments <==> c in CommentsOn(db.comments, postId) && c !in rest
      invariant forall i, j :: 0 <= i < j < |comments| ==> comments[i] != comments[j]
      decreases |rest|
    {
      var c :| c in rest;
      if db.comments[c].postId == postId {
        comments := comments + [c];
      }
      rest := rest - {c};
    }
    if |comments| == 0 {
      assert forall c :: c !in CommentsOn(db.comments, postId);
      return Err(NoComments);
    }
    assert comments[0] in CommentsOn(db.comments, postId);
    return Ok(comments);
  }

  /**
   * `createComment`: the post check, then one new comment carrying the input
   * fields and that post id (no parent comment).
   */
  method CreateComment(db: Store, postId: Id, input: CommentInput) returns (r: Result<Id>)
    requires db.Valid()
    modifies db
    ensures db.Valid()
    ensures postId !in old(db.posts) ==> r == Err(PostNotFound) && db.State() == old(db.State())
    ensures postId in old(db.posts) ==>
              && r == Ok(Decimal(old(db.nextComment)))
              && r.value !in old(db.comments)
              && db.State() == old(db.State()).(
                   comments := old(db.comments)[r.value := Comment(input.description, input.userId, postId, None)],
                   nextComment := old(db.nextComment) + 1)
  {
    var exPost := CheckHasPost(db, postId);
    if exPost.Err? {
      return Err(exPost.error);
    }
    var id := db.CreateComment(Comment(input.description, input.userId, postId, None));
    return Ok(id);
  }

  /**
   * `updateComment`: the existence check, then the ownership check, then a new
   * description for that comment alone.
   */
  method UpdateComment(db: Store, commentId: Id, input: CommentInput) returns (r: Result<bool>)
    requires db.Valid()
    modifies db
    ensures db.Valid()
    ensures commentId !in old(db.comments) ==> r == Err(CommentNotFound) && db.State() == old(db.State())
    ensures commentId in old(db.comments) && old(db.comments)[commentId].userId != input.userId ==>
              r == Err(NotCommentOwner) && db.State() == old(db.State())
    ensures commentId in old(db.comments) && old(db.comments)[commentId].userId == input.userId ==>
              && r == Ok(true)
              && db.State() == old(db.State()).(
                   comments := old(db.comments)[commentId := old(db.comments)[commentId].(description := input.description)])
  {
    var comment := CheckHasComment(db, commentId);
    if comment.Err? {
      return Err(comment.error);
    }
    var permitted := CheckHasPermission(input.userId, comment.value.userId);
    if permitted.Err? {
      return Err(permitted.error);
    }
    var isUpdated := db.UpdateComment(commentId, input.description);
    return Ok(isUpdated != 0);
  }

  /**
   * `deleteComment`: the same checks in the same order, then removal of that
   * comment alone; the result is the number of rows removed.
   */
  method DeleteComment(db: Store, commentId: Id, userId: Id) returns (r: Result<nat>)
    requires db.Valid()
    modifies db
    ensures db.Valid()
    ensures commentId !in old(db.comments) ==> r == Err(CommentNotFound) && db.State() == old(db.State())
    ensures commentId in old(db.comments) && old(db.comments)[commentId].userId != userId ==>
              r == Err(NotCommentOwner) && db.State() == old(db.State())
    ensures commentId in old(db.comments) && old(db.comments)[commentId].userId == userId ==>
              r == Ok(1) && db.State() == old(db.State()).(comments := old(db.comments) - {commentId})
  {
    var comment := CheckHasComment(db, commentId);
    if comment.Err? {
      return Err(comment.error);
    }
    var permitted := CheckHasPermission(userId, comment.value.userId);
    if permitted.Err? {
      return Err(permitted.error);
    }
    var isDeleted := db.DestroyComment(commentId);
    return Ok(isDeleted);
  }

  // ----- likes -----

  /** `createLike`: the post check, then `userId` joins the post's likers. */
  method CreateLike(db: Store, postId: Id, userId: Id) returns (r: Result<bool>)
    requires db.Valid()
    modifies db
    ensures db.Valid()
    ensures postId !in old(db.posts) ==> r == Err(PostNotFound) && db.State() == old(db.State())
    ensures postId in old(db.posts) ==>
              r == Ok(true) && db.State() == old(db.State()).(likers := old(db.likers) + {(postId, userId)})
  {
    var exPost := CheckHasPost(db, postId);
    if exPost.Err? {
      return Err(exPost.error);
    }
    db.AddLiker(postId, userId);
    return Ok(true);
  }

  /** `deleteLike`: the post check, then `userId` leaves the post's likers. */
  method DeleteLike(db: Store, postId: Id, userId: Id) returns (r: Result<bool>)
    requires db.Valid()
    modifies db
    ensures db.Valid()
    ensures postId !in old(db.posts) ==> r == Err(PostNotFound) && db.State() == old(db.State())
    ensures postId in old(db.posts) ==>
              r == Ok(true) && db.State() == old(db.State()).(likers := old(db.likers) - {(postId, userId)})
  {
    var exPost := CheckHasPost(db, postId);
    if exPost.Err? {
      return Err(exPost.error);
    }
    db.RemoveLiker(postId, userId);
    return Ok(true);
  }
}
