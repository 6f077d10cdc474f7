/**
 * The comment resolvers: every one needs a logged-in user; update and delete then
 * check that the comment exists and that the user wrote it, in that order.
 */
module CommentMutation {
  import opened Ids
  import opened Common
  import opened Database

  /**
   * `createComment`: login, then the post check, then one new comment by the
   * acting user on that post (no parent comment).
   */
  method CreateComment(db: Store, user: Option<Actor>, postId: Id, description: string) returns (r: Result<Id>)
    requires db.Valid()
    modifies db
    ensures db.Valid()
    ensures user.None? ==> r == Err(LoginRequired) && db.State() == old(db.State())
    ensures user.Some? && postId !in old(db.posts) ==> r == Err(PostNotFound) && db.State() == old(db.State())
    ensures user.Some? && postId in old(db.posts) ==>
              && r == Ok(Decimal(old(db.nextComment)))
              && r.value !in old(db.comments)
              && db.State() == old(db.State()).(
                   comments := old(db.comments)[r.value := Comment(description, user.value.id, postId, None)],
                   nextComment := old(db.nextComment) + 1)
  {
    if user.None? {
      return Err(LoginRequired);
    }
    if postId !in db.posts {
      return Err(PostNotFound);
    }
    var id := db.CreateComment(Comment(description, user.value.id, postId, None));
    return Ok(id);
  }

  /**
   * `updateComment`: login, then existence, then ownership; on success only the
   * comment's description changes. The result is what `update` returns: a
   * one-element array holding the number of rows updated.
   */
  method UpdateComment(db: Store, user: Option<Actor>, commentId: Id, description: string) returns (r: Result<seq<nat>>)
    requires db.Valid()
    modifies db
    ensures db.Valid()
    ensures user.None? ==> r == Err(LoginRequired) && db.State() == old(db.State())
    ensures user.Some? && commentId !in old(db.comments) ==> r == Err(CommentNotFound) && db.State() == old(db.State())
    ensures user.Some? && commentId in old(db.comments) && old(db.comments)[commentId].userId != user.value.id ==>
              r == Err(NotCommentOwner) && db.State() == old(db.State())
    ensures user.Some? && commentId in old(db.comments) && old(db.comments)[commentId].userId == user.value.id ==>
              && r == Ok([1])
              && db.State() == old(db.State()).(
                   comments := old(db.comments)[commentId := old(db.comments)[commentId].(description := description)])
  {
    if user.None? {
      return Err(LoginRequired);
    }
    if commentId !in db.comments {
      return Err(CommentNotFound);
    }
    if db.comments[commentId].userId != user.value.id {
      return Err(NotCommentOwner);
    }
    var count := db.UpdateComment(commentId, description);
    return Ok([count]);
  }

  /**
   * `deleteComment`: the same checks in the same order; on success only that
   * comment is removed. The result is the number of rows removed.
   */
  method DeleteComment(db: Store, user: Option<Actor>, commentId: Id) returns (r: Result<nat>)
    requires db.Valid()
    modifies db
    ensures db.Valid()
    ensures user.None? ==> r == Err(LoginRequired) && db.State() == old(db.State())
    ensures user.Some? && commentId !in old(db.comments) ==> r == Err(CommentNotFound) && db.State() == old(db.State())
    ensures user.Some? && commentId in old(db.comments) && old(db.comments)[commentId].userId != user.value.id ==>
              r == Err(NotCommentOwner) && db.State() == old(db.State())
    ensures user.Some? && commentId in old(db.comments) && old(db.comments)[commentId].userId == user.value.id ==>
              r == Ok(1) && db.State() == old(db.State()).(comments := old(db.comments) - {commentId})
  {
    if user.None? {
      return Err(LoginRequired);
    }
    if commentId !in db.comments {
      return Err(CommentNotFound);
    }
    if db.comments[commentId].userId != user.value.id {
      return Err(NotCommentOwner);
    }
    var count := db.DestroyComment(commentId);
    return Ok(count);
  }

  /**
   * `createRecomment`: login, then the parent comment check, then one new comment
   * by the acting user whose parent is `commentId`. The post id is taken as given:
   * nothing checks that the post exists or is the parent's post.
   */
  method CreateRecomment(db: Store, user: Option<Actor>, postId: Id, commentId: Id, description: string) returns (r: Result<Id>)
    requires db.Valid()
    modifies db
    ensures db.Valid()
    ensures user.None? ==> r == Err(LoginRequired) && db.State() == old(db.State())
    ensures user.Some? && commentId !in old(db.comments) ==> r == Err(CommentNotFound) && db.State() == old(db.State())
    ensures user.Some? && commentId in old(db.comments) ==>
              && r == Ok(Decimal(old(db.nextComment)))
              && r.value !in old(db.comments)
              && db.State() == old(db.State()).(
                   comments := old(db.comments)[r.value := Comment(description, user.value.id, postId, Some(commentId))],
                   nextComment := old(db.nextComment) + 1)
  {
    if user.None? {
      return Err(LoginRequired);
    }
    if commentId !in db.comments {
      return Err(CommentNotFound);
    }
    var id := db.CreateComment(Comment(description, user.value.id, postId, Some(commentId)));
    return Ok(id);
  }
}
