/**
 * The ADMIN-guarded post resolvers and their tag helpers. Unlike the service,
 * the resolvers do not check the category, and a tag text without a `#token`
 * adds no tag instead of failing.
 */
module PostMutation {
  import opened Ids
  import opened Common
  import opened Hashtag
  import opened Database
  import opened Tagging
  import PostService

  /**
   * The names `tagAddFunction` finds or creates: none for an empty `tag` or one
   * without a match, otherwise the name of every match, in order.
   */
  function ResolverTagNames(tag: string): (names: seq<string>)
    ensures names == Names(Matches(tag))
  {
    if tag == "" then []
    else match MatchAll(tag)
      case None => []
      case Some(tagArr) => Names(tagArr)
  }

  /**
   * Where the service succeeds, both layers link the same names; the service fails
   * exactly on a non-empty text from which the resolver extracts no name.
   */
  lemma ServiceAndResolverAgree(tags: string)
    ensures PostService.ServiceTagNames(tags).Ok? ==> PostService.ServiceTagNames(tags).value == ResolverTagNames(tags)
    ensures PostService.ServiceTagNames(tags).Err? <==> tags != "" && ResolverTagNames(tags) == []
  {
  }

  /** Linking no name changes nothing. */
  lemma LinkedNothing(t: Tables, p: Id)
    ensures Linked(t, t, p, {})
  {
    assert Links(p, TagsNamed(t.tags, {})) == {};
  }

  /** A post without links has no tag names. */
  lemma NoLinksOfNewPost(t: Tables, p: Id)
    requires forall l :: l in t.postTags ==> l.0 != p
    ensures TagNamesOf(t, p) == {}
  {
  }

  /**
   * `tagAddFunction`: link post `p` to the tags named in `tag`; no match, no change.
   * `tagCallFails` says whether the database rejects the first `Tag.findOrCreate`:
   * the `catch` turns that into a returned error value, with nothing changed.
   */
  method TagAdd(db: Store, p: Id, tag: string, tagCallFails: bool) returns (r: Result<()>)
    requires db.Valid() && p in db.posts
    modifies db
    ensures db.Valid()
    ensures ResolverTagNames(tag) != [] && tagCallFails ==> r == Err(DatabaseError) && db.State() == old(db.State())
    ensures ResolverTagNames(tag) == [] || !tagCallFails ==>
              r == Ok(()) && Linked(old(db.State()), db.State(), p, NameSet(ResolverTagNames(tag)))
    ensures ResolverTagNames(tag) == [] ==> db.State() == old(db.State())
  {
    var tagArr: Option<seq<string>> := None;
    if tag != "" {
      tagArr := MatchAll(tag);
    }
    if tagArr.Some? {
      var names := seq(|tagArr.value|, k requires 0 <= k < |tagArr.value| => TagName(tagArr.value[k]));
      assert names == ResolverTagNames(tag);
      if tagCallFails {
        return Err(DatabaseError);
      }
      LinkNames(db, p, names);
    } else {
      assert NameSet(ResolverTagNames(tag)) == {};
      LinkedNothing(db.State(), p);
    }
    return Ok(());
  }

  /** `tagRemoveFunction`: every tag link of post `p` is removed. */
  method TagRemove(db: Store, p: Id)
    requires db.Valid()
    modifies db
    ensures db.Valid()
    ensures db.State() == old(db.State()).(postTags := Unlinked(old(db.postTags), p))
  {
    db.UnlinkPost(p);
  }

  /**
   * `createPost`: only an ADMIN may create; the new row carries the acting user's
   * id and the category id as given, unchecked, and then the tags named in `tag`.
   * A rejected tag call is swallowed: the post is created without tags.
   */
  method CreatePost(db: Store, user: Option<Actor>, title: string, description: string, tag: string, categoryId: Id, tagCallFails: bool)
    returns (r: Result<Id>)
    requires db.Valid()
    modifies db
    ensures db.Valid()
    ensures !IsAdmin(user) ==> r == Err(MustBeAdmin) && db.State() == old(db.State())
    ensures IsAdmin(user) ==>
              var id := Decimal(old(db.nextPost));
              var created := old(db.State()).(
                posts := old(db.posts)[id := Post(title, description, categoryId, user.value.id, old(db.nextPost))],
                nextPost := old(db.nextPost) + 1);
              && r == Ok(id)
              && id !in old(db.posts)
              && if ResolverTagNames(tag) != [] && tagCallFails then
                   db.State() == created && TagNamesOf(db.State(), id) == {}
                 else
                   && Linked(created, db.State(), id, NameSet(ResolverTagNames(tag)))
                   && TagNamesOf(db.State(), id) == ExtractNames(tag)
  {
    if !IsAdmin(user) {
      return Err(MustBeAdmin);
    }
    var id := db.CreatePost(title, description, categoryId, user.value.id);
    ghost var created := db.State();
    var _ := TagAdd(db, id, tag, tagCallFails);
    if ResolverTagNames(tag) != [] && tagCallFails {
      NoLinksOfNewPost(created, id);
    } else {
      RelinkedTagNames(created, db.State(), id, NameSet(ResolverTagNames(tag)));
      NamesOfMatches(tag);
    }
    return Ok(id);
  }

  /**
   * `updatePost`: only an ADMIN may update; a missing post fails before any change;
   * a non-empty `tag` replaces the post's tag links with the names it carries
   * (none, if it has no `#token`, or if the tag call is rejected, which is
   * swallowed); then the fields are edited. The result is what `update` returns: a
   * one-element array holding the number of rows updated.
   */
  method UpdatePost(db: Store, user: Option<Actor>, postId: Id, title: string, description: string, tag: string, categoryId: Id, tagCallFails: bool)
    returns (r: Result<seq<nat>>)
    requires db.Valid()
    modifies db
    ensures db.Valid()
    ensures !IsAdmin(user) ==> r == Err(MustBeAdmin) && db.State() == old(db.State())
    ensures IsAdmin(user) && postId !in old(db.posts) ==> r == Err(PostNotFound) && db.State() == old(db.State())
    ensures IsAdmin(user) && postId in old(db.posts) ==> r == Ok([1]) && db.posts == Edited(old(db.posts), postId, title, description, categoryId)
    ensures IsAdmin(user) && postId in old(db.posts) && tag == "" ==>
              db.State() == old(db.State()).(posts := db.posts)
    ensures IsAdmin(user) && postId in old(db.posts) && tag != "" ==>
              var cleared := old(db.State()).(postTags := Unlinked(old(db.postTags), postId));
              if ResolverTagNames(tag) != [] && tagCallFails then
                db.State() == cleared.(posts := db.posts) && TagNamesOf(db.State(), postId) == {}
              else
                && Linked(cleared, db.State().(posts := old(db.posts)), postId, NameSet(ResolverTagNames(tag)))
                && TagNamesOf(db.State(), postId) == ExtractNames(tag)
  {
    if !IsAdmin(user) {
      return Err(MustBeAdmin);
    }
    if postId !in db.posts {
      return Err(PostNotFound);
    }
    if tag != "" {
      TagRemove(db, postId);
      ghost var cleared := db.State();
      var _ := TagAdd(db, postId, tag, tagCallFails);
      if ResolverTagNames(tag) != [] && tagCallFails {
        NoLinksOfNewPost(cleared, postId);
      } else {
        RelinkedTagNames(cleared, db.State(), postId, NameSet(ResolverTagNames(tag)));
        NamesOfMatches(tag);
      }
    }
    var count := db.UpdatePost(postId, title, description, categoryId);
    return Ok([count]);
  }

  /** `deletePost`: only an ADMIN may delete; a missing post fails; otherwise exactly that row is removed. */
  method DeletePost(db: Store, user: Option<Actor>, postId: Id) returns (r: Result<nat>)
    requires db.Valid()
    modifies db
    ensures db.Valid()
    ensures !IsAdmin(user) ==> r == Err(MustBeAdmin) && db.State() == old(db.State())
    ensures IsAdmin(user) && postId !in old(db.posts) ==> r == Err(PostNotFound) && db.State() == old(db.State())
    ensures IsAdmin(user) && postId in old(db.posts) ==>
              r == Ok(1) && db.State() == old(db.State()).(posts := old(db.posts) - {postId})
  {
    if !IsAdmin(user) {
      return Err(MustBeAdmin);
    }
    if postId !in db.posts {
      return Err(PostNotFound);
    }
    var count := db.DestroyPost(postId);
    return Ok(count);
  }
}
