/**
 * `PostService`: reading posts and the validate-then-mutate workflows that
 * create, update and delete them, with the service's own tag association.
 * Every thrown error becomes an `Err` result.
 */
module PostService {
  import opened Ids
  import opened Common
  import opened Hashtag
  import opened Database
  import opened Tagging

  /** The fields of `IPostInput`; an absent `tags` is the empty string. */
  datatype PostInput = PostInput(title: string, description: string, tags: string, categoryId: Id)

  // ----- reads -----

  /**
   * `getPosts`: every post, ordered by creation time. The `findAll` result is an
   * array, and an array is always truthy, so an empty table yields an empty list
   * and never the "no post" error.
   */
  method GetPosts(db: Store, ord: Order) returns (r: Result<seq<Id>>)
    requires db.Valid()
    ensures r.Ok?
    ensures forall i :: 0 <= i < |r.value| ==> r.value[i] in db.posts
    ensures forall id :: id in db.posts ==> id in r.value
    ensures ord == Asc ==> forall i, j :: 0 <= i < j < |r.value| ==>
              db.posts[r.value[i]].createdAt < db.posts[r.value[j]].createdAt
    ensures ord == Desc ==> forall i, j :: 0 <= i < j < |r.value| ==>
              db.posts[r.value[i]].createdAt > db.posts[r.value[j]].createdAt
  {
    var result: seq<Id>;
    if ord == Asc {
      result := PostsAscending(db.posts, db.nextPost);
    } else {
      result := PostsDescending(db.posts, db.nextPost);
    }
    return Ok(result);
  }

  /** Every post's key is the text of its creation index, which is below `next`. */
  predicate KeyedByIndex(posts: map<Id, Post>, next: nat)
  {
    forall p :: p in posts ==> posts[p].createdAt < next && p == Decimal(posts[p].createdAt)
  }

  /** No post was created at index `k` when its key is absent. */
  lemma AbsentIndex(posts: map<Id, Post>, next: nat, k: nat)
    requires KeyedByIndex(posts, next) && Decimal(k) !in posts
    ensures forall id :: id in posts ==> posts[id].createdAt != k
  {
  }

  /** The post created at index `k` is the one keyed `Decimal(k)`, and appending it keeps the list ascending. */
  lemma AscendingStep(posts: map<Id, Post>, next: nat, found: seq<Id>, k: nat)
    requires KeyedByIndex(posts, next) && Decimal(k) in posts
    requires forall i :: 0 <= i < |found| ==> found[i] in posts && posts[found[i]].createdAt < k
    requires forall i, j :: 0 <= i < j < |found| ==> posts[found[i]].createdAt < posts[found[j]].createdAt
    ensures posts[Decimal(k)].createdAt == k
    ensures forall i, j :: 0 <= i < j < |found| + 1 ==>
              posts[(found + [Decimal(k)])[i]].createdAt < posts[(found + [Decimal(k)])[j]].createdAt
  {
    DecimalInjective(posts[Decimal(k)].createdAt, k);
  }

  /** The post created at index `k` is the one keyed `Decimal(k)`, and appending it keeps the list descending. */
  lemma DescendingStep(posts: map<Id, Post>, next: nat, found: seq<Id>, k: nat)
    requires KeyedByIndex(posts, next) && Decimal(k) in posts
    requires forall i :: 0 <= i < |found| ==> found[i] in posts && posts[found[i]].createdAt > k
    requires forall i, j :: 0 <= i < j < |found| ==> posts[found[i]].createdAt > posts[found[j]].createdAt
    ensures posts[Decimal(k)].createdAt == k
    ensures forall i, j :: 0 <= i < j < |found| + 1 ==>
              posts[(found + [Decimal(k)])[i]].createdAt > posts[(found + [Decimal(k)])[j]].createdAt
  {
    DecimalInjective(posts[Decimal(k)].createdAt, k);
  }

  /** `findAll` ordered by `createdAt` ascending: the keys in counter order. */
  method PostsAscending(posts: map<Id, Post>, next: nat) returns (found: seq<Id>)
    requires KeyedByIndex(posts, next)
    ensures forall i :: 0 <= i < |found| ==> found[i] in posts
    ensures forall id :: id in posts ==> id in found
    ensures forall i, j :: 0 <= i < j < |found| ==>
              posts[found[i]].createdAt < posts[found[j]].createdAt
  {
    found := [];
    var k := 0;
    while k < next
      invariant 0 <= k <= next
      invariant forall i :: 0 <= i < |found| ==> found[i] in posts && posts[found[i]].createdAt < k
      invariant forall i, j :: 0 <= i < j < |found| ==>
                  posts[found[i]].createdAt < posts[found[j]].createdAt
      invariant forall id :: id in posts && posts[id].createdAt < k ==> id in found
    {
      var id := Decimal(k);
      if id in posts {
        AscendingStep(posts, next, found, k);
        found := found + [id];
      } else {
        AbsentIndex(posts, next, k);
      }
      k := k + 1;
    }
  }

  /** `findAll` ordered by `createdAt` descending: the keys in reverse counter order. */
  method PostsDescending(posts: map<Id, Post>, next: nat) returns (found: seq<Id>)
    requires KeyedByIndex(posts, next)
    ensures forall i :: 0 <= i < |found| ==> found[i] in posts
    ensures forall id :: id in posts ==> id in found
    ensures forall i, j :: 0 <= i < j < |found| ==>
              posts[found[i]].createdAt > posts[found[j]].createdAt
  {
    found := [];
    var k := next;
    while k > 0
      invariant 0 <= k <= next
      invariant forall i :: 0 <= i < |found| ==> found[i] in posts && posts[found[i]].createdAt >= k
      invariant forall i, j :: 0 <= i < j < |found| ==>
                  posts[found[i]].createdAt > posts[found[j]].createdAt
      invariant forall id :: id in posts && posts[id].createdAt >= k ==> id in found
    {
      k := k - 1;
      var id := Decimal(k);
      if id in posts {
        DescendingStep(posts, next, found, k);
        found := found + [id];
      } else {
        AbsentIndex(posts, next, k);
      }
    }
  }

  /** `getPostById`: the post with that id, or the "no post" error. The order argument has no effect on one row. */
  function GetPostById(db: Store, id: Id, ord: Order): (r: Result<Post>)
    reads db
    ensures r.Ok? <==> id in db.posts
    ensures r.Ok? ==> r.value == db.posts[id]
    ensures r.Err? ==> r.error == PostNotFound
  {
    CheckHasPost(db, id)
  }

  /** `_checkHasPost`: the post with that id, or the "no post" error. */
  function CheckHasPost(db: Store, id: Id): (r: Result<Post>)
    reads db
    ensures r.Ok? <==> id in db.posts
    ensures r.Ok? ==> r.value == db.posts[id]
    ensures r.Err? ==> r.error == PostNotFound
  {
    if id in db.posts then Ok(db.posts[id]) else Err(PostNotFound)
  }

  /**
   * `_checkHasCategory`: looks up the category whose id is the empty string, whatever
   * id it is given, so the outcome depends only on whether such a row exists.
   */
  function CheckHasCategory(db: Store, id: Id): (r: Result<Category>)
    reads db
    ensures r.Ok? <==> "" in db.categories
    ensures r.Ok? ==> r.value == db.categories[""]
    ensures r.Err? ==> r.error == CategoryNotFound
  {
    if "" in db.categories then Ok(db.categories[""]) else Err(CategoryNotFound)
  }

  /** Every category key is the text of a counter value, as an auto-increment table hands out. */
  ghost predicate CounterKeyed(categories: map<Id, Category>)
  {
    forall k :: k in categories ==> exists n: nat :: k == Decimal(n)
  }

  /**
   * With counter-made category keys no row is keyed `""`, so the category check
   * fails whatever id it is given, and every `createPost` of the service with it.
   */
  lemma CounterKeyedCategoryCheckFails(db: Store, id: Id)
    requires CounterKeyed(db.categories)
    ensures CheckHasCategory(db, id) == Err(CategoryNotFound)
  {
  }

  // ----- tag association -----

  /** `[].concat(m)`: a match list is spread into the array, `null` becomes one `null` element. */
  function ConcatMatch(m: Option<seq<string>>): (arr: seq<Option<string>>)
    ensures None in arr <==> m.None?
    ensures m.None? ==> arr == [None]
    ensures m.Some? ==> |arr| == |m.value| && forall k :: 0 <= k < |arr| ==> arr[k] == Some(m.value[k])
  {
    match m
    case None => [None]
    case Some(ms) => seq(|ms|, k requires 0 <= k < |ms| => Some(ms[k]))
  }

  /** `tagArray.map(tag => tag.slice(1).toLowerCase())`: a `null` element throws. */
  function SliceLowerAll(arr: seq<Option<string>>): (r: Result<seq<string>>)
    ensures r.Err? <==> None in arr
    ensures r.Err? ==> r.error == TagError
    ensures r.Ok? ==> |r.value| == |arr| && forall k :: 0 <= k < |arr| ==> arr[k].Some? && r.value[k] == TagName(arr[k].value)
    decreases |arr|
  {
    if arr == [] then Ok([])
    else match arr[0]
      case None => Err(TagError)
      case Some(t) =>
        match SliceLowerAll(arr[1..])
        case Err(e) => Err(e)
        case Ok(rest) => Ok([TagName(t)] + rest)
  }

  /**
   * The names `_createAndAssociateTag` finds or creates: none for an empty `tags`,
   * the error when `tags` is non-empty but holds no `#token`, otherwise the name of
   * every match, in order, repetitions included.
   */
  function ServiceTagNames(tags: string): (r: Result<seq<string>>)
    ensures r.Err? <==> tags != "" && Matches(tags) == []
    ensures r.Err? ==> r.error == TagError
    ensures r.Ok? ==> r.value == Names(Matches(tags))
  {
    var tagArray := if tags == "" then [] else ConcatMatch(MatchAll(tags));
    SliceLowerAll(tagArray)
  }

  /**
   * `_createAndAssociateTag`: link post `p` to the tags named in `tags`, or fail with
   * nothing changed. `tagCallFails` says whether the database rejects the first
   * `Tag.findOrCreate`; the service passes that error on to its caller.
   */
  method CreateAndAssociateTag(db: Store, p: Id, tags: string, tagCallFails: bool) returns (r: Result<()>)
    requires db.Valid() && p in db.posts
    modifies db
    ensures db.Valid()
    ensures ServiceTagNames(tags).Err? ==> r == Err(TagError) && db.State() == old(db.State())
    ensures ServiceTagNames(tags).Ok? && ServiceTagNames(tags).value != [] && tagCallFails ==>
              r == Err(DatabaseError) && db.State() == old(db.State())
    ensures ServiceTagNames(tags).Ok? && (ServiceTagNames(tags).value == [] || !tagCallFails) ==>
              r == Ok(()) && Linked(old(db.State()), db.State(), p, NameSet(ServiceTagNames(tags).value))
  {
    var tagArray: seq<Option<string>> := [];
    if tags != "" {
      tagArray := tagArray + ConcatMatch(MatchAll(tags));
      assert tagArray == ConcatMatch(MatchAll(tags));
    }
    var names := SliceLowerAll(tagArray);
    assert names == ServiceTagNames(tags);
    if names.Err? {
      return Err(names.error);
    }
    if names.value != [] && tagCallFails {
      return Err(DatabaseError);
    }
    LinkNames(db, p, names.value);
    return Ok(());
  }

  /** `_removeAndSeparateTag`: unlink post `p` from every tag it has. */
  method RemoveAndSeparateTag(db: Store, p: Id)
    requires db.Valid()
    modifies db
    ensures db.Valid()
    ensures db.State() == old(db.State()).(postTags := Unlinked(old(db.postTags), p))
  {
    var exTags := db.TagIdsOf(p);
    db.RemoveTags(p, exTags);
    assert db.postTags == Unlinked(old(db.postTags), p) by {
      forall l | l in old(db.postTags) && l.0 == p
        ensures l in Links(p, exTags)
      {
        assert l == (p, l.1);
      }
    }
  }

  // ----- workflows -----

  /**
   * `createPost`: the category check, then the new row, then its tags. A `tags`
   * text without a `#token`, or a rejected tag call, fails after the row was
   * created, and the row stays.
   */
  method CreatePost(db: Store, input: PostInput, userId: Id, tagCallFails: bool) returns (r: Result<Id>)
    requires db.Valid()
    modifies db
    ensures db.Valid()
    ensures "" !in old(db.categories) ==> r == Err(CategoryNotFound) && db.State() == old(db.State())
    ensures "" in old(db.categories) ==>
              var id := Decimal(old(db.nextPost));
              var created := old(db.State()).(
                posts := old(db.posts)[id := Post(input.title, input.description, input.categoryId, userId, old(db.nextPost))],
                nextPost := old(db.nextPost) + 1);
              && id !in old(db.posts)
              && match ServiceTagNames(input.tags)
                 case Err(e) => r == Err(e) && db.State() == created
                 case Ok(names) =>
                   if names != [] && tagCallFails then
                     r == Err(DatabaseError) && db.State() == created
                   else
                     && r == Ok(id)
                     && Linked(created, db.State(), id, NameSet(names))
                     && TagNamesOf(db.State(), id) == ExtractNames(input.tags)
  {
    var category := CheckHasCategory(db, input.categoryId);
    if category.Err? {
      return Err(category.error);
    }
    var id := db.CreatePost(input.title, input.description, input.categoryId, userId);
    ghost var created := db.State();
    var tagged := CreateAndAssociateTag(db, id, input.tags, tagCallFails);
    if tagged.Err? {
      return Err(tagged.error);
    }
    RelinkedTagNames(created, db.State(), id, NameSet(ServiceTagNames(input.tags).value));
    NamesOfMatches(input.tags);
    return Ok(id);
  }

  /**
   * `updatePost`: the existence check, then (for a non-empty `tags`) removal of every
   * tag link and association of the new names, then the field update. A `tags` text
   * without a `#token`, or a rejected tag call, fails after the old links were
   * removed; the fields stay.
   */
  method UpdatePost(db: Store, id: Id, input: PostInput, tagCallFails: bool) returns (r: Result<bool>)
    requires db.Valid()
    modifies db
    ensures db.Valid()
    ensures id !in old(db.posts) ==> r == Err(PostNotFound) && db.State() == old(db.State())
    ensures id in old(db.posts) && input.tags == "" ==>
              r == Ok(true) && db.State() == old(db.State()).(posts := Edited(old(db.posts), id, input.title, input.description, input.categoryId))
    ensures id in old(db.posts) && input.tags != "" ==>
              var cleared := old(db.State()).(postTags := Unlinked(old(db.postTags), id));
              match ServiceTagNames(input.tags)
              case Err(e) => r == Err(e) && db.State() == cleared
              case Ok(names) =>
                if names != [] && tagCallFails then
                  r == Err(DatabaseError) && db.State() == cleared
                else
                  && r == Ok(true)
                  && db.posts == Edited(old(db.posts), id, input.title, input.description, input.categoryId)
                  && Linked(cleared, db.State().(posts := old(db.posts)), id, NameSet(names))
                  && TagNamesOf(db.State(), id) == ExtractNames(input.tags)
  {
    var exPost := CheckHasPost(db, id);
    if exPost.Err? {
      return Err(exPost.error);
    }
    if input.tags != "" {
      RemoveAndSeparateTag(db, id);
      ghost var cleared := db.State();
      var tagged := CreateAndAssociateTag(db, id, input.tags, tagCallFails);
      if tagged.Err? {
        return Err(tagged.error);
      }
      RelinkedTagNames(cleared, db.State(), id, NameSet(ServiceTagNames(input.tags).value));
      NamesOfMatches(input.tags);
    }
    var isUpdated := db.UpdatePost(id, input.title, input.description, input.categoryId);
    return Ok(isUpdated != 0);
  }

  /** `deletePost`: the existence check, then removal of exactly that row. */
  method DeletePost(db: Store, id: Id) returns (r: Result<bool>)
    requires db.Valid()
    modifies db
    ensures db.Valid()
    ensures id !in old(db.posts) ==> r == Err(PostNotFound) && db.State() == old(db.State())
    ensures id in old(db.posts) ==> r == Ok(true) && db.State() == old(db.State()).(posts := old(db.posts) - {id})
  {
    var exPost := CheckHasPost(db, id);
    if exPost.Err? {
      return Err(exPost.error);
    }
    var isDeleted := db.DestroyPost(id);
    return Ok(isDeleted != 0);
  }
}
