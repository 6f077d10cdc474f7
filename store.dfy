/**
 * The tables the services and resolvers work on, and the ORM calls they make
 * (`findOne`, `create`, `update`, `destroy`, `findOrCreate`, `addTags`,
 * `removeTags`, `addLiker`, `removeLiker`) as updates of maps and sets.
 *
 * Keys are handed out by one auto-increment counter per table, as the decimal
 * text of the counter; a post's creation index is the counter value of its key.
 */
module Database {
  import opened Ids
  import opened Common

  datatype Category = Category(name: string)

  datatype Post = Post(title: string, description: string, categoryId: Id, userId: Id, createdAt: nat)

  /** `recommentId` is the parent comment of a reply ("recomment"), if any. */
  datatype Comment = Comment(description: string, userId: Id, postId: Id, recommentId: Option<Id>)

  /** A snapshot of every table: what a store holds at one moment. */
  datatype Tables = Tables(
    categories: map<Id, Category>,
    posts: map<Id, Post>,
    tags: map<Id, string>,        // tag id -> lower-case name
    postTags: set<(Id, Id)>,      // (post id, tag id)
    comments: map<Id, Comment>,
    likers: set<(Id, Id)>,        // (post id, user id)
    nextPost: nat,
    nextTag: nat,
    nextComment: nat)

  /**
   * The store's invariant: every post's key is the text of its creation index, which
   * is below the post counter; no key at or above a counter is in use, not even by
   * a post-tag link; every link names an existing tag; and no two tags share a name.
   */
  ghost predicate Consistent(t: Tables)
  {
    && (forall p :: p in t.posts ==> t.posts[p].createdAt < t.nextPost && p == Decimal(t.posts[p].createdAt))
    && (forall k: nat, x: Id :: k >= t.nextPost ==> (Decimal(k), x) !in t.postTags)
    && (forall k: nat :: k >= t.nextTag ==> Decimal(k) !in t.tags)
    && (forall l :: l in t.postTags ==> l.1 in t.tags)
    && (forall k: nat :: k >= t.nextComment ==> Decimal(k) !in t.comments)
    && (forall a, b :: a in t.tags && b in t.tags && t.tags[a] == t.tags[b] ==> a == b)
  }

  /** The links `(p, t)` for every `t` in `ts`. */
  function Links(p: Id, ts: set<Id>): (ls: set<(Id, Id)>)
    ensures forall l :: l in ls <==> l.0 == p && l.1 in ts
  {
    set t | t in ts :: (p, t)
  }

  /** The post-tag links with every link of post `p` removed. */
  function Unlinked(links: set<(Id, Id)>, p: Id): (ls: set<(Id, Id)>)
    ensures forall l :: l in ls <==> l in links && l.0 != p
  {
    set l | l in links && l.0 != p
  }

  /** The names of the tags post `p` is linked to. */
  ghost function TagNamesOf(t: Tables, p: Id): set<string>
  {
    set l | l in t.postTags && l.0 == p && l.1 in t.tags :: t.tags[l.1]
  }

  /** The ids of the tags that carry one of `names`. */
  function TagsNamed(tags: map<Id, string>, names: set<string>): (ts: set<Id>)
    ensures forall t :: t in ts <==> t in tags && tags[t] in names
  {
    set t | t in tags && tags[t] in names
  }

  /** The post table with the title, description and category of post `id` replaced. */
  function Edited(posts: map<Id, Post>, id: Id, title: string, description: string, categoryId: Id): (r: map<Id, Post>)
    requires id in posts
    ensures r.Keys == posts.Keys
    ensures forall q :: q in posts && q != id ==> r[q] == posts[q]
    ensures r[id].title == title && r[id].description == description && r[id].categoryId == categoryId
    ensures r[id].userId == posts[id].userId && r[id].createdAt == posts[id].createdAt
  {
    posts[id := posts[id].(title := title, description := description, categoryId := categoryId)]
  }

  lemma PostKeyFresh(t: Tables)
    requires Consistent(t)
    ensures Decimal(t.nextPost) !in t.posts
  {
    var id := Decimal(t.nextPost);
    if id in t.posts {
      DecimalInjective(t.posts[id].createdAt, t.nextPost);
      assert false;
    }
  }

  class Store {
    var categories: map<Id, Category>
    var posts: map<Id, Post>
    var tags: map<Id, string>
    var postTags: set<(Id, Id)>
    var comments: map<Id, Comment>
    var likers: set<(Id, Id)>
    var nextPost: nat
    var nextTag: nat
    var nextComment: nat

    function State(): Tables
      reads this
    {
      Tables(categories, posts, tags, postTags, comments, likers, nextPost, nextTag, nextComment)
    }

    ghost predicate Valid()
      reads this
    {
      Consistent(State())
    }

    /** A store with the given categories and otherwise empty tables; every counter starts at 1. */
    constructor (categories: map<Id, Category>)
      ensures Valid()
      ensures State() == Tables(categories, map[], map[], {}, map[], {}, 1, 1, 1)
    {
      this.categories := categories;
      posts, tags, postTags := map[], map[], {};
      comments, likers := map[], {};
      nextPost, nextTag, nextComment := 1, 1, 1;
    }

    /** The ids of the tags post `p` is linked to (`post.getTags()`). */
    function TagIdsOf(p: Id): (ts: set<Id>)
      reads this
      ensures forall t :: t in ts <==> (p, t) in postTags
    {
      set l | l in postTags && l.0 == p :: l.1
    }

    /** `Post.create`: a new row under the next key, created now. */
    method CreatePost(title: string, description: string, categoryId: Id, userId: Id) returns (id: Id)
      requires Valid()
      modifies this
      ensures Valid()
      ensures id == Decimal(old(nextPost)) && id !in old(posts)
      ensures State() == old(State()).(
                posts := old(posts)[id := Post(title, description, categoryId, userId, old(nextPost))],
                nextPost := old(nextPost) + 1)
    {
      PostKeyFresh(State());
      DecimalLaterDiffers(nextPost);
      id := Decimal(nextPost);
      posts := posts[id := Post(title, description, categoryId, userId, nextPost)];
      nextPost := nextPost + 1;
    }

    /** `Post.update({title, description, CategoryId}, {where: {id}})`: the number of rows updated. */
    method UpdatePost(id: Id, title: string, description: string, categoryId: Id) returns (count: nat)
      requires Valid()
      modifies this
      ensures Valid()
      ensures count == if id in old(posts) then 1 else 0
      ensures id in old(posts) ==>
                State() == old(State()).(posts := Edited(old(posts), id, title, description, categoryId))
      ensures id !in old(posts) ==> State() == old(State())
    {
      if id in posts {
        posts := posts[id := posts[id].(title := title, description := description, categoryId := categoryId)];
        count := 1;
      } else {
        count := 0;
      }
    }

    /** `Post.destroy({where: {id}})`: the number of rows removed. */
    method DestroyPost(id: Id) returns (count: nat)
      requires Valid()
      modifies this
      ensures Valid()
      ensures count == if id in old(posts) then 1 else 0
      ensures State() == old(State()).(posts := old(posts) - {id})
    {
      count := if id in posts then 1 else 0;
      posts := posts - {id};
    }

    /** The lookup half of `Tag.findOrCreate({where: {name}})`. */
    method FindTagByName(name: string) returns (found: Option<Id>)
      ensures found.Some? ==> found.value in tags && tags[found.value] == name
      ensures found.None? ==> name !in tags.Values
    {
      var rest := tags.Keys;
      while rest != {}
        invariant rest <= tags.Keys
        invariant forall t :: t in tags && t !in rest ==> tags[t] != name
        decreases |rest|
      {
        var t :| t in rest;
        if tags[t] == name {
          return Some(t);
        }
        rest := rest - {t};
      }
      return None;
    }

    /** `Tag.findOrCreate({where: {name}})`: the tag with that name, created under the next key if there is none. */
    method FindOrCreateTag(name: string) returns (id: Id)
      requires Valid()
      modifies this
      ensures Valid()
      ensures id in tags && tags[id] == name
      ensures forall u :: u in old(tags) ==> u in tags && tags[u] == old(tags)[u]
      ensures forall u :: u in tags && u !in old(tags) ==> tags[u] == name && name !in old(tags).Values
      ensures old(nextTag) <= nextTag
      ensures State() == old(State()).(tags := tags, nextTag := nextTag)
      ensures name in old(tags).Values ==> State() == old(State())
      ensures name !in old(tags).Values ==>
                && id == Decimal(old(nextTag)) && id !in old(tags)
                && State() == old(State()).(tags := old(tags)[id := name], nextTag := old(nextTag) + 1)
    {
      var found := FindTagByName(name);
      if found.Some? {
        id := found.value;
      } else {
        DecimalLaterDiffers(nextTag);
        id := Decimal(nextTag);
        tags := tags[id := name];
        nextTag := nextTag + 1;
      }
    }

    /** `post.addTags(ids)`: links the existing post `p` to each of the tags. */
    method AddTags(p: Id, ids: seq<Id>)
      requires Valid() && p in posts
      requires forall i :: i in ids ==> i in tags
      modifies this
      ensures Valid()
      ensures State() == old(State()).(postTags := old(postTags) + Links(p, set t | t in ids))
    {
      forall k: nat | k >= nextPost
        ensures Decimal(k) != p
      {
        if Decimal(k) == p {
          DecimalInjective(k, posts[p].createdAt);
        }
      }
      postTags := postTags + Links(p, set t | t in ids);
    }

    /** `Tag.removePost(p)`, read as: every tag loses its link to post `p`. */
    method UnlinkPost(p: Id)
      requires Valid()
      modifies this
      ensures Valid()
      ensures State() == old(State()).(postTags := Unlinked(old(postTags), p))
    {
      postTags := Unlinked(postTags, p);
    }

    /** `post.removeTags(ts)`: unlinks post `p` from each of the tags. */
    method RemoveTags(p: Id, ts: set<Id>)
      requires Valid()
      modifies this
      ensures Valid()
      ensures State() == old(State()).(postTags := old(postTags) - Links(p, ts))
    {
      postTags := postTags - Links(p, ts);
    }

    /** `Comment.create(fields)`: a new row under the next key. */
    method CreateComment(c: Comment) returns (id: Id)
      requires Valid()
      modifies this
      ensures Valid()
      ensures id == Decimal(old(nextComment)) && id !in old(comments)
      ensures State() == old(State()).(comments := old(comments)[id := c], nextComment := old(nextComment) + 1)
    {
      DecimalLaterDiffers(nextComment);
      id := Decimal(nextComment);
      comments := comments[id := c];
      nextComment := nextComment + 1;
    }

    /** `Comment.update({description}, {where: {id}})`: the number of rows updated. */
    method UpdateComment(id: Id, description: string) returns (count: nat)
      requires Valid()
      modifies this
      ensures Valid()
      ensures count == if id in old(comments) then 1 else 0
      ensures id in old(comments) ==>
                State() == old(State()).(comments := old(comments)[id := old(comments)[id].(description := description)])
      ensures id !in old(comments) ==> State() == old(State())
    {
      if id in comments {
        comments := comments[id := comments[id].(description := description)];
        count := 1;
      } else {
        count := 0;
      }
    }

    /** `Comment.destroy({where: {id}})`: the number of rows removed. */
    method DestroyComment(id: Id) returns (count: nat)
      requires Valid()
      modifies this
      ensures Valid()
      ensures count == if id in old(comments) then 1 else 0
      ensures State() == old(State()).(comments := old(comments) - {id})
    {
      count := if id in comments then 1 else 0;
      comments := comments - {id};
    }

    /** `post.addLiker(userId)`. */
    method AddLiker(p: Id, userId: Id)
      requires Valid()
      modifies this
      ensures Valid()
      ensures State() == old(State()).(likers := old(likers) + {(p, userId)})
    {
      likers := likers + {(p, userId)};
    }

    /** `post.removeLiker(userId)`. */
    method RemoveLiker(p: Id, userId: Id)
      requires Valid()
      modifies this
      ensures Valid()
      ensures State() == old(State()).(likers := old(likers) - {(p, userId)})
    {
      likers := likers - {(p, userId)};
    }
  }
}
