/**
 * The tag association both post layers share: find-or-create a Tag row for each
 * extracted name, then link the post to the rows found or created
 * (`Promise.all(names.map(findOrCreate))` followed by `post.addTags(...)`).
 */
module Tagging {
  import opened Ids
  import opened Common
  import opened Hashtag
  import opened Database

  function NameSet(names: seq<string>): (ns: set<string>)
    ensures forall n :: n in ns <==> n in names
  {
    set n | n in names
  }

  /** The set of names of a text's matches is the set of names the text carries. */
  lemma NamesOfMatches(s: string)
    ensures NameSet(Names(Matches(s))) == ExtractNames(s)
  {
    var ms := Matches(s);
    forall n | n in ExtractNames(s)
      ensures n in NameSet(Names(ms))
    {
      var t :| t in ms && n == TagName(t);
      var k :| 0 <= k < |ms| && ms[k] == t;
      assert Names(ms)[k] == n;
    }
  }

  /**
   * The tag table after find-or-create of `names`: every old row is kept as it was,
   * every new row carries one of `names` that no old row carried, and every name
   * now has a row.
   */
  ghost predicate FoundOrCreated(before: map<Id, string>, after: map<Id, string>, names: set<string>)
  {
    && (forall t :: t in before ==> t in after && after[t] == before[t])
    && (forall t :: t in after && t !in before ==> after[t] in names && after[t] !in before.Values)
    && names <= after.Values
  }

  /**
   * `after` is `before` with the tags of `names` found or created and post `p`
   * linked to every tag carrying one of them; nothing else differs.
   */
  ghost predicate Linked(before: Tables, after: Tables, p: Id, names: set<string>)
  {
    && FoundOrCreated(before.tags, after.tags, names)
    && before.nextTag <= after.nextTag
    && after.postTags == before.postTags + Links(p, TagsNamed(after.tags, names))
    && after == before.(tags := after.tags, nextTag := after.nextTag, postTags := after.postTags)
  }

  /** Linking adds exactly `names` to the post's tag names. */
  lemma LinkedTagNames(before: Tables, after: Tables, p: Id, names: set<string>)
    requires Linked(before, after, p, names)
    ensures TagNamesOf(after, p) == TagNamesOf(before, p) + names
  {
    forall n | n in TagNamesOf(after, p)
      ensures n in TagNamesOf(before, p) + names
    {
      var l :| l in after.postTags && l.0 == p && l.1 in after.tags && n == after.tags[l.1];
      if l !in before.postTags {
        assert l.1 in TagsNamed(after.tags, names);
      } else if l.1 in before.tags {
        assert n in TagNamesOf(before, p);
      } else {
        assert n in names;
      }
    }
    forall n | n in TagNamesOf(before, p) + names
      ensures n in TagNamesOf(after, p)
    {
      if n in names {
        var t :| t in after.tags && after.tags[t] == n;
        assert (p, t) in Links(p, TagsNamed(after.tags, names));
      } else {
        var l :| l in before.postTags && l.0 == p && l.1 in before.tags && n == before.tags[l.1];
        assert l in after.postTags;
      }
    }
  }

  /** After every link of `p` was removed, linking leaves the post with exactly `names`. */
  lemma RelinkedTagNames(before: Tables, after: Tables, p: Id, names: set<string>)
    requires forall l :: l in before.postTags ==> l.0 != p
    requires Linked(before, after, p, names)
    ensures TagNamesOf(after, p) == names
  {
    LinkedTagNames(before, after, p, names);
    assert TagNamesOf(before, p) == {};
  }

  /** Find-or-create keeps one row per name: a name the table already had gets no second row. */
  lemma FoundOrCreatedAddsOnlyNewNames(before: map<Id, string>, after: map<Id, string>, names: set<string>)
    requires FoundOrCreated(before, after, names)
    ensures after.Values == before.Values + names
  {
    forall n | n in after.Values
      ensures n in before.Values + names
    {
      var t :| t in after && after[t] == n;
      if t in before {
        assert before[t] == n;
      }
    }
    forall n | n in before.Values
      ensures n in after.Values
    {
      var t :| t in before && before[t] == n;
      assert after[t] == n;
    }
  }

  /**
   * Tagging a post again with names it was just tagged with finds every row and
   * creates none: the tag table and the links are left as they were.
   */
  lemma RelinkIsIdempotent(a: Tables, b: Tables, c: Tables, p: Id, names: set<string>)
    requires Linked(a, b, p, names) && Linked(b, c, p, names)
    ensures c.tags == b.tags && c.postTags == b.postTags
  {
    forall t | t in c.tags
      ensures t in b.tags
    {
      if t !in b.tags {
        // a new row would carry one of `names`, yet every name already had a row
        assert false;
      }
    }
    assert c.tags.Keys == b.tags.Keys;
    assert TagsNamed(c.tags, names) == TagsNamed(b.tags, names);
  }

  /** One more find-or-create, of the name `names[i]`, extends the names found or created to `names[..i + 1]`. */
  lemma FoundOrCreatedStep(before: map<Id, string>, prev: map<Id, string>, after: map<Id, string>, names: seq<string>, i: nat)
    requires i < |names|
    requires FoundOrCreated(before, prev, NameSet(names[..i]))
    requires forall t :: t in prev ==> t in after && after[t] == prev[t]
    requires forall t :: t in after && t !in prev ==> after[t] == names[i] && names[i] !in prev.Values
    requires names[i] in after.Values
    ensures FoundOrCreated(before, after, NameSet(names[..i + 1]))
  {
    assert names[..i + 1] == names[..i] + [names[i]];
    assert NameSet(names[..i + 1]) == NameSet(names[..i]) + {names[i]};
    forall v | v in before.Values
      ensures v in prev.Values
    {
      var u :| u in before && before[u] == v;
      assert prev[u] == v;
    }
    forall v | v in NameSet(names[..i])
      ensures v in after.Values
    {
      var u :| u in prev && prev[u] == v;
      assert after[u] == v;
    }
  }

  /** The rows found so far keep their names when the table only grows, and the next row joins them. */
  lemma RowsStep(prev: map<Id, string>, after: map<Id, string>, ids: seq<Id>, names: seq<string>, t: Id)
    requires |ids| < |names|
    requires forall k :: 0 <= k < |ids| ==> ids[k] in prev && prev[ids[k]] == names[k]
    requires forall u :: u in prev ==> u in after && after[u] == prev[u]
    requires t in after && after[t] == names[|ids|]
    ensures forall k :: 0 <= k < |ids| + 1 ==> (ids + [t])[k] in after && after[(ids + [t])[k]] == names[k]
  {
  }

  /** Find-or-create every name in order, then link post `p` to the rows. */
  method LinkNames(db: Store, p: Id, names: seq<string>)
    requires db.Valid() && p in db.posts
    modifies db
    ensures db.Valid()
    ensures Linked(old(db.State()), db.State(), p, NameSet(names))
  {
    var ids := FindOrCreateAll(db, names);
    ghost var named := TagsNamed(db.tags, NameSet(names));
    assert (set t | t in ids) == named by {
      forall t | t in named
        ensures t in ids
      {
        var k :| 0 <= k < |names| && names[k] == db.tags[t];
        assert db.tags[ids[k]] == db.tags[t];
      }
    }
    db.AddTags(p, ids);
  }

  /** `Promise.all(names.map(name => Tag.findOrCreate({where: {name}})))`, one name after another. */
  method FindOrCreateAll(db: Store, names: seq<string>) returns (ids: seq<Id>)
    requires db.Valid()
    modifies db
    ensures db.Valid()
    ensures |ids| == |names|
    ensures forall k :: 0 <= k < |names| ==> ids[k] in db.tags && db.tags[ids[k]] == names[k]
    ensures FoundOrCreated(old(db.tags), db.tags, NameSet(names))
    ensures old(db.nextTag) <= db.nextTag
    ensures db.State() == old(db.State()).(tags := db.tags, nextTag := db.nextTag)
  {
    ghost var before := db.State();
    ids := [];
    var i := 0;
    while i < |names|
      invariant 0 <= i <= |names| && |ids| == i
      invariant db.Valid()
      invariant forall k :: 0 <= k < i ==> ids[k] in db.tags && db.tags[ids[k]] == names[k]
      invariant FoundOrCreated(before.tags, db.tags, NameSet(names[..i]))
      invariant before.nextTag <= db.nextTag
      invariant db.categories == before.categories && db.posts == before.posts && db.postTags == before.postTags
      invariant db.comments == before.comments && db.likers == before.likers
      invariant db.nextPost == before.nextPost && db.nextComment == before.nextComment
    {
      ghost var prev := db.tags;
      var t := db.FindOrCreateTag(names[i]);
      FoundOrCreatedStep(before.tags, prev, db.tags, names, i);
      RowsStep(prev, db.tags, ids, names, t);
      ids := ids + [t];
      i := i + 1;
    }
    assert names[..i] == names;
  }
}
