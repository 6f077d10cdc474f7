# Blog post, tag and comment workflows

This project models the rule-bearing core of a GraphQL blog API over an
in-memory store. It covers two implementations of the post workflow: the
`PostService` class and the ADMIN-guarded resolvers in `postMutation.ts`. It
also covers two implementations of the reaction workflow: the `ReactionService`
class and the login-guarded resolvers in `commentMutation.ts`. Both post
implementations share the hashtag tokeniser `text.match(/#[^\s]+/g)` and the
normalisation `token.slice(1).toLowerCase()`.

Layout:

- `common.dfy`: `Ids` and `Common`. The ids of posts, tags and comments are the
  decimal text of each table's auto-increment counter. Category keys are
  arbitrary strings, taken as given: the store is built over any category
  table. This module also holds the error enum, the `Result` type, the acting
  user and the sort order.
- `hashtag.dfy`: `Hashtag` and `HashtagExamples`. This is the regular
  expression's global scan (`Matches`). `WordTags(Words(s))` is an independent
  word-by-word reading, and lemma `MatchesByWord` proves the two agree.
  The module also holds tag-name normalisation and its properties.
- `store.dfy`: `Database`. This is the class `Store`, one field per table:
  - categories, posts, tags and comments are maps;
  - the post–tag and post–liker relations are sets of pairs.

  Each ORM call the core makes is a method of `Store` that updates those
  fields. `Consistent` is the store's invariant, and every method preserves
  it:
  - keys are fresh above the counters;
  - a post's key is the text of its creation index;
  - every post–tag link names an existing tag;
  - tag names are unique.
- `tagging.dfy`: `Tagging`. This is the find-or-create-then-link step both post
  implementations use, and what it does to a post's tag set.
- `post_service.dfy`, `reaction_service.dfy`, `post_mutation.dfy` and
  `comment_mutation.dfy` hold the workflows, one module per source file. Each
  operation is a method over the store.
  - Each method's postcondition gives the result and the new state for every
    error case and for the success case. This is the whole new state, except
    that new tag rows are given by their names only. Their keys are fresh but
    not pinned, and the tag counter is only known not to decrease.
  - The check methods and the read methods are specified outright.

Behaviours of the code worth noting:

- The service's category check looks up the category whose id is the empty
  string, whatever id it is given
  (`src/services/PostService/index.ts:176`). It does not check that
  `categoryId` exists. If the category keys are counter texts, as an
  auto-increment table hands out, no key is `""`. The check then always fails,
  and so does every `createPost` of the service
  (`PostService.CounterKeyedCategoryCheckFails`).
- `getPosts` never fails. An empty table gives an empty list, because the
  `findAll` result is an array and an array is always truthy
  (`src/services/PostService/index.ts:46`).
- In the service, a non-empty tag text without any hashtag makes
  `[].concat(null)` produce `[null]`, and `null.slice(1)` then throws
  (`src/services/PostService/index.ts:193`, `:199`). This happens after the
  post row has already been created (`createPost`) or after its old tag links
  were removed (`updatePost`). The resolvers instead treat such a text as
  "no tags".
- The resolvers check no category at all: `createPost` stores the given
  category id as it is.

## Model

| member | source | states |
|---|---|---|
| Hashtag.IsSpace | src/services/PostService/index.ts:193 | the regex's `\s`: among ASCII characters exactly space, tab, line feed, vertical tab, form feed and carriage return; `#` is never whitespace |
| Hashtag.RunLength | src/services/PostService/index.ts:193 | `[^\s]+` is greedy: the run is whitespace-free and stops at whitespace or the end of the text |
| Hashtag.Matches | src/services/PostService/index.ts:193 | every match of `/#[^\s]+/g` is a `#` followed by at least one non-whitespace character, and it may contain further `#` |
| Hashtag.MatchAll | src/services/PostService/index.ts:193 | `match` yields `null` exactly when there is no match, and the list of matches otherwise |
| Hashtag.MatchesWithinWord | src/services/PostService/index.ts:193 | inside one whitespace-free word the scan yields at most that word's hashtag, then resumes after the word |
| Hashtag.MatchesByWord | src/services/PostService/index.ts:193 | the regex scan equals the word-by-word reading: each word contributes its suffix from its first `#` that is not its last character |
| Hashtag.RunLengthOfWord | src/services/PostService/index.ts:193 | a whitespace-free prefix followed by whitespace or the end is exactly the greedy run |
| Hashtag.MatchesTokenThen | src/services/PostService/index.ts:193 | a token followed by whitespace is matched whole, and the scan continues after it |
| Hashtag.MatchesSkipSpace | src/services/PostService/index.ts:193 | a match never starts at whitespace |
| Hashtag.Lower | src/services/PostService/index.ts:199 | `toLowerCase` keeps the length and lowers each character (ASCII letters) |
| Hashtag.SliceOne | src/services/PostService/index.ts:199 | `slice(1)` drops exactly the first character: that character followed by the result is the input again, and the empty string gives the empty string |
| Hashtag.TagName | src/services/PostService/index.ts:199 | a token's name is the token without its first character, each character lowered, so it holds no upper-case letter; the empty token gives the empty name |
| Hashtag.Names | src/services/PostService/index.ts:197-201 | the names list has one name per token, in order, each being `token.slice(1).toLowerCase()` |
| Hashtag.LowerIsCanonical | src/services/PostService/index.ts:199 | lowering leaves no upper-case letter and is idempotent |
| Hashtag.ExtractedNamesAreCanonical | src/services/PostService/index.ts:193-199 | every extracted tag name is non-empty, whitespace-free and already lower-case |
| Hashtag.RunLengthOfLowerEq | src/services/PostService/index.ts:193-199 | lowering the text does not move word boundaries |
| Hashtag.LowerEach | src/services/PostService/index.ts:199 | each string of a list lowered, position by position |
| Hashtag.LowerSplit | src/services/PostService/index.ts:199 | lowering commutes with cutting a text at any position |
| Hashtag.MatchesOfLower | src/services/PostService/index.ts:193-199 | the matches of the lowered text are the lowered matches of the text, position by position |
| Hashtag.LowerTokenStep | src/services/PostService/index.ts:193-199 | the scan step at a token start commutes with lowering |
| Hashtag.LowerSkipStep | src/services/PostService/index.ts:193-199 | the scan step that moves on by one character commutes with lowering |
| Hashtag.TagNameOfLower | src/services/PostService/index.ts:199 | a token and its lowered form give the same tag name |
| Hashtag.ExtractNamesIgnoresCase | src/services/PostService/index.ts:193-199 | a text and its lower-case form carry the same tag names, so tags are case-insensitive |
| HashtagExamples.ExampleInnerHash | src/services/PostService/index.ts:193 | `"#a##b c#"` has the single match `"#a##b"`, and a trailing lone `#` is not a match |
| HashtagExamples.MatchesSpaceThenToken | src/services/PostService/index.ts:193 | after a single space, a token followed by whitespace or the end is matched whole |
| HashtagExamples.MatchesThreeTokens | src/services/PostService/index.ts:193 | three tokens separated by single spaces are exactly the three matches, in order |
| HashtagExamples.NamesOfThree | src/services/PostService/index.ts:193-199 | a text with three matches carries exactly the names of those three tokens |
| HashtagExamples.ExampleMixedCaseMatches | src/services/PostService/index.ts:193 | `"#Go #go #RUST"` has the matches `#Go`, `#go`, `#RUST`, in order |
| HashtagExamples.ExampleTokenNames | src/services/PostService/index.ts:199 | the tokens `#Go`, `#go`, `#RUST` name `go`, `go`, `rust` |
| HashtagExamples.ExampleMixedCase | src/services/PostService/index.ts:193-199 | `"#Go #go #RUST"` names exactly the tags `go` and `rust`: the two spellings of `go` are one tag |
| Database.Edited | src/services/PostService/index.ts:134-141 | the edited post carries the new title, description and category; every key, every other post, and the post's author and creation index are kept |
| Database.Store.TagIdsOf | src/services/PostService/index.ts:213-214 | `post.getTags()` yields exactly the tags linked to the post |
| Database.Store.CreatePost | src/services/PostService/index.ts:93-98 | `Post.create` adds one row under a fresh key, with the next creation index, and changes nothing else |
| Database.Store.UpdatePost | src/services/PostService/index.ts:134-141 | `Post.update` edits the three fields of that row only and reports 1 row, or changes nothing and reports 0 |
| Database.Store.DestroyPost | src/services/PostService/index.ts:152 | `Post.destroy` removes that row only and reports how many rows it removed |
| Database.Store.FindTagByName | src/services/PostService/index.ts:198-200 | the lookup finds a tag with that name, or there is none |
| Database.Store.FindOrCreateTag | src/services/PostService/index.ts:198-200 | `findOrCreate` returns the row with that name; it creates one under a fresh key only when no row has the name |
| Database.Store.AddTags | src/services/PostService/index.ts:203 | `addTags` adds the links from the post to each given tag and changes nothing else |
| Database.Store.RemoveTags | src/services/PostService/index.ts:215 | `removeTags` removes the links from the post to each given tag and changes nothing else |
| Database.Store.UnlinkPost | src/graphql/mutationFunction/postMutation.ts:30 | `Tag.removePost(post.id)` removes every tag link of that post and changes nothing else |
| Database.Store.CreateComment | src/services/ReactionService/index.ts:42 | `Comment.create` adds one row under a fresh key and changes nothing else |
| Database.Store.UpdateComment | src/services/ReactionService/index.ts:69 | `Comment.update` changes only that comment's description and reports 1 row, or changes nothing and reports 0 |
| Database.Store.DestroyComment | src/services/ReactionService/index.ts:81 | `Comment.destroy` removes that row only and reports how many rows it removed |
| Database.Store.AddLiker | src/services/ReactionService/index.ts:110 | `addLiker` adds one (post, user) pair and changes nothing else |
| Database.Store.RemoveLiker | src/services/ReactionService/index.ts:121 | `removeLiker` removes one (post, user) pair and changes nothing else |
| Tagging.NamesOfMatches | src/services/PostService/index.ts:193-199 | the set of names of a text's matches is exactly the set of tag names the text carries |
| Tagging.FindOrCreateAll | src/services/PostService/index.ts:196-202 | after find-or-create of each name in order: each result is the row carrying that name, old rows are kept, and new rows carry only names no row had |
| Tagging.FoundOrCreatedStep | src/services/PostService/index.ts:196-202 | one more find-or-create, of the next name in the list, extends the names found or created to that name |
| Tagging.LinkNames | src/services/PostService/index.ts:195-203 | the post is linked to exactly the rows carrying the names, and only the tag table and the links change |
| Tagging.LinkedTagNames | src/services/PostService/index.ts:196-203 | linking adds exactly the given names to the post's tag-name set |
| Tagging.RelinkedTagNames | src/services/PostService/index.ts:130-133 | after all links of a post are removed, linking leaves the post with exactly the given names |
| Tagging.FoundOrCreatedAddsOnlyNewNames | src/services/PostService/index.ts:196-202 | repeated or existing names reuse their row: the set of tag names grows by exactly the new names |
| Tagging.RelinkIsIdempotent | src/services/PostService/index.ts:196-203 | tagging a post again with the same names creates no row and adds no link |
| PostService.GetPosts | src/services/PostService/index.ts:26-55 | never fails; lists every post exactly by key, strictly ascending or strictly descending by creation time |
| PostService.PostsAscending | src/services/PostService/index.ts:28-45 | all posts, each once, in strictly increasing creation order |
| PostService.PostsDescending | src/services/PostService/index.ts:28-45 | all posts, each once, in strictly decreasing creation order |
| PostService.GetPostById | src/services/PostService/index.ts:57-87 | the post with that id, or the "no post" error exactly when it is absent |
| PostService.CheckHasPost | src/services/PostService/index.ts:160-172 | the post with that id, or the "no post" error exactly when it is absent |
| PostService.CheckHasCategory | src/services/PostService/index.ts:174-187 | succeeds exactly when a category with id `""` exists, whatever id it is given |
| PostService.CounterKeyedCategoryCheckFails | src/services/PostService/index.ts:174-187 | when every category key is a counter text, the category check fails with the category error whatever id it is given |
| PostService.ConcatMatch | src/services/PostService/index.ts:193 | `[].concat(match)`: a `null` match gives the one-element array `[null]`, and a list of matches gives each match in order; the array holds `null` exactly when there was no match |
| PostService.SliceLowerAll | src/services/PostService/index.ts:197-201 | mapping `slice(1).toLowerCase()` fails with the tag error exactly when the array holds a `null`, and otherwise names each element in order |
| PostService.ServiceTagNames | src/services/PostService/index.ts:191-199 | fails exactly when `tags` is non-empty and has no `#token`; otherwise yields the names of all matches in order |
| PostService.CreateAndAssociateTag | src/services/PostService/index.ts:189-208 | on the tag error, or on a rejected tag call (passed on as the database error), nothing changes; otherwise the post is linked to find-or-created rows for exactly the extracted names |
| PostService.RemoveAndSeparateTag | src/services/PostService/index.ts:210-219 | every tag link of the post is removed, and nothing else changes |
| PostService.CreatePost | src/services/PostService/index.ts:89-124 | a failed category check changes nothing; otherwise one new post is created and stays even when tagging then fails with the tag error or the database error; on success its tag set equals the extracted names |
| PostService.UpdatePost | src/services/PostService/index.ts:126-147 | a missing post changes nothing; an empty `tags` edits only the three fields; a non-empty one replaces the tag links with exactly the extracted names, or leaves them removed and the fields unedited on the tag error or a rejected tag call |
| PostService.DeletePost | src/services/PostService/index.ts:149-158 | a missing post changes nothing; otherwise exactly that post is removed and the result is true |
| ReactionService.CheckHasPost | src/services/ReactionService/index.ts:129-141 | the post with that id, or the "no post" error exactly when it is absent |
| ReactionService.CheckHasComment | src/services/ReactionService/index.ts:143-156 | the comment with that id, or the "no comment" error exactly when it is absent |
| ReactionService.CheckHasPermission | src/services/ReactionService/index.ts:158-169 | permission holds exactly when the two user ids are equal |
| ReactionService.CommentsOn | src/services/ReactionService/index.ts:27 | the comments selected by `where: { postId }` are exactly those whose post id matches |
| ReactionService.GetComments | src/services/ReactionService/index.ts:24-37 | a missing post fails; a post with no comment fails; otherwise exactly its comments, each once |
| ReactionService.CreateComment | src/services/ReactionService/index.ts:39-62 | a missing post changes nothing; otherwise exactly one new comment with the input fields and that post id |
| ReactionService.UpdateComment | src/services/ReactionService/index.ts:64-75 | existence is checked before ownership, and either failure changes nothing; on success only that comment's description changes |
| ReactionService.DeleteComment | src/services/ReactionService/index.ts:77-87 | the same checks in the same order; on success only that comment is removed and the count is 1 |
| ReactionService.CreateLike | src/services/ReactionService/index.ts:107-116 | a missing post changes nothing; otherwise the user joins that post's likers, no other pair changes, and the result is true |
| ReactionService.DeleteLike | src/services/ReactionService/index.ts:118-127 | a missing post changes nothing; otherwise the user leaves that post's likers, no other pair changes, and the result is true |
| PostMutation.ResolverTagNames | src/graphql/mutationFunction/postMutation.ts:9-20 | the resolver links the names of every match in order; an empty text or one without a match links none |
| PostMutation.ServiceAndResolverAgree | src/graphql/mutationFunction/postMutation.ts:7-26 | wherever the service's tag step succeeds it links the same names as the resolver's; it fails exactly where the resolver links none for a non-empty text |
| PostMutation.LinkedNothing | src/graphql/mutationFunction/postMutation.ts:13 | linking no name is no change |
| PostMutation.TagAdd | src/graphql/mutationFunction/postMutation.ts:7-26 | links the post to find-or-created rows for exactly the extracted names, and with no match changes nothing; a rejected tag call is caught and returned as the database error, with nothing changed |
| PostMutation.TagRemove | src/graphql/mutationFunction/postMutation.ts:28-34 | removes every tag link of the post and nothing else |
| PostMutation.CreatePost | src/graphql/mutationFunction/postMutation.ts:36-76 | a non-ADMIN changes nothing; otherwise one new post with the acting user's id and the unchecked category id, whose tag set equals the extracted names; a rejected tag call is swallowed, and the post is still returned, with no tags |
| PostMutation.UpdatePost | src/graphql/mutationFunction/postMutation.ts:78-115 | a non-ADMIN or a missing post changes nothing; otherwise the three fields are edited, a non-empty `tag` replaces the tag links with exactly the extracted names (or only removes them when the tag call is rejected, which is swallowed), and the result is `update`'s one-element array `[1]` |
| PostMutation.DeletePost | src/graphql/mutationFunction/postMutation.ts:117-132 | a non-ADMIN or a missing post changes nothing; otherwise exactly that post is removed and the count is 1 |
| CommentMutation.CreateComment | src/graphql/mutation/commentMutation.ts:3-34 | no user or a missing post changes nothing; otherwise one new comment by the acting user on that post |
| CommentMutation.UpdateComment | src/graphql/mutation/commentMutation.ts:35-59 | login, then existence, then ownership, each failure changing nothing; on success only the description changes, and the result is `update`'s one-element array `[1]` |
| CommentMutation.DeleteComment | src/graphql/mutation/commentMutation.ts:60-79 | the same checks in the same order; on success only that comment is removed |
| CommentMutation.CreateRecomment | src/graphql/mutation/commentMutation.ts:81-103 | no user or a missing parent comment changes nothing; otherwise one new comment with that parent and the given post id, which is not checked |

## Left out

- Database failures: the tag step's first `Tag.findOrCreate` may be rejected (the `tagCallFails` argument). The service passes that error on, and the resolvers' `tagAddFunction` swallows it into a returned error value (`src/graphql/mutationFunction/postMutation.ts:23-25`). Every other modelled ORM call succeeds, so the other `catch` blocks are not modelled.
- PostService.CreateAndAssociateTag, PostMutation.TagAdd: a rejection is modelled only at the first `findOrCreate`, before anything changes. A rejection part-way, after some rows were created or linked, is not modelled.
- PostMutation.TagRemove, PostMutation.UpdatePost: the removal never fails in the model. `tagRemoveFunction` returns the removal promise without awaiting it (`src/graphql/mutationFunction/postMutation.ts:30`). A rejected removal would therefore escape its `catch` and abort `updatePost` before the field update.
- Tagging.FindOrCreateAll, Tagging.LinkNames, PostService.CreateAndAssociateTag, PostService.CreatePost, PostService.UpdatePost, PostMutation.TagAdd, PostMutation.CreatePost, PostMutation.UpdatePost: new tag rows are given by their names only. Their keys are fresh but not pinned to the counter texts `Decimal(nextTag)`, `Decimal(nextTag + 1)`, …, and the tag counter is only known not to decrease.
- `Promise.all`: find-or-create runs one name after another, in list order. The keys a run gives to new tag rows therefore follow the list order. Only the set of tag names and each post's set of tag names are independent of the order (`Tagging.FoundOrCreatedAddsOnlyNewNames`, `Tagging.LinkedTagNames`). Running the calls one at a time also settles a repeated name. In the code, `Promise.all` starts every `findOrCreate` before any finishes (`src/services/PostService/index.ts:196-200`, `src/graphql/mutationFunction/postMutation.ts:14-19`). For `"#a #a"` both calls can miss the row and create two rows named `a`, unless the tag table has a unique index on `name`, which the code does not show. The store's "tag names are unique" clause and `Tagging.FoundOrCreatedAddsOnlyNewNames` hold only for calls run one at a time.
- PostService.UpdatePost, PostService.DeletePost, ReactionService.UpdateComment, ReactionService.DeleteComment, PostMutation.UpdatePost, PostMutation.DeletePost, CommentMutation.UpdateComment, CommentMutation.DeleteComment: each operation runs as one step, with no other request in between. The code awaits between its check and its write, with no transaction (`src/services/PostService/index.ts:129` then `:134`, `:151` then `:152`; `src/services/ReactionService/index.ts:67-69` and `:79-81`). Another request could remove the row in that gap, so the write would touch no row; this is why the services return `!!isUpdated`/`!!isDeleted`. The model's results (`Ok(true)`, `Ok(1)`, `Ok([1])`) hold only when no other request runs in between.
- Hydration with `include`/`attributes` and `toJSON`: the operations return row ids or records, not the joined views.
- Timestamps: `createdAt` is the creation counter, so sort order is creation order.
- `toLowerCase` covers ASCII letters only. Other characters are left unchanged, whereas JavaScript lowers the whole of Unicode. JavaScript's `\s` is modelled exactly.
- PostService.CreatePost, PostService.UpdatePost, PostMutation.CreatePost, ReactionService.CreateComment: the column-name casing is not modelled. The service creates a post with `categoryId`/`userId` (`src/services/PostService/index.ts:96-97`) but updates it with `CategoryId` (`src/services/PostService/index.ts:138`); the resolver creates it with `UserId`/`CategoryId` (`src/graphql/mutationFunction/postMutation.ts:49-50`); the service writes a comment's `userId`/`postId`, the resolvers `UserId`/`PostId`. Each layer is modelled as writing the post's author and category, and the comment's author and post, into the same fields. Whether the ORM maps each spelling onto the same column is not visible in the code.
- Cascading deletes: removing a post or a comment does not remove that post's tag links, likers or comments. The ORM's foreign-key behaviour is not part of this model.
- Absent optional inputs (`tags`, `tag`) are the empty string. Falsy and empty are the same for a string.
- An absent `ord` is `Desc`: `getPosts` and `getPostById` default it to `"DESC"` (`src/services/PostService/index.ts:26`, `:57`). `PostService.GetPosts` and `PostService.GetPostById` take the order as an explicit argument.
- `ReactionService.createReComment` is not part of this model. It refers to undefined names and can never run.
- `post.addComment(comment)` after a comment is created only sets the post id the comment already carries, so it is not a separate step.
- `Tag.removePost(post.id)` is read as "remove every tag link of this post". Another reading is likely, though not confirmed. The ORM defines association accessors such as `removePost` on Tag instances, while `db.Tag` is the model class (its static `findOrCreate` is called at `src/graphql/mutationFunction/postMutation.ts:16`). The call would then throw a TypeError, which the `catch` at `src/graphql/mutationFunction/postMutation.ts:31-33` swallows. The old links would stay, and the resolvers' `updatePost` would end with the old tags plus the new ones instead of replacing them.
- Tag association needs the post to exist, because a link to a missing post would break the store's invariant. `PostMutation.TagAdd`, `PostService.CreateAndAssociateTag` and `Tagging.LinkNames` therefore require it. Every caller passes a post it has just found or created. `Database.Store.AddTags` likewise requires every tag to exist; its only caller passes rows it has just found or created.
- Server setup, sessions, authentication and the GraphQL transport: the acting user is a parameter (`Option<Actor>`).
