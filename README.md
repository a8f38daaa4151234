# Post lifecycle of the social-app backend, in Dafny

This project models the post service of the social-app backend
(`src/modules/post/services/post.service.js`). That service reads, creates,
edits, soft-deletes ("freezes"), restores ("unfreezes"), likes and unlikes
post documents. The collection of posts is a table from post id to post
document. A document holds its creator, its content, its attachments (pairs
of `secure_url` and `public_id` returned by the cloud store), its `likes`,
and the optional markers `isDeleted`, `deletedBy` and `updatedBy`. An absent
marker (`$exists: false`) is `None`.

- `PostModel` (`post_model.dfy`) holds the documents and the query filters
  each handler uses. It also holds the record updates each handler writes
  (`$addToSet`, `$pull`, `$unset`, the spread update body). For every handler
  it gives a pure specification over the table: the response (`Ok(document)`
  or `Err(cause)` with cause 404 or 409), and through `Commit` the table
  afterwards. `getPosts` and `getPost` are read-only and are functions.
- `PostService` (`post_service.dfy`) holds the class `PostStore`, with the
  table as a field and one method per handler that changes a post
  (`createPost`, `updatePost`, `freezePost`, `unfreezePost`, `likePost`,
  `unlikePost`); the two read-only handlers are the `PostModel` functions.
  Each method issues the service's database calls (`findOne`,
  `findOneAndUpdate` with a filter and an update) and is proved to return
  what the specification gives and to leave the table as `Commit` says. The
  methods also keep the store invariant: every post is well formed (a
  present `isDeleted` is `true` and comes with `deletedBy`, and `likes` holds
  no duplicate), and every id is below the id generator. The invariant holds
  because the modelled update body carries only content and attachments; see
  "Left out" for what the service's full body spread can do. The attachment-building loop of `createPost` and
  `updatePost` is the method `BuildAttachments`.
- `PostLifecycle` (`post_lifecycle.dfy`) proves properties that span several
  calls. Freezing hides a post from every other handler, and only the
  freezer can unfreeze it. Freeze then unfreeze restores the post. A second
  like is a conflict. Like then unlike restores the table. Unlike is
  idempotent.

The freeze owner rule is modelled as the code writes it
(`post.service.js:125-126`): a requester whose role is `user` gets no owner
condition and can freeze any live post, while every other role can freeze
only its own posts. `FreezeOwnerRule` states this, including the case of a
`user` freezing someone else's post.

In this repository, `app.controller.js` does not mount the post router,
and `post.controller.js` has no routes for reading posts (`getPosts`,
`getPost`) or for liking and unliking them. The model
describes the service handlers themselves, whatever route reaches them.

## Model

| member | source | states |
|---|---|---|
| `PostModel.GetPosts` | src/modules/post/services/post.service.js:9-27 | succeeds iff some post is not soft-deleted, and then returns exactly the posts without `isDeleted`, unchanged; otherwise fails with 404 |
| `PostModel.GetPost` | src/modules/post/services/post.service.js:37-55 | returns the stored post iff it exists and has no `isDeleted` marker; otherwise 404 |
| `PostModel.AttachmentsOf` | src/modules/post/services/post.service.js:68-75 | one attachment per uploaded file, in upload order, holding that upload's `secure_url` and `public_id` |
| `PostService.BuildAttachments` | src/modules/post/services/post.service.js:91-99 | the push loop yields exactly the attachments list of the uploads, in order |
| `PostModel.AddToSet` | src/modules/post/services/post.service.js:196-198 | `$addToSet`: the user is in the result, no one else is added, existing likes stay in place as a prefix, and no duplicate is created |
| `PostModel.Pull` | src/modules/post/services/post.service.js:223-225 | `$pull`: the user is gone, every other liker keeps its number of occurrences, the result keeps the remaining likes in their order (a subsequence), and no duplicate is created |
| `PostModel.NewPost` | src/modules/post/services/post.service.js:77-80 | a created post is live and well formed, is owned by the requester, has the given content and attachments, no likes and no `updatedBy` |
| `PostModel.Update` | src/modules/post/services/post.service.js:90-121 | succeeds iff the post exists, is live and was created by the requester; it then sets `updatedBy`, takes the sent content, and replaces attachments only when files were uploaded; otherwise 404 |
| `PostModel.Freeze` | src/modules/post/services/post.service.js:124-146 | succeeds iff the post is live and either the role is `user` or the requester created it; it then sets `isDeleted` true and `deletedBy` and `updatedBy` to the requester, and leaves the rest; otherwise 404 |
| `PostModel.Unfreeze` | src/modules/post/services/post.service.js:149-175 | succeeds iff the post is frozen and `deletedBy` is the requester; it then removes `isDeleted` and `deletedBy` and sets `updatedBy`; otherwise 404 |
| `PostModel.Like` | src/modules/post/services/post.service.js:177-212 | 409 iff the live post already lists the requester; 404 iff it is missing or soft-deleted; succeeds iff it is live and not yet liked by the requester, and then the requester is appended to `likes` and nothing else changes |
| `PostModel.Unlike` | src/modules/post/services/post.service.js:214-237 | succeeds iff the post is live; it then sets `likes` to the `$pull` of the requester (every other liker kept, in order) and changes nothing else; otherwise 404 |
| `PostService.PostStore.FindOne` | src/modules/post/services/post.service.js:180-184 | returns the record with the id iff it matches the filter |
| `PostService.PostStore.FindOneAndUpdate` | src/modules/post/services/post.service.js:128-137 | when the record with the id matches the filter, replaces it by its update and returns the new record; otherwise returns nothing and changes nothing |
| `PostService.PostStore.CreatePost` | src/modules/post/services/post.service.js:65-88 | stores a post under a fresh id, owned by the requester, with the uploads' attachments in order, readable afterwards; keeps the store invariant |
| `PostService.PostStore.UpdatePost` | src/modules/post/services/post.service.js:90-122 | returns what `Update` specifies and commits it; keeps the store invariant |
| `PostService.PostStore.FreezePost` | src/modules/post/services/post.service.js:124-147 | returns what `Freeze` specifies and commits it; keeps the store invariant |
| `PostService.PostStore.UnfreezePost` | src/modules/post/services/post.service.js:149-175 | returns what `Unfreeze` specifies and commits it; keeps the store invariant |
| `PostService.PostStore.LikePost` | src/modules/post/services/post.service.js:177-212 | the lookup followed by the update returns what `Like` specifies and commits it; keeps the store invariant |
| `PostService.PostStore.UnlikePost` | src/modules/post/services/post.service.js:214-237 | returns what `Unlike` specifies and commits it; keeps the store invariant |
| `PostLifecycle.PullAbsent` | src/modules/post/services/post.service.js:223-225 | pulling a user who has not liked the post leaves `likes` unchanged |
| `PostLifecycle.PullAppended` | src/modules/post/services/post.service.js:196-198 | a like appended by `$addToSet` is removed by `$pull` like any other |
| `PostLifecycle.PullIdempotent` | src/modules/post/services/post.service.js:223-225 | `$pull` twice is `$pull` once |
| `PostLifecycle.AddToSetThenPull` | src/modules/post/services/post.service.js:190-227 | adding a new like and pulling it gives back the same likes list, order included |
| `PostLifecycle.FreezeOwnerRule` | src/modules/post/services/post.service.js:125-133 | role `user` may freeze any live post; any other role may freeze a live post iff it created it |
| `PostLifecycle.FrozenPostIsHidden` | src/modules/post/services/post.service.js:124-237 | after a freeze, reading, editing, freezing, liking and unliking that post all give 404 |
| `PostLifecycle.OnlyFreezerUnfreezes` | src/modules/post/services/post.service.js:150-155 | after a freeze, an unfreeze succeeds iff the requester is the one who froze it |
| `PostLifecycle.FreezeThenUnfreeze` | src/modules/post/services/post.service.js:124-175 | freeze then unfreeze by the same user makes the post live again and restores the table, except `updatedBy` |
| `PostLifecycle.LikeTwiceConflicts` | src/modules/post/services/post.service.js:177-212 | after a successful like, the same user's next like is 409 and changes nothing |
| `PostLifecycle.LikeThenUnlike` | src/modules/post/services/post.service.js:177-237 | like then unlike by the same user returns the original post and restores the original table |
| `PostLifecycle.UnlikeWithoutLike` | src/modules/post/services/post.service.js:214-237 | unliking a live post the requester never liked succeeds and changes nothing |
| `PostLifecycle.UnlikeIdempotent` | src/modules/post/services/post.service.js:214-237 | a second unlike returns the same post as the first and changes nothing |
| `PostLifecycle.HandlersPreserveWellFormed` | src/modules/post/services/post.service.js:103-227 | every handler of the model, with the update body narrowed to content and attachments, keeps every post well formed: a present `isDeleted` is `true` and comes with `deletedBy`, and `likes` has no duplicates |

## Left out

- Cloud uploads (`cloud.uploader.upload`) and the folder path built from `APP_NAME` and the user id are a call into a foreign service. The model takes the upload responses as a given sequence, one per file, in file order. The uploads of `updatePost` happen before its ownership check, so a rejected update still uploads its files. The model does not capture that side effect.
- `PostModel.Update`: of the request body, only `content` is modelled. The handler spreads the whole body into the update. Any other field of the post schema that a client sent (`createdBy`, `likes`, `isDeleted`, …) would also be written, subject to the post schema. The post schema (`Post.model.js`) is not part of this model, and the route applies no body validation (`post.controller.js:25-31`, unlike freeze and unfreeze).
- `PostLifecycle.HandlersPreserveWellFormed`: the document invariant, and the store invariant `PostService.PostStore.Valid` built on it, hold only for the narrowed update body. In the program, the owner of a live post can send `isDeleted`, `deletedBy` or `likes` in an update and break it: a post stored with `isDeleted: false` and no `deletedBy` is then skipped by every `$exists: false` filter, and no unfreeze can match it.
- `PostModel.GetPosts`: returns the live posts as a map keyed by id. The order in which the database returns them is not modelled.
- `populate` and `select` projections of `createdBy` and `likes`, the `successResponse` envelope, `asyncHandler`, and the conversion to `mongoose.Types.ObjectId` are library plumbing. Ids are natural numbers. A malformed post id (a cast error in the driver) is not modelled.
- Id generation by the database is modelled as a counter in the store that is above every stored id.
- Role values come from `User.model.js`, which is not part of this model. Roles are modelled as `User` and `Admin`, and only the test for `user` matters to the handlers. The authorization middleware that decides which roles reach each route is not part of this model.
- Schema defaults are assumed for a new post: empty `likes` and no markers. `content` is taken as given (a string).
- `likePost` runs its "already liked" lookup and its `$addToSet` as two database calls. The model runs them as one sequential step, so a concurrent like between them is not modelled.
- The authentication validation schemas (`auth.validation.js`), the route wiring (`post.controller.js`) and the server bootstrap (`app.controller.js`) are declarations over libraries and I/O, and are not modelled.
