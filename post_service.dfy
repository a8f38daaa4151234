/**
  The post service's handlers as methods of a store that holds the post
  collection. Each handler issues the same database calls as the service
  (a lookup, or a find-one-and-update with a filter and an update) and is
  proved to return exactly what the matching specification in PostModel
  gives, leaving the collection as PostModel.Commit says.
 */
module PostService {
  import opened PostModel

  /** Builds the attachments list the way the handlers do: one push per
      upload response, keeping only `secure_url` and `public_id`. */
  method BuildAttachments(uploads: seq<UploadResponse>) returns (attachments: seq<Attachment>)
    ensures attachments == AttachmentsOf(uploads)
  {
    attachments := [];
    for i := 0 to |uploads|
      invariant attachments == AttachmentsOf(uploads[..i])
    {
      assert uploads[..i + 1][..i] == uploads[..i];
      attachments := attachments + [ToAttachment(uploads[i])];
    }
    assert uploads[..|uploads|] == uploads;
  }

  /** The post collection. `nextId` stands for the database's id generator:
      every stored id is below it. */
  class PostStore {
    var posts: map<PostId, Post>
    var nextId: PostId

    ghost predicate Valid()
      reads this
    {
      && TableWellFormed(posts)
      && forall id :: id in posts ==> id < nextId
    }

    constructor ()
      ensures Valid() && posts == map[]
    {
      posts := map[];
      nextId := 0;
    }

    /** `findOne`: the record with this id, if it matches the filter. */
    function FindOne(id: PostId, matches: Post -> bool): (found: Option<Post>)
      reads this
      ensures found.Some? <==> id in posts && matches(posts[id])
      ensures found.Some? ==> found.value == posts[id]
    {
      if id in posts && matches(posts[id]) then Some(posts[id]) else None
    }

    /** `findOneAndUpdate` with `new: true`: when the record with this id
        matches the filter, replace it by its update and return the new
        record; otherwise change nothing. */
    method FindOneAndUpdate(id: PostId, matches: Post -> bool, change: Post -> Post) returns (updated: Option<Post>)
      modifies this`posts
      ensures updated.Some? <==> id in old(posts) && matches(old(posts)[id])
      ensures updated.Some? ==> updated.value == change(old(posts)[id]) && posts == old(posts)[id := updated.value]
      ensures updated.None? ==> posts == old(posts)
    {
      updated := None;
      if id in posts && matches(posts[id]) {
        var post := change(posts[id]);
        posts := posts[id := post];
        updated := Some(post);
      }
    }

    /** `createPost`: stores a fresh post owned by the requester, with the
        attachments of the uploaded files in upload order. */
    method CreatePost(user: UserId, content: string, uploads: seq<UploadResponse>) returns (id: PostId, post: Post)
      requires Valid()
      modifies this
      ensures Valid()
      ensures id !in old(posts) && posts == old(posts)[id := post]
      ensures post == NewPost(user, content, AttachmentsOf(uploads))
      ensures GetPost(posts, id) == Ok(post)
    {
      var attachments := BuildAttachments(uploads);
      id := nextId;
      post := NewPost(user, content, attachments);
      posts := posts[id := post];
      nextId := nextId + 1;
    }

    /** `updatePost`: the uploaded files, if any, replace the attachments;
        only the owner of a live post gets a result. */
    method UpdatePost(id: PostId, user: UserId, content: Option<string>, uploads: seq<UploadResponse>)
      returns (r: Result<Post>)
      requires Valid()
      modifies this`posts
      ensures Valid()
      ensures r == Update(old(posts), id, user, content, uploads)
      ensures posts == Commit(old(posts), id, r)
    {
      var body := UpdateBody(content, None);
      if |uploads| > 0 {
        var attachments := BuildAttachments(uploads);
        body := body.(attachments := Some(attachments));
      }
      var updated := FindOneAndUpdate(id, p => UpdateFilter(p, user), p => Edited(p, user, body));
      r := if updated.Some? then Ok(updated.value) else Err(NotFound);
    }

    /** `freezePost`: soft-deletes a live post under the role-dependent
        owner rule. */
    method FreezePost(id: PostId, user: UserId, role: Role) returns (r: Result<Post>)
      requires Valid()
      modifies this`posts
      ensures Valid()
      ensures r == Freeze(old(posts), id, user, role)
      ensures posts == Commit(old(posts), id, r)
    {
      var updated := FindOneAndUpdate(id, p => FreezeFilter(p, user, role), p => Frozen(p, user));
      r := if updated.Some? then Ok(updated.value) else Err(NotFound);
    }

    /** `unfreezePost`: restores a post frozen by the requester. */
    method UnfreezePost(id: PostId, user: UserId) returns (r: Result<Post>)
      requires Valid()
      modifies this`posts
      ensures Valid()
      ensures r == Unfreeze(old(posts), id, user)
      ensures posts == Commit(old(posts), id, r)
    {
      var updated := FindOneAndUpdate(id, p => UnfreezeFilter(p, user), p => Unfrozen(p, user));
      r := if updated.Some? then Ok(updated.value) else Err(NotFound);
    }

    /** `likePost`: the "already liked" lookup first, then `$addToSet`. */
    method LikePost(id: PostId, user: UserId) returns (r: Result<Post>)
      requires Valid()
      modifies this`posts
      ensures Valid()
      ensures r == Like(old(posts), id, user)
      ensures posts == Commit(old(posts), id, r)
    {
      var already := FindOne(id, p => LikedFilter(p, user));
      if already.Some? {
        return Err(Conflict);
      }
      var updated := FindOneAndUpdate(id, p => NotDeleted(p), p => Liked(p, user));
      if updated.None? {
        return Err(NotFound);
      }
      r := Ok(updated.value);
    }

    /** `unlikePost`: `$pull` of the requester on a live post. */
    method UnlikePost(id: PostId, user: UserId) returns (r: Result<Post>)
      requires Valid()
      modifies this`posts
      ensures Valid()
      ensures r == Unlike(old(posts), id, user)
      ensures posts == Commit(old(posts), id, r)
    {
      var updated := FindOneAndUpdate(id, p => NotDeleted(p), p => Unliked(p, user));
      r := if updated.Some? then Ok(updated.value) else Err(NotFound);
    }
  }
}
