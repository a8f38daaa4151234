/**
  Post documents of the social-app backend and the rules its post service
  applies to them: the query filters (which record a handler may touch), the
  record updates (what the handler writes), and, for every handler, a pure
  specification over the post table giving the response and the new record.

  The table is a map from post id to post document. The store class in
  PostService implements the handlers imperatively; the functions here are
  what those methods are proved against.
 */
module PostModel {

  type UserId = nat
  type PostId = nat

  datatype Option<T> = None | Some(value: T)

  /** The `cause` carried by the error a handler passes on. */
  const NotFound: nat := 404
  const Conflict: nat := 409

  /** A handler's outcome: the returned document, or the error cause. */
  datatype Result<T> = Ok(value: T) | Err(cause: nat)

  /** Account roles; the handlers only ask whether a role is `user`. */
  datatype Role = User | Admin

  /** What the cloud store answers for one upload. The handlers keep only
      `secure_url` and `public_id`; everything else is dropped. */
  datatype UploadResponse = UploadResponse(secureUrl: string, publicId: string, otherFields: map<string, string>)

  /** One stored attachment: the pair kept from an upload response. */
  datatype Attachment = Attachment(secureUrl: string, publicId: string)

  /** A post document. The three markers are optional fields: a field that is
      absent (`$exists: false`) is `None`. */
  datatype Post = Post(
    createdBy: UserId,
    content: string,
    attachments: seq<Attachment>,
    likes: seq<UserId>,
    isDeleted: Option<bool>,
    deletedBy: Option<UserId>,
    updatedBy: Option<UserId>)

  /** The update body of `updatePost` after the uploaded files have been put
      into it: the `content` the client sent, if any, and the attachments,
      present only when files were uploaded. */
  datatype UpdateBody = UpdateBody(content: Option<string>, attachments: Option<seq<Attachment>>)

  // ----- Collections -----

  predicate NoDup<T(==)>(s: seq<T>)
  {
    forall i, j :: 0 <= i < j < |s| ==> s[i] != s[j]
  }

  /** `a` is `b` with some elements left out, the rest in their order. */
  predicate SubsequenceOf<T(==)>(a: seq<T>, b: seq<T>)
    decreases |b|
  {
    if b == [] then a == []
    else if a != [] && a[0] == b[0] then SubsequenceOf(a[1..], b[1..])
    else SubsequenceOf(a, b[1..])
  }

  /** The stored pair of one upload response. */
  function ToAttachment(u: UploadResponse): Attachment
  {
    Attachment(u.secureUrl, u.publicId)
  }

  /** The attachments list built from the upload responses, pushed one by one
      in the order of the uploaded files. */
  function AttachmentsOf(uploads: seq<UploadResponse>): (r: seq<Attachment>)
    ensures |r| == |uploads|
    ensures forall i :: 0 <= i < |uploads| ==> r[i] == ToAttachment(uploads[i])
  {
    if uploads == [] then []
    else AttachmentsOf(uploads[..|uploads| - 1]) + [ToAttachment(uploads[|uploads| - 1])]
  }

  /** `$addToSet`: append the user unless already present. */
  function AddToSet(likes: seq<UserId>, user: UserId): (r: seq<UserId>)
    ensures user in r
    ensures forall v :: v in r <==> v in likes || v == user
    ensures likes <= r
    ensures NoDup(likes) ==> NoDup(r)
  {
    if user in likes then likes else likes + [user]
  }

  /** `$pull`: remove every occurrence of the user, keep the others in order. */
  function Pull(likes: seq<UserId>, user: UserId): (r: seq<UserId>)
    ensures user !in r
    ensures forall v :: v in r <==> v in likes && v != user
    ensures forall v :: v != user ==> multiset(r)[v] == multiset(likes)[v]
    ensures SubsequenceOf(r, likes)
    ensures NoDup(likes) ==> NoDup(r)
  {
    if likes == [] then []
    else
      assert likes == [likes[0]] + likes[1..];
      if likes[0] == user then Pull(likes[1..], user)
      else [likes[0]] + Pull(likes[1..], user)
  }

  // ----- Document invariant -----

  /** What every stored post satisfies: the soft-delete flag, when present, is
      `true` and comes with the user who set it; likes hold no duplicate. */
  predicate WellFormed(p: Post)
  {
    && NoDup(p.likes)
    && ((p.isDeleted == None && p.deletedBy == None) || (p.isDeleted == Some(true) && p.deletedBy.Some?))
  }

  predicate TableWellFormed(t: map<PostId, Post>)
  {
    forall id :: id in t ==> WellFormed(t[id])
  }

  // ----- Query filters -----

  /** `isDeleted: { $exists: false }` */
  predicate NotDeleted(p: Post)
  {
    p.isDeleted.None?
  }

  /** Filter of `updatePost`: live and created by the requester. */
  predicate UpdateFilter(p: Post, user: UserId)
  {
    NotDeleted(p) && p.createdBy == user
  }

  /** Filter of `freezePost`, as written: a requester whose role is `user`
      gets no owner condition; every other role is limited to its own posts. */
  predicate FreezeFilter(p: Post, user: UserId, role: Role)
  {
    NotDeleted(p) && (role == User || p.createdBy == user)
  }

  /** Filter of `unfreezePost`: frozen, and frozen by the requester. */
  predicate UnfreezeFilter(p: Post, user: UserId)
  {
    p.isDeleted.Some? && p.deletedBy == Some(user)
  }

  /** Filter of the "already liked" lookup of `likePost`. */
  predicate LikedFilter(p: Post, user: UserId)
  {
    NotDeleted(p) && user in p.likes
  }

  // ----- Record updates -----

  /** The body `updatePost` sends: `content` when the client gave one, the new
      attachments only when files were uploaded. */
  function RequestBody(content: Option<string>, uploads: seq<UploadResponse>): UpdateBody
  {
    UpdateBody(content, if |uploads| > 0 then Some(AttachmentsOf(uploads)) else None)
  }

  /** `{ ...req.body, updatedBy }` */
  function Edited(p: Post, user: UserId, body: UpdateBody): Post
  {
    p.(content := if body.content.Some? then body.content.value else p.content,
       attachments := if body.attachments.Some? then body.attachments.value else p.attachments,
       updatedBy := Some(user))
  }

  /** `{ isDeleted: true, updatedBy, deletedBy }` */
  function Frozen(p: Post, user: UserId): Post
  {
    p.(isDeleted := Some(true), deletedBy := Some(user), updatedBy := Some(user))
  }

  /** `{ $unset: { deletedBy, isDeleted }, updatedBy }` */
  function Unfrozen(p: Post, user: UserId): Post
  {
    p.(isDeleted := None, deletedBy := None, updatedBy := Some(user))
  }

  /** `{ $addToSet: { likes: user } }` */
  function Liked(p: Post, user: UserId): Post
  {
    p.(likes := AddToSet(p.likes, user))
  }

  /** `{ $pull: { likes: user } }` */
  function Unliked(p: Post, user: UserId): Post
  {
    p.(likes := Pull(p.likes, user))
  }

  /** A new post as `createPost` stores it: no likes and no markers. */
  function NewPost(user: UserId, content: string, attachments: seq<Attachment>): (p: Post)
    ensures WellFormed(p) && NotDeleted(p)
    ensures p.createdBy == user && p.content == content && p.attachments == attachments
    ensures p.likes == [] && p.updatedBy == None
  {
    Post(user, content, attachments, [], None, None, None)
  }

  // ----- Handlers -----

  /** The table after a handler: its returned document replaces the record,
      an error leaves the table as it was. */
  function Commit(t: map<PostId, Post>, id: PostId, r: Result<Post>): map<PostId, Post>
  {
    if r.Ok? then t[id := r.value] else t
  }

  /** `getPosts`: every post that is not soft-deleted, or 404 when there is none. */
  function GetPosts(t: map<PostId, Post>): (r: Result<map<PostId, Post>>)
    ensures r.Ok? <==> exists id :: id in t && NotDeleted(t[id])
    ensures r.Err? ==> r.cause == NotFound
    ensures r.Ok? ==> forall id :: id in r.value <==> id in t && NotDeleted(t[id])
    ensures r.Ok? ==> forall id :: id in r.value ==> r.value[id] == t[id]
  {
    var live := map id | id in t && NotDeleted(t[id]) :: t[id];
    if live.Keys == {} then
      assert forall id :: id in t && NotDeleted(t[id]) ==> id in live.Keys;
      Err(NotFound)
    else Ok(live)
  }

  /** `getPost`: the post with this id if it is not soft-deleted, else 404. */
  function GetPost(t: map<PostId, Post>, id: PostId): (r: Result<Post>)
    ensures r.Ok? <==> id in t && NotDeleted(t[id])
    ensures r.Ok? ==> r.value == t[id]
    ensures r.Err? ==> r.cause == NotFound
  {
    if id in t && NotDeleted(t[id]) then Ok(t[id]) else Err(NotFound)
  }

  /** `updatePost`: only the owner of a live post may edit it. */
  function Update(t: map<PostId, Post>, id: PostId, user: UserId, content: Option<string>,
                  uploads: seq<UploadResponse>): (r: Result<Post>)
    ensures r.Ok? <==> id in t && NotDeleted(t[id]) && t[id].createdBy == user
    ensures r.Err? ==> r.cause == NotFound
    ensures r.Ok? ==> r.value.updatedBy == Some(user)
    ensures r.Ok? ==> r.value.content == (if content.Some? then content.value else t[id].content)
    ensures r.Ok? ==> r.value.attachments == (if |uploads| > 0 then AttachmentsOf(uploads) else t[id].attachments)
    ensures r.Ok? ==> && r.value.createdBy == t[id].createdBy && r.value.likes == t[id].likes
                      && r.value.isDeleted == t[id].isDeleted && r.value.deletedBy == t[id].deletedBy
  {
    if id in t && UpdateFilter(t[id], user) then Ok(Edited(t[id], user, RequestBody(content, uploads)))
    else Err(NotFound)
  }

  /** `freezePost` (soft delete), with the role-dependent owner rule as written. */
  function Freeze(t: map<PostId, Post>, id: PostId, user: UserId, role: Role): (r: Result<Post>)
    ensures r.Ok? <==> id in t && NotDeleted(t[id]) && (role == User || t[id].createdBy == user)
    ensures r.Err? ==> r.cause == NotFound
    ensures r.Ok? ==> && r.value.isDeleted == Some(true) && r.value.deletedBy == Some(user)
                      && r.value.updatedBy == Some(user)
    ensures r.Ok? ==> && r.value.createdBy == t[id].createdBy && r.value.content == t[id].content
                      && r.value.attachments == t[id].attachments && r.value.likes == t[id].likes
  {
    if id in t && FreezeFilter(t[id], user, role) then Ok(Frozen(t[id], user)) else Err(NotFound)
  }

  /** `unfreezePost`: only the user who froze the post may restore it. */
  function Unfreeze(t: map<PostId, Post>, id: PostId, user: UserId): (r: Result<Post>)
    ensures r.Ok? <==> id in t && t[id].isDeleted.Some? && t[id].deletedBy == Some(user)
    ensures r.Err? ==> r.cause == NotFound
    ensures r.Ok? ==> && NotDeleted(r.value) && r.value.deletedBy == None
                      && r.value.updatedBy == Some(user)
    ensures r.Ok? ==> && r.value.createdBy == t[id].createdBy && r.value.content == t[id].content
                      && r.value.attachments == t[id].attachments && r.value.likes == t[id].likes
  {
    if id in t && UnfreezeFilter(t[id], user) then Ok(Unfrozen(t[id], user)) else Err(NotFound)
  }

  /** `likePost`: 409 when the live post already has the like, 404 when the
      post is missing or soft-deleted, else the requester joins `likes`. */
  function Like(t: map<PostId, Post>, id: PostId, user: UserId): (r: Result<Post>)
    ensures r == Err(Conflict) <==> id in t && NotDeleted(t[id]) && user in t[id].likes
    ensures r == Err(NotFound) <==> id !in t || !NotDeleted(t[id])
    ensures r.Ok? <==> id in t && NotDeleted(t[id]) && user !in t[id].likes
    ensures r.Ok? ==> r.value.likes == t[id].likes + [user]
    ensures r.Ok? ==> r.value == t[id].(likes := r.value.likes)
  {
    if id in t && LikedFilter(t[id], user) then Err(Conflict)
    else if id in t && NotDeleted(t[id]) then Ok(Liked(t[id], user))
    else Err(NotFound)
  }

  /** `unlikePost`: on a live post, the requester leaves `likes` (whether or
      not they were in it); 404 when the post is missing or soft-deleted. */
  function Unlike(t: map<PostId, Post>, id: PostId, user: UserId): (r: Result<Post>)
    ensures r.Ok? <==> id in t && NotDeleted(t[id])
    ensures r.Err? ==> r.cause == NotFound
    ensures r.Ok? ==> user !in r.value.likes
    ensures r.Ok? ==> forall v :: v != user ==> multiset(r.value.likes)[v] == multiset(t[id].likes)[v]
    ensures r.Ok? ==> r.value.likes == Pull(t[id].likes, user)
    ensures r.Ok? ==> r.value == t[id].(likes := r.value.likes)
  {
    if id in t && NotDeleted(t[id]) then Ok(Unliked(t[id], user)) else Err(NotFound)
  }
}
