/**
  Properties of the post lifecycle that relate several handler calls: what a
  freeze hides, who can undo it, and how likes and unlikes compose. Each is
  stated over the post table, the handlers' results and PostModel.Commit,
  which is exactly how the store methods of PostService change the table.
 */
module PostLifecycle {
  import opened PostModel

  // ----- $pull -----

  /** Pulling a user who is not in the list changes nothing. */
  lemma {:induction false} PullAbsent(likes: seq<UserId>, user: UserId)
    requires user !in likes
    ensures Pull(likes, user) == likes
  {
    if likes != [] {
      PullAbsent(likes[1..], user);
      assert likes == [likes[0]] + likes[1..];
    }
  }

  /** A trailing occurrence of the user is pulled like the others. */
  lemma {:induction false} PullAppended(likes: seq<UserId>, user: UserId)
    ensures Pull(likes + [user], user) == Pull(likes, user)
  {
    if likes != [] {
      assert (likes + [user])[0] == likes[0];
      assert (likes + [user])[1..] == likes[1..] + [user];
      PullAppended(likes[1..], user);
    }
  }

  /** `$pull` is idempotent. */
  lemma {:induction false} PullIdempotent(likes: seq<UserId>, user: UserId)
    ensures Pull(Pull(likes, user), user) == Pull(likes, user)
  {
    PullAbsent(Pull(likes, user), user);
  }

  /** `$addToSet` followed by `$pull` of a user who was not there gives the
      list back exactly, order included. */
  lemma AddToSetThenPull(likes: seq<UserId>, user: UserId)
    requires user !in likes
    ensures Pull(AddToSet(likes, user), user) == likes
  {
    PullAppended(likes, user);
    PullAbsent(likes, user);
  }

  // ----- Freeze and unfreeze -----

  /** The owner rule of `freezePost` as written: a requester with role `user`
      may freeze any live post, including one somebody else created, while a
      requester with any other role may freeze only the live posts they
      created. */
  lemma FreezeOwnerRule(t: map<PostId, Post>, id: PostId, user: UserId)
    requires id in t && NotDeleted(t[id])
    ensures Freeze(t, id, user, User).Ok?
    ensures Freeze(t, id, user, Admin).Ok? <==> t[id].createdBy == user
  {
  }

  /** A frozen post is invisible to every handler that filters on live posts:
      reading, editing, freezing again, liking and unliking all answer 404. */
  lemma FrozenPostIsHidden(t: map<PostId, Post>, id: PostId, user: UserId, role: Role,
                           other: UserId, otherRole: Role, content: Option<string>,
                           uploads: seq<UploadResponse>)
    requires Freeze(t, id, user, role).Ok?
    ensures var t1 := Commit(t, id, Freeze(t, id, user, role));
      && GetPost(t1, id) == Err(NotFound)
      && Update(t1, id, other, content, uploads) == Err(NotFound)
      && Freeze(t1, id, other, otherRole) == Err(NotFound)
      && Like(t1, id, other) == Err(NotFound)
      && Unlike(t1, id, other) == Err(NotFound)
  {
  }

  /** Only the user who froze a post can unfreeze it. */
  lemma OnlyFreezerUnfreezes(t: map<PostId, Post>, id: PostId, user: UserId, role: Role, other: UserId)
    requires Freeze(t, id, user, role).Ok?
    ensures var t1 := Commit(t, id, Freeze(t, id, user, role));
      Unfreeze(t1, id, other).Ok? <==> other == user
  {
  }

  /** Freezing and then unfreezing by the same user restores the post to the
      live state it had, apart from the `updatedBy` marker, and leaves every
      other post alone. */
  lemma FreezeThenUnfreeze(t: map<PostId, Post>, id: PostId, user: UserId, role: Role)
    requires TableWellFormed(t)
    requires Freeze(t, id, user, role).Ok?
    ensures var t1 := Commit(t, id, Freeze(t, id, user, role));
      && Unfreeze(t1, id, user).Ok?
      && Commit(t1, id, Unfreeze(t1, id, user)) == t[id := t[id].(updatedBy := Some(user))]
      && GetPost(Commit(t1, id, Unfreeze(t1, id, user)), id).Ok?
  {
    assert WellFormed(t[id]);
  }

  // ----- Like and unlike -----

  /** A second like by the same user is a 409 conflict and changes nothing. */
  lemma LikeTwiceConflicts(t: map<PostId, Post>, id: PostId, user: UserId)
    requires Like(t, id, user).Ok?
    ensures var t1 := Commit(t, id, Like(t, id, user));
      && Like(t1, id, user) == Err(Conflict)
      && Commit(t1, id, Like(t1, id, user)) == t1
  {
  }

  /** Unliking a post right after liking it gives back the original table. */
  lemma LikeThenUnlike(t: map<PostId, Post>, id: PostId, user: UserId)
    requires Like(t, id, user).Ok?
    ensures var t1 := Commit(t, id, Like(t, id, user));
      && Unlike(t1, id, user) == Ok(t[id])
      && Commit(t1, id, Unlike(t1, id, user)) == t
  {
    AddToSetThenPull(t[id].likes, user);
  }

  /** `unlikePost` succeeds without a prior like and then changes nothing. */
  lemma UnlikeWithoutLike(t: map<PostId, Post>, id: PostId, user: UserId)
    requires id in t && NotDeleted(t[id]) && user !in t[id].likes
    ensures Unlike(t, id, user) == Ok(t[id])
    ensures Commit(t, id, Unlike(t, id, user)) == t
  {
    PullAbsent(t[id].likes, user);
  }

  /** A second unlike answers the same as the first and changes nothing. */
  lemma UnlikeIdempotent(t: map<PostId, Post>, id: PostId, user: UserId)
    requires Unlike(t, id, user).Ok?
    ensures var t1 := Commit(t, id, Unlike(t, id, user));
      && Unlike(t1, id, user) == Unlike(t, id, user)
      && Commit(t1, id, Unlike(t1, id, user)) == t1
  {
    PullIdempotent(t[id].likes, user);
  }

  // ----- The document invariant -----

  /** Every handler of the model keeps every stored post well formed. This
      rests on the update body holding only `content` and the uploaded
      attachments (see PostModel.Update): an update that spreads other schema
      fields of the request into the post, as the service does, can write
      `isDeleted`, `deletedBy` or `likes` and break the invariant. */
  lemma HandlersPreserveWellFormed(t: map<PostId, Post>, id: PostId, user: UserId, role: Role,
                                   content: Option<string>, uploads: seq<UploadResponse>)
    requires TableWellFormed(t)
    ensures TableWellFormed(Commit(t, id, Update(t, id, user, content, uploads)))
    ensures TableWellFormed(Commit(t, id, Freeze(t, id, user, role)))
    ensures TableWellFormed(Commit(t, id, Unfreeze(t, id, user)))
    ensures TableWellFormed(Commit(t, id, Like(t, id, user)))
    ensures TableWellFormed(Commit(t, id, Unlike(t, id, user)))
  {
  }
}
