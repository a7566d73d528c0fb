/** What the views promise across requests: the one like per user and
    event, comments without that limit, the counts a follow moves, the one
    profile each user gets, and the writes only an owner can make. */
module Properties {
  import opened Common
  import opened Models
  import opened Tables
  import opened Integrity
  import opened Validation
  import opened Permissions
  import opened Serializers
  import opened Views
  import opened Invariants

  function FavoriteOf(u: Id, e: Id): Favorite -> bool
  {
    (f: Favorite) => f.owner == u && f.event == e
  }

  /** Nothing matches while no row matches. */
  lemma {:induction false} CountNone<T>(m: map<Id, T>, p: T -> bool)
    requires forall k :: k in m ==> !p(m[k])
    ensures CountWhere(m, p) == 0
  {
    assert Where(m, p) == {};
  }

  /** A matching row makes the count positive. */
  lemma {:induction false} CountSome<T>(m: map<Id, T>, p: T -> bool, k: Id)
    requires k in m && p(m[k])
    ensures CountWhere(m, p) >= 1
  {
    assert k in Where(m, p);
  }

  /** Under a unique pair, a matching row makes the count exactly one. */
  lemma {:induction false} CountExactlyOne<T>(m: map<Id, T>, p: T -> bool, k: Id)
    requires forall a, b :: a in m && b in m && p(m[a]) && p(m[b]) ==> a == b
    requires k in m && p(m[k])
    ensures CountWhere(m, p) == 1
  {
    CountAtMostOne(m, p);
    CountSome(m, p, k);
  }

  // ------------------------------------------------------------------ likes

  /** Liking an event twice: the first request answers 201 and stores the
      like, the second answers 400 and changes nothing, so exactly one like
      of that user remains and the event's count rose by one. */
  lemma {:induction false} LikeTwice(db: Db, u: Id, e: Id)
    requires KeysBelow(db.likes, db.nextLike)
    requires e in db.events && !Liked(db.likes, u, e)
    ensures var first := PostLike(db, Authenticated(u), e);
            var second := PostLike(first.db, Authenticated(u), e);
            && first.status == CreatedNoBody
            && second == Outcome(first.db, BadRequest("You have already liked this event."))
            && CountWhere(second.db.likes, OwnLike(u, e)) == 1
            && LikesCount(second.db.likes, e) == LikesCount(db.likes, e) + 1
  {
    var first := PostLike(db, Authenticated(u), e);
    var l := Like(u, e, db.clock);
    assert db.nextLike !in db.likes;
    assert first.db.likes == db.likes[db.nextLike := l];
    assert first.db.likes[db.nextLike] == l;
    assert Liked(first.db.likes, u, e);
    CountNone(db.likes, OwnLike(u, e));
    CountInsert(db.likes, db.nextLike, l, OwnLike(u, e));
    LikesCountInsert(db.likes, db.nextLike, l, e);
  }

  /** Whatever the database held, a like request that succeeds or is
      refused as a repeat leaves the requesting user with exactly one like
      of the event. */
  lemma {:induction false} PostLikeLeavesOne(db: Db, u: Id, e: Id)
    requires KeysBelow(db.likes, db.nextLike) && LikesOk(db.likes, db.users, db.events) && u in db.users
    ensures var o := PostLike(db, Authenticated(u), e);
            o.status.CreatedNoBody? || o.status.BadRequest? ==> CountWhere(o.db.likes, OwnLike(u, e)) == 1
  {
    var o := PostLike(db, Authenticated(u), e);
    if e in db.events {
      var k: Id;
      if Liked(db.likes, u, e) {
        k :| k in db.likes && db.likes[k].owner == u && db.likes[k].event == e;
      } else {
        k := db.nextLike;
        LikesInsert(db.likes, db.users, db.events, k, Like(u, e, db.clock));
        assert o.db.likes == db.likes[k := Like(u, e, db.clock)];
      }
      assert k in o.db.likes && OwnLike(u, e)(o.db.likes[k]);
      CountExactlyOne(o.db.likes, OwnLike(u, e), k);
    }
  }

  /** Removing a like lowers its event's count by one; every other event's
      count is unchanged. */
  lemma {:induction false} DestroyLikeCount(db: Db, viewer: Viewer, id: Id, e: Id)
    requires viewer.Authenticated? && id in db.likes
    ensures var o := DestroyLike(db, viewer, id);
            && o.status == NoContent
            && LikesCount(o.db.likes, e) == LikesCount(db.likes, e) - (if db.likes[id].event == e then 1 else 0)
  {
    LikesCountRemove(db.likes, id, e);
  }

  /** Through the like list, a repeated pair is refused and the one stored
      like of that user stays the only one. */
  lemma {:induction false} CreateLikeLeavesOne(db: Db, u: Id, e: Id)
    requires KeysBelow(db.likes, db.nextLike) && LikesOk(db.likes, db.users, db.events)
    requires u in db.users && e in db.events
    ensures var o := CreateLike(db, Authenticated(u), Some(e));
            && (o.status.Created? || o.status.BadRequest?)
            && (o.status.BadRequest? <==> Liked(db.likes, u, e))
            && CountWhere(o.db.likes, OwnLike(u, e)) == 1
  {
    var o := CreateLike(db, Authenticated(u), Some(e));
    var k: Id;
    if Liked(db.likes, u, e) {
      k :| k in db.likes && db.likes[k].owner == u && db.likes[k].event == e;
    } else {
      k := db.nextLike;
      LikesInsert(db.likes, db.users, db.events, k, Like(u, e, db.clock));
      assert o.db.likes == db.likes[k := Like(u, e, db.clock)];
    }
    assert k in o.db.likes && OwnLike(u, e)(o.db.likes[k]);
    CountExactlyOne(o.db.likes, OwnLike(u, e), k);
  }

  /** The same for favorites. */
  lemma {:induction false} CreateFavoriteLeavesOne(db: Db, u: Id, e: Id)
    requires KeysBelow(db.favorites, db.nextFavorite) && FavoritesOk(db.favorites, db.users, db.events)
    requires u in db.users && e in db.events
    ensures var o := CreateFavorite(db, Authenticated(u), Some(e));
            && (o.status.Created? || o.status.BadRequest?)
            && (o.status.BadRequest? <==> Favorited(db.favorites, u, e))
            && CountWhere(o.db.favorites, FavoriteOf(u, e)) == 1
  {
    var o := CreateFavorite(db, Authenticated(u), Some(e));
    var k: Id;
    if Favorited(db.favorites, u, e) {
      k :| k in db.favorites && db.favorites[k].owner == u && db.favorites[k].event == e;
    } else {
      k := db.nextFavorite;
      FavoritesInsert(db.favorites, db.users, db.events, k, Favorite(u, e, db.clock));
      assert o.db.favorites == db.favorites[k := Favorite(u, e, db.clock)];
    }
    assert k in o.db.favorites && FavoriteOf(u, e)(o.db.favorites[k]);
    CountExactlyOne(o.db.favorites, FavoriteOf(u, e), k);
  }

  // --------------------------------------------------------------- comments

  /** The same valid comment posted twice is stored twice: comments carry no
      uniqueness constraint. */
  lemma {:induction false} CommentTwice(db: Db, u: Id, input: CommentInput)
    requires KeysBelow(db.comments, db.nextComment)
    requires CommentErrors(input, false, db.events.Keys) == {}
    ensures var first := CreateComment(db, Authenticated(u), input);
            var second := CreateComment(first.db, Authenticated(u), input);
            && first.status == Created(db.nextComment) && second.status == Created(db.nextComment + 1)
            && |second.db.comments| == |db.comments| + 2
            && CommentsCount(second.db.comments, input.event.value) == CommentsCount(db.comments, input.event.value) + 2
  {
    var first := CreateComment(db, Authenticated(u), input);
    var e := input.event.value;
    var c := Comment(u, e, input.content.value, db.clock, db.clock);
    var c' := Comment(u, e, input.content.value, db.clock + 1, db.clock + 1);
    assert db.nextComment !in db.comments;
    assert first.db.comments == db.comments[db.nextComment := c];
    assert first.db.events == db.events;
    assert db.nextComment + 1 !in first.db.comments;
    var second := CreateComment(first.db, Authenticated(u), input);
    assert second.db.comments == first.db.comments[db.nextComment + 1 := c'];
    CommentsCountInsert(db.comments, db.nextComment, c, e);
    CommentsCountInsert(first.db.comments, db.nextComment + 1, c', e);
  }

  // ---------------------------------------------------------------- follows

  /** A new follow of `v` by `u` raises `v`'s followers and `u`'s following
      by one. */
  lemma {:induction false} FollowMovesCounts(db: Db, u: Id, v: Id)
    requires KeysBelow(db.follows, db.nextFollow)
    requires v in db.users && !Following(db.follows, u, v)
    ensures var o := CreateFollow(db, Authenticated(u), v);
            && o.status == Created(db.nextFollow)
            && FollowersCount(o.db.follows, v) == FollowersCount(db.follows, v) + 1
            && FollowingCount(o.db.follows, u) == FollowingCount(db.follows, u) + 1
  {
    var f := Follower(u, v, db.clock);
    assert db.nextFollow !in db.follows;
    FollowCountsInsert(db.follows, db.nextFollow, f, v);
    FollowCountsInsert(db.follows, db.nextFollow, f, u);
  }

  /** The relation is directed: after `u` follows `v`, `u` follows `v`, and
      whether `v` follows `u` is as before unless the two are the same user. */
  lemma {:induction false} FollowIsDirected(db: Db, u: Id, v: Id)
    requires v in db.users && !Following(db.follows, u, v)
    requires db.nextFollow !in db.follows
    ensures var o := CreateFollow(db, Authenticated(u), v);
            && Following(o.db.follows, u, v)
            && (u != v ==> (Following(o.db.follows, v, u) <==> Following(db.follows, v, u)))
  {
    var follows' := db.follows[db.nextFollow := Follower(u, v, db.clock)];
    assert CreateFollow(db, Authenticated(u), v).db.follows == follows';
    assert follows'[db.nextFollow].owner == u && follows'[db.nextFollow].followed == v;
    if u != v {
      if Following(follows', v, u) {
        var k :| k in follows' && follows'[k].owner == v && follows'[k].followed == u;
        assert k in db.follows && db.follows[k] == follows'[k];
      }
      if Following(db.follows, v, u) {
        var k :| k in db.follows && db.follows[k].owner == v && db.follows[k].followed == u;
        assert k in follows' && follows'[k] == db.follows[k];
      }
    }
  }

  /** Nothing refuses following oneself. */
  lemma {:induction false} SelfFollowAccepted(db: Db, u: Id)
    requires KeysBelow(db.follows, db.nextFollow)
    requires u in db.users && !Following(db.follows, u, u)
    ensures var o := CreateFollow(db, Authenticated(u), u);
            && o.status.Created?
            && FollowersCount(o.db.follows, u) == FollowersCount(db.follows, u) + 1
  {
    FollowMovesCounts(db, u, u);
  }

  // ------------------------------------------------------------------ users

  /** A new user comes with exactly one profile, its own, and the profile
      table grows by one row. */
  lemma {:induction false} NewUserGetsOneProfile(db: Db, username: string)
    requires DbOk(db) && !UsernameTaken(db.users, username)
    ensures var o := CreateUser(db, username);
            && o.status == Created(db.nextUser)
            && CountWhere(o.db.profiles, ProfileOwnedBy(db.nextUser)) == 1
            && |o.db.profiles| == |db.profiles| + 1
  {
    var o := CreateUser(db, username);
    var uid := db.nextUser;
    var p := NewProfile(uid, db.clock);
    assert db.nextProfile !in db.profiles;
    assert o.db.profiles == db.profiles[db.nextProfile := p];
    forall k | k in db.profiles ensures !ProfileOwnedBy(uid)(db.profiles[k]) {
      assert db.profiles[k].owner in db.users;
    }
    CountNone(db.profiles, ProfileOwnedBy(uid));
    CountInsert(db.profiles, db.nextProfile, p, ProfileOwnedBy(uid));
  }

  /** Saving an existing user again makes no profile: every user keeps the
      one profile the hook gave them. */
  lemma {:induction false} ResaveMakesNoProfile(db: Db, uid: Id, username: string, u: Id)
    requires DbOk(db) && u in db.users
    ensures CountWhere(SaveUser(db, uid, username).db.profiles, ProfileOwnedBy(u)) == 1
  {
    var p :| p in db.profiles && db.profiles[p].owner == u;
    CountExactlyOne(db.profiles, ProfileOwnedBy(u), p);
  }

  // -------------------------------------------------------------- ownership

  /** Only an event's owner changes it: anyone else is refused and the
      database is left as it was. */
  lemma {:induction false} OnlyOwnerWritesEvent(db: Db, viewer: Viewer, id: Id, input: EventInput, partial: bool)
    requires id in db.events && viewer != Authenticated(db.events[id].owner)
    ensures UpdateEvent(db, viewer, id, input, partial) == Outcome(db, Refusal(viewer))
    ensures DeleteEvent(db, viewer, id) == Outcome(db, Refusal(viewer))
    ensures viewer.Authenticated? ==> Refusal(viewer) == Forbidden
  {
  }

  /** Only a profile's owner changes it. */
  lemma {:induction false} OnlyOwnerWritesProfile(db: Db, viewer: Viewer, id: Id, input: ProfileInput)
    requires id in db.profiles && viewer != Authenticated(db.profiles[id].owner)
    ensures UpdateProfile(db, viewer, id, input) == Outcome(db, Refusal(viewer))
    ensures viewer.Authenticated? ==> Refusal(viewer) == Forbidden
  {
  }

  /** Only a like's owner removes it through the like detail view. */
  lemma {:induction false} OnlyOwnerDeletesLike(db: Db, viewer: Viewer, id: Id)
    requires id in db.likes && viewer != Authenticated(db.likes[id].owner)
    ensures DeleteLike(db, viewer, id) == Outcome(db, Refusal(viewer))
    ensures viewer.Authenticated? ==> Refusal(viewer) == Forbidden
  {
  }

  /** Only a favorite's owner removes it. */
  lemma {:induction false} OnlyOwnerDeletesFavorite(db: Db, viewer: Viewer, id: Id)
    requires id in db.favorites && viewer != Authenticated(db.favorites[id].owner)
    ensures DeleteFavorite(db, viewer, id) == Outcome(db, Refusal(viewer))
    ensures viewer.Authenticated? ==> Refusal(viewer) == Forbidden
  {
  }

  /** Only a comment's owner edits or removes it, whatever the input. */
  lemma {:induction false} OnlyOwnerWritesComment(db: Db, viewer: Viewer, id: Id, input: CommentInput, partial: bool)
    requires id in db.comments && viewer != Authenticated(db.comments[id].owner)
    ensures UpdateComment(db, viewer, id, input, partial) == Outcome(db, Refusal(viewer))
    ensures DeleteComment(db, viewer, id) == Outcome(db, Refusal(viewer))
    ensures viewer.Authenticated? ==> Refusal(viewer) == Forbidden
  {
  }

  /** Only the follower unfollows: the followed user cannot remove the row. */
  lemma {:induction false} OnlyOwnerDeletesFollow(db: Db, viewer: Viewer, id: Id)
    requires id in db.follows && viewer != Authenticated(db.follows[id].owner)
    ensures DeleteFollow(db, viewer, id) == Outcome(db, Refusal(viewer))
    ensures viewer.Authenticated? ==> Refusal(viewer) == Forbidden
  {
  }

  /** The owner's removal answers 204 and takes exactly that row away,
      for each of the four owned relations. */
  lemma {:induction false} OwnerDeletesOwnRow(db: Db, id: Id)
    ensures id in db.likes ==>
      var o := DeleteLike(db, Authenticated(db.likes[id].owner), id);
      o.status == NoContent && o.db == db.(likes := db.likes - {id})
    ensures id in db.favorites ==>
      var o := DeleteFavorite(db, Authenticated(db.favorites[id].owner), id);
      o.status == NoContent && o.db == db.(favorites := db.favorites - {id})
    ensures id in db.comments ==>
      var o := DeleteComment(db, Authenticated(db.comments[id].owner), id);
      o.status == NoContent && o.db == db.(comments := db.comments - {id})
    ensures id in db.follows ==>
      var o := DeleteFollow(db, Authenticated(db.follows[id].owner), id);
      o.status == NoContent && o.db == db.(follows := db.follows - {id})
  {
  }

  /** An accepted comment edit keeps the row's owner and `created_at`,
      stamps `updated_at` with the current time, stores the supplied fields,
      and leaves every other comment and every other table as it was. */
  lemma {:induction false} OwnerEditsComment(db: Db, id: Id, input: CommentInput, partial: bool)
    requires id in db.comments
    ensures var o := UpdateComment(db, Authenticated(db.comments[id].owner), id, input, partial);
            o.status == Ok <==> CommentErrors(input, partial, db.events.Keys) == {}
    ensures var o := UpdateComment(db, Authenticated(db.comments[id].owner), id, input, partial);
            var c := db.comments[id];
            o.status == Ok ==>
              && id in o.db.comments && o.db.comments.Keys == db.comments.Keys
              && o.db.comments[id].owner == c.owner && o.db.comments[id].createdAt == c.createdAt
              && o.db.comments[id].updatedAt == db.clock && o.db.clock == db.clock + 1
              && o.db.comments[id].event == Pick(input.event, c.event)
              && o.db.comments[id].content == Pick(input.content, c.content)
              && (forall k :: k in db.comments && k != id ==> o.db.comments[k] == db.comments[k])
              && o.db.(comments := db.comments, clock := db.clock) == db
  {
  }

  /** The owner's patch of name and bio is stored; the avatar, the owner
      and every other profile stay as they were. */
  lemma {:induction false} OwnerPatchesProfile(db: Db, id: Id, name: string, bio: string)
    requires id in db.profiles && FitsCharField(name, MaxCharLength)
    ensures var o := UpdateProfile(db, Authenticated(db.profiles[id].owner), id, ProfileInput(Some(name), Some(bio), None));
            && o.status == Ok
            && id in o.db.profiles && o.db.profiles.Keys == db.profiles.Keys
            && o.db.profiles[id].name == name && o.db.profiles[id].bio == bio
            && o.db.profiles[id].avatar == db.profiles[id].avatar
            && o.db.profiles[id].owner == db.profiles[id].owner
            && (forall k :: k in db.profiles && k != id ==> o.db.profiles[k] == db.profiles[k])
  {
    var input := ProfileInput(Some(name), Some(bio), None);
    assert ProfileErrors(input) == {};
  }

  /** The owner's patch of an event's title is stored and the rest kept. */
  lemma {:induction false} OwnerPatchesEventTitle(db: Db, id: Id, title: string)
    requires id in db.events && TextOk(title, MaxCharLength)
    ensures var input := EventInput(Some(title), None, None, None, None, None, None);
            var o := UpdateEvent(db, Authenticated(db.events[id].owner), id, input, true);
            && o.status == Ok
            && id in o.db.events && o.db.events[id].title == title
            && o.db.events[id].date == db.events[id].date && o.db.events[id].price == db.events[id].price
            && o.db.events[id].owner == db.events[id].owner
  {
    var input := EventInput(Some(title), None, None, None, None, None, None);
    assert EventErrors(input, true) == {};
  }

  // --------------------------------------------------------------- requests

  /** A user-table write that fails leaves every table, every id counter
      and the clock as they were. */
  lemma {:induction false} FailedUserWriteChangesNothing(db: Db, username: string, uid: Id)
    ensures !Succeeded(CreateUser(db, username).status) ==> CreateUser(db, username).db == db
    ensures !Succeeded(SaveUser(db, uid, username).status) ==> SaveUser(db, uid, username).db == db
    ensures !Succeeded(DeleteUser(db, uid).status) ==> DeleteUser(db, uid).db == db
  {
  }

  /** An event request answered without a 2xx changes nothing. */
  lemma {:induction false} FailedEventRequestChangesNothing(db: Db, viewer: Viewer, id: Id, input: EventInput,
                                                            partial: bool)
    ensures !Succeeded(CreateEvent(db, viewer, input).status) ==> CreateEvent(db, viewer, input).db == db
    ensures !Succeeded(UpdateEvent(db, viewer, id, input, partial).status) ==>
              UpdateEvent(db, viewer, id, input, partial).db == db
    ensures !Succeeded(DeleteEvent(db, viewer, id).status) ==> DeleteEvent(db, viewer, id).db == db
  {
  }

  /** A like or favorite request answered without a 2xx changes nothing. */
  lemma {:induction false} FailedLikeRequestChangesNothing(db: Db, viewer: Viewer, id: Id, event: Option<Id>)
    ensures !Succeeded(PostLike(db, viewer, id).status) ==> PostLike(db, viewer, id).db == db
    ensures !Succeeded(DestroyLike(db, viewer, id).status) ==> DestroyLike(db, viewer, id).db == db
    ensures !Succeeded(CreateLike(db, viewer, event).status) ==> CreateLike(db, viewer, event).db == db
    ensures !Succeeded(DeleteLike(db, viewer, id).status) ==> DeleteLike(db, viewer, id).db == db
    ensures !Succeeded(CreateFavorite(db, viewer, event).status) ==> CreateFavorite(db, viewer, event).db == db
    ensures !Succeeded(DeleteFavorite(db, viewer, id).status) ==> DeleteFavorite(db, viewer, id).db == db
  {
  }

  /** A comment, follow or profile request answered without a 2xx changes nothing. */
  lemma {:induction false} FailedSocialRequestChangesNothing(db: Db, viewer: Viewer, id: Id, followed: Id,
                                                             commentInput: CommentInput, profileInput: ProfileInput,
                                                             partial: bool)
    ensures !Succeeded(CreateComment(db, viewer, commentInput).status) ==> CreateComment(db, viewer, commentInput).db == db
    ensures !Succeeded(UpdateComment(db, viewer, id, commentInput, partial).status) ==>
              UpdateComment(db, viewer, id, commentInput, partial).db == db
    ensures !Succeeded(DeleteComment(db, viewer, id).status) ==> DeleteComment(db, viewer, id).db == db
    ensures !Succeeded(CreateFollow(db, viewer, followed).status) ==> CreateFollow(db, viewer, followed).db == db
    ensures !Succeeded(DeleteFollow(db, viewer, id).status) ==> DeleteFollow(db, viewer, id).db == db
    ensures !Succeeded(UpdateProfile(db, viewer, id, profileInput).status) ==>
              UpdateProfile(db, viewer, id, profileInput).db == db
  {
  }

  /** A request without a login writes nothing: the list views answer that
      it is not authenticated, and so do the detail views once the row is
      found. */
  lemma {:induction false} AnonymousWritesNothing(db: Db, id: Id, event: Option<Id>, eventInput: EventInput,
                                                  commentInput: CommentInput, profileInput: ProfileInput, partial: bool)
    ensures CreateEvent(db, Anonymous, eventInput) == Outcome(db, NotAuthenticated)
    ensures PostLike(db, Anonymous, id) == Outcome(db, NotAuthenticated)
    ensures DestroyLike(db, Anonymous, id) == Outcome(db, NotAuthenticated)
    ensures CreateLike(db, Anonymous, event) == Outcome(db, NotAuthenticated)
    ensures CreateFavorite(db, Anonymous, event) == Outcome(db, NotAuthenticated)
    ensures CreateComment(db, Anonymous, commentInput) == Outcome(db, NotAuthenticated)
    ensures CreateFollow(db, Anonymous, id) == Outcome(db, NotAuthenticated)
    ensures id in db.events ==> UpdateEvent(db, Anonymous, id, eventInput, partial) == Outcome(db, NotAuthenticated)
    ensures id in db.events ==> DeleteEvent(db, Anonymous, id) == Outcome(db, NotAuthenticated)
    ensures id in db.likes ==> DeleteLike(db, Anonymous, id) == Outcome(db, NotAuthenticated)
    ensures id in db.favorites ==> DeleteFavorite(db, Anonymous, id) == Outcome(db, NotAuthenticated)
    ensures id in db.comments ==> UpdateComment(db, Anonymous, id, commentInput, partial) == Outcome(db, NotAuthenticated)
    ensures id in db.comments ==> DeleteComment(db, Anonymous, id) == Outcome(db, NotAuthenticated)
    ensures id in db.follows ==> DeleteFollow(db, Anonymous, id) == Outcome(db, NotAuthenticated)
    ensures id in db.profiles ==> UpdateProfile(db, Anonymous, id, profileInput) == Outcome(db, NotAuthenticated)
  {
  }

  /** Liking an event that does not exist answers 404 and makes no like. */
  lemma {:induction false} LikeMissingEvent(db: Db, u: Id, e: Id)
    requires e !in db.events
    ensures PostLike(db, Authenticated(u), e) == Outcome(db, NotFound)
    ensures CreateLike(db, Authenticated(u), Some(e)) == Outcome(db, InvalidFields({"event"}))
  {
  }
}
