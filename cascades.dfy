/** What `on_delete=models.CASCADE` does when an event or a user row is
    deleted, and the proofs that it leaves no row pointing at a deleted one. */
module Cascades {
  import opened Common
  import opened Models
  import opened Tables
  import opened Integrity
  import opened Serializers

  /** Deleting event `e` also deletes its likes (likes/models.py), comments
      (comments/models.py) and favorites (favorites/models.py). */
  function DeleteEventRows(db: Db, e: Id): Db
  {
    db.(events := db.events - {e},
        likes := LikesOffEvent(db.likes, e),
        comments := CommentsOffEvent(db.comments, e),
        favorites := FavoritesOffEvent(db.favorites, e))
  }

  /** The rows of each relation table that do not point at event `e`. */
  function LikesOffEvent(likes: map<Id, Like>, e: Id): map<Id, Like>
  {
    map k | k in likes && likes[k].event != e :: likes[k]
  }

  function CommentsOffEvent(comments: map<Id, Comment>, e: Id): map<Id, Comment>
  {
    map k | k in comments && comments[k].event != e :: comments[k]
  }

  function FavoritesOffEvent(favorites: map<Id, Favorite>, e: Id): map<Id, Favorite>
  {
    map k | k in favorites && favorites[k].event != e :: favorites[k]
  }

  /** Exactly the event and the rows pointing at it are gone; everything else
      is kept unchanged. */
  lemma {:induction false} DeleteEventRowsExactly(db: Db, e: Id, r: Db)
    requires r == DeleteEventRows(db, e)
    ensures && r.events == db.events - {e}
            && (forall k :: k in r.likes <==> k in db.likes && db.likes[k].event != e)
            && (forall k :: k in r.comments <==> k in db.comments && db.comments[k].event != e)
            && (forall k :: k in r.favorites <==> k in db.favorites && db.favorites[k].event != e)
            && (forall k :: k in r.likes ==> r.likes[k] == db.likes[k])
            && (forall k :: k in r.comments ==> r.comments[k] == db.comments[k])
            && (forall k :: k in r.favorites ==> r.favorites[k] == db.favorites[k])
    ensures && r.users == db.users && r.profiles == db.profiles && r.follows == db.follows
            && r.nextUser == db.nextUser && r.nextProfile == db.nextProfile && r.nextEvent == db.nextEvent
            && r.nextLike == db.nextLike && r.nextComment == db.nextComment
            && r.nextFavorite == db.nextFavorite && r.nextFollow == db.nextFollow && r.clock == db.clock
  {
  }

  /** A table keeps its constraints when rows are only taken away from it and
      the rows left still find what they reference. */
  lemma {:induction false} LikesNarrowed(likes: map<Id, Like>, likes': map<Id, Like>, users: map<Id, User>,
                                         events: map<Id, Event>, users': map<Id, User>, events': map<Id, Event>)
    requires LikesOk(likes, users, events)
    requires forall k :: k in likes' ==> k in likes && likes'[k] == likes[k]
    requires forall k :: k in likes' ==> likes'[k].owner in users' && likes'[k].event in events'
    ensures LikesOk(likes', users', events')
  {
  }

  lemma {:induction false} CommentsNarrowed(comments: map<Id, Comment>, comments': map<Id, Comment>,
                                            users: map<Id, User>, events: map<Id, Event>,
                                            users': map<Id, User>, events': map<Id, Event>, clock: nat)
    requires CommentsOk(comments, users, events, clock)
    requires forall k :: k in comments' ==> k in comments && comments'[k] == comments[k]
    requires forall k :: k in comments' ==> comments'[k].owner in users' && comments'[k].event in events'
    ensures CommentsOk(comments', users', events', clock)
  {
  }

  lemma {:induction false} FavoritesNarrowed(favorites: map<Id, Favorite>, favorites': map<Id, Favorite>,
                                             users: map<Id, User>, events: map<Id, Event>,
                                             users': map<Id, User>, events': map<Id, Event>)
    requires FavoritesOk(favorites, users, events)
    requires forall k :: k in favorites' ==> k in favorites && favorites'[k] == favorites[k]
    requires forall k :: k in favorites' ==> favorites'[k].owner in users' && favorites'[k].event in events'
    ensures FavoritesOk(favorites', users', events')
  {
  }

  /** The tables the event cascade touches keep their keys below the counters. */
  lemma {:induction false} DeleteEventKeys(db: Db, e: Id, r: Db)
    requires r == DeleteEventRows(db, e)
    requires KeysBelow(db.events, db.nextEvent) && KeysBelow(db.likes, db.nextLike)
    requires KeysBelow(db.comments, db.nextComment) && KeysBelow(db.favorites, db.nextFavorite)
    ensures KeysBelow(r.events, r.nextEvent) && KeysBelow(r.likes, r.nextLike)
    ensures KeysBelow(r.comments, r.nextComment) && KeysBelow(r.favorites, r.nextFavorite)
  {
    KeysNarrowed(db.events, r.events, db.nextEvent);
    KeysNarrowed(db.likes, r.likes, db.nextLike);
    KeysNarrowed(db.comments, r.comments, db.nextComment);
    KeysNarrowed(db.favorites, r.favorites, db.nextFavorite);
  }

  /** The rows the event cascade leaves reference only rows that are left:
      events and likes, */
  lemma {:induction false} DeleteEventLikes(db: Db, e: Id, r: Db)
    requires r == DeleteEventRows(db, e)
    requires EventsOk(db.events, db.users, db.clock) && LikesOk(db.likes, db.users, db.events)
    ensures EventsOk(r.events, r.users, r.clock) && LikesOk(r.likes, r.users, r.events)
  {
    EventsNarrowed(db.events, r.events, db.users, r.users, db.clock);
    LikesNarrowed(db.likes, r.likes, db.users, db.events, r.users, r.events);
  }

  /** comments and favorites. */
  lemma {:induction false} DeleteEventComments(db: Db, e: Id, r: Db)
    requires r == DeleteEventRows(db, e)
    requires CommentsOk(db.comments, db.users, db.events, db.clock) && FavoritesOk(db.favorites, db.users, db.events)
    ensures CommentsOk(r.comments, r.users, r.events, r.clock) && FavoritesOk(r.favorites, r.users, r.events)
  {
    CommentsNarrowed(db.comments, r.comments, db.users, db.events, r.users, r.events, r.clock);
    FavoritesNarrowed(db.favorites, r.favorites, db.users, db.events, r.users, r.events);
  }

  /** After the cascade no like, comment or favorite references a missing
      event, and every other constraint still holds. */
  lemma {:induction false} DeleteEventKeepsIntegrity(db: Db, e: Id)
    requires DbOk(db)
    ensures DbOk(DeleteEventRows(db, e))
  {
    DeleteEventKeys(db, e, DeleteEventRows(db, e));
    DeleteEventLikes(db, e, DeleteEventRows(db, e));
    DeleteEventComments(db, e, DeleteEventRows(db, e));
  }

  /** The deleted event's counts drop to zero; every other event keeps its counts. */
  lemma {:induction false} DeleteEventCounts(db: Db, e: Id, other: Id)
    requires other != e
    ensures LikesCount(DeleteEventRows(db, e).likes, e) == 0
    ensures CommentsCount(DeleteEventRows(db, e).comments, e) == 0
    ensures LikesCount(DeleteEventRows(db, e).likes, other) == LikesCount(db.likes, other)
    ensures CommentsCount(DeleteEventRows(db, e).comments, other) == CommentsCount(db.comments, other)
  {
    var r := DeleteEventRows(db, e);
    assert Where(r.likes, LikeOn(e)) == {};
    assert Where(r.comments, CommentOn(e)) == {};
    assert Where(r.likes, LikeOn(other)) == Where(db.likes, LikeOn(other));
    assert Where(r.comments, CommentOn(other)) == Where(db.comments, CommentOn(other));
  }

  /** The events that survive deleting user `u`. */
  function EventsWithoutOwner(events: map<Id, Event>, u: Id): map<Id, Event>
  {
    map k | k in events && events[k].owner != u :: events[k]
  }

  /** Deleting user `u` deletes their profile (profiles/models.py), their
      events (events/models.py) with those events' likes, comments and
      favorites, their own likes, comments and favorites, and every follow
      in which they are either side (followers/models.py). */
  function DeleteUserRows(db: Db, u: Id): Db
  {
    var events := EventsWithoutOwner(db.events, u);
    db.(users := db.users - {u},
        profiles := ProfilesWithoutOwner(db.profiles, u),
        events := events,
        likes := LikesSurviving(db.likes, u, events),
        comments := CommentsSurviving(db.comments, u, events),
        favorites := FavoritesSurviving(db.favorites, u, events),
        follows := FollowsWithout(db.follows, u))
  }

  /** Exactly the rows that reference `u`, directly or through one of `u`'s
      events, are gone; every other row is kept unchanged, and so are the
      counters. */
  lemma {:induction false} DeleteUserRowsExactly(db: Db, u: Id, r: Db)
    requires r == DeleteUserRows(db, u)
    ensures && r.users == db.users - {u}
            && (forall k :: k in r.events <==> k in db.events && db.events[k].owner != u)
            && (forall k :: k in r.profiles <==> k in db.profiles && db.profiles[k].owner != u)
            && (forall k :: k in r.likes <==> k in db.likes && db.likes[k].owner != u && db.likes[k].event in r.events)
            && (forall k :: k in r.comments <==>
                  k in db.comments && db.comments[k].owner != u && db.comments[k].event in r.events)
            && (forall k :: k in r.favorites <==>
                  k in db.favorites && db.favorites[k].owner != u && db.favorites[k].event in r.events)
            && (forall k :: k in r.follows <==> k in db.follows && db.follows[k].owner != u && db.follows[k].followed != u)
    ensures && (forall k :: k in r.events ==> r.events[k] == db.events[k])
            && (forall k :: k in r.profiles ==> r.profiles[k] == db.profiles[k])
            && (forall k :: k in r.likes ==> r.likes[k] == db.likes[k])
            && (forall k :: k in r.comments ==> r.comments[k] == db.comments[k])
            && (forall k :: k in r.favorites ==> r.favorites[k] == db.favorites[k])
            && (forall k :: k in r.follows ==> r.follows[k] == db.follows[k])
    ensures && r.nextUser == db.nextUser && r.nextProfile == db.nextProfile && r.nextEvent == db.nextEvent
            && r.nextLike == db.nextLike && r.nextComment == db.nextComment
            && r.nextFavorite == db.nextFavorite && r.nextFollow == db.nextFollow && r.clock == db.clock
  {
  }

  function ProfilesWithoutOwner(profiles: map<Id, Profile>, u: Id): map<Id, Profile>
  {
    map k | k in profiles && profiles[k].owner != u :: profiles[k]
  }

  /** The rows of a relation table that user `u` did not own and whose event
      is still in `events`. */
  function LikesSurviving(likes: map<Id, Like>, u: Id, events: map<Id, Event>): map<Id, Like>
  {
    map k | k in likes && likes[k].owner != u && likes[k].event in events :: likes[k]
  }

  function CommentsSurviving(comments: map<Id, Comment>, u: Id, events: map<Id, Event>): map<Id, Comment>
  {
    map k | k in comments && comments[k].owner != u && comments[k].event in events :: comments[k]
  }

  function FavoritesSurviving(favorites: map<Id, Favorite>, u: Id, events: map<Id, Event>): map<Id, Favorite>
  {
    map k | k in favorites && favorites[k].owner != u && favorites[k].event in events :: favorites[k]
  }

  /** The follows in which `u` is neither side. */
  function FollowsWithout(follows: map<Id, Follower>, u: Id): map<Id, Follower>
  {
    map k | k in follows && follows[k].owner != u && follows[k].followed != u :: follows[k]
  }

  lemma {:induction false} ProfilesNarrowed(profiles: map<Id, Profile>, profiles': map<Id, Profile>,
                                            users: map<Id, User>, users': map<Id, User>, clock: nat)
    requires ProfilesOk(profiles, users, clock)
    requires forall k :: k in profiles' ==> k in profiles && profiles'[k] == profiles[k]
    requires forall k :: k in profiles' ==> profiles'[k].owner in users'
    requires forall v :: v in users' ==> v in users
    requires forall k :: k in profiles && profiles[k].owner in users' ==> k in profiles'
    ensures ProfilesOk(profiles', users', clock)
  {
    forall v | v in users'
      ensures exists p :: p in profiles' && profiles'[p].owner == v
    {
      var p :| p in profiles && profiles[p].owner == v;
      assert p in profiles';
    }
  }

  lemma {:induction false} FollowsNarrowed(follows: map<Id, Follower>, follows': map<Id, Follower>,
                                           users: map<Id, User>, users': map<Id, User>)
    requires FollowsOk(follows, users)
    requires forall k :: k in follows' ==> k in follows && follows'[k] == follows[k]
    requires forall k :: k in follows' ==> follows'[k].owner in users' && follows'[k].followed in users'
    ensures FollowsOk(follows', users')
  {
  }

  lemma {:induction false} EventsNarrowed(events: map<Id, Event>, events': map<Id, Event>,
                                          users: map<Id, User>, users': map<Id, User>, clock: nat)
    requires EventsOk(events, users, clock)
    requires forall k :: k in events' ==> k in events && events'[k] == events[k]
    requires forall k :: k in events' ==> events'[k].owner in users'
    ensures EventsOk(events', users', clock)
  {
  }

  lemma {:induction false} KeysNarrowed<T>(m: map<Id, T>, m': map<Id, T>, next: Id)
    requires KeysBelow(m, next) && m'.Keys <= m.Keys
    ensures KeysBelow(m', next)
  {
  }

  /** The keys left after deleting a user stay below the counters. */
  lemma {:induction false} DeleteUserKeys(db: Db, u: Id, r: Db)
    requires r == DeleteUserRows(db, u)
    requires KeysBelow(db.users, db.nextUser) && KeysBelow(db.profiles, db.nextProfile)
    requires KeysBelow(db.events, db.nextEvent) && KeysBelow(db.likes, db.nextLike)
    requires KeysBelow(db.comments, db.nextComment) && KeysBelow(db.favorites, db.nextFavorite)
    requires KeysBelow(db.follows, db.nextFollow) && UsernamesUnique(db.users)
    ensures KeysBelow(r.users, r.nextUser) && KeysBelow(r.profiles, r.nextProfile)
    ensures KeysBelow(r.events, r.nextEvent) && KeysBelow(r.likes, r.nextLike)
    ensures KeysBelow(r.comments, r.nextComment) && KeysBelow(r.favorites, r.nextFavorite)
    ensures KeysBelow(r.follows, r.nextFollow) && UsernamesUnique(r.users)
  {
    KeysNarrowed(db.users, r.users, db.nextUser);
    KeysNarrowed(db.profiles, r.profiles, db.nextProfile);
    KeysNarrowed(db.events, r.events, db.nextEvent);
    KeysNarrowed(db.likes, r.likes, db.nextLike);
    KeysNarrowed(db.comments, r.comments, db.nextComment);
    KeysNarrowed(db.favorites, r.favorites, db.nextFavorite);
    KeysNarrowed(db.follows, r.follows, db.nextFollow);
  }

  /** Every row left after deleting a user references rows that are left:
      profiles, one per remaining user, */
  lemma {:induction false} DeleteUserProfiles(db: Db, u: Id, r: Db)
    requires r == DeleteUserRows(db, u)
    requires ProfilesOk(db.profiles, db.users, db.clock)
    ensures ProfilesOk(r.profiles, r.users, r.clock)
  {
    ProfilesNarrowed(db.profiles, r.profiles, db.users, r.users, db.clock);
  }

  /** events, */
  lemma {:induction false} DeleteUserEvents(db: Db, u: Id, r: Db)
    requires r == DeleteUserRows(db, u)
    requires EventsOk(db.events, db.users, db.clock)
    ensures EventsOk(r.events, r.users, r.clock)
  {
    EventsNarrowed(db.events, r.events, db.users, r.users, db.clock);
  }

  /** likes and favorites, which go with either their owner or their event, */
  lemma {:induction false} DeleteUserRelations(db: Db, u: Id, r: Db)
    requires r == DeleteUserRows(db, u)
    requires LikesOk(db.likes, db.users, db.events) && FavoritesOk(db.favorites, db.users, db.events)
    ensures LikesOk(r.likes, r.users, r.events) && FavoritesOk(r.favorites, r.users, r.events)
  {
    LikesNarrowed(db.likes, r.likes, db.users, db.events, r.users, r.events);
    FavoritesNarrowed(db.favorites, r.favorites, db.users, db.events, r.users, r.events);
  }

  /** and comments and follows. */
  lemma {:induction false} DeleteUserCommentsAndFollows(db: Db, u: Id, r: Db)
    requires r == DeleteUserRows(db, u)
    requires CommentsOk(db.comments, db.users, db.events, db.clock) && FollowsOk(db.follows, db.users)
    ensures CommentsOk(r.comments, r.users, r.events, r.clock) && FollowsOk(r.follows, r.users)
  {
    CommentsNarrowed(db.comments, r.comments, db.users, db.events, r.users, r.events, r.clock);
    FollowsNarrowed(db.follows, r.follows, db.users, r.users);
  }

  /** After deleting a user nothing refers to them, directly or through a
      deleted event, and every other constraint still holds. */
  lemma {:induction false} DeleteUserKeepsIntegrity(db: Db, u: Id)
    requires DbOk(db)
    ensures DbOk(DeleteUserRows(db, u))
  {
    DeleteUserKeys(db, u, DeleteUserRows(db, u));
    DeleteUserProfiles(db, u, DeleteUserRows(db, u));
    DeleteUserEvents(db, u, DeleteUserRows(db, u));
    DeleteUserRelations(db, u, DeleteUserRows(db, u));
    DeleteUserCommentsAndFollows(db, u, DeleteUserRows(db, u));
  }

  /** Once deleted, a user has no followers and follows nobody: every follow
      on either side went with them. */
  lemma {:induction false} DeleteUserFollowCounts(db: Db, u: Id)
    ensures FollowersCount(DeleteUserRows(db, u).follows, u) == 0
    ensures FollowingCount(DeleteUserRows(db, u).follows, u) == 0
  {
    var r := DeleteUserRows(db, u);
    assert Where(r.follows, FollowOf(u)) == {};
    assert Where(r.follows, FollowBy(u)) == {};
  }

  // ----------------------------------------------------- one profile per user

  /** A one-to-one correspondence between profile keys `ps` and user keys `us`
      through the owner column makes the two sets equally large. */
  lemma {:induction false} OwnerBijection(profiles: map<Id, Profile>, ps: set<Id>, us: set<Id>)
    requires forall p :: p in ps ==> p in profiles && profiles[p].owner in us
    requires forall p, q :: p in ps && q in ps && profiles[p].owner == profiles[q].owner ==> p == q
    requires forall u :: u in us ==> exists p :: p in ps && profiles[p].owner == u
    ensures |ps| == |us|
    decreases ps
  {
    if ps == {} {
      assert us == {};
    } else {
      var p :| p in ps;
      var o := profiles[p].owner;
      var ps', us' := ps - {p}, us - {o};
      forall v | v in us' ensures exists q :: q in ps' && profiles[q].owner == v {
        var q :| q in ps && profiles[q].owner == v;
        assert q != p;
      }
      OwnerBijection(profiles, ps', us');
    }
  }

  /** Every user has exactly one profile, so the profile list is as long as
      the user table (profiles/tests.py: two users, two profiles). */
  lemma {:induction false} ProfilesMatchUsers(db: Db)
    requires DbOk(db)
    ensures |db.profiles| == |db.users|
  {
    OwnerBijection(db.profiles, db.profiles.Keys, db.users.Keys);
    assert |db.profiles| == |db.profiles.Keys|;
    assert |db.users| == |db.users.Keys|;
  }

  /** Each user's profile is the only one they own. */
  lemma {:induction false} ProfileOfEveryUser(db: Db, u: Id)
    requires DbOk(db) && u in db.users
    ensures ProfileIdOf(db.profiles, u).Some?
    ensures CountWhere(db.profiles, ProfileOwnedBy(u)) == 1
  {
    var p :| p in db.profiles && db.profiles[p].owner == u;
    assert ProfileOwnedBy(u)(db.profiles[p]);
    assert Where(db.profiles, ProfileOwnedBy(u)) == {p};
  }
}
