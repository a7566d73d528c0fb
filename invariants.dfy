/** Every write view keeps the database consistent: what `DbOk` demands
    before a request still holds after it, whatever the request and whether
    it succeeds or fails. */
module Invariants {
  import opened Common
  import opened Models
  import opened Integrity
  import opened Validation
  import opened Cascades
  import opened Views

  // ------------------------------------------------------ one table at a time

  /** A table whose rows stay as they were keeps its constraints when the
      tables it references only grow and the clock only advances. */
  lemma {:induction false} EventsWiden(events: map<Id, Event>, users: map<Id, User>, users': map<Id, User>,
                                       clock: nat, clock': nat)
    requires EventsOk(events, users, clock) && users.Keys <= users'.Keys && clock <= clock'
    ensures EventsOk(events, users', clock')
  {
  }

  lemma {:induction false} LikesWiden(likes: map<Id, Like>, users: map<Id, User>, events: map<Id, Event>,
                                      users': map<Id, User>, events': map<Id, Event>)
    requires LikesOk(likes, users, events) && users.Keys <= users'.Keys && events.Keys <= events'.Keys
    ensures LikesOk(likes, users', events')
  {
  }

  lemma {:induction false} CommentsWiden(comments: map<Id, Comment>, users: map<Id, User>, events: map<Id, Event>,
                                         users': map<Id, User>, events': map<Id, Event>, clock: nat, clock': nat)
    requires CommentsOk(comments, users, events, clock) && users.Keys <= users'.Keys && events.Keys <= events'.Keys
    requires clock <= clock'
    ensures CommentsOk(comments, users', events', clock')
  {
  }

  lemma {:induction false} FavoritesWiden(favorites: map<Id, Favorite>, users: map<Id, User>, events: map<Id, Event>,
                                          users': map<Id, User>, events': map<Id, Event>)
    requires FavoritesOk(favorites, users, events) && users.Keys <= users'.Keys && events.Keys <= events'.Keys
    ensures FavoritesOk(favorites, users', events')
  {
  }

  lemma {:induction false} FollowsWiden(follows: map<Id, Follower>, users: map<Id, User>, users': map<Id, User>)
    requires FollowsOk(follows, users) && users.Keys <= users'.Keys
    ensures FollowsOk(follows, users')
  {
  }

  lemma {:induction false} ProfilesLater(profiles: map<Id, Profile>, users: map<Id, User>, clock: nat, clock': nat)
    requires ProfilesOk(profiles, users, clock) && clock <= clock'
    ensures ProfilesOk(profiles, users, clock')
  {
  }

  /** Changing only one row of the events table, to a row that still
      satisfies the constraints, keeps the table and everything that
      references it consistent. */
  lemma {:induction false} EventsReplace(events: map<Id, Event>, users: map<Id, User>, clock: nat, id: Id, e: Event)
    requires EventsOk(events, users, clock) && id in events
    requires e.owner in users && EventRowOk(e) && e.updatedAt < clock
    ensures EventsOk(events[id := e], users, clock)
    ensures events[id := e].Keys == events.Keys
  {
  }

  /** A new like keeps the table consistent when its owner and event exist
      and the pair is not yet liked. */
  lemma {:induction false} LikesInsert(likes: map<Id, Like>, users: map<Id, User>, events: map<Id, Event>, id: Id, l: Like)
    requires LikesOk(likes, users, events) && l.owner in users && l.event in events
    requires !Liked(likes, l.owner, l.event)
    ensures LikesOk(likes[id := l], users, events)
  {
  }

  lemma {:induction false} FavoritesInsert(favorites: map<Id, Favorite>, users: map<Id, User>, events: map<Id, Event>,
                                           id: Id, f: Favorite)
    requires FavoritesOk(favorites, users, events) && f.owner in users && f.event in events
    requires !Favorited(favorites, f.owner, f.event)
    ensures FavoritesOk(favorites[id := f], users, events)
  {
  }

  lemma {:induction false} FollowsInsert(follows: map<Id, Follower>, users: map<Id, User>, id: Id, f: Follower)
    requires FollowsOk(follows, users) && f.owner in users && f.followed in users
    requires !Following(follows, f.owner, f.followed)
    ensures FollowsOk(follows[id := f], users)
  {
  }

  lemma {:induction false} CommentsPut(comments: map<Id, Comment>, users: map<Id, User>, events: map<Id, Event>,
                                       clock: nat, id: Id, c: Comment)
    requires CommentsOk(comments, users, events, clock)
    requires c.owner in users && c.event in events && CommentRowOk(c) && c.updatedAt < clock + 1
    ensures CommentsOk(comments[id := c], users, events, clock + 1)
  {
  }

  lemma {:induction false} EventsInsert(events: map<Id, Event>, users: map<Id, User>, clock: nat, id: Id, e: Event)
    requires EventsOk(events, users, clock)
    requires e.owner in users && EventRowOk(e) && e.updatedAt < clock + 1
    ensures EventsOk(events[id := e], users, clock + 1)
  {
  }

  /** Replacing a profile by one of the same owner keeps one profile per user. */
  lemma {:induction false} ProfilesReplace(profiles: map<Id, Profile>, users: map<Id, User>, clock: nat, id: Id, p: Profile)
    requires ProfilesOk(profiles, users, clock) && id in profiles
    requires p.owner == profiles[id].owner && ProfileRowOk(p) && p.updatedAt < clock + 1
    ensures ProfilesOk(profiles[id := p], users, clock + 1)
  {
    var profiles' := profiles[id := p];
    forall v | v in users ensures exists q :: q in profiles' && profiles'[q].owner == v {
      var q :| q in profiles && profiles[q].owner == v;
      assert q in profiles' && profiles'[q].owner == v;
    }
  }

  /** Renaming users keeps every constraint that looks only at user keys. */
  lemma {:induction false} ProfilesSameUsers(profiles: map<Id, Profile>, users: map<Id, User>, users': map<Id, User>,
                                             clock: nat)
    requires ProfilesOk(profiles, users, clock) && users.Keys == users'.Keys
    ensures ProfilesOk(profiles, users', clock)
  {
    forall v | v in users' ensures exists q :: q in profiles && profiles[q].owner == v {
      assert v in users;
    }
  }

  /** Overwriting a row under a key in use keeps every key below the counter. */
  lemma {:induction false} KeysReplace<T>(m: map<Id, T>, next: Id, id: Id, x: T)
    requires KeysBelow(m, next) && id in m
    ensures KeysBelow(m[id := x], next)
  {
  }

  /** Handing out the next key keeps every key below the counter. */
  lemma {:induction false} KeysInsert<T>(m: map<Id, T>, next: Id, x: T)
    requires KeysBelow(m, next)
    ensures KeysBelow(m[next := x], next + 1) && next !in m
  {
  }

  /** Renaming a user to a name no other user has keeps usernames unique. */
  lemma {:induction false} UsersRename(users: map<Id, User>, uid: Id, username: string)
    requires UsernamesUnique(users)
    requires forall k :: k in users && k != uid ==> users[k].username != username
    ensures UsernamesUnique(users[uid := User(username)])
  {
  }

  /** A username not yet taken keeps usernames unique. */
  lemma {:induction false} UsersInsert(users: map<Id, User>, uid: Id, username: string)
    requires UsernamesUnique(users) && !UsernameTaken(users, username)
    ensures UsernamesUnique(users[uid := User(username)])
  {
  }

  /** A new user with a new profile of their own keeps every user with
      exactly one profile. */
  lemma {:induction false} ProfilesWithNewUser(profiles: map<Id, Profile>, users: map<Id, User>, clock: nat,
                                               uid: Id, pid: Id, u: User)
    requires ProfilesOk(profiles, users, clock) && pid !in profiles && uid !in users
    ensures ProfilesOk(profiles[pid := NewProfile(uid, clock)], users[uid := u], clock + 1)
  {
    var profiles', users' := profiles[pid := NewProfile(uid, clock)], users[uid := u];
    forall v | v in users' ensures exists p :: p in profiles' && profiles'[p].owner == v {
      if v == uid {
        assert profiles'[pid].owner == v;
      } else {
        var p :| p in profiles && profiles[p].owner == v;
        assert p in profiles' && profiles'[p].owner == v;
      }
    }
  }

  // ---------------------------------------------------------- each effect

  /** The clock's advance alone keeps every constraint. */
  lemma {:induction false} TickKeeps(db: Db, r: Db)
    requires DbOk(db) && r == db.(clock := db.clock + 1)
    ensures DbOk(r)
  {
    ProfilesLater(db.profiles, db.users, db.clock, r.clock);
    EventsWiden(db.events, db.users, db.users, db.clock, r.clock);
    CommentsWiden(db.comments, db.users, db.events, db.users, db.events, db.clock, r.clock);
  }

  /** A new user under a name nobody has, with its profile. */
  lemma {:induction false} AddUserKeepsIntegrity(db: Db, username: string)
    requires DbOk(db) && !UsernameTaken(db.users, username)
    ensures DbOk(AddUser(db, username))
  {
    var r := AddUser(db, username);
    var uid := db.nextUser;
    KeysInsert(db.users, uid, User(username));
    KeysInsert(db.profiles, db.nextProfile, NewProfile(uid, db.clock));
    UsersInsert(db.users, uid, username);
    ProfilesWithNewUser(db.profiles, db.users, db.clock, uid, db.nextProfile, User(username));
    EventsWiden(db.events, db.users, r.users, db.clock, r.clock);
    LikesWiden(db.likes, db.users, db.events, r.users, r.events);
    CommentsWiden(db.comments, db.users, db.events, r.users, r.events, db.clock, r.clock);
    FavoritesWiden(db.favorites, db.users, db.events, r.users, r.events);
    FollowsWiden(db.follows, db.users, r.users);
  }

  /** Renaming an existing user to a name no other user has. */
  lemma {:induction false} RenameUserKeepsIntegrity(db: Db, uid: Id, username: string)
    requires DbOk(db) && uid in db.users
    requires forall k :: k in db.users && k != uid ==> db.users[k].username != username
    ensures DbOk(RenameUser(db, uid, username))
  {
    var r := RenameUser(db, uid, username);
    UsersRename(db.users, uid, username);
    KeysReplace(db.users, db.nextUser, uid, User(username));
    ProfilesSameUsers(db.profiles, db.users, r.users, db.clock);
    EventsWiden(db.events, db.users, r.users, db.clock, r.clock);
    LikesWiden(db.likes, db.users, db.events, r.users, r.events);
    CommentsWiden(db.comments, db.users, db.events, r.users, r.events, db.clock, r.clock);
    FavoritesWiden(db.favorites, db.users, db.events, r.users, r.events);
    FollowsWiden(db.follows, db.users, r.users);
  }

  lemma {:induction false} AddEventKeepsIntegrity(db: Db, owner: Id, input: EventInput)
    requires DbOk(db) && owner in db.users && EventErrors(input, false) == {}
    ensures DbOk(AddEvent(db, owner, input))
  {
    var r := AddEvent(db, owner, input);
    var e := NewEvent(owner, input, db.clock);
    KeysInsert(db.events, db.nextEvent, e);
    ProfilesLater(db.profiles, db.users, db.clock, r.clock);
    EventsInsert(db.events, db.users, db.clock, db.nextEvent, e);
    LikesWiden(db.likes, db.users, db.events, r.users, r.events);
    CommentsWiden(db.comments, db.users, db.events, r.users, r.events, db.clock, r.clock);
    FavoritesWiden(db.favorites, db.users, db.events, r.users, r.events);
  }

  lemma {:induction false} EditEventKeepsIntegrity(db: Db, id: Id, input: EventInput)
    requires DbOk(db) && id in db.events && EventErrors(input, true) == {}
    ensures DbOk(EditEvent(db, id, input))
  {
    var r := EditEvent(db, id, input);
    var e := PatchEvent(db.events[id], input, db.clock);
    ProfilesLater(db.profiles, db.users, db.clock, r.clock);
    EventsWiden(db.events, db.users, db.users, db.clock, r.clock);
    EventsReplace(db.events, db.users, r.clock, id, e);
    KeysReplace(db.events, db.nextEvent, id, e);
    LikesWiden(db.likes, db.users, db.events, r.users, r.events);
    CommentsWiden(db.comments, db.users, db.events, r.users, r.events, db.clock, r.clock);
    FavoritesWiden(db.favorites, db.users, db.events, r.users, r.events);
  }

  /** A like of an existing event by an existing user who has not liked it yet. */
  lemma {:induction false} AddLikeKeepsIntegrity(db: Db, u: Id, e: Id)
    requires DbOk(db) && u in db.users && e in db.events && !Liked(db.likes, u, e)
    ensures DbOk(AddLike(db, u, e))
  {
    KeysInsert(db.likes, db.nextLike, Like(u, e, db.clock));
    LikesInsert(db.likes, db.users, db.events, db.nextLike, Like(u, e, db.clock));
    TickKeeps(db, db.(clock := db.clock + 1));
  }

  /** Replacing the likes table by one that meets its own constraints. */
  lemma {:induction false} LikesSwapped(db: Db, likes: map<Id, Like>)
    requires DbOk(db) && KeysBelow(likes, db.nextLike) && LikesOk(likes, db.users, db.events)
    ensures DbOk(db.(likes := likes))
  {
  }

  lemma {:induction false} RemoveLikeKeepsIntegrity(db: Db, id: Id)
    requires DbOk(db)
    ensures DbOk(RemoveLike(db, id))
  {
    KeysNarrowed(db.likes, db.likes - {id}, db.nextLike);
    LikesNarrowed(db.likes, db.likes - {id}, db.users, db.events, db.users, db.events);
    LikesSwapped(db, db.likes - {id});
  }

  lemma {:induction false} AddFavoriteKeepsIntegrity(db: Db, u: Id, e: Id)
    requires DbOk(db) && u in db.users && e in db.events && !Favorited(db.favorites, u, e)
    ensures DbOk(AddFavorite(db, u, e))
  {
    var f := Favorite(u, e, db.clock);
    KeysInsert(db.favorites, db.nextFavorite, f);
    FavoritesInsert(db.favorites, db.users, db.events, db.nextFavorite, f);
    TickKeeps(db, db.(clock := db.clock + 1));
  }

  lemma {:induction false} FavoritesSwapped(db: Db, favorites: map<Id, Favorite>)
    requires DbOk(db) && KeysBelow(favorites, db.nextFavorite) && FavoritesOk(favorites, db.users, db.events)
    ensures DbOk(db.(favorites := favorites))
  {
  }

  lemma {:induction false} RemoveFavoriteKeepsIntegrity(db: Db, id: Id)
    requires DbOk(db)
    ensures DbOk(RemoveFavorite(db, id))
  {
    KeysNarrowed(db.favorites, db.favorites - {id}, db.nextFavorite);
    FavoritesNarrowed(db.favorites, db.favorites - {id}, db.users, db.events, db.users, db.events);
    FavoritesSwapped(db, db.favorites - {id});
  }

  lemma {:induction false} AddCommentKeepsIntegrity(db: Db, owner: Id, event: Id, content: string)
    requires DbOk(db) && owner in db.users && event in db.events
    ensures DbOk(AddComment(db, owner, event, content))
  {
    var c := Comment(owner, event, content, db.clock, db.clock);
    KeysInsert(db.comments, db.nextComment, c);
    CommentsPut(db.comments, db.users, db.events, db.clock, db.nextComment, c);
    TickKeeps(db, db.(clock := db.clock + 1));
  }

  /** An edit that keeps the comment's owner and points it at an existing event. */
  lemma {:induction false} EditCommentKeepsIntegrity(db: Db, id: Id, input: CommentInput)
    requires DbOk(db) && id in db.comments
    requires input.event.Some? ==> input.event.value in db.events
    ensures DbOk(EditComment(db, id, input))
  {
    var r := EditComment(db, id, input);
    var c := r.comments[id];
    KeysReplace(db.comments, db.nextComment, id, c);
    CommentsPut(db.comments, db.users, db.events, db.clock, id, c);
    ProfilesLater(db.profiles, db.users, db.clock, r.clock);
    EventsWiden(db.events, db.users, db.users, db.clock, r.clock);
  }

  lemma {:induction false} CommentsSwapped(db: Db, comments: map<Id, Comment>)
    requires DbOk(db) && KeysBelow(comments, db.nextComment) && CommentsOk(comments, db.users, db.events, db.clock)
    ensures DbOk(db.(comments := comments))
  {
  }

  lemma {:induction false} RemoveCommentKeepsIntegrity(db: Db, id: Id)
    requires DbOk(db)
    ensures DbOk(RemoveComment(db, id))
  {
    KeysNarrowed(db.comments, db.comments - {id}, db.nextComment);
    CommentsNarrowed(db.comments, db.comments - {id}, db.users, db.events, db.users, db.events, db.clock);
    CommentsSwapped(db, db.comments - {id});
  }

  lemma {:induction false} AddFollowKeepsIntegrity(db: Db, owner: Id, followed: Id)
    requires DbOk(db) && owner in db.users && followed in db.users && !Following(db.follows, owner, followed)
    ensures DbOk(AddFollow(db, owner, followed))
  {
    var f := Follower(owner, followed, db.clock);
    KeysInsert(db.follows, db.nextFollow, f);
    FollowsInsert(db.follows, db.users, db.nextFollow, f);
    TickKeeps(db, db.(clock := db.clock + 1));
  }

  lemma {:induction false} FollowsSwapped(db: Db, follows: map<Id, Follower>)
    requires DbOk(db) && KeysBelow(follows, db.nextFollow) && FollowsOk(follows, db.users)
    ensures DbOk(db.(follows := follows))
  {
  }

  lemma {:induction false} RemoveFollowKeepsIntegrity(db: Db, id: Id)
    requires DbOk(db)
    ensures DbOk(RemoveFollow(db, id))
  {
    KeysNarrowed(db.follows, db.follows - {id}, db.nextFollow);
    FollowsNarrowed(db.follows, db.follows - {id}, db.users, db.users);
    FollowsSwapped(db, db.follows - {id});
  }

  lemma {:induction false} EditProfileKeepsIntegrity(db: Db, id: Id, input: ProfileInput)
    requires DbOk(db) && id in db.profiles && ProfileErrors(input) == {}
    ensures DbOk(EditProfile(db, id, input))
  {
    var r := EditProfile(db, id, input);
    var p := PatchProfile(db.profiles[id], input, db.clock);
    KeysReplace(db.profiles, db.nextProfile, id, p);
    ProfilesReplace(db.profiles, db.users, db.clock, id, p);
    EventsWiden(db.events, db.users, db.users, db.clock, r.clock);
    CommentsWiden(db.comments, db.users, db.events, db.users, db.events, db.clock, r.clock);
  }

  // ------------------------------------------------------------ each view

  lemma {:induction false} CreateUserKeepsIntegrity(db: Db, username: string)
    requires DbOk(db)
    ensures DbOk(CreateUser(db, username).db)
  {
    if !UsernameTaken(db.users, username) {
      AddUserKeepsIntegrity(db, username);
    }
  }

  lemma {:induction false} SaveUserKeepsIntegrity(db: Db, uid: Id, username: string)
    requires DbOk(db)
    ensures DbOk(SaveUser(db, uid, username).db)
  {
    if uid in db.users && forall k :: k in db.users && k != uid ==> db.users[k].username != username {
      RenameUserKeepsIntegrity(db, uid, username);
    }
  }

  lemma {:induction false} DeleteUserKeepsIntegrityView(db: Db, uid: Id)
    requires DbOk(db)
    ensures DbOk(DeleteUser(db, uid).db)
  {
    if uid in db.users {
      DeleteUserKeepsIntegrity(db, uid);
    }
  }

  lemma {:induction false} CreateEventKeepsIntegrity(db: Db, viewer: Viewer, input: EventInput)
    requires DbOk(db) && ViewerOk(db, viewer)
    ensures DbOk(CreateEvent(db, viewer, input).db)
  {
    if viewer.Authenticated? && EventErrors(input, false) == {} {
      AddEventKeepsIntegrity(db, viewer.user, input);
    }
  }

  lemma {:induction false} UpdateEventKeepsIntegrity(db: Db, viewer: Viewer, id: Id, input: EventInput, partial: bool)
    requires DbOk(db)
    ensures DbOk(UpdateEvent(db, viewer, id, input, partial).db)
  {
    if id in db.events && IsOwner(viewer, db.events[id].owner) && EventErrors(input, partial) == {} {
      PartialErrorsFewer(input);
      EditEventKeepsIntegrity(db, id, input);
    }
  }

  lemma {:induction false} DeleteEventKeepsIntegrityView(db: Db, viewer: Viewer, id: Id)
    requires DbOk(db)
    ensures DbOk(DeleteEvent(db, viewer, id).db)
  {
    if id in db.events && IsOwner(viewer, db.events[id].owner) {
      DeleteEventKeepsIntegrity(db, id);
    }
  }

  lemma {:induction false} PostLikeKeepsIntegrity(db: Db, viewer: Viewer, e: Id)
    requires DbOk(db) && ViewerOk(db, viewer)
    ensures DbOk(PostLike(db, viewer, e).db)
  {
    if viewer.Authenticated? && e in db.events && !Liked(db.likes, viewer.user, e) {
      AddLikeKeepsIntegrity(db, viewer.user, e);
    }
  }

  lemma {:induction false} DestroyLikeKeepsIntegrity(db: Db, viewer: Viewer, id: Id)
    requires DbOk(db)
    ensures DbOk(DestroyLike(db, viewer, id).db)
  {
    if viewer.Authenticated? && id in db.likes {
      RemoveLikeKeepsIntegrity(db, id);
    }
  }

  lemma {:induction false} CreateLikeKeepsIntegrity(db: Db, viewer: Viewer, event: Option<Id>)
    requires DbOk(db) && ViewerOk(db, viewer)
    ensures DbOk(CreateLike(db, viewer, event).db)
  {
    if viewer.Authenticated? && event.Some? && event.value in db.events && !Liked(db.likes, viewer.user, event.value) {
      AddLikeKeepsIntegrity(db, viewer.user, event.value);
    }
  }

  lemma {:induction false} DeleteLikeKeepsIntegrity(db: Db, viewer: Viewer, id: Id)
    requires DbOk(db)
    ensures DbOk(DeleteLike(db, viewer, id).db)
  {
    if id in db.likes && IsOwner(viewer, db.likes[id].owner) {
      RemoveLikeKeepsIntegrity(db, id);
    }
  }

  lemma {:induction false} CreateFavoriteKeepsIntegrity(db: Db, viewer: Viewer, event: Option<Id>)
    requires DbOk(db) && ViewerOk(db, viewer)
    ensures DbOk(CreateFavorite(db, viewer, event).db)
  {
    if viewer.Authenticated? && event.Some? && event.value in db.events
       && !Favorited(db.favorites, viewer.user, event.value) {
      AddFavoriteKeepsIntegrity(db, viewer.user, event.value);
    }
  }

  lemma {:induction false} DeleteFavoriteKeepsIntegrity(db: Db, viewer: Viewer, id: Id)
    requires DbOk(db)
    ensures DbOk(DeleteFavorite(db, viewer, id).db)
  {
    if id in db.favorites && IsOwner(viewer, db.favorites[id].owner) {
      RemoveFavoriteKeepsIntegrity(db, id);
    }
  }

  lemma {:induction false} CreateCommentKeepsIntegrity(db: Db, viewer: Viewer, input: CommentInput)
    requires DbOk(db) && ViewerOk(db, viewer)
    ensures DbOk(CreateComment(db, viewer, input).db)
  {
    if viewer.Authenticated? && CommentErrors(input, false, db.events.Keys) == {} {
      AddCommentKeepsIntegrity(db, viewer.user, input.event.value, input.content.value);
    }
  }

  lemma {:induction false} UpdateCommentKeepsIntegrity(db: Db, viewer: Viewer, id: Id, input: CommentInput, partial: bool)
    requires DbOk(db)
    ensures DbOk(UpdateComment(db, viewer, id, input, partial).db)
  {
    if id in db.comments && IsOwner(viewer, db.comments[id].owner)
       && CommentErrors(input, partial, db.events.Keys) == {} {
      EditCommentKeepsIntegrity(db, id, input);
    }
  }

  lemma {:induction false} DeleteCommentKeepsIntegrity(db: Db, viewer: Viewer, id: Id)
    requires DbOk(db)
    ensures DbOk(DeleteComment(db, viewer, id).db)
  {
    if id in db.comments && IsOwner(viewer, db.comments[id].owner) {
      RemoveCommentKeepsIntegrity(db, id);
    }
  }

  lemma {:induction false} CreateFollowKeepsIntegrity(db: Db, viewer: Viewer, followed: Id)
    requires DbOk(db) && ViewerOk(db, viewer)
    ensures DbOk(CreateFollow(db, viewer, followed).db)
  {
    if viewer.Authenticated? && followed in db.users && !Following(db.follows, viewer.user, followed) {
      AddFollowKeepsIntegrity(db, viewer.user, followed);
    }
  }

  lemma {:induction false} DeleteFollowKeepsIntegrity(db: Db, viewer: Viewer, id: Id)
    requires DbOk(db)
    ensures DbOk(DeleteFollow(db, viewer, id).db)
  {
    if id in db.follows && IsOwner(viewer, db.follows[id].owner) {
      RemoveFollowKeepsIntegrity(db, id);
    }
  }

  lemma {:induction false} UpdateProfileKeepsIntegrity(db: Db, viewer: Viewer, id: Id, input: ProfileInput)
    requires DbOk(db)
    ensures DbOk(UpdateProfile(db, viewer, id, input).db)
  {
    if id in db.profiles && IsOwner(viewer, db.profiles[id].owner) && ProfileErrors(input) == {} {
      EditProfileKeepsIntegrity(db, id, input);
    }
  }
}
