/** The database the views write to, as an object whose tables are updated in
    place. Each request has two methods: `ApplyX` runs the steps of the view
    on the tables, field by field, and answers the status the transition
    `Views.X` gives, leaving exactly the tables that transition describes;
    `X` is the same request on a database that meets every constraint of
    `DbOk`, which it still meets afterwards. */
module Backend {
  import opened Common
  import opened Models
  import opened Integrity
  import opened Validation
  import opened Permissions
  import opened Cascades
  import opened Views
  import opened Invariants

  class Store {
    var users: map<Id, User>
    var profiles: map<Id, Profile>
    var events: map<Id, Event>
    var likes: map<Id, Like>
    var comments: map<Id, Comment>
    var favorites: map<Id, Favorite>
    var follows: map<Id, Follower>
    var nextUser: Id
    var nextProfile: Id
    var nextEvent: Id
    var nextLike: Id
    var nextComment: Id
    var nextFavorite: Id
    var nextFollow: Id
    var clock: nat

    /** The tables as one value. */
    ghost function State(): Db
      reads this
    {
      Db(users, profiles, events, likes, comments, favorites, follows,
         nextUser, nextProfile, nextEvent, nextLike, nextComment, nextFavorite, nextFollow, clock)
    }

    ghost predicate Valid()
      reads this
    {
      DbOk(State())
    }

    /** An empty database. */
    constructor ()
      ensures Valid()
      ensures State() == Db(map[], map[], map[], map[], map[], map[], map[], 0, 0, 0, 0, 0, 0, 0, 0)
    {
      users, profiles, events := map[], map[], map[];
      likes, comments, favorites, follows := map[], map[], map[], map[];
      nextUser, nextProfile, nextEvent, nextLike := 0, 0, 0, 0;
      nextComment, nextFavorite, nextFollow, clock := 0, 0, 0, 0;
    }

    // ---------------------------------------------------------------- users

    method ApplyCreateUser(username: string) returns (status: Status)
      modifies this
      ensures Outcome(State(), status) == Views.CreateUser(old(State()), username)
    {
      if UsernameTaken(users, username) {
        return IntegrityError;
      }
      var uid := nextUser;
      users := users[uid := User(username)];
      // the `post_save` hook of profiles/models.py
      profiles := profiles[nextProfile := NewProfile(uid, clock)];
      nextUser, nextProfile, clock := nextUser + 1, nextProfile + 1, clock + 1;
      status := Created(uid);
    }

    method CreateUser(username: string) returns (status: Status)
      requires Valid()
      modifies this
      ensures Valid()
      ensures Outcome(State(), status) == Views.CreateUser(old(State()), username)
    {
      CreateUserKeepsIntegrity(State(), username);
      status := ApplyCreateUser(username);
    }

    method ApplySaveUser(uid: Id, username: string) returns (status: Status)
      modifies this
      ensures Outcome(State(), status) == Views.SaveUser(old(State()), uid, username)
    {
      if uid !in users {
        return NotFound;
      }
      if UsernameTakenByOther(users, uid, username) {
        return IntegrityError;
      }
      users := users[uid := User(username)];
      status := Ok;
    }

    method SaveUser(uid: Id, username: string) returns (status: Status)
      requires Valid()
      modifies this
      ensures Valid()
      ensures Outcome(State(), status) == Views.SaveUser(old(State()), uid, username)
    {
      SaveUserKeepsIntegrity(State(), uid, username);
      status := ApplySaveUser(uid, username);
    }

    /** Writes the seven tables of `rows` at once, leaving the counters and
        the clock as they are. */
    method PutTables(rows: Db)
      modifies this`users, this`profiles, this`events, this`likes, this`comments, this`favorites, this`follows
      ensures users == rows.users && profiles == rows.profiles && events == rows.events && likes == rows.likes
      ensures comments == rows.comments && favorites == rows.favorites && follows == rows.follows
    {
      users, profiles, events, likes := rows.users, rows.profiles, rows.events, rows.likes;
      comments, favorites, follows := rows.comments, rows.favorites, rows.follows;
    }

    method ApplyDeleteUser(uid: Id) returns (status: Status)
      modifies this
      ensures Outcome(State(), status) == Views.DeleteUser(old(State()), uid)
    {
      if uid !in users {
        return NotFound;
      }
      // the user's own rows, and the rows of their events, go with them
      var rows := DeleteUserRows(Db(users, profiles, events, likes, comments, favorites, follows, nextUser,
                                    nextProfile, nextEvent, nextLike, nextComment, nextFavorite, nextFollow, clock), uid);
      PutTables(rows);
      status := NoContent;
    }

    method DeleteUser(uid: Id) returns (status: Status)
      requires Valid()
      modifies this
      ensures Valid()
      ensures Outcome(State(), status) == Views.DeleteUser(old(State()), uid)
    {
      DeleteUserKeepsIntegrityView(State(), uid);
      status := ApplyDeleteUser(uid);
    }

    // --------------------------------------------------------------- events

    method ApplyCreateEvent(viewer: Viewer, input: EventInput) returns (status: Status)
      modifies this
      ensures Outcome(State(), status) == Views.CreateEvent(old(State()), viewer, input)
    {
      if viewer.Anonymous? {
        return NotAuthenticated;
      }
      var errs := EventErrors(input, false);
      if errs != {} {
        return InvalidFields(errs);
      }
      var id := nextEvent;
      events := events[id := NewEvent(viewer.user, input, clock)];
      nextEvent, clock := nextEvent + 1, clock + 1;
      status := Created(id);
    }

    method CreateEvent(viewer: Viewer, input: EventInput) returns (status: Status)
      requires Valid() && ViewerOk(State(), viewer)
      modifies this
      ensures Valid()
      ensures Outcome(State(), status) == Views.CreateEvent(old(State()), viewer, input)
    {
      CreateEventKeepsIntegrity(State(), viewer, input);
      status := ApplyCreateEvent(viewer, input);
    }

    method ApplyUpdateEvent(viewer: Viewer, id: Id, input: EventInput, partial: bool) returns (status: Status)
      modifies this
      ensures Outcome(State(), status) == Views.UpdateEvent(old(State()), viewer, id, input, partial)
    {
      if id !in events {
        return NotFound;
      }
      if !IsOwner(viewer, events[id].owner) {
        return Refusal(viewer);
      }
      var errs := EventErrors(input, partial);
      if errs != {} {
        return InvalidFields(errs);
      }
      PartialErrorsFewer(input);
      events := events[id := PatchEvent(events[id], input, clock)];
      clock := clock + 1;
      status := Ok;
    }

    method UpdateEvent(viewer: Viewer, id: Id, input: EventInput, partial: bool) returns (status: Status)
      requires Valid()
      modifies this
      ensures Valid()
      ensures Outcome(State(), status) == Views.UpdateEvent(old(State()), viewer, id, input, partial)
    {
      UpdateEventKeepsIntegrity(State(), viewer, id, input, partial);
      status := ApplyUpdateEvent(viewer, id, input, partial);
    }

    method ApplyDeleteEvent(viewer: Viewer, id: Id) returns (status: Status)
      modifies this
      ensures Outcome(State(), status) == Views.DeleteEvent(old(State()), viewer, id)
    {
      if id !in events {
        return NotFound;
      }
      if !IsOwner(viewer, events[id].owner) {
        return Refusal(viewer);
      }
      events := events - {id};
      likes := LikesOffEvent(likes, id);
      comments := CommentsOffEvent(comments, id);
      favorites := FavoritesOffEvent(favorites, id);
      status := NoContent;
    }

    method DeleteEvent(viewer: Viewer, id: Id) returns (status: Status)
      requires Valid()
      modifies this
      ensures Valid()
      ensures Outcome(State(), status) == Views.DeleteEvent(old(State()), viewer, id)
    {
      DeleteEventKeepsIntegrityView(State(), viewer, id);
      status := ApplyDeleteEvent(viewer, id);
    }

    // ---------------------------------------------------------------- likes

    method ApplyPostLike(viewer: Viewer, e: Id) returns (status: Status)
      modifies this
      ensures Outcome(State(), status) == Views.PostLike(old(State()), viewer, e)
    {
      if viewer.Anonymous? {
        return NotAuthenticated;
      }
      if e !in events {
        return NotFound;
      }
      // get_or_create
      if Liked(likes, viewer.user, e) {
        return BadRequest("You have already liked this event.");
      }
      likes := likes[nextLike := Like(viewer.user, e, clock)];
      nextLike, clock := nextLike + 1, clock + 1;
      status := CreatedNoBody;
    }

    method PostLike(viewer: Viewer, e: Id) returns (status: Status)
      requires Valid() && ViewerOk(State(), viewer)
      modifies this
      ensures Valid()
      ensures Outcome(State(), status) == Views.PostLike(old(State()), viewer, e)
    {
      PostLikeKeepsIntegrity(State(), viewer, e);
      status := ApplyPostLike(viewer, e);
    }

    method ApplyDestroyLike(viewer: Viewer, id: Id) returns (status: Status)
      modifies this
      ensures Outcome(State(), status) == Views.DestroyLike(old(State()), viewer, id)
    {
      if viewer.Anonymous? {
        return NotAuthenticated;
      }
      if id !in likes {
        return NotFound;
      }
      likes := likes - {id};
      status := NoContent;
    }

    method DestroyLike(viewer: Viewer, id: Id) returns (status: Status)
      requires Valid()
      modifies this
      ensures Valid()
      ensures Outcome(State(), status) == Views.DestroyLike(old(State()), viewer, id)
    {
      DestroyLikeKeepsIntegrity(State(), viewer, id);
      status := ApplyDestroyLike(viewer, id);
    }

    method ApplyCreateLike(viewer: Viewer, event: Option<Id>) returns (status: Status)
      modifies this
      ensures Outcome(State(), status) == Views.CreateLike(old(State()), viewer, event)
    {
      if viewer.Anonymous? {
        return NotAuthenticated;
      }
      if event.None? || event.value !in events {
        return InvalidFields({"event"});
      }
      // the IntegrityError that LikeSerializer.create turns into a validation error
      if Liked(likes, viewer.user, event.value) {
        return BadRequest("You have already liked this event");
      }
      var id := nextLike;
      likes := likes[id := Like(viewer.user, event.value, clock)];
      nextLike, clock := nextLike + 1, clock + 1;
      status := Created(id);
    }

    method CreateLike(viewer: Viewer, event: Option<Id>) returns (status: Status)
      requires Valid() && ViewerOk(State(), viewer)
      modifies this
      ensures Valid()
      ensures Outcome(State(), status) == Views.CreateLike(old(State()), viewer, event)
    {
      CreateLikeKeepsIntegrity(State(), viewer, event);
      status := ApplyCreateLike(viewer, event);
    }

    method ApplyDeleteLike(viewer: Viewer, id: Id) returns (status: Status)
      modifies this
      ensures Outcome(State(), status) == Views.DeleteLike(old(State()), viewer, id)
    {
      if id !in likes {
        return NotFound;
      }
      if !IsOwner(viewer, likes[id].owner) {
        return Refusal(viewer);
      }
      likes := likes - {id};
      status := NoContent;
    }

    method DeleteLike(viewer: Viewer, id: Id) returns (status: Status)
      requires Valid()
      modifies this
      ensures Valid()
      ensures Outcome(State(), status) == Views.DeleteLike(old(State()), viewer, id)
    {
      DeleteLikeKeepsIntegrity(State(), viewer, id);
      status := ApplyDeleteLike(viewer, id);
    }

    // ------------------------------------------------------------ favorites

    method ApplyCreateFavorite(viewer: Viewer, event: Option<Id>) returns (status: Status)
      modifies this
      ensures Outcome(State(), status) == Views.CreateFavorite(old(State()), viewer, event)
    {
      if viewer.Anonymous? {
        return NotAuthenticated;
      }
      if event.None? || event.value !in events {
        return InvalidFields({"event"});
      }
      if Favorited(favorites, viewer.user, event.value) {
        return BadRequest("You have already favorited this event");
      }
      var id := nextFavorite;
      favorites := favorites[id := Favorite(viewer.user, event.value, clock)];
      nextFavorite, clock := nextFavorite + 1, clock + 1;
      status := Created(id);
    }

    method CreateFavorite(viewer: Viewer, event: Option<Id>) returns (status: Status)
      requires Valid() && ViewerOk(State(), viewer)
      modifies this
      ensures Valid()
      ensures Outcome(State(), status) == Views.CreateFavorite(old(State()), viewer, event)
    {
      CreateFavoriteKeepsIntegrity(State(), viewer, event);
      status := ApplyCreateFavorite(viewer, event);
    }

    method ApplyDeleteFavorite(viewer: Viewer, id: Id) returns (status: Status)
      modifies this
      ensures Outcome(State(), status) == Views.DeleteFavorite(old(State()), viewer, id)
    {
      if id !in favorites {
        return NotFound;
      }
      if !IsOwner(viewer, favorites[id].owner) {
        return Refusal(viewer);
      }
      favorites := favorites - {id};
      status := NoContent;
    }

    method DeleteFavorite(viewer: Viewer, id: Id) returns (status: Status)
      requires Valid()
      modifies this
      ensures Valid()
      ensures Outcome(State(), status) == Views.DeleteFavorite(old(State()), viewer, id)
    {
      DeleteFavoriteKeepsIntegrity(State(), viewer, id);
      status := ApplyDeleteFavorite(viewer, id);
    }

    // ------------------------------------------------------------- comments

    method ApplyCreateComment(viewer: Viewer, input: CommentInput) returns (status: Status)
      modifies this
      ensures Outcome(State(), status) == Views.CreateComment(old(State()), viewer, input)
    {
      if viewer.Anonymous? {
        return NotAuthenticated;
      }
      var errs := CommentErrors(input, false, events.Keys);
      if errs != {} {
        return InvalidFields(errs);
      }
      var id := nextComment;
      comments := comments[id := Comment(viewer.user, input.event.value, input.content.value, clock, clock)];
      nextComment, clock := nextComment + 1, clock + 1;
      status := Created(id);
    }

    method CreateComment(viewer: Viewer, input: CommentInput) returns (status: Status)
      requires Valid() && ViewerOk(State(), viewer)
      modifies this
      ensures Valid()
      ensures Outcome(State(), status) == Views.CreateComment(old(State()), viewer, input)
    {
      CreateCommentKeepsIntegrity(State(), viewer, input);
      status := ApplyCreateComment(viewer, input);
    }

    method ApplyUpdateComment(viewer: Viewer, id: Id, input: CommentInput, partial: bool) returns (status: Status)
      modifies this
      ensures Outcome(State(), status) == Views.UpdateComment(old(State()), viewer, id, input, partial)
    {
      if id !in comments {
        return NotFound;
      }
      if !IsOwner(viewer, comments[id].owner) {
        return Refusal(viewer);
      }
      var errs := CommentErrors(input, partial, events.Keys);
      if errs != {} {
        return InvalidFields(errs);
      }
      comments := comments[id := PatchComment(comments[id], input, clock)];
      clock := clock + 1;
      status := Ok;
    }

    method UpdateComment(viewer: Viewer, id: Id, input: CommentInput, partial: bool) returns (status: Status)
      requires Valid()
      modifies this
      ensures Valid()
      ensures Outcome(State(), status) == Views.UpdateComment(old(State()), viewer, id, input, partial)
    {
      UpdateCommentKeepsIntegrity(State(), viewer, id, input, partial);
      status := ApplyUpdateComment(viewer, id, input, partial);
    }

    method ApplyDeleteComment(viewer: Viewer, id: Id) returns (status: Status)
      modifies this
      ensures Outcome(State(), status) == Views.DeleteComment(old(State()), viewer, id)
    {
      if id !in comments {
        return NotFound;
      }
      if !IsOwner(viewer, comments[id].owner) {
        return Refusal(viewer);
      }
      comments := comments - {id};
      status := NoContent;
    }

    method DeleteComment(viewer: Viewer, id: Id) returns (status: Status)
      requires Valid()
      modifies this
      ensures Valid()
      ensures Outcome(State(), status) == Views.DeleteComment(old(State()), viewer, id)
    {
      DeleteCommentKeepsIntegrity(State(), viewer, id);
      status := ApplyDeleteComment(viewer, id);
    }

    // -------------------------------------------------------------- follows

    method ApplyCreateFollow(viewer: Viewer, followed: Id) returns (status: Status)
      modifies this
      ensures Outcome(State(), status) == Views.CreateFollow(old(State()), viewer, followed)
    {
      if viewer.Anonymous? {
        return NotAuthenticated;
      }
      // the foreign key and `unique_together` of followers/models.py
      if followed !in users || Following(follows, viewer.user, followed) {
        return IntegrityError;
      }
      var id := nextFollow;
      follows := follows[id := Follower(viewer.user, followed, clock)];
      nextFollow, clock := nextFollow + 1, clock + 1;
      status := Created(id);
    }

    method CreateFollow(viewer: Viewer, followed: Id) returns (status: Status)
      requires Valid() && ViewerOk(State(), viewer)
      modifies this
      ensures Valid()
      ensures Outcome(State(), status) == Views.CreateFollow(old(State()), viewer, followed)
    {
      CreateFollowKeepsIntegrity(State(), viewer, followed);
      status := ApplyCreateFollow(viewer, followed);
    }

    method ApplyDeleteFollow(viewer: Viewer, id: Id) returns (status: Status)
      modifies this
      ensures Outcome(State(), status) == Views.DeleteFollow(old(State()), viewer, id)
    {
      if id !in follows {
        return NotFound;
      }
      if !IsOwner(viewer, follows[id].owner) {
        return Refusal(viewer);
      }
      follows := follows - {id};
      status := NoContent;
    }

    method DeleteFollow(viewer: Viewer, id: Id) returns (status: Status)
      requires Valid()
      modifies this
      ensures Valid()
      ensures Outcome(State(), status) == Views.DeleteFollow(old(State()), viewer, id)
    {
      DeleteFollowKeepsIntegrity(State(), viewer, id);
      status := ApplyDeleteFollow(viewer, id);
    }

    // ------------------------------------------------------------- profiles

    method ApplyUpdateProfile(viewer: Viewer, id: Id, input: ProfileInput) returns (status: Status)
      modifies this
      ensures Outcome(State(), status) == Views.UpdateProfile(old(State()), viewer, id, input)
    {
      if id !in profiles {
        return NotFound;
      }
      if !IsOwner(viewer, profiles[id].owner) {
        return Refusal(viewer);
      }
      var errs := ProfileErrors(input);
      if errs != {} {
        return InvalidFields(errs);
      }
      profiles := profiles[id := PatchProfile(profiles[id], input, clock)];
      clock := clock + 1;
      status := Ok;
    }

    method UpdateProfile(viewer: Viewer, id: Id, input: ProfileInput) returns (status: Status)
      requires Valid()
      modifies this
      ensures Valid()
      ensures Outcome(State(), status) == Views.UpdateProfile(old(State()), viewer, id, input)
    {
      UpdateProfileKeepsIntegrity(State(), viewer, id, input);
      status := ApplyUpdateProfile(viewer, id, input);
    }
  }
}
