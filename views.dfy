/** What each write view does to the tables, as a transition from one
    database value to the next together with the answer the view gives.
    DRF runs the steps of a request in a fixed order, and each transition
    follows it: the view's permission class, then (detail views) the lookup
    of the row with its 404, then the object permission, then the
    serializer's validation, then the save and the constraints the table
    enforces. A request that fails at any step changes nothing. A save stamps
    its rows with the current tick of the clock and advances it. */
module Views {
  import opened Common
  import opened Models
  import opened Tables
  import opened Integrity
  import opened Validation
  import opened Permissions
  import opened Serializers
  import opened Cascades

  datatype Outcome = Outcome(db: Db, status: Status)

  /** The 2xx answers. */
  predicate Succeeded(s: Status)
  {
    s.Ok? || s.Created? || s.CreatedNoBody? || s.NoContent?
  }

  /** Authentication only ever yields users that exist. */
  predicate ViewerOk(db: Db, viewer: Viewer)
  {
    viewer.Authenticated? ==> viewer.user in db.users
  }

  predicate UsernameTaken(users: map<Id, User>, username: string)
  {
    exists k :: k in users && users[k].username == username
  }

  /** Some user other than `uid` already has `username`. */
  predicate UsernameTakenByOther(users: map<Id, User>, uid: Id, username: string)
  {
    exists k :: k in users && k != uid && users[k].username == username
  }

  /** Whether `u` already likes `e`. */
  predicate Liked(likes: map<Id, Like>, u: Id, e: Id)
  {
    exists k :: k in likes && likes[k].owner == u && likes[k].event == e
  }

  predicate Favorited(favorites: map<Id, Favorite>, u: Id, e: Id)
  {
    exists k :: k in favorites && favorites[k].owner == u && favorites[k].event == e
  }

  /** Whether `u` already follows `v`. */
  predicate Following(follows: map<Id, Follower>, u: Id, v: Id)
  {
    exists k :: k in follows && follows[k].owner == u && follows[k].followed == v
  }

  // ------------------------------------------------------------------ users

  /** The rows a new user brings: the user and, through the hook, a profile
      with the column defaults. */
  function AddUser(db: Db, username: string): Db
  {
    db.(users := db.users[db.nextUser := User(username)],
        profiles := db.profiles[db.nextProfile := NewProfile(db.nextUser, db.clock)],
        nextUser := db.nextUser + 1, nextProfile := db.nextProfile + 1, clock := db.clock + 1)
  }

  function RenameUser(db: Db, uid: Id, username: string): Db
  {
    db.(users := db.users[uid := User(username)])
  }

  /** `User.objects.create_user`, whose `post_save` signal reaches
      `create_profile` with `created` set: the user row and a profile with
      the column defaults. The user table's unique username refuses a
      second user of the same name. */
  function CreateUser(db: Db, username: string): Outcome
  {
    if UsernameTaken(db.users, username) then Outcome(db, IntegrityError)
    else Outcome(AddUser(db, username), Created(db.nextUser))
  }

  /** Saving an existing user again (here: under a new username). The signal
      fires with `created` false, so no profile is made. */
  function SaveUser(db: Db, uid: Id, username: string): Outcome
  {
    if uid !in db.users then Outcome(db, NotFound)
    else if UsernameTakenByOther(db.users, uid, username) then Outcome(db, IntegrityError)
    else Outcome(RenameUser(db, uid, username), Ok)
  }

  /** Deleting a user row, with every cascade that reaches it. */
  function DeleteUser(db: Db, uid: Id): Outcome
  {
    if uid !in db.users then Outcome(db, NotFound)
    else Outcome(DeleteUserRows(db, uid), NoContent)
  }

  // ----------------------------------------------------------------- events

  /** The row `serializer.save(owner=...)` inserts. */
  function AddEvent(db: Db, owner: Id, input: EventInput): Db
    requires EventErrors(input, false) == {}
  {
    db.(events := db.events[db.nextEvent := NewEvent(owner, input, db.clock)],
        nextEvent := db.nextEvent + 1, clock := db.clock + 1)
  }

  /** The row after `serializer.save()` on an update. */
  function EditEvent(db: Db, id: Id, input: EventInput): Db
    requires id in db.events && EventErrors(input, true) == {}
  {
    db.(events := db.events[id := PatchEvent(db.events[id], input, db.clock)], clock := db.clock + 1)
  }

  /** `EventList.post` (IsAuthenticatedOrReadOnly) with `perform_create`
      saving the requesting user as owner. */
  function CreateEvent(db: Db, viewer: Viewer, input: EventInput): Outcome
  {
    if viewer.Anonymous? then Outcome(db, NotAuthenticated)
    else if EventErrors(input, false) != {} then Outcome(db, InvalidFields(EventErrors(input, false)))
    else Outcome(AddEvent(db, viewer.user, input), Created(db.nextEvent))
  }

  /** `EventDetail.put` (`partial` false) and `.patch` (`partial` true). */
  function UpdateEvent(db: Db, viewer: Viewer, id: Id, input: EventInput, partial: bool): Outcome
  {
    if id !in db.events then Outcome(db, NotFound)
    else if !IsOwner(viewer, db.events[id].owner) then Outcome(db, Refusal(viewer))
    else if EventErrors(input, partial) != {} then Outcome(db, InvalidFields(EventErrors(input, partial)))
    else
      PartialErrorsFewer(input);
      Outcome(EditEvent(db, id, input), Ok)
  }

  /** `EventDetail.delete`: only the owner, and the cascade takes the
      event's likes, comments and favorites with it. */
  function DeleteEvent(db: Db, viewer: Viewer, id: Id): Outcome
  {
    if id !in db.events then Outcome(db, NotFound)
    else if !IsOwner(viewer, db.events[id].owner) then Outcome(db, Refusal(viewer))
    else Outcome(DeleteEventRows(db, id), NoContent)
  }

  // ------------------------------------------------------------------ likes

  /** The row a like save inserts. */
  function AddLike(db: Db, u: Id, e: Id): Db
  {
    db.(likes := db.likes[db.nextLike := Like(u, e, db.clock)], nextLike := db.nextLike + 1, clock := db.clock + 1)
  }

  function RemoveLike(db: Db, id: Id): Db
  {
    db.(likes := db.likes - {id})
  }

  /** `LikeCreate.post` (IsAuthenticated): 404 for a missing event, then
      `get_or_create`, which answers 400 when the like was already there. */
  function PostLike(db: Db, viewer: Viewer, e: Id): Outcome
  {
    if viewer.Anonymous? then Outcome(db, NotAuthenticated)
    else if e !in db.events then Outcome(db, NotFound)
    else if Liked(db.likes, viewer.user, e) then Outcome(db, BadRequest("You have already liked this event."))
    else Outcome(AddLike(db, viewer.user, e), CreatedNoBody)
  }

  /** `LikeDestroy.delete`: IsAuthenticated is its only permission, so any
      logged-in user may remove any like. */
  function DestroyLike(db: Db, viewer: Viewer, id: Id): Outcome
  {
    if viewer.Anonymous? then Outcome(db, NotAuthenticated)
    else if id !in db.likes then Outcome(db, NotFound)
    else Outcome(RemoveLike(db, id), NoContent)
  }

  /** `LikeList.post` (IsAuthenticatedOrReadOnly): the `event` field must name
      an event; the save's IntegrityError on a repeated pair becomes a
      validation error in `LikeSerializer.create`. */
  function CreateLike(db: Db, viewer: Viewer, event: Option<Id>): Outcome
  {
    if viewer.Anonymous? then Outcome(db, NotAuthenticated)
    else if event.None? || event.value !in db.events then Outcome(db, InvalidFields({"event"}))
    else if Liked(db.likes, viewer.user, event.value) then Outcome(db, BadRequest("You have already liked this event"))
    else Outcome(AddLike(db, viewer.user, event.value), Created(db.nextLike))
  }

  /** `LikeDetail.delete`: IsOwnerOrReadOnly, so only the like's owner. */
  function DeleteLike(db: Db, viewer: Viewer, id: Id): Outcome
  {
    if id !in db.likes then Outcome(db, NotFound)
    else if !IsOwner(viewer, db.likes[id].owner) then Outcome(db, Refusal(viewer))
    else Outcome(RemoveLike(db, id), NoContent)
  }

  // -------------------------------------------------------------- favorites

  /** The row a favorite save inserts. */
  function AddFavorite(db: Db, u: Id, e: Id): Db
  {
    db.(favorites := db.favorites[db.nextFavorite := Favorite(u, e, db.clock)],
        nextFavorite := db.nextFavorite + 1, clock := db.clock + 1)
  }

  function RemoveFavorite(db: Db, id: Id): Db
  {
    db.(favorites := db.favorites - {id})
  }

  /** `FavoriteList.post`, with `FavoriteSerializer.create` turning the
      repeated pair into a validation error. */
  function CreateFavorite(db: Db, viewer: Viewer, event: Option<Id>): Outcome
  {
    if viewer.Anonymous? then Outcome(db, NotAuthenticated)
    else if event.None? || event.value !in db.events then Outcome(db, InvalidFields({"event"}))
    else if Favorited(db.favorites, viewer.user, event.value) then
      Outcome(db, BadRequest("You have already favorited this event"))
    else Outcome(AddFavorite(db, viewer.user, event.value), Created(db.nextFavorite))
  }

  /** `FavoriteDetail.delete`: only the favorite's owner. */
  function DeleteFavorite(db: Db, viewer: Viewer, id: Id): Outcome
  {
    if id !in db.favorites then Outcome(db, NotFound)
    else if !IsOwner(viewer, db.favorites[id].owner) then Outcome(db, Refusal(viewer))
    else Outcome(RemoveFavorite(db, id), NoContent)
  }

  // --------------------------------------------------------------- comments

  /** The row `serializer.save(owner=...)` inserts for a comment. */
  function AddComment(db: Db, owner: Id, event: Id, content: string): Db
  {
    db.(comments := db.comments[db.nextComment := Comment(owner, event, content, db.clock, db.clock)],
        nextComment := db.nextComment + 1, clock := db.clock + 1)
  }

  /** The tables after a valid comment update: that one row patched at the
      current time. */
  function EditComment(db: Db, id: Id, input: CommentInput): Db
    requires id in db.comments
  {
    db.(comments := db.comments[id := PatchComment(db.comments[id], input, db.clock)], clock := db.clock + 1)
  }

  function RemoveComment(db: Db, id: Id): Db
  {
    db.(comments := db.comments - {id})
  }

  /** `CommentList.post`: any number of comments per user and event. */
  function CreateComment(db: Db, viewer: Viewer, input: CommentInput): Outcome
  {
    if viewer.Anonymous? then Outcome(db, NotAuthenticated)
    else if CommentErrors(input, false, db.events.Keys) != {} then
      Outcome(db, InvalidFields(CommentErrors(input, false, db.events.Keys)))
    else Outcome(AddComment(db, viewer.user, input.event.value, input.content.value), Created(db.nextComment))
  }

  /** `CommentDetail.put`/`.patch`: only the owner. `event` is writable, so
      an update may move the comment to another event. */
  function UpdateComment(db: Db, viewer: Viewer, id: Id, input: CommentInput, partial: bool): Outcome
  {
    if id !in db.comments then Outcome(db, NotFound)
    else if !IsOwner(viewer, db.comments[id].owner) then Outcome(db, Refusal(viewer))
    else if CommentErrors(input, partial, db.events.Keys) != {} then
      Outcome(db, InvalidFields(CommentErrors(input, partial, db.events.Keys)))
    else Outcome(EditComment(db, id, input), Ok)
  }

  /** `CommentDetail.delete`: only the owner. */
  function DeleteComment(db: Db, viewer: Viewer, id: Id): Outcome
  {
    if id !in db.comments then Outcome(db, NotFound)
    else if !IsOwner(viewer, db.comments[id].owner) then Outcome(db, Refusal(viewer))
    else Outcome(RemoveComment(db, id), NoContent)
  }

  // ---------------------------------------------------------------- follows

  /** The row a follow save inserts: `owner` follows `followed`. */
  function AddFollow(db: Db, owner: Id, followed: Id): Db
  {
    db.(follows := db.follows[db.nextFollow := Follower(owner, followed, db.clock)],
        nextFollow := db.nextFollow + 1, clock := db.clock + 1)
  }

  function RemoveFollow(db: Db, id: Id): Db
  {
    db.(follows := db.follows - {id})
  }

  /** `FollowerList.post`. The serializer's own checks are not part of this
      model; the table refuses a missing user and a repeated pair. Nothing
      refuses following oneself. */
  function CreateFollow(db: Db, viewer: Viewer, followed: Id): Outcome
  {
    if viewer.Anonymous? then Outcome(db, NotAuthenticated)
    else if followed !in db.users || Following(db.follows, viewer.user, followed) then Outcome(db, IntegrityError)
    else Outcome(AddFollow(db, viewer.user, followed), Created(db.nextFollow))
  }

  /** `FollowerDetail.delete`, unfollowing: only the follow's owner. */
  function DeleteFollow(db: Db, viewer: Viewer, id: Id): Outcome
  {
    if id !in db.follows then Outcome(db, NotFound)
    else if !IsOwner(viewer, db.follows[id].owner) then Outcome(db, Refusal(viewer))
    else Outcome(RemoveFollow(db, id), NoContent)
  }

  // --------------------------------------------------------------- profiles

  /** The profile after `serializer.save()`. */
  function EditProfile(db: Db, id: Id, input: ProfileInput): Db
    requires id in db.profiles && ProfileErrors(input) == {}
  {
    db.(profiles := db.profiles[id := PatchProfile(db.profiles[id], input, db.clock)], clock := db.clock + 1)
  }

  /** `ProfileDetail.put`/`.patch` and `perform_update`: only the owner; the
      avatar cannot be written through the serializer. */
  function UpdateProfile(db: Db, viewer: Viewer, id: Id, input: ProfileInput): Outcome
  {
    if id !in db.profiles then Outcome(db, NotFound)
    else if !IsOwner(viewer, db.profiles[id].owner) then Outcome(db, Refusal(viewer))
    else if ProfileErrors(input) != {} then Outcome(db, InvalidFields(ProfileErrors(input)))
    else Outcome(EditProfile(db, id, input), Ok)
  }
}
