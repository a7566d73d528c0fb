/** The read side: the values the serializers compute for each row, given the
    tables and the requesting identity (events/views.py annotations,
    events/serializers.py, profiles/serializers.py, comments/serializers.py,
    likes/serializers.py, favorites/serializers.py, eventify/serializers.py). */
module Serializers {
  import opened Common
  import opened Models
  import opened Tables

  // ---------------------------------------------------------------- counts

  function LikeOn(e: Id): Like -> bool
  {
    (l: Like) => l.event == e
  }

  function CommentOn(e: Id): Comment -> bool
  {
    (c: Comment) => c.event == e
  }

  /** Follow rows whose `followed` is `u`. */
  function FollowOf(u: Id): Follower -> bool
  {
    (f: Follower) => f.followed == u
  }

  /** Follow rows whose `owner` is `u`. */
  function FollowBy(u: Id): Follower -> bool
  {
    (f: Follower) => f.owner == u
  }

  /** `Count('likes', distinct=True)`. */
  function LikesCount(likes: map<Id, Like>, e: Id): nat
  {
    CountWhere(likes, LikeOn(e))
  }

  /** `Count('comments', distinct=True)`. */
  function CommentsCount(comments: map<Id, Comment>, e: Id): nat
  {
    CountWhere(comments, CommentOn(e))
  }

  /** `Follower.objects.filter(followed=obj.owner).count()`. */
  function FollowersCount(follows: map<Id, Follower>, u: Id): nat
  {
    CountWhere(follows, FollowOf(u))
  }

  /** `Follower.objects.filter(owner=obj.owner).count()`. */
  function FollowingCount(follows: map<Id, Follower>, u: Id): nat
  {
    CountWhere(follows, FollowBy(u))
  }

  /** Each count is the number of distinct rows of its own table that
      reference the target: a like is never counted as a comment, nor twice. */
  lemma {:induction false} CountsAreRowCounts(likes: map<Id, Like>, comments: map<Id, Comment>,
                                              follows: map<Id, Follower>, e: Id, u: Id)
    ensures LikesCount(likes, e) == |set k | k in likes && likes[k].event == e|
    ensures CommentsCount(comments, e) == |set k | k in comments && comments[k].event == e|
    ensures FollowersCount(follows, u) == |set k | k in follows && follows[k].followed == u|
    ensures FollowingCount(follows, u) == |set k | k in follows && follows[k].owner == u|
  {
    assert Where(likes, LikeOn(e)) == set k | k in likes && likes[k].event == e;
    assert Where(comments, CommentOn(e)) == set k | k in comments && comments[k].event == e;
    assert Where(follows, FollowOf(u)) == set k | k in follows && follows[k].followed == u;
    assert Where(follows, FollowBy(u)) == set k | k in follows && follows[k].owner == u;
  }

  /** A new like raises the count of its own event by one and no other. */
  lemma {:induction false} LikesCountInsert(likes: map<Id, Like>, id: Id, l: Like, e: Id)
    requires id !in likes
    ensures LikesCount(likes[id := l], e) == LikesCount(likes, e) + (if l.event == e then 1 else 0)
  {
    CountInsert(likes, id, l, LikeOn(e));
  }

  /** Removing a like lowers the count of its own event by one and no other. */
  lemma {:induction false} LikesCountRemove(likes: map<Id, Like>, id: Id, e: Id)
    requires id in likes
    ensures LikesCount(likes - {id}, e) == LikesCount(likes, e) - (if likes[id].event == e then 1 else 0)
  {
    CountRemove(likes, id, LikeOn(e));
  }

  /** Comments are never unique: each new one raises its event's count by one. */
  lemma {:induction false} CommentsCountInsert(comments: map<Id, Comment>, id: Id, c: Comment, e: Id)
    requires id !in comments
    ensures CommentsCount(comments[id := c], e) == CommentsCount(comments, e) + (if c.event == e then 1 else 0)
  {
    CountInsert(comments, id, c, CommentOn(e));
  }

  lemma {:induction false} CommentsCountRemove(comments: map<Id, Comment>, id: Id, e: Id)
    requires id in comments
    ensures CommentsCount(comments - {id}, e) == CommentsCount(comments, e) - (if comments[id].event == e then 1 else 0)
  {
    CountRemove(comments, id, CommentOn(e));
  }

  /** Editing a comment's content keeps every count; moving it to another
      event moves one unit of count from the old event to the new one. */
  lemma {:induction false} CommentsCountUpdate(comments: map<Id, Comment>, id: Id, c: Comment, e: Id)
    requires id in comments
    ensures CommentsCount(comments[id := c], e)
      == CommentsCount(comments, e) - (if comments[id].event == e then 1 else 0) + (if c.event == e then 1 else 0)
  {
    CountRemove(comments, id, CommentOn(e));
    assert (comments - {id})[id := c] == comments[id := c];
    CountInsert(comments - {id}, id, c, CommentOn(e));
  }

  /** A new follow of B by A raises B's followers and A's following by one;
      every other user's counts stay as they were. */
  lemma {:induction false} FollowCountsInsert(follows: map<Id, Follower>, id: Id, f: Follower, u: Id)
    requires id !in follows
    ensures FollowersCount(follows[id := f], u) == FollowersCount(follows, u) + (if f.followed == u then 1 else 0)
    ensures FollowingCount(follows[id := f], u) == FollowingCount(follows, u) + (if f.owner == u then 1 else 0)
  {
    CountInsert(follows, id, f, FollowOf(u));
    CountInsert(follows, id, f, FollowBy(u));
  }

  lemma {:induction false} FollowCountsRemove(follows: map<Id, Follower>, id: Id, u: Id)
    requires id in follows
    ensures FollowersCount(follows - {id}, u) == FollowersCount(follows, u) - (if follows[id].followed == u then 1 else 0)
    ensures FollowingCount(follows - {id}, u) == FollowingCount(follows, u) - (if follows[id].owner == u then 1 else 0)
  {
    CountRemove(follows, id, FollowOf(u));
    CountRemove(follows, id, FollowBy(u));
  }

  // ------------------------------------------------------- viewer's own rows

  function OwnLike(u: Id, e: Id): Like -> bool
  {
    (l: Like) => l.owner == u && l.event == e
  }

  function OwnFollow(u: Id, followed: Id): Follower -> bool
  {
    (f: Follower) => f.owner == u && f.followed == followed
  }

  /** `EventSerializer.get_like_id`: the viewer's own like of the event, and
      never another user's; None for an anonymous viewer. */
  ghost function LikeId(likes: map<Id, Like>, viewer: Viewer, e: Id): (r: Option<Id>)
    ensures viewer.Anonymous? ==> r == None
    ensures r.Some? ==> viewer.Authenticated? && r.value in likes
                        && likes[r.value].owner == viewer.user && likes[r.value].event == e
    ensures viewer.Authenticated? && r.None? ==>
              forall k :: k in likes ==> !(likes[k].owner == viewer.user && likes[k].event == e)
  {
    if viewer.Anonymous? then None else FindWhere(likes, OwnLike(viewer.user, e))
  }

  /** `ProfileSerializer.get_following_id`: the viewer's own follow of `followed`. */
  ghost function FollowingId(follows: map<Id, Follower>, viewer: Viewer, followed: Id): (r: Option<Id>)
    ensures viewer.Anonymous? ==> r == None
    ensures r.Some? ==> viewer.Authenticated? && r.value in follows
                        && follows[r.value].owner == viewer.user && follows[r.value].followed == followed
    ensures viewer.Authenticated? && r.None? ==>
              forall k :: k in follows ==> !(follows[k].owner == viewer.user && follows[k].followed == followed)
  {
    if viewer.Anonymous? then None else FindWhere(follows, OwnFollow(viewer.user, followed))
  }

  /** Under `unique_together`, a viewer who has liked an event sees at most
      one like counted from themselves, and the like_id is that row. */
  lemma {:induction false} LikeIdIsTheLike(likes: map<Id, Like>, u: Id, e: Id, id: Id)
    requires forall a, b ::
               (a in likes && b in likes && likes[a].owner == likes[b].owner && likes[a].event == likes[b].event)
               ==> a == b
    requires id in likes && likes[id].owner == u && likes[id].event == e
    ensures LikeId(likes, Authenticated(u), e) == Some(id)
    ensures LikesCount(likes, e) >= 1
  {
    var p := OwnLike(u, e);
    assert p(likes[id]);
    assert forall a, b :: a in likes && b in likes && p(likes[a]) && p(likes[b]) ==> a == b;
    FindWhereUnique(likes, p, id);
    assert id in Where(likes, LikeOn(e));
  }

  // ------------------------------------------------------------ avatars

  /** The placeholder `get_avatar` answers when the profile has no avatar. */
  const DefaultAvatarUrl := "https://res.cloudinary.com/dpw2txejq/image/upload/default_profile_ju9xum"

  /** `ProfileSerializer.get_avatar`. `storageUrl` is the image storage's URL
      for a stored file name. */
  function AvatarUrl(avatar: string, storageUrl: string -> string): (url: string)
    ensures avatar != "" ==> url == storageUrl(avatar)
    ensures avatar == "" ==> url == DefaultAvatarUrl
  {
    if avatar != "" then storageUrl(avatar) else DefaultAvatarUrl
  }

  /** A profile made by the save hook has the non-blank column default, so it
      shows the storage's URL for that file and not the placeholder. */
  lemma {:induction false} NewProfileAvatar(owner: Id, now: nat, storageUrl: string -> string)
    ensures AvatarUrl(NewProfile(owner, now).avatar, storageUrl) == storageUrl(DefaultAvatar)
  {
  }

  // ----------------------------------------------------- current user

  function ProfileOwnedBy(u: Id): Profile -> bool
  {
    (p: Profile) => p.owner == u
  }

  /** `CurrentUserSerializer.get_profile_id`. */
  ghost function ProfileIdOf(profiles: map<Id, Profile>, u: Id): (r: Option<Id>)
    ensures r.Some? ==> r.value in profiles && profiles[r.value].owner == u
    ensures r.None? <==> forall p :: p in profiles ==> profiles[p].owner != u
  {
    FindWhere(profiles, ProfileOwnedBy(u))
  }

  /** `getattr(profile, name, None)` for a file attribute, with a blank file
      read as absent: Profile declares one file field, `avatar`, so every other
      name finds nothing. */
  function FileAttr(p: Profile, name: string): (r: Option<string>)
    ensures r.Some? <==> name == "avatar" && p.avatar != ""
    ensures r.Some? ==> r.value == p.avatar
  {
    if name == "avatar" && p.avatar != "" then Some(p.avatar) else None
  }

  /** The URL of the file attribute `name` of `u`'s profile, when the user has
      a profile and that attribute holds a file; `get_profile_image` is this
      with the attribute it names. */
  ghost function ProfileFileUrl(profiles: map<Id, Profile>, u: Id, name: string, storageUrl: string -> string): (r: Option<string>)
    ensures r.Some? ==> exists p :: p in profiles && profiles[p].owner == u && FileAttr(profiles[p], name).Some?
    ensures (forall p :: p in profiles ==> profiles[p].owner != u) ==> r == None
  {
    match ProfileIdOf(profiles, u)
    case None => None
    case Some(p) =>
      match FileAttr(profiles[p], name)
      case None => None
      case Some(f) => Some(storageUrl(f))
  }

  /** `CurrentUserSerializer.get_profile_image` as written: it reads the
      attribute `image`. */
  ghost function ProfileImage(profiles: map<Id, Profile>, u: Id, storageUrl: string -> string): (r: Option<string>)
    ensures r.Some? ==> exists p :: p in profiles && profiles[p].owner == u && FileAttr(profiles[p], "image").Some?
  {
    ProfileFileUrl(profiles, u, "image", storageUrl)
  }

  /** As written, no user ever gets a profile image: no profile has an
      `image` file, so the lookup finds nothing whatever the tables hold. */
  lemma {:induction false} ProfileImageAlwaysNone(profiles: map<Id, Profile>, u: Id, storageUrl: string -> string)
    ensures ProfileImage(profiles, u, storageUrl) == None
  {
    assert "image" != "avatar" by { assert "image"[0] != "avatar"[0]; }
    forall p | p in profiles
      ensures FileAttr(profiles[p], "image") == None
    {
    }
  }

  /** What `get_profile_image` evidently means: the URL of the user's avatar,
      the one file field Profile has. */
  ghost function ProfileImageFromAvatar(profiles: map<Id, Profile>, u: Id, storageUrl: string -> string): (r: Option<string>)
    ensures r.Some? ==> exists p :: p in profiles && profiles[p].owner == u && profiles[p].avatar != ""
    ensures (forall p :: p in profiles ==> profiles[p].owner != u) ==> r == None
  {
    ProfileFileUrl(profiles, u, "avatar", storageUrl)
  }

  /** With one profile per user, the corrected image is exactly the URL that
      `get_avatar` shows, whenever that URL is not the placeholder. */
  lemma {:induction false} ProfileImageMatchesAvatar(profiles: map<Id, Profile>, u: Id, p: Id, storageUrl: string -> string)
    requires forall a, b :: a in profiles && b in profiles && profiles[a].owner == profiles[b].owner ==> a == b
    requires p in profiles && profiles[p].owner == u && profiles[p].avatar != ""
    ensures ProfileImageFromAvatar(profiles, u, storageUrl) == Some(AvatarUrl(profiles[p].avatar, storageUrl))
  {
    assert ProfileOwnedBy(u)(profiles[p]);
    FindWhereUnique(profiles, ProfileOwnedBy(u), p);
  }

  /** The discrepancy: a user whose profile has the default avatar gets no
      profile_image from the code as written, while the intended value exists. */
  lemma {:induction false} ProfileImageIgnoresAvatar(storageUrl: string -> string)
    ensures var profiles := map[7 := NewProfile(3, 0)];
      ProfileImage(profiles, 3, storageUrl) == None
      && ProfileImageFromAvatar(profiles, 3, storageUrl) == Some(storageUrl(DefaultAvatar))
  {
    var profiles := map[7 := NewProfile(3, 0)];
    ProfileImageAlwaysNone(profiles, 3, storageUrl);
    ProfileImageMatchesAvatar(profiles, 3, 7, storageUrl);
  }

  // ----------------------------------------------------- representations

  /** `EventSerializer.Meta.fields`, in order; `owner` is the username and
      `category` the stored key. */
  datatype EventRepr = EventRepr(
    id: Id, owner: string, createdAt: nat, updatedAt: nat, title: string,
    description: string, date: int, location: string, category: string, cover: string,
    price: int, isOwner: bool, likeId: Option<Id>, likesCount: nat, commentsCount: nat)

  ghost function SerializeEvent(users: map<Id, User>, events: map<Id, Event>, likes: map<Id, Like>,
                                comments: map<Id, Comment>, viewer: Viewer, id: Id): (r: EventRepr)
    requires id in events && events[id].owner in users
    ensures r.isOwner <==> viewer == Authenticated(events[id].owner)
    ensures r.likeId.Some? ==> r.likesCount >= 1
    ensures r.owner == users[events[id].owner].username
    ensures r.id == id && r.category == events[id].category.Key()
    ensures r.likeId == LikeId(likes, viewer, id)
    ensures r.likesCount == LikesCount(likes, id) && r.commentsCount == CommentsCount(comments, id)
  {
    var e := events[id];
    var likeId := LikeId(likes, viewer, id);
    if likeId.Some? then
      assert likeId.value in Where(likes, LikeOn(id));
      EventRepr(id, users[e.owner].username, e.createdAt, e.updatedAt, e.title, e.description, e.date,
                e.location, e.category.Key(), e.cover, e.price, IsOwner(viewer, e.owner), likeId,
                LikesCount(likes, id), CommentsCount(comments, id))
    else
      EventRepr(id, users[e.owner].username, e.createdAt, e.updatedAt, e.title, e.description, e.date,
                e.location, e.category.Key(), e.cover, e.price, IsOwner(viewer, e.owner), likeId,
                LikesCount(likes, id), CommentsCount(comments, id))
  }

  /** `ProfileSerializer.Meta.fields`, in order. */
  datatype ProfileRepr = ProfileRepr(
    id: Id, owner: string, createdAt: nat, updatedAt: nat, name: string, bio: string,
    location: string, avatar: string, isOwner: bool, followingId: Option<Id>,
    followersCount: nat, followingCount: nat)

  ghost function SerializeProfile(users: map<Id, User>, profiles: map<Id, Profile>, follows: map<Id, Follower>,
                                  viewer: Viewer, id: Id, storageUrl: string -> string): (r: ProfileRepr)
    requires id in profiles && profiles[id].owner in users
    ensures r.isOwner <==> viewer == Authenticated(profiles[id].owner)
    ensures r.followingId.Some? ==> r.followersCount >= 1
    ensures r.owner == users[profiles[id].owner].username
    ensures r.id == id && r.avatar == AvatarUrl(profiles[id].avatar, storageUrl)
    ensures r.followingId == FollowingId(follows, viewer, profiles[id].owner)
    ensures r.followersCount == FollowersCount(follows, profiles[id].owner)
    ensures r.followingCount == FollowingCount(follows, profiles[id].owner)
  {
    var p := profiles[id];
    var fid := FollowingId(follows, viewer, p.owner);
    if fid.Some? then
      assert fid.value in Where(follows, FollowOf(p.owner));
      ProfileRepr(id, users[p.owner].username, p.createdAt, p.updatedAt, p.name, p.bio, p.location,
                  AvatarUrl(p.avatar, storageUrl), IsOwner(viewer, p.owner), fid,
                  FollowersCount(follows, p.owner), FollowingCount(follows, p.owner))
    else
      ProfileRepr(id, users[p.owner].username, p.createdAt, p.updatedAt, p.name, p.bio, p.location,
                  AvatarUrl(p.avatar, storageUrl), IsOwner(viewer, p.owner), fid,
                  FollowersCount(follows, p.owner), FollowingCount(follows, p.owner))
  }

  /** `CommentSerializer.Meta.fields`, in order. */
  datatype CommentRepr = CommentRepr(
    id: Id, owner: string, event: Id, eventTitle: string, content: string,
    createdAt: nat, updatedAt: nat, isOwner: bool)

  function SerializeComment(users: map<Id, User>, events: map<Id, Event>, comments: map<Id, Comment>,
                            viewer: Viewer, id: Id): (r: CommentRepr)
    requires id in comments && comments[id].owner in users && comments[id].event in events
    ensures r.isOwner <==> viewer == Authenticated(comments[id].owner)
    ensures r.event == comments[id].event && r.eventTitle == events[r.event].title
    ensures r.owner == users[comments[id].owner].username
  {
    var c := comments[id];
    CommentRepr(id, users[c.owner].username, c.event, events[c.event].title, c.content,
                c.createdAt, c.updatedAt, IsOwner(viewer, c.owner))
  }

  /** `LikeSerializer.Meta.fields` and `FavoriteSerializer.Meta.fields`: the
      two serializers show the same five fields. */
  datatype RelationRepr = RelationRepr(id: Id, owner: string, event: Id, eventTitle: string, createdAt: nat)

  function SerializeLike(users: map<Id, User>, events: map<Id, Event>, likes: map<Id, Like>, id: Id): (r: RelationRepr)
    requires id in likes && likes[id].owner in users && likes[id].event in events
    ensures r.event == likes[id].event && r.eventTitle == events[r.event].title
    ensures r.owner == users[likes[id].owner].username && r.createdAt == likes[id].createdAt
  {
    var l := likes[id];
    RelationRepr(id, users[l.owner].username, l.event, events[l.event].title, l.createdAt)
  }

  function SerializeFavorite(users: map<Id, User>, events: map<Id, Event>, favorites: map<Id, Favorite>, id: Id): (r: RelationRepr)
    requires id in favorites && favorites[id].owner in users && favorites[id].event in events
    ensures r.event == favorites[id].event && r.eventTitle == events[r.event].title
    ensures r.owner == users[favorites[id].owner].username && r.createdAt == favorites[id].createdAt
  {
    var f := favorites[id];
    RelationRepr(id, users[f.owner].username, f.event, events[f.event].title, f.createdAt)
  }
}
