/** The database as one value, and the constraints the schema keeps on it:
    foreign keys that always resolve (every `on_delete=CASCADE` removes the
    rows that would dangle), the `unique_together` pairs, the one-to-one
    profile, and the column bounds. */
module Integrity {
  import opened Common
  import opened Models

  /** Every table, the next primary key of each, and the logical clock whose
      current tick stamps the rows a write saves. */
  datatype Db = Db(
    users: map<Id, User>,
    profiles: map<Id, Profile>,
    events: map<Id, Event>,
    likes: map<Id, Like>,
    comments: map<Id, Comment>,
    favorites: map<Id, Favorite>,
    follows: map<Id, Follower>,
    nextUser: Id,
    nextProfile: Id,
    nextEvent: Id,
    nextLike: Id,
    nextComment: Id,
    nextFavorite: Id,
    nextFollow: Id,
    clock: nat)

  /** Auto-increment: every key in use is below the next one handed out. */
  ghost predicate KeysBelow<T>(m: map<Id, T>, next: Id)
  {
    forall k :: k in m ==> k < next
  }

  ghost predicate UsernamesUnique(users: map<Id, User>)
  {
    forall a, b :: a in users && b in users && users[a].username == users[b].username ==> a == b
  }

  /** `OneToOneField(User)`: each profile's owner exists, no user has two
      profiles, and (through the `create_profile` hook) every user has one. */
  ghost predicate ProfilesOk(profiles: map<Id, Profile>, users: map<Id, User>, clock: nat)
  {
    && (forall p :: p in profiles ==>
          profiles[p].owner in users && ProfileRowOk(profiles[p]) && profiles[p].updatedAt < clock)
    && (forall p, q :: p in profiles && q in profiles && profiles[p].owner == profiles[q].owner ==> p == q)
    && (forall u :: u in users ==> exists p :: p in profiles && profiles[p].owner == u)
  }

  ghost predicate EventsOk(events: map<Id, Event>, users: map<Id, User>, clock: nat)
  {
    forall e :: e in events ==>
      events[e].owner in users && EventRowOk(events[e]) && events[e].updatedAt < clock
  }

  /** Foreign keys of likes, and `unique_together = ['owner', 'event']`. */
  ghost predicate LikesOk(likes: map<Id, Like>, users: map<Id, User>, events: map<Id, Event>)
  {
    && (forall l :: l in likes ==> likes[l].owner in users && likes[l].event in events)
    && (forall a, b ::
          (a in likes && b in likes && likes[a].owner == likes[b].owner && likes[a].event == likes[b].event)
          ==> a == b)
  }

  /** Foreign keys of comments; no uniqueness. */
  ghost predicate CommentsOk(comments: map<Id, Comment>, users: map<Id, User>, events: map<Id, Event>, clock: nat)
  {
    forall c :: c in comments ==>
      comments[c].owner in users && comments[c].event in events
      && CommentRowOk(comments[c]) && comments[c].updatedAt < clock
  }

  /** Foreign keys of favorites, and `unique_together = ['owner', 'event']`. */
  ghost predicate FavoritesOk(favorites: map<Id, Favorite>, users: map<Id, User>, events: map<Id, Event>)
  {
    && (forall f :: f in favorites ==> favorites[f].owner in users && favorites[f].event in events)
    && (forall a, b ::
          (a in favorites && b in favorites && favorites[a].owner == favorites[b].owner
           && favorites[a].event == favorites[b].event)
          ==> a == b)
  }

  /** Both foreign keys of a follow, and `unique_together = ['owner', 'followed']`.
      Nothing forbids `owner == followed`. */
  ghost predicate FollowsOk(follows: map<Id, Follower>, users: map<Id, User>)
  {
    && (forall f :: f in follows ==> follows[f].owner in users && follows[f].followed in users)
    && (forall a, b ::
          (a in follows && b in follows && follows[a].owner == follows[b].owner
           && follows[a].followed == follows[b].followed)
          ==> a == b)
  }

  ghost predicate DbOk(db: Db)
  {
    && KeysBelow(db.users, db.nextUser) && KeysBelow(db.profiles, db.nextProfile)
    && KeysBelow(db.events, db.nextEvent) && KeysBelow(db.likes, db.nextLike)
    && KeysBelow(db.comments, db.nextComment) && KeysBelow(db.favorites, db.nextFavorite)
    && KeysBelow(db.follows, db.nextFollow)
    && UsernamesUnique(db.users)
    && ProfilesOk(db.profiles, db.users, db.clock)
    && EventsOk(db.events, db.users, db.clock)
    && LikesOk(db.likes, db.users, db.events)
    && CommentsOk(db.comments, db.users, db.events, db.clock)
    && FavoritesOk(db.favorites, db.users, db.events)
    && FollowsOk(db.follows, db.users)
  }
}
