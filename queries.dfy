/** The list endpoints: which rows each returns and in what order. Each table's
    `Meta.ordering` puts the newest rows first; the like and favorite lists
    also take `?ordering=created_at` (or `-created_at`) and exact filters on
    `event` and `owner`; the comment list filters on the two timestamps. */
module Queries {
  import opened Common
  import opened Models
  import opened Integrity
  import opened Listing
  import opened Tables
  import opened Validation
  import opened Serializers
  import opened Cascades

  /** A filter parameter left out of the query string matches every row. */
  predicate Matches(filter: Option<Id>, value: Id)
  {
    filter.None? || filter.value == value
  }

  function EventDate(events: map<Id, Event>): Id -> int
  {
    (k: Id) => if k in events then events[k].date else 0
  }

  function ProfileCreated(profiles: map<Id, Profile>): Id -> int
  {
    (k: Id) => if k in profiles then profiles[k].createdAt else 0
  }

  function LikeCreated(likes: map<Id, Like>): Id -> int
  {
    (k: Id) => if k in likes then likes[k].createdAt else 0
  }

  function FavoriteCreated(favorites: map<Id, Favorite>): Id -> int
  {
    (k: Id) => if k in favorites then favorites[k].createdAt else 0
  }

  function CommentCreated(comments: map<Id, Comment>): Id -> int
  {
    (k: Id) => if k in comments then comments[k].createdAt else 0
  }

  function FollowCreated(follows: map<Id, Follower>): Id -> int
  {
    (k: Id) => if k in follows then follows[k].createdAt else 0
  }

  /** `EventList.get` without search or ordering parameters: every event,
      the latest date first. */
  ghost function EventListing(db: Db): (r: seq<Id>)
    ensures forall k :: k in r <==> k in db.events
    ensures forall i, j :: 0 <= i < j < |r| ==> r[i] != r[j]
    ensures Sorted(r, EventDate(db.events), Descending)
  {
    OrderBy(db.events.Keys, EventDate(db.events), Descending)
  }

  /** `ProfileList.get`: every profile, the newest first. */
  ghost function ProfileListing(db: Db): (r: seq<Id>)
    ensures |r| == |db.profiles|
    ensures forall k :: k in r <==> k in db.profiles
    ensures forall i, j :: 0 <= i < j < |r| ==> r[i] != r[j]
    ensures Sorted(r, ProfileCreated(db.profiles), Descending)
  {
    assert |db.profiles.Keys| == |db.profiles|;
    OrderBy(db.profiles.Keys, ProfileCreated(db.profiles), Descending)
  }

  /** The profile list holds one entry per user: two users give a list of two. */
  lemma {:induction false} ProfileListingCoversUsers(db: Db)
    requires DbOk(db)
    ensures |ProfileListing(db)| == |db.users|
  {
    ProfilesMatchUsers(db);
  }

  /** `LikeList.get`: the likes matching both filters, by `created_at` in the
      requested direction (newest first by default). */
  ghost function LikeListing(db: Db, event: Option<Id>, owner: Option<Id>, dir: Direction): (r: seq<Id>)
    ensures forall k :: k in r <==> k in db.likes && Matches(event, db.likes[k].event) && Matches(owner, db.likes[k].owner)
    ensures forall i, j :: 0 <= i < j < |r| ==> r[i] != r[j]
    ensures Sorted(r, LikeCreated(db.likes), dir)
  {
    var ids := set k | k in db.likes && Matches(event, db.likes[k].event) && Matches(owner, db.likes[k].owner);
    OrderBy(ids, LikeCreated(db.likes), dir)
  }

  /** What a list request with the `event` and `owner` filters answers:
      django-filter refuses, with a 400 naming the field, a filter value that
      names no event or no user; otherwise the listing. */
  datatype ListAnswer = Listed(ids: seq<Id>) | BadFilter(fields: set<string>)

  /** The filter fields whose value names no row of its table. */
  function FilterErrors(db: Db, event: Option<Id>, owner: Option<Id>): (errs: set<string>)
    ensures errs <= {"event", "owner"}
    ensures "event" in errs <==> event.Some? && event.value !in db.events
    ensures "owner" in errs <==> owner.Some? && owner.value !in db.users
  {
    Check("event", event.Some?, event.Some? && event.value in db.events, false)
    + Check("owner", owner.Some?, owner.Some? && owner.value in db.users, false)
  }

  /** `LikeList.get` as a request: a bad filter is refused, otherwise the
      matching likes are listed. */
  ghost function LikeList(db: Db, event: Option<Id>, owner: Option<Id>, dir: Direction): (r: ListAnswer)
    ensures r.BadFilter? <==> (event.Some? && event.value !in db.events) || (owner.Some? && owner.value !in db.users)
    ensures r.BadFilter? ==> r.fields == FilterErrors(db, event, owner)
    ensures r.Listed? ==> r.ids == LikeListing(db, event, owner, dir)
  {
    var errs := FilterErrors(db, event, owner);
    if errs != {} then BadFilter(errs) else Listed(LikeListing(db, event, owner, dir))
  }

  /** The like count an event shows is the length of the like list filtered
      on that event. */
  lemma {:induction false} LikesCountIsListLength(db: Db, e: Id, dir: Direction)
    ensures LikesCount(db.likes, e) == |LikeListing(db, Some(e), None, dir)|
  {
    var ids := set k | k in db.likes && Matches(Some(e), db.likes[k].event) && Matches(None, db.likes[k].owner);
    assert ids == Where(db.likes, LikeOn(e));
    assert LikeListing(db, Some(e), None, dir) == OrderBy(ids, LikeCreated(db.likes), dir);
  }

  /** `FavoriteList.get` as a request: as for likes. */
  ghost function FavoriteList(db: Db, event: Option<Id>, owner: Option<Id>, dir: Direction): (r: ListAnswer)
    ensures r.BadFilter? <==> (event.Some? && event.value !in db.events) || (owner.Some? && owner.value !in db.users)
    ensures r.BadFilter? ==> r.fields == FilterErrors(db, event, owner)
    ensures r.Listed? ==> r.ids == FavoriteListing(db, event, owner, dir)
  {
    var errs := FilterErrors(db, event, owner);
    if errs != {} then BadFilter(errs) else Listed(FavoriteListing(db, event, owner, dir))
  }

  /** `FavoriteList.get`: as for likes. */
  ghost function FavoriteListing(db: Db, event: Option<Id>, owner: Option<Id>, dir: Direction): (r: seq<Id>)
    ensures forall k :: k in r <==>
              k in db.favorites && Matches(event, db.favorites[k].event) && Matches(owner, db.favorites[k].owner)
    ensures forall i, j :: 0 <= i < j < |r| ==> r[i] != r[j]
    ensures Sorted(r, FavoriteCreated(db.favorites), dir)
  {
    var ids := set k | k in db.favorites && Matches(event, db.favorites[k].event) && Matches(owner, db.favorites[k].owner);
    OrderBy(ids, FavoriteCreated(db.favorites), dir)
  }

  /** The exact-match filters of the comment list, on the two timestamps. */
  predicate StampsMatch(c: Comment, createdAt: Option<nat>, updatedAt: Option<nat>)
  {
    (createdAt.None? || c.createdAt == createdAt.value) && (updatedAt.None? || c.updatedAt == updatedAt.value)
  }

  /** `CommentList.get`: its filter fields are the two timestamps, matched
      exactly; there is no filter on event or owner. Newest first. */
  ghost function CommentListing(db: Db, createdAt: Option<nat>, updatedAt: Option<nat>): (r: seq<Id>)
    ensures forall k :: k in r <==> k in db.comments && StampsMatch(db.comments[k], createdAt, updatedAt)
    ensures forall i, j :: 0 <= i < j < |r| ==> r[i] != r[j]
    ensures Sorted(r, CommentCreated(db.comments), Descending)
  {
    var ids := set k | k in db.comments && StampsMatch(db.comments[k], createdAt, updatedAt);
    OrderBy(ids, CommentCreated(db.comments), Descending)
  }

  /** Without parameters the comment list holds every comment of every event. */
  lemma {:induction false} CommentListingUnfiltered(db: Db)
    ensures |CommentListing(db, None, None)| == |db.comments|
  {
    var ids := set k | k in db.comments && StampsMatch(db.comments[k], None, None);
    assert ids == db.comments.Keys;
    assert |db.comments.Keys| == |db.comments|;
    assert CommentListing(db, None, None) == OrderBy(ids, CommentCreated(db.comments), Descending);
  }

  /** The comment count an event shows is the number of entries of the
      unfiltered comment list that belong to that event. */
  lemma {:induction false} CommentsCountIsListed(db: Db, e: Id)
    ensures var r := CommentListing(db, None, None);
            CommentsCount(db.comments, e) == |set k | k in r && db.comments[k].event == e|
  {
    var r := CommentListing(db, None, None);
    assert forall k :: k in r <==> k in db.comments;
    assert Where(db.comments, CommentOn(e)) == set k | k in r && db.comments[k].event == e;
  }

  /** `FollowerList.get`: every follow, the newest first. */
  ghost function FollowerListing(db: Db): (r: seq<Id>)
    ensures forall k :: k in r <==> k in db.follows
    ensures forall i, j :: 0 <= i < j < |r| ==> r[i] != r[j]
    ensures Sorted(r, FollowCreated(db.follows), Descending)
  {
    OrderBy(db.follows.Keys, FollowCreated(db.follows), Descending)
  }

  /** The follower count a profile shows is the number of entries of the
      follow list that point at its owner. */
  lemma {:induction false} FollowersCountIsListed(db: Db, u: Id)
    ensures var r := FollowerListing(db);
            FollowersCount(db.follows, u) == |set k | k in r && db.follows[k].followed == u|
  {
    var r := FollowerListing(db);
    assert Where(db.follows, FollowOf(u)) == set k | k in r && db.follows[k].followed == u;
  }

  /** The following count a profile shows is the number of entries of the
      follow list that come from its owner. */
  lemma {:induction false} FollowingCountIsListed(db: Db, u: Id)
    ensures var r := FollowerListing(db);
            FollowingCount(db.follows, u) == |set k | k in r && db.follows[k].owner == u|
  {
    var r := FollowerListing(db);
    assert Where(db.follows, FollowBy(u)) == set k | k in r && db.follows[k].owner == u;
  }
}
