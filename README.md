# eventify: a Dafny model of the event-sharing backend

eventify is a Django REST Framework backend for sharing events. Users post
events. Other users like them, comment on them and save them as favorites,
and users follow each other. Every user gets one profile, made by a
`post_save` hook when the user row is created.

This project models the database behind the API and the views that write
to it:

- Seven tables: users, profiles, events, likes, comments, favorites and
  follows.
- What each create, update and delete request does to those tables, and
  the answer it gives.
- The values the serializers compute on the read side.
- The list endpoints.
- The CORS middleware.

Module by module:

- `Integrity.Db` is the database as one value. `Integrity.DbOk` holds the
  constraints the schema declares:
  - foreign keys that always resolve (every `on_delete=CASCADE`);
  - `unique_together` on likes, favorites and follows;
  - one profile per user;
  - unique usernames;
  - column bounds.
- `Views` gives each request as a transition on that value. DRF's order of
  steps is followed: the permission class, the row lookup and its 404, the
  object permission, serializer validation, then the save with the
  constraints the table enforces.
- `Backend.Store` is the database as an object whose tables are fields
  updated in place. Each request `X` is a pair of methods:
  - `ApplyX` performs the view's steps on the fields and is proved to do
    what `Views.X` describes.
  - `X` takes a store meeting `DbOk` and is proved to leave one that still
    meets it.
- `Invariants` and `Cascades` prove that every transition keeps `DbOk`.
  The deletes are the hard part, because their cascades must leave nothing
  dangling.
- `Properties` proves what the views promise across requests:
  - a second like is refused with 400 and exactly one like remains;
  - comments have no such limit;
  - a follow moves exactly the two counts it should and is directed;
  - self-follow is accepted;
  - each new user gets exactly one profile and a re-save makes none;
  - only owners write;
  - a failed request changes nothing.
- `Serializers` covers the read side:
  - the four counts;
  - the viewer's `like_id`, `following_id` and `is_owner`;
  - the avatar URL;
  - the `CurrentUserSerializer` fields.
- `Queries` covers the list endpoints: which rows each one returns, once
  each, in `Meta.ordering` order. These use `Listing.OrderBy`.
- `Validation` covers the field checks the model serializers derive from
  the columns.
- `Cors` is the middleware of `eventify/cors_middleware.py`:
  - a class whose constructor reads the environment;
  - a `Call` method that writes the four headers into the response
    object's header map, which, as in Django, ignores the case of header
    names.

Modelling choices:

- Timestamps are ticks of a logical clock that every successful save
  advances.
- Primary keys come from one auto-increment counter per table.
- Image storage is a function parameter, `storageUrl`.

## Model

| member | source | states |
|---|---|---|
| Models.ParseCategory | events/models.py:7-15 | a value is accepted only as the stored key of the choice it returns |
| Models.CategoryRoundTrip | events/models.py:7-15 | every choice's key parses back to that choice and fits `max_length=50` |
| Models.ParseCategoryComplete | events/models.py:24 | a category value is refused exactly when it is the key of no choice |
| Models.NewProfile | profiles/models.py:6-15 | the profile the hook creates: the given owner, both timestamps now, blank name, bio and location, the `avatars/default.jpg` default avatar |
| Permissions.Refusal | events/views.py:28 | a refused write answers "not authenticated" exactly for an anonymous viewer and 403 exactly for a logged-in one |
| Permissions.OwnerOnlyWrites | comments/views.py:27 | `IsOwnerOrReadOnly`: reads are always allowed; a write is allowed exactly to the owner, never to an anonymous viewer |
| Validation.Check | events/serializers.py:24-30 | one field reports an error exactly when it is present and invalid, or absent and required |
| Validation.EventErrorsFull | events/models.py:20-26 | a full event write is error-free exactly when title, description, date, location, category and price are all present, title and location are non-blank within 255, category is a choice and price is within ten digits |
| Validation.PartialErrorsFewer | events/views.py:27-33 | every error a PATCH reports, a PUT of the same fields reports too |
| Validation.NewEvent | events/views.py:24-25 | the saved event meets its column bounds, has the requesting user as owner, both timestamps now and exactly the submitted values (blank cover when none was sent) |
| Validation.PatchEvent | events/models.py:18-19 | an update keeps owner and `created_at`, refreshes `updated_at`, replaces exactly the submitted fields and keeps the column bounds |
| Validation.CommentErrors | comments/serializers.py:14-19 | `event` is reported exactly when it is missing from a full write or names no event, `content` exactly when it is missing from a full write or blank; so a write is error-free exactly when both hold |
| Validation.PatchComment | comments/models.py:16-18 | a comment update keeps owner and `created_at`, stamps `updated_at` with the current time and replaces exactly the submitted event and content |
| Validation.ProfileErrors | profiles/models.py:10-12 | `name` and `location` are each reported exactly when supplied and longer than 255; `bio` is never reported, so a write is error-free exactly when both bounds hold |
| Validation.PatchProfile | profiles/serializers.py:20-26 | a profile update keeps owner, avatar and `created_at`, refreshes `updated_at` and replaces exactly the submitted name, bio and location |
| Listing.OrderBy | profiles/models.py:17-18 | a listing holds every selected row exactly once, sorted by the ordering key in the requested direction |
| Queries.EventListing | events/views.py:11-17 | the event list holds every event once, the latest date first |
| Queries.ProfileListing | profiles/views.py:8-10 | the profile list holds every profile once, the newest first |
| Queries.ProfileListingCoversUsers | profiles/tests.py:18-23 | the profile list is as long as the user table |
| Queries.LikeListing | likes/views.py:8-21 | the like list holds exactly the likes matching the `event` and `owner` filters, once each, ordered by `created_at` as requested |
| Queries.FilterErrors | likes/views.py:16-17 | the `event` filter is refused exactly when it names no event, the `owner` filter exactly when it names no user |
| Queries.LikeList | likes/views.py:8-18 | a like list request is refused with the field errors exactly when a filter names no row; otherwise it answers the like listing |
| Queries.LikesCountIsListLength | events/views.py:14-17 | an event's `likes_count` is the length of the like list filtered on that event |
| Queries.FavoriteList | favorites/views.py:8-18 | a favorite list request is refused with the field errors exactly when a filter names no row; otherwise it answers the favorite listing |
| Queries.FavoriteListing | favorites/views.py:8-21 | the favorite list holds exactly the favorites matching both filters, once each, ordered by `created_at` as requested |
| Queries.CommentListing | comments/views.py:8-21 | the comment list holds exactly the comments whose two timestamps match the filters, once each, the newest first |
| Queries.CommentListingUnfiltered | comments/views.py:15 | without parameters the comment list holds every comment |
| Queries.CommentsCountIsListed | events/views.py:14-17 | an event's `comments_count` is the number of entries of the unfiltered comment list that belong to it |
| Queries.FollowerListing | followers/views.py:7-16 | the follower list holds every follow once, the newest first |
| Queries.FollowersCountIsListed | profiles/serializers.py:41-45 | a profile's `followers_count` is the number of entries of the follower list that point at its owner |
| Queries.FollowingCountIsListed | profiles/serializers.py:41-45 | a profile's `following_count` is the number of entries of the follower list that come from its owner |
| Serializers.LikesCountInsert | likes/models.py:12-16 | a new like raises its own event's count by one and no other event's count |
| Serializers.LikesCountRemove | likes/models.py:12-16 | removing a like lowers its own event's count by one and no other event's count |
| Serializers.CommentsCountInsert | comments/models.py:11-15 | a new comment raises its event's count by one, whatever comments exist |
| Serializers.CommentsCountRemove | comments/models.py:11-15 | removing a comment lowers its event's count by one |
| Serializers.CommentsCountUpdate | comments/serializers.py:16-19 | editing a comment keeps every count; moving it to another event moves one from the old event's count to the new one's |
| Serializers.FollowCountsInsert | profiles/serializers.py:41-45 | a follow of B by A raises B's followers and A's following by one and no other count |
| Serializers.FollowCountsRemove | profiles/serializers.py:41-45 | removing a follow lowers exactly those two counts by one |
| Serializers.LikeId | events/serializers.py:17-22 | `like_id` is None for an anonymous viewer; otherwise it is one of the viewer's likes of the event, and None only when there is none |
| Serializers.FollowingId | profiles/serializers.py:32-39 | `following_id` is None for an anonymous viewer; otherwise it is one of the viewer's follows of the owner, and None only when there is none |
| Serializers.LikeIdIsTheLike | events/serializers.py:17-22 | with likes unique per pair, `like_id` is exactly the viewer's like and the count is at least one |
| Serializers.AvatarUrl | profiles/serializers.py:22-26 | a non-blank avatar gives its storage URL; a blank one gives the fixed placeholder URL |
| Serializers.NewProfileAvatar | profiles/models.py:13-15 | a new profile's avatar is the storage URL of the column default, not the placeholder |
| Serializers.ProfileIdOf | eventify/serializers.py:11-12 | `profile_id` is the id of a profile the user owns, and None exactly when the user owns none |
| Serializers.FileAttr | eventify/serializers.py:15 | `getattr` of a file attribute finds a file exactly when the attribute is `avatar`, the one file field of Profile, and the avatar is not blank |
| Serializers.ProfileFileUrl | eventify/serializers.py:14-17 | an image URL is given only for a user owning a profile whose named file attribute holds a file, and None when the user has no profile |
| Serializers.ProfileImage | eventify/serializers.py:14-17 | as written (the `image` attribute): an image is given only when the user's profile has an `image` file |
| Serializers.ProfileImageAlwaysNone | eventify/serializers.py:15 | as written, `profile_image` is None for every user and every table, since no profile has an `image` file |
| Serializers.ProfileImageFromAvatar | eventify/serializers.py:14-17 | corrected (the `avatar` attribute): an image is given only for a user owning a profile with a non-blank avatar, and None when the user has no profile |
| Serializers.ProfileImageMatchesAvatar | eventify/serializers.py:14-17 | with one profile per user, the corrected `profile_image` is exactly that profile's avatar URL |
| Serializers.ProfileImageIgnoresAvatar | eventify/serializers.py:14-17 | a user whose profile has the default avatar gets None as written but an image URL when corrected |
| Serializers.SerializeEvent | events/serializers.py:6-30 | `is_owner` holds exactly for the owner, `owner` is the owner's username, `category` is the stored key, `like_id`, `likes_count` and `comments_count` are those of the event, and a set `like_id` comes with a positive `likes_count` |
| Serializers.SerializeProfile | profiles/serializers.py:15-53 | `is_owner` holds exactly for the owner, `owner` is the username, `avatar` is the avatar URL, `following_id`, `followers_count` and `following_count` are those of the owner, and a set `following_id` comes with a positive `followers_count` |
| Serializers.SerializeComment | comments/serializers.py:5-19 | `is_owner` holds exactly for the owner; `owner`, `event` and `event_title` are the comment's own |
| Serializers.SerializeLike | likes/serializers.py:7-15 | `owner`, `event`, `event_title` and `created_at` are the like's own |
| Serializers.SerializeFavorite | favorites/serializers.py:7-15 | `owner`, `event`, `event_title` and `created_at` are the favorite's own |
| Cascades.DeleteEventRowsExactly | likes/models.py:12-16 | deleting an event removes exactly that event and the likes, comments and favorites that point at it; every other row and every counter is unchanged |
| Cascades.DeleteEventKeepsIntegrity | comments/models.py:11-15 | after the cascade nothing references the deleted event and every constraint still holds |
| Cascades.DeleteEventCounts | events/views.py:14-17 | the deleted event's counts drop to zero and every other event keeps its counts |
| Cascades.DeleteUserRowsExactly | profiles/models.py:7 | deleting a user removes exactly the user's profile, events, likes, comments, favorites and follows on either side, plus the rows of the deleted events; every other row and every counter is unchanged |
| Cascades.DeleteUserKeepsIntegrity | followers/models.py:10-19 | after the cascade nothing references the deleted user or the user's events, and every constraint still holds |
| Cascades.DeleteUserFollowCounts | followers/models.py:10-19 | a deleted user has no followers and follows nobody |
| Cascades.ProfilesMatchUsers | profiles/tests.py:14-23 | in a consistent database there are exactly as many profiles as users |
| Cascades.ProfileOfEveryUser | profiles/models.py:23-26 | every user owns exactly one profile, and `profile_id` finds it |
| Invariants.CreateUserKeepsIntegrity | profiles/models.py:23-26 | creating a user keeps every constraint, including one profile per user |
| Invariants.SaveUserKeepsIntegrity | profiles/models.py:24-25 | re-saving a user keeps every constraint |
| Invariants.DeleteUserKeepsIntegrityView | profiles/models.py:7 | deleting a user keeps every constraint |
| Invariants.CreateEventKeepsIntegrity | events/views.py:24-25 | creating an event keeps every constraint |
| Invariants.UpdateEventKeepsIntegrity | events/views.py:27-33 | updating an event keeps every constraint |
| Invariants.DeleteEventKeepsIntegrityView | events/views.py:27-33 | deleting an event keeps every constraint |
| Invariants.PostLikeKeepsIntegrity | events/views.py:56-65 | liking through the event's like endpoint keeps every constraint, one like per pair included |
| Invariants.DestroyLikeKeepsIntegrity | events/views.py:67-69 | removing a like through the event's endpoint keeps every constraint |
| Invariants.CreateLikeKeepsIntegrity | likes/views.py:20-21 | creating a like through the like list keeps every constraint |
| Invariants.DeleteLikeKeepsIntegrity | likes/views.py:23-29 | deleting a like keeps every constraint |
| Invariants.CreateFavoriteKeepsIntegrity | favorites/views.py:20-21 | creating a favorite keeps every constraint, one favorite per pair included |
| Invariants.DeleteFavoriteKeepsIntegrity | favorites/views.py:23-29 | deleting a favorite keeps every constraint |
| Invariants.CreateCommentKeepsIntegrity | comments/views.py:20-21 | creating a comment keeps every constraint |
| Invariants.UpdateCommentKeepsIntegrity | comments/views.py:23-29 | updating a comment, moving it to another event included, keeps every constraint |
| Invariants.DeleteCommentKeepsIntegrity | comments/views.py:23-29 | deleting a comment keeps every constraint |
| Invariants.CreateFollowKeepsIntegrity | followers/views.py:15-16 | creating a follow keeps every constraint, one follow per pair included |
| Invariants.DeleteFollowKeepsIntegrity | followers/views.py:18-24 | unfollowing keeps every constraint |
| Invariants.UpdateProfileKeepsIntegrity | profiles/views.py:17-37 | updating a profile keeps every constraint |
| Properties.LikeTwice | events/views.py:56-65 | the first like answers 201; the same like again answers 400 "You have already liked this event." and changes nothing; exactly one like remains and the count rose by one |
| Properties.PostLikeLeavesOne | events/views.py:60-63 | after a like request answered 201 or 400, the user has exactly one like of the event |
| Properties.DestroyLikeCount | events/views.py:67-69 | any logged-in user may remove any like; that event's count drops by one and no other count changes |
| Properties.CreateLikeLeavesOne | likes/serializers.py:17-23 | through the like list a repeated pair answers 400 exactly when the user already liked the event; either way exactly one like remains |
| Properties.CreateFavoriteLeavesOne | favorites/serializers.py:17-23 | the same for favorites: 400 exactly on a repeat, and exactly one favorite remains |
| Properties.CommentTwice | comments/models.py:20-21 | the same user posting the same valid comment twice gets two 201s with successive ids; the table and the event's count grow by two |
| Properties.FollowMovesCounts | profiles/serializers.py:41-45 | a follow of B by A answers 201 and raises B's followers and A's following by one |
| Properties.FollowIsDirected | followers/models.py:10-19 | after A follows B, A follows B, and whether B follows A is as before (for two different users) |
| Properties.SelfFollowAccepted | followers/models.py:23-24 | a user may follow themself: the request answers 201 and raises their followers count by one |
| Properties.NewUserGetsOneProfile | profiles/models.py:23-26 | creating a user answers 201, the new user owns exactly one profile and the profile table grows by one |
| Properties.ResaveMakesNoProfile | profiles/models.py:24-25 | after any re-save of a user, every existing user still owns exactly one profile |
| Properties.OnlyOwnerWritesEvent | events/views.py:27-28 | an event update or delete by anyone but its owner is refused (403 for a logged-in user) and changes nothing |
| Properties.OnlyOwnerWritesProfile | profiles/views.py:12-15 | a profile update by anyone but its owner is refused and changes nothing |
| Properties.OnlyOwnerDeletesLike | likes/views.py:23-29 | a like delete through the detail view by anyone but its owner is refused (403 for a logged-in user) and changes nothing |
| Properties.OnlyOwnerDeletesFavorite | favorites/views.py:23-29 | a favorite delete by anyone but its owner is refused and changes nothing |
| Properties.OnlyOwnerWritesComment | comments/views.py:23-29 | a comment update or delete by anyone but its owner is refused, whatever the input, and changes nothing |
| Properties.OnlyOwnerDeletesFollow | followers/views.py:18-24 | an unfollow by anyone but the follower, the followed user included, is refused and changes nothing |
| Properties.OwnerDeletesOwnRow | comments/views.py:23-29 | the owner's delete of a like, favorite, comment or follow answers 204 and removes exactly that row |
| Properties.OwnerEditsComment | comments/models.py:17-18 | the owner's comment update succeeds exactly when the input is error-free; then owner and `created_at` are kept, `updated_at` is the current time, the submitted fields are stored and every other row is kept |
| Properties.OwnerPatchesProfile | profiles/views.py:17-37 | the owner's patch of name and bio is stored; avatar, owner and every other profile are kept |
| Properties.OwnerPatchesEventTitle | events/tests.py:66-73 | the owner's patch of an event title is stored; date, price and owner are kept |
| Properties.FailedUserWriteChangesNothing | profiles/models.py:23-26 | a user create or re-save refused by the unique username, or a missing user, leaves the database exactly as it was |
| Properties.FailedEventRequestChangesNothing | events/views.py:11-33 | an event request answered with anything but a 2xx leaves the database exactly as it was |
| Properties.FailedLikeRequestChangesNothing | likes/views.py:8-29 | a like or favorite request answered with anything but a 2xx leaves the database exactly as it was |
| Properties.FailedSocialRequestChangesNothing | comments/views.py:8-29 | a comment, follow or profile request answered with anything but a 2xx leaves the database exactly as it was |
| Properties.AnonymousWritesNothing | events/views.py:13 | every write without a login is answered "not authenticated" and changes nothing; detail views answer so once the row is found |
| Properties.LikeMissingEvent | events/views.py:57 | liking an event that does not exist answers 404 through the event endpoint and a field error through the like list, and makes no like |
| Backend.Store.constructor | profiles/models.py:6-7 | a new store is empty and meets every constraint |
| Backend.Store.PutTables | profiles/models.py:7 | writes the seven tables at once and changes nothing else |
| Backend.Store.ApplyCreateUser | profiles/models.py:23-26 | the new tables and the answer are those of `Views.CreateUser`: 201 with the user and its profile under fresh ids, or the integrity error on a taken username |
| Backend.Store.CreateUser | profiles/models.py:23-26 | on a consistent store: the same answer and tables, and the store stays consistent |
| Backend.Store.ApplySaveUser | profiles/models.py:24-25 | the tables and the answer are those of `Views.SaveUser`: 404, the integrity error when another user holds the name, or the rename |
| Backend.Store.SaveUser | profiles/models.py:24-25 | on a consistent store: the same, and the store stays consistent |
| Backend.Store.ApplyDeleteUser | profiles/models.py:7 | the tables and the answer are those of `Views.DeleteUser`: 404, or 204 with the whole cascade applied |
| Backend.Store.DeleteUser | profiles/models.py:7 | on a consistent store: the same, and the store stays consistent |
| Backend.Store.ApplyCreateEvent | events/views.py:11-25 | the tables and the answer are those of `Views.CreateEvent`: not authenticated, 400 with the field errors, or 201 with the user's new event |
| Backend.Store.CreateEvent | events/views.py:11-25 | on a consistent store: the same, and the store stays consistent |
| Backend.Store.ApplyUpdateEvent | events/views.py:27-33 | the tables and the answer are those of `Views.UpdateEvent`: 404, refusal for a non-owner, 400, or 200 with the patched event |
| Backend.Store.UpdateEvent | events/views.py:27-33 | on a consistent store: the same, and the store stays consistent |
| Backend.Store.ApplyDeleteEvent | events/views.py:27-33 | the tables and the answer are those of `Views.DeleteEvent`: 404, refusal for a non-owner, or 204 with the event's likes, comments and favorites removed |
| Backend.Store.DeleteEvent | events/views.py:27-33 | on a consistent store: the same, and the store stays consistent |
| Backend.Store.ApplyPostLike | events/views.py:56-65 | the tables and the answer are those of `Views.PostLike`: not authenticated, 404, 400 on a repeat, or 201 with no body and the new like |
| Backend.Store.PostLike | events/views.py:56-65 | on a consistent store with a real viewer: the same, and the store stays consistent |
| Backend.Store.ApplyDestroyLike | events/views.py:67-69 | the tables and the answer are those of `Views.DestroyLike`: not authenticated, 404, or 204 for any logged-in user |
| Backend.Store.DestroyLike | events/views.py:67-69 | on a consistent store: the same, and the store stays consistent |
| Backend.Store.ApplyCreateLike | likes/views.py:8-21 | the tables and the answer are those of `Views.CreateLike`: not authenticated, a field error for a missing event, 400 on a repeat, or 201 with the new like |
| Backend.Store.CreateLike | likes/views.py:8-21 | on a consistent store with a real viewer: the same, and the store stays consistent |
| Backend.Store.ApplyDeleteLike | likes/views.py:23-29 | the tables and the answer are those of `Views.DeleteLike`: 404, refusal for a non-owner with nothing changed, or 204 with exactly that row removed for the owner (see `Properties.OnlyOwner*` and `Properties.OwnerDeletesOwnRow`) |
| Backend.Store.DeleteLike | likes/views.py:23-29 | on a consistent store: the same, and the store stays consistent |
| Backend.Store.ApplyCreateFavorite | favorites/views.py:8-21 | the tables and the answer are those of `Views.CreateFavorite`: not authenticated, a field error, 400 on a repeat, or 201 |
| Backend.Store.CreateFavorite | favorites/views.py:8-21 | on a consistent store with a real viewer: the same, and the store stays consistent |
| Backend.Store.ApplyDeleteFavorite | favorites/views.py:23-29 | the tables and the answer are those of `Views.DeleteFavorite`: 404, refusal for a non-owner with nothing changed, or 204 with exactly that row removed for the owner (see `Properties.OnlyOwner*` and `Properties.OwnerDeletesOwnRow`) |
| Backend.Store.DeleteFavorite | favorites/views.py:23-29 | on a consistent store: the same, and the store stays consistent |
| Backend.Store.ApplyCreateComment | comments/views.py:8-21 | the tables and the answer are those of `Views.CreateComment`: not authenticated, 400 with the field errors, or 201 with the new comment |
| Backend.Store.CreateComment | comments/views.py:8-21 | on a consistent store with a real viewer: the same, and the store stays consistent |
| Backend.Store.ApplyUpdateComment | comments/views.py:23-29 | the tables and the answer are those of `Views.UpdateComment`: 404, refusal for a non-owner with nothing changed, 400, or 200 with the comment patched as `Properties.OwnerEditsComment` states |
| Backend.Store.UpdateComment | comments/views.py:23-29 | on a consistent store: the same, and the store stays consistent |
| Backend.Store.ApplyDeleteComment | comments/views.py:23-29 | the tables and the answer are those of `Views.DeleteComment`: 404, refusal for a non-owner with nothing changed, or 204 with exactly that row removed for the owner (see `Properties.OnlyOwner*` and `Properties.OwnerDeletesOwnRow`) |
| Backend.Store.DeleteComment | comments/views.py:23-29 | on a consistent store: the same, and the store stays consistent |
| Backend.Store.ApplyCreateFollow | followers/views.py:7-16 | the tables and the answer are those of `Views.CreateFollow`: not authenticated, the integrity error for a missing user or a repeated pair, or 201 |
| Backend.Store.CreateFollow | followers/views.py:7-16 | on a consistent store with a real viewer: the same, and the store stays consistent |
| Backend.Store.ApplyDeleteFollow | followers/views.py:18-24 | the tables and the answer are those of `Views.DeleteFollow`: 404, refusal for a non-owner with nothing changed, or 204 with exactly that row removed for the owner (see `Properties.OnlyOwner*` and `Properties.OwnerDeletesOwnRow`) |
| Backend.Store.DeleteFollow | followers/views.py:18-24 | on a consistent store: the same, and the store stays consistent |
| Backend.Store.ApplyUpdateProfile | profiles/views.py:12-37 | the tables and the answer are those of `Views.UpdateProfile`: 404, refusal for a non-owner, 400, or 200 with the patched profile |
| Backend.Store.UpdateProfile | profiles/views.py:12-37 | on a consistent store: the same, and the store stays consistent |
| Cors.CorsMiddleware.constructor | eventify/cors_middleware.py:4-18 | the trusted origins are `CLIENT_ORIGIN` then `CLIENT_ORIGIN_DEV`, each when set, or else the two fallback origins |
| Cors.CorsMiddleware.Call | eventify/cors_middleware.py:20-33 | the response's headers become exactly those of `Cors.Decorate` on the old headers |
| Cors.AllowedOriginsShape | eventify/cors_middleware.py:7-18 | the trusted list holds one or two origins: the configured values in order, or exactly the two fallbacks |
| Cors.ConfiguredReplacesFallback | eventify/cors_middleware.py:14-18 | once either variable is set, an origin is trusted exactly when it is one of the configured values |
| Cors.FallbackAdmitsExactly | eventify/cors_middleware.py:14-18 | with neither variable set, exactly the two fallback origins get the headers |
| Cors.MissingOriginRefused | eventify/cors_middleware.py:24-27 | a request with no `Origin`, or an empty one, gets no CORS headers |
| Cors.WildcardAdmitsAll | eventify/cors_middleware.py:27 | a listed `*` admits every non-empty origin |
| Cors.SetHeader | eventify/cors_middleware.py:28 | a header assignment replaces the header of the same name in any case, stores the name as written with the value, and keeps every other header |
| Cors.CorsNamesDistinct | eventify/cors_middleware.py:28-31 | the four header names stay different when case is ignored |
| Cors.DecorateHeaders | eventify/cors_middleware.py:27-31 | when admitted, exactly the four headers are set with their fixed values (replacing any already there in another case), the allowed origin echoes the request's origin and every other header is kept; otherwise the headers are untouched |
| Cors.DecorateIdempotent | eventify/cors_middleware.py:20-33 | passing a response through the middleware twice gives the same headers as once |

## Left out

- Image storage (Cloudinary). An image is an opaque name, and its URL is the parameter `storageUrl`. Uploads and file handling are not modelled.
- URL routing, authentication and sessions. The viewer is a parameter. `ViewerOk` assumes authentication only yields users that exist.
- The debug `print` calls of `perform_update` (profiles/views.py:20-30 and 36). They only write to the console.
- Wall-clock time is replaced by a logical clock. `auto_now_add` and `auto_now` stamp rows with the current tick.
- Concurrency and transactions between requests. The model runs one request at a time.
- Search and ordering on the event list: `search_fields`, `ordering_fields` and `filterset_fields` (events/views.py:18-20). Full-text search and the query-parameter backends are third-party code. `Queries.EventListing` gives the list without parameters. Its order is by `date`, descending, as events/models.py:28-29 declares.
- `Queries.CommentListing`: the `?ordering=` parameter of the comment list (comments/views.py:16) is not modelled. With no `ordering_fields`, DRF lets it order by any readable serializer field; the model gives only the `Meta.ordering` order, newest first.
- Ties in the listings: rows with equal ordering keys may come in any order, as the database leaves them.
- Whitespace trimming by DRF's `CharField` is not modelled. Blank means the empty string.
- Price is an integer number of cents. `decimal_places=2` is modelled by that unit; `max_digits=10` is a bound on the absolute value.
- The `price` default: models.py declares no default and the model requires the field. Migration events/migrations/0005_alter_event_price.py sets `default=0`. The model follows models.py.
- The avatar default: profiles/models.py says `avatars/default.jpg`, which the model uses. Migration profiles/migrations/0002_alter_profile_avatar.py names `default_profile_ju9xum`.
- Updates of likes, favorites and follows. No view offers them, so there is no operation (DRF answers 405).
- events/views.py as written fails to import `Like`, `Comment` and `CommentSerializer`, and defines `LikeCreate.post` twice. The model takes `Like` as the likes model and the second `post` (lines 56-65) as the one that takes effect.
- The comment views of events/views.py (lines 35-46) are not modelled. They duplicate those of comments/views.py, which is the one modelled.
- The docstring of comments/views.py says the list filters by event and owner. The code filters on `created_at` and `updated_at`, and the model follows the code.
- followers/serializers.py is not part of this model. A repeated follow, or one of a missing user, is modelled as the table's integrity error. The validation response its serializer may give is not.
- eventify/permissions.py is not part of this model. `IsOwnerOrReadOnly` is modelled as DRF's usual owner check: reads are open and writes need `request.user == obj.owner`.
- An anonymous write answers `NotAuthenticated`. Whether DRF sends that as 401 or 403 depends on settings that are not part of this model.
- Reads of single rows (GET on detail views) are the serializer functions applied to the row. Their 404 is not modelled separately.
- `Views.SaveUser`: the only re-save the model offers is a change of username. Other user-row fields belong to django.contrib.auth and are not modelled.

## Findings

| source | as written | input that shows it | evidently intended | confidence | as-written member | corrected member |
|---|---|---|---|---|---|---|
| eventify/serializers.py:14-17 | `get_profile_image` reads `profile.image`, a field `Profile` does not have (its image field is `avatar`), so the answer is always None | any user whose profile has an avatar, for example the `avatars/default.jpg` default every new profile gets | the URL of the user's profile avatar | not executed | Serializers.ProfileImage (shown by Serializers.ProfileImageAlwaysNone and Serializers.ProfileImageIgnoresAvatar) | Serializers.ProfileImageFromAvatar (proved by Serializers.ProfileImageMatchesAvatar) |
