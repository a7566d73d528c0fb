/** The rows of the seven tables and the constraints their columns declare
    (events/models.py, profiles/models.py, likes/models.py, comments/models.py,
    favorites/models.py, followers/models.py). Timestamps are ticks of a
    logical clock. */
module Models {
  import opened Common

  /** `Event.CATEGORY_CHOICES`. */
  datatype Category = Music | Tech | Sports | Arts | Food | Outdoors | Other {

    /** The value stored in the `category` column. */
    function Key(): string
    {
      match this
      case Music => "music"
      case Tech => "tech"
      case Sports => "sports"
      case Arts => "arts"
      case Food => "food"
      case Outdoors => "outdoors"
      case Other => "other"
    }

    /** The human-readable name of the choice. */
    function Label(): string
    {
      match this
      case Music => "Music"
      case Tech => "Technology"
      case Sports => "Sports"
      case Arts => "Arts"
      case Food => "Food"
      case Outdoors => "Outdoors"
      case Other => "Other"
    }
  }

  /** `category = CharField(max_length=50, ...)`. */
  const CategoryMaxLength := 50

  /** The choice a submitted category value names, if any. */
  function ParseCategory(s: string): (r: Option<Category>)
    ensures r.Some? ==> r.value.Key() == s
  {
    if s == "music" then Some(Music)
    else if s == "tech" then Some(Tech)
    else if s == "sports" then Some(Sports)
    else if s == "arts" then Some(Arts)
    else if s == "food" then Some(Food)
    else if s == "outdoors" then Some(Outdoors)
    else if s == "other" then Some(Other)
    else None
  }

  /** Each stored key reads back as its own choice, and fits the column. */
  lemma {:induction false} CategoryRoundTrip(c: Category)
    ensures ParseCategory(c.Key()) == Some(c)
    ensures |c.Key()| <= CategoryMaxLength
  {
    match c
    case Music =>
    case Tech =>
    case Sports =>
    case Arts =>
    case Food =>
    case Outdoors =>
    case Other =>
  }

  /** A value is accepted exactly when it is the key of some choice. */
  lemma ParseCategoryComplete(s: string)
    ensures ParseCategory(s).None? <==> forall c: Category :: c.Key() != s
  {
    if ParseCategory(s).None? {
      forall c: Category ensures c.Key() != s {
        CategoryRoundTrip(c);
      }
    }
  }

  /** The user table belongs to django.contrib.auth; only the username is read here. */
  datatype User = User(username: string)

  /** `avatar = ImageField(upload_to='avatars/', default='avatars/default.jpg')`.
      Image files are opaque names; the empty name is a blank image field. */
  const DefaultAvatar := "avatars/default.jpg"

  datatype Profile = Profile(
    owner: Id,
    createdAt: nat,
    updatedAt: nat,
    name: string,
    bio: string,
    location: string,
    avatar: string)

  /** What `Profile.objects.create(owner=instance)` stores: the column defaults. */
  function NewProfile(owner: Id, now: nat): (p: Profile)
    ensures p.owner == owner && p.createdAt == now && p.updatedAt == now
    ensures p.name == "" && p.bio == "" && p.location == "" && p.avatar == DefaultAvatar
  {
    Profile(owner, now, now, "", "", "", DefaultAvatar)
  }

  /** The declared bounds of a profile row. */
  predicate ProfileRowOk(p: Profile)
  {
    FitsCharField(p.name, MaxCharLength) && FitsCharField(p.location, MaxCharLength)
    && p.createdAt <= p.updatedAt
  }

  /** `price = DecimalField(max_digits=10, decimal_places=2)`, held in cents:
      at most ten digits in all. */
  const PriceBound := 10_000_000_000

  predicate PriceOk(cents: int)
  {
    -PriceBound < cents < PriceBound
  }

  /** `date` is a client-supplied timestamp; `cover` an opaque image name, blank allowed. */
  datatype Event = Event(
    owner: Id,
    createdAt: nat,
    updatedAt: nat,
    title: string,
    description: string,
    date: int,
    location: string,
    category: Category,
    cover: string,
    price: int)

  /** The declared bounds of an event row. */
  predicate EventRowOk(e: Event)
  {
    FitsCharField(e.title, MaxCharLength) && FitsCharField(e.location, MaxCharLength)
    && PriceOk(e.price) && e.createdAt <= e.updatedAt
  }

  /** A like: `owner` likes `event`. */
  datatype Like = Like(owner: Id, event: Id, createdAt: nat)

  datatype Comment = Comment(owner: Id, event: Id, content: string, createdAt: nat, updatedAt: nat)

  predicate CommentRowOk(c: Comment)
  {
    c.createdAt <= c.updatedAt
  }

  /** A favorite: `owner` saved `event`. */
  datatype Favorite = Favorite(owner: Id, event: Id, createdAt: nat)

  /** A follow: `owner` follows `followed` (directed). */
  datatype Follower = Follower(owner: Id, followed: Id, createdAt: nat)
}
