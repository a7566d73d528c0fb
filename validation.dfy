/** The checks the model serializers derive from the columns before any write:
    EventSerializer (events/serializers.py), CommentSerializer
    (comments/serializers.py) and ProfileSerializer (profiles/serializers.py).
    A request carries only some fields: `None` is a field left out. A full
    write (POST, PUT) needs every required field, a partial one (PATCH) does not. */
module Validation {
  import opened Common
  import opened Models

  /** The field errors one field contributes. */
  function Check(name: string, present: bool, ok: bool, required: bool): (r: set<string>)
    ensures r <= {name}
    ensures name in r <==> (present && !ok) || (!present && required)
  {
    if present then (if ok then {} else {name}) else (if required then {name} else {})
  }

  /** A required CharField: not blank and within its length. */
  predicate TextOk(s: string, maxLength: nat)
  {
    0 < |s| <= maxLength
  }

  /** The writable fields of EventSerializer; `owner` is read-only. */
  datatype EventInput = EventInput(
    title: Option<string>,
    description: Option<string>,
    date: Option<int>,
    location: Option<string>,
    category: Option<string>,
    cover: Option<string>,
    price: Option<int>)

  function EventErrors(input: EventInput, partial: bool): set<string>
  {
    Check("title", input.title.Some?, input.title.Some? && TextOk(input.title.value, MaxCharLength), !partial)
    + Check("description", input.description.Some?, input.description.Some? && input.description.value != "", !partial)
    + Check("date", input.date.Some?, true, !partial)
    + Check("location", input.location.Some?, input.location.Some? && TextOk(input.location.value, MaxCharLength), !partial)
    + Check("category", input.category.Some?, input.category.Some? && ParseCategory(input.category.value).Some?, !partial)
    + Check("price", input.price.Some?, input.price.Some? && PriceOk(input.price.value), !partial)
  }

  /** A full write without errors supplies every required field, each within
      its column's bounds and with a category among the choices. */
  lemma {:induction false} EventErrorsFull(input: EventInput)
    ensures EventErrors(input, false) == {} <==>
      && input.title.Some? && TextOk(input.title.value, MaxCharLength)
      && input.description.Some? && input.description.value != ""
      && input.date.Some?
      && input.location.Some? && TextOk(input.location.value, MaxCharLength)
      && input.category.Some? && ParseCategory(input.category.value).Some?
      && input.price.Some? && PriceOk(input.price.value)
  {
    var e := EventErrors(input, false);
    if e == {} {
      assert "title" !in e && "description" !in e && "date" !in e;
      assert "location" !in e && "category" !in e && "price" !in e;
    }
  }

  /** A field a partial write may leave out is never an error there, so a
      write that passes full validation also passes partial validation. */
  lemma {:induction false} PartialErrorsFewer(input: EventInput)
    ensures EventErrors(input, true) <= EventErrors(input, false)
  {
  }

  /** The row `serializer.save(owner=...)` inserts for a valid full write. */
  function NewEvent(owner: Id, input: EventInput, now: nat): (e: Event)
    requires EventErrors(input, false) == {}
    ensures EventRowOk(e) && e.owner == owner && e.createdAt == now && e.updatedAt == now
    ensures Some(e.title) == input.title && Some(e.description) == input.description
    ensures Some(e.date) == input.date && Some(e.location) == input.location
    ensures Some(e.category.Key()) == input.category && Some(e.price) == input.price
    ensures e.cover == (if input.cover.Some? then input.cover.value else "")
  {
    EventErrorsFull(input);
    Event(owner, now, now, input.title.value, input.description.value, input.date.value,
          input.location.value, ParseCategory(input.category.value).value,
          if input.cover.Some? then input.cover.value else "", input.price.value)
  }

  function Pick<T>(v: Option<T>, old_: T): T
  {
    if v.Some? then v.value else old_
  }

  /** The row after a valid update: supplied fields replaced, `updated_at`
      refreshed, owner and `created_at` kept. */
  function PatchEvent(e: Event, input: EventInput, now: nat): (r: Event)
    requires EventErrors(input, true) == {}
    ensures EventRowOk(e) && e.updatedAt <= now ==> EventRowOk(r)
    ensures r.owner == e.owner && r.createdAt == e.createdAt && r.updatedAt == now
    ensures r.title == Pick(input.title, e.title) && r.description == Pick(input.description, e.description)
    ensures r.date == Pick(input.date, e.date) && r.location == Pick(input.location, e.location)
    ensures r.cover == Pick(input.cover, e.cover) && r.price == Pick(input.price, e.price)
    ensures input.category.Some? ==> r.category.Key() == input.category.value
    ensures input.category.None? ==> r.category == e.category
  {
    var errs := EventErrors(input, true);
    assert "title" !in errs && "location" !in errs && "category" !in errs && "price" !in errs;
    e.(updatedAt := now,
       title := Pick(input.title, e.title),
       description := Pick(input.description, e.description),
       date := Pick(input.date, e.date),
       location := Pick(input.location, e.location),
       category := if input.category.Some? then ParseCategory(input.category.value).value else e.category,
       cover := Pick(input.cover, e.cover),
       price := Pick(input.price, e.price))
  }

  /** The writable fields of CommentSerializer: `owner` and `event_title` are read-only. */
  datatype CommentInput = CommentInput(event: Option<Id>, content: Option<string>)

  /** `event` must name an existing event; `content` must not be blank. */
  function CommentErrors(input: CommentInput, partial: bool, eventIds: set<Id>): (errs: set<string>)
    ensures errs <= {"event", "content"}
    ensures "event" in errs <==> (input.event.None? && !partial) || (input.event.Some? && input.event.value !in eventIds)
    ensures "content" in errs <==> (input.content.None? && !partial) || (input.content.Some? && input.content.value == "")
    ensures errs == {} <==>
      (!partial ==> input.event.Some? && input.content.Some?)
      && (input.event.Some? ==> input.event.value in eventIds)
      && (input.content.Some? ==> input.content.value != "")
  {
    Check("event", input.event.Some?, input.event.Some? && input.event.value in eventIds, !partial)
    + Check("content", input.content.Some?, input.content.Some? && input.content.value != "", !partial)
  }

  /** The comment after a valid update: supplied fields replaced, `updated_at`
      refreshed, owner and `created_at` kept. */
  function PatchComment(c: Comment, input: CommentInput, now: nat): (r: Comment)
    ensures CommentRowOk(c) && c.updatedAt <= now ==> CommentRowOk(r)
    ensures r.owner == c.owner && r.createdAt == c.createdAt && r.updatedAt == now
    ensures r.event == Pick(input.event, c.event) && r.content == Pick(input.content, c.content)
  {
    c.(event := Pick(input.event, c.event), content := Pick(input.content, c.content), updatedAt := now)
  }

  /** The writable fields of ProfileSerializer. `avatar` is a method field
      there, so it cannot be written; `owner` is read-only. */
  datatype ProfileInput = ProfileInput(name: Option<string>, bio: Option<string>, location: Option<string>)

  /** All three fields may be blank; name and location are bounded. */
  function ProfileErrors(input: ProfileInput): (errs: set<string>)
    ensures errs <= {"name", "location"}
    ensures "name" in errs <==> input.name.Some? && !FitsCharField(input.name.value, MaxCharLength)
    ensures "location" in errs <==> input.location.Some? && !FitsCharField(input.location.value, MaxCharLength)
    ensures errs == {} <==>
      (input.name.Some? ==> FitsCharField(input.name.value, MaxCharLength))
      && (input.location.Some? ==> FitsCharField(input.location.value, MaxCharLength))
  {
    Check("name", input.name.Some?, input.name.Some? && FitsCharField(input.name.value, MaxCharLength), false)
    + Check("location", input.location.Some?, input.location.Some? && FitsCharField(input.location.value, MaxCharLength), false)
  }

  /** The profile after a valid update: supplied fields replaced, `updated_at`
      refreshed, owner, avatar and `created_at` kept. */
  function PatchProfile(p: Profile, input: ProfileInput, now: nat): (r: Profile)
    requires ProfileErrors(input) == {}
    ensures ProfileRowOk(p) && p.updatedAt <= now ==> ProfileRowOk(r)
    ensures r.owner == p.owner && r.createdAt == p.createdAt && r.updatedAt == now
    ensures r.name == Pick(input.name, p.name) && r.bio == Pick(input.bio, p.bio)
    ensures r.location == Pick(input.location, p.location) && r.avatar == p.avatar
  {
    p.(updatedAt := now,
       name := Pick(input.name, p.name),
       bio := Pick(input.bio, p.bio),
       location := Pick(input.location, p.location))
  }
}
