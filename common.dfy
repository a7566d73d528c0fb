/** Shared vocabulary: row ids, the optional value, the requesting identity and
    the outcomes a view can answer with. */
module Common {

  /** Primary keys are the database's auto-incremented integers. */
  type Id = nat

  datatype Option<+T> = None | Some(value: T)

  /** The identity of the request: Django's AnonymousUser or a logged-in user. */
  datatype Viewer = Anonymous | Authenticated(user: Id)

  /** What a view answers. The numbers are the HTTP status codes. */
  datatype Status =
    | Ok                                // 200
    | Created(id: Id)                   // 201, the new row (with its id) in the body
    | CreatedNoBody                     // 201 with an empty body
    | NoContent                         // 204
    | BadRequest(detail: string)        // 400 {'detail': ...}
    | InvalidFields(fields: set<string>) // 400, one error per named field
    | NotAuthenticated                  // no identity on a request that needs one
    | Forbidden                         // 403
    | NotFound                          // 404
    | IntegrityError                    // a table constraint refused the write

  /** Django's `request.user == obj.owner`: an anonymous viewer owns nothing. */
  predicate IsOwner(viewer: Viewer, owner: Id)
  {
    viewer == Authenticated(owner)
  }

  /** `max_length=255` of the CharFields. */
  const MaxCharLength := 255

  predicate FitsCharField(s: string, maxLength: nat)
  {
    |s| <= maxLength
  }
}
