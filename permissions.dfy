/** The permission classes the views name. `IsOwnerOrReadOnly` lives in
    eventify/permissions.py, which is not part of this model; it is modelled as
    the tests exercise it: reads are open, writes are the owner's. */
module Permissions {
  import opened Common

  /** DRF's SAFE_METHODS (GET, HEAD, OPTIONS) read; everything else writes. */
  datatype Access = Read | Write

  /** `permissions.IsAuthenticated`. */
  predicate IsAuthenticated(viewer: Viewer)
  {
    viewer.Authenticated?
  }

  /** `permissions.IsAuthenticatedOrReadOnly`. */
  predicate AuthenticatedOrReadOnly(viewer: Viewer, access: Access)
  {
    access == Read || IsAuthenticated(viewer)
  }

  /** `IsOwnerOrReadOnly.has_object_permission`. */
  predicate OwnerOrReadOnly(viewer: Viewer, owner: Id, access: Access)
  {
    access == Read || IsOwner(viewer, owner)
  }

  /** DRF's `permission_denied`: a request without an identity is told so,
      an authenticated one gets 403. */
  function Refusal(viewer: Viewer): (s: Status)
    ensures s == NotAuthenticated <==> viewer.Anonymous?
    ensures s == Forbidden <==> viewer.Authenticated?
  {
    if viewer.Anonymous? then NotAuthenticated else Forbidden
  }

  /** Reads are always allowed; a write is allowed to exactly one identity,
      the owner, and never to an anonymous viewer. */
  lemma {:induction false} OwnerOnlyWrites(viewer: Viewer, owner: Id)
    ensures OwnerOrReadOnly(viewer, owner, Read)
    ensures OwnerOrReadOnly(viewer, owner, Write) <==> viewer == Authenticated(owner)
    ensures viewer.Anonymous? ==> !OwnerOrReadOnly(viewer, owner, Write)
  {
  }
}
