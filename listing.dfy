/** `Meta.ordering` and `?ordering=`: a list endpoint returns the primary keys
    it selected, sorted by one column. */
module Listing {
  import opened Common

  datatype Direction = Ascending | Descending

  /** `a` may come before `b` in a listing sorted by `key` in direction `dir`. */
  predicate InOrder(key: Id -> int, dir: Direction, a: Id, b: Id)
  {
    if dir == Ascending then key(a) <= key(b) else key(a) >= key(b)
  }

  ghost predicate Sorted(s: seq<Id>, key: Id -> int, dir: Direction)
  {
    forall i, j :: 0 <= i < j < |s| ==> InOrder(key, dir, s[i], s[j])
  }

  /** Every non-empty selection has a row that may be listed first. */
  lemma {:induction false} HasFirst(ids: set<Id>, key: Id -> int, dir: Direction)
    requires ids != {}
    ensures exists x :: x in ids && forall y :: y in ids ==> InOrder(key, dir, x, y)
    decreases ids
  {
    var a :| a in ids;
    if ids == {a} {
      assert forall y :: y in ids ==> y == a;
      assert InOrder(key, dir, a, a);
    } else {
      var rest := ids - {a};
      HasFirst(rest, key, dir);
      var b :| b in rest && forall y :: y in rest ==> InOrder(key, dir, b, y);
      if InOrder(key, dir, a, b) {
        forall y | y in ids ensures InOrder(key, dir, a, y) {
          if y != a {
            assert InOrder(key, dir, b, y);
          }
        }
      } else {
        assert forall y :: y in ids ==> InOrder(key, dir, b, y);
      }
    }
  }

  /** The selection `ids` listed once each, sorted by `key`. Rows with equal
      keys come in an unspecified order, as they do from the database. */
  ghost function OrderBy(ids: set<Id>, key: Id -> int, dir: Direction): (r: seq<Id>)
    ensures |r| == |ids|
    ensures forall x :: x in ids <==> x in r
    ensures forall i, j :: 0 <= i < j < |r| ==> r[i] != r[j]
    ensures Sorted(r, key, dir)
    decreases ids
  {
    if ids == {} then
      []
    else
      HasFirst(ids, key, dir);
      var x :| x in ids && forall y :: y in ids ==> InOrder(key, dir, x, y);
      [x] + OrderBy(ids - {x}, key, dir)
  }
}
