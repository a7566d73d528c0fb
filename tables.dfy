/** Queries every table of the model shares: the rows a filter keeps, how many
    rows match a condition, and the first row that matches one. A table is a
    finite map from primary key to row. */
module Tables {
  import opened Common

  /** `Model.objects.filter(...)` as a table: the rows satisfying `p`. */
  function Keep<T>(m: map<Id, T>, p: T -> bool): (r: map<Id, T>)
    ensures forall k :: k in r <==> k in m && p(m[k])
    ensures forall k :: k in r ==> r[k] == m[k]
  {
    map k | k in m && p(m[k]) :: m[k]
  }

  /** The primary keys of the rows satisfying `p`. */
  function Where<T>(m: map<Id, T>, p: T -> bool): (ids: set<Id>)
    ensures forall k :: k in ids <==> k in m && p(m[k])
  {
    set k | k in m && p(m[k])
  }

  /** `Model.objects.filter(...).count()`: the number of matching rows. */
  function CountWhere<T>(m: map<Id, T>, p: T -> bool): nat
  {
    |Where(m, p)|
  }

  /** `.filter(...).first()`: some matching row, or None when no row matches. */
  ghost function FindWhere<T>(m: map<Id, T>, p: T -> bool): (r: Option<Id>)
    ensures r.Some? ==> r.value in m && p(m[r.value])
    ensures r.None? <==> forall k :: k in m ==> !p(m[k])
  {
    if exists k :: k in m && p(m[k]) then
      var k :| k in m && p(m[k]); Some(k)
    else
      None
  }

  /** Inserting a row under a fresh key adds one to every count the row matches
      and leaves the others as they were. */
  lemma {:induction false} CountInsert<T>(m: map<Id, T>, id: Id, x: T, p: T -> bool)
    requires id !in m
    ensures CountWhere(m[id := x], p) == CountWhere(m, p) + (if p(x) then 1 else 0)
  {
    var before, after := Where(m, p), Where(m[id := x], p);
    if p(x) {
      assert after == before + {id};
    } else {
      assert after == before;
    }
  }

  /** Deleting a row subtracts one from every count the row matched. */
  lemma {:induction false} CountRemove<T>(m: map<Id, T>, id: Id, p: T -> bool)
    requires id in m
    ensures CountWhere(m - {id}, p) == CountWhere(m, p) - (if p(m[id]) then 1 else 0)
  {
    var before, after := Where(m, p), Where(m - {id}, p);
    if p(m[id]) {
      assert before == after + {id};
    } else {
      assert after == before;
    }
  }

  /** Overwriting a row with one that matches `p` exactly when the old one did
      leaves the count unchanged. */
  lemma {:induction false} CountReplace<T>(m: map<Id, T>, id: Id, y: T, p: T -> bool)
    requires id in m && p(y) == p(m[id])
    ensures CountWhere(m[id := y], p) == CountWhere(m, p)
  {
    assert Where(m[id := y], p) == Where(m, p);
  }

  /** After keeping only the rows that satisfy `q`, a condition `p` that no such
      row satisfies counts nothing. */
  lemma {:induction false} CountKeepExcluded<T>(m: map<Id, T>, q: T -> bool, p: T -> bool)
    requires forall k :: k in m && q(m[k]) ==> !p(m[k])
    ensures CountWhere(Keep(m, q), p) == 0
  {
    assert Where(Keep(m, q), p) == {};
  }

  /** Keeping rows with `q` does not change a count whose rows all satisfy `q`. */
  lemma {:induction false} CountKeepIncluded<T>(m: map<Id, T>, q: T -> bool, p: T -> bool)
    requires forall k :: k in m && p(m[k]) ==> q(m[k])
    ensures CountWhere(Keep(m, q), p) == CountWhere(m, p)
  {
    assert Where(Keep(m, q), p) == Where(m, p);
  }

  /** When no two distinct keys both match `p`, at most one row matches. */
  lemma {:induction false} CountAtMostOne<T>(m: map<Id, T>, p: T -> bool)
    requires forall a, b :: a in m && b in m && p(m[a]) && p(m[b]) ==> a == b
    ensures CountWhere(m, p) <= 1
  {
    var s := Where(m, p);
    if s != {} {
      var a :| a in s;
      assert s == {a};
    }
  }

  /** When no two distinct keys both match `p`, the row `FindWhere` picks is
      the only one. */
  lemma {:induction false} FindWhereUnique<T>(m: map<Id, T>, p: T -> bool, id: Id)
    requires forall a, b :: a in m && b in m && p(m[a]) && p(m[b]) ==> a == b
    requires id in m && p(m[id])
    ensures FindWhere(m, p) == Some(id)
  {
  }
}
