/** Listing a finite set of IDs by a rank, ties broken by ID: what sort.Slice leaves behind. */
module Ordering {
  import opened StoreState

  predicate Before(rank: Id -> int, a: Id, b: Id) {
    rank(a) < rank(b) || (rank(a) == rank(b) && a < b)
  }

  predicate Sorted(rank: Id -> int, q: seq<Id>) {
    forall i, j :: 0 <= i < j < |q| ==> Before(rank, q[i], q[j])
  }

  function Elements(q: seq<Id>): set<Id> {
    set x | x in q
  }

  /** Two sorted listings of the same set are the same list. */
  lemma {:induction false} SortedUnique(rank: Id -> int, p: seq<Id>, q: seq<Id>)
    requires Sorted(rank, p) && Sorted(rank, q) && Elements(p) == Elements(q)
    ensures p == q
    decreases |p|
  {
    assert p == [] <==> Elements(p) == {} by { Empty(p); }
    assert q == [] <==> Elements(q) == {} by { Empty(q); }
    if p != [] && q != [] {
      assert p[0] in Elements(p) && q[0] in Elements(q);
      var j :| 0 <= j < |q| && q[j] == p[0];
      var i :| 0 <= i < |p| && p[i] == q[0];
      assert p[0] == q[0];
      assert Elements(p[1..]) == Elements(p) - {p[0]} by { Tail(rank, p); }
      assert Elements(q[1..]) == Elements(q) - {q[0]} by { Tail(rank, q); }
      SortedUnique(rank, p[1..], q[1..]);
    }
  }

  lemma Empty(q: seq<Id>)
    ensures q == [] <==> Elements(q) == {}
  {
    if q != [] { assert q[0] in Elements(q); }
  }

  lemma Tail(rank: Id -> int, p: seq<Id>)
    requires p != [] && Sorted(rank, p)
    ensures Elements(p[1..]) == Elements(p) - {p[0]}
  {
    forall x | x in Elements(p) && x != p[0] ensures x in p[1..] {
      var i :| 0 <= i < |p| && p[i] == x;
      assert p[1..][i - 1] == x;
    }
    forall x | x in p[1..] ensures x in p && x != p[0] {
      var i :| 0 <= i < |p[1..]| && p[1..][i] == x;
      assert p[i + 1] == x && Before(rank, p[0], p[i + 1]);
    }
  }

  method Insert(rank: Id -> int, q: seq<Id>, x: Id) returns (r: seq<Id>)
    requires Sorted(rank, q) && x !in q
    ensures Sorted(rank, r) && Elements(r) == Elements(q) + {x}
  {
    var i := 0;
    while i < |q| && Before(rank, q[i], x)
      invariant 0 <= i <= |q|
      invariant forall j :: 0 <= j < i ==> Before(rank, q[j], x)
    {
      i := i + 1;
    }
    r := q[..i] + [x] + q[i..];
    forall j | i <= j < |q| ensures Before(rank, x, q[j]) {
      assert q[i] in q && q[j] in q;
    }
    forall a, b | 0 <= a < b < |r| ensures Before(rank, r[a], r[b]) {
      if a < i {
        assert r[a] == q[a];
        if b > i { assert r[b] == q[b - 1]; }
      } else if a > i {
        assert r[a] == q[a - 1] && r[b] == q[b - 1];
      }
    }
    forall y ensures y in Elements(r) <==> y in Elements(q) || y == x {
      if y in q {
        var j :| 0 <= j < |q| && q[j] == y;
        assert r[if j < i then j else j + 1] == y;
      }
      assert r[i] == x;
    }
  }

  method Sort(rank: Id -> int, ids: set<Id>) returns (q: seq<Id>)
    ensures Sorted(rank, q) && Elements(q) == ids
  {
    q := [];
    var todo := ids;
    while todo != {}
      invariant todo <= ids
      invariant Sorted(rank, q) && Elements(q) == ids - todo
      decreases todo
    {
      var x :| x in todo;
      assert x !in Elements(q);
      q := Insert(rank, q, x);
      todo := todo - {x};
    }
  }

  /** limit 0 means no limit. */
  function Limited(q: seq<Id>, limit: nat): seq<Id> {
    if 0 < limit < |q| then q[..limit] else q
  }

  lemma SortedListing(rank: Id -> int, ids: set<Id>)
    ensures exists q :: Sorted(rank, q) && Elements(q) == ids
    decreases ids
  {
    if ids == {} {
      assert Sorted(rank, []) && Elements([]) == {};
    } else {
      var m := Least(rank, ids);
      SortedListing(rank, ids - {m});
      var q :| Sorted(rank, q) && Elements(q) == ids - {m};
      forall j | 0 <= j < |q| ensures Before(rank, m, q[j]) {
        assert q[j] in Elements(q);
      }
      assert Sorted(rank, [m] + q);
      assert forall x :: x in [m] + q <==> x == m || x in Elements(q);
    }
  }

  lemma Least(rank: Id -> int, ids: set<Id>) returns (m: Id)
    requires ids != {}
    ensures m in ids && forall x :: x in ids && x != m ==> Before(rank, m, x)
    decreases ids
  {
    var x :| x in ids;
    m := x;
    if ids != {x} {
      assert ids - {x} != {};
      var y := Least(rank, ids - {x});
      if Before(rank, y, x) { m := y; }
      forall z | z in ids && z != m ensures Before(rank, m, z) {
        assert z == x || z in ids - {x};
      }
    }
  }

  /** The one sorted listing of a set. */
  ghost function Listing(rank: Id -> int, ids: set<Id>): (q: seq<Id>)
    ensures Sorted(rank, q) && Elements(q) == ids
  {
    SortedListing(rank, ids);
    var q :| Sorted(rank, q) && Elements(q) == ids;
    q
  }
}
