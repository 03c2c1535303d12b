/** Results, listings without duplicates, and a few facts about finite sets. */
module Prelude {

  datatype Option<+T> = None | Some(value: T)

  datatype Result<+T, +E> = Ok(value: T) | Err(error: E)

  /** No element occurs twice. */
  ghost predicate NoDup<T>(s: seq<T>) {
    forall i, j :: 0 <= i < j < |s| ==> s[i] != s[j]
  }

  ghost function Elems<T(!new)>(s: seq<T>): set<T> {
    set x | x in s
  }

  /** `q` enumerates the set `s` in some order: what a SELECT without ORDER BY returns. */
  ghost predicate Lists<T(!new)>(q: seq<T>, s: set<T>) {
    NoDup(q) && Elems(q) == s
  }

  lemma {:induction false} NoDupCardinality<T(!new)>(q: seq<T>)
    ensures NoDup(q) ==> |Elems(q)| == |q|
    ensures |Elems(q)| <= |q|
    ensures |Elems(q)| == |q| ==> NoDup(q)
  {
    if q == [] {
    } else {
      var rest := q[..|q| - 1];
      var last := q[|q| - 1];
      NoDupCardinality(rest);
      assert q == rest + [last];
      assert Elems(q) == Elems(rest) + {last};
      if last in rest {
        assert Elems(q) == Elems(rest);
        var i :| 0 <= i < |rest| && rest[i] == last;
        assert q[i] == q[|q| - 1];
      } else {
        assert |Elems(q)| == |Elems(rest)| + 1;
      }
    }
  }

  lemma SubsetCardinality<T>(a: set<T>, b: set<T>)
    requires a <= b
    ensures |a| <= |b|
    ensures |a| == |b| ==> a == b
  {
    assert b == a + (b - a);
    assert |b| == |a| + |b - a|;
  }

  lemma NoDupSnoc<T>(q: seq<T>, x: T)
    ensures NoDup(q + [x]) <==> NoDup(q) && x !in q
  {
    var r := q + [x];
    if x in q {
      var i :| 0 <= i < |q| && q[i] == x;
      assert r[i] == r[|q|];
    }
    assert r[..|q|] == q;
    assert forall i :: 0 <= i < |q| ==> r[i] == q[i];
  }

  /** Enumerates a set in an arbitrary order. */
  method Enumerate<T(==, !new)>(s: set<T>) returns (q: seq<T>)
    ensures Lists(q, s)
  {
    q := [];
    var rest := s;
    while rest != {}
      invariant NoDup(q)
      invariant rest <= s && Elems(q) == s - rest
      decreases |rest|
    {
      var x :| x in rest;
      assert x !in Elems(q);
      NoDupSnoc(q, x);
      assert Elems(q + [x]) == Elems(q) + {x};
      q := q + [x];
      rest := rest - {x};
    }
  }
}
