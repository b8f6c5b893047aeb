/** `Array.prototype.filter` on sequences, with the facts the menu models use. */
module Seqs {

  /** The elements of `s` that satisfy `p`, in their order in `s`. */
  function Filter<T(!new)>(s: seq<T>, p: T -> bool): (r: seq<T>)
    decreases |s|
    ensures |r| <= |s|
    ensures forall i :: 0 <= i < |r| ==> p(r[i])
    ensures forall x :: x in r <==> x in s && p(x)
  {
    if s == [] then []
    else
      var front := Filter(s[..|s| - 1], p);
      assert forall x :: x in s <==> x in s[..|s| - 1] || x == s[|s| - 1] by {
        assert s == s[..|s| - 1] + [s[|s| - 1]];
      }
      if p(s[|s| - 1]) then front + [s[|s| - 1]] else front
  }

  /** Filtering keeps relative order: it distributes over concatenation. */
  lemma {:induction false} FilterConcat<T(!new)>(a: seq<T>, b: seq<T>, p: T -> bool)
    ensures Filter(a + b, p) == Filter(a, p) + Filter(b, p)
    decreases |b|
  {
    if b != [] {
      var b' := b[..|b| - 1];
      assert (a + b)[..|a + b| - 1] == a + b';
      FilterConcat(a, b', p);
    } else {
      assert a + b == a;
    }
  }

  /** Filtering a sequence that grows by one element. */
  lemma FilterSnoc<T(!new)>(a: seq<T>, x: T, p: T -> bool)
    ensures Filter(a + [x], p) == if p(x) then Filter(a, p) + [x] else Filter(a, p)
  {
    assert (a + [x])[..|a + [x]| - 1] == a;
  }

  /** Two surviving elements appear in the filtered sequence in their original order. */
  lemma FilterKeepsOrder<T(!new)>(s: seq<T>, p: T -> bool, i: int, j: int)
    requires 0 <= i < j < |s| && p(s[i]) && p(s[j])
    ensures exists i', j' :: 0 <= i' < j' < |Filter(s, p)| && Filter(s, p)[i'] == s[i] && Filter(s, p)[j'] == s[j]
  {
    var a, b := s[..j], s[j..];
    assert s == a + b;
    FilterConcat(a, b, p);
    var fa, fb := Filter(a, p), Filter(b, p);
    assert a[i] == s[i];
    assert s[i] in fa;
    var i' :| 0 <= i' < |fa| && fa[i'] == s[i];
    assert b[0] == s[j];
    assert b == [b[0]] + b[1..];
    FilterConcat([b[0]], b[1..], p);
    FilterSnoc([], b[0], p);
    assert fb[0] == s[j];
    var f := Filter(s, p);
    assert f == fa + fb;
    assert f[i'] == s[i] && f[|fa|] == s[j];
  }
}
