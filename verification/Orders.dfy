/** Sequences in a strict order: a set has only one listing in it. */
module Orders {

  ghost predicate Sorted<T(!new)>(s: seq<T>, less: (T, T) -> bool)
  {
    forall i, j :: 0 <= i < j < |s| ==> less(s[i], s[j])
  }

  ghost predicate Asymmetric<T(!new)>(less: (T, T) -> bool)
  {
    forall a, b :: less(a, b) ==> !less(b, a)
  }

  lemma EmptyTogether<T>(a: seq<T>, b: seq<T>)
    requires forall r :: r in a <==> r in b
    ensures a == [] <==> b == []
  {
    if a != [] { assert a[0] in b; }
    if b != [] { assert b[0] in a; }
  }

  lemma Backwards<T(!new)>(s: seq<T>, less: (T, T) -> bool)
    requires Asymmetric(less) && Sorted(s, less)
    ensures forall i, j :: 0 <= i <= j < |s| ==> !less(s[j], s[i])
  {
  }

  lemma LastIsLast<T(!new)>(a: seq<T>, b: seq<T>, less: (T, T) -> bool)
    requires Asymmetric(less) && Sorted(a, less) && Sorted(b, less) && a != [] && b != []
    requires forall r :: r in a <==> r in b
    ensures a[|a| - 1] == b[|b| - 1]
  {
    var x, y := a[|a| - 1], b[|b| - 1];
    assert x in b && y in a;
    var i :| 0 <= i < |b| && b[i] == x;
    var j :| 0 <= j < |a| && a[j] == y;
    assert i == |b| - 1 || less(x, y);
    assert j == |a| - 1 || less(y, x);
  }

  lemma Shorter<T(!new)>(a: seq<T>, b: seq<T>, less: (T, T) -> bool, r: T)
    requires Asymmetric(less) && Sorted(a, less)
    requires a != [] && b != [] && a[|a| - 1] == b[|b| - 1] && r in a[..|a| - 1] && r in b
    ensures r in b[..|b| - 1]
  {
    var i :| 0 <= i < |a| - 1 && a[i] == r;
    assert less(a[i], a[|a| - 1]);
    var j :| 0 <= j < |b| && b[j] == r;
    assert b[..|b| - 1][j] == r;
  }

  lemma {:induction false} SortedUnique<T(!new)>(a: seq<T>, b: seq<T>, less: (T, T) -> bool)
    requires Asymmetric(less) && Sorted(a, less) && Sorted(b, less) && forall r :: r in a <==> r in b
    ensures a == b
  {
    EmptyTogether(a, b);
    if a != [] {
      var m, n := |a| - 1, |b| - 1;
      LastIsLast(a, b, less);
      forall r | r in a[..m] ensures r in b[..n] { Shorter(a, b, less, r); }
      forall r | r in b[..n] ensures r in a[..m] { Shorter(b, a, less, r); }
      SortedUnique(a[..m], b[..n], less);
      assert a == a[..m] + [a[m]] && b == b[..n] + [b[n]];
    }
  }
}
