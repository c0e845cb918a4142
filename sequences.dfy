/** Queryset filtering over tables held as sequences, and the pairwise orderings it keeps. */
module Sequences {

  /** `queryset.filter(...)`: the elements of `s` that satisfy `keep`, in their original order. */
  function Filter<T(!new)>(s: seq<T>, keep: T -> bool): (r: seq<T>)
    ensures |r| <= |s|
    ensures forall x :: x in r <==> x in s && keep(x)
  {
    if s == [] then []
    else if keep(s[0]) then [s[0]] + Filter(s[1..], keep)
    else Filter(s[1..], keep)
  }

  /** Every element stands in `before` to every element after it. */
  ghost predicate Pairwise<T>(s: seq<T>, before: (T, T) -> bool) {
    forall i, j :: 0 <= i < j < |s| ==> before(s[i], s[j])
  }

  /** Filtering keeps every pairwise ordering of the table it filters. */
  lemma {:induction false} FilterKeepsPairwise<T(!new)>(s: seq<T>, keep: T -> bool, before: (T, T) -> bool)
    ensures Pairwise(s, before) ==> Pairwise(Filter(s, keep), before)
  {
    if s != [] && Pairwise(s, before) {
      var tail := s[1..];
      assert Pairwise(tail, before) by {
        forall i, j | 0 <= i < j < |tail| ensures before(tail[i], tail[j]) {
          assert tail[i] == s[i + 1] && tail[j] == s[j + 1];
        }
      }
      FilterKeepsPairwise(tail, keep, before);
      if keep(s[0]) {
        var r := Filter(s, keep);
        var rt := Filter(tail, keep);
        assert r == [s[0]] + rt;
        forall i, j | 0 <= i < j < |r| ensures before(r[i], r[j]) {
          if i == 0 {
            assert r[j] == rt[j - 1];
            assert rt[j - 1] in tail;
            var k :| 0 <= k < |tail| && tail[k] == rt[j - 1];
            assert tail[k] == s[k + 1];
          } else {
            assert r[i] == rt[i - 1] && r[j] == rt[j - 1];
          }
        }
      }
    }
  }

  /** Putting at the front an element that stands before every element keeps the ordering. */
  lemma PrependKeepsPairwise<T>(x: T, s: seq<T>, before: (T, T) -> bool)
    requires Pairwise(s, before)
    requires forall y :: y in s ==> before(x, y)
    ensures Pairwise([x] + s, before)
  {
  }
}
