/** The list comprehension `[x for x in xs if keep(x)]` that both the optimizer
    and the interpreter use, and what it guarantees. */
module Lists {

  /** `[x for x in xs if keep(x)]`. */
  function Filter<T>(xs: seq<T>, keep: T -> bool): seq<T>
  {
    if xs == [] then [] else (if keep(xs[0]) then [xs[0]] else []) + Filter(xs[1..], keep)
  }

  /** xs is ys with some elements deleted and the rest kept in their order. */
  predicate IsSubsequence<T(==)>(xs: seq<T>, ys: seq<T>)
    decreases |ys|
  {
    if xs == [] then true
    else if ys == [] then false
    else if xs[0] == ys[0] then IsSubsequence(xs[1..], ys[1..])
    else IsSubsequence(xs, ys[1..])
  }

  lemma {:induction false} SubsequenceOfTail<T>(xs: seq<T>, ys: seq<T>, y: T)
    requires IsSubsequence(xs, ys)
    ensures IsSubsequence(xs, [y] + ys)
    decreases |ys|, 1
  {
    var ys' := [y] + ys;
    assert ys'[1..] == ys;
    if xs != [] && xs[0] == y {
      SubsequenceShortens(xs, ys);
      SubsequenceDropFirst(xs, ys);
    }
  }

  lemma {:induction false} SubsequenceShortens<T>(xs: seq<T>, ys: seq<T>)
    requires IsSubsequence(xs, ys)
    ensures |xs| <= |ys|
    decreases |ys|
  {
    if xs != [] {
      if xs[0] == ys[0] {
        SubsequenceShortens(xs[1..], ys[1..]);
      } else {
        SubsequenceShortens(xs, ys[1..]);
      }
    }
  }

  lemma {:induction false} SubsequenceDropFirst<T>(xs: seq<T>, ys: seq<T>)
    requires xs != [] && IsSubsequence(xs, ys)
    ensures IsSubsequence(xs[1..], ys)
    decreases |ys|, 0
  {
    if xs[0] == ys[0] {
      SubsequenceOfTail(xs[1..], ys[1..], ys[0]);
      assert [ys[0]] + ys[1..] == ys;
    } else {
      SubsequenceDropFirst(xs, ys[1..]);
      SubsequenceOfTail(xs[1..], ys[1..], ys[0]);
      assert [ys[0]] + ys[1..] == ys;
    }
  }

  /** The comprehension keeps the surviving elements in their original order. */
  lemma {:induction false} FilterIsSubsequence<T>(xs: seq<T>, keep: T -> bool)
    ensures IsSubsequence(Filter(xs, keep), xs)
    ensures |Filter(xs, keep)| <= |xs|
  {
    if xs != [] {
      FilterIsSubsequence(xs[1..], keep);
      var rest := Filter(xs[1..], keep);
      if keep(xs[0]) {
        assert Filter(xs, keep) == [xs[0]] + rest;
        assert ([xs[0]] + rest)[1..] == rest;
      } else {
        assert Filter(xs, keep) == rest;
        SubsequenceOfTail(rest, xs[1..], xs[0]);
        assert [xs[0]] + xs[1..] == xs;
      }
    }
  }

  /** An element is kept exactly as often as it occurs, if it passes, and never otherwise. */
  lemma {:induction false} FilterMultiplicity<T>(xs: seq<T>, keep: T -> bool, x: T)
    ensures multiset(Filter(xs, keep))[x] == if keep(x) then multiset(xs)[x] else 0
  {
    if xs != [] {
      FilterMultiplicity(xs[1..], keep, x);
      assert xs == [xs[0]] + xs[1..];
      assert multiset(xs) == multiset([xs[0]]) + multiset(xs[1..]);
    }
  }

  /** Membership: the result holds exactly the elements of xs that pass. */
  lemma FilterMembers<T>(xs: seq<T>, keep: T -> bool)
    ensures forall x :: x in Filter(xs, keep) <==> x in xs && keep(x)
  {
    forall x
      ensures x in Filter(xs, keep) <==> x in xs && keep(x)
    {
      FilterMultiplicity(xs, keep, x);
    }
  }

  lemma {:induction false} FilterAppend<T>(xs: seq<T>, ys: seq<T>, keep: T -> bool)
    ensures Filter(xs + ys, keep) == Filter(xs, keep) + Filter(ys, keep)
  {
    if xs == [] {
      assert xs + ys == ys;
    } else {
      var zs := xs + ys;
      assert zs[0] == xs[0] && zs[1..] == xs[1..] + ys;
      FilterAppend(xs[1..], ys, keep);
      var head := if keep(xs[0]) then [xs[0]] else [];
      calc {
        Filter(zs, keep);
        head + Filter(xs[1..] + ys, keep);
        head + (Filter(xs[1..], keep) + Filter(ys, keep));
        (head + Filter(xs[1..], keep)) + Filter(ys, keep);
      }
    }
  }

  /** Two tests that agree on every element of xs select the same sub-list. */
  lemma {:induction false} FilterCongruent<T>(xs: seq<T>, k1: T -> bool, k2: T -> bool)
    requires forall i :: 0 <= i < |xs| ==> k1(xs[i]) == k2(xs[i])
    ensures Filter(xs, k1) == Filter(xs, k2)
  {
    if xs != [] {
      FilterCongruent(xs[1..], k1, k2);
    }
  }

  /** Filtering first by a weaker test changes nothing for a stronger one. */
  lemma {:induction false} FilterOfFilter<T>(xs: seq<T>, outer: T -> bool, inner: T -> bool)
    requires forall i :: 0 <= i < |xs| && inner(xs[i]) ==> outer(xs[i])
    ensures Filter(Filter(xs, outer), inner) == Filter(xs, inner)
  {
    if xs != [] {
      FilterOfFilter(xs[1..], outer, inner);
      var rest := Filter(xs[1..], outer);
      if outer(xs[0]) {
        assert Filter(xs, outer) == [xs[0]] + rest;
        var fs := [xs[0]] + rest;
        assert fs[0] == xs[0] && fs[1..] == rest;
        assert Filter(fs, inner) == (if inner(xs[0]) then [xs[0]] else []) + Filter(rest, inner);
      } else {
        assert Filter(xs, outer) == rest;
        assert !inner(xs[0]);
      }
    }
  }

  /** Two lists whose elements pass their tests position by position keep
      equally many elements. */
  lemma {:induction false} FilterLengthAgrees<T, U>(xs: seq<T>, p: T -> bool, ys: seq<U>, q: U -> bool)
    requires |xs| == |ys| && forall i :: 0 <= i < |xs| ==> p(xs[i]) == q(ys[i])
    ensures |Filter(xs, p)| == |Filter(ys, q)|
  {
    if xs != [] {
      FilterLengthAgrees(xs[1..], p, ys[1..], q);
    }
  }
}
