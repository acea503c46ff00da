/** Order-preserving filtering of sequences, the shape of every linear scan
    in the player model: walk a registry front to back and push the entries
    that pass a test. */
module Seqs {

  /** `a` is obtained from `b` by dropping some entries and keeping the rest
      in their original order. */
  predicate IsSubseq<T(==,!new)>(a: seq<T>, b: seq<T>)
    decreases |b|
  {
    if |a| == 0 then true
    else if |b| == 0 then false
    else
      (a[|a| - 1] == b[|b| - 1] && IsSubseq(a[..|a| - 1], b[..|b| - 1]))
      || IsSubseq(a, b[..|b| - 1])
  }

  /** The entries of `s` that satisfy `f`, in the order they appear in `s`.
      Defined from the back so that `Filter(f, s + [x])` is one unfolding,
      which is how a front-to-back scan with `push` grows its result. */
  function Filter<T>(f: T -> bool, s: seq<T>): seq<T>
  {
    if |s| == 0 then []
    else
      var last := s[|s| - 1];
      Filter(f, s[..|s| - 1]) + (if f(last) then [last] else [])
  }

  /** What a filter returns: a subsequence of its input holding exactly the
      entries that pass, each as many times as it occurs in the input. */
  lemma {:induction false} FilterSpec<T(!new)>(f: T -> bool, s: seq<T>)
    ensures IsSubseq(Filter(f, s), s)
    ensures forall x :: x in Filter(f, s) <==> x in s && f(x)
    ensures forall x :: multiset(Filter(f, s))[x] == if f(x) then multiset(s)[x] else 0
  {
    if |s| > 0 {
      var init, last := s[..|s| - 1], s[|s| - 1];
      FilterSpec(f, init);
      var r' := Filter(f, init);
      assert s == init + [last];
      assert multiset(s) == multiset(init) + multiset{last};
      if f(last) {
        assert (r' + [last])[..|r'|] == r';
        assert Filter(f, s) == r' + [last];
      } else {
        assert Filter(f, s) == r';
        assert s[..|s| - 1] == init;
      }
    }
  }

  /** One step of the scan: filtering a longer prefix appends at most the new entry. */
  lemma FilterSnoc<T>(f: T -> bool, s: seq<T>, x: T)
    ensures Filter(f, s + [x]) == Filter(f, s) + (if f(x) then [x] else [])
  {
    assert (s + [x])[..|s|] == s;
  }

  /** A weaker test keeps more: if every entry passing `f` also passes `g`,
      the `f`-filter is a subsequence of the `g`-filter. */
  lemma {:induction false} FilterMonotone<T(!new)>(f: T -> bool, g: T -> bool, s: seq<T>)
    requires forall x :: f(x) ==> g(x)
    ensures IsSubseq(Filter(f, s), Filter(g, s))
  {
    if |s| > 0 {
      var init, last := s[..|s| - 1], s[|s| - 1];
      FilterMonotone(f, g, init);
      var a, b := Filter(f, init), Filter(g, init);
      if f(last) {
        assert (a + [last])[..|a|] == a;
        assert (b + [last])[..|b|] == b;
        assert Filter(f, s) == a + [last] && Filter(g, s) == b + [last];
      } else if g(last) {
        assert (b + [last])[..|b|] == b;
        assert Filter(f, s) == a && Filter(g, s) == b + [last];
      } else {
        assert Filter(f, s) == a && Filter(g, s) == b;
      }
    }
  }

  /** Two tests that agree on every entry of `s` filter it identically: the
      result depends on the inclusion predicate alone, not on how it is
      evaluated (a spatial index may replace the scan). */
  lemma {:induction false} FilterExtensional<T>(f: T -> bool, g: T -> bool, s: seq<T>)
    requires forall i :: 0 <= i < |s| ==> f(s[i]) == g(s[i])
    ensures Filter(f, s) == Filter(g, s)
  {
    if |s| > 0 {
      FilterExtensional(f, g, s[..|s| - 1]);
      assert f(s[|s| - 1]) == g(s[|s| - 1]);
    }
  }
}
