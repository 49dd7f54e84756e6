/** Filtering and mapping a sequence in one pass, and how that commutes with reordering. */
module Sequences {
  import opened Wrappers

  /** The results `f` gives for the elements of `s`, in order, skipping None. */
  function FilterMap<A, B>(f: A -> Option<B>, s: seq<A>): seq<B>
  {
    if s == [] then []
    else FilterMap(f, s[..|s| - 1]) + (match f(s[|s| - 1]) case Some(b) => [b] case None => [])
  }

  lemma {:induction false} FilterMapAppend<A, B>(f: A -> Option<B>, s: seq<A>, t: seq<A>)
    ensures FilterMap(f, s + t) == FilterMap(f, s) + FilterMap(f, t)
    decreases |t|
  {
    if t == [] {
      assert s + t == s;
    } else {
      var t' := t[..|t| - 1];
      assert (s + t)[..|s + t| - 1] == s + t';
      FilterMapAppend(f, s, t');
    }
  }

  lemma FilterMapSingle<A, B>(f: A -> Option<B>, x: A)
    ensures FilterMap(f, [x]) == match f(x) case Some(b) => [b] case None => []
  {
    assert [x][..0] == [];
  }

  /** Every result comes from an element, and every element's result is there. */
  lemma {:induction false} FilterMapMembers<A, B>(f: A -> Option<B>, s: seq<A>)
    ensures forall b | b in FilterMap(f, s) :: exists x | x in s :: f(x) == Some(b)
    ensures forall x | x in s && f(x).Some? :: f(x).value in FilterMap(f, s)
    decreases |s|
  {
    if s != [] {
      var s' := s[..|s| - 1];
      FilterMapMembers(f, s');
      assert s == s' + [s[|s| - 1]];
      forall b | b in FilterMap(f, s) ensures exists x | x in s :: f(x) == Some(b) {
        if b in FilterMap(f, s') {
          var x :| x in s' && f(x) == Some(b);
          assert x in s;
        } else {
          assert f(s[|s| - 1]) == Some(b);
        }
      }
    }
  }

  /** When `f` gives None for every element, nothing results. */
  lemma {:induction false} FilterMapNone<A, B>(f: A -> Option<B>, s: seq<A>)
    requires forall x | x in s :: f(x).None?
    ensures FilterMap(f, s) == []
    decreases |s|
  {
    if s != [] {
      var s' := s[..|s| - 1];
      assert forall x | x in s' :: x in s;
      FilterMapNone(f, s');
    }
  }

  /** Functions that agree on the elements give the same results. */
  lemma {:induction false} FilterMapAgree<A, B>(f: A -> Option<B>, g: A -> Option<B>, s: seq<A>)
    requires forall x | x in s :: f(x) == g(x)
    ensures FilterMap(f, s) == FilterMap(g, s)
    decreases |s|
  {
    if s != [] {
      var s' := s[..|s| - 1];
      assert forall x | x in s' :: x in s;
      FilterMapAgree(f, g, s');
    }
  }

  /** Taking the same element out of two reorderings leaves two reorderings. */
  lemma RemoveFromBoth<A>(s': seq<A>, x: A, a: seq<A>, b: seq<A>)
    requires multiset(s' + [x]) == multiset(a + [x] + b)
    ensures multiset(s') == multiset(a + b)
  {
    calc {
      multiset(s') + multiset{x};
      multiset(s' + [x]);
      multiset(a + [x] + b);
      multiset(a) + multiset{x} + multiset(b);
      multiset(a + b) + multiset{x};
    }
    var m, n := multiset(s'), multiset(a + b);
    forall y ensures m[y] == n[y] {
      assert (m + multiset{x})[y] == (n + multiset{x})[y];
    }
  }

  /** The result of one element can be taken out of the middle. */
  lemma FilterMapTakeOut<A, B>(f: A -> Option<B>, a: seq<A>, x: A, b: seq<A>)
    ensures multiset(FilterMap(f, a + [x] + b)) == multiset(FilterMap(f, a + b)) + multiset(FilterMap(f, [x]))
  {
    FilterMapAppend(f, a, b);
    FilterMapAppend(f, a + [x], b);
    FilterMapAppend(f, a, [x]);
    var fa, fx, fb := FilterMap(f, a), FilterMap(f, [x]), FilterMap(f, b);
    assert FilterMap(f, a + [x] + b) == fa + fx + fb;
    assert multiset(fa + fx + fb) == multiset(fa) + multiset(fx) + multiset(fb);
    assert multiset(fa + fb) == multiset(fa) + multiset(fb);
  }

  /** Reordering the input reorders the results and changes nothing else. */
  lemma {:induction false} FilterMapPermutation<A, B>(f: A -> Option<B>, s: seq<A>, t: seq<A>)
    requires multiset(s) == multiset(t)
    ensures multiset(FilterMap(f, s)) == multiset(FilterMap(f, t))
    decreases |s|
  {
    if s == [] {
      assert |t| == |multiset(t)| == 0;
    } else {
      var x := s[|s| - 1];
      var s' := s[..|s| - 1];
      assert s == s' + [x];
      assert x in multiset(t);
      var k :| 0 <= k < |t| && t[k] == x;
      var a, b := t[..k], t[k + 1..];
      assert t == a + [x] + b;
      RemoveFromBoth(s', x, a, b);
      FilterMapPermutation(f, s', a + b);
      FilterMapAppend(f, s', [x]);
      FilterMapTakeOut(f, a, x, b);
    }
  }
}
