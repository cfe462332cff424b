/** Mapping a list, and splitting it by a test into the elements that fail and those that pass. */
module Lists {

  function Map<A, B>(f: A -> B, s: seq<A>): (r: seq<B>)
    ensures |r| == |s|
    ensures forall i :: 0 <= i < |s| ==> r[i] == f(s[i])
  {
    seq(|s|, i requires 0 <= i < |s| => f(s[i]))
  }

  function Filter<A>(p: A -> bool, s: seq<A>): (r: seq<A>)
    ensures forall i :: 0 <= i < |r| ==> p(r[i])
  {
    if s == [] then []
    else
      var last := s[|s| - 1];
      Filter(p, s[..|s| - 1]) + if p(last) then [last] else []
  }

  function Reject<A>(p: A -> bool, s: seq<A>): (r: seq<A>)
    ensures forall i :: 0 <= i < |r| ==> !p(r[i])
  {
    if s == [] then []
    else
      var last := s[|s| - 1];
      Reject(p, s[..|s| - 1]) + if p(last) then [] else [last]
  }

  function FailuresFirst<A>(p: A -> bool, s: seq<A>): seq<A> {
    Reject(p, s) + Filter(p, s)
  }

  lemma Regroup<T>(a: seq<T>, b: seq<T>, c: seq<T>)
    ensures (a + b) + c == a + (b + c)
  {
  }

  lemma MapConcat<A, B>(f: A -> B, xs: seq<A>, ys: seq<A>)
    ensures Map(f, xs + ys) == Map(f, xs) + Map(f, ys)
  {
  }

  lemma {:induction false} SplitIsPermutation<A>(p: A -> bool, s: seq<A>)
    ensures multiset(FailuresFirst(p, s)) == multiset(s)
    ensures |FailuresFirst(p, s)| == |s|
  {
    if s != [] {
      SplitIsPermutation(p, s[..|s| - 1]);
      assert s == s[..|s| - 1] + [s[|s| - 1]];
    }
  }

  lemma {:induction false} MapSplitIsPermutation<A, B>(f: A -> B, p: A -> bool, s: seq<A>)
    ensures multiset(Map(f, FailuresFirst(p, s))) == multiset(Map(f, s))
  {
    if s == [] {
      assert FailuresFirst(p, s) == s;
    } else {
      var front, last := s[..|s| - 1], s[|s| - 1];
      MapSplitIsPermutation(f, p, front);
      assert s == front + [last];
      MapConcat(f, front, [last]);
      MapConcat(f, Reject(p, front), Filter(p, front));
      if p(last) {
        assert FailuresFirst(p, s) == FailuresFirst(p, front) + [last];
        MapConcat(f, FailuresFirst(p, front), [last]);
      } else {
        assert FailuresFirst(p, s) == (Reject(p, front) + [last]) + Filter(p, front);
        MapConcat(f, Reject(p, front) + [last], Filter(p, front));
        MapConcat(f, Reject(p, front), [last]);
      }
    }
  }

  /** Nothing that fails the test comes after something that passes it. */
  predicate FailuresLead<A>(p: A -> bool, s: seq<A>) {
    forall i, j :: 0 <= i < j < |s| && p(s[i]) ==> p(s[j])
  }

  lemma {:induction false} NoneFilters<A>(p: A -> bool, s: seq<A>)
    requires forall i :: 0 <= i < |s| ==> !p(s[i])
    ensures Filter(p, s) == [] && Reject(p, s) == s
  {
    if s != [] {
      NoneFilters(p, s[..|s| - 1]);
    }
  }

  lemma {:induction false} FilterIsPart<A>(p: A -> bool, s: seq<A>)
    ensures forall x <- Filter(p, s) :: x in s
  {
    if s != [] {
      FilterIsPart(p, s[..|s| - 1]);
    }
  }

  lemma SplitPair<A>(p: A -> bool, passes: A, fails: A)
    requires p(passes) && !p(fails)
    ensures Filter(p, [passes, fails]) == [passes] && Reject(p, [passes, fails]) == [fails]
  {
    var pair := [passes, fails];
    assert pair[..1] == [passes] && pair[..1][..0] == [];
    assert Filter(p, pair[..1]) == Filter(p, pair[..1][..0]) + [passes];
    assert Reject(p, pair[..1]) == Reject(p, pair[..1][..0]);
  }

  /** The split changes nothing exactly when the failures already lead. */
  lemma {:induction false} SplitKeepsOrder<A>(p: A -> bool, s: seq<A>)
    ensures FailuresFirst(p, s) == s <==> FailuresLead(p, s)
  {
    if FailuresFirst(p, s) == s {
      var n := |Reject(p, s)|;
      assert forall k :: 0 <= k < n ==> s[k] == Reject(p, s)[k];
      assert forall k :: n <= k < |s| ==> s[k] == Filter(p, s)[k - n];
    }
    if FailuresLead(p, s) && s != [] {
      var front, last := s[..|s| - 1], s[|s| - 1];
      if p(last) {
        SplitKeepsOrder(p, front);
        assert FailuresFirst(p, s) == FailuresFirst(p, front) + [last];
      } else {
        NoneFilters(p, front);
      }
    }
  }

  /** As `SplitKeepsOrder`, seen through a mapping that tells the elements of `s` apart. */
  lemma MapSplitKeepsOrder<A, B>(f: A -> B, p: A -> bool, s: seq<A>)
    requires forall i, j :: 0 <= i < |s| && 0 <= j < |s| && f(s[i]) == f(s[j]) ==> s[i] == s[j]
    ensures Map(f, FailuresFirst(p, s)) == Map(f, s) <==> FailuresLead(p, s)
  {
    SplitKeepsOrder(p, s);
    SplitIsPermutation(p, s);
    var t := FailuresFirst(p, s);
    if Map(f, t) == Map(f, s) {
      forall i | 0 <= i < |s| ensures t[i] == s[i] {
        assert Map(f, t)[i] == Map(f, s)[i];
        assert t[i] in multiset(s);
      }
    }
  }
}
