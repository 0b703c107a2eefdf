/**
 * `Array.prototype.filter` and the counts the pages derive from it (`xs.filter(p).length`).
 */
module Seqs {

  /** `s.filter(p)`: the elements that satisfy `p`, in their original order. */
  function Filter<T>(s: seq<T>, p: T -> bool): (r: seq<T>)
    ensures |r| <= |s|
    ensures forall i :: 0 <= i < |r| ==> r[i] in s && p(r[i])
    ensures forall i :: 0 <= i < |s| && p(s[i]) ==> s[i] in r
  {
    if s == [] then [] else (if p(s[0]) then [s[0]] else []) + Filter(s[1..], p)
  }

  /**
   * The filter keeps every element that satisfies `p` as many times as `s` holds it, and adds
   * nothing: with the elements of the result all satisfying `p`, this fixes its multiset.
   */
  lemma {:induction false} FilterMultiset<T>(s: seq<T>, p: T -> bool)
    ensures multiset(Filter(s, p)) <= multiset(s)
    ensures forall i :: 0 <= i < |s| && p(s[i]) ==> multiset(Filter(s, p))[s[i]] == multiset(s)[s[i]]
  {
    FilterSubMultiset(s, p);
    forall i | 0 <= i < |s| && p(s[i])
      ensures multiset(Filter(s, p))[s[i]] == multiset(s)[s[i]]
    {
      FilterKeepsCount(s, p, s[i]);
    }
  }

  lemma {:induction false} FilterSubMultiset<T>(s: seq<T>, p: T -> bool)
    ensures multiset(Filter(s, p)) <= multiset(s)
  {
    if s != [] {
      FilterSubMultiset(s[1..], p);
      assert s == [s[0]] + s[1..];
    }
  }

  /** A value that satisfies `p` occurs in the filter exactly as often as in `s`. */
  lemma {:induction false} FilterKeepsCount<T>(s: seq<T>, p: T -> bool, x: T)
    requires p(x)
    ensures multiset(Filter(s, p))[x] == multiset(s)[x]
  {
    if s != [] {
      FilterKeepsCount(s[1..], p, x);
      assert s == [s[0]] + s[1..];
    }
  }

  /** The positions of `s` whose element satisfies `p`. */
  function Positions<T>(s: seq<T>, p: T -> bool): (r: set<int>)
    ensures forall i :: i in r <==> 0 <= i < |s| && p(s[i])
  {
    set i | 0 <= i < |s| && p(s[i])
  }

  /** The filter keeps as many elements as there are positions whose element satisfies `p`. */
  lemma {:induction false} FilterCount<T>(s: seq<T>, p: T -> bool)
    ensures |Filter(s, p)| == |Positions(s, p)|
    decreases |s|
  {
    if s != [] {
      var n := |s| - 1;
      var init := s[..n];
      FilterCount(init, p);
      assert s == init + [s[n]];
      FilterAppend(init, [s[n]], p);
      FilterOfOne(s[n], p);
      PositionsSnoc(init, s[n], p);
    }
  }

  /** Appending one element adds its position when it satisfies `p`, and nothing else. */
  lemma PositionsSnoc<T>(init: seq<T>, x: T, p: T -> bool)
    ensures |Positions(init + [x], p)| == |Positions(init, p)| + if p(x) then 1 else 0
  {
    var s := init + [x];
    var before := Positions(init, p);
    assert forall i :: 0 <= i < |init| ==> s[i] == init[i];
    if p(x) {
      assert Positions(s, p) == before + {|init|};
      assert |init| !in before;
    } else {
      assert Positions(s, p) == before;
    }
  }

  /** `a` is `b` with some elements deleted, the rest kept in order. */
  predicate IsSubsequence<T(==)>(a: seq<T>, b: seq<T>)
    decreases |b|
  {
    if a == [] then true
    else if b == [] then false
    else (a[0] == b[0] && IsSubsequence(a[1..], b[1..])) || IsSubsequence(a, b[1..])
  }

  /** A subsequence of a subsequence is a subsequence. */
  lemma {:induction false} SubsequenceTransitive<T>(a: seq<T>, b: seq<T>, c: seq<T>)
    requires IsSubsequence(a, b) && IsSubsequence(b, c)
    ensures IsSubsequence(a, c)
    decreases |c|
  {
    if a != [] {
      if b[0] == c[0] && IsSubsequence(b[1..], c[1..]) {
        if a[0] == b[0] && IsSubsequence(a[1..], b[1..]) {
          SubsequenceTransitive(a[1..], b[1..], c[1..]);
        } else {
          SubsequenceTransitive(a, b[1..], c[1..]);
        }
      } else {
        SubsequenceTransitive(a, b, c[1..]);
      }
    }
  }

  /** A filtered list is an order-preserving subsequence of the list it was taken from. */
  lemma {:induction false} FilterIsSubsequence<T>(s: seq<T>, p: T -> bool)
    ensures IsSubsequence(Filter(s, p), s)
  {
    if s != [] {
      FilterIsSubsequence(s[1..], p);
      if p(s[0]) {
        assert Filter(s, p) == [s[0]] + Filter(s[1..], p);
        assert Filter(s, p)[1..] == Filter(s[1..], p);
      } else {
        assert Filter(s, p) == Filter(s[1..], p);
      }
    }
  }

  /** A filter that every element passes returns the list itself. */
  lemma {:induction false} FilterAll<T>(s: seq<T>, p: T -> bool)
    requires forall i :: 0 <= i < |s| ==> p(s[i])
    ensures Filter(s, p) == s
  {
    if s != [] {
      FilterAll(s[1..], p);
      assert [s[0]] + s[1..] == s;
    }
  }

  /** A filter that no element passes returns the empty list. */
  lemma {:induction false} FilterNone<T>(s: seq<T>, p: T -> bool)
    requires forall i :: 0 <= i < |s| ==> !p(s[i])
    ensures Filter(s, p) == []
  {
    if s != [] {
      FilterNone(s[1..], p);
    }
  }

  /** Filtering a concatenation filters each part. */
  lemma {:induction false} FilterAppend<T>(a: seq<T>, b: seq<T>, p: T -> bool)
    ensures Filter(a + b, p) == Filter(a, p) + Filter(b, p)
  {
    if a == [] {
      assert a + b == b;
    } else {
      assert (a + b)[0] == a[0] && (a + b)[1..] == a[1..] + b;
      FilterAppend(a[1..], b, p);
    }
  }

  /** The filter of a four-element list, element by element. */
  lemma {:induction false} FilterOfFour<T>(s: seq<T>, p: T -> bool)
    requires |s| == 4
    ensures Filter(s, p) == (if p(s[0]) then [s[0]] else []) + (if p(s[1]) then [s[1]] else [])
      + (if p(s[2]) then [s[2]] else []) + (if p(s[3]) then [s[3]] else [])
  {
    var tail := s[1..];
    FilterOfThree(tail, p);
    assert tail[0] == s[1] && tail[1] == s[2] && tail[2] == s[3];
  }

  /** The filter of a three-element list, element by element. */
  lemma {:induction false} FilterOfThree<T>(s: seq<T>, p: T -> bool)
    requires |s| == 3
    ensures Filter(s, p) == (if p(s[0]) then [s[0]] else []) + (if p(s[1]) then [s[1]] else [])
      + (if p(s[2]) then [s[2]] else [])
  {
    assert s == ([s[0]] + [s[1]]) + [s[2]];
    FilterAppend([s[0]] + [s[1]], [s[2]], p);
    FilterAppend([s[0]], [s[1]], p);
    FilterOfOne(s[0], p);
    FilterOfOne(s[1], p);
    FilterOfOne(s[2], p);
  }

  /** The filter of a one-element list. */
  lemma FilterOfOne<T>(x: T, p: T -> bool)
    ensures Filter([x], p) == if p(x) then [x] else []
  {
    assert [x][1..] == [];
  }

  /** Two filters whose predicates never both hold together select at most the whole list. */
  lemma {:induction false} ExclusiveCounts2<T>(s: seq<T>, p: T -> bool, q: T -> bool)
    requires forall i :: 0 <= i < |s| ==> !(p(s[i]) && q(s[i]))
    ensures |Filter(s, p)| + |Filter(s, q)| <= |s|
  {
    if s != [] {
      ExclusiveCounts2(s[1..], p, q);
    }
  }

  /** Three pairwise exclusive filters select at most the whole list between them. */
  lemma {:induction false} ExclusiveCounts3<T>(s: seq<T>, p: T -> bool, q: T -> bool, r: T -> bool)
    requires forall i :: 0 <= i < |s| ==> !(p(s[i]) && q(s[i])) && !(p(s[i]) && r(s[i])) && !(q(s[i]) && r(s[i]))
    ensures |Filter(s, p)| + |Filter(s, q)| + |Filter(s, r)| <= |s|
  {
    if s != [] {
      ExclusiveCounts3(s[1..], p, q, r);
    }
  }

  /** Filtering by a weaker predicate keeps at least as many elements. */
  lemma {:induction false} FilterMonotone<T>(s: seq<T>, p: T -> bool, q: T -> bool)
    requires forall i :: 0 <= i < |s| && p(s[i]) ==> q(s[i])
    ensures |Filter(s, p)| <= |Filter(s, q)|
  {
    if s != [] {
      FilterMonotone(s[1..], p, q);
    }
  }

  /** Filtering twice is filtering once by the conjunction. */
  lemma {:induction false} FilterFilter<T>(s: seq<T>, p: T -> bool, q: T -> bool, pq: T -> bool)
    requires forall x :: pq(x) == (p(x) && q(x))
    ensures Filter(Filter(s, p), q) == Filter(s, pq)
  {
    if s != [] {
      FilterFilter(s[1..], p, q, pq);
      FilterAppend(if p(s[0]) then [s[0]] else [], Filter(s[1..], p), q);
    }
  }

  /** Filters by predicates that agree everywhere select the same list. */
  lemma {:induction false} FilterSame<T>(s: seq<T>, p: T -> bool, q: T -> bool)
    requires forall x :: p(x) == q(x)
    ensures Filter(s, p) == Filter(s, q)
  {
    if s != [] {
      FilterSame(s[1..], p, q);
    }
  }
}
