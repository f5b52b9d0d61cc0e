/** Order-preserving filtering of sequences, the shape of every "for each ... if ... add" loop
    in the host. Filter is defined on the last element so that a loop that walks a sequence
    from the front keeps `r == Filter(s[..i], p)` as its invariant. */
module Seqs {

  function Filter<T>(s: seq<T>, p: T -> bool): (r: seq<T>)
    ensures |r| <= |s|
    decreases |s|
  {
    if s == [] then []
    else
      var init := Filter(s[..|s| - 1], p);
      if p(s[|s| - 1]) then init + [s[|s| - 1]] else init
  }

  /** One loop step: filtering a sequence extended by one element. */
  lemma FilterSnoc<T>(s: seq<T>, x: T, p: T -> bool)
    ensures Filter(s + [x], p) == if p(x) then Filter(s, p) + [x] else Filter(s, p)
  {
    assert (s + [x])[..|s|] == s;
  }

  lemma {:induction false} FilterMembership<T>(s: seq<T>, p: T -> bool, x: T)
    ensures x in Filter(s, p) <==> x in s && p(x)
    decreases |s|
  {
    if s != [] {
      FilterMembership(s[..|s| - 1], p, x);
      assert s == s[..|s| - 1] + [s[|s| - 1]];
    }
  }

  /** Filtering distributes over concatenation: the kept elements stay in their order. */
  lemma {:induction false} FilterConcat<T>(a: seq<T>, b: seq<T>, p: T -> bool)
    ensures Filter(a + b, p) == Filter(a, p) + Filter(b, p)
    decreases |b|
  {
    if b == [] {
      assert a + b == a;
    } else {
      var b', x := b[..|b| - 1], b[|b| - 1];
      assert b == b' + [x];
      assert a + b == (a + b') + [x];
      FilterConcat(a, b', p);
      FilterSnoc(a + b', x, p);
      FilterSnoc(b', x, p);
      if p(x) {
        assert Filter(a, p) + (Filter(b', p) + [x]) == (Filter(a, p) + Filter(b', p)) + [x];
      }
    }
  }

  lemma {:induction false} FilterKeepsAll<T>(s: seq<T>, p: T -> bool)
    requires forall i :: 0 <= i < |s| ==> p(s[i])
    ensures Filter(s, p) == s
    decreases |s|
  {
    if s != [] {
      FilterKeepsAll(s[..|s| - 1], p);
    }
  }

  lemma {:induction false} FilterDropsAll<T>(s: seq<T>, p: T -> bool)
    requires forall i :: 0 <= i < |s| ==> !p(s[i])
    ensures Filter(s, p) == []
    decreases |s|
  {
    if s != [] {
      FilterDropsAll(s[..|s| - 1], p);
    }
  }

  /** Two predicates that agree on the elements of s filter s alike. */
  lemma {:induction false} FilterCongruent<T>(s: seq<T>, p: T -> bool, q: T -> bool)
    requires forall i :: 0 <= i < |s| ==> p(s[i]) == q(s[i])
    ensures Filter(s, p) == Filter(s, q)
    decreases |s|
  {
    if s != [] {
      FilterCongruent(s[..|s| - 1], p, q);
    }
  }

  /** `rel` holds of every two elements in the order the sequence holds them. */
  predicate Pairwise<T>(s: seq<T>, rel: (T, T) -> bool) {
    forall i, j :: 0 <= i < j < |s| ==> rel(s[i], s[j])
  }

  /** Filtering keeps a subsequence, so it keeps every pairwise relation of the input. */
  lemma {:induction false} FilterKeepsPairwise<T>(s: seq<T>, p: T -> bool, rel: (T, T) -> bool)
    requires Pairwise(s, rel)
    ensures Pairwise(Filter(s, p), rel)
    decreases |s|
  {
    if s != [] {
      var init := s[..|s| - 1];
      var last := s[|s| - 1];
      assert Pairwise(init, rel);
      FilterKeepsPairwise(init, p, rel);
      var r := Filter(init, p);
      forall i | 0 <= i < |r| ensures rel(r[i], last) {
        FilterMembership(init, p, r[i]);
        var k :| 0 <= k < |init| && init[k] == r[i];
        assert s[k] == r[i];
      }
    }
  }

  /** Filtering twice is filtering once by the conjunction. */
  lemma {:induction false} FilterFilter<T>(s: seq<T>, p: T -> bool, q: T -> bool, both: T -> bool)
    requires forall i :: 0 <= i < |s| ==> both(s[i]) == (p(s[i]) && q(s[i]))
    ensures Filter(Filter(s, p), q) == Filter(s, both)
    decreases |s|
  {
    if s != [] {
      var init := s[..|s| - 1];
      var x := s[|s| - 1];
      FilterFilter(init, p, q, both);
      if p(x) {
        FilterSnoc(Filter(init, p), x, q);
      }
    }
  }

  /** Filtering counts each element as often as the input holds it, or not at all. */
  lemma {:induction false} FilterCount<T>(s: seq<T>, p: T -> bool, x: T)
    ensures multiset(Filter(s, p))[x] == if p(x) then multiset(s)[x] else 0
    decreases |s|
  {
    if s != [] {
      var init := s[..|s| - 1];
      FilterCount(init, p, x);
      assert s == init + [s[|s| - 1]];
    }
  }

  /** Filters of two permutations of each other are permutations of each other. */
  lemma FilterPermutation<T>(s: seq<T>, t: seq<T>, p: T -> bool)
    requires multiset(s) == multiset(t)
    ensures multiset(Filter(s, p)) == multiset(Filter(t, p))
  {
    forall x: T ensures multiset(Filter(s, p))[x] == multiset(Filter(t, p))[x] {
      FilterCount(s, p, x);
      FilterCount(t, p, x);
      assert multiset(s)[x] == multiset(t)[x];
    }
    MultisetExtensional(multiset(Filter(s, p)), multiset(Filter(t, p)));
  }

  lemma MultisetExtensional<T>(a: multiset<T>, b: multiset<T>)
    requires forall x :: a[x] == b[x]
    ensures a == b
  {
  }

  /** The elements of s, last first: the order a run of front insertions leaves them in. */
  function Reverse<T>(s: seq<T>): (r: seq<T>)
    ensures |r| == |s|
    decreases |s|
  {
    if s == [] then [] else [s[|s| - 1]] + Reverse(s[..|s| - 1])
  }

  /** Element i of the reversal is element |s|-1-i of s. */
  lemma {:induction false} ReverseIndex<T>(s: seq<T>, i: nat)
    requires i < |s|
    ensures Reverse(s)[i] == s[|s| - 1 - i]
    decreases |s|
  {
    if i > 0 {
      ReverseIndex(s[..|s| - 1], i - 1);
    }
  }

  lemma ReverseMembership<T>(s: seq<T>, x: T)
    ensures x in Reverse(s) <==> x in s
  {
    if x in s {
      var j :| 0 <= j < |s| && s[j] == x;
      ReverseIndex(s, |s| - 1 - j);
    }
    if x in Reverse(s) {
      var i :| 0 <= i < |s| && Reverse(s)[i] == x;
      ReverseIndex(s, i);
    }
  }

  /** One more front insertion. */
  lemma ReverseSnoc<T>(s: seq<T>, x: T)
    ensures Reverse(s + [x]) == [x] + Reverse(s)
  {
    assert (s + [x])[..|s|] == s;
  }

  /** No element occurs twice. */
  predicate Distinct<T(==)>(s: seq<T>) {
    forall i, j :: 0 <= i < j < |s| ==> s[i] != s[j]
  }

  lemma {:induction false} ReverseDistinct<T>(s: seq<T>)
    requires Distinct(s)
    ensures Distinct(Reverse(s))
  {
    var r := Reverse(s);
    forall i, j | 0 <= i < j < |r| ensures r[i] != r[j] {
      ReverseIndex(s, i);
      ReverseIndex(s, j);
    }
  }

  /** The elements of s that `known` lacks, each once, where it first occurs: what a run of
      "add it unless it is already there" contributes. */
  function Novel<T(==)>(s: seq<T>, known: seq<T>): seq<T>
    decreases |s|
  {
    if s == [] then []
    else
      var r := Novel(s[..|s| - 1], known);
      var x := s[|s| - 1];
      if x in known || x in r then r else r + [x]
  }

  /** One more element of s. */
  lemma NovelSnoc<T>(s: seq<T>, known: seq<T>, x: T)
    ensures Novel(s + [x], known) == if x in known || x in Novel(s, known) then Novel(s, known) else Novel(s, known) + [x]
  {
    assert (s + [x])[..|s|] == s;
  }

  /** Novel holds exactly the elements of s missing from `known`, none of them twice. */
  lemma {:induction false} NovelSpec<T>(s: seq<T>, known: seq<T>)
    ensures forall x :: x in Novel(s, known) <==> x in s && x !in known
    ensures Distinct(Novel(s, known))
    decreases |s|
  {
    if s != [] {
      var init := s[..|s| - 1];
      NovelSpec(init, known);
      assert s == init + [s[|s| - 1]];
    }
  }

  /** Elements that `known` could not hold anyway do not depend on it. */
  lemma {:induction false} NovelDisjoint<T>(s: seq<T>, known: seq<T>)
    requires forall i :: 0 <= i < |s| ==> s[i] !in known
    ensures Novel(s, known) == Novel(s, [])
    decreases |s|
  {
    if s != [] {
      NovelDisjoint(s[..|s| - 1], known);
    }
  }
}
