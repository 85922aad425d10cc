/** Reordering: what a sequence keeps when it is only known as a multiset. */
module Seqs {

  function Map<A, B>(f: A -> B, s: seq<A>): (mapped: seq<B>)
    ensures |mapped| == |s| && forall k :: 0 <= k < |s| ==> mapped[k] == f(s[k])
  {
    seq(|s|, k requires 0 <= k < |s| => f(s[k]))
  }

  ghost predicate Distinct<A>(s: seq<A>) {
    forall j, k :: 0 <= j < k < |s| ==> s[j] != s[k]
  }

  function Without<A>(s: seq<A>, k: nat): seq<A>
    requires k < |s|
  {
    s[..k] + s[k + 1..]
  }

  lemma WithoutIsOneLess<A>(s: seq<A>, k: nat)
    requires k < |s|
    ensures multiset(Without(s, k)) == multiset(s) - multiset{s[k]}
  {
    assert s == s[..k] + [s[k]] + s[k + 1..];
  }

  lemma MapWithout<A, B>(f: A -> B, s: seq<A>, k: nat)
    requires k < |s|
    ensures Map(f, Without(s, k)) == Without(Map(f, s), k)
  {
    var one, other := Map(f, Without(s, k)), Without(Map(f, s), k);
    forall j | 0 <= j < |one| ensures one[j] == other[j] {
      assert Without(s, k)[j] == if j < k then s[j] else s[j + 1];
    }
  }

  /** Images of reorderings are reorderings of the images. */
  lemma {:induction false} MapPermutes<A, B>(f: A -> B, a: seq<A>, b: seq<A>)
    requires multiset(a) == multiset(b)
    ensures multiset(Map(f, a)) == multiset(Map(f, b))
  {
    if a != [] {
      var last := |a| - 1;
      assert a[last] in multiset(b);
      var k :| 0 <= k < |b| && b[k] == a[last];
      WithoutIsOneLess(a, last);
      WithoutIsOneLess(b, k);
      MapPermutes(f, Without(a, last), Without(b, k));
      MapWithout(f, a, last);
      MapWithout(f, b, k);
      WithoutIsOneLess(Map(f, a), last);
      WithoutIsOneLess(Map(f, b), k);
      Restored(Map(f, a), last);
      Restored(Map(f, b), k);
    } else {
      assert |multiset(b)| == 0;
      assert b == [];
    }
  }

  lemma Restored<A>(s: seq<A>, k: nat)
    requires k < |s|
    ensures multiset(s) == multiset(Without(s, k)) + multiset{s[k]}
  {
    assert s == s[..k] + [s[k]] + s[k + 1..];
  }

  lemma {:induction false} DistinctCounts<A>(s: seq<A>, x: A)
    requires Distinct(s)
    ensures multiset(s)[x] == if x in s then 1 else 0
  {
    if s != [] {
      var front, last := s[..|s| - 1], s[|s| - 1];
      assert s == front + [last];
      DistinctCounts(front, x);
    }
  }

  lemma DistinctPermutes<A>(a: seq<A>, b: seq<A>)
    requires Distinct(a) && Distinct(b) && forall x :: x in a <==> x in b
    ensures multiset(a) == multiset(b) && |a| == |b|
  {
    forall x: A ensures multiset(a)[x] == multiset(b)[x] {
      DistinctCounts(a, x);
      DistinctCounts(b, x);
    }
    assert |multiset(a)| == |a| && |multiset(b)| == |b|;
  }
}
