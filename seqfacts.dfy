/**
 * Sequence facts shared by the record-linkage modules: distinctness,
 * reversal (Python's `s[::-1]`) and sums of table values over a sequence
 * of keys.
 */
module SeqFacts {

  /** No element occurs twice. */
  predicate Distinct<T(==)>(s: seq<T>) {
    forall i, j :: 0 <= i < j < |s| ==> s[i] != s[j]
  }

  /** The sequence read back to front. */
  function Reverse<T>(s: seq<T>): seq<T> {
    seq(|s|, k requires 0 <= k < |s| => s[|s| - 1 - k])
  }

  /** Sum of `prob[x]` over the keys `s`, in order, with repetitions. */
  function SumOver<T>(s: seq<T>, prob: map<T, real>): real
    requires forall x :: x in s ==> x in prob
  {
    if s == [] then 0.0 else prob[s[0]] + SumOver(s[1..], prob)
  }

  lemma {:induction false} DistinctAtMostOnce<T>(s: seq<T>, x: T)
    requires Distinct(s)
    ensures multiset(s)[x] <= 1
    ensures x in s ==> multiset(s)[x] == 1
  {
    if s != [] {
      assert s == [s[0]] + s[1..];
      assert Distinct(s[1..]);
      DistinctAtMostOnce(s[1..], x);
      assert s[0] !in s[1..];
    }
  }

  lemma {:induction false} CountBoundSeparates<T>(s: seq<T>, i: int, j: int)
    requires 0 <= i < j < |s| && multiset(s)[s[i]] <= 1
    ensures s[i] != s[j]
  {
    assert s == s[..j] + [s[j]] + s[j + 1..];
    assert s[i] in s[..j];
  }

  /** A permutation of a sequence without repetitions has none either. */
  lemma {:induction false} PermutationKeepsDistinct<T>(a: seq<T>, b: seq<T>)
    requires multiset(a) == multiset(b) && Distinct(a)
    ensures Distinct(b)
  {
    forall i, j | 0 <= i < j < |b|
      ensures b[i] != b[j]
    {
      DistinctAtMostOnce(a, b[i]);
      CountBoundSeparates(b, i, j);
    }
  }

  /** Two repetition-free sequences with the same elements are permutations of each other. */
  lemma {:induction false} DistinctSameElements<T>(a: seq<T>, b: seq<T>)
    requires Distinct(a) && Distinct(b)
    requires forall x :: x in a <==> x in b
    ensures multiset(a) == multiset(b)
  {
    forall x
      ensures multiset(a)[x] == multiset(b)[x]
    {
      DistinctAtMostOnce(a, x);
      DistinctAtMostOnce(b, x);
    }
  }

  lemma {:induction false} DistinctConcat<T>(a: seq<T>, b: seq<T>)
    requires Distinct(a + b)
    ensures Distinct(a) && Distinct(b)
    ensures forall x :: x in a ==> x !in b
  {
    forall i, j | 0 <= i < j < |a|
      ensures a[i] != a[j]
    {
      assert (a + b)[i] == a[i] && (a + b)[j] == a[j];
    }
    forall i, j | 0 <= i < j < |b|
      ensures b[i] != b[j]
    {
      assert (a + b)[|a| + i] == b[i] && (a + b)[|a| + j] == b[j];
    }
    forall x | x in a
      ensures x !in b
    {
      var i :| 0 <= i < |a| && a[i] == x;
      forall j | 0 <= j < |b|
        ensures b[j] != x
      {
        assert (a + b)[i] == x && (a + b)[|a| + j] == b[j];
      }
    }
  }

  lemma {:induction false} ReversePermutes<T>(s: seq<T>)
    ensures multiset(Reverse(s)) == multiset(s)
  {
    if s != [] {
      var init := s[..|s| - 1];
      ReversePermutes(init);
      assert Reverse(s) == [s[|s| - 1]] + Reverse(init);
      assert s == init + [s[|s| - 1]];
    }
  }

  lemma {:induction false} ReverseKeepsDistinct<T>(s: seq<T>)
    requires Distinct(s)
    ensures Distinct(Reverse(s))
  {
    ReversePermutes(s);
    PermutationKeepsDistinct(s, Reverse(s));
  }

  lemma {:induction false} SumOverConcat<T>(a: seq<T>, b: seq<T>, prob: map<T, real>)
    requires forall x :: x in a + b ==> x in prob
    ensures SumOver(a + b, prob) == SumOver(a, prob) + SumOver(b, prob)
  {
    if a != [] {
      assert (a + b)[1..] == a[1..] + b;
      SumOverConcat(a[1..], b, prob);
    } else {
      assert a + b == b;
    }
  }

  lemma {:induction false} MultisetRemove<T>(b: seq<T>, i: int)
    requires 0 <= i < |b|
    ensures multiset(b[..i] + b[i + 1..]) == multiset(b) - multiset{b[i]}
  {
    assert b == b[..i] + [b[i]] + b[i + 1..];
  }

  lemma {:induction false} SumOverRemove<T>(b: seq<T>, i: int, prob: map<T, real>)
    requires 0 <= i < |b|
    requires forall x :: x in b ==> x in prob
    ensures SumOver(b, prob) == prob[b[i]] + SumOver(b[..i] + b[i + 1..], prob)
  {
    assert b == b[..i] + ([b[i]] + b[i + 1..]);
    SumOverConcat(b[..i], [b[i]] + b[i + 1..], prob);
    SumOverConcat(b[..i], b[i + 1..], prob);
    assert ([b[i]] + b[i + 1..])[1..] == b[i + 1..];
  }

  /** Where the first element of `a` sits in its permutation `b`, and what is left of both. */
  lemma {:induction false} MultisetTail<T>(a: seq<T>)
    requires a != []
    ensures multiset(a[1..]) == multiset(a) - multiset{a[0]}
  {
    assert a == [a[0]] + a[1..];
  }

  lemma {:induction false} FindIndex<T>(b: seq<T>, x: T) returns (i: int)
    requires x in multiset(b)
    ensures 0 <= i < |b| && b[i] == x
  {
    assert x in b;
    i :| 0 <= i < |b| && b[i] == x;
  }

  /** Dropping one element leaves only elements of the original. */
  lemma {:induction false} RemoveKeepsMembers<T>(b: seq<T>, i: int)
    requires 0 <= i < |b|
    ensures forall y :: y in b[..i] + b[i + 1..] ==> y in b
  {
    var rest := b[..i] + b[i + 1..];
    forall y | y in rest
      ensures y in b
    {
      var k :| 0 <= k < |rest| && rest[k] == y;
      if k < i {
        assert rest[k] == b[k];
      } else {
        assert rest[k] == b[k + 1];
      }
    }
  }

  lemma {:induction false} PickOccurrence<T>(a: seq<T>, b: seq<T>) returns (i: int)
    requires a != [] && multiset(a) == multiset(b)
    ensures 0 <= i < |b| && b[i] == a[0]
    ensures multiset(a[1..]) == multiset(b[..i] + b[i + 1..])
    ensures forall y :: y in b[..i] + b[i + 1..] ==> y in b
  {
    i := FindIndex(b, a[0]);
    var x := a[0];
    MultisetRemove(b, i);
    MultisetTail(a);
    assert multiset(b[..i] + b[i + 1..]) == multiset(b) - multiset{x};
    assert multiset(a[1..]) == multiset(a) - multiset{x};
    RemoveKeepsMembers(b, i);
  }

  /** A sum over keys does not depend on their order. */
  lemma {:induction false} SumOverPermutation<T>(a: seq<T>, b: seq<T>, prob: map<T, real>)
    requires multiset(a) == multiset(b)
    requires forall x :: x in a ==> x in prob
    requires forall x :: x in b ==> x in prob
    ensures SumOver(a, prob) == SumOver(b, prob)
  {
    if a == [] {
      assert |b| == |multiset(b)| == 0;
    } else {
      var i := PickOccurrence(a, b);
      SumOverPermutation(a[1..], b[..i] + b[i + 1..], prob);
      SumOverRemove(b, i, prob);
    }
  }
}
