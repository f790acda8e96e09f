/** Sequence facts the store's list primitives rely on: removing every
    occurrence of a value (Redis `LREM key 0 value`) and the subsequence
    order it preserves. */
module Seqs {

  /** `s` with every element equal to `x` dropped, the rest in order. */
  function Without<T(==)>(s: seq<T>, x: T): (r: seq<T>)
    ensures |r| <= |s|
    ensures x !in r
    ensures forall y :: y in r ==> y in s
  {
    if s == [] then []
    else (if s[0] == x then [] else [s[0]]) + Without(s[1..], x)
  }

  /** `a` can be obtained from `b` by deleting elements: the elements of `a`
      occur in `b` in the same relative order. */
  predicate Subsequence<T(==)>(a: seq<T>, b: seq<T>)
    decreases |b|
  {
    if a == [] then true
    else if b == [] then false
    else (a[0] == b[0] && Subsequence(a[1..], b[1..])) || Subsequence(a, b[1..])
  }

  /** Removal deletes exactly the occurrences of `x`: every other value keeps
      its multiplicity. */
  lemma {:induction false} WithoutMultiset<T>(s: seq<T>, x: T)
    ensures multiset(Without(s, x)) == multiset(s)[x := 0]
  {
    if s != [] {
      var rest := s[1..];
      var w := Without(rest, x);
      WithoutMultiset(rest, x);
      assert s == [s[0]] + rest;
      var ms := multiset(s);
      assert ms == multiset{s[0]} + multiset(rest);
      if s[0] == x {
        assert Without(s, x) == w;
        forall y ensures multiset(w)[y] == ms[x := 0][y] {
        }
      } else {
        assert Without(s, x) == [s[0]] + w;
        assert multiset(Without(s, x)) == multiset{s[0]} + multiset(w);
        forall y ensures (multiset{s[0]} + multiset(w))[y] == ms[x := 0][y] {
        }
      }
    }
  }

  /** The length drops by the number of occurrences removed. */
  lemma WithoutLength<T>(s: seq<T>, x: T)
    ensures |Without(s, x)| == |s| - multiset(s)[x]
  {
    WithoutMultiset(s, x);
    var m := multiset(s);
    assert m == m[x := 0] + multiset{}[x := m[x]];
  }

  /** The names left behind keep their relative order. */
  lemma {:induction false} WithoutIsSubsequence<T>(s: seq<T>, x: T)
    ensures Subsequence(Without(s, x), s)
  {
    if s != [] {
      WithoutIsSubsequence(s[1..], x);
      var w := Without(s[1..], x);
      if s[0] == x {
        assert Without(s, x) == w;
      } else {
        assert Without(s, x) == [s[0]] + w;
        assert Without(s, x)[1..] == w;
      }
    }
  }

  /** Removing an absent value is a no-op. */
  lemma {:induction false} WithoutAbsent<T>(s: seq<T>, x: T)
    requires x !in s
    ensures Without(s, x) == s
  {
    if s != [] {
      assert s[1..] + [] == s[1..];
      WithoutAbsent(s[1..], x);
      assert s == [s[0]] + s[1..];
    }
  }

  /** Removing the same value twice is the same as removing it once. */
  lemma WithoutIdempotent<T>(s: seq<T>, x: T)
    ensures Without(Without(s, x), x) == Without(s, x)
  {
    WithoutAbsent(Without(s, x), x);
  }

  /** Removal commutes with concatenation, so it acts on each element on
      its own. */
  lemma {:induction false} WithoutConcat<T>(a: seq<T>, b: seq<T>, x: T)
    ensures Without(a + b, x) == Without(a, x) + Without(b, x)
  {
    if a == [] {
      assert a + b == b;
    } else {
      var head := if a[0] == x then [] else [a[0]];
      assert (a + b)[0] == a[0];
      assert (a + b)[1..] == a[1..] + b;
      calc {
        Without(a + b, x);
        head + Without(a[1..] + b, x);
        { WithoutConcat(a[1..], b, x); }
        head + (Without(a[1..], x) + Without(b, x));
        (head + Without(a[1..], x)) + Without(b, x);
        Without(a, x) + Without(b, x);
      }
    }
  }
}
