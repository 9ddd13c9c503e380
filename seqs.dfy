/**
 * The array operations both components lean on: `filter`, `map` and a sort
 * by an integer key (JavaScript's `Array.prototype.sort` with the comparator
 * `(a, b) => key(a) - key(b)`), as functions on sequences.
 */
module Seqs {

  /** The elements of `s` that satisfy `p`; the contract gives their multiplicities, not their order. */
  function Filter<T(==,!new)>(s: seq<T>, p: T -> bool): (r: seq<T>)
    ensures |r| <= |s|
    ensures forall x :: x in r ==> x in s && p(x)
    ensures forall x :: multiset(r)[x] == if p(x) then multiset(s)[x] else 0
  {
    if s == [] then []
    else
      var init, last := s[..|s| - 1], s[|s| - 1];
      assert s == init + [last];
      Filter(init, p) + (if p(last) then [last] else [])
  }

  /** Extending a prefix by one element extends its `Filter` and its `Map` by at most that element. */
  lemma PrefixStep<T(!new), U>(s: seq<T>, i: int, p: T -> bool, f: T -> U)
    requires 0 <= i < |s|
    ensures Filter(s[..i + 1], p) == Filter(s[..i], p) + (if p(s[i]) then [s[i]] else [])
    ensures Map(s[..i + 1], f) == Map(s[..i], f) + [f(s[i])]
  {
    assert s[..i + 1] == s[..i] + [s[i]];
    assert s[..i + 1][..i] == s[..i];
    MapConcat(s[..i], [s[i]], f);
  }

  /** `f` applied to every element of `s`, position by position. */
  function Map<T, U>(s: seq<T>, f: T -> U): (r: seq<U>)
    ensures |r| == |s|
  {
    if s == [] then [] else [f(s[0])] + Map(s[1..], f)
  }

  /** Position `i` of the image is the image of position `i`. */
  lemma {:induction false} MapAt<T, U>(s: seq<T>, f: T -> U, i: int)
    requires 0 <= i < |s|
    ensures Map(s, f)[i] == f(s[i])
  {
    if i > 0 {
      MapAt(s[1..], f, i - 1);
    }
  }

  lemma {:induction false} MapConcat<T, U>(a: seq<T>, b: seq<T>, f: T -> U)
    ensures Map(a + b, f) == Map(a, f) + Map(b, f)
  {
    if a == [] {
      assert a + b == b;
    } else {
      assert a + b == [a[0]] + (a[1..] + b);
      MapCons(a[0], a[1..] + b, f);
      MapConcat(a[1..], b, f);
      assert a == [a[0]] + a[1..];
    }
  }

  lemma MapCons<T, U>(x: T, t: seq<T>, f: T -> U)
    ensures Map([x] + t, f) == [f(x)] + Map(t, f)
  {
    assert ([x] + t)[1..] == t;
  }

  lemma {:induction false} MapConcatMultiset<T, U>(a: seq<T>, b: seq<T>, f: T -> U)
    ensures multiset(Map(a + b, f)) == multiset(Map(a, f)) + multiset(Map(b, f))
  {
    if a != [] {
      assert a == [a[0]] + a[1..];
      assert a + b == [a[0]] + (a[1..] + b);
      MapCons(a[0], a[1..] + b, f);
      MapCons(a[0], a[1..], f);
      MapConcatMultiset(a[1..], b, f);
    } else {
      assert a + b == b;
    }
  }

  /** Dropping position `i` before mapping drops the image of that element. */
  lemma MapWithout<T, U>(b: seq<T>, i: int, f: T -> U)
    requires 0 <= i < |b|
    ensures multiset(Map(b, f)) == multiset(Map(b[..i] + b[i + 1..], f)) + multiset{f(b[i])}
  {
    var left, right := b[..i], b[i + 1..];
    assert b[i..] == [b[i]] + right;
    assert b == left + b[i..];
    MapConcatMultiset(left, [b[i]] + right, f);
    MapCons(b[i], right, f);
    MapConcatMultiset(left, right, f);
  }

  /** Every element of a permuted image is the image of some element. */
  lemma ImageMember<T, U>(s: seq<T>, f: T -> U, r: seq<U>, k: int)
    requires multiset(r) == multiset(Map(s, f)) && 0 <= k < |r|
    ensures exists j :: 0 <= j < |s| && r[k] == f(s[j])
  {
    assert r[k] in multiset(r);
    assert r[k] in Map(s, f);
    var j :| 0 <= j < |s| && Map(s, f)[j] == r[k];
    MapAt(s, f, j);
  }

  lemma WithoutElement<T>(a: seq<T>, b: seq<T>, i: int)
    requires multiset(a) == multiset(b) && a != [] && 0 <= i < |b| && b[i] == a[0]
    ensures multiset(a[1..]) == multiset(b[..i] + b[i + 1..])
  {
    assert a == [a[0]] + a[1..];
    assert b == b[..i] + [b[i]] + b[i + 1..];
    assert multiset(b[..i] + b[i + 1..]) == multiset(b) - multiset{a[0]};
  }

  /** Mapping two permutations of one another gives two permutations of one another. */
  lemma {:induction false} MapPermutation<T, U>(a: seq<T>, b: seq<T>, f: T -> U)
    requires multiset(a) == multiset(b)
    ensures multiset(Map(a, f)) == multiset(Map(b, f))
    decreases |a|
  {
    if a == [] {
      assert |b| == |multiset(b)| == 0;
    } else {
      assert a[0] in multiset(b);
      var i :| 0 <= i < |b| && b[i] == a[0];
      WithoutElement(a, b, i);
      MapPermutation(a[1..], b[..i] + b[i + 1..], f);
      MapWithout(b, i, f);
      assert Map(a, f) == [f(a[0])] + Map(a[1..], f);
    }
  }

  /** An element that occurs in `s` has its image occur in `Map(s, f)` at least as often. */
  lemma {:induction false} MapCount<T, U>(s: seq<T>, f: T -> U, x: T)
    ensures multiset(Map(s, f))[f(x)] >= multiset(s)[x]
  {
    if s != [] {
      assert s == [s[0]] + s[1..];
      assert Map(s, f) == [f(s[0])] + Map(s[1..], f);
      MapCount(s[1..], f, x);
    }
  }

  /** Non-decreasing by `key`: every element's key is at most the next one's. */
  predicate SortedBy<T>(s: seq<T>, key: T -> int) {
    |s| <= 1 || (key(s[0]) <= key(s[1]) && SortedBy(s[1..], key))
  }

  /** The adjacent-pair definition orders every pair of positions. */
  lemma {:induction false} SortedByPairs<T>(s: seq<T>, key: T -> int, i: int, j: int)
    requires SortedBy(s, key) && 0 <= i <= j < |s|
    ensures key(s[i]) <= key(s[j])
  {
    if i < j {
      SortedByPairs(s[1..], key, if i == 0 then 0 else i - 1, j - 1);
      assert s[1..][j - 1] == s[j];
      if i > 0 {
        assert s[1..][i - 1] == s[i];
      }
    }
  }

  /** Puts `x` in front of the first element whose key is not smaller than its own. */
  function Insert<T(==)>(x: T, s: seq<T>, key: T -> int): (r: seq<T>)
    requires SortedBy(s, key)
    ensures SortedBy(r, key)
    ensures multiset(r) == multiset(s) + multiset{x}
    ensures |r| == |s| + 1 && (r[0] == x || (s != [] && r[0] == s[0]))
  {
    if s == [] || key(x) <= key(s[0]) then [x] + s
    else
      assert s == [s[0]] + s[1..];
      var tail := Insert(x, s[1..], key);
      assert ([s[0]] + tail)[1..] == tail;
      [s[0]] + tail
  }

  /**
   * A sorted permutation of `s`. Each element goes in front of the elements
   * after it with an equal key, so equal keys keep their order, as in the
   * stable sort JavaScript engines are required to use.
   */
  function SortBy<T(==)>(s: seq<T>, key: T -> int): (r: seq<T>)
    ensures SortedBy(r, key)
    ensures multiset(r) == multiset(s)
  {
    if s == [] then []
    else
      assert s == [s[0]] + s[1..];
      Insert(s[0], SortBy(s[1..], key), key)
  }
}
