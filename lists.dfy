/** Array.prototype.filter, map and a filter-based count, as used by every
    list transformation of the screens. */
module Lists {

  /** `s.filter(p)`: the elements of `s` that satisfy `p`, in their order. */
  function Filter<T>(s: seq<T>, p: T -> bool): (r: seq<T>)
    ensures |r| <= |s|
    ensures forall x :: x in r ==> x in s && p(x)
  {
    if s == [] then [] else (if p(s[0]) then [s[0]] else []) + Filter(s[1..], p)
  }

  /** `s.map(f)`. */
  function Map<A, B>(s: seq<A>, f: A -> B): (r: seq<B>)
    ensures |r| == |s|
    ensures forall i :: 0 <= i < |s| ==> r[i] == f(s[i])
  {
    seq(|s|, i requires 0 <= i < |s| => f(s[i]))
  }

  /** `s.filter(p).length`. */
  function Count<T>(s: seq<T>, p: T -> bool): nat {
    |Filter(s, p)|
  }

  /** Every element of `s` that satisfies `p` survives the filter. */
  lemma {:induction false} FilterKeeps<T>(s: seq<T>, p: T -> bool, x: T)
    requires x in s && p(x)
    ensures x in Filter(s, p)
  {
    if s[0] != x {
      FilterKeeps(s[1..], p, x);
    }
  }

  /** Membership in the filtered list, both directions. */
  lemma FilterMembership<T>(s: seq<T>, p: T -> bool, x: T)
    ensures x in Filter(s, p) <==> x in s && p(x)
  {
    if x in s && p(x) {
      FilterKeeps(s, p, x);
    }
  }

  /** A filter that every element passes returns the list unchanged. */
  lemma {:induction false} FilterAll<T>(s: seq<T>, p: T -> bool)
    requires forall x :: x in s ==> p(x)
    ensures Filter(s, p) == s
  {
    if s != [] {
      FilterAll(s[1..], p);
    }
  }

  /** The filter is empty exactly when no element passes. */
  lemma {:induction false} FilterEmpty<T>(s: seq<T>, p: T -> bool)
    ensures Filter(s, p) == [] <==> forall x :: x in s ==> !p(x)
  {
    if s != [] {
      FilterEmpty(s[1..], p);
      if p(s[0]) {
        assert s[0] in Filter(s, p);
      }
    }
  }

  /** Filtering distributes over concatenation, so the relative order of the
      kept elements is the order they had in the input. */
  lemma {:induction false} FilterConcat<T>(a: seq<T>, b: seq<T>, p: T -> bool)
    ensures Filter(a + b, p) == Filter(a, p) + Filter(b, p)
  {
    if a == [] {
      assert a + b == b;
    } else {
      assert (a + b)[1..] == a[1..] + b;
      FilterConcat(a[1..], b, p);
    }
  }

  /** Two complementary filters split the list between them. */
  lemma {:induction false} FilterSplit<T>(s: seq<T>, p: T -> bool, q: T -> bool)
    requires forall x :: x in s ==> (p(x) <==> !q(x))
    ensures |Filter(s, p)| + |Filter(s, q)| == |s|
  {
    if s != [] {
      FilterSplit(s[1..], p, q);
    }
  }
}
