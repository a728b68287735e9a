/** Array operations the source uses on its collections: `filter`, removal of
    every occurrence of a value, and counting. */
module Seqs {

  /** `Array.prototype.filter`: the elements satisfying `p`, in their original order. */
  function Filter<T(!new)>(s: seq<T>, p: T -> bool): (r: seq<T>)
    ensures |r| <= |s|
    ensures forall x {:trigger x in r} :: x in r <==> x in s && p(x)
    ensures forall i :: 0 <= i < |r| ==> p(r[i])
  {
    if s == [] then []
    else (if p(s[0]) then [s[0]] else []) + Filter(s[1..], p)
  }

  /** Filtering distributes over concatenation: together with the one-element
      case this pins `Filter` down as the order-preserving selection. */
  lemma {:induction false} FilterConcat<T(!new)>(a: seq<T>, b: seq<T>, p: T -> bool)
    ensures Filter(a + b, p) == Filter(a, p) + Filter(b, p)
  {
    if a == [] {
      assert a + b == b;
    } else {
      assert (a + b)[1..] == a[1..] + b;
      FilterConcat(a[1..], b, p);
    }
  }

  /** When every element passes, filtering changes nothing. */
  lemma {:induction false} FilterAll<T(!new)>(s: seq<T>, p: T -> bool)
    requires forall i :: 0 <= i < |s| ==> p(s[i])
    ensures Filter(s, p) == s
  {
    if s != [] {
      FilterAll(s[1..], p);
    }
  }

  /** Filtering twice by the same predicate is filtering once. */
  lemma FilterIdempotent<T(!new)>(s: seq<T>, p: T -> bool)
    ensures Filter(Filter(s, p), p) == Filter(s, p)
  {
    FilterAll(Filter(s, p), p);
  }

  /** A filter and its complement (`q` is the negation of `p`) split the input: the two parts together hold
      every element exactly as often as the input does. */
  lemma {:induction false} FilterPartition<T(!new)>(s: seq<T>, p: T -> bool, q: T -> bool)
    requires forall x :: q(x) <==> !p(x)
    ensures multiset(Filter(s, p)) + multiset(Filter(s, q)) == multiset(s)
    ensures |Filter(s, p)| + |Filter(s, q)| == |s|
  {
    if s != [] {
      FilterPartition(s[1..], p, q);
      assert s == [s[0]] + s[1..];
    }
  }

  /** Number of elements satisfying `p` (`filter(p).length`). */
  function Count<T(!new)>(s: seq<T>, p: T -> bool): (n: nat)
    ensures n <= |s|
    ensures n == 0 <==> forall i :: 0 <= i < |s| ==> !p(s[i])
  {
    FilterNoneEmpty(s, p);
    |Filter(s, p)|
  }

  lemma {:induction false} FilterNoneEmpty<T(!new)>(s: seq<T>, p: T -> bool)
    ensures Filter(s, p) == [] <==> forall i :: 0 <= i < |s| ==> !p(s[i])
  {
    if s != [] {
      FilterNoneEmpty(s[1..], p);
      if Filter(s, p) == [] {
        forall i | 0 <= i < |s| ensures !p(s[i]) {
          if i > 0 { assert s[i] == s[1..][i - 1]; }
        }
      }
    }
  }

  /** `xs.filter(x => x !== v)`: every occurrence of `v` removed, the rest in order. */
  function Without<T(==,!new)>(xs: seq<T>, v: T): (r: seq<T>)
    ensures |r| <= |xs|
    ensures v !in r
    ensures forall x :: x in r <==> x in xs && x != v
    ensures v !in xs ==> r == xs
  {
    if xs == [] then [] else (if xs[0] == v then [] else [xs[0]]) + Without(xs[1..], v)
  }

  /** Removal works element by element, so the remaining values keep their order. */
  lemma {:induction false} WithoutConcat<T(!new)>(a: seq<T>, b: seq<T>, v: T)
    ensures Without(a + b, v) == Without(a, v) + Without(b, v)
  {
    if a == [] {
      assert a + b == b;
    } else {
      assert (a + b)[1..] == a[1..] + b;
      WithoutConcat(a[1..], b, v);
    }
  }

  /** A checkbox over a list of values: ticking appends `v` at the end,
      unticking removes every occurrence of it. Afterwards `v` is in the list
      exactly when the box is ticked, and every other value keeps its state. */
  function SetMembership<T(==,!new)>(xs: seq<T>, v: T, member: bool): (r: seq<T>)
    ensures member ==> r == xs + [v]
    ensures !member ==> r == Without(xs, v)
    ensures v in r <==> member
    ensures forall x :: x != v ==> (x in r <==> x in xs)
  {
    if member then xs + [v] else Without(xs, v)
  }

  /** Unticking and ticking again leaves `v` exactly once, at the end. */
  lemma UntickThenTick<T(!new)>(xs: seq<T>, v: T)
    ensures var r := SetMembership(SetMembership(xs, v, false), v, true);
            multiset(r)[v] == 1 && r[|r| - 1] == v
  {
    var w := Without(xs, v);
    assert multiset(w)[v] == 0;
  }

  /** `xs.filter((_, i) => i !== k)`: the element at position `k` dropped. */
  function RemoveAt<T>(xs: seq<T>, k: nat): (r: seq<T>)
    ensures k < |xs| ==> |r| == |xs| - 1
    ensures k < |xs| ==> forall i :: 0 <= i < |r| ==> r[i] == (if i < k then xs[i] else xs[i + 1])
    ensures k >= |xs| ==> r == xs
  {
    if k < |xs| then xs[..k] + xs[k + 1..] else xs
  }
}
