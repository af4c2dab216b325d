/** Parts of sequences, and sequences that are permutations of one another. */
module Sequences {

  /** The first n elements, or all if there are fewer. */
  function Slice<T>(s: seq<T>, n: nat): seq<T> { if |s| <= n then s else s[..n] }

  function Without<T>(s: seq<T>, i: nat): seq<T>
    requires i < |s|
  {
    s[..i] + s[i + 1..]
  }

  function Inserted<T>(s: seq<T>, at: nat, x: T): seq<T>
    requires at <= |s|
  {
    s[..at] + [x] + s[at..]
  }

  /** An inserted element pushes the last one out of the slice. */
  lemma {:induction false} SliceInserted<T>(s: seq<T>, i: nat, x: T, n: nat)
    requires i <= |s|
    ensures Slice(Inserted(s, i, x), n) == if i < n then Inserted(Slice(s, n - 1), i, x) else Slice(s, n)
  {
    if i < n { assert Slice(Inserted(s, i, x), n) == Inserted(Slice(s, n - 1), i, x); }
    else { assert Slice(Inserted(s, i, x), n) == Slice(s, n); }
  }

  /** Behind the removed element one more moves up into the slice. */
  lemma {:induction false} SliceWithout<T>(s: seq<T>, i: nat, n: nat)
    requires i < |s|
    ensures Slice(Without(s, i), n) == if i < n then Without(Slice(s, n + 1), i) else Slice(s, n)
  {
    if i < n { assert Slice(Without(s, i), n) == Without(Slice(s, n + 1), i); }
    else { assert Slice(Without(s, i), n) == Slice(s, n); }
  }

  /** A sequence with the same elements has the first element of a somewhere. */
  lemma {:induction false} TakeOut<T>(a: seq<T>, b: seq<T>) returns (l: seq<T>, r: seq<T>)
    requires a != [] && multiset(a) == multiset(b)
    ensures b == l + ([a[0]] + r) && multiset(a[1..]) == multiset(l + r)
    ensures forall x :: x in l + r ==> x in b
  {
    assert a[0] in multiset(b);
    var i :| 0 <= i < |b| && b[i] == a[0];
    l, r := b[..i], b[i + 1..];
    assert b == l + ([a[0]] + r) && a == [a[0]] + a[1..];
    TakenOut(a[1..], l, a[0], r);
  }

  lemma {:induction false} TakenOut<T>(t: seq<T>, l: seq<T>, x: T, r: seq<T>)
    requires multiset([x] + t) == multiset(l + ([x] + r))
    ensures multiset(t) == multiset(l + r)
  {
    assert multiset([x] + t) == multiset{x} + multiset(t);
    assert multiset(l + ([x] + r)) == multiset(l) + (multiset{x} + multiset(r));
    assert multiset(l + r) == multiset(l) + multiset(r);
    Cancel(multiset{x}, multiset(t), multiset(l + r));
  }

  lemma {:induction false} Cancel<T>(m: multiset<T>, a: multiset<T>, b: multiset<T>)
    requires m + a == m + b
    ensures a == b
  {
    forall x ensures a[x] == b[x] { assert (m + a)[x] == m[x] + a[x] && (m + b)[x] == m[x] + b[x]; }
  }
}
