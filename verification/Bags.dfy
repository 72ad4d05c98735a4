/** Multiset unions and sums over a sequence, and how they move when one element changes. */
module Bags {

  /** The union of f over the elements of s. */
  ghost function BagOf<T, U>(f: T -> multiset<U>, s: seq<T>): multiset<U> {
    if s == [] then multiset{} else BagOf(f, s[..|s| - 1]) + f(s[|s| - 1])
  }

  /** The sum of f over the elements of s. */
  ghost function SumOf<T>(f: T -> nat, s: seq<T>): nat {
    if s == [] then 0 else SumOf(f, s[..|s| - 1]) + f(s[|s| - 1])
  }

  lemma {:induction false} BagAppend<T, U>(f: T -> multiset<U>, s: seq<T>, x: T)
    ensures BagOf(f, s + [x]) == BagOf(f, s) + f(x)
  {
    assert (s + [x])[..|s|] == s;
  }

  lemma {:induction false} BagUpdate<T, U>(f: T -> multiset<U>, s: seq<T>, i: nat, x: T)
    requires i < |s|
    ensures BagOf(f, s[i := x]) + f(s[i]) == BagOf(f, s) + f(x)
  {
    var last := |s| - 1;
    if i == last {
      assert s[i := x][..last] == s[..last];
    } else {
      BagUpdate(f, s[..last], i, x);
      assert s[i := x][..last] == s[..last][i := x];
      var before, after, end := BagOf(f, s[..last]), BagOf(f, s[..last][i := x]), f(s[last]);
      assert after + end + f(s[i]) == (after + f(s[i])) + end == (before + f(x)) + end;
    }
  }

  lemma {:induction false} BagMember<T, U>(f: T -> multiset<U>, s: seq<T>, i: nat)
    requires i < |s|
    ensures f(s[i]) <= BagOf(f, s)
  {
    if i < |s| - 1 {
      BagMember(f, s[..|s| - 1], i);
    }
  }

  /** Whatever is in the union comes from some element. */
  lemma {:induction false} BagSource<T, U>(f: T -> multiset<U>, s: seq<T>, u: U) returns (i: nat)
    requires u in BagOf(f, s)
    ensures i < |s| && u in f(s[i])
  {
    i := |s| - 1;
    if u !in f(s[i]) {
      i := BagSource(f, s[..i], u);
    }
  }

  lemma {:induction false} BagEmpty<T, U>(f: T -> multiset<U>, s: seq<T>)
    requires forall i | 0 <= i < |s| :: f(s[i]) == multiset{}
    ensures BagOf(f, s) == multiset{}
  {
    if s != [] {
      BagEmpty(f, s[..|s| - 1]);
    }
  }

  lemma {:induction false} SumAppend<T>(f: T -> nat, s: seq<T>, x: T)
    ensures SumOf(f, s + [x]) == SumOf(f, s) + f(x)
  {
    assert (s + [x])[..|s|] == s;
  }

  lemma {:induction false} SumUpdate<T>(f: T -> nat, s: seq<T>, i: nat, x: T)
    requires i < |s|
    ensures SumOf(f, s[i := x]) + f(s[i]) == SumOf(f, s) + f(x)
  {
    var last := |s| - 1;
    if i == last {
      assert s[i := x][..last] == s[..last];
    } else {
      SumUpdate(f, s[..last], i, x);
      assert s[i := x][..last] == s[..last][i := x];
    }
  }

  lemma {:induction false} SumMember<T>(f: T -> nat, s: seq<T>, i: nat)
    requires i < |s|
    ensures f(s[i]) <= SumOf(f, s)
  {
    if i < |s| - 1 {
      SumMember(f, s[..|s| - 1], i);
    }
  }

  lemma {:induction false} SumZero<T>(f: T -> nat, s: seq<T>)
    requires forall i | 0 <= i < |s| :: f(s[i]) == 0
    ensures SumOf(f, s) == 0
  {
    if s != [] {
      SumZero(f, s[..|s| - 1]);
    }
  }

  /** BagUpdate and BagAppend for the multiplicity of one element. */
  lemma CountUpdate<T, U>(f: T -> multiset<U>, s: seq<T>, i: nat, x: T, u: U)
    requires i < |s|
    ensures BagOf(f, s[i := x])[u] + f(s[i])[u] == BagOf(f, s)[u] + f(x)[u]
  {
    BagUpdate(f, s, i, x);
    assert (BagOf(f, s[i := x]) + f(s[i]))[u] == (BagOf(f, s) + f(x))[u];
  }

  lemma CountAppend<T, U>(f: T -> multiset<U>, s: seq<T>, x: T, u: U)
    ensures BagOf(f, s + [x])[u] == BagOf(f, s)[u] + f(x)[u]
  {
    BagAppend(f, s, x);
  }

  lemma {:induction false} SumSame<T>(f: T -> nat, a: seq<T>, b: seq<T>)
    requires |a| == |b| && forall i | 0 <= i < |a| :: f(a[i]) == f(b[i])
    ensures SumOf(f, a) == SumOf(f, b)
  {
    if a != [] {
      SumSame(f, a[..|a| - 1], b[..|b| - 1]);
    }
  }

  lemma {:induction false} BagSame<T, U>(f: T -> multiset<U>, a: seq<T>, b: seq<T>)
    requires |a| == |b| && forall i | 0 <= i < |a| :: f(a[i]) == f(b[i])
    ensures BagOf(f, a) == BagOf(f, b)
  {
    if a != [] {
      BagSame(f, a[..|a| - 1], b[..|b| - 1]);
    }
  }
}
