/**
 Weighted sums over multisets.
 */
module Sums {
  ghost function Sum<T>(m: multiset<T>, w: T -> nat): nat
    decreases |m|
  {
    if m == multiset{} then 0
    else
      var x :| x in m;
      w(x) + Sum(m - multiset{x}, w)
  }

  /** The sum does not depend on the order of summation. */
  lemma {:induction false} SumWithout<T>(m: multiset<T>, x: T, w: T -> nat)
    requires x in m
    ensures Sum(m, w) == w(x) + Sum(m - multiset{x}, w)
    decreases |m|
  {
    var first :| first in m && Sum(m, w) == w(first) + Sum(m - multiset{first}, w);
    if first != x {
      SumWithout(m - multiset{first}, x, w);
      SumWithout(m - multiset{x}, first, w);
      assert m - multiset{first} - multiset{x} == m - multiset{x} - multiset{first};
    }
  }

  lemma {:induction false} SumWith<T>(m: multiset<T>, x: T, w: T -> nat)
    ensures Sum(m + multiset{x}, w) == Sum(m, w) + w(x)
  {
    SumWithout(m + multiset{x}, x, w);
    assert m + multiset{x} - multiset{x} == m;
  }

  lemma {:induction false} OneMore<T>(m: multiset<T>, x: T, n: nat)
    ensures m[x := m[x] + n + 1] == m[x := m[x] + n] + multiset{x}
  {
  }

  lemma {:induction false} Distributes(n: int, k: int)
    ensures (n + 1) * k == n * k + k
  {
  }

  lemma {:induction false} SumCopies<T>(m: multiset<T>, x: T, n: nat, w: T -> nat)
    ensures Sum(m[x := m[x] + n], w) == Sum(m, w) + n * w(x)
  {
    hide Sum;
    if n == 0 {
      assert m[x := m[x] + n] == m;
    } else {
      SumCopies(m, x, n - 1, w);
      OneMore(m, x, n - 1);
      SumWith(m[x := m[x] + (n - 1)], x, w);
      Distributes(n - 1, w(x));
    }
  }

  lemma {:induction false} SumLe<T>(m: multiset<T>, v: T -> nat, w: T -> nat)
    requires forall x :: v(x) <= w(x)
    ensures Sum(m, v) <= Sum(m, w)
    decreases |m|
  {
    if m != multiset{} {
      var x :| x in m;
      SumWithout(m, x, v);
      SumWithout(m, x, w);
      SumLe(m - multiset{x}, v, w);
    }
  }

  lemma {:induction false} SumZeroIff<T>(m: multiset<T>, w: T -> nat)
    ensures Sum(m, w) == 0 <==> forall x :: x in m ==> w(x) == 0
    decreases |m|
  {
    if m != multiset{} {
      var first :| first in m && Sum(m, w) == w(first) + Sum(m - multiset{first}, w);
      SumZeroIff(m - multiset{first}, w);
      assert forall x :: x in m <==> x == first || x in m - multiset{first};
    }
  }

  ghost function SumOf<T>(xs: seq<T>, w: T -> nat): nat {
    if xs == [] then 0 else SumOf(xs[..|xs| - 1], w) + w(xs[|xs| - 1])
  }

  lemma {:induction false} SumLess<T>(m: multiset<T>, xs: seq<T>, w: T -> nat)
    requires multiset(xs) <= m
    ensures Sum(m, w) == SumOf(xs, w) + Sum(m - multiset(xs), w)
  {
    if xs == [] {
      assert m - multiset(xs) == m;
    } else {
      var front, last := xs[..|xs| - 1], xs[|xs| - 1];
      assert xs == front + [last];
      assert multiset(xs) == multiset(front) + multiset{last};
      SumLess(m, front, w);
      assert (m - multiset(front))[last] >= 1;
      SumWithout(m - multiset(front), last, w);
      assert m - multiset(front) - multiset{last} == m - multiset(xs);
    }
  }
}
