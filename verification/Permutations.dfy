/** Finite permutations, written as sequences: `q[i]` is where position `i` takes its value from. */
module Permutations {

  predicate Distinct(s: seq<int>) {
    forall i, j | 0 <= i < j < |s| :: s[i] != s[j]
  }

  predicate Below(s: seq<int>, n: int) {
    forall i | 0 <= i < |s| :: 0 <= s[i] < n
  }

  predicate IsPermutation(q: seq<int>) {
    Below(q, |q|) && Distinct(q)
  }

  function Identity(n: nat): (q: seq<int>)
    ensures |q| == n && forall i | 0 <= i < n :: q[i] == i
  {
    seq(n, i => i)
  }

  /** Rearrange `c`: position `i` receives the value at `q[i]`. */
  function Apply(c: seq<int>, q: seq<int>): (r: seq<int>)
    requires Below(q, |c|)
    ensures |r| == |q| && forall i | 0 <= i < |q| :: r[i] == c[q[i]]
  {
    seq(|q|, i requires 0 <= i < |q| => c[q[i]])
  }

  /** Follow `q` from position `i` for `k` steps. */
  function Walk(q: seq<int>, i: int, k: nat): (j: int)
    requires IsPermutation(q) && 0 <= i < |q|
    ensures 0 <= j < |q|
  {
    if k == 0 then i else q[Walk(q, i, k - 1)]
  }

  lemma {:induction false} WalkSplit(q: seq<int>, i: int, k: nat, l: nat)
    requires IsPermutation(q) && 0 <= i < |q|
    ensures Walk(q, i, k + l) == Walk(q, Walk(q, i, k), l)
  {
    if l > 0 {
      WalkSplit(q, i, k, l - 1);
      assert k + l - 1 == k + (l - 1);
    }
  }

  lemma {:induction false} WalkInjective(q: seq<int>, i: int, j: int, k: nat)
    requires IsPermutation(q) && 0 <= i < |q| && 0 <= j < |q|
    requires Walk(q, i, k) == Walk(q, j, k)
    ensures i == j
  {
    if k > 0 {
      WalkInjective(q, i, j, k - 1);
    }
  }

  function Elements(s: seq<int>): set<int> {
    set x | x in s
  }

  lemma {:induction false} DistinctCardinality(s: seq<int>)
    requires Distinct(s)
    ensures |Elements(s)| == |s|
  {
    if s != [] {
      var t := s[..|s| - 1];
      DistinctCardinality(t);
      assert Elements(s) == Elements(t) + {s[|s| - 1]};
    }
  }

  /** Pigeonhole: distinct values below `n` cannot be more than `n`. */
  lemma {:induction false} Pigeonhole(s: seq<int>, n: nat)
    requires Below(s, n) && Distinct(s)
    ensures |s| <= n
  {
    DistinctCardinality(s);
    DistinctCardinality(Identity(n));
    var ids := Elements(Identity(n));
    forall x | x in Elements(s) ensures x in ids {
      assert Identity(n)[x] == x;
    }
    Subset(Elements(s), ids);
  }

  lemma {:induction false} Subset(a: set<int>, b: set<int>)
    requires a <= b
    ensures |a| <= |b|
  {
    assert b == a + (b - a);
  }

  /** Every position returns to itself after at most `|q|` steps. */
  lemma ReturnTime(q: seq<int>, i: int) returns (k: nat)
    requires IsPermutation(q) && 0 <= i < |q|
    ensures 1 <= k <= |q| && Walk(q, i, k) == i
  {
    var n := |q|;
    var orbit := seq(n + 1, k requires 0 <= k => Walk(q, i, k));
    if Distinct(orbit) {
      Pigeonhole(orbit, n);
      assert false;
    }
    var a, b :| 0 <= a < b < n + 1 && orbit[a] == orbit[b];
    k := b - a;
    WalkSplit(q, i, k, a);
    WalkInjective(q, i, Walk(q, i, k), a);
  }

  function Factorial(n: nat): (r: nat)
    ensures r >= 1
  {
    if n == 0 then 1 else n * Factorial(n - 1)
  }

  lemma {:induction false} DividesFactorial(k: nat, n: nat) returns (m: nat)
    requires 1 <= k <= n
    ensures Factorial(n) == m * k
  {
    if k == n {
      m := Factorial(n - 1);
    } else {
      var m' := DividesFactorial(k, n - 1);
      m := n * m';
      assert n * (m' * k) == (n * m') * k;
    }
  }

  lemma {:induction false} WalkMultiple(q: seq<int>, i: int, k: nat, m: nat)
    requires IsPermutation(q) && 0 <= i < |q|
    requires Walk(q, i, k) == i
    ensures Walk(q, i, m * k) == i
  {
    if m > 0 {
      WalkMultiple(q, i, k, m - 1);
      assert m * k == (m - 1) * k + k;
      WalkSplit(q, i, (m - 1) * k, k);
    }
  }

  /** The order of every permutation of `n` things divides `n!`. */
  lemma WalkFactorial(q: seq<int>, i: int)
    requires IsPermutation(q) && 0 <= i < |q|
    ensures Walk(q, i, Factorial(|q|)) == i
  {
    var k := ReturnTime(q, i);
    var m := DividesFactorial(k, |q|);
    WalkMultiple(q, i, k, m);
  }

  /** Rearranging loses no value and invents none. */
  lemma {:induction false} ApplyMultiset(c: seq<int>, q: seq<int>)
    requires IsPermutation(q) && |c| == |q|
    ensures multiset(Apply(c, q)) == multiset(c)
  {
    SameElements(q);
    ApplySame(c, q, Identity(|q|));
    assert Apply(c, Identity(|q|)) == c;
  }

  function Without(s: seq<int>, j: int): seq<int>
    requires 0 <= j < |s|
  {
    s[..j] + s[j + 1..]
  }

  lemma WithoutMultiset(s: seq<int>, j: int)
    requires 0 <= j < |s|
    ensures multiset(s) == multiset(Without(s, j)) + multiset{s[j]}
  {
    assert s == s[..j] + [s[j]] + s[j + 1..];
  }

  lemma BagCancel(a: multiset<int>, b: multiset<int>, x: int)
    requires a + multiset{x} == b + multiset{x}
    ensures a == b
  {
    assert a == a + multiset{x} - multiset{x};
    assert b == b + multiset{x} - multiset{x};
  }

  lemma ApplyWithout(c: seq<int>, a: seq<int>, j: int)
    requires Below(a, |c|) && 0 <= j < |a|
    ensures Below(Without(a, j), |c|)
    ensures multiset(Apply(c, a)) == multiset(Apply(c, Without(a, j))) + multiset{c[a[j]]}
  {
    WithoutMultiset(Apply(c, a), j);
    assert Without(Apply(c, a), j) == Apply(c, Without(a, j));
  }

  lemma {:induction false} ApplySame(c: seq<int>, a: seq<int>, b: seq<int>)
    requires Below(a, |c|) && Below(b, |c|) && multiset(a) == multiset(b)
    ensures multiset(Apply(c, a)) == multiset(Apply(c, b))
  {
    if a == [] {
      assert |multiset(b)| == 0;
      assert b == [];
    } else {
      assert a[0] in multiset(b);
      var j :| 0 <= j < |b| && b[j] == a[0];
      ApplyWithout(c, a, 0);
      ApplyWithout(c, b, j);
      assert multiset(Without(a, 0)) == multiset(Without(b, j)) by {
        WithoutMultiset(a, 0);
        WithoutMultiset(b, j);
        BagCancel(multiset(Without(a, 0)), multiset(Without(b, j)), a[0]);
      }
      ApplySame(c, Without(a, 0), Without(b, j));
    }
  }

  lemma {:induction false} DistinctCounts(s: seq<int>, x: int)
    requires Distinct(s)
    ensures multiset(s)[x] == if x in s then 1 else 0
  {
    if s != [] {
      assert s == s[..|s| - 1] + [s[|s| - 1]];
      DistinctCounts(s[..|s| - 1], x);
    }
  }

  lemma {:induction false} SameElements(q: seq<int>)
    requires IsPermutation(q)
    ensures multiset(q) == multiset(Identity(|q|))
    ensures forall x | 0 <= x < |q| :: x in q
  {
    var id := Identity(|q|);
    forall x | 0 <= x < |q| ensures x in q {
      if x !in q {
        assert Distinct(q + [x]);
        Pigeonhole(q + [x], |q|);
      }
    }
    forall x ensures multiset(q)[x] == multiset(id)[x] {
      DistinctCounts(q, x);
      DistinctCounts(id, x);
      if 0 <= x < |q| {
        assert id[x] == x;
      }
    }
  }

}
