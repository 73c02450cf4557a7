/** The sign of a permutation, counted by inversions. */
module Parity {
  import opened Permutations

  /** How many values in `s` are smaller than `x`. */
  function Smaller(s: seq<int>, x: int): nat {
    if s == [] then 0 else (if s[0] < x then 1 else 0) + Smaller(s[1..], x)
  }

  function Inversions(s: seq<int>): nat {
    if s == [] then 0 else Smaller(s[1..], s[0]) + Inversions(s[1..])
  }

  predicate Odd(s: seq<int>) {
    Inversions(s) % 2 == 1
  }

  function Swap(s: seq<int>, i: int, j: int): (r: seq<int>)
    requires 0 <= i < |s| && 0 <= j < |s|
    ensures |r| == |s|
  {
    s[i := s[j]][j := s[i]]
  }

  lemma {:induction false} SmallerSwap(s: seq<int>, i: int, x: int)
    requires 0 <= i < |s| - 1
    ensures Smaller(Swap(s, i, i + 1), x) == Smaller(s, x)
  {
    var r := Swap(s, i, i + 1);
    if i == 0 {
      assert s[1..][1..] == s[2..] == r[2..] == r[1..][1..];
    } else {
      assert r[1..] == Swap(s[1..], i - 1, i);
      SmallerSwap(s[1..], i - 1, x);
    }
  }

  lemma FirstTwo(s: seq<int>)
    requires |s| >= 2
    ensures Inversions(s) == (if s[1] < s[0] then 1 else 0)
                             + Smaller(s[2..], s[0]) + Smaller(s[2..], s[1]) + Inversions(s[2..])
  {
    assert s[1..][1..] == s[2..];
  }

  /** Exchanging two neighbours creates or removes exactly one inversion. */
  lemma {:induction false} AdjacentInversions(s: seq<int>, i: int)
    requires 0 <= i < |s| - 1 && s[i] != s[i + 1]
    ensures Inversions(Swap(s, i, i + 1)) == Inversions(s) + if s[i] < s[i + 1] then 1 else -1
  {
    var r := Swap(s, i, i + 1);
    if i == 0 {
      hide Smaller, Inversions;
      FirstTwo(s);
      FirstTwo(r);
      assert r[2..] == s[2..];
    } else {
      assert r[1..] == Swap(s[1..], i - 1, i);
      SmallerSwap(s[1..], i - 1, s[0]);
      AdjacentInversions(s[1..], i - 1);
    }
  }

  lemma AdjacentSwap(s: seq<int>, i: int)
    requires 0 <= i < |s| - 1 && s[i] != s[i + 1]
    ensures Odd(Swap(s, i, i + 1)) != Odd(s)
  {
    hide Inversions, Swap;
    AdjacentInversions(s, i);
  }

  /** Exchanging two different values changes the sign. */
  lemma {:induction false} SwapFlips(s: seq<int>, i: int, j: int)
    requires 0 <= i < j < |s| && Distinct(s)
    ensures Odd(Swap(s, i, j)) != Odd(s)
    ensures Distinct(Swap(s, i, j))
    decreases j - i
  {
    hide Odd;
    AdjacentSwap(s, i);
    if j > i + 1 {
      var a := Swap(s, i, i + 1);
      var b := Swap(a, i + 1, j);
      SwapFlips(a, i + 1, j);
      AdjacentSwap(b, i);
      assert Swap(b, i, i + 1) == Swap(s, i, j);
    }
  }

  /** Three exchanges make a four-cycle, which is odd. */
  lemma FourCycleFlips(s: seq<int>, a: int, b: int, c: int, d: int)
    requires 0 <= a < |s| && 0 <= b < |s| && 0 <= c < |s| && 0 <= d < |s|
    requires a != b && a != c && a != d && b != c && b != d && c != d && Distinct(s)
    ensures Odd(s[a := s[b]][b := s[c]][c := s[d]][d := s[a]]) != Odd(s)
  {
    var r := Swap(s, a, b);
    var u := Swap(r, b, c);
    SwapAny(s, a, b);
    SwapAny(r, b, c);
    SwapAny(u, c, d);
    assert Swap(u, c, d) == s[a := s[b]][b := s[c]][c := s[d]][d := s[a]];
  }

  lemma SwapAny(s: seq<int>, i: int, j: int)
    requires 0 <= i < |s| && 0 <= j < |s| && i != j && Distinct(s)
    ensures Odd(Swap(s, i, j)) != Odd(s)
    ensures Distinct(Swap(s, i, j))
  {
    if i < j {
      SwapFlips(s, i, j);
    } else {
      assert Swap(s, i, j) == Swap(s, j, i);
      SwapFlips(s, j, i);
    }
  }

  lemma {:induction false} IdentityEven(n: nat, m: nat)
    requires m <= n
    ensures Inversions(Identity(n)[m..]) == 0
    decreases n - m
  {
    if m < n {
      var s := Identity(n)[m..];
      assert s[1..] == Identity(n)[m + 1..];
      IdentityEven(n, m + 1);
      NothingSmaller(s[1..], m);
    }
  }

  lemma {:induction false} NothingSmaller(s: seq<int>, x: int)
    requires forall i | 0 <= i < |s| :: s[i] >= x
    ensures Smaller(s, x) == 0
  {
    if s != [] {
      NothingSmaller(s[1..], x);
    }
  }

}
