/** The converse of the cube laws: every lawful cube can be made by turning a solved one. */
module Solvability {
  import opened Permutations
  import opened Parity
  import opened Turns
  import opened Runs
  import opened Cubies
  import opened CubeLaws
  import opened Reachability
  import opened Group
  import opened Macros
  import opened Setups

  /** Cube `x` after a run. */
  function Then(x: Cubies, run: seq<Turn>): (r: Cubies)
    requires x.WellFormed()
    ensures r.WellFormed()
  {
    Compose(x, CubeOf(run))
  }

  lemma ThenConcat(x: Cubies, a: seq<Turn>, b: seq<Turn>)
    requires x.WellFormed()
    ensures Then(x, a + b) == Then(Then(x, a), b)
  {
    hide Compose, CubeOf;
    CubeOfConcat(a, b);
    ComposeAssociative(x, CubeOf(a), CubeOf(b));
  }

  lemma TurnedLawful(x: Cubies, t: Turn)
    requires Lawful(x)
    ensures Lawful(Turned(x, t)) && Odd(Turned(x, t).edge) != Odd(x.edge)
  {
    hide Lawful, Compose, Quarter;
    var q := Quarter(t.face);
    LawfulSigns(x);
    QuarterLawful(x, t.face);
    LawfulSigns(Compose(x, q));
    if !t.Clockwise() {
      QuarterLawful(Compose(x, q), t.face);
      QuarterLawful(Compose(Compose(x, q), q), t.face);
      LawfulSigns(Compose(Compose(Compose(x, q), q), q));
    }
  }

  lemma LawfulSigns(x: Cubies)
    requires Lawful(x)
    ensures x.WellFormed() && Odd(x.corner) == Odd(x.edge)
  {}

  lemma {:induction false} ThenLawful(x: Cubies, run: seq<Turn>)
    requires Lawful(x)
    ensures Lawful(Then(x, run))
  {
    hide Lawful, Compose, Turned;
    LawfulSigns(x);
    if run == [] {
      ComposeSolved(x);
    } else {
      var init, t := run[..|run| - 1], run[|run| - 1];
      ThenLawful(x, init);
      TurnedCompose(x, CubeOf(init), t);
      TurnedLawful(Then(x, init), t);
    }
  }

  /** Any three edges can be cycled, if the corners may change. */
  lemma EdgeThree(i: int, j: int, k: int) returns (run: seq<Turn>)
    requires 0 <= i < 12 && 0 <= j < 12 && 0 <= k < 12 && i != j && j != k && i != k
    ensures forall p | 0 <= p < 12 :: CubeOf(run).edge[p] == Three(p, i, j, k)
  {
    hide CubeOf, Conjugate;
    var s := EdgeSetup(i, j, k);
    run := Conjugate(s, EDGE_CYCLE);
    forall p | 0 <= p < 12 ensures CubeOf(run).edge[p] == Three(p, i, j, k) {
      var q := EdgePreimage(s, p);
      EdgeCycleDoes(q);
      ConjugateEdges(s, EDGE_CYCLE, q);
    }
  }

  function OtherThan(i: int, j: int): int {
    if i != 0 && j != 0 then 0 else if i != 1 && j != 1 then 1 else 2
  }

  /** Any two edges can be turned over, if the corners may change. */
  lemma EdgeFlips(i: int, j: int) returns (run: seq<Turn>)
    requires 0 <= i < 12 && 0 <= j < 12 && i != j
    ensures forall p | 0 <= p < 12 ::
              CubeOf(run).edge[p] == p && CubeOf(run).flip[p] == if p == i || p == j then 1 else 0
  {
    hide CubeOf, Conjugate;
    var s := EdgeSetup(i, OtherThan(i, j), j);
    run := Conjugate(s, EDGE_FLIP);
    forall p | 0 <= p < 12
      ensures CubeOf(run).edge[p] == p && CubeOf(run).flip[p] == if p == i || p == j then 1 else 0
    {
      var q := EdgePreimage(s, p);
      EdgeFlipKeeps(q);
      EdgeFlipDoes(q);
      ConjugateEdges(s, EDGE_FLIP, q);
    }
  }

  predicate EdgesSolved(x: Cubies) {
    |x.edge| == |x.flip| == 12 && forall j | 0 <= j < 12 :: x.edge[j] == j && x.flip[j] == 0
  }

  lemma ConjugateKeepsEdges(s: seq<Turn>, m: seq<Turn>)
    requires EdgesSolved(CubeOf(m))
    ensures EdgesSolved(CubeOf(Conjugate(s, m)))
  {
    hide CubeOf, Conjugate;
    var w := CubeOf(Conjugate(s, m));
    forall p | 0 <= p < 12 ensures w.edge[p] == p && w.flip[p] == 0 {
      var q := EdgePreimage(s, p);
      ConjugateEdges(s, m, q);
    }
  }

  /** Any three corners can be cycled without disturbing an edge. */
  lemma CornerThree(i: int, j: int, k: int) returns (run: seq<Turn>)
    requires 0 <= i < 8 && 0 <= j < 8 && 0 <= k < 8 && i != j && j != k && i != k
    ensures EdgesSolved(CubeOf(run))
    ensures forall p | 0 <= p < 8 :: CubeOf(run).corner[p] == Three(p, i, j, k)
  {
    hide CubeOf, Conjugate;
    var s := CornerSetup(i, j, k);
    run := Conjugate(s, CORNER_CYCLE);
    forall q | 0 <= q < 12 ensures CubeOf(CORNER_CYCLE).edge[q] == q && CubeOf(CORNER_CYCLE).flip[q] == 0 {
      CornerCycleKeeps(q);
    }
    ConjugateKeepsEdges(s, CORNER_CYCLE);
    forall p | 0 <= p < 8 ensures CubeOf(run).corner[p] == Three(p, i, j, k) {
      var q := CornerPreimage(s, p);
      CornerCycleDoes(q);
      ConjugateCorners(s, CORNER_CYCLE, q);
    }
  }

  /** Any two corners can be twisted in opposite directions, and nothing else. */
  lemma CornerTwists(i: int, j: int) returns (run: seq<Turn>)
    requires 0 <= i < 8 && 0 <= j < 8 && i != j
    ensures EdgesSolved(CubeOf(run))
    ensures forall p | 0 <= p < 8 ::
              CubeOf(run).corner[p] == p && CubeOf(run).twist[p] == if p == i then 1 else if p == j then 2 else 0
  {
    hide CubeOf, Conjugate;
    var s := CornerSetup(i, OtherThan(i, j), j);
    run := Conjugate(s, CORNER_TWIST);
    forall q | 0 <= q < 12 ensures CubeOf(CORNER_TWIST).edge[q] == q && CubeOf(CORNER_TWIST).flip[q] == 0 {
      CornerTwistKeeps(q);
    }
    ConjugateKeepsEdges(s, CORNER_TWIST);
    forall p | 0 <= p < 8
      ensures CubeOf(run).corner[p] == p && CubeOf(run).twist[p] == if p == i then 1 else if p == j then 2 else 0
    {
      var q := CornerPreimage(s, p);
      CornerTwistDoes(q);
      ConjugateCorners(s, CORNER_TWIST, q);
    }
  }

  /** `s` with the values of three places cycled. */
  function Cycled(s: seq<int>, i: int, j: int, k: int): (r: seq<int>)
    requires 0 <= i < |s| && 0 <= j < |s| && 0 <= k < |s|
    ensures |r| == |s|
  {
    s[i := s[j]][j := s[k]][k := s[i]]
  }

  lemma CycledEven(s: seq<int>, i: int, j: int, k: int)
    requires 0 <= i < |s| && 0 <= j < |s| && 0 <= k < |s| && i != j && j != k && i != k && Distinct(s)
    ensures Odd(Cycled(s, i, j, k)) == Odd(s)
  {
    SwapAny(s, i, j);
    SwapAny(Swap(s, i, j), j, k);
    assert Swap(Swap(s, i, j), j, k) == Cycled(s, i, j, k);
  }

  predicate FixedBelow(s: seq<int>, t: int) {
    forall p | 0 <= p < t && p < |s| :: s[p] == p
  }

  /** An even permutation that moves at most the last two places moves nothing. */
  lemma EvenPair(s: seq<int>)
    requires IsPermutation(s) && |s| >= 2 && FixedBelow(s, |s| - 2) && !Odd(s)
    ensures FixedBelow(s, |s|)
  {
    var n := |s|;
    if s[n - 1] != n - 1 {
      LastTwo(s);
      var id := Identity(n);
      assert s == Swap(id, n - 2, n - 1);
      IdentityEven(n, 0);
      assert id[0..] == id;
      SwapAny(id, n - 2, n - 1);
    } else {
      LastTwo(s);
    }
  }

  lemma LastTwo(s: seq<int>)
    requires IsPermutation(s) && |s| >= 2 && FixedBelow(s, |s| - 2)
    ensures s[|s| - 1] == |s| - 1 ==> s[|s| - 2] == |s| - 2
    ensures s[|s| - 1] != |s| - 1 ==> s[|s| - 1] == |s| - 2 && s[|s| - 2] == |s| - 1
  {
    var n := |s|;
    var last, other := s[n - 1], s[n - 2];
    assert s[last] == last || last >= n - 2;
    assert s[other] == other || other >= n - 2;
  }

  /** The place where value `t` stands, when the places before `t` hold their own numbers. */
  lemma FindValue(s: seq<int>, t: int) returns (j: int)
    requires IsPermutation(s) && 0 <= t < |s| && FixedBelow(s, t) && s[t] != t
    ensures t < j < |s| && s[j] == t
  {
    SameElements(s);
    assert t in s;
    j :| 0 <= j < |s| && s[j] == t;
  }

  /** Bring the edges home one after the other. */
  lemma {:induction false} PlaceEdges(x: Cubies, t: nat) returns (run: seq<Turn>)
    requires x.WellFormed() && !Odd(x.edge) && t <= 10 && FixedBelow(x.edge, t)
    ensures FixedBelow(Then(x, run).edge, 12)
    decreases 10 - t
  {
    hide Odd, CubeOf, Compose;
    if t == 10 {
      EvenPair(x.edge);
      run := [];
      ThenNothing(x);
    } else if x.edge[t] == t {
      run := PlaceEdges(x, t + 1);
    } else {
      var j := FindValue(x.edge, t);
      var k := if j == t + 1 then t + 2 else t + 1;
      var step := EdgeThree(t, j, k);
      var y := Then(x, step);
      forall p | 0 <= p < 12 ensures y.edge[p] == Cycled(x.edge, t, j, k)[p] {
        EdgeAt(x, CubeOf(step), p);
      }
      assert y.edge == Cycled(x.edge, t, j, k);
      CycledEven(x.edge, t, j, k);
      var rest := PlaceEdges(y, t + 1);
      run := step + rest;
      ThenConcat(x, step, rest);
    }
  }

  lemma ThenNothing(x: Cubies)
    requires x.WellFormed()
    ensures Then(x, []) == x
  {
    hide Compose;
    ComposeSolved(x);
  }

  lemma {:induction false} SumLast(s: seq<int>, t: nat)
    requires t < |s| && forall p | 0 <= p < |s| && p != t :: s[p] == 0
    ensures Sum(s) == s[t]
  {
    var m := |s| - 1;
    if t < m {
      SumLast(s[..m], t);
    } else {
      assert s[..m] == Zeros(m);
      SumZeros(m);
    }
  }

  /** Turn over the edges that are home but flipped, two at a time. */
  lemma {:induction false} FlipEdges(x: Cubies, t: nat) returns (run: seq<Turn>)
    requires Lawful(x) && t <= 11 && FixedBelow(x.edge, 12) && forall p | 0 <= p < t :: x.flip[p] == 0
    ensures EdgesSolved(Then(x, run))
    decreases 11 - t
  {
    hide Odd, CubeOf, Compose;
    if t == 11 {
      SumLast(x.flip, 11);
      run := [];
      ThenNothing(x);
    } else if x.flip[t] == 0 {
      run := FlipEdges(x, t + 1);
    } else {
      var step := EdgeFlips(t, 11);
      var y := Then(x, step);
      forall p | 0 <= p < 12 ensures y.edge[p] == p && (p <= t ==> y.flip[p] == 0) {
        EdgeAt(x, CubeOf(step), p);
      }
      ThenLawful(x, step);
      var rest := FlipEdges(y, t + 1);
      run := step + rest;
      ThenConcat(x, step, rest);
    }
  }

  lemma EdgesStaySolved(x: Cubies, run: seq<Turn>)
    requires x.WellFormed() && EdgesSolved(x) && EdgesSolved(CubeOf(run))
    ensures EdgesSolved(Then(x, run))
  {
    hide CubeOf, Compose;
    forall p | 0 <= p < 12 ensures Then(x, run).edge[p] == p && Then(x, run).flip[p] == 0 {
      EdgeAt(x, CubeOf(run), p);
    }
  }

  /** Bring the corners home one after the other, leaving the edges alone. */
  lemma {:induction false} PlaceCorners(x: Cubies, t: nat) returns (run: seq<Turn>)
    requires x.WellFormed() && !Odd(x.corner) && EdgesSolved(x) && t <= 6 && FixedBelow(x.corner, t)
    ensures FixedBelow(Then(x, run).corner, 8) && EdgesSolved(Then(x, run))
    decreases 6 - t
  {
    hide Odd, CubeOf, Compose, EdgesSolved;
    if t == 6 {
      EvenPair(x.corner);
      run := [];
      ThenNothing(x);
    } else if x.corner[t] == t {
      run := PlaceCorners(x, t + 1);
    } else {
      var j := FindValue(x.corner, t);
      var k := if j == t + 1 then t + 2 else t + 1;
      var step := CornerThree(t, j, k);
      var y := Then(x, step);
      forall p | 0 <= p < 8 ensures y.corner[p] == Cycled(x.corner, t, j, k)[p] {
        CornerAt(x, CubeOf(step), p);
      }
      assert y.corner == Cycled(x.corner, t, j, k);
      CycledEven(x.corner, t, j, k);
      EdgesStaySolved(x, step);
      var rest := PlaceCorners(y, t + 1);
      run := step + rest;
      ThenConcat(x, step, rest);
    }
  }

  /** Twist the corners that are home but twisted, two at a time. */
  lemma {:induction false} TwistCorners(x: Cubies, t: nat) returns (run: seq<Turn>)
    requires Lawful(x) && EdgesSolved(x) && t <= 7 && FixedBelow(x.corner, 8)
    requires forall p | 0 <= p < t :: x.twist[p] == 0
    ensures Then(x, run) == SOLVED_CUBIES
    decreases 7 - t, if t < 7 then 3 - x.twist[t] else 0
  {
    hide Odd, CubeOf, Compose;
    if t == 7 {
      SumLast(x.twist, 7);
      run := [];
      ThenNothing(x);
    } else if x.twist[t] == 0 {
      run := TwistCorners(x, t + 1);
    } else {
      var step := CornerTwists(t, 7);
      var y := Then(x, step);
      forall p | 0 <= p < 8 ensures y.corner[p] == p && (p < t ==> y.twist[p] == 0) {
        CornerAt(x, CubeOf(step), p);
      }
      CornerAt(x, CubeOf(step), t);
      EdgesStaySolved(x, step);
      ThenLawful(x, step);
      var rest;
      if x.twist[t] == 2 {
        rest := TwistCorners(y, t + 1);
      } else {
        rest := TwistCorners(y, t);
      }
      run := step + rest;
      ThenConcat(x, step, rest);
    }
  }

  /** A lawful cube can be solved. */
  lemma Solve(x: Cubies) returns (run: seq<Turn>)
    requires Lawful(x)
    ensures Then(x, run) == SOLVED_CUBIES
  {
    hide Odd, CubeOf, Compose, Sum;
    var r1 := EvenStart(x);
    var x1 := Then(x, r1);
    var r2 := PlaceEdges(x1, 0);
    var x2 := Then(x1, r2);
    ThenLawful(x1, r2);
    var r3 := FlipEdges(x2, 0);
    var x3 := Then(x2, r3);
    ThenLawful(x2, r3);
    EdgesEven(x3);
    var r4 := PlaceCorners(x3, 0);
    var x4 := Then(x3, r4);
    ThenLawful(x3, r4);
    var r5 := TwistCorners(x4, 0);
    ThenConcat(x, r1, r2);
    ThenConcat(x, r1 + r2, r3);
    ThenConcat(x, r1 + r2 + r3, r4);
    ThenConcat(x, r1 + r2 + r3 + r4, r5);
    run := r1 + r2 + r3 + r4 + r5;
  }

  lemma EvenStart(x: Cubies) returns (run: seq<Turn>)
    requires Lawful(x)
    ensures Lawful(Then(x, run)) && !Odd(Then(x, run).edge)
  {
    hide Odd, Compose, Turned, Sum;
    if Odd(x.edge) {
      var t := Turn(0, 0);
      run := [t];
      OneTurnCube(t);
      TurnedCompose(x, SOLVED_CUBIES, t);
      ComposeSolved(x);
      TurnedLawful(x, t);
    } else {
      run := [];
      ThenNothing(x);
    }
  }

  lemma EdgesEven(x: Cubies)
    requires Lawful(x) && EdgesSolved(x)
    ensures !Odd(x.corner)
  {
    hide Inversions, Sum;
    IdentityEven(12, 0);
    assert x.edge == Identity(12)[0..];
  }

  /** Exactly the lawful cubes can be made: the laws leave out nothing. */
  lemma LawfulIsAttainable(x: Cubies)
    requires x.WellFormed()
    ensures Lawful(x) <==> exists run: seq<Turn> :: CubeOf(run) == x
  {
    hide Lawful, CubeOf, Compose;
    if Lawful(x) {
      var solution := Solve(x);
      RightInverse(solution);
      ComposeAssociative(x, CubeOf(solution), CubeOf(Undo(solution)));
      ComposeSolved(x);
      SolvedCompose(CubeOf(Undo(solution)));
      assert CubeOf(Undo(solution)) == x;
    }
    if run: seq<Turn> :| CubeOf(run) == x {
      CubeLaw(run);
    }
  }

}
