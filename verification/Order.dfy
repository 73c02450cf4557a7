/** How often a run has to be repeated: 55440 times are enough for every run, and nothing short of a multiple of 55440
    is enough for all of them. */
module Order {
  import opened Permutations
  import opened Turns
  import opened Runs
  import opened Cubies
  import opened Reachability
  import opened Group
  import opened Macros

  const COMMON_ORDER := 55440

  /** The pieces after `n` repetitions of a run. */
  function Power(run: seq<Turn>, n: nat): (r: Cubies)
    ensures r.WellFormed()
  {
    CubeOf(Repeat(run, n))
  }

  lemma PowerStep(run: seq<Turn>, n: nat)
    ensures Power(run, 0) == SOLVED_CUBIES
    ensures Power(run, n + 1) == Compose(Power(run, n), CubeOf(run))
  {
    hide CubeOf, Compose;
    CubeOfConcat(Repeat(run, n), run);
    assert CubeOf([]) == SOLVED_CUBIES by {
      SolvedIsEmpty();
    }
  }

  lemma SolvedIsEmpty()
    ensures CubeOf([]) == SOLVED_CUBIES
  {}

  lemma {:induction false} PowerAdd(run: seq<Turn>, m: nat, n: nat)
    ensures Power(run, m + n) == Compose(Power(run, m), Power(run, n))
  {
    hide Power, CubeOf, Compose;
    if n == 0 {
      PowerStep(run, 0);
      ComposeSolved(Power(run, m));
    } else {
      PowerStep(run, m + n - 1);
      PowerStep(run, n - 1);
      PowerAdd(run, m, n - 1);
      assert m + n - 1 == m + (n - 1);
      ComposeAssociative(Power(run, m), Power(run, n - 1), CubeOf(run));
    }
  }

  lemma CornerStep(run: seq<Turn>, n: nat, i: int)
    requires 0 <= i < 8
    ensures var x, p, q := CubeOf(run), Power(run, n), Power(run, n + 1);
            && q.corner[i] == p.corner[x.corner[i]]
            && q.twist[i] == (p.twist[x.corner[i]] + x.twist[i]) % 3
  {
    hide Power, CubeOf, Compose;
    PowerStep(run, n);
    CornerAt(Power(run, n), CubeOf(run), i);
  }

  lemma EdgeStep(run: seq<Turn>, n: nat, j: int)
    requires 0 <= j < 12
    ensures var x, p, q := CubeOf(run), Power(run, n), Power(run, n + 1);
            && q.edge[j] == p.edge[x.edge[j]]
            && q.flip[j] == (p.flip[x.edge[j]] + x.flip[j]) % 2
  {
    hide Power, CubeOf, Compose;
    PowerStep(run, n);
    EdgeAt(Power(run, n), CubeOf(run), j);
  }

  lemma {:induction false} CornerWalk(run: seq<Turn>, i: int, n: nat)
    requires 0 <= i < 8
    ensures Power(run, n).corner[i] == Walk(CubeOf(run).corner, i, n)
    decreases n
  {
    hide Power, CubeOf;
    if n == 0 {
      PowerStep(run, 0);
    } else {
      CornerStep(run, n - 1, i);
      CornerWalk(run, CubeOf(run).corner[i], n - 1);
      WalkFirst(CubeOf(run).corner, i, n);
    }
  }

  lemma {:induction false} EdgeWalk(run: seq<Turn>, j: int, n: nat)
    requires 0 <= j < 12
    ensures Power(run, n).edge[j] == Walk(CubeOf(run).edge, j, n)
    decreases n
  {
    hide Power, CubeOf;
    if n == 0 {
      PowerStep(run, 0);
    } else {
      EdgeStep(run, n - 1, j);
      EdgeWalk(run, CubeOf(run).edge[j], n - 1);
      WalkFirst(CubeOf(run).edge, j, n);
    }
  }

  /** `m` times `h`, added up one by one. */
  function Times(m: nat, h: nat): nat {
    if m == 0 then 0 else Times(m - 1, h) + h
  }

  lemma {:induction false} TimesIs(m: nat, h: nat)
    ensures Times(m, h) == m * h
  {
    if m > 0 {
      TimesIs(m - 1, h);
      assert m * h == (m - 1) * h + h;
    }
  }

  lemma AddRemainder(a: int, b: int, n: int)
    requires n == 2 || n == 3
    ensures (a % n + b) % n == (a + b) % n
  {}

  lemma CornerJoins(run: seq<Turn>, i: int, g: nat, h: nat)
    requires 0 <= i < 8 && Power(run, g).corner[i] == i && Power(run, h).corner[i] == i
    ensures Power(run, g + h).corner[i] == i
    ensures Power(run, g + h).twist[i] == (Power(run, g).twist[i] + Power(run, h).twist[i]) % 3
  {
    hide Power, Compose;
    PowerAdd(run, g, h);
    CornerAt(Power(run, g), Power(run, h), i);
  }

  /** A corner that is back after `h` rounds is back after every multiple, with its twist multiplied. */
  lemma {:induction false} CornerRounds(run: seq<Turn>, i: int, h: nat, m: nat)
    requires 0 <= i < 8 && Power(run, h).corner[i] == i
    ensures Power(run, Times(m, h)).corner[i] == i
    ensures Power(run, Times(m, h)).twist[i] == Times(m, Power(run, h).twist[i]) % 3
  {
    hide Power;
    if m == 0 {
      PowerStep(run, 0);
    } else {
      CornerRounds(run, i, h, m - 1);
      CornerJoins(run, i, Times(m - 1, h), h);
      var t: nat := Power(run, h).twist[i];
      assert Times(m, t) == Times(m - 1, t) + t && Times(m, h) == Times(m - 1, h) + h;
      hide Times;
      AddRemainder(Times(m - 1, t), t, 3);
    }
  }

  lemma EdgeJoins(run: seq<Turn>, j: int, g: nat, h: nat)
    requires 0 <= j < 12 && Power(run, g).edge[j] == j && Power(run, h).edge[j] == j
    ensures Power(run, g + h).edge[j] == j
    ensures Power(run, g + h).flip[j] == (Power(run, g).flip[j] + Power(run, h).flip[j]) % 2
  {
    hide Power, Compose;
    PowerAdd(run, g, h);
    EdgeAt(Power(run, g), Power(run, h), j);
  }

  lemma {:induction false} EdgeRounds(run: seq<Turn>, j: int, h: nat, m: nat)
    requires 0 <= j < 12 && Power(run, h).edge[j] == j
    ensures Power(run, Times(m, h)).edge[j] == j
    ensures Power(run, Times(m, h)).flip[j] == Times(m, Power(run, h).flip[j]) % 2
  {
    hide Power;
    if m == 0 {
      PowerStep(run, 0);
    } else {
      EdgeRounds(run, j, h, m - 1);
      EdgeJoins(run, j, Times(m - 1, h), h);
      var t: nat := Power(run, h).flip[j];
      assert Times(m, t) == Times(m - 1, t) + t && Times(m, h) == Times(m - 1, h) + h;
      hide Times;
      AddRemainder(Times(m - 1, t), t, 2);
    }
  }

  lemma Multiple(m: nat, t: nat, n: int)
    requires (n == 2 || n == 3) && m % n == 0 && t < 3
    ensures Times(m, t) % n == 0
  {
    TimesIs(m, t);
    assert t == 0 || t == 1 || t == 2;
  }

  lemma CornerHome(run: seq<Turn>, i: int)
    requires 0 <= i < 8
    ensures var x := Power(run, COMMON_ORDER); x.corner[i] == i && x.twist[i] == 0
  {
    hide Power, CubeOf;
    var k := ReturnTime(CubeOf(run).corner, i);
    CornerWalk(run, i, k);
    var m := COMMON_ORDER / k;
    assert m * k == COMMON_ORDER && m % 3 == 0 by {
      CornerRoundsFit(k);
    }
    CornerRounds(run, i, k, m);
    TimesIs(m, k);
    Multiple(m, Power(run, k).twist[i], 3);
  }

  lemma CornerRoundsFit(k: int)
    requires 1 <= k <= 8
    ensures COMMON_ORDER / k * k == COMMON_ORDER && COMMON_ORDER / k % 3 == 0
  {}

  lemma EdgeHome(run: seq<Turn>, j: int)
    requires 0 <= j < 12
    ensures var x := Power(run, COMMON_ORDER); x.edge[j] == j && x.flip[j] == 0
  {
    hide Power, CubeOf;
    var k := ReturnTime(CubeOf(run).edge, j);
    EdgeWalk(run, j, k);
    var m := COMMON_ORDER / k;
    assert m * k == COMMON_ORDER && m % 2 == 0 by {
      EdgeRoundsFit(k);
    }
    EdgeRounds(run, j, k, m);
    TimesIs(m, k);
    Multiple(m, Power(run, k).flip[j], 2);
  }

  lemma EdgeRoundsFit(k: int)
    requires 1 <= k <= 12
    ensures COMMON_ORDER / k * k == COMMON_ORDER && COMMON_ORDER / k % 2 == 0
  {}

  /** `n` repetitions of a run do nothing to any coloring exactly when they do nothing to the pieces. */
  predicate Restores(run: seq<Turn>, n: nat) {
    Power(run, n) == SOLVED_CUBIES
  }

  ghost predicate RestoresColors(run: seq<Turn>, n: nat) {
    forall c: Coloring :: AfterRun(c, Repeat(run, n)) == c
  }

  lemma RestoresExactly(run: seq<Turn>, n: nat)
    ensures RestoresColors(run, n) <==> Restores(run, n)
  {
    hide CubeOf, Labels, AfterRun, Repeat;
    var all := Repeat(run, n);
    PiecesStayWhole(all);
    SolvedLabels();
    if Restores(run, n) {
      forall c: Coloring ensures AfterRun(c, all) == c {
        RunActs(c, all);
        assert Apply(c, Identity(54)) == c;
      }
    }
    if RestoresColors(run, n) {
      assert AfterRun(Identity(54), all) == Identity(54);
      LabelsDetermine(CubeOf(all), SOLVED_CUBIES);
    }
  }

  lemma CommonOrder(run: seq<Turn>)
    ensures Restores(run, COMMON_ORDER)
  {
    hide Power;
    var x := Power(run, COMMON_ORDER);
    forall i | 0 <= i < 8 ensures x.corner[i] == i && x.twist[i] == 0 {
      CornerHome(run, i);
    }
    forall j | 0 <= j < 12 ensures x.edge[j] == j && x.flip[j] == 0 {
      EdgeHome(run, j);
    }
  }

  /** `q` leads around `cycle`. */
  predicate IsCycle(q: seq<int>, cycle: seq<int>) {
    && |cycle| > 0 && Below(cycle, |q|) && Distinct(cycle)
    && forall k | 0 <= k < |cycle| :: q[cycle[k]] == cycle[if k + 1 < |cycle| then k + 1 else 0]
  }

  /** After `n` steps `q` is at place `k` of the cycle, having gone round it `d` times. */
  lemma {:induction false} CycleWalk(q: seq<int>, cycle: seq<int>, n: nat) returns (k: nat, d: nat)
    requires IsPermutation(q) && IsCycle(q, cycle)
    ensures k < |cycle| && Walk(q, cycle[0], n) == cycle[k] && n == d * |cycle| + k
  {
    if n == 0 {
      k, d := 0, 0;
    } else {
      k, d := CycleWalk(q, cycle, n - 1);
      if k + 1 < |cycle| {
        k := k + 1;
      } else {
        assert (d + 1) * |cycle| == d * |cycle| + |cycle|;
        k, d := 0, d + 1;
      }
    }
  }

  lemma EdgeCycleDivides(run: seq<Turn>, cycle: seq<int>, n: nat) returns (d: nat)
    requires IsCycle(CubeOf(run).edge, cycle) && Restores(run, n)
    ensures n == d * |cycle|
  {
    hide CubeOf, Power;
    EdgeWalk(run, cycle[0], n);
    var k;
    k, d := CycleWalk(CubeOf(run).edge, cycle, n);
  }

  lemma CornerCycleDivides(run: seq<Turn>, cycle: seq<int>, n: nat) returns (d: nat)
    requires IsCycle(CubeOf(run).corner, cycle) && Restores(run, n)
    ensures n == d * |cycle|
  {
    hide CubeOf, Power;
    CornerWalk(run, cycle[0], n);
    var k;
    k, d := CycleWalk(CubeOf(run).corner, cycle, n);
  }

  /** Front, right, back, left: edges in cycles of five and seven, and a twisted cycle of three corners. */
  const RUN_FIVE_SEVEN_NINE := [Turn(0, 0), Turn(1, 0), Turn(5, 0), Turn(4, 0)]

  lemma FiveSevenEdge(j: int)
    requires 0 <= j < 12
    ensures CubeOf(RUN_FIVE_SEVEN_NINE).edge[j] == Row12(j, 1, 9, 3, 0, 11, 8, 5, 10, 4, 2, 6, 7)
  {
    hide CubeOf, EdgeTrace, FlipTrace;
    EdgeTraced(RUN_FIVE_SEVEN_NINE, j);
    EdgeTrace4(Turn(0, 0), Turn(1, 0), Turn(5, 0), Turn(4, 0), j);
  }

  lemma NineCorner(i: int)
    requires 0 <= i < 8
    ensures CubeOf(RUN_FIVE_SEVEN_NINE).corner[i] == Row8(i, 0, 1, 2, 3, 7, 5, 4, 6)
    ensures CubeOf(RUN_FIVE_SEVEN_NINE).twist[i] == Row8(i, 2, 2, 2, 2, 2, 2, 1, 2)
  {
    hide CubeOf, CornerTrace, TwistTrace;
    CornerTraced(RUN_FIVE_SEVEN_NINE, i);
    CornerTrace4(Turn(0, 0), Turn(1, 0), Turn(5, 0), Turn(4, 0), i);
  }

  const FIVE := [0, 1, 9, 2, 3]
  const SEVEN := [4, 11, 7, 10, 6, 5, 8]

  lemma FiveSevenCycles()
    ensures IsCycle(CubeOf(RUN_FIVE_SEVEN_NINE).edge, FIVE) && IsCycle(CubeOf(RUN_FIVE_SEVEN_NINE).edge, SEVEN)
  {
    hide CubeOf;
    var q := CubeOf(RUN_FIVE_SEVEN_NINE).edge;
    forall j | 0 <= j < 12 ensures q[j] == Row12(j, 1, 9, 3, 0, 11, 8, 5, 10, 4, 2, 6, 7) {
      FiveSevenEdge(j);
    }
  }

  lemma FiveSevenDivide(n: nat)
    requires Restores(RUN_FIVE_SEVEN_NINE, n)
    ensures n % 5 == 0 && n % 7 == 0
  {
    hide CubeOf, Restores, IsCycle;
    FiveSevenCycles();
    var d := EdgeCycleDivides(RUN_FIVE_SEVEN_NINE, FIVE, n);
    var e := EdgeCycleDivides(RUN_FIVE_SEVEN_NINE, SEVEN, n);
    assert |FIVE| == 5 && n == 5 * d && |SEVEN| == 7 && n == 7 * e;
  }

  lemma NineDivides(n: nat)
    requires Restores(RUN_FIVE_SEVEN_NINE, n)
    ensures n % 9 == 0
  {
    hide CubeOf, Power;
    var run, three, x := RUN_FIVE_SEVEN_NINE, [4, 7, 6], CubeOf(RUN_FIVE_SEVEN_NINE);
    NineCorner(4);
    NineCorner(6);
    NineCorner(7);
    assert IsCycle(x.corner, three);
    var m := CornerCycleDivides(run, three, n);
    PowerStep(run, 0);
    CornerStep(run, 0, 6);
    CornerStep(run, 1, 7);
    CornerStep(run, 2, 4);
    CornerStep(run, 0, 4);
    CornerStep(run, 1, 6);
    CornerStep(run, 0, 7);
    assert Power(run, 3).corner[4] == 4 && Power(run, 3).twist[4] == 2;
    CornerRounds(run, 4, 3, m);
    TimesIs(m, 3);
    TimesIs(m, 2);
  }

  /** Front, right, top back, left: eleven edges in one cycle. */
  const RUN_ELEVEN := [Turn(0, 0), Turn(1, 0), Turn(2, 1), Turn(4, 0)]

  lemma ElevenEdge(j: int)
    requires 0 <= j < 12
    ensures CubeOf(RUN_ELEVEN).edge[j] == Row12(j, 9, 2, 10, 1, 11, 8, 5, 7, 4, 3, 6, 0)
  {
    hide CubeOf, EdgeTrace, FlipTrace;
    EdgeTraced(RUN_ELEVEN, j);
    EdgeTrace4(Turn(0, 0), Turn(1, 0), Turn(2, 1), Turn(4, 0), j);
  }

  const ELEVEN := [0, 9, 3, 1, 2, 10, 6, 5, 8, 4, 11]

  lemma ElevenCycle()
    ensures IsCycle(CubeOf(RUN_ELEVEN).edge, ELEVEN)
  {
    hide CubeOf;
    var q := CubeOf(RUN_ELEVEN).edge;
    forall j | 0 <= j < 12 ensures q[j] == Row12(j, 9, 2, 10, 1, 11, 8, 5, 7, 4, 3, 6, 0) {
      ElevenEdge(j);
    }
  }

  lemma ElevenDivides(n: nat)
    requires Restores(RUN_ELEVEN, n)
    ensures n % 11 == 0
  {
    hide CubeOf, Restores, IsCycle;
    ElevenCycle();
    var d := EdgeCycleDivides(RUN_ELEVEN, ELEVEN, n);
    assert |ELEVEN| == 11 && n == 11 * d;
  }

  /** Front, right, top: eight edges in one cycle that flips them. */
  const RUN_SIXTEEN := [Turn(0, 0), Turn(1, 0), Turn(2, 0)]

  lemma SixteenEdge(j: int)
    requires 0 <= j < 12
    ensures CubeOf(RUN_SIXTEEN).edge[j] == Row12(j, 3, 1, 9, 2, 11, 8, 6, 7, 4, 5, 10, 0)
    ensures CubeOf(RUN_SIXTEEN).flip[j] == Row12(j, 0, 1, 1, 0, 0, 1, 0, 0, 0, 1, 0, 0)
  {
    hide CubeOf, EdgeTrace, FlipTrace;
    EdgeTraced(RUN_SIXTEEN, j);
    EdgeTrace3(Turn(0, 0), Turn(1, 0), Turn(2, 0), j);
  }

  lemma EdgeTrace3(a: Turn, b: Turn, c: Turn, j: int)
    ensures EdgeTrace([a, b, c], j) == EdgeBy(a, EdgeBy(b, EdgeBy(c, j)))
    ensures FlipTrace([a, b, c], j) == FlipBy(a, EdgeBy(b, EdgeBy(c, j))) + FlipBy(b, EdgeBy(c, j)) + FlipBy(c, j)
  {
    hide EdgeBy, FlipBy;
    assert [a, b, c][1..] == [b, c] && [b, c][1..] == [c] && [c][1..] == [];
    assert EdgeTrace([], j) == j && FlipTrace([], j) == 0;
    assert EdgeTrace([c], j) == EdgeBy(c, j) && FlipTrace([c], j) == FlipBy(c, j);
    assert EdgeTrace([b, c], j) == EdgeBy(b, EdgeTrace([c], j));
    assert FlipTrace([b, c], j) == FlipBy(b, EdgeTrace([c], j)) + FlipTrace([c], j);
  }

  const EIGHT := [0, 3, 2, 9, 5, 8, 4, 11]

  lemma EightCycle()
    ensures IsCycle(CubeOf(RUN_SIXTEEN).edge, EIGHT)
  {
    hide CubeOf;
    var q := CubeOf(RUN_SIXTEEN).edge;
    forall j | 0 <= j < 12 ensures q[j] == Row12(j, 3, 1, 9, 2, 11, 8, 6, 7, 4, 5, 10, 0) {
      SixteenEdge(j);
    }
  }

  /** The edge in slot 0 travels round the cycle of eight and comes back flipped. */
  lemma EightRounds()
    ensures Power(RUN_SIXTEEN, 8).edge[0] == 0 && Power(RUN_SIXTEEN, 8).flip[0] == 1
  {
    hide CubeOf, Power;
    var run := RUN_SIXTEEN;
    PowerStep(run, 0);
    SixteenEdge(11);
    EdgeStep(run, 0, 11);
    SixteenEdge(4);
    EdgeStep(run, 1, 4);
    SixteenEdge(8);
    EdgeStep(run, 2, 8);
    SixteenEdge(5);
    EdgeStep(run, 3, 5);
    SixteenEdge(9);
    EdgeStep(run, 4, 9);
    SixteenEdge(2);
    EdgeStep(run, 5, 2);
    SixteenEdge(3);
    EdgeStep(run, 6, 3);
    SixteenEdge(0);
    EdgeStep(run, 7, 0);
  }

  lemma OddRounds(m: nat)
    ensures Power(RUN_SIXTEEN, 8 * m).flip[0] == m % 2
  {
    hide CubeOf, Power;
    EightRounds();
    EdgeRounds(RUN_SIXTEEN, 0, 8, m);
    TimesIs(m, 8);
    TimesIs(m, 1);
  }

  lemma SixteenDivides(n: nat)
    requires Restores(RUN_SIXTEEN, n)
    ensures n % 16 == 0
  {
    hide CubeOf, Power, IsCycle;
    EightCycle();
    var m := EdgeCycleDivides(RUN_SIXTEEN, EIGHT, n);
    assert |EIGHT| == 8 && n == 8 * m;
    OddRounds(m);
  }

  lemma Join144(n: nat)
    requires n % 16 == 0 && n % 9 == 0
    ensures n % 144 == 0
  {
    var m := 4 * (n / 9) - 7 * (n / 16);
    assert n == 144 * m;
  }

  lemma Join35(n: nat)
    requires n % 5 == 0 && n % 7 == 0
    ensures n % 35 == 0
  {
    var m := 3 * (n / 7) - 2 * (n / 5);
    assert n == 35 * m;
  }

  lemma Join385(n: nat)
    requires n % 35 == 0 && n % 11 == 0
    ensures n % 385 == 0
  {
    var m := 16 * (n / 35) - 5 * (n / 11);
    assert n == 385 * m;
  }

  /** 16, 9, 5, 7 and 11 have no factor in common: the multiples are joined two by two. */
  lemma Together(n: nat)
    requires n % 144 == 0 && n % 385 == 0
    ensures n % COMMON_ORDER == 0
  {
    var m := 49 * (n / 144) - 131 * (n / 385);
    assert n == COMMON_ORDER * m;
  }

  /** Repeating a run `n` times restores every coloring, whatever the run, exactly when `n` is a multiple of 55440. */
  lemma OrderOfTheCube(n: nat)
    ensures (forall run: seq<Turn> :: RestoresColors(run, n)) <==> n % COMMON_ORDER == 0
  {
    hide Restores, RestoresColors;
    forall run: seq<Turn> ensures RestoresColors(run, n) <==> Restores(run, n) {
      RestoresExactly(run, n);
    }
    if n % COMMON_ORDER == 0 {
      forall run: seq<Turn> ensures Restores(run, n) {
        MultipleRestores(run, n / COMMON_ORDER);
        assert n / COMMON_ORDER * COMMON_ORDER == n;
      }
    }
    if forall run: seq<Turn> :: RestoresColors(run, n) {
      assert Restores(RUN_FIVE_SEVEN_NINE, n) && Restores(RUN_ELEVEN, n) && Restores(RUN_SIXTEEN, n);
      FiveSevenDivide(n);
      NineDivides(n);
      ElevenDivides(n);
      SixteenDivides(n);
      Join144(n);
      Join35(n);
      Join385(n);
      Together(n);
    }
  }

  lemma {:induction false} MultipleRestores(run: seq<Turn>, m: nat)
    ensures Restores(run, m * COMMON_ORDER)
  {
    hide Power;
    if m == 0 {
      PowerStep(run, 0);
    } else {
      MultipleRestores(run, m - 1);
      CommonOrder(run);
      assert m * COMMON_ORDER == (m - 1) * COMMON_ORDER + COMMON_ORDER;
      PowerAdd(run, (m - 1) * COMMON_ORDER, COMMON_ORDER);
      ComposeSolved(SOLVED_CUBIES);
    }
  }

}
