/** Four turns are enough to bring any three edges, or any three corners, to three chosen slots one after the other. */
module Setups {
  import opened Turns
  import opened Runs
  import opened Cubies
  import opened Reachability
  import opened Group
  import opened Macros

  /** Four turns, each given as twice its face plus its direction. */
  function Four(a: int, b: int, c: int, d: int): (run: seq<Turn>)
    requires 0 <= a < 12 && 0 <= b < 12 && 0 <= c < 12 && 0 <= d < 12
    ensures |run| == 4
  {
    [Turn(a / 2, a % 2), Turn(b / 2, b % 2), Turn(c / 2, c % 2), Turn(d / 2, d % 2)]
  }

  /** What brings the edge in slot `i` to slot 0. */
  function EdgeRun1(i: int): (run: seq<Turn>)
    requires 0 <= i < 12
    ensures |run| == 4
  {
    match i
    case 0 => Four(0, 0, 0, 0)
    case 1 => Four(0, 0, 1, 2)
    case 2 => Four(0, 0, 4, 4)
    case 3 => Four(0, 0, 0, 4)
    case 4 => Four(0, 0, 2, 2)
    case 5 => Four(0, 0, 0, 2)
    case 6 => Four(0, 6, 1, 2)
    case 7 => Four(0, 0, 10, 3)
    case 8 => Four(0, 0, 0, 5)
    case 9 => Four(0, 0, 1, 5)
    case 10 => Four(0, 0, 11, 4)
    case _ => Four(0, 0, 0, 3)
  }

  lemma EdgeSetup1(i: int)
    requires 0 <= i < 12
    ensures EdgeTrace(EdgeRun1(i), 0) == i
  {
    hide EdgeTrace, FlipTrace;
    var r := EdgeRun1(i);
    assert r == [r[0], r[1], r[2], r[3]];
    EdgeTrace4(r[0], r[1], r[2], r[3], 0);
  }

  /** What brings the edge in slot `i` to slot 8 and leaves slot 0 alone. */
  function EdgeRun2(i: int): (run: seq<Turn>)
    requires 0 <= i < 12 && i != 0
    ensures |run| == 4
  {
    match i
    case 1 => Four(0, 0, 1, 6)
    case 2 => Four(0, 5, 0, 4)
    case 3 => Four(0, 2, 4, 3)
    case 4 => Four(0, 0, 7, 1)
    case 5 => Four(0, 0, 0, 6)
    case 6 => Four(0, 0, 6, 1)
    case 7 => Four(0, 3, 7, 2)
    case 8 => Four(0, 0, 0, 0)
    case 9 => Four(0, 0, 0, 1)
    case 10 => Four(0, 9, 6, 1)
    case _ => Four(2, 7, 3, 1)
  }

  lemma EdgeSetup2(i: int)
    requires 0 <= i < 12 && i != 0
    ensures EdgeTrace(EdgeRun2(i), 8) == i
  {
    hide EdgeTrace, FlipTrace;
    var r := EdgeRun2(i);
    assert r == [r[0], r[1], r[2], r[3]];
    EdgeTrace4(r[0], r[1], r[2], r[3], 8);
  }

  lemma EdgeSetup2Keeps(i: int)
    requires 0 <= i < 12 && i != 0
    ensures EdgeTrace(EdgeRun2(i), 0) == 0
  {
    hide EdgeTrace, FlipTrace;
    var r := EdgeRun2(i);
    assert r == [r[0], r[1], r[2], r[3]];
    EdgeTrace4(r[0], r[1], r[2], r[3], 0);
  }

  /** What brings the edge in slot `i` to slot 3 and leaves slots 0 and 8 alone. */
  function EdgeRun3(i: int): (run: seq<Turn>)
    requires 0 <= i < 12 && i != 0 && i != 8
    ensures |run| == 4
  {
    match i
    case 1 => Four(3, 4, 4, 2)
    case 2 => Four(0, 1, 9, 11)
    case 3 => Four(0, 0, 0, 0)
    case 4 => Four(3, 4, 10, 2)
    case 5 => Four(1, 2, 5, 3)
    case 6 => Four(0, 1, 8, 11)
    case 7 => Four(0, 1, 10, 10)
    case 9 => Four(3, 9, 4, 2)
    case 10 => Four(0, 1, 6, 11)
    case _ => Four(0, 1, 6, 10)
  }

  lemma EdgeSetup3(i: int)
    requires 0 <= i < 12 && i != 0 && i != 8
    ensures EdgeTrace(EdgeRun3(i), 3) == i
  {
    hide EdgeTrace, FlipTrace;
    var r := EdgeRun3(i);
    assert r == [r[0], r[1], r[2], r[3]];
    EdgeTrace4(r[0], r[1], r[2], r[3], 3);
  }

  lemma EdgeSetup3Keeps(i: int)
    requires 0 <= i < 12 && i != 0 && i != 8
    ensures EdgeTrace(EdgeRun3(i), 0) == 0 && EdgeTrace(EdgeRun3(i), 8) == 8
  {
    hide EdgeTrace, FlipTrace;
    var r := EdgeRun3(i);
    assert r == [r[0], r[1], r[2], r[3]];
    EdgeTrace4(r[0], r[1], r[2], r[3], 0);
    EdgeTrace4(r[0], r[1], r[2], r[3], 8);
  }

  /** What brings the corner in slot `i` to slot 0. */
  function CornerRun1(i: int): (run: seq<Turn>)
    requires 0 <= i < 8
    ensures |run| == 4
  {
    match i
    case 0 => Four(0, 0, 0, 0)
    case 1 => Four(0, 0, 1, 6)
    case 2 => Four(0, 0, 4, 3)
    case 3 => Four(0, 0, 0, 3)
    case 4 => Four(0, 0, 0, 6)
    case 5 => Four(0, 0, 0, 1)
    case 6 => Four(0, 6, 0, 0)
    case _ => Four(0, 0, 2, 1)
  }

  lemma CornerSetup1(i: int)
    requires 0 <= i < 8
    ensures CornerTrace(CornerRun1(i), 0) == i
  {
    hide CornerTrace, TwistTrace;
    var r := CornerRun1(i);
    assert r == [r[0], r[1], r[2], r[3]];
    CornerTrace4(r[0], r[1], r[2], r[3], 0);
  }

  /** What brings the corner in slot `i` to slot 2 and leaves slot 0 alone. */
  function CornerRun2(i: int): (run: seq<Turn>)
    requires 0 <= i < 8 && i != 0
    ensures |run| == 4
  {
    match i
    case 1 => Four(0, 1, 2, 4)
    case 2 => Four(0, 0, 0, 0)
    case 3 => Four(0, 0, 0, 5)
    case 4 => Four(0, 0, 9, 0)
    case 5 => Four(0, 1, 7, 8)
    case 6 => Four(0, 1, 8, 6)
    case _ => Four(0, 1, 6, 8)
  }

  lemma CornerSetup2(i: int)
    requires 0 <= i < 8 && i != 0
    ensures CornerTrace(CornerRun2(i), 2) == i
  {
    hide CornerTrace, TwistTrace;
    var r := CornerRun2(i);
    assert r == [r[0], r[1], r[2], r[3]];
    CornerTrace4(r[0], r[1], r[2], r[3], 2);
  }

  lemma CornerSetup2Keeps(i: int)
    requires 0 <= i < 8 && i != 0
    ensures CornerTrace(CornerRun2(i), 0) == 0
  {
    hide CornerTrace, TwistTrace;
    var r := CornerRun2(i);
    assert r == [r[0], r[1], r[2], r[3]];
    CornerTrace4(r[0], r[1], r[2], r[3], 0);
  }

  /** What brings the corner in slot `i` to slot 3 and leaves slots 0 and 2 alone. */
  function CornerRun3(i: int): (run: seq<Turn>)
    requires 0 <= i < 8 && i != 0 && i != 2
    ensures |run| == 4
  {
    match i
    case 1 => Four(0, 0, 1, 2)
    case 3 => Four(0, 0, 0, 0)
    case 4 => Four(0, 6, 2, 2)
    case 5 => Four(0, 0, 6, 2)
    case 6 => Four(0, 8, 4, 1)
    case _ => Four(0, 1, 3, 1)
  }

  lemma CornerSetup3(i: int)
    requires 0 <= i < 8 && i != 0 && i != 2
    ensures CornerTrace(CornerRun3(i), 3) == i
  {
    hide CornerTrace, TwistTrace;
    var r := CornerRun3(i);
    assert r == [r[0], r[1], r[2], r[3]];
    CornerTrace4(r[0], r[1], r[2], r[3], 3);
  }

  lemma CornerSetup3Keeps(i: int)
    requires 0 <= i < 8 && i != 0 && i != 2
    ensures CornerTrace(CornerRun3(i), 0) == 0 && CornerTrace(CornerRun3(i), 2) == 2
  {
    hide CornerTrace, TwistTrace;
    var r := CornerRun3(i);
    assert r == [r[0], r[1], r[2], r[3]];
    CornerTrace4(r[0], r[1], r[2], r[3], 0);
    CornerTrace4(r[0], r[1], r[2], r[3], 2);
  }

  /** Some run brings what stands in slots `i`, `j` and `k` to slots 0, 8 and 3. */
  lemma EdgeSetup(i: int, j: int, k: int) returns (run: seq<Turn>)
    requires 0 <= i < 12 && 0 <= j < 12 && 0 <= k < 12 && i != j && j != k && i != k
    ensures var z := CubeOf(run); z.edge[0] == i && z.edge[8] == j && z.edge[3] == k
  {
    hide CubeOf, EdgeTrace, FlipTrace, Compose;
    var r1 := EdgeRun1(i);
    EdgeSetup1(i);
    EdgeTraced(r1, 0);
    var j1 := EdgePreimage(r1, j);
    var r2 := EdgeRun2(j1);
    EdgeSetup2(j1);
    EdgeSetup2Keeps(j1);
    EdgeJoined(r1, r2, 0);
    EdgeJoined(r1, r2, 8);
    var k1 := EdgePreimage(r1 + r2, k);
    var r3 := EdgeRun3(k1);
    EdgeSetup3(k1);
    EdgeSetup3Keeps(k1);
    run := (r1 + r2) + r3;
    EdgeJoined(r1 + r2, r3, 0);
    EdgeJoined(r1 + r2, r3, 8);
    EdgeJoined(r1 + r2, r3, 3);
  }

  lemma EdgePreimage(run: seq<Turn>, p: int) returns (q: int)
    requires 0 <= p < 12
    ensures 0 <= q < 12 && CubeOf(run).edge[q] == p
  {
    hide CubeOf;
    q := CubeOf(Undo(run)).edge[p];
    RightInverse(run);
    EdgeAt(CubeOf(run), CubeOf(Undo(run)), p);
  }

  lemma EdgeJoined(a: seq<Turn>, b: seq<Turn>, q: int)
    requires 0 <= q < 12
    ensures 0 <= EdgeTrace(b, q) < 12 && CubeOf(a + b).edge[q] == CubeOf(a).edge[EdgeTrace(b, q)]
  {
    hide CubeOf, Compose;
    CubeOfConcat(a, b);
    EdgeAt(CubeOf(a), CubeOf(b), q);
    EdgeTraced(b, q);
  }

  /** Some run brings what stands in slots `i`, `j` and `k` to slots 0, 2 and 3. */
  lemma CornerSetup(i: int, j: int, k: int) returns (run: seq<Turn>)
    requires 0 <= i < 8 && 0 <= j < 8 && 0 <= k < 8 && i != j && j != k && i != k
    ensures var z := CubeOf(run); z.corner[0] == i && z.corner[2] == j && z.corner[3] == k
  {
    hide CubeOf, CornerTrace, TwistTrace, Compose;
    var r1 := CornerRun1(i);
    CornerSetup1(i);
    CornerTraced(r1, 0);
    var j1 := CornerPreimage(r1, j);
    var r2 := CornerRun2(j1);
    CornerSetup2(j1);
    CornerSetup2Keeps(j1);
    CornerJoined(r1, r2, 0);
    CornerJoined(r1, r2, 2);
    var k1 := CornerPreimage(r1 + r2, k);
    var r3 := CornerRun3(k1);
    CornerSetup3(k1);
    CornerSetup3Keeps(k1);
    run := (r1 + r2) + r3;
    CornerJoined(r1 + r2, r3, 0);
    CornerJoined(r1 + r2, r3, 2);
    CornerJoined(r1 + r2, r3, 3);
  }

  lemma CornerPreimage(run: seq<Turn>, p: int) returns (q: int)
    requires 0 <= p < 8
    ensures 0 <= q < 8 && CubeOf(run).corner[q] == p
  {
    hide CubeOf;
    q := CubeOf(Undo(run)).corner[p];
    RightInverse(run);
    CornerAt(CubeOf(run), CubeOf(Undo(run)), p);
  }

  lemma CornerJoined(a: seq<Turn>, b: seq<Turn>, q: int)
    requires 0 <= q < 8
    ensures 0 <= CornerTrace(b, q) < 8 && CubeOf(a + b).corner[q] == CubeOf(a).corner[CornerTrace(b, q)]
  {
    hide CubeOf, Compose;
    CubeOfConcat(a, b);
    CornerAt(CubeOf(a), CubeOf(b), q);
    CornerTraced(b, q);
  }

}
