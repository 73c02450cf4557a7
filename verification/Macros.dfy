/** A few short runs, and what they do: the raw material for solving any lawful cube. */
module Macros {
  import opened Turns
  import opened Cubies
  import opened Reachability
  import opened Group

  /** Where one turn, in either direction, brings the piece in a slot from, and by how much it turns it. */
  function EdgeBy(t: Turn, j: int): int {
    var f := t.face;
    if t.Clockwise() then EdgeFrom(f, j) else EdgeFrom(f, EdgeFrom(f, EdgeFrom(f, j)))
  }

  function FlipBy(t: Turn, j: int): int {
    var f := t.face;
    if t.Clockwise() then EdgeFlip(f, j)
    else EdgeFlip(f, EdgeFrom(f, EdgeFrom(f, j))) + EdgeFlip(f, EdgeFrom(f, j)) + EdgeFlip(f, j)
  }

  function CornerBy(t: Turn, i: int): int {
    var f := t.face;
    if t.Clockwise() then CornerFrom(f, i) else CornerFrom(f, CornerFrom(f, CornerFrom(f, i)))
  }

  function TwistBy(t: Turn, i: int): int {
    var f := t.face;
    if t.Clockwise() then CornerTwist(f, i)
    else CornerTwist(f, CornerFrom(f, CornerFrom(f, i))) + CornerTwist(f, CornerFrom(f, i)) + CornerTwist(f, i)
  }

  /** The same for a run, traced backwards from the slot; turns are added up. */
  function EdgeTrace(run: seq<Turn>, j: int): int {
    if run == [] then j else EdgeBy(run[0], EdgeTrace(run[1..], j))
  }

  function FlipTrace(run: seq<Turn>, j: int): int {
    if run == [] then 0 else FlipBy(run[0], EdgeTrace(run[1..], j)) + FlipTrace(run[1..], j)
  }

  function CornerTrace(run: seq<Turn>, i: int): int {
    if run == [] then i else CornerBy(run[0], CornerTrace(run[1..], i))
  }

  function TwistTrace(run: seq<Turn>, i: int): int {
    if run == [] then 0 else TwistBy(run[0], CornerTrace(run[1..], i)) + TwistTrace(run[1..], i)
  }

  lemma OneTurnCube(t: Turn)
    ensures CubeOf([t]) == Turned(SOLVED_CUBIES, t)
  {
    hide Turned;
    assert [t][..0] == [];
  }

  lemma OneTurnEdge(t: Turn, j: int)
    requires 0 <= j < 12
    ensures CubeOf([t]).edge[j] == EdgeBy(t, j) && CubeOf([t]).flip[j] == FlipBy(t, j) % 2
  {
    hide Compose, EdgeFrom, EdgeFlip, CubeOf;
    var f, q, s := t.face, Quarter(t.face), SOLVED_CUBIES;
    OneTurnCube(t);
    SolvedCompose(q);
    if !t.Clockwise() {
      EdgeAt(Compose(q, q), q, j);
      EdgeAt(q, q, q.edge[j]);
    }
  }

  lemma OneTurnCorner(t: Turn, i: int)
    requires 0 <= i < 8
    ensures CubeOf([t]).corner[i] == CornerBy(t, i) && CubeOf([t]).twist[i] == TwistBy(t, i) % 3
  {
    hide Compose, CornerFrom, CornerTwist, CubeOf;
    var f, q, s := t.face, Quarter(t.face), SOLVED_CUBIES;
    OneTurnCube(t);
    SolvedCompose(q);
    if !t.Clockwise() {
      CornerAt(Compose(q, q), q, i);
      CornerAt(q, q, q.corner[i]);
    }
  }

  /** Tracing tells where the pieces are. */
  lemma {:induction false} EdgeTraced(run: seq<Turn>, j: int)
    requires 0 <= j < 12
    ensures CubeOf(run).edge[j] == EdgeTrace(run, j) && CubeOf(run).flip[j] == FlipTrace(run, j) % 2
  {
    hide Compose, EdgeBy, FlipBy, Turned;
    if run != [] {
      var t, rest := run[0], run[1..];
      assert run == [t] + rest;
      CubeOfConcat([t], rest);
      EdgeAt(CubeOf([t]), CubeOf(rest), j);
      EdgeTraced(rest, j);
      OneTurnEdge(t, CubeOf(rest).edge[j]);
    }
  }

  lemma {:induction false} CornerTraced(run: seq<Turn>, i: int)
    requires 0 <= i < 8
    ensures CubeOf(run).corner[i] == CornerTrace(run, i) && CubeOf(run).twist[i] == TwistTrace(run, i) % 3
  {
    hide Compose, CornerBy, TwistBy, Turned;
    if run != [] {
      var t, rest := run[0], run[1..];
      assert run == [t] + rest;
      CubeOfConcat([t], rest);
      CornerAt(CubeOf([t]), CubeOf(rest), i);
      CornerTraced(rest, i);
      OneTurnCorner(t, CubeOf(rest).corner[i]);
    }
  }

  lemma EdgeTrace4(a: Turn, b: Turn, c: Turn, d: Turn, j: int)
    ensures EdgeTrace([a, b, c, d], j) == EdgeBy(a, EdgeBy(b, EdgeBy(c, EdgeBy(d, j))))
    ensures FlipTrace([a, b, c, d], j) == FlipBy(a, EdgeBy(b, EdgeBy(c, EdgeBy(d, j)))) +
                                          FlipBy(b, EdgeBy(c, EdgeBy(d, j))) + FlipBy(c, EdgeBy(d, j)) + FlipBy(d, j)
  {
    hide EdgeBy, FlipBy;
    assert [a, b, c, d][1..] == [b, c, d] && [b, c, d][1..] == [c, d] && [c, d][1..] == [d] && [d][1..] == [];
    assert EdgeTrace([], j) == j && FlipTrace([], j) == 0;
    assert EdgeTrace([d], j) == EdgeBy(d, j) && FlipTrace([d], j) == FlipBy(d, j);
    assert EdgeTrace([c, d], j) == EdgeBy(c, EdgeTrace([d], j));
    assert FlipTrace([c, d], j) == FlipBy(c, EdgeTrace([d], j)) + FlipTrace([d], j);
    assert EdgeTrace([b, c, d], j) == EdgeBy(b, EdgeTrace([c, d], j));
    assert FlipTrace([b, c, d], j) == FlipBy(b, EdgeTrace([c, d], j)) + FlipTrace([c, d], j);
  }

  lemma CornerTrace4(a: Turn, b: Turn, c: Turn, d: Turn, i: int)
    ensures CornerTrace([a, b, c, d], i) == CornerBy(a, CornerBy(b, CornerBy(c, CornerBy(d, i))))
    ensures TwistTrace([a, b, c, d], i) == TwistBy(a, CornerBy(b, CornerBy(c, CornerBy(d, i)))) +
                                           TwistBy(b, CornerBy(c, CornerBy(d, i))) + TwistBy(c, CornerBy(d, i)) +
                                           TwistBy(d, i)
  {
    hide CornerBy, TwistBy;
    assert [a, b, c, d][1..] == [b, c, d] && [b, c, d][1..] == [c, d] && [c, d][1..] == [d] && [d][1..] == [];
    assert CornerTrace([], i) == i && TwistTrace([], i) == 0;
    assert CornerTrace([d], i) == CornerBy(d, i) && TwistTrace([d], i) == TwistBy(d, i);
    assert CornerTrace([c, d], i) == CornerBy(c, CornerTrace([d], i));
    assert TwistTrace([c, d], i) == TwistBy(c, CornerTrace([d], i)) + TwistTrace([d], i);
    assert CornerTrace([b, c, d], i) == CornerBy(b, CornerTrace([c, d], i));
    assert TwistTrace([b, c, d], i) == TwistBy(b, CornerTrace([c, d], i)) + TwistTrace([c, d], i);
  }

  lemma {:induction false} TraceConcat(a: seq<Turn>, b: seq<Turn>, i: int)
    ensures EdgeTrace(a + b, i) == EdgeTrace(a, EdgeTrace(b, i))
    ensures FlipTrace(a + b, i) == FlipTrace(a, EdgeTrace(b, i)) + FlipTrace(b, i)
    ensures CornerTrace(a + b, i) == CornerTrace(a, CornerTrace(b, i))
    ensures TwistTrace(a + b, i) == TwistTrace(a, CornerTrace(b, i)) + TwistTrace(b, i)
  {
    hide EdgeBy, FlipBy, CornerBy, TwistBy;
    if a == [] {
      assert a + b == b;
    } else {
      assert (a + b)[1..] == a[1..] + b;
      TraceConcat(a[1..], b, i);
    }
  }

  lemma TwoParts(a: seq<Turn>, b: seq<Turn>, k: int)
    ensures 0 <= k < 12 ==> CubeOf(a + b).edge[k] == EdgeTrace(a, EdgeTrace(b, k))
    ensures 0 <= k < 12 ==> CubeOf(a + b).flip[k] == (FlipTrace(a, EdgeTrace(b, k)) + FlipTrace(b, k)) % 2
    ensures 0 <= k < 8 ==> CubeOf(a + b).corner[k] == CornerTrace(a, CornerTrace(b, k))
    ensures 0 <= k < 8 ==> CubeOf(a + b).twist[k] == (TwistTrace(a, CornerTrace(b, k)) + TwistTrace(b, k)) % 3
  {
    hide CubeOf, EdgeTrace, FlipTrace, CornerTrace, TwistTrace;
    TraceConcat(a, b, k);
    if 0 <= k < 12 {
      EdgeTraced(a + b, k);
    }
    if 0 <= k < 8 {
      CornerTraced(a + b, k);
    }
  }

  function Three(i: int, a: int, b: int, c: int): int {
    if i == a then b else if i == b then c else if i == c then a else i
  }

  /** Right, top, right back, top back: three edges change places. */
  const EDGE_CYCLE := [Turn(1, 0), Turn(2, 0), Turn(1, 1), Turn(2, 1)]

  lemma EdgeCycleDoes(j: int)
    requires 0 <= j < 12
    ensures CubeOf(EDGE_CYCLE).edge[j] == Three(j, 0, 8, 3)
  {
    hide CubeOf, EdgeTrace, FlipTrace;
    EdgeTraced(EDGE_CYCLE, j);
    EdgeTrace4(Turn(1, 0), Turn(2, 0), Turn(1, 1), Turn(2, 1), j);
  }

  /** Back, top back, back back, top, back back, right, back, right back: two edges are turned over. */
  const EDGE_FLIP_A := [Turn(5, 0), Turn(2, 1), Turn(5, 1), Turn(2, 0)]
  const EDGE_FLIP_B := [Turn(5, 1), Turn(1, 0), Turn(5, 0), Turn(1, 1)]
  const EDGE_FLIP := EDGE_FLIP_A + EDGE_FLIP_B

  lemma EdgeFlipHalf(j: int)
    requires 0 <= j < 12
    ensures EdgeTrace(EDGE_FLIP_B, j) == Row12(j, 11, 1, 2, 0, 4, 5, 6, 7, 8, 9, 10, 3)
    ensures FlipTrace(EDGE_FLIP_B, j) == Row12(j, 4, 0, 0, 1, 0, 0, 0, 4, 0, 0, 4, 3)
  {
    hide EdgeTrace, FlipTrace;
    EdgeTrace4(Turn(5, 1), Turn(1, 0), Turn(5, 0), Turn(1, 1), j);
  }

  lemma EdgeFlipHalfA(j: int)
    requires 0 <= j < 12
    ensures EdgeTrace(EDGE_FLIP_A, j) == Row12(j, 3, 1, 2, 11, 4, 5, 6, 7, 8, 9, 10, 0)
    ensures FlipTrace(EDGE_FLIP_A, j) == Row12(j, 4, 0, 0, 1, 0, 0, 0, 4, 0, 0, 4, 3)
  {
    hide EdgeTrace, FlipTrace;
    EdgeTrace4(Turn(5, 0), Turn(2, 1), Turn(5, 1), Turn(2, 0), j);
  }

  lemma EdgeFlipKeeps(j: int)
    requires 0 <= j < 12
    ensures CubeOf(EDGE_FLIP).edge[j] == j
  {
    hide CubeOf, EdgeTrace, FlipTrace;
    TwoParts(EDGE_FLIP_A, EDGE_FLIP_B, j);
    EdgeFlipHalf(j);
    EdgeFlipHalfA(EdgeTrace(EDGE_FLIP_B, j));
  }

  lemma EdgeFlipDoes(j: int)
    requires 0 <= j < 12
    ensures CubeOf(EDGE_FLIP).flip[j] == if j == 0 || j == 3 then 1 else 0
  {
    hide CubeOf, EdgeTrace, FlipTrace;
    TwoParts(EDGE_FLIP_A, EDGE_FLIP_B, j);
    EdgeFlipHalf(j);
    EdgeFlipHalfA(EdgeTrace(EDGE_FLIP_B, j));
  }

  /** Right, top back, left back, top, right back, top back, left, top: three corners change places. */
  const CORNER_CYCLE_A := [Turn(1, 0), Turn(2, 1), Turn(4, 1), Turn(2, 0)]
  const CORNER_CYCLE_B := [Turn(1, 1), Turn(2, 1), Turn(4, 0), Turn(2, 0)]
  const CORNER_CYCLE := CORNER_CYCLE_A + CORNER_CYCLE_B

  lemma CornerCycleDoes(i: int)
    requires 0 <= i < 8
    ensures CubeOf(CORNER_CYCLE).corner[i] == Three(i, 0, 2, 3)
  {
    hide CubeOf, CornerTrace, TwistTrace;
    TwoParts(CORNER_CYCLE_A, CORNER_CYCLE_B, i);
    CornerTrace4(Turn(1, 1), Turn(2, 1), Turn(4, 0), Turn(2, 0), i);
    CornerTrace4(Turn(1, 0), Turn(2, 1), Turn(4, 1), Turn(2, 0), CornerTrace(CORNER_CYCLE_B, i));
  }

  lemma CornerCycleHalf(j: int)
    requires 0 <= j < 12
    ensures EdgeTrace(CORNER_CYCLE_B, j) == Row12(j, 11, 1, 2, 10, 8, 5, 9, 7, 0, 3, 6, 4)
    ensures FlipTrace(CORNER_CYCLE_B, j) == 0
  {
    hide EdgeTrace, FlipTrace;
    EdgeTrace4(Turn(1, 1), Turn(2, 1), Turn(4, 0), Turn(2, 0), j);
  }

  lemma CornerCycleHalfA(j: int)
    requires 0 <= j < 12
    ensures EdgeTrace(CORNER_CYCLE_A, j) == Row12(j, 8, 1, 2, 9, 11, 5, 10, 7, 4, 6, 3, 0)
    ensures FlipTrace(CORNER_CYCLE_A, j) == 0
  {
    hide EdgeTrace, FlipTrace;
    EdgeTrace4(Turn(1, 0), Turn(2, 1), Turn(4, 1), Turn(2, 0), j);
  }

  lemma CornerCycleKeeps(j: int)
    requires 0 <= j < 12
    ensures CubeOf(CORNER_CYCLE).edge[j] == j && CubeOf(CORNER_CYCLE).flip[j] == 0
  {
    hide CubeOf, EdgeTrace, FlipTrace;
    TwoParts(CORNER_CYCLE_A, CORNER_CYCLE_B, j);
    CornerCycleHalf(j);
    CornerCycleHalfA(EdgeTrace(CORNER_CYCLE_B, j));
  }

  /** Right back, bottom back, right, bottom; and the same undone. */
  const DIP := [Turn(1, 1), Turn(3, 1), Turn(1, 0), Turn(3, 0)]
  const DIP_BACK := [Turn(3, 1), Turn(1, 1), Turn(3, 0), Turn(1, 0)]

  lemma DipCorners(i: int)
    requires 0 <= i < 8
    ensures CornerTrace(DIP, i) == Row8(i, 4, 1, 2, 3, 0, 5, 7, 6)
    ensures TwistTrace(DIP, i) == Row8(i, 5, 0, 0, 6, 5, 0, 6, 2)
  {
    hide CornerTrace, TwistTrace;
    CornerTrace4(Turn(1, 1), Turn(3, 1), Turn(1, 0), Turn(3, 0), i);
  }

  lemma DipEdges(j: int)
    requires 0 <= j < 12
    ensures EdgeTrace(DIP, j) == Row12(j, 0, 1, 2, 3, 8, 5, 6, 4, 7, 9, 10, 11)
    ensures FlipTrace(DIP, j) == 0
  {
    hide EdgeTrace, FlipTrace;
    EdgeTrace4(Turn(1, 1), Turn(3, 1), Turn(1, 0), Turn(3, 0), j);
  }

  lemma DipBackCorners(i: int)
    requires 0 <= i < 8
    ensures CornerTrace(DIP_BACK, i) == Row8(i, 4, 1, 2, 3, 0, 5, 7, 6)
    ensures TwistTrace(DIP_BACK, i) == Row8(i, 1, 0, 0, 6, 7, 0, 4, 6)
  {
    hide CornerTrace, TwistTrace;
    CornerTrace4(Turn(3, 1), Turn(1, 1), Turn(3, 0), Turn(1, 0), i);
  }

  lemma DipBackEdges(j: int)
    requires 0 <= j < 12
    ensures EdgeTrace(DIP_BACK, j) == Row12(j, 0, 1, 2, 3, 7, 5, 6, 8, 4, 9, 10, 11)
    ensures FlipTrace(DIP_BACK, j) == 0
  {
    hide EdgeTrace, FlipTrace;
    EdgeTrace4(Turn(3, 1), Turn(1, 1), Turn(3, 0), Turn(1, 0), j);
  }

  lemma TwoDipsCorners(i: int)
    requires 0 <= i < 8
    ensures CornerTrace(DIP + DIP, i) == i
    ensures TwistTrace(DIP + DIP, i) == Row8(i, 10, 0, 0, 12, 10, 0, 8, 8)
  {
    hide CornerTrace, TwistTrace;
    TraceConcat(DIP, DIP, i);
    DipCorners(i);
    DipCorners(CornerTrace(DIP, i));
  }

  lemma TwoDipsEdges(j: int)
    requires 0 <= j < 12
    ensures EdgeTrace(DIP + DIP, j) == Row12(j, 0, 1, 2, 3, 7, 5, 6, 8, 4, 9, 10, 11)
    ensures FlipTrace(DIP + DIP, j) == 0
  {
    hide EdgeTrace, FlipTrace;
    TraceConcat(DIP, DIP, j);
    DipEdges(j);
    DipEdges(EdgeTrace(DIP, j));
  }

  lemma TwoDipsBackCorners(i: int)
    requires 0 <= i < 8
    ensures CornerTrace(DIP_BACK + DIP_BACK, i) == i
    ensures TwistTrace(DIP_BACK + DIP_BACK, i) == Row8(i, 8, 0, 0, 12, 8, 0, 10, 10)
  {
    hide CornerTrace, TwistTrace;
    TraceConcat(DIP_BACK, DIP_BACK, i);
    DipBackCorners(i);
    DipBackCorners(CornerTrace(DIP_BACK, i));
  }

  lemma TwoDipsBackEdges(j: int)
    requires 0 <= j < 12
    ensures EdgeTrace(DIP_BACK + DIP_BACK, j) == Row12(j, 0, 1, 2, 3, 8, 5, 6, 4, 7, 9, 10, 11)
    ensures FlipTrace(DIP_BACK + DIP_BACK, j) == 0
  {
    hide EdgeTrace, FlipTrace;
    TraceConcat(DIP_BACK, DIP_BACK, j);
    DipBackEdges(j);
    DipBackEdges(EdgeTrace(DIP_BACK, j));
  }

  /** Twice the dip, a turn of the top, twice the dip undone, the top back: two corners are twisted in place. */
  const CORNER_TWIST_A := (DIP + DIP) + [Turn(2, 0)]
  const CORNER_TWIST_B := (DIP_BACK + DIP_BACK) + [Turn(2, 1)]
  const CORNER_TWIST := CORNER_TWIST_A + CORNER_TWIST_B

  lemma OneTrace(t: Turn, k: int)
    ensures EdgeTrace([t], k) == EdgeBy(t, k) && FlipTrace([t], k) == FlipBy(t, k)
    ensures CornerTrace([t], k) == CornerBy(t, k) && TwistTrace([t], k) == TwistBy(t, k)
  {
    hide EdgeBy, FlipBy, CornerBy, TwistBy;
    assert [t][1..] == [];
  }

  lemma TwistPartA(i: int)
    requires 0 <= i < 8
    ensures CornerTrace(CORNER_TWIST_A, i) == Row8(i, 3, 0, 1, 2, 4, 5, 6, 7)
    ensures TwistTrace(CORNER_TWIST_A, i) == Row8(i, 12, 10, 0, 0, 10, 0, 8, 8)
  {
    hide CornerTrace, TwistTrace;
    TraceConcat(DIP + DIP, [Turn(2, 0)], i);
    OneTrace(Turn(2, 0), i);
    TwoDipsCorners(CornerBy(Turn(2, 0), i));
  }

  lemma TwistPartB(i: int)
    requires 0 <= i < 8
    ensures CornerTrace(CORNER_TWIST_B, i) == Row8(i, 1, 2, 3, 0, 4, 5, 6, 7)
    ensures TwistTrace(CORNER_TWIST_B, i) == Row8(i, 0, 0, 12, 8, 8, 0, 10, 10)
  {
    hide CornerTrace, TwistTrace;
    TraceConcat(DIP_BACK + DIP_BACK, [Turn(2, 1)], i);
    OneTrace(Turn(2, 1), i);
    TwoDipsBackCorners(CornerBy(Turn(2, 1), i));
  }

  lemma TwistEdgesA(j: int)
    requires 0 <= j < 12
    ensures EdgeTrace(CORNER_TWIST_A, j) == Row12(j, 3, 0, 1, 2, 7, 5, 6, 8, 4, 9, 10, 11)
    ensures FlipTrace(CORNER_TWIST_A, j) == 0
  {
    hide EdgeTrace, FlipTrace;
    TraceConcat(DIP + DIP, [Turn(2, 0)], j);
    OneTrace(Turn(2, 0), j);
    TwoDipsEdges(EdgeBy(Turn(2, 0), j));
  }

  lemma TwistEdgesB(j: int)
    requires 0 <= j < 12
    ensures EdgeTrace(CORNER_TWIST_B, j) == Row12(j, 1, 2, 3, 0, 8, 5, 6, 4, 7, 9, 10, 11)
    ensures FlipTrace(CORNER_TWIST_B, j) == 0
  {
    hide EdgeTrace, FlipTrace;
    TraceConcat(DIP_BACK + DIP_BACK, [Turn(2, 1)], j);
    OneTrace(Turn(2, 1), j);
    TwoDipsBackEdges(EdgeBy(Turn(2, 1), j));
  }

  lemma CornerTwistDoes(i: int)
    requires 0 <= i < 8
    ensures CubeOf(CORNER_TWIST).corner[i] == i
    ensures CubeOf(CORNER_TWIST).twist[i] == if i == 0 then 1 else if i == 3 then 2 else 0
  {
    hide CubeOf, CornerTrace, TwistTrace, EdgeTrace, FlipTrace;
    TwoParts(CORNER_TWIST_A, CORNER_TWIST_B, i);
    TwistPartB(i);
    TwistPartA(CornerTrace(CORNER_TWIST_B, i));
  }

  lemma CornerTwistKeeps(j: int)
    requires 0 <= j < 12
    ensures CubeOf(CORNER_TWIST).edge[j] == j && CubeOf(CORNER_TWIST).flip[j] == 0
  {
    hide CubeOf, CornerTrace, TwistTrace, EdgeTrace, FlipTrace;
    TwoParts(CORNER_TWIST_A, CORNER_TWIST_B, j);
    TwistEdgesB(j);
    TwistEdgesA(EdgeTrace(CORNER_TWIST_B, j));
  }

}
