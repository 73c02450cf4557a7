/** Runs of turns seen on pieces: the sticker permutation of a run is the one its pieces carry, every cube a run
    reaches obeys the laws, and six colors are enough to tell any two of them apart. */
module Reachability {
  import opened Geometry
  import opened Permutations
  import opened Parity
  import opened Turns
  import opened Runs
  import opened OppositeFaces
  import opened Cubies
  import opened CubeLaws

  /** Which sticker of the solved cube stands in a slot of cube `x`. */
  function Occupant(x: Cubies, slot: Slot): (r: Slot)
    requires x.WellFormed() && slot.Valid()
    ensures r.Valid()
  {
    match slot
    case Corner(i, k) => Corner(x.corner[i], (k + x.twist[i]) % 3)
    case Edge(j, l) => Edge(x.edge[j], (l + x.flip[j]) % 2)
    case Centre(_) => slot
  }

  function OriginOf(x: Cubies, s: Sticker): Sticker
    requires x.WellFormed()
  {
    StickerInSlot(s);
    StickerIn(Occupant(x, SlotOf(s)))
  }

  /** The sticker permutation that the pieces of `x` carry. */
  function Labels(x: Cubies): Coloring
    requires x.WellFormed()
  {
    seq(54, p requires 0 <= p < 54 => OriginOf(x, StickerAt(p)).Index())
  }

  lemma LabelAt(x: Cubies, s: Sticker)
    requires x.WellFormed()
    ensures Labels(x)[s.Index()] == OriginOf(x, s).Index()
  {
    assert StickerAt(s.Index()) == s;
  }

  lemma ModAdd(a: int, b: int, k: int, n: int)
    requires n == 2 || n == 3
    ensures (k + (a + b) % n) % n == ((k + b) % n + a) % n
  {}

  lemma CornerAfter(x: Cubies, f: FaceId, i: int, k: int)
    requires x.WellFormed() && 0 <= i < 8 && 0 <= k < 3
    ensures SlotSource(f, Corner(i, k)).Valid()
    ensures Occupant(Compose(x, Quarter(f)), Corner(i, k)) == Occupant(x, SlotSource(f, Corner(i, k)))
  {
    hide CornerFrom, CornerTwist, StickerIn, Source, Compose, Quarter;
    PiecesMoveWhole(f, Corner(i, k));
    QuarterCornerAt(x, f, i);
    ModAdd(x.twist[CornerFrom(f, i)], CornerTwist(f, i), k, 3);
  }

  lemma EdgeAfter(x: Cubies, f: FaceId, j: int, l: int)
    requires x.WellFormed() && 0 <= j < 12 && 0 <= l < 2
    ensures SlotSource(f, Edge(j, l)).Valid()
    ensures Occupant(Compose(x, Quarter(f)), Edge(j, l)) == Occupant(x, SlotSource(f, Edge(j, l)))
  {
    hide EdgeFrom, EdgeFlip, StickerIn, Source, Compose, Quarter;
    PiecesMoveWhole(f, Edge(j, l));
    QuarterEdgeAt(x, f, j);
    ModAdd(x.flip[EdgeFrom(f, j)], EdgeFlip(f, j), l, 2);
  }

  lemma OccupantAfter(x: Cubies, f: FaceId, slot: Slot)
    requires x.WellFormed() && slot.Valid()
    ensures SlotSource(f, slot).Valid()
    ensures Occupant(Compose(x, Quarter(f)), slot) == Occupant(x, SlotSource(f, slot))
  {
    match slot
    case Corner(i, k) => CornerAfter(x, f, i, k);
    case Edge(j, l) => EdgeAfter(x, f, j, l);
    case Centre(_) =>
  }

  lemma OriginAfter(x: Cubies, f: FaceId, s: Sticker)
    requires x.WellFormed()
    ensures OriginOf(Compose(x, Quarter(f)), s) == OriginOf(x, Source(Turn(f, 0), s))
  {
    hide SlotOf, StickerIn, Source, SlotSource, Compose, Occupant;
    var slot := SlotOf(s);
    StickerInSlot(s);
    PiecesMoveWhole(f, slot);
    OccupantAfter(x, f, slot);
    SlotOfSticker(SlotSource(f, slot));
  }

  /** A clockwise turn on pieces is the clockwise turn on stickers. */
  lemma QuarterRefines(x: Cubies, f: FaceId)
    requires x.WellFormed()
    ensures Labels(Compose(x, Quarter(f))) == After(Labels(x), Turn(f, 0))
  {
    hide Source, Compose, OriginOf, Quarter;
    var y := Compose(x, Quarter(f));
    forall p | 0 <= p < 54 ensures Labels(y)[p] == After(Labels(x), Turn(f, 0))[p] {
      var s := StickerAt(p);
      LabelAt(y, s);
      OriginAfter(x, f, s);
      LabelAt(x, Source(Turn(f, 0), s));
      AfterAt(Labels(x), Turn(f, 0), s);
    }
  }

  /** One turn of a cube given by its pieces; counter-clockwise is three times clockwise. */
  function Turned(x: Cubies, t: Turn): (r: Cubies)
    requires x.WellFormed()
    ensures r.WellFormed()
  {
    var q := Quarter(t.face);
    if t.Clockwise() then Compose(x, q) else Compose(Compose(Compose(x, q), q), q)
  }

  /** The pieces of the cube that a run makes out of the solved one. */
  function CubeOf(run: seq<Turn>): (r: Cubies)
    ensures r.WellFormed()
  {
    if run == [] then SOLVED_CUBIES else Turned(CubeOf(run[..|run| - 1]), run[|run| - 1])
  }

  lemma TurnedRefines(x: Cubies, t: Turn)
    requires x.WellFormed()
    ensures Labels(Turned(x, t)) == After(Labels(x), t)
  {
    hide Compose, Labels, After, Quarter;
    var q := Quarter(t.face);
    QuarterRefines(x, t.face);
    if t.Clockwise() {
      assert t == Turn(t.face, 0);
    } else {
      var y := Compose(x, q);
      QuarterRefines(y, t.face);
      QuarterRefines(Compose(y, q), t.face);
      CounterIsThree(Labels(x), t);
      ThreeSpins(Labels(x), t.face);
    }
  }

  lemma ThreeSpins(c: Coloring, f: FaceId)
    ensures Spin(c, f, 3) == After(After(After(c, Turn(f, 0)), Turn(f, 0)), Turn(f, 0))
  {
    hide After;
    assert Spin(c, f, 0) == c;
    assert Spin(c, f, 1) == After(c, Turn(f, 0));
    assert Spin(c, f, 2) == After(Spin(c, f, 1), Turn(f, 0));
  }

  lemma SolvedLabels()
    ensures Labels(SOLVED_CUBIES) == Identity(54)
  {
    hide Labels, OriginOf;
    forall p | 0 <= p < 54 ensures Labels(SOLVED_CUBIES)[p] == p {
      var s := StickerAt(p);
      LabelAt(SOLVED_CUBIES, s);
      SolvedOrigin(s);
    }
  }

  lemma SolvedOrigin(s: Sticker)
    ensures OriginOf(SOLVED_CUBIES, s) == s
  {
    hide SlotOf, StickerIn;
    StickerInSlot(s);
    assert Occupant(SOLVED_CUBIES, SlotOf(s)) == SlotOf(s);
  }

  /** Every run, as a permutation of 54 stickers, moves twenty whole pieces: the piece view and the sticker view
      of the program never part. */
  lemma {:induction false} PiecesStayWhole(run: seq<Turn>)
    ensures RunTable(run) == Labels(CubeOf(run))
  {
    hide Labels, Turned, After;
    if run == [] {
      SolvedLabels();
    } else {
      var init, t := run[..|run| - 1], run[|run| - 1];
      PiecesStayWhole(init);
      TurnedRefines(CubeOf(init), t);
    }
  }

  lemma QuarterLawful(x: Cubies, f: FaceId)
    requires Lawful(x)
    ensures var y := Compose(x, Quarter(f)); Lawful(y) && Odd(y.corner) != Odd(x.corner)
  {
    hide Compose, Quarter, Odd, Sum;
    QuarterCornerSign(x, f);
    QuarterEdgeSign(x, f);
    QuarterTwist(x, f);
    QuarterFlip(x, f);
  }

  /** The cube laws hold after every run, and the sign of either permutation counts the turns modulo two. */
  lemma {:induction false} CubeLaw(run: seq<Turn>)
    ensures Lawful(CubeOf(run))
    ensures Odd(CubeOf(run).corner) <==> |run| % 2 == 1
  {
    hide Lawful, Compose, Quarter, Odd;
    if run == [] {
      SolvedLawful();
    } else {
      var x, f := CubeOf(run[..|run| - 1]), run[|run| - 1].face;
      CubeLaw(run[..|run| - 1]);
      QuarterLawful(x, f);
      if !run[|run| - 1].Clockwise() {
        QuarterLawful(Compose(x, Quarter(f)), f);
        QuarterLawful(Compose(Compose(x, Quarter(f)), Quarter(f)), f);
      }
    }
  }

  lemma {:induction false} SumZeros(n: nat)
    ensures Sum(Zeros(n)) == 0
  {
    if n > 0 {
      assert Zeros(n)[..n - 1] == Zeros(n - 1);
      SumZeros(n - 1);
    }
  }

  lemma SolvedLawful()
    ensures Lawful(SOLVED_CUBIES) && !Odd(SOLVED_CUBIES.corner)
  {
    hide Sum, Inversions;
    SumZeros(8);
    SumZeros(12);
    IdentityEven(8, 0);
    IdentityEven(12, 0);
    assert Identity(8)[0..] == Identity(8) && Identity(12)[0..] == Identity(12);
  }

  /** The coloring `make_cube` starts from: every square shows the number of its face. */
  function Solved(): (c: Coloring)
    ensures forall p | 0 <= p < 54 :: c[p] == p / 9
  {
    seq(54, p => p / 9)
  }

  /** The coloring that the pieces of `x` show. */
  function Painted(x: Cubies): Coloring
    requires x.WellFormed()
  {
    seq(54, p requires 0 <= p < 54 => OriginOf(x, StickerAt(p)).face)
  }

  lemma PaintedAt(x: Cubies, s: Sticker)
    requires x.WellFormed()
    ensures Painted(x)[s.Index()] == OriginOf(x, s).face
  {
    assert StickerAt(s.Index()) == s;
  }

  predicate SameCornerColor(c: int, o: int, c': int, o': int, k: int) {
    CornerFace(c, (k + o) % 3) == CornerFace(c', (k + o') % 3)
  }

  predicate SameEdgeColor(e: int, o: int, e': int, o': int, l: int) {
    EdgeFace(e, (l + o) % 2) == EdgeFace(e', (l + o') % 2)
  }

  lemma CornerByColors(c: int, o: int, c': int, o': int)
    requires 0 <= c < 8 && 0 <= c' < 8 && 0 <= o < 3 && 0 <= o' < 3
    requires forall k | 0 <= k < 3 :: SameCornerColor(c, o, c', o', k)
    ensures c == c' && o == o'
  {
    assert SameCornerColor(c, o, c', o', 0) && SameCornerColor(c, o, c', o', 1) && SameCornerColor(c, o, c', o', 2);
  }

  lemma EdgeByColors(e: int, o: int, e': int, o': int)
    requires 0 <= e < 12 && 0 <= e' < 12 && 0 <= o < 2 && 0 <= o' < 2
    requires forall l | 0 <= l < 2 :: SameEdgeColor(e, o, e', o', l)
    ensures e == e' && o == o'
  {
    assert SameEdgeColor(e, o, e', o', 0) && SameEdgeColor(e, o, e', o', 1);
  }

  lemma SlotColor(x: Cubies, y: Cubies, slot: Slot)
    requires x.WellFormed() && y.WellFormed() && Painted(x) == Painted(y) && slot.Valid()
    ensures StickerIn(Occupant(x, slot)).face == StickerIn(Occupant(y, slot)).face
  {
    hide Painted, Occupant, SlotOf, StickerIn;
    var s := StickerIn(slot);
    SlotOfSticker(slot);
    PaintedAt(x, s);
    PaintedAt(y, s);
  }

  /** Six colors tell any two cubes apart: the pieces and how they are turned can be read off the faces. */
  lemma ColorsDetermine(x: Cubies, y: Cubies)
    requires x.WellFormed() && y.WellFormed() && Painted(x) == Painted(y)
    ensures x == y
  {
    hide CornerFace, EdgeFace, Painted;
    forall i | 0 <= i < 8 ensures x.corner[i] == y.corner[i] && x.twist[i] == y.twist[i] {
      forall k | 0 <= k < 3 ensures SameCornerColor(x.corner[i], x.twist[i], y.corner[i], y.twist[i], k) {
        SlotColor(x, y, Corner(i, k));
      }
      CornerByColors(x.corner[i], x.twist[i], y.corner[i], y.twist[i]);
    }
    forall j | 0 <= j < 12 ensures x.edge[j] == y.edge[j] && x.flip[j] == y.flip[j] {
      forall l | 0 <= l < 2 ensures SameEdgeColor(x.edge[j], x.flip[j], y.edge[j], y.flip[j], l) {
        SlotColor(x, y, Edge(j, l));
      }
      EdgeByColors(x.edge[j], x.flip[j], y.edge[j], y.flip[j]);
    }
  }

  /** What a run makes of the solved cube is the coloring its pieces show. */
  lemma SolvedAfterRun(run: seq<Turn>)
    ensures AfterRun(Solved(), run) == Painted(CubeOf(run))
  {
    hide CubeOf, AfterRun, OriginOf;
    RunActs(Solved(), run);
    PiecesStayWhole(run);
    var x := CubeOf(run);
    forall p | 0 <= p < 54 ensures AfterRun(Solved(), run)[p] == Painted(x)[p] {
      LabelAt(x, StickerAt(p));
    }
  }

  /** Two runs that show the same colors have moved every single sticker the same way. */
  lemma SameColorsSamePermutation(a: seq<Turn>, b: seq<Turn>)
    ensures AfterRun(Solved(), a) == AfterRun(Solved(), b) <==> RunTable(a) == RunTable(b)
  {
    hide CubeOf, AfterRun, Painted;
    RunActs(Solved(), a);
    RunActs(Solved(), b);
    SolvedAfterRun(a);
    SolvedAfterRun(b);
    PiecesStayWhole(a);
    PiecesStayWhole(b);
    if AfterRun(Solved(), a) == AfterRun(Solved(), b) {
      ColorsDetermine(CubeOf(a), CubeOf(b));
    }
  }

  /** A run from the solved cube shows a solved cube exactly when it has put every sticker back. */
  lemma SolvedIsExact(run: seq<Turn>)
    ensures AfterRun(Solved(), run) == Solved() <==> RunTable(run) == Identity(54)
  {
    SameColorsSamePermutation(run, []);
  }

  /** An odd number of quarter turns never leads from the solved cube back to it. */
  lemma OddRunsNeverSolved(run: seq<Turn>)
    requires |run| % 2 == 1
    ensures AfterRun(Solved(), run) != Solved()
  {
    hide CubeOf, Painted, Labels, Lawful;
    CubeLaw(run);
    CubeLaw([]);
    if AfterRun(Solved(), run) == Solved() {
      SolvedAfterRun(run);
      SolvedAfterRun([]);
      ColorsDetermine(CubeOf(run), CubeOf([]));
    }
  }

}
