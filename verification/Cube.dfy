/** The cube as the program keeps it on the heap: faces that own their colors and their own copy of the adjacency
    tables, and the operations that rewrite them in place. */
module CubeObjects {
  import opened Geometry
  import opened Turns
  import opened Runs
  import opened Reachability
  import opened Shuffling

  class AdjacentFace {
    var face: int
    const edgeSquares: array<int>

    constructor (faceNum: int, squares: seq<int>)
      requires |squares| == 3
      ensures face == faceNum && edgeSquares[..] == squares && fresh(edgeSquares)
    {
      face := faceNum;
      var a := new int[3];
      for ind := 0 to N_SQUARES_PER_SIDE
        invariant forall j | 0 <= j < ind :: a[j] == squares[j]
      {
        a[ind] := squares[ind];
      }
      assert a[..] == squares;
      edgeSquares := a;
    }
  }

  class Face {
    const colors: array<int>
    const adjacentFaces: array<AdjacentFace?>
    ghost const Repr: set<object>

    /** A face owns its colors and four different adjacent-face records. */
    ghost predicate Valid()
      reads this, Repr
      ensures Valid() ==> this in Repr
    {
      && this in Repr && colors in Repr && adjacentFaces in Repr
      && colors.Length == 9 && adjacentFaces.Length == 4
      && (forall i | 0 <= i < 4 ::
            var a := adjacentFaces[i];
            && a != null && a in Repr && a.edgeSquares in Repr && a.edgeSquares.Length == 3 && a.edgeSquares != colors)
      && (forall i, j | 0 <= i < j < 4 ::
            adjacentFaces[i] != adjacentFaces[j] && adjacentFaces[i].edgeSquares != adjacentFaces[j].edgeSquares)
    }

    ghost predicate HasTables(f: FaceId)
      reads this, Repr
      requires Valid()
    {
      forall i | 0 <= i < 4 ::
        && adjacentFaces[i].face == Neighbour(f, i)
        && forall j | 0 <= j < 3 :: adjacentFaces[i].edgeSquares[j] == EdgeSquare(f, Neighbour(f, i), j)
    }

    constructor (faceNum: FaceId)
      ensures Valid() && fresh(Repr)
      ensures HasTables(faceNum)
      ensures forall s | 0 <= s < 9 :: colors[s] == faceNum
    {
      var c := new int[9];
      for ind := 0 to N_SQUARES_PER_FACE
        invariant forall s | 0 <= s < ind :: c[s] == faceNum
      {
        c[ind] := faceNum;
      }
      var a := new AdjacentFace?[4];
      var owned := InitializeAdjacentFaces(a, faceNum);
      colors := c;
      adjacentFaces := a;
      Repr := {this, c, a} + owned;
    }

    static method InitializeAdjacentFaces(a: array<AdjacentFace?>, faceNum: FaceId) returns (ghost owned: set<object>)
      requires a.Length == 4
      modifies a
      ensures fresh(owned)
      ensures forall i | 0 <= i < 4 ::
                && a[i] != null && a[i] in owned && a[i].edgeSquares in owned && a[i].edgeSquares.Length == 3
                && a[i].face == Neighbour(faceNum, i)
                && forall j | 0 <= j < 3 :: a[i].edgeSquares[j] == EdgeSquare(faceNum, Neighbour(faceNum, i), j)
      ensures forall i, j | 0 <= i < j < 4 :: a[i] != a[j] && a[i].edgeSquares != a[j].edgeSquares
    {
      owned := {};
      for ind := 0 to N_EDGES_PER_SIDE
        invariant fresh(owned)
        invariant forall i | 0 <= i < ind ::
                && a[i] != null && a[i] in owned && a[i].edgeSquares in owned && a[i].edgeSquares.Length == 3
                && a[i].face == Neighbour(faceNum, i)
                && forall j | 0 <= j < 3 :: a[i].edgeSquares[j] == EdgeSquare(faceNum, Neighbour(faceNum, i), j)
        invariant forall i, j | 0 <= i < j < ind :: a[i] != a[j] && a[i].edgeSquares != a[j].edgeSquares
      {
        var g := Neighbour(faceNum, ind);
        var squares := [EdgeSquare(faceNum, g, 0), EdgeSquare(faceNum, g, 1), EdgeSquare(faceNum, g, 2)];
        var r := new AdjacentFace(g, squares);
        assert forall j | 0 <= j < 3 :: r.edgeSquares[j] == r.edgeSquares[..][j] == squares[j];
        a[ind] := r;
        owned := owned + {r, r.edgeSquares};
      }
    }

    /** `copy_adjacent_face` for one of the four records: the contents move, the record stays. */
    method CopyAdjacentFace(original: Face, n: int)
      requires Valid() && original.Valid() && Repr !! original.Repr && 0 <= n < 4
      modifies adjacentFaces[n], adjacentFaces[n].edgeSquares
      ensures Valid()
      ensures adjacentFaces[n].face == original.adjacentFaces[n].face
      ensures forall j | 0 <= j < 3 :: adjacentFaces[n].edgeSquares[j] == original.adjacentFaces[n].edgeSquares[j]
    {
      var to, from := adjacentFaces[n], original.adjacentFaces[n];
      to.face := from.face;
      for ind := 0 to N_SQUARES_PER_SIDE
        invariant Valid() && to.face == from.face
        invariant forall j | 0 <= j < ind :: to.edgeSquares[j] == from.edgeSquares[j]
      {
        to.edgeSquares[ind] := from.edgeSquares[ind];
      }
    }

    ghost predicate SameRecord(other: Face, n: int)
      reads this, Repr, other, other.Repr
      requires Valid() && other.Valid() && 0 <= n < 4
    {
      && adjacentFaces[n].face == other.adjacentFaces[n].face
      && forall j | 0 <= j < 3 :: adjacentFaces[n].edgeSquares[j] == other.adjacentFaces[n].edgeSquares[j]
    }

    method TransposeClockwise(original: Face)
      requires Valid() && original.Valid() && Repr !! original.Repr
      modifies colors
      ensures forall s: SquareId :: colors[s] == original.colors[FaceSource(s)]
    {
      colors[SQUARE_UL] := original.colors[SQUARE_LL];
      colors[SQUARE_UM] := original.colors[SQUARE_ML];
      colors[SQUARE_UR] := original.colors[SQUARE_UL];
      colors[SQUARE_ML] := original.colors[SQUARE_LM];
      colors[SQUARE_MM] := original.colors[SQUARE_MM];
      colors[SQUARE_MR] := original.colors[SQUARE_UM];
      colors[SQUARE_LL] := original.colors[SQUARE_LR];
      colors[SQUARE_LM] := original.colors[SQUARE_MR];
      colors[SQUARE_LR] := original.colors[SQUARE_UR];
    }

    method TransposeCounterclockwise(original: Face)
      requires Valid() && original.Valid() && Repr !! original.Repr
      modifies colors
      ensures forall s: SquareId :: colors[s] == original.colors[FaceSourceBack(s)]
    {
      colors[SQUARE_UL] := original.colors[SQUARE_UR];
      colors[SQUARE_UM] := original.colors[SQUARE_MR];
      colors[SQUARE_UR] := original.colors[SQUARE_LR];
      colors[SQUARE_ML] := original.colors[SQUARE_UM];
      colors[SQUARE_MM] := original.colors[SQUARE_MM];
      colors[SQUARE_MR] := original.colors[SQUARE_LM];
      colors[SQUARE_LL] := original.colors[SQUARE_UL];
      colors[SQUARE_LM] := original.colors[SQUARE_ML];
      colors[SQUARE_LR] := original.colors[SQUARE_LL];
    }

    lemma TablesCopied(other: Face, f: FaceId)
      requires Valid() && other.Valid() && other.HasTables(f)
      requires forall n | 0 <= n < 4 :: SameRecord(other, n)
      ensures HasTables(f)
    {
      forall i | 0 <= i < 4
        ensures adjacentFaces[i].face == Neighbour(f, i)
        ensures forall j | 0 <= j < 3 :: adjacentFaces[i].edgeSquares[j] == EdgeSquare(f, Neighbour(f, i), j)
      {
        assert SameRecord(other, i);
      }
    }

    /** `copy_face`: colors and adjacency records are copied, no object changes its identity. */
    method CopyFrom(original: Face)
      requires Valid() && original.Valid() && Repr !! original.Repr
      modifies Repr
      ensures Valid()
      ensures adjacentFaces[..] == old(adjacentFaces[..])
      ensures forall s | 0 <= s < 9 :: colors[s] == original.colors[s]
      ensures forall n | 0 <= n < 4 :: SameRecord(original, n)
    {
      for squareNum := 0 to N_SQUARES_PER_FACE
        invariant Valid() && adjacentFaces[..] == old(adjacentFaces[..])
        invariant forall s | 0 <= s < squareNum :: colors[s] == original.colors[s]
      {
        colors[squareNum] := original.colors[squareNum];
      }
      for n := 0 to N_EDGES_PER_SIDE
        invariant Valid() && adjacentFaces[..] == old(adjacentFaces[..])
        invariant forall s | 0 <= s < 9 :: colors[s] == original.colors[s]
        invariant forall m | 0 <= m < n :: SameRecord(original, m)
      {
        label before:
        CopyAdjacentFace(original, n);
        forall m | 0 <= m < n ensures SameRecord(original, m) {
          assert old@before(SameRecord(original, m));
          assert original.adjacentFaces[m] in original.Repr && original.adjacentFaces[m].edgeSquares in original.Repr;
          assert adjacentFaces[m] != adjacentFaces[n] && adjacentFaces[m].edgeSquares != adjacentFaces[n].edgeSquares;
        }
      }
    }
  }

  class Cube {
    const faces: array<Face?>
    ghost var Repr: set<object>

    /** Six separate faces, each with the tables of its own number. */
    ghost predicate Valid()
      reads this, Repr
      ensures Valid() ==> this in Repr
    {
      && this in Repr && faces in Repr && faces.Length == 6
      && (forall f | 0 <= f < 6 ::
            var x := faces[f];
            && x != null && x in Repr && x.Repr <= Repr && this !in x.Repr && faces !in x.Repr
            && x.Valid() && x.HasTables(f))
      && (forall f, g | 0 <= f < g < 6 :: faces[f].Repr !! faces[g].Repr)
    }

    ghost function ColorAt(s: Sticker): int
      reads this, Repr
      requires Valid()
    {
      faces[s.face].colors[s.square]
    }

    /** The coloring the cube shows, face after face. */
    ghost function Colors(): Coloring
      reads this, Repr
      requires Valid()
    {
      seq(54, p requires 0 <= p < 54 reads this, Repr requires Valid() => ColorAt(StickerAt(p)))
    }

    lemma ColorsAt(s: Sticker)
      requires Valid()
      ensures Colors()[s.Index()] == ColorAt(s)
    {
      assert StickerAt(s.Index()) == s;
    }

    constructor ()
      ensures Valid() && fresh(Repr)
      ensures Colors() == Solved()
    {
      var a := new Face?[6];
      ghost var owned: set<object> := {};
      for faceNum := 0 to N_FACES
        invariant a !in owned && fresh(owned)
        invariant forall f | 0 <= f < faceNum ::
            var x := a[f];
            && x != null && x in owned && x.Repr <= owned && x.Valid() && x.HasTables(f)
            && forall s | 0 <= s < 9 :: x.colors[s] == f
        invariant forall f, g | 0 <= f < g < faceNum :: a[f].Repr !! a[g].Repr
      {
        var x := new Face(faceNum);
        a[faceNum] := x;
        owned := owned + x.Repr;
      }
      faces := a;
      Repr := {this, a} + owned;
      new;
      AllSquares();
    }

    /** `copy_cube`: afterwards this cube shows what `original` shows. */
    method CopyFrom(original: Cube)
      requires Valid() && original.Valid() && Repr !! original.Repr
      modifies Repr - {this, faces}
      ensures Valid() && Repr == old(Repr)
      ensures forall s: Sticker :: ColorAt(s) == original.ColorAt(s)
    {
      for faceNum := 0 to N_FACES
        invariant Valid()
        invariant forall s: Sticker :: s.face < faceNum ==> ColorAt(s) == original.ColorAt(s)
      {
        label before:
        faces[faceNum].CopyFrom(original.faces[faceNum]);
        faces[faceNum].TablesCopied(original.faces[faceNum], faceNum);
        forall f | 0 <= f < 6 && f != faceNum
          ensures faces[f].Valid() && faces[f].HasTables(f)
          ensures forall s | 0 <= s < 9 :: faces[f].colors[s] == old@before(faces[f].colors[s])
        {
          assert faces[f].Repr !! faces[faceNum].Repr;
        }
        assert Valid();
      }
    }

    /** One assignment to a square: no other square and no table changes. */
    method SetColor(s: Sticker, color: int)
      requires Valid()
      modifies faces[s.face].colors
      ensures Valid()
      ensures forall r: Sticker :: ColorAt(r) == if r == s then color else old(ColorAt(r))
    {
      faces[s.face].colors[s.square] := color;
      forall f | 0 <= f < 6 && f != s.face
        ensures faces[f].Valid() && faces[f].HasTables(f)
        ensures forall q | 0 <= q < 9 :: faces[f].colors[q] == old(faces[f].colors[q])
      {
        assert faces[f].Repr !! faces[s.face].Repr;
      }
    }

    /** The sticker that adjacency record `i` of face `f`, entry `j`, points at. */
    method RecordedSticker(f: FaceId, i: int, j: int) returns (s: Sticker)
      requires Valid() && 0 <= i < 4 && 0 <= j < 3
      ensures s == Ring(f, i, j)
    {
      var a := faces[f].adjacentFaces[i];
      TablesInRange(f, i, j);
      s := Sticker(a.face, a.edgeSquares[j]);
    }

    method TransposeOtherFacesClockwise(original: Cube, faceNum: FaceId)
      requires Valid() && original.Valid() && Repr !! original.Repr
      modifies Repr - {this, faces}
      ensures Valid() && Repr == old(Repr)
      ensures forall s: Sticker :: ColorAt(s) ==
                if OnRing(faceNum, s) then original.ColorAt(Source(Turn(faceNum, 0), s)) else old(ColorAt(s))
    {
      hide Source, Ring, Moved, OnRing;
      ghost var t := Turn(faceNum, 0);
      MovedBounds(t);
      for ind := 0 to N_EDGES_PER_SIDE
        invariant Valid() && Repr == old(Repr)
        invariant forall s: Sticker :: ColorAt(s) ==
                    if Moved(t, s, ind, 0) then original.ColorAt(Source(t, s)) else old(ColorAt(s))
      {
        var next := if ind < N_EDGES_PER_SIDE - 1 then ind + 1 else 0;
        for jind := 0 to N_SQUARES_PER_SIDE
          invariant Valid() && Repr == old(Repr)
          invariant forall s: Sticker :: ColorAt(s) ==
                      if Moved(t, s, ind, jind) then original.ColorAt(Source(t, s)) else old(ColorAt(s))
        {
          var from := original.RecordedSticker(faceNum, ind, jind);
          var to := original.RecordedSticker(faceNum, next, jind);
          var oldColor := original.faces[from.face].colors[from.square];
          MovedStep(t, ind, jind);
          SetColor(to, oldColor);
        }
        MovedNext(t, ind);
      }
    }

    method TransposeOtherFacesCounterclockwise(original: Cube, faceNum: FaceId, ghost d: int)
      requires Valid() && original.Valid() && Repr !! original.Repr && d != 0
      modifies Repr - {this, faces}
      ensures Valid() && Repr == old(Repr)
      ensures forall s: Sticker :: ColorAt(s) ==
                if OnRing(faceNum, s) then original.ColorAt(Source(Turn(faceNum, d), s)) else old(ColorAt(s))
    {
      hide Source, Ring, Moved, OnRing;
      ghost var t := Turn(faceNum, d);
      MovedBounds(t);
      for ind := 0 to N_EDGES_PER_SIDE
        invariant Valid() && Repr == old(Repr)
        invariant forall s: Sticker :: ColorAt(s) ==
                    if Moved(t, s, ind, 0) then original.ColorAt(Source(t, s)) else old(ColorAt(s))
      {
        var next := if ind < 1 then N_EDGES_PER_SIDE - 1 else ind - 1;
        for jind := 0 to N_SQUARES_PER_SIDE
          invariant Valid() && Repr == old(Repr)
          invariant forall s: Sticker :: ColorAt(s) ==
                      if Moved(t, s, ind, jind) then original.ColorAt(Source(t, s)) else old(ColorAt(s))
        {
          var from := original.RecordedSticker(faceNum, ind, jind);
          var to := original.RecordedSticker(faceNum, next, jind);
          var oldColor := original.faces[from.face].colors[from.square];
          MovedStep(t, ind, jind);
          SetColor(to, oldColor);
        }
        MovedNext(t, ind);
      }
    }

    /** The face-turning half of `rotate`, on the copy. */
    method TransposeFace(original: Cube, t: Turn)
      requires Valid() && original.Valid() && Repr !! original.Repr
      modifies Repr - {this, faces}
      ensures Valid() && Repr == old(Repr)
      ensures forall s: Sticker :: ColorAt(s) ==
                if s.face == t.face then original.ColorAt(Source(t, s)) else old(ColorAt(s))
    {
      hide FaceSource, FaceSourceBack;
      assert original.faces[t.face].Repr <= original.Repr;
      assert faces[t.face].Repr <= Repr;
      if t.direction == 0 {
        faces[t.face].TransposeClockwise(original.faces[t.face]);
      } else {
        faces[t.face].TransposeCounterclockwise(original.faces[t.face]);
      }
      forall f | 0 <= f < 6 && f != t.face
        ensures faces[f].Valid() && faces[f].HasTables(f)
        ensures forall q | 0 <= q < 9 :: faces[f].colors[q] == old(faces[f].colors[q])
      {
        assert faces[f].Repr !! faces[t.face].Repr;
      }
    }

    /** `rotate`: the whole cube becomes what one quarter turn makes of it; no face object is replaced. */
    method Rotate(faceNum: FaceId, direction: int)
      requires Valid()
      modifies Repr - {this, faces}
      ensures Valid() && Repr == old(Repr)
      ensures Colors() == After(old(Colors()), Turn(faceNum, direction))
    {
      hide Source, OnRing, After, Colors, ColorAt, Valid;
      ghost var t := Turn(faceNum, direction);
      var cubeCopy := new Cube();
      cubeCopy.CopyFrom(this);
      cubeCopy.TransposeFace(this, Turn(faceNum, direction));
      if direction == 0 {
        cubeCopy.TransposeOtherFacesClockwise(this, faceNum);
      } else {
        cubeCopy.TransposeOtherFacesCounterclockwise(this, faceNum, direction);
      }
      TurnComplete(cubeCopy, t);
      CopyFrom(cubeCopy);
      SameColors(cubeCopy);
    }

    /** `is_solved`: scans until a square differs from its face. */
    method IsSolved() returns (solved: bool)
      requires Valid()
      ensures solved <==> Colors() == Solved()
    {
      for ind := 0 to N_FACES
        invariant forall s: Sticker :: s.face < ind ==> ColorAt(s) == s.face
      {
        for jind := 0 to N_SQUARES_PER_FACE
          invariant forall s: Sticker :: s.face < ind || (s.face == ind && s.square < jind) ==> ColorAt(s) == s.face
        {
          if faces[ind].colors[jind] != ind {
            ColorsAt(Sticker(ind, jind));
            return false;
          }
        }
      }
      AllSquares();
      return true;
    }

    lemma AllSquares()
      requires Valid() && forall s: Sticker :: ColorAt(s) == s.face
      ensures Colors() == Solved()
    {}

    /** `shuffle`, given what the random generator returns. */
    method Shuffle(minDepth: int, maxDepth: int, depthDraw: nat, draws: seq<TurnDraw>)
      requires Valid() && minDepth <= maxDepth && Depth(depthDraw, minDepth, maxDepth) <= |draws|
      modifies Repr - {this, faces}
      ensures Valid() && Repr == old(Repr)
      ensures Colors() == AfterRun(old(Colors()), DrawnRun(draws, Depth(depthDraw, minDepth, maxDepth)))
      ensures exists run: seq<Turn> ::
                ShuffleMakes(run, minDepth, maxDepth, depthDraw, draws) && Colors() == AfterRun(old(Colors()), run)
    {
      hide After, ShuffleMakes;
      DrawnRunFits(depthDraw, draws, minDepth, maxDepth);
      var depth := depthDraw % (maxDepth - minDepth + 1) + minDepth;
      ghost var run := DrawnRun(draws, depth);
      var i := 0;
      while i < depth
        invariant 0 <= i && (i <= depth || depth < 0 == i)
        invariant Valid() && Repr == old(Repr)
        invariant i <= |run| && Colors() == AfterRun(old(Colors()), run[..i])
      {
        Rotate(draws[i].face % N_FACES, draws[i].direction % 2);
        assert run[..i + 1][..i] == run[..i];
        i := i + 1;
      }
      assert run[..i] == run;
    }

    /** Every face is thrown away and made anew. */
    method Reset()
      requires Valid()
      modifies this, faces
      ensures Valid() && fresh(Repr - old(Repr))
      ensures Colors() == Solved()
    {
      for i := 0 to N_FACES
        invariant Valid() && fresh(Repr - old(Repr))
        invariant forall s: Sticker :: s.face < i ==> ColorAt(s) == s.face
      {
        var x := new Face(i);
        faces[i] := x;
        Repr := Repr + x.Repr;
      }
      AllSquares();
    }

    lemma TurnComplete(turned: Cube, t: Turn)
      requires Valid() && turned.Valid()
      requires forall s: Sticker :: turned.ColorAt(s) ==
                 if s.face == t.face || OnRing(t.face, s) then ColorAt(Source(t, s)) else ColorAt(s)
      ensures turned.Colors() == After(Colors(), t)
    {
      hide Source, OnRing;
      forall p | 0 <= p < 54 ensures turned.Colors()[p] == After(Colors(), t)[p] {
        OffTheTurn(t, StickerAt(p));
        AfterAt(Colors(), t, StickerAt(p));
      }
    }

    lemma SameColors(other: Cube)
      requires Valid() && other.Valid()
      requires forall s: Sticker :: ColorAt(s) == other.ColorAt(s)
      ensures Colors() == other.Colors()
    {}
  }

  /** Which ring stickers the nested loops have written once record `ind` has reached entry `jind`. */
  ghost predicate Moved(t: Turn, s: Sticker, ind: int, jind: int) {
    OnRing(t.face, s) &&
    var i := Next(!t.Clockwise(), NeighbourNumber(t.face, s.face));
    i < ind || (i == ind && StripNumber(EdgeStrip(t.face, s.face), s.square) < jind)
  }

  /** The record a ring of four records continues with. */
  function Next(clockwise: bool, i: int): int {
    if clockwise then (i + 1) % 4 else (i + 3) % 4
  }

  lemma MovedBounds(t: Turn)
    ensures forall s: Sticker :: !Moved(t, s, 0, 0) && (Moved(t, s, 4, 0) <==> OnRing(t.face, s))
  {}

  lemma MovedNext(t: Turn, ind: int)
    ensures forall s: Sticker :: Moved(t, s, ind, 3) <==> Moved(t, s, ind + 1, 0)
  {
    hide NeighbourNumber, StripNumber;
  }

  lemma MovedStep(t: Turn, ind: int, jind: int)
    requires 0 <= ind < 4 && 0 <= jind < 3
    ensures var to := Ring(t.face, Next(t.Clockwise(), ind), jind);
            && Source(t, to) == Ring(t.face, ind, jind)
            && !Moved(t, to, ind, jind)
            && forall s: Sticker :: Moved(t, s, ind, jind + 1) <==> Moved(t, s, ind, jind) || s == to
  {
    hide Source, NeighbourNumber, StripNumber, Ring;
    var f, next := t.face, Next(t.Clockwise(), ind);
    var to := Ring(f, next, jind);
    RingInjective(f, next, jind);
    SourceOnRing(t, next, jind);
    forall s: Sticker ensures Moved(t, s, ind, jind + 1) <==> Moved(t, s, ind, jind) || s == to {
      if OnRing(f, s) {
        RingByNumber(f, s);
      }
    }
  }

  lemma RingByNumber(f: FaceId, s: Sticker)
    requires OnRing(f, s)
    ensures s == Ring(f, NeighbourNumber(f, s.face), StripNumber(EdgeStrip(f, s.face), s.square))
  {}

  /** A sticker of the turning face is not on the ring; one that is neither stays where it is. */
  lemma OffTheTurn(t: Turn, s: Sticker)
    ensures OnRing(t.face, s) ==> s.face != t.face
    ensures s.face != t.face && !OnRing(t.face, s) ==> Source(t, s) == s
  {}

}
