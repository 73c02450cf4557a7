/** A quarter turn as a permutation of the 54 stickers, and runs of quarter turns. */
module Turns {
  import opened Geometry

  /** `rotate(cube, face, direction)`: direction 0 is clockwise, every other direction counter-clockwise. */
  datatype Turn = Turn(face: FaceId, direction: int) {
    predicate Clockwise() { direction == 0 }
  }

  /** Where `transpose_face_clockwise` fetches the new color of a square from. */
  function FaceSource(s: SquareId): SquareId {
    if s < 3 then Row3(s, SQUARE_LL, SQUARE_ML, SQUARE_UL)
    else if s < 6 then Row3(s - 3, SQUARE_LM, SQUARE_MM, SQUARE_UM)
    else Row3(s - 6, SQUARE_LR, SQUARE_MR, SQUARE_UR)
  }

  /** Where `transpose_face_counterclockwise` fetches the new color of a square from. */
  function FaceSourceBack(s: SquareId): SquareId {
    if s < 3 then Row3(s, SQUARE_UR, SQUARE_MR, SQUARE_LR)
    else if s < 6 then Row3(s - 3, SQUARE_UM, SQUARE_MM, SQUARE_LM)
    else Row3(s - 6, SQUARE_UL, SQUARE_ML, SQUARE_LL)
  }

  /** The sticker whose color arrives at `s` when turn `t` is made. */
  function Source(t: Turn, s: Sticker): Sticker {
    var f := t.face;
    if s.face == f then
      Sticker(f, if t.Clockwise() then FaceSource(s.square) else FaceSourceBack(s.square))
    else if OnRing(f, s) then
      var i := NeighbourNumber(f, s.face);
      Ring(f, if t.Clockwise() then (i + 3) % 4 else (i + 1) % 4, StripNumber(EdgeStrip(f, s.face), s.square))
    else
      s
  }

  lemma FaceSourceCycle(s: SquareId)
    ensures FaceSource(FaceSource(FaceSource(s))) == FaceSourceBack(s)
    ensures FaceSource(FaceSourceBack(s)) == s
  {}

  lemma SourceOnRing(t: Turn, i: int, j: int)
    requires 0 <= i < 4 && 0 <= j < 3
    ensures OnRing(t.face, Ring(t.face, i, j))
    ensures Source(t, Ring(t.face, i, j)) == Ring(t.face, if t.Clockwise() then (i + 3) % 4 else (i + 1) % 4, j)
  {
    RingInjective(t.face, i, j);
  }

  lemma FaceCycle(f: FaceId, d: int, x: SquareId)
    requires d != 0
    ensures var q, r, s := Turn(f, 0), Turn(f, d), Sticker(f, x);
            && Source(r, s) == Source(q, Source(q, Source(q, s)))
            && Source(q, Source(r, s)) == s == Source(r, Source(q, s))
  {
    FaceSourceCycle(x);
    FaceSourceCycle(FaceSource(x));
  }

  lemma RingCycle(f: FaceId, d: int, i: int, j: int)
    requires d != 0 && 0 <= i < 4 && 0 <= j < 3
    ensures var q, r, s := Turn(f, 0), Turn(f, d), Ring(f, i, j);
            && Source(r, s) == Source(q, Source(q, Source(q, s)))
            && Source(q, Source(r, s)) == s == Source(r, Source(q, s))
  {
    hide Source, Ring;
    var q, r := Turn(f, 0), Turn(f, d);
    SourceOnRing(r, i, j);
    SourceOnRing(r, (i + 3) % 4, j);
    SourceOnRing(q, i, j);
    SourceOnRing(q, (i + 1) % 4, j);
    SourceOnRing(q, (i + 2) % 4, j);
    SourceOnRing(q, (i + 3) % 4, j);
  }

  /** A counter-clockwise turn is three clockwise turns, and undoes one. */
  lemma SourceCycle(f: FaceId, d: int, s: Sticker)
    requires d != 0
    ensures var q, r := Turn(f, 0), Turn(f, d);
            && Source(r, s) == Source(q, Source(q, Source(q, s)))
            && Source(q, Source(r, s)) == s == Source(r, Source(q, s))
  {
    if s.face == f {
      FaceCycle(f, d, s.square);
    } else if OnRing(f, s) {
      RingCycle(f, d, NeighbourNumber(f, s.face), StripNumber(EdgeStrip(f, s.face), s.square));
    }
  }

  function Opposite(t: Turn): Turn {
    Turn(t.face, if t.direction == 0 then 1 else 0)
  }

  /** A turn and its opposite undo each other, sticker by sticker. */
  lemma SourceOpposite(t: Turn, s: Sticker)
    ensures Source(Opposite(t), Source(t, s)) == s == Source(t, Source(Opposite(t), s))
  {
    if t.direction == 0 {
      SourceCycle(t.face, 1, s);
      assert t == Turn(t.face, 0);
    } else {
      SourceCycle(t.face, t.direction, s);
      assert t == Turn(t.face, t.direction);
    }
  }

}
