/** The geometry that `make_face` writes down by hand: for each face its four neighbours, clockwise, and the
    three squares of each neighbour that touch it.  Everything else about a turn follows from these tables. */
module Geometry {

  const N_FACES := 6
  const N_SQUARES_PER_SIDE := 3
  const N_EDGES_PER_SIDE := 4
  const N_SQUARES_PER_FACE := 9

  const FACE_FRONT := 0
  const FACE_RIGHT := 1
  const FACE_TOP := 2
  const FACE_BOTTOM := 3
  const FACE_LEFT := 4
  const FACE_BACK := 5

  const SQUARE_UL := 0
  const SQUARE_UM := 1
  const SQUARE_UR := 2
  const SQUARE_ML := 3
  const SQUARE_MM := 4
  const SQUARE_MR := 5
  const SQUARE_LL := 6
  const SQUARE_LM := 7
  const SQUARE_LR := 8
  const SQUARE_UNDEFINED := -1

  type FaceId = f: int | 0 <= f < 6
  type SquareId = s: int | 0 <= s < 9

  /** One of the 54 colored squares of a cube. */
  datatype Sticker = Sticker(face: FaceId, square: SquareId) {
    /** The place of the sticker when the six faces are laid out one after the other. */
    function Index(): (p: int)
      ensures 0 <= p < 54 && p / 9 == face && p % 9 == square
    {
      9 * face + square
    }
  }

  function StickerAt(p: int): (s: Sticker)
    requires 0 <= p < 54
    ensures s.Index() == p
  {
    Sticker(p / 9, p % 9)
  }

  function Row3(j: int, a: int, b: int, c: int): int {
    if j == 0 then a else if j == 1 then b else c
  }

  function Row4(i: int, a: int, b: int, c: int, d: int): int {
    if i == 0 then a else if i == 1 then b else if i == 2 then c else d
  }

  /** Neighbour number `i` of face `f`, going clockwise along the perimeter of `f`. */
  function Neighbour(f: FaceId, i: int): FaceId
    requires 0 <= i < 4
  {
    if f == FACE_FRONT then Row4(i, FACE_TOP, FACE_RIGHT, FACE_BOTTOM, FACE_LEFT)
    else if f == FACE_RIGHT then Row4(i, FACE_FRONT, FACE_TOP, FACE_BACK, FACE_BOTTOM)
    else if f == FACE_TOP then Row4(i, FACE_FRONT, FACE_LEFT, FACE_BACK, FACE_RIGHT)
    else if f == FACE_BOTTOM then Row4(i, FACE_FRONT, FACE_RIGHT, FACE_BACK, FACE_LEFT)
    else if f == FACE_LEFT then Row4(i, FACE_FRONT, FACE_BOTTOM, FACE_BACK, FACE_TOP)
    else Row4(i, FACE_RIGHT, FACE_TOP, FACE_LEFT, FACE_BOTTOM)
  }

  /** The strips of squares along the four sides of a face, in the reading directions the tables use. */
  datatype Strip = Upper | Lower | Left | Right | Undefined

  function StripSquare(strip: Strip, j: int): int {
    match strip
    case Upper => Row3(j, SQUARE_UR, SQUARE_UM, SQUARE_UL)
    case Lower => Row3(j, SQUARE_LL, SQUARE_LM, SQUARE_LR)
    case Left => Row3(j, SQUARE_UL, SQUARE_ML, SQUARE_LL)
    case Right => Row3(j, SQUARE_LR, SQUARE_MR, SQUARE_UR)
    case Undefined => SQUARE_UNDEFINED
  }

  /** Row `g` of the edge-square table of face `f`. */
  function EdgeStrip(f: FaceId, g: FaceId): Strip {
    if f == FACE_FRONT then
      if g == FACE_LEFT then Right else if g == FACE_FRONT || g == FACE_BACK then Undefined else Left
    else if f == FACE_RIGHT then
      if g == FACE_FRONT then Right else if g == FACE_TOP then Lower else if g == FACE_BOTTOM then Upper
      else if g == FACE_BACK then Left else Undefined
    else if f == FACE_TOP then
      if g == FACE_TOP || g == FACE_BOTTOM then Undefined else Upper
    else if f == FACE_BOTTOM then
      if g == FACE_TOP || g == FACE_BOTTOM then Undefined else Lower
    else if f == FACE_LEFT then
      if g == FACE_FRONT then Left else if g == FACE_TOP then Upper else if g == FACE_BOTTOM then Lower
      else if g == FACE_BACK then Right else Undefined
    else
      if g == FACE_LEFT then Left else if g == FACE_FRONT || g == FACE_BACK then Undefined else Right
  }

  /** The `j`-th square that face `g` contributes to the ring of twelve squares around face `f`. */
  function EdgeSquare(f: FaceId, g: FaceId, j: int): int {
    StripSquare(EdgeStrip(f, g), j)
  }

  lemma TablesInRange(f: FaceId, i: int, j: int)
    requires 0 <= i < 4 && 0 <= j < 3
    ensures Neighbour(f, i) != f
    ensures 0 <= EdgeSquare(f, Neighbour(f, i), j) < 9
  {}

  /** Square `j` of neighbour `i` of face `f`: one of the twelve stickers of the ring around `f`. */
  function Ring(f: FaceId, i: int, j: int): (s: Sticker)
    requires 0 <= i < 4 && 0 <= j < 3
    ensures s.face != f
  {
    TablesInRange(f, i, j);
    Sticker(Neighbour(f, i), EdgeSquare(f, Neighbour(f, i), j))
  }

  /** Which neighbour of `f` the face `g` is; 4 when it is none. */
  function NeighbourNumber(f: FaceId, g: FaceId): (i: int)
    ensures 0 <= i <= 4
    ensures i < 4 ==> Neighbour(f, i) == g
  {
    if Neighbour(f, 0) == g then 0 else if Neighbour(f, 1) == g then 1
    else if Neighbour(f, 2) == g then 2 else if Neighbour(f, 3) == g then 3 else 4
  }

  /** Where in a strip a square occurs; 3 when it does not. */
  function StripNumber(strip: Strip, square: int): (j: int)
    ensures 0 <= j <= 3
    ensures j < 3 ==> StripSquare(strip, j) == square
  {
    if StripSquare(strip, 0) == square then 0 else if StripSquare(strip, 1) == square then 1
    else if StripSquare(strip, 2) == square then 2 else 3
  }

  predicate OnRing(f: FaceId, s: Sticker) {
    NeighbourNumber(f, s.face) < 4 && StripNumber(EdgeStrip(f, s.face), s.square) < 3
  }

  /** The twelve stickers of a ring are distinct, and the tables can be read backwards. */
  lemma RingInjective(f: FaceId, i: int, j: int)
    requires 0 <= i < 4 && 0 <= j < 3
    ensures var s := Ring(f, i, j);
            NeighbourNumber(f, s.face) == i && StripNumber(EdgeStrip(f, s.face), s.square) == j
  {}

}
