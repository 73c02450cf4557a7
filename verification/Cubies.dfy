/** The cube as twenty movable pieces: which piece stands in which slot, and how it is turned there. */
module Cubies {
  import opened Geometry
  import opened Permutations
  import opened Turns

  function Row8(i: int, a: int, b: int, c: int, d: int, e: int, f: int, g: int, h: int): int {
    if i < 4 then Row4(i, a, b, c, d) else Row4(i - 4, e, f, g, h)
  }

  function Row12(i: int, a: int, b: int, c: int, d: int, e: int, f: int, g: int, h: int, j: int, k: int, l: int,
                 m: int): int {
    if i < 8 then Row8(i, a, b, c, d, e, f, g, h) else Row4(i - 8, j, k, l, m)
  }

  /** A place on the cube that holds one sticker: place `k` of a corner (clockwise, from the top or bottom face),
      place `k` of an edge, or a centre. */
  datatype Slot = Corner(i: int, k: int) | Edge(j: int, l: int) | Centre(f: int) {
    predicate Valid() {
      match this
      case Corner(i, k) => 0 <= i < 8 && 0 <= k < 3
      case Edge(j, l) => 0 <= j < 12 && 0 <= l < 2
      case Centre(f) => 0 <= f < 6
    }
  }

  function CornerFace(i: int, k: int): int {
    if k == 0 then (if i < 4 then 2 else 3)
    else if k == 1 then Row8(i, 1, 0, 4, 5, 0, 4, 5, 1)
    else Row8(i, 0, 4, 5, 1, 1, 0, 4, 5)
  }

  function CornerSquare(i: int, k: int): int {
    if k == 0 then Row8(i, 6, 0, 2, 8, 0, 6, 8, 2)
    else if k == 1 then (if i < 4 then 0 else 8)
    else (if i < 4 then 2 else 6)
  }

  function EdgeFace(j: int, l: int): int {
    if l == 0 then Row12(j, 2, 2, 2, 2, 3, 3, 3, 3, 0, 0, 5, 5) else Row12(j, 1, 0, 4, 5, 1, 0, 4, 5, 1, 4, 4, 1)
  }

  function EdgeSquareOf(j: int, l: int): int {
    if l == 0 then Row12(j, 7, 3, 1, 5, 1, 3, 7, 5, 5, 3, 5, 3) else Row12(j, 1, 1, 1, 1, 7, 7, 7, 7, 3, 5, 3, 5)
  }

  function StickerIn(slot: Slot): Sticker
    requires slot.Valid()
  {
    match slot
    case Corner(i, k) => Sticker(CornerFace(i, k), CornerSquare(i, k))
    case Edge(j, l) => Sticker(EdgeFace(j, l), EdgeSquareOf(j, l))
    case Centre(f) => Sticker(f, SQUARE_MM)
  }

  function Row9(s: int, a: Slot, b: Slot, c: Slot, d: Slot, e: Slot, f: Slot, g: Slot, h: Slot, i: Slot): Slot {
    if s == 0 then a else if s == 1 then b else if s == 2 then c else if s == 3 then d else if s == 4 then e
    else if s == 5 then f else if s == 6 then g else if s == 7 then h else i
  }

  /** The slot a sticker position belongs to. */
  function SlotOf(s: Sticker): Slot {
    match s.face
    case 0 => Row9(s.square, Corner(1, 1), Edge(1, 1), Corner(0, 2), Edge(9, 0), Centre(0), Edge(8, 0),
                   Corner(5, 2), Edge(5, 1), Corner(4, 1))
    case 1 => Row9(s.square, Corner(0, 1), Edge(0, 1), Corner(3, 2), Edge(8, 1), Centre(1), Edge(11, 1),
                   Corner(4, 2), Edge(4, 1), Corner(7, 1))
    case 2 => Row9(s.square, Corner(1, 0), Edge(2, 0), Corner(2, 0), Edge(1, 0), Centre(2), Edge(3, 0),
                   Corner(0, 0), Edge(0, 0), Corner(3, 0))
    case 3 => Row9(s.square, Corner(4, 0), Edge(4, 0), Corner(7, 0), Edge(5, 0), Centre(3), Edge(7, 0),
                   Corner(5, 0), Edge(6, 0), Corner(6, 0))
    case 4 => Row9(s.square, Corner(2, 1), Edge(2, 1), Corner(1, 2), Edge(10, 1), Centre(4), Edge(9, 1),
                   Corner(6, 2), Edge(6, 1), Corner(5, 1))
    case _ => Row9(s.square, Corner(3, 1), Edge(3, 1), Corner(2, 2), Edge(11, 0), Centre(5), Edge(10, 0),
                   Corner(7, 2), Edge(7, 1), Corner(6, 1))
  }

  lemma StickerInSlot(s: Sticker)
    ensures SlotOf(s).Valid() && StickerIn(SlotOf(s)) == s
  {}

  lemma SlotOfSticker(slot: Slot)
    requires slot.Valid()
    ensures SlotOf(StickerIn(slot)) == slot
  {}

  /** Where a clockwise turn of face `f` brings the piece in corner slot `i` from. */
  function CornerFrom(f: FaceId, i: int): int {
    if f == 0 then Row8(i, 1, 5, 2, 3, 0, 4, 6, 7)
    else if f == 1 then Row8(i, 4, 1, 2, 0, 7, 5, 6, 3)
    else if f == 2 then Row8(i, 3, 0, 1, 2, 4, 5, 6, 7)
    else if f == 3 then Row8(i, 0, 1, 2, 3, 5, 6, 7, 4)
    else if f == 4 then Row8(i, 0, 2, 6, 3, 4, 1, 5, 7)
    else Row8(i, 0, 1, 3, 7, 4, 5, 2, 6)
  }

  function CornerTwist(f: FaceId, i: int): int {
    if f == 0 then Row8(i, 2, 1, 0, 0, 1, 2, 0, 0)
    else if f == 1 then Row8(i, 1, 0, 0, 2, 2, 0, 0, 1)
    else if f == 4 then Row8(i, 0, 2, 1, 0, 0, 1, 2, 0)
    else if f == 5 then Row8(i, 0, 0, 2, 1, 0, 0, 1, 2)
    else 0
  }

  function EdgeFrom(f: FaceId, j: int): int {
    if f == 0 then Row12(j, 0, 9, 2, 3, 4, 8, 6, 7, 1, 5, 10, 11)
    else if f == 1 then Row12(j, 8, 1, 2, 3, 11, 5, 6, 7, 4, 9, 10, 0)
    else if f == 2 then Row12(j, 3, 0, 1, 2, 4, 5, 6, 7, 8, 9, 10, 11)
    else if f == 3 then Row12(j, 0, 1, 2, 3, 5, 6, 7, 4, 8, 9, 10, 11)
    else if f == 4 then Row12(j, 0, 1, 10, 3, 4, 5, 9, 7, 8, 2, 6, 11)
    else Row12(j, 0, 1, 2, 11, 4, 5, 6, 10, 8, 9, 3, 7)
  }

  function EdgeFlip(f: FaceId, j: int): int {
    if f == 0 then Row12(j, 0, 1, 0, 0, 0, 1, 0, 0, 1, 1, 0, 0)
    else if f == 5 then Row12(j, 0, 0, 0, 1, 0, 0, 0, 1, 0, 0, 1, 1)
    else 0
  }

  /** The same in terms of slots: where the sticker in a slot comes from. */
  function SlotSource(f: FaceId, slot: Slot): Slot {
    match slot
    case Corner(i, k) => Corner(CornerFrom(f, i), (k + CornerTwist(f, i)) % 3)
    case Edge(j, l) => Edge(EdgeFrom(f, j), (l + EdgeFlip(f, j)) % 2)
    case Centre(_) => slot
  }

  predicate MovesWhole(f: FaceId, slot: Slot)
  {
    slot.Valid() && SlotSource(f, slot).Valid() &&
    Source(Turn(f, 0), StickerIn(slot)) == StickerIn(SlotSource(f, slot))
  }

  lemma CornersMoveWhole0(i: int, k: int)
    requires 0 <= i < 8 && 0 <= k < 3
    ensures MovesWhole(0, Corner(i, k))
  {}

  lemma CornersMoveWhole1(i: int, k: int)
    requires 0 <= i < 8 && 0 <= k < 3
    ensures MovesWhole(1, Corner(i, k))
  {}

  lemma CornersMoveWhole2(i: int, k: int)
    requires 0 <= i < 8 && 0 <= k < 3
    ensures MovesWhole(2, Corner(i, k))
  {}

  lemma CornersMoveWhole3(i: int, k: int)
    requires 0 <= i < 8 && 0 <= k < 3
    ensures MovesWhole(3, Corner(i, k))
  {}

  lemma CornersMoveWhole4(i: int, k: int)
    requires 0 <= i < 8 && 0 <= k < 3
    ensures MovesWhole(4, Corner(i, k))
  {}

  lemma CornersMoveWhole5(i: int, k: int)
    requires 0 <= i < 8 && 0 <= k < 3
    ensures MovesWhole(5, Corner(i, k))
  {}

  lemma EdgesMoveWhole0(j: int, l: int)
    requires 0 <= j < 12 && 0 <= l < 2
    ensures MovesWhole(0, Edge(j, l))
  {}

  lemma EdgesMoveWhole1(j: int, l: int)
    requires 0 <= j < 12 && 0 <= l < 2
    ensures MovesWhole(1, Edge(j, l))
  {}

  lemma EdgesMoveWhole2(j: int, l: int)
    requires 0 <= j < 12 && 0 <= l < 2
    ensures MovesWhole(2, Edge(j, l))
  {}

  lemma EdgesMoveWhole3(j: int, l: int)
    requires 0 <= j < 12 && 0 <= l < 2
    ensures MovesWhole(3, Edge(j, l))
  {}

  lemma EdgesMoveWhole4(j: int, l: int)
    requires 0 <= j < 12 && 0 <= l < 2
    ensures MovesWhole(4, Edge(j, l))
  {}

  lemma EdgesMoveWhole5(j: int, l: int)
    requires 0 <= j < 12 && 0 <= l < 2
    ensures MovesWhole(5, Edge(j, l))
  {}

  lemma CentreMoves(f: FaceId, c: int)
    requires 0 <= c < 6
    ensures MovesWhole(f, Centre(c))
  {}

  /** No turn ever tears a piece apart: the stickers of a slot arrive together, from one slot, in the same
      rotational order. */
  lemma PiecesMoveWhole(f: FaceId, slot: Slot)
    requires slot.Valid()
    ensures MovesWhole(f, slot)
  {
    hide Source, SlotSource;
    match slot
    case Corner(i, k) =>
      if f == 0 { CornersMoveWhole0(i, k); } else if f == 1 { CornersMoveWhole1(i, k); }
      else if f == 2 { CornersMoveWhole2(i, k); } else if f == 3 { CornersMoveWhole3(i, k); }
      else if f == 4 { CornersMoveWhole4(i, k); } else { CornersMoveWhole5(i, k); }
    case Edge(j, l) =>
      if f == 0 { EdgesMoveWhole0(j, l); } else if f == 1 { EdgesMoveWhole1(j, l); }
      else if f == 2 { EdgesMoveWhole2(j, l); } else if f == 3 { EdgesMoveWhole3(j, l); }
      else if f == 4 { EdgesMoveWhole4(j, l); } else { EdgesMoveWhole5(j, l); }
    case Centre(c) =>
      CentreMoves(f, c);
  }

  /** `corner[i]` is the piece in corner slot `i` and `twist[i]` how far it is turned; likewise for edges. */
  datatype Cubies = Cubies(corner: seq<int>, twist: seq<int>, edge: seq<int>, flip: seq<int>) {
    predicate WellFormed() {
      && |corner| == |twist| == 8 && IsPermutation(corner) && Below(twist, 3)
      && |edge| == |flip| == 12 && IsPermutation(edge) && Below(flip, 2)
    }
  }

  function Zeros(n: nat): (z: seq<int>)
    ensures |z| == n && forall i | 0 <= i < n :: z[i] == 0
  {
    seq(n, i => 0)
  }

  const SOLVED_CUBIES := Cubies(Identity(8), Zeros(8), Identity(12), Zeros(12))

  /** Rearrange cube `x` the way `y` rearranges the solved cube. */
  function Compose(x: Cubies, y: Cubies): (r: Cubies)
    requires x.WellFormed() && y.WellFormed()
    ensures r.WellFormed()
  {
    Cubies(Apply(x.corner, y.corner),
           seq(8, i requires 0 <= i < 8 => (x.twist[y.corner[i]] + y.twist[i]) % 3),
           Apply(x.edge, y.edge),
           seq(12, j requires 0 <= j < 12 => (x.flip[y.edge[j]] + y.flip[j]) % 2))
  }

  function CornersFrom(f: FaceId): (r: seq<int>)
    ensures |r| == 8 && IsPermutation(r) && forall i | 0 <= i < 8 :: r[i] == CornerFrom(f, i)
  {
    seq(8, i => CornerFrom(f, i))
  }

  function EdgesFrom(f: FaceId): (r: seq<int>)
    ensures |r| == 12 && IsPermutation(r) && forall j | 0 <= j < 12 :: r[j] == EdgeFrom(f, j)
  {
    seq(12, j => EdgeFrom(f, j))
  }

  /** What a clockwise turn of face `f` does to the pieces of the solved cube. */
  function Quarter(f: FaceId): (r: Cubies)
    ensures r.WellFormed()
  {
    Cubies(CornersFrom(f), seq(8, i => CornerTwist(f, i)), EdgesFrom(f), seq(12, j => EdgeFlip(f, j)))
  }

}
