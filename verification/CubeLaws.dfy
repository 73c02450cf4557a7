/** The laws of the cube: what no run of turns can change. */
module CubeLaws {
  import opened Geometry
  import opened Parity
  import opened Cubies

  function Sum(s: seq<int>): int {
    if s == [] then 0 else Sum(s[..|s| - 1]) + s[|s| - 1]
  }

  /** Every piece is there once, total twist and total flip vanish, and the two permutations agree in sign. */
  predicate Lawful(x: Cubies) {
    && x.WellFormed()
    && Sum(x.twist) % 3 == 0
    && Sum(x.flip) % 2 == 0
    && Odd(x.corner) == Odd(x.edge)
  }

  lemma {:induction false} SumUpdate(s: seq<int>, i: int, v: int)
    requires 0 <= i < |s|
    ensures Sum(s[i := v]) == Sum(s) - s[i] + v
  {
    var m := |s| - 1;
    if i == m {
      assert s[i := v][..m] == s[..m];
    } else {
      assert s[i := v][..m] == s[..m][i := v];
      SumUpdate(s[..m], i, v);
    }
  }

  /** `s` with the values at four places replaced. */
  function Replace4(s: seq<int>, a: int, b: int, c: int, d: int, va: int, vb: int, vc: int, vd: int): (r: seq<int>)
    requires 0 <= a < |s| && 0 <= b < |s| && 0 <= c < |s| && 0 <= d < |s|
    ensures |r| == |s|
  {
    s[a := va][b := vb][c := vc][d := vd]
  }

  predicate Different(a: int, b: int, c: int, d: int) {
    a != b && a != c && a != d && b != c && b != d && c != d
  }

  lemma SumReplace4(s: seq<int>, a: int, b: int, c: int, d: int, va: int, vb: int, vc: int, vd: int)
    requires 0 <= a < |s| && 0 <= b < |s| && 0 <= c < |s| && 0 <= d < |s| && Different(a, b, c, d)
    ensures Sum(Replace4(s, a, b, c, d, va, vb, vc, vd)) == Sum(s) - s[a] - s[b] - s[c] - s[d] + va + vb + vc + vd
  {
    SumUpdate(s, a, va);
    SumUpdate(s[a := va], b, vb);
    SumUpdate(s[a := va][b := vb], c, vc);
    SumUpdate(s[a := va][b := vb][c := vc], d, vd);
  }

  /** The four corner slots of face `f`, each followed by the slot its next piece comes from. */
  function CornerOn(f: FaceId, n: int): int {
    if f == 0 then Row4(n, 0, 1, 5, 4)
    else if f == 1 then Row4(n, 0, 4, 7, 3)
    else if f == 2 then Row4(n, 0, 3, 2, 1)
    else if f == 3 then Row4(n, 4, 5, 6, 7)
    else if f == 4 then Row4(n, 1, 2, 6, 5)
    else Row4(n, 2, 3, 7, 6)
  }

  function EdgeOn(f: FaceId, n: int): int {
    if f == 0 then Row4(n, 1, 9, 5, 8)
    else if f == 1 then Row4(n, 0, 8, 4, 11)
    else if f == 2 then Row4(n, 0, 3, 2, 1)
    else if f == 3 then Row4(n, 4, 5, 6, 7)
    else if f == 4 then Row4(n, 2, 10, 6, 9)
    else Row4(n, 3, 11, 7, 10)
  }

  lemma CornersCycle(f: FaceId)
    ensures var a, b, c, d := CornerOn(f, 0), CornerOn(f, 1), CornerOn(f, 2), CornerOn(f, 3);
            && 0 <= a < 8 && 0 <= b < 8 && 0 <= c < 8 && 0 <= d < 8 && Different(a, b, c, d)
            && CornerFrom(f, a) == b && CornerFrom(f, b) == c && CornerFrom(f, c) == d && CornerFrom(f, d) == a
            && (CornerTwist(f, a) + CornerTwist(f, b) + CornerTwist(f, c) + CornerTwist(f, d)) % 3 == 0
            && forall i | 0 <= i < 8 && i != a && i != b && i != c && i != d ::
                 CornerFrom(f, i) == i && CornerTwist(f, i) == 0
  {}

  lemma EdgesCycle(f: FaceId)
    ensures var a, b, c, d := EdgeOn(f, 0), EdgeOn(f, 1), EdgeOn(f, 2), EdgeOn(f, 3);
            && 0 <= a < 12 && 0 <= b < 12 && 0 <= c < 12 && 0 <= d < 12 && Different(a, b, c, d)
            && EdgeFrom(f, a) == b && EdgeFrom(f, b) == c && EdgeFrom(f, c) == d && EdgeFrom(f, d) == a
            && (EdgeFlip(f, a) + EdgeFlip(f, b) + EdgeFlip(f, c) + EdgeFlip(f, d)) % 2 == 0
            && forall i | 0 <= i < 12 && i != a && i != b && i != c && i != d ::
                 EdgeFrom(f, i) == i && EdgeFlip(f, i) == 0
  {}

  lemma QuarterCornerSign(x: Cubies, f: FaceId)
    requires x.WellFormed()
    ensures Odd(Compose(x, Quarter(f)).corner) != Odd(x.corner)
  {
    hide CornerFrom, CornerTwist, CornerOn, Odd;
    var a, b, c, d := CornerOn(f, 0), CornerOn(f, 1), CornerOn(f, 2), CornerOn(f, 3);
    CornersCycle(f);
    var s := x.corner;
    FourCycleFlips(s, a, b, c, d);
    assert Compose(x, Quarter(f)).corner == s[a := s[b]][b := s[c]][c := s[d]][d := s[a]];
  }

  lemma QuarterEdgeSign(x: Cubies, f: FaceId)
    requires x.WellFormed()
    ensures Odd(Compose(x, Quarter(f)).edge) != Odd(x.edge)
  {
    hide EdgeFrom, EdgeFlip, EdgeOn, Odd;
    var a, b, c, d := EdgeOn(f, 0), EdgeOn(f, 1), EdgeOn(f, 2), EdgeOn(f, 3);
    EdgesCycle(f);
    var s := x.edge;
    FourCycleFlips(s, a, b, c, d);
    assert Compose(x, Quarter(f)).edge == s[a := s[b]][b := s[c]][c := s[d]][d := s[a]];
  }

  lemma TwistArithmetic(a: int, b: int, c: int, d: int, ta: int, tb: int, tc: int, td: int)
    requires (ta + tb + tc + td) % 3 == 0
    ensures ((b + ta) % 3 + (c + tb) % 3 + (d + tc) % 3 + (a + td) % 3 - a - b - c - d) % 3 == 0
  {}

  lemma QuarterCornerAt(x: Cubies, f: FaceId, i: int)
    requires x.WellFormed() && 0 <= i < 8
    ensures Compose(x, Quarter(f)).corner[i] == x.corner[CornerFrom(f, i)]
    ensures Compose(x, Quarter(f)).twist[i] == (x.twist[CornerFrom(f, i)] + CornerTwist(f, i)) % 3
    ensures CornerFrom(f, i) == i && CornerTwist(f, i) == 0 ==> Compose(x, Quarter(f)).twist[i] == x.twist[i]
  {
    hide CornerFrom, CornerTwist;
  }

  /** A quarter turn replaces four twists and keeps the others. */
  lemma CornerTwistsReplaced(x: Cubies, f: FaceId)
    requires x.WellFormed()
    ensures var a, b, c, d, t := CornerOn(f, 0), CornerOn(f, 1), CornerOn(f, 2), CornerOn(f, 3), x.twist;
            && 0 <= a < |t| && 0 <= b < |t| && 0 <= c < |t| && 0 <= d < |t|
            && Compose(x, Quarter(f)).twist ==
               Replace4(t, a, b, c, d, (t[b] + CornerTwist(f, a)) % 3, (t[c] + CornerTwist(f, b)) % 3,
                        (t[d] + CornerTwist(f, c)) % 3, (t[a] + CornerTwist(f, d)) % 3)
  {
    hide CornerFrom, CornerTwist, CornerOn, Compose, Quarter;
    CornersCycle(f);
    forall i | 0 <= i < 8
      ensures Compose(x, Quarter(f)).twist[i] == (x.twist[CornerFrom(f, i)] + CornerTwist(f, i)) % 3
      ensures CornerFrom(f, i) == i && CornerTwist(f, i) == 0 ==> Compose(x, Quarter(f)).twist[i] == x.twist[i]
    {
      QuarterCornerAt(x, f, i);
    }
  }

  lemma QuarterTwist(x: Cubies, f: FaceId)
    requires x.WellFormed()
    ensures (Sum(Compose(x, Quarter(f)).twist) - Sum(x.twist)) % 3 == 0
  {
    hide CornerFrom, CornerTwist, CornerOn, Sum, Compose, Quarter, Replace4;
    var a, b, c, d, t := CornerOn(f, 0), CornerOn(f, 1), CornerOn(f, 2), CornerOn(f, 3), x.twist;
    var ta, tb, tc, td := CornerTwist(f, a), CornerTwist(f, b), CornerTwist(f, c), CornerTwist(f, d);
    CornersCycle(f);
    CornerTwistsReplaced(x, f);
    SumReplace4(t, a, b, c, d, (t[b] + ta) % 3, (t[c] + tb) % 3, (t[d] + tc) % 3, (t[a] + td) % 3);
    TwistArithmetic(t[a], t[b], t[c], t[d], ta, tb, tc, td);
  }

  lemma FlipArithmetic(a: int, b: int, c: int, d: int, ta: int, tb: int, tc: int, td: int)
    requires (ta + tb + tc + td) % 2 == 0
    ensures ((b + ta) % 2 + (c + tb) % 2 + (d + tc) % 2 + (a + td) % 2 - a - b - c - d) % 2 == 0
  {}

  lemma QuarterEdgeAt(x: Cubies, f: FaceId, i: int)
    requires x.WellFormed() && 0 <= i < 12
    ensures Compose(x, Quarter(f)).edge[i] == x.edge[EdgeFrom(f, i)]
    ensures Compose(x, Quarter(f)).flip[i] == (x.flip[EdgeFrom(f, i)] + EdgeFlip(f, i)) % 2
    ensures EdgeFrom(f, i) == i && EdgeFlip(f, i) == 0 ==> Compose(x, Quarter(f)).flip[i] == x.flip[i]
  {
    hide EdgeFrom, EdgeFlip;
  }

  /** A quarter turn replaces four flips and keeps the others. */
  lemma EdgeFlipsReplaced(x: Cubies, f: FaceId)
    requires x.WellFormed()
    ensures var a, b, c, d, t := EdgeOn(f, 0), EdgeOn(f, 1), EdgeOn(f, 2), EdgeOn(f, 3), x.flip;
            && 0 <= a < |t| && 0 <= b < |t| && 0 <= c < |t| && 0 <= d < |t|
            && Compose(x, Quarter(f)).flip ==
               Replace4(t, a, b, c, d, (t[b] + EdgeFlip(f, a)) % 2, (t[c] + EdgeFlip(f, b)) % 2,
                        (t[d] + EdgeFlip(f, c)) % 2, (t[a] + EdgeFlip(f, d)) % 2)
  {
    hide EdgeFrom, EdgeFlip, EdgeOn, Compose, Quarter;
    EdgesCycle(f);
    forall i | 0 <= i < 12
      ensures Compose(x, Quarter(f)).flip[i] == (x.flip[EdgeFrom(f, i)] + EdgeFlip(f, i)) % 2
      ensures EdgeFrom(f, i) == i && EdgeFlip(f, i) == 0 ==> Compose(x, Quarter(f)).flip[i] == x.flip[i]
    {
      QuarterEdgeAt(x, f, i);
    }
  }

  lemma QuarterFlip(x: Cubies, f: FaceId)
    requires x.WellFormed()
    ensures (Sum(Compose(x, Quarter(f)).flip) - Sum(x.flip)) % 2 == 0
  {
    hide EdgeFrom, EdgeFlip, EdgeOn, Sum, Compose, Quarter, Replace4;
    var a, b, c, d, t := EdgeOn(f, 0), EdgeOn(f, 1), EdgeOn(f, 2), EdgeOn(f, 3), x.flip;
    var ta, tb, tc, td := EdgeFlip(f, a), EdgeFlip(f, b), EdgeFlip(f, c), EdgeFlip(f, d);
    EdgesCycle(f);
    EdgeFlipsReplaced(x, f);
    SumReplace4(t, a, b, c, d, (t[b] + ta) % 2, (t[c] + tb) % 2, (t[d] + tc) % 2, (t[a] + td) % 2);
    FlipArithmetic(t[a], t[b], t[c], t[d], ta, tb, tc, td);
  }

}
