/** Two opposite faces share no sticker, so the order in which their turns are interleaved does not matter. */
module OppositeFaces {
  import opened Geometry
  import opened Permutations
  import opened Turns
  import opened Runs

  function OppositeFace(f: FaceId): FaceId {
    5 - f
  }

  /** The stickers a turn of face `f` moves, or could move. */
  predicate Touches(f: FaceId, s: Sticker) {
    s.face == f || OnRing(f, s)
  }

  lemma Separate(f: FaceId, s: Sticker)
    requires Touches(f, s)
    ensures !Touches(OppositeFace(f), s)
  {}

  lemma StaysTouched(t: Turn, s: Sticker)
    ensures Touches(t.face, Source(t, s)) == Touches(t.face, s)
    ensures !Touches(t.face, s) ==> Source(t, s) == s
  {
    if s.face != t.face && OnRing(t.face, s) {
      var i, j := NeighbourNumber(t.face, s.face), StripNumber(EdgeStrip(t.face, s.face), s.square);
      SourceOnRing(t, i, j);
      SourceOnRing(t, (i + 3) % 4, j);
      SourceOnRing(t, (i + 1) % 4, j);
    }
  }

  lemma SourcesCommute(t: Turn, u: Turn, s: Sticker)
    requires u.face == OppositeFace(t.face)
    ensures Source(t, Source(u, s)) == Source(u, Source(t, s))
  {
    hide Source, Touches;
    StaysTouched(t, s);
    StaysTouched(u, s);
    StaysTouched(t, Source(u, s));
    StaysTouched(u, Source(t, s));
    if Touches(t.face, s) {
      Separate(t.face, s);
      Separate(t.face, Source(t, s));
    } else if Touches(u.face, s) {
      Separate(u.face, s);
      Separate(u.face, Source(u, s));
    }
  }

  lemma TurnsCommute(c: Coloring, t: Turn, u: Turn)
    requires u.face == OppositeFace(t.face)
    ensures After(After(c, t), u) == After(After(c, u), t)
  {
    hide Source;
    var l, r := After(After(c, t), u), After(After(c, u), t);
    forall p | 0 <= p < 54 ensures l[p] == r[p] {
      var s := StickerAt(p);
      SourcesCommute(t, u, s);
      AfterAt(After(c, t), u, s);
      AfterAt(c, t, Source(u, s));
      AfterAt(After(c, u), t, s);
      AfterAt(c, u, Source(t, s));
    }
  }

  /** `n` clockwise quarter turns of face `f`. */
  function Spin(c: Coloring, f: FaceId, n: nat): Coloring {
    if n == 0 then c else After(Spin(c, f, n - 1), Turn(f, 0))
  }

  lemma SpinFour(c: Coloring, f: FaceId)
    ensures Spin(c, f, 4) == c
  {
    var q, r := Turn(f, 0), Turn(f, 1);
    forall p | 0 <= p < 54 ensures Spin(c, f, 4)[p] == c[p] {
      var s := StickerAt(p);
      SourceCycle(f, 1, s);
      SpinAt(c, f, s);
    }
  }

  lemma SpinAt(c: Coloring, f: FaceId, s: Sticker)
    ensures var q := Turn(f, 0);
            && Spin(c, f, 1)[s.Index()] == c[Source(q, s).Index()]
            && Spin(c, f, 2)[s.Index()] == c[Source(q, Source(q, s)).Index()]
            && Spin(c, f, 3)[s.Index()] == c[Source(q, Source(q, Source(q, s))).Index()]
            && Spin(c, f, 4)[s.Index()] == c[Source(q, Source(q, Source(q, Source(q, s)))).Index()]
  {
    hide Source;
    var q := Turn(f, 0);
    var s1 := Source(q, s);
    var s2 := Source(q, s1);
    var s3 := Source(q, s2);
    assert Spin(c, f, 0) == c;
    var c1 := Spin(c, f, 1);
    AfterAt(c, q, s);
    AfterAt(c, q, s1);
    AfterAt(c, q, s2);
    AfterAt(c, q, s3);
    var c2 := Spin(c, f, 2);
    AfterAt(c1, q, s);
    AfterAt(c1, q, s1);
    AfterAt(c1, q, s2);
    var c3 := Spin(c, f, 3);
    AfterAt(c2, q, s);
    AfterAt(c2, q, s1);
    AfterAt(c3, q, s);
  }

  lemma CounterIsThree(c: Coloring, t: Turn)
    requires t.direction != 0
    ensures After(c, t) == Spin(c, t.face, 3)
  {
    hide Source;
    forall p | 0 <= p < 54 ensures After(c, t)[p] == Spin(c, t.face, 3)[p] {
      var s := StickerAt(p);
      SourceCycle(t.face, t.direction, s);
      assert t == Turn(t.face, t.direction);
      SpinAt(c, t.face, s);
      AfterAt(c, t, s);
    }
  }

  lemma {:induction false} SpinAdd(c: Coloring, f: FaceId, m: nat, n: nat)
    ensures Spin(c, f, m + n) == Spin(Spin(c, f, m), f, n)
  {
    hide After;
    if n > 0 {
      SpinAdd(c, f, m, n - 1);
      assert m + n - 1 == m + (n - 1);
    }
  }

  lemma SpinMod(c: Coloring, f: FaceId, m: nat, n: nat)
    requires m < 4 && n < 4
    ensures Spin(Spin(c, f, m), f, n) == Spin(c, f, (m + n) % 4)
  {
    hide After, Spin;
    SpinAdd(c, f, m, n);
    if m + n >= 4 {
      var k := m + n - 4;
      SpinAdd(c, f, 4, k);
      SpinFour(c, f);
      assert 4 + k == m + n && (m + n) % 4 == k;
    } else {
      assert (m + n) % 4 == m + n;
    }
  }

  lemma {:induction false} SpinCommutes(c: Coloring, t: Turn, n: nat)
    ensures After(Spin(c, OppositeFace(t.face), n), t) == Spin(After(c, t), OppositeFace(t.face), n)
  {
    hide After;
    if n > 0 {
      SpinCommutes(c, t, n - 1);
      TurnsCommute(Spin(c, OppositeFace(t.face), n - 1), Turn(OppositeFace(t.face), 0), t);
    }
  }

  /** Clockwise quarter turns of `f` in a run, modulo a full revolution. */
  function Net(run: seq<Turn>, f: FaceId): (n: nat)
    ensures n < 4
  {
    if run == [] then 0
    else
      var t := run[|run| - 1];
      var n := Net(run[..|run| - 1], f);
      if t.face != f then n else if t.direction == 0 then (n + 1) % 4 else (n + 3) % 4
  }

  predicate OnlyFaces(run: seq<Turn>, f: FaceId) {
    forall i | 0 <= i < |run| :: run[i].face == f || run[i].face == OppositeFace(f)
  }

  lemma {:induction false} NormalForm(c: Coloring, run: seq<Turn>, f: FaceId)
    requires OnlyFaces(run, f)
    ensures AfterRun(c, run) == Spin(Spin(c, f, Net(run, f)), OppositeFace(f), Net(run, OppositeFace(f)))
  {
    hide After;
    if run != [] {
      var init, t := run[..|run| - 1], run[|run| - 1];
      NormalForm(c, init, f);
      AppendNormal(c, init, t, f);
    }
  }

  lemma AppendNormal(c: Coloring, init: seq<Turn>, t: Turn, f: FaceId)
    requires t.face == f || t.face == OppositeFace(f)
    ensures var run, g := init + [t], OppositeFace(f);
            After(Spin(Spin(c, f, Net(init, f)), g, Net(init, g)), t) == Spin(Spin(c, f, Net(run, f)), g, Net(run, g))
  {
    hide After;
    var run, g := init + [t], OppositeFace(f);
    assert run[..|run| - 1] == init;
    var m, n := Net(init, f), Net(init, g);
    var d := Spin(c, f, m);
    if t.face == f {
      SpinCommutes(d, t, n);
      OneTurn(d, t);
      SpinMod(c, f, m, if t.direction == 0 then 1 else 3);
    } else {
      OneTurn(Spin(d, g, n), t);
      SpinMod(d, g, n, if t.direction == 0 then 1 else 3);
    }
  }

  lemma OneTurn(c: Coloring, t: Turn)
    ensures After(c, t) == Spin(c, t.face, if t.direction == 0 then 1 else 3)
  {
    if t.direction == 0 {
      assert t == Turn(t.face, 0);
      assert Spin(c, t.face, 0) == c;
    } else {
      CounterIsThree(c, t);
    }
  }

  /** Square number of face `f` whose color stands in the upper left corner after `n` clockwise turns. */
  function UpperLeftAfter(n: nat): SquareId
    requires n < 4
  {
    Row4(n, SQUARE_UL, SQUARE_LL, SQUARE_LR, SQUARE_UR)
  }

  lemma {:induction false} SpinElsewhere(c: Coloring, f: FaceId, n: nat, s: Sticker)
    requires !Touches(f, s)
    ensures Spin(c, f, n)[s.Index()] == c[s.Index()]
  {
    if n > 0 {
      SpinElsewhere(c, f, n - 1, s);
      StaysTouched(Turn(f, 0), s);
      AfterAt(Spin(c, f, n - 1), Turn(f, 0), s);
    }
  }

  lemma SpinUpperLeft(c: Coloring, f: FaceId, n: nat)
    requires n < 4
    ensures Spin(c, f, n)[Sticker(f, SQUARE_UL).Index()] == c[Sticker(f, UpperLeftAfter(n)).Index()]
  {
    if n > 0 {
      SpinAt(c, f, Sticker(f, SQUARE_UL));
    }
  }

  /** The labels tell how far each of the two faces has been turned. */
  lemma NetFromLabels(f: FaceId, m: nat, n: nat)
    requires m < 4 && n < 4
    ensures var r := Spin(Spin(Identity(54), f, m), OppositeFace(f), n);
            && r[Sticker(f, SQUARE_UL).Index()] == Sticker(f, UpperLeftAfter(m)).Index()
            && r[Sticker(OppositeFace(f), SQUARE_UL).Index()] == Sticker(OppositeFace(f), UpperLeftAfter(n)).Index()
  {
    hide After;
    var id, g := Identity(54), OppositeFace(f);
    var d := Spin(id, f, m);
    Separate(f, Sticker(f, SQUARE_UL));
    SpinElsewhere(d, g, n, Sticker(f, SQUARE_UL));
    SpinUpperLeft(id, f, m);
    SpinUpperLeft(d, g, n);
    Separate(g, Sticker(g, UpperLeftAfter(n)));
    SpinElsewhere(id, f, m, Sticker(g, UpperLeftAfter(n)));
  }

  lemma UpperLeftInjective(m: nat, n: nat)
    requires m < 4 && n < 4 && UpperLeftAfter(m) == UpperLeftAfter(n)
    ensures m == n
  {}

  lemma SameNetSameEffect(c: Coloring, a: seq<Turn>, b: seq<Turn>, f: FaceId)
    requires OnlyFaces(a, f) && OnlyFaces(b, f)
    requires Net(a, f) == Net(b, f) && Net(a, OppositeFace(f)) == Net(b, OppositeFace(f))
    ensures AfterRun(c, a) == AfterRun(c, b)
  {
    NormalForm(c, a, f);
    NormalForm(c, b, f);
  }

  lemma SameEffectSameNet(a: seq<Turn>, b: seq<Turn>, f: FaceId)
    requires OnlyFaces(a, f) && OnlyFaces(b, f)
    requires AfterRun(Identity(54), a) == AfterRun(Identity(54), b)
    ensures Net(a, f) == Net(b, f) && Net(a, OppositeFace(f)) == Net(b, OppositeFace(f))
  {
    hide After, Spin;
    var g := OppositeFace(f);
    NormalForm(Identity(54), a, f);
    NormalForm(Identity(54), b, f);
    NetFromLabels(f, Net(a, f), Net(a, g));
    NetFromLabels(f, Net(b, f), Net(b, g));
    UpperLeftInjective(Net(a, f), Net(b, f));
    UpperLeftInjective(Net(a, g), Net(b, g));
  }

  ghost predicate SameEffect(a: seq<Turn>, b: seq<Turn>) {
    forall c: Coloring :: AfterRun(c, a) == AfterRun(c, b)
  }

  /** Two runs over a pair of opposite faces do the same to every coloring exactly when each of the two faces is
      turned by the same net amount; how the turns are interleaved is irrelevant. */
  lemma OrderIndependence(a: seq<Turn>, b: seq<Turn>, f: FaceId)
    requires OnlyFaces(a, f) && OnlyFaces(b, f)
    ensures SameEffect(a, b) <==> Net(a, f) == Net(b, f) && Net(a, OppositeFace(f)) == Net(b, OppositeFace(f))
  {
    if Net(a, f) == Net(b, f) && Net(a, OppositeFace(f)) == Net(b, OppositeFace(f)) {
      forall c: Coloring ensures AfterRun(c, a) == AfterRun(c, b) {
        SameNetSameEffect(c, a, b, f);
      }
    }
    if SameEffect(a, b) {
      var id: Coloring := Identity(54);
      assert AfterRun(id, a) == AfterRun(id, b);
      SameEffectSameNet(a, b, f);
    }
  }

}
