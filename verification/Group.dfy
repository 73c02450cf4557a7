/** The cubes that runs make form a group: they can be composed, undone and conjugated. */
module Group {
  import opened Geometry
  import opened Permutations
  import opened Turns
  import opened Runs
  import opened Cubies
  import opened Reachability

  lemma ModSum(a: int, b: int, c: int, n: int)
    requires n == 2 || n == 3
    ensures (a + (b + c) % n) % n == ((a + b) % n + c) % n
  {}

  lemma CornerAt(x: Cubies, y: Cubies, i: int)
    requires x.WellFormed() && y.WellFormed() && 0 <= i < 8
    ensures Compose(x, y).corner[i] == x.corner[y.corner[i]]
    ensures Compose(x, y).twist[i] == (x.twist[y.corner[i]] + y.twist[i]) % 3
  {}

  lemma EdgeAt(x: Cubies, y: Cubies, j: int)
    requires x.WellFormed() && y.WellFormed() && 0 <= j < 12
    ensures Compose(x, y).edge[j] == x.edge[y.edge[j]]
    ensures Compose(x, y).flip[j] == (x.flip[y.edge[j]] + y.flip[j]) % 2
  {}

  lemma CornersAssociate(x: Cubies, y: Cubies, z: Cubies, i: int)
    requires x.WellFormed() && y.WellFormed() && z.WellFormed() && 0 <= i < 8
    ensures Compose(Compose(x, y), z).corner[i] == Compose(x, Compose(y, z)).corner[i]
    ensures Compose(Compose(x, y), z).twist[i] == Compose(x, Compose(y, z)).twist[i]
  {
    hide Compose;
    CornerAt(Compose(x, y), z, i);
    CornerAt(x, y, z.corner[i]);
    CornerAt(x, Compose(y, z), i);
    CornerAt(y, z, i);
    ModSum(x.twist[y.corner[z.corner[i]]], y.twist[z.corner[i]], z.twist[i], 3);
  }

  lemma EdgesAssociate(x: Cubies, y: Cubies, z: Cubies, j: int)
    requires x.WellFormed() && y.WellFormed() && z.WellFormed() && 0 <= j < 12
    ensures Compose(Compose(x, y), z).edge[j] == Compose(x, Compose(y, z)).edge[j]
    ensures Compose(Compose(x, y), z).flip[j] == Compose(x, Compose(y, z)).flip[j]
  {
    hide Compose;
    EdgeAt(Compose(x, y), z, j);
    EdgeAt(x, y, z.edge[j]);
    EdgeAt(x, Compose(y, z), j);
    EdgeAt(y, z, j);
    ModSum(x.flip[y.edge[z.edge[j]]], y.flip[z.edge[j]], z.flip[j], 2);
  }

  lemma ComposeAssociative(x: Cubies, y: Cubies, z: Cubies)
    requires x.WellFormed() && y.WellFormed() && z.WellFormed()
    ensures Compose(Compose(x, y), z) == Compose(x, Compose(y, z))
  {
    hide Compose;
    var l, r := Compose(Compose(x, y), z), Compose(x, Compose(y, z));
    forall i | 0 <= i < 8 ensures l.corner[i] == r.corner[i] && l.twist[i] == r.twist[i] {
      CornersAssociate(x, y, z, i);
    }
    forall j | 0 <= j < 12 ensures l.edge[j] == r.edge[j] && l.flip[j] == r.flip[j] {
      EdgesAssociate(x, y, z, j);
    }
  }

  lemma ComposeSolved(x: Cubies)
    requires x.WellFormed()
    ensures Compose(x, SOLVED_CUBIES) == x
  {}

  lemma TurnedCompose(x: Cubies, y: Cubies, t: Turn)
    requires x.WellFormed() && y.WellFormed()
    ensures Turned(Compose(x, y), t) == Compose(x, Turned(y, t))
  {
    hide Compose, Quarter, Cubies.WellFormed;
    var q := Quarter(t.face);
    ComposeAssociative(x, y, q);
    ComposeAssociative(x, Compose(y, q), q);
    ComposeAssociative(x, Compose(Compose(y, q), q), q);
  }

  /** Running `b` after `a` composes the two cubes. */
  lemma {:induction false} CubeOfConcat(a: seq<Turn>, b: seq<Turn>)
    ensures CubeOf(a + b) == Compose(CubeOf(a), CubeOf(b))
  {
    hide Compose, Turned;
    if b == [] {
      assert a + b == a;
      ComposeSolved(CubeOf(a));
    } else {
      var m := |b| - 1;
      assert (a + b)[..|a + b| - 1] == a + b[..m];
      CubeOfConcat(a, b[..m]);
      TurnedCompose(CubeOf(a), CubeOf(b[..m]), b[m]);
    }
  }

  lemma LabelsDetermine(x: Cubies, y: Cubies)
    requires x.WellFormed() && y.WellFormed() && Labels(x) == Labels(y)
    ensures x == y
  {
    hide OriginOf;
    forall p | 0 <= p < 54 ensures Painted(x)[p] == Painted(y)[p] {
      LabelAt(x, StickerAt(p));
      LabelAt(y, StickerAt(p));
    }
    ColorsDetermine(x, y);
  }

  lemma RightInverse(run: seq<Turn>)
    ensures Compose(CubeOf(run), CubeOf(Undo(run))) == SOLVED_CUBIES
  {
    hide Compose, CubeOf, Labels, AfterRun;
    CubeOfConcat(run, Undo(run));
    PiecesStayWhole(run + Undo(run));
    UndoRestores(Identity(54), run);
    AfterConcat(Identity(54), run, Undo(run));
    SolvedLabels();
    LabelsDetermine(CubeOf(run + Undo(run)), SOLVED_CUBIES);
  }

  lemma SolvedCompose(x: Cubies)
    requires x.WellFormed()
    ensures Compose(SOLVED_CUBIES, x) == x
  {}

  /** The undone run is an inverse on both sides. */
  lemma LeftInverse(run: seq<Turn>)
    ensures Compose(CubeOf(Undo(run)), CubeOf(run)) == SOLVED_CUBIES
  {
    hide Compose, CubeOf;
    var x, y, z := CubeOf(run), CubeOf(Undo(run)), CubeOf(Undo(Undo(run)));
    RightInverse(run);
    RightInverse(Undo(run));
    ComposeAssociative(x, y, z);
    ComposeSolved(x);
    SolvedCompose(z);
  }

  function Conjugate(s: seq<Turn>, m: seq<Turn>): seq<Turn> {
    s + m + Undo(s)
  }

  lemma Cancel(a: int, b: int, c: int, n: int)
    requires n == 2 || n == 3
    requires 0 <= b < n && (c + a) % n == 0
    ensures ((a + b) % n + c) % n == b
  {}

  /** The setup and the undone setup cancel, edge by edge. */
  lemma EdgeReturns(s: seq<Turn>, q: int)
    requires 0 <= q < 12
    ensures var z, u := CubeOf(s), CubeOf(Undo(s));
            u.edge[z.edge[q]] == q && (u.flip[z.edge[q]] + z.flip[q]) % 2 == 0
  {
    hide CubeOf, Compose;
    LeftInverse(s);
    EdgeAt(CubeOf(Undo(s)), CubeOf(s), q);
  }

  lemma ConjugateCube(s: seq<Turn>, m: seq<Turn>)
    ensures CubeOf(Conjugate(s, m)) == Compose(Compose(CubeOf(s), CubeOf(m)), CubeOf(Undo(s)))
  {
    hide CubeOf, Compose;
    CubeOfConcat(s, m);
    CubeOfConcat(s + m, Undo(s));
  }

  /** Composing setup, middle part and undone setup, seen from one slot. */
  lemma ConjugateEdgeAt(s: seq<Turn>, m: seq<Turn>, q: int)
    requires 0 <= q < 12
    ensures var w, y, z, u := CubeOf(Conjugate(s, m)), CubeOf(m), CubeOf(s), CubeOf(Undo(s));
            && w.edge[z.edge[q]] == z.edge[y.edge[q]]
            && w.flip[z.edge[q]] == ((z.flip[y.edge[q]] + y.flip[q]) % 2 + u.flip[z.edge[q]]) % 2
  {
    hide CubeOf, Compose, Conjugate, Undo;
    var y, z, u := CubeOf(m), CubeOf(s), CubeOf(Undo(s));
    ConjugateCube(s, m);
    EdgeReturns(s, q);
    EdgeAt(Compose(z, y), u, z.edge[q]);
    EdgeAt(z, y, q);
  }

  /** Doing `m` in the places reached by `s` does there what `m` does. */
  lemma ConjugateEdges(s: seq<Turn>, m: seq<Turn>, q: int)
    requires 0 <= q < 12
    ensures var w, y, z := CubeOf(Conjugate(s, m)), CubeOf(m), CubeOf(s);
            && w.edge[z.edge[q]] == z.edge[y.edge[q]]
            && (y.edge[q] == q ==> w.flip[z.edge[q]] == y.flip[q])
  {
    hide CubeOf, Conjugate;
    var y, z, u := CubeOf(m), CubeOf(s), CubeOf(Undo(s));
    ConjugateEdgeAt(s, m, q);
    if y.edge[q] == q {
      EdgeReturns(s, q);
      Cancel(z.flip[q], y.flip[q], u.flip[z.edge[q]], 2);
    }
  }

  lemma CornerReturns(s: seq<Turn>, q: int)
    requires 0 <= q < 8
    ensures var z, u := CubeOf(s), CubeOf(Undo(s));
            u.corner[z.corner[q]] == q && (u.twist[z.corner[q]] + z.twist[q]) % 3 == 0
  {
    hide CubeOf, Compose;
    LeftInverse(s);
    CornerAt(CubeOf(Undo(s)), CubeOf(s), q);
  }

  lemma ConjugateCornerAt(s: seq<Turn>, m: seq<Turn>, q: int)
    requires 0 <= q < 8
    ensures var w, y, z, u := CubeOf(Conjugate(s, m)), CubeOf(m), CubeOf(s), CubeOf(Undo(s));
            && w.corner[z.corner[q]] == z.corner[y.corner[q]]
            && w.twist[z.corner[q]] == ((z.twist[y.corner[q]] + y.twist[q]) % 3 + u.twist[z.corner[q]]) % 3
  {
    hide CubeOf, Compose, Conjugate, Undo;
    var y, z, u := CubeOf(m), CubeOf(s), CubeOf(Undo(s));
    ConjugateCube(s, m);
    CornerReturns(s, q);
    CornerAt(Compose(z, y), u, z.corner[q]);
    CornerAt(z, y, q);
  }

  lemma ConjugateCorners(s: seq<Turn>, m: seq<Turn>, q: int)
    requires 0 <= q < 8
    ensures var w, y, z := CubeOf(Conjugate(s, m)), CubeOf(m), CubeOf(s);
            && w.corner[z.corner[q]] == z.corner[y.corner[q]]
            && (y.corner[q] == q ==> w.twist[z.corner[q]] == y.twist[q])
  {
    hide CubeOf, Conjugate;
    var y, z, u := CubeOf(m), CubeOf(s), CubeOf(Undo(s));
    ConjugateCornerAt(s, m, q);
    if y.corner[q] == q {
      CornerReturns(s, q);
      Cancel(z.twist[q], y.twist[q], u.twist[z.corner[q]], 3);
    }
  }

}
