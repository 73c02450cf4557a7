/** Colorings of a cube, and what runs of quarter turns do to them. */
module Runs {
  import opened Geometry
  import opened Permutations
  import opened Turns

  /** The colors of all 54 stickers, face after face. */
  type Coloring = c: seq<int> | |c| == 54 witness seq(54, _ => 0)

  function TurnTable(t: Turn): (q: seq<int>)
    ensures |q| == 54 && Below(q, 54)
  {
    seq(54, p requires 0 <= p < 54 => Source(t, StickerAt(p)).Index())
  }

  /** The coloring after one turn: every sticker shows the color of its source. */
  function After(c: Coloring, t: Turn): Coloring {
    Apply(c, TurnTable(t))
  }

  lemma AfterAt(c: Coloring, t: Turn, s: Sticker)
    ensures After(c, t)[s.Index()] == c[Source(t, s).Index()]
  {
    assert StickerAt(s.Index()) == s;
  }

  lemma SourceEither(t: Turn, s: Sticker)
    requires !t.Clockwise()
    ensures Source(t, s) == Source(Turn(t.face, 1), s)
  {}

  /** Every direction but 0 turns counter-clockwise. */
  lemma AfterEither(c: Coloring, t: Turn)
    requires !t.Clockwise()
    ensures After(c, t) == After(c, Turn(t.face, 1))
  {
    hide After, Source;
    var u := Turn(t.face, 1);
    forall p | 0 <= p < 54 ensures After(c, t)[p] == After(c, u)[p] {
      AfterAt(c, t, StickerAt(p));
      AfterAt(c, u, StickerAt(p));
      SourceEither(t, StickerAt(p));
    }
  }

  function AfterRun(c: Coloring, run: seq<Turn>): Coloring {
    if run == [] then c else After(AfterRun(c, run[..|run| - 1]), run[|run| - 1])
  }

  /** The permutation of stickers that a whole run composes to. */
  function RunTable(run: seq<Turn>): Coloring {
    AfterRun(Identity(54), run)
  }

  /** The same turns backwards, each in the other direction. */
  function Undo(run: seq<Turn>): seq<Turn> {
    if run == [] then [] else [Opposite(run[|run| - 1])] + Undo(run[..|run| - 1])
  }

  function Repeat(run: seq<Turn>, n: nat): seq<Turn> {
    if n == 0 then [] else Repeat(run, n - 1) + run
  }

  lemma AfterOpposite(c: Coloring, t: Turn)
    ensures After(After(c, t), Opposite(t)) == c
  {
    hide Source;
    var r := After(After(c, t), Opposite(t));
    forall p | 0 <= p < 54 ensures r[p] == c[p] {
      SourceOpposite(t, StickerAt(p));
      AfterAt(After(c, t), Opposite(t), StickerAt(p));
      AfterAt(c, t, Source(Opposite(t), StickerAt(p)));
    }
  }

  lemma {:induction false} AfterConcat(c: Coloring, a: seq<Turn>, b: seq<Turn>)
    ensures AfterRun(c, a + b) == AfterRun(AfterRun(c, a), b)
  {
    if b == [] {
      assert a + b == a;
    } else {
      var m := |b| - 1;
      assert (a + b)[..|a + b| - 1] == a + b[..m];
      AfterConcat(c, a, b[..m]);
    }
  }

  lemma AfterAppend(c: Coloring, run: seq<Turn>, t: Turn)
    ensures AfterRun(c, run + [t]) == After(AfterRun(c, run), t)
  {
    hide After;
    assert (run + [t])[..|run|] == run;
  }

  /** Undoing a whole run restores any coloring. */
  lemma {:induction false} UndoRestores(c: Coloring, run: seq<Turn>)
    ensures AfterRun(AfterRun(c, run), Undo(run)) == c
    ensures |Undo(run)| == |run|
  {
    if run != [] {
      var m := |run| - 1;
      var init, t := run[..m], run[m];
      var x := AfterRun(c, run);
      AfterConcat(x, [Opposite(t)], Undo(init));
      assert AfterRun(x, [Opposite(t)]) == After(x, Opposite(t)) by {
        assert [Opposite(t)][..0] == [];
      }
      AfterOpposite(AfterRun(c, init), t);
      UndoRestores(c, init);
    }
  }

  lemma TurnPermutes(t: Turn)
    ensures IsPermutation(TurnTable(t))
  {
    forall i, j | 0 <= i < j < 54 ensures TurnTable(t)[i] != TurnTable(t)[j] {
      SourceOpposite(t, StickerAt(i));
      SourceOpposite(t, StickerAt(j));
    }
  }

  /** A run acts on every coloring by the one permutation it composes to. */
  lemma {:induction false} RunActs(c: Coloring, run: seq<Turn>)
    ensures IsPermutation(RunTable(run))
    ensures AfterRun(c, run) == Apply(c, RunTable(run))
  {
    if run == [] {
      assert Apply(c, Identity(54)) == c;
    } else {
      var init, t := run[..|run| - 1], run[|run| - 1];
      RunActs(c, init);
      TurnPermutes(t);
      var q := RunTable(init);
      assert RunTable(run) == Apply(q, TurnTable(t));
    }
  }

  function Centre(f: FaceId): int {
    Sticker(f, SQUARE_MM).Index()
  }

  lemma CentreSource(t: Turn, f: FaceId)
    ensures Source(t, Sticker(f, SQUARE_MM)) == Sticker(f, SQUARE_MM)
  {}

  lemma {:induction false} CentreStays(c: Coloring, run: seq<Turn>, f: FaceId)
    ensures AfterRun(c, run)[Centre(f)] == c[Centre(f)]
  {
    hide After, Source;
    if run != [] {
      var init, t := run[..|run| - 1], run[|run| - 1];
      CentreStays(c, init, f);
      CentreSource(t, f);
      AfterAt(AfterRun(c, init), t, Sticker(f, SQUARE_MM));
    }
  }

  /** Turns move colors around but neither lose nor create any, and never move a centre. */
  lemma Conservation(c: Coloring, run: seq<Turn>)
    ensures multiset(AfterRun(c, run)) == multiset(c)
    ensures forall f: FaceId :: AfterRun(c, run)[Centre(f)] == c[Centre(f)]
  {
    RunActs(c, run);
    ApplyMultiset(c, RunTable(run));
    forall f: FaceId ensures AfterRun(c, run)[Centre(f)] == c[Centre(f)] {
      CentreStays(c, run, f);
    }
  }

  lemma WalkFirst(q: seq<int>, p: int, n: nat)
    requires IsPermutation(q) && 0 <= p < |q| && n > 0
    ensures Walk(q, q[p], n - 1) == Walk(q, p, n)
  {
    WalkSplit(q, p, 1, n - 1);
    assert Walk(q, p, 1) == q[Walk(q, p, 0)];
  }

  lemma RunActsAt(c: Coloring, run: seq<Turn>, p: int)
    requires 0 <= p < 54
    ensures IsPermutation(RunTable(run)) && AfterRun(c, run)[p] == c[RunTable(run)[p]]
  {
    RunActs(c, run);
  }

  lemma {:induction false} RepeatWalks(c: Coloring, run: seq<Turn>, n: nat, p: int)
    requires 0 <= p < 54 && IsPermutation(RunTable(run))
    ensures AfterRun(c, Repeat(run, n))[p] == c[Walk(RunTable(run), p, n)]
  {
    if n > 0 {
      var q := RunTable(run);
      var d := AfterRun(c, Repeat(run, n - 1));
      AfterConcat(c, Repeat(run, n - 1), run);
      RunActsAt(d, run, p);
      RepeatWalks(c, run, n - 1, q[p]);
      WalkFirst(q, p, n);
    }
  }

  /** Repeating any run 54! times restores any coloring. */
  lemma FiniteOrder(c: Coloring, run: seq<Turn>)
    ensures AfterRun(c, Repeat(run, Factorial(54))) == c
  {
    RunActs(c, run);
    var r := AfterRun(c, Repeat(run, Factorial(54)));
    forall p | 0 <= p < 54 ensures r[p] == c[p] {
      RepeatWalks(c, run, Factorial(54), p);
      WalkFactorial(RunTable(run), p);
    }
  }

}
