/** The turns `shuffle` makes, as a function of the numbers that `rand_r` happens to return. */
module Shuffling {
  import opened Geometry
  import opened Turns
  import opened Runs
  import opened Reachability

  const MIN_DEPTH := 20
  const MAX_DEPTH := 30

  /** The two draws that pick one turn. */
  datatype TurnDraw = TurnDraw(face: nat, direction: nat)

  function Depth(draw: nat, minDepth: int, maxDepth: int): int
    requires minDepth <= maxDepth
  {
    draw % (maxDepth - minDepth + 1) + minDepth
  }

  function DrawnTurn(d: TurnDraw): Turn {
    Turn(d.face % N_FACES, d.direction % 2)
  }

  function DrawnRun(draws: seq<TurnDraw>, depth: int): (run: seq<Turn>)
    requires depth <= |draws|
    ensures |run| == if depth < 0 then 0 else depth
  {
    seq(if depth < 0 then 0 else depth, i requires 0 <= i < |draws| => DrawnTurn(draws[i]))
  }

  /** `value` is what a draw comes to when it is taken modulo `base`. */
  predicate Fits(value: int, draw: int, base: int)
    requires base > 0
  {
    0 <= value < base && (draw - value) % base == 0
  }

  /** Turn number `i` has the face and the direction that the draws number `i` come to. */
  predicate TurnsFit(run: seq<Turn>, draws: seq<TurnDraw>) {
    |run| <= |draws| &&
    forall i | 0 <= i < |run| :: Fits(run[i].face, draws[i].face, 6) && Fits(run[i].direction, draws[i].direction, 2)
  }

  /** `count` is the number of turns, from `minDepth` to `maxDepth`, that a draw comes to; a negative depth is none. */
  predicate CountFits(count: nat, extra: nat, minDepth: int, maxDepth: int, draw: nat)
    requires minDepth <= maxDepth
  {
    && Fits(extra, draw, maxDepth - minDepth + 1)
    && count == if minDepth + extra < 0 then 0 else minDepth + extra
  }

  /** The turns that the draws call for. */
  ghost predicate ShuffleMakes(run: seq<Turn>, minDepth: int, maxDepth: int, draw: nat, draws: seq<TurnDraw>)
    requires minDepth <= maxDepth
  {
    TurnsFit(run, draws) && exists extra: nat :: CountFits(|run|, extra, minDepth, maxDepth, draw)
  }

  lemma RemainderFits(draw: nat, base: int)
    requires base > 0
    ensures Fits(draw % base, draw, base)
  {
    var q := draw / base;
    assert draw - draw % base == base * q;
    MultipleVanishes(base, q);
  }

  lemma {:induction false} MultipleVanishes(base: int, q: nat)
    requires base > 0
    ensures (base * q) % base == 0
  {
    if q > 0 {
      MultipleVanishes(base, q - 1);
      assert base * q == base * (q - 1) + base;
      AddBase(base * (q - 1), base);
    }
  }

  lemma AddBase(n: int, base: int)
    requires base > 0
    ensures (n + base) % base == n % base
  {
    var q := n / base;
    assert n == base * q + n % base;
    assert n + base == base * (q + 1) + n % base;
    SameRemainder(n + base, base, q + 1, n % base);
  }

  lemma SameRemainder(n: int, base: int, q: int, r: int)
    requires n == base * q + r && 0 <= r < base
    ensures n % base == r
  {
    var d := n / base - q;
    assert base * d == r - n % base;
    assert d >= 1 ==> base * d >= base;
    assert d <= -1 ==> base * d <= -base;
  }

  lemma FitsRemainder(v: int, draw: int, base: int)
    requires base > 0 && Fits(v, draw, base)
    ensures v == draw % base
  {
    var q := (draw - v) / base;
    assert draw - v == base * q;
    SameRemainder(draw, base, q, v);
  }

  lemma FitsOnce(v: int, w: int, draw: int, base: int)
    requires base > 0 && Fits(v, draw, base) && Fits(w, draw, base)
    ensures v == w
  {
    hide Fits;
    FitsRemainder(v, draw, base);
    FitsRemainder(w, draw, base);
  }

  /** The draws decide on one run. */
  lemma ShuffleDecided(a: seq<Turn>, b: seq<Turn>, minDepth: int, maxDepth: int, draw: nat, draws: seq<TurnDraw>)
    requires minDepth <= maxDepth
    requires ShuffleMakes(a, minDepth, maxDepth, draw, draws) && ShuffleMakes(b, minDepth, maxDepth, draw, draws)
    ensures a == b
  {
    hide Fits;
    var v: nat :| CountFits(|a|, v, minDepth, maxDepth, draw);
    var w: nat :| CountFits(|b|, w, minDepth, maxDepth, draw);
    FitsOnce(v, w, draw, maxDepth - minDepth + 1);
    forall i | 0 <= i < |a| ensures a[i] == b[i] {
      FitsOnce(a[i].face, b[i].face, draws[i].face, 6);
      FitsOnce(a[i].direction, b[i].direction, draws[i].direction, 2);
    }
  }

  lemma DrawnRunFits(draw: nat, draws: seq<TurnDraw>, minDepth: int, maxDepth: int)
    requires minDepth <= maxDepth && Depth(draw, minDepth, maxDepth) <= |draws|
    ensures ShuffleMakes(DrawnRun(draws, Depth(draw, minDepth, maxDepth)), minDepth, maxDepth, draw, draws)
  {
    hide Fits;
    var run := DrawnRun(draws, Depth(draw, minDepth, maxDepth));
    RemainderFits(draw, maxDepth - minDepth + 1);
    assert CountFits(|run|, draw % (maxDepth - minDepth + 1), minDepth, maxDepth, draw);
    forall i | 0 <= i < |run|
      ensures Fits(run[i].face, draws[i].face, 6) && Fits(run[i].direction, draws[i].direction, 2)
    {
      RemainderFits(draws[i].face, 6);
      RemainderFits(draws[i].direction, 2);
    }
  }

  /** A run that `shuffle(_, minDepth, maxDepth)` could make. */
  predicate IsShuffle(run: seq<Turn>, minDepth: int, maxDepth: int) {
    && minDepth <= |run| <= maxDepth
    && forall i | 0 <= i < |run| :: run[i].direction == 0 || run[i].direction == 1
  }

  lemma DepthInRange(draw: nat, minDepth: nat, maxDepth: nat)
    requires minDepth <= maxDepth
    ensures minDepth <= Depth(draw, minDepth, maxDepth) <= maxDepth
    ensures draw <= maxDepth - minDepth ==> Depth(draw, minDepth, maxDepth) == minDepth + draw
  {}

  /** The modulus arithmetic picks a depth between the two bounds, and every run in range can come out. */
  lemma ShuffleRange(run: seq<Turn>, minDepth: nat, maxDepth: nat)
    requires minDepth <= maxDepth
    ensures IsShuffle(run, minDepth, maxDepth) <==>
            exists draw: nat, draws: seq<TurnDraw> ::
              Depth(draw, minDepth, maxDepth) <= |draws| && run == DrawnRun(draws, Depth(draw, minDepth, maxDepth))
  {
    hide Depth;
    if IsShuffle(run, minDepth, maxDepth) {
      var draw: nat := |run| - minDepth;
      var draws := seq(|run|, i requires 0 <= i < |run| => TurnDraw(run[i].face, run[i].direction));
      DepthInRange(draw, minDepth, maxDepth);
      assert run == DrawnRun(draws, |run|);
    }
    if draw: nat, draws: seq<TurnDraw> :|
      Depth(draw, minDepth, maxDepth) <= |draws| && run == DrawnRun(draws, Depth(draw, minDepth, maxDepth))
    {
      DepthInRange(draw, minDepth, maxDepth);
    }
  }

  /** Whatever a shuffle of the solved cube makes can be solved in at most `maxDepth` turns. */
  lemma ShuffleSolvable(run: seq<Turn>, minDepth: nat, maxDepth: nat)
    requires IsShuffle(run, minDepth, maxDepth)
    ensures exists solution: seq<Turn> ::
              |solution| <= maxDepth && AfterRun(AfterRun(Solved(), run), solution) == Solved()
  {
    UndoRestores(Solved(), run);
  }

  /** A shuffle of odd depth never comes out solved. */
  lemma OddShuffle(run: seq<Turn>, minDepth: nat, maxDepth: nat)
    requires IsShuffle(run, minDepth, maxDepth) && |run| % 2 == 1
    ensures AfterRun(Solved(), run) != Solved()
  {
    OddRunsNeverSolved(run);
  }

}
