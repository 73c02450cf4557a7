/** Playing alone and playing over the network: the key loop of the single-device program, the key loop of a
    client, the command loop of the server, and how the first refines into the other two. */
module Play {
  import opened Geometry
  import opened Permutations
  import opened Turns
  import opened Runs
  import opened Bytes
  import opened Reachability
  import opened Shuffling
  import opened CubeObjects
  import opened Commands

  const KEY_Q := 113
  const KEY_CAPITAL_Q := 81

  predicate IsQuitKey(key: int) {
    key == KEY_Q || key == KEY_CAPITAL_Q
  }

  /** What the random generator returns during one shuffle. */
  datatype ShuffleDraw = ShuffleDraw(depth: nat, turns: seq<TurnDraw>) {
    predicate Enough() { MAX_DEPTH <= |turns| }

    function Run(): seq<Turn>
      requires Enough()
    {
      DrawnRun(turns, Depth(depth, MIN_DEPTH, MAX_DEPTH))
    }
  }

  type Luck = d: ShuffleDraw | d.Enough() witness ShuffleDraw(0, seq(30, _ => TurnDraw(0, 0)))

  /** The cubes a single-device session goes through: one entry for each command key, until the session is quit.
      `luck(n)` is what a shuffle would draw at command `n`. */
  function LocalStates(c: Coloring, face: FaceId, keys: seq<int>, luck: nat -> Luck, n: nat): seq<Coloring>
    decreases keys
  {
    if keys == [] || IsQuitKey(keys[0]) then []
    else if IsFaceKey(keys[0]) then LocalStates(c, keys[0] - DIGIT_ZERO, keys[1..], luck, n)
    else if IsCommandKey(keys[0]) then
      var c' := AfterKey(c, keys[0], face, luck(n).Run());
      [c'] + LocalStates(c', face, keys[1..], luck, n + 1)
    else LocalStates(c, face, keys[1..], luck, n)
  }

  /** The lines a client sends during a session that starts with `faceId` in its face variable. */
  function ClientLines(faceId: int, keys: seq<int>): (lines: seq<seq<Byte>>)
    ensures forall i | 0 <= i < |lines| :: WellFormedCommand(lines[i]) && IsLine(lines[i]) && NUL !in lines[i]
    decreases keys
  {
    if keys == [] || IsQuitKey(keys[0]) then []
    else if IsFaceKey(keys[0]) then ClientLines(keys[0] - DIGIT_ZERO, keys[1..])
    else if IsCommandKey(keys[0]) && 0 <= faceId < 6 then
      [CommandLine(keys[0], faceId)] + ClientLines(faceId, keys[1..])
    else ClientLines(faceId, keys[1..])
  }

  /** The cubes a server goes through on the lines it reads. */
  function ServerStates(c: Coloring, lines: seq<seq<Byte>>, luck: nat -> Luck, n: nat): seq<Coloring>
    requires forall i | 0 <= i < |lines| :: WellFormedCommand(lines[i])
    decreases lines
  {
    if lines == [] then []
    else
      var c' := AfterCommand(c, lines[0], luck(n).Run());
      [c'] + ServerStates(c', lines[1..], luck, n + 1)
  }

  /** What the server reads from the relay is what the client sent. */
  lemma NetworkLines(faceId: int, keys: seq<int>)
    ensures Lines(Relayed(Concat(ClientLines(faceId, keys)))) == ClientLines(faceId, keys)
  {
    LinesThroughRelay(ClientLines(faceId, keys));
  }

  /** The cubes the server goes through when one client, its face variable holding `faceId`, types `keys`. */
  function NetworkStates(c: Coloring, faceId: int, keys: seq<int>, luck: nat -> Luck): seq<Coloring> {
    NetworkLines(faceId, keys);
    ServerStates(c, Lines(Relayed(Concat(ClientLines(faceId, keys)))), luck, 0)
  }

  lemma {:induction false} SameFaceSamePlay(c: Coloring, face: FaceId, keys: seq<int>, luck: nat -> Luck, n: nat)
    ensures ServerStates(c, ClientLines(face, keys), luck, n) == LocalStates(c, face, keys, luck, n)
    decreases keys
  {
    hide AfterKey, AfterCommand;
    if keys != [] && !IsQuitKey(keys[0]) {
      if IsFaceKey(keys[0]) {
        SameFaceSamePlay(c, keys[0] - DIGIT_ZERO, keys[1..], luck, n);
      } else if IsCommandKey(keys[0]) {
        var lines := ClientLines(face, keys);
        assert lines[1..] == ClientLines(face, keys[1..]);
        CommandMeansKey(c, keys[0], face, luck(n).Run());
        SameFaceSamePlay(AfterKey(c, keys[0], face, luck(n).Run()), face, keys[1..], luck, n + 1);
      } else {
        SameFaceSamePlay(c, face, keys[1..], luck, n);
      }
    }
  }

  /** No command key comes before the first face key (or before the session ends). */
  predicate SelectsFirst(keys: seq<int>) {
    keys == [] || IsQuitKey(keys[0]) || IsFaceKey(keys[0]) || (!IsCommandKey(keys[0]) && SelectsFirst(keys[1..]))
  }

  lemma {:induction false} StartFaceIrrelevant(faceId: int, keys: seq<int>)
    requires SelectsFirst(keys)
    ensures ClientLines(faceId, keys) == ClientLines(0, keys)
  {
    if keys != [] && !IsQuitKey(keys[0]) && !IsFaceKey(keys[0]) {
      StartFaceIrrelevant(faceId, keys[1..]);
    }
  }

  lemma {:induction false} AtMostOneLineEach(faceId: int, c: Coloring, face: FaceId, keys: seq<int>, luck: nat -> Luck,
                                             n: nat)
    ensures |ClientLines(faceId, keys)| <= |LocalStates(c, face, keys, luck, n)|
    ensures !(0 <= faceId < 6) && !SelectsFirst(keys) ==>
              |ClientLines(faceId, keys)| < |LocalStates(c, face, keys, luck, n)|
    decreases keys
  {
    hide AfterKey;
    if keys != [] && !IsQuitKey(keys[0]) {
      if IsFaceKey(keys[0]) {
        AtMostOneLineEach(keys[0] - DIGIT_ZERO, c, keys[0] - DIGIT_ZERO, keys[1..], luck, n);
      } else if IsCommandKey(keys[0]) {
        AtMostOneLineEach(faceId, AfterKey(c, keys[0], face, luck(n).Run()), face, keys[1..], luck, n + 1);
      } else {
        AtMostOneLineEach(faceId, c, face, keys[1..], luck, n);
      }
    }
  }

  lemma {:induction false} OneStatePerLine(c: Coloring, lines: seq<seq<Byte>>, luck: nat -> Luck, n: nat)
    requires forall i | 0 <= i < |lines| :: WellFormedCommand(lines[i])
    ensures |ServerStates(c, lines, luck, n)| == |lines|
    decreases lines
  {
    if lines != [] {
      OneStatePerLine(AfterCommand(c, lines[0], luck(n).Run()), lines[1..], luck, n + 1);
    }
  }

  ghost predicate PlaysAlike(faceId: int, keys: seq<int>) {
    forall c: Coloring, luck: nat -> Luck ::
      NetworkStates(c, faceId, keys, luck) == LocalStates(c, FACE_FRONT, keys, luck, 0)
  }

  predicate IsTurnKey(key: int) {
    key == KEY_A || key == KEY_D
  }

  /** No turn key comes before the first face key (or before the session ends). */
  predicate SelectsBeforeTurn(keys: seq<int>) {
    keys == [] || IsQuitKey(keys[0]) || IsFaceKey(keys[0]) || (!IsTurnKey(keys[0]) && SelectsBeforeTurn(keys[1..]))
  }

  lemma {:induction false} FirstFaceIrrelevant(c: Coloring, face: FaceId, keys: seq<int>, luck: nat -> Luck, n: nat)
    requires SelectsBeforeTurn(keys)
    ensures LocalStates(c, face, keys, luck, n) == LocalStates(c, FACE_FRONT, keys, luck, n)
    decreases keys
  {
    hide After, AfterRun;
    if keys != [] && !IsQuitKey(keys[0]) && !IsFaceKey(keys[0]) {
      if IsCommandKey(keys[0]) {
        FirstFaceIrrelevant(AfterKey(c, keys[0], face, luck(n).Run()), face, keys[1..], luck, n + 1);
      } else {
        FirstFaceIrrelevant(c, face, keys[1..], luck, n);
      }
    }
  }

  lemma SourcesDiffer(f: FaceId, d: int)
    requires f != FACE_FRONT
    ensures var s := Sticker(FACE_FRONT, SQUARE_UL); Source(Turn(f, d), s) != Source(Turn(FACE_FRONT, d), s)
  {}

  lemma IndexInjective(s: Sticker, r: Sticker)
    requires s.Index() == r.Index()
    ensures s == r
  {}

  /** Turning the front face never looks like turning another face. */
  lemma TurnsDiffer(run: seq<Turn>, f: FaceId, d: int)
    requires f != FACE_FRONT
    ensures After(AfterRun(Solved(), run), Turn(f, d)) != After(AfterRun(Solved(), run), Turn(FACE_FRONT, d))
  {
    hide After, Source, AfterRun, Solved;
    var t, u, s := Turn(f, d), Turn(FACE_FRONT, d), Sticker(FACE_FRONT, SQUARE_UL);
    AfterAppend(Solved(), run, t);
    AfterAppend(Solved(), run, u);
    AfterAppend(Identity(54), run, t);
    AfterAppend(Identity(54), run, u);
    SameColorsSamePermutation(run + [t], run + [u]);
    RunActs(Solved(), run);
    AfterAt(RunTable(run), t, s);
    AfterAt(RunTable(run), u, s);
    SourcesDiffer(f, d);
    if Source(t, s).Index() == Source(u, s).Index() {
      IndexInjective(Source(t, s), Source(u, s));
    }
  }

  lemma {:induction false} FirstFaceMatters(run: seq<Turn>, face: FaceId, keys: seq<int>, luck: nat -> Luck, n: nat)
    requires face != FACE_FRONT && !SelectsBeforeTurn(keys)
    ensures var c := AfterRun(Solved(), run);
            LocalStates(c, face, keys, luck, n) != LocalStates(c, FACE_FRONT, keys, luck, n)
    decreases keys
  {
    hide After, AfterRun, AfterKey, Solved;
    var c := AfterRun(Solved(), run);
    if IsTurnKey(keys[0]) {
      TurnKeysDiffer(run, face, keys[0], luck(n).Run());
      assert LocalStates(c, face, keys, luck, n)[0] == AfterKey(c, keys[0], face, luck(n).Run());
      assert LocalStates(c, FACE_FRONT, keys, luck, n)[0] == AfterKey(c, keys[0], FACE_FRONT, luck(n).Run());
    } else if IsCommandKey(keys[0]) {
      var next := SpaceKeepsRun(run, face, keys[0], luck(n).Run());
      var d := AfterRun(Solved(), next);
      FirstFaceMatters(next, face, keys[1..], luck, n + 1);
      assert LocalStates(c, face, keys, luck, n)[1..] == LocalStates(d, face, keys[1..], luck, n + 1);
      assert LocalStates(c, FACE_FRONT, keys, luck, n)[1..] == LocalStates(d, FACE_FRONT, keys[1..], luck, n + 1);
    } else {
      FirstFaceMatters(run, face, keys[1..], luck, n);
    }
  }

  lemma TurnKeysDiffer(run: seq<Turn>, face: FaceId, key: int, shuffled: seq<Turn>)
    requires face != FACE_FRONT && IsTurnKey(key)
    ensures var c := AfterRun(Solved(), run); AfterKey(c, key, face, shuffled) != AfterKey(c, key, FACE_FRONT, shuffled)
  {
    hide After, AfterRun, Solved;
    TurnsDiffer(run, face, 0);
    TurnsDiffer(run, face, 1);
  }

  lemma SpaceKeepsRun(run: seq<Turn>, face: FaceId, key: int, shuffled: seq<Turn>) returns (next: seq<Turn>)
    requires IsCommandKey(key) && !IsTurnKey(key)
    ensures AfterKey(AfterRun(Solved(), run), key, face, shuffled) == AfterRun(Solved(), next)
    ensures AfterKey(AfterRun(Solved(), run), key, FACE_FRONT, shuffled) == AfterRun(Solved(), next)
  {
    hide After;
    assert AfterRun(Solved(), []) == Solved();
    next := if AfterRun(Solved(), run) == Solved() then shuffled else [];
  }

  /** For which keys a client whose face variable starts as `faceId` plays the local game: any keys with the front
      face, no turn before the first face key with another face, no command at all with a number that is no face. */
  predicate StartsAlike(faceId: int, keys: seq<int>) {
    if faceId == FACE_FRONT then true else if 0 <= faceId < 6 then SelectsBeforeTurn(keys) else SelectsFirst(keys)
  }

  /** Networked play is local play for all cubes and all shuffles exactly when the two sessions start alike. */
  lemma PlaysAlikeExactly(faceId: int, keys: seq<int>)
    ensures PlaysAlike(faceId, keys) <==> StartsAlike(faceId, keys)
  {
    hide LocalStates, ServerStates, ClientLines, SelectsBeforeTurn, SelectsFirst;
    var luck: nat -> Luck := _ => ShuffleDraw(0, seq(30, _ => TurnDraw(0, 0)));
    NetworkLines(faceId, keys);
    if StartsAlike(faceId, keys) {
      forall c: Coloring, luck: nat -> Luck
        ensures NetworkStates(c, faceId, keys, luck) == LocalStates(c, FACE_FRONT, keys, luck, 0)
      {
        AlikeStates(c, faceId, keys, luck);
      }
    } else if PlaysAlike(faceId, keys) {
      assert NetworkStates(Solved(), faceId, keys, luck) == LocalStates(Solved(), FACE_FRONT, keys, luck, 0);
      UnlikeStates(faceId, keys, luck);
    }
  }

  lemma AlikeStates(c: Coloring, faceId: int, keys: seq<int>, luck: nat -> Luck)
    requires StartsAlike(faceId, keys)
    ensures ServerStates(c, ClientLines(faceId, keys), luck, 0) == LocalStates(c, FACE_FRONT, keys, luck, 0)
  {
    if 0 <= faceId < 6 {
      SameFaceSamePlay(c, faceId, keys, luck, 0);
      if faceId != FACE_FRONT {
        FirstFaceIrrelevant(c, faceId, keys, luck, 0);
      }
    } else {
      StartFaceIrrelevant(faceId, keys);
      SameFaceSamePlay(c, FACE_FRONT, keys, luck, 0);
    }
  }

  lemma UnlikeStates(faceId: int, keys: seq<int>, luck: nat -> Luck)
    requires !StartsAlike(faceId, keys)
    ensures ServerStates(Solved(), ClientLines(faceId, keys), luck, 0) !=
            LocalStates(Solved(), FACE_FRONT, keys, luck, 0)
  {
    hide ServerStates, LocalStates, ClientLines, SelectsFirst, SelectsBeforeTurn, After;
    if 0 <= faceId < 6 {
      SameFaceSamePlay(Solved(), faceId, keys, luck, 0);
      assert AfterRun(Solved(), []) == Solved();
      FirstFaceMatters([], faceId, keys, luck, 0);
    } else {
      OneStatePerLine(Solved(), ClientLines(faceId, keys), luck, 0);
      AtMostOneLineEach(faceId, Solved(), FACE_FRONT, keys, luck, 0);
    }
  }

  lemma {:induction false} FaceBeforeTurn(keys: seq<int>)
    requires SelectsFirst(keys)
    ensures SelectsBeforeTurn(keys)
  {
    if keys != [] && !IsQuitKey(keys[0]) && !IsFaceKey(keys[0]) {
      FaceBeforeTurn(keys[1..]);
    }
  }

  /** So it is local play whatever the face variable held to begin with exactly when the player selects a face before
      the first command. */
  lemma NetworkRefinesLocal(keys: seq<int>)
    ensures (forall faceId: int :: PlaysAlike(faceId, keys)) <==> SelectsFirst(keys)
  {
    hide PlaysAlike, SelectsBeforeTurn, SelectsFirst;
    if SelectsFirst(keys) {
      FaceBeforeTurn(keys);
    }
    forall faceId: int ensures PlaysAlike(faceId, keys) <==> StartsAlike(faceId, keys) {
      PlaysAlikeExactly(faceId, keys);
    }
    assert StartsAlike(6, keys) == SelectsFirst(keys);
  }

  /** The cube and the selected face after one key that does not quit. */
  function CubeAfterKey(c: Coloring, face: FaceId, key: int, draw: Luck): Coloring {
    if IsCommandKey(key) then AfterKey(c, key, face, draw.Run()) else c
  }

  function FaceAfterKey(face: FaceId, key: int): FaceId {
    if IsFaceKey(key) then key - DIGIT_ZERO else face
  }

  lemma LocalStep(c: Coloring, face: FaceId, keys: seq<int>, i: nat, luck: nat -> Luck, n: nat)
    requires i < |keys| && !IsQuitKey(keys[i])
    ensures var c' := CubeAfterKey(c, face, keys[i], luck(n));
            var command := IsCommandKey(keys[i]);
            LocalStates(c, face, keys[i..], luck, n) ==
            (if command then [c'] else []) +
            LocalStates(c', FaceAfterKey(face, keys[i]), keys[i + 1..], luck, if command then n + 1 else n)
  {
    hide AfterKey;
    assert keys[i..][0] == keys[i] && keys[i..][1..] == keys[i + 1..];
  }

  lemma LocalEnd(c: Coloring, face: FaceId, keys: seq<int>, luck: nat -> Luck, n: nat)
    requires keys == [] || IsQuitKey(keys[0])
    ensures LocalStates(c, face, keys, luck, n) == []
  {}

  /** The cube at the end of a session that starts with `first`. */
  function Last(first: Coloring, states: seq<Coloring>): Coloring {
    if states == [] then first else states[|states| - 1]
  }

  /** The number in the face variable after `keys`. */
  function FaceAfter(faceId: int, keys: seq<int>): (r: int)
    ensures 0 <= faceId < 6 ==> 0 <= r < 6
    decreases keys
  {
    if keys == [] then faceId else FaceAfter(if IsFaceKey(keys[0]) then keys[0] - DIGIT_ZERO else faceId, keys[1..])
  }

  /** Nothing after a `q` or a `Q` matters, and neither does anything itself. */
  lemma {:induction false} QuitEndsLocal(c: Coloring, face: FaceId, a: seq<int>, q: int, b: seq<int>,
                                         luck: nat -> Luck, n: nat)
    requires q == 113 || q == 81
    ensures LocalStates(c, face, a + [q] + b, luck, n) == LocalStates(c, face, a, luck, n)
    decreases a
  {
    hide AfterKey;
    if a == [] {
      assert [] + [q] + b == [q] + b;
    } else {
      assert (a + [q] + b)[0] == a[0] && (a + [q] + b)[1..] == a[1..] + [q] + b;
      if IsFaceKey(a[0]) {
        QuitEndsLocal(c, a[0] - DIGIT_ZERO, a[1..], q, b, luck, n);
      } else if IsCommandKey(a[0]) {
        QuitEndsLocal(AfterKey(c, a[0], face, luck(n).Run()), face, a[1..], q, b, luck, n + 1);
      } else {
        QuitEndsLocal(c, face, a[1..], q, b, luck, n);
      }
    }
  }

  lemma {:induction false} QuitEndsLines(faceId: int, a: seq<int>, q: int, b: seq<int>)
    requires q == 113 || q == 81
    ensures ClientLines(faceId, a + [q] + b) == ClientLines(faceId, a)
    decreases a
  {
    hide CommandLine;
    if a == [] {
      assert [] + [q] + b == [q] + b;
    } else {
      assert (a + [q] + b)[0] == a[0] && (a + [q] + b)[1..] == a[1..] + [q] + b;
      QuitEndsLines(if IsFaceKey(a[0]) then a[0] - DIGIT_ZERO else faceId, a[1..], q, b);
    }
  }

  /** No other key hides what comes after it: a session goes on where its first part has led. */
  lemma {:induction false} LocalGoesOn(c: Coloring, face: FaceId, a: seq<int>, b: seq<int>, luck: nat -> Luck, n: nat)
    requires forall k | 0 <= k < |a| :: a[k] != 113 && a[k] != 81
    ensures var states := LocalStates(c, face, a, luck, n);
            LocalStates(c, face, a + b, luck, n) ==
            states + LocalStates(Last(c, states), FaceAfter(face, a), b, luck, n + |states|)
    decreases a
  {
    hide AfterKey;
    if a == [] {
      assert a + b == b;
    } else {
      assert (a + b)[0] == a[0] && (a + b)[1..] == a[1..] + b;
      if IsFaceKey(a[0]) {
        LocalGoesOn(c, a[0] - DIGIT_ZERO, a[1..], b, luck, n);
      } else if IsCommandKey(a[0]) {
        var c' := AfterKey(c, a[0], face, luck(n).Run());
        LocalGoesOn(c', face, a[1..], b, luck, n + 1);
        assert LocalStates(c, face, a, luck, n) == [c'] + LocalStates(c', face, a[1..], luck, n + 1);
      } else {
        LocalGoesOn(c, face, a[1..], b, luck, n);
      }
    }
  }

  lemma {:induction false} LinesGoOn(faceId: int, a: seq<int>, b: seq<int>)
    requires forall k | 0 <= k < |a| :: a[k] != 113 && a[k] != 81
    ensures ClientLines(faceId, a + b) == ClientLines(faceId, a) + ClientLines(FaceAfter(faceId, a), b)
    decreases a
  {
    hide CommandLine;
    if a == [] {
      assert a + b == b;
    } else {
      assert (a + b)[0] == a[0] && (a + b)[1..] == a[1..] + b;
      LinesGoOn(if IsFaceKey(a[0]) then a[0] - DIGIT_ZERO else faceId, a[1..], b);
    }
  }

  /** What a single key does: a, d, space, the digits 0 to 5, and every other key. */
  lemma OneKey(c: Coloring, face: FaceId, key: int, luck: nat -> Luck, n: nat)
    ensures key == 97 ==> LocalStates(c, face, [key], luck, n) == [After(c, Turn(face, 1))]
    ensures key == 100 ==> LocalStates(c, face, [key], luck, n) == [After(c, Turn(face, 0))]
    ensures key == 32 && c != Solved() ==> LocalStates(c, face, [key], luck, n) == [Solved()]
    ensures key == 32 && c == Solved() ==>
              exists run: seq<Turn> ::
                && ShuffleMakes(run, 20, 30, luck(n).depth, luck(n).turns)
                && LocalStates(c, face, [key], luck, n) == [AfterRun(Solved(), run)]
    ensures key != 97 && key != 100 && key != 32 ==> LocalStates(c, face, [key], luck, n) == []
    ensures FaceAfter(face, [key]) == if 48 <= key <= 53 then key - 48 else face
  {
    hide After, AfterRun, ShuffleMakes;
    assert [key][1..] == [];
    DrawnRunFits(luck(n).depth, luck(n).turns, 20, 30);
  }

  /** The line a single key sends. */
  lemma OneLine(faceId: int, key: int)
    ensures 0 <= faceId < 6 && key == 97 ==> ClientLines(faceId, [key]) == [[48 + faceId, 49, 10]]
    ensures 0 <= faceId < 6 && key == 100 ==> ClientLines(faceId, [key]) == [[48 + faceId, 48, 10]]
    ensures 0 <= faceId < 6 && key == 32 ==> ClientLines(faceId, [key]) == [[48 + faceId, 50, 10]]
    ensures !(0 <= faceId < 6) || (key != 97 && key != 100 && key != 32) ==> ClientLines(faceId, [key]) == []
  {
    assert [key][1..] == [];
  }

  /** One turn of the key loop of the single-device program. */
  method PressKey(rubiksCube: Cube, currentFace: FaceId, input: int, draw: Luck) returns (after: Cube, face: FaceId)
    requires rubiksCube.Valid()
    modifies rubiksCube.Repr
    ensures after.Valid() && fresh(after.Repr - old(rubiksCube.Repr))
    ensures after.Colors() == CubeAfterKey(old(rubiksCube.Colors()), currentFace, input, draw)
    ensures face == FaceAfterKey(currentFace, input)
    ensures input == 97 ==> after.Colors() == After(old(rubiksCube.Colors()), Turn(currentFace, 1))
    ensures input == 100 ==> after.Colors() == After(old(rubiksCube.Colors()), Turn(currentFace, 0))
    ensures input == 32 && old(rubiksCube.Colors()) == Solved() ==>
              exists run: seq<Turn> ::
                ShuffleMakes(run, 20, 30, draw.depth, draw.turns) && after.Colors() == AfterRun(Solved(), run)
    ensures input == 32 && old(rubiksCube.Colors()) != Solved() ==> after.Colors() == Solved()
    ensures input != 97 && input != 100 && input != 32 ==> after.Colors() == old(rubiksCube.Colors())
    ensures face == if 48 <= input <= 53 then input - 48 else currentFace
  {
    hide After, AfterRun, ShuffleMakes;
    after, face := rubiksCube, currentFace;
    if input == KEY_A {
      rubiksCube.Rotate(currentFace, 1);
    } else if input == KEY_D {
      rubiksCube.Rotate(currentFace, 0);
    } else if IsFaceKey(input) {
      face := input - DIGIT_ZERO;
    } else if input == KEY_SPACE {
      var solved := rubiksCube.IsSolved();
      if solved {
        rubiksCube.Shuffle(MIN_DEPTH, MAX_DEPTH, draw.depth, draw.turns);
      } else {
        after := new Cube();
      }
    }
  }

  /** After `n` keys of a session the cubes so far are `states`, the last one is `c`, and `face` is selected. */
  ghost predicate Played(first: Coloring, keys: seq<int>, luck: nat -> Luck, n: int, states: seq<Coloring>,
                         c: Coloring, face: FaceId) {
    && 0 <= n <= |keys|
    && c == Last(first, states)
    && LocalStates(first, FACE_FRONT, keys, luck, 0) == states + LocalStates(c, face, keys[n..], luck, |states|)
  }

  lemma PlayedStart(first: Coloring, keys: seq<int>, luck: nat -> Luck)
    ensures Played(first, keys, luck, 0, [], first, FACE_FRONT)
  {
    assert keys[0..] == keys;
  }

  lemma PlayedEnd(first: Coloring, keys: seq<int>, luck: nat -> Luck, n: nat, states: seq<Coloring>, c: Coloring,
                  face: FaceId)
    requires Played(first, keys, luck, n, states, c, face) && (n == |keys| || (n < |keys| && IsQuitKey(keys[n])))
    ensures states == LocalStates(first, FACE_FRONT, keys, luck, 0) && c == Last(first, states)
  {
    LocalEnd(c, face, keys[n..], luck, |states|);
  }

  lemma PlayedStep(first: Coloring, keys: seq<int>, luck: nat -> Luck, n: nat, states: seq<Coloring>, c: Coloring,
                   face: FaceId)
    requires Played(first, keys, luck, n, states, c, face) && n < |keys| && !IsQuitKey(keys[n])
    ensures var c' := CubeAfterKey(c, face, keys[n], luck(|states|));
            var states' := if IsCommandKey(keys[n]) then states + [c'] else states;
            Played(first, keys, luck, n + 1, states', c', FaceAfterKey(face, keys[n]))
  {
    hide LocalStates, AfterKey, FaceAfterKey;
    LocalStep(c, face, keys, n, luck, |states|);
  }

  /** The key loop of the single-device program, from the cube it has shuffled. */
  method View(start: Cube, keys: seq<int>, luck: nat -> Luck) returns (rubiksCube: Cube, ghost states: seq<Coloring>)
    requires start.Valid()
    modifies start.Repr
    ensures states == LocalStates(old(start.Colors()), FACE_FRONT, keys, luck, 0)
    ensures forall i | 0 <= i < |keys| && (keys[i] == 113 || keys[i] == 81) ::
              states == LocalStates(old(start.Colors()), FACE_FRONT, keys[..i], luck, 0)
    ensures rubiksCube.Valid()
    ensures rubiksCube.Colors() == Last(old(start.Colors()), states)
  {
    hide Played, CubeAfterKey, FaceAfterKey, LocalStates;
    rubiksCube := start;
    states := [];
    var currentFace: FaceId := FACE_FRONT;
    var commands, n := 0, 0;
    ghost var first := start.Colors();
    PlayedStart(first, keys, luck);
    while n < |keys| && !IsQuitKey(keys[n])
      invariant 0 <= n <= |keys| && commands == |states|
      invariant rubiksCube.Valid() && fresh(rubiksCube.Repr - old(start.Repr))
      invariant Played(first, keys, luck, n, states, rubiksCube.Colors(), currentFace)
    {
      var input := keys[n];
      PlayedStep(first, keys, luck, n, states, rubiksCube.Colors(), currentFace);
      rubiksCube, currentFace := PressKey(rubiksCube, currentFace, input, luck(commands));
      if IsCommandKey(input) {
        states := states + [rubiksCube.Colors()];
        commands := commands + 1;
      }
      n := n + 1;
    }
    PlayedEnd(first, keys, luck, n, states, rubiksCube.Colors(), currentFace);
    forall i | 0 <= i < |keys| && (keys[i] == 113 || keys[i] == 81)
      ensures states == LocalStates(first, FACE_FRONT, keys[..i], luck, 0)
    {
      QuitEndsLocal(first, FACE_FRONT, keys[..i], keys[i], keys[i + 1..], luck, 0);
      assert keys[..i] + [keys[i]] + keys[i + 1..] == keys;
    }
  }

  lemma ClientStep(faceId: int, keys: seq<int>, i: nat)
    requires i < |keys| && !IsQuitKey(keys[i])
    ensures IsFaceKey(keys[i]) ==>
              ClientLines(faceId, keys[i..]) == ClientLines(keys[i] - DIGIT_ZERO, keys[i + 1..])
    ensures IsCommandKey(keys[i]) && 0 <= faceId < 6 ==>
              Concat(ClientLines(faceId, keys[i..])) ==
              CommandLine(keys[i], faceId) + Concat(ClientLines(faceId, keys[i + 1..]))
    ensures !IsFaceKey(keys[i]) && !(IsCommandKey(keys[i]) && 0 <= faceId < 6) ==>
              ClientLines(faceId, keys[i..]) == ClientLines(faceId, keys[i + 1..])
  {
    assert keys[i..][0] == keys[i] && keys[i..][1..] == keys[i + 1..];
  }

  /** The key thread of a client: what it writes to its socket. */
  method ListenToCurses(faceId: int, keys: seq<int>) returns (socketWrite: seq<Byte>)
    ensures socketWrite == Concat(ClientLines(faceId, keys))
    ensures forall i | 0 <= i < |keys| && (keys[i] == 113 || keys[i] == 81) ::
              socketWrite == Concat(ClientLines(faceId, keys[..i]))
  {
    hide ClientLines, Concat, CommandLine, Fputs;
    var cubeFaceId := faceId;
    var msg := new Byte[N_CHARACTERS_TO_ENCODE_MOVE];
    socketWrite := [];
    var n := 0;
    assert keys[0..] == keys;
    while n < |keys| && !IsQuitKey(keys[n])
      invariant 0 <= n <= |keys|
      invariant Concat(ClientLines(faceId, keys)) == socketWrite + Concat(ClientLines(cubeFaceId, keys[n..]))
    {
      var input := keys[n];
      ClientStep(cubeFaceId, keys, n);
      if IsCommandKey(input) {
        var status := EncodeUserInput(input, cubeFaceId, msg);
        if status == 0 {
          socketWrite := socketWrite + Fputs(msg[..]);
        }
      } else if IsFaceKey(input) {
        cubeFaceId := input - DIGIT_ZERO;
      }
      n := n + 1;
    }
    ClientEnd(cubeFaceId, keys[n..]);
    forall i | 0 <= i < |keys| && (keys[i] == 113 || keys[i] == 81)
      ensures ClientLines(faceId, keys) == ClientLines(faceId, keys[..i])
    {
      QuitEndsLines(faceId, keys[..i], keys[i], keys[i + 1..]);
      assert keys[..i] + [keys[i]] + keys[i + 1..] == keys;
    }
  }

  lemma ClientEnd(faceId: int, keys: seq<int>)
    requires keys == [] || IsQuitKey(keys[0])
    ensures Concat(ClientLines(faceId, keys)) == []
  {}

  lemma ServerStep(c: Coloring, stream: seq<Byte>, luck: nat -> Luck, n: nat)
    requires stream != [] && forall i | 0 <= i < |Lines(stream)| :: WellFormedCommand(Lines(stream)[i])
    ensures WellFormedCommand(Line(stream))
    ensures forall i | 0 <= i < |Lines(AfterLine(stream))| :: WellFormedCommand(Lines(AfterLine(stream))[i])
    ensures var c' := AfterCommand(c, Line(stream), luck(n).Run());
            ServerStates(c, Lines(stream), luck, n) == [c'] + ServerStates(c', Lines(AfterLine(stream)), luck, n + 1)
  {
    hide AfterCommand, Line, AfterLine, WellFormedCommand;
    assert Lines(stream)[0] == Line(stream) && Lines(stream)[1..] == Lines(AfterLine(stream));
  }

  lemma ServerEnd(c: Coloring, luck: nat -> Luck, n: nat)
    ensures Lines([]) == [] && ServerStates(c, [], luck, n) == []
  {}

  /** The loop of a server thread over the lines of its pipe. */
  method ListenToPipe(pipe: seq<Byte>, globalCubeState: Cube, luck: nat -> Luck) returns (ghost states: seq<Coloring>)
    requires globalCubeState.Valid()
    requires forall i | 0 <= i < |Lines(pipe)| :: WellFormedCommand(Lines(pipe)[i])
    modifies globalCubeState.Repr
    ensures globalCubeState.Valid()
    ensures states == ServerStates(old(globalCubeState.Colors()), Lines(pipe), luck, 0)
    ensures globalCubeState.Colors() == Last(old(globalCubeState.Colors()), states)
  {
    hide AfterCommand, ServerStates, Line, AfterLine, Lines, WellFormedCommand;
    states := [];
    var rest := pipe;
    var commands := 0;
    ghost var first := globalCubeState.Colors();
    while rest != []
      invariant commands >= 0 && globalCubeState.Valid() && fresh(globalCubeState.Repr - old(globalCubeState.Repr))
      invariant globalCubeState.Colors() == Last(first, states)
      invariant forall i | 0 <= i < |Lines(rest)| :: WellFormedCommand(Lines(rest)[i])
      invariant ServerStates(first, Lines(pipe), luck, 0) ==
                states + ServerStates(globalCubeState.Colors(), Lines(rest), luck, commands)
      decreases |rest|
    {
      ServerStep(globalCubeState.Colors(), rest, luck, commands);
      var draw := luck(commands);
      DecodeUserInput(Line(rest), globalCubeState, draw.depth, draw.turns);
      states := states + [globalCubeState.Colors()];
      commands := commands + 1;
      rest := AfterLine(rest);
    }
    ServerEnd(globalCubeState.Colors(), luck, commands);
  }

}
