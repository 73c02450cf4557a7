/** One player on the network: the transition system goes through the cubes of the single-device game. */
module Sessions {
  import opened Geometry
  import opened Turns
  import opened Runs
  import opened Bytes
  import opened Reachability
  import opened Shuffling
  import opened Commands
  import opened Play
  import opened Server
  import opened ServerInvariants
  import opened ServerTheorems
  import opened ReachableCubes
  import Screen

  predicate Running(keys: seq<int>) {
    forall k | 0 <= k < |keys| :: !IsQuitKey(keys[k])
  }

  lemma {:induction false} FaceAppend(face: FaceId, keys: seq<int>, key: int)
    ensures FaceAfter(face, keys + [key]) == FaceAfterKey(FaceAfter(face, keys), key)
    decreases keys
  {
    if keys != [] {
      assert (keys + [key])[1..] == keys[1..] + [key];
      FaceAppend(FaceAfterKey(face, keys[0]), keys[1..], key);
    }
  }

  lemma {:induction false} LinesAppend(face: FaceId, keys: seq<int>, key: int)
    requires Running(keys) && !IsQuitKey(key)
    ensures ClientLines(face, keys + [key]) ==
            ClientLines(face, keys) + if IsCommandKey(key) then [CommandLine(key, FaceAfter(face, keys))] else []
    decreases keys
  {
    hide CommandLine;
    if keys == [] {
      assert [key][1..] == [];
    } else {
      assert (keys + [key])[1..] == keys[1..] + [key];
      LinesAppend(FaceAfterKey(face, keys[0]), keys[1..], key);
    }
  }

  /** What a client has sent and which face it has selected follow from the keys pressed on it. */
  predicate KeysExplain(c: Client) {
    && Running(c.keys)
    && c.sent == ClientLines(c.startFace, c.keys)
    && c.screen.faceId == FaceAfter(c.startFace, c.keys)
  }

  predicate KeyInv(s: System) {
    forall i | 0 <= i < 6 :: KeysExplain(s.clients[i])
  }

  lemma CommandPressed(c: Client, key: int, line: CommandText, d: Client)
    requires KeysExplain(c) && IsCommandKey(key) && line == CommandLine(key, c.screen.faceId)
    requires d.startFace == c.startFace && d.keys == c.keys + [key] && d.sent == c.sent + [line]
    requires d.screen == c.screen
    ensures KeysExplain(d)
  {
    hide ClientLines, FaceAfter, CommandLine;
    LinesAppend(c.startFace, c.keys, key);
    FaceAppend(c.startFace, c.keys, key);
  }

  lemma FacePressed(c: Client, f: FaceId, d: Client)
    requires KeysExplain(c) && d.startFace == c.startFace && d.keys == c.keys + [DIGIT_ZERO + f] && d.sent == c.sent
    requires d.screen.faceId == f
    ensures KeysExplain(d)
  {
    hide ClientLines, FaceAfter, CommandLine;
    LinesAppend(c.startFace, c.keys, DIGIT_ZERO + f);
    FaceAppend(c.startFace, c.keys, DIGIT_ZERO + f);
  }

  lemma KeyStep(s: System, a: Action)
    requires KeyInv(s) && Enabled(s, a)
    ensures KeyInv(Step(s, a))
  {
    hide AfterCommand, Fputs, ClientLines, FaceAfter, CommandLine, Running;
    OneClientChanges(s, a);
    var i := ClientOf(s, a);
    var c, d := s.clients[i], Step(s, a).clients[i];
    assert KeysExplain(c);
    match a {
      case PressCommand(_, key) => CommandPressed(c, key, d.sent[|c.sent|], d);
      case OnScreen(_, action) =>
        if action.ChooseFace? {
          FacePressed(c, action.face, d);
        } else {
          assert d.keys == c.keys;
        }
      case _ =>
    }
  }

  lemma {:induction false} RunKeys(s: System, actions: seq<Action>, r: System)
    requires KeyInv(s) && RunsFrom(s, actions, r)
    ensures KeyInv(r)
    decreases actions
  {
    hide Step, Enabled, KeyInv;
    if actions != [] {
      KeyStep(s, actions[0]);
      RunKeys(Step(s, actions[0]), actions[1..], r);
    }
  }

  lemma ReachableKeys(s: System)
    requires Reachable(s)
    ensures KeyInv(s)
  {
    var s0, actions :| Initial(s0) && RunsFrom(s0, actions, s);
    forall i | 0 <= i < 6 ensures KeysExplain(s0.clients[i]) {
      assert InitialClient(s0.clients[i]);
    }
    RunKeys(s0, actions, s);
  }

  /** Draws that make a shuffle come out as `run`. */
  function DrawFor(run: seq<Turn>): Luck {
    if IsShuffle(run, MIN_DEPTH, MAX_DEPTH) then
      ShuffleDraw(|run| - MIN_DEPTH, seq(MAX_DEPTH, i requires 0 <= i =>
        if i < |run| then TurnDraw(run[i].face, run[i].direction) else TurnDraw(0, 0)))
    else ShuffleDraw(0, seq(MAX_DEPTH, _ => TurnDraw(0, 0)))
  }

  lemma DrawForRun(run: seq<Turn>)
    requires IsShuffle(run, MIN_DEPTH, MAX_DEPTH)
    ensures DrawFor(run).Run() == run
  {
    hide Depth;
    DepthInRange(|run| - MIN_DEPTH, MIN_DEPTH, MAX_DEPTH);
  }

  function LuckOf(commits: seq<Commit>): nat -> Luck {
    (n: nat) => DrawFor(if n < |commits| then commits[n].shuffled else [])
  }

  lemma {:induction false} StatesConcat(c: Coloring, a: seq<CommandText>, b: seq<CommandText>, luck: nat -> Luck,
                                        n: nat)
    ensures var states := ServerStates(c, a, luck, n);
            |states| == |a| &&
            ServerStates(c, a + b, luck, n) == states + ServerStates(Last(c, states), b, luck, n + |a|)
    decreases a
  {
    hide AfterCommand;
    if a == [] {
      assert a + b == b;
    } else {
      assert (a + b)[0] == a[0] && (a + b)[1..] == a[1..] + b;
      var c' := AfterCommand(c, a[0], luck(n).Run());
      StatesConcat(c', a[1..], b, luck, n + 1);
      var first, rest := ServerStates(c, a, luck, n), ServerStates(c', a[1..], luck, n + 1);
      assert first == [c'] + rest && Last(c, first) == Last(c', rest);
    }
  }

  /** The server's log, replayed, ends where the lines in it lead. */
  lemma {:induction false} ReplayStates(commits: seq<Commit>, luck: nat -> Luck)
    requires forall k | 0 <= k < |commits| :: luck(k).Run() == commits[k].shuffled
    ensures Last(Solved(), ServerStates(Solved(), Texts(commits), luck, 0)) == Replay(commits)
  {
    hide AfterCommand, Solved;
    if commits != [] {
      var m := |commits| - 1;
      ReplayStates(commits[..m], luck);
      StatesConcat(Solved(), Texts(commits[..m]), [commits[m].line], luck, 0);
      assert Texts(commits) == Texts(commits[..m]) + [commits[m].line];
      assert [commits[m].line][1..] == [];
    }
  }

  lemma {:induction false} OnlyLines(commits: seq<Commit>, i: nat)
    requires forall k | 0 <= k < |commits| :: commits[k].client == i
    ensures LinesOf(commits, i) == Texts(commits)
  {
    if commits != [] {
      var m := |commits| - 1;
      OnlyLines(commits[..m], i);
      assert Texts(commits) == Texts(commits[..m]) + [commits[m].line];
    }
  }

  /** Nobody but client `i` has sent anything. */
  predicate Alone(s: System, i: nat) {
    forall j | 0 <= j < 6 && j != i :: s.clients[j].sent == []
  }

  lemma AllByOne(s: System, i: nat)
    requires Reachable(s) && i < 6 && Alone(s, i)
    ensures Texts(s.commits) <= s.clients[i].sent
    ensures forall k | 0 <= k < |s.commits| :: IsShuffle(s.commits[k].shuffled, MIN_DEPTH, MAX_DEPTH)
  {
    hide IsShuffle, LinesOf;
    ReachableHolds(s);
    forall k: nat | k < |s.commits| ensures s.commits[k].client == i {
      LineKept(s.commits, k);
      ClientOrder(s, s.commits[k].client);
    }
    OnlyLines(s.commits, i);
    ClientOrder(s, i);
  }

  lemma PrefixStates(c: Coloring, lines: seq<CommandText>, all: seq<CommandText>, luck: nat -> Luck)
    requires lines <= all
    ensures |lines| <= |ServerStates(c, all, luck, 0)|
    ensures ServerStates(c, all, luck, 0)[..|lines|] == ServerStates(c, lines, luck, 0)
  {
    hide AfterCommand, ServerStates;
    assert all == lines + all[|lines|..];
    StatesConcat(c, lines, all[|lines|..], luck, 0);
  }

  /** A player alone on the network plays the single-device game: outside a critical section the shared cube is the
      cube that the keys pressed so far lead to there, as far as their commands have been carried out, for the same
      outcomes of the shuffles. */
  lemma OnePlayer(s: System, i: nat)
    requires Reachable(s) && !InFlux(s) && i < 6 && Alone(s, i)
    requires StartsAlike(s.clients[i].startFace, s.clients[i].keys)
    ensures exists luck: nat -> Luck ::
              var states := LocalStates(Solved(), FACE_FRONT, s.clients[i].keys, luck, 0);
              |s.commits| <= |states| && s.cube == Last(Solved(), states[..|s.commits|])
  {
    hide Reachable, AfterCommand, ServerStates, LocalStates, ClientLines, StartsAlike, IsShuffle, Replay, Alone;
    var c, luck := s.clients[i], LuckOf(s.commits);
    ReachableHolds(s);
    ReachableKeys(s);
    assert KeysExplain(c);
    AllByOne(s, i);
    forall k | 0 <= k < |s.commits| ensures luck(k).Run() == s.commits[k].shuffled {
      DrawForRun(s.commits[k].shuffled);
    }
    ReplayStates(s.commits, luck);
    AlikeStates(Solved(), c.startFace, c.keys, luck);
    PrefixStates(Solved(), Texts(s.commits), c.sent, luck);
    var states := LocalStates(Solved(), FACE_FRONT, c.keys, luck, 0);
    assert states == ServerStates(Solved(), c.sent, luck, 0);
    assert |Texts(s.commits)| == |s.commits|;
    assert s.cube == Last(Solved(), states[..|s.commits|]);
  }

  /** One more key pressed on client `i`, whatever everybody else is doing. */
  lemma TypeKey(s: System, i: nat, key: int) returns (r: System)
    requires Reachable(s) && i < 6 && (48 <= key <= 53 || key == 97 || key == 100 || key == 32)
    ensures Reachable(r) && r.cube == s.cube && r.commits == s.commits && OthersSame(s, r, i)
    ensures r.clients[i].startFace == s.clients[i].startFace && r.clients[i].keys == s.clients[i].keys + [key]
  {
    hide Reachable, CommandLine;
    var t := s;
    if s.clients[i].screen.keyboard.FaceChosen? {
      StepReachable(s, OnScreen(i, Screen.KeyPost));
      t := Step(s, OnScreen(i, Screen.KeyPost));
      assert s.clients[i].keys + [] == s.clients[i].keys;
    }
    var a := if IsFaceKey(key) then OnScreen(i, Screen.ChooseFace(key - DIGIT_ZERO)) else PressCommand(i, key);
    StepReachable(t, a);
    r := Step(t, a);
  }

  lemma {:induction false} TypeKeys(s: System, i: nat, keys: seq<int>) returns (r: System)
    requires Reachable(s) && i < 6
    requires forall k | 0 <= k < |keys| :: 48 <= keys[k] <= 53 || keys[k] == 97 || keys[k] == 100 || keys[k] == 32
    ensures Reachable(r) && r.cube == s.cube && r.commits == s.commits && OthersSame(s, r, i)
    ensures r.clients[i].startFace == s.clients[i].startFace && r.clients[i].keys == s.clients[i].keys + keys
    decreases |keys|
  {
    hide Reachable;
    if keys == [] {
      r := s;
    } else {
      var t := TypeKey(s, i, keys[0]);
      r := TypeKeys(t, i, keys[1..]);
      assert s.clients[i].keys + [keys[0]] + keys[1..] == s.clients[i].keys + keys;
    }
  }

  /** A player is never kept waiting: from every reachable state, accepted or not, any keys can be typed before anything
      is done about them, and the lines they stand for are sent. */
  lemma TypeAhead(s: System, i: nat, keys: seq<int>) returns (r: System)
    requires Reachable(s) && i < 6
    requires forall k | 0 <= k < |keys| :: 48 <= keys[k] <= 53 || keys[k] == 97 || keys[k] == 100 || keys[k] == 32
    ensures Reachable(r) && r.cube == s.cube && r.commits == s.commits && OthersSame(s, r, i)
    ensures r.clients[i].keys == s.clients[i].keys + keys
    ensures r.clients[i].sent == s.clients[i].sent + ClientLines(s.clients[i].screen.faceId, keys)
  {
    hide Reachable, ClientLines, FaceAfter;
    r := TypeKeys(s, i, keys);
    ReachableKeys(s);
    ReachableKeys(r);
    assert KeysExplain(s.clients[i]) && KeysExplain(r.clients[i]);
    LinesGoOn(s.clients[i].startFace, s.clients[i].keys, keys);
  }

}
