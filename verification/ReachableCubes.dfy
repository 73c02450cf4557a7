/** What the players can make of the server's cube: states at rest that show any given lawful cube. */
module ReachableCubes {
  import opened Geometry
  import opened Turns
  import opened Runs
  import opened Bytes
  import opened CubeLaws
  import opened Cubies
  import opened Reachability
  import opened Solvability
  import opened Shuffling
  import opened Commands
  import opened Server
  import opened ServerInvariants
  import opened ServerTheorems
  import opened Convergence
  import Screen

  lemma {:induction false} RunAppend(s: System, actions: seq<Action>, r: System, a: Action)
    requires RunsFrom(s, actions, r) && Enabled(r, a)
    ensures RunsFrom(s, actions + [a], Step(r, a))
    decreases actions
  {
    hide Step, Enabled;
    if actions == [] {
      assert [a][1..] == [];
    } else {
      assert (actions + [a])[1..] == actions[1..] + [a];
      RunAppend(Step(s, actions[0]), actions[1..], r, a);
    }
  }

  lemma StepReachable(s: System, a: Action)
    requires Reachable(s) && Enabled(s, a)
    ensures Reachable(Step(s, a))
  {
    hide Step, Enabled, Initial, RunsFrom;
    var s0, actions :| Initial(s0) && RunsFrom(s0, actions, s);
    RunAppend(s0, actions, s, a);
  }

  /** No command is on its way. */
  predicate Quiet(s: System) {
    !s.mutex.HeldByHandler? && forall i | 0 <= i < 6 :: UpQueue(s.clients[i]) == [] && s.clients[i].handler.Reading?
  }

  /** The same keys have been pressed on a client and the same commands sent, and the same face is selected. */
  predicate SamePlayer(c: Client, d: Client) {
    d.startFace == c.startFace && d.keys == c.keys && d.sent == c.sent && d.screen.faceId == c.screen.faceId
  }

  /** Nobody but player `i` has done anything between `s` and `r`. */
  predicate OthersSame(s: System, r: System, i: nat) {
    r.connected == s.connected && forall j | 0 <= j < 6 && j != i :: SamePlayer(s.clients[j], r.clients[j])
  }

  /** What an internal step leaves alone while no command is on its way. */
  predicate SameGame(s: System, r: System) {
    r.cube == s.cube && r.connected == s.connected && forall j | 0 <= j < 6 :: SamePlayer(s.clients[j], r.clients[j])
  }

  lemma QuietStep(s: System, a: Action)
    requires Quiet(s) && Enabled(s, a) && Internal(a)
    ensures Quiet(Step(s, a)) && SameGame(s, Step(s, a))
  {
    hide AfterCommand, Fputs, UpQueue;
    OneClientChanges(s, a);
    QuietLocal(s, a);
  }

  lemma QuietLocal(s: System, a: Action)
    requires Quiet(s) && Enabled(s, a) && Internal(a) && ClientOf(s, a) < 6
    ensures var c, d, r := s.clients[ClientOf(s, a)], Step(s, a).clients[ClientOf(s, a)], Step(s, a);
            && UpQueue(d) == [] && d.handler.Reading? && SamePlayer(c, d)
            && r.cube == s.cube && r.connected == s.connected && !r.mutex.HeldByHandler?
  {
    hide AfterCommand, Fputs;
    assert UpQueue(s.clients[ClientOf(s, a)]) == [];
  }

  /** Left alone, the system comes to rest without losing what has been played. */
  lemma {:induction false} Settle(s: System) returns (r: System)
    requires Reachable(s) && Quiet(s)
    ensures Reachable(r) && AtRest(r) && Quiet(r) && SameGame(s, r)
    decreases Work(s)
  {
    hide Reachable, Quiet, Work, Step, Enabled;
    if AtRest(s) {
      r := s;
    } else {
      var a :| Internal(a) && Enabled(s, a);
      StepWorks(s, a);
      StepReachable(s, a);
      QuietStep(s, a);
      r := Settle(Step(s, a));
    }
  }

  lemma RestFacts(s: System, i: nat)
    requires Reachable(s) && AtRest(s) && i < 6
    ensures s.mutex.Free? && s.clients[i].screen.keyboard.AtKeyboard?
  {
    hide Reachable, AtRest, CountInv, MarkInv, UpInv, SlotInv, LogInv, PostInv, Screen.Inv;
    ReachableHolds(s);
    MutexRests(s);
    ScreenRests(s, i);
  }

  /** Any player can select any face. */
  lemma SelectFace(s: System, i: nat, f: FaceId) returns (r: System)
    requires Reachable(s) && AtRest(s) && Quiet(s) && i < 6
    ensures Reachable(r) && AtRest(r) && Quiet(r) && r.cube == s.cube && OthersSame(s, r, i)
    ensures r.clients[i].screen.faceId == f && r.clients[i].keys == s.clients[i].keys + [48 + f]
    ensures r.clients[i].sent == s.clients[i].sent
  {
    hide Reachable, AtRest;
    RestFacts(s, i);
    var a := OnScreen(i, Screen.ChooseFace(f));
    StepReachable(s, a);
    r := Settle(Step(s, a));
  }

  /** A command that any accepted client presses at rest reaches its server thread, which takes the mutex. */
  lemma TakeCommand(s: System, i: nat, key: int) returns (r: System)
    requires Reachable(s) && AtRest(s) && Quiet(s) && i < 6 && i < s.connected
    requires key == 97 || key == 100 || key == 32
    ensures Reachable(r) && OthersSame(s, r, i) && r.cube == s.cube && r.commits == s.commits
    ensures r.mutex == HeldByHandler(i)
    ensures var c, d, line := s.clients[i], r.clients[i], CommandLine(key, s.clients[i].screen.faceId);
            && d.keys == c.keys + [key] && d.sent == c.sent + [line] && d.screen == c.screen
            && d.handler == Working(line, s.cube, 1620) && d.upPipe == d.upSocket == []
    ensures forall j | 0 <= j < 6 && j != i :: r.clients[j] == s.clients[j]
  {
    hide Reachable, AtRest, Screen.Enabled, Screen.Step, CommandLine;
    RestFacts(s, i);
    assert UpQueue(s.clients[i]) == [];
    StepReachable(s, PressCommand(i, key));
    var s1 := Step(s, PressCommand(i, key));
    StepReachable(s1, RelayUp(i));
    var s2 := Step(s1, RelayUp(i));
    StepReachable(s2, ReadLine(i));
    var s3 := Step(s2, ReadLine(i));
    StepReachable(s3, LockByHandler(i));
    r := Step(s3, LockByHandler(i));
  }

  /** The server thread that has the mutex carries out its command, with any shuffle the generator may ask for. */
  lemma FinishCommand(s: System, i: nat, shuffled: seq<Turn>) returns (r: System)
    requires Reachable(s) && i < 6 && s.clients[i].handler.Working? && IsShuffle(shuffled, 20, 30)
    ensures Reachable(r) && r.connected == s.connected && r.mutex == Free
    ensures r.cube == AfterCommand(s.clients[i].handler.before, s.clients[i].handler.line, shuffled)
    ensures r.clients == s.clients[i := s.clients[i].(handler := Reading)]
  {
    hide Reachable, AfterCommand, IsShuffle, Screen.Enabled, Screen.Step;
    StepReachable(s, Complete(i, shuffled));
    var s1 := Step(s, Complete(i, shuffled));
    StepReachable(s1, UnlockByHandler(i));
    var s2 := Step(s1, UnlockByHandler(i));
    StepReachable(s2, Post(i));
    r := Step(s2, Post(i));
  }

  /** A command that any accepted client presses at rest is carried out. */
  lemma JourneyWorks(s: System, i: nat, key: int, shuffled: seq<Turn>) returns (r: System)
    requires Reachable(s) && AtRest(s) && Quiet(s) && i < 6 && i < s.connected
    requires (key == 97 || key == 100 || key == 32) && IsShuffle(shuffled, 20, 30)
    ensures Reachable(r) && Quiet(r) && OthersSame(s, r, i)
    ensures r.clients[i].keys == s.clients[i].keys + [key]
    ensures r.clients[i].sent == s.clients[i].sent + [CommandLine(key, s.clients[i].screen.faceId)]
    ensures r.cube == AfterCommand(s.cube, CommandLine(key, s.clients[i].screen.faceId), shuffled)
  {
    hide Reachable, AtRest, AfterCommand, IsShuffle, CommandLine;
    var taken := TakeCommand(s, i, key);
    r := FinishCommand(taken, i, shuffled);
  }

  /** Any accepted client can make any turn from a state at rest, which leads to a state at rest again. */
  lemma PlayTurn(s: System, i: nat, t: Turn) returns (r: System)
    requires Reachable(s) && AtRest(s) && Quiet(s) && i < 6 && i < s.connected
    ensures Reachable(r) && AtRest(r) && Quiet(r) && OthersSame(s, r, i) && r.cube == After(s.cube, t)
  {
    hide Reachable, AtRest, Quiet, After, AfterCommand;
    var key := if t.Clockwise() then KEY_D else KEY_A;
    var chosen := SelectFace(s, i, t.face);
    var done := JourneyWorks(chosen, i, key, SOME_SHUFFLE);
    r := Settle(done);
    if t.Clockwise() {
      assert t == Turn(t.face, 0);
    } else {
      AfterEither(s.cube, t);
    }
    CommandMeansKey(s.cube, key, t.face, SOME_SHUFFLE);
  }

  /** The space key of any accepted client: from a solved cube it leads to every cube that 20 to 30 turns in the two
      directions can make, from an unsolved one to the solved cube. */
  lemma PlaySpace(s: System, i: nat, shuffled: seq<Turn>) returns (r: System)
    requires Reachable(s) && AtRest(s) && Quiet(s) && i < 6 && i < s.connected
    requires 20 <= |shuffled| <= 30
    requires forall k | 0 <= k < |shuffled| :: shuffled[k].direction == 0 || shuffled[k].direction == 1
    ensures Reachable(r) && AtRest(r) && Quiet(r) && OthersSame(s, r, i)
    ensures r.clients[i].keys == s.clients[i].keys + [32]
    ensures s.cube == Solved() ==> r.cube == AfterRun(Solved(), shuffled)
    ensures s.cube != Solved() ==> r.cube == Solved()
  {
    hide Reachable, AtRest, Quiet, AfterCommand, AfterRun;
    var done := JourneyWorks(s, i, 32, shuffled);
    r := Settle(done);
    CommandMeansKey(s.cube, 32, s.clients[i].screen.faceId, shuffled);
  }

  /** The system can start with any number in the face variable of each client. */
  lemma Start(faces: seq<FaceId>) returns (s: System)
    requires |faces| == 6
    ensures Initial(s) && Reachable(s) && forall i | 0 <= i < 6 :: s.clients[i].startFace == faces[i]
  {
    var clients: Clients := seq(6, i requires 0 <= i < 6 =>
      NEW_CLIENT.(startFace := faces[i], screen := NEW_CLIENT.screen.(faceId := faces[i])));
    s := System(clients, 0, Solved(), Free, 0, Waiting, [], 0, 0, [], []);
    assert RunsFrom(s, [], s);
  }

  predicate Untouched(s: System, i: nat) {
    forall j | 0 <= j < 6 && j != i :: s.clients[j].keys == [] && s.clients[j].sent == []
  }

  /** Any number of clients from none to six can be accepted before anybody does anything. */
  lemma Accepted(faces: seq<FaceId>, n: nat) returns (r: System)
    requires |faces| == 6 && n <= 6
    ensures Reachable(r) && AtRest(r) && Quiet(r) && r.connected == n && r.cube == Solved()
    ensures forall j | 0 <= j < 6 ::
              r.clients[j].startFace == faces[j] && r.clients[j].keys == [] && r.clients[j].sent == []
  {
    hide Reachable, AtRest;
    var start := Start(faces);
    var s := start;
    while s.connected < n
      invariant Reachable(s) && s == start.(connected := s.connected) && s.connected <= n
      decreases n - s.connected
    {
      StepReachable(s, Accept);
      s := Step(s, Accept);
    }
    r := Settle(s);
  }

  /** One player alone, in any slot and with any number of clients accepted, can play any run. */
  lemma {:induction false} PlayRun(faces: seq<FaceId>, n: nat, i: nat, run: seq<Turn>) returns (r: System)
    requires |faces| == 6 && i < n <= 6
    ensures Reachable(r) && AtRest(r) && Quiet(r) && r.connected == n && r.cube == AfterRun(Solved(), run)
    ensures Untouched(r, i)
    decreases |run|
  {
    hide Reachable, AtRest, Quiet, After;
    if run == [] {
      r := Accepted(faces, n);
    } else {
      var s := PlayRun(faces, n, i, run[..|run| - 1]);
      r := PlayTurn(s, i, run[|run| - 1]);
    }
  }

  /** The system rests on coloring `c` with `n` clients accepted and no key pressed on any but client `i`. */
  ghost predicate RestsOn(s: System, n: nat, i: nat, c: Coloring) {
    Reachable(s) && AtRest(s) && s.connected == n && Untouched(s, i) && s.cube == c
  }

  /** Every accepted player, alone, can bring the server to rest on exactly the lawful cubes. */
  lemma PlayerReachesLawful(n: nat, i: nat, c: Coloring)
    requires i < n <= 6
    ensures (exists s: System :: RestsOn(s, n, i, c)) <==> (exists x: Cubies :: Lawful(x) && c == Painted(x))
  {
    hide Sum, Painted, CubeOf, Reachable, AtRest, AfterRun, InFlux;
    if s: System :| RestsOn(s, n, i, c) {
      RestCalm(s);
      CubeStaysLawful(s);
    }
    if x: Cubies :| Lawful(x) && c == Painted(x) {
      LawfulIsAttainable(x);
      var run :| CubeOf(run) == x;
      SolvedAfterRun(run);
      var s := PlayRun([0, 0, 0, 0, 0, 0], n, i, run);
      assert RestsOn(s, n, i, c);
    }
  }

  lemma RestCalm(s: System)
    requires Reachable(s) && AtRest(s)
    ensures !InFlux(s)
  {
    hide Reachable, AtRest;
    RestFacts(s, 0);
  }

  /** The system rests on coloring `c` with six clients. */
  ghost predicate AllRestOn(s: System, c: Coloring) {
    Reachable(s) && AtRest(s) && s.connected == 6 && s.cube == c
  }

  /** Six players together cannot do more than that. */
  lemma ServerReachesLawful(c: Coloring)
    ensures (exists s: System :: AllRestOn(s, c)) <==> (exists x: Cubies :: Lawful(x) && c == Painted(x))
  {
    hide Lawful, Painted, Reachable, AtRest, InFlux;
    PlayerReachesLawful(6, 0, c);
    if s: System :| AllRestOn(s, c) {
      RestCalm(s);
      CubeStaysLawful(s);
    }
    if s: System :| RestsOn(s, 6, 0, c) {
      assert AllRestOn(s, c);
    }
  }

  lemma {:induction false} WritesSeen(s: System, i: nat, writes: seq<Coloring>) returns (r: System)
    requires Reachable(s) && i < 6 && s.clients[i].handler.Working? && |writes| <= s.clients[i].handler.left
    ensures Reachable(r) && r.mutex == s.mutex && r.clients[i].handler.Working? && r.commits == s.commits
    ensures r.cube == if writes == [] then s.cube else writes[|writes| - 1]
    decreases |writes|
  {
    hide Reachable;
    if writes == [] {
      r := s;
    } else {
      StepReachable(s, Scribble(i, writes[0]));
      r := WritesSeen(Step(s, Scribble(i, writes[0])), i, writes[1..]);
    }
  }

  /** Why the mutex is needed: while a command is being carried out the shared cube can be any coloring at all, after
      up to 1620 writes. */
  lemma FluxHappens(i: nat, writes: seq<Coloring>) returns (r: System)
    requires i < 6 && |writes| <= 1620
    ensures Reachable(r) && r.mutex == HeldByHandler(i) && r.clients[i].handler.Working? && r.commits == []
    ensures r.cube == if writes == [] then Solved() else writes[|writes| - 1]
  {
    hide Reachable, AtRest, Quiet, CommandLine;
    var s := Accepted([0, 0, 0, 0, 0, 0], 6);
    NothingDone(s);
    var taken := TakeCommand(s, i, 97);
    r := WritesSeen(taken, i, writes);
  }

  lemma NothingDone(s: System)
    requires Reachable(s) && forall j | 0 <= j < 6 :: s.clients[j].sent == []
    ensures s.commits == []
  {
    hide Reachable, LinesOf, MutexInv, CubeInv, CountInv, MarkInv, UpInv, DownInv, SlotInv, PostInv, ScreensInv;
    ReachableHolds(s);
    if s.commits != [] {
      LineKept(s.commits, 0);
      ClientOrder(s, s.commits[0].client);
    }
  }

}
