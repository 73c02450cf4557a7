/** The promises of the networked game, over every interleaving of every number of steps. */
module ServerTheorems {
  import opened Turns
  import opened Runs
  import opened Bytes
  import opened Cubies
  import opened CubeLaws
  import opened Reachability
  import opened Encoding
  import opened Commands
  import opened Server
  import opened ServerInvariants
  import opened Solvability
  import Screen

  ghost predicate ScreensInv(s: System) {
    forall i | 0 <= i < 6 :: Screen.Inv(s.clients[i].screen)
  }

  lemma ScreensStep(s: System, a: Action)
    requires ScreensInv(s) && Enabled(s, a)
    ensures ScreensInv(Step(s, a))
  {
    hide AfterCommand, Fputs, Screen.Step, Screen.Enabled, Screen.Inv;
    match a {
      case ReceiveLine(i) => StartDecoding(s.clients[i].screen, s.clients[i].downSocket[0]);
      case OnScreen(i, action) => Screen.StepInv(s.clients[i].screen, action);
      case _ =>
    }
  }

  lemma StartDecoding(t: Screen.Screen, line: Screen.Message)
    requires Screen.Inv(t) && t.socket.AtSocket?
    ensures Screen.Enabled(t, Screen.TakeLine(line)) && Screen.Inv(Screen.Step(t, Screen.TakeLine(line)))
  {
    Screen.StepInv(t, Screen.TakeLine(line));
  }

  ghost predicate SystemInv(s: System) {
    && MutexInv(s) && CubeInv(s) && CountInv(s) && MarkInv(s) && UpInv(s) && DownInv(s) && SlotInv(s)
    && LogInv(s) && PostInv(s) && ScreensInv(s)
  }

  lemma SystemStep(s: System, a: Action)
    requires SystemInv(s) && Enabled(s, a)
    ensures SystemInv(Step(s, a))
  {
    hide Step, MutexInv, CubeInv, MarkInv, UpInv, DownInv, SlotInv, LogInv, PostInv;
    MutexStep(s, a);
    CubeStep(s, a);
    CountStep(s, a);
    MarkStep(s, a);
    UpStep(s, a);
    DownStep(s, a);
    SlotStep(s, a);
    LogStep(s, a);
    PostStep(s, a);
    ScreensStep(s, a);
  }

  lemma {:induction false} NobodyOwes(clients: seq<Client>)
    requires forall i | 0 <= i < |clients| :: clients[i].handler == Reading
    ensures Owing(clients) == 0
  {
    if clients != [] {
      NobodyOwes(clients[..|clients| - 1]);
    }
  }

  lemma InitialHolds(s: System)
    requires Initial(s)
    ensures SystemInv(s)
  {
    hide Owing, AfterCommand, Message, Screen.Inv;
    NobodyOwes(s.clients);
    forall i | 0 <= i < 6 ensures Screen.Inv(s.clients[i].screen) {
      assert InitialClient(s.clients[i]);
      Screen.InitialInv(s.clients[i].screen);
    }
  }

  lemma {:induction false} RunHolds(s: System, actions: seq<Action>, r: System)
    requires SystemInv(s) && RunsFrom(s, actions, r)
    ensures SystemInv(r)
    decreases actions
  {
    hide Step, SystemInv;
    if actions != [] {
      SystemStep(s, actions[0]);
      RunHolds(Step(s, actions[0]), actions[1..], r);
    }
  }

  /** The invariants hold in every state that any interleaving reaches. */
  lemma ReachableHolds(s: System)
    requires Reachable(s)
    ensures SystemInv(s)
  {
    var s0, actions :| Initial(s0) && RunsFrom(s0, actions, s);
    InitialHolds(s0);
    RunHolds(s0, actions, s);
  }

  /** A coloring that turning a solved cube can produce. */
  ghost predicate Attainable(c: Coloring) {
    exists run: seq<Turn> :: c == AfterRun(Solved(), run)
  }

  /** Whatever commands the server carries out, its cube stays one that turning a solved cube could produce. */
  lemma {:induction false} ReplayAttainable(commits: seq<Commit>)
    ensures Attainable(Replay(commits))
  {
    hide After, AfterRun;
    if commits == [] {
      SolvedAttainable();
    } else {
      var last := commits[|commits| - 1];
      ReplayAttainable(commits[..|commits| - 1]);
      CommandAttainable(Replay(commits[..|commits| - 1]), last.line, last.shuffled);
    }
  }

  lemma SolvedAttainable()
    ensures Attainable(Solved())
  {
    assert AfterRun(Solved(), []) == Solved();
  }

  lemma CommandAttainable(c: Coloring, line: CommandText, shuffled: seq<Turn>)
    requires Attainable(c)
    ensures Attainable(AfterCommand(c, line, shuffled))
  {
    hide After;
    SolvedAttainable();
    var direction := CharValue(line[1]) - DIGIT_ZERO;
    if direction != 2 {
      var run :| c == AfterRun(Solved(), run);
      var t := Turn(CharValue(line[0]) - DIGIT_ZERO, direction);
      assert (run + [t])[..|run|] == run;
      assert AfterRun(Solved(), run + [t]) == After(c, t);
    }
  }

  /** A turn in any direction but 0 is what key `a` makes the server do, a turn in direction 0 what key `d` does. */
  lemma TurnByKey(c: Coloring, t: Turn)
    ensures WellFormedCommand(CommandLine(if t.Clockwise() then KEY_D else KEY_A, t.face))
    ensures AfterCommand(c, CommandLine(if t.Clockwise() then KEY_D else KEY_A, t.face), []) == After(c, t)
  {
    hide After, AfterCommand, CommandLine;
    var key := if t.Clockwise() then KEY_D else KEY_A;
    CommandMeansKey(c, key, t.face, []);
    if t.Clockwise() {
      assert t == Turn(t.face, 0);
    } else {
      AfterEither(c, t);
    }
  }

  /** Every run of turns can be played as commands. */
  lemma {:induction false} PlayRun(run: seq<Turn>) returns (commits: seq<Commit>)
    ensures Replay(commits) == AfterRun(Solved(), run)
  {
    hide After, AfterCommand;
    if run == [] {
      commits := [];
    } else {
      var t := run[|run| - 1];
      var rest := PlayRun(run[..|run| - 1]);
      TurnByKey(Replay(rest), t);
      var c := Commit(0, CommandLine(if t.Clockwise() then KEY_D else KEY_A, t.face), []);
      ReplayStep(rest, c);
      commits := rest + [c];
    }
  }

  /** The cubes that commands can produce are exactly the lawful ones, seen as colors. */
  lemma CommandsReachLawful(c: Coloring)
    ensures (exists commits: seq<Commit> :: c == Replay(commits))
            <==> (exists x: Cubies :: Lawful(x) && c == Painted(x))
  {
    hide Sum, Painted, CubeOf, Replay, AfterRun;
    if commits: seq<Commit> :| c == Replay(commits) {
      ReplayAttainable(commits);
      var run :| c == AfterRun(Solved(), run);
      SolvedAfterRun(run);
      CubeLaw(run);
    }
    if x: Cubies :| Lawful(x) && c == Painted(x) {
      LawfulIsAttainable(x);
      var run :| CubeOf(run) == x;
      SolvedAfterRun(run);
      var commits := PlayRun(run);
    }
  }

  /** An attainable coloring uses the digits 0 to 5 only, so it can be sent. */
  lemma AttainableSendable(c: Coloring)
    requires Attainable(c)
    ensures forall i | 0 <= i < 54 :: 0 <= c[i] <= 5
    ensures AllTransmissible(c)
  {
    hide After, AfterRun;
    var run :| c == AfterRun(Solved(), run);
    RunActs(Solved(), run);
  }

  /** Outside a critical section the shared cube is lawful: the pieces of exactly one lawful cube show its colors. */
  lemma CubeStaysLawful(s: System)
    requires Reachable(s) && !InFlux(s)
    ensures s.cube == Replay(s.commits)
    ensures exists x: Cubies :: Lawful(x) && s.cube == Painted(x)
    ensures forall x: Cubies, y: Cubies ::
              x.WellFormed() && y.WellFormed() && s.cube == Painted(x) && s.cube == Painted(y) ==> x == y
  {
    hide Lawful, Painted, CubeOf, AfterRun, Cubies.WellFormed;
    ReachableHolds(s);
    ReplayAttainable(s.commits);
    var run :| s.cube == AfterRun(Solved(), run);
    SolvedAfterRun(run);
    CubeLaw(run);
    assert Lawful(CubeOf(run)) && s.cube == Painted(CubeOf(run));
    forall x: Cubies, y: Cubies | x.WellFormed() && y.WellFormed() && s.cube == Painted(x) && s.cube == Painted(y)
      ensures x == y
    {
      ColorsDetermine(x, y);
    }
  }

  /** Every broadcast is a consistent snapshot, and the snapshots follow the order of the commands: broadcast `k` is
      the cube after the first `marks[k]` commands, marks never decrease, and `marks[k]` exceeds `k`. */
  lemma BroadcastsLinearize(s: System)
    requires Reachable(s)
    ensures |s.marks| == |s.broadcasts|
    ensures forall k | 0 <= k < |s.broadcasts| ::
              && k + 1 <= s.marks[k] <= |s.commits|
              && IsLine(s.broadcasts[k]) && |s.broadcasts[k]| == 55
              && DecodedColors(s.broadcasts[k]) == Replay(s.commits[..s.marks[k]])
    ensures forall k, l | 0 <= k < l < |s.broadcasts| :: s.marks[k] <= s.marks[l]
  {
    hide Replay, Attainable, AllTransmissible;
    ReachableHolds(s);
    forall k | 0 <= k < |s.broadcasts|
      ensures IsLine(s.broadcasts[k]) && |s.broadcasts[k]| == 55
      ensures DecodedColors(s.broadcasts[k]) == Replay(s.commits[..s.marks[k]])
    {
      ReplayAttainable(s.commits[..s.marks[k]]);
      AttainableSendable(Replay(s.commits[..s.marks[k]]));
      MessageIsLine(Replay(s.commits[..s.marks[k]]));
    }
  }

  predicate ServerIdle(s: System) {
    (forall i | 0 <= i < 6 :: s.clients[i].handler.Reading?) && s.semaphore == 0 && s.broadcaster.Waiting?
  }

  /** No update is lost: once the server is idle there have been as many broadcasts as commands, and the last one
      is the current cube. */
  lemma NoLostUpdate(s: System)
    requires Reachable(s) && ServerIdle(s)
    ensures |s.broadcasts| == |s.commits| && s.cube == Replay(s.commits)
    ensures s.commits != [] ==>
              var line := s.broadcasts[|s.broadcasts| - 1]; |line| == 55 && DecodedColors(line) == s.cube
  {
    hide Replay, MutexInv, UpInv, DownInv, ScreensInv, Owing, DecodedColors;
    ReachableHolds(s);
    NobodyOwes(s.clients);
    BroadcastsLinearize(s);
    if s.commits != [] {
      assert s.commits[..s.marks[|s.marks| - 1]] == s.commits;
    }
  }

  /** The six pipes agree: each has carried a prefix of the broadcasts, and no two differ by more than one. */
  lemma PipesAgree(s: System, i: nat, j: nat)
    requires Reachable(s) && i < 6 && j < 6
    ensures DownQueue(s.clients[i]) <= s.broadcasts
    ensures |s.broadcasts| - 1 <= |DownQueue(s.clients[i])| <= |DownQueue(s.clients[j])| + 1
  {
    ReachableHolds(s);
  }

  /** A client's commands are carried out in the order in which its keys were pressed, none skipped. */
  lemma ClientOrder(s: System, i: nat)
    requires Reachable(s) && i < 6
    ensures LinesOf(s.commits, i) <= s.clients[i].sent
    ensures s.clients[i].sent == LinesOf(s.commits, i) + UpQueue(s.clients[i])
  {
    ReachableHolds(s);
  }

}
