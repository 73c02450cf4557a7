/** When the players stop pressing keys the system comes to rest, and at rest everyone sees the same cube. */
module Convergence {
  import opened Geometry
  import opened Turns
  import opened Bytes
  import opened Reachability
  import opened Encoding
  import opened Commands
  import opened Server
  import opened ServerInvariants
  import opened ServerTheorems
  import Screen

  /** A step of the program itself, as opposed to a player who connects or presses a key. */
  predicate Internal(a: Action) {
    !a.Accept? && !a.PressCommand? && !(a.OnScreen? && a.action.ChooseFace?)
  }

  function Left(n: nat, done: nat): nat {
    if done <= n then n - done else 0
  }

  /** Bounds on the internal steps still to come, one summand for every place where work can be waiting. */
  function ScreenWork(t: Screen.Screen): nat {
    12 * t.semaphore
    + (if t.keyboard.FaceChosen? then 13 else 0)
    + (match t.socket case AtSocket => 0 case Decoding(_, next) => 15 + Left(54, next) case Decoded => 13)
    + (match t.view case Asleep => 0 case Awake => 11 case Drawing(_, next) => 1 + Left(9, next))
  }

  function HandlerWork(h: Handler): nat {
    match h
    case Reading => 0
    case Interpreting(_) => 495 + MAX_WRITES
    case Working(_, _, left) => 494 + left
    case Worked => 493
    case Unlocked => 492
  }

  function BroadcasterWork(b: Broadcaster): nat {
    match b
    case Waiting => 0
    case Woken => 490
    case Copying(copied) => 435 + Left(54, |copied|)
    case Copied(_) => 434
    case Sending(_, next) => 1 + 72 * Left(6, next)
  }

  function ClientWork(c: Client): nat {
    (497 + MAX_WRITES) * |c.upSocket| + (496 + MAX_WRITES) * |c.upPipe| + HandlerWork(c.handler)
    + 71 * |c.downPipe| + 70 * |c.downSocket| + ScreenWork(c.screen)
  }

  function ClientsWork(clients: seq<Client>): nat {
    if clients == [] then 0 else ClientsWork(clients[..|clients| - 1]) + ClientWork(clients[|clients| - 1])
  }

  function Work(s: System): nat {
    ClientsWork(s.clients) + 491 * s.semaphore + BroadcasterWork(s.broadcaster)
  }

  lemma {:induction false} ClientsWorkUpdate(clients: seq<Client>, i: nat, c: Client)
    requires i < |clients|
    ensures ClientsWork(clients[i := c]) == ClientsWork(clients) - ClientWork(clients[i]) + ClientWork(c)
  {
    var m := |clients| - 1;
    if i == m {
      assert clients[i := c][..m] == clients[..m];
    } else {
      assert clients[i := c][..m] == clients[..m][i := c];
      ClientsWorkUpdate(clients[..m], i, c);
    }
  }

  lemma ScreenStepWorks(t: Screen.Screen, a: Screen.ScreenAction)
    requires Screen.Enabled(t, a) && !a.TakeLine? && !a.ChooseFace?
    ensures ScreenWork(Screen.Step(t, a)) < ScreenWork(t)
  {}

  lemma TakeLineWork(t: Screen.Screen, line: Screen.Message)
    requires t.socket.AtSocket?
    ensures Screen.Enabled(t, Screen.TakeLine(line))
    ensures ScreenWork(Screen.Step(t, Screen.TakeLine(line))) == ScreenWork(t) + 69
  {}

  /** The work of one client and of the server together. */
  function LocalWork(s: System, i: nat): nat
    requires i < 6
  {
    ClientWork(s.clients[i]) + 491 * s.semaphore + BroadcasterWork(s.broadcaster)
  }

  predicate OfBroadcaster(a: Action) {
    a.Wait? || a.LockByBroadcaster? || a.CopySquare? || a.CopyEnd? || a.UnlockByBroadcaster? || a.Send? || a.SendEnd?
  }

  lemma BroadcasterStepWorks(s: System, a: Action)
    requires Enabled(s, a) && OfBroadcaster(a)
    ensures ClientOf(s, a) < 6
    ensures LocalWork(Step(s, a), ClientOf(s, a)) < LocalWork(s, ClientOf(s, a))
  {
    hide AfterCommand, Fputs, ScreenWork, HandlerWork;
  }

  lemma ClientStepWorks(s: System, a: Action)
    requires Enabled(s, a) && Internal(a) && !OfBroadcaster(a)
    ensures ClientOf(s, a) < 6
    ensures LocalWork(Step(s, a), ClientOf(s, a)) < LocalWork(s, ClientOf(s, a))
  {
    hide AfterCommand, Screen.Step, Screen.Enabled, ScreenWork, BroadcasterWork;
    match a {
      case OnScreen(i, action) => ScreenStepWorks(s.clients[i].screen, action);
      case ReceiveLine(i) => TakeLineWork(s.clients[i].screen, s.clients[i].downSocket[0]);
      case _ =>
    }
  }

  /** Every step of the program does some of the work there is. */
  lemma StepWorks(s: System, a: Action)
    requires Enabled(s, a) && Internal(a)
    ensures Work(Step(s, a)) < Work(s)
  {
    hide ClientsWork, ClientWork, BroadcasterWork, Step, Enabled;
    if OfBroadcaster(a) {
      BroadcasterStepWorks(s, a);
    } else {
      ClientStepWorks(s, a);
    }
    OneClientChanges(s, a);
    ClientsWorkUpdate(s.clients, ClientOf(s, a), Step(s, a).clients[ClientOf(s, a)]);
  }

  /** As long as no player does anything the system runs out of things to do: from any state there are at most
      `Work(s)` steps, however they are interleaved. */
  lemma {:induction false} ComesToRest(s: System, actions: seq<Action>, r: System)
    requires RunsFrom(s, actions, r)
    requires forall k | 0 <= k < |actions| :: Internal(actions[k])
    ensures |actions| + Work(r) <= Work(s)
    decreases actions
  {
    hide Step, Work, Enabled;
    if actions != [] {
      StepWorks(s, actions[0]);
      ComesToRest(Step(s, actions[0]), actions[1..], r);
    }
  }

  /** Nothing can happen unless a player does something. */
  ghost predicate AtRest(s: System) {
    forall a: Action :: Internal(a) ==> !Enabled(s, a)
  }

  const SOME_SHUFFLE := seq(20, _ => Turn(0, 0))

  /** Every thread is back at the call it waits in, and everything that somebody reads has been emptied: a client
      that is still to be accepted keeps its commands, and nobody reads the pipe of its slot. */
  predicate Drained(s: System) {
    && ServerIdle(s)
    && forall i | 0 <= i < 6 ::
         var c := s.clients[i];
         && c.upPipe == [] && c.downSocket == [] && c.screen.view.Asleep? && !Screen.Pending(c.screen)
         && (i < s.connected ==> c.upSocket == [] && c.downPipe == [])
  }

  lemma HandlersRest(s: System, i: nat)
    requires MutexInv(s) && CubeInv(s) && DownInv(s) && AtRest(s) && i < 6
    ensures s.clients[i].upPipe == [] && s.clients[i].handler.Reading?
    ensures i < s.connected ==> s.clients[i].upSocket == []
  {
    hide Screen.Enabled, Replay, EncodedBuffer;
    assert !Enabled(s, RelayUp(i)) && !Enabled(s, ReadLine(i)) && !Enabled(s, Post(i));
    assert !Enabled(s, LockByHandler(i)) && !Enabled(s, UnlockByHandler(i)) && !Enabled(s, Complete(i, SOME_SHUFFLE));
    MutexRests(s);
  }

  lemma MutexRests(s: System)
    requires MutexInv(s) && CubeInv(s) && DownInv(s) && AtRest(s)
    ensures s.mutex.Free? && s.broadcaster.Waiting? && s.semaphore == 0
  {
    hide Screen.Enabled, Replay, EncodedBuffer;
    assert !Enabled(s, Wait) && !Enabled(s, LockByBroadcaster);
    assert !Enabled(s, UnlockByBroadcaster);
    BroadcasterRests(s);
    forall i: nat | i < 6 ensures !Holds(s.clients[i].handler) {
      NobodyHolds(s, i);
    }
  }

  lemma NobodyHolds(s: System, i: nat)
    requires AtRest(s) && i < 6
    ensures !Holds(s.clients[i].handler)
  {
    hide Screen.Enabled;
    assert !Enabled(s, UnlockByHandler(i)) && !Enabled(s, Complete(i, SOME_SHUFFLE));
  }

  lemma BroadcasterRests(s: System)
    requires AtRest(s)
    ensures !s.broadcaster.Copied?
    ensures s.broadcaster.Sending? ==> s.broadcaster.next > 6
    ensures s.broadcaster.Copying? ==> |s.broadcaster.copied| > 54
  {
    hide Screen.Enabled;
    assert !Enabled(s, UnlockByBroadcaster) && !Enabled(s, Send) && !Enabled(s, SendEnd);
    assert !Enabled(s, CopySquare) && !Enabled(s, CopyEnd);
  }

  lemma ScreenRests(s: System, i: nat)
    requires ScreensInv(s) && AtRest(s) && i < 6
    ensures s.clients[i].screen.view.Asleep? && !Screen.Pending(s.clients[i].screen)
  {
    var t := s.clients[i].screen;
    assert Screen.Inv(t);
    assert !Enabled(s, OnScreen(i, Screen.SocketPost)) && !Enabled(s, OnScreen(i, Screen.KeyPost));
    assert !Enabled(s, OnScreen(i, Screen.DecodeSquare)) && !Enabled(s, OnScreen(i, Screen.DecodeEnd));
    assert !Enabled(s, OnScreen(i, Screen.DrawSquare)) && !Enabled(s, OnScreen(i, Screen.DrawEnd));
    assert !Enabled(s, OnScreen(i, Screen.ReadFace)) && !Enabled(s, OnScreen(i, Screen.Wake));
  }

  /** Only whole cube lines ever reach a client. */
  lemma WholeLinesArrive(s: System, i: nat, k: nat)
    requires Reachable(s) && i < 6 && k < |s.clients[i].downSocket|
    ensures |s.clients[i].downSocket[k]| == 55
  {
    hide Reachable, MutexInv, CubeInv, CountInv, MarkInv, UpInv, ScreensInv, Replay, DecodedColors;
    ReachableHolds(s);
    BroadcastsLinearize(s);
    var c := s.clients[i];
    var m := |c.screen.received| + |Screen.InDecode(c.screen.socket)| + k;
    assert DownQueue(c)[m] == c.downSocket[k];
    assert s.broadcasts[..Written(s, i)][m] == s.broadcasts[m];
  }

  lemma QueueRests(s: System, i: nat)
    requires Reachable(s) && AtRest(s) && i < 6 && s.clients[i].screen.socket.AtSocket?
    ensures s.clients[i].downSocket == [] && (i < s.connected ==> s.clients[i].downPipe == [])
  {
    hide Screen.Enabled, Reachable;
    assert !Enabled(s, RelayDown(i)) && !Enabled(s, ReceiveLine(i));
    if |s.clients[i].downSocket| > 0 {
      WholeLinesArrive(s, i, 0);
    }
  }

  lemma DrainedRests(s: System)
    requires Drained(s)
    ensures AtRest(s)
  {}

  /** The states without an internal step are exactly the drained ones: the system cannot deadlock. */
  lemma RestIsDrained(s: System)
    requires Reachable(s)
    ensures AtRest(s) <==> Drained(s)
  {
    if Drained(s) {
      DrainedRests(s);
    }
    if AtRest(s) {
      RestDrains(s);
    }
  }

  lemma RestDrains(s: System)
    requires Reachable(s) && AtRest(s)
    ensures Drained(s)
  {
    hide Reachable, AtRest, MutexInv, CubeInv, CountInv, MarkInv, UpInv, DownInv, ScreensInv, Screen.Pending;
    ReachableHolds(s);
    MutexRests(s);
    forall i: nat | i < 6
      ensures var c := s.clients[i];
              && c.handler.Reading? && c.upPipe == [] && c.downSocket == []
              && c.screen.view.Asleep? && !Screen.Pending(c.screen)
              && (i < s.connected ==> c.upSocket == [] && c.downPipe == [])
    {
      HandlersRest(s, i);
      ScreenRests(s, i);
      SocketRests(s.clients[i].screen);
      QueueRests(s, i);
    }
  }

  lemma SocketRests(t: Screen.Screen)
    requires !Screen.Pending(t)
    ensures t.socket.AtSocket?
  {}

  /** The player has pressed one of the digits 0 to 5. */
  predicate FacePressed(c: Client) {
    exists k | 0 <= k < |c.keys| :: 48 <= c.keys[k] <= 53
  }

  /** No update is lost on its way to a client: once the server is idle, each client whose own queues have run empty
      holds the server's cube, whatever the others are doing, and shows its selected face of it as soon as its view
      sleeps with nothing pending, if there has been a broadcast or a face key at all. */
  lemma CaughtUp(s: System, i: nat)
    requires Reachable(s) && ServerIdle(s) && i < 6
    requires var c := s.clients[i]; c.downPipe == [] && c.downSocket == [] && !c.screen.socket.Decoding?
    ensures s.clients[i].screen.received == s.broadcasts
    ensures s.clients[i].screen.cube == s.cube == Replay(s.commits)
    ensures var t := s.clients[i].screen;
            t.view.Asleep? && !Screen.Pending(t) && (s.broadcasts != [] || FacePressed(s.clients[i])) ==>
              |t.display| == 9 && forall k | 0 <= k < 9 :: t.display[k] == s.cube[Sticker(t.faceId, k).Index()]
  {
    hide Replay, MutexInv, CubeInv, CountInv, MarkInv, UpInv, SlotInv, DecodedColors;
    NoLostUpdate(s);
    ReachableHolds(s);
    var c := s.clients[i];
    assert DownQueue(c) == c.screen.received;
    assert s.broadcasts[..Written(s, i)] == s.broadcasts;
    assert Screen.Inv(c.screen) && PostsCounted(c);
    if FacePressed(c) {
      var k :| 0 <= k < |c.keys| && 48 <= c.keys[k] <= 53;
      FaceKeyCounts(c.keys, k);
    }
    ReplayNothing();
  }

  lemma ReplayNothing()
    ensures Replay([]) == Solved()
  {}

  /** At rest all players see one cube: every client that has been accepted holds the cube that all commands, in the
      order the server took them, make of a solved one, and shows the face it has selected; no command of it is left. */
  lemma RestAgrees(s: System, i: nat)
    requires Reachable(s) && AtRest(s) && i < s.connected
    ensures i < 6 && s.cube == Replay(s.commits) && |s.broadcasts| == |s.commits|
    ensures LinesOf(s.commits, i) == s.clients[i].sent
    ensures s.clients[i].screen.received == s.broadcasts
    ensures s.clients[i].screen.cube == s.cube
    ensures var t := s.clients[i].screen;
            s.broadcasts != [] || FacePressed(s.clients[i]) ==>
              |t.display| == 9 && forall k | 0 <= k < 9 :: t.display[k] == s.cube[Sticker(t.faceId, k).Index()]
  {
    hide AtRest, Replay, MutexInv, CubeInv, CountInv, MarkInv, UpInv, DownInv, ScreensInv, DecodedColors, Reachable;
    ReachableHolds(s);
    RestDrains(s);
    NoLostUpdate(s);
    ClientOrder(s, i);
    CaughtUp(s, i);
  }

  /** Nobody reads the pipe of a slot that no client has taken: it holds every broadcast written to it so far. */
  lemma UnreadPipe(s: System, i: nat)
    requires Reachable(s) && s.connected <= i < 6
    ensures s.clients[i].downPipe <= s.broadcasts
    ensures |s.clients[i].downPipe| >= |s.broadcasts| - 1
  {
    hide Reachable, MutexInv, CubeInv, CountInv, MarkInv, UpInv, ScreensInv;
    ReachableHolds(s);
  }

  /** A server thread waits for nothing but a line from its pipe and the mutex. */
  lemma HandlerWaits(s: System, i: nat)
    requires i < 6
    ensures var h := s.clients[i].handler;
            !Enabled(s, ReadLine(i)) && !Enabled(s, LockByHandler(i)) && !Enabled(s, Complete(i, SOME_SHUFFLE)) &&
            !Enabled(s, UnlockByHandler(i)) && !Enabled(s, Post(i))
            <==> (h.Reading? && s.clients[i].upPipe == []) || (h.Interpreting? && s.mutex != Free)
  {}

  lemma BroadcasterBounds(s: System)
    requires Reachable(s)
    ensures s.broadcaster.Copying? ==> |s.broadcaster.copied| <= 54
    ensures s.broadcaster.Sending? ==> s.broadcaster.next <= 6
  {
    hide Reachable, MutexInv, CountInv, MarkInv, UpInv, SlotInv, LogInv, PostInv, ScreensInv, Replay, EncodedBuffer;
    ReachableHolds(s);
  }

  /** The broadcaster waits for nothing but its semaphore and the mutex. */
  lemma BroadcasterWaits(s: System)
    requires Reachable(s)
    ensures !Enabled(s, Wait) && !Enabled(s, LockByBroadcaster) && !Enabled(s, CopySquare) && !Enabled(s, CopyEnd) &&
            !Enabled(s, UnlockByBroadcaster) && !Enabled(s, Send) && !Enabled(s, SendEnd)
            <==> (s.broadcaster.Waiting? && s.semaphore == 0) || (s.broadcaster.Woken? && s.mutex != Free)
  {
    hide Reachable;
    BroadcasterBounds(s);
  }

  lemma ScreenBounds(s: System, i: nat)
    requires Reachable(s) && i < 6
    ensures var t := s.clients[i].screen;
            && |t.display| == 9 && (t.socket.Decoding? ==> t.socket.next <= 54)
            && (t.view.Drawing? ==> t.view.next <= 9)
    ensures s.clients[i].downSocket != [] ==> |s.clients[i].downSocket[0]| == 55
  {
    hide Reachable, MutexInv, CubeInv, CountInv, MarkInv, UpInv, SlotInv, LogInv, PostInv, DownInv;
    ReachableHolds(s);
    if s.clients[i].downSocket != [] {
      WholeLinesArrive(s, i, 0);
    }
    assert Screen.Inv(s.clients[i].screen);
  }

  /** The socket thread of a client waits for nothing but a line, and its view for nothing but its semaphore. */
  lemma ClientWaits(s: System, i: nat)
    requires Reachable(s) && i < 6
    ensures !Enabled(s, ReceiveLine(i)) && !Enabled(s, OnScreen(i, Screen.DecodeSquare)) &&
            !Enabled(s, OnScreen(i, Screen.DecodeEnd)) && !Enabled(s, OnScreen(i, Screen.SocketPost))
            <==> s.clients[i].screen.socket.AtSocket? && s.clients[i].downSocket == []
    ensures !Enabled(s, OnScreen(i, Screen.Wake)) && !Enabled(s, OnScreen(i, Screen.ReadFace)) &&
            !Enabled(s, OnScreen(i, Screen.DrawSquare)) && !Enabled(s, OnScreen(i, Screen.DrawEnd))
            <==> s.clients[i].screen.view.Asleep? && s.clients[i].screen.semaphore == 0
  {
    hide Reachable;
    ScreenBounds(s, i);
  }

  /** The relays of an accepted client wait for nothing but a line. */
  lemma RelayWaits(s: System, i: nat)
    requires Reachable(s) && i < s.connected
    ensures i < 6
    ensures !Enabled(s, RelayUp(i)) <==> s.clients[i].upSocket == []
    ensures !Enabled(s, RelayDown(i)) <==> s.clients[i].downPipe == []
  {
    hide Reachable, MutexInv, CubeInv, CountInv, MarkInv, UpInv, LogInv, PostInv, DownInv, ScreensInv;
    ReachableHolds(s);
  }

}
