/** The whole system as a transition system: six clients, their relays, six server threads, one broadcaster, one
    mutex and one semaphore.  Every interleaving of their steps is a run. */
module Server {
  import opened Geometry
  import opened Turns
  import opened Runs
  import opened Bytes
  import opened Reachability
  import opened Shuffling
  import opened Commands
  import Screen

  type CommandText = m: seq<Byte> | WellFormedCommand(m) witness [48, 48]

  /** No command writes more squares of the shared cube than a longest shuffle, which copies all of them back after
      every turn. */
  const MAX_WRITES := 54 * MAX_DEPTH

  /** A server thread, from `getline` to `sem_post`. */
  datatype Handler =
    | Reading
    | Interpreting(line: CommandText)
    | Working(line: CommandText, before: Coloring, left: nat)   // holds the mutex, the shared cube is in flux
    | Worked                                                    // holds the mutex, the shared cube is complete
    | Unlocked                                                  // has not posted yet

  datatype Broadcaster =
    | Waiting
    | Woken
    | Copying(copied: seq<Byte>)                     // holds the mutex
    | Copied(msg: seq<Byte>)                         // holds the mutex
    | Sending(msg: seq<Byte>, next: nat)

  datatype Mutex = Free | HeldByHandler(i: nat) | HeldByBroadcaster

  /** Everything that belongs to one client, on both machines; queues are first in, first out.  `startFace` is what
      the client's face variable held to begin with, `keys` and `sent` record what has been pressed and sent. */
  datatype Client = Client(
    startFace: FaceId, keys: seq<int>, sent: seq<CommandText>,
    upSocket: seq<CommandText>, upPipe: seq<CommandText>, handler: Handler,
    downPipe: seq<seq<Byte>>, downSocket: seq<seq<Byte>>, screen: Screen.Screen)

  const NEW_CLIENT := Client(0, [], [], [], [], Reading, [], [],
    Screen.Screen(Solved(), 0, 0, Screen.AtSocket, Screen.AtKeyboard, Screen.Asleep, seq(9, _ => 0), [], 0))

  /** The server takes six clients. */
  type Clients = cs: seq<Client> | |cs| == 6 witness seq(6, _ => NEW_CLIENT)

  datatype Commit = Commit(client: nat, line: CommandText, shuffled: seq<Turn>)

  /** `connected` is the number of clients accepted so far; they take the slots in order.  A slot without a client has
      a pipe, which the broadcaster writes to, but no relay.  `commits`, `posts`, `waits`, `broadcasts` and `marks` only
      record what has happened; `marks[k]` is the number of commands that had been carried out when broadcast `k` was
      taken. */
  datatype System = System(
    clients: Clients, connected: nat, cube: Coloring, mutex: Mutex, semaphore: nat, broadcaster: Broadcaster,
    commits: seq<Commit>, posts: nat, waits: nat, broadcasts: seq<seq<Byte>>, marks: seq<nat>)

  datatype Action =
    | Accept
    | PressCommand(i: nat, key: int)
    | RelayUp(i: nat)
    | ReadLine(i: nat)
    | LockByHandler(i: nat)
    | Scribble(i: nat, cube: Coloring)
    | Complete(i: nat, shuffled: seq<Turn>)
    | UnlockByHandler(i: nat)
    | Post(i: nat)
    | Wait
    | LockByBroadcaster
    | CopySquare
    | CopyEnd
    | UnlockByBroadcaster
    | Send
    | SendEnd
    | RelayDown(i: nat)
    | ReceiveLine(i: nat)
    | OnScreen(i: nat, action: Screen.ScreenAction)

  predicate Enabled(s: System, a: Action) {
    match a
    case Accept => s.connected < 6
    case PressCommand(i, key) => i < 6 && IsCommandKey(key) && s.clients[i].screen.keyboard.AtKeyboard?
    case RelayUp(i) => i < 6 && i < s.connected && s.clients[i].upSocket != []
    case ReadLine(i) => i < 6 && s.clients[i].handler.Reading? && s.clients[i].upPipe != []
    case LockByHandler(i) => i < 6 && s.clients[i].handler.Interpreting? && s.mutex.Free?
    case Scribble(i, _) => i < 6 && s.clients[i].handler.Working? && s.clients[i].handler.left > 0
    case Complete(i, shuffled) => i < 6 && s.clients[i].handler.Working? && IsShuffle(shuffled, MIN_DEPTH, MAX_DEPTH)
    case UnlockByHandler(i) => i < 6 && s.clients[i].handler.Worked?
    case Post(i) => i < 6 && s.clients[i].handler.Unlocked?
    case Wait => s.broadcaster.Waiting? && s.semaphore > 0
    case LockByBroadcaster => s.broadcaster.Woken? && s.mutex.Free?
    case CopySquare => s.broadcaster.Copying? && |s.broadcaster.copied| < 54
    case CopyEnd => s.broadcaster.Copying? && |s.broadcaster.copied| == 54
    case UnlockByBroadcaster => s.broadcaster.Copied?
    case Send => s.broadcaster.Sending? && s.broadcaster.next < 6
    case SendEnd => s.broadcaster.Sending? && s.broadcaster.next == 6
    case RelayDown(i) => i < 6 && i < s.connected && s.clients[i].downPipe != []
    case ReceiveLine(i) =>
      && i < 6 && s.clients[i].downSocket != [] && |s.clients[i].downSocket[0]| >= 54
      && s.clients[i].screen.socket.AtSocket?
    case OnScreen(i, action) => i < 6 && !action.TakeLine? && Screen.Enabled(s.clients[i].screen, action)
  }

  function Update(s: System, i: nat, c: Client): System
    requires i < 6
  {
    s.(clients := s.clients[i := c])
  }

  function Step(s: System, a: Action): System
    requires Enabled(s, a)
  {
    match a
    case Accept => s.(connected := s.connected + 1)
    case PressCommand(i, key) =>
      var c := s.clients[i];
      var line := CommandLine(key, c.screen.faceId);
      Update(s, i, c.(keys := c.keys + [key], sent := c.sent + [line], upSocket := c.upSocket + [line]))
    case RelayUp(i) =>
      var c := s.clients[i];
      Update(s, i, c.(upSocket := c.upSocket[1..], upPipe := c.upPipe + [c.upSocket[0]]))
    case ReadLine(i) =>
      var c := s.clients[i];
      Update(s, i, c.(upPipe := c.upPipe[1..], handler := Interpreting(c.upPipe[0])))
    case LockByHandler(i) =>
      var c := s.clients[i];
      Update(s, i, c.(handler := Working(c.handler.line, s.cube, MAX_WRITES))).(mutex := HeldByHandler(i))
    case Scribble(i, cube) =>
      var c := s.clients[i];
      Update(s, i, c.(handler := c.handler.(left := c.handler.left - 1))).(cube := cube)
    case Complete(i, shuffled) =>
      var c := s.clients[i];
      Update(s, i, c.(handler := Worked)).(
        cube := AfterCommand(c.handler.before, c.handler.line, shuffled),
        commits := s.commits + [Commit(i, c.handler.line, shuffled)])
    case UnlockByHandler(i) =>
      Update(s, i, s.clients[i].(handler := Unlocked)).(mutex := Free)
    case Post(i) =>
      Update(s, i, s.clients[i].(handler := Reading)).(semaphore := s.semaphore + 1, posts := s.posts + 1)
    case Wait => s.(semaphore := s.semaphore - 1, waits := s.waits + 1, broadcaster := Woken)
    case LockByBroadcaster => s.(mutex := HeldByBroadcaster, broadcaster := Copying([]))
    case CopySquare =>
      var copied := s.broadcaster.copied;
      s.(broadcaster := Copying(copied + [ByteOf(DIGIT_ZERO + s.cube[|copied|])]))
    case CopyEnd =>
      var msg := Fputs(s.broadcaster.copied + [NEWLINE, NUL]);
      s.(broadcaster := Copied(msg), broadcasts := s.broadcasts + [msg], marks := s.marks + [|s.commits|])
    case UnlockByBroadcaster => s.(mutex := Free, broadcaster := Sending(s.broadcaster.msg, 0))
    case Send =>
      var k := s.broadcaster.next;
      var c := s.clients[k];
      Update(s, k, c.(downPipe := c.downPipe + [s.broadcaster.msg])).(broadcaster := Sending(s.broadcaster.msg, k + 1))
    case SendEnd => s.(broadcaster := Waiting)
    case RelayDown(i) =>
      var c := s.clients[i];
      Update(s, i, c.(downPipe := c.downPipe[1..], downSocket := c.downSocket + [c.downPipe[0]]))
    case ReceiveLine(i) =>
      var c := s.clients[i];
      var screen := Screen.Step(c.screen, Screen.TakeLine(c.downSocket[0]));
      Update(s, i, c.(downSocket := c.downSocket[1..], screen := screen))
    case OnScreen(i, action) =>
      var c := s.clients[i];
      var keys := c.keys + if action.ChooseFace? then [DIGIT_ZERO + action.face] else [];
      Update(s, i, c.(screen := Screen.Step(c.screen, action), keys := keys))
  }

  predicate InitialClient(c: Client) {
    && c.keys == [] && c.sent == c.upSocket == c.upPipe == [] && c.handler == Reading
    && c.downPipe == c.downSocket == [] && Screen.Initial(c.screen) && c.screen.faceId == c.startFace
  }

  predicate Initial(s: System) {
    && (forall i | 0 <= i < 6 :: InitialClient(s.clients[i]))
    && s.connected == 0 && s.cube == Solved() && s.mutex == Free && s.semaphore == 0 && s.broadcaster == Waiting
    && s.commits == [] && s.posts == s.waits == 0 && s.broadcasts == [] && s.marks == []
  }

  ghost predicate RunsFrom(s: System, actions: seq<Action>, r: System)
    decreases actions
  {
    if actions == [] then r == s
    else Enabled(s, actions[0]) && RunsFrom(Step(s, actions[0]), actions[1..], r)
  }

  ghost predicate Reachable(r: System) {
    exists s: System, actions: seq<Action> :: Initial(s) && RunsFrom(s, actions, r)
  }

  /** The cube after a list of commands. */
  function Replay(commits: seq<Commit>): Coloring {
    if commits == [] then Solved()
    else
      var last := commits[|commits| - 1];
      AfterCommand(Replay(commits[..|commits| - 1]), last.line, last.shuffled)
  }

}
