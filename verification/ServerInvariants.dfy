/** What holds in every reachable state of the system. */
module ServerInvariants {
  import opened Runs
  import opened Bytes
  import opened Shuffling
  import opened Encoding
  import opened Commands
  import opened Server
  import Screen

  /** The client that an action changes. */
  function ClientOf(s: System, a: Action): nat {
    match a
    case PressCommand(i, _) => i
    case Scribble(i, _) => i
    case Send => if s.broadcaster.Sending? then s.broadcaster.next else 0
    case RelayUp(i) => i
    case ReadLine(i) => i
    case LockByHandler(i) => i
    case Complete(i, _) => i
    case UnlockByHandler(i) => i
    case Post(i) => i
    case RelayDown(i) => i
    case ReceiveLine(i) => i
    case OnScreen(i, _) => i
    case _ => 0
  }

  lemma OneClientChanges(s: System, a: Action)
    requires Enabled(s, a)
    ensures ClientOf(s, a) < 6
    ensures Step(s, a).clients == s.clients[ClientOf(s, a) := Step(s, a).clients[ClientOf(s, a)]]
  {
    hide AfterCommand, Fputs, Screen.Step, Screen.Enabled;
  }

  predicate Holds(h: Handler) {
    h.Working? || h.Worked?
  }

  predicate BroadcasterHolds(b: Broadcaster) {
    b.Copying? || b.Copied?
  }

  /** A handler is rewriting the shared cube. */
  predicate InFlux(s: System) {
    s.mutex.HeldByHandler? && s.mutex.i < 6 && s.clients[s.mutex.i].handler.Working?
  }

  /** Mutual exclusion: the mutex names the one thread inside a critical section. */
  ghost predicate MutexInv(s: System) {
    && (forall i | 0 <= i < 6 :: Holds(s.clients[i].handler) <==> s.mutex == HeldByHandler(i))
    && (s.mutex.HeldByHandler? ==> s.mutex.i < 6)
    && (BroadcasterHolds(s.broadcaster) <==> s.mutex == HeldByBroadcaster)
  }

  /** What mutual exclusion buys: outside a handler's critical section the shared cube is the replay of the commands
      carried out so far, and the broadcaster copies nothing else. */
  ghost predicate CubeInv(s: System) {
    && (forall i | 0 <= i < 6 :: s.clients[i].handler.Working? ==> s.clients[i].handler.before == Replay(s.commits))
    && (!InFlux(s) ==> s.cube == Replay(s.commits))
    && (s.broadcaster.Copying? ==>
          var copied := s.broadcaster.copied;
          |copied| <= 54 && copied == EncodedBuffer(s.cube)[..|copied|])
  }

  /** What one step does to the mutex, seen from the client it changes and from the others. */
  lemma MutexLocal(s: System, a: Action)
    requires MutexInv(s) && Enabled(s, a) && ClientOf(s, a) < 6
    ensures var i, r := ClientOf(s, a), Step(s, a);
            && (Holds(r.clients[i].handler) <==> r.mutex == HeldByHandler(i))
            && (r.mutex.HeldByHandler? && r.mutex.i != i <==> s.mutex.HeldByHandler? && s.mutex.i != i)
            && (r.mutex.HeldByHandler? && r.mutex.i != i ==> r.mutex == s.mutex)
            && (r.mutex.HeldByHandler? ==> r.mutex.i < 6)
            && (BroadcasterHolds(r.broadcaster) <==> r.mutex == HeldByBroadcaster)
  {
    hide AfterCommand, Fputs, Screen.Step, Screen.Enabled;
    var i := ClientOf(s, a);
    assert Holds(s.clients[i].handler) <==> s.mutex == HeldByHandler(i);
  }

  lemma MutexStep(s: System, a: Action)
    requires MutexInv(s) && Enabled(s, a)
    ensures MutexInv(Step(s, a))
  {
    hide Step, Enabled, ClientOf, Holds, BroadcasterHolds;
    OneClientChanges(s, a);
    MutexLocal(s, a);
    var i, r := ClientOf(s, a), Step(s, a);
    forall j | 0 <= j < 6 && j != i ensures Holds(r.clients[j].handler) <==> r.mutex == HeldByHandler(j) {
      assert r.clients[j] == s.clients[j];
      assert Holds(s.clients[j].handler) <==> s.mutex == HeldByHandler(j);
    }
  }

  lemma OneMoreSquare(c: Coloring, copied: seq<Byte>)
    requires |copied| < 54 && copied == EncodedBuffer(c)[..|copied|]
    ensures copied + [ByteOf(DIGIT_ZERO + c[|copied|])] == EncodedBuffer(c)[..|copied| + 1]
  {}

  lemma ReplayStep(commits: seq<Commit>, c: Commit)
    ensures Replay(commits + [c]) == AfterCommand(Replay(commits), c.line, c.shuffled)
  {
    hide AfterCommand;
    assert (commits + [c])[..|commits|] == commits;
  }

  lemma CubeStep(s: System, a: Action)
    requires MutexInv(s) && CubeInv(s) && Enabled(s, a)
    ensures CubeInv(Step(s, a))
  {
    hide AfterCommand, Fputs, Screen.Step, Screen.Enabled, EncodedBuffer, Replay;
    match a {
      case CopySquare => OneMoreSquare(s.cube, s.broadcaster.copied);
      case Complete(i, shuffled) => ReplayStep(s.commits, Commit(i, s.clients[i].handler.line, shuffled));
      case LockByBroadcaster =>
        assert Step(s, a).broadcaster.copied == EncodedBuffer(s.cube)[..0];
      case _ =>
    }
  }

  predicate OwesPost(h: Handler) {
    h.Worked? || h.Unlocked?
  }

  /** How many handlers have carried out a command and not yet posted. */
  function Owing(clients: seq<Client>): nat {
    if clients == [] then 0
    else Owing(clients[..|clients| - 1]) + if OwesPost(clients[|clients| - 1].handler) then 1 else 0
  }

  lemma {:induction false} OwingUpdate(clients: seq<Client>, i: nat, c: Client)
    requires i < |clients|
    ensures Owing(clients[i := c]) == Owing(clients)
            - (if OwesPost(clients[i].handler) then 1 else 0) + (if OwesPost(c.handler) then 1 else 0)
  {
    var m := |clients| - 1;
    if i == m {
      assert clients[i := c][..m] == clients[..m];
    } else {
      assert clients[i := c][..m] == clients[..m][i := c];
      OwingUpdate(clients[..m], i, c);
    }
  }

  /** Every command carried out is accounted for: owed, posted and waiting, or waited for. */
  ghost predicate CountInv(s: System) {
    && |s.commits| == s.posts + Owing(s.clients)
    && s.posts == s.waits + s.semaphore
    && s.waits == |s.broadcasts| + (if s.broadcaster.Woken? || s.broadcaster.Copying? then 1 else 0)
  }

  lemma CountStep(s: System, a: Action)
    requires CountInv(s) && Enabled(s, a)
    ensures CountInv(Step(s, a))
  {
    hide AfterCommand, Fputs, Owing, Screen.Step, Screen.Enabled;
    var r := Step(s, a);
    forall i: nat | i < 6 ensures Owing(s.clients[i := r.clients[i]]) == Owing(s.clients)
            - (if OwesPost(s.clients[i].handler) then 1 else 0) + (if OwesPost(r.clients[i].handler) then 1 else 0)
    {
      OwingUpdate(s.clients, i, r.clients[i]);
    }
  }

  /** Each broadcast is the encoding of the cube after some prefix of the commands; the prefixes only grow, and the
      k-th broadcast has seen at least k commands. */
  ghost predicate MarkInv(s: System) {
    && |s.marks| == |s.broadcasts|
    && (forall k | 0 <= k < |s.marks| ::
          && k + 1 <= s.marks[k] <= |s.commits|
          && s.broadcasts[k] == Message(Replay(s.commits[..s.marks[k]])))
    && (forall k, l | 0 <= k < l < |s.marks| :: s.marks[k] <= s.marks[l])
  }

  lemma CopiedMessage(c: Coloring, copied: seq<Byte>)
    requires |copied| == 54 && copied == EncodedBuffer(c)[..54]
    ensures Fputs(copied + [NEWLINE, NUL]) == Message(c)
  {
    assert copied + [NEWLINE, NUL] == EncodedBuffer(c);
  }

  lemma MarkStep(s: System, a: Action)
    requires MutexInv(s) && CubeInv(s) && CountInv(s) && MarkInv(s) && Enabled(s, a)
    ensures MarkInv(Step(s, a))
  {
    hide AfterCommand, Fputs, Screen.Step, Screen.Enabled, EncodedBuffer, Replay, Owing, Message;
    var r := Step(s, a);
    match a {
      case CopyEnd =>
        CopiedMessage(s.cube, s.broadcaster.copied);
        assert s.commits[..|s.commits|] == s.commits;
      case Complete(_, _) =>
        forall k | 0 <= k < |s.marks| ensures r.commits[..s.marks[k]] == s.commits[..s.marks[k]] {}
      case _ =>
    }
  }

  /** The lines that client `i` has had carried out, in order. */
  function LinesOf(commits: seq<Commit>, i: nat): seq<CommandText> {
    if commits == [] then []
    else
      var last := commits[|commits| - 1];
      LinesOf(commits[..|commits| - 1], i) + if last.client == i then [last.line] else []
  }

  function Texts(commits: seq<Commit>): seq<CommandText> {
    seq(|commits|, k requires 0 <= k < |commits| => commits[k].line)
  }

  /** Every command carried out is among the lines of its client. */
  lemma {:induction false} LineKept(commits: seq<Commit>, k: nat)
    requires k < |commits|
    ensures commits[k].line in LinesOf(commits, commits[k].client)
  {
    var m := |commits| - 1;
    if k < m {
      LineKept(commits[..m], k);
    }
  }

  function InHand(h: Handler): seq<CommandText> {
    match h
    case Interpreting(line) => [line]
    case Working(line, _, _) => [line]
    case _ => []
  }

  /** The commands of a client that have not been carried out yet, oldest first. */
  function UpQueue(c: Client): seq<CommandText> {
    InHand(c.handler) + c.upPipe + c.upSocket
  }

  /** No command is lost, duplicated or overtaken on its way up. */
  ghost predicate UpInv(s: System) {
    forall i | 0 <= i < 6 :: s.clients[i].sent == LinesOf(s.commits, i) + UpQueue(s.clients[i])
  }

  lemma LinesOfAppend(commits: seq<Commit>, c: Commit, i: nat)
    ensures LinesOf(commits + [c], i) == LinesOf(commits, i) + if c.client == i then [c.line] else []
  {
    assert (commits + [c])[..|commits|] == commits;
  }

  lemma PressQueues(c: Client, line: CommandText)
    ensures UpQueue(c.(upSocket := c.upSocket + [line])) == UpQueue(c) + [line]
  {}

  lemma RelayUpKeeps(c: Client)
    requires c.upSocket != []
    ensures UpQueue(c.(upSocket := c.upSocket[1..], upPipe := c.upPipe + [c.upSocket[0]])) == UpQueue(c)
  {}

  lemma ReadLineKeeps(c: Client)
    requires c.upPipe != [] && c.handler.Reading?
    ensures UpQueue(c.(upPipe := c.upPipe[1..], handler := Interpreting(c.upPipe[0]))) == UpQueue(c)
  {}

  lemma CompleteTakes(c: Client)
    requires c.handler.Working?
    ensures UpQueue(c) == [c.handler.line] + UpQueue(c.(handler := Worked))
  {}

  lemma SameUpQueue(c: Client, d: Client)
    requires InHand(c.handler) == InHand(d.handler) && c.upPipe == d.upPipe && c.upSocket == d.upSocket
    ensures UpQueue(c) == UpQueue(d)
  {}

  /** What one step does to the queue of the client it changes. */
  lemma UpLocal(s: System, a: Action)
    requires Enabled(s, a) && ClientOf(s, a) < 6
    ensures var c, d := s.clients[ClientOf(s, a)], Step(s, a).clients[ClientOf(s, a)];
            if a.PressCommand? then
              var line := CommandLine(a.key, c.screen.faceId);
              d.sent == c.sent + [line] && UpQueue(d) == UpQueue(c) + [line]
            else if a.Complete? then d.sent == c.sent && UpQueue(c) == [c.handler.line] + UpQueue(d)
            else d.sent == c.sent && UpQueue(d) == UpQueue(c)
  {
    hide AfterCommand, Fputs, Screen.Step, Screen.Enabled, UpQueue, CommandLine;
    var c, d := s.clients[ClientOf(s, a)], Step(s, a).clients[ClientOf(s, a)];
    match a {
      case PressCommand(_, _) =>
        PressQueues(c, d.sent[|c.sent|]);
        SameUpQueue(d, c.(upSocket := d.upSocket));
      case RelayUp(_) => RelayUpKeeps(c);
      case ReadLine(_) => ReadLineKeeps(c);
      case Complete(_, _) => CompleteTakes(c);
      case _ => SameUpQueue(c, d);
    }
  }

  lemma UpStep(s: System, a: Action)
    requires UpInv(s) && Enabled(s, a)
    ensures UpInv(Step(s, a))
  {
    hide AfterCommand, Fputs, Screen.Step, Screen.Enabled, LinesOf, UpQueue, CommandLine;
    var r := Step(s, a);
    OneClientChanges(s, a);
    UpLocal(s, a);
    if a.Complete? {
      var commit := Commit(a.i, s.clients[a.i].handler.line, a.shuffled);
      forall i | 0 <= i < 6
        ensures LinesOf(r.commits, i) == LinesOf(s.commits, i) + if i == a.i then [commit.line] else []
      {
        LinesOfAppend(s.commits, commit, i);
      }
    }
  }

  /** How many broadcasts the broadcaster has written to the pipe of client `i`. */
  function Written(s: System, i: nat): int {
    |s.broadcasts| - if s.broadcaster.Copied? || (s.broadcaster.Sending? && s.broadcaster.next <= i) then 1 else 0
  }

  /** The broadcasts a client has been written, oldest first: decoded, being decoded, or still under way. */
  function DownQueue(c: Client): seq<seq<Byte>> {
    c.screen.received + Screen.InDecode(c.screen.socket) + c.downSocket + c.downPipe
  }

  /** No broadcast is lost, duplicated or overtaken on its way down. */
  ghost predicate DownInv(s: System) {
    && (s.broadcaster.Copied? || s.broadcaster.Sending? ==>
          |s.broadcasts| > 0 && s.broadcaster.msg == s.broadcasts[|s.broadcasts| - 1])
    && (s.broadcaster.Sending? ==> s.broadcaster.next <= 6)
    && forall i | 0 <= i < 6 :: s.broadcasts[..Written(s, i)] == DownQueue(s.clients[i])
  }

  /** What one step does to the broadcasts of the client it changes. */
  lemma DownLocal(s: System, a: Action)
    requires Enabled(s, a) && ClientOf(s, a) < 6
    ensures var c, d := s.clients[ClientOf(s, a)], Step(s, a).clients[ClientOf(s, a)];
            DownQueue(d) == DownQueue(c) + if a.Send? then [s.broadcaster.msg] else []
  {
    hide AfterCommand, Fputs;
  }

  lemma DownStep(s: System, a: Action)
    requires DownInv(s) && Enabled(s, a)
    ensures DownInv(Step(s, a))
  {
    hide AfterCommand, Fputs, Screen.Step, Screen.Enabled, DownQueue;
    OneClientChanges(s, a);
    DownLocal(s, a);
  }

  /** Nothing has passed through a slot that no client has taken yet. */
  ghost predicate SlotInv(s: System) {
    && s.connected <= 6
    && forall i | s.connected <= i < 6 ::
         var c := s.clients[i];
         && c.upPipe == [] && c.handler.Reading? && c.downSocket == []
         && c.screen.received == [] && c.screen.socket.AtSocket?
  }

  lemma SlotStep(s: System, a: Action)
    requires SlotInv(s) && Enabled(s, a)
    ensures SlotInv(Step(s, a))
  {
    hide AfterCommand, Fputs;
  }

  /** Every command carried out came from one of the six slots, and its shuffle is one `shuffle` could make. */
  predicate LogInv(s: System) {
    forall k | 0 <= k < |s.commits| ::
      s.commits[k].client < 6 && IsShuffle(s.commits[k].shuffled, MIN_DEPTH, MAX_DEPTH)
  }

  lemma LogStep(s: System, a: Action)
    requires LogInv(s) && Enabled(s, a)
    ensures LogInv(Step(s, a))
  {
    hide AfterCommand, Fputs, Screen.Step, Screen.Enabled, IsShuffle;
  }

  /** How many face keys are among `keys`. */
  function FaceKeys(keys: seq<int>): nat {
    if keys == [] then 0
    else FaceKeys(keys[..|keys| - 1]) + if IsFaceKey(keys[|keys| - 1]) then 1 else 0
  }

  lemma FaceKeysAppend(keys: seq<int>, key: int)
    ensures FaceKeys(keys + [key]) == FaceKeys(keys) + if IsFaceKey(key) then 1 else 0
  {
    assert (keys + [key])[..|keys|] == keys;
  }

  lemma {:induction false} FaceKeyCounts(keys: seq<int>, k: nat)
    requires k < |keys| && 48 <= keys[k] <= 53
    ensures FaceKeys(keys) > 0
  {
    if k < |keys| - 1 {
      FaceKeyCounts(keys[..|keys| - 1], k);
    }
  }

  /** The view of a client has been told of every line decoded and of every face key pressed, except for the one that
      a thread is about to post. */
  predicate PostsCounted(c: Client) {
    c.screen.posts == |c.screen.received| - (if c.screen.socket.Decoded? then 1 else 0)
                      + FaceKeys(c.keys) - (if c.screen.keyboard.FaceChosen? then 1 else 0)
  }

  predicate PostInv(s: System) {
    forall i | 0 <= i < 6 :: PostsCounted(s.clients[i])
  }

  lemma ScreenPosts(c: Client, action: Screen.ScreenAction)
    requires PostsCounted(c) && Screen.Enabled(c.screen, action)
    ensures var key := if action.ChooseFace? then [DIGIT_ZERO + action.face] else [];
            PostsCounted(c.(screen := Screen.Step(c.screen, action), keys := c.keys + key))
  {
    hide FaceKeys;
    if action.ChooseFace? {
      FaceKeysAppend(c.keys, DIGIT_ZERO + action.face);
    } else {
      assert c.keys + [] == c.keys;
    }
  }

  lemma LineTaken(t: Screen.Screen, line: Screen.Message)
    requires t.socket.AtSocket?
    ensures Screen.Enabled(t, Screen.TakeLine(line))
  {}

  lemma PostStep(s: System, a: Action)
    requires PostInv(s) && Enabled(s, a)
    ensures PostInv(Step(s, a))
  {
    hide AfterCommand, Fputs, FaceKeys, Screen.Step, Screen.Enabled;
    OneClientChanges(s, a);
    var i := ClientOf(s, a);
    var c := s.clients[i];
    assert PostsCounted(c);
    match a {
      case PressCommand(_, key) => FaceKeysAppend(c.keys, key);
      case OnScreen(_, action) => ScreenPosts(c, action);
      case ReceiveLine(_) =>
        LineTaken(c.screen, c.downSocket[0]);
        ScreenPosts(c, Screen.TakeLine(c.downSocket[0]));
        assert c.keys + [] == c.keys;
      case _ =>
    }
  }

}
