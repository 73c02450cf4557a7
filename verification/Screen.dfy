/** One client as three threads that share a cube, a face number and a semaphore without a lock: the socket thread
    decodes square by square, the key thread selects faces, the view thread draws square by square. */
module Screen {
  import opened Geometry
  import opened Runs
  import opened Bytes
  import opened Reachability
  import opened Encoding

  type Message = m: seq<Byte> | |m| >= 54 witness seq(54, _ => 0)

  datatype SocketThread = AtSocket | Decoding(line: Message, next: nat) | Decoded
  datatype KeyThread = AtKeyboard | FaceChosen
  datatype ViewThread = Asleep | Awake | Drawing(face: FaceId, next: nat)

  /** `received` and `posts` only record what has happened. */
  datatype Screen = Screen(
    cube: Coloring, faceId: FaceId, semaphore: nat,
    socket: SocketThread, keyboard: KeyThread, view: ViewThread,
    display: seq<int>, received: seq<Message>, posts: nat)

  datatype ScreenAction =
    | TakeLine(line: Message)    // getline returned a line
    | DecodeSquare               // one assignment of decode
    | DecodeEnd                  // decode returned
    | SocketPost                 // sem_post by the socket thread
    | ChooseFace(face: FaceId)   // a face key: the face variable is written
    | KeyPost                    // sem_post by the key thread
    | Wake                       // sem_wait returned
    | ReadFace                   // the face variable is read for the call
    | DrawSquare                 // one square is read and shown
    | DrawEnd                    // the drawing call returned

  predicate Enabled(s: Screen, a: ScreenAction) {
    match a
    case TakeLine(_) => s.socket.AtSocket?
    case DecodeSquare => s.socket.Decoding? && s.socket.next < 54
    case DecodeEnd => s.socket.Decoding? && s.socket.next == 54
    case SocketPost => s.socket.Decoded?
    case ChooseFace(_) => s.keyboard.AtKeyboard?
    case KeyPost => s.keyboard.FaceChosen?
    case Wake => s.view.Asleep? && s.semaphore > 0
    case ReadFace => s.view.Awake?
    case DrawSquare => s.view.Drawing? && s.view.next < 9 && |s.display| == 9
    case DrawEnd => s.view.Drawing? && s.view.next == 9
  }

  function Step(s: Screen, a: ScreenAction): Screen
    requires Enabled(s, a)
  {
    match a
    case TakeLine(line) => s.(socket := Decoding(line, 0))
    case DecodeSquare =>
      var k := s.socket.next;
      s.(cube := s.cube[k := CharValue(s.socket.line[k]) - DIGIT_ZERO], socket := s.socket.(next := k + 1))
    case DecodeEnd => s.(socket := Decoded, received := s.received + [s.socket.line])
    case SocketPost => s.(socket := AtSocket, semaphore := s.semaphore + 1, posts := s.posts + 1)
    case ChooseFace(f) => s.(faceId := f, keyboard := FaceChosen)
    case KeyPost => s.(keyboard := AtKeyboard, semaphore := s.semaphore + 1, posts := s.posts + 1)
    case Wake => s.(semaphore := s.semaphore - 1, view := Awake)
    case ReadFace => s.(view := Drawing(s.faceId, 0))
    case DrawSquare =>
      var k := s.view.next;
      s.(display := s.display[k := s.cube[Sticker(s.view.face, k).Index()]], view := s.view.(next := k + 1))
    case DrawEnd => s.(view := Asleep)
  }

  /** A client as it starts: a solved cube, some face number, nothing drawn yet. */
  predicate Initial(s: Screen) {
    && s.cube == Solved() && s.semaphore == 0 && s.posts == 0 && s.received == [] && |s.display| == 9
    && s.socket == AtSocket && s.keyboard == AtKeyboard && s.view == Asleep
  }

  /** The cube the latest received line describes. */
  function LatestCube(received: seq<Message>): Coloring {
    if received == [] then Solved() else DecodedColors(received[|received| - 1])
  }

  predicate Shows(s: Screen, squares: nat) {
    squares <= 9 == |s.display| &&
    forall k | 0 <= k < squares :: s.display[k] == s.cube[Sticker(s.faceId, k).Index()]
  }

  /** A thread has changed, or is changing, what should be seen, and the view has not been told yet or has not
      reacted yet. */
  predicate Pending(s: Screen) {
    s.semaphore > 0 || !s.socket.AtSocket? || !s.keyboard.AtKeyboard?
  }

  ghost predicate Inv(s: Screen) {
    && |s.display| == 9
    && (match s.socket
        case Decoding(line, next) => next <= 54 && s.cube[..next] == DecodedColors(line)[..next]
        case _ => s.cube == LatestCube(s.received))
    && (s.view.Drawing? ==> s.view.next <= 9)
    && (s.posts == 0 ==> s.semaphore == 0 && s.view.Asleep?)
    && (s.posts > 0 && !Pending(s) ==>
          match s.view
          case Asleep => Shows(s, 9)
          case Awake => true
          case Drawing(f, next) => f == s.faceId && Shows(s, next))
  }

  lemma InitialInv(s: Screen)
    requires Initial(s)
    ensures Inv(s)
  {}

  lemma StepInv(s: Screen, a: ScreenAction)
    requires Inv(s) && Enabled(s, a)
    ensures Inv(Step(s, a))
  {}

  ghost predicate RunsFrom(s: Screen, actions: seq<ScreenAction>, r: Screen)
    decreases actions
  {
    if actions == [] then r == s
    else Enabled(s, actions[0]) && RunsFrom(Step(s, actions[0]), actions[1..], r)
  }

  lemma {:induction false} RunInv(s: Screen, actions: seq<ScreenAction>, r: Screen)
    requires Inv(s) && RunsFrom(s, actions, r)
    ensures Inv(r)
    decreases actions
  {
    if actions != [] {
      StepInv(s, actions[0]);
      RunInv(Step(s, actions[0]), actions[1..], r);
    }
  }

  /** The lines that have arrived, oldest first. */
  function LinesTaken(actions: seq<ScreenAction>): seq<Message> {
    if actions == [] then []
    else (if actions[0].TakeLine? then [actions[0].line] else []) + LinesTaken(actions[1..])
  }

  /** How many face keys have been pressed. */
  function FacesChosen(actions: seq<ScreenAction>): nat {
    if actions == [] then 0 else (if actions[0].ChooseFace? then 1 else 0) + FacesChosen(actions[1..])
  }

  /** The face chosen last. */
  function FaceChosenLast(face: FaceId, actions: seq<ScreenAction>): FaceId
    decreases actions
  {
    if actions == [] then face
    else FaceChosenLast(if actions[0].ChooseFace? then actions[0].face else face, actions[1..])
  }

  function InDecode(t: SocketThread): seq<Message> {
    if t.Decoding? then [t.line] else []
  }

  /** The screen accounts for what has happened to it: `lines` have arrived, `faces` face keys have been pressed, and
      every one of them has been posted or is about to be. */
  predicate Accounts(s: Screen, lines: seq<Message>, faces: nat, face: FaceId) {
    && s.received + InDecode(s.socket) == lines
    && s.faceId == face
    && s.posts == |s.received| - (if s.socket.Decoded? then 1 else 0)
                  + faces - (if s.keyboard.FaceChosen? then 1 else 0)
  }

  lemma {:induction false} RunAccounts(s: Screen, actions: seq<ScreenAction>, r: Screen,
                                       lines: seq<Message>, faces: nat, face: FaceId)
    requires RunsFrom(s, actions, r) && Accounts(s, lines, faces, face)
    ensures Accounts(r, lines + LinesTaken(actions), faces + FacesChosen(actions), FaceChosenLast(face, actions))
    decreases actions
  {
    hide Step, Accounts, Enabled;
    if actions == [] {
      assert lines + [] == lines;
    } else {
      var a := actions[0];
      var lines' := lines + if a.TakeLine? then [a.line] else [];
      var faces' := faces + if a.ChooseFace? then 1 else 0;
      var face' := if a.ChooseFace? then a.face else face;
      StepAccounts(s, a, lines, faces, face);
      RunAccounts(Step(s, a), actions[1..], r, lines', faces', face');
      assert lines' + LinesTaken(actions[1..]) == lines + LinesTaken(actions);
    }
  }

  lemma StepAccounts(s: Screen, a: ScreenAction, lines: seq<Message>, faces: nat, face: FaceId)
    requires Enabled(s, a) && Accounts(s, lines, faces, face)
    ensures Accounts(Step(s, a), lines + (if a.TakeLine? then [a.line] else []),
                     faces + (if a.ChooseFace? then 1 else 0), if a.ChooseFace? then a.face else face)
  {}

  /** Every line and every face key leads to one post, once the thread that owes it has made it. */
  lemma PostsMatchEvents(s: Screen, actions: seq<ScreenAction>, r: Screen)
    requires Initial(s) && RunsFrom(s, actions, r)
    ensures r.posts == |LinesTaken(actions)| - (if r.socket.AtSocket? then 0 else 1)
                       + FacesChosen(actions) - (if r.keyboard.FaceChosen? then 1 else 0)
  {
    RunAccounts(s, actions, r, [], 0, s.faceId);
  }

  /** No redraw is lost: after any interleaving of the three threads in which a line has arrived or a face key has been
      pressed, when the view sleeps on a zero semaphore and no thread is between its write and its post, the nine
      squares on display are the face chosen last of the cube that arrived last. */
  lemma NoLostRedraw(s: Screen, actions: seq<ScreenAction>, r: Screen)
    requires Initial(s) && RunsFrom(s, actions, r)
    requires LinesTaken(actions) != [] || FacesChosen(actions) > 0
    requires r.view.Asleep? && !Pending(r)
    ensures r.cube == LatestCube(LinesTaken(actions)) && |r.display| == 9
    ensures var face := FaceChosenLast(s.faceId, actions);
            forall k | 0 <= k < 9 :: r.display[k] == LatestCube(LinesTaken(actions))[Sticker(face, k).Index()]
  {
    InitialInv(s);
    RunInv(s, actions, r);
    RunAccounts(s, actions, r, [], 0, s.faceId);
    assert r.received + [] == r.received && [] + LinesTaken(actions) == LinesTaken(actions);
  }

  lemma {:induction false} RunsJoin(s: Screen, a: seq<ScreenAction>, m: Screen, b: seq<ScreenAction>, r: Screen)
    requires RunsFrom(s, a, m) && RunsFrom(m, b, r)
    ensures RunsFrom(s, a + b, r)
    decreases a
  {
    hide Step, Enabled;
    if a == [] {
      assert a + b == b;
    } else {
      assert (a + b)[1..] == a[1..] + b;
      RunsJoin(Step(s, a[0]), a[1..], m, b, r);
    }
  }

  lemma {:induction false} DecodeSome(s: Screen, n: nat) returns (actions: seq<ScreenAction>, r: Screen)
    requires s.socket.Decoding? && s.socket.next + n <= 54
    ensures RunsFrom(s, actions, r) && r.socket == s.socket.(next := s.socket.next + n)
    ensures r == s.(socket := r.socket, cube := r.cube)
    ensures forall p | 0 <= p < 54 ::
              r.cube[p] == if s.socket.next <= p < s.socket.next + n then CharValue(s.socket.line[p]) - 48
                           else s.cube[p]
    decreases n
  {
    if n == 0 {
      actions, r := [], s;
    } else {
      var rest;
      rest, r := DecodeSome(Step(s, DecodeSquare), n - 1);
      actions := [DecodeSquare] + rest;
    }
  }

  lemma {:induction false} DrawSome(s: Screen, n: nat) returns (actions: seq<ScreenAction>, r: Screen)
    requires s.view.Drawing? && s.view.next + n <= 9 && |s.display| == 9
    ensures RunsFrom(s, actions, r) && r.view == s.view.(next := s.view.next + n) && |r.display| == 9
    ensures r == s.(view := r.view, display := r.display)
    ensures forall k | 0 <= k < 9 ::
              r.display[k] == if s.view.next <= k < s.view.next + n then s.cube[Sticker(s.view.face, k).Index()]
                              else s.display[k]
    decreases n
  {
    if n == 0 {
      actions, r := [], s;
    } else {
      var rest;
      rest, r := DrawSome(Step(s, DrawSquare), n - 1);
      actions := [DrawSquare] + rest;
    }
  }

  /** The threads really do run into each other: while a line is being decoded the view can draw its first `k` squares
      from the old cube and the others from a cube of which any number `n` of squares have been replaced. */
  lemma TornFrame(s: Screen, line: Message, k: nat, n: nat) returns (actions: seq<ScreenAction>, r: Screen)
    requires s.socket.AtSocket? && s.view == Drawing(s.faceId, 0) && |s.display| == 9 && k <= 9 && n <= 54
    ensures RunsFrom(s, actions, r) && |r.display| == 9
    ensures forall q | 0 <= q < 9 ::
              var p := Sticker(s.faceId, q).Index();
              r.display[q] == if k <= q && p < n then CharValue(line[p]) - 48 else s.cube[p]
  {
    var a1, s1 := DrawSome(s, k);
    var s2 := Step(s1, TakeLine(line));
    assert RunsFrom(s1, [TakeLine(line)], s2) by {
      assert [TakeLine(line)][1..] == [];
    }
    var a3, s3 := DecodeSome(s2, n);
    var a4;
    a4, r := DrawSome(s3, 9 - k);
    RunsJoin(s, a1, s1, [TakeLine(line)], s2);
    RunsJoin(s, a1 + [TakeLine(line)], s2, a3, s3);
    RunsJoin(s, a1 + [TakeLine(line)] + a3, s3, a4, r);
    actions := a1 + [TakeLine(line)] + a3 + a4;
  }

}
