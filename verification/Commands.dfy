/** The commands a client sends for a key, and what the server does on receiving one. */
module Commands {
  import opened Geometry
  import opened Turns
  import opened Runs
  import opened Bytes
  import opened Reachability
  import opened Shuffling
  import opened CubeObjects

  const KEY_A := 97
  const KEY_D := 100
  const KEY_SPACE := 32
  const N_CHARACTERS_TO_ENCODE_MOVE := 4

  predicate IsCommandKey(key: int) {
    key == KEY_A || key == KEY_D || key == KEY_SPACE
  }

  predicate IsFaceKey(key: int) {
    DIGIT_ZERO <= key <= DIGIT_ZERO + 5
  }

  function DirectionDigit(key: int): Byte {
    DIGIT_ZERO + if key == KEY_A then 1 else if key == KEY_D then 0 else 2
  }

  /** The line that reaches the server for a command key pressed while `face` is selected. */
  function CommandLine(key: int, face: FaceId): seq<Byte> {
    [DIGIT_ZERO + face, DirectionDigit(key), NEWLINE]
  }

  /** `encode_user_input`: 0 and a complete command, or 1 when the face or the key is none of the known ones. */
  method EncodeUserInput(input: int, faceNum: int, encodedMessage: array<Byte>) returns (status: int)
    requires encodedMessage.Length == N_CHARACTERS_TO_ENCODE_MOVE
    modifies encodedMessage
    ensures status == 0 <==> 0 <= faceNum < 6 && IsCommandKey(input)
    ensures status == 0 ==> Fputs(encodedMessage[..]) == CommandLine(input, faceNum)
    ensures 0 <= faceNum < 6 && input == 97 ==> status == 0 && encodedMessage[..] == [48 + faceNum, 49, 10, 0]
    ensures 0 <= faceNum < 6 && input == 100 ==> status == 0 && encodedMessage[..] == [48 + faceNum, 48, 10, 0]
    ensures 0 <= faceNum < 6 && input == 32 ==> status == 0 && encodedMessage[..] == [48 + faceNum, 50, 10, 0]
    ensures !(0 <= faceNum < 6) || (input != 97 && input != 100 && input != 32) ==> status == 1
    ensures status != 0 ==> status == 1 && encodedMessage[1] == old(encodedMessage[1])
    ensures 0 <= faceNum < 6 ==>
              encodedMessage[0] == DIGIT_ZERO + faceNum && encodedMessage[2] == NEWLINE && encodedMessage[3] == NUL
    ensures !(0 <= faceNum < 6) ==> encodedMessage[..] == old(encodedMessage[..])
  {
    if faceNum == FACE_FRONT {
      encodedMessage[0] := 48;
    } else if faceNum == FACE_RIGHT {
      encodedMessage[0] := 49;
    } else if faceNum == FACE_TOP {
      encodedMessage[0] := 50;
    } else if faceNum == FACE_BOTTOM {
      encodedMessage[0] := 51;
    } else if faceNum == FACE_LEFT {
      encodedMessage[0] := 52;
    } else if faceNum == FACE_BACK {
      encodedMessage[0] := 53;
    } else {
      return 1;
    }
    encodedMessage[N_CHARACTERS_TO_ENCODE_MOVE - 2] := NEWLINE;
    encodedMessage[N_CHARACTERS_TO_ENCODE_MOVE - 1] := NUL;
    if input == KEY_A {
      encodedMessage[1] := 49;
    } else if input == KEY_D {
      encodedMessage[1] := 48;
    } else if input == KEY_SPACE {
      encodedMessage[1] := 50;
    } else {
      return 1;
    }
    FindUnique(encodedMessage[..], NUL, 3);
    assert encodedMessage[..][..3] == CommandLine(input, faceNum);
    return 0;
  }

  /** The server reads a face digit and a direction digit off the front of a line; direction 2 is the space key. */
  predicate WellFormedCommand(line: seq<Byte>) {
    |line| >= 2 && (CharValue(line[1]) - DIGIT_ZERO == 2 || 0 <= CharValue(line[0]) - DIGIT_ZERO < 6)
  }

  /** The coloring after a command, when a shuffle it may call for comes out as `shuffled`. */
  function AfterCommand(c: Coloring, line: seq<Byte>, shuffled: seq<Turn>): Coloring
    requires WellFormedCommand(line)
  {
    var direction := CharValue(line[1]) - DIGIT_ZERO;
    if direction == 2 then
      if c == Solved() then AfterRun(c, shuffled) else Solved()
    else
      After(c, Turn(CharValue(line[0]) - DIGIT_ZERO, direction))
  }

  /** `decode_user_input` */
  method DecodeUserInput(command: seq<Byte>, globalCubeState: Cube, depthDraw: nat, draws: seq<TurnDraw>)
    requires globalCubeState.Valid() && WellFormedCommand(command)
    requires Depth(depthDraw, MIN_DEPTH, MAX_DEPTH) <= |draws|
    modifies globalCubeState.Repr
    ensures globalCubeState.Valid() && fresh(globalCubeState.Repr - old(globalCubeState.Repr))
    ensures globalCubeState.Colors() == AfterCommand(old(globalCubeState.Colors()), command,
              DrawnRun(draws, Depth(depthDraw, MIN_DEPTH, MAX_DEPTH)))
    ensures command[1] == 50 && old(globalCubeState.Colors()) == Solved() ==>
              exists run: seq<Turn> ::
                ShuffleMakes(run, 20, 30, depthDraw, draws) && globalCubeState.Colors() == AfterRun(Solved(), run)
    ensures command[1] == 50 && old(globalCubeState.Colors()) != Solved() ==> globalCubeState.Colors() == Solved()
    ensures command[1] != 50 ==>
              var turn := Turn(CharValue(command[0]) - 48, CharValue(command[1]) - 48);
              globalCubeState.Colors() == After(old(globalCubeState.Colors()), turn)
  {
    hide After, AfterRun, Depth, DrawnRun, Solved, ShuffleMakes, Cube.Colors;
    var faceNum := CharValue(command[0]) - DIGIT_ZERO;
    var direction := CharValue(command[1]) - DIGIT_ZERO;
    if direction == 2 {
      var solved := globalCubeState.IsSolved();
      if solved {
        globalCubeState.Shuffle(MIN_DEPTH, MAX_DEPTH, depthDraw, draws);
      } else {
        globalCubeState.Reset();
      }
    } else {
      globalCubeState.Rotate(faceNum, direction);
    }
  }

  /** What a command key means locally: turn the selected face, or shuffle a solved and solve an unsolved cube. */
  function AfterKey(c: Coloring, key: int, face: FaceId, shuffled: seq<Turn>): Coloring {
    if key == KEY_A then After(c, Turn(face, 1))
    else if key == KEY_D then After(c, Turn(face, 0))
    else if c == Solved() then AfterRun(c, shuffled) else Solved()
  }

  /** The server understands exactly what the client meant. */
  lemma CommandMeansKey(c: Coloring, key: int, face: FaceId, shuffled: seq<Turn>)
    requires IsCommandKey(key)
    ensures WellFormedCommand(CommandLine(key, face)) && IsLine(CommandLine(key, face))
    ensures AfterCommand(c, CommandLine(key, face), shuffled) == AfterKey(c, key, face, shuffled)
  {
    hide After, AfterRun;
  }

}
