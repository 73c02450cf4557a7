# A networked Rubik's cube, verified

The program keeps a Rubik's cube as six faces of nine colored squares, each face with hand-written tables of the
squares around it. `rotate` copies the cube, rewrites one face and the ring of twelve squares around it through those
tables, and copies the result back. One player can turn the cube alone (`rubiks_view`), or up to six clients can share
one cube on a server: a thread per client carries out commands under a mutex and posts a semaphore, one broadcaster
waits, encodes the cube under the mutex and writes it to six pipes, relay threads carry lines between pipes and
sockets, and every client decodes and draws with three unlocked threads.

The project models this from the heap up and proves what the program is for.

- **The heap does what one permutation does.** `Cube.dfy` keeps the classes, arrays and nested loops of the program;
  `Rotate` is proved equal to one permutation of 54 stickers derived from the tables (`Geometry.dfy`, `Turns.dfy`),
  with every object keeping its identity and every face its tables.
- **The tables describe a real cube.** `Cubies.dfy` and `Reachability.dfy` refine that permutation into twenty whole
  pieces. Twist, flip and the two permutation signs are invariants of every run (`CubeLaws.dfy`, `Parity.dfy`), six
  colors determine the cube, `is_solved` is exact, and an odd number of turns never solves a solved cube.
- **The laws leave nothing out.** `Solvability.dfy` solves every lawful cube (with `Group.dfy`, `Macros.dfy` and
  `Setups.dfy`), so a cube can be reached by turns if and only if it obeys the laws.
- **Runs.** Undoing a run, conservation of colors, order independence on opposite faces (`Runs.dfy`,
  `Permutations.dfy`, `OppositeFaces.dfy`), and what `shuffle` can produce (`Shuffling.dfy`). `Order.dfy` proves how
  often a run must be repeated: n repetitions restore every coloring for every run if and only if n is a multiple of
  55440.
- **The wire.** Which colors survive encoding, that framing and relaying lose nothing, and for which face numbers and
  keys a networked session goes through the same cubes as a local one (`Bytes.dfy`, `Encoding.dfy`, `Commands.dfy`,
  `Play.dfy`).
- **The protocol.** `Server.dfy` is a transition system of all threads; every interleaving of its steps is a run.
  `ServerInvariants.dfy` and `ServerTheorems.dfy` prove consistent and ordered snapshots, no lost update, agreement of
  the pipes, order per client, and that the shared cube is always lawful. `Screen.dfy` proves that no redraw is lost.
  `Convergence.dfy` proves that each client that has caught up with an idle server holds the server's cube, that the
  system always comes to rest when the players do nothing, that rest means every queue somebody reads is empty, and
  that at rest all accepted clients show the same cube. `ReachableCubes.dfy` proves that every accepted
  client, alone, can bring the system to rest on exactly the lawful cubes, `Sessions.dfy` that keys can be typed at any
  time and that a player alone on the network plays the single-device game, and `Interleaving.dfy` that players on
  opposite faces cannot race.

`Macros.dfy` and `Setups.dfy` are worked cases: short fixed runs of turns followed piece by piece, which the solving
argument of `Solvability.dfy` combines.

## How the code is read

- `char` is a signed 8-bit value and `int` is wide enough for every value that occurs; the casts of `encode` and
  `decode` are modelled with their wrap-around.
- The numbers that `rand_r` returns are parameters, quantified over: a depth draw and a pair of draws for each turn.
  The order in which C evaluates the two draws of one call therefore makes no difference.
- Pipes and sockets are unbounded first-in-first-out queues. In `Server.dfy` they hold whole lines; `Bytes.dfy`,
  `Encoding.dfy` and `Commands.dfy` prove that the bytes written are exactly such lines and that `getline` and the
  relays recover them.
- Clients are accepted one after the other and take the six slots in order. Before that a client may already type,
  but its commands wait in its socket: the relays of a slot run only once its client has been accepted. The
  broadcaster writes to all six pipes from the start, so the pipe of an empty slot fills and nobody reads it
  (`Convergence.UnreadPipe`).
- The unlocked threads of a client are interleaved step by step, one array element at a time, on sequentially
  consistent memory.
- A handler inside its critical section may make any intermediate cube visible (`Scribble`) before it completes its
  command, as often as the longest command writes a square of the shared cube: thirty turns copy 54 squares back each.
  Nothing proved relies on what those intermediate cubes are.
- What has been pressed, sent, carried out, posted and broadcast is recorded in fields that no step looks at.
- The step that completes a command, the buffer `encode` fills and the assignments of `decode` use the same functions
  (`AfterCommand`, `EncodedBuffer`, `DecodedColors`) as the contracts of the heap methods.
- README.md:69 of the repository tells a player who sees nothing to press a face key; the code does not require a
  face to be selected first. `Play.PlaysAlikeExactly` and `Play.NetworkRefinesLocal` state exactly what depends on it.

## Model

| member | source | states |
|---|---|---|
| Geometry.TablesInRange | src/rubiks_start.c:39-120 | no table entry that is used is undefined or points back at its own face |
| Geometry.RingInjective | src/rubiks_start.c:39-120 | the twelve squares a face's tables list are distinct and the table position can be recovered from the square |
| Turns.SourceCycle | src/rubiks_start.c:186-266 | on every sticker a counter-clockwise turn is three clockwise ones and undoes one |
| Turns.SourceOpposite | src/rubiks_start.c:269-283 | a turn and its opposite are inverse bijections of the 54 stickers |
| CubeObjects.AdjacentFace.constructor | src/rubiks_start.c:11-20 | the record holds the face number and the three squares given, in an array of its own |
| CubeObjects.Face.InitializeAdjacentFaces | src/rubiks_start.c:24-31 | four fresh records, pairwise different, holding the tables of the face |
| CubeObjects.Face.constructor | src/rubiks_start.c:33-126 | a fresh face of one color that owns four separate records with its tables |
| CubeObjects.Face.CopyAdjacentFace | src/rubiks_start.c:160-165 | one record takes over the other's contents and nothing else changes |
| CubeObjects.Face.CopyFrom | src/rubiks_start.c:167-178 | colors and all four records are copied; no record object is replaced |
| CubeObjects.Face.TransposeClockwise | src/rubiks_start.c:186-199 | all nine squares come from their clockwise source |
| CubeObjects.Face.TransposeCounterclockwise | src/rubiks_start.c:201-214 | all nine squares come from their counter-clockwise source |
| CubeObjects.Cube.constructor | src/rubiks_start.c:135-141 | six fresh, separate faces with the canonical tables, showing the solved coloring |
| CubeObjects.Cube.CopyFrom | src/rubiks_start.c:180-184 | afterwards all 54 squares agree with the original, the faces stay separate and keep their tables |
| CubeObjects.Cube.TransposeOtherFacesClockwise | src/rubiks_start.c:216-239 | the nested loops write each ring square once, from its source in the original; every other square keeps its color |
| CubeObjects.Cube.TransposeOtherFacesCounterclockwise | src/rubiks_start.c:241-266 | the same in the other direction |
| CubeObjects.Cube.TransposeFace | src/rubiks_start.c:272-278 | direction 0 turns the face clockwise, any other direction counter-clockwise, and the other faces keep their colors |
| CubeObjects.MovedStep | src/rubiks_start.c:224-238 | each assignment of the ring loops takes its color from the source of the square it writes, and that square has not been written before |
| CubeObjects.Cube.Rotate | src/rubiks_start.c:268-283 | on all 54 stickers the new coloring is the old one rearranged by the one permutation of the turn; all objects stay separate with their tables |
| CubeObjects.Cube.Shuffle | src/rubiks_start.c:285-291 | the cube is turned by the one run the draws call for: its length lies between the bounds and is congruent to the first draw, and face and direction of turn i are congruent to the draws number i |
| CubeObjects.Cube.IsSolved | src/rubiks_start.c:293-302 | 1 if and only if the coloring is the one `make_cube` builds |
| CubeObjects.Cube.Reset | src/server/rubiks_server.c:373-376 | every face is replaced by a new one and the cube is solved |
| Runs.UndoRestores | src/rubiks_start.c:186-283 | for every run, the reversed run with directions flipped restores every coloring and is as long |
| Runs.RunActs | src/rubiks_start.c:269-283 | a run acts on every coloring by one permutation of the 54 stickers |
| Runs.Conservation | src/rubiks_start.c:186-283 | every run keeps the multiset of the 54 colors and all six centres |
| Runs.FiniteOrder | src/rubiks_start.c:186-283 | repeating any run 54! times restores every coloring |
| Order.RestoresExactly | src/rubiks_start.c:186-283 | repetitions of a run restore every coloring if and only if they put every piece back |
| Order.CommonOrder | src/rubiks_start.c:186-283 | 55440 repetitions of any run put every piece back |
| Order.OrderOfTheCube | src/rubiks_start.c:186-283 | n repetitions restore every coloring for every run if and only if n is a multiple of 55440 |
| OppositeFaces.TurnsCommute | src/rubiks_start.c:39-120 | turns of opposite faces commute on every coloring |
| OppositeFaces.NormalForm | src/rubiks_start.c:269-283 | a run over one opposite pair equals the two net turns, each modulo four |
| OppositeFaces.OrderIndependence | src/rubiks_start.c:269-283 | two such runs do the same to every coloring if and only if both net turns agree |
| Cubies.StickerInSlot | src/rubiks_start.c:39-120 | every one of the 54 stickers lies in a slot of a corner, an edge or a centre |
| Cubies.SlotOfSticker | src/rubiks_start.c:39-120 | and in only that one: the slot can be read back from the sticker, so no two slots share a sticker |
| Cubies.PiecesMoveWhole | src/rubiks_start.c:39-120 | the stickers of a slot arrive together from one slot, in the same rotational order, for every face |
| CubeLaws.QuarterCornerSign | src/rubiks_start.c:186-239 | a quarter turn changes the sign of the corner permutation |
| CubeLaws.QuarterEdgeSign | src/rubiks_start.c:186-239 | a quarter turn changes the sign of the edge permutation |
| CubeLaws.QuarterTwist | src/rubiks_start.c:186-239 | a quarter turn keeps the total corner twist modulo three |
| CubeLaws.QuarterFlip | src/rubiks_start.c:186-239 | a quarter turn keeps the total edge flip modulo two |
| Reachability.QuarterRefines | src/rubiks_start.c:186-239 | moving pieces and moving stickers is the same thing for a clockwise turn of any cube |
| Reachability.TurnedRefines | src/rubiks_start.c:269-283 | the same for a turn in either direction |
| Reachability.PiecesStayWhole | src/rubiks_start.c:269-283 | for every run the sticker permutation is the one carried by the pieces |
| Reachability.CubeLaw | src/rubiks_start.c:39-283 | after every run each piece is there once, twist is 0 modulo 3, flip is 0 modulo 2, the signs agree, and they count the turns modulo two |
| Reachability.ColorsDetermine | src/rubiks_start.c:293-302 | two cubes that show the same colors have the same pieces in the same places, turned the same way |
| Reachability.SolvedAfterRun | src/rubiks_start.c:269-283 | the coloring after a run from solved is the one its pieces show |
| Reachability.SameColorsSamePermutation | src/rubiks_start.c:269-302 | two runs from solved show the same colors if and only if they move every sticker alike |
| Reachability.SolvedIsExact | src/rubiks_start.c:269-302 | a run from solved looks solved if and only if it has put back every sticker |
| Reachability.OddRunsNeverSolved | src/rubiks_start.c:186-302 | an odd number of turns from solved never looks solved |
| Group.CubeOfConcat | src/rubiks_start.c:269-283 | running one run after another composes their cubes |
| Group.LeftInverse | src/rubiks_start.c:269-283 | a run and its undoing are inverse on the pieces |
| Group.ConjugateEdges | src/rubiks_start.c:269-283 | setup, middle part, undone setup: the edges in the places set up are moved and flipped as the middle part does it |
| Group.ConjugateCorners | src/rubiks_start.c:269-283 | the same for corners and twists |
| Macros.EdgeTraced | src/rubiks_start.c:269-283 | following one edge turn by turn tells its place and flip after the whole run |
| Macros.CornerTraced | src/rubiks_start.c:269-283 | the same for a corner and its twist |
| Setups.EdgeSetup | src/rubiks_start.c:39-120 | some run brings any three edges to slots 0, 8 and 3 |
| Setups.CornerSetup | src/rubiks_start.c:39-120 | some run brings any three corners to slots 0, 2 and 3 |
| Solvability.EdgeThree | src/rubiks_start.c:269-283 | any three edges can be cycled |
| Solvability.EdgeFlips | src/rubiks_start.c:269-283 | any two edges can be flipped in place |
| Solvability.CornerThree | src/rubiks_start.c:269-283 | any three corners can be cycled without moving an edge |
| Solvability.CornerTwists | src/rubiks_start.c:269-283 | any two corners can be twisted against each other in place without moving an edge |
| Solvability.Solve | src/rubiks_start.c:269-302 | every lawful cube has a run that solves it |
| Solvability.LawfulIsAttainable | src/rubiks_start.c:39-283 | a cube can be made from the solved one by turns if and only if it is lawful |
| Shuffling.DrawnRunFits | src/rubiks_start.c:285-291 | the run that is made fits its draws: count, faces and directions lie in their ranges and differ from the draws by multiples of the moduli |
| Shuffling.ShuffleDecided | src/rubiks_start.c:285-291 | only one run fits given draws |
| Shuffling.ShuffleRange | src/rubiks_start.c:285-291 | exactly the runs of directions 0 and 1 with a length between the bounds can come out of the draws |
| Shuffling.ShuffleSolvable | src/rubiks_start.c:285-291 | a shuffled cube can be solved in at most max_depth turns |
| Shuffling.OddShuffle | src/rubiks_start.c:285-302 | a shuffle of odd depth never looks solved |
| Bytes.FramingLossless | src/server/rubiks_server.c:218-220 | lines written one after the other are read back one after the other |
| Bytes.RelayExact | src/server/rubiks_server.c:311-315 | a relay passes a stream on unchanged if and only if there is no NUL in it |
| Bytes.LinesThroughRelay | src/server/rubiks_server.c:351-355 | lines without NUL come out of the relay as the same lines |
| Bytes.Relay | src/server/rubiks_server.c:311-315 | the relay loop computes that stream |
| Encoding.Encode | src/server/encoding.c:9-21 | the buffer holds one character per square, face after face, newline and NUL; the status is 0 |
| Encoding.Decode | src/server/encoding.c:23-30 | all 54 squares are set from the characters; faces and tables stay as they are |
| Encoding.ArrivesIntact | src/server/encoding.c:9-30 | a cube arrives intact, whatever follows it, if and only if all its colors lie in the range of `char` and encode to neither NUL nor newline |
| Encoding.StreamRoundTrip | src/server/rubiks_server.c:147-159 | any list of such cubes, written, relayed, split into lines and decoded, comes back as the same list |
| Commands.EncodeUserInput | src/server/rubiks_client.c:257-295 | for a face 0 to 5 and the keys a, d and space the exact four bytes and status 0; otherwise status 1 and what has been written of the buffer |
| Commands.DecodeUserInput | src/server/rubiks_server.c:366-381 | direction character 2 shuffles a solved cube by the 20 to 30 turns the draws call for and resets an unsolved one; any other direction turns the named face that way |
| Commands.CommandMeansKey | src/server/rubiks_client.c:257-295 | what the server does with the line is what the key means on a single device |
| Play.PressKey | src/rubiks_view.c:54-80 | a and d turn the selected face either way, space shuffles a solved cube by the 20 to 30 turns the draws call for and solves an unsolved one, the digits 0 to 5 select a face, and nothing else changes anything |
| Play.QuitEndsLocal | src/rubiks_view.c:81-83 | a session is over at the first q or Q: nothing that follows matters |
| Play.LocalGoesOn | src/rubiks_view.c:34-84 | after keys without q and Q a session goes on from the cube and the face they have led to |
| Play.OneKey | src/rubiks_view.c:54-80 | what one key adds to a session, for each key code |
| Play.View | src/rubiks_view.c:34-84 | the key loop goes through exactly the cubes of such a session, those of the keys before a q or Q if there is one |
| Play.QuitEndsLines | src/server/rubiks_client.c:162-164 | nothing is sent for a q or Q or for anything that follows |
| Play.LinesGoOn | src/server/rubiks_client.c:130-165 | after keys without q and Q a client goes on sending for the face they have selected |
| Play.OneLine | src/server/rubiks_client.c:130-161 | the exact bytes one key sends, for each key code and each number in the face variable |
| Play.ListenToCurses | src/server/rubiks_client.c:130-165 | the key loop writes exactly these lines, those of the keys before a q or Q if there is one |
| Play.ListenToPipe | src/server/rubiks_server.c:218-220 | the line loop takes the shared cube through the states the lines stand for |
| Play.NetworkLines | src/server/rubiks_server.c:351-355 | what the server reads from the relay is what the client sent |
| Play.SameFaceSamePlay | src/rubiks_view.c:54-80 | with the same face selected, the server's cubes on the client's lines are the local cubes on the keys |
| Play.PlaysAlikeExactly | src/server/rubiks_client.c:130-161 | for each number in the face variable and each list of keys, networked play equals local play for all cubes and draws if and only if the number is the front face, or another face and no turn comes before the first face key, or no face and no command at all comes before it |
| Play.NetworkRefinesLocal | src/server/rubiks_client.c:130-161 | networked play equals local play for every number in the face variable if and only if a face is selected before the first command |
| Screen.StepInv | src/server/rubiks_client.c:188-241 | every step of the key, socket and view threads keeps the screen invariant |
| Screen.PostsMatchEvents | src/server/rubiks_client.c:148-199 | in every run there has been one post for each line that arrived and each face key pressed, but for the ones a thread is about to make |
| Screen.NoLostRedraw | src/server/rubiks_client.c:142-241 | after any interleaving with at least one line or face key, when the view sleeps on a zero semaphore and no thread is between write and post, the display is the face chosen last of the cube in the line that arrived last |
| Screen.TornFrame | src/server/rubiks_client.c:209-241 | until then the display can be wrong: any number of squares drawn from the old cube, the others from a cube of which any number of squares have been decoded |
| ServerInvariants.MutexStep | src/server/rubiks_server.c:143-175 | the mutex always names the one thread in a critical section |
| ServerInvariants.CubeStep | src/server/rubiks_server.c:143-175 | outside a critical section the shared cube is the replay of the commands so far, and the broadcaster copies that cube square by square |
| ServerInvariants.CountStep | src/server/rubiks_server.c:143-175 | commands = posts + posts owed, posts = waits + semaphore, waits = broadcasts + one under way |
| ServerInvariants.MarkStep | src/server/rubiks_server.c:143-153 | each broadcast is the encoding of the cube after a prefix of the commands, and the prefixes grow |
| ServerInvariants.UpStep | src/server/rubiks_server.c:351-355 | no step loses, duplicates or reorders a client's commands |
| ServerInvariants.SlotStep | src/server/run_server.c:47-52 | nothing passes through a slot before its client is accepted |
| ServerInvariants.DownStep | src/server/rubiks_server.c:155-161 | no step loses, duplicates or reorders a client's broadcasts |
| ServerInvariants.PostStep | src/server/rubiks_client.c:148-199 | in the whole system the view of each client is told of every line decoded and every face key pressed |
| ServerTheorems.SystemStep | src/server/rubiks_server.c:130-175 | every step of every thread keeps all invariants together |
| ServerTheorems.ReachableHolds | src/server/run_server.c:12-57 | the invariants hold in every state reached by any interleaving |
| ServerTheorems.ReplayAttainable | src/server/rubiks_server.c:366-381 | whatever is commanded, the cube is one that turns can produce |
| ServerTheorems.CommandsReachLawful | src/server/rubiks_server.c:366-381 | lists of commands, carried out one after the other, lead to exactly the colorings of lawful cubes |
| ReachableCubes.TakeCommand | src/server/rubiks_server.c:166-220 | a command key pressed on any accepted client at rest travels through socket, relay and pipe to its server thread, which takes the mutex |
| ReachableCubes.FinishCommand | src/server/rubiks_server.c:166-175 | the thread that has the mutex carries its command out with any shuffle of 20 to 30 turns, frees the mutex and posts |
| ReachableCubes.JourneyWorks | src/server/rubiks_server.c:166-220 | so the command is carried out, and nobody else's keys and commands change |
| ReachableCubes.PlayTurn | src/server/rubiks_server.c:166-381 | any accepted client can make any turn from a state at rest and bring the system to rest again |
| ReachableCubes.PlaySpace | src/server/rubiks_server.c:369-377 | its space key leads from a solved cube to rest on every cube 20 to 30 turns make, and from an unsolved one to rest on the solved cube |
| ReachableCubes.FluxHappens | src/server/rubiks_server.c:166-175 | while a command is carried out the shared cube can be any coloring, after any of up to 1620 writes |
| ReachableCubes.Settle | src/server/rubiks_server.c:130-175 | with no command under way the system comes to rest on the cube it holds |
| ReachableCubes.PlayerReachesLawful | src/server/rubiks_server.c:130-381 | with one to six clients accepted, each of them alone can bring the system to rest on a coloring if and only if it is the coloring of a lawful cube |
| ReachableCubes.ServerReachesLawful | src/server/rubiks_server.c:130-381 | there is a reachable state at rest with six clients and a given coloring if and only if it is the coloring of a lawful cube |
| ServerTheorems.AttainableSendable | src/server/encoding.c:13 | every cube the server can hold has colors 0 to 5 only, so it can always be encoded |
| ServerTheorems.CubeStaysLawful | src/server/rubiks_server.c:166-175 | in every reachable state outside a critical section the shared cube is the replay of the commands in the order of the lock, and shows exactly one lawful cube |
| ServerTheorems.BroadcastsLinearize | src/server/rubiks_server.c:143-153 | broadcast k decodes to the cube after some prefix of at least k + 1 commands (k counted from 0), and the prefixes never shrink |
| ServerTheorems.NoLostUpdate | src/server/rubiks_server.c:143-175 | once handlers, semaphore and broadcaster are idle there are as many broadcasts as commands and the last one decodes to the current cube |
| ServerTheorems.PipesAgree | src/server/rubiks_server.c:155-161 | each pipe's history is a prefix of the broadcasts and any two differ by at most one |
| ServerTheorems.ClientOrder | src/server/rubiks_server.c:218-220 | the commands carried out for a client are a prefix of those it sent, and the rest is still queued in order |
| Interleaving.MutexOrderIrrelevant | src/server/rubiks_server.c:166-175 | two command logs with the same turns of two players on opposite faces, in any two orders, lead from any log to the same cube |
| Interleaving.ScheduleIrrelevant | src/server/rubiks_server.c:166-220 | two reachable states at rest in which only two players on opposite faces have sent turns, the same ones, hold the same cube |
| Sessions.KeyStep | src/server/rubiks_client.c:130-161 | in the whole system the lines of a client and its selected face always follow from the keys pressed on it |
| Sessions.TypeAhead | src/server/rubiks_client.c:130-161 | from every reachable state any keys can be typed on any client, accepted or not, and exactly their lines are sent |
| Sessions.OnePlayer | src/rubiks_view.c:54-80 | in every reachable state outside a critical section, with one player and a start alike, the shared cube is the cube of the single-device game after as many commands as have been carried out, for some outcomes of the shuffles |
| Convergence.StepWorks | src/server/rubiks_server.c:130-175 | every step but a player's lowers a measure of the work left, single writes inside a critical section included |
| Convergence.ComesToRest | src/server/rubiks_server.c:130-175 | from any state, the number of steps the program makes without the players is at most that measure, in every interleaving |
| Convergence.WholeLinesArrive | src/server/rubiks_client.c:188-195 | only complete cube lines reach a client, so `decode` never reads past the end of a line |
| Convergence.HandlerWaits | src/server/rubiks_server.c:166-220 | a server thread is held up if and only if its pipe is empty or it wants the mutex and somebody has it |
| Convergence.BroadcasterWaits | src/server/rubiks_server.c:143-162 | the broadcaster is held up if and only if its semaphore is 0 or it wants the mutex and somebody has it |
| Convergence.ClientWaits | src/server/rubiks_client.c:188-227 | the socket thread of a client is held up if and only if no line is there, its view if and only if its semaphore is 0 |
| Convergence.RelayWaits | src/server/rubiks_server.c:311-355 | the relays of an accepted client are held up if and only if there is no line |
| Convergence.RestIsDrained | src/server/rubiks_server.c:143-175 | in a reachable state nothing but a player's step can happen if and only if all threads wait and every queue that somebody reads is empty: there is no deadlock |
| Convergence.CaughtUp | src/server/rubiks_server.c:311-315 | once the server is idle, every client whose own pipe and socket have run empty and that is not decoding has received every broadcast and holds the server's cube, and shows its face of it when its view sleeps with nothing pending and there has been a broadcast or a face key, whatever the other clients do |
| Convergence.UnreadPipe | src/server/rubiks_server.c:155-161 | the pipe of a slot without a client holds every broadcast written to it |
| Convergence.RestAgrees | src/server/rubiks_client.c:188-241 | at rest every accepted client has had all its commands carried out, has received every broadcast, holds the server's cube, and shows its selected face of it if there has been a broadcast or a face key |

## Left out

- Sockets, `fork`, `accept4`, descriptor handling, `error_and_exit` and debug prints: operating-system plumbing.
- Curses drawing, color pairs and cursor arithmetic: a draw is the reading of nine squares of the selected face.
- `time`, `rand_r` and the quality of the seed: every draw is an arbitrary non-negative number.
- `malloc` failure, `free` and leaks, quitting a client, and the end of threads and processes: running threads only.
- Limits on the capacity of pipes and sockets, and partial writes: one `fputs` and `fflush` of a line is one step in `Server.dfy`. With a bounded pipe the broadcaster would block once the unread pipe of an empty slot is full; the model does not.
- Relaxed memory: the unlocked client threads interleave on sequentially consistent memory.
- The `default` branch of `make_face`, which leaves a face without tables: the program never takes it.
- Faces outside 0 to 5 in a turn command: no client sends one, and the program then reads outside the cube.
- Screen.NoLostRedraw: assumes a valid number in the client's face variable, because the code draws from an uninitialised one if a broadcast arrives before the first face key.
- Play.View: starts with the cube that the opening `shuffle` has left and leaves the drawing out.
- Play.ListenToPipe: requires command lines with a known face (or the space direction), as every client writes them.
- `print_cube`, `server_util.c` and the loop of `run_client.c` would only add easy members.
