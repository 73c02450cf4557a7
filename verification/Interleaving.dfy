/** Two players on opposite faces do not race: the order in which the mutex admits their turns does not matter. */
module Interleaving {
  import opened Geometry
  import opened Turns
  import opened Runs
  import opened Bytes
  import opened OppositeFaces
  import opened Server
  import opened ServerInvariants
  import opened ServerTheorems
  import opened Convergence

  /** A command that turns a face, rather than shuffling or resetting the cube. */
  predicate IsTurn(line: CommandText) {
    CharValue(line[1]) - DIGIT_ZERO != 2
  }

  function TurnOf(line: CommandText): Turn
    requires IsTurn(line)
  {
    Turn(CharValue(line[0]) - DIGIT_ZERO, CharValue(line[1]) - DIGIT_ZERO)
  }

  predicate AllTurns(lines: seq<CommandText>) {
    forall k | 0 <= k < |lines| :: IsTurn(lines[k])
  }

  function TurnsOf(lines: seq<CommandText>): seq<Turn>
    requires AllTurns(lines)
  {
    seq(|lines|, k requires 0 <= k < |lines| => TurnOf(lines[k]))
  }

  /** Client `p` turns face `f`, client `q` the face opposite to it, and nobody else does anything. */
  predicate OppositePlayers(commits: seq<Commit>, p: nat, q: nat, f: FaceId) {
    forall k | 0 <= k < |commits| ::
      && IsTurn(commits[k].line)
      && (commits[k].client == p || commits[k].client == q)
      && TurnOf(commits[k].line).face == if commits[k].client == p then f else OppositeFace(f)
  }

  lemma {:induction false} ReplayTurns(before: seq<Commit>, commits: seq<Commit>)
    requires AllTurns(Texts(commits))
    ensures Replay(before + commits) == AfterRun(Replay(before), TurnsOf(Texts(commits)))
  {
    hide After;
    if commits == [] {
      assert before + commits == before;
    } else {
      var m := |commits| - 1;
      var init, last := commits[..m], commits[m];
      assert Texts(commits)[m] == last.line && Texts(init) == Texts(commits)[..m];
      ReplayTurns(before, init);
      assert before + commits == (before + init) + [last];
      ReplayStep(before + init, last);
      assert TurnsOf(Texts(commits))[..m] == TurnsOf(Texts(init));
    }
  }

  lemma NetAppend(lines: seq<CommandText>, line: CommandText, f: FaceId)
    requires AllTurns(lines) && IsTurn(line)
    ensures AllTurns(lines + [line])
    ensures var n, t := Net(TurnsOf(lines), f), TurnOf(line);
            Net(TurnsOf(lines + [line]), f) ==
            if t.face != f then n else if t.direction == 0 then (n + 1) % 4 else (n + 3) % 4
  {
    assert TurnsOf(lines + [line]) == TurnsOf(lines) + [TurnOf(line)];
    assert TurnsOf(lines + [line])[..|lines|] == TurnsOf(lines);
  }

  /** All commands are turns, and face `f` is turned by client `p` and by nobody else. */
  predicate OnlyTurner(commits: seq<Commit>, p: nat, f: FaceId) {
    forall k | 0 <= k < |commits| ::
      IsTurn(commits[k].line) && (commits[k].client == p <==> TurnOf(commits[k].line).face == f)
  }

  /** A face's net turn can be read off the commands of the one player who turns it. */
  lemma {:induction false} NetOfPlayer(commits: seq<Commit>, p: nat, f: FaceId)
    requires OnlyTurner(commits, p, f)
    ensures AllTurns(Texts(commits)) && AllTurns(LinesOf(commits, p))
    ensures Net(TurnsOf(Texts(commits)), f) == Net(TurnsOf(LinesOf(commits, p)), f)
  {
    hide Net, TurnsOf, TurnOf, IsTurn;
    if commits == [] {
      assert Texts(commits) == LinesOf(commits, p);
    } else {
      var m := |commits| - 1;
      var init, last := commits[..m], commits[m];
      assert IsTurn(last.line) && (last.client == p <==> TurnOf(last.line).face == f);
      NetOfPlayer(init, p, f);
      NetAppend(Texts(init), last.line, f);
      assert Texts(commits) == Texts(init) + [last.line];
      NetAppend(LinesOf(init, p), last.line, f);
      assert LinesOf(init, p) + [] == LinesOf(init, p);
    }
  }

  /** Whatever order the mutex admits them in, the turns of two players on opposite faces lead to one cube. */
  lemma MutexOrderIrrelevant(before: seq<Commit>, a: seq<Commit>, b: seq<Commit>, p: nat, q: nat, f: FaceId)
    requires p != q && OppositePlayers(a, p, q, f) && OppositePlayers(b, p, q, f)
    requires LinesOf(a, p) == LinesOf(b, p) && LinesOf(a, q) == LinesOf(b, q)
    ensures Replay(before + a) == Replay(before + b)
  {
    hide After, LinesOf, Net, AfterRun, Replay;
    NetOfPlayer(a, p, f);
    NetOfPlayer(b, p, f);
    NetOfPlayer(a, q, OppositeFace(f));
    NetOfPlayer(b, q, OppositeFace(f));
    ReplayTurns(before, a);
    ReplayTurns(before, b);
    SameNetSameEffect(Replay(before), TurnsOf(Texts(a)), TurnsOf(Texts(b)), f);
  }

  predicate TurnFace(lines: seq<CommandText>, f: FaceId) {
    forall k | 0 <= k < |lines| :: IsTurn(lines[k]) && TurnOf(lines[k]).face == f
  }

  /** Only clients `p` and `q` have sent anything: turns of `f` the one, turns of the opposite face the other. */
  predicate TwoPlayers(s: System, p: nat, q: nat, f: FaceId) {
    && p < 6 && q < 6 && p != q
    && TurnFace(s.clients[p].sent, f) && TurnFace(s.clients[q].sent, OppositeFace(f))
    && forall j | 0 <= j < 6 && j != p && j != q :: s.clients[j].sent == []
  }

  lemma TwoPlayersCommits(s: System, p: nat, q: nat, f: FaceId)
    requires Reachable(s) && TwoPlayers(s, p, q, f)
    ensures OppositePlayers(s.commits, p, q, f)
  {
    hide Reachable, LinesOf, TurnOf, IsTurn, MutexInv, CubeInv, CountInv, MarkInv, UpInv, DownInv, SlotInv, ScreensInv;
    ReachableHolds(s);
    forall k | 0 <= k < |s.commits|
      ensures IsTurn(s.commits[k].line)
      ensures s.commits[k].client == p || s.commits[k].client == q
      ensures TurnOf(s.commits[k].line).face == if s.commits[k].client == p then f else OppositeFace(f)
    {
      var j := s.commits[k].client;
      LineKept(s.commits, k);
      ClientOrder(s, j);
      assert s.commits[k].line in s.clients[j].sent;
    }
  }

  /** Two games in which the same two players press the same keys on opposite faces come to rest on the same cube,
      however their threads were scheduled. */
  lemma ScheduleIrrelevant(s: System, r: System, p: nat, q: nat, f: FaceId)
    requires Reachable(s) && AtRest(s) && TwoPlayers(s, p, q, f) && p < s.connected && q < s.connected
    requires Reachable(r) && AtRest(r) && TwoPlayers(r, p, q, f) && p < r.connected && q < r.connected
    requires s.clients[p].sent == r.clients[p].sent && s.clients[q].sent == r.clients[q].sent
    ensures s.cube == r.cube
  {
    hide Reachable, AtRest, LinesOf, Replay, OppositePlayers;
    TwoPlayersCommits(s, p, q, f);
    TwoPlayersCommits(r, p, q, f);
    RestAgrees(s, p);
    RestAgrees(s, q);
    RestAgrees(r, p);
    RestAgrees(r, q);
    MutexOrderIrrelevant([], s.commits, r.commits, p, q, f);
    assert [] + s.commits == s.commits && [] + r.commits == r.commits;
  }

}
