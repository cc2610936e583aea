/** The top level of the program: player count, setting up the players, one pair of turns and
    the rematch reset (main.py:198-253). */
module Session {
  import opened Wrappers
  import opened Marks
  import opened Text
  import opened Players
  import opened Board
  import opened Turns

  /** The player-count prompt (main.py:204-206): read replies until one is 1 or 2. None when the
      replies run out first, where the program keeps waiting for input. */
  method ReadPlayerCount(replies: seq<int>) returns (num: Option<int>)
    ensures num != None ==>
              && (num.value == 1 || num.value == 2)
              && exists i :: 0 <= i < |replies| && replies[i] == num.value
                               && forall j :: 0 <= j < i ==> replies[j] != 1 && replies[j] != 2
    ensures num == None ==> forall j :: 0 <= j < |replies| ==> replies[j] != 1 && replies[j] != 2
  {
    var numPlayers := 0;
    var i := 0;
    while !(1 <= numPlayers <= 2)
      invariant 0 <= i <= |replies|
      invariant !(1 <= numPlayers <= 2) ==> forall j :: 0 <= j < i ==> replies[j] != 1 && replies[j] != 2
      invariant 1 <= numPlayers <= 2 ==>
                  && 1 <= i && replies[i - 1] == numPlayers
                  && forall j :: 0 <= j < i - 1 ==> replies[j] != 1 && replies[j] != 2
      decreases |replies| - i
    {
      if i == |replies| {
        return None;
      }
      numPlayers := replies[i];
      i := i + 1;
    }
    return Some(numPlayers);
  }

  /** How many moves side 0 (player 1) or side 1 has made in this match. */
  function Moves(v: Claims, side: int): nat
  {
    if side == 0 then |v.first| else |v.second|
  }

  /** The side holding X, which moves first: 0 when player 1 holds it (main.py:213, 224). */
  ghost function XSide(players: seq<Player>): int
    reads players`icon
    requires |players| >= 1
  {
    if players[0].icon == X then 0 else 1
  }

  /** The two sides hold different icons, so the side named by `XSide` holds X and the other O. */
  lemma SidesHoldXAndO(num: int, players: seq<Player>)
    requires Roster(num, players) && players[0].icon != SecondIcon(num, players)
    ensures SideIcon(num, players, XSide(players)) == X
    ensures SideIcon(num, players, 1 - XSide(players)) == O
  {
  }

  /** A claim adds one move to the claiming side and none to the other. */
  lemma ClaimCountsOneMove(v: Claims, side: int, c: int, icon: Icon)
    requires |v.cells| == 9 && 1 <= c <= 9 && (side == 0 || side == 1)
    ensures Moves(Claim(v, side, c, icon), side) == Moves(v, side) + 1
    ensures Moves(Claim(v, side, c, icon), 1 - side) == Moves(v, 1 - side)
    ensures Claim(v, side, c, icon).cells[c - 1] == icon
  {
  }

  /** Nine blank slots and no claims: the board at the start of every match. */
  ghost predicate Fresh(v: Claims)
  {
    && |v.cells| == 9
    && (forall i :: 0 <= i < 9 ==> v.cells[i] == Blank)
    && v.first == [] && v.second == []
  }

  /** A fresh board is consistent and undecided, and neither side has moved. */
  lemma FreshIsConsistent(num: int, board: GameBoard, players: seq<Player>)
    requires Roster(num, players) && board.Valid()
    requires Fresh(board.View(num, players))
    requires num == 2 ==> players[0].icon != players[1].icon && board.aiPositions == []
    ensures Consistent(num, board, players)
    ensures Outcome(num, board.View(num, players)) == StillPlaying
  {
    var v := board.View(num, players);
    FreshTracks(v.cells, players[0].icon, SecondIcon(num, players));
    NoLineWithoutClaims();
    assert v.cells[0] == Blank;
  }

  /** The board, the players and the flags right after start-up (main.py:198, 207): the first
      player's icon comes from the replies, the second player, if any, gets the other icon, and
      nothing is claimed or scored yet. False when the replies run out before an icon is chosen. */
  method StartSession(registry: IconRegistry, num: int, replies: seq<string>)
      returns (board: GameBoard, players: seq<Player>, ok: bool)
    requires num == 1 || num == 2
    requires !registry.xTaken && !registry.oTaken
    modifies registry
    ensures fresh(board) && fresh(board.cells)
    ensures ok <==> AssignedIcon(false, false, replies) != None
    ensures ok ==>
              && Consistent(num, board, players)
              && (forall p :: p in players ==> fresh(p))
              && players[0].icon == AssignedIcon(false, false, replies).value
              && (num == 2 ==> players[1].icon == Other(players[0].icon))
              && Fresh(board.View(num, players)) && board.aiPositions == []
              && board.Scores(num, players) == Score(0, 0, 0)
              && Outcome(num, board.View(num, players)) == StillPlaying
  {
    board := new GameBoard();
    var first, used := NewPlayer(registry, replies);
    if first == None {
      return board, [], false;
    }
    var p0 := first.value;
    if num == 1 {
      players := [p0];
    } else {
      SecondPlayerGetsTheOtherIcon(replies, replies[used..]);
      var second, _ := NewPlayer(registry, replies[used..]);
      players := [p0, second.value];
    }
    ok := true;
    FreshIsConsistent(num, board, players);
  }

  /** Machine draws: the values `random.randint(1, 9)` can return. */
  ghost predicate Draws(s: seq<int>)
  {
    forall j :: 0 <= j < |s| ==> 1 <= s[j] <= 9
  }

  /** How a pair of turns ends: both done or the match decided (`stillPlaying` is the flag the
      loop keeps), or stopped on a tile prompt. */
  datatype Round = Completed(stillPlaying: bool) | Halted(why: Pick)

  /** The claims after the second move of a pass, and how the pass ends: side `os` claims O's
      pick from `oInput`, and the flag says whether the match goes on. */
  ghost function Reply(num: int, os: int, v: Claims, oInput: seq<int>): (Claims, Round)
    requires |v.cells| == 9 && (os == 0 || os == 1)
  {
    var o := FirstFree(v.cells, oInput);
    if !o.Picked? then (v, Halted(o))
    else
      var v2 := Claim(v, os, o.tile, O);
      (v2, Completed(Outcome(num, v2) == StillPlaying))
  }

  /** The claims after one pass of the playing loop from `v`, and how the pass ends: side `xs`
      claims X's pick from `xInput`; unless that decides the match, the other side replies with
      O's pick from `oInput` on the board X left. */
  ghost function RoundPlay(num: int, xs: int, v: Claims, xInput: seq<int>, oInput: seq<int>): (Claims, Round)
    requires |v.cells| == 9 && (xs == 0 || xs == 1)
  {
    var x := FirstFree(v.cells, xInput);
    if !x.Picked? then (v, Halted(x))
    else
      var v1 := Claim(v, xs, x.tile, X);
      if Outcome(num, v1) != StillPlaying then (v1, Completed(false))
      else Reply(num, 1 - xs, v1, oInput)
  }

  /** The flag a pass hands back is the loop's `still_playing`: a completed pass reports whether
      the match is undecided, and a pass stopped at a prompt leaves an undecided match undecided. */
  lemma RoundFlag(num: int, xs: int, v: Claims, xInput: seq<int>, oInput: seq<int>)
    requires |v.cells| == 9 && (xs == 0 || xs == 1)
    requires Outcome(num, v) == StillPlaying
    ensures var (w, r) := RoundPlay(num, xs, v, xInput, oInput);
            && (r.Completed? ==> (r.stillPlaying <==> Outcome(num, w) == StillPlaying))
            && (r.Halted? ==> Outcome(num, w) == StillPlaying && !r.why.Picked?)
  {
  }

  /** Turn order within a pass: X's side claims X's pick first; the other side claims at most as
      many tiles as X's side in the pass, and both claim one tile in a pass that completes with
      the match undecided. X's tile keeps its X. */
  lemma RoundMoves(num: int, xs: int, v: Claims, xInput: seq<int>, oInput: seq<int>)
    requires |v.cells| == 9 && (xs == 0 || xs == 1)
    ensures var (w, r) := RoundPlay(num, xs, v, xInput, oInput);
            var x := FirstFree(v.cells, xInput);
            && |w.cells| == 9
            && (x.Picked? ==> Moves(w, xs) == Moves(v, xs) + 1 && w.cells[x.tile - 1] == X)
            && (!x.Picked? ==> w == v && r == Halted(x))
            && Moves(w, 1 - xs) - Moves(v, 1 - xs) <= Moves(w, xs) - Moves(v, xs) <= 1
            && (r == Completed(true) ==> Moves(w, xs) == Moves(v, xs) + 1 && Moves(w, 1 - xs) == Moves(v, 1 - xs) + 1)
  {
    var x := FirstFree(v.cells, xInput);
    if x.Picked? {
      var v1 := Claim(v, xs, x.tile, X);
      ClaimCountsOneMove(v, xs, x.tile, X);
      var o := FirstFree(v1.cells, oInput);
      if Outcome(num, v1) == StillPlaying && o.Picked? {
        ClaimCountsOneMove(v1, 1 - xs, o.tile, O);
        assert o.tile != x.tile;
      }
    }
  }

  /** A pass that completes with the match undecided takes exactly two more slots and still leaves
      one blank. It can only start from at most six taken slots, so from an empty board at most
      four passes complete undecided. */
  lemma RoundFillsTwoSlots(num: int, xs: int, v: Claims, xInput: seq<int>, oInput: seq<int>)
    requires |v.cells| == 9 && (xs == 0 || xs == 1)
    ensures var (w, r) := RoundPlay(num, xs, v, xInput, oInput);
            r == Completed(true) ==> Filled(w.cells) == Filled(v.cells) + 2 && Filled(w.cells) < 9 && Filled(v.cells) <= 6
  {
    var (w, r) := RoundPlay(num, xs, v, xInput, oInput);
    if r == Completed(true) {
      var x := FirstFree(v.cells, xInput);
      var v1 := Claim(v, xs, x.tile, X);
      var o := FirstFree(v1.cells, oInput);
      assert x.Picked? && o.Picked? && w == Claim(v1, 1 - xs, o.tile, O) && Blank in w.cells;
      FilledClaim(v.cells, x.tile - 1, X);
      FilledClaim(v1.cells, o.tile - 1, O);
      FilledAll(w.cells);
    }
  }

  /** The second half of a pass (main.py:218-220, 229-235): the holder of O takes its tile from
      `oInput`, which with one player are the machine's draws when player 1 holds X. */
  method ReplyTurn(num: int, board: GameBoard, players: seq<Player>, oInput: seq<int>) returns (r: Round)
    requires Consistent(num, board, players)
    requires Outcome(num, board.View(num, players)) == StillPlaying
    requires num == 1 && players[0].icon == X ==> Draws(oInput)
    modifies board.cells, board`aiPositions, board`score, players`positions, players`score
    ensures Consistent(num, board, players)
    ensures (board.View(num, players), r) == Reply(num, 1 - XSide(players), old(board.View(num, players)), oInput)
    ensures board.Scores(num, players) == Award(old(board.Scores(num, players)), Outcome(num, board.View(num, players)))
  {
    var oSide := if players[0].icon == X then 1 else 0;
    SidesHoldXAndO(num, players);
    var t := SideTurn(num, oSide, board, players, oInput);
    if t.NoMove? {
      return Halted(t.why);
    }
    return Completed(t.stillPlaying);
  }

  /** One pass of the playing loop (main.py:211-237): the holder of X moves first, taking its tile
      from `xInput`, then, unless that decided the match, the holder of O from `oInput`. With one
      player the machine holds the icon the player does not, and its input is its draws. */
  method PlayRound(num: int, board: GameBoard, players: seq<Player>, xInput: seq<int>, oInput: seq<int>)
      returns (r: Round)
    requires Consistent(num, board, players)
    requires Outcome(num, board.View(num, players)) == StillPlaying
    requires num == 1 ==> Draws(if players[0].icon == X then oInput else xInput)
    modifies board.cells, board`aiPositions, board`score, players`positions, players`score
    ensures Consistent(num, board, players)
    ensures (board.View(num, players), r) == RoundPlay(num, XSide(players), old(board.View(num, players)), xInput, oInput)
    ensures board.Scores(num, players) == Award(old(board.Scores(num, players)), Outcome(num, board.View(num, players)))
  {
    // Both modes test whether player 1 holds X (main.py:213, 224): if so player 1 moves first and
    // the other side second, otherwise the other way round.
    var xSide := if players[0].icon == X then 0 else 1;
    SidesHoldXAndO(num, players);
    var t := SideTurn(num, xSide, board, players, xInput);
    if t.NoMove? {
      return Halted(t.why);
    }
    if !t.stillPlaying {
      return Completed(false);
    }
    r := ReplyTurn(num, board, players, oInput);
  }

  /** Empty every player's claim list (main.py:247-248). */
  method ClearClaims(num: int, players: seq<Player>)
    requires Roster(num, players)
    modifies players`positions
    ensures forall p :: p in players ==> p.positions == []
  {
    for i := 0 to |players|
      invariant forall j :: 0 <= j < i ==> players[j].positions == []
    {
      players[i].positions := [];
    }
  }

  /** The rematch prompt (main.py:244-253): a reply "y" or "Y" empties every claim list, the
      machine's included, and every slot, and keeps all scores and icons; any other reply leaves
      everything as it is. */
  method Rematch(num: int, board: GameBoard, players: seq<Player>, reply: string) returns (again: bool)
    requires Consistent(num, board, players)
    modifies board.cells, board`aiPositions, players`positions
    ensures again <==> reply == "y" || reply == "Y"
    ensures again ==>
              && Fresh(board.View(num, players)) && board.aiPositions == []
              && Consistent(num, board, players)
              && Outcome(num, board.View(num, players)) == StillPlaying
    ensures !again ==>
              && board.View(num, players) == old(board.View(num, players))
              && board.aiPositions == old(board.aiPositions)
    ensures board.Scores(num, players) == old(board.Scores(num, players))
    ensures forall p :: p in players ==> p.icon == old(p.icon)
  {
    LowerIsLetter(reply, 'y');
    again := Lower(reply) == "y";
    if again {
      ClearClaims(num, players);
      board.aiPositions := [];
      board.ClearCells();
      FreshIsConsistent(num, board, players);
    }
  }
}
