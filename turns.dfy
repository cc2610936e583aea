/** Choosing a tile and playing one turn (main.py:144-195, 227-235). */
module Turns {
  import opened Marks
  import opened Players
  import opened Board

  /** How a tile prompt ends: with a tile, with the replies run out (the program would wait for
      more), or with an `IndexError` from a reply that indexes outside the nine-slot list. */
  datatype Pick = Picked(tile: int) | InputEnded | IndexError

  /** A reply the prompt takes: a position 1..9 whose slot is blank. */
  ghost predicate Acceptable(cells: seq<Mark>, r: int)
    requires |cells| == 9
  {
    1 <= r <= 9 && cells[r - 1] == Blank
  }

  /** A reply the lookup `positions[r - 1]` survives: -8..9, with Python's negative indexing
      mapping -8..0 back onto the list. */
  ghost predicate Indexable(r: int)
  {
    -8 <= r <= 9
  }

  /** The prompt loop of `get_choice` and `ai_choice` on replies in order (main.py:157-162,
      174-177): an acceptable reply ends it, an unindexable one raises, and anything else (an
      occupied slot, or 0..-8) is refused and the next reply read. */
  ghost function FirstFree(cells: seq<Mark>, replies: seq<int>): (p: Pick)
    requires |cells| == 9
    ensures p.Picked? ==> Acceptable(cells, p.tile) && p.tile in replies
  {
    if replies == [] then InputEnded
    else if !Indexable(replies[0]) then IndexError
    else if Acceptable(cells, replies[0]) then Picked(replies[0])
    else FirstFree(cells, replies[1..])
  }

  /** A picked tile is the first acceptable reply, and every reply before it was indexable and
      refused. */
  lemma {:induction false} PickedIsFirstAcceptable(cells: seq<Mark>, replies: seq<int>)
    requires |cells| == 9 && FirstFree(cells, replies).Picked?
    ensures exists i :: 0 <= i < |replies| && replies[i] == FirstFree(cells, replies).tile
              && forall j :: 0 <= j < i ==> Indexable(replies[j]) && !Acceptable(cells, replies[j])
  {
    if Indexable(replies[0]) && !Acceptable(cells, replies[0]) {
      PickedIsFirstAcceptable(cells, replies[1..]);
      var i :| 0 <= i < |replies[1..]| && replies[1..][i] == FirstFree(cells, replies[1..]).tile
                 && forall j :: 0 <= j < i ==> Indexable(replies[1..][j]) && !Acceptable(cells, replies[1..][j]);
      assert replies[i + 1] == FirstFree(cells, replies).tile;
      forall j | 0 <= j < i + 1
        ensures Indexable(replies[j]) && !Acceptable(cells, replies[j])
      {
        if j > 0 {
          assert replies[j] == replies[1..][j - 1];
        }
      }
    } else {
      assert replies[0] == FirstFree(cells, replies).tile;
    }
  }

  /** Conversely, an acceptable reply preceded only by indexable refused ones is the one picked. */
  lemma {:induction false} FirstAcceptableIsPicked(cells: seq<Mark>, replies: seq<int>, i: int)
    requires |cells| == 9 && 0 <= i < |replies| && Acceptable(cells, replies[i])
    requires forall j :: 0 <= j < i ==> Indexable(replies[j]) && !Acceptable(cells, replies[j])
    ensures FirstFree(cells, replies) == Picked(replies[i])
  {
    if i > 0 {
      FirstAcceptableIsPicked(cells, replies[1..], i - 1);
    }
  }

  /** Draws from `random.randint(1, 9)` never raise. */
  lemma {:induction false} DrawsNeverRaise(cells: seq<Mark>, draws: seq<int>)
    requires |cells| == 9
    requires forall j :: 0 <= j < |draws| ==> 1 <= draws[j] <= 9
    ensures FirstFree(cells, draws) != IndexError
  {
    if draws != [] {
      DrawsNeverRaise(cells, draws[1..]);
    }
  }

  /** `get_choice` (main.py:144-164): prompt until a reply names a free tile. */
  method GetChoice(cells: array<Mark>, replies: seq<int>) returns (p: Pick)
    requires cells.Length == 9
    ensures p == FirstFree(cells[..], replies)
  {
    var choice := 0;
    var i := 0;
    while !(1 <= choice <= 9)
      invariant 0 <= i <= |replies|
      invariant !(1 <= choice <= 9) ==> FirstFree(cells[..], replies) == FirstFree(cells[..], replies[i..])
      invariant 1 <= choice <= 9 ==> FirstFree(cells[..], replies) == Picked(choice)
      decreases |replies| - i
    {
      if i == |replies| {
        return InputEnded;
      }
      assert replies[i..][1..] == replies[i + 1..];
      choice := replies[i];
      i := i + 1;
      if choice - 1 < -9 || 9 <= choice - 1 {
        return IndexError;
      }
      var slot := if choice - 1 < 0 then cells[choice - 1 + 9] else cells[choice - 1];
      if slot != Blank {
        choice := 0;
      }
    }
    return Picked(choice);
  }

  /** `ai_choice` (main.py:167-179): draw until a draw names a free tile. The draws stand for the
      values `random.randint(1, 9)` returns. */
  method AiChoice(cells: array<Mark>, draws: seq<int>) returns (p: Pick)
    requires cells.Length == 9
    requires forall j :: 0 <= j < |draws| ==> 1 <= draws[j] <= 9
    ensures p == FirstFree(cells[..], draws)
    ensures p != IndexError
  {
    DrawsNeverRaise(cells[..], draws);
    var choice := 0;
    var i := 0;
    while !(1 <= choice <= 9)
      invariant 0 <= i <= |draws|
      invariant !(1 <= choice <= 9) ==> FirstFree(cells[..], draws) == FirstFree(cells[..], draws[i..])
      invariant 1 <= choice <= 9 ==> FirstFree(cells[..], draws) == Picked(choice)
      decreases |draws| - i
    {
      if i == |draws| {
        return InputEnded;
      }
      assert draws[i..][1..] == draws[i + 1..];
      choice := draws[i];
      i := i + 1;
      if cells[choice - 1] != Blank {
        choice := 0;
      }
    }
    return Picked(choice);
  }

  /** The first n entries of `ps` are distinct positions of 1..9 whose slots show `icon`, checked
      one entry at a time from entry n - 1 back. This recursive form is what the proofs unfold;
      `Holds` states the same with quantifiers (see `OwnsMeans`). */
  ghost predicate OwnsFirst(cells: seq<Mark>, ps: seq<int>, icon: Icon, n: nat)
    requires |cells| == 9 && n <= |ps|
    decreases n
  {
    n == 0 ||
    (&& 1 <= ps[n - 1] <= 9 && cells[ps[n - 1] - 1] == icon
     && (forall j :: 0 <= j < n - 1 ==> ps[j] != ps[n - 1])
     && OwnsFirst(cells, ps, icon, n - 1))
  }

  /** `ps` are distinct positions of 1..9, each of whose slots shows `icon`. */
  ghost predicate Owns(cells: seq<Mark>, ps: seq<int>, icon: Icon)
  {
    |cells| == 9 && OwnsFirst(cells, ps, icon, |ps|)
  }

  /** The same property of the first n entries, stated over all of them at once. */
  ghost predicate Holds(cells: seq<Mark>, ps: seq<int>, icon: Icon, n: nat)
    requires |cells| == 9 && n <= |ps|
  {
    && (forall j :: 0 <= j < n ==> 1 <= ps[j] <= 9 && cells[ps[j] - 1] == icon)
    && (forall j, j' :: 0 <= j < j' < n ==> ps[j] != ps[j'])
  }

  lemma {:induction false} OwnsFirstMeans(cells: seq<Mark>, ps: seq<int>, icon: Icon, n: nat)
    requires |cells| == 9 && n <= |ps|
    ensures OwnsFirst(cells, ps, icon, n) <==> Holds(cells, ps, icon, n)
    decreases n
  {
    if n > 0 {
      OwnsFirstMeans(cells, ps, icon, n - 1);
    }
  }

  /** Owning means: every entry is a position whose slot shows the icon, and no entry repeats. */
  lemma OwnsMeans(cells: seq<Mark>, ps: seq<int>, icon: Icon)
    requires |cells| == 9
    ensures Owns(cells, ps, icon) <==> Holds(cells, ps, icon, |ps|)
  {
    OwnsFirstMeans(cells, ps, icon, |ps|);
  }

  /** Claims agree with the slots: each side's positions are distinct and show its icon, and the
      taken slots number as many as both lists together. */
  ghost predicate Tracks(v: Claims, firstIcon: Icon, secondIcon: Icon)
  {
    && |v.cells| == 9
    && firstIcon != secondIcon
    && Owns(v.cells, v.first, firstIcon)
    && Owns(v.cells, v.second, secondIcon)
    && Filled(v.cells) == |v.first| + |v.second|
  }

  /** An empty board with no claims is tracked. */
  lemma FreshTracks(cells: seq<Mark>, firstIcon: Icon, secondIcon: Icon)
    requires |cells| == 9 && firstIcon != secondIcon
    requires forall i :: 0 <= i < 9 ==> cells[i] == Blank
    ensures Tracks(Claims(cells, [], []), firstIcon, secondIcon)
  {
    FilledNone(cells);
  }

  /** While tracked, no position is claimed by both sides, and a blank slot is claimed by
      neither. */
  lemma NoDoubleClaim(v: Claims, firstIcon: Icon, secondIcon: Icon, c: int)
    requires Tracks(v, firstIcon, secondIcon)
    ensures forall j, j' :: 0 <= j < |v.first| && 0 <= j' < |v.second| ==> v.first[j] != v.second[j']
    ensures 1 <= c <= 9 && v.cells[c - 1] == Blank ==> c !in v.first && c !in v.second
  {
    OwnsMeans(v.cells, v.first, firstIcon);
    OwnsMeans(v.cells, v.second, secondIcon);
  }

  /** While tracked, the board is full exactly when nine moves have been recorded. */
  lemma FullAfterNineMoves(v: Claims, firstIcon: Icon, secondIcon: Icon)
    requires Tracks(v, firstIcon, secondIcon)
    ensures Blank !in v.cells <==> |v.first| + |v.second| == 9
  {
    FilledAll(v.cells);
  }

  /** Side 0 or side 1 claims position c: its icon goes into slot c - 1 and c onto its list. */
  function Claim(v: Claims, side: int, c: int, icon: Icon): Claims
    requires |v.cells| == 9 && 1 <= c <= 9
  {
    Claims(v.cells[c - 1 := icon],
           if side == 0 then v.first + [c] else v.first,
           if side == 0 then v.second else v.second + [c])
  }

  /** Claiming a blank slot with the claiming side's icon keeps the board tracked
      (main.py:193-194, 228-229, 233-234). */
  lemma ClaimKeepsTracks(v: Claims, firstIcon: Icon, secondIcon: Icon, side: int, c: int)
    requires Tracks(v, firstIcon, secondIcon)
    requires 1 <= c <= 9 && v.cells[c - 1] == Blank
    ensures Tracks(Claim(v, side, c, if side == 0 then firstIcon else secondIcon), firstIcon, secondIcon)
  {
    var icon := if side == 0 then firstIcon else secondIcon;
    var cells := v.cells[c - 1 := icon];
    NoDoubleClaim(v, firstIcon, secondIcon, c);
    OwnsAfterClaim(v.cells, v.first, firstIcon, c, icon);
    OwnsAfterClaim(v.cells, v.second, secondIcon, c, icon);
    if side == 0 {
      OwnsExtended(cells, v.first, icon, c);
    } else {
      OwnsExtended(cells, v.second, icon, c);
    }
    FilledClaim(v.cells, c - 1, icon);
  }

  /** Marking a slot that none of `ps` names leaves `ps` owned. */
  lemma OwnsAfterClaim(cells: seq<Mark>, ps: seq<int>, icon: Icon, c: int, m: Mark)
    requires Owns(cells, ps, icon) && 1 <= c <= 9 && c !in ps
    ensures Owns(cells[c - 1 := m], ps, icon)
  {
    OwnsMeans(cells, ps, icon);
    OwnsMeans(cells[c - 1 := m], ps, icon);
    forall j | 0 <= j < |ps|
      ensures ps[j] != c
    {
      assert ps[j] in ps;
    }
  }

  /** A new position whose slot shows the icon, not yet in `ps`, extends the owned list. */
  lemma OwnsExtended(cells: seq<Mark>, ps: seq<int>, icon: Icon, c: int)
    requires Owns(cells, ps, icon) && 1 <= c <= 9 && cells[c - 1] == icon && c !in ps
    ensures Owns(cells, ps + [c], icon)
  {
    OwnsMeans(cells, ps, icon);
    OwnsMeans(cells, ps + [c], icon);
    forall j | 0 <= j < |ps|
      ensures ps[j] != c
    {
      assert ps[j] in ps;
    }
  }

  /** The icon of the side checked second: player 2's, or the machine's, which is the one player 1
      does not hold (main.py:224-234). */
  ghost function SecondIcon(num: int, players: seq<Player>): Icon
    reads players`icon
    requires Roster(num, players)
  {
    if num == 2 then players[1].icon else Other(players[0].icon)
  }

  /** The icon of side 0 (player 1) or side 1. */
  ghost function SideIcon(num: int, players: seq<Player>, side: int): Icon
    reads players`icon
    requires Roster(num, players)
  {
    if side == 0 then players[0].icon else SecondIcon(num, players)
  }

  /** The game state agrees with itself: the board's slots are tracked by player 1's positions and
      the second side's, and with two players the machine has claimed nothing. */
  ghost predicate Consistent(num: int, board: GameBoard, players: seq<Player>)
    reads board`aiPositions, board.cells, players`positions, players`icon
  {
    && Roster(num, players)
    && board.Valid()
    && Tracks(board.View(num, players), players[0].icon, SecondIcon(num, players))
    && (num == 2 ==> board.aiPositions == [])
  }

  /** Mark slot c - 1 with player `pNum`'s icon and record c in the player's positions
      (main.py:193-194). */
  method ClaimTile(num: int, pNum: int, board: GameBoard, players: seq<Player>, c: int)
    requires Consistent(num, board, players)
    requires 0 <= pNum < num
    requires 1 <= c <= 9 && board.cells[c - 1] == Blank
    modifies board.cells, players`positions
    ensures Consistent(num, board, players)
    ensures board.View(num, players) == Claim(old(board.View(num, players)), pNum, c, players[pNum].icon)
  {
    ghost var v, i0, i1 := board.View(num, players), players[0].icon, SecondIcon(num, players);
    ClaimKeepsTracks(v, i0, i1, pNum, c);
    var mover := players[pNum];
    board.cells[c - 1] := mover.icon;
    mover.SelectTile(c);
    assert board.cells[..] == v.cells[c - 1 := mover.icon];
    assert board.View(num, players) == Claim(v, pNum, c, mover.icon);
    assert players[0].icon == i0 && SecondIcon(num, players) == i1;
  }

  /** The outcome of one turn: the tile played and the flag `show_board` returned, or no move. */
  datatype Turn = Played(tile: int, stillPlaying: bool) | NoMove(why: Pick)

  /** The rest of `play_turn` once tile c is chosen (main.py:193-195): claim it for player `pNum`
      and check the board, which adds a point to the winner. */
  method TakeTile(num: int, pNum: int, board: GameBoard, players: seq<Player>, c: int) returns (sp: bool)
    requires Consistent(num, board, players)
    requires 0 <= pNum < num
    requires 1 <= c <= 9 && board.cells[c - 1] == Blank
    modifies board.cells, board`score, players`positions, players`score
    ensures Consistent(num, board, players)
    ensures board.View(num, players) == Claim(old(board.View(num, players)), pNum, c, players[pNum].icon)
    ensures sp <==> Outcome(num, board.View(num, players)) == StillPlaying
    ensures board.Scores(num, players) == Award(old(board.Scores(num, players)), Outcome(num, board.View(num, players)))
  {
    ClaimTile(num, pNum, board, players, c);
    ghost var v, i0, i1 := board.View(num, players), players[0].icon, SecondIcon(num, players);
    assert Tracks(v, i0, i1);
    sp := board.ShowBoard(num, players);
    assert board.View(num, players) == v && players[0].icon == i0 && SecondIcon(num, players) == i1;
  }

  /** `play_turn` (main.py:182-195): player `pNum` picks a free tile, it is marked with the
      player's icon and recorded in the player's positions, and the board is checked. */
  method PlayTurn(num: int, pNum: int, board: GameBoard, players: seq<Player>, replies: seq<int>)
      returns (t: Turn)
    requires Consistent(num, board, players)
    requires 0 <= pNum < num
    modifies board.cells, board`score, players`positions, players`score
    ensures Consistent(num, board, players)
    ensures var pick := FirstFree(old(board.cells[..]), replies);
            if pick.Picked? then t.Played? && t.tile == pick.tile else t == NoMove(pick)
    ensures t.Played? ==>
              && board.View(num, players) == Claim(old(board.View(num, players)), pNum, t.tile, players[pNum].icon)
              && (t.stillPlaying <==> Outcome(num, board.View(num, players)) == StillPlaying)
              && board.Scores(num, players) == Award(old(board.Scores(num, players)), Outcome(num, board.View(num, players)))
    ensures t.NoMove? ==>
              && board.View(num, players) == old(board.View(num, players))
              && board.Scores(num, players) == old(board.Scores(num, players))
  {
    var pick := GetChoice(board.cells, replies);
    if !pick.Picked? {
      return NoMove(pick);
    }
    var c := pick.tile;
    assert Acceptable(board.cells[..], c);
    var sp := TakeTile(num, pNum, board, players, c);
    t := Played(c, sp);
  }

  /** Mark slot c - 1 with the machine's icon, the one player 1 does not hold, and record c in
      the machine's positions (main.py:228-229, 233-234). */
  method MachineClaim(board: GameBoard, players: seq<Player>, c: int)
    requires Consistent(1, board, players)
    requires 1 <= c <= 9 && board.cells[c - 1] == Blank
    modifies board.cells, board`aiPositions
    ensures Consistent(1, board, players)
    ensures board.View(1, players) == Claim(old(board.View(1, players)), 1, c, Other(players[0].icon))
  {
    var icon := Other(players[0].icon);
    ghost var v, i0 := board.View(1, players), players[0].icon;
    ClaimKeepsTracks(v, i0, icon, 1, c);
    board.cells[c - 1] := icon;
    board.AiSelection(c);
    assert board.cells[..] == v.cells[c - 1 := icon];
    assert board.View(1, players) == Claim(v, 1, c, icon);
    assert players[0].icon == i0;
  }

  /** The machine's turn as the top-level loop plays it (main.py:227-230, 232-235): draw a free
      tile, mark it with the machine's icon, which is the one player 1 does not hold, record it,
      and check the board. */
  method MachineTurn(board: GameBoard, players: seq<Player>, draws: seq<int>) returns (t: Turn)
    requires Consistent(1, board, players)
    requires forall j :: 0 <= j < |draws| ==> 1 <= draws[j] <= 9
    modifies board.cells, board`aiPositions, board`score, players`score
    ensures Consistent(1, board, players)
    ensures var pick := FirstFree(old(board.cells[..]), draws);
            && pick != IndexError
            && if pick.Picked? then t.Played? && t.tile == pick.tile else t == NoMove(pick)
    ensures t.Played? ==>
              && board.View(1, players) == Claim(old(board.View(1, players)), 1, t.tile, Other(players[0].icon))
              && (t.stillPlaying <==> Outcome(1, board.View(1, players)) == StillPlaying)
              && board.Scores(1, players) == Award(old(board.Scores(1, players)), Outcome(1, board.View(1, players)))
    ensures t.NoMove? ==>
              && board.View(1, players) == old(board.View(1, players))
              && board.Scores(1, players) == old(board.Scores(1, players))
  {
    var pick := AiChoice(board.cells, draws);
    if !pick.Picked? {
      return NoMove(pick);
    }
    var c := pick.tile;
    MachineClaim(board, players, c);
    ghost var v, i0 := board.View(1, players), players[0].icon;
    assert Tracks(v, i0, Other(i0));
    var sp := board.ShowBoard(1, players);
    assert board.View(1, players) == v && players[0].icon == i0;
    t := Played(c, sp);
  }

  /** One side's turn: `play_turn` for a human side, the machine's turn otherwise. `input` holds
      the human's replies or the machine's draws. */
  method SideTurn(num: int, side: int, board: GameBoard, players: seq<Player>, input: seq<int>)
      returns (t: Turn)
    requires Consistent(num, board, players)
    requires side == 0 || side == 1
    requires num == 1 && side == 1 ==> forall j :: 0 <= j < |input| ==> 1 <= input[j] <= 9
    modifies board.cells, board`aiPositions, board`score, players`positions, players`score
    ensures Consistent(num, board, players)
    ensures var pick := FirstFree(old(board.cells[..]), input);
            if pick.Picked? then t.Played? && t.tile == pick.tile else t == NoMove(pick)
    ensures t.Played? ==>
              && board.View(num, players) == Claim(old(board.View(num, players)), side, t.tile, SideIcon(num, players, side))
              && (t.stillPlaying <==> Outcome(num, board.View(num, players)) == StillPlaying)
              && board.Scores(num, players) == Award(old(board.Scores(num, players)), Outcome(num, board.View(num, players)))
    ensures t.NoMove? ==>
              && board.View(num, players) == old(board.View(num, players))
              && board.Scores(num, players) == old(board.Scores(num, players))
  {
    if side == 0 || num == 2 {
      t := PlayTurn(num, side, board, players, input);
    } else {
      t := MachineTurn(board, players, input);
    }
  }
}
