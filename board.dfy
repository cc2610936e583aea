/** The board: its nine slots, the winning triples and the end-of-game check (main.py:50-141). */
module Board {
  import opened Marks
  import opened Players

  /** The eight winning triples over positions 1..9, in the source's order: the three rows, the two
      diagonals, the three columns (main.py:54-63). The source never changes the table. */
  const WinCombos: seq<seq<int>> :=
    [[1, 2, 3], [4, 5, 6], [7, 8, 9], [1, 5, 9], [3, 5, 7], [1, 4, 7], [2, 5, 8], [3, 6, 9]]

  /** Every position of `line` is among `positions`. */
  ghost predicate Within(line: seq<int>, positions: seq<int>)
  {
    forall j :: 0 <= j < |line| ==> line[j] in positions
  }

  /** Some winning triple lies entirely among `positions`. */
  ghost predicate HasLine(positions: seq<int>)
  {
    exists k :: 0 <= k < |WinCombos| && Within(WinCombos[k], positions)
  }

  /** With nothing claimed there is no line. */
  lemma NoLineWithoutClaims()
    ensures !HasLine([])
  {
    forall k | 0 <= k < |WinCombos|
      ensures !Within(WinCombos[k], [])
    {
      assert WinCombos[k][0] !in [];
    }
  }

  /** Grid coordinates of position p: row and column, each 0..2. */
  function Row(p: int): int { (p - 1) / 3 }
  function Col(p: int): int { (p - 1) % 3 }

  /** Three positions a < b < c of the 3x3 grid on one row, one column or one diagonal. */
  ghost predicate GridLine(a: int, b: int, c: int)
  {
    && 1 <= a < b < c <= 9
    && (|| (Row(a) == Row(b) && Row(b) == Row(c))
        || (Col(a) == Col(b) && Col(b) == Col(c))
        || (Row(a) == Col(a) && Row(b) == Col(b) && Row(c) == Col(c))
        || (Row(a) + Col(a) == 2 && Row(b) + Col(b) == 2 && Row(c) + Col(c) == 2))
  }

  /** The table holds exactly the lines of the grid: every entry is a grid line written in
      increasing order, and every grid line is an entry. */
  lemma WinCombosAreGridLines()
    ensures forall k :: 0 <= k < |WinCombos| ==>
              |WinCombos[k]| == 3 && GridLine(WinCombos[k][0], WinCombos[k][1], WinCombos[k][2])
    ensures forall a, b, c :: GridLine(a, b, c) ==> [a, b, c] in WinCombos
  {
    forall a, b, c | GridLine(a, b, c) ensures [a, b, c] in WinCombos {
      if Row(a) == Row(b) && Row(b) == Row(c) {
        assert [a, b, c] == WinCombos[Row(a)];
      } else if Col(a) == Col(b) && Col(b) == Col(c) {
        assert [a, b, c] == WinCombos[5 + Col(a)];
      } else if Row(a) == Col(a) && Row(b) == Col(b) && Row(c) == Col(c) {
        assert [a, b, c] == WinCombos[3];
      } else {
        assert [a, b, c] == WinCombos[4];
      }
    }
  }

  /** Holding a line means holding three positions on one row, column or diagonal of the grid,
      whatever the table's order. */
  lemma HasLineMeansGridLine(positions: seq<int>)
    ensures HasLine(positions) <==>
              exists a, b, c :: GridLine(a, b, c) && a in positions && b in positions && c in positions
  {
    if HasLine(positions) {
      var k :| 0 <= k < |WinCombos| && Within(WinCombos[k], positions);
      var line := WinCombos[k];
      assert line[0] in positions && line[1] in positions && line[2] in positions;
      assert GridLine(line[0], line[1], line[2]) by { WinCombosAreGridLines(); }
    }
    if exists a, b, c :: GridLine(a, b, c) && a in positions && b in positions && c in positions {
      var a, b, c :| GridLine(a, b, c) && a in positions && b in positions && c in positions;
      assert [a, b, c] in WinCombos by { WinCombosAreGridLines(); }
      var k :| 0 <= k < |WinCombos| && WinCombos[k] == [a, b, c];
      assert Within(WinCombos[k], positions);
    }
  }

  /** One of the source's three tally loops (main.py:109-117, 119-127, 129-137): walk every triple,
      counting how many of its positions are claimed, and stop as soon as the count reaches 3. */
  method ScanLines(positions: seq<int>) returns (won: bool)
    ensures won <==> HasLine(positions)
  {
    var k := 0;
    while k < |WinCombos|
      invariant 0 <= k <= |WinCombos|
      invariant forall k' :: 0 <= k' < k ==> !Within(WinCombos[k'], positions)
    {
      var cSet := WinCombos[k];
      var tally := 0;
      var j := 0;
      while j < |cSet|
        invariant 0 <= j <= |cSet| == 3
        invariant 0 <= tally <= j && tally < 3
        invariant tally == j <==> forall j' :: 0 <= j' < j ==> cSet[j'] in positions
      {
        if cSet[j] in positions {
          tally := tally + 1;
          if tally == 3 {
            return true;
          }
        }
        j := j + 1;
      }
      k := k + 1;
    }
    return false;
  }

  /** How many of the slots from index i on are taken. */
  function FilledFrom(cells: seq<Mark>, i: nat): (n: nat)
    requires i <= |cells|
    ensures n <= |cells| - i
    decreases |cells| - i
  {
    if i == |cells| then 0 else (if cells[i] == Blank then 0 else 1) + FilledFrom(cells, i + 1)
  }

  /** How many slots are taken. */
  function Filled(cells: seq<Mark>): (n: nat)
    ensures n <= |cells|
  {
    FilledFrom(cells, 0)
  }

  /** Marking one blank slot at index k takes exactly one more slot from every i up to k. */
  lemma {:induction false} FilledFromClaim(cells: seq<Mark>, k: int, m: Mark, i: nat)
    requires 0 <= k < |cells| && cells[k] == Blank && m != Blank && i <= |cells|
    ensures FilledFrom(cells[k := m], i) == FilledFrom(cells, i) + (if i <= k then 1 else 0)
    decreases |cells| - i
  {
    if i < |cells| {
      FilledFromClaim(cells, k, m, i + 1);
    }
  }

  /** Marking one blank slot takes exactly one more slot. */
  lemma FilledClaim(cells: seq<Mark>, k: int, m: Mark)
    requires 0 <= k < |cells| && cells[k] == Blank && m != Blank
    ensures Filled(cells[k := m]) == Filled(cells) + 1
  {
    FilledFromClaim(cells, k, m, 0);
  }

  /** The slots from index i on are all taken exactly when none of them is blank. */
  lemma {:induction false} FilledFromAll(cells: seq<Mark>, i: nat)
    requires i <= |cells|
    ensures FilledFrom(cells, i) == |cells| - i <==> forall j :: i <= j < |cells| ==> cells[j] != Blank
    decreases |cells| - i
  {
    if i < |cells| {
      FilledFromAll(cells, i + 1);
    }
  }

  /** Every slot is taken exactly when no slot is blank. */
  lemma FilledAll(cells: seq<Mark>)
    ensures Filled(cells) == |cells| <==> Blank !in cells
  {
    FilledFromAll(cells, 0);
  }

  /** Blank slots from index i on add nothing. */
  lemma {:induction false} FilledFromNone(cells: seq<Mark>, i: nat)
    requires i <= |cells|
    requires forall j :: 0 <= j < |cells| ==> cells[j] == Blank
    ensures FilledFrom(cells, i) == 0
    decreases |cells| - i
  {
    if i < |cells| {
      FilledFromNone(cells, i + 1);
    }
  }

  /** A board of blanks has nothing taken. */
  lemma FilledNone(cells: seq<Mark>)
    requires forall i :: 0 <= i < |cells| ==> cells[i] == Blank
    ensures Filled(cells) == 0
  {
    FilledFromNone(cells, 0);
  }

  /** What `check_finished` reports: 0, 1, 2, 'm' and 3 in the source. */
  datatype Status = StillPlaying | Player1Wins | Player2Wins | MachineWins | Draw

  /** What the end-of-game check looks at: the nine slots, the positions of the side checked first
      (player 1) and those of the side checked second (player 2, or the machine). */
  datatype Claims = Claims(cells: seq<Mark>, first: seq<int>, second: seq<int>)

  /** The outcome `check_finished` computes: the first side wins whenever it holds a line, the
      second side only when the first does not, and a draw needs a full board with no line for
      either (main.py:107-141). */
  ghost function Outcome(num: int, v: Claims): Status
  {
    if HasLine(v.first) then Player1Wins
    else if HasLine(v.second) then (if num == 2 then Player2Wins else MachineWins)
    else if Blank in v.cells then StillPlaying
    else Draw
  }

  /** The flag `show_board` hands back on each status (main.py:86-101). */
  function KeepPlaying(status: Status): (sp: bool)
    ensures sp <==> status.StillPlaying?
  {
    if status == Player1Wins then false
    else if status == Player2Wins then false
    else if status == MachineWins then false
    else if status == Draw then false
    else true
  }

  /** The three scores: player 1's, player 2's (0 with one player) and the machine's. */
  datatype Score = Score(p1: nat, p2: nat, machine: nat)

  /** The scores after a check reports `status`: the winner named by it gains one point. */
  function Award(s: Score, status: Status): Score
  {
    match status
    case Player1Wins => s.(p1 := s.p1 + 1)
    case Player2Wins => s.(p2 := s.p2 + 1)
    case MachineWins => s.(machine := s.machine + 1)
    case _ => s
  }

  /** Who takes part: player 1 alone against the machine, or two distinct players. */
  ghost predicate Roster(num: int, players: seq<Player>)
  {
    (num == 1 || num == 2) && |players| == num && (num == 2 ==> players[0] != players[1])
  }

  /** The board object: its slots, and the machine's positions and score (main.py:50-65). */
  class GameBoard {
    /** The nine slots, index i for position i + 1 (`self.positions` in the source). */
    const cells: array<Mark>
    /** The positions the machine claimed in this match. */
    var aiPositions: seq<int>
    /** The machine's score. */
    var score: nat

    ghost predicate Valid()
    {
      cells.Length == 9
    }

    constructor ()
      ensures Valid() && fresh(cells)
      ensures forall i :: 0 <= i < 9 ==> cells[i] == Blank
      ensures aiPositions == [] && score == 0
    {
      cells := new Mark[9](_ => Blank);
      aiPositions, score := [], 0;
    }

    /** Empty every slot: the list is cleared and refilled with nine blanks (main.py:250-252). */
    method ClearCells()
      requires Valid()
      modifies cells
      ensures forall i :: 0 <= i < 9 ==> cells[i] == Blank
    {
      for i := 0 to 9
        invariant forall j :: 0 <= j < i ==> cells[j] == Blank
      {
        cells[i] := Blank;
      }
    }

    /** Record a position the machine claimed (main.py:103-105). */
    method AiSelection(position: int)
      modifies this`aiPositions
      ensures aiPositions == old(aiPositions) + [position]
    {
      aiPositions := aiPositions + [position];
    }

    /** The slots with player 1's positions and those of the side checked second: player 2's with
        two players, the machine's otherwise (main.py:108-137). */
    ghost function View(num: int, players: seq<Player>): Claims
      reads this`aiPositions, cells, players`positions
      requires Roster(num, players)
    {
      Claims(cells[..], players[0].positions, if num == 2 then players[1].positions else aiPositions)
    }

    /** The scores as the program keeps them: on the players and on the board. */
    ghost function Scores(num: int, players: seq<Player>): Score
      reads this`score, players`score
      requires Roster(num, players)
    {
      Score(players[0].score, if num == 2 then players[1].score else 0, score)
    }

    /** The final scan for a blank slot (main.py:138-141). The source reads the module-level
        `board` here, which is this very object (main.py:198). */
    method AnyBlank() returns (found: bool)
      requires Valid()
      ensures found <==> Blank in cells[..]
    {
      for i := 0 to 9
        invariant forall j :: 0 <= j < i ==> cells[j] != Blank
      {
        if cells[i] == Blank {
          return true;
        }
      }
      return false;
    }

    /** `check_finished` (main.py:107-141): report the outcome and add one to the winner's score.
        Each call that finds a win adds one again: the check is not idempotent. */
    method CheckFinished(num: int, players: seq<Player>) returns (status: Status)
      requires Valid() && Roster(num, players)
      modifies this`score, players`score
      ensures status == Outcome(num, View(num, players))
      ensures Scores(num, players) == Award(old(Scores(num, players)), status)
    {
      var won := ScanLines(players[0].positions);
      if won {
        players[0].score := players[0].score + 1;
        return Player1Wins;
      }
      if num == 2 {
        won := ScanLines(players[1].positions);
        if won {
          players[1].score := players[1].score + 1;
          return Player2Wins;
        }
      } else {
        won := ScanLines(aiPositions);
        if won {
          score := score + 1;
          return MachineWins;
        }
      }
      var blank := AnyBlank();
      status := if blank then StillPlaying else Draw;
    }

    /** The status-to-flag part of `show_board` (main.py:86-101): true exactly while the match goes
        on; the winner's score goes up as in `CheckFinished`. */
    method ShowBoard(num: int, players: seq<Player>) returns (sp: bool)
      requires Valid() && Roster(num, players)
      modifies this`score, players`score
      ensures sp <==> Outcome(num, View(num, players)) == StillPlaying
      ensures Scores(num, players) == Award(old(Scores(num, players)), Outcome(num, View(num, players)))
    {
      var gameStatus := CheckFinished(num, players);
      sp := KeepPlaying(gameStatus);
    }
  }
}
