# Tic-tac-toe engine, modelled and verified in Dafny

This project models the game engine of a console tic-tac-toe program (`main.py`). Icons, the
board and the end-of-game check are modelled, and so are the choosers and turns, the playing
loop and the rematch. The printing and prompting around the engine are left out.

- **Icon assignment** (module `Players`). The session-wide flags `X_TAKEN`/`O_TAKEN` are an
  `IconRegistry` object, and its `Assign` method is the loop of `Player.__init__`. With both
  flags clear, the first reply naming "x"/"X"/"o"/"O" decides the icon. With only O taken the
  player gets X, and otherwise O. The second player therefore always gets the other icon.
  `Player` is a class with the fields the program mutates: `icon`, `score` and `positions`.
- **Board** (module `Board`). `GameBoard` holds the nine slots in a fixed `array<Mark>` that is
  updated in place, plus the machine's positions and score. The table of winning triples is a
  constant, proved to hold exactly the rows, columns and diagonals of the 3x3 grid.
  `CheckFinished` is the three tally loops followed by the blank scan, with the same precedence:
  - player 1 wins ties;
  - the second side (player 2, or the machine) is checked only when player 1 has no line;
  - a draw needs a full board with no line.

  Every call that finds a win adds one point to the winner. `ShowBoard` turns the status into
  the "still playing" flag.
- **Turns** (module `Turns`). The choosers `GetChoice`/`AiChoice` read a finite sequence of
  replies or draws. They return the first reply that names a free tile, or say why none was
  picked: `IndexError` for a reply the list lookup does not survive, `InputEnded` when the
  replies run out. A turn writes the mover's icon into slot `c - 1` and appends `c` to the
  mover's list. The invariant `Tracks` is kept by every turn: each side's positions are distinct
  and show its icon, and the taken slots number as many as both lists together.
- **Session** (module `Session`). This module covers the player count, set-up, one pass of the
  playing loop and the rematch reset:
  - In each pass the holder of X moves first. `PlayRound` is tied to the value function
    `RoundPlay`, and lemmas about that function prove the turn order.
  - The machine holds the icon player 1 does not.
  - A "y"/"Y" rematch empties every list and slot and keeps scores and icons.

The heap state is read through two value views, `GameBoard.View` (the slots and both claim
lists, as a `Claims` value) and `GameBoard.Scores`. This lets every state-changing method state
its effect as an equation between old and new views, against value-level functions (`Claim`,
`Outcome`, `Award`, `RoundPlay`) whose properties are proved as lemmas.

Two behaviours of the code the model keeps:
- The end-of-game check is not a pure evaluation: the code adds a point to the winner on every
  call that finds a win (main.py:115, 125, 135). `CheckFinished` does the same.
- The blank scan reads the module-level `board` (main.py:139), and `play_turn` writes through the
  module-level `players` (main.py:193-194). Both are the same objects as the method's own
  arguments (main.py:198, 207), so the model uses the arguments.

## Model

| member | source | states |
|---|---|---|
| Marks.Other | main.py:224-234 | the machine's icon is never the human's |
| Text.UpperIsLetter | main.py:28 | a reply upper-cases to one letter exactly when it is that letter in either case |
| Text.LowerIsLetter | main.py:245 | a reply lower-cases to one letter exactly when it is that letter in either case |
| Players.ReplyNamesIcon | main.py:28-34 | exactly "x"/"X" name X, exactly "o"/"O" name O, and every other reply names no icon |
| Players.FirstIconReply | main.py:26-34 | the index of the first reply naming an icon: all earlier replies name none |
| Players.FreeChoiceNeedsAnIconReply | main.py:26-34 | with both flags clear, an icon is settled exactly when some reply names one |
| Players.SecondPlayerGetsTheOtherIcon | main.py:35-42 | once player 1 chose an icon, the next player gets the other one, reading no reply |
| Players.IconRegistry.constructor | main.py:18-19 | both flags start clear |
| Players.IconRegistry.Assign | main.py:24-42 | the loop settles the icon `AssignedIcon` names, reads exactly `RepliesRead` replies, and raises only the chosen icon's flag |
| Players.Player.constructor | main.py:43-44 | a new player has the given icon, score 0 and no positions |
| Players.Player.SelectTile | main.py:46-47 | the position is appended to the player's list |
| Players.NewPlayer | main.py:23-44 | a player exists exactly when an icon is assigned; it holds that icon with score 0 and no positions, and the flags record it |
| Board.NoLineWithoutClaims | main.py:109-137 | a side with no positions holds no line |
| Board.WinCombosAreGridLines | main.py:54-63 | every table entry is a row, column or diagonal in increasing order, and every such line is an entry |
| Board.HasLineMeansGridLine | main.py:54-63 | holding a table line is the same as holding three collinear positions of the grid |
| Board.ScanLines | main.py:109-137 | the tally loop reports a win exactly when some triple lies entirely among the positions |
| Board.FilledClaim | main.py:193 | marking a blank slot takes exactly one more slot |
| Board.FilledAll | main.py:138-141 | all nine slots are taken exactly when no slot is blank |
| Board.FilledNone | main.py:53 | a board of blanks has no slot taken |
| Board.KeepPlaying | main.py:86-101 | the flag is true exactly for "still playing" and false for both wins, the machine's win and a draw |
| Board.GameBoard.constructor | main.py:51-65 | nine blank slots, no machine positions, machine score 0 |
| Board.GameBoard.ClearCells | main.py:250-252 | afterwards every slot is blank |
| Board.GameBoard.AiSelection | main.py:103-105 | the position is appended to the machine's list |
| Board.GameBoard.AnyBlank | main.py:138-141 | true exactly when some slot is blank |
| Board.GameBoard.CheckFinished | main.py:107-141 | the status is `Outcome` of the board: player 1's line wins first, then the second side's, then a blank means still playing, else a draw. The winner's score, and only that score, goes up by one |
| Board.GameBoard.ShowBoard | main.py:86-101 | the flag is true exactly while `Outcome` is still playing, and the winner gains one point |
| Turns.FirstFree | main.py:157-162 | a picked tile is in 1..9, its slot is blank, and it is one of the replies |
| Turns.PickedIsFirstAcceptable | main.py:157-162 | a picked tile is the first acceptable reply, and every earlier reply was indexable and refused |
| Turns.FirstAcceptableIsPicked | main.py:157-162 | an acceptable reply preceded only by refused, indexable replies is the one picked |
| Turns.DrawsNeverRaise | main.py:174-177 | draws in 1..9 never make the lookup raise |
| Turns.GetChoice | main.py:144-164 | the prompt loop returns `FirstFree` of the replies, including the raise on a reply outside -8..9 and Python's negative indexing |
| Turns.AiChoice | main.py:167-179 | the draw loop returns `FirstFree` of the draws and never raises |
| Turns.FreshTracks | main.py:53 | an empty board with empty lists is tracked |
| Turns.NoDoubleClaim | main.py:192-194 | while tracked, no position is on both lists and a blank slot is on neither |
| Turns.FullAfterNineMoves | main.py:138-141 | while tracked, the board is full exactly when nine positions are recorded |
| Turns.ClaimKeepsTracks | main.py:193-194 | claiming a blank slot with the mover's icon keeps the board tracked |
| Turns.ClaimTile | main.py:193-194 | the mover's icon goes into slot c - 1 and c onto the mover's list; nothing else changes, and the board stays consistent |
| Turns.TakeTile | main.py:193-195 | the claim as in `ClaimTile`, then the flag and score update of `ShowBoard` on the new board |
| Turns.PlayTurn | main.py:182-195 | the tile is `FirstFree` of the replies. When one is picked it is claimed, and the flag and scores follow `Outcome`. Otherwise nothing changes |
| Turns.MachineClaim | main.py:228-229 | the machine's icon, the one player 1 does not hold, goes into slot c - 1 and c onto the machine's list; the board stays consistent |
| Turns.MachineTurn | main.py:227-235 | the same with the draws: the machine claims with the icon player 1 does not hold and never raises |
| Turns.SideTurn | main.py:211-237 | a human side's turn or the machine's, with the claiming side's icon; the board stays consistent, so with two players the machine's list stays empty |
| Session.ReadPlayerCount | main.py:204-206 | the count is the first reply that is 1 or 2, and all earlier replies are neither |
| Session.SidesHoldXAndO | main.py:213-234 | the side named as X's holder holds X and the other side O |
| Session.FreshIsConsistent | main.py:250-253 | a fresh board is consistent and undecided |
| Session.StartSession | main.py:198-207 | after set-up, player 1 has the icon the replies choose, player 2 the other one, nothing is claimed (the machine's list included), all scores are 0, and the match is undecided |
| Session.RoundFlag | main.py:209-237 | a completed pass reports whether the match is undecided; a pass stopped at a prompt leaves it undecided |
| Session.RoundMoves | main.py:211-237 | X's holder claims X's pick first, and that slot keeps its X. The other side claims at most as many tiles in the pass, and an undecided completed pass gives each side one tile |
| Session.RoundFillsTwoSlots | main.py:211-237 | an undecided completed pass takes exactly two slots and leaves one blank. It can only start from at most six taken slots |
| Session.ReplyTurn | main.py:218-237 | O's holder takes its tile as `Reply` describes, the board stays consistent (with two players the machine's list stays empty), and the winner is awarded |
| Session.PlayRound | main.py:211-237 | one pass of the loop: the new board and the result are `RoundPlay` of the old board, the board stays consistent (with two players the machine's list stays empty), and the scores follow `Outcome` |
| Session.ClearClaims | main.py:247-248 | every player's list is empty |
| Session.Rematch | main.py:244-253 | a reply of "y" or "Y" empties every list and slot and leaves a consistent, undecided board; any other reply changes nothing. Scores and icons are kept either way |

## Left out

- Printing and board rendering (the logo, the board, the prompts with available tiles, the score
  lines and messages): output only.
- `os.system('clear')`: a terminal side effect.
- Blocking `input()`: replies are finite sequences. When they run out (`InputEnded`, or `None`
  for the icon and count prompts) the program would keep waiting.
- `int(...)` on text that is not a number raises and ends the program: the choosers and the count
  prompt take integers.
- Python's `upper()`/`lower()` beyond ASCII: only the ASCII letters matter for the replies
  compared here.
- `random.randint(1, 9)`: the machine's draws are a parameter, a finite sequence of values in
  1..9. The rejection loop ends only with probability 1, so an exhausted draw sequence is
  reported as `InputEnded`.
- The unbounded `while still_playing` session loop: the model has one pass (`PlayRound`), whose
  contract keeps the loop's invariant (`Consistent`), and the rematch step (`Rematch`). It does
  not model the sequence of passes itself.
- `super().__init__()` in `GameBoard.__init__`: it has no effect.
