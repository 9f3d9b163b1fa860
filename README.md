# Connect Four rules engine

A Dafny model of the rules engine of a two-player Connect Four game
(`connect4.js`), without its browser layer. Players 1 and 2 take turns
dropping a piece into one of 7 columns of a 6-row board; a piece falls to
the lowest empty row; four pieces of one player in a row, column or
diagonal win; a full board is a tie.

- `board.dfy`, module `Board`: a cell is `Empty` (the source's `null`) or
  `Piece(p)` with `p` the number 1 or 2; the board as a value is a sequence of
  rows, row 0 at the top (`g[y][x]`). `DropRow` is where gravity puts the next
  piece of a column, `Place` writes one cell, `Settled` is the gravity
  invariant, `IsFull` is the tie test over cells, and `RowsTieTest` is the tie
  test as the source writes it (see Findings).
- `win.dfy`, module `Win`: `AllOwned` is `_win`, `WinStartsAt` one iteration of
  the scan, `HasWin` what `checkForWin` answers. `FourInARow` states the rule
  without the scan: four of a player's pieces in a line in any of the eight
  compass directions. `ScanFindsEveryLine` proves the two agree. The other
  lemmas cover how a move changes the answer, and the scenarios of a
  horizontal win, a diagonal win and a drawn board.
- `game.dfy`, module `Game`: class `Connect4` holds the two globals of the
  source, `board` (a `HEIGHT x WIDTH` array) and `currPlayer`. A ghost field
  `Grid` is the board as a value, and `Valid()` ties the array to `Grid` and
  keeps gravity. The constructor runs `makeBoard`, and the methods
  `FindSpotForCol`, `CheckForWin` and `HandleClick` are the source's functions
  of those names, loops included.

What the code does that a reader of the rules might not expect:
- A won game is not frozen. `handleClick` has no game-over guard, so play
  goes on after a win, and the winner also moves next: the turn passes only
  on a move that does not win.
- After a tie the turn still passes, because the tie branch has no `return`.
- The dimensions are the constants 7 and 6.
- `handleClick` does no range check on the column. `HandleClick` takes it
  with the precondition `0 <= x < WIDTH`.
- `HandleClick` announces a tie with the tie test over cells, not with the
  test the source writes, which never fires (see Findings). Either way the
  board and the turn change in the same manner.
- `checkForWin` falls off its end without returning when no run wins; the
  model reads that `undefined` as `false`.

## Model

| member | source | states |
|---|---|---|
| `Board.Other` | connect4.js:119 | the player after `p` is the other of 1 and 2, so the active player stays in {1, 2} and changes on every flip |
| `Board.EmptyGrid` | connect4.js:18-23 | the board `makeBoard` builds has exactly HEIGHT rows, each WIDTH long, and every cell is null |
| `Game.Connect4.constructor` | connect4.js:11-23 | a new game has player 1 to move, an array of HEIGHT x WIDTH cells all null (filled row by row), and satisfies the gravity invariant |
| `Board.ScanUp` | connect4.js:61-66 | scanning column x upward from a row returns the first empty row met, with every row between it and the start occupied, and None exactly when every scanned row is occupied |
| `Board.DropRow` | connect4.js:60-67 | the spot for column x is the largest empty row of that column; every row below it is occupied; None exactly when the whole column is occupied |
| `Game.Connect4.FindSpotForCol` | connect4.js:60-67 | the downward loop with its early return yields exactly DropRow of the current board, reading only |
| `Board.Place` | connect4.js:106 | writing a piece sets exactly cell (y, x) to the player's piece and leaves every other cell as it was |
| `Board.PlaceOnlyFills` | connect4.js:97-106 | writing into an empty cell leaves every occupied cell as it was, so a cell only ever goes from null to a player |
| `Game.Connect4.PlacePiece` | connect4.js:106 | writing the current player's piece at the spot gravity gives column x changes the board exactly as Place does, keeps gravity, and leaves the player alone |
| `Board.DropRowOfSameColumn` | connect4.js:60-67 | the spot for a column depends only on that column's cells |
| `Board.PlaceAtDropRow` | connect4.js:97-106 | dropping into column x keeps gravity; the column's next spot is the row above (None once row 0 is filled); every other column's spot is unchanged |
| `Board.RowsTieTestNeverFires` | connect4.js:115 | the tie test as written holds exactly when the board has no rows, so it never holds on a HEIGHT-row board |
| `Board.FullIffNoDropRow` | connect4.js:115 | the intended tie test (every cell holds 1 or 2) holds exactly when every column is full, that is when every click would be ignored |
| `Game.Connect4.BoardIsFull` | connect4.js:115 | the tie test the model runs over the array holds exactly when every cell of the board holds 1 or 2 |
| `Game.Connect4.WinCells` | connect4.js:125-138 | `_win` holds exactly when every given coordinate is on the grid and holds the current player's piece; an off-grid coordinate fails the run and is never read |
| `Win.OffGridRunFails` | connect4.js:130-137 | a run with any off-grid coordinate is not a win, whatever the board holds |
| `Win.AllOwnedRun` | connect4.js:130-137 | `_win` on the four coordinates built from a start and a step holds exactly when the four cells of that line hold the player's pieces |
| `Game.Connect4.StartsWin` | connect4.js:145-173 | one iteration of the scan holds exactly when the horizontal, vertical, down-right or down-left run from (y, x) wins |
| `Game.Connect4.CheckForWin` | connect4.js:124-178 | the nested scan with its early return answers exactly HasWin for the current board and player; it modifies nothing, so repeated calls on an unchanged board agree |
| `Win.ScanFindsEveryLine` | connect4.js:141-177 | the scan of four forward runs from every on-grid start answers true exactly when the player has four in a line in any of the eight directions |
| `Win.NoWinBeforeNext` | connect4.js:141-177 | a failed start extends "no winning start so far" by one cell in reading order, wrapping to the next row at the end of a row |
| `Win.ScanVerdict` | connect4.js:141-177 | a scan that passes every cell answers no win; one that stops at a winning start answers win |
| `Win.WinStartIsLine` | connect4.js:141-177 | every start the scan accepts is a line of four in one of the four scanned directions |
| `Win.LineIsWinStart` | connect4.js:141-177 | every line of four, in any direction, has an end from which one of the four scanned runs wins |
| `Win.OwnsAfterPlace` | connect4.js:106 | writing a piece at (y, x) changes whose piece is at (y, x) and at no other cell |
| `Win.LineAvoidingPlace` | connect4.js:106 | a line of four that does not pass through the cell just written already existed before the write |
| `Win.NewWinUsesNewPiece` | connect4.js:106-111 | if the mover had no win before the move and has one after, some winning line passes through the piece just placed |
| `Win.PlaceKeepsOpponentsWin` | connect4.js:106-111 | placing one player's piece on an empty cell neither creates nor removes a win of the other player |
| `Win.ThreePiecesNeverWin` | connect4.js:124-178 | a player whose pieces occupy at most three cells has no win |
| `Win.EmptyGridHasNoWin` | connect4.js:18-23 | the board `makeBoard` builds has no win for either player |
| `Win.BottomRowWin` | connect4.js:145-150 | player 1's pieces in columns 0 to 3 of the bottom row are a win, whatever else the board holds |
| `Win.RisingDiagonalWin` | connect4.js:166-171 | player 2's pieces at (5,0), (4,1), (3,2), (2,3) are a win (found from (2,3) by the down-left run) |
| `Win.RisingDiagonalMissingOne` | connect4.js:166-171 | with any one of those four cells left empty, player 2 has no win |
| `Win.DrawnGridTieMissed` | connect4.js:113-119 | on `DrawnGrid`, a full board, neither player has won, the tie test over cells holds and the tie test as written does not |
| `Game.Connect4.HandleClick` | connect4.js:92-120 | a full column changes neither board nor player. Otherwise the current player's piece lands at DropRow and no other cell changes, so no occupied cell is ever emptied or overwritten. The outcome is a win for the mover if the scan finds one, else a tie if every cell is occupied, else play on. The player stays after a win and flips otherwise (after a tie too). Gravity is kept |

## Findings

| source | as written | input that shows it | evidently intended | confidence | as-written member | corrected member |
|---|---|---|---|---|---|---|
| connect4.js:115 | `board.every(cell => cell === 1 \|\| cell === 2)` runs over the rows of `board`; a row is an array, never equal to 1 or 2, so the test is false on every 6-row board | the last move of a drawn game, such as `Win.DrawnGrid`: 21 pieces of each player and no four in a row (cell (y, x) holds 1 when y / 2 + x, plus 1 on the bottom row, is even, else 2). Playing columns 1, 0, 0, 0, 3, 0, 0, 1, 0, 2, 1, 3, 1, 1, 2, 1, 3, 2, 3, 2, 2, 3, 2, 3, 5, 4, 4, 5, 5, 4, 5, 4, 4, 6, 6, 6, 4, 6, 6, 5, 6, 5 from the empty board, player 1 first, fills it. `handleClick` reaches the tie test and no tie is announced | a tie when every cell holds 1 or 2 | high; not executed | `Win.DrawnGridTieMissed` (with `Board.RowsTieTest`, `Board.RowsTieTestNeverFires`) | `Board.IsFull`, proved by `Board.FullIffNoDropRow` to hold exactly when no column can take a piece; `Game.Connect4.HandleClick` reports the tie through `Game.Connect4.BoardIsFull` |

## Left out

- The browser layer is not modelled: `makeHtmlBoard` and `placeInTable`
  (connect4.js:27-81) build and update the HTML table and have no rule content.
- `endGame` (connect4.js:85-88) only shows an alert. `HandleClick` returns
  the message it would show as an `Outcome` value (`Won(p)`, `Tied`,
  `Ignored`, `Played`).
- Reading the column out of the click event (connect4.js:94) is left out.
  `HandleClick` takes the column as an integer, and its precondition is
  `0 <= x < WIDTH`. What JavaScript does with a column out of range or `NaN`
  (a falsy `undefined` read) is not modelled.
- The start-up calls (connect4.js:180-181) are partly modelled: the
  constructor runs `makeBoard(WIDTH, HEIGHT)`, and `makeHtmlBoard` is left
  out.
- The board is modelled as one two-dimensional array rather than an array of
  separately allocated row arrays. `makeBoard` replaces whole rows, and the
  constructor writes the same nulls cell by cell. No row is ever shared in
  the source, so there is no aliasing to lose.
- `makeBoard`'s parameters shadow the global `WIDTH` and `HEIGHT`, and the one
  call passes the globals. The model uses the constants 7 and 6 throughout
  and does not model a board of another size.
