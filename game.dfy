/** The game state the source keeps in two globals, `board` and `currPlayer`,
    as one object: a HEIGHT x WIDTH array of cells and the active player.
    The ghost field Grid is the board as a value (module Board); Valid ties
    the array to it and records gravity. */
module Game {
  import opened Board
  import opened Win

  /** What a click leads to: nothing (full column), the win message naming the
      mover, the tie message, or a silent continue. */
  datatype Outcome = Ignored | Won(winner: Player) | Tied | Played

  class Connect4 {
    var board: array2<Cell>
    var currPlayer: Player
    ghost var Grid: Grid

    ghost predicate Valid()
      reads this, board
    {
      board.Length0 == HEIGHT && board.Length1 == WIDTH &&
      WellFormed(Grid) &&
      (forall y, x :: 0 <= y < HEIGHT && 0 <= x < WIDTH ==> board[y, x] == Grid[y][x]) &&
      Settled(Grid)
    }

    /** Start-up: player 1 to move, and `makeBoard` fills every row with nulls. */
    constructor ()
      ensures Valid() && fresh(board)
      ensures Grid == EmptyGrid() && currPlayer == 1
    {
      var b := new Cell[HEIGHT, WIDTH];
      for i := 0 to HEIGHT
        invariant forall y, x :: 0 <= y < i && 0 <= x < WIDTH ==> b[y, x] == Empty
      {
        for x := 0 to WIDTH
          invariant forall y, x' :: 0 <= y < i && 0 <= x' < WIDTH ==> b[y, x'] == Empty
          invariant forall x' :: 0 <= x' < x ==> b[i, x'] == Empty
        {
          b[i, x] := Empty;
        }
      }
      board := b;
      currPlayer := 1;
      Grid := EmptyGrid();
    }

    /** `findSpotForCol`: scan column x from the bottom row up and return the
        first empty row, or None when the column is full. */
    method FindSpotForCol(x: int) returns (spot: Option<int>)
      requires Valid() && 0 <= x < WIDTH
      ensures spot == DropRow(Grid, x)
    {
      var y := HEIGHT - 1;
      while y >= 0
        invariant -1 <= y < HEIGHT
        invariant forall y' :: y < y' < HEIGHT ==> Grid[y'][x] != Empty
      {
        if board[y, x] == Empty {
          return Some(y);
        }
        y := y - 1;
      }
      return None;
    }

    /** `_win`: are all the given coordinates on the grid and held by the
        current player? Off-grid coordinates fail the test; they are never
        read. */
    function WinCells(cells: seq<Coord>): (r: bool)
      reads this, board
      requires Valid()
      ensures r <==> AllOwned(Grid, currPlayer, cells)
    {
      forall i :: 0 <= i < |cells| ==>
        InBounds(cells[i].0, cells[i].1) && board[cells[i].0, cells[i].1] == Piece(currPlayer)
    }

    /** One iteration of `checkForWin`'s scan: does the horizontal, vertical,
        down-right or down-left run from (y, x) win? */
    function StartsWin(y: int, x: int): (r: bool)
      reads this, board
      requires Valid()
      ensures r <==> WinStartsAt(Grid, currPlayer, y, x)
    {
      var horiz, vert, diagDR, diagDL := Run(y, x, 0, 1), Run(y, x, 1, 0), Run(y, x, 1, 1), Run(y, x, 1, -1);
      WinCells(horiz) || WinCells(vert) || WinCells(diagDR) || WinCells(diagDL)
    }

    /** `checkForWin`: try every cell, in reading order, as the start of a
        horizontal, vertical, down-right and down-left run. Only reads. */
    method CheckForWin() returns (won: bool)
      requires Valid()
      ensures won == HasWin(Grid, currPlayer)
    {
      for y := 0 to HEIGHT
        invariant NoWinBefore(Grid, currPlayer, y, 0)
      {
        for x := 0 to WIDTH
          invariant NoWinBefore(Grid, currPlayer, y, x)
        {
          if StartsWin(y, x) {
            ScanVerdict(Grid, currPlayer, y, x);
            return true;
          }
          NoWinBeforeNext(Grid, currPlayer, y, x);
        }
      }
      ScanVerdict(Grid, currPlayer, 0, 0);
      return false;
    }

    /** The tie test over every cell (the source's test runs over rows; see
        Board.RowsTieTest). */
    function BoardIsFull(): (r: bool)
      reads this, board
      requires Valid()
      ensures r <==> IsFull(Grid)
    {
      forall y, x :: 0 <= y < HEIGHT && 0 <= x < WIDTH ==> IsPlayerNumber(CellValue(board[y, x]))
    }

    /** `board[y][x] = currPlayer`: the current player's piece lands in the
        spot gravity gives column x. */
    method PlacePiece(y: int, x: int)
      requires Valid() && 0 <= x < WIDTH && DropRow(Grid, x) == Some(y)
      modifies this, board
      ensures Valid() && board == old(board) && currPlayer == old(currPlayer)
      ensures Grid == Place(old(Grid), y, x, currPlayer)
    {
      board[y, x] := Piece(currPlayer);
      PlaceAtDropRow(Grid, x, currPlayer);
      Grid := Place(Grid, y, x, currPlayer);
    }

    /** The in-memory part of `handleClick` for column x: ignore a full column;
        otherwise drop the current player's piece, report a win (keeping the
        player), or else report a tie or nothing and pass the turn. */
    method HandleClick(x: int) returns (outcome: Outcome)
      requires Valid() && 0 <= x < WIDTH
      modifies this, board
      ensures Valid() && board == old(board)
      ensures old(DropRow(Grid, x)).None? ==>
                outcome == Ignored && Grid == old(Grid) && currPlayer == old(currPlayer)
      ensures old(DropRow(Grid, x)).Some? ==>
                Grid == Place(old(Grid), old(DropRow(Grid, x)).value, x, old(currPlayer)) &&
                outcome == (if HasWin(Grid, old(currPlayer)) then Won(old(currPlayer))
                            else if IsFull(Grid) then Tied else Played) &&
                currPlayer == (if outcome.Won? then old(currPlayer) else Other(old(currPlayer)))
      ensures forall y, x' :: InBounds(y, x') && old(Grid)[y][x'] != Empty ==> Grid[y][x'] == old(Grid)[y][x']
    {
      var spot := FindSpotForCol(x);
      if spot.None? {
        return Ignored;
      }
      var y := spot.value;
      PlaceOnlyFills(Grid, y, x, currPlayer);
      PlacePiece(y, x);
      var won := CheckForWin();
      if won {
        return Won(currPlayer);
      }
      outcome := if BoardIsFull() then Tied else Played;
      currPlayer := Other(currPlayer);
    }
  }
}
