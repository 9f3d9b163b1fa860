/** The win rule. `checkForWin` tries every cell of the grid as the first cell
    of four runs (right, down, down-right, down-left) and reports a win when
    some run lies wholly on the grid and holds only the current player's
    pieces. HasWin is that scan stated as a predicate; FourInARow is the rule
    stated without the scan (four pieces in a line, in any of the eight
    compass directions); ScanFindsEveryLine proves the two agree. */
module Win {
  import opened Board

  /** A grid coordinate (y, x); it may lie off the grid. */
  type Coord = (int, int)

  /** Player p has a piece at (y, x). Off-grid coordinates hold nobody's piece. */
  predicate Owns(g: Grid, p: Player, y: int, x: int)
    requires WellFormed(g)
  {
    InBounds(y, x) && g[y][x] == Piece(p)
  }

  /** `_win`: every coordinate lies on the grid and holds p's piece. */
  predicate AllOwned(g: Grid, p: Player, cells: seq<Coord>)
    requires WellFormed(g)
  {
    forall i :: 0 <= i < |cells| ==> Owns(g, p, cells[i].0, cells[i].1)
  }

  /** The four coordinates that start at (y, x) and step by (dy, dx). */
  function Run(y: int, x: int, dy: int, dx: int): seq<Coord> {
    [(y, x), (y + dy, x + dx), (y + 2 * dy, x + 2 * dx), (y + 3 * dy, x + 3 * dx)]
  }

  /** The test of one loop iteration: horiz, vert, diagDR or diagDL from (y, x). */
  predicate WinStartsAt(g: Grid, p: Player, y: int, x: int)
    requires WellFormed(g)
  {
    AllOwned(g, p, Run(y, x, 0, 1)) || AllOwned(g, p, Run(y, x, 1, 0)) ||
    AllOwned(g, p, Run(y, x, 1, 1)) || AllOwned(g, p, Run(y, x, 1, -1))
  }

  /** What `checkForWin` answers: some cell of the grid starts a winning run. */
  ghost predicate HasWin(g: Grid, p: Player)
    requires WellFormed(g)
  {
    exists y, x :: InBounds(y, x) && WinStartsAt(g, p, y, x)
  }

  /** No cell before (y, x) in reading order starts a winning run. */
  ghost predicate NoWinBefore(g: Grid, p: Player, y: int, x: int)
    requires WellFormed(g)
  {
    forall y', x' :: InBounds(y', x') && (y' < y || (y' == y && x' < x)) ==> !WinStartsAt(g, p, y', x')
  }

  /** The scan may move on from (y, x) once the run from (y, x) has failed. */
  lemma NoWinBeforeNext(g: Grid, p: Player, y: int, x: int)
    requires WellFormed(g) && NoWinBefore(g, p, y, x) && !WinStartsAt(g, p, y, x)
    ensures NoWinBefore(g, p, y, x + 1)
    ensures x + 1 == WIDTH ==> NoWinBefore(g, p, y + 1, 0)
  {
  }

  /** A scan that has passed every cell without a win answers false; one that
      stops at a winning start answers true. */
  lemma ScanVerdict(g: Grid, p: Player, y: int, x: int)
    requires WellFormed(g)
    ensures NoWinBefore(g, p, HEIGHT, 0) ==> !HasWin(g, p)
    ensures InBounds(y, x) && WinStartsAt(g, p, y, x) ==> HasWin(g, p)
  {
  }

  /** One of the eight compass directions. */
  predicate IsDirection(dy: int, dx: int) {
    -1 <= dy <= 1 && -1 <= dx <= 1 && (dy, dx) != (0, 0)
  }

  /** Four of p's pieces in a line from (y, x) in direction (dy, dx). */
  predicate LineOfFour(g: Grid, p: Player, y: int, x: int, dy: int, dx: int)
    requires WellFormed(g)
  {
    Owns(g, p, y, x) && Owns(g, p, y + dy, x + dx) &&
    Owns(g, p, y + 2 * dy, x + 2 * dx) && Owns(g, p, y + 3 * dy, x + 3 * dx)
  }

  /** The rule of the game: p has four in a row somewhere, in some direction. */
  ghost predicate FourInARow(g: Grid, p: Player)
    requires WellFormed(g)
  {
    exists y, x, dy, dx :: IsDirection(dy, dx) && LineOfFour(g, p, y, x, dy, dx)
  }

  /** `_win` on a run is the line test on its four cells. */
  lemma AllOwnedRun(g: Grid, p: Player, y: int, x: int, dy: int, dx: int)
    requires WellFormed(g)
    ensures AllOwned(g, p, Run(y, x, dy, dx)) <==> LineOfFour(g, p, y, x, dy, dx)
  {
    var r := Run(y, x, dy, dx);
    if AllOwned(g, p, r) {
      assert Owns(g, p, r[0].0, r[0].1) && Owns(g, p, r[1].0, r[1].1);
      assert Owns(g, p, r[2].0, r[2].1) && Owns(g, p, r[3].0, r[3].1);
    }
  }

  /** A run that leaves the grid is not a win: an off-grid coordinate fails
      that run, whatever the rest of the board holds. */
  lemma OffGridRunFails(g: Grid, p: Player, cells: seq<Coord>, i: int)
    requires WellFormed(g) && 0 <= i < |cells| && !InBounds(cells[i].0, cells[i].1)
    ensures !AllOwned(g, p, cells)
  {
  }

  /** The scan agrees with the rule: trying only four forward directions from
      every on-grid start finds every line of four, whichever of its ends
      lies first in reading order. */
  lemma ScanFindsEveryLine(g: Grid, p: Player)
    requires WellFormed(g)
    ensures HasWin(g, p) <==> FourInARow(g, p)
  {
    if HasWin(g, p) {
      var y, x :| InBounds(y, x) && WinStartsAt(g, p, y, x);
      WinStartIsLine(g, p, y, x);
    }
    if FourInARow(g, p) {
      var y, x, dy, dx :| IsDirection(dy, dx) && LineOfFour(g, p, y, x, dy, dx);
      LineIsWinStart(g, p, y, x, dy, dx);
    }
  }

  /** A winning start found by the scan is a line of four. */
  lemma WinStartIsLine(g: Grid, p: Player, y: int, x: int)
    requires WellFormed(g) && WinStartsAt(g, p, y, x)
    ensures FourInARow(g, p)
  {
    AllOwnedRun(g, p, y, x, 0, 1);
    AllOwnedRun(g, p, y, x, 1, 0);
    AllOwnedRun(g, p, y, x, 1, 1);
    AllOwnedRun(g, p, y, x, 1, -1);
    if LineOfFour(g, p, y, x, 0, 1) {
      assert IsDirection(0, 1);
    } else if LineOfFour(g, p, y, x, 1, 0) {
      assert IsDirection(1, 0);
    } else if LineOfFour(g, p, y, x, 1, 1) {
      assert IsDirection(1, 1);
    } else {
      assert IsDirection(1, -1);
    }
  }

  /** A line of four in any direction gives the scan a winning start: the
      line's upper end (its left end on a row), read in a forward direction. */
  lemma LineIsWinStart(g: Grid, p: Player, y: int, x: int, dy: int, dx: int)
    requires WellFormed(g) && IsDirection(dy, dx) && LineOfFour(g, p, y, x, dy, dx)
    ensures HasWin(g, p)
  {
    var sy, sx, ey, ex := y, x, dy, dx;
    if dy < 0 || (dy == 0 && dx < 0) {
      // the same four cells, read from the other end
      sy, sx, ey, ex := y + 3 * dy, x + 3 * dx, -dy, -dx;
      assert LineOfFour(g, p, sy, sx, ey, ex);
    }
    assert (ey, ex) in {(0, 1), (1, 0), (1, 1), (1, -1)};
    AllOwnedRun(g, p, sy, sx, ey, ex);
    assert InBounds(sy, sx) && WinStartsAt(g, p, sy, sx);
  }

  /** A move can only complete a line through the piece it places: if p had
      no four in a row before, any four in a row after it uses (y, x). */
  lemma NewWinUsesNewPiece(g: Grid, y: int, x: int, p: Player)
    requires WellFormed(g) && InBounds(y, x) && g[y][x] == Empty
    requires !HasWin(g, p) && HasWin(Place(g, y, x, p), p)
    ensures exists sy, sx, dy, dx :: IsDirection(dy, dx) && LineOfFour(Place(g, y, x, p), p, sy, sx, dy, dx) &&
              OnLine(y, x, sy, sx, dy, dx)
  {
    var h := Place(g, y, x, p);
    ScanFindsEveryLine(h, p);
    var sy, sx, dy, dx :| IsDirection(dy, dx) && LineOfFour(h, p, sy, sx, dy, dx);
    if !OnLine(y, x, sy, sx, dy, dx) {
      LineAvoidingPlace(g, y, x, p, sy, sx, dy, dx);
      LineIsWinStart(g, p, sy, sx, dy, dx);
      assert false;
    }
  }

  /** A line that misses (y, x) was there before the piece was placed. */
  lemma LineAvoidingPlace(g: Grid, y: int, x: int, p: Player, sy: int, sx: int, dy: int, dx: int)
    requires WellFormed(g) && InBounds(y, x) && !OnLine(y, x, sy, sx, dy, dx)
    requires LineOfFour(Place(g, y, x, p), p, sy, sx, dy, dx)
    ensures LineOfFour(g, p, sy, sx, dy, dx)
  {
    OwnsAfterPlace(g, y, x, p, p, sy, sx);
    OwnsAfterPlace(g, y, x, p, p, sy + dy, sx + dx);
    OwnsAfterPlace(g, y, x, p, p, sy + 2 * dy, sx + 2 * dx);
    OwnsAfterPlace(g, y, x, p, p, sy + 3 * dy, sx + 3 * dx);
  }

  /** Placing a piece at (y, x) changes who owns (y, x) and no other cell. */
  lemma OwnsAfterPlace(g: Grid, y: int, x: int, p: Player, q: Player, y': int, x': int)
    requires WellFormed(g) && InBounds(y, x) && (y', x') != (y, x)
    ensures Owns(Place(g, y, x, p), q, y', x') <==> Owns(g, q, y', x')
  {
  }

  /** (y, x) is one of the four cells of the line from (sy, sx) in direction (dy, dx). */
  predicate OnLine(y: int, x: int, sy: int, sx: int, dy: int, dx: int) {
    (y, x) == (sy, sx) || (y, x) == (sy + dy, sx + dx) ||
    (y, x) == (sy + 2 * dy, sx + 2 * dx) || (y, x) == (sy + 3 * dy, sx + 3 * dx)
  }

  /** Placing p's piece on an empty cell neither creates nor destroys a win
      of the other player. */
  lemma PlaceKeepsOpponentsWin(g: Grid, y: int, x: int, p: Player, q: Player)
    requires WellFormed(g) && InBounds(y, x) && g[y][x] == Empty && q != p
    ensures HasWin(Place(g, y, x, p), q) <==> HasWin(g, q)
  {
    var h := Place(g, y, x, p);
    assert forall y', x' :: Owns(h, q, y', x') <==> Owns(g, q, y', x');
    ScanFindsEveryLine(g, q);
    ScanFindsEveryLine(h, q);
    if FourInARow(h, q) {
      var sy, sx, dy, dx :| IsDirection(dy, dx) && LineOfFour(h, q, sy, sx, dy, dx);
      assert LineOfFour(g, q, sy, sx, dy, dx);
    }
    if FourInARow(g, q) {
      var sy, sx, dy, dx :| IsDirection(dy, dx) && LineOfFour(g, q, sy, sx, dy, dx);
      assert LineOfFour(h, q, sy, sx, dy, dx);
    }
  }

  /** A player with pieces on at most three cells has no win. */
  lemma ThreePiecesNeverWin(g: Grid, p: Player, a: Coord, b: Coord, c: Coord)
    requires WellFormed(g)
    requires forall y, x :: Owns(g, p, y, x) ==> (y, x) == a || (y, x) == b || (y, x) == c
    ensures !HasWin(g, p)
  {
    ScanFindsEveryLine(g, p);
  }

  /** A new game has no winner. */
  lemma EmptyGridHasNoWin(p: Player)
    ensures !HasWin(EmptyGrid(), p)
  {
    ThreePiecesNeverWin(EmptyGrid(), p, (0, 0), (0, 0), (0, 0));
  }

  /** The horizontal scenario: player 1's pieces across the bottom row in
      columns 0 to 3 are a win, whatever else the board holds. */
  lemma BottomRowWin(g: Grid)
    requires WellFormed(g)
    requires g[5][0] == g[5][1] == g[5][2] == g[5][3] == Piece(1)
    ensures HasWin(g, 1)
  {
    assert LineOfFour(g, 1, 5, 0, 0, 1);
    LineIsWinStart(g, 1, 5, 0, 0, 1);
  }

  /** Player 2 on the rising diagonal (5 - k, k) for k in 0..3, except k == skip. */
  function Diagonal(skip: int): (g: Grid)
    ensures WellFormed(g)
    ensures forall y, x :: InBounds(y, x) ==>
              g[y][x] == if 0 <= x < 4 && y == 5 - x && x != skip then Piece(2) else Empty
  {
    seq(HEIGHT, y => seq(WIDTH, x => if 0 <= x < 4 && y == 5 - x && x != skip then Piece(2) else Empty))
  }

  /** The diagonal scenario: player 2 at (5,0), (4,1), (3,2) and (2,3) has won. */
  lemma RisingDiagonalWin()
    ensures HasWin(Diagonal(-1), 2)
  {
    var g := Diagonal(-1);
    assert g[5][0] == g[4][1] == g[3][2] == g[2][3] == Piece(2);
    assert LineOfFour(g, 2, 5, 0, -1, 1);
    LineIsWinStart(g, 2, 5, 0, -1, 1);
  }

  /** With any one of those four cells left empty, the other three do not win. */
  lemma RisingDiagonalMissingOne(skip: int)
    requires 0 <= skip < 4
    ensures !HasWin(Diagonal(skip), 2)
  {
    var g := Diagonal(skip);
    // the three cells of the diagonal other than (5 - skip, skip)
    var a: Coord := if skip == 0 then (4, 1) else (5, 0);
    var b: Coord := if skip <= 1 then (3, 2) else (4, 1);
    var c: Coord := if skip <= 2 then (2, 3) else (3, 2);
    forall y, x | Owns(g, 2, y, x) ensures (y, x) == a || (y, x) == b || (y, x) == c {
      assert 0 <= x < 4 && y == 5 - x && x != skip;
    }
    ThreePiecesNeverWin(g, 2, a, b, c);
  }

  /** The player whose piece DrawnGrid holds at (y, x), as a parity: row y is
      shifted by y / 2, and the bottom row by one more. */
  function DrawnParity(y: int, x: int): int {
    (y / 2 + x + (if y == HEIGHT - 1 then 1 else 0)) % 2
  }

  /** A full board without a line of four, with 21 pieces of each player:
      cell (y, x) holds player 1 when DrawnParity(y, x) is 0 and player 2
      otherwise. The players alternate along every row; down a column the
      owner changes within every three rows. */
  function DrawnGrid(): (g: Grid)
    ensures WellFormed(g)
    ensures forall y, x :: InBounds(y, x) ==> g[y][x] == Piece(if DrawnParity(y, x) == 0 then 1 else 2)
  {
    seq(HEIGHT, y => seq(WIDTH, x => Piece(if DrawnParity(y, x) == 0 then 1 else 2)))
  }

  /** The tie test as written misses a drawn game: DrawnGrid is full and
      neither player has won, so `handleClick` reaches its tie test, yet the
      test over rows is false while the test over cells holds. */
  lemma DrawnGridTieMissed(p: Player)
    ensures IsFull(DrawnGrid()) && !HasWin(DrawnGrid(), p)
    ensures !RowsTieTest(DrawnGrid())
  {
    var g := DrawnGrid();
    RowsTieTestNeverFires(g);
    forall y, x | InBounds(y, x) ensures !WinStartsAt(g, p, y, x) {
      DrawnGridNoWinStart(p, y, x);
    }
  }

  /** No run of DrawnGrid is a win. */
  lemma DrawnGridNoWinStart(p: Player, y: int, x: int)
    requires InBounds(y, x)
    ensures !WinStartsAt(DrawnGrid(), p, y, x)
  {
    var g := DrawnGrid();
    AllOwnedRun(g, p, y, x, 0, 1);
    AllOwnedRun(g, p, y, x, 1, 0);
    AllOwnedRun(g, p, y, x, 1, 1);
    AllOwnedRun(g, p, y, x, 1, -1);
    DrawnGridNoLine(p, y, x, 0, 1);
    DrawnGridNoLine(p, y, x, 1, 0);
    DrawnGridNoLine(p, y, x, 1, 1);
    DrawnGridNoLine(p, y, x, 1, -1);
  }

  /** Every forward line of DrawnGrid has two cells of different players.
      Neighbours along a row always differ. A line going down fits on the
      grid only from rows 0 to 2, and each of those has a change of owner
      among its first three cells. */
  lemma DrawnGridNoLine(p: Player, y: int, x: int, dy: int, dx: int)
    requires (dy, dx) == (0, 1) || (dy, dx) == (1, 0) || (dy, dx) == (1, 1) || (dy, dx) == (1, -1)
    ensures !LineOfFour(DrawnGrid(), p, y, x, dy, dx)
  {
    var g := DrawnGrid();
    if dy == 0 {
      ColourChange(g, p, y, x, y, x + 1);
    } else if y == 0 || y == 2 {
      DrawnGridEvenStart(p, y, x, dx);
    } else if y == 1 {
      DrawnGridOddStart(p, x, dx);
    }
  }

  /** A line going down from row 0 or row 2. */
  lemma DrawnGridEvenStart(p: Player, y: int, x: int, dx: int)
    requires (y == 0 || y == 2) && -1 <= dx <= 1
    ensures !LineOfFour(DrawnGrid(), p, y, x, 1, dx)
  {
    if dx == 0 {
      ColourChange(DrawnGrid(), p, y, x, y + 2, x);
    } else {
      ColourChange(DrawnGrid(), p, y, x, y + 1, x + dx);
    }
  }

  /** A line going down from row 1. */
  lemma DrawnGridOddStart(p: Player, x: int, dx: int)
    requires -1 <= dx <= 1
    ensures !LineOfFour(DrawnGrid(), p, 1, x, 1, dx)
  {
    if dx == 0 {
      ColourChange(DrawnGrid(), p, 1, x, 2, x);
    } else {
      ColourChange(DrawnGrid(), p, 2, x + dx, 3, x + 2 * dx);
    }
  }

  /** Two cells of DrawnGrid of different parity are not both p's. */
  lemma ColourChange(g: Grid, p: Player, y1: int, x1: int, y2: int, x2: int)
    requires g == DrawnGrid()
    requires DrawnParity(y1, x1) != DrawnParity(y2, x2)
    ensures !(Owns(g, p, y1, x1) && Owns(g, p, y2, x2))
  {
  }
}
