/** The board state of the Connect Four rules engine, as values: what a cell
    holds, the grid of rows, gravity within a column, the single-cell update a
    move performs, and the two tie tests (the one the game uses and the one
    its source writes). The class in module Game keeps its array in step with
    a value of type Grid; everything here is about such values. */
module Board {

  /** Default dimensions: 7 columns by 6 rows. */
  const WIDTH: int := 7
  const HEIGHT: int := 6

  /** A player is the number 1 or the number 2. */
  type Player = p: int | p == 1 || p == 2 witness 1

  /** A cell holds null (Empty) or the number of the player whose piece is there. */
  datatype Cell = Empty | Piece(owner: Player)

  datatype Option<T> = None | Some(value: T)

  /** The board as a value: a sequence of rows, row 0 at the top, read as g[y][x]. */
  type Grid = seq<seq<Cell>>

  /** HEIGHT rows, each WIDTH cells long. */
  predicate WellFormed(g: Grid) {
    |g| == HEIGHT && forall y :: 0 <= y < |g| ==> |g[y]| == WIDTH
  }

  predicate InBounds(y: int, x: int) {
    0 <= y < HEIGHT && 0 <= x < WIDTH
  }

  /** The player who moves after p. */
  function Other(p: Player): (q: Player)
    ensures q != p
  {
    if p == 1 then 2 else 1
  }

  /** The board `makeBoard` builds: HEIGHT rows of WIDTH nulls. */
  function EmptyGrid(): (g: Grid)
    ensures WellFormed(g)
    ensures forall y, x :: InBounds(y, x) ==> g[y][x] == Empty
  {
    seq(HEIGHT, _ => seq(WIDTH, _ => Empty))
  }

  /** Gravity: in every column, every cell below an occupied cell is occupied. */
  predicate Settled(g: Grid)
    requires WellFormed(g)
  {
    forall x :: 0 <= x < WIDTH ==> ColumnSettled(g, x)
  }

  /** Gravity in column x. */
  predicate ColumnSettled(g: Grid, x: int)
    requires WellFormed(g) && 0 <= x < WIDTH
  {
    forall y, y' :: 0 <= y < y' < HEIGHT && g[y][x] != Empty ==> g[y'][x] != Empty
  }

  /** Column x scanned from row `from` up to row 0: the first empty row met. */
  function ScanUp(g: Grid, x: int, from: int): (r: Option<int>)
    requires WellFormed(g) && 0 <= x < WIDTH && -1 <= from < HEIGHT
    ensures r.Some? ==> 0 <= r.value <= from && g[r.value][x] == Empty
    ensures r.Some? ==> forall y :: r.value < y <= from ==> g[y][x] != Empty
    ensures r.None? <==> forall y :: 0 <= y <= from ==> g[y][x] != Empty
    decreases from + 1
  {
    if from < 0 then None
    else if g[from][x] == Empty then Some(from)
    else ScanUp(g, x, from - 1)
  }

  /** The row a piece dropped into column x comes to rest in: the largest empty
      row, or None when every cell of the column is occupied. */
  function DropRow(g: Grid, x: int): (r: Option<int>)
    requires WellFormed(g) && 0 <= x < WIDTH
    ensures r.Some? ==> 0 <= r.value < HEIGHT && g[r.value][x] == Empty
    ensures r.Some? ==> forall y :: r.value < y < HEIGHT ==> g[y][x] != Empty
    ensures r.None? <==> forall y :: 0 <= y < HEIGHT ==> g[y][x] != Empty
  {
    ScanUp(g, x, HEIGHT - 1)
  }

  /** The board after player p's piece is written at (y, x). */
  function Place(g: Grid, y: int, x: int, p: Player): (r: Grid)
    requires WellFormed(g) && InBounds(y, x)
    ensures WellFormed(r)
    ensures r[y][x] == Piece(p)
    ensures forall y', x' :: InBounds(y', x') && (y', x') != (y, x) ==> r[y'][x'] == g[y'][x']
  {
    g[y := g[y][x := Piece(p)]]
  }

  /** Writing into an empty cell never empties or overwrites an occupied one. */
  lemma PlaceOnlyFills(g: Grid, y: int, x: int, p: Player)
    requires WellFormed(g) && InBounds(y, x) && g[y][x] == Empty
    ensures forall y', x' :: InBounds(y', x') && g[y'][x'] != Empty ==> Place(g, y, x, p)[y'][x'] == g[y'][x']
  {
  }

  /** DropRow depends on nothing but the contents of its column. */
  lemma DropRowOfSameColumn(g: Grid, h: Grid, x: int)
    requires WellFormed(g) && WellFormed(h) && 0 <= x < WIDTH
    requires forall y :: 0 <= y < HEIGHT ==> g[y][x] == h[y][x]
    ensures DropRow(g, x) == DropRow(h, x)
  {
    var a, b := DropRow(g, x), DropRow(h, x);
    if a.Some? && b.Some? {
      assert h[a.value][x] == Empty;
      assert g[b.value][x] == Empty;
    }
  }

  /** Dropping into column x fills its drop row, keeps gravity, and moves the
      column's drop row up by one (to None once the top row is filled); every
      other column keeps its drop row. */
  lemma PlaceAtDropRow(g: Grid, x: int, p: Player)
    requires WellFormed(g) && Settled(g) && 0 <= x < WIDTH && DropRow(g, x).Some?
    ensures Settled(Place(g, DropRow(g, x).value, x, p))
    ensures DropRow(Place(g, DropRow(g, x).value, x, p), x)
            == if DropRow(g, x).value == 0 then None else Some(DropRow(g, x).value - 1)
    ensures forall x' :: 0 <= x' < WIDTH && x' != x ==>
              DropRow(Place(g, DropRow(g, x).value, x, p), x') == DropRow(g, x')
  {
    var y := DropRow(g, x).value;
    var h := Place(g, y, x, p);
    forall x' | 0 <= x' < WIDTH ensures ColumnSettled(h, x') {
      assert ColumnSettled(g, x');
      forall y1, y2 | 0 <= y1 < y2 < HEIGHT && h[y1][x'] != Empty
        ensures h[y2][x'] != Empty
      {
        if (y1, x') != (y, x) && (y2, x') != (y, x) {
          assert g[y1][x'] != Empty;
        }
      }
    }
    assert ColumnSettled(g, x);
    if y > 0 {
      assert g[y - 1][x] == Empty;
      assert h[y - 1][x] == Empty;
    }
    forall x' | 0 <= x' < WIDTH && x' != x
      ensures DropRow(h, x') == DropRow(g, x')
    {
      DropRowOfSameColumn(g, h, x');
    }
  }

  /** The JavaScript values the source's tie test compares: null, a number, or
      an array of values. */
  datatype JsValue = Null | Number(n: int) | Array(elements: seq<JsValue>)

  function CellValue(c: Cell): JsValue {
    match c
    case Empty => Null
    case Piece(p) => Number(p)
  }

  function RowValue(row: seq<Cell>): JsValue {
    Array(seq(|row|, i requires 0 <= i < |row| => CellValue(row[i])))
  }

  /** `v === 1 || v === 2` */
  predicate IsPlayerNumber(v: JsValue) {
    v == Number(1) || v == Number(2)
  }

  /** The tie test as written: `every` applied to the board, whose elements are
      its rows, so each row (an array) is compared with 1 and with 2. */
  predicate RowsTieTest(g: Grid) {
    forall y :: 0 <= y < |g| ==> IsPlayerNumber(RowValue(g[y]))
  }

  /** The tie test as intended: every cell holds 1 or 2. */
  predicate IsFull(g: Grid)
    requires WellFormed(g)
  {
    forall y, x :: 0 <= y < HEIGHT && 0 <= x < WIDTH ==> IsPlayerNumber(CellValue(g[y][x]))
  }

  /** The written tie test holds only of a board without rows, so on a board of
      HEIGHT rows it never fires, however many cells are occupied. */
  lemma RowsTieTestNeverFires(g: Grid)
    ensures RowsTieTest(g) <==> |g| == 0
  {
    if |g| > 0 {
      assert !IsPlayerNumber(RowValue(g[0]));
    }
  }

  /** The intended tie test holds exactly when no column can take another piece. */
  lemma FullIffNoDropRow(g: Grid)
    requires WellFormed(g)
    ensures IsFull(g) <==> forall x :: 0 <= x < WIDTH ==> DropRow(g, x).None?
  {
    if IsFull(g) {
      forall x | 0 <= x < WIDTH ensures DropRow(g, x).None? {
        forall y | 0 <= y < HEIGHT ensures g[y][x] != Empty {
          assert IsPlayerNumber(CellValue(g[y][x]));
        }
      }
    } else {
      var y, x :| 0 <= y < HEIGHT && 0 <= x < WIDTH && !IsPlayerNumber(CellValue(g[y][x]));
      assert g[y][x] == Empty;
      assert DropRow(g, x).Some?;
    }
  }
}
