/** The 64 x 32 monochrome framebuffer and the XOR sprite write that both interpreters perform.
    The grid `display[row][col]` is held row-major in one sequence of 2048 cells. */
module Framebuffer {
  import opened Bytes
  import opened Isa

  const Width: nat := 64
  const Height: nat := 32
  const Cells: nat := 2048

  /** Row-major index of the pixel at column `col`, row `row`, both wrapped around the screen. */
  function Cell(col: int, row: int): (c: nat)
    ensures c < Cells
  {
    (row % Height) * Width + col % Width
  }

  /** The cell keeps its row and column apart: its quotient by the width is the row, its remainder
      the column, each wrapped around the screen. */
  lemma CellCoords(col: int, row: int)
    ensures Cell(col, row) / Width == row % Height && Cell(col, row) % Width == col % Width
  {
  }

  /** A cleared screen. */
  function Blank(): (d: seq<bool>)
    ensures |d| == Cells
    ensures forall c :: 0 <= c < Cells ==> !d[c]
  {
    seq(Cells, _ => false)
  }

  /** 00E0: the nested loop over rows and columns that turns every pixel off. */
  method Clear(display: array<bool>)
    requires display.Length == Cells
    modifies display
    ensures display[..] == Blank()
  {
    var row := 0;
    while row < Height
      invariant 0 <= row <= Height
      invariant forall c :: 0 <= c < row * Width ==> !display[c]
    {
      var col := 0;
      while col < Width
        invariant 0 <= col <= Width
        invariant forall c :: 0 <= c < row * Width + col ==> !display[c]
      {
        display[row * Width + col] := false;
        col := col + 1;
      }
      row := row + 1;
    }
  }

  /** The `n` sprite bytes Dxyn reads from I on. */
  function SpriteRows(memory: seq<u8>, ip: int, n: Nibble): (rows: seq<u8>)
    requires n == 0 || (0 <= ip && ip + n <= |memory|)
    ensures |rows| == n
    ensures forall i :: 0 <= i < n ==> rows[i] == memory[ip + i]
  {
    if n == 0 then [] else memory[ip..ip + n]
  }

  /** The screen after one sprite bit was written, and whether that write switched a lit pixel off. */
  datatype Plotted = Plotted(display: seq<bool>, collision: bool)

  /** Writes `pixel := display[c] ^ bit`, with `collision := display[c] && !pixel`. */
  function Plot(d: seq<bool>, c: nat, bit: bool): (r: Plotted)
    requires c < |d|
    ensures |r.display| == |d|
  {
    var pixel := d[c] != bit;
    Plotted(d[c := pixel], d[c] && !pixel)
  }

  /** What a sprite draw changes: the registers (VF receives the collision flag) and the screen. */
  datatype Canvas = Canvas(v: seq<u8>, display: seq<bool>)

  predicate Sized(c: Canvas)
  {
    |c.v| == Registers && |c.display| == Cells
  }

  /** One sprite bit XORed into the pixel at `cell`; VF is set to whether that write switched a lit
      pixel off. */
  function PlotAt(c: Canvas, cell: nat, bit: bool): (r: Canvas)
    requires Sized(c) && cell < Cells
    ensures Sized(r)
  {
    var p := Plot(c.display, cell, bit);
    Canvas(c.v[VF := if p.collision then 1 else 0], p.display)
  }

  /** A sprite bit flips exactly the pixel under it, when set, and changes no register but VF, which
      reports whether a lit pixel went off. */
  lemma PlotAtEffect(c: Canvas, cell: nat, bit: bool)
    requires Sized(c) && cell < Cells
    ensures var r := PlotAt(c, cell, bit);
      && (forall k :: 0 <= k < Cells ==> r.display[k] == (c.display[k] != (bit && k == cell)))
      && r.v == c.v[VF := r.v[VF]]
      && r.v[VF] == if c.display[cell] && bit then 1 else 0
  {
  }

  /** A clear sprite bit leaves the screen as it is and only resets VF. */
  lemma PlotClearBit(c: Canvas, cell: nat)
    requires Sized(c) && cell < Cells
    ensures PlotAt(c, cell, false) == c.(v := c.v[VF := 0])
  {
    PlotAtEffect(c, cell, false);
    assert PlotAt(c, cell, false).display == c.display;
  }

  /** The cell that receives bit `j` of row `i` of a sprite anchored at `(vx, vy)`. */
  function SpriteCell(vx: int, vy: int, i: nat, j: nat): (c: nat)
    ensures c < Cells
  {
    Cell(vx + j, vy + i)
  }

  /** Whether bits `0 .. j - 1` of the sprite row `line`, drawn as row `i` of a sprite anchored at
      `(vx, vy)`, flip cell `c` an odd number of times: the XOR of those bits that land on `c`. */
  function RowFlips(vx: int, vy: int, line: u8, i: nat, j: nat, c: int): bool
    requires j <= 8
  {
    if j == 0 then false
    else RowFlips(vx, vy, line, i, j - 1, c) != (SpriteBit(line, j - 1) && SpriteCell(vx, vy, i, j - 1) == c)
  }

  /** Whether the first `i` rows of the sprite `rows`, anchored at `(vx, vy)`, flip cell `c` an odd
      number of times. */
  function Flips(vx: int, vy: int, rows: seq<u8>, i: nat, c: int): bool
    requires i <= |rows|
  {
    if i == 0 then false else Flips(vx, vy, rows, i - 1, c) != RowFlips(vx, vy, rows[i - 1], i - 1, 8, c)
  }

  /** A cell that none of the first `j` bits of a row lands on is never flipped by that row. */
  lemma {:induction false} RowFlipsOutside(vx: int, vy: int, line: u8, i: nat, j: nat, c: int)
    requires j <= 8
    requires forall col :: 0 <= col < j ==> SpriteCell(vx, vy, i, col) != c
    ensures !RowFlips(vx, vy, line, i, j, c)
  {
    if j > 0 {
      RowFlipsOutside(vx, vy, line, i, j - 1, c);
    }
  }

  /** A cell that no bit of the first `i` rows lands on is never flipped. */
  lemma {:induction false} FlipsOutside(vx: int, vy: int, rows: seq<u8>, i: nat, c: int)
    requires i <= |rows|
    requires forall r, col :: 0 <= r < i && 0 <= col < 8 ==> SpriteCell(vx, vy, r, col) != c
    ensures !Flips(vx, vy, rows, i, c)
  {
    if i > 0 {
      FlipsOutside(vx, vy, rows, i - 1, c);
      RowFlipsOutside(vx, vy, rows[i - 1], i - 1, 8, c);
    }
  }

  /** A sprite of at most 32 rows lands each of its bits on a different cell. */
  lemma CellsDistinct(vx: int, vy: int, r1: nat, col1: nat, r2: nat, col2: nat)
    requires r1 < Height && r2 < Height && col1 < 8 && col2 < 8 && (r1 != r2 || col1 != col2)
    ensures SpriteCell(vx, vy, r1, col1) != SpriteCell(vx, vy, r2, col2)
  {
    CellCoords(vx + col1, vy + r1);
    CellCoords(vx + col2, vy + r2);
  }

  /** Within one row, the cell under bit `col` is flipped by that row exactly when the bit is set. */
  lemma {:induction false} RowFlipsAt(vx: int, vy: int, line: u8, i: nat, j: nat, col: nat)
    requires j <= 8 && col < j && i < Height
    ensures RowFlips(vx, vy, line, i, j, SpriteCell(vx, vy, i, col)) == SpriteBit(line, col)
  {
    var c := SpriteCell(vx, vy, i, col);
    if col == j - 1 {
      forall k | 0 <= k < col ensures SpriteCell(vx, vy, i, k) != c {
        CellsDistinct(vx, vy, i, k, i, col);
      }
      RowFlipsOutside(vx, vy, line, i, col, c);
    } else {
      CellsDistinct(vx, vy, i, j - 1, i, col);
      RowFlipsAt(vx, vy, line, i, j - 1, col);
    }
  }

  /** Within a sprite of at most 32 rows, the cell under bit `col` of row `r` is flipped exactly when
      that bit is set. */
  lemma {:induction false} FlipsAt(vx: int, vy: int, rows: seq<u8>, i: nat, r: nat, col: nat)
    requires i <= |rows| && |rows| <= Height && r < i && col < 8
    ensures Flips(vx, vy, rows, i, SpriteCell(vx, vy, r, col)) == SpriteBit(rows[r], col)
  {
    var c := SpriteCell(vx, vy, r, col);
    if r == i - 1 {
      forall r', col' | 0 <= r' < r && 0 <= col' < 8 ensures SpriteCell(vx, vy, r', col') != c {
        CellsDistinct(vx, vy, r', col', r, col);
      }
      FlipsOutside(vx, vy, rows, r, c);
      RowFlipsAt(vx, vy, rows[r], r, 8, col);
    } else {
      var last := i - 1;
      forall col' | 0 <= col' < 8 ensures SpriteCell(vx, vy, last, col') != c {
        CellsDistinct(vx, vy, last, col', r, col);
      }
      RowFlipsOutside(vx, vy, rows[last], last, 8, c);
      FlipsAt(vx, vy, rows, i - 1, r, col);
    }
  }
}
