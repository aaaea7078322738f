/**
 * The byte grid of lib/imageProcessing.c: an image of w x h pixels copied
 * into a buffer of (w + 2) x (h + 2) cells with a one-cell border, cell
 * (x, y) of the buffer at index y * (w + 2) + x. Interior cells are those with
 * 1 <= x <= w and 1 <= y <= h; they hold pixel (x - 1, y - 1).
 */
module ImageGrid {
  import opened Constants
  import Bits

  type Byte = x: int | 0 <= x < 256

  /** `maxPixelCount`: the bordered grid of the largest image (lib/imageProcessing.c:35). */
  const MaxPixelCount: nat := (BaseWidth + 2) * (MaxHeight + 2)
  /** `maxPointCount` */
  const MaxPointCount: nat := MaxPixelCount / 2
  /** `maxInputPixelCount` */
  const MaxInputPixelCount: nat := BaseWidth * MaxHeight
  /** `maxStackSize` */
  const MaxStackSize: nat := MaxPixelCount

  datatype Point = Point(x: int, y: int)

  /** The number of cells of the bordered grid. */
  function GridSize(w: nat, h: nat): nat {
    (h + 2) * (w + 2)
  }

  function Column(w: nat, c: int): int {
    c % (w + 2)
  }

  function Row(w: nat, c: int): int {
    c / (w + 2)
  }

  predicate Interior(w: nat, h: nat, c: int) {
    0 <= c && 1 <= Row(w, c) <= h && 1 <= Column(w, c) <= w
  }

  /** Cell (x, y) of the grid. */
  function CellAt(w: nat, x: int, y: int): int {
    y * (w + 2) + x
  }

  /** The cell of row y and column x has that row and column. */
  lemma CellCoordinates(w: nat, x: int, y: int)
    requires 0 <= x < w + 2
    ensures Row(w, CellAt(w, x, y)) == y && Column(w, CellAt(w, x, y)) == x
  {
    Bits.DivUnique(CellAt(w, x, y), w + 2, y, x);
  }

  /** The cell i of the row of c, in column x, counted from the row's first cell c - Column(w, c). */
  lemma RowCell(w: nat, c: int, x: int, i: int)
    requires 0 <= c && 0 <= x < w + 2 && i == c - Column(w, c) + x
    ensures 0 <= c - Column(w, c) && Row(w, i) == Row(w, c) && Column(w, i) == x
  {
    CellDecomposes(w, c);
    CellCoordinates(w, x, Row(w, c));
    assert Row(w, c) >= 0;
    assert Row(w, c) * (w + 2) >= 0;
  }

  /** A cell is its row start plus its column. */
  lemma CellDecomposes(w: nat, c: int)
    ensures c == CellAt(w, Column(w, c), Row(w, c)) && 0 <= Column(w, c) < w + 2
  {
  }

  /** A later cell is in the same row or a later one. */
  lemma RowMonotone(w: nat, a: int, b: int)
    requires 0 <= a <= b
    ensures Row(w, a) <= Row(w, b)
  {
    CellDecomposes(w, a);
    CellDecomposes(w, b);
    var d := Row(w, b) - Row(w, a);
    assert (w + 2) * d == (b - Column(w, b)) - (a - Column(w, a));
    if d <= -1 {
      Bits.NotSmall(w + 2, d);
    }
  }

  /** Multiplying by a non-negative factor keeps the order. */
  lemma MulLe(a: int, b: int, n: int)
    requires a <= b && 0 <= n
    ensures a * n <= b * n
  {
    assert b * n - a * n == (b - a) * n;
  }

  /** The four neighbours of an interior cell lie in the grid, and those in its row and column are where they should be. */
  lemma Neighbours(w: nat, h: nat, c: int)
    requires Interior(w, h, c)
    ensures 0 <= c - (w + 2) && c + (w + 2) < GridSize(w, h) && 0 < c - 1 && c + 1 < GridSize(w, h)
    ensures Row(w, c - (w + 2)) == Row(w, c) - 1 && Column(w, c - (w + 2)) == Column(w, c)
    ensures Row(w, c + (w + 2)) == Row(w, c) + 1 && Column(w, c + (w + 2)) == Column(w, c)
    ensures Row(w, c - 1) == Row(w, c) && Column(w, c - 1) == Column(w, c) - 1
    ensures Row(w, c + 1) == Row(w, c) && Column(w, c + 1) == Column(w, c) + 1
  {
    var x, y := Column(w, c), Row(w, c);
    CellDecomposes(w, c);
    Above(w, c, x, y);
    Below(w, h, c, x, y);
    CellCoordinates(w, x - 1, y);
    CellCoordinates(w, x + 1, y);
  }

  lemma Above(w: nat, c: int, x: int, y: int)
    requires 0 <= x < w + 2 && 1 <= y && c == CellAt(w, x, y)
    ensures 0 <= c - (w + 2) && Row(w, c - (w + 2)) == y - 1 && Column(w, c - (w + 2)) == x
  {
    CellCoordinates(w, x, y - 1);
    assert CellAt(w, x, y - 1) == c - (w + 2);
    assert (y - 1) * (w + 2) >= 0;
  }

  lemma Below(w: nat, h: nat, c: int, x: int, y: int)
    requires 1 <= x <= w && 1 <= y <= h && c == CellAt(w, x, y)
    ensures c + (w + 2) < GridSize(w, h) && Row(w, c + (w + 2)) == y + 1 && Column(w, c + (w + 2)) == x
  {
    CellCoordinates(w, x, y + 1);
    assert CellAt(w, x, y + 1) == c + (w + 2);
    assert (y + 1) * (w + 2) <= (h + 1) * (w + 2);
    assert (h + 1) * (w + 2) + w < GridSize(w, h);
  }

  /** Every cell of the grid is below `GridSize`, and the grid of the largest image is `maxPixelCount`. */
  lemma GridBounds(w: nat, h: nat)
    requires w <= BaseWidth && h <= MaxHeight
    ensures GridSize(w, h) <= MaxPixelCount
  {
    assert (h + 2) * (w + 2) <= (MaxHeight + 2) * (w + 2);
  }

  /** The grid fits the buffer and every cell of its border is 0. */
  predicate BorderClear(w: nat, h: nat, b: seq<Byte>) {
    GridSize(w, h) <= |b| && forall c {:trigger Interior(w, h, c)} :: 0 <= c < GridSize(w, h) && !Interior(w, h, c) ==> b[c] == 0
  }

  /** In a grid with a clear border, a set cell is an interior one. */
  lemma SetIsInterior(w: nat, h: nat, b: seq<Byte>, c: int)
    requires BorderClear(w, h, b) && 0 <= c < GridSize(w, h) && b[c] != 0
    ensures Interior(w, h, c)
  {
  }

  /** A set of indices below n has at most n elements. */
  lemma {:induction false} SubsetOfRange(cells: set<int>, n: nat)
    requires forall c :: c in cells ==> 0 <= c < n
    ensures |cells| <= n
  {
    if n > 0 {
      var rest := cells - {n - 1};
      SubsetOfRange(rest, n - 1);
      assert cells <= rest + {n - 1};
      assert |rest + {n - 1}| <= |rest| + 1;
      assert cells == rest || cells == rest + {n - 1};
    } else {
      assert cells == {} by {
        forall c | c in cells ensures false {
        }
      }
    }
  }
}
