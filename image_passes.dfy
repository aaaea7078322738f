/**
 * The passes of `processImage` (lib/imageProcessing.c:471-601) around the
 * polygon discovery: thresholding the RGBA input into the bordered grid,
 * erasing the one-pixel-thin cells, finding the lowest used row, and the
 * final repaint of the input. Pixel (x, y) of the w x h input has its four
 * bytes at 4 * (y * w + x) and its cell at CellAt(w, x + 1, y + 1).
 */
module ImagePasses {
  import opened ImageGrid
  import opened Constants
  import opened Erosion
  import Bits

  /** The pixel rows up to `y` lie inside the `w * h` pixels. */
  lemma RowInData(w: nat, h: nat, y: int)
    requires 0 <= y < h
    ensures 0 <= y * w && y * w + w <= w * h
  {
    assert (h - y - 1) * w >= 0;
    assert (h - y - 1) * w + y * w + w == w * h;
  }

  /** The grid row `y + 1` of pixel row `y` and the two rows below it lie in the grid. */
  lemma RowCells(w: nat, h: nat, y: int)
    requires 0 <= y < h
    ensures w + 2 <= (y + 1) * (w + 2) && (y + 1) * (w + 2) + 2 * (w + 2) <= GridSize(w, h)
  {
    assert (y + 1) * (w + 2) + 2 * (w + 2) == (y + 3) * (w + 2);
    assert (y + 3) * (w + 2) <= (h + 2) * (w + 2);
  }

  /** The index of the pixel that cell `c` holds. */
  function PixelOf(w: nat, c: int): int {
    (Row(w, c) - 1) * w + Column(w, c) - 1
  }

  lemma PixelOfCell(w: nat, x: int, y: int)
    requires 0 <= x < w && 0 <= y
    ensures PixelOf(w, CellAt(w, x + 1, y + 1)) == y * w + x
  {
    CellCoordinates(w, x + 1, y + 1);
  }

  /** The cell of pixel (x, y) is an interior cell. */
  lemma PixelCell(w: nat, h: nat, x: int, y: int)
    requires 0 <= x < w && 0 <= y < h
    ensures Interior(w, h, CellAt(w, x + 1, y + 1))
  {
    CellCoordinates(w, x + 1, y + 1);
  }

  /** Every interior cell holds a pixel of the image. */
  lemma PixelInImage(w: nat, h: nat, c: int)
    requires Interior(w, h, c)
    ensures 0 <= PixelOf(w, c) < w * h
  {
    RowInData(w, h, Row(w, c) - 1);
  }

  /** 1 when pixel `p` has alpha 255, 0 otherwise (line 491). */
  function Opaque(d: seq<Byte>, p: int): Byte {
    if 0 <= 4 * p + 3 < |d| && d[4 * p + 3] == 255 then 1 else 0
  }

  /** The threshold of the pixel that cell `c` holds. */
  function OpaqueCell(d: seq<Byte>, w: nat, c: int): Byte {
    Opaque(d, PixelOf(w, c))
  }

  /** `b` with the cells `lo .. hi - 1` set to the thresholds of the pixels from `p0` on. */
  function Fill(b: seq<Byte>, d: seq<Byte>, lo: int, hi: int, p0: int): (r: seq<Byte>)
    ensures |r| == |b|
    ensures forall c :: 0 <= c < |b| ==> r[c] == if lo <= c < hi then Opaque(d, p0 + (c - lo)) else b[c]
  {
    seq(|b|, c requires 0 <= c < |b| => FillAt(b, d, lo, hi, p0, c))
  }

  function FillAt(b: seq<Byte>, d: seq<Byte>, lo: int, hi: int, p0: int, c: int): Byte
    requires 0 <= c < |b|
  {
    if lo <= c < hi then Opaque(d, p0 + (c - lo)) else b[c]
  }

  lemma FillStep(b: seq<Byte>, d: seq<Byte>, lo: int, hi: int, p0: int, cur: seq<Byte>)
    requires 0 <= lo < hi <= |b| && cur == Fill(b, d, lo + 1, hi, p0 + 1)
    ensures cur[lo := Opaque(d, p0)] == Fill(b, d, lo, hi, p0)
  {
  }

  /** Every cell is 0 except the interior cells of grid rows after `r`, which are thresholded. */
  ghost predicate Layered(w: nat, h: nat, d: seq<Byte>, b: seq<Byte>, r: int) {
    forall c :: 0 <= c < |b| ==> b[c] == if Interior(w, h, c) && Row(w, c) > r then OpaqueCell(d, w, c) else 0
  }

  /** What lines 486-492 leave in the buffer: 1 in the cell of each opaque pixel, 0 everywhere else. */
  ghost predicate Thresholded(w: nat, h: nat, d: seq<Byte>, b: seq<Byte>) {
    GridSize(w, h) <= |b| && Layered(w, h, d, b, 0)
  }

  /** Thresholding grid row `y + 1` takes the layers after row `y + 1` to those after row `y`. */
  lemma ThresholdRowDone(w: nat, h: nat, d: seq<Byte>, b: seq<Byte>, y: int, b': seq<Byte>)
    requires 0 <= y < h && GridSize(w, h) <= |b| && Layered(w, h, d, b, y + 1)
    requires b' == Fill(b, d, (y + 1) * (w + 2) + 1, (y + 1) * (w + 2) + w + 1, y * w)
    ensures Layered(w, h, d, b', y)
  {
    var base := (y + 1) * (w + 2);
    forall c | 0 <= c < |b'|
      ensures b'[c] == if Interior(w, h, c) && Row(w, c) > y then OpaqueCell(d, w, c) else 0
    {
      if base + 1 <= c < base + w + 1 {
        CellCoordinates(w, c - base, y + 1);
        assert PixelOf(w, c) == y * w + (c - (base + 1));
      } else {
        CellDecomposes(w, c);
        if Row(w, c) == y + 1 && 1 <= Column(w, c) <= w {
          assert false;
        }
      }
    }
  }

  /**
   * The inner loop of lines 490-491 over one pixel row: `j` is the cell and
   * `i` the data index of the row's last pixel, `p0` the index of its first.
   */
  method ThresholdRow(w: nat, data: array<Byte>, buffer: array<Byte>, i: int, j: int, ghost p0: int) returns (i': int)
    requires 0 <= p0 && i == 4 * (p0 + w) - 4 && 4 * (p0 + w) <= data.Length
    requires w <= j && j + 1 <= buffer.Length && data != buffer
    modifies buffer
    ensures i' == 4 * p0 - 4
    ensures buffer[..] == Fill(old(buffer[..]), data[..], j - w + 1, j + 1, p0)
  {
    ghost var b := buffer[..];
    ghost var lo := j - w + 1;
    i' := i;
    var j' := j;
    var x := w - 1;
    while x >= 0
      invariant -1 <= x < w && i' == 4 * (p0 + x) && j' == lo + x
      invariant buffer[..] == Fill(b, data[..], j' + 1, j + 1, p0 + x + 1)
    {
      FillStep(b, data[..], j', j + 1, p0 + x, buffer[..]);
      buffer[j'] := if data[i' + 3] == 255 then 1 else 0;
      x, i', j' := x - 1, i' - 4, j' - 1;
    }
  }

  /**
   * The `memset` and the loops of lines 486-492: the buffer is cleared, then
   * the cell of each pixel becomes 1 when the pixel is opaque and 0 otherwise.
   */
  method Threshold(w: nat, h: nat, data: array<Byte>, buffer: array<Byte>)
    requires w <= BaseWidth && h <= MaxHeight && buffer.Length == MaxPixelCount && 4 * (w * h) <= data.Length
    requires data != buffer
    modifies buffer
    ensures Thresholded(w, h, data[..], buffer[..])
  {
    GridBounds(w, h);
    forall k | 0 <= k < buffer.Length {
      buffer[k] := 0;
    }
    var i := 4 * (w * h) - 4;
    var y := h - 1;
    while y >= 0
      invariant -1 <= y < h && i == 4 * ((y + 1) * w) - 4
      invariant Layered(w, h, data[..], buffer[..], y + 1)
    {
      RowInData(w, h, y);
      RowCells(w, h, y);
      assert (y + 1) * w == y * w + w;
      var j := ((y + 1) * (w + 2)) + w;
      ghost var b := buffer[..];
      i := ThresholdRow(w, data, buffer, i, j, y * w);
      ThresholdRowDone(w, h, data[..], b, y, buffer[..]);
      y := y - 1;
    }
  }

  /** After thresholding, the cell of pixel (x, y) is 1 exactly when the pixel's alpha is 255. */
  lemma ThresholdedPixel(w: nat, h: nat, d: seq<Byte>, b: seq<Byte>, x: int, y: int)
    requires Thresholded(w, h, d, b) && 4 * (w * h) <= |d| && 0 <= x < w && 0 <= y < h
    ensures 0 <= 4 * (y * w + x) + 3 < |d|
    ensures b[CellAt(w, x + 1, y + 1)] == if d[4 * (y * w + x) + 3] == 255 then 1 else 0
  {
    var c := CellAt(w, x + 1, y + 1);
    RowInData(w, h, y);
    PixelCell(w, h, x, y);
    CellCoordinates(w, x + 1, y + 1);
    PixelOfCell(w, x, y);
    Neighbours(w, h, c);
    assert b[c] == OpaqueCell(d, w, c);
  }

  /** The grid fits the buffer, its border is clear, and so is every cell after it. */
  ghost predicate Framed(w: nat, h: nat, b: seq<Byte>) {
    BorderClear(w, h, b) && forall c :: GridSize(w, h) <= c < |b| ==> b[c] == 0
  }

  /** Thresholding leaves only 0s and 1s, framed by 0s. */
  lemma ThresholdedFramed(w: nat, h: nat, d: seq<Byte>, b: seq<Byte>)
    requires Thresholded(w, h, d, b)
    ensures Framed(w, h, b)
    ensures forall c :: 0 <= c < |b| ==> b[c] == 0 || b[c] == 1
  {
    forall c | GridSize(w, h) <= c < |b| ensures b[c] == 0 {
      if Interior(w, h, c) {
        RowMonotone(w, GridSize(w, h), c);
        CellCoordinates(w, 0, h + 2);
        assert false;
      }
    }
  }

  /** No cell from `lo` on is one pixel thin. */
  ghost predicate NoThinFrom(b: seq<Byte>, w: nat, lo: int) {
    forall c :: lo <= c ==> !Thin(b, w, c)
  }

  /** A cell that is thin after some cells were cleared around, but not next to, it was thin before. */
  lemma ThinFrame(b0: seq<Byte>, b: seq<Byte>, w: nat, c: int)
    requires Cleared(b0, b) && Untouched(b0, b, w, c) && Thin(b, w, c)
    ensures Thin(b0, w, c)
  {
  }

  lemma ClearedTrans(b0: seq<Byte>, b1: seq<Byte>, b2: seq<Byte>)
    requires Cleared(b0, b1) && Cleared(b1, b2)
    ensures Cleared(b0, b2)
  {
    forall k | 0 <= k < |b2| ensures b2[k] == b0[k] || b2[k] == 0 {
      assert b1[k] == b0[k] || b1[k] == 0;
    }
  }

  /** After `erase1` from the thin cell `j`, no cell from `j` on is thin. */
  lemma ErasedStep(w: nat, h: nat, b: seq<Byte>, b': seq<Byte>, j: int)
    requires Framed(w, h, b) && NoThinFrom(b, w, j + 1) && 0 <= j < |b|
    requires BorderClear(w, h, b') && Cleared(b, b') && b'[j] == 0
    requires forall c :: Thin(b', w, c) ==> Untouched(b, b', w, c)
    ensures Framed(w, h, b') && NoThinFrom(b', w, j)
  {
    forall c | j <= c ensures !Thin(b', w, c) {
      if Thin(b', w, c) {
        ThinFrame(b, b', w, c);
      }
    }
    forall c | GridSize(w, h) <= c < |b'| ensures b'[c] == 0 {
      assert b[c] == 0;
    }
  }

  /** What one `erase1` call from the thin cell `j` adds to the row's facts. */
  lemma ErasedAt(w: nat, h: nat, b0: seq<Byte>, b: seq<Byte>, b': seq<Byte>, j: int, order: seq<int>, popped: seq<int>)
    requires Framed(w, h, b) && NoThinFrom(b, w, j + 1) && 0 <= j < |b| && Thin(b, w, j)
    requires Cleared(b0, b) && b == ClearAll(b0, order) && JustifiedAll(b0, w, order)
    requires BorderClear(w, h, b') && Cleared(b, b') && b'[j] == 0
    requires forall c :: Thin(b', w, c) ==> Untouched(b, b', w, c)
    requires Chain(b, w, j, popped) && b' == ClearAll(b, popped)
    ensures Framed(w, h, b') && NoThinFrom(b', w, j) && Cleared(b0, b')
    ensures b' == ClearAll(b0, order + popped) && JustifiedAll(b0, w, order + popped)
  {
    ErasedStep(w, h, b, b', j);
    ClearedTrans(b0, b, b');
    ChainJustified(b, w, j, popped);
    JustifiedAppend(b0, w, order, popped);
  }

  /** A cell that fails the test of lines 512-514 extends the thin-free suffix by one. */
  lemma NotThinAt(b: seq<Byte>, w: nat, j: int)
    requires NoThinFrom(b, w, j + 1) && 0 <= j - (w + 2) && j + (w + 2) < |b|
    requires !(b[j] != 0 && ((b[j - 1] == 0 && b[j + 1] == 0) || (b[j - (w + 2)] == 0 && b[j + (w + 2)] == 0)))
    ensures NoThinFrom(b, w, j)
  {
    assert !Thin(b, w, j);
  }

  /** The inner loop of lines 510-515 over pixel row `y`. */
  method EraseRow(w: nat, h: nat, y: int, buffer: array<Byte>) returns (ghost order: seq<int>)
    requires 0 <= y < h && Framed(w, h, buffer[..]) && NoThinFrom(buffer[..], w, (y + 1) * (w + 2) + w + 1)
    modifies buffer
    ensures Framed(w, h, buffer[..]) && Cleared(old(buffer[..]), buffer[..])
    ensures NoThinFrom(buffer[..], w, (y + 1) * (w + 2) + 1)
    ensures buffer[..] == ClearAll(old(buffer[..]), order) && JustifiedAll(old(buffer[..]), w, order)
  {
    ghost var b0 := buffer[..];
    ghost var base := (y + 1) * (w + 2);
    order := [];
    var j := ((y + 1) * (w + 2)) + w;
    var x := w - 1;
    while x >= 0
      invariant -1 <= x < w && j == base + x + 1
      invariant Framed(w, h, buffer[..]) && Cleared(b0, buffer[..]) && NoThinFrom(buffer[..], w, j + 1)
      invariant buffer[..] == ClearAll(b0, order) && JustifiedAll(b0, w, order)
    {
      PixelCell(w, h, x, y);
      Neighbours(w, h, j);
      if buffer[j] != 0 &&
        ((buffer[j - 1] == 0 && buffer[j + 1] == 0) ||
        (buffer[j - (w + 2)] == 0 && buffer[j + (w + 2)] == 0))
      {
        ghost var b := buffer[..];
        assert Thin(b, w, j);
        ghost var popped := Erase1(w, h, buffer, j);
        ErasedAt(w, h, b0, b, buffer[..], j, order, popped);
        order := order + popped;
      } else {
        NotThinAt(buffer[..], w, j);
      }
      x, j := x - 1, j - 1;
    }
  }

  /** The first cells to scan are the border ones, which are clear. */
  lemma EraseStart(w: nat, h: nat, b: seq<Byte>)
    requires Framed(w, h, b)
    ensures NoThinFrom(b, w, h * (w + 2) + w + 1)
  {
    forall c | h * (w + 2) + w + 1 <= c < |b| ensures b[c] == 0 {
      if c < GridSize(w, h) && Interior(w, h, c) {
        if c == h * (w + 2) + w + 1 {
          CellCoordinates(w, w + 1, h);
        } else {
          CellCoordinates(w, 0, h + 1);
          RowMonotone(w, (h + 1) * (w + 2), c);
        }
        assert false;
      }
    }
  }

  /** Between two rows the scan passes two border cells, which are clear. */
  lemma RowGap(w: nat, h: nat, b: seq<Byte>, y: int)
    requires 0 <= y < h && Framed(w, h, b) && NoThinFrom(b, w, (y + 1) * (w + 2) + 1)
    ensures NoThinFrom(b, w, y * (w + 2) + w + 1)
  {
    RowCells(w, h, y);
    var base := (y + 1) * (w + 2);
    assert y * (w + 2) + w + 1 == base - 1;
    forall c | base - 1 <= c ensures !Thin(b, w, c) {
      if c == base {
        CellCoordinates(w, 0, y + 1);
        assert !Interior(w, h, c);
      } else if c == base - 1 {
        CellCoordinates(w, w + 1, y);
        assert !Interior(w, h, c);
      }
    }
  }

  /**
   * The erase pass of lines 508-516: every thin cell, scanned from the
   * bottom right, is handed to `erase1`. Afterwards no cell of the buffer is
   * thin, the border is still clear and nothing but clearing has happened.
   * `order` is the sequence of cells the `erase1` calls pop: exactly those are
   * cleared, and each was thin when its call began or was pushed by an
   * earlier one.
   */
  method ErasePass(w: nat, h: nat, buffer: array<Byte>) returns (ghost order: seq<int>)
    requires Framed(w, h, buffer[..])
    modifies buffer
    ensures Framed(w, h, buffer[..]) && Cleared(old(buffer[..]), buffer[..])
    ensures forall c :: !Thin(buffer[..], w, c)
    ensures buffer[..] == ClearAll(old(buffer[..]), order) && JustifiedAll(old(buffer[..]), w, order)
  {
    ghost var b0 := buffer[..];
    order := [];
    EraseStart(w, h, buffer[..]);
    var y := h - 1;
    while y >= 0
      invariant -1 <= y < h
      invariant Framed(w, h, buffer[..]) && Cleared(b0, buffer[..])
      invariant NoThinFrom(buffer[..], w, (y + 1) * (w + 2) + w + 1)
      invariant buffer[..] == ClearAll(b0, order) && JustifiedAll(b0, w, order)
    {
      ghost var b := buffer[..];
      ghost var row := EraseRow(w, h, y, buffer);
      JustifiedAppend(b0, w, order, row);
      order := order + row;
      ClearedTrans(b0, b, buffer[..]);
      RowGap(w, h, buffer[..], y);
      y := y - 1;
    }
  }

  /** The last cell up to `top` that is set, or -1 when there is none. */
  function LastSet(b: seq<Byte>, top: int): (r: int)
    requires -1 <= top < |b|
    ensures -1 <= r <= top
    ensures r >= 0 ==> b[r] != 0
    ensures forall k :: r < k <= top ==> b[k] == 0
    decreases top + 1
  {
    if top < 0 then -1 else if b[top] != 0 then top else LastSet(b, top - 1)
  }

  /** The value lines 553-559 return: the pixel row of the last set cell, or 0 when no cell is set. */
  function LowestRow(b: seq<Byte>, w: nat, h: nat): int
    requires GridSize(w, h) <= |b|
  {
    LastInterior(w, h);
    var last := LastSet(b, CellAt(w, w, h));
    if last >= 0 then Row(w, last) - 1 else 0
  }

  /** The last interior cell is cell (w, h), which lies in the grid. */
  lemma LastInterior(w: nat, h: nat)
    ensures CellAt(w, w, h) < GridSize(w, h)
  {
    assert CellAt(w, w, h) + 2 == (h + 1) * (w + 2);
  }

  /** The loop of lines 553-559, which stops at the first set cell from the last interior one back. */
  method MaxRow(w: nat, h: nat, buffer: array<Byte>) returns (maxY: int)
    requires GridSize(w, h) <= buffer.Length
    ensures maxY == LowestRow(buffer[..], w, h)
  {
    LastInterior(w, h);
    ghost var top := CellAt(w, w, h);
    maxY := 0;
    var i := (h * (w + 2)) + w;
    while i >= 0
      invariant -1 <= i <= top
      invariant LastSet(buffer[..], top) == LastSet(buffer[..], i)
    {
      if buffer[i] != 0 {
        maxY := (i / (w + 2)) - 1;
        break;
      }
      i := i - 1;
    }
  }

  /** With a clear border, `LowestRow` is the last pixel row holding a set cell, 0 when none does. */
  lemma LowestRowIsLast(w: nat, h: nat, b: seq<Byte>)
    requires BorderClear(w, h, b)
    ensures forall c :: 0 <= c < GridSize(w, h) && b[c] != 0 ==> 0 <= Row(w, c) - 1 <= LowestRow(b, w, h)
    ensures (exists c :: 0 <= c < GridSize(w, h) && b[c] != 0) ==>
      exists c :: 0 <= c < GridSize(w, h) && b[c] != 0 && Row(w, c) - 1 == LowestRow(b, w, h)
    ensures (forall c :: 0 <= c < GridSize(w, h) ==> b[c] == 0) ==> LowestRow(b, w, h) == 0
  {
    LastInterior(w, h);
    var last := LastSet(b, CellAt(w, w, h));
    forall c | 0 <= c < GridSize(w, h) && b[c] != 0 ensures last >= 0 && 0 <= Row(w, c) - 1 <= LowestRow(b, w, h) {
      SetCellRow(w, h, b, c);
    }
    if last >= 0 {
      assert 0 <= last < GridSize(w, h) && b[last] != 0 && Row(w, last) - 1 == LowestRow(b, w, h);
    }
  }

  /** A set cell lies at or before the last set interior cell, so its row is at most the lowest one. */
  lemma SetCellRow(w: nat, h: nat, b: seq<Byte>, c: int)
    requires BorderClear(w, h, b) && 0 <= c < GridSize(w, h) && b[c] != 0
    ensures LastSet(b, CellAt(w, w, h)) >= 0 && 0 <= Row(w, c) - 1 <= LowestRow(b, w, h)
  {
    LastInterior(w, h);
    var top := CellAt(w, w, h);
    SetIsInterior(w, h, b, c);
    CellDecomposes(w, c);
    MulLe(Row(w, c), h, w + 2);
    assert c <= top;
    RowMonotone(w, c, LastSet(b, top));
  }

  /** What the final pass does to one pixel. */
  datatype Repaint = Clear | Paint | Keep

  /** The cell at `k`, 0 outside the buffer. */
  function At(b: seq<Byte>, k: int): Byte {
    if 0 <= k < |b| then b[k] else 0
  }

  /**
   * The test of lines 567-590 for pixel (x, y), whose cell is `j`: a clear
   * cell clears the pixel; a traced cell (3) is painted when it is on the
   * outside of the trace, or where two traced lines of at least three cells
   * cross; every other pixel is kept.
   */
  function Action(b: seq<Byte>, w: nat, h: nat, j: int, x: int, y: int): Repaint {
    var s := w + 2;
    if At(b, j) == 0 then Clear
    else if At(b, j) == 3 && (
      At(b, j - 1) == 0 || At(b, j + 1) == 0 || At(b, j - s) == 0 || At(b, j + s) == 0 ||
      (((x > 1 && At(b, j - 1) == 3 && At(b, j - 2) == 3) || (x < w - 1 && At(b, j + 1) == 3 && At(b, j + 2) == 3))
      && ((y > 1 && At(b, j - s) == 3 && At(b, j - 2 * s) == 3) || (y < h - 1 && At(b, j + s) == 3 && At(b, j + 2 * s) == 3))))
    then Paint
    else Keep
  }

  /** The cells the test reads for pixel (x, y) lie in the grid. */
  lemma TestedCells(w: nat, h: nat, x: int, y: int)
    requires 0 <= x < w && 0 <= y < h
    ensures var j := CellAt(w, x + 1, y + 1);
      && Interior(w, h, j) && w + 2 <= j - 1 && j + 2 + (w + 2) <= GridSize(w, h)
      && j + (w + 2) < GridSize(w, h)
      && (y > 1 ==> 0 <= j - 2 * (w + 2)) && (y < h - 1 ==> j + 2 * (w + 2) < GridSize(w, h))
  {
    PixelCell(w, h, x, y);
    RowCells(w, h, y);
    var base := (y + 1) * (w + 2);
    assert CellAt(w, x + 1, y + 1) == base + x + 1;
    if y > 1 {
      MulLe(3, y + 1, w + 2);
    }
    if y < h - 1 {
      MulLe(y + 4, h + 2, w + 2);
      assert (y + 4) * (w + 2) == base + 3 * (w + 2);
    }
  }

  /** The test of lines 567-590 on the buffer. */
  /** One of the four neighbours of cell `j` is clear. */
  predicate OnOutside(b: seq<Byte>, w: nat, j: int) {
    At(b, j - 1) == 0 || At(b, j + 1) == 0 || At(b, j - (w + 2)) == 0 || At(b, j + (w + 2)) == 0
  }

  method Classify(w: nat, h: nat, buffer: array<Byte>, x: int, y: int, j: int) returns (act: Repaint)
    requires 0 <= x < w && 0 <= y < h && GridSize(w, h) <= buffer.Length && j == CellAt(w, x + 1, y + 1)
    ensures act == Action(buffer[..], w, h, j, x, y)
    ensures act == Clear <==> At(buffer[..], j) == 0
    ensures act == Paint ==> At(buffer[..], j) == 3
    ensures At(buffer[..], j) == 3 && OnOutside(buffer[..], w, j) ==> act == Paint
    ensures At(buffer[..], j) != 0 && At(buffer[..], j) != 3 ==> act == Keep
  {
    TestedCells(w, h, x, y);
    var s := w + 2;
    if buffer[j] == 0 {
      return Clear;
    }
    if buffer[j] == 3 && (
      buffer[j - 1] == 0 || buffer[j + 1] == 0 || buffer[j - s] == 0 || buffer[j + s] == 0 ||
      (((x > 1 && buffer[j - 1] == 3 && buffer[j - 2] == 3) || (x < w - 1 && buffer[j + 1] == 3 && buffer[j + 2] == 3))
      && ((y > 1 && buffer[j - s] == 3 && buffer[j - 2 * s] == 3) || (y < h - 1 && buffer[j + s] == 3 && buffer[j + 2 * s] == 3))))
    {
      return Paint;
    }
    return Keep;
  }

  /** The actions for pixels 0 .. n - 1 of row y. */
  function RowPlan(b: seq<Byte>, w: nat, h: nat, y: int, n: nat): (r: seq<Repaint>)
    ensures |r| == n
  {
    if n == 0 then [] else RowPlan(b, w, h, y, n - 1) + [Action(b, w, h, CellAt(w, n, y + 1), n - 1, y)]
  }

  lemma {:induction false} RowPlanAt(b: seq<Byte>, w: nat, h: nat, y: int, n: nat, x: int)
    requires 0 <= x < n
    ensures RowPlan(b, w, h, y, n)[x] == Action(b, w, h, CellAt(w, x + 1, y + 1), x, y)
  {
    if x < n - 1 {
      RowPlanAt(b, w, h, y, n - 1, x);
    }
  }

  /** The actions for rows 0 .. k - 1, row after row. */
  function Rows(b: seq<Byte>, w: nat, h: nat, k: nat): (r: seq<Repaint>)
    ensures |r| == k * w
  {
    if k == 0 then [] else
      var r := Rows(b, w, h, k - 1) + RowPlan(b, w, h, k - 1, w);
      assert |r| == (k - 1) * w + w == k * w;
      r
  }

  lemma {:induction false} RowsAt(b: seq<Byte>, w: nat, h: nat, k: nat, x: int, y: int)
    requires 0 <= x < w && 0 <= y < k
    ensures 0 <= y * w + x < k * w && Rows(b, w, h, k)[y * w + x] == Action(b, w, h, CellAt(w, x + 1, y + 1), x, y)
  {
    RowInData(w, k, y);
    assert (k - 1) * w + w == k * w;
    if y < k - 1 {
      RowsAt(b, w, h, k - 1, x, y);
    } else {
      RowPlanAt(b, w, h, y, w, x);
    }
  }

  /** What the final pass does to each pixel of the image, row by row. */
  function Plan(b: seq<Byte>, w: nat, h: nat): (r: seq<Repaint>)
    ensures |r| == w * h
  {
    Rows(b, w, h, h)
  }

  /** The plan holds the action of pixel (x, y) at y * w + x. */
  lemma PlanAt(b: seq<Byte>, w: nat, h: nat, x: int, y: int)
    requires 0 <= x < w && 0 <= y < h
    ensures 0 <= y * w + x < w * h && Plan(b, w, h)[y * w + x] == Action(b, w, h, CellAt(w, x + 1, y + 1), x, y)
  {
    RowsAt(b, w, h, h, x, y);
  }

  /** The byte at `k` once pixel k / 4 is cleared, halved with alpha 255, or kept as `acts` says. */
  function RepaintedByte(d: seq<Byte>, acts: seq<Repaint>, k: int): Byte
    requires 0 <= k < |d|
  {
    if k < 4 * |acts| then
      match acts[k / 4]
      case Clear => 0
      case Paint => if k % 4 == 3 then 255 else d[k] / 2
      case Keep => d[k]
    else d[k]
  }

  /** The data once every pixel is repainted as `acts` says. */
  function Repainted(d: seq<Byte>, acts: seq<Repaint>): (r: seq<Byte>)
    ensures |r| == |d|
    ensures forall k :: 0 <= k < |d| ==> r[k] == RepaintedByte(d, acts, k)
  {
    seq(|d|, k requires 0 <= k < |d| => RepaintedByte(d, acts, k))
  }

  /** Pixel `p` after repainting. */
  lemma RepaintedAt(d: seq<Byte>, acts: seq<Repaint>, p: int)
    requires 4 * |acts| <= |d| && 0 <= p < |acts|
    ensures var i := 4 * p; var r := Repainted(d, acts);
      r[i..i + 4] == match acts[p]
        case Clear => [0, 0, 0, 0]
        case Paint => [d[i] / 2, d[i + 1] / 2, d[i + 2] / 2, 255]
        case Keep => d[i..i + 4]
  {
    var i := 4 * p;
    forall k | i <= k < i + 4 ensures k / 4 == p && k % 4 == k - i {
      Bits.DivUnique(k, 4, p, k - i);
    }
  }

  /**
   * The final pass on pixel (x, y): a clear cell makes the pixel transparent
   * black, a painted one halves its colour and makes it opaque, and every
   * other pixel is kept.
   */
  lemma RepaintedPixel(d: seq<Byte>, b: seq<Byte>, w: nat, h: nat, x: int, y: int)
    requires 4 * (w * h) <= |d| && 0 <= x < w && 0 <= y < h
    ensures var i := 4 * (y * w + x); var r := Repainted(d, Plan(b, w, h));
      && 0 <= i && i + 4 <= |d|
      && r[i..i + 4] == match Action(b, w, h, CellAt(w, x + 1, y + 1), x, y)
        case Clear => [0, 0, 0, 0]
        case Paint => [d[i] / 2, d[i + 1] / 2, d[i + 2] / 2, 255]
        case Keep => d[i..i + 4]
  {
    PlanAt(b, w, h, x, y);
    RepaintedAt(d, Plan(b, w, h), y * w + x);
  }

  /** Every byte after the pixels is left as it is. */
  lemma RepaintedTail(d: seq<Byte>, acts: seq<Repaint>)
    requires 4 * |acts| <= |d|
    ensures Repainted(d, acts)[4 * |acts|..] == d[4 * |acts|..]
  {
  }

  /** The first `k` bytes are still those of `d`, the rest are repainted. */
  ghost predicate RepaintedFrom(d: seq<Byte>, cur: seq<Byte>, acts: seq<Repaint>, k: int) {
    0 <= k <= |d| && cur == d[..k] + Repainted(d, acts)[k..]
  }

  lemma NoneRepainted(d: seq<Byte>, acts: seq<Repaint>)
    requires 4 * |acts| <= |d|
    ensures RepaintedFrom(d, d, acts, 4 * |acts|)
  {
    RepaintedTail(d, acts);
    assert d == d[..4 * |acts|] + d[4 * |acts|..];
  }

  lemma AllRepainted(d: seq<Byte>, cur: seq<Byte>, acts: seq<Repaint>, k: int)
    requires RepaintedFrom(d, cur, acts, k) && k == 0
    ensures cur == Repainted(d, acts)
  {
    assert d[..0] == [];
  }

  /** One pixel of the final pass done. */
  lemma RepaintStep(d: seq<Byte>, acts: seq<Repaint>, p: int, i: int, cur: seq<Byte>, next: seq<Byte>)
    requires 4 * |acts| <= |d| && 0 <= p < |acts| && i == 4 * p && RepaintedFrom(d, cur, acts, i + 4)
    requires next == match acts[p]
      case Clear => cur[i := 0][i + 1 := 0][i + 2 := 0][i + 3 := 0]
      case Paint => cur[i := cur[i] / 2][i + 1 := cur[i + 1] / 2][i + 2 := cur[i + 2] / 2][i + 3 := 255]
      case Keep => cur
    ensures RepaintedFrom(d, next, acts, i)
  {
    var r := Repainted(d, acts);
    RepaintedAt(d, acts, p);
    assert cur[i..i + 4] == d[i..i + 4];
    PixelWritten(d, cur, next, acts[p], i, r[i..i + 4]);
    Spliced(d, r, cur, next, i, r[i..i + 4]);
  }

  /** Writing the new value of the pixel at `i` replaces its four bytes. */
  lemma PixelWritten(d: seq<Byte>, cur: seq<Byte>, next: seq<Byte>, a: Repaint, i: int, px: seq<Byte>)
    requires 0 <= i && i + 4 <= |cur| && i + 4 <= |d| && cur[i..i + 4] == d[i..i + 4]
    requires px == match a
      case Clear => [0, 0, 0, 0]
      case Paint => [d[i] / 2, d[i + 1] / 2, d[i + 2] / 2, 255]
      case Keep => d[i..i + 4]
    requires next == match a
      case Clear => cur[i := 0][i + 1 := 0][i + 2 := 0][i + 3 := 0]
      case Paint => cur[i := cur[i] / 2][i + 1 := cur[i + 1] / 2][i + 2 := cur[i + 2] / 2][i + 3 := 255]
      case Keep => cur
    ensures next == cur[..i] + px + cur[i + 4..]
  {
    match a
    case Clear =>
      Update4(cur, i, 0, 0, 0, 0);
    case Paint =>
      assert cur[i] == d[i] && cur[i + 1] == d[i + 1] && cur[i + 2] == d[i + 2] by {
        assert cur[i..i + 4][0] == cur[i] && cur[i..i + 4][1] == cur[i + 1] && cur[i..i + 4][2] == cur[i + 2];
      }
      Update4(cur, i, cur[i] / 2, cur[i + 1] / 2, cur[i + 2] / 2, 255);
    case Keep =>
      assert cur == cur[..i] + cur[i..i + 4] + cur[i + 4..];
  }

  /** Replacing the unprocessed pixel at `i` by its repainted bytes moves the boundary back over it. */
  lemma Spliced(d: seq<Byte>, r: seq<Byte>, cur: seq<Byte>, next: seq<Byte>, i: int, px: seq<Byte>)
    requires 0 <= i && i + 4 <= |d| == |r| && cur == d[..i + 4] + r[i + 4..] && px == r[i..i + 4]
    requires next == cur[..i] + px + cur[i + 4..]
    ensures next == d[..i] + r[i..]
  {
    assert cur[..i] == d[..i] && cur[i + 4..] == r[i + 4..];
    assert r[i..] == px + r[i + 4..];
  }

  /** Four consecutive updates replace a four-element slice. */
  lemma Update4(s: seq<Byte>, i: int, a: Byte, b: Byte, c: Byte, e: Byte)
    requires 0 <= i && i + 4 <= |s|
    ensures s[i := a][i + 1 := b][i + 2 := c][i + 3 := e] == s[..i] + [a, b, c, e] + s[i + 4..]
  {
  }

  /** The body of lines 567-595 for pixel (x, y), whose bytes start at `i` and whose cell is `j`. */
  method RepaintPixel(w: nat, h: nat, x: int, y: int, data: array<Byte>, buffer: array<Byte>, ghost d: seq<Byte>, ghost acts: seq<Repaint>, i: int, j: int)
    requires 0 <= x < w && 0 <= y < h && 4 * (w * h) <= data.Length && GridSize(w, h) <= buffer.Length && data != buffer
    requires |d| == data.Length && acts == Plan(buffer[..], w, h)
    requires i == 4 * (y * w + x) && j == CellAt(w, x + 1, y + 1) && RepaintedFrom(d, data[..], acts, i + 4)
    modifies data
    ensures RepaintedFrom(d, data[..], acts, i)
  {
    var act := Classify(w, h, buffer, x, y, j);
    PlanAt(buffer[..], w, h, x, y);
    ghost var cur := data[..];
    if act == Clear {
      data[i] := 0;
      data[i + 1] := 0;
      data[i + 2] := 0;
      data[i + 3] := 0;
    } else if act == Paint {
      data[i] := data[i] / 2;
      data[i + 1] := data[i + 1] / 2;
      data[i + 2] := data[i + 2] / 2;
      data[i + 3] := 255;
    }
    RepaintStep(d, acts, y * w + x, i, cur, data[..]);
  }

  /** Row y + 1 starts w pixels after row y. */
  lemma NextRow(w: nat, y: int)
    ensures (y + 1) * w == y * w + w
  {
  }

  /** The inner loop of lines 566-596 over pixel row `y`. */
  method RepaintRow(w: nat, h: nat, y: int, data: array<Byte>, buffer: array<Byte>, ghost d: seq<Byte>, ghost acts: seq<Repaint>, i: int, ghost p0: int)
    returns (i': int)
    requires 0 <= y < h && 4 * (w * h) <= data.Length && GridSize(w, h) <= buffer.Length && data != buffer
    requires |d| == data.Length && acts == Plan(buffer[..], w, h)
    requires p0 == y * w && i == 4 * (p0 + w) - 4 && RepaintedFrom(d, data[..], acts, i + 4)
    modifies data
    ensures i' == 4 * p0 - 4 && RepaintedFrom(d, data[..], acts, i' + 4)
  {
    i' := i;
    var j := ((y + 1) * (w + 2)) + w;
    var x := w - 1;
    while x >= 0
      invariant -1 <= x < w && i' == 4 * (y * w + x) && j == CellAt(w, x + 1, y + 1)
      invariant RepaintedFrom(d, data[..], acts, i' + 4)
    {
      RepaintPixel(w, h, x, y, data, buffer, d, acts, i', j);
      x, i', j := x - 1, i' - 4, j - 1;
    }
  }

  /**
   * The final pass of lines 561-597: what the trace did not use is cleared,
   * the outline of what it used is painted, and the rest of the image is kept.
   */
  method FinalPass(w: nat, h: nat, data: array<Byte>, buffer: array<Byte>)
    requires 4 * (w * h) <= data.Length && GridSize(w, h) <= buffer.Length && data != buffer
    modifies data
    ensures data[..] == Repainted(old(data[..]), Plan(buffer[..], w, h))
  {
    ghost var d, acts := data[..], Plan(buffer[..], w, h);
    NoneRepainted(d, acts);
    RepaintRows(w, h, data, buffer, d, acts);
    AllRepainted(d, data[..], acts, 0);
  }

  /** The outer loop of lines 564-597, from the last pixel row up to the first. */
  method RepaintRows(w: nat, h: nat, data: array<Byte>, buffer: array<Byte>, ghost d: seq<Byte>, ghost acts: seq<Repaint>)
    requires 4 * (w * h) <= data.Length && GridSize(w, h) <= buffer.Length && data != buffer
    requires |d| == data.Length && acts == Plan(buffer[..], w, h) && RepaintedFrom(d, data[..], acts, 4 * (w * h))
    modifies data
    ensures RepaintedFrom(d, data[..], acts, 0)
  {
    var i := 4 * (w * h) - 4;
    var y := h - 1;
    ghost var p := w * h;
    while y >= 0
      invariant -1 <= y < h && i == 4 * p - 4 && p == (y + 1) * w
      invariant RepaintedFrom(d, data[..], acts, i + 4)
    {
      NextRow(w, y);
      i := RepaintRow(w, h, y, data, buffer, d, acts, i, p - w);
      y, p := y - 1, p - w;
    }
  }

  /** Every set interior cell holds an opaque pixel. */
  ghost predicate Supported(w: nat, h: nat, d: seq<Byte>, b: seq<Byte>) {
    forall c :: 0 <= c < |b| && Interior(w, h, c) && b[c] != 0 ==> OpaqueCell(d, w, c) == 1
  }

  /** Thresholding sets only cells of opaque pixels, and clearing cells keeps it so. */
  lemma SupportedKept(w: nat, h: nat, d: seq<Byte>, b0: seq<Byte>, b: seq<Byte>)
    requires Thresholded(w, h, d, b0) && Cleared(b0, b)
    ensures Supported(w, h, d, b)
  {
    forall c | 0 <= c < |b| && Interior(w, h, c) && b[c] != 0 ensures OpaqueCell(d, w, c) == 1 {
      assert b0[c] == b[c];
    }
  }

  /** When every set cell holds an opaque pixel, the repainted image has no semi-transparent pixel. */
  lemma RepaintedOpaque(d: seq<Byte>, b: seq<Byte>, w: nat, h: nat)
    requires 4 * (w * h) <= |d| && GridSize(w, h) <= |b| && Supported(w, h, d, b)
    ensures forall p :: 0 <= p < w * h ==> Repainted(d, Plan(b, w, h))[4 * p + 3] in {0, 255}
  {
    forall p | 0 <= p < w * h ensures Repainted(d, Plan(b, w, h))[4 * p + 3] in {0, 255} {
      PixelCoordinates(w, h, p);
      PixelOpaque(d, b, w, h, p % w, p / w);
    }
  }

  /** Pixel `p` of the w x h image is pixel (p % w, p / w). */
  lemma PixelCoordinates(w: nat, h: nat, p: int)
    requires 0 <= p < w * h
    ensures w > 0 && 0 <= p % w < w && 0 <= p / w < h && p == (p / w) * w + p % w
  {
    var x, y := p % w, p / w;
    assert p == y * w + x;
    if y >= h {
      MulLe(h, y, w);
    }
  }

  lemma PixelOpaque(d: seq<Byte>, b: seq<Byte>, w: nat, h: nat, x: int, y: int)
    requires 4 * (w * h) <= |d| && GridSize(w, h) <= |b| && Supported(w, h, d, b) && 0 <= x < w && 0 <= y < h
    ensures 4 * (y * w + x) + 3 < |d| && Repainted(d, Plan(b, w, h))[4 * (y * w + x) + 3] in {0, 255}
  {
    var i := 4 * (y * w + x);
    var r := Repainted(d, Plan(b, w, h));
    RepaintedPixel(d, b, w, h, x, y);
    assert r[i + 3] == r[i..i + 4][3];
    var c := CellAt(w, x + 1, y + 1);
    PixelCell(w, h, x, y);
    PixelOfCell(w, x, y);
    TestedCells(w, h, x, y);
    if Action(b, w, h, c, x, y) == Keep {
      assert b[c] != 0;
      assert OpaqueCell(d, w, c) == 1;
      assert d[i + 3] == d[i..i + 4][3];
    }
  }
}
