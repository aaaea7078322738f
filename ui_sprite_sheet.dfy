/**
 * The sheet of interface icons (scripts/ui/uiSpriteSheet.ts): each icon is
 * named by an id that packs its cell on the 96 by 112 sheet image, one byte
 * each for its width and height in 16-pixel cells and its left and top cell,
 * and a span element shows it by sizing itself and shifting the sheet behind
 * it. Lengths are kept in model pixels; the conversion `css` applies to them
 * is not part of this model.
 */
module UiSprites {
  import opened Bits
  import opened JsNumbers
  import opened Constants
  import opened Text
  import opened Wrappers
  import opened ParseInts

  const TextureWidth: int := 96
  const TextureHeight: int := 112

  /** The attribute that holds an element's id. */
  const SheetId: string := "data-sheet-id"

  /** The image every element shows. */
  const SheetImage: string := "url(assets/images/uiSheet.png)"

  const Ball: nat := 0x00000101
  const Goal: nat := 0x00010101
  const Bomb: nat := 0x00020101
  const Cucumber: nat := 0x00030101
  const Edit: nat := 0x00040101
  const Question: nat := 0x00050101
  const DeviceH: nat := 0x01000101
  const DeviceV: nat := 0x01010101
  const Hand: nat := 0x01020101
  const Fullscreen: nat := 0x01030101
  const Restart: nat := 0x01040101
  const Open: nat := 0x01050101
  const Accept: nat := 0x02000101
  const AcceptGreen: nat := 0x02010101
  const Clear: nat := 0x02020101
  const ClearRed: nat := 0x02030101
  const Back: nat := 0x02040101
  const Border: nat := 0x02050101
  const LineWidth0: nat := 0x03000101
  const LineWidth1: nat := 0x03010101
  const LineWidth2: nat := 0x03020101
  const LineWidth3: nat := 0x03030101
  const ScrollThumb: nat := 0x03040302
  const Eraser: nat := 0x04000101
  const Rainbow: nat := 0x04010101
  const Pause: nat := 0x04020101
  const Play: nat := 0x04030101
  const PlayGreen: nat := 0x05000101
  const Exit: nat := 0x05010101
  const Menu: nat := 0x05020101
  const Download: nat := 0x05030101
  const Success: nat := 0x06000101
  const Error: nat := 0x06010101
  const Trophy: nat := 0x06020101
  const Clock: nat := 0x06030101

  /** The number of sprites the sheet declares. */
  const SpriteCount: nat := 35

  /** The declared ids in the order of lines 36-70. */
  function Sprite(i: nat): nat
    requires i < SpriteCount
  {
    match i
    case 0 => Ball
    case 1 => Goal
    case 2 => Bomb
    case 3 => Cucumber
    case 4 => Edit
    case 5 => Question
    case 6 => DeviceH
    case 7 => DeviceV
    case 8 => Hand
    case 9 => Fullscreen
    case 10 => Restart
    case 11 => Open
    case 12 => Accept
    case 13 => AcceptGreen
    case 14 => Clear
    case 15 => ClearRed
    case 16 => Back
    case 17 => Border
    case 18 => LineWidth0
    case 19 => LineWidth1
    case 20 => LineWidth2
    case 21 => LineWidth3
    case 22 => ScrollThumb
    case 23 => Eraser
    case 24 => Rainbow
    case 25 => Pause
    case 26 => Play
    case 27 => PlayGreen
    case 28 => Exit
    case 29 => Menu
    case 30 => Download
    case 31 => Success
    case 32 => Error
    case 33 => Trophy
    case _ => Clock
  }

  /** A rectangle of the sheet in 16-pixel cells. */
  datatype Cell = Cell(width: nat, height: nat, left: nat, top: nat)

  /** The cell of the sheet image the i-th declared sprite occupies, row by row. */
  function LayoutCell(i: nat): Cell
    requires i < SpriteCount
  {
    match i
    case 0 => Cell(1, 1, 0, 0)
    case 1 => Cell(1, 1, 1, 0)
    case 2 => Cell(1, 1, 2, 0)
    case 3 => Cell(1, 1, 3, 0)
    case 4 => Cell(1, 1, 4, 0)
    case 5 => Cell(1, 1, 5, 0)
    case 6 => Cell(1, 1, 0, 1)
    case 7 => Cell(1, 1, 1, 1)
    case 8 => Cell(1, 1, 2, 1)
    case 9 => Cell(1, 1, 3, 1)
    case 10 => Cell(1, 1, 4, 1)
    case 11 => Cell(1, 1, 5, 1)
    case 12 => Cell(1, 1, 0, 2)
    case 13 => Cell(1, 1, 1, 2)
    case 14 => Cell(1, 1, 2, 2)
    case 15 => Cell(1, 1, 3, 2)
    case 16 => Cell(1, 1, 4, 2)
    case 17 => Cell(1, 1, 5, 2)
    case 18 => Cell(1, 1, 0, 3)
    case 19 => Cell(1, 1, 1, 3)
    case 20 => Cell(1, 1, 2, 3)
    case 21 => Cell(1, 1, 3, 3)
    case 22 => Cell(2, 3, 4, 3)
    case 23 => Cell(1, 1, 0, 4)
    case 24 => Cell(1, 1, 1, 4)
    case 25 => Cell(1, 1, 2, 4)
    case 26 => Cell(1, 1, 3, 4)
    case 27 => Cell(1, 1, 0, 5)
    case 28 => Cell(1, 1, 1, 5)
    case 29 => Cell(1, 1, 2, 5)
    case 30 => Cell(1, 1, 3, 5)
    case 31 => Cell(1, 1, 0, 6)
    case 32 => Cell(1, 1, 1, 6)
    case 33 => Cell(1, 1, 2, 6)
    case _ => Cell(1, 1, 3, 6)
  }

  predicate IsByte(x: int) {
    0 <= x < 256
  }

  /** The id of a cell: width, height, left and top from the lowest byte up. */
  function Encode(c: Cell): nat {
    c.width + 256 * (c.height + 256 * (c.left + 256 * c.top))
  }

  /**
   * The decoding of lines 73-77 and 94-97: `id & 0xFF`, `(id >>> 8) & 0xFF`,
   * `(id >>> 16) & 0xFF` and `(id >>> 24) & 0xFF`. Both `&` and `>>>` see
   * the id modulo 2^32, and the four bytes kept are the same whether it is
   * read as signed or unsigned.
   */
  function Decode(id: nat): (c: Cell)
    ensures IsByte(c.width) && IsByte(c.height) && IsByte(c.left) && IsByte(c.top)
  {
    var u := id % TwoTo32;
    LowByte(u);
    LowByte(Shr(u, 8));
    LowByte(Shr(u, 16));
    LowByte(Shr(u, 24));
    Cell(And(u, 0xFF), And(Shr(u, 8), 0xFF), And(Shr(u, 16), 0xFF), And(Shr(u, 24), 0xFF))
  }

  /** `x & 0xFF` is the remainder by 256. */
  lemma LowByte(x: nat)
    ensures And(x, 0xFF) == x % 256
  {
    Pow2Values();
    AndLowMask(x, 8);
  }

  /** Decoding undoes encoding for a cell whose four numbers are bytes. */
  lemma DecodeEncode(c: Cell)
    requires IsByte(c.width) && IsByte(c.height) && IsByte(c.left) && IsByte(c.top)
    ensures Decode(Encode(c)) == c
  {
    var u := Encode(c);
    var upper := c.height + 256 * (c.left + 256 * c.top);
    var top := c.left + 256 * c.top;
    assert u < TwoTo32;
    assert u % TwoTo32 == u;
    Pow2Values();
    assert And(u, 0xFF) == c.width by {
      LowByte(u);
      DivUnique(u, 256, upper, c.width);
    }
    assert And(Shr(u, 8), 0xFF) == c.height by {
      ShrDiv(u, 8);
      LowByte(Shr(u, 8));
      DivUnique(u, 256, upper, c.width);
      DivUnique(upper, 256, top, c.height);
    }
    assert And(Shr(u, 16), 0xFF) == c.left by {
      ShrDiv(u, 16);
      LowByte(Shr(u, 16));
      DivUnique(u, 0x1_0000, top, c.width + 256 * c.height);
      DivUnique(top, 256, c.top, c.left);
    }
    assert And(Shr(u, 24), 0xFF) == c.top by {
      ShrDiv(u, 24);
      LowByte(Shr(u, 24));
      DivUnique(u, 0x100_0000, c.top, c.width + 256 * (c.height + 256 * c.left));
      DivUnique(c.top, 256, 0, c.top);
    }
  }

  /** Each declared id is the encoding of its cell of the layout. */
  lemma SpriteEncodesLayout(i: nat)
    requires i < SpriteCount
    ensures Sprite(i) == Encode(LayoutCell(i))
  {
  }

  /** The id of every declared sprite decodes to its cell. */
  lemma SpriteDecodes(i: nat)
    requires i < SpriteCount
    ensures Decode(Sprite(i)) == LayoutCell(i)
  {
    SpriteEncodesLayout(i);
    DecodeEncode(LayoutCell(i));
  }

  /** `ScrollThumb` is two cells wide and three high, at cell (4, 3); every other sprite is a single cell. */
  lemma SpriteSizes(i: nat)
    requires i < SpriteCount
    ensures Sprite(i) == ScrollThumb ==> Decode(Sprite(i)) == Cell(2, 3, 4, 3)
    ensures Sprite(i) != ScrollThumb ==> Decode(Sprite(i)).width == 1 && Decode(Sprite(i)).height == 1
  {
    SpriteDecodes(i);
  }

  /** A cell lies inside the sheet image. */
  predicate InsideSheet(c: Cell) {
    16 * (c.left + c.width) <= TextureWidth && 16 * (c.top + c.height) <= TextureHeight
  }

  /** Every declared sprite's cell lies inside the 96 by 112 sheet. */
  lemma SpriteInsideSheet(i: nat)
    requires i < SpriteCount
    ensures InsideSheet(Decode(Sprite(i)))
  {
    SpriteDecodes(i);
  }

  /** The position of a cell in reading order: row by row, left to right. */
  function Rank(c: Cell): int {
    8 * c.top + c.left
  }

  /** Each cell of the layout comes after the one before it in reading order. */
  lemma LayoutStep(i: nat)
    requires i + 1 < SpriteCount
    ensures Rank(LayoutCell(i)) < Rank(LayoutCell(i + 1))
  {
  }

  /** The layout lists its cells in reading order. */
  lemma {:induction false} LayoutIncreasing(i: nat, j: nat)
    requires i < j < SpriteCount
    ensures Rank(LayoutCell(i)) < Rank(LayoutCell(j))
    decreases j - i
  {
    LayoutStep(i);
    if j > i + 1 {
      LayoutIncreasing(i + 1, j);
    }
  }

  /** No two declared sprites share their (left, top) cell. */
  lemma SpriteCellsDistinct(i: nat, j: nat)
    requires i < SpriteCount && j < SpriteCount && i != j
    ensures Decode(Sprite(i)).left != Decode(Sprite(j)).left || Decode(Sprite(i)).top != Decode(Sprite(j)).top
  {
    SpriteDecodes(i);
    SpriteDecodes(j);
    if i < j {
      LayoutIncreasing(i, j);
    } else {
      LayoutIncreasing(j, i);
    }
  }

  /** The size and background offset `resize` gives an element, in model pixels. */
  datatype Style = Style(width: int, height: int, offsetX: int, offsetY: int)

  /** The style `resize` gives every sprite but `ScrollThumb` (lines 80-90), from its cell alone. */
  function CellStyle(c: Cell): (s: Style)
    ensures c.width == 1 ==> s == Style(IconSize, IconSize, -(16 * c.left + 2), -(16 * c.top + 2))
    ensures c.width != 1 ==> s == Style(16 * c.width, 16 * c.height, -(16 * c.left), -(16 * c.top))
  {
    if c.width == 1 then Style(IconSize, IconSize, -(c.left * 16 + 2), -(c.top * 16 + 2))
    else Style(c.width * 16, c.height * 16, -(c.left * 16), -(c.top * 16))
  }

  /**
   * `resize` (lines 79-90): a single cell shows its 12-pixel icon, 2 pixels
   * in from the cell's corner; a larger sprite shows its whole cells, except
   * `ScrollThumb`, which shows a 24-pixel wide strip starting 72 pixels in.
   */
  function StyleOf(id: nat): (s: Style)
    ensures Decode(id).width == 1 ==> s == Style(IconSize, IconSize, -(16 * Decode(id).left + 2), -(16 * Decode(id).top + 2))
    ensures Decode(id).width != 1 && id != ScrollThumb ==> s == Style(16 * Decode(id).width, 16 * Decode(id).height, -(16 * Decode(id).left), -(16 * Decode(id).top))
    ensures id == ScrollThumb ==> s == Style(24, 48, -72, -48)
  {
    var c := Decode(id);
    if id == ScrollThumb then
      assert Sprite(22) == ScrollThumb;
      SpriteSizes(22);
      Style(24, c.height * 16, -72, -(c.top * 16))
    else
      CellStyle(c)
  }

  /** The part of the sheet a style shows lies inside the cell and inside the sheet. */
  predicate ShowsWithin(s: Style, c: Cell) {
    16 * c.left <= -s.offsetX && -s.offsetX + s.width <= 16 * (c.left + c.width)
    && 16 * c.top <= -s.offsetY && -s.offsetY + s.height <= 16 * (c.top + c.height)
  }

  /** Every declared sprite shows only its own cell of the sheet. */
  lemma SpriteShowsOwnCell(i: nat)
    requires i < SpriteCount
    ensures ShowsWithin(StyleOf(Sprite(i)), Decode(Sprite(i))) && InsideSheet(Decode(Sprite(i)))
  {
    SpriteSizes(i);
    SpriteInsideSheet(i);
  }

  /** `parseInt` of an id attribute; None stands for NaN. */
  function ParseId(s: string): Option<int> {
    ParseIntText(s)
  }

  /** What `&` and `>>>` see of a parsed id: the id modulo 2^32, and 0 for NaN. */
  function IdBits(p: Option<int>): nat {
    if p.None? then 0 else p.value % TwoTo32
  }

  /**
   * The style `resize` gives for a parsed id (lines 73-90): the strict
   * comparison with `ScrollThumb` sees the number itself, every other test
   * only its four bytes.
   */
  function ParsedStyle(p: Option<int>): Style {
    if p == Some(ScrollThumb as int) then StyleOf(ScrollThumb) else CellStyle(Decode(IdBits(p)))
  }

  /** For an id below 2^32, the style of the parsed id is the style of the id. */
  lemma ParsedStyleOfId(id: nat)
    requires id < TwoTo32
    ensures ParsedStyle(Some(id)) == StyleOf(id)
  {
    assert IdBits(Some(id)) == id;
  }

  /** `id.toString()` of the number `change` receives: "NaN", or the decimal form. */
  function IdText(p: Option<int>): string {
    if p.None? then "NaN" else IntToString(p.value)
  }

  /** The attribute written for an id reads back as that id, NaN included. */
  lemma ParseIdOfText(p: Option<int>)
    ensures ParseId(IdText(p)) == p
  {
    if p.None? {
      assert !IsWhiteSpace('N') && "NaN"[TrimStartIndex("NaN")..] == "NaN";
    } else if p.value >= 0 {
      ParseIntNat(p.value);
    } else {
      ParseIntNat(-p.value);
    }
  }

  /** What `html` writes before the id: an open span and its id attribute. */
  const HtmlPrefix: string := "<span " + SheetId + "=\""

  /** `html` (lines 115-117): a span whose id attribute reads back as the id. */
  function Html(id: nat): (r: string)
    ensures |HtmlPrefix| < |r| && r[..|HtmlPrefix|] == HtmlPrefix
    ensures ParseId(r[|HtmlPrefix|..]) == Some(id as int)
  {
    var digits := NatToString(id);
    var r := HtmlPrefix + digits + "\"></span>";
    assert r[|HtmlPrefix|..] == digits + "\"></span>";
    assert ParseId(r[|HtmlPrefix|..]) == Some(id as int) by {
      ParseIntDecimal(digits, "\"></span>");
      ParseNatToString(id);
    }
    r
  }

  /** A span element showing a sprite. */
  class SpanElement {
    var sheetId: string
    var backgroundImage: string
    var backgroundSize: Option<(int, int)>
    var style: Style

    /** `document.createElement("span")`: no attribute and no style yet. */
    constructor()
      ensures sheetId == "" && backgroundImage == "" && backgroundSize == None && style == Style(0, 0, 0, 0)
    {
      sheetId := "";
      backgroundImage := "";
      backgroundSize := None;
      style := Style(0, 0, 0, 0);
    }
  }

  /** The sheet's one piece of state: the background size every element is given. */
  class UiSpriteSheet {
    /** `BackgroundSizeCss`: unset until the first `windowResized`. */
    var backgroundSize: Option<(int, int)>

    constructor()
      ensures backgroundSize == None
    {
      backgroundSize := None;
    }

    /** `windowResized` (lines 124-126): the background is the whole sheet, 96 by 112. */
    method WindowResized()
      modifies this`backgroundSize
      ensures backgroundSize == Some((TextureWidth, TextureHeight))
    {
      backgroundSize := Some((TextureWidth, TextureHeight));
    }

    /** `resize` (lines 72-91): the element's size and offset from the id its attribute holds. */
    method Resize(e: SpanElement)
      modifies e`backgroundSize, e`style
      ensures e.backgroundSize == backgroundSize
      ensures e.style == ParsedStyle(ParseId(e.sheetId))
    {
      var id := ParseId(e.sheetId);
      e.backgroundSize := backgroundSize;
      e.style := ParsedStyle(id);
    }

    /** `change` (lines 93-101): the attribute set to the id (None for NaN), then the element resized for it. */
    method Change(e: SpanElement, id: Option<int>)
      modifies e`sheetId, e`backgroundSize, e`style
      ensures e.sheetId == IdText(id)
      ensures e.backgroundSize == backgroundSize && e.style == ParsedStyle(id)
    {
      e.sheetId := IdText(id);
      Resize(e);
      ParseIdOfText(id);
    }

    /** `create` (lines 103-113): a new span showing the sprite; attaching it to a parent is not modelled. */
    method Create(id: nat) returns (e: SpanElement)
      ensures fresh(e)
      ensures e.backgroundImage == SheetImage && e.sheetId == NatToString(id)
      ensures e.backgroundSize == backgroundSize && e.style == ParsedStyle(Some(id))
      ensures id < TwoTo32 ==> e.style == StyleOf(id)
    {
      e := new SpanElement();
      e.backgroundImage := SheetImage;
      Change(e, Some(id));
      if id < TwoTo32 {
        ParsedStyleOfId(id);
      }
    }

    /**
     * `finishHTMLCreation` (lines 119-122): the element gets the image, and
     * its attribute is read with `parseInt` and written back by `change`, so an
     * attribute without digits becomes "NaN".
     */
    method FinishHtmlCreation(e: SpanElement)
      modifies e`backgroundImage, e`sheetId, e`backgroundSize, e`style
      ensures e.backgroundImage == SheetImage
      ensures e.sheetId == IdText(ParseId(old(e.sheetId)))
      ensures e.style == ParsedStyle(ParseId(old(e.sheetId))) && e.backgroundSize == backgroundSize
    {
      e.backgroundImage := SheetImage;
      Change(e, ParseId(e.sheetId));
    }
  }
}
