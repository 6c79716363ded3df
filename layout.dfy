/**
 * The layout arithmetic and the per-code cell plan of BarcodeSheetBuilder.Build.
 * A cell is an abstract record of what Build sets on each PdfPCell; the
 * barcode image is an abstract record of what Build sets on each Barcode128.
 */
module Layout {
  import opened Wrappers
  import opened Margins
  import opened SheetConfig

  /** Subtracted from every row height so that the rows never overflow the page. */
  const RowHeightSlack: real := 0.001

  /**
   * Height of one row: the page height between the top and bottom margins,
   * shared by `row` rows, less the slack. The rows together stay strictly
   * inside the printable height.
   */
  function RowHeight(pageHeight: real, top: real, bottom: real, row: int): (h: real)
    requires row >= 1
    ensures (h + RowHeightSlack) * row as real == pageHeight - (top + bottom)
    ensures h * row as real < pageHeight - (top + bottom)
  {
    ((pageHeight - (top + bottom)) / row as real) - RowHeightSlack
  }

  /**
   * The bar height given to the barcode: half of the cell's content height
   * (the row height less the padding above and below), scaled by
   * `barcodeHeight` read as a percentage.
   */
  function BarHeight(rowHeight: real, padding: real, barcodeHeight: real): (b: real)
    ensures barcodeHeight == 0.0 ==> b == 0.0
  {
    ((rowHeight - (padding * 2.0)) * (barcodeHeight / 100.0)) / 2.0
  }

  /**
   * With a percentage between 0 and 100 and padding that fits in the row, the
   * bar takes between nothing and half of the cell's content height (the other
   * half is left for the text), growing with the percentage.
   */
  lemma BarHeightWithinHalfContent(rowHeight: real, padding: real, p: real, q: real)
    requires 0.0 <= p <= q <= 100.0 && rowHeight >= padding * 2.0
    ensures 0.0 <= BarHeight(rowHeight, padding, p) <= BarHeight(rowHeight, padding, q)
    ensures BarHeight(rowHeight, padding, q) <= (rowHeight - padding * 2.0) / 2.0
    ensures q == 100.0 ==> BarHeight(rowHeight, padding, q) == (rowHeight - padding * 2.0) / 2.0
  {
    var content := rowHeight - padding * 2.0;
    assert content * (q / 100.0) - content * (p / 100.0) == content * ((q - p) / 100.0);
    assert content * ((q - p) / 100.0) >= 0.0;
    assert content * (p / 100.0) >= 0.0;
    assert content * 1.0 - content * (q / 100.0) == content * ((100.0 - q) / 100.0);
    assert content * ((100.0 - q) / 100.0) >= 0.0;
  }

  /**
   * The Code 128 barcode placed in a cell: its text, the custom bar height (if
   * one was set) and whether the text is printed below it.
   */
  datatype Glyph = Glyph(code: string, barHeight: Option<real>, withText: bool)

  /** One table cell. Every cell is centred horizontally and vertically. */
  datatype Cell = Cell(fixedHeight: real, padding: real, bordered: bool, glyph: Option<Glyph>)

  /** What Build computes once and gives to every cell. */
  datatype CellStyle = CellStyle(
    rowHeight: real, padding: real, bordered: bool, withText: bool, barHeight: Option<real>)

  /** The cell Build creates for one code: a barcode only when the code is not empty. */
  function CellFor(code: string, style: CellStyle): (cell: Cell)
    ensures cell.fixedHeight == style.rowHeight && cell.padding == style.padding
    ensures cell.bordered == style.bordered
    ensures cell.glyph.Some? <==> code != ""
    ensures cell.glyph.Some? ==> cell.glyph.value.code == code
    ensures cell.glyph.Some? ==> cell.glyph.value.barHeight == style.barHeight
    ensures cell.glyph.Some? ==> cell.glyph.value.withText == style.withText
  {
    Cell(style.rowHeight, style.padding, style.bordered,
         if code != "" then Some(Glyph(code, style.barHeight, style.withText)) else None)
  }

  /** The cells of a code list: one per code, in list order. */
  function CellPlan(codes: seq<string>, style: CellStyle): (cells: seq<Cell>)
    ensures |cells| == |codes|
    ensures forall i :: 0 <= i < |codes| ==> cells[i] == CellFor(codes[i], style)
  {
    if codes == [] then [] else [CellFor(codes[0], style)] + CellPlan(codes[1..], style)
  }

  /** The foreach loop of Build: one cell per code, appended to the table in order. */
  method PlanCells(codes: seq<string>, style: CellStyle) returns (cells: seq<Cell>)
    ensures |cells| == |codes|
    ensures forall i :: 0 <= i < |codes| ==> cells[i] == CellFor(codes[i], style)
  {
    cells := [];
    for i := 0 to |codes|
      invariant |cells| == i
      invariant forall k :: 0 <= k < i ==> cells[k] == CellFor(codes[k], style)
    {
      cells := cells + [CellFor(codes[i], style)];
    }
  }

  /** The codes that received a barcode, in table order. */
  function GlyphCodes(cells: seq<Cell>): seq<string>
  {
    if cells == [] then []
    else (if cells[0].glyph.Some? then [cells[0].glyph.value.code] else []) + GlyphCodes(cells[1..])
  }

  /** The non-empty codes of a list, in order. */
  function NonEmptyCodes(codes: seq<string>): seq<string>
  {
    if codes == [] then []
    else (if codes[0] != "" then [codes[0]] else []) + NonEmptyCodes(codes[1..])
  }

  /** The barcodes of a cell plan are exactly the non-empty codes, in order. */
  lemma {:induction false} GlyphCodesOfPlan(codes: seq<string>, style: CellStyle)
    ensures GlyphCodes(CellPlan(codes, style)) == NonEmptyCodes(codes)
  {
    if codes != [] {
      var cells := CellPlan(codes, style);
      assert cells[1..] == CellPlan(codes[1..], style);
      GlyphCodesOfPlan(codes[1..], style);
    }
  }

  /** Empty placeholders contribute no code. */
  lemma {:induction false} NonEmptyCodesIgnoresBlanks(codes: seq<string>, k: nat)
    ensures NonEmptyCodes(codes + seq(k, _ => "")) == NonEmptyCodes(codes)
  {
    if codes == [] {
      BlanksHaveNoCodes(k);
      assert codes + seq(k, _ => "") == seq(k, _ => "");
    } else {
      assert (codes + seq(k, _ => ""))[1..] == codes[1..] + seq(k, _ => "");
      NonEmptyCodesIgnoresBlanks(codes[1..], k);
    }
  }

  lemma {:induction false} BlanksHaveNoCodes(k: nat)
    ensures NonEmptyCodes(seq(k, _ => "")) == []
  {
    if k > 0 {
      assert seq(k, _ => "")[1..] == seq(k - 1, _ => "");
      BlanksHaveNoCodes(k - 1);
    }
  }

  /** The style Build derives from a validated configuration. */
  function StyleOf(c: Config): (style: CellStyle)
    requires Validated(c)
    ensures style.rowHeight == RowHeight(c.pageSize.value.height, c.sheetMargin.value.top,
                                         c.sheetMargin.value.bottom, c.row)
    ensures style.barHeight.Some? <==> c.barcodeHeight > 0.0
    ensures style.barHeight.Some? ==>
      style.barHeight.value == BarHeight(style.rowHeight, c.cellPadding, c.barcodeHeight)
    ensures style.padding == c.cellPadding && style.bordered == c.withBorder
    ensures style.withText == c.withBarcodeText
  {
    var m := c.sheetMargin.value;
    var rowHeight := RowHeight(c.pageSize.value.height, m.top, m.bottom, c.row);
    CellStyle(rowHeight, c.cellPadding, c.withBorder, c.withBarcodeText,
              if c.barcodeHeight > 0.0 then Some(BarHeight(rowHeight, c.cellPadding, c.barcodeHeight)) else None)
  }

  /**
   * The document Build hands to the PDF writer: the page and its margins, a
   * table of `columns` columns with the given percentage widths spanning the
   * page width, its cells, and the file the bytes are also saved to, if any.
   */
  datatype Sheet = Sheet(
    pageSize: PageSize, margin: SheetMargin, columns: int, widths: seq<real>,
    totalWidth: real, cells: seq<Cell>, file: Option<string>)

  /** The sheet Build produces from a validated configuration. */
  function Render(c: Config): (s: Sheet)
    requires Validated(c)
    ensures s.pageSize == c.pageSize.value && s.margin == c.sheetMargin.value
    ensures NonNegative(s.margin)
    ensures s.columns == c.column && s.widths == c.columnPercentWidth.value
    ensures |s.widths| == s.columns && Sum(s.widths) == 100.0
    ensures s.totalWidth == s.pageSize.width
    ensures s.cells == CellPlan(c.codes.value, StyleOf(c))
    ensures |s.cells| == |c.codes.value|
    ensures s.file == c.filePath
  {
    Sheet(c.pageSize.value, c.sheetMargin.value, c.column, c.columnPercentWidth.value,
          c.pageSize.value.width, CellPlan(c.codes.value, StyleOf(c)), c.filePath)
  }

  /**
   * End to end, for a configuration that passes Validate: one cell per original
   * code, in order, followed by `|codes| % column` blank cells; every cell has
   * the computed row height; and the barcodes are exactly the non-empty
   * original codes, none dropped or reordered.
   */
  lemma RenderKeepsEveryCode(c: Config)
    requires FirstFailure(c).None?
    ensures Validated(Normalize(c))
    ensures var s := Render(Normalize(c)); var codes := c.codes.value;
      && |s.cells| == |codes| + |codes| % c.column
      && (forall i :: 0 <= i < |codes| ==> s.cells[i] == CellFor(codes[i], StyleOf(Normalize(c))))
      && (forall i :: |codes| <= i < |s.cells| ==> s.cells[i] == CellFor("", StyleOf(Normalize(c))))
      && (forall i :: |codes| <= i < |s.cells| ==> s.cells[i].glyph.None?)
      && GlyphCodes(s.cells) == NonEmptyCodes(codes)
  {
    NormalizeIsValidated(c);
    var n := Normalize(c);
    var codes := c.codes.value;
    GlyphCodesOfPlan(n.codes.value, StyleOf(n));
    NonEmptyCodesIgnoresBlanks(codes, |codes| % c.column);
  }

  /**
   * The clamp of Validate at work: once validated with the text shown, a
   * custom bar takes at most 86.5 % of half the cell's content height (as long
   * as the padding fits in the row), leaving room for the text.
   */
  lemma ValidatedBarLeavesRoomForText(c: Config)
    requires Validated(c) && c.withBarcodeText && c.barcodeHeight > 0.0
    requires StyleOf(c).rowHeight >= c.cellPadding * 2.0
    ensures var style := StyleOf(c);
      style.barHeight.Some? &&
      style.barHeight.value <= (style.rowHeight - c.cellPadding * 2.0) * (MaxBarcodeHeightWithText / 100.0) / 2.0
  {
    var style := StyleOf(c);
    BarHeightWithinHalfContent(style.rowHeight, c.cellPadding, c.barcodeHeight, MaxBarcodeHeightWithText);
  }
}
