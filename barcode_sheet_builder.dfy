/**
 * BarcodeSheetBuilder: a fluent builder whose setters store configuration in
 * private fields, whose Validate checks and normalises those fields in place,
 * and whose Build lays the codes out as a table of barcode cells.
 */
module BarcodeSheet {
  import opened Wrappers
  import opened Units
  import opened Margins
  import opened SheetConfig
  import opened Layout

  class BarcodeSheetBuilder {
    var codes: Option<seq<string>>
    var pageSize: Option<PageSize>
    var sheetMargin: Option<SheetMargin>
    var column: int
    var row: int
    var columnPercentWidth: Option<seq<real>>
    var barcodeHeight: real
    var withBarcodeText: bool
    var withBorder: bool
    var cellPadding: real
    var filePath: Option<string>

    /** The builder's fields as one configuration value. */
    function State(): Config
      reads this
    {
      Config(codes, pageSize, sheetMargin, column, row, columnPercentWidth,
             barcodeHeight, withBarcodeText, withBorder, cellPadding, filePath)
    }

    /** Stores the four required settings; everything else keeps its default. */
    constructor (codes: Option<seq<string>>, pageSize: Option<PageSize>, column: int, row: int)
      ensures State() == Config(codes, pageSize, None, column, row, None,
                                0.0, true, false, DefaultCellPadding, None)
    {
      this.codes := codes;
      this.pageSize := pageSize;
      this.sheetMargin := None;
      this.column := column;
      this.row := row;
      this.columnPercentWidth := None;
      this.barcodeHeight := 0.0;
      this.withBarcodeText := true;
      this.withBorder := false;
      this.cellPadding := DefaultCellPadding;
      this.filePath := None;
    }

    /** Column widths in percent; not checked until Validate. */
    method SetColumnPercentWidth(widths: Option<seq<real>>) returns (self: BarcodeSheetBuilder)
      modifies this
      ensures self == this
      ensures State() == old(State()).(columnPercentWidth := widths)
    {
      columnPercentWidth := widths;
      self := this;
    }

    /** Page margins given in millimetres, stored in points. */
    method SetPageMargins(left: real, right: real, top: real, bottom: real) returns (self: BarcodeSheetBuilder)
      modifies this
      ensures self == this
      ensures State() == old(State()).(sheetMargin := Some(FromMillimetres(left, right, top, bottom)))
    {
      sheetMargin := Some(SheetMargin(MMToPixel(left), MMToPixel(right), MMToPixel(top), MMToPixel(bottom)));
      self := this;
    }

    /** Barcode height given in millimetres, stored in points. */
    method SetBarCodeHeight(height: real) returns (self: BarcodeSheetBuilder)
      modifies this
      ensures self == this
      ensures State() == old(State()).(barcodeHeight := MMToPixel(height))
    {
      barcodeHeight := MMToPixel(height);
      self := this;
    }

    /** Whether the code is printed below the barcode. */
    method WithBarcodeText(withText: bool) returns (self: BarcodeSheetBuilder)
      modifies this
      ensures self == this
      ensures State() == old(State()).(withBarcodeText := withText)
    {
      withBarcodeText := withText;
      self := this;
    }

    /** Cell padding given in millimetres, stored in points. */
    method SetCellPadding(padding: real) returns (self: BarcodeSheetBuilder)
      modifies this
      ensures self == this
      ensures State() == old(State()).(cellPadding := MMToPixel(padding))
    {
      cellPadding := MMToPixel(padding);
      self := this;
    }

    /** Whether the cells have a border. */
    method WithBorder(border: bool) returns (self: BarcodeSheetBuilder)
      modifies this
      ensures self == this
      ensures State() == old(State()).(withBorder := border)
    {
      withBorder := border;
      self := this;
    }

    /** File the document is also saved to after Build. */
    method ToFile(path: Option<string>) returns (self: BarcodeSheetBuilder)
      modifies this
      ensures self == this
      ensures State() == old(State()).(filePath := path)
    {
      filePath := path;
      self := this;
    }

    /**
     * Runs the checks in order and returns the first failure, leaving every
     * field as it was; when all pass, substitutes a zero margin for a missing
     * one, clamps the barcode height when the text is shown, synthesises equal
     * column widths when none were set, and appends `|codes| % column` empty
     * codes.
     */
    method Validate() returns (failure: Option<BuildError>)
      modifies this
      ensures failure == FirstFailure(old(State()))
      ensures failure.Some? ==> State() == old(State())
      ensures failure.None? ==> State() == Normalize(old(State())) && Validated(State())
    {
      if pageSize.None? { return Some(PageSizeNull); }
      if codes.None? || |codes.value| == 0 { return Some(CodesNullOrEmpty); }
      if column < 1 { return Some(ColumnBelowOne); }
      if row < 1 { return Some(RowBelowOne); }
      if columnPercentWidth.Some? && |columnPercentWidth.value| != column { return Some(WidthCountMismatch); }
      if columnPercentWidth.Some? && Sum(columnPercentWidth.value) != 100.0 { return Some(WidthSumNot100); }
      ghost var before := State();

      if sheetMargin.Some? {
        var edge := Margins.Validate(sheetMargin.value);
        if edge.Some? { return Some(MarginNegative(edge.value)); }
      } else {
        sheetMargin := Some(Zero());
      }

      if barcodeHeight > MaxBarcodeHeightWithText && withBarcodeText {
        barcodeHeight := MaxBarcodeHeightWithText;
      }

      if columnPercentWidth.None? {
        var tableWidth := 100.0 / column as real;
        columnPercentWidth := Some(seq(column, _ => tableWidth));
      }

      codes := Some(codes.value + seq(|codes.value| % column, _ => ""));
      failure := None;
      NormalizeIsValidated(before);
    }

    /**
     * Validates, then computes the row and bar heights and builds one cell per
     * code. A failed check is returned as the error with the fields untouched;
     * otherwise the fields are normalised and the sheet is the rendering of
     * the normalised configuration.
     */
    method Build() returns (r: Result<Sheet, BuildError>)
      modifies this
      ensures FirstFailure(old(State())).Some? ==>
        r == Failure(FirstFailure(old(State())).value) && State() == old(State())
      ensures FirstFailure(old(State())).None? ==>
        State() == Normalize(old(State())) && Validated(State()) && r == Success(Render(State()))
    {
      var failure := Validate();
      if failure.Some? {
        return Failure(failure.value);
      }
      var page := pageSize.value;
      var margin := sheetMargin.value;
      var rowHeight := RowHeight(page.height, margin.top, margin.bottom, row);
      var barHeight := BarHeight(rowHeight, cellPadding, barcodeHeight);
      var style := CellStyle(rowHeight, cellPadding, withBorder, withBarcodeText,
                             if barcodeHeight > 0.0 then Some(barHeight) else None);
      var cells := PlanCells(codes.value, style);
      assert cells == CellPlan(codes.value, StyleOf(State()));
      r := Success(Sheet(page, margin, column, columnPercentWidth.value, page.width, cells, filePath));
    }
  }

  /** A4 in points, as iTextSharp's PageSize.A4. */
  const A4: PageSize := PageSize(595.0, 842.0)

  /** Null codes are rejected with BarcodeSheetException. */
  method NullCodesAreRejected() returns (r: Result<Sheet, BuildError>)
    ensures r == Failure(CodesNullOrEmpty) && IsBarcodeSheetException(r.error)
  {
    var b := new BarcodeSheetBuilder(None, Some(A4), 1, 1);
    r := b.Build();
  }

  /** A column count of 0 is rejected with BarcodeSheetException. */
  method ZeroColumnsAreRejected() returns (r: Result<Sheet, BuildError>)
    ensures r == Failure(ColumnBelowOne) && IsBarcodeSheetException(r.error)
  {
    var b := new BarcodeSheetBuilder(Some(["12345XX789XXX", "12345XX789XXX"]), Some(A4), 0, 1);
    r := b.Build();
  }

  /** A row count of 0 is rejected with BarcodeSheetException. */
  method ZeroRowsAreRejected() returns (r: Result<Sheet, BuildError>)
    ensures r == Failure(RowBelowOne) && IsBarcodeSheetException(r.error)
  {
    var b := new BarcodeSheetBuilder(Some(["12345XX789XXX", "12345XX789XXX"]), Some(A4), 1, 0);
    r := b.Build();
  }

  /** One width for two columns is rejected by the count check. */
  method OneWidthForTwoColumnsIsRejected() returns (r: Result<Sheet, BuildError>)
    ensures r == Failure(WidthCountMismatch) && IsBarcodeSheetException(r.error)
  {
    var b := new BarcodeSheetBuilder(Some(["12345XX789XXX", "12345XX789XXX"]), Some(A4), 2, 1);
    b := b.SetColumnPercentWidth(Some([50.0]));
    r := b.Build();
  }

  /** Widths of 50 and 60 over two columns are rejected by the sum check. */
  method WidthsSummingTo110AreRejected() returns (r: Result<Sheet, BuildError>)
    ensures r == Failure(WidthSumNot100) && IsBarcodeSheetException(r.error)
  {
    var b := new BarcodeSheetBuilder(Some(["12345XX789XXX", "12345XX789XXX"]), Some(A4), 2, 1);
    b := b.SetColumnPercentWidth(Some([50.0, 60.0]));
    r := b.Build();
  }

  /** Two codes on a one-column sheet: two barcode cells and no placeholder. */
  method TwoCodesOneColumn() returns (r: Result<Sheet, BuildError>)
    ensures r.Success?
    ensures |r.value.cells| == 2 && r.value.widths == [100.0]
    ensures GlyphCodes(r.value.cells) == ["12345XX789XXX", "12345XX789XXX"]
  {
    var codes := ["12345XX789XXX", "12345XX789XXX"];
    var b := new BarcodeSheetBuilder(Some(codes), Some(PageSize(842.0, 595.0)), 1, 1);
    r := b.Build();
    assert codes + seq(0, _ => "") == codes;
    GlyphCodesOfPlan(codes, StyleOf(b.State()));
    assert NonEmptyCodes(codes) == codes;
  }

  /**
   * Sixteen codes on a 2 x 6 sheet with 5 mm top and bottom margins, 5 mm
   * padding and the text shown: no placeholder, 50 % columns, and the
   * document is to be saved to the given file.
   */
  method SixteenCodesToFile(codes: seq<string>, fileName: string) returns (r: Result<Sheet, BuildError>)
    requires |codes| == 16
    ensures r.Success?
    ensures |r.value.cells| == 16 && r.value.widths == [50.0, 50.0]
    ensures r.value.margin == FromMillimetres(0.0, 0.0, 5.0, 5.0)
    ensures r.value.file == Some(fileName)
    ensures forall i :: 0 <= i < 16 ==> r.value.cells[i].padding == MMToPixel(5.0)
  {
    var b := new BarcodeSheetBuilder(Some(codes), Some(A4), 2, 6);
    b := b.SetPageMargins(0.0, 0.0, 5.0, 5.0);
    b := b.SetCellPadding(5.0);
    b := b.WithBarcodeText(true);
    b := b.ToFile(Some(fileName));
    r := b.Build();
    assert seq(2, _ => 100.0 / 2 as real) == [50.0, 50.0];
  }

  /** Three codes on a two-column sheet: the fourth cell is a blank placeholder. */
  method ThreeCodesTwoColumns() returns (r: Result<Sheet, BuildError>)
    ensures r.Success?
    ensures |r.value.cells| == 4
    ensures GlyphCodes(r.value.cells) == ["A", "B", "C"]
    ensures r.value.cells[3].glyph.None?
  {
    var b := new BarcodeSheetBuilder(Some(["A", "B", "C"]), Some(A4), 2, 1);
    r := b.Build();
    assert ["A", "B", "C"] + seq(1, _ => "") == ["A", "B", "C", ""];
    GlyphCodesOfPlan(["A", "B", "C", ""], StyleOf(b.State()));
    assert NonEmptyCodes(["A", "B", "C", ""]) == ["A", "B", "C"];
  }
}
