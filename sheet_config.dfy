/**
 * The configuration the builder accumulates, and what BarcodeSheetBuilder.Validate
 * does with it: an ordered, fail-fast chain of checks followed by an in-place
 * normalisation (default margin, height clamp, equal column widths, padding of
 * the code list).
 */
module SheetConfig {
  import opened Wrappers
  import opened Margins

  /** The iTextSharp page rectangle; only its width and height are used. */
  datatype PageSize = PageSize(width: real, height: real)

  /** The builder's private state, one field per property of BarcodeSheetBuilder. */
  datatype Config = Config(
    codes: Option<seq<string>>,
    pageSize: Option<PageSize>,
    sheetMargin: Option<SheetMargin>,
    column: int,
    row: int,
    columnPercentWidth: Option<seq<real>>,
    barcodeHeight: real,
    withBarcodeText: bool,
    withBorder: bool,
    cellPadding: real,
    filePath: Option<string>)

  /**
   * Why Validate rejects a configuration. The first six are thrown as
   * BarcodeSheetException; a negative margin edge is thrown by SheetMargin as a
   * plain Exception.
   */
  datatype BuildError =
    | PageSizeNull
    | CodesNullOrEmpty
    | ColumnBelowOne
    | RowBelowOne
    | WidthCountMismatch
    | WidthSumNot100
    | MarginNegative(edge: Edge)

  predicate IsBarcodeSheetException(e: BuildError)
  {
    !e.MarginNegative?
  }

  /** Largest barcode height kept when the text is shown below the barcode. */
  const MaxBarcodeHeightWithText: real := 86.5

  /** Initial cell padding, in points. */
  const DefaultCellPadding: real := 25.0

  /** The sum of the column percentages (Enumerable.Sum). */
  function Sum(s: seq<real>): real
  {
    if s == [] then 0.0 else s[0] + Sum(s[1..])
  }

  /** The checks of Validate, in order; the first that fails decides the error. */
  function FirstFailure(c: Config): (r: Option<BuildError>)
    ensures r.Some? ==> Violated(c, r.value)
  {
    if c.pageSize.None? then Some(PageSizeNull)
    else if c.codes.None? || |c.codes.value| == 0 then Some(CodesNullOrEmpty)
    else if c.column < 1 then Some(ColumnBelowOne)
    else if c.row < 1 then Some(RowBelowOne)
    else if c.columnPercentWidth.Some? && |c.columnPercentWidth.value| != c.column then Some(WidthCountMismatch)
    else if c.columnPercentWidth.Some? && Sum(c.columnPercentWidth.value) != 100.0 then Some(WidthSumNot100)
    else if c.sheetMargin.Some? && Margins.Validate(c.sheetMargin.value).Some? then
      Some(MarginNegative(Margins.Validate(c.sheetMargin.value).value))
    else None
  }

  /** Position of each error in the check order. */
  function Rank(e: BuildError): nat
  {
    match e
    case PageSizeNull => 0
    case CodesNullOrEmpty => 1
    case ColumnBelowOne => 2
    case RowBelowOne => 3
    case WidthCountMismatch => 4
    case WidthSumNot100 => 5
    case MarginNegative(edge) => 6 + EdgeRank(edge)
  }

  /** Whether a configuration breaks the requirement an error names, regardless of order. */
  predicate Violated(c: Config, e: BuildError)
  {
    match e
    case PageSizeNull => c.pageSize.None?
    case CodesNullOrEmpty => c.codes.None? || c.codes.value == []
    case ColumnBelowOne => c.column < 1
    case RowBelowOne => c.row < 1
    case WidthCountMismatch => c.columnPercentWidth.Some? && |c.columnPercentWidth.value| != c.column
    case WidthSumNot100 => c.columnPercentWidth.Some? && Sum(c.columnPercentWidth.value) != 100.0
    case MarginNegative(edge) => c.sheetMargin.Some? && Get(c.sheetMargin.value, edge) < 0.0
  }

  /**
   * The error Validate reports is the violated requirement that comes first in
   * the check order, and Validate passes exactly when no requirement is violated.
   */
  lemma FirstFailureIsFirstViolation(c: Config)
    ensures FirstFailure(c).None? <==> forall e :: !Violated(c, e)
    ensures FirstFailure(c).Some? ==> Violated(c, FirstFailure(c).value)
    ensures FirstFailure(c).Some? ==>
      forall e :: Rank(e) < Rank(FirstFailure(c).value) ==> !Violated(c, e)
  {
    var f := FirstFailure(c);
    if f.None? {
      forall e ensures !Violated(c, e) {
        if e.MarginNegative? && c.sheetMargin.Some? {
          assert NonNegative(c.sheetMargin.value);
        }
      }
    } else {
      assert Violated(c, f.value) by {
        if f.value.MarginNegative? {
          assert Get(c.sheetMargin.value, f.value.edge) < 0.0;
        }
      }
      forall e | Rank(e) < Rank(f.value) ensures !Violated(c, e) {
        if e.MarginNegative? {
          assert f.value.MarginNegative? && EdgeRank(e.edge) < EdgeRank(f.value.edge);
        }
      }
    }
  }

  /**
   * Margins set in millimetres: when the six builder checks pass, Validate
   * rejects the margin exactly when one of the millimetre inputs is negative,
   * naming the first such edge, with a plain Exception.
   */
  lemma MillimetreMarginCheck(c: Config, left: real, right: real, top: real, bottom: real)
    requires FirstFailure(c.(sheetMargin := None)).None?
    ensures var f := FirstFailure(c.(sheetMargin := Some(FromMillimetres(left, right, top, bottom))));
      && (f.None? <==> left >= 0.0 && right >= 0.0 && top >= 0.0 && bottom >= 0.0)
      && (f.Some? ==> f.value.MarginNegative? && !IsBarcodeSheetException(f.value))
      && (f == Some(MarginNegative(Left)) <==> left < 0.0)
  {
  }

  /** Height after the clamp of Validate: capped at 86.5 only when the text is shown. */
  function ClampedHeight(height: real, withText: bool): (h: real)
    ensures withText ==> h <= MaxBarcodeHeightWithText
    ensures !withText || height <= MaxBarcodeHeightWithText ==> h == height
    ensures withText && height > MaxBarcodeHeightWithText ==> h == MaxBarcodeHeightWithText
    ensures h <= height
  {
    if height > MaxBarcodeHeightWithText && withText then MaxBarcodeHeightWithText else height
  }

  /** The widths Validate synthesises when none were set: `column` equal shares of 100. */
  function EqualWidths(column: int): (w: seq<real>)
    requires column >= 1
    ensures |w| == column
    ensures forall i :: 0 <= i < |w| ==> w[i] == 100.0 / column as real
  {
    seq(column, _ => 100.0 / column as real)
  }

  /** The code list after Validate: `|codes| % column` empty strings appended. */
  function Padded(codes: seq<string>, column: int): (p: seq<string>)
    requires column >= 1
    ensures |p| == |codes| + |codes| % column
    ensures p[..|codes|] == codes
    ensures forall i :: |codes| <= i < |p| ==> p[i] == ""
  {
    codes + seq(|codes| % column, _ => "")
  }

  /** The state Validate leaves behind when every check passes. */
  function Normalize(c: Config): (n: Config)
    requires FirstFailure(c).None?
    ensures n.sheetMargin.Some? && NonNegative(n.sheetMargin.value)
    ensures c.sheetMargin.Some? ==> n.sheetMargin == c.sheetMargin
    ensures c.sheetMargin.None? ==> n.sheetMargin == Some(Zero())
    ensures n.barcodeHeight == ClampedHeight(c.barcodeHeight, c.withBarcodeText)
    ensures n.columnPercentWidth == if c.columnPercentWidth.Some? then c.columnPercentWidth else Some(EqualWidths(c.column))
    ensures n.codes == Some(Padded(c.codes.value, c.column))
    ensures n.pageSize == c.pageSize && n.column == c.column && n.row == c.row
    ensures n.withBarcodeText == c.withBarcodeText && n.withBorder == c.withBorder
    ensures n.cellPadding == c.cellPadding && n.filePath == c.filePath
  {
    c.(sheetMargin := if c.sheetMargin.None? then Some(Zero()) else c.sheetMargin,
       barcodeHeight := ClampedHeight(c.barcodeHeight, c.withBarcodeText),
       columnPercentWidth := if c.columnPercentWidth.None? then Some(EqualWidths(c.column)) else c.columnPercentWidth,
       codes := Some(Padded(c.codes.value, c.column)))
  }

  /** What holds of the builder after a successful Validate. */
  predicate Validated(c: Config)
  {
    && c.pageSize.Some?
    && c.codes.Some? && |c.codes.value| > 0
    && c.column >= 1 && c.row >= 1
    && c.columnPercentWidth.Some?
    && |c.columnPercentWidth.value| == c.column
    && Sum(c.columnPercentWidth.value) == 100.0
    && c.sheetMargin.Some? && NonNegative(c.sheetMargin.value)
    && (c.withBarcodeText ==> c.barcodeHeight <= MaxBarcodeHeightWithText)
  }

  /** `n` copies of `x` sum to `n * x`. */
  lemma {:induction false} SumOfCopies(n: nat, x: real)
    ensures Sum(seq(n, _ => x)) == n as real * x
  {
    if n > 0 {
      var s := seq(n, _ => x);
      assert s[1..] == seq(n - 1, _ => x);
      assert Sum(s) == s[0] + Sum(s[1..]);
      SumOfCopies(n - 1, x);
      assert n as real * x == x + (n - 1) as real * x;
    }
  }

  /** The synthesised widths sum to exactly 100 (over the reals). */
  lemma EqualWidthsSumTo100(column: int)
    requires column >= 1
    ensures Sum(EqualWidths(column)) == 100.0
  {
    SumOfCopies(column, 100.0 / column as real);
  }

  /** A successful Validate establishes every post-validation invariant. */
  lemma NormalizeIsValidated(c: Config)
    requires FirstFailure(c).None?
    ensures Validated(Normalize(c))
  {
    if c.columnPercentWidth.None? {
      EqualWidthsSumTo100(c.column);
    }
  }

  /** A validated configuration passes all checks again. */
  lemma ValidatedPassesChecks(c: Config)
    requires Validated(c)
    ensures FirstFailure(c).None?
  {
  }

  /** Euclidean division is unique: quotient and remainder are determined by `x == q * c + m`. */
  lemma DivModUnique(x: int, c: int, q: int, m: int)
    requires c >= 1 && 0 <= m < c && x == q * c + m
    ensures x % c == m
  {
    var d := q - x / c;
    assert d * c == x % c - m;
  }

  /**
   * The padding of Validate makes the code count a multiple of the column count
   * exactly when the count already was one, or when the remainder is half the
   * column count. It is not "padding to the next multiple".
   */
  lemma PaddedRowCompleteIff(n: nat, c: int)
    requires c >= 1
    ensures (n + n % c) % c == 0 <==> n % c == 0 || 2 * (n % c) == c
  {
    var q, r := n / c, n % c;
    assert n + r == q * c + 2 * r;
    if 2 * r < c {
      DivModUnique(n + r, c, q, 2 * r);
    } else {
      assert n + r == (q + 1) * c + (2 * r - c);
      DivModUnique(n + r, c, q + 1, 2 * r - c);
    }
  }

  /** The general claim "the padded count is a multiple of the column count" is false. */
  lemma PaddingMayLeaveShortRow()
    ensures exists codes: seq<string>, c: int :: c >= 1 && |Padded(codes, c)| % c != 0
  {
    var codes := ["A", "B", "C", "D"];
    assert |Padded(codes, 3)| == 5;
  }

  /**
   * Running Validate a second time passes its checks and changes nothing exactly
   * when the first padding left a complete last row.
   */
  lemma NormalizeTwiceIff(c: Config)
    requires FirstFailure(c).None?
    ensures FirstFailure(Normalize(c)).None?
    ensures Normalize(Normalize(c)) == Normalize(c) <==>
      var r := |c.codes.value| % c.column; r == 0 || 2 * r == c.column
  {
    NormalizeIsValidated(c);
    var n := Normalize(c);
    var p := n.codes.value;
    PaddedRowCompleteIff(|c.codes.value|, c.column);
    assert Normalize(n) == n.(codes := Some(Padded(p, c.column)));
    assert Padded(p, c.column) == p <==> |p| % c.column == 0;
  }
}
