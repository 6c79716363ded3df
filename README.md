# Barcode sheet builder — Dafny model

This project models the configuration, validation and layout logic of
`BarcodeSheetBuilder` and its `SheetMargin` helper. The builder takes a list
of codes, a page size and a grid of columns by rows. It lays the codes out as
a table of Code 128 barcode cells on a PDF page.

- `Units` (`units.dfy`): `MMToPixel`, millimetres to points at 72 points per inch.
- `Margins` (`sheet_margin.dfy`): `SheetMargin` as a value. It has its zero
  constructor, its millimetre construction and its ordered sign check.
- `SheetConfig` (`sheet_config.dfy`): the builder's state as a `Config` record
  and the error kinds. It gives the pure meaning of `Validate`: `FirstFailure`
  is the ordered fail-fast chain, and `Normalize` is the in-place
  normalisation. The lemmas about both live here.
- `Layout` (`layout.dfy`): the row and bar height formulas of `Build`, the
  abstract cell record, and the `foreach` loop that makes one cell per code
  (`PlanCells`). `Render` is the table that `Build` hands to the PDF writer.
- `BarcodeSheet` (`barcode_sheet_builder.dfy`): the `BarcodeSheetBuilder`
  class. It has one mutable field per private property of the C# class, fluent
  setters, `Validate` and `Build`. It also holds the scenarios of the unit tests.

## Behaviour worth knowing

- **Padding.** `Validate` appends `|codes| % column` empty codes. The padded
  count is a multiple of the column count only when `n % c == 0` or
  `2 * (n % c) == c` (`PaddedRowCompleteIff`). For example, four codes in three
  columns become five codes, so the last row has two cells out of three
  (`PaddingMayLeaveShortRow`).
- **Re-running `Validate`.** Over the reals, a second `Validate` (a second
  `Build` on the same builder) always passes its checks. It leaves the state
  unchanged only when the first padding left `n % c == 0` or `2 * (n % c) == c`;
  otherwise it pads again (`NormalizeTwiceIff`). In single precision the second
  run can instead fail the width-sum check (BarcodeSheetBuilder.cs:118): with 45
  columns the synthesised widths of `100f / 45` do not sum to exactly 100, so a
  second `Build` throws where the first succeeded.
- **Default margin.** A missing margin becomes the all-zero `SheetMargin`
  produced by its parameterless constructor.
- **Barcode height.** `SetBarCodeHeight` stores the height converted to points.
  The 86.5 clamp compares against that point value. `Build` then reads the same
  value as a percentage of half the cell's content height.

## Model

| member | source | states |
|---|---|---|
| Units.MMToPixel | BarcodeSheet/BarcodeSheetBuilder.cs:200-203 | The conversion is mm·72/25.4; zero maps to zero and the sign of the result is the sign of the input |
| Units.InchIsFileDpiPoints | BarcodeSheet/BarcodeSheetBuilder.cs:12 | 25.4 mm (one inch) converts to exactly FILE_DPI = 72 points |
| Units.MMToPixelLinear | BarcodeSheet/BarcodeSheetBuilder.cs:200-203 | The conversion is additive and homogeneous (linear) |
| Units.MMToPixelMonotone | BarcodeSheet/BarcodeSheetBuilder.cs:200-203 | The conversion preserves order in both directions and is injective |
| Margins.Zero | BarcodeSheet/BarcodeSheetBuilder.cs:224-227 | The parameterless SheetMargin has all four edges 0, so it is a valid margin |
| Margins.FromMillimetres | BarcodeSheet/BarcodeSheetBuilder.cs:52-56 | Each edge is the point value of its millimetre input; the margin is non-negative iff no input is negative |
| Margins.Validate | BarcodeSheet/BarcodeSheetBuilder.cs:237-243 | Passes iff all four edges are ≥ 0; otherwise it reports a negative edge, and every edge checked before it (order left, right, top, bottom) is non-negative |
| SheetConfig.FirstFailure | BarcodeSheet/BarcodeSheetBuilder.cs:113-127 | The ordered check chain of Validate, with the width sum of line 118; an error it reports is a violated requirement; its order is characterised by FirstFailureIsFirstViolation |
| SheetConfig.FirstFailureIsFirstViolation | BarcodeSheet/BarcodeSheetBuilder.cs:113-127 | Validate passes iff no requirement is violated; the error it reports is a violated requirement, and no requirement earlier in the order (page size, codes, column, row, width count, width sum, margin edges) is violated |
| SheetConfig.MillimetreMarginCheck | BarcodeSheet/BarcodeSheetBuilder.cs:52-56 | With margins set in mm and the other checks passing, Validate rejects iff some mm input is negative; the error is a margin error (a plain Exception, not BarcodeSheetException), and a negative left edge is always the one reported |
| SheetConfig.ClampedHeight | BarcodeSheet/BarcodeSheetBuilder.cs:129 | With text shown the height is ≤ 86.5, and a height above 86.5 becomes exactly 86.5; with text hidden or the height already ≤ 86.5 it is unchanged; the height never grows |
| SheetConfig.EqualWidths | BarcodeSheet/BarcodeSheetBuilder.cs:131-135 | Synthesised widths: `column` entries, each equal to 100/column |
| SheetConfig.EqualWidthsSumTo100 | BarcodeSheet/BarcodeSheetBuilder.cs:131-135 | Over the reals the synthesised widths sum to exactly 100, so they pass the sum check |
| SheetConfig.Padded | BarcodeSheet/BarcodeSheetBuilder.cs:137 | The padded list is the old list (prefix and order kept) followed by exactly `count % column` empty strings |
| SheetConfig.PaddedRowCompleteIff | BarcodeSheet/BarcodeSheetBuilder.cs:137 | The padded count is a multiple of the column count iff `n % c == 0` or `2·(n % c) == c` |
| SheetConfig.PaddingMayLeaveShortRow | BarcodeSheet/BarcodeSheetBuilder.cs:137 | The general claim "the padded count is a multiple of the column count" is false (4 codes, 3 columns) |
| SheetConfig.Normalize | BarcodeSheet/BarcodeSheetBuilder.cs:120-137 | On success: a supplied margin is kept and a missing one becomes zero, so the margin is non-negative; the height is clamped; supplied widths pass through and missing ones are synthesised; the codes are padded; all other fields are unchanged |
| SheetConfig.NormalizeIsValidated | BarcodeSheet/BarcodeSheetBuilder.cs:111-139 | After a successful Validate the page size is set, codes are non-empty, column and row ≥ 1, widths have length column and sum 100, all margin edges are ≥ 0, and the height is ≤ 86.5 when text is shown |
| SheetConfig.ValidatedPassesChecks | BarcodeSheet/BarcodeSheetBuilder.cs:113-127 | A configuration in the post-validation state passes every check of Validate again |
| SheetConfig.NormalizeTwiceIff | BarcodeSheet/BarcodeSheetBuilder.cs:111-139 | A second Validate passes, and it leaves the state unchanged iff the first padding left `n % c == 0` or `2·(n % c) == c` |
| Layout.RowHeight | BarcodeSheet/BarcodeSheetBuilder.cs:159 | `row` rows plus their 0.001 slack fill exactly the height between the top and bottom margins, so the rows together stay strictly inside it |
| Layout.BarHeight | BarcodeSheet/BarcodeSheetBuilder.cs:160 | A zero barcode height gives a zero bar height |
| Layout.BarHeightWithinHalfContent | BarcodeSheet/BarcodeSheetBuilder.cs:160 | For percentages in [0, 100] and padding that fits the row, the bar height is non-negative, grows with the percentage, and is at most half the content height (exactly half at 100) |
| Layout.CellFor | BarcodeSheet/BarcodeSheetBuilder.cs:164-183 | Each cell has the row height as fixed height, the cell padding, and a border iff withBorder; it holds a barcode iff its code is not "". The barcode carries that code, the caption flag, and the custom bar height (present iff the barcode height is > 0) |
| Layout.CellPlan | BarcodeSheet/BarcodeSheetBuilder.cs:162-186 | Exactly one cell per code, and cell i is the cell for code i |
| Layout.PlanCells | BarcodeSheet/BarcodeSheetBuilder.cs:162-186 | The foreach loop produces one cell per code, in list order, each the cell for its code |
| Layout.GlyphCodesOfPlan | BarcodeSheet/BarcodeSheetBuilder.cs:176-183 | The codes that get a barcode are exactly the non-empty codes, in order |
| Layout.NonEmptyCodesIgnoresBlanks | BarcodeSheet/BarcodeSheetBuilder.cs:137 | Appending empty placeholders adds no barcode code |
| Layout.StyleOf | BarcodeSheet/BarcodeSheetBuilder.cs:159-179 | The row height is RowHeight of the page height, top and bottom margins and row count; the custom bar height is present iff the barcode height is > 0 and is then BarHeight of that row height, the padding and the barcode height; the cell padding, border flag and caption flag are the configured ones |
| Layout.Render | BarcodeSheet/BarcodeSheetBuilder.cs:145-152 | The document has the configured page size and the (non-negative) validated margin; the table has `column` columns whose widths are the validated or synthesised widths passed through unchanged (summing to 100) and spans the page width; its cells are the cell plan of the codes; the file is the configured one |
| Layout.RenderKeepsEveryCode | BarcodeSheet/BarcodeSheetBuilder.cs:137-186 | For a configuration that validates: `n + n % column` cells; the first n are the cells of the original codes in order; the rest are blank cells with the same height, padding and border; the barcodes are exactly the non-empty original codes, none dropped or reordered |
| Layout.ValidatedBarLeavesRoomForText | BarcodeSheet/BarcodeSheetBuilder.cs:129 | After Validate with text shown and a custom height, the bar is at most 86.5 % of half the content height (when the padding fits in the row) |
| BarcodeSheet.BarcodeSheetBuilder.constructor | BarcodeSheet/BarcodeSheetBuilder.cs:13-31 | Stores codes, page size, column and row; every other field has its declared default (no margin, no widths, height 0, text shown, no border, padding 25, no file) |
| BarcodeSheet.BarcodeSheetBuilder.SetColumnPercentWidth | BarcodeSheet/BarcodeSheetBuilder.cs:38-42 | Stores the widths unchecked, changes nothing else, returns the same builder |
| BarcodeSheet.BarcodeSheetBuilder.SetPageMargins | BarcodeSheet/BarcodeSheetBuilder.cs:52-56 | Stores the margin converted from mm, changes nothing else, returns the same builder |
| BarcodeSheet.BarcodeSheetBuilder.SetBarCodeHeight | BarcodeSheet/BarcodeSheetBuilder.cs:63-67 | Stores the height converted from mm, changes nothing else, returns the same builder |
| BarcodeSheet.BarcodeSheetBuilder.WithBarcodeText | BarcodeSheet/BarcodeSheetBuilder.cs:74-78 | Stores the caption flag, changes nothing else, returns the same builder |
| BarcodeSheet.BarcodeSheetBuilder.SetCellPadding | BarcodeSheet/BarcodeSheetBuilder.cs:85-89 | Stores the padding converted from mm, changes nothing else, returns the same builder |
| BarcodeSheet.BarcodeSheetBuilder.WithBorder | BarcodeSheet/BarcodeSheetBuilder.cs:95-99 | Stores the border flag, changes nothing else, returns the same builder |
| BarcodeSheet.BarcodeSheetBuilder.ToFile | BarcodeSheet/BarcodeSheetBuilder.cs:105-109 | Stores the file path, changes nothing else, returns the same builder |
| BarcodeSheet.BarcodeSheetBuilder.Validate | BarcodeSheet/BarcodeSheetBuilder.cs:111-139 | Returns the first failing check; on any failure (including a margin failure) no field changes; on success the fields become the normalised state, which satisfies every post-validation invariant |
| BarcodeSheet.BarcodeSheetBuilder.Build | BarcodeSheet/BarcodeSheetBuilder.cs:141-194 | A failed check becomes the error and nothing changes; otherwise the fields are normalised and the result is the rendering of the normalised state |
| BarcodeSheet.NullCodesAreRejected | BarcodeSheet.Test/BarcodeSheetTests.cs:16-20 | Null codes give the codes error, a BarcodeSheetException |
| BarcodeSheet.ZeroColumnsAreRejected | BarcodeSheet.Test/BarcodeSheetTests.cs:22-26 | Column 0 gives the column error, a BarcodeSheetException |
| BarcodeSheet.ZeroRowsAreRejected | BarcodeSheet.Test/BarcodeSheetTests.cs:28-32 | Row 0 gives the row error, a BarcodeSheetException |
| BarcodeSheet.OneWidthForTwoColumnsIsRejected | BarcodeSheet.Test/BarcodeSheetTests.cs:34-38 | One width for two columns gives the width-count error |
| BarcodeSheet.WidthsSummingTo110AreRejected | BarcodeSheet.Test/BarcodeSheetTests.cs:40-44 | Widths 50 and 60 give the width-sum error |
| BarcodeSheet.TwoCodesOneColumn | BarcodeSheet.Test/BarcodeSheetTests.cs:46-50 | Two codes in one column build: two barcode cells, no placeholder, a single 100 % column |
| BarcodeSheet.SixteenCodesToFile | BarcodeSheet.Test/BarcodeSheetTests.cs:52-85 | Sixteen codes on a 2 × 6 sheet build: 16 cells, two 50 % columns, the mm margins and padding converted, and the file recorded |
| BarcodeSheet.ThreeCodesTwoColumns | BarcodeSheet/BarcodeSheetBuilder.cs:137-186 | Three codes in two columns give four cells: A, B, C and a blank last cell |

## Left out

- PDF production: iTextSharp `Document`, `PdfPTable`, `PdfWriter`, `Barcode128`, `Image` and the `MemoryStream` are not modelled. `Build` returns the abstract `Sheet` that would be handed to the writer, not PDF bytes. The barcode settings that never vary are not represented: checksum generation, module width 1, the cells' centre/middle alignment, `LockedWidth`, and the table's `HorizontalAlignment = 1` (the table centred on the page).
- How the PDF writer treats a last table row that is not full is not part of this model.
- `SaveToFile`: file-system I/O is not modelled. The file path is carried into the `Sheet`. The file-existence assertion of the to-file test is not modelled.
- Units.MMToPixel: computed over the reals, not in IEEE single precision. The same holds for the layout formulas, `100f / column`, and the exact `Sum() != 100` comparison. The model does not capture float rounding. For example, the 45 synthesised widths of `100f / 45` do not sum to exactly 100 in float, so re-validating such a builder fails the sum check, while the model proves that it passes. NaN inputs, which pass every `< 0` test, are not modelled either.
- The codes list is shared with the caller in C#, so `Validate`'s `AddRange` also grows the caller's list. The model holds the codes as a value, so it does not capture that aliasing.
- The width array is stored by reference in C#, so the caller's later writes to it change what `Validate` checks and what `Build` uses. The model stores the widths as a value, so it does not capture that aliasing.
- A C# code list may hold a null element. `Validate` accepts and pads such a list, and `Build` then throws a NullReferenceException at `code.Equals("")` after the fields are already normalised. `seq<string>` cannot hold null, so the model's `Build` succeeds for every configuration that validates and does not capture that failure.
- Exception messages are not modelled. A `BuildError` names only which check failed and whether it is a `BarcodeSheetException` or a plain `Exception`.
- `SheetMargin` is a value in the model. Its public setters are never used by the builder, so nothing depends on updating it in place.
- The optional parameters `withText = true` and `withBorder = true` of the two flag setters are passed explicitly in the model.
