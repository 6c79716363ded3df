/**
 * The unit converter of the builder: millimetres to PDF points, at a fixed
 * 72 points per inch (BarcodeSheetBuilder.MMToPixel).
 */
module Units {

  /** FILE_DPI: points per inch of the generated document. */
  const FileDpi: int := 72

  /** Millimetres per inch. */
  const MillimetresPerInch: real := 25.4

  /**
   * mm * FILE_DPI / 25.4. Any sign is accepted; the sign of the result is the
   * sign of the input, which is what lets the margin check, done in points,
   * reject exactly the margins given as negative millimetres.
   */
  function MMToPixel(mm: real): (px: real)
    ensures px == 0.0 <==> mm == 0.0
    ensures px < 0.0 <==> mm < 0.0
    ensures px * MillimetresPerInch == mm * FileDpi as real
  {
    (mm * FileDpi as real) / MillimetresPerInch
  }

  /** One inch converts to exactly FILE_DPI points. */
  lemma InchIsFileDpiPoints()
    ensures MMToPixel(MillimetresPerInch) == FileDpi as real
  {
  }

  /** The conversion is linear. */
  lemma MMToPixelLinear(a: real, b: real, k: real)
    ensures MMToPixel(a + b) == MMToPixel(a) + MMToPixel(b)
    ensures MMToPixel(k * a) == k * MMToPixel(a)
  {
  }

  /** The conversion is strictly monotone, hence order-preserving and injective. */
  lemma MMToPixelMonotone(a: real, b: real)
    ensures a <= b <==> MMToPixel(a) <= MMToPixel(b)
    ensures a == b <==> MMToPixel(a) == MMToPixel(b)
  {
  }
}
