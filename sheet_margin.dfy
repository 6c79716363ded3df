/**
 * SheetMargin: the four page margins of the sheet, in points, and their
 * own sign check.
 */
module Margins {
  import opened Wrappers
  import opened Units

  /** The four edges, in the order in which SheetMargin.Validate checks them. */
  datatype Edge = Left | Right | Top | Bottom

  datatype SheetMargin = SheetMargin(left: real, right: real, top: real, bottom: real)

  /** Position of an edge in the check order of SheetMargin.Validate. */
  function EdgeRank(e: Edge): nat
  {
    match e
    case Left => 0
    case Right => 1
    case Top => 2
    case Bottom => 3
  }

  /** The distance of one edge. */
  function Get(m: SheetMargin, e: Edge): real
  {
    match e
    case Left => m.left
    case Right => m.right
    case Top => m.top
    case Bottom => m.bottom
  }

  /** The margin invariant: no edge is negative. */
  predicate NonNegative(m: SheetMargin)
  {
    forall e :: Get(m, e) >= 0.0
  }

  /** The parameterless constructor: every float property keeps its default 0. */
  function Zero(): (m: SheetMargin)
    ensures forall e :: Get(m, e) == 0.0
    ensures NonNegative(m)
  {
    SheetMargin(0.0, 0.0, 0.0, 0.0)
  }

  /**
   * The margin that BarcodeSheetBuilder.SetPageMargins builds: every edge is
   * converted from millimetres to points. The result is a valid margin exactly
   * when no millimetre input is negative.
   */
  function FromMillimetres(left: real, right: real, top: real, bottom: real): (m: SheetMargin)
    ensures Get(m, Left) == MMToPixel(left) && Get(m, Right) == MMToPixel(right)
    ensures Get(m, Top) == MMToPixel(top) && Get(m, Bottom) == MMToPixel(bottom)
    ensures NonNegative(m) <==> left >= 0.0 && right >= 0.0 && top >= 0.0 && bottom >= 0.0
  {
    var m := SheetMargin(MMToPixel(left), MMToPixel(right), MMToPixel(top), MMToPixel(bottom));
    assert Get(m, Left) == m.left && Get(m, Right) == m.right;
    assert Get(m, Top) == m.top && Get(m, Bottom) == m.bottom;
    m
  }

  /**
   * SheetMargin.Validate: `None` when every edge is non-negative, otherwise the
   * first negative edge in the order left, right, top, bottom (the edge whose
   * exception is thrown).
   */
  function Validate(m: SheetMargin): (r: Option<Edge>)
    ensures r.None? <==> NonNegative(m)
    ensures r.Some? ==> Get(m, r.value) < 0.0
    ensures r.Some? ==> forall e :: EdgeRank(e) < EdgeRank(r.value) ==> Get(m, e) >= 0.0
  {
    if m.left < 0.0 then Some(Left)
    else if m.right < 0.0 then Some(Right)
    else if m.top < 0.0 then Some(Top)
    else if m.bottom < 0.0 then Some(Bottom)
    else None
  }
}
