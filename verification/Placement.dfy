/** Nine-anchor placement of a watermark overlay (`ImageWatermarkProcess`). The Go code
    writes the placement switch twice, once for picture and once for text overlays; both
    copies are modelled and proved equal to one column-by-row reference definition. */
module Placement {
  import opened GoInt
  import opened Plans

  /** The top-left corner of the overlay relative to the base image's top-left corner;
      either coordinate may be negative. */
  datatype Offset = Offset(x: int, y: int)

  datatype Column = LeftColumn | MiddleColumn | RightColumn

  datatype Row = TopRow | MiddleRow | BottomRow

  /** The anchor's column; an unrecognised anchor sits with the East column. */
  function ColumnOf(a: Anchor): Column {
    match a
    case NorthWest | West | SouthWest => LeftColumn
    case North | Center | South => MiddleColumn
    case NorthEast | East | SouthEast | Unrecognised(_) => RightColumn
  }

  /** The anchor's row; an unrecognised anchor sits with the South row. */
  function RowOf(a: Anchor): Row {
    match a
    case NorthWest | North | NorthEast => TopRow
    case West | Center | East => MiddleRow
    case SouthWest | South | SouthEast | Unrecognised(_) => BottomRow
  }

  /** Horizontal offset of a column: the margin from the left edge, centred, or the
      margin from the right edge. */
  function ColumnX(c: Column, originWidth: int, wmWidth: int, xMargin: int): int {
    match c
    case LeftColumn => xMargin
    case MiddleColumn => GoDiv(Sub(originWidth, wmWidth), 2)
    case RightColumn => Sub(Sub(originWidth, xMargin), wmWidth)
  }

  /** Vertical offset of a row: the margin from the top edge, centred and raised by
      `voffset`, or the margin from the bottom edge. */
  function RowY(r: Row, originHeight: int, wmHeight: int, yMargin: int, voffset: int): int {
    match r
    case TopRow => yMargin
    case MiddleRow => Sub(GoDiv(Sub(originHeight, wmHeight), 2), voffset)
    case BottomRow => Sub(Sub(originHeight, yMargin), wmHeight)
  }

  /** Reference placement: x is a function of the anchor's column alone, y of its row. */
  function GridOffset(plan: WatermarkPlan, originWidth: int, originHeight: int, wmWidth: int, wmHeight: int): Offset {
    Offset(
      ColumnX(ColumnOf(plan.position), originWidth, wmWidth, plan.xMargin),
      RowY(RowOf(plan.position), originHeight, wmHeight, plan.yMargin, plan.voffset))
  }

  /** The placement switch of the picture-overlay path. */
  function PictureOffset(plan: WatermarkPlan, originWidth: int, originHeight: int, wmWidth: int, wmHeight: int): (r: Offset)
    ensures r == GridOffset(plan, originWidth, originHeight, wmWidth, wmHeight)
  {
    match plan.position
    case NorthWest =>
      Offset(plan.xMargin, plan.yMargin)
    case North =>
      Offset(GoDiv(Sub(originWidth, wmWidth), 2), plan.yMargin)
    case NorthEast =>
      Offset(Sub(Sub(originWidth, plan.xMargin), wmWidth), plan.yMargin)
    case West =>
      Offset(plan.xMargin, Sub(GoDiv(Sub(originHeight, wmHeight), 2), plan.voffset))
    case Center =>
      Offset(GoDiv(Sub(originWidth, wmWidth), 2), Sub(GoDiv(Sub(originHeight, wmHeight), 2), plan.voffset))
    case East =>
      Offset(Sub(Sub(originWidth, plan.xMargin), wmWidth), Sub(GoDiv(Sub(originHeight, wmHeight), 2), plan.voffset))
    case SouthWest =>
      Offset(plan.xMargin, Sub(Sub(originHeight, plan.yMargin), wmHeight))
    case South =>
      Offset(GoDiv(Sub(originWidth, wmWidth), 2), Sub(Sub(originHeight, plan.yMargin), wmHeight))
    case SouthEast =>
      Offset(Sub(Sub(originWidth, plan.xMargin), wmWidth), Sub(Sub(originHeight, plan.yMargin), wmHeight))
    case Unrecognised(_) =>
      Offset(Sub(Sub(originWidth, plan.xMargin), wmWidth), Sub(Sub(originHeight, plan.yMargin), wmHeight))
  }

  /** The placement switch of the text-overlay path, a separate copy in the Go code. */
  function TextOffset(plan: WatermarkPlan, originWidth: int, originHeight: int, wmWidth: int, wmHeight: int): (r: Offset)
    ensures r == GridOffset(plan, originWidth, originHeight, wmWidth, wmHeight)
  {
    match plan.position
    case NorthWest =>
      Offset(plan.xMargin, plan.yMargin)
    case North =>
      Offset(GoDiv(Sub(originWidth, wmWidth), 2), plan.yMargin)
    case NorthEast =>
      Offset(Sub(Sub(originWidth, plan.xMargin), wmWidth), plan.yMargin)
    case West =>
      Offset(plan.xMargin, Sub(GoDiv(Sub(originHeight, wmHeight), 2), plan.voffset))
    case Center =>
      Offset(GoDiv(Sub(originWidth, wmWidth), 2), Sub(GoDiv(Sub(originHeight, wmHeight), 2), plan.voffset))
    case East =>
      Offset(Sub(Sub(originWidth, plan.xMargin), wmWidth), Sub(GoDiv(Sub(originHeight, wmHeight), 2), plan.voffset))
    case SouthWest =>
      Offset(plan.xMargin, Sub(Sub(originHeight, plan.yMargin), wmHeight))
    case South =>
      Offset(GoDiv(Sub(originWidth, wmWidth), 2), Sub(Sub(originHeight, plan.yMargin), wmHeight))
    case SouthEast =>
      Offset(Sub(Sub(originWidth, plan.xMargin), wmWidth), Sub(Sub(originHeight, plan.yMargin), wmHeight))
    case Unrecognised(_) =>
      Offset(Sub(Sub(originWidth, plan.xMargin), wmWidth), Sub(Sub(originHeight, plan.yMargin), wmHeight))
  }

  /** The two overlay paths place an overlay of the same size identically. */
  lemma OverlayPathsAgree(plan: WatermarkPlan, originWidth: int, originHeight: int, wmWidth: int, wmHeight: int)
    ensures PictureOffset(plan, originWidth, originHeight, wmWidth, wmHeight)
         == TextOffset(plan, originWidth, originHeight, wmWidth, wmHeight)
  {
  }

  /** The `default` branch of both switches is the SouthEast case. */
  lemma UnrecognisedIsSouthEast(plan: WatermarkPlan, originWidth: int, originHeight: int, wmWidth: int, wmHeight: int)
    requires plan.position.Unrecognised?
    ensures PictureOffset(plan, originWidth, originHeight, wmWidth, wmHeight)
         == PictureOffset(plan.(position := SouthEast), originWidth, originHeight, wmWidth, wmHeight)
    ensures TextOffset(plan, originWidth, originHeight, wmWidth, wmHeight)
         == TextOffset(plan.(position := SouthEast), originWidth, originHeight, wmWidth, wmHeight)
  {
  }

  /** In the range of real image sizes and margins (well inside Go's `int`), no
      subtraction wraps and the offsets are the exact integer formulas. */
  lemma ExactWithinInt64(plan: WatermarkPlan, originWidth: int, originHeight: int, wmWidth: int, wmHeight: int)
    requires Abs(originWidth) < 0x1000_0000_0000_0000 && Abs(originHeight) < 0x1000_0000_0000_0000
    requires Abs(wmWidth) < 0x1000_0000_0000_0000 && Abs(wmHeight) < 0x1000_0000_0000_0000
    requires Abs(plan.xMargin) < 0x1000_0000_0000_0000 && Abs(plan.yMargin) < 0x1000_0000_0000_0000
    requires Abs(plan.voffset) < 0x1000_0000_0000_0000
    ensures var r := PictureOffset(plan, originWidth, originHeight, wmWidth, wmHeight);
      && (ColumnOf(plan.position) == LeftColumn ==> r.x == plan.xMargin)
      && (ColumnOf(plan.position) == MiddleColumn ==> r.x == GoDiv(originWidth - wmWidth, 2))
      && (ColumnOf(plan.position) == RightColumn ==> r.x == originWidth - plan.xMargin - wmWidth)
      && (RowOf(plan.position) == TopRow ==> r.y == plan.yMargin)
      && (RowOf(plan.position) == MiddleRow ==> r.y == GoDiv(originHeight - wmHeight, 2) - plan.voffset)
      && (RowOf(plan.position) == BottomRow ==> r.y == originHeight - plan.yMargin - wmHeight)
  {
  }

  /** A centred 200x100 overlay on a 1000x800 image, raised by 10, sits at (400, 340). */
  lemma CenterExample(plan: WatermarkPlan)
    requires plan.position == Center && plan.voffset == 10
    ensures PictureOffset(plan, 1000, 800, 200, 100) == Offset(400, 340)
  {
  }

  /** Only the anchor's column and the x-margin decide x. */
  lemma XDependsOnlyOnColumn(p: WatermarkPlan, q: WatermarkPlan, originWidth: int, originHeight: int, wmWidth: int, wmHeight: int)
    requires ColumnOf(p.position) == ColumnOf(q.position) && p.xMargin == q.xMargin
    ensures PictureOffset(p, originWidth, originHeight, wmWidth, wmHeight).x
         == PictureOffset(q, originWidth, originHeight, wmWidth, wmHeight).x
  {
  }

  /** Only the anchor's row, the y-margin and, in the middle row, `voffset` decide y. */
  lemma YDependsOnlyOnRow(p: WatermarkPlan, q: WatermarkPlan, originWidth: int, originHeight: int, wmWidth: int, wmHeight: int)
    requires RowOf(p.position) == RowOf(q.position) && p.yMargin == q.yMargin
    requires RowOf(p.position) == MiddleRow ==> p.voffset == q.voffset
    ensures PictureOffset(p, originWidth, originHeight, wmWidth, wmHeight).y
         == PictureOffset(q, originWidth, originHeight, wmWidth, wmHeight).y
  {
  }

  /** An overlay no wider than the base, centred horizontally, lies inside it, with at
      most one more pixel of space to its right than to its left. */
  lemma CentredOverlayFits(plan: WatermarkPlan, originWidth: int, originHeight: int, wmWidth: int, wmHeight: int)
    requires ColumnOf(plan.position) == MiddleColumn
    requires 0 <= wmWidth <= originWidth <= Int64Max
    ensures var x := PictureOffset(plan, originWidth, originHeight, wmWidth, wmHeight).x;
      && 0 <= x <= originWidth - wmWidth
      && x <= originWidth - (x + wmWidth) <= x + 1
  {
  }

  /** An overlay wider than the base, centred horizontally, overhangs both edges, by at
      most one more pixel on the right than on the left. */
  lemma CentredOverlayOverhangs(plan: WatermarkPlan, originWidth: int, originHeight: int, wmWidth: int, wmHeight: int)
    requires ColumnOf(plan.position) == MiddleColumn
    requires 0 <= originWidth < wmWidth <= Int64Max
    ensures var x := PictureOffset(plan, originWidth, originHeight, wmWidth, wmHeight).x;
      && x <= 0 && x + wmWidth >= originWidth
      && x - 1 <= originWidth - (x + wmWidth) <= x
  {
  }
}
