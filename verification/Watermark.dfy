/** The decision layer of `ImageWatermarkProcess`: origin guard, overlay choice,
    preparation of the overlay, and placement. */
module Watermark {
  import opened Errors
  import opened Plans
  import opened Placement

  datatype Overlay = PictureOverlay | TextOverlay | NoOverlay

  /** The picture mask is tested first, so it wins when text is set too. */
  function SelectOverlay(plan: WatermarkPlan): (o: Overlay)
    ensures o == PictureOverlay <==> plan.pictureMask.image != ""
    ensures o == TextOverlay <==> plan.pictureMask.image == "" && plan.textMask.text != ""
    ensures o == NoOverlay <==> plan.pictureMask.image == "" && plan.textMask.text == ""
  {
    if plan.pictureMask.image != "" then PictureOverlay
    else if plan.textMask.text != "" then TextOverlay
    else NoOverlay
  }

  /** The text to render; the font path is derived from `fontType` outside this model. */
  function TextFor(plan: WatermarkPlan): Text
  {
    Text(plan.textMask.text, plan.textMask.color, plan.textMask.textType,
         plan.textMask.size, plan.textMask.shadow, plan.rotateDegrees, plan.textMask.fill)
  }

  /** Composite parameters for a prepared overlay, placed by the given switch result. */
  function Composite<H>(overlay: H, plan: WatermarkPlan, at: Offset): WatermarkOptions<H> {
    WatermarkOptions(overlay, plan.transparency, at.x, at.y)
  }

  /** The planning part of `ImageWatermarkProcess`: never a no-op; either an error or
      the parameters of one composite call. */
  function PlanWatermark<H(==)>(img: H, originWidth: int, originHeight: int, plan: WatermarkPlan, backend: Backend<H>, helpers: Helpers<H>): (r: Outcome<WatermarkOptions<H>>)
    ensures !r.NoOp?
    // the origin guard runs first
    ensures helpers.originPictureIsIllegal(originWidth, originHeight).Some?
      ==> r == Err(helpers.originPictureIsIllegal(originWidth, originHeight).value)
    // neither mask set: the plan is rejected
    ensures helpers.originPictureIsIllegal(originWidth, originHeight).None? && SelectOverlay(plan) == NoOverlay
      ==> r == Err(Pipa(ErrInvalidWatermarkProcess))
    ensures r.Ops? ==> r.params.transparency == plan.transparency
    // picture path: the overlay's decode or rotate error is returned; when both succeed
    // the outcome is a composite
    ensures helpers.originPictureIsIllegal(originWidth, originHeight).None? && SelectOverlay(plan) == PictureOverlay ==>
      var d := backend.readImageBlob(plan.pictureMask.data);
      && (d.Failure? ==> r == Err(d.error))
      && (d.Success? ==>
            var rotated := backend.rotate(d.value, RotateOptions(plan.rotateDegrees, "transparent"));
            && (rotated.Failure? ==> r == Err(rotated.error))
            && (rotated.Success? ==> r.Ops?))
    // text path: the render error is returned; when rendering succeeds the outcome is a composite
    ensures helpers.originPictureIsIllegal(originWidth, originHeight).None? && SelectOverlay(plan) == TextOverlay ==>
      var bitmap := backend.setTextAsPicture(img, TextFor(plan));
      && (bitmap.Failure? ==> r == Err(bitmap.error))
      && (bitmap.Success? ==> r.Ops?)
    // picture path: decoded, rotated by the plan's angle on a transparent background,
    // then placed by its rotated size
    ensures r.Ops? && SelectOverlay(plan) == PictureOverlay ==>
      && backend.readImageBlob(plan.pictureMask.data).Success?
      && var rotated := backend.rotate(backend.readImageBlob(plan.pictureMask.data).value, RotateOptions(plan.rotateDegrees, "transparent"));
      && rotated.Success? && r.params.picture == rotated.value
      && Offset(r.params.xMargin, r.params.yMargin)
         == GridOffset(plan, originWidth, originHeight, backend.width(rotated.value), backend.height(rotated.value))
    // text path: rendered, then placed by the bitmap's size
    ensures r.Ops? && SelectOverlay(plan) == TextOverlay ==>
      && var bitmap := backend.setTextAsPicture(img, TextFor(plan));
      && bitmap.Success? && r.params.picture == bitmap.value
      && Offset(r.params.xMargin, r.params.yMargin)
         == GridOffset(plan, originWidth, originHeight, backend.width(bitmap.value), backend.height(bitmap.value))
  {
    match helpers.originPictureIsIllegal(originWidth, originHeight)
    case Some(e) => Err(e)
    case None =>
      match SelectOverlay(plan)
      case PictureOverlay =>
        (match backend.readImageBlob(plan.pictureMask.data)
         case Failure(e) => Err(e)
         case Success(picture) =>
           match backend.rotate(picture, RotateOptions(plan.rotateDegrees, "transparent"))
           case Failure(e) => Err(e)
           case Success(rotated) =>
             var at := PictureOffset(plan, originWidth, originHeight, backend.width(rotated), backend.height(rotated));
             Ops(Composite(rotated, plan, at)))
      case TextOverlay =>
        (match backend.setTextAsPicture(img, TextFor(plan))
         case Failure(e) => Err(e)
         case Success(bitmap) =>
           var at := TextOffset(plan, originWidth, originHeight, backend.width(bitmap), backend.height(bitmap));
           Ops(Composite(bitmap, plan, at)))
      case NoOverlay => Err(Pipa(ErrInvalidWatermarkProcess))
  }

  /** `ImageWatermarkProcess`: decode, plan, then composite. */
  function ImageWatermarkProcess<H(==)>(data: seq<byte>, plan: WatermarkPlan, backend: Backend<H>, helpers: Helpers<H>): (r: Result<H>)
    ensures backend.readImageBlob(data).Failure? ==> r == Failure(backend.readImageBlob(data).error)
    ensures backend.readImageBlob(data).Success? ==>
      var img := backend.readImageBlob(data).value;
      var (w, h) := (backend.width(img), backend.height(img));
      && (PlanWatermark(img, w, h, plan, backend, helpers).Err? ==> r == Failure(PlanWatermark(img, w, h, plan, backend, helpers).kind))
      && (PlanWatermark(img, w, h, plan, backend, helpers).Ops? ==> r == backend.watermark(img, PlanWatermark(img, w, h, plan, backend, helpers).params))
  {
    match backend.readImageBlob(data)
    case Failure(e) => Failure(e)
    case Success(img) =>
      match PlanWatermark(img, backend.width(img), backend.height(img), plan, backend, helpers)
      case Err(e) => Failure(e)
      case NoOp => Success(img)
      case Ops(o) => backend.watermark(img, o)
  }

  /** A picture mask wins over a text mask: with a picture set, replacing the whole
      text mask (text, type, colour, size, shadow, fill) changes nothing. */
  lemma PictureWinsOverText<H>(img: H, originWidth: int, originHeight: int, plan: WatermarkPlan, t: WatermarkText, backend: Backend<H>, helpers: Helpers<H>)
    requires plan.pictureMask.image != ""
    ensures PlanWatermark(img, originWidth, originHeight, plan, backend, helpers)
         == PlanWatermark(img, originWidth, originHeight, plan.(textMask := t), backend, helpers)
  {
  }

  /** Both masks empty is rejected, whatever else the plan holds. */
  lemma NoMaskIsInvalid<H>(data: seq<byte>, plan: WatermarkPlan, backend: Backend<H>, helpers: Helpers<H>)
    requires plan.pictureMask.image == "" && plan.textMask.text == ""
    requires backend.readImageBlob(data).Success?
    requires var img := backend.readImageBlob(data).value;
      helpers.originPictureIsIllegal(backend.width(img), backend.height(img)).None?
    ensures ImageWatermarkProcess(data, plan, backend, helpers) == Failure(Pipa(ErrInvalidWatermarkProcess))
  {
  }
}
