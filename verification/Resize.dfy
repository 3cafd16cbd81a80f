/** The decision layer of `ResizeImageProcess`: origin guard, then watermark-proportion
    scaling, then proportion scaling, then the mode switch. */
module Resize {
  import opened Errors
  import opened Plans

  /** The watermark-proportion branch is entered only with a non-nil overlay and a
      non-zero proportion. */
  predicate ScalesToWatermark(plan: ResizePlan) {
    plan.data.Some? && plan.watermarkProportion != 0
  }

  /** The box a mode-dispatched resize targets. lfit and mfit take the sizes that
      `adjustCropTask` leaves in the plan; the other modes take the plan's own. */
  function ModeBox(m: Mode, width: int, height: int): (g: Geometry)
    requires m != OtherMode
    ensures g.Box? && g.width == width && g.height == height
    ensures g.pad <==> m == Pad
    ensures g.force <==> m == Fixed
    ensures g.crop <==> m == Fill
  {
    match m
    case Pad => Box(width, height, true, false, false)
    case Fixed => Box(width, height, false, true, false)
    case Fill => Box(width, height, false, false, true)
    case _ => Box(width, height, false, false, false)
  }

  function PlanResize<H>(img: H, originWidth: int, originHeight: int, plan: ResizePlan, helpers: Helpers<H>): (r: Outcome<ResizeOptions>)
    // the origin guard runs before anything else
    ensures helpers.originPictureIsIllegal(originWidth, originHeight).Some?
      ==> r == Err(helpers.originPictureIsIllegal(originWidth, originHeight).value)
    // limit and background are copied on every path that resizes
    ensures r.Ops? ==> r.params.limitEnlargement == plan.limit && r.params.background == plan.color
    // which branch produced the options
    ensures r.Ops? && r.params.geometry == Scale(ByPercent(plan.proportion))
      <== helpers.originPictureIsIllegal(originWidth, originHeight).None?
          && !ScalesToWatermark(plan) && plan.proportion != 0
    ensures r.Ops? && r.params.geometry.Scale? && r.params.geometry.zoom.ByFactor?
      ==> ScalesToWatermark(plan)
    // the watermark branch: a helper's error is returned, otherwise the factor is the zoom
    ensures helpers.originPictureIsIllegal(originWidth, originHeight).None? && ScalesToWatermark(plan) ==>
      var f := helpers.factorCalculations(img, plan.data.value, plan.watermarkProportion);
      && (f.Failure? ==> r == Err(f.error))
      && (f.Success? && helpers.pictureOverlarge(f.value, originWidth, originHeight).Some?
          ==> r == Err(helpers.pictureOverlarge(f.value, originWidth, originHeight).value))
      && (f.Success? && helpers.pictureOverlarge(f.value, originWidth, originHeight).None?
          ==> r == Ops(ResizeOptions(plan.limit, plan.color, Scale(ByFactor(f.value)))))
    ensures r.Ops? && r.params.geometry.Scale? && r.params.geometry.zoom.ByPercent?
      ==> !ScalesToWatermark(plan) && r.params.geometry.zoom.percent == plan.proportion != 0
    ensures r.Ops? && r.params.geometry.Box?
      ==> !ScalesToWatermark(plan) && plan.proportion == 0 && ParseMode(plan.mode) != OtherMode
    // an unrecognised mode resizes nothing and succeeds
    ensures r.NoOp? <==>
      && helpers.originPictureIsIllegal(originWidth, originHeight).None?
      && !ScalesToWatermark(plan) && plan.proportion == 0
      && ParseMode(plan.mode) == OtherMode
  {
    match helpers.originPictureIsIllegal(originWidth, originHeight)
    case Some(e) => Err(e)
    case None =>
      if ScalesToWatermark(plan) then
        match helpers.factorCalculations(img, plan.data.value, plan.watermarkProportion)
        case Failure(e) => Err(e)
        case Success(factor) =>
          match helpers.pictureOverlarge(factor, originWidth, originHeight)
          case Some(e) => Err(e)
          case None => Ops(ResizeOptions(plan.limit, plan.color, Scale(ByFactor(factor))))
      else if plan.proportion != 0 then
        Ops(ResizeOptions(plan.limit, plan.color, Scale(ByPercent(plan.proportion))))
      else
        match ParseMode(plan.mode)
        case OtherMode => NoOp
        case Lfit | Mfit =>
          var (w, h) := helpers.adjustCropTask(plan, originWidth, originHeight);
          Ops(ResizeOptions(plan.limit, plan.color, ModeBox(ParseMode(plan.mode), w, h)))
        case m =>
          Ops(ResizeOptions(plan.limit, plan.color, ModeBox(m, plan.width, plan.height)))
  }

  /** `ResizeImageProcess`: decode, plan, then run the resize primitive. The result is
      the transformed image or the error the Go method returns. */
  function ResizeImageProcess<H(==)>(data: seq<byte>, plan: ResizePlan, backend: Backend<H>, helpers: Helpers<H>): (r: Result<H>)
    // a decode failure is returned as is
    ensures backend.readImageBlob(data).Failure? ==> r == Failure(backend.readImageBlob(data).error)
    ensures backend.readImageBlob(data).Success? ==>
      var img := backend.readImageBlob(data).value;
      var (w, h) := (backend.width(img), backend.height(img));
      // an illegal origin size is returned before any resize
      && (helpers.originPictureIsIllegal(w, h).Some? ==> r == Failure(helpers.originPictureIsIllegal(w, h).value))
      // every planning error, including those of factorCalculations and pictureOverlarge, is returned
      && (PlanResize(img, w, h, plan, helpers).Err? ==> r == Failure(PlanResize(img, w, h, plan, helpers).kind))
      // an unrecognised mode leaves the image as decoded and reports success
      && ((helpers.originPictureIsIllegal(w, h).None? && !ScalesToWatermark(plan) && plan.proportion == 0
           && ParseMode(plan.mode) == OtherMode) ==> r == Success(img))
      // otherwise the result is the resize primitive's, with the planned options
      && (PlanResize(img, w, h, plan, helpers).Ops? ==> r == backend.resize(img, PlanResize(img, w, h, plan, helpers).params))
  {
    match backend.readImageBlob(data)
    case Failure(e) => Failure(e)
    case Success(img) =>
      match PlanResize(img, backend.width(img), backend.height(img), plan, helpers)
      case Err(e) => Failure(e)
      case NoOp => Success(img)
      case Ops(o) => backend.resize(img, o)
  }

  /** Mode dispatch: pad, fixed and fill target the plan's own box and each sets exactly
      its own flag. */
  lemma ModeSetsOnlyItsFlag<H>(img: H, originWidth: int, originHeight: int, plan: ResizePlan, helpers: Helpers<H>)
    requires helpers.originPictureIsIllegal(originWidth, originHeight).None?
    requires !ScalesToWatermark(plan) && plan.proportion == 0
    requires ParseMode(plan.mode) in {Pad, Fixed, Fill}
    ensures var r := PlanResize(img, originWidth, originHeight, plan, helpers);
      && r.Ops? && r.params.geometry.Box?
      && r.params.geometry.width == plan.width && r.params.geometry.height == plan.height
      && (r.params.geometry.pad <==> plan.mode == "pad")
      && (r.params.geometry.force <==> plan.mode == "fixed")
      && (r.params.geometry.crop <==> plan.mode == "fill")
  {
  }

  /** lfit and mfit set no flag and target the box `adjustCropTask` computes. */
  lemma FitModesUseAdjustedBox<H>(img: H, originWidth: int, originHeight: int, plan: ResizePlan, helpers: Helpers<H>)
    requires helpers.originPictureIsIllegal(originWidth, originHeight).None?
    requires !ScalesToWatermark(plan) && plan.proportion == 0
    requires plan.mode == "lfit" || plan.mode == "mfit"
    ensures var r := PlanResize(img, originWidth, originHeight, plan, helpers);
      var (w, h) := helpers.adjustCropTask(plan, originWidth, originHeight);
      r == Ops(ResizeOptions(plan.limit, plan.color, Box(w, h, false, false, false)))
  {
  }

  /** A non-zero proportion decides the zoom alone: mode and box are ignored. */
  lemma ProportionIgnoresMode<H>(img: H, originWidth: int, originHeight: int, p: ResizePlan, q: ResizePlan, helpers: Helpers<H>)
    requires p.proportion != 0 && !ScalesToWatermark(p)
    requires q == p.(mode := q.mode, width := q.width, height := q.height)
    ensures PlanResize(img, originWidth, originHeight, p, helpers) == PlanResize(img, originWidth, originHeight, q, helpers)
  {
  }

  /** The watermark-proportion branch takes precedence over a proportion and a mode:
      it returns the error of `factorCalculations` or `pictureOverlarge`, or else zooms
      by the computed factor. */
  lemma WatermarkProportionFirst<H>(img: H, originWidth: int, originHeight: int, plan: ResizePlan, helpers: Helpers<H>)
    requires helpers.originPictureIsIllegal(originWidth, originHeight).None?
    requires ScalesToWatermark(plan)
    ensures var r := PlanResize(img, originWidth, originHeight, plan, helpers);
      var f := helpers.factorCalculations(img, plan.data.value, plan.watermarkProportion);
      var ov := (if f.Success? then helpers.pictureOverlarge(f.value, originWidth, originHeight) else None);
      && (f.Failure? ==> r == Err(f.error))
      && (f.Success? && ov.Some? ==> r == Err(ov.value))
      && (f.Success? && ov.None? ==> r == Ops(ResizeOptions(plan.limit, plan.color, Scale(ByFactor(f.value)))))
      && (r.Ops? ==> f.Success? && r.params.geometry == Scale(ByFactor(f.value)))
  {
  }
}
