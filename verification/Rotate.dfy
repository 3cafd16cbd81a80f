/** `RotateImageProcess`, whose origin-size guard is written inline. */
module Rotate {
  import opened Errors
  import opened Plans

  /** The largest width or height the rotate entry point accepts. */
  const MaxSide: int := 4096

  /** The inline guard: too long is tested before zero, so a side over the limit is
      reported as too long even when the other side is zero. */
  function OriginGuard(originWidth: int, originHeight: int): (r: Option<Fault>)
    ensures r == Some(Pipa(ErrPictureWidthOrHeightTooLong)) <==> originWidth > MaxSide || originHeight > MaxSide
    ensures r == Some(WidthOrHeightIsZero) <==>
      originWidth <= MaxSide && originHeight <= MaxSide && (originWidth <= 0 || originHeight <= 0)
    ensures r == None <==> 0 < originWidth <= MaxSide && 0 < originHeight <= MaxSide
  {
    if originHeight > MaxSide || originWidth > MaxSide then Some(Pipa(ErrPictureWidthOrHeightTooLong))
    else if originHeight <= 0 || originWidth <= 0 then Some(WidthOrHeightIsZero)
    else None
  }

  /** The planning part of `RotateImageProcess`: the guard, then the plan's angle and
      background copied unchanged. */
  function PlanRotate(originWidth: int, originHeight: int, plan: RotatePlan): (r: Outcome<RotateOptions>)
    ensures !r.NoOp?
    ensures r.Err? <==> OriginGuard(originWidth, originHeight).Some?
    ensures r.Err? ==> r.kind == OriginGuard(originWidth, originHeight).value
    ensures r.Ops? ==> r.params.degrees == plan.degrees && r.params.background == plan.color
  {
    match OriginGuard(originWidth, originHeight)
    case Some(e) => Err(e)
    case None => Ops(RotateOptions(plan.degrees, plan.color))
  }

  /** `RotateImageProcess`: decode, guard, rotate. */
  function RotateImageProcess<H(==)>(data: seq<byte>, plan: RotatePlan, backend: Backend<H>): (r: Result<H>)
    ensures backend.readImageBlob(data).Failure? ==> r == Failure(backend.readImageBlob(data).error)
    ensures backend.readImageBlob(data).Success? ==>
      var img := backend.readImageBlob(data).value;
      var (w, h) := (backend.width(img), backend.height(img));
      && (OriginGuard(w, h).Some? ==> r == Failure(OriginGuard(w, h).value))
      && (OriginGuard(w, h).None? ==> r == backend.rotate(img, RotateOptions(plan.degrees, plan.color)))
  {
    match backend.readImageBlob(data)
    case Failure(e) => Failure(e)
    case Success(img) =>
      match PlanRotate(backend.width(img), backend.height(img), plan)
      case Err(e) => Failure(e)
      case NoOp => Success(img)
      case Ops(o) => backend.rotate(img, o)
  }

  /** (5000, 0) is reported as too long, not as zero. */
  lemma TooLongBeforeZero(plan: RotatePlan)
    ensures PlanRotate(5000, 0, plan) == Err(Pipa(ErrPictureWidthOrHeightTooLong))
    ensures PlanRotate(0, 5000, plan) == Err(Pipa(ErrPictureWidthOrHeightTooLong))
    ensures PlanRotate(0, 4096, plan) == Err(WidthOrHeightIsZero)
  {
  }
}
