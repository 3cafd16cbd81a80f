/** The request plans of imagick/process.go, the parameter records it hands to the
    imaging backend, and the calls it makes to code outside this model. */
module Plans {
  import opened Errors

  newtype byte = x: int | 0 <= x < 256

  datatype Option<+T> = None | Some(value: T)

  datatype Result<+T> = Success(value: T) | Failure(error: Fault)

  /** What a planning step decides: reject with an error, do nothing and succeed, or
      call the backend primitive with these parameters. */
  datatype Outcome<+P> = Err(kind: Fault) | NoOp | Ops(params: P)

  /** `ResizePlan`. A Go `[]byte` may be nil or empty and the code tells them apart,
      so `data` is optional. */
  datatype ResizePlan = ResizePlan(
    mode: string,
    width: int,
    height: int,
    long: int,
    short: int,
    limit: bool,
    color: string,
    watermarkProportion: int,
    proportion: int,
    data: Option<seq<byte>>)

  /** The nine placement anchors. The Go code compares `Position` with nine string
      constants declared outside the modelled files; any other string is `Unrecognised`. */
  datatype Anchor =
    | NorthWest | North | NorthEast
    | West | Center | East
    | SouthWest | South | SouthEast
    | Unrecognised(raw: string)

  datatype WatermarkPicture = WatermarkPicture(image: string, data: seq<byte>)

  datatype WatermarkText = WatermarkText(
    text: string,
    textType: string,
    color: string,
    size: int,
    shadow: int,
    fill: bool)

  datatype WatermarkPlan = WatermarkPlan(
    transparency: int,
    rotateDegrees: int,
    position: Anchor,
    xMargin: int,
    yMargin: int,
    voffset: int,
    pictureMask: WatermarkPicture,
    textMask: WatermarkText)

  datatype RotatePlan = RotatePlan(degrees: int, color: string)

  /** The resize modes named by string literals in `ResizeImageProcess`. */
  datatype Mode = Lfit | Mfit | Pad | Fixed | Fill | OtherMode

  function ModeName(m: Mode): string {
    match m
    case Lfit => "lfit"
    case Mfit => "mfit"
    case Pad => "pad"
    case Fixed => "fixed"
    case Fill => "fill"
    case OtherMode => ""
  }

  /** The `switch plan.Mode` dispatch: a string selects a mode only by being its name. */
  function ParseMode(s: string): (m: Mode)
    ensures m != OtherMode ==> ModeName(m) == s
    ensures m == OtherMode <==> s !in {"lfit", "mfit", "pad", "fixed", "fill"}
  {
    if s == "lfit" then Lfit
    else if s == "mfit" then Mfit
    else if s == "pad" then Pad
    else if s == "fixed" then Fixed
    else if s == "fill" then Fill
    else OtherMode
  }

  lemma ParseModeName(m: Mode)
    requires m != OtherMode
    ensures ParseMode(ModeName(m)) == m
  {
  }

  /** Parameters of the backend's rotate primitive (`newRotate()` with both fields set). */
  datatype RotateOptions = RotateOptions(degrees: int, background: string)

  /** The zoom factor of a scaling resize. A percentage stands for the Go float
      `Proportion / 100.0`; a watermark-relative factor is whatever `factorCalculations`
      returned. */
  datatype Zoom = ByPercent(percent: int) | ByFactor(factor: real)

  /** The geometry part of the options built on `newResize()`: either a zoom, or a
      target box with the three mode flags (left false unless a mode sets one). */
  datatype Geometry =
    | Scale(zoom: Zoom)
    | Box(width: int, height: int, pad: bool, force: bool, crop: bool)

  datatype ResizeOptions = ResizeOptions(
    limitEnlargement: bool,
    background: string,
    geometry: Geometry)

  /** Parameters of the backend's composite primitive. As in the Go code, the fields
      named `xMargin`/`yMargin` carry the resolved top-left offset of the overlay, and
      the transparency is the integer percentage behind `Transparency / 100.0`. */
  datatype WatermarkOptions<+H> = WatermarkOptions(
    picture: H,
    transparency: int,
    xMargin: int,
    yMargin: int)

  /** The `Text` record handed to `setTextAsPicture`; `fontType` is the `Type` string
      from which the font path is chosen. */
  datatype Text = Text(
    text: string,
    color: string,
    fontType: string,
    size: int,
    shadow: int,
    rotate: int,
    fill: bool)

  /** The ImageMagick wand operations, over an abstract image handle `H`: decoding,
      reading a size, and the primitives, each of which may fail. */
  datatype Backend<!H> = Backend(
    readImageBlob: seq<byte> -> Result<H>,
    width: H -> int,
    height: H -> int,
    resize: (H, ResizeOptions) -> Result<H>,
    rotate: (H, RotateOptions) -> Result<H>,
    watermark: (H, WatermarkOptions<H>) -> Result<H>,
    setTextAsPicture: (H, Text) -> Result<H>)

  /** Functions of the same package whose bodies are not part of this model. */
  datatype Helpers<!H> = Helpers(
    originPictureIsIllegal: (int, int) -> Option<Fault>,
    adjustCropTask: (ResizePlan, int, int) -> (int, int),
    factorCalculations: (H, seq<byte>, int) -> Result<real>,
    pictureOverlarge: (real, int, int) -> Option<Fault>)
}
