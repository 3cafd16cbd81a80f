# pipa transform planning, modelled in Dafny

pipa is an image-transform service. It takes raw image bytes and a request plan: a resize, a watermark or a rotation. It checks the request and builds the parameters for the ImageMagick wand primitives. This project models the decision layer of the three entry points in `imagick/process.go` and the error taxonomy in `error/error_codes.go`. It then proves properties of that model.

Modules:

- `GoInt` models Go's 64-bit `int` arithmetic. `Sub` wraps modulo 2^64. `GoDiv` is Go's `/`, which truncates toward zero, unlike Dafny's Euclidean `/`.
- `Errors` holds the `PipaError` constants (0..24, assigned by `iota`), the `ErrorCodeResponse` table, and the accessors `ErrorCode()` and `Error()`. It also defines `Fault`, the error a planning step reports. `Fault` has three cases:
  - a taxonomy value;
  - the zero-size error, which `imagick/process.go` uses but `error/error_codes.go` does not declare, so no code is claimed for it;
  - an error returned by a call outside the model.
- `Plans` holds the request plans (`ResizePlan`, `WatermarkPlan`, `RotatePlan`) and the option records passed to the backend. It also holds the `Outcome` of a planning step: `Err(kind)`, `NoOp` or `Ops(params)`. Every foreign call, and every helper whose result a decision uses, is a function-valued field of `Backend` (the wand primitives, over an abstract image handle `H`) or of `Helpers` (package functions whose bodies are not part of this model). The remaining unseen calls are listed under "Left out".
- `Placement` models the nine-anchor watermark placement. The Go code has two copies of it, one for pictures and one for text. Both are modelled, and both are proved equal to a column-by-row reference definition.
- `Resize`, `Watermark` and `Rotate` model the three entry points. Each has a pure planning function, plus a function that composes it with decoding and the backend primitive.

## Model

| member | source | states |
|---|---|---|
| GoInt.Sub | imagick/process.go:231 | Go's `int` subtraction wraps: the result is a 64-bit value congruent to `a - b` modulo 2^64, so it is the exact difference whenever that fits in 64 bits |
| GoInt.GoDivIsTruncation | imagick/process.go:227 | `GoDiv` has the defining property of truncated division: the magnitude of `q*b` is at most that of `a`, and less than one `b` below it, on `a`'s side of zero. `GoDiv` is also the only quotient with that property |
| GoInt.GoDivOdd | imagick/process.go:227 | truncated division is symmetric about zero: `GoDiv(-a, b) == -GoDiv(a, b)` |
| GoInt.GoDivHalfAgreesWithEuclid | imagick/process.go:236 | Go's `/ 2` and Dafny's Euclidean `/ 2` agree exactly when the dividend is non-negative or even |
| Errors.Iota | error/error_codes.go:5-31 | the `iota` block numbers its first `n` constants 0..n-1, which gives exactly `n` distinct values |
| Errors.ErrorCode | error/error_codes.go:141-147 | each declared constant 0..24 gets the table's (code, message) pair; every other value gets (400, "No error has found") |
| Errors.Error | error/error_codes.go:149-155 | each declared constant gets the same message as `ErrorCode`; every other value gets the internal-error text, which differs from `ErrorCode`'s fallback |
| Errors.TableCoversEnum | error/error_codes.go:38-139 | the table's keys are exactly the 25 `iota` constants, so both fallbacks fire only outside 0..24 |
| Errors.FallbackAsymmetry | error/error_codes.go:141-155 | the two accessors return the same message if and only if the value is in the table |
| Errors.OkIsOnlySuccess | error/error_codes.go:38-139 | `Ok` maps to (200, "ok"), and no other value, declared or not, has code 200 |
| Errors.InvalidParameterShares403 | error/error_codes.go:63-138 | code 403 belongs to `ErrInvalidParameter` and its per-field variants, and to nothing else; `...Format` has 405 |
| Errors.MessagesDistinct | error/error_codes.go:38-139 | two different table entries never share a message, so the 403 variants can be told apart by message |
| Errors.SharedCodes | error/error_codes.go:71-86 | codes are not injective: 406 names both watermark errors, and 407 names both too-long and cannot-process |
| Plans.ParseMode | imagick/process.go:138-182 | a mode string selects a mode only by being that mode's name; any string other than the five names selects no mode |
| Plans.ParseModeName | imagick/process.go:138-182 | parsing a mode's name gives back that mode |
| Placement.PictureOffset | imagick/process.go:221-261 | the picture path's switch equals the column-by-row reference placement, for every anchor, including the `default` branch |
| Placement.TextOffset | imagick/process.go:288-328 | the text path's switch equals the same reference placement |
| Placement.OverlayPathsAgree | imagick/process.go:221-328 | for the same plan and overlay size, the picture and text paths compute identical offsets |
| Placement.UnrecognisedIsSouthEast | imagick/process.go:254-260 | an unrecognised position gives exactly the SouthEast offsets, in the picture switch and in its text copy (lines 321-327) |
| Placement.ExactWithinInt64 | imagick/process.go:221-261 | for sizes and margins below 2^60 nothing wraps. x is then `xMargin`, `GoDiv(originW - wmW, 2)` or `originW - xMargin - wmW` by column. y is `yMargin`, `GoDiv(originH - wmH, 2) - voffset` or `originH - yMargin - wmH` by row |
| Placement.CenterExample | imagick/process.go:238-240 | a Center overlay of 200x100 on a 1000x800 image, with voffset 10, is placed at (400, 340) |
| Placement.XDependsOnlyOnColumn | imagick/process.go:221-261 | two anchors in the same column with the same x-margin give the same x |
| Placement.YDependsOnlyOnRow | imagick/process.go:221-261 | two anchors in the same row with the same y-margin give the same y. `voffset` matters only in the West/Center/East row |
| Placement.CentredOverlayFits | imagick/process.go:226-229 | if the overlay is no wider than the base, a centred x lies in [0, originW - wmW], with the right gap equal to the left gap or one larger |
| Placement.CentredOverlayOverhangs | imagick/process.go:226-229 | if the overlay is wider than the base, a centred x is ≤ 0 and the overlay covers the base. It overhangs the right edge by as much as the left edge, or by one pixel more |
| Resize.ModeBox | imagick/process.go:136-182 | a recognised mode targets the given box; `pad` sets only Pad, `fixed` only Force, `fill` only Crop, and lfit/mfit set no flag |
| Resize.PlanResize | imagick/process.go:96-183 | the origin guard comes first. Limit and Color are copied on every path that resizes. A percentage zoom is produced exactly when the watermark branch is not taken and `Proportion != 0`. In the watermark branch, an error from `factorCalculations` or `pictureOverlarge` is returned unchanged; when both succeed, the options zoom by the computed factor. A box comes only from the mode switch. An unrecognised mode is a no-op success, and nothing else is |
| Resize.ResizeImageProcess | imagick/process.go:90-184 | decode errors and every planning error (origin guard, `factorCalculations`, `pictureOverlarge`) are returned unchanged. An unrecognised mode returns the decoded image. When planning yields options, the result is the resize primitive's, called with them |
| Resize.ModeSetsOnlyItsFlag | imagick/process.go:159-182 | modes `pad`, `fixed` and `fill` target the plan's Width/Height, and each sets exactly its own flag |
| Resize.FitModesUseAdjustedBox | imagick/process.go:139-158 | modes lfit and mfit target the box `adjustCropTask` leaves in the plan, with no flag set |
| Resize.ProportionIgnoresMode | imagick/process.go:124-137 | when `Proportion != 0` (and the watermark branch is not taken), Mode/Width/Height have no effect on the outcome |
| Resize.WatermarkProportionFirst | imagick/process.go:106-122 | with non-nil data and a non-zero watermark proportion, the outcome is the error of `factorCalculations`, else the error of `pictureOverlarge`, else exactly a zoom by the computed factor with Limit and Color copied |
| Watermark.SelectOverlay | imagick/process.go:199-337 | the picture path is taken whenever `Image != ""`; the text path only when `Image == ""` and `Text != ""`; otherwise no overlay |
| Watermark.PlanWatermark | imagick/process.go:192-337 | it is never a no-op, and the origin guard comes first. Two empty masks give `ErrInvalidWatermarkProcess`. Transparency is carried through. A picture is decoded, then rotated by `RotateDegrees` on "transparent". An error from either step is returned unchanged; when both succeed, the outcome is a composite of the rotated picture, placed by its rotated size. Text is rendered; a render error is returned unchanged, and otherwise the outcome is a composite of the bitmap, placed by its size |
| Watermark.ImageWatermarkProcess | imagick/process.go:186-338 | decode and planning errors are returned unchanged; otherwise the result is the composite primitive's, with the planned options |
| Watermark.PictureWinsOverText | imagick/process.go:199-268 | with a picture mask set, the text mask, in every field, has no effect on the outcome |
| Watermark.NoMaskIsInvalid | imagick/process.go:335-337 | with both masks empty and a legal origin, the entry point fails with `ErrInvalidWatermarkProcess` |
| Rotate.OriginGuard | imagick/process.go:349-353 | a side over 4096 gives too-long, whatever the other side is. Otherwise a side ≤ 0 gives the zero-size error. Otherwise the size is accepted |
| Rotate.PlanRotate | imagick/process.go:349-357 | it fails exactly when the guard does, with the guard's error; otherwise `Degrees` and `Color` are copied unchanged |
| Rotate.RotateImageProcess | imagick/process.go:340-364 | decode and guard errors are returned unchanged; otherwise the result is the rotate primitive's, with the plan's angle and colour |
| Rotate.TooLongBeforeZero | imagick/process.go:349-353 | (5000, 0) and (0, 5000) report too-long, while (0, 4096) reports zero |

## Behaviour that follows the code

The model follows the Go code where one might expect otherwise:

- One might expect a watermark plan with both a picture and a text mask to be rejected. The code does not reject it: the picture wins, and only a plan with neither mask fails (`Watermark.PictureWinsOverText`).
- One might expect every entry point to apply the 4096 / zero-size guard. Only the rotate entry point has it inline. The resize and watermark entry points call `originPictureIsIllegal`, whose body is not part of this model, so their guard is a parameter.
- One might expect an unknown resize mode to be an error. A resize plan with a legal origin size, an unrecognised mode and no proportion resizes nothing and reports success, provided the watermark branch is not taken (nil `Data` or a zero watermark proportion).
- One might expect the two error accessors to share one fallback. They do not, and both are kept as written: (400, "No error has found") from `ErrorCode()`, and the internal-error text from `Error()`.

## Left out

- Enlargement clamping: imagick/process.go only copies `Limit` into the options. Where enlargement is clamped (`img.resize` or `adjustCropTask`, which receives the whole plan) is outside this model.
- ImageMagick wand lifecycle (`Initialize`, `Terminate`, `NewImageWand`, `Destory`) and the deferred `Destroy` calls: resource plumbing over a C library, with no effect on the decisions.
- `ReadImageBlob`, `GetImageWidth`/`GetImageHeight`, `resize`, `rotate`, `watermark` and `setTextAsPicture`: foreign calls. They are fields of `Backend`; `ReadImageBlob` and each primitive may fail, while the size readers cannot. The `uint` to `int` conversion of the image size is folded into `width`/`height`.
- `originPictureIsIllegal`, `adjustCropTask`, `factorCalculations` and `pictureOverlarge`: their bodies are not part of this model. They are fields of `Helpers`, so the lfit/mfit ratio formula and the enlargement clamping are not modelled.
- `newResize`, `newWatermark` and `newRotate`: their bodies are not part of this model. The resize geometry is a sum type: a zoom, or a box whose Pad/Force/Crop flags are false unless a mode sets one. The other defaults are not modelled.
- `selectTextType` and the font directory constant: the rendered `Text` carries the `Type` string in place of the font path.
- Floating point: `Transparency / 100.0` and `Proportion / 100.0` are carried as the integer percentages. The watermark-relative factor is a `real` returned by `factorCalculations`.
- The string values of the nine position constants are declared outside the modelled files. Positions are therefore an `Anchor` datatype, and `Unrecognised` stands for any other string.
- Logging (`helper.Log`), `ReturnData`, and the fields that the modelled code never reads: `Order`, `Align`, `Interval`, `Bucket` and `Crop`, plus the empty `CropPlan`.
- Go's `int` is taken to be 64 bits wide; on a 32-bit platform it would wrap at 2^32.
