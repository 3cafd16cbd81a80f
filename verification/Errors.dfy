/** The error taxonomy of error/error_codes.go: the `PipaError` constants, the
    `ErrorCodeResponse` table and its two accessors. */
module Errors {

  /** Go's `type PipaError int`: every int is a value of the type, not only the
      constants declared with `iota`. */
  type PipaError = int

  const Ok: PipaError := 0
  const ErrInvalidTaskString: PipaError := 1
  const ErrDownloadCode: PipaError := 2
  const StatusRequestEntityTooLarge: PipaError := 3
  const StatusUnsupportedMediaType: PipaError := 4
  const ErrNotFoundOssProcess: PipaError := 5
  const ErrInvalidParameter: PipaError := 6
  const ErrInvalidParameterFormat: PipaError := 7
  const ErrInvalidWatermarkProcess: PipaError := 8
  const ErrInvalidWatermarkPicture: PipaError := 9
  const ErrPictureWidthOrHeightTooLong: PipaError := 10
  const ErrWatermarkCanNotProcess: PipaError := 11
  const ErrInvalidParameterTransparency: PipaError := 12
  const ErrInvalidParameterPosition: PipaError := 13
  const ErrInvalidParameterXMargin: PipaError := 14
  const ErrInvalidParameterYMargin: PipaError := 15
  const ErrInvalidParameterVoffset: PipaError := 16
  const ErrInvalidParameterText: PipaError := 17
  const ErrInvalidParameterTextSize: PipaError := 18
  const ErrInvalidParameterRotate: PipaError := 19
  const ErrInvalidParameterFill: PipaError := 20
  const ErrInvalidParameterLimit: PipaError := 21
  const ErrInvalidParameterMode: PipaError := 22
  const ErrInvalidParameterProportion: PipaError := 23
  const ErrInvalidParameterBorder: PipaError := 24

  /** True of exactly the constants of the `iota` block. */
  predicate Declared(e: PipaError) {
    Ok <= e <= ErrInvalidParameterBorder
  }

  datatype ErrorStruct = ErrorStruct(errorCode: int, errorMessage: string)

  const ErrorCodeResponse: map<PipaError, ErrorStruct> := map[
    Ok := ErrorStruct(200, "ok"),
    ErrInvalidTaskString := ErrorStruct(400, "Invalid task string from request."),
    ErrDownloadCode := ErrorStruct(401, "Download response code is not 200"),
    StatusRequestEntityTooLarge := ErrorStruct(413, "Picture too large"),
    StatusUnsupportedMediaType := ErrorStruct(415, "Unsupported Media Type"),
    ErrNotFoundOssProcess := ErrorStruct(402, "Can not parameter x-oss-process."),
    ErrInvalidParameter := ErrorStruct(403, "Invalid parameter: param operation type wrong"),
    ErrInvalidParameterFormat := ErrorStruct(405, "Invalid parameter format."),
    ErrInvalidWatermarkProcess := ErrorStruct(406, "Invalid watermark parameter."),
    ErrInvalidWatermarkPicture := ErrorStruct(406, "Invalid watermark picture."),
    ErrPictureWidthOrHeightTooLong := ErrorStruct(407, "Picture Width or Height too long"),
    ErrWatermarkCanNotProcess := ErrorStruct(407, "Watermark can not process"),
    ErrInvalidParameterTransparency := ErrorStruct(403, "Invalid parameter: transparency wrong."),
    ErrInvalidParameterPosition := ErrorStruct(403, "Invalid parameter: position wrong."),
    ErrInvalidParameterXMargin := ErrorStruct(403, "Invalid parameter: XMargin wrong."),
    ErrInvalidParameterYMargin := ErrorStruct(403, "Invalid parameter: YMargin wrong."),
    ErrInvalidParameterVoffset := ErrorStruct(403, "Invalid parameter: voffset wrong."),
    ErrInvalidParameterText := ErrorStruct(403, "Invalid parameter: text wrong."),
    ErrInvalidParameterTextSize := ErrorStruct(403, "Invalid parameter: text size wrong."),
    ErrInvalidParameterRotate := ErrorStruct(403, "Invalid parameter: rotate wrong."),
    ErrInvalidParameterLimit := ErrorStruct(403, "Invalid parameter: limit wrong."),
    ErrInvalidParameterFill := ErrorStruct(403, "Invalid parameter: fill wrong."),
    ErrInvalidParameterMode := ErrorStruct(403, "Invalid parameter: mode wrong."),
    ErrInvalidParameterProportion := ErrorStruct(403, "Invalid parameter: proportion wrong."),
    ErrInvalidParameterBorder := ErrorStruct(403, "Invalid parameter: params for image border are wrong.")
  ]

  const NotFoundCode: int := 400
  const NotFoundMessage: string := "No error has found"
  const InternalErrorMessage: string := "We encountered an internal error, please try again."

  /** `PipaError.ErrorCode()`: the table's (code, message) pair, or (400, "No error has
      found") for a value outside the table. */
  function ErrorCode(e: PipaError): (r: (int, string))
    ensures Declared(e) ==> r == (ErrorCodeResponse[e].errorCode, ErrorCodeResponse[e].errorMessage)
    ensures !Declared(e) ==> r == (NotFoundCode, NotFoundMessage)
  {
    if e in ErrorCodeResponse then
      (ErrorCodeResponse[e].errorCode, ErrorCodeResponse[e].errorMessage)
    else
      (NotFoundCode, NotFoundMessage)
  }

  /** `PipaError.Error()`: the table's message, or a different, internal-error text
      for a value outside the table. */
  function Error(e: PipaError): (msg: string)
    ensures Declared(e) ==> msg == ErrorCode(e).1
    ensures !Declared(e) ==> msg == InternalErrorMessage && msg != ErrorCode(e).1
  {
    if e in ErrorCodeResponse then ErrorCodeResponse[e].errorMessage else InternalErrorMessage
  }

  /** The values Go's `iota` gives the first `n` constants of a block. */
  function Iota(n: nat): (s: set<PipaError>)
    ensures forall e :: e in s <==> 0 <= e < n
    ensures |s| == n
  {
    if n == 0 then {} else Iota(n - 1) + {n - 1}
  }

  /** The table has an entry for every `iota` constant and for nothing else: 25 entries. */
  lemma TableCoversEnum()
    ensures forall e :: e in ErrorCodeResponse <==> Declared(e)
    ensures ErrorCodeResponse.Keys == Iota(ErrInvalidParameterBorder + 1)
    ensures |ErrorCodeResponse| == ErrInvalidParameterBorder + 1
  {
    var all := Iota(ErrInvalidParameterBorder + 1);
    forall e | e in all
      ensures e in ErrorCodeResponse
    {
    }
    assert ErrorCodeResponse.Keys == all;
  }

  /** The two accessors agree on the message exactly for the values in the table. */
  lemma FallbackAsymmetry(e: PipaError)
    ensures Error(e) == ErrorCode(e).1 <==> e in ErrorCodeResponse
  {
  }

  /** `Ok` is the only value whose code is 200. */
  lemma OkIsOnlySuccess(e: PipaError)
    ensures ErrorCode(Ok) == (200, "ok")
    ensures ErrorCode(e).0 == 200 <==> e == Ok
  {
  }

  /** `ErrInvalidParameter` and its per-field variants; `ErrInvalidParameterFormat` is not one. */
  const InvalidParameterFamily: set<PipaError> := {
    ErrInvalidParameter, ErrInvalidParameterTransparency, ErrInvalidParameterPosition,
    ErrInvalidParameterXMargin, ErrInvalidParameterYMargin, ErrInvalidParameterVoffset,
    ErrInvalidParameterText, ErrInvalidParameterTextSize, ErrInvalidParameterRotate,
    ErrInvalidParameterFill, ErrInvalidParameterLimit, ErrInvalidParameterMode,
    ErrInvalidParameterProportion, ErrInvalidParameterBorder
  }

  /** Code 403 is shared by exactly the invalid-parameter family. */
  lemma InvalidParameterShares403(e: PipaError)
    ensures ErrorCode(e).0 == 403 <==> e in InvalidParameterFamily
  {
  }

  /** Every value in the table has its own message, so the invalid-parameter variants
      can be told apart by message although they share a code. */
  lemma MessagesDistinct(a: PipaError, b: PipaError)
    requires a in ErrorCodeResponse && b in ErrorCodeResponse
    requires a != b
    ensures Error(a) != Error(b)
  {
  }

  /** Codes are not injective: 406 and 407 each name two errors. */
  lemma SharedCodes()
    ensures ErrorCode(ErrInvalidWatermarkProcess).0 == ErrorCode(ErrInvalidWatermarkPicture).0 == 406
    ensures ErrorCode(ErrPictureWidthOrHeightTooLong).0 == ErrorCode(ErrWatermarkCanNotProcess).0 == 407
  {
  }

  /** A failure reported by the planning layer: a taxonomy value, the zero-size error
      that imagick/process.go uses but error/error_codes.go does not declare, or an error
      coming back from a call outside this model. */
  datatype Fault =
    | Pipa(err: PipaError)
    | WidthOrHeightIsZero
    | Foreign(reason: string)
}
