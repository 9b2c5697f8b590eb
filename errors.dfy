/** The service's error taxonomy (internal/logic/errors/errors.go). */
module Errors {
  import opened Wrappers

  /** A Go `error` value as the service tells them apart: its own `*AppError`
      (status, slug and an optional wrapped error) or any other error, such as a
      raw store failure, which carries only its text. */
  datatype GoError =
    | AppError(httpStatus: int, slug: string, err: Option<GoError>)
    | OtherError(text: string)

  /** A task's `error` return: `Pass` is Go's nil. */
  datatype Outcome = Pass | Fail(error: GoError)

  // The net/http status codes the table uses.
  const StatusBadRequest := 400
  const StatusForbidden := 403
  const StatusNotFound := 404
  const StatusMethodNotAllowed := 405
  const StatusConflict := 409
  const StatusGone := 410
  const StatusInternalServerError := 500

  // The sentinel table; none of them wraps another error.
  const ErrInternalServerError := AppError(StatusInternalServerError, "error_captcha_server", None)
  const ErrInvalidSignature := AppError(StatusForbidden, "error_pow_signature", None)
  const ErrSeedAlreadyUsed := AppError(StatusConflict, "error_pow_double_spend", None)
  const ErrPowExpired := AppError(StatusGone, "error_pow_expired", None)
  const ErrInsufficientWork := AppError(StatusBadRequest, "error_pow_work", None)
  const ErrCaptchaNotFound := AppError(StatusNotFound, "error_captcha_not_found", None)
  const ErrInvalidCaptchaValue := AppError(StatusBadRequest, "error_captcha_invalid", None)
  const ErrNoTriesLeft := AppError(StatusGone, "error_captcha_expired", None)
  const ErrInvalidInput := AppError(StatusBadRequest, "error_message", None)
  const ErrMethodNotAllowed := AppError(StatusMethodNotAllowed, "error_message", None)

  const Sentinels: seq<GoError> := [
    ErrInternalServerError, ErrInvalidSignature, ErrSeedAlreadyUsed, ErrPowExpired,
    ErrInsufficientWork, ErrCaptchaNotFound, ErrInvalidCaptchaValue, ErrNoTriesLeft,
    ErrInvalidInput, ErrMethodNotAllowed
  ]

  /** `(*AppError).Error()`: the wrapped error's text when there is one, else the slug;
      any other error reports its own text. */
  function Message(e: GoError): (r: string)
    ensures e.OtherError? ==> r == e.text
    ensures e.AppError? && e.err.None? ==> r == e.slug
    ensures e.AppError? && e.err.Some? ==> r == Message(e.err.value)
  {
    match e
    case AppError(_, slug, err) => if err.Some? then Message(err.value) else slug
    case OtherError(text) => text
  }

  /** `(*AppError).Unwrap()`; an error without an Unwrap method unwraps to nil. */
  function Unwrap(e: GoError): (r: Option<GoError>)
    ensures e.AppError? ==> r == e.err
    ensures e.OtherError? ==> r == None
  {
    if e.AppError? then e.err else None
  }

  /** The innermost error of the Unwrap chain. */
  function Root(e: GoError): (r: GoError)
    ensures Unwrap(r) == None
  {
    match Unwrap(e)
    case None => e
    case Some(inner) => Root(inner)
  }

  /** The status and slug sent to the client. */
  datatype Classification = Classification(status: int, slug: string)

  /** The `errors.As` fallback of `WriteJSON`: an `*AppError` is reported with its own
      status and slug; any other error is reported as the internal-server error. */
  function Classify(e: GoError): (c: Classification)
    ensures e.AppError? ==> c == Classification(e.httpStatus, e.slug)
    ensures !e.AppError? ==> c == Classification(StatusInternalServerError, "error_captcha_server")
  {
    var app := if e.AppError? then e else ErrInternalServerError;
    Classification(app.httpStatus, app.slug)
  }

  /** The text of an error is the text of the innermost error it wraps, or the slug
      of the innermost `*AppError` when that one wraps nothing. */
  lemma {:induction false} MessageFollowsChain(e: GoError)
    ensures Message(e) == Message(Root(e))
  {
    match e
    case OtherError(_) =>
    case AppError(_, _, err) =>
      if err.Some? {
        MessageFollowsChain(err.value);
      }
  }

  /** Wrapping one error in an `*AppError` keeps its text and is undone by Unwrap,
      while the client still sees the outer status and slug. */
  lemma WrappedError(status: int, slug: string, inner: GoError)
    ensures Message(AppError(status, slug, Some(inner))) == Message(inner)
    ensures Unwrap(AppError(status, slug, Some(inner))) == Some(inner)
    ensures Classify(AppError(status, slug, Some(inner))) == Classification(status, slug)
  {
  }

  /** Every sentinel reports its slug as its text and classifies to itself. */
  lemma SentinelsReportTheirSlug()
    ensures forall i :: 0 <= i < |Sentinels| ==>
      Message(Sentinels[i]) == Sentinels[i].slug &&
      Unwrap(Sentinels[i]) == None &&
      Classify(Sentinels[i]) == Classification(Sentinels[i].httpStatus, Sentinels[i].slug)
  {
  }

  /** The sentinels are pairwise distinct, and the only two that share a slug are
      InvalidInput (400) and MethodNotAllowed (405). */
  lemma SentinelTable()
    ensures forall i, j :: 0 <= i < j < |Sentinels| ==> Sentinels[i] != Sentinels[j]
    ensures forall i, j :: 0 <= i < j < |Sentinels| && Sentinels[i].slug == Sentinels[j].slug ==>
      i == 8 && j == 9
    ensures ErrInvalidInput.slug == ErrMethodNotAllowed.slug
    ensures ErrInvalidInput.httpStatus == 400 && ErrMethodNotAllowed.httpStatus == 405
    ensures ErrPowExpired.httpStatus == ErrNoTriesLeft.httpStatus == 410
    ensures ErrPowExpired.slug != ErrNoTriesLeft.slug
  {
  }

  /** The verify handler's tests: an InvalidCaptchaValue reaches the client as 400
      `error_captcha_invalid`, an unknown error as 500 `error_captcha_server`. */
  lemma ClassifyExamples(text: string)
    ensures Classify(ErrInvalidCaptchaValue) == Classification(400, "error_captcha_invalid")
    ensures Classify(OtherError(text)) == Classification(500, "error_captcha_server")
  {
  }

  /** The captcha handler's test: an InvalidSignature reaches the client as 403
      `error_pow_signature`. */
  lemma SignatureErrorClassified()
    ensures Classify(ErrInvalidSignature) == Classification(403, "error_pow_signature")
  {
  }
}
