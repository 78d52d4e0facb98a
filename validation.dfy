/**
 * The request-validation middleware: a size limit on `content-length`, and a check that
 * the body is an object in one of the two accepted shapes. Each either passes the
 * request on (`next()`) or answers it with an error.
 */
module Validation {
  import opened Wrappers
  import opened Js
  import opened Config
  import opened Http
  import opened Formatters

  /** What a middleware does with a request: pass it on, or answer it with a status and a JSON body. */
  datatype Gate = Next | Reject(status: int, body: Value)

  const TooLarge: string := "Request entity too large"
  const InvalidBody: string := "Invalid request body"
  const InvalidBodyDetails: string := "Request body must be a valid JSON object"
  const InvalidFormat: string := "Invalid payload format"
  const InvalidFormatDetails: string :=
    "Payload must be in Coze format (bot_id, user_id, additional_messages) or DeepSeek format (model, messages)"

  /**
   * `contentLength && parseInt(contentLength, 10) > limit`: an absent or empty header,
   * a header with no leading digits, and a limit that is NaN all let the request through.
   */
  predicate SizeExceeded(contentLength: Option<string>, limit: Option<int>) {
    && contentLength.Some? && contentLength.value != ""
    && ParseInt(contentLength.value).Some? && limit.Some?
    && ParseInt(contentLength.value).value > limit.value
  }

  /** `Request size exceeds maximum of <limit> bytes`. */
  function SizeDetails(limit: Option<int>): string {
    "Request size exceeds maximum of " + NumberText(limit) + " bytes"
  }

  /** `validateRequestSize(req, res, next)`. */
  function ValidateRequestSize(contentLength: Option<string>, cfg: Config): Gate {
    if SizeExceeded(contentLength, cfg.maxRequestSize) then Reject(413, ErrorBody(TooLarge, SizeDetails(cfg.maxRequestSize)))
    else Next
  }

  /** `!body || typeof body !== 'object'`. */
  predicate NotAnObject(body: Value) {
    !Truthy(body) || !TypeofObject(body)
  }

  /** `validateRequestBody(req, res, next)`. */
  function ValidateRequestBody(body: Value): Gate {
    if NotAnObject(body) then Reject(400, ErrorBody(InvalidBody, InvalidBodyDetails))
    else
      var hasCozeFormat := Or(Or(Get(body, "bot_id"), Get(body, "user_id")), Get(body, "additional_messages"));
      var hasDeepSeekFormat := And(Get(body, "model"), Bool(IsArray(Get(body, "messages"))));
      if !Truthy(hasCozeFormat) && !Truthy(hasDeepSeekFormat) then Reject(400, ErrorBody(InvalidFormat, InvalidFormatDetails))
      else Next
  }

  /** A declared size is refused exactly when it is above the limit. */
  lemma SizeLimitBoundary(size: int, cfg: Config)
    requires cfg.maxRequestSize.Some?
    ensures ValidateRequestSize(Some(DecimalText(size)), cfg).Reject? <==> size > cfg.maxRequestSize.value
    ensures ValidateRequestSize(Some(DecimalText(size)), cfg).Reject? ==>
              ValidateRequestSize(Some(DecimalText(size)), cfg)
              == Reject(413, ErrorBody("Request entity too large",
                                       "Request size exceeds maximum of " + DecimalText(cfg.maxRequestSize.value) + " bytes"))
  {
    ParseIntDecimalText(size);
  }

  /** Without a size to read, or with a limit that is not a number, the size check never refuses. */
  lemma SizeUnreadablePasses(contentLength: Option<string>, cfg: Config)
    requires contentLength.None? || contentLength == Some("") || ParseInt(contentLength.value).None? || cfg.maxRequestSize.None?
    ensures ValidateRequestSize(contentLength, cfg) == Next
  {
  }

  /**
   * The body check lets a request through exactly when the relay handler can route it:
   * an object that is Coze-shaped or DeepSeek-shaped. Anything else gets a 400, a
   * non-object body with the body error, a shapeless object with the format error.
   */
  lemma BodyCheckMatchesRouting(body: Value)
    ensures ValidateRequestBody(body) == Next <==> TypeofObject(body) && (IsCozeFormat(body) || IsDeepSeekFormat(body))
    ensures NotAnObject(body) ==> ValidateRequestBody(body) == Reject(400, ErrorBody(InvalidBody, InvalidBodyDetails))
    ensures !NotAnObject(body) && !IsCozeFormat(body) && !IsDeepSeekFormat(body) ==>
              ValidateRequestBody(body) == Reject(400, ErrorBody(InvalidFormat, InvalidFormatDetails))
  {
  }

  /** Arrays are objects to `typeof` but hold none of the fields: they fail the format check, not the body check. */
  lemma ArrayBodyHasNoFormat(items: seq<Value>)
    ensures ValidateRequestBody(Arr(items)) == Reject(400, ErrorBody(InvalidFormat, InvalidFormatDetails))
  {
  }
}
