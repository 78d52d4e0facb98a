/**
 * The serverless entry point: its own size and body checks, written out inline with a
 * fixed 10 MB limit, then the relay handler, inside a catch that answers
 * `500 Internal server error`.
 */
module ApiRelay {
  import opened Wrappers
  import opened Js
  import opened Host
  import opened Config
  import opened Http
  import opened Formatters
  import opened Validation
  import opened Relay

  /** The fixed limit the entry point applies, whatever the configuration says. */
  const ApiMaxRequestSize: int := 10485760

  const InternalError: string := "Internal server error"

  /**
   * The checks before the relay handler: the declared size first, then, for anything
   * but a preflight, that the body is an object.
   */
  function ApiGate(req: Request): Gate {
    if SizeExceeded(req.contentLength, Some(ApiMaxRequestSize)) then
      Reject(413, ErrorBody(TooLarge, "Request size exceeds maximum of 10485760 bytes"))
    else if req.httpMethod != "OPTIONS" && NotAnObject(req.body) then
      Reject(400, ErrorBody(InvalidBody, InvalidBodyDetails))
    else Next
  }

  /** `handler(req, res)` on a response that has not started. */
  function HandlerRun(req: Request, cfg: Config, rt: Runtime, reply: Provider -> FetchResult): Run {
    match ApiGate(req)
    case Reject(code, body) => Run([], ReplyLog(code, body), true, Returned)
    case Next => CaughtAs(RelayRun(req, cfg, rt, reply), InternalError)
  }

  /**
   * The inline size check is the middleware's size check under a configured limit of
   * 10485760: the same requests are refused, with the same reply.
   */
  lemma SizeCheckIsMiddleware(req: Request, cfg: Config)
    requires cfg.maxRequestSize == Some(10485760)
    ensures SizeExceeded(req.contentLength, Some(ApiMaxRequestSize)) <==> ValidateRequestSize(req.contentLength, cfg).Reject?
    ensures ValidateRequestSize(req.contentLength, cfg).Reject? ==> ApiGate(req) == ValidateRequestSize(req.contentLength, cfg)
  {
    NatText10485760();
    assert SizeDetails(Some(10485760)) == "Request size exceeds maximum of " + "10485760" + " bytes";
    assert "Request size exceeds maximum of " + "10485760" + " bytes" == "Request size exceeds maximum of 10485760 bytes";
  }

  /**
   * A declared size is refused exactly when it is above 10485760, before the body is
   * looked at and whatever the method.
   */
  lemma SizeCheckedFirst(req: Request, size: int)
    requires req.contentLength == Some(DecimalText(size))
    ensures ApiGate(req).Reject? && ApiGate(req).status == 413 <==> size > 10485760
  {
    ParseIntDecimalText(size);
  }

  /** Outside a preflight, the inline body check refuses exactly what the middleware's first test refuses. */
  lemma BodyCheckIsMiddleware(req: Request)
    requires req.httpMethod != "OPTIONS" && !SizeExceeded(req.contentLength, Some(ApiMaxRequestSize))
    ensures ApiGate(req).Reject? <==> ValidateRequestBody(req.body) == Reject(400, ErrorBody(InvalidBody, InvalidBodyDetails))
    ensures ApiGate(req).Reject? ==> ApiGate(req) == ValidateRequestBody(req.body)
  {
    if !NotAnObject(req.body) {
      var v := ValidateRequestBody(req.body);
      assert v == Next || v == Reject(400, ErrorBody(InvalidFormat, InvalidFormatDetails));
      var body, format := ErrorBody(InvalidBody, InvalidBodyDetails), ErrorBody(InvalidFormat, InvalidFormatDetails);
      assert body.fields["error"].s[8] != format.fields["error"].s[8];
    }
  }

  /** A preflight of acceptable size reaches the relay handler whatever its body, and gets the empty 200. */
  lemma PreflightPasses(req: Request, cfg: Config, rt: Runtime, reply: Provider -> FetchResult)
    requires req.httpMethod == "OPTIONS" && !SizeExceeded(req.contentLength, Some(ApiMaxRequestSize))
    ensures HandlerRun(req, cfg, rt, reply) == Run([], CorsHeaders() + [Status(200), Action.End], true, Returned)
  {
  }

  /**
   * The entry point's catch never changes the outcome: a request that passes the checks
   * is handled exactly as the relay handler alone handles it, since that handler throws
   * only once the response has ended, when the catch's own reply is refused in turn.
   */
  lemma CatchIsTransparent(req: Request, cfg: Config, rt: Runtime, reply: Provider -> FetchResult)
    requires ApiGate(req).Next?
    ensures HandlerRun(req, cfg, rt, reply) == RelayRun(req, cfg, rt, reply)
  {
    RelayAlwaysAnswers(req, cfg, rt, reply);
  }

  /**
   * Every request gets an answer: the response is started and finished; a throw only
   * carries the refusal of a reply after a stream was ended.
   */
  lemma HandlerAlwaysAnswers(req: Request, cfg: Config, rt: Runtime, reply: Provider -> FetchResult)
    ensures var r := HandlerRun(req, cfg, rt, reply);
            && r.sent && Finished(r.log)
            && (r.outcome.Threw? ==> r.outcome.error == HeadersSentError && Ended(r.log))
  {
    if ApiGate(req).Next? {
      CatchIsTransparent(req, cfg, rt, reply);
      RelayAlwaysAnswers(req, cfg, rt, reply);
    }
  }

  /** `handler(req, res)`. */
  method Handler(req: Request, res: ServerResponse, net: Network, cfg: Config, rt: Runtime)
    returns (outcome: Completion)
    requires !res.headersSent
    modifies res, net
    ensures var r := HandlerRun(req, cfg, rt, net.reply);
            && res.log == old(res.log) + r.log && net.trace == old(net.trace) + r.net
            && res.headersSent == r.sent && outcome == r.outcome
  {
    if req.contentLength.Some? && req.contentLength.value != "" {
      var size := ParseInt(req.contentLength.value);
      if size.Some? && size.value > ApiMaxRequestSize {
        var refused := res.Reply(413, ErrorBody(TooLarge, "Request size exceeds maximum of 10485760 bytes"));
        return Returned;
      }
    }
    if req.httpMethod != "OPTIONS" && NotAnObject(req.body) {
      var refused := res.Reply(400, ErrorBody(InvalidBody, InvalidBodyDetails));
      return Returned;
    }
    ghost var relayed := RelayRun(req, cfg, rt, net.reply);
    var handled := RelayHandler(req, res, net, cfg, rt);
    if handled.Threw? {
      var refused := res.Reply(500, ErrorBody(InternalError, handled.error.message));
      if refused.Some? {
        return Threw(refused.value);
      }
      AppendAssoc(old(res.log), relayed.log, ReplyLog(500, ErrorBody(InternalError, handled.error.message)));
    }
    return Returned;
  }
}
