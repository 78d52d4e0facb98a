/**
 * The relay handler: CORS and method checks, the configuration check, routing by
 * payload shape, Coze first with fallback to DeepSeek for Coze-shaped payloads,
 * DeepSeek directly for DeepSeek-shaped ones, and the catch that turns an error into a
 * 500 reply.
 */
module Relay {
  import opened Wrappers
  import opened Js
  import opened Host
  import opened Config
  import opened Formatters
  import opened Http
  import opened StreamingHandler
  import opened CozeApi
  import opened DeepSeekApi
  import opened Validation

  const ProxyError: string := "Proxy Error"
  const ConfigurationError: string := "Configuration error"

  /** `{error: 'Method Not Allowed'}`. */
  const MethodNotAllowed: Value := Obj(map["error" := Str("Method Not Allowed")])

  /** The CORS headers every answer carries. */
  function CorsHeaders(): seq<Action> {
    [Header("Access-Control-Allow-Origin", "*"),
     Header("Access-Control-Allow-Methods", "GET, POST, PUT, DELETE, OPTIONS"),
     Header("Access-Control-Allow-Headers", "Content-Type, Authorization")]
  }

  /** `setCorsHeaders(res)`. */
  method SetCorsHeaders(res: ServerResponse)
    requires !res.headersSent
    modifies res
    ensures res.log == old(res.log) + CorsHeaders() && !res.headersSent
  {
    var err := res.SetHeader("Access-Control-Allow-Origin", "*");
    err := res.SetHeader("Access-Control-Allow-Methods", "GET, POST, PUT, DELETE, OPTIONS");
    err := res.SetHeader("Access-Control-Allow-Headers", "Content-Type, Authorization");
  }

  // ---------------------------------------------------------------------------
  // The specification
  // ---------------------------------------------------------------------------

  /** How the Coze attempt ends: it answered the request, or the request falls back to DeepSeek after these effects. */
  datatype Attempt = Answered(run: Run) | FellBack(net: seq<NetEvent>, log: seq<Action>, sent: bool)

  /** How a Coze answer is delivered: streamed through when streaming was asked for and there is a body, else as JSON. */
  function CozeAnswerRun(response: UpstreamResponse, shouldStream: bool, sent: bool): (r: Run)
    ensures r.net == []
  {
    if shouldStream && response.hasBody then PassThroughRun(response.stream, sent) else NonStreamingRun(response, sent)
  }

  /**
   * The Coze attempt. A 2xx answer is streamed through or forwarded; any error thrown
   * on the way (a failed fetch, a failed stream) and any other status fall back.
   */
  function CozeAttempt(body: Value, shouldStream: bool, cfg: Config, reply: Provider -> FetchResult, sent: bool): Attempt {
    var call := CozeCall(body, cfg, reply);
    match call.result
    case Failure(_) => FellBack(call.net, [], sent)
    case Success(response) =>
      if !response.Ok() then FellBack(call.net, [], sent)
      else
        var handled := CozeAnswerRun(response, shouldStream, sent);
        if handled.outcome.Returned? then Answered(After(call.net, [], handled))
        else FellBack(call.net + handled.net, handled.log, handled.sent)
  }

  /**
   * How a DeepSeek answer is delivered: when streaming was asked for and there is a
   * body, translated into Coze's events for a Coze-shaped payload and passed through
   * for a DeepSeek-shaped one; otherwise as JSON.
   */
  function DeepSeekAnswerRun(response: UpstreamResponse, isCozeFormat: bool, shouldStream: bool, rt: Runtime, sent: bool): (r: Run)
    ensures r.net == []
  {
    if shouldStream && response.hasBody then
      (if isCozeFormat then TranslateRun(response.stream, rt, sent) else PassThroughRun(response.stream, sent))
    else NonStreamingRun(response, sent)
  }

  /** The DeepSeek call and the delivery of its answer; an error is rethrown. */
  function DeepSeekLeg(body: Value, isCozeFormat: bool, shouldStream: bool, cfg: Config, rt: Runtime,
                       reply: Provider -> FetchResult, sent: bool): Run {
    var call := DeepSeekCall(body, isCozeFormat, cfg, rt, reply);
    match call.result
    case Failure(e) => Run(call.net, [], sent, Threw(e))
    case Success(response) => After(call.net, [], DeepSeekAnswerRun(response, isCozeFormat, shouldStream, rt, sent))
  }

  /** `handleCozeFormatRequest(req, res)`: Coze when enabled and keyed, else or on failure DeepSeek. */
  function CozeFormatRun(body: Value, cfg: Config, rt: Runtime, reply: Provider -> FetchResult, sent: bool): Run {
    match ReadProperty(body, "stream")
    case Failure(e) => Run([], [], sent, Threw(e))
    case Success(flag) => CozeRoute(body, flag == Bool(true), cfg, rt, reply, sent)
  }

  /** The Coze attempt, when Coze is enabled and keyed, then DeepSeek unless Coze answered. */
  function CozeRoute(body: Value, shouldStream: bool, cfg: Config, rt: Runtime, reply: Provider -> FetchResult, sent: bool): Run {
    var attempt := if cfg.useCoze && Present(cfg.cozeApiKey) then CozeAttempt(body, shouldStream, cfg, reply, sent)
                   else FellBack([], [], sent);
    match attempt
    case Answered(run) => run
    case FellBack(net, log, s) => After(net, log, DeepSeekLeg(body, true, shouldStream, cfg, rt, reply, s))
  }

  /** `handleDeepSeekFormatRequest(req, res)`: DeepSeek directly, whatever the Coze setting. */
  function DeepSeekFormatRun(body: Value, cfg: Config, rt: Runtime, reply: Provider -> FetchResult, sent: bool): Run {
    match ReadProperty(body, "stream")
    case Failure(e) => Run([], [], sent, Threw(e))
    case Success(flag) => DeepSeekLeg(body, false, flag == Bool(true), cfg, rt, reply, sent)
  }

  /** The routing inside the handler's try: Coze-shaped first, then DeepSeek-shaped, else a 400. */
  function Routed(body: Value, cfg: Config, rt: Runtime, reply: Provider -> FetchResult): Run {
    if IsCozeFormat(body) then CozeFormatRun(body, cfg, rt, reply, false)
    else if IsDeepSeekFormat(body) then DeepSeekFormatRun(body, cfg, rt, reply, false)
    else Run([], ReplyLog(400, ErrorBody(InvalidFormat, InvalidFormatDetails)), true, Returned)
  }

  /**
   * A catch that answers `500 {error, details: err.message}`; once the response has
   * started, that reply is refused and the refusal propagates.
   */
  function CaughtAs(run: Run, error: string): Run {
    if run.outcome.Returned? then run
    else if run.sent then Run(run.net, run.log, true, Threw(HeadersSentError))
    else Run(run.net, run.log + ReplyLog(500, ErrorBody(error, run.outcome.error.message)), true, Returned)
  }

  /** `relayHandler(req, res)` on a response that has not started. */
  function RelayRun(req: Request, cfg: Config, rt: Runtime, reply: Provider -> FetchResult): Run {
    if req.httpMethod == "OPTIONS" then Run([], CorsHeaders() + [Status(200), Action.End], true, Returned)
    else if req.httpMethod != "POST" then Run([], CorsHeaders() + ReplyLog(405, MethodNotAllowed), true, Returned)
    else
      match ValidateConfig(cfg)
      case Threw(e) => Run([], CorsHeaders() + ReplyLog(500, ErrorBody(ConfigurationError, e.message)), true, Returned)
      case Returned => After([], CorsHeaders(), CaughtAs(Routed(req.body, cfg, rt, reply), ProxyError))
  }

  // ---------------------------------------------------------------------------
  // Every request is answered
  // ---------------------------------------------------------------------------

  /** The last effect is the end of the response. */
  predicate Ended(log: seq<Action>) {
    |log| > 0 && log[|log| - 1] == Action.End
  }

  /**
   * A run on a response that had not started: returning, it has answered; throwing, it
   * has either ended the response or not touched it.
   */
  predicate Settled(r: Run) {
    && (r.outcome.Returned? ==> r.sent && Finished(r.log))
    && (r.outcome.Threw? ==> (r.sent && Ended(r.log)) || (!r.sent && r.log == []))
  }

  /** Each answering handler settles a fresh response, and refuses a started one without effect. */
  lemma HandlersSettle(response: UpstreamResponse, body: Body, rt: Runtime)
    ensures Settled(PassThroughRun(body, false)) && Settled(NonStreamingRun(response, false))
    ensures Settled(TranslateRun(body, rt, false))
    ensures PassThroughRun(body, true) == Run([], [], true, Threw(HeadersSentError))
    ensures NonStreamingRun(response, true) == Run([], [], true, Threw(HeadersSentError))
    ensures TranslateRun(body, rt, true) == Run([], [], true, Threw(HeadersSentError))
  {
    assert Settled(PassThroughRun(body, false)) by {
      assert Finished(EventStreamHeaders() + ChunkWrites(body.chunks) + [Action.End]);
    }
    assert Settled(NonStreamingRun(response, false)) by {
      NonStreamingAnswers(response);
    }
    TranslateRunShape(body, rt);
  }

  /** After a started response, the DeepSeek leg writes nothing and throws. */
  lemma LegAfterStart(body: Value, isCozeFormat: bool, shouldStream: bool, cfg: Config, rt: Runtime, reply: Provider -> FetchResult)
    ensures var r := DeepSeekLeg(body, isCozeFormat, shouldStream, cfg, rt, reply, true);
            r.log == [] && r.sent && r.outcome.Threw?
  {
  }

  lemma LegSettles(body: Value, isCozeFormat: bool, shouldStream: bool, cfg: Config, rt: Runtime, reply: Provider -> FetchResult)
    ensures Settled(DeepSeekLeg(body, isCozeFormat, shouldStream, cfg, rt, reply, false))
  {
    var call := DeepSeekCall(body, isCozeFormat, cfg, rt, reply);
    if call.result.Success? {
      HandlersSettle(call.result.value, call.result.value.stream, rt);
    }
  }

  /** The Coze attempt on a fresh response answers, or falls back with the response untouched or ended. */
  lemma AttemptSettles(body: Value, shouldStream: bool, cfg: Config, reply: Provider -> FetchResult, rt: Runtime)
    ensures match CozeAttempt(body, shouldStream, cfg, reply, false)
            case Answered(run) => run.outcome.Returned? && run.sent && Finished(run.log)
            case FellBack(_, log, s) => (s && Ended(log)) || (!s && log == [])
  {
    var call := CozeCall(body, cfg, reply);
    if call.result.Success? {
      HandlersSettle(call.result.value, call.result.value.stream, rt);
    }
  }

  lemma CozeFormatSettles(body: Value, cfg: Config, rt: Runtime, reply: Provider -> FetchResult)
    ensures Settled(CozeFormatRun(body, cfg, rt, reply, false))
  {
    if ReadProperty(body, "stream").Success? {
      var shouldStream := ReadProperty(body, "stream").value == Bool(true);
      if cfg.useCoze && Present(cfg.cozeApiKey) {
        AttemptSettles(body, shouldStream, cfg, reply, rt);
        match CozeAttempt(body, shouldStream, cfg, reply, false)
        case Answered(_) =>
        case FellBack(net, log, s) =>
          if s {
            LegAfterStart(body, true, shouldStream, cfg, rt, reply);
            AppendEmpty(log);
          } else {
            LegSettles(body, true, shouldStream, cfg, rt, reply);
            AppendEmpty(DeepSeekLeg(body, true, shouldStream, cfg, rt, reply, s).log);
          }
      } else {
        LegSettles(body, true, shouldStream, cfg, rt, reply);
        AppendEmpty(DeepSeekLeg(body, true, shouldStream, cfg, rt, reply, false).log);
      }
    }
  }

  lemma RoutedSettles(body: Value, cfg: Config, rt: Runtime, reply: Provider -> FetchResult)
    ensures Settled(Routed(body, cfg, rt, reply))
  {
    if IsCozeFormat(body) {
      CozeFormatSettles(body, cfg, rt, reply);
    } else if IsDeepSeekFormat(body) && ReadProperty(body, "stream").Success? {
      LegSettles(body, false, ReadProperty(body, "stream").value == Bool(true), cfg, rt, reply);
    }
  }

  /** The catch leaves every settled run answered, or rethrowing only the refusal of a response already ended. */
  lemma CaughtAnswers(run: Run, error: string)
    requires Settled(run)
    ensures var c := CaughtAs(run, error);
            && c.sent && Finished(c.log)
            && (c.outcome.Threw? ==> c.outcome.error == HeadersSentError && Ended(c.log))
            && c.net == run.net
  {
  }

  /**
   * Every request the relay handler takes gets an answer: the response is started and
   * its last effect ends it. When the handler throws, the only error is the refusal of
   * a reply after a streamed answer was cut short and ended.
   */
  lemma RelayAlwaysAnswers(req: Request, cfg: Config, rt: Runtime, reply: Provider -> FetchResult)
    ensures var r := RelayRun(req, cfg, rt, reply);
            && r.sent && Finished(r.log)
            && (r.outcome.Threw? ==> r.outcome.error == HeadersSentError && Ended(r.log))
  {
    if req.httpMethod == "POST" && ValidateConfig(cfg).Returned? {
      RoutedSettles(req.body, cfg, rt, reply);
      CaughtAnswers(Routed(req.body, cfg, rt, reply), ProxyError);
    }
  }

  // ---------------------------------------------------------------------------
  // Answers without an upstream
  // ---------------------------------------------------------------------------

  /**
   * Requests answered before any upstream is called: a preflight (200, empty), any
   * method but POST (405), a failed configuration check (500 with its message), and a
   * payload of neither shape (400). Each carries the CORS headers first.
   */
  lemma AnsweredLocally(req: Request, cfg: Config, rt: Runtime, reply: Provider -> FetchResult)
    ensures var r := RelayRun(req, cfg, rt, reply);
            && (req.httpMethod == "OPTIONS" ==> r == Run([], CorsHeaders() + [Status(200), Action.End], true, Returned))
            && (req.httpMethod != "OPTIONS" && req.httpMethod != "POST" ==>
                  r == Run([], CorsHeaders() + [Status(405), Json(Obj(map["error" := Str("Method Not Allowed")]))], true, Returned))
            && (req.httpMethod == "POST" && ValidateConfig(cfg).Threw? ==>
                  r == Run([], CorsHeaders() + [Status(500), Json(ErrorBody("Configuration error", ValidateConfig(cfg).error.message))],
                           true, Returned))
            && (req.httpMethod == "POST" && ValidateConfig(cfg).Returned? && !IsCozeFormat(req.body) && !IsDeepSeekFormat(req.body) ==>
                  r == Run([], CorsHeaders() + [Status(400), Json(ErrorBody(InvalidFormat, InvalidFormatDetails))], true, Returned))
  {
  }

  // ---------------------------------------------------------------------------
  // Which upstreams are called
  // ---------------------------------------------------------------------------

  /** The Coze request for a payload. */
  function CozeOutbound(body: Value, cfg: Config): Outbound
    requires Present(cfg.cozeApiKey)
  {
    Outbound(Provider.Coze, cfg.cozeApiUrl, Bearer(cfg.cozeApiKey.value), body)
  }

  /** The DeepSeek request for a built chat request. */
  function DeepSeekOutbound(request: ChatRequest, cfg: Config): Outbound
    requires Present(cfg.deepseekApiKey)
  {
    Outbound(Provider.DeepSeek, cfg.deepseekApiUrl, Bearer(cfg.deepseekApiKey.value), request.ToValue())
  }

  lemma CozeCallRequests(body: Value, cfg: Config, reply: Provider -> FetchResult)
    ensures Requests(CozeCall(body, cfg, reply).net) == if Present(cfg.cozeApiKey) then [CozeOutbound(body, cfg)] else []
  {
    CozeCallContract(body, cfg, reply);
  }

  lemma DeepSeekCallRequests(body: Value, isCozeFormat: bool, cfg: Config, rt: Runtime, reply: Provider -> FetchResult)
    ensures var built := DeepSeekPayload(body, isCozeFormat, rt);
            Requests(DeepSeekCall(body, isCozeFormat, cfg, rt, reply).net)
            == if Present(cfg.deepseekApiKey) && built.Success? then [DeepSeekOutbound(built.value, cfg)] else []
  {
    if Present(cfg.deepseekApiKey) && DeepSeekPayload(body, isCozeFormat, rt).Success? {
      DeepSeekCallContract(body, isCozeFormat, cfg, rt, reply);
    }
  }

  /** The DeepSeek leg sends at most the one DeepSeek request, and the answering handlers send none. */
  lemma LegRequests(body: Value, isCozeFormat: bool, shouldStream: bool, cfg: Config, rt: Runtime,
                    reply: Provider -> FetchResult, sent: bool)
    ensures Requests(DeepSeekLeg(body, isCozeFormat, shouldStream, cfg, rt, reply, sent).net)
            == Requests(DeepSeekCall(body, isCozeFormat, cfg, rt, reply).net)
  {
    AppendEmpty(DeepSeekCall(body, isCozeFormat, cfg, rt, reply).net);
  }

  /**
   * A Coze-shaped payload with Coze enabled: the Coze request goes out first. When Coze
   * answers with a 2xx status and its answer is delivered, that is the only request;
   * otherwise the converted payload is sent to DeepSeek next (when it builds).
   */
  lemma CozeFirstThenFallback(body: Value, cfg: Config, rt: Runtime, reply: Provider -> FetchResult)
    requires ReadProperty(body, "stream").Success?
    requires cfg.useCoze && Present(cfg.cozeApiKey) && Present(cfg.deepseekApiKey)
    requires ConvertCozeToDeepSeek(body, rt).Success?
    ensures var r := CozeFormatRun(body, cfg, rt, reply, false);
            var attempt := CozeAttempt(body, ReadProperty(body, "stream").value == Bool(true), cfg, reply, false);
            && (attempt.Answered? ==> Requests(r.net) == [CozeOutbound(body, cfg)])
            && (attempt.FellBack? ==>
                  Requests(r.net) == [CozeOutbound(body, cfg), DeepSeekOutbound(ConvertCozeToDeepSeek(body, rt).value, cfg)])
  {
    var shouldStream := ReadProperty(body, "stream").value == Bool(true);
    CozeCallRequests(body, cfg, reply);
    DeepSeekCallRequests(body, true, cfg, rt, reply);
    AttemptNet(body, shouldStream, cfg, reply, false);
    match CozeAttempt(body, shouldStream, cfg, reply, false)
    case Answered(run) =>
    case FellBack(net, log, s) =>
      var leg := DeepSeekLeg(body, true, shouldStream, cfg, rt, reply, s);
      LegRequests(body, true, shouldStream, cfg, rt, reply, s);
      RequestsAppend(net, leg.net);
  }

  /** The Coze attempt's network events are its call's: delivering an answer sends nothing. */
  lemma AttemptNet(body: Value, shouldStream: bool, cfg: Config, reply: Provider -> FetchResult, sent: bool)
    ensures match CozeAttempt(body, shouldStream, cfg, reply, sent)
            case Answered(run) => run.net == CozeCall(body, cfg, reply).net
            case FellBack(net, _, _) => net == CozeCall(body, cfg, reply).net
  {
    AppendEmpty(CozeCall(body, cfg, reply).net);
  }

  /** The Coze attempt falls back exactly when its fetch fails, its status is not 2xx, or delivering its answer throws. */
  lemma FallbackWhen(body: Value, shouldStream: bool, cfg: Config, reply: Provider -> FetchResult)
    requires Present(cfg.cozeApiKey)
    ensures var answer := reply(Provider.Coze);
            CozeAttempt(body, shouldStream, cfg, reply, false).FellBack? <==>
              || answer.Rejected?
              || !answer.response.Ok()
              || (shouldStream && answer.response.hasBody && answer.response.stream.failure.Some?)
  {
  }

  /** With Coze disabled or without its key, a Coze-shaped payload goes to DeepSeek only, converted. */
  lemma CozeDisabledDirect(body: Value, cfg: Config, rt: Runtime, reply: Provider -> FetchResult)
    requires ReadProperty(body, "stream").Success?
    requires !(cfg.useCoze && Present(cfg.cozeApiKey))
    ensures CozeFormatRun(body, cfg, rt, reply, false)
            == DeepSeekLeg(body, true, ReadProperty(body, "stream").value == Bool(true), cfg, rt, reply, false)
  {
    var leg := DeepSeekLeg(body, true, ReadProperty(body, "stream").value == Bool(true), cfg, rt, reply, false);
    AppendEmpty(leg.net);
    AppendEmpty(leg.log);
  }

  /** A DeepSeek-shaped payload that is not Coze-shaped never reaches Coze, even with Coze enabled. */
  lemma DeepSeekFormatSkipsCoze(req: Request, cfg: Config, rt: Runtime, reply: Provider -> FetchResult)
    requires req.httpMethod == "POST" && ValidateConfig(cfg).Returned?
    requires IsDeepSeekFormat(req.body) && !IsCozeFormat(req.body)
    ensures var r := RelayRun(req, cfg, rt, reply);
            Requests(r.net) == [DeepSeekOutbound(DefaultedRequest(req.body).value, cfg)]
  {
    DeepSeekFormatKept(req.body);
    DeepSeekFormatIff(req.body);
    var shouldStream := ReadProperty(req.body, "stream").value == Bool(true);
    LegRequests(req.body, false, shouldStream, cfg, rt, reply, false);
    DeepSeekCallRequests(req.body, false, cfg, rt, reply);
    var routed := Routed(req.body, cfg, rt, reply);
    assert routed == DeepSeekLeg(req.body, false, shouldStream, cfg, rt, reply, false);
    assert Present(cfg.deepseekApiKey);
    assert DeepSeekPayload(req.body, false, rt) == DefaultedRequest(req.body);
    assert CaughtAs(routed, ProxyError).net == routed.net;
    AppendEmpty(routed.net);
  }

  /**
   * A DeepSeek failure on a response not yet started (a failed fetch, a timeout, a
   * status that is not 2xx) is answered with 500 `Proxy Error` and the error's message;
   * the upstream's status is not passed on.
   */
  lemma DeepSeekFailureIsProxyError(req: Request, cfg: Config, rt: Runtime, reply: Provider -> FetchResult)
    requires req.httpMethod == "POST" && ValidateConfig(cfg).Returned?
    requires IsDeepSeekFormat(req.body) && !IsCozeFormat(req.body)
    requires DeepSeekCall(req.body, false, cfg, rt, reply).result.Failure?
    ensures var r := RelayRun(req, cfg, rt, reply);
            var e := DeepSeekCall(req.body, false, cfg, rt, reply).result.error;
            r.outcome.Returned? && r.log == CorsHeaders() + [Status(500), Json(ErrorBody("Proxy Error", e.message))]
  {
    DeepSeekFormatIff(req.body);
  }

  /**
   * A DeepSeek-shaped payload that DeepSeek answers: after the CORS headers, the answer
   * is passed through as a stream when `stream` is exactly `true` and the response has a
   * body, and forwarded as JSON otherwise. A stream that breaks off is not answered again.
   */
  lemma DeepSeekShapedDelivery(req: Request, cfg: Config, rt: Runtime, reply: Provider -> FetchResult)
    requires req.httpMethod == "POST" && ValidateConfig(cfg).Returned?
    requires IsDeepSeekFormat(req.body) && !IsCozeFormat(req.body)
    requires DeepSeekCall(req.body, false, cfg, rt, reply).result.Success?
    ensures var response := DeepSeekCall(req.body, false, cfg, rt, reply).result.value;
            var streamed := Get(req.body, "stream") == Bool(true) && response.hasBody;
            RelayRun(req, cfg, rt, reply).log ==
              CorsHeaders() + (if streamed then PassThroughRun(response.stream, false) else NonStreamingRun(response, false)).log
  {
    DeepSeekFormatIff(req.body);
    var shouldStream := Get(req.body, "stream") == Bool(true);
    var call := DeepSeekCall(req.body, false, cfg, rt, reply);
    var delivered := DeepSeekAnswerRun(call.result.value, false, shouldStream, rt, false);
    var routed := Routed(req.body, cfg, rt, reply);
    assert routed == DeepSeekLeg(req.body, false, shouldStream, cfg, rt, reply, false);
    assert routed.log == delivered.log by {
      AppendEmpty(delivered.log);
    }
    assert CaughtAs(routed, ProxyError).log == routed.log;
  }

  /**
   * A Coze-shaped payload that falls back before Coze has written anything (Coze off or
   * unkeyed, a failed Coze fetch, a Coze status that is not 2xx) and that DeepSeek then
   * answers: after the CORS headers, DeepSeek's stream translated into Coze's events when
   * `stream` is exactly `true` and the response has a body, else its JSON forwarded.
   */
  lemma CozeFallbackDelivery(req: Request, cfg: Config, rt: Runtime, reply: Provider -> FetchResult)
    requires req.httpMethod == "POST" && ValidateConfig(cfg).Returned? && IsCozeFormat(req.body)
    requires var coze := CozeCall(req.body, cfg, reply);
             !(cfg.useCoze && Present(cfg.cozeApiKey)) || coze.result.Failure? || !coze.result.value.Ok()
    requires DeepSeekCall(req.body, true, cfg, rt, reply).result.Success?
    ensures var response := DeepSeekCall(req.body, true, cfg, rt, reply).result.value;
            var streamed := Get(req.body, "stream") == Bool(true) && response.hasBody;
            RelayRun(req, cfg, rt, reply).log ==
              CorsHeaders() + (if streamed then TranslateRun(response.stream, rt, false) else NonStreamingRun(response, false)).log
  {
    CozeFormatIff(req.body);
    var shouldStream := Get(req.body, "stream") == Bool(true);
    var call := DeepSeekCall(req.body, true, cfg, rt, reply);
    var delivered := DeepSeekAnswerRun(call.result.value, true, shouldStream, rt, false);
    var leg := DeepSeekLeg(req.body, true, shouldStream, cfg, rt, reply, false);
    assert leg.log == delivered.log by {
      AppendEmpty(delivered.log);
    }
    var routed := Routed(req.body, cfg, rt, reply);
    assert routed.log == leg.log by {
      assert routed == CozeRoute(req.body, shouldStream, cfg, rt, reply, false);
      AppendEmpty(leg.log);
    }
    assert CaughtAs(routed, ProxyError).log == routed.log;
  }

  /**
   * A Coze-shaped payload that Coze answers with a 2xx status, when delivering that answer
   * does not throw: after the CORS headers, the answer streamed through when `stream` is
   * exactly `true` and the response has a body, else its JSON forwarded; DeepSeek is not
   * called.
   */
  lemma CozeAnsweredDelivery(req: Request, cfg: Config, rt: Runtime, reply: Provider -> FetchResult)
    requires req.httpMethod == "POST" && ValidateConfig(cfg).Returned? && IsCozeFormat(req.body)
    requires cfg.useCoze && Present(cfg.cozeApiKey)
    requires var coze := CozeCall(req.body, cfg, reply);
             coze.result.Success? && coze.result.value.Ok()
    requires var response := CozeCall(req.body, cfg, reply).result.value;
             !(Get(req.body, "stream") == Bool(true) && response.hasBody && response.stream.failure.Some?)
    ensures var response := CozeCall(req.body, cfg, reply).result.value;
            var streamed := Get(req.body, "stream") == Bool(true) && response.hasBody;
            var r := RelayRun(req, cfg, rt, reply);
            && r.log == CorsHeaders() + (if streamed then PassThroughRun(response.stream, false) else NonStreamingRun(response, false)).log
            && r.net == CozeCall(req.body, cfg, reply).net
  {
    CozeFormatIff(req.body);
    var shouldStream := Get(req.body, "stream") == Bool(true);
    var call := CozeCall(req.body, cfg, reply);
    var delivered := CozeAnswerRun(call.result.value, shouldStream, false);
    AppendEmpty(delivered.log);
    AppendEmpty(call.net);
    var routed := Routed(req.body, cfg, rt, reply);
    assert routed == After(call.net, [], delivered) by {
      assert routed == CozeRoute(req.body, shouldStream, cfg, rt, reply, false);
    }
    assert CaughtAs(routed, ProxyError) == routed;
  }

  // ---------------------------------------------------------------------------
  // The handlers
  // ---------------------------------------------------------------------------

  /** Delivers a DeepSeek answer. */
  method DeliverDeepSeekAnswer(res: ServerResponse, response: UpstreamResponse, isCozeFormat: bool, shouldStream: bool,
                               rt: Runtime) returns (outcome: Completion)
    modifies res
    ensures var r := DeepSeekAnswerRun(response, isCozeFormat, shouldStream, rt, old(res.headersSent));
            res.log == old(res.log) + r.log && res.headersSent == r.sent && outcome == r.outcome
  {
    if shouldStream && response.hasBody {
      if isCozeFormat {
        outcome := ConvertDeepSeekStreamToCoze(res, response.stream, rt);
      } else {
        outcome := HandleDeepSeekStreamResponse(res, response.stream);
      }
    } else {
      outcome := HandleNonStreamingResponse(res, response);
    }
  }

  /** The DeepSeek part of both handlers: call, deliver, rethrow. */
  method ForwardToDeepSeek(res: ServerResponse, net: Network, body: Value, isCozeFormat: bool, shouldStream: bool,
                           cfg: Config, rt: Runtime) returns (outcome: Completion)
    modifies res, net
    ensures var r := DeepSeekLeg(body, isCozeFormat, shouldStream, cfg, rt, net.reply, old(res.headersSent));
            && res.log == old(res.log) + r.log && net.trace == old(net.trace) + r.net
            && res.headersSent == r.sent && outcome == r.outcome
  {
    ghost var call := DeepSeekCall(body, isCozeFormat, cfg, rt, net.reply);
    var result := CallDeepSeekApi(net, body, isCozeFormat, cfg, rt);
    if result.Failure? {
      return Threw(result.error);
    }
    ghost var answer := DeepSeekAnswerRun(result.value, isCozeFormat, shouldStream, rt, res.headersSent);
    outcome := DeliverDeepSeekAnswer(res, result.value, isCozeFormat, shouldStream, rt);
    AppendEmpty(answer.log);
    AppendEmpty(call.net);
  }

  /** Delivers a Coze answer. */
  method DeliverCozeAnswer(res: ServerResponse, response: UpstreamResponse, shouldStream: bool) returns (outcome: Completion)
    modifies res
    ensures var r := CozeAnswerRun(response, shouldStream, old(res.headersSent));
            res.log == old(res.log) + r.log && res.headersSent == r.sent && outcome == r.outcome
  {
    if shouldStream && response.hasBody {
      outcome := HandleCozeStreamResponse(res, response.stream);
    } else {
      outcome := HandleNonStreamingResponse(res, response);
    }
  }

  /** The Coze `try` block of `handleCozeFormatRequest`: whether Coze answered the request. */
  method TryCoze(res: ServerResponse, net: Network, body: Value, shouldStream: bool, cfg: Config)
    returns (answered: bool)
    modifies res, net
    ensures var a := CozeAttempt(body, shouldStream, cfg, net.reply, old(res.headersSent));
            && answered == a.Answered?
            && (a.Answered? ==> res.log == old(res.log) + a.run.log && net.trace == old(net.trace) + a.run.net
                                && res.headersSent == a.run.sent && a.run.outcome.Returned?)
            && (a.FellBack? ==> res.log == old(res.log) + a.log && net.trace == old(net.trace) + a.net
                                && res.headersSent == a.sent)
  {
    ghost var call := CozeCall(body, cfg, net.reply);
    var result := CallCozeApi(net, body, cfg);
    if result.Failure? || !result.value.Ok() {
      assert old(res.log) + [] == old(res.log);
      return false;
    }
    ghost var net1 := net.trace;
    var handled := DeliverCozeAnswer(res, result.value, shouldStream);
    assert call.net + [] == call.net;
    ghost var h := CozeAnswerRun(result.value, shouldStream, old(res.headersSent));
    assert net.trace == old(net.trace) + call.net + h.net;
    AppendAssoc(old(net.trace), call.net, h.net);
    return handled.Returned?;
  }

  /** `handleCozeFormatRequest(req, res)`. */
  method HandleCozeFormatRequest(res: ServerResponse, net: Network, body: Value, cfg: Config, rt: Runtime)
    returns (outcome: Completion)
    modifies res, net
    ensures var r := CozeFormatRun(body, cfg, rt, net.reply, old(res.headersSent));
            && res.log == old(res.log) + r.log && net.trace == old(net.trace) + r.net
            && res.headersSent == r.sent && outcome == r.outcome
  {
    var flag := ReadProperty(body, "stream");
    if flag.Failure? {
      return Threw(flag.error);
    }
    outcome := RouteCoze(res, net, body, flag.value == Bool(true), cfg, rt);
  }

  /** The body of `handleCozeFormatRequest` after `shouldStream` is read. */
  method RouteCoze(res: ServerResponse, net: Network, body: Value, shouldStream: bool, cfg: Config, rt: Runtime)
    returns (outcome: Completion)
    modifies res, net
    ensures var r := CozeRoute(body, shouldStream, cfg, rt, net.reply, old(res.headersSent));
            && res.log == old(res.log) + r.log && net.trace == old(net.trace) + r.net
            && res.headersSent == r.sent && outcome == r.outcome
  {
    ghost var attempt := FellBack([], [], res.headersSent);
    if cfg.useCoze && Present(cfg.cozeApiKey) {
      attempt := CozeAttempt(body, shouldStream, cfg, net.reply, res.headersSent);
      var answered := TryCoze(res, net, body, shouldStream, cfg);
      if answered {
        return Returned;
      }
    } else {
      assert res.log == old(res.log) + [] && net.trace == old(net.trace) + [];
    }
    ghost var leg := DeepSeekLeg(body, true, shouldStream, cfg, rt, net.reply, res.headersSent);
    outcome := ForwardToDeepSeek(res, net, body, true, shouldStream, cfg, rt);
    AppendAssoc(old(res.log), attempt.log, leg.log);
    AppendAssoc(old(net.trace), attempt.net, leg.net);
  }

  /** `handleDeepSeekFormatRequest(req, res)`. */
  method HandleDeepSeekFormatRequest(res: ServerResponse, net: Network, body: Value, cfg: Config, rt: Runtime)
    returns (outcome: Completion)
    modifies res, net
    ensures var r := DeepSeekFormatRun(body, cfg, rt, net.reply, old(res.headersSent));
            && res.log == old(res.log) + r.log && net.trace == old(net.trace) + r.net
            && res.headersSent == r.sent && outcome == r.outcome
  {
    var flag := ReadProperty(body, "stream");
    if flag.Failure? {
      return Threw(flag.error);
    }
    outcome := ForwardToDeepSeek(res, net, body, false, flag.value == Bool(true), cfg, rt);
  }

  /** `relayHandler(req, res)`. */
  method RelayHandler(req: Request, res: ServerResponse, net: Network, cfg: Config, rt: Runtime)
    returns (outcome: Completion)
    requires !res.headersSent
    modifies res, net
    ensures var r := RelayRun(req, cfg, rt, net.reply);
            && res.log == old(res.log) + r.log && net.trace == old(net.trace) + r.net
            && res.headersSent == r.sent && outcome == r.outcome
  {
    if req.httpMethod == "OPTIONS" {
      SetCorsHeaders(res);
      res.EndWithStatus(200);
      return Returned;
    }
    if req.httpMethod != "POST" {
      SetCorsHeaders(res);
      var refused := res.Reply(405, MethodNotAllowed);
      return Returned;
    }
    SetCorsHeaders(res);
    var checked := ValidateConfig(cfg);
    if checked.Threw? {
      var refused := res.Reply(500, ErrorBody(ConfigurationError, checked.error.message));
      return Returned;
    }
    ghost var caught := CaughtAs(Routed(req.body, cfg, rt, net.reply), ProxyError);
    outcome := RouteAndCatch(res, net, req.body, cfg, rt);
    AppendAssoc(old(res.log), CorsHeaders(), caught.log);
    assert [] + caught.net == caught.net;
  }

  /** The handler's `try` block with its `catch`, once the CORS headers are set and the configuration passed. */
  method RouteAndCatch(res: ServerResponse, net: Network, body: Value, cfg: Config, rt: Runtime)
    returns (outcome: Completion)
    requires !res.headersSent
    modifies res, net
    ensures var r := CaughtAs(Routed(body, cfg, rt, net.reply), ProxyError);
            && res.log == old(res.log) + r.log && net.trace == old(net.trace) + r.net
            && res.headersSent == r.sent && outcome == r.outcome
  {
    ghost var routedRun := Routed(body, cfg, rt, net.reply);
    var routed := Route(res, net, body, cfg, rt);
    if routed.Threw? {
      var refused := res.Reply(500, ErrorBody(ProxyError, routed.error.message));
      if refused.Some? {
        return Threw(refused.value);
      }
      AppendAssoc(old(res.log), routedRun.log, ReplyLog(500, ErrorBody(ProxyError, routed.error.message)));
    }
    return Returned;
  }

  /** The routing by payload shape inside the handler's `try`. */
  method Route(res: ServerResponse, net: Network, body: Value, cfg: Config, rt: Runtime)
    returns (outcome: Completion)
    requires !res.headersSent
    modifies res, net
    ensures var r := Routed(body, cfg, rt, net.reply);
            && res.log == old(res.log) + r.log && net.trace == old(net.trace) + r.net
            && res.headersSent == r.sent && outcome == r.outcome
  {
    if IsCozeFormat(body) {
      outcome := HandleCozeFormatRequest(res, net, body, cfg, rt);
    } else if IsDeepSeekFormat(body) {
      outcome := HandleDeepSeekFormatRequest(res, net, body, cfg, rt);
    } else {
      var refused := res.Reply(400, ErrorBody(InvalidFormat, InvalidFormatDetails));
      outcome := Returned;
    }
  }
}
