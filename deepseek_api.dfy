/**
 * The DeepSeek client: builds the chat request (converted from a Coze payload, or the
 * caller's own with defaults filled in) and POSTs it, guarded by an abort timer; a
 * response with a failing status is turned into an error.
 */
module DeepSeekApi {
  import opened Wrappers
  import opened Js
  import opened Host
  import opened Config
  import opened Formatters
  import opened Http

  const DeepSeekKeyNotConfigured: string := "DeepSeek API key not configured"
  const DeepSeekTimeout: string := "DeepSeek API request timeout"

  /**
   * A DeepSeek-shaped payload with defaults: `model || 'deepseek-chat'`,
   * `messages || []`, `stream || false`, and `temperature` and `max_tokens` as they are.
   * Reading a property of a null or undefined payload throws.
   */
  function DefaultedRequest(payload: Value): Result<ChatRequest, Error> {
    match ReadProperty(payload, "model")
    case Failure(e) => Failure(e)
    case Success(model) =>
      Success(ChatRequest(Or(model, Str(DefaultModel)), Or(Get(payload, "messages"), Arr([])),
                          Or(Get(payload, "stream"), Bool(false)), Get(payload, "temperature"),
                          Get(payload, "max_tokens")))
  }

  /** The request body: converted when the payload is Coze-shaped, defaulted otherwise. */
  function DeepSeekPayload(payload: Value, isCozeFormat: bool, rt: Runtime): Result<ChatRequest, Error> {
    if isCozeFormat then ConvertCozeToDeepSeek(payload, rt) else DefaultedRequest(payload)
  }

  /** `DeepSeek API error: <status> - <body text>`. */
  function StatusError(status: int, text: string): Error {
    Thrown("DeepSeek API error: " + DecimalText(status) + " - " + text)
  }

  /**
   * The error a failing status ends in: the status error when the body text is read, and
   * otherwise the read's own rejection, which the same catch maps like a fetch failure.
   */
  function FailedStatus(response: UpstreamResponse): Error {
    match response.text
    case Success(text) => StatusError(response.status, text)
    case Failure(e) => TimeoutAs(e, DeepSeekTimeout)
  }

  /**
   * `callDeepSeekApi(payload, isCozeFormat)`. The timer is cleared once the response
   * comes, and a second time by the catch when the status check throws inside the try.
   */
  function DeepSeekCall(payload: Value, isCozeFormat: bool, cfg: Config, rt: Runtime, reply: Provider -> FetchResult): Call {
    if !Present(cfg.deepseekApiKey) then Call([], Failure(Thrown(DeepSeekKeyNotConfigured)))
    else
      match DeepSeekPayload(payload, isCozeFormat, rt)
      case Failure(e) => Call([], Failure(e))
      case Success(request) =>
        var out := Outbound(Provider.DeepSeek, cfg.deepseekApiUrl, Bearer(cfg.deepseekApiKey.value), request.ToValue());
        var net := [TimerSet(cfg.requestTimeout), Posted(out), TimerCleared];
        match reply(Provider.DeepSeek)
        case Responded(response) =>
          if response.Ok() then Call(net, Success(response))
          else Call(net + [TimerCleared], Failure(FailedStatus(response)))
        case Rejected(e) => Call(net, Failure(TimeoutAs(e, DeepSeekTimeout)))
  }

  /** The key is checked before anything else: without it nothing is built and nothing goes out. */
  lemma KeyCheckedFirst(payload: Value, isCozeFormat: bool, cfg: Config, rt: Runtime, reply: Provider -> FetchResult)
    requires !Present(cfg.deepseekApiKey)
    ensures DeepSeekCall(payload, isCozeFormat, cfg, rt, reply) == Call([], Failure(Thrown("DeepSeek API key not configured")))
  {
  }

  /**
   * With the key and a request built: exactly one request, to the DeepSeek URL with the
   * key as a bearer token and the built request as its body, between arming and
   * clearing the timer. The call succeeds exactly when the upstream answers with a 2xx
   * status; any other status throws with the status and the body text, or, when reading
   * that text rejects, with the read's error mapped as below; an abort throws the timeout
   * error, and any other fetch failure is rethrown.
   */
  lemma DeepSeekCallContract(payload: Value, isCozeFormat: bool, cfg: Config, rt: Runtime, reply: Provider -> FetchResult)
    requires Present(cfg.deepseekApiKey) && DeepSeekPayload(payload, isCozeFormat, rt).Success?
    ensures var c := DeepSeekCall(payload, isCozeFormat, cfg, rt, reply);
            var request := DeepSeekPayload(payload, isCozeFormat, rt).value;
            var answer := reply(Provider.DeepSeek);
            && Requests(c.net) == [Outbound(Provider.DeepSeek, cfg.deepseekApiUrl, "Bearer " + cfg.deepseekApiKey.value, request.ToValue())]
            && c.net[0] == TimerSet(cfg.requestTimeout) && c.net[|c.net| - 1] == TimerCleared
            && (c.result.Success? <==> answer.Responded? && 200 <= answer.response.status <= 299)
            && (c.result.Success? ==> c.result.value == answer.response)
            && (answer.Responded? && !answer.response.Ok() && answer.response.text.Success? ==>
                  c.result.error.message == "DeepSeek API error: " + DecimalText(answer.response.status) + " - " + answer.response.text.value)
            && (answer.Responded? && !answer.response.Ok() && answer.response.text.Failure? ==>
                  c.result == Failure(TimeoutAs(answer.response.text.error, "DeepSeek API request timeout")))
            && (answer.Rejected? ==> c.result == Failure(TimeoutAs(answer.error, "DeepSeek API request timeout")))
  {
    var request := DeepSeekPayload(payload, isCozeFormat, rt).value;
    var out := Outbound(Provider.DeepSeek, cfg.deepseekApiUrl, Bearer(cfg.deepseekApiKey.value), request.ToValue());
    CallTraceRequests(cfg.requestTimeout, out, [TimerCleared]);
    CallTraceRequests(cfg.requestTimeout, out, [TimerCleared, TimerCleared]);
    assert [TimerSet(cfg.requestTimeout), Posted(out), TimerCleared] + [TimerCleared]
           == [TimerSet(cfg.requestTimeout), Posted(out)] + [TimerCleared, TimerCleared];
  }

  /** A Coze-shaped payload is sent as its conversion; conversion errors are thrown before anything goes out. */
  lemma CozePayloadConverted(payload: Value, cfg: Config, rt: Runtime, reply: Provider -> FetchResult)
    requires Present(cfg.deepseekApiKey)
    ensures var c := DeepSeekCall(payload, true, cfg, rt, reply);
            match ConvertCozeToDeepSeek(payload, rt)
            case Failure(e) => c == Call([], Failure(e))
            case Success(request) => c.net[1] == Posted(Outbound(Provider.DeepSeek, cfg.deepseekApiUrl,
                                                                  Bearer(cfg.deepseekApiKey.value), request.ToValue()))
  {
  }

  /**
   * A DeepSeek-shaped payload keeps its model and its messages; streaming defaults to
   * false; temperature and max_tokens are passed as given (absent ones are left out).
   */
  lemma DeepSeekFormatKept(payload: Value)
    requires IsDeepSeekFormat(payload)
    ensures DefaultedRequest(payload).Success?
    ensures var r := DefaultedRequest(payload).value;
            && r.model == payload.fields["model"]
            && r.messages == payload.fields["messages"]
            && r.stream == (if Truthy(Get(payload, "stream")) then Get(payload, "stream") else Bool(false))
            && r.temperature == Get(payload, "temperature") && r.maxTokens == Get(payload, "max_tokens")
  {
    DeepSeekFormatIff(payload);
  }

  /** A payload without a model or messages still goes out, with `deepseek-chat` and an empty message list. */
  lemma DefaultsFilled(payload: Value)
    requires payload.Obj? && "model" !in payload.fields && "messages" !in payload.fields
    ensures DefaultedRequest(payload) == Success(ChatRequest(Str("deepseek-chat"), Arr([]),
                                                             Or(Get(payload, "stream"), Bool(false)),
                                                             Get(payload, "temperature"), Get(payload, "max_tokens")))
  {
  }

  /** `callDeepSeekApi(payload, isCozeFormat)`. */
  method CallDeepSeekApi(net: Network, payload: Value, isCozeFormat: bool, cfg: Config, rt: Runtime)
    returns (result: Result<UpstreamResponse, Error>)
    modifies net
    ensures var c := DeepSeekCall(payload, isCozeFormat, cfg, rt, net.reply);
            net.trace == old(net.trace) + c.net && result == c.result
  {
    if !Present(cfg.deepseekApiKey) {
      return Failure(Thrown(DeepSeekKeyNotConfigured));
    }
    var built: Result<ChatRequest, Error>;
    if isCozeFormat {
      built := ConvertCozeToDeepSeek(payload, rt);
    } else {
      built := DefaultedRequest(payload);
    }
    if built.Failure? {
      return Failure(built.error);
    }
    var fetched := net.TimedFetch(cfg.requestTimeout, Outbound(Provider.DeepSeek, cfg.deepseekApiUrl,
                                                               Bearer(cfg.deepseekApiKey.value), built.value.ToValue()));
    match fetched {
      case Responded(response) =>
        if response.Ok() {
          return Success(response);
        }
        net.ClearTimer();
        match response.text {
          case Success(text) =>
            return Failure(StatusError(response.status, text));
          case Failure(e) =>
            return Failure(TimeoutAs(e, DeepSeekTimeout));
        }
      case Rejected(e) =>
        return Failure(TimeoutAs(e, DeepSeekTimeout));
    }
  }
}
