/** The Coze client: one POST of the payload as it came, guarded by an abort timer. */
module CozeApi {
  import opened Wrappers
  import opened Js
  import opened Config
  import opened Http
  import StreamingHandler

  const CozeKeyNotConfigured: string := "Coze API key not configured"
  const CozeTimeout: string := "Coze API request timeout"

  /** `callCozeApi(payload)`; the timer's delay is `config.requestTimeout`. */
  function CozeCall(payload: Value, cfg: Config, reply: Provider -> FetchResult): Call {
    if !Present(cfg.cozeApiKey) then Call([], Failure(Thrown(CozeKeyNotConfigured)))
    else
      var out := Outbound(Provider.Coze, cfg.cozeApiUrl, Bearer(cfg.cozeApiKey.value), payload);
      var net := [TimerSet(cfg.requestTimeout), Posted(out), TimerCleared];
      match reply(Provider.Coze)
      case Responded(response) => Call(net, Success(response))
      case Rejected(e) => Call(net, Failure(TimeoutAs(e, CozeTimeout)))
  }

  /**
   * Without a key nothing goes out. With one, exactly one request goes to the Coze URL,
   * carrying the key as a bearer token and the payload unchanged, between arming and
   * clearing the timer; a response comes back whatever its status, and only a failed
   * fetch throws, an abort as the timeout error.
   */
  lemma CozeCallContract(payload: Value, cfg: Config, reply: Provider -> FetchResult)
    ensures var c := CozeCall(payload, cfg, reply);
            && (!Present(cfg.cozeApiKey) ==> c.net == [] && c.result == Failure(Thrown(CozeKeyNotConfigured)))
            && (Present(cfg.cozeApiKey) ==>
                  && Requests(c.net) == [Outbound(Provider.Coze, cfg.cozeApiUrl, "Bearer " + cfg.cozeApiKey.value, payload)]
                  && c.net[0] == TimerSet(cfg.requestTimeout) && c.net[|c.net| - 1] == TimerCleared
                  && (c.result.Success? <==> reply(Provider.Coze).Responded?)
                  && (c.result.Success? ==> c.result.value == reply(Provider.Coze).response)
                  && (reply(Provider.Coze).Rejected? && reply(Provider.Coze).error.name == "AbortError" ==>
                        c.result == Failure(Thrown(CozeTimeout)))
                  && (reply(Provider.Coze).Rejected? && reply(Provider.Coze).error.name != "AbortError" ==>
                        c.result == Failure(reply(Provider.Coze).error)))
  {
    if Present(cfg.cozeApiKey) {
      var out := Outbound(Provider.Coze, cfg.cozeApiUrl, Bearer(cfg.cozeApiKey.value), payload);
      CallTraceRequests(cfg.requestTimeout, out, [TimerCleared]);
    }
  }

  /** `callCozeApi(payload)`. */
  method CallCozeApi(net: Network, payload: Value, cfg: Config) returns (result: Result<UpstreamResponse, Error>)
    modifies net
    ensures var c := CozeCall(payload, cfg, net.reply);
            net.trace == old(net.trace) + c.net && result == c.result
  {
    if !Present(cfg.cozeApiKey) {
      return Failure(Thrown(CozeKeyNotConfigured));
    }
    var fetched := net.TimedFetch(cfg.requestTimeout, Outbound(Provider.Coze, cfg.cozeApiUrl, Bearer(cfg.cozeApiKey.value), payload));
    match fetched {
      case Responded(response) =>
        result := Success(response);
      case Rejected(e) =>
        result := Failure(TimeoutAs(e, CozeTimeout));
    }
  }

  /** `handleCozeStreamResponse(apiRes, res)`: the same pass-through as for a DeepSeek stream. */
  method HandleCozeStreamResponse(res: ServerResponse, body: Body) returns (outcome: Completion)
    modifies res
    ensures var r := StreamingHandler.PassThroughRun(body, old(res.headersSent));
            res.log == old(res.log) + r.log && res.headersSent == r.sent && outcome == r.outcome
  {
    outcome := StreamingHandler.PassThrough(res, body);
  }
}
