/**
 * The two sides of the relay's I/O: the response object handed to a request handler
 * (recorded as the sequence of calls made on it), and the outbound network together
 * with the abort timers (recorded as a trace; the upstreams' answers are inputs).
 */
module Http {
  import opened Wrappers
  import opened Js

  // ---------------------------------------------------------------------------
  // The response to the caller
  // ---------------------------------------------------------------------------

  /**
   * A piece of the response stream. `AnswerData(c)` stands for the line
   * `data: ` + JSON.stringify({type: 'answer', content: c}) + a blank line.
   */
  datatype Chunk = Text(s: string) | AnswerData(content: string)

  /** One effect on the response: a header, the status code, a JSON reply, a streamed chunk, the end. */
  datatype Action =
    | Header(name: string, value: string)
    | Status(code: int)
    | Json(body: Value)
    | Write(chunk: Chunk)
    | End

  /** Node's ERR_HTTP_HEADERS_SENT, thrown by `setHeader` once the response has started. */
  const HeadersSentError: Error := Error("Error", "Cannot set headers after they are sent to the client")

  /** `res.status(code).json(body)`. */
  function ReplyLog(code: int, body: Value): seq<Action> {
    [Status(code), Json(body)]
  }

  /** `{error, details}`, the shape of every error reply. */
  function ErrorBody(error: string, details: string): Value {
    Obj(map["error" := Str(error), "details" := Str(details)])
  }

  /** The last effect finishes the response: an end or a JSON reply. */
  predicate Finished(log: seq<Action>) {
    |log| > 0 && (log[|log| - 1] == End || log[|log| - 1].Json?)
  }

  /**
   * The response object. `headersSent` turns true with the first byte of the body, and
   * from then on a header (including the content type a JSON reply sets) is refused.
   */
  class ServerResponse {
    var log: seq<Action>
    var headersSent: bool

    constructor ()
      ensures log == [] && !headersSent
    {
      log := [];
      headersSent := false;
    }

    /** `res.setHeader(name, value)`. */
    method SetHeader(name: string, value: string) returns (err: Option<Error>)
      modifies this
      ensures headersSent == old(headersSent)
      ensures old(headersSent) ==> err == Some(HeadersSentError) && log == old(log)
      ensures !old(headersSent) ==> err == None && log == old(log) + [Header(name, value)]
    {
      if headersSent {
        return Some(HeadersSentError);
      }
      log := log + [Header(name, value)];
      return None;
    }

    /** `res.write(chunk)`. */
    method Write(chunk: Chunk)
      modifies this
      ensures headersSent && log == old(log) + [Action.Write(chunk)]
    {
      log := log + [Action.Write(chunk)];
      headersSent := true;
    }

    /** `res.end()`. */
    method End()
      modifies this
      ensures headersSent && log == old(log) + [Action.End]
    {
      log := log + [Action.End];
      headersSent := true;
    }

    /** `res.status(code).json(body)`: refused, with nothing sent, once the response has started. */
    method Reply(code: int, body: Value) returns (err: Option<Error>)
      modifies this
      ensures headersSent
      ensures old(headersSent) ==> err == Some(HeadersSentError) && log == old(log)
      ensures !old(headersSent) ==> err == None && log == old(log) + ReplyLog(code, body)
    {
      if headersSent {
        return Some(HeadersSentError);
      }
      log := log + ReplyLog(code, body);
      headersSent := true;
      return None;
    }

    /** `res.status(code).end()`. */
    method EndWithStatus(code: int)
      modifies this
      ensures headersSent && log == old(log) + [Status(code), Action.End]
    {
      log := log + [Status(code), Action.End];
      headersSent := true;
    }
  }

  // ---------------------------------------------------------------------------
  // The upstream providers
  // ---------------------------------------------------------------------------

  datatype Provider = Coze | DeepSeek

  /** One outbound POST: where, with which `Authorization` header, carrying which JSON body. */
  datatype Outbound = Outbound(provider: Provider, url: string, authorization: string, body: Value)

  /** What the relay does on the network: arm an abort timer, send a request, clear a timer. */
  datatype NetEvent = TimerSet(ms: Option<int>) | Posted(outbound: Outbound) | TimerCleared

  /**
   * A response body as the stream reader delivers it: the decoded chunks it yields, then
   * either the end of the stream or, when `failure` is set, a read that throws.
   */
  datatype Body = Body(chunks: seq<string>, failure: Option<Error>)

  /** What `response.json()` yields: the parsed body, or the parse error's message. */
  datatype JsonBody = JsonOk(data: Value) | JsonFail(message: string)

  /**
   * An upstream response. `hasBody` is whether `response.body` is a stream; `stream`,
   * `json` and `text` are what each way of reading the body would give (the relay
   * reads it one way only). `text` is what `await response.text()` settles to: the body
   * text, or the error it rejects with (a read cut off by the abort timer, say).
   */
  datatype UpstreamResponse = UpstreamResponse(status: int, hasBody: bool, stream: Body, json: JsonBody,
                                               text: Result<string, Error>)
  {
    /** `response.ok`. */
    predicate Ok() {
      200 <= status <= 299
    }
  }

  /** How `fetch` settles: with a response, or by rejecting (an abort rejects with name "AbortError"). */
  datatype FetchResult = Responded(response: UpstreamResponse) | Rejected(error: Error)

  /** The outbound network: what each provider answers, and what the relay did. */
  class Network {
    var trace: seq<NetEvent>
    const reply: Provider -> FetchResult

    constructor (reply: Provider -> FetchResult)
      ensures trace == [] && this.reply == reply
    {
      trace := [];
      this.reply := reply;
    }

    /** `setTimeout(() => controller.abort(), ms)`. */
    method SetTimer(ms: Option<int>)
      modifies this
      ensures trace == old(trace) + [TimerSet(ms)]
    {
      trace := trace + [TimerSet(ms)];
    }

    /** `clearTimeout(timeoutId)`. */
    method ClearTimer()
      modifies this
      ensures trace == old(trace) + [TimerCleared]
    {
      trace := trace + [TimerCleared];
    }

    /** `await fetch(url, {method: 'POST', headers, body})`. */
    method Fetch(outbound: Outbound) returns (r: FetchResult)
      modifies this
      ensures trace == old(trace) + [Posted(outbound)] && r == reply(outbound.provider)
    {
      trace := trace + [Posted(outbound)];
      r := reply(outbound.provider);
    }

    /** Arm the abort timer, fetch, clear the timer: the guarded request both clients make. */
    method TimedFetch(ms: Option<int>, outbound: Outbound) returns (r: FetchResult)
      modifies this
      ensures trace == old(trace) + [TimerSet(ms), Posted(outbound), TimerCleared] && r == reply(outbound.provider)
    {
      SetTimer(ms);
      r := Fetch(outbound);
      ClearTimer();
      AppendAssoc(old(trace), [TimerSet(ms)], [Posted(outbound)]);
    }
  }

  /** An incoming request: its HTTP method, its `content-length` header, its parsed body. */
  datatype Request = Request(httpMethod: string, contentLength: Option<string>, body: Value)

  /** What one call to an upstream does on the network, and how it settles: a response, or a thrown error. */
  datatype Call = Call(net: seq<NetEvent>, result: Result<UpstreamResponse, Error>)

  /** The catch of both API clients: an abort becomes a timeout error with the given message; anything else is rethrown. */
  function TimeoutAs(e: Error, message: string): (r: Error)
    ensures e.name == "AbortError" ==> r == Thrown(message)
    ensures e.name != "AbortError" ==> r == e
  {
    if e.name == "AbortError" then Thrown(message) else e
  }

  /** `Bearer <key>`. */
  function Bearer(key: string): string {
    "Bearer " + key
  }

  /** The requests in a trace, in order. */
  function Requests(trace: seq<NetEvent>): (rs: seq<Outbound>)
    ensures |rs| <= |trace|
  {
    if trace == [] then []
    else (if trace[0].Posted? then [trace[0].outbound] else []) + Requests(trace[1..])
  }

  lemma {:induction false} RequestsAppend(a: seq<NetEvent>, b: seq<NetEvent>)
    ensures Requests(a + b) == Requests(a) + Requests(b)
    decreases |a|
  {
    if a != [] {
      assert (a + b)[1..] == a[1..] + b;
      RequestsAppend(a[1..], b);
    } else {
      assert a + b == b;
    }
  }

  /** The trace of one call that reached the network holds exactly its one request. */
  lemma CallTraceRequests(ms: Option<int>, o: Outbound, cleared: seq<NetEvent>)
    requires forall k :: 0 <= k < |cleared| ==> cleared[k] == TimerCleared
    ensures Requests([TimerSet(ms), Posted(o)] + cleared) == [o]
  {
    var trace := [TimerSet(ms), Posted(o)] + cleared;
    var rest := [Posted(o)] + cleared;
    assert trace[0] == TimerSet(ms) && trace[1..] == rest;
    assert rest[0] == Posted(o) && rest[1..] == cleared;
    ClearedNoRequests(cleared);
    assert Requests(rest) == [o] + Requests(cleared);
    assert Requests(trace) == [] + Requests(rest);
  }

  lemma {:induction false} ClearedNoRequests(cleared: seq<NetEvent>)
    requires forall k :: 0 <= k < |cleared| ==> cleared[k] == TimerCleared
    ensures Requests(cleared) == []
    decreases |cleared|
  {
    if cleared != [] {
      ClearedNoRequests(cleared[1..]);
    }
  }

  // ---------------------------------------------------------------------------
  // What one handler call does
  // ---------------------------------------------------------------------------

  /**
   * The effects of one call: the network events it adds, the response effects it adds,
   * whether the response has started once it is over, and how it completes.
   */
  datatype Run = Run(net: seq<NetEvent>, log: seq<Action>, sent: bool, outcome: Completion)

  /** The empty sequence is a unit of concatenation. */
  lemma AppendEmpty<T>(a: seq<T>)
    ensures [] + a == a && a + [] == a
  {
  }

  /** Concatenation regroups. */
  lemma AppendAssoc<T>(a: seq<T>, b: seq<T>, c: seq<T>)
    ensures a + b + c == a + (b + c)
  {
  }

  /** A run preceded by some network events and response effects. */
  function After(net: seq<NetEvent>, log: seq<Action>, run: Run): (r: Run)
    ensures r.net == net + run.net && r.log == log + run.log
    ensures r.sent == run.sent && r.outcome == run.outcome
  {
    Run(net + run.net, log + run.log, run.sent, run.outcome)
  }
}
