/**
 * The three ways the relay answers from an upstream response: translating a DeepSeek
 * event stream into Coze's event names, passing a stream through unchanged, and
 * forwarding a JSON body with the upstream's status.
 */
module StreamingHandler {
  import opened Wrappers
  import opened Js
  import opened Host
  import opened Http

  const DataPrefix: string := "data: "
  const DoneSentinel: string := "[DONE]"
  const DeltaEventLine: string := "event: conversation.message.delta\n"
  const CompletedEventLine: string := "event: conversation.message.completed\n"
  const ParseFailure: string := "Failed to parse API response"

  /** The three headers every streamed answer starts with. */
  function EventStreamHeaders(): seq<Action> {
    [Header("Content-Type", "text/event-stream"), Header("Cache-Control", "no-cache"), Header("Connection", "keep-alive")]
  }

  /** Sets the event-stream headers; the first refused header throws and stops the rest. */
  method SetEventStreamHeaders(res: ServerResponse) returns (err: Option<Error>)
    modifies res
    ensures res.headersSent == old(res.headersSent)
    ensures old(res.headersSent) ==> err == Some(HeadersSentError) && res.log == old(res.log)
    ensures !old(res.headersSent) ==> err == None && res.log == old(res.log) + EventStreamHeaders()
  {
    err := res.SetHeader("Content-Type", "text/event-stream");
    if err.Some? {
      return;
    }
    err := res.SetHeader("Cache-Control", "no-cache");
    err := res.SetHeader("Connection", "keep-alive");
  }

  // ---------------------------------------------------------------------------
  // Translation of a DeepSeek stream: the specification
  // ---------------------------------------------------------------------------

  /** An event sent to the caller: a piece of the answer, or the completion carrying the whole answer. */
  datatype Event = Delta(text: string) | Completed(text: string)

  /** What one event writes; the completion also ends the response. */
  function EventActions(e: Event): seq<Action> {
    match e
    case Delta(t) => [Action.Write(Text(DeltaEventLine)), Action.Write(AnswerData(t))]
    case Completed(t) => [Action.Write(Text(CompletedEventLine)), Action.Write(AnswerData(t)), Action.End]
  }

  function EventLog(events: seq<Event>): seq<Action>
    decreases |events|
  {
    if events == [] then [] else EventLog(events[..|events| - 1]) + EventActions(events[|events| - 1])
  }

  lemma EventLogSnoc(events: seq<Event>, e: Event)
    ensures EventLog(events + [e]) == EventLog(events) + EventActions(e)
  {
    assert (events + [e])[..|events|] == events;
  }

  /** The concatenation of the delta texts, in order. */
  function Deltas(events: seq<Event>): string
    decreases |events|
  {
    if events == [] then ""
    else Deltas(events[..|events| - 1]) + (if events[|events| - 1].Delta? then events[|events| - 1].text else "")
  }

  /**
   * The translator's state between two lines: the answer so far (`fullContent`), the
   * events written, and whether `[DONE]` was seen (after which nothing more is read).
   */
  datatype Scan = Scan(full: string, events: seq<Event>, done: bool)

  const Start: Scan := Scan("", [], false)

  /** The trimmed record a `data: ` line carries; other lines carry none. */
  function RecordData(line: string): Option<string> {
    if StartsWith(line, DataPrefix) then Some(Trim(line[|DataPrefix|..])) else None
  }

  /**
   * One record: `[DONE]` completes; a record with a non-empty delta extends the answer
   * and is forwarded; a malformed record or an empty delta is skipped.
   */
  function ScanRecord(s: Scan, data: string, rt: Runtime): Scan {
    if data == DoneSentinel then Scan(s.full, s.events + [Completed(s.full)], true)
    else
      match rt.parseRecord(data)
      case Malformed => s
      case Parsed(d) => if d == "" then s else Scan(s.full + d, s.events + [Delta(d)], false)
  }

  /** One line of a chunk; nothing is read once `[DONE]` has been seen. */
  function ScanLine(s: Scan, line: string, rt: Runtime): Scan {
    if s.done then s
    else
      match RecordData(line)
      case None => s
      case Some(data) => ScanRecord(s, data, rt)
  }

  function ScanLines(s: Scan, lines: seq<string>, rt: Runtime): Scan
    decreases |lines|
  {
    if lines == [] then s else ScanLines(ScanLine(s, lines[0], rt), lines[1..], rt)
  }

  /** Each decoded chunk is split on `\n` by itself; nothing carries over from one chunk to the next. */
  function ScanChunks(s: Scan, chunks: seq<string>, rt: Runtime): Scan
    decreases |chunks|
  {
    if chunks == [] then s else ScanChunks(ScanLines(s, Split(chunks[0], '\n'), rt), chunks[1..], rt)
  }

  /** The state after every chunk the stream yields has been read (or after `[DONE]`). */
  function Translate(body: Body, rt: Runtime): Scan {
    ScanChunks(Start, body.chunks, rt)
  }

  /** The events of a translation that is not cut short by a failed read: a final completion is added when `[DONE]` never came. */
  function TranslatedEvents(body: Body, rt: Runtime): seq<Event> {
    var sc := Translate(body, rt);
    if sc.done then sc.events else sc.events + [Completed(sc.full)]
  }

  /**
   * `convertDeepSeekStreamToCoze(apiRes, res)`. A read that fails before `[DONE]` ends
   * the response and rethrows; a response already started refuses the first header.
   */
  function TranslateRun(body: Body, rt: Runtime, sent: bool): Run {
    if sent then Run([], [], true, Threw(HeadersSentError))
    else
      var sc := Translate(body, rt);
      if !sc.done && body.failure.Some? then
        Run([], EventStreamHeaders() + EventLog(sc.events) + [Action.End], true, Threw(body.failure.value))
      else Run([], EventStreamHeaders() + EventLog(TranslatedEvents(body, rt)), true, Returned)
  }

  // ---------------------------------------------------------------------------
  // Translation: properties
  // ---------------------------------------------------------------------------

  /** No empty delta is sent; only the last event can be the completion, and it carries the answer so far. */
  predicate Coherent(s: Scan) {
    && (forall k :: 0 <= k < |s.events| ==> s.events[k].Delta? ==> s.events[k].text != "")
    && (forall k :: 0 <= k < |s.events| - 1 ==> s.events[k].Delta?)
    && (s.done <==> |s.events| > 0 && s.events[|s.events| - 1].Completed?)
    && (s.done ==> s.events[|s.events| - 1].text == s.full)
    && s.full == Deltas(s.events)
  }

  lemma DeltasSnoc(events: seq<Event>, e: Event)
    ensures Deltas(events + [e]) == Deltas(events) + (if e.Delta? then e.text else "")
  {
    assert (events + [e])[..|events|] == events;
  }

  lemma ScanRecordCoherent(s: Scan, data: string, rt: Runtime)
    requires Coherent(s) && !s.done
    ensures Coherent(ScanRecord(s, data, rt))
  {
    var t := ScanRecord(s, data, rt);
    if t != s {
      DeltasSnoc(s.events, t.events[|t.events| - 1]);
    }
  }

  lemma ScanLineCoherent(s: Scan, line: string, rt: Runtime)
    requires Coherent(s)
    ensures Coherent(ScanLine(s, line, rt))
  {
    if !s.done && RecordData(line).Some? {
      ScanRecordCoherent(s, RecordData(line).value, rt);
    }
  }

  lemma {:induction false} ScanLinesCoherent(s: Scan, lines: seq<string>, rt: Runtime)
    requires Coherent(s)
    ensures Coherent(ScanLines(s, lines, rt))
    decreases |lines|
  {
    if lines != [] {
      ScanLineCoherent(s, lines[0], rt);
      ScanLinesCoherent(ScanLine(s, lines[0], rt), lines[1..], rt);
    }
  }

  lemma {:induction false} ScanChunksCoherent(s: Scan, chunks: seq<string>, rt: Runtime)
    requires Coherent(s)
    ensures Coherent(ScanChunks(s, chunks, rt))
    decreases |chunks|
  {
    if chunks != [] {
      ScanLinesCoherent(s, Split(chunks[0], '\n'), rt);
      ScanChunksCoherent(ScanLines(s, Split(chunks[0], '\n'), rt), chunks[1..], rt);
    }
  }

  /**
   * A translated stream that completes sends non-empty deltas and then exactly one
   * completion, last, whose content is the concatenation of the deltas; one whose read
   * fails sends only non-empty deltas.
   */
  lemma TranslationCompletes(body: Body, rt: Runtime)
    ensures var es := TranslatedEvents(body, rt);
            && |es| > 0
            && es[|es| - 1] == Completed(Deltas(es[..|es| - 1]))
            && (forall k :: 0 <= k < |es| - 1 ==> es[k].Delta? && es[k].text != "")
    ensures TranslateRun(body, rt, false).outcome.Threw? ==>
              forall k :: 0 <= k < |Translate(body, rt).events| ==>
                Translate(body, rt).events[k].Delta? && Translate(body, rt).events[k].text != ""
  {
    ScanChunksCoherent(Start, body.chunks, rt);
    CoherentCompletes(Translate(body, rt));
  }

  /** A coherent scan, closed with a completion when `[DONE]` never came, ends in the one completion. */
  lemma CoherentCompletes(sc: Scan)
    requires Coherent(sc)
    ensures var es := if sc.done then sc.events else sc.events + [Completed(sc.full)];
            && |es| > 0
            && es[|es| - 1] == Completed(Deltas(es[..|es| - 1]))
            && (forall k :: 0 <= k < |es| - 1 ==> es[k].Delta? && es[k].text != "")
    ensures !sc.done ==> forall k :: 0 <= k < |sc.events| ==> sc.events[k].Delta? && sc.events[k].text != ""
  {
    if sc.done {
      var init := sc.events[..|sc.events| - 1];
      assert sc.events == init + [sc.events[|sc.events| - 1]];
      DeltasSnoc(init, sc.events[|sc.events| - 1]);
    } else {
      var es := sc.events + [Completed(sc.full)];
      assert es[..|es| - 1] == sc.events;
    }
  }

  /** The translated log: the headers, every event's writes, and an end (in the completion, or after a failed read). */
  lemma TranslateRunShape(body: Body, rt: Runtime)
    ensures var r := TranslateRun(body, rt, false);
            && r.sent && r.net == []
            && (r.outcome.Returned? <==> Translate(body, rt).done || body.failure.None?)
            && r.log[..3] == EventStreamHeaders()
            && r.log[|r.log| - 1] == Action.End
            && (r.outcome.Threw? ==> r.outcome.error == body.failure.value)
  {
    var sc := Translate(body, rt);
    if !(!sc.done && body.failure.Some?) {
      TranslationCompletes(body, rt);
      var es := TranslatedEvents(body, rt);
      assert es == es[..|es| - 1] + [es[|es| - 1]];
      EventLogSnoc(es[..|es| - 1], es[|es| - 1]);
    }
  }

  /** A response that has already started is refused before anything is read or written. */
  lemma TranslateAfterStart(body: Body, rt: Runtime)
    ensures TranslateRun(body, rt, true) == Run([], [], true, Threw(HeadersSentError))
  {
  }

  lemma {:induction false} ScanLinesDone(s: Scan, lines: seq<string>, rt: Runtime)
    requires s.done
    ensures ScanLines(s, lines, rt) == s
    decreases |lines|
  {
    if lines != [] {
      ScanLinesDone(s, lines[1..], rt);
    }
  }

  lemma {:induction false} ScanChunksDone(s: Scan, chunks: seq<string>, rt: Runtime)
    requires s.done
    ensures ScanChunks(s, chunks, rt) == s
    decreases |chunks|
  {
    if chunks != [] {
      ScanLinesDone(s, Split(chunks[0], '\n'), rt);
      ScanChunksDone(s, chunks[1..], rt);
    }
  }

  /** Reading the chunks in two runs is reading them in one. */
  lemma {:induction false} ScanChunksAppend(s: Scan, a: seq<string>, b: seq<string>, rt: Runtime)
    ensures ScanChunks(s, a + b, rt) == ScanChunks(ScanChunks(s, a, rt), b, rt)
    decreases |a|
  {
    if a == [] {
      assert a + b == b;
    } else {
      assert (a + b)[0] == a[0];
      assert (a + b)[1..] == a[1..] + b;
      ScanChunksAppend(ScanLines(s, Split(a[0], '\n'), rt), a[1..], b, rt);
    }
  }

  /** Once `[DONE]` has been seen, whatever the stream yields afterwards, including a failed read, changes nothing. */
  lemma AfterDoneIgnored(chunks: seq<string>, more: seq<string>, f1: Option<Error>, f2: Option<Error>, rt: Runtime)
    requires Translate(Body(chunks, f1), rt).done
    ensures TranslateRun(Body(chunks + more, f2), rt, false) == TranslateRun(Body(chunks, f1), rt, false)
  {
    ScanChunksAppend(Start, chunks, more, rt);
    ScanChunksDone(Translate(Body(chunks, f1), rt), more, rt);
  }

  /** `data: ` followed by a trimmed record carries that record. */
  lemma DataLine(record: string)
    requires Trim(record) == record
    ensures RecordData(DataPrefix + record) == Some(record)
  {
    assert (DataPrefix + record)[..|DataPrefix|] == DataPrefix;
    assert (DataPrefix + record)[|DataPrefix|..] == record;
  }

  lemma DoneTrimmed()
    ensures Trim(DoneSentinel) == DoneSentinel
  {
    assert TrimStart(DoneSentinel) == DoneSentinel;
  }

  /** A `data: ` line without a line feed is a whole line of its chunk. */
  lemma SingleLine(record: string)
    requires '\n' !in record
    ensures Split(DataPrefix + record, '\n') == [DataPrefix + record]
  {
    var line := DataPrefix + record;
    assert '\n' !in line by {
      forall k | 0 <= k < |line| ensures line[k] != '\n' {
        if k >= |DataPrefix| {
          assert line[k] == record[k - |DataPrefix|];
        }
      }
    }
    SplitWithoutSeparator(line, '\n');
  }

  /** A line of a chunk carrying a non-empty record. */
  lemma RecordLine(s: Scan, record: string, d: string, rt: Runtime)
    requires !s.done && Trim(record) == record && record != DoneSentinel
    requires rt.parseRecord(record) == Parsed(d) && d != ""
    ensures ScanLine(s, DataPrefix + record, rt) == Scan(s.full + d, s.events + [Delta(d)], false)
  {
    DataLine(record);
  }

  /** A chunk that is a single line is scanned as that line. */
  lemma OneLineChunk(s: Scan, line: string, rest: seq<string>, rt: Runtime)
    requires Split(line, '\n') == [line]
    ensures ScanChunks(s, [line] + rest, rt) == ScanChunks(ScanLine(s, line, rt), rest, rt)
  {
    assert ([line] + rest)[1..] == rest;
    assert ScanLines(s, [line], rt) == ScanLines(ScanLine(s, line, rt), [], rt);
  }

  /**
   * Two records with deltas `d1` and `d2` in separate chunks, then `[DONE]`: two delta
   * events and a completion carrying `d1 + d2`.
   */
  lemma TwoRecordsThenDone(r1: string, r2: string, d1: string, d2: string, rt: Runtime)
    requires Trim(r1) == r1 && Trim(r2) == r2 && r1 != DoneSentinel && r2 != DoneSentinel
    requires '\n' !in r1 && '\n' !in r2
    requires rt.parseRecord(r1) == Parsed(d1) && d1 != ""
    requires rt.parseRecord(r2) == Parsed(d2) && d2 != ""
    ensures TranslatedEvents(Body([DataPrefix + r1, DataPrefix + r2, DataPrefix + DoneSentinel], None), rt)
            == [Delta(d1), Delta(d2), Completed(d1 + d2)]
  {
    var l1, l2, l3 := DataPrefix + r1, DataPrefix + r2, DataPrefix + DoneSentinel;
    SingleLine(r1);
    SingleLine(r2);
    DoneSingleLine();
    ThreeOneLineChunks(l1, l2, l3, rt);
    DataLine(r1);
    DataLine(r2);
    DoneTrimmed();
    DataLine(DoneSentinel);
    TwoRecordsScan(l1, l2, l3, r1, r2, d1, d2, rt);
  }

  /** The line-by-line scan behind `TwoRecordsThenDone`. */
  lemma TwoRecordsScan(l1: string, l2: string, l3: string, r1: string, r2: string, d1: string, d2: string, rt: Runtime)
    requires RecordData(l1) == Some(r1) && RecordData(l2) == Some(r2) && RecordData(l3) == Some(DoneSentinel)
    requires r1 != DoneSentinel && r2 != DoneSentinel
    requires rt.parseRecord(r1) == Parsed(d1) && d1 != ""
    requires rt.parseRecord(r2) == Parsed(d2) && d2 != ""
    ensures ScanLine(ScanLine(ScanLine(Start, l1, rt), l2, rt), l3, rt)
            == Scan(d1 + d2, [Delta(d1), Delta(d2), Completed(d1 + d2)], true)
  {
    var s1 := ScanLine(Start, l1, rt);
    AppendEmpty(d1);
    AppendEmpty([Delta(d1)]);
    assert s1 == Scan(d1, [Delta(d1)], false);
    var s2 := ScanLine(s1, l2, rt);
    assert [Delta(d1)] + [Delta(d2)] == [Delta(d1), Delta(d2)];
    assert s2 == Scan(d1 + d2, [Delta(d1), Delta(d2)], false);
  }

  lemma DoneSingleLine()
    ensures Split(DataPrefix + DoneSentinel, '\n') == [DataPrefix + DoneSentinel]
  {
    assert DoneSentinel == ['[', 'D', 'O', 'N', 'E', ']'];
    assert '\n' !in DoneSentinel;
    SingleLine(DoneSentinel);
  }

  /** The `[DONE]` line completes the scan with what was accumulated. */
  lemma DoneLine(s: Scan, rt: Runtime)
    requires !s.done
    ensures ScanLine(s, DataPrefix + DoneSentinel, rt) == Scan(s.full, s.events + [Completed(s.full)], true)
  {
    DoneTrimmed();
    DataLine(DoneSentinel);
  }

  /** Three chunks of one line each are scanned as those three lines. */
  lemma ThreeOneLineChunks(l1: string, l2: string, l3: string, rt: Runtime)
    requires Split(l1, '\n') == [l1] && Split(l2, '\n') == [l2] && Split(l3, '\n') == [l3]
    ensures ScanChunks(Start, [l1, l2, l3], rt) == ScanLine(ScanLine(ScanLine(Start, l1, rt), l2, rt), l3, rt)
  {
    var s1 := ScanLine(Start, l1, rt);
    var s2 := ScanLine(s1, l2, rt);
    OneLineChunk(Start, l1, [l2, l3], rt);
    OneLineChunk(s1, l2, [l3], rt);
    OneLineChunk(s2, l3, [], rt);
    assert [l1, l2, l3] == [l1] + [l2, l3];
    assert [l2, l3] == [l2] + [l3];
  }

  /**
   * Records are not reassembled across chunks: a record whose line is cut after its
   * first part by a chunk boundary is parsed from that part alone, and the rest of the
   * line, in the next chunk, is not a `data: ` line. Here the only record is cut so,
   * and the answer comes out empty whatever the whole record holds.
   */
  lemma SplitRecordLost(part1: string, part2: string, rt: Runtime)
    requires '\n' !in part1 && '\n' !in part2
    requires rt.parseRecord(Trim(part1)) == Malformed && Trim(part1) != DoneSentinel
    requires !StartsWith(part2, DataPrefix)
    ensures TranslatedEvents(Body([DataPrefix + part1, part2], None), rt) == [Completed("")]
  {
    var l1 := DataPrefix + part1;
    SingleLine(part1);
    SplitWithoutSeparator(part2, '\n');
    assert l1[..|DataPrefix|] == DataPrefix;
    assert l1[|DataPrefix|..] == part1;
    assert ScanLine(Start, l1, rt) == Start;
    assert ScanLine(Start, part2, rt) == Start;
    OneLineChunk(Start, l1, [part2], rt);
    OneLineChunk(Start, part2, [], rt);
    assert [l1, part2] == [l1] + [part2];
  }

  // ---------------------------------------------------------------------------
  // Translation: the handler
  // ---------------------------------------------------------------------------

  /** Writes one event to the response. */
  method Emit(res: ServerResponse, e: Event, ghost log0: seq<Action>, ghost events: seq<Event>)
    requires res.log == log0 + EventLog(events)
    modifies res
    ensures res.log == log0 + EventLog(events + [e]) && res.headersSent
  {
    ghost var before := res.log;
    match e {
      case Delta(t) =>
        res.Write(Text(DeltaEventLine));
        res.Write(AnswerData(t));
      case Completed(t) =>
        res.Write(Text(CompletedEventLine));
        res.Write(AnswerData(t));
        res.End();
    }
    assert res.log == before + EventActions(e);
    EventLogSnoc(events, e);
    AppendAssoc(log0, EventLog(events), EventActions(e));
  }

  /**
   * One line of the translation loop: forward a record's delta, or on `[DONE]` send the
   * completion and end the response.
   */
  method TranslateLine(res: ServerResponse, line: string, full: string, ghost events: seq<Event>,
                       ghost log0: seq<Action>, rt: Runtime)
    returns (full': string, ghost events': seq<Event>, done: bool)
    requires res.log == log0 + EventLog(events)
    modifies res
    ensures Scan(full', events', done) == ScanLine(Scan(full, events, false), line, rt)
    ensures res.log == log0 + EventLog(events') && (done ==> res.headersSent)
  {
    full', events', done := full, events, false;
    match RecordData(line) {
      case None =>
      case Some(data) =>
        if data == DoneSentinel {
          Emit(res, Completed(full), log0, events);
          events', done := events + [Completed(full)], true;
        } else {
          match rt.parseRecord(data) {
            case Malformed =>
            case Parsed(d) =>
              if d != "" {
                full' := full + d;
                Emit(res, Delta(d), log0, events);
                events' := events + [Delta(d)];
              }
          }
        }
    }
  }

  /** The lines of one decoded chunk, in order, until `[DONE]`. */
  method TranslateChunk(res: ServerResponse, chunk: string, full: string, ghost events: seq<Event>,
                        ghost log0: seq<Action>, rt: Runtime)
    returns (full': string, ghost events': seq<Event>, done: bool)
    requires res.log == log0 + EventLog(events)
    modifies res
    ensures Scan(full', events', done) == ScanLines(Scan(full, events, false), Split(chunk, '\n'), rt)
    ensures res.log == log0 + EventLog(events') && (done ==> res.headersSent)
  {
    var lines := Split(chunk, '\n');
    full', events', done := full, events, false;
    var j := 0;
    while j < |lines|
      invariant 0 <= j <= |lines|
      invariant ScanLines(Scan(full', events', false), lines[j..], rt) == ScanLines(Scan(full, events, false), lines, rt)
      invariant res.log == log0 + EventLog(events')
    {
      assert lines[j..] == [lines[j]] + lines[j + 1..];
      full', events', done := TranslateLine(res, lines[j], full', events', log0, rt);
      if done {
        ScanLinesDone(Scan(full', events', true), lines[j + 1..], rt);
        return;
      }
      j := j + 1;
    }
  }

  /** The read loop: every chunk the stream yields, in order, until `[DONE]`. */
  method TranslateChunks(res: ServerResponse, chunks: seq<string>, ghost log0: seq<Action>, rt: Runtime)
    returns (full: string, ghost events: seq<Event>, done: bool)
    requires res.log == log0
    modifies res
    ensures Scan(full, events, done) == ScanChunks(Start, chunks, rt)
    ensures res.log == log0 + EventLog(events) && (done ==> res.headersSent)
  {
    full, events, done := "", [], false;
    var i := 0;
    while i < |chunks|
      invariant 0 <= i <= |chunks|
      invariant ScanChunks(Scan(full, events, false), chunks[i..], rt) == ScanChunks(Start, chunks, rt)
      invariant res.log == log0 + EventLog(events)
    {
      assert chunks[i..] == [chunks[i]] + chunks[i + 1..];
      full, events, done := TranslateChunk(res, chunks[i], full, events, log0, rt);
      if done {
        ScanChunksDone(Scan(full, events, true), chunks[i + 1..], rt);
        return;
      }
      i := i + 1;
    }
  }

  /** `convertDeepSeekStreamToCoze(apiRes, res)`. */
  method ConvertDeepSeekStreamToCoze(res: ServerResponse, body: Body, rt: Runtime) returns (outcome: Completion)
    modifies res
    ensures var r := TranslateRun(body, rt, old(res.headersSent));
            res.log == old(res.log) + r.log && res.headersSent == r.sent && outcome == r.outcome
  {
    var err := SetEventStreamHeaders(res);
    if err.Some? {
      return Threw(err.value);
    }
    ghost var log0 := res.log;
    var full, events, done := TranslateChunks(res, body.chunks, log0, rt);
    assert log0 == old(res.log) + EventStreamHeaders();
    if done {
      AppendAssoc(old(res.log), EventStreamHeaders(), EventLog(events));
      return Returned;
    }
    if body.failure.Some? {
      res.End();
      AppendAssoc(old(res.log), EventStreamHeaders(), EventLog(events));
      AppendAssoc(old(res.log), EventStreamHeaders() + EventLog(events), [Action.End]);
      return Threw(body.failure.value);
    }
    Emit(res, Completed(full), log0, events);
    AppendAssoc(old(res.log), EventStreamHeaders(), EventLog(events + [Completed(full)]));
    return Returned;
  }

  // ---------------------------------------------------------------------------
  // Pass-through
  // ---------------------------------------------------------------------------

  /** One write per decoded chunk, unchanged. */
  function ChunkWrites(chunks: seq<string>): seq<Action>
    decreases |chunks|
  {
    if chunks == [] then [] else ChunkWrites(chunks[..|chunks| - 1]) + [Action.Write(Text(chunks[|chunks| - 1]))]
  }

  /** `handleDeepSeekStreamResponse(apiRes, res)`: every chunk as it comes, then the end; a failed read ends and rethrows. */
  function PassThroughRun(body: Body, sent: bool): Run {
    if sent then Run([], [], true, Threw(HeadersSentError))
    else Run([], EventStreamHeaders() + ChunkWrites(body.chunks) + [Action.End], true,
             if body.failure.Some? then Threw(body.failure.value) else Returned)
  }

  /** The text a response log streams, in order. */
  function Streamed(log: seq<Action>): string
    decreases |log|
  {
    if log == [] then ""
    else Streamed(log[..|log| - 1])
         + (match log[|log| - 1] case Write(Text(s)) => s case _ => "")
  }

  function Concat(chunks: seq<string>): string
    decreases |chunks|
  {
    if chunks == [] then "" else Concat(chunks[..|chunks| - 1]) + chunks[|chunks| - 1]
  }

  lemma {:induction false} StreamedAppend(a: seq<Action>, b: seq<Action>)
    ensures Streamed(a + b) == Streamed(a) + Streamed(b)
    decreases |b|
  {
    if b == [] {
      assert a + b == a;
    } else {
      var init, last := b[..|b| - 1], b[|b| - 1];
      assert (a + b)[..|a + b| - 1] == a + init && (a + b)[|a + b| - 1] == last;
      StreamedAppend(a, init);
      AppendAssoc(Streamed(a), Streamed(init), match last case Write(Text(s)) => s case _ => "");
    }
  }

  lemma {:induction false} ChunkWritesStreamed(chunks: seq<string>)
    ensures Streamed(ChunkWrites(chunks)) == Concat(chunks)
    decreases |chunks|
  {
    if chunks != [] {
      ChunkWritesStreamed(chunks[..|chunks| - 1]);
      StreamedAppend(ChunkWrites(chunks[..|chunks| - 1]), [Action.Write(Text(chunks[|chunks| - 1]))]);
    }
  }

  /** The k-th write is the k-th chunk. */
  lemma {:induction false} ChunkWritesAt(chunks: seq<string>)
    ensures |ChunkWrites(chunks)| == |chunks|
    ensures forall k :: 0 <= k < |chunks| ==> ChunkWrites(chunks)[k] == Action.Write(Text(chunks[k]))
    decreases |chunks|
  {
    if chunks != [] {
      ChunkWritesAt(chunks[..|chunks| - 1]);
    }
  }

  /**
   * The caller receives exactly the upstream's decoded bytes, whether or not the read
   * fails at the end: the three headers first, one write per chunk, and one end, last.
   */
  lemma PassThroughRelaysAll(body: Body)
    ensures Streamed(PassThroughRun(body, false).log) == Concat(body.chunks)
    ensures PassThroughRun(body, false).outcome.Threw? <==> body.failure.Some?
    ensures var log := PassThroughRun(body, false).log;
            && |log| == |body.chunks| + 4 && log[..3] == EventStreamHeaders() && log[|log| - 1] == Action.End
            && (forall k :: 0 <= k < |body.chunks| ==> log[3 + k] == Action.Write(Text(body.chunks[k])))
  {
    ChunkWritesAt(body.chunks);
    ChunkWritesStreamed(body.chunks);
    StreamedAppend(EventStreamHeaders(), ChunkWrites(body.chunks));
    StreamedAppend(EventStreamHeaders() + ChunkWrites(body.chunks), [Action.End]);
    assert Streamed(EventStreamHeaders()) == "";
  }

  /** The pass-through loop shared by the DeepSeek and Coze stream handlers. */
  method PassThrough(res: ServerResponse, body: Body) returns (outcome: Completion)
    modifies res
    ensures var r := PassThroughRun(body, old(res.headersSent));
            res.log == old(res.log) + r.log && res.headersSent == r.sent && outcome == r.outcome
  {
    var err := SetEventStreamHeaders(res);
    if err.Some? {
      return Threw(err.value);
    }
    ghost var log0 := old(res.log) + EventStreamHeaders();
    var i := 0;
    while i < |body.chunks|
      invariant 0 <= i <= |body.chunks|
      invariant res.log == log0 + ChunkWrites(body.chunks[..i])
    {
      res.Write(Text(body.chunks[i]));
      assert body.chunks[..i + 1][..i] == body.chunks[..i];
      i := i + 1;
    }
    assert body.chunks[..i] == body.chunks;
    res.End();
    if body.failure.Some? {
      return Threw(body.failure.value);
    }
    return Returned;
  }

  /** `handleDeepSeekStreamResponse(apiRes, res)`. */
  method HandleDeepSeekStreamResponse(res: ServerResponse, body: Body) returns (outcome: Completion)
    modifies res
    ensures var r := PassThroughRun(body, old(res.headersSent));
            res.log == old(res.log) + r.log && res.headersSent == r.sent && outcome == r.outcome
  {
    outcome := PassThrough(res, body);
  }

  // ---------------------------------------------------------------------------
  // Non-streaming
  // ---------------------------------------------------------------------------

  /**
   * `handleNonStreamingResponse(apiRes, res)`: the parsed body with the upstream's
   * status, or 500 with the parse error. Once the response has started, the reply and
   * the error reply in the handler's catch are both refused, and the second refusal
   * propagates.
   */
  function NonStreamingRun(response: UpstreamResponse, sent: bool): Run {
    if sent then Run([], [], true, Threw(HeadersSentError))
    else
      match response.json
      case JsonOk(data) => Run([], ReplyLog(response.status, data), true, Returned)
      case JsonFail(message) => Run([], ReplyLog(500, ErrorBody(ParseFailure, message)), true, Returned)
  }

  /** On a response not yet started, the non-streaming handler never throws and sends one JSON reply. */
  lemma NonStreamingAnswers(response: UpstreamResponse)
    ensures var r := NonStreamingRun(response, false);
            && r.outcome.Returned? && |r.log| == 2 && r.log[1].Json?
            && (response.json.JsonOk? ==> r.log[0] == Status(response.status) && r.log[1].body == response.json.data)
            && (response.json.JsonFail? ==> r.log == ReplyLog(500, ErrorBody("Failed to parse API response", response.json.message)))
  {
  }

  method HandleNonStreamingResponse(res: ServerResponse, response: UpstreamResponse) returns (outcome: Completion)
    modifies res
    ensures var r := NonStreamingRun(response, old(res.headersSent));
            res.log == old(res.log) + r.log && res.headersSent == r.sent && outcome == r.outcome
  {
    var err: Option<Error>;
    match response.json {
      case JsonOk(data) =>
        err := res.Reply(response.status, data);
      case JsonFail(message) =>
        err := Some(Error("SyntaxError", message));
    }
    if err.None? {
      return Returned;
    }
    err := res.Reply(500, ErrorBody(ParseFailure, err.value.message));
    if err.Some? {
      return Threw(err.value);
    }
    return Returned;
  }
}
