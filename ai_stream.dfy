/** `chat_stream`: one streaming request, then the server-sent events read chunk by
    chunk and line by line. Content deltas are forwarded and collected; a function
    call arrives in pieces (the last name seen wins, argument pieces are joined) and
    runs when the `[DONE]` line comes. `[DONE]` ends the lines of its own chunk only:
    later chunks, if any, are still read. Events forwarded to the front end are
    collected in order instead of being emitted. */
module AiStream {
  import opened Wrappers
  import opened Text
  import opened JsonValue
  import opened AppErrors
  import opened Seqs
  import opened AiService

  datatype PartialFunctionCall = PartialFunctionCall(name: Option<string>, arguments: Option<string>)

  datatype StreamDelta = StreamDelta(content: Option<string>, functionCall: Option<PartialFunctionCall>)

  datatype StreamChoice = StreamChoice(delta: StreamDelta, finishReason: Option<string>)

  datatype StreamChunk = StreamChunk(choices: seq<StreamChoice>)

  /** The `ai-stream-chunk` payloads (content, or a call's name and result) and the
      closing `ai-stream-done` payload. */
  datatype StreamEvent =
    | ContentEvent(content: string)
    | FunctionCallEvent(name: string, result: Json)
    | DoneEvent(content: string)

  datatype Buffers = Buffers(content: string, functionName: string, functionArgs: string)

  datatype StreamState<S> = StreamState(state: S, buffers: Buffers, events: seq<StreamEvent>)

  /** The stream goes on, or stopped with an error after forwarding `events`. */
  datatype Stream<S> =
    | Open(st: StreamState<S>)
    | Broken(state: S, events: seq<StreamEvent>, error: AppError)

  const DataPrefix: string := "data: "
  const DoneMarker: string := "[DONE]"

  predicate IsDataLine(line: string) {
    StartsWith(line, DataPrefix)
  }

  function Payload(line: string): string
    requires IsDataLine(line)
  {
    line[|DataPrefix|..]
  }

  predicate IsDoneLine(line: string) {
    IsDataLine(line) && Payload(line) == DoneMarker
  }

  /** The first choice's delta of a data payload that decodes as a chunk. */
  function DeltaOf(parseChunk: string -> Option<StreamChunk>, data: string): Option<StreamDelta> {
    match parseChunk(data)
    case None => None
    case Some(chunk) => if chunk.choices == [] then None else Some(chunk.choices[0].delta)
  }

  function NameAfter(name: string, d: StreamDelta): string {
    if d.functionCall.Some? && d.functionCall.value.name.Some? then d.functionCall.value.name.value else name
  }

  function ArgsOf(d: StreamDelta): string {
    if d.functionCall.Some? && d.functionCall.value.arguments.Some? then d.functionCall.value.arguments.value else ""
  }

  function Absorb(b: Buffers, d: StreamDelta): (r: Buffers)
    ensures r.content == b.content + d.content.GetOr("")
    ensures r.functionArgs == b.functionArgs + ArgsOf(d)
    ensures r.functionName == (if d.functionCall.Some? && d.functionCall.value.name.Some? then d.functionCall.value.name.value
                               else b.functionName)
  {
    Buffers(b.content + d.content.GetOr(""), NameAfter(b.functionName, d), b.functionArgs + ArgsOf(d))
  }

  function DeltaEvents(d: StreamDelta): seq<StreamEvent> {
    if d.content.Some? then [ContentEvent(d.content.value)] else []
  }

  /** The `[DONE]` line: the collected call runs only if a name arrived. */
  function Finish<S>(env: Env<S>, st: StreamState<S>): (r: Stream<S>)
    ensures st.buffers.functionName == "" ==>
              r == Open(st.(events := st.events + [DoneEvent(st.buffers.content)]))
    ensures st.buffers.functionName != "" ==>
              var (s, res) := env.exec(st.state, st.buffers.functionName, st.buffers.functionArgs);
              match res
              case Err(e) => r == Broken(s, st.events, e)
              case Ok(v) => r == Open(StreamState(s, st.buffers,
                                                  st.events + [FunctionCallEvent(st.buffers.functionName, v),
                                                               DoneEvent(st.buffers.content)]))
  {
    var b := st.buffers;
    if b.functionName == "" then Open(st.(events := st.events + [DoneEvent(b.content)]))
    else
      var (s, res) := env.exec(st.state, b.functionName, b.functionArgs);
      match res
      case Err(e) => Broken(s, st.events, e)
      case Ok(v) => Open(StreamState(s, b, st.events + [FunctionCallEvent(b.functionName, v), DoneEvent(b.content)]))
  }

  /** The events forwarded so far: an event once forwarded is never taken back. */
  function Forwarded<S>(r: Stream<S>): seq<StreamEvent> {
    match r
    case Open(st) => st.events
    case Broken(_, events, _) => events
  }

  /** The lines of one chunk. */
  function LinesFold<S>(env: Env<S>, parseChunk: string -> Option<StreamChunk>, st: StreamState<S>, lines: seq<string>)
    : (r: Stream<S>)
    ensures st.events <= Forwarded(r)
    decreases |lines|
  {
    if lines == [] then Open(st)
    else
      var line := lines[0];
      if !IsDataLine(line) then LinesFold(env, parseChunk, st, lines[1..])
      else if Payload(line) == DoneMarker then Finish(env, st)
      else
        match DeltaOf(parseChunk, Payload(line))
        case None => LinesFold(env, parseChunk, st, lines[1..])
        case Some(d) =>
          LinesFold(env, parseChunk, st.(buffers := Absorb(st.buffers, d), events := st.events + DeltaEvents(d)), lines[1..])
  }

  function ChunksFold<S>(env: Env<S>, parseChunk: string -> Option<StreamChunk>, st: StreamState<S>, chunks: seq<string>)
    : (r: Stream<S>)
    ensures st.events <= Forwarded(r)
    decreases |chunks|
  {
    if chunks == [] then Open(st)
    else
      match LinesFold(env, parseChunk, st, Lines(chunks[0]))
      case Broken(s, events, e) => Broken(s, events, e)
      case Open(st') => ChunksFold(env, parseChunk, st', chunks[1..])
  }

  const EmptyBuffers: Buffers := Buffers("", "", "")

  /** The end of the chunk loop: a body broken off after the chunks read fails with
      Http, after the events already forwarded. */
  function StreamEnd<S>(folded: Stream<S>, brokenOff: Option<string>): (r: Stream<S>)
    ensures brokenOff.None? || folded.Broken? ==> r == folded
    ensures brokenOff.Some? && folded.Open? ==> r == Broken(folded.st.state, folded.st.events, Http(brokenOff.value))
  {
    match folded
    case Broken(_, _, _) => folded
    case Open(st) => if brokenOff.Some? then Broken(st.state, st.events, Http(brokenOff.value)) else folded
  }

  /** The reply to `chat_stream`'s one request (attempt 0, with `stream` set). */
  function StreamReply<S>(env: Env<S>, request: AiChatRequest, s0: S): Result<HttpReply, string> {
    env.server(0, RequestBody(env.settings, Conversation(env.settings, request, env.listTodos(s0)), true, env.tools))
  }

  /** `chat_stream` from the executor's state `s0`: the request is the streaming
      variant of `call_api`'s, and a non-2xx answer fails with the body text alone. */
  function RunStream<S>(env: Env<S>, parseChunk: string -> Option<StreamChunk>, request: AiChatRequest, s0: S)
    : (r: Stream<S>)
    ensures env.settings.apiKey.None? ==> r == Broken(s0, [], MissingApiKey)
    ensures env.settings.apiKey.Some? && StreamReply(env, request, s0).Err? ==>
              r == Broken(s0, [], Http(StreamReply(env, request, s0).error))
    ensures env.settings.apiKey.Some? && StreamReply(env, request, s0).Ok? ==>
              var h := StreamReply(env, request, s0).value;
              var folded := ChunksFold(env, parseChunk, StreamState(s0, EmptyBuffers, []), h.chunks);
              && (!IsSuccess(h.status) && h.brokenOff.Some? ==> r == Broken(s0, [], Http(h.brokenOff.value)))
              && (!IsSuccess(h.status) && h.brokenOff.None? ==> r == Broken(s0, [], ApiError(Concat(h.chunks))))
              && (IsSuccess(h.status) && h.brokenOff.None? ==> r == folded)
              && (IsSuccess(h.status) && h.brokenOff.Some? ==> r == StreamEnd(folded, h.brokenOff))
  {
    if env.settings.apiKey.None? then Broken(s0, [], MissingApiKey)
    else
      match StreamReply(env, request, s0)
      case Err(e) => Broken(s0, [], Http(e))
      case Ok(h) =>
        if !IsSuccess(h.status) then
          match Body(h)
          case Err(e) => Broken(s0, [], Http(e))
          case Ok(text) => Broken(s0, [], ApiError(text))
        else StreamEnd(ChunksFold(env, parseChunk, StreamState(s0, EmptyBuffers, []), h.chunks), h.brokenOff)
  }

  // ---------------------------------------------------------------------------
  // Properties of the fold

  /** Lines without the `data: ` prefix play no part. */
  lemma {:induction false} OnlyDataLinesCount<S>(env: Env<S>, parseChunk: string -> Option<StreamChunk>,
                                                 st: StreamState<S>, lines: seq<string>)
    ensures LinesFold(env, parseChunk, st, lines) == LinesFold(env, parseChunk, st, Filter(lines, IsDataLine))
    decreases |lines|
  {
    if lines != [] {
      var line, rest := lines[0], lines[1..];
      assert lines == [line] + rest;
      FilterCons(line, rest, IsDataLine);
      var kept := Filter(rest, IsDataLine);
      if !IsDataLine(line) {
        assert Filter(lines, IsDataLine) == kept;
        OnlyDataLinesCount(env, parseChunk, st, rest);
      } else {
        assert Filter(lines, IsDataLine) == [line] + kept;
        assert ([line] + kept)[1..] == kept;
        if Payload(line) != DoneMarker {
          match DeltaOf(parseChunk, Payload(line))
          case None => OnlyDataLinesCount(env, parseChunk, st, rest);
          case Some(d) =>
            OnlyDataLinesCount(env, parseChunk, st.(buffers := Absorb(st.buffers, d), events := st.events + DeltaEvents(d)), rest);
        }
      }
    }
  }

  /** The delta a line contributes, if it is a data line other than `[DONE]`. */
  function LineDelta(parseChunk: string -> Option<StreamChunk>, line: string): Option<StreamDelta> {
    if IsDataLine(line) && Payload(line) != DoneMarker then DeltaOf(parseChunk, Payload(line)) else None
  }

  /** Reference readings of a chunk's lines: the content pieces joined, the argument
      pieces joined, the last name given, and the content events. */
  function ContentOf(parseChunk: string -> Option<StreamChunk>, lines: seq<string>): string {
    if lines == [] then ""
    else
      (match LineDelta(parseChunk, lines[0]) case Some(d) => d.content.GetOr("") case None => "")
      + ContentOf(parseChunk, lines[1..])
  }

  function ArgsTextOf(parseChunk: string -> Option<StreamChunk>, lines: seq<string>): string {
    if lines == [] then ""
    else
      (match LineDelta(parseChunk, lines[0]) case Some(d) => ArgsOf(d) case None => "")
      + ArgsTextOf(parseChunk, lines[1..])
  }

  function LastName(parseChunk: string -> Option<StreamChunk>, lines: seq<string>, name: string): string {
    if lines == [] then name
    else
      LastName(parseChunk, lines[1..],
               match LineDelta(parseChunk, lines[0]) case Some(d) => NameAfter(name, d) case None => name)
  }

  /** The function name a line carries, if it carries one. */
  function LineName(parseChunk: string -> Option<StreamChunk>, line: string): Option<string> {
    match LineDelta(parseChunk, line)
    case Some(d) => if d.functionCall.Some? then d.functionCall.value.name else None
    case None => None
  }

  /** The last name given wins: `LastName` is the name of the last line that carries
      one, or the name it started from when no line does. */
  lemma {:induction false} LastNameWins(parseChunk: string -> Option<StreamChunk>, lines: seq<string>, n: string)
    ensures (forall k :: 0 <= k < |lines| ==> LineName(parseChunk, lines[k]).None?) ==> LastName(parseChunk, lines, n) == n
    ensures forall k :: 0 <= k < |lines| && LineName(parseChunk, lines[k]).Some?
                        && (forall j :: k < j < |lines| ==> LineName(parseChunk, lines[j]).None?)
                        ==> LastName(parseChunk, lines, n) == LineName(parseChunk, lines[k]).value
    decreases |lines|
  {
    if lines != [] {
      var rest := lines[1..];
      var n' := match LineDelta(parseChunk, lines[0]) case Some(d) => NameAfter(n, d) case None => n;
      assert n' == (match LineName(parseChunk, lines[0]) case Some(x) => x case None => n);
      assert LastName(parseChunk, lines, n) == LastName(parseChunk, rest, n');
      LastNameWins(parseChunk, rest, n');
      forall k | 0 <= k < |lines| && LineName(parseChunk, lines[k]).Some?
                 && (forall j :: k < j < |lines| ==> LineName(parseChunk, lines[j]).None?)
        ensures LastName(parseChunk, lines, n) == LineName(parseChunk, lines[k]).value
      {
        if k == 0 {
          assert forall j :: 0 <= j < |rest| ==> LineName(parseChunk, rest[j]).None? by {
            forall j | 0 <= j < |rest| ensures LineName(parseChunk, rest[j]).None? { assert rest[j] == lines[j + 1]; }
          }
        } else {
          assert rest[k - 1] == lines[k];
          assert forall j :: k - 1 < j < |rest| ==> LineName(parseChunk, rest[j]).None? by {
            forall j | k - 1 < j < |rest| ensures LineName(parseChunk, rest[j]).None? { assert rest[j] == lines[j + 1]; }
          }
        }
      }
      if forall k :: 0 <= k < |lines| ==> LineName(parseChunk, lines[k]).None? {
        assert LineName(parseChunk, lines[0]).None?;
        assert forall j :: 0 <= j < |rest| ==> LineName(parseChunk, rest[j]).None? by {
          forall j | 0 <= j < |rest| ensures LineName(parseChunk, rest[j]).None? { assert rest[j] == lines[j + 1]; }
        }
      }
    }
  }

  function EventsOf(parseChunk: string -> Option<StreamChunk>, lines: seq<string>): seq<StreamEvent> {
    if lines == [] then []
    else
      (match LineDelta(parseChunk, lines[0]) case Some(d) => DeltaEvents(d) case None => [])
      + EventsOf(parseChunk, lines[1..])
  }

  /** The state after a line other than `[DONE]`: its delta, if any, absorbed. */
  function Advance<S>(st: StreamState<S>, delta: Option<StreamDelta>): StreamState<S> {
    match delta
    case None => st
    case Some(d) => st.(buffers := Absorb(st.buffers, d), events := st.events + DeltaEvents(d))
  }

  lemma FoldStep<S>(env: Env<S>, parseChunk: string -> Option<StreamChunk>, st: StreamState<S>, lines: seq<string>)
    requires lines != [] && !IsDoneLine(lines[0])
    ensures LinesFold(env, parseChunk, st, lines)
            == LinesFold(env, parseChunk, Advance(st, LineDelta(parseChunk, lines[0])), lines[1..])
  {
  }

  /** The reference reading of a chunk without `[DONE]`: every content piece and
      argument piece appended in order, the last name given kept, the content
      forwarded, and the executor untouched. */
  function Collected<S>(parseChunk: string -> Option<StreamChunk>, st: StreamState<S>, lines: seq<string>): Stream<S> {
    Open(StreamState(st.state,
                     Buffers(st.buffers.content + ContentOf(parseChunk, lines),
                             LastName(parseChunk, lines, st.buffers.functionName),
                             st.buffers.functionArgs + ArgsTextOf(parseChunk, lines)),
                     st.events + EventsOf(parseChunk, lines)))
  }

  lemma CollectedStep<S>(parseChunk: string -> Option<StreamChunk>, st: StreamState<S>, lines: seq<string>)
    requires lines != []
    ensures Collected(parseChunk, st, lines)
            == Collected(parseChunk, Advance(st, LineDelta(parseChunk, lines[0])), lines[1..])
  {
    var st' := Advance(st, LineDelta(parseChunk, lines[0]));
    ContentStep(parseChunk, st, lines);
    ArgsStep(parseChunk, st, lines);
    EventsStep(parseChunk, st, lines);
    CollectedAgree(parseChunk, st, lines, st', lines[1..]);
  }

  lemma ContentStep<S>(parseChunk: string -> Option<StreamChunk>, st: StreamState<S>, lines: seq<string>)
    requires lines != []
    ensures st.buffers.content + ContentOf(parseChunk, lines)
            == Advance(st, LineDelta(parseChunk, lines[0])).buffers.content + ContentOf(parseChunk, lines[1..])
  {
    var delta := LineDelta(parseChunk, lines[0]);
    if delta.Some? {
      AppendAssoc(st.buffers.content, delta.value.content.GetOr(""), ContentOf(parseChunk, lines[1..]));
    } else {
      assert ContentOf(parseChunk, lines) == "" + ContentOf(parseChunk, lines[1..]);
    }
  }

  lemma ArgsStep<S>(parseChunk: string -> Option<StreamChunk>, st: StreamState<S>, lines: seq<string>)
    requires lines != []
    ensures st.buffers.functionArgs + ArgsTextOf(parseChunk, lines)
            == Advance(st, LineDelta(parseChunk, lines[0])).buffers.functionArgs + ArgsTextOf(parseChunk, lines[1..])
  {
    var delta := LineDelta(parseChunk, lines[0]);
    if delta.Some? {
      AppendAssoc(st.buffers.functionArgs, ArgsOf(delta.value), ArgsTextOf(parseChunk, lines[1..]));
    } else {
      assert ArgsTextOf(parseChunk, lines) == "" + ArgsTextOf(parseChunk, lines[1..]);
    }
  }

  lemma EventsStep<S>(parseChunk: string -> Option<StreamChunk>, st: StreamState<S>, lines: seq<string>)
    requires lines != []
    ensures st.events + EventsOf(parseChunk, lines)
            == Advance(st, LineDelta(parseChunk, lines[0])).events + EventsOf(parseChunk, lines[1..])
  {
    var delta := LineDelta(parseChunk, lines[0]);
    if delta.Some? {
      AppendAssoc(st.events, DeltaEvents(delta.value), EventsOf(parseChunk, lines[1..]));
    } else {
      assert EventsOf(parseChunk, lines) == [] + EventsOf(parseChunk, lines[1..]);
    }
  }

  lemma CollectedAgree<S>(parseChunk: string -> Option<StreamChunk>, st: StreamState<S>, lines: seq<string>,
                          st': StreamState<S>, rest: seq<string>)
    requires st.state == st'.state
    requires st.buffers.content + ContentOf(parseChunk, lines) == st'.buffers.content + ContentOf(parseChunk, rest)
    requires st.buffers.functionArgs + ArgsTextOf(parseChunk, lines) == st'.buffers.functionArgs + ArgsTextOf(parseChunk, rest)
    requires st.events + EventsOf(parseChunk, lines) == st'.events + EventsOf(parseChunk, rest)
    requires LastName(parseChunk, lines, st.buffers.functionName) == LastName(parseChunk, rest, st'.buffers.functionName)
    ensures Collected(parseChunk, st, lines) == Collected(parseChunk, st', rest)
  {
  }

  /** Before any `[DONE]`, the fold runs nothing and reads the chunk as `Collected` does. */
  lemma {:induction false} FoldCollects<S>(env: Env<S>, parseChunk: string -> Option<StreamChunk>,
                                           st: StreamState<S>, lines: seq<string>)
    requires forall k :: 0 <= k < |lines| ==> !IsDoneLine(lines[k])
    ensures LinesFold(env, parseChunk, st, lines) == Collected(parseChunk, st, lines)
    decreases |lines|
  {
    if lines == [] {
      assert st.buffers == Buffers(st.buffers.content, st.buffers.functionName, st.buffers.functionArgs);
    } else {
      var rest := lines[1..];
      assert forall k :: 0 <= k < |rest| ==> !IsDoneLine(rest[k]) by {
        forall k | 0 <= k < |rest| ensures !IsDoneLine(rest[k]) { assert rest[k] == lines[k + 1]; }
      }
      var st' := Advance(st, LineDelta(parseChunk, lines[0]));
      FoldStep(env, parseChunk, st, lines);
      FoldCollects(env, parseChunk, st', rest);
      CollectedStep(parseChunk, st, lines);
    }
  }

  /** A `[DONE]` line ends its chunk: what follows it in the chunk is never read. */
  lemma {:induction false} DoneEndsChunk<S>(env: Env<S>, parseChunk: string -> Option<StreamChunk>, st: StreamState<S>,
                         before: seq<string>, done: string, after: seq<string>)
    requires forall k :: 0 <= k < |before| ==> !IsDoneLine(before[k])
    requires IsDoneLine(done)
    ensures LinesFold(env, parseChunk, st, before + [done] + after)
            == LinesFold(env, parseChunk, st, before + [done])
    decreases |before|
  {
    if before != [] {
      assert (before + [done] + after)[1..] == before[1..] + [done] + after;
      assert (before + [done])[1..] == before[1..] + [done];
      assert (before + [done] + after)[0] == (before + [done])[0] == before[0];
      var line := before[0];
      assert forall k :: 0 <= k < |before[1..]| ==> !IsDoneLine(before[1..][k]) by {
        forall k | 0 <= k < |before[1..]| ensures !IsDoneLine(before[1..][k]) { assert before[1..][k] == before[k + 1]; }
      }
      if IsDataLine(line) && Payload(line) != DoneMarker {
        match DeltaOf(parseChunk, Payload(line))
        case None => DoneEndsChunk(env, parseChunk, st, before[1..], done, after);
        case Some(d) =>
          DoneEndsChunk(env, parseChunk, st.(buffers := Absorb(st.buffers, d), events := st.events + DeltaEvents(d)),
                        before[1..], done, after);
      } else {
        DoneEndsChunk(env, parseChunk, st, before[1..], done, after);
      }
    } else {
      assert (before + [done] + after)[0] == done;
      assert (before + [done])[0] == done;
    }
  }

  // ---------------------------------------------------------------------------
  // The method

  method ProcessLines<S>(env: Env<S>, parseChunk: string -> Option<StreamChunk>, st0: StreamState<S>, lines: seq<string>)
    returns (r: Stream<S>)
    ensures r == LinesFold(env, parseChunk, st0, lines)
  {
    var st := st0;
    var j := 0;
    while j < |lines|
      invariant 0 <= j <= |lines|
      invariant LinesFold(env, parseChunk, st, lines[j..]) == LinesFold(env, parseChunk, st0, lines)
    {
      var line := lines[j];
      assert lines[j..][1..] == lines[j + 1..];
      if IsDataLine(line) {
        var data := line[|DataPrefix|..];
        if data == DoneMarker {
          return Finish(env, st);
        }
        var delta := DeltaOf(parseChunk, data);
        if delta.Some? {
          var d := delta.value;
          var b := st.buffers;
          var content := b.content;
          var events := st.events;
          if d.content.Some? {
            content := content + d.content.value;
            events := events + [ContentEvent(d.content.value)];
          }
          var name, args := b.functionName, b.functionArgs;
          if d.functionCall.Some? {
            var fc := d.functionCall.value;
            if fc.name.Some? {
              name := fc.name.value;
            }
            if fc.arguments.Some? {
              args := args + fc.arguments.value;
            }
          }
          assert Buffers(content, name, args) == Absorb(b, d);
          assert events == st.events + DeltaEvents(d);
          st := StreamState(st.state, Buffers(content, name, args), events);
        }
      }
      j := j + 1;
    }
    r := Open(st);
  }

  /** `chat_stream`: returns the forwarded events and, as the source does, an error
      after them when the stream broke. */
  method ChatStream<S>(env: Env<S>, parseChunk: string -> Option<StreamChunk>, request: AiChatRequest, s0: S)
    returns (r: Stream<S>)
    ensures r == RunStream(env, parseChunk, request, s0)
  {
    var messages := BuildMessages(env.settings, request, env.listTodos(s0));
    if env.settings.apiKey.None? {
      return Broken(s0, [], MissingApiKey);
    }
    var reply := env.server(0, RequestBody(env.settings, messages, true, env.tools));
    if reply.Err? {
      return Broken(s0, [], Http(reply.error));
    }
    var h := reply.value;
    if !IsSuccess(h.status) {
      var text := Body(h);
      return if text.Err? then Broken(s0, [], Http(text.error)) else Broken(s0, [], ApiError(text.value));
    }
    var st := StreamState(s0, EmptyBuffers, []);
    var i := 0;
    while i < |h.chunks|
      invariant 0 <= i <= |h.chunks|
      invariant StreamEnd(ChunksFold(env, parseChunk, st, h.chunks[i..]), h.brokenOff) == RunStream(env, parseChunk, request, s0)
    {
      assert h.chunks[i..][1..] == h.chunks[i + 1..];
      var next := ProcessLines(env, parseChunk, st, Lines(h.chunks[i]));
      if next.Broken? {
        return next;
      }
      st := next.st;
      i := i + 1;
    }
    if h.brokenOff.Some? {
      return Broken(st.state, st.events, Http(h.brokenOff.value));
    }
    r := Open(st);
  }
}
