/** The assistant's conversation with an OpenAI-compatible chat API: the request it
    sends (with the function-calling formats the settings select), the checks on
    each reply, the system prompt carrying the task context, and the loop that lets
    the model call the task functions up to five times before it must answer.

    The outside world is a parameter: `server(attempt, request)` is the transport's
    answer to the `attempt`-th request; JSON texts are decoded by `parse`; the
    executor is a function over an abstract state `S` that returns the next state
    and the call's result; `listTodos` is the task list in that state. */
module AiService {
  import opened Wrappers
  import opened Text
  import opened JsonValue
  import opened TodoModel
  import opened AppErrors
  import opened SettingsModel
  import opened Seqs
  import FunctionCall

  // ---------------------------------------------------------------------------
  // Wire types

  datatype FunctionCallData = FunctionCallData(name: string, arguments: string)

  /** A modern-format call; only `toolType == "function"` is executed. */
  datatype ToolCall = ToolCall(id: string, toolType: string, call: FunctionCallData)

  datatype ChatMessage = ChatMessage(
    role: string,
    content: Option<string>,
    name: Option<string>,
    functionCall: Option<FunctionCallData>,
    toolCalls: Option<seq<ToolCall>>,
    toolCallId: Option<string>)

  datatype ChatCompletionRequest = ChatCompletionRequest(
    model: string,
    messages: seq<ChatMessage>,
    functions: Option<seq<FunctionCall.FunctionDefinition>>,
    functionCall: Option<string>,
    tools: Option<seq<Json>>,
    toolChoice: Option<string>,
    temperature: Option<real>,
    maxTokens: Option<U32>,
    stream: Option<bool>)

  datatype Choice = Choice(index: nat, message: ChatMessage, finishReason: Option<string>)

  datatype ChatCompletionResponse = ChatCompletionResponse(id: string, choices: seq<Choice>)

  datatype AiChatRequest = AiChatRequest(message: string, history: Option<seq<ChatMessage>>)

  datatype FunctionResult = FunctionResult(functionName: string, success: bool, result: Json)

  datatype AiChatResponse = AiChatResponse(
    message: string,
    functionResults: Option<seq<FunctionResult>>,
    updatedTodos: Option<seq<Todo>>,
    warnings: Option<seq<string>>)

  /** A call found in reply text by the text fallback, with the text it was found in. */
  datatype ExtractedCall = ExtractedCall(name: string, arguments: string, originalText: string)

  /** An HTTP answer: status code, its display text ("404 Not Found"), the body as
      it arrived, chunk by chunk, and the transport error that broke the body off
      after those chunks, if one did. */
  datatype HttpReply = HttpReply(status: int, statusText: string, chunks: seq<string>, brokenOff: Option<string>)

  /** The whole body read at once: the chunks joined, or the transport error. */
  function Body(h: HttpReply): Result<string, string> {
    match h.brokenOff
    case Some(e) => Err(e)
    case None => Ok(Concat(h.chunks))
  }

  predicate IsSuccess(status: int) {
    200 <= status < 300
  }

  /** Everything the conversation depends on besides its own state. */
  datatype Env<!S> = Env(
    settings: Settings,
    tools: seq<Json>,
    server: (nat, ChatCompletionRequest) -> Result<HttpReply, string>,
    parse: string -> Result<ChatCompletionResponse, string>,
    parseText: string -> seq<ExtractedCall>,
    exec: (S, string, string) -> (S, Result<Json, AppError>),
    encode: Json -> string,
    listTodos: S -> seq<Todo>)

  // ---------------------------------------------------------------------------
  // The request

  /** Which formats a `function_calling_mode` selects: (tools, functions). */
  function ModeFlags(mode: string): (flags: (bool, bool))
    ensures flags.0 <==> mode != "functions" && mode != "disabled"
    ensures flags.1 <==> mode != "tools" && mode != "disabled"
  {
    if mode == "tools" then (true, false)
    else if mode == "functions" then (false, true)
    else if mode == "disabled" then (false, false)
    else (true, true)
  }

  /** The request body: the function definitions with `function_call: "auto"` in the
      legacy format, the tool list with `tool_choice: "auto"` in the modern one. */
  function RequestBody(s: Settings, messages: seq<ChatMessage>, stream: bool, tools: seq<Json>)
    : (req: ChatCompletionRequest)
    ensures req.functions.Some? <==> s.functionCallingMode != "tools" && s.functionCallingMode != "disabled"
    ensures req.functions.Some? ==> req.functions.value == FunctionCall.FunctionDefinitions()
    ensures req.functionCall == (if req.functions.Some? then Some("auto") else None)
    ensures req.tools.Some? <==> s.functionCallingMode != "functions" && s.functionCallingMode != "disabled"
    ensures req.tools.Some? ==> req.tools.value == tools
    ensures req.toolChoice == (if req.tools.Some? then Some("auto") else None)
    ensures req.model == s.model && req.messages == messages && req.stream == Some(stream)
    ensures req.temperature == Some(s.temperature) && req.maxTokens == Some(s.maxTokens)
  {
    var (useTools, useFunctions) := ModeFlags(s.functionCallingMode);
    ChatCompletionRequest(
      s.model,
      messages,
      if useFunctions then Some(FunctionCall.FunctionDefinitions()) else None,
      if useFunctions then Some("auto") else None,
      if useTools then Some(tools) else None,
      if useTools then Some("auto") else None,
      Some(s.temperature),
      Some(s.maxTokens),
      Some(stream))
  }

  /** Any mode but "disabled" offers the model at least one format, and every mode
      outside the three named ones offers both. */
  lemma ModesOfferFunctions(s: Settings, messages: seq<ChatMessage>, stream: bool, tools: seq<Json>)
    ensures var req := RequestBody(s, messages, stream, tools);
            && (s.functionCallingMode != "disabled" <==> req.functions.Some? || req.tools.Some?)
            && (s.functionCallingMode !in {"tools", "functions", "disabled"} ==> req.functions.Some? && req.tools.Some?)
  {
  }

  /** How a reply is read: a transport failure, a non-2xx status and a body that is
      not a completion response are errors. */
  function ReplyResponse(reply: Result<HttpReply, string>, parse: string -> Result<ChatCompletionResponse, string>)
    : (r: Result<ChatCompletionResponse, AppError>)
    ensures reply.Err? ==> r == Err(Http(reply.error))
    ensures reply.Ok? && reply.value.brokenOff.Some? ==> r == Err(Http(reply.value.brokenOff.value))
    ensures reply.Ok? && reply.value.brokenOff.None? && !IsSuccess(reply.value.status) ==>
              r == Err(ApiError("HTTP " + reply.value.statusText + ": " + Concat(reply.value.chunks)))
    ensures reply.Ok? && reply.value.brokenOff.None? && IsSuccess(reply.value.status) ==>
              match parse(Concat(reply.value.chunks))
              case Err(e) => r == Err(ApiError("Invalid JSON response: " + e))
              case Ok(resp) => r == Ok(resp)
  {
    match reply
    case Err(e) => Err(Http(e))
    case Ok(h) =>
      match Body(h)
      case Err(e) => Err(Http(e))
      case Ok(text) =>
        if !IsSuccess(h.status) then Err(ApiError("HTTP " + h.statusText + ": " + text))
        else match parse(text)
          case Err(e) => Err(ApiError("Invalid JSON response: " + e))
          case Ok(resp) => Ok(resp)
  }

  /** `call_api`: without an API key nothing is sent. */
  function CallApi<S>(env: Env<S>, messages: seq<ChatMessage>, stream: bool, attempt: nat)
    : (r: Result<ChatCompletionResponse, AppError>)
    ensures env.settings.apiKey.None? ==> r == Err(MissingApiKey)
    ensures env.settings.apiKey.Some? ==>
              r == ReplyResponse(env.server(attempt, RequestBody(env.settings, messages, stream, env.tools)), env.parse)
  {
    if env.settings.apiKey.None? then Err(MissingApiKey)
    else ReplyResponse(env.server(attempt, RequestBody(env.settings, messages, stream, env.tools)), env.parse)
  }

  // ---------------------------------------------------------------------------
  // Messages and the task context

  function SystemMessage(content: string): ChatMessage {
    ChatMessage("system", Some(content), None, None, None, None)
  }

  function UserMessage(content: string): ChatMessage {
    ChatMessage("user", Some(content), None, None, None, None)
  }

  function AssistantText(content: string): ChatMessage {
    ChatMessage("assistant", Some(content), None, None, None, None)
  }

  function ToolMessage(c: ToolCall, content: string): ChatMessage {
    ChatMessage("tool", Some(content), Some(c.call.name), None, None, Some(c.id))
  }

  function FunctionMessage(name: string, content: string): ChatMessage {
    ChatMessage("function", Some(content), Some(name), None, None, None)
  }

  const NoTodosContext: string := "当前没有任何待办任务。"
  const PendingHeader: string := "当前待办任务:\n"
  const MaxContextTodos: nat := 10

  predicate IsIncomplete(t: Todo) {
    !t.completed
  }

  /** The first eight characters of an id (all of a UUID's are ASCII). */
  function IdPrefix(id: string): string {
    if |id| >= 8 then id[..8] else id
  }

  function PendingLine(t: Todo): string {
    "- [" + (if t.completed then "x" else " ") + "] " + t.text + " (ID: " + IdPrefix(t.id) + ")"
  }

  /** The tasks the context lists: the first ten incomplete ones, in list order. */
  function ContextTodos(todos: seq<Todo>): (r: seq<Todo>)
    ensures |r| <= MaxContextTodos && |r| <= |Filter(todos, IsIncomplete)|
    ensures r == Filter(todos, IsIncomplete)[..|r|]
    ensures |r| < MaxContextTodos ==> r == Filter(todos, IsIncomplete)
    ensures forall i :: 0 <= i < |r| ==> r[i] in todos && !r[i].completed
  {
    var open := Filter(todos, IsIncomplete);
    if |open| <= MaxContextTodos then open else open[..MaxContextTodos]
  }

  function ContextLines(listed: seq<Todo>): (lines: seq<string>)
    ensures |lines| == |listed|
    ensures forall k :: 0 <= k < |lines| ==> lines[k] == PendingLine(listed[k])
  {
    seq(|listed|, k requires 0 <= k < |listed| => PendingLine(listed[k]))
  }

  function TodoContext(todos: seq<Todo>): (r: string)
    ensures todos == [] ==> r == NoTodosContext
    ensures todos != [] ==> StartsWith(r, PendingHeader)
  {
    if todos == [] then NoTodosContext
    else PendingHeader + Join(ContextLines(ContextTodos(todos)), "\n")
  }

  /** Each listed task's line, with its open box, appears in the context. */
  lemma ContextShowsListed(todos: seq<Todo>, i: int)
    requires 0 <= i < |ContextTodos(todos)|
    ensures var t := ContextTodos(todos)[i];
            Contains(TodoContext(todos), "- [ ] " + t.text + " (ID: " + IdPrefix(t.id) + ")")
  {
    var listed := ContextTodos(todos);
    assert listed[i] in todos && !listed[i].completed;
    LineInContext(listed, i);
  }

  /** The line of an incomplete task, with its box written out. */
  lemma OpenLine(t: Todo)
    requires !t.completed
    ensures PendingLine(t) == "- [ ] " + t.text + " (ID: " + IdPrefix(t.id) + ")"
  {
    assert "- [" + " " + "] " == "- [ ] ";
  }

  lemma LineInContext(listed: seq<Todo>, i: int)
    requires 0 <= i < |listed| && !listed[i].completed
    ensures Contains(PendingHeader + Join(ContextLines(listed), "\n"),
                     "- [ ] " + listed[i].text + " (ID: " + IdPrefix(listed[i].id) + ")")
  {
    var lines := ContextLines(listed);
    var before, after := JoinSplit(lines, "\n", i);
    var line := "- [ ] " + listed[i].text + " (ID: " + IdPrefix(listed[i].id) + ")";
    OpenLine(listed[i]);
    ContainsAfterHead(PendingHeader, Join(lines, "\n"), before, line, after);
  }

  function SystemPrompt(s: Settings, todos: seq<Todo>): string {
    s.systemPrompt + "\n\n---\n" + TodoContext(todos)
  }

  /** What `build_messages` produces. */
  function Conversation(s: Settings, request: AiChatRequest, todos: seq<Todo>): (msgs: seq<ChatMessage>)
    ensures |msgs| == 2 + |request.history.GetOr([])|
    ensures msgs[0] == SystemMessage(SystemPrompt(s, todos))
    ensures msgs[1..|msgs| - 1] == request.history.GetOr([])
    ensures msgs[|msgs| - 1] == UserMessage(request.message)
  {
    var msgs := [SystemMessage(SystemPrompt(s, todos))] + request.history.GetOr([]) + [UserMessage(request.message)];
    assert msgs[1..|msgs| - 1] == request.history.GetOr([]);
    msgs
  }

  method BuildMessages(s: Settings, request: AiChatRequest, todos: seq<Todo>) returns (messages: seq<ChatMessage>)
    ensures messages == Conversation(s, request, todos)
  {
    var system := SystemMessage(SystemPrompt(s, todos));
    messages := AppendHistory(system, request.history.GetOr([]));
    messages := messages + [UserMessage(request.message)];
  }

  /** The system message followed by the history, one message at a time. */
  method AppendHistory(system: ChatMessage, history: seq<ChatMessage>) returns (messages: seq<ChatMessage>)
    ensures messages == [system] + history
  {
    messages := [system];
    var i := 0;
    while i < |history|
      invariant 0 <= i <= |history|
      invariant messages == [system] + history[..i]
    {
      messages := messages + [history[i]];
      assert history[..i + 1] == history[..i] + [history[i]];
      i := i + 1;
    }
    assert history[..i] == history;
  }

  // ---------------------------------------------------------------------------
  // One turn of the loop

  const FallbackWarning: string :=
    "Function calls were parsed from text instead of structured format. Your API may not fully support function calling."

  const MaxIterations: nat := 5

  /** What the loop carries from turn to turn. */
  datatype Progress<S> = Progress(state: S, messages: seq<ChatMessage>, results: seq<FunctionResult>, warnings: seq<string>)

  /** A turn either goes round again, ends with the reply's text, or fails (keeping
      the state the failing call left). */
  datatype Turn<S> =
    | Continue(progress: Progress<S>)
    | Final(progress: Progress<S>, content: Option<string>)
    | Failed(state: S, error: AppError)

  /** How many of the tool calls name a function. */
  function FunctionToolCount(calls: seq<ToolCall>): (n: nat)
    ensures n <= |calls|
  {
    if calls == [] then 0 else (if calls[0].toolType == "function" then 1 else 0) + FunctionToolCount(calls[1..])
  }

  /** The modern format: each function-type call runs in order; each successful one
      adds its result and two messages (the whole assistant message, then the tool
      reply). The first failure ends the turn. */
  function ToolCallsFold<S>(env: Env<S>, p: Progress<S>, assistant: ChatMessage, calls: seq<ToolCall>)
    : (t: Turn<S>)
    ensures t.Continue? || t.Failed?
    ensures t.Continue? ==> && t.progress.warnings == p.warnings
                            && |t.progress.results| == |p.results| + FunctionToolCount(calls)
                            && t.progress.results[..|p.results|] == p.results
    decreases |calls|
  {
    if calls == [] then Continue(p)
    else
      var c := calls[0];
      if c.toolType != "function" then ToolCallsFold(env, p, assistant, calls[1..])
      else
        var (s, res) := env.exec(p.state, c.call.name, c.call.arguments);
        match res
        case Err(e) => Failed(s, e)
        case Ok(v) =>
          var p' := Progress(s, p.messages + [assistant, ToolMessage(c, env.encode(v))],
                             p.results + [FunctionResult(c.call.name, true, v)], p.warnings);
          var t := ToolCallsFold(env, p', assistant, calls[1..]);
          assert t.Continue? ==> t.progress.results[..|p.results|] == p'.results[..|p.results|];
          t
  }

  /** The legacy format: one call, then the assistant message and the function reply. */
  function LegacyStep<S>(env: Env<S>, p: Progress<S>, assistant: ChatMessage, fc: FunctionCallData): (t: Turn<S>)
    ensures t.Continue? || t.Failed?
    ensures t.Continue? ==> && t.progress.warnings == p.warnings
                            && |t.progress.results| == |p.results| + 1
                            && t.progress.results[..|p.results|] == p.results
                            && env.exec(p.state, fc.name, fc.arguments).1.Ok?
                            && t.progress.results[|p.results|] == FunctionResult(fc.name, true, env.exec(p.state, fc.name, fc.arguments).1.value)
    ensures t.Failed? ==> env.exec(p.state, fc.name, fc.arguments) == (t.state, Err(t.error))
  {
    var (s, res) := env.exec(p.state, fc.name, fc.arguments);
    match res
    case Err(e) => Failed(s, e)
    case Ok(v) =>
      Continue(Progress(s, p.messages + [assistant, FunctionMessage(fc.name, env.encode(v))],
                        p.results + [FunctionResult(fc.name, true, v)], p.warnings))
  }

  /** The text fallback's calls, run in order; each removes its original text from
      the reply. */
  function ExtractedFold<S>(env: Env<S>, p: Progress<S>, calls: seq<ExtractedCall>, cleaned: string)
    : (r: (Turn<S>, string))
    ensures r.0.Continue? || r.0.Failed?
    ensures r.0.Continue? ==> && r.0.progress.warnings == p.warnings
                              && |r.0.progress.results| == |p.results| + |calls|
                              && p.results <= r.0.progress.results
    decreases |calls|
  {
    if calls == [] then (Continue(p), cleaned)
    else
      var c := calls[0];
      var (s, res) := env.exec(p.state, c.name, c.arguments);
      match res
      case Err(e) => (Failed(s, e), cleaned)
      case Ok(v) =>
        ExtractedFold(env, Progress(s, p.messages, p.results + [FunctionResult(c.name, true, v)], p.warnings),
                      calls[1..], RemoveAll(cleaned, c.originalText))
  }

  /** The names of the function-type calls, in call order. */
  function FunctionToolNames(calls: seq<ToolCall>): seq<string>
    decreases |calls|
  {
    if calls == [] then []
    else (if calls[0].toolType == "function" then [calls[0].call.name] else []) + FunctionToolNames(calls[1..])
  }

  function ExtractedNames(calls: seq<ExtractedCall>): seq<string> {
    seq(|calls|, i requires 0 <= i < |calls| => calls[i].name)
  }

  function ResultNames(rs: seq<FunctionResult>): seq<string> {
    seq(|rs|, i requires 0 <= i < |rs| => rs[i].functionName)
  }

  lemma ResultNamesFrom(rs: seq<FunctionResult>, n: nat)
    requires n < |rs|
    ensures ResultNames(rs[n..]) == [rs[n].functionName] + ResultNames(rs[n + 1..])
  {
    assert rs[n..] == [rs[n]] + rs[n + 1..];
  }

  /** The modern format records one successful result per function-type call, named
      after it and in call order. */
  lemma {:induction false} ToolCallsFoldRecords<S>(env: Env<S>, p: Progress<S>, a: ChatMessage, calls: seq<ToolCall>)
    ensures ToolCallsFold(env, p, a, calls).Continue? ==>
      var rs := ToolCallsFold(env, p, a, calls).progress.results;
      && (forall k :: |p.results| <= k < |rs| ==> rs[k].success)
      && ResultNames(rs[|p.results|..]) == FunctionToolNames(calls)
    decreases |calls|
  {
    if calls != [] {
      var c := calls[0];
      if c.toolType != "function" {
        ToolCallsFoldRecords(env, p, a, calls[1..]);
      } else {
        var (s, res) := env.exec(p.state, c.call.name, c.call.arguments);
        if res.Ok? {
          var p' := Progress(s, p.messages + [a, ToolMessage(c, env.encode(res.value))],
                             p.results + [FunctionResult(c.call.name, true, res.value)], p.warnings);
          ToolCallsFoldRecords(env, p', a, calls[1..]);
          var t := ToolCallsFold(env, p', a, calls[1..]);
          assert ToolCallsFold(env, p, a, calls) == t;
          if t.Continue? {
            var rs := t.progress.results;
            ResultNamesFrom(rs, |p.results|);
            assert rs[|p.results|] == p'.results[|p.results|];
          }
        }
      }
    }
  }

  /** A failed modern-format turn carries an error the executor gave for one of the
      function-type calls. */
  lemma {:induction false} ToolCallsFoldError<S>(env: Env<S>, p: Progress<S>, a: ChatMessage, calls: seq<ToolCall>)
    ensures ToolCallsFold(env, p, a, calls).Failed? ==>
      exists k, s :: 0 <= k < |calls| && calls[k].toolType == "function"
        && env.exec(s, calls[k].call.name, calls[k].call.arguments).1 == Err(ToolCallsFold(env, p, a, calls).error)
    decreases |calls|
  {
    if calls != [] {
      var c := calls[0];
      var t := ToolCallsFold(env, p, a, calls);
      if c.toolType != "function" {
        ToolCallsFoldError(env, p, a, calls[1..]);
        if t.Failed? {
          var k, s :| 0 <= k < |calls[1..]| && calls[1..][k].toolType == "function"
            && env.exec(s, calls[1..][k].call.name, calls[1..][k].call.arguments).1 == Err(t.error);
          assert calls[k + 1] == calls[1..][k];
        }
      } else {
        var (s, res) := env.exec(p.state, c.call.name, c.call.arguments);
        if res.Ok? {
          var p' := Progress(s, p.messages + [a, ToolMessage(c, env.encode(res.value))],
                             p.results + [FunctionResult(c.call.name, true, res.value)], p.warnings);
          ToolCallsFoldError(env, p', a, calls[1..]);
          assert t == ToolCallsFold(env, p', a, calls[1..]);
          if t.Failed? {
            var k, s2 :| 0 <= k < |calls[1..]| && calls[1..][k].toolType == "function"
              && env.exec(s2, calls[1..][k].call.name, calls[1..][k].call.arguments).1 == Err(t.error);
            assert calls[k + 1] == calls[1..][k];
          }
        } else {
          assert t.error == res.error;
        }
      }
    }
  }

  /** The fallback records one successful result per extracted call, named after it
      and in call order. */
  lemma {:induction false} ExtractedFoldRecords<S>(env: Env<S>, p: Progress<S>, calls: seq<ExtractedCall>, cleaned: string)
    ensures ExtractedFold(env, p, calls, cleaned).0.Continue? ==>
      var rs := ExtractedFold(env, p, calls, cleaned).0.progress.results;
      && (forall k :: |p.results| <= k < |rs| ==> rs[k].success)
      && ResultNames(rs[|p.results|..]) == ExtractedNames(calls)
    decreases |calls|
  {
    if calls != [] {
      var c := calls[0];
      var (s, res) := env.exec(p.state, c.name, c.arguments);
      if res.Ok? {
        var p' := Progress(s, p.messages, p.results + [FunctionResult(c.name, true, res.value)], p.warnings);
        ExtractedFoldRecords(env, p', calls[1..], RemoveAll(cleaned, c.originalText));
        var t := ExtractedFold(env, p', calls[1..], RemoveAll(cleaned, c.originalText)).0;
        assert ExtractedFold(env, p, calls, cleaned).0 == t;
        if t.Continue? {
          var rs := t.progress.results;
          ResultNamesFrom(rs, |p.results|);
          assert rs[|p.results|] == p'.results[|p.results|];
          assert ExtractedNames(calls) == [c.name] + ExtractedNames(calls[1..]);
        }
      }
    }
  }

  /** A failed fallback turn carries an error the executor gave for one of the
      extracted calls. */
  lemma {:induction false} ExtractedFoldError<S>(env: Env<S>, p: Progress<S>, calls: seq<ExtractedCall>, cleaned: string)
    ensures ExtractedFold(env, p, calls, cleaned).0.Failed? ==>
      exists k, s :: 0 <= k < |calls|
        && env.exec(s, calls[k].name, calls[k].arguments).1 == Err(ExtractedFold(env, p, calls, cleaned).0.error)
    decreases |calls|
  {
    if calls != [] {
      var c := calls[0];
      var (s, res) := env.exec(p.state, c.name, c.arguments);
      if res.Ok? {
        var p' := Progress(s, p.messages, p.results + [FunctionResult(c.name, true, res.value)], p.warnings);
        ExtractedFoldError(env, p', calls[1..], RemoveAll(cleaned, c.originalText));
        var t := ExtractedFold(env, p', calls[1..], RemoveAll(cleaned, c.originalText)).0;
        assert ExtractedFold(env, p, calls, cleaned).0 == t;
        if t.Failed? {
          var k, s2 :| 0 <= k < |calls[1..]|
            && env.exec(s2, calls[1..][k].name, calls[1..][k].arguments).1 == Err(t.error);
          assert calls[k + 1] == calls[1..][k];
        }
      } else {
        assert ExtractedFold(env, p, calls, cleaned).0.error == res.error;
      }
    }
  }

  /** One function reply per result gathered so far in the whole conversation. */
  function ResultMessages<S>(env: Env<S>, results: seq<FunctionResult>): (ms: seq<ChatMessage>)
    ensures |ms| == |results|
  {
    seq(|results|, i requires 0 <= i < |results| => FunctionMessage(results[i].functionName, env.encode(results[i].result)))
  }

  /** The text fallback: one warning, the extracted calls, the cleaned and trimmed
      reply as an assistant message, then a function reply for every result. */
  function FallbackStep<S>(env: Env<S>, p: Progress<S>, content: string): (t: Turn<S>)
    ensures t.Continue? || t.Failed?
    ensures t.Continue? ==> t.progress.warnings == p.warnings + [FallbackWarning]
    ensures t.Continue? ==> p.results <= t.progress.results
  {
    var p1 := p.(warnings := p.warnings + [FallbackWarning]);
    var (t, cleaned) := ExtractedFold(env, p1, env.parseText(content), content);
    match t
    case Continue(p2) =>
      Continue(p2.(messages := p2.messages + [AssistantText(RustTrim(cleaned))] + ResultMessages(env, p2.results)))
    case _ => t
  }

  /** The reply's text holds calls the fallback will run. */
  predicate UsesFallback<S>(env: Env<S>, m: ChatMessage) {
    && m.toolCalls.None? && m.functionCall.None?
    && env.settings.enableTextFallback && m.content.Some? && env.parseText(m.content.value) != []
  }

  /** Tool calls first, then a legacy call, then (when enabled) calls found in the
      text; otherwise the reply is final. */
  function Step<S>(env: Env<S>, p: Progress<S>, m: ChatMessage): (t: Turn<S>)
    ensures !t.Failed? ==> p.results <= t.progress.results && p.warnings <= t.progress.warnings
  {
    if m.toolCalls.Some? then ToolCallsFold(env, p, m, m.toolCalls.value)
    else if m.functionCall.Some? then LegacyStep(env, p, m, m.functionCall.value)
    else if UsesFallback(env, m) then FallbackStep(env, p, m.content.value)
    else Final(p, m.content)
  }

  /** A turn is final exactly when the reply carries no call in any format, and a
      final turn runs nothing; a turn that goes on adds the fallback warning exactly
      when the calls came from the text. */
  lemma StepPrecedence<S>(env: Env<S>, p: Progress<S>, m: ChatMessage)
    ensures Step(env, p, m).Final? <==> m.toolCalls.None? && m.functionCall.None? && !UsesFallback(env, m)
    ensures Step(env, p, m).Final? ==> Step(env, p, m) == Final(p, m.content)
    ensures Step(env, p, m).Continue? ==>
              Step(env, p, m).progress.warnings == p.warnings + (if UsesFallback(env, m) then [FallbackWarning] else [])
    ensures m.toolCalls.Some? ==> Step(env, p, m) == ToolCallsFold(env, p, m, m.toolCalls.value)
    ensures m.toolCalls.None? && m.functionCall.Some? ==> Step(env, p, m) == LegacyStep(env, p, m, m.functionCall.value)
    ensures UsesFallback(env, m) ==> Step(env, p, m) == FallbackStep(env, p, m.content.value)
  {
  }

  // ---------------------------------------------------------------------------
  // The loop

  /** The response handed back once the model answers without a call. */
  function FinalResponse<S>(p: Progress<S>, content: Option<string>, todos: seq<Todo>): (r: AiChatResponse)
    ensures r.message == content.GetOr("")
    ensures r.functionResults.None? <==> p.results == []
    ensures r.functionResults.Some? ==> r.functionResults.value == p.results
    ensures r.warnings.None? <==> p.warnings == []
    ensures r.warnings.Some? ==> r.warnings.value == p.warnings
    ensures r.updatedTodos == Some(todos)
  {
    AiChatResponse(
      content.GetOr(""),
      if p.results == [] then None else Some(p.results),
      Some(todos),
      if p.warnings == [] then None else Some(p.warnings))
  }

  /** The conversation's outcome: the executor's final state and the reply or error. */
  datatype Outcome<S> = Outcome(state: S, result: Result<AiChatResponse, AppError>)

  /** The loop from attempt `attempt` on, with the progress made so far. A reply
      reports every result and warning gathered before it, and the tasks as the
      executor leaves them. */
  function ChatFrom<S>(env: Env<S>, p: Progress<S>, attempt: nat): (r: Outcome<S>)
    ensures attempt >= MaxIterations ==> r == Outcome(p.state, Err(TooManyFunctionCalls))
    ensures attempt < MaxIterations && env.settings.apiKey.None? ==> r == Outcome(p.state, Err(MissingApiKey))
    ensures r.result.Ok? ==> && r.result.value.updatedTodos == Some(env.listTodos(r.state))
                             && p.results <= r.result.value.functionResults.GetOr([])
                             && p.warnings <= r.result.value.warnings.GetOr([])
    decreases MaxIterations - attempt, 1
  {
    if attempt >= MaxIterations then Outcome(p.state, Err(TooManyFunctionCalls))
    else
      match CallApi(env, p.messages, false, attempt)
      case Err(e) => Outcome(p.state, Err(e))
      case Ok(resp) =>
        if resp.choices == [] then Outcome(p.state, Err(ApiError("No response choice")))
        else AfterStep(env, Step(env, p, resp.choices[0].message), attempt)
  }

  /** What `ChatFrom` does with the outcome of one reply's step. */
  function AfterStep<S>(env: Env<S>, turn: Turn<S>, attempt: nat): (r: Outcome<S>)
    requires attempt < MaxIterations
    ensures turn.Failed? ==> r == Outcome(turn.state, Err(turn.error))
    ensures r.result.Ok? ==> && r.result.value.updatedTodos == Some(env.listTodos(r.state))
                             && (!turn.Failed? ==> && turn.progress.results <= r.result.value.functionResults.GetOr([])
                                                   && turn.progress.warnings <= r.result.value.warnings.GetOr([]))
    decreases MaxIterations - attempt, 0
  {
    match turn
    case Failed(s, e) => Outcome(s, Err(e))
    case Final(p', content) => Outcome(p'.state, Ok(FinalResponse(p', content, env.listTodos(p'.state))))
    case Continue(p') => ChatFrom(env, p', attempt + 1)
  }

  /** One round of `ChatFrom`, read case by case. */
  lemma ChatFromAt<S>(env: Env<S>, p: Progress<S>, attempt: nat)
    requires attempt < MaxIterations
    ensures var r := CallApi(env, p.messages, false, attempt);
            && (r.Err? ==> ChatFrom(env, p, attempt) == Outcome(p.state, Err(r.error)))
            && (r.Ok? && r.value.choices == [] ==>
                  ChatFrom(env, p, attempt) == Outcome(p.state, Err(ApiError("No response choice"))))
            && (r.Ok? && r.value.choices != [] ==>
                  ChatFrom(env, p, attempt) == AfterStep(env, Step(env, p, r.value.choices[0].message), attempt))
  {
  }

  /** `chat`, from the executor's state `s0`. */
  function RunChat<S>(env: Env<S>, request: AiChatRequest, s0: S): (r: Outcome<S>)
    ensures r.result.Ok? ==> r.result.value.updatedTodos == Some(env.listTodos(r.state))
  {
    ChatFrom(env, Progress(s0, Conversation(env.settings, request, env.listTodos(s0)), [], []), 0)
  }

  /** Only the first five attempts are ever made: servers that agree on them give
      the same outcome. */
  lemma {:induction false} ChatFromUsesFiveAttempts<S>(env: Env<S>,
                                                       server2: (nat, ChatCompletionRequest) -> Result<HttpReply, string>,
                                                       p: Progress<S>, attempt: nat)
    requires forall k, req :: 0 <= k < MaxIterations ==> env.server(k, req) == server2(k, req)
    ensures ChatFrom(env, p, attempt) == ChatFrom(env.(server := server2), p, attempt)
    decreases MaxIterations - attempt
  {
    var env2 := env.(server := server2);
    if attempt < MaxIterations {
      assert CallApi(env, p.messages, false, attempt) == CallApi(env2, p.messages, false, attempt);
      match CallApi(env, p.messages, false, attempt)
      case Err(_) =>
      case Ok(resp) =>
        if resp.choices != [] {
          var m := resp.choices[0].message;
          assert Step(env, p, m) == Step(env2, p, m) by {
            StepIgnoresServer(env, server2, p, m);
          }
          match Step(env, p, m)
          case Failed(_, _) =>
          case Final(_, _) =>
          case Continue(p') => ChatFromUsesFiveAttempts(env, server2, p', attempt + 1);
        }
    }
  }

  lemma StepIgnoresServer<S>(env: Env<S>, server2: (nat, ChatCompletionRequest) -> Result<HttpReply, string>,
                             p: Progress<S>, m: ChatMessage)
    ensures Step(env, p, m) == Step(env.(server := server2), p, m)
  {
    var env2 := env.(server := server2);
    if m.toolCalls.Some? {
      ToolCallsIgnoreServer(env, server2, p, m, m.toolCalls.value);
    } else if m.functionCall.None? && UsesFallback(env, m) {
      ExtractedIgnoresServer(env, server2, p.(warnings := p.warnings + [FallbackWarning]),
                             env.parseText(m.content.value), m.content.value);
      assert ResultMessages(env, p.results) == ResultMessages(env2, p.results);
      var (t, _) := ExtractedFold(env, p.(warnings := p.warnings + [FallbackWarning]),
                                  env.parseText(m.content.value), m.content.value);
      if t.Continue? {
        assert ResultMessages(env, t.progress.results) == ResultMessages(env2, t.progress.results);
      }
    }
  }

  lemma {:induction false} ToolCallsIgnoreServer<S>(env: Env<S>,
                                                    server2: (nat, ChatCompletionRequest) -> Result<HttpReply, string>,
                                                    p: Progress<S>, m: ChatMessage, calls: seq<ToolCall>)
    ensures ToolCallsFold(env, p, m, calls) == ToolCallsFold(env.(server := server2), p, m, calls)
    decreases |calls|
  {
    if calls != [] {
      var c := calls[0];
      if c.toolType != "function" {
        ToolCallsIgnoreServer(env, server2, p, m, calls[1..]);
      } else {
        var (s, res) := env.exec(p.state, c.call.name, c.call.arguments);
        if res.Ok? {
          ToolCallsIgnoreServer(env, server2,
                                Progress(s, p.messages + [m, ToolMessage(c, env.encode(res.value))],
                                         p.results + [FunctionResult(c.call.name, true, res.value)], p.warnings),
                                m, calls[1..]);
        }
      }
    }
  }

  lemma {:induction false} ExtractedIgnoresServer<S>(env: Env<S>,
                                                     server2: (nat, ChatCompletionRequest) -> Result<HttpReply, string>,
                                                     p: Progress<S>, calls: seq<ExtractedCall>, cleaned: string)
    ensures ExtractedFold(env, p, calls, cleaned) == ExtractedFold(env.(server := server2), p, calls, cleaned)
    decreases |calls|
  {
    if calls != [] {
      var c := calls[0];
      var (s, res) := env.exec(p.state, c.name, c.arguments);
      if res.Ok? {
        ExtractedIgnoresServer(env, server2, Progress(s, p.messages, p.results + [FunctionResult(c.name, true, res.value)], p.warnings),
                               calls[1..], RemoveAll(cleaned, c.originalText));
      }
    }
  }

  /** The reply to every attempt asks for a function, in any of the three formats. */
  predicate AlwaysCalls<S>(env: Env<S>, reply: Result<HttpReply, string>) {
    var r := ReplyResponse(reply, env.parse);
    r.Ok? && r.value.choices != []
    && (var m := r.value.choices[0].message;
        m.toolCalls.Some? || m.functionCall.Some? || UsesFallback(env, m))
  }

  /** When every reply asks for a function and every call succeeds, the loop gives
      up after five attempts. */
  lemma {:induction false} EndlessCallsAreTooMany<S>(env: Env<S>, p: Progress<S>, attempt: nat)
    requires env.settings.apiKey.Some?
    requires forall k, req :: 0 <= k < MaxIterations ==> AlwaysCalls(env, env.server(k, req))
    requires forall s, name, args :: env.exec(s, name, args).1.Ok?
    ensures ChatFrom(env, p, attempt).result == Err(TooManyFunctionCalls)
    decreases MaxIterations - attempt
  {
    if attempt < MaxIterations {
      var req := RequestBody(env.settings, p.messages, false, env.tools);
      assert AlwaysCalls(env, env.server(attempt, req));
      var resp := CallApi(env, p.messages, false, attempt).value;
      var m := resp.choices[0].message;
      if m.toolCalls.Some? || m.functionCall.Some? {
        NoFailure(env, p, m);
      } else {
        ExtractedNeverFail(env, p.(warnings := p.warnings + [FallbackWarning]), env.parseText(m.content.value), m.content.value);
        StepPrecedence(env, p, m);
      }
      EndlessCallsAreTooMany(env, Step(env, p, m).progress, attempt + 1);
    }
  }

  lemma NoFailure<S>(env: Env<S>, p: Progress<S>, m: ChatMessage)
    requires m.toolCalls.Some? || m.functionCall.Some?
    requires forall s, name, args :: env.exec(s, name, args).1.Ok?
    ensures Step(env, p, m).Continue?
  {
    if m.toolCalls.Some? {
      ToolCallsNeverFail(env, p, m, m.toolCalls.value);
    } else {
      var fc := m.functionCall.value;
      assert env.exec(p.state, fc.name, fc.arguments).1.Ok?;
    }
  }

  /** A total executor lets every extracted call through. */
  lemma {:induction false} ExtractedNeverFail<S>(env: Env<S>, p: Progress<S>, calls: seq<ExtractedCall>, cleaned: string)
    requires forall s, name, args :: env.exec(s, name, args).1.Ok?
    ensures ExtractedFold(env, p, calls, cleaned).0.Continue?
    decreases |calls|
  {
    if calls != [] {
      var c := calls[0];
      var (s, res) := env.exec(p.state, c.name, c.arguments);
      assert res.Ok?;
      ExtractedNeverFail(env, Progress(s, p.messages, p.results + [FunctionResult(c.name, true, res.value)], p.warnings),
                         calls[1..], RemoveAll(cleaned, c.originalText));
    }
  }

  lemma {:induction false} ToolCallsNeverFail<S>(env: Env<S>, p: Progress<S>, m: ChatMessage, calls: seq<ToolCall>)
    requires forall s, name, args :: env.exec(s, name, args).1.Ok?
    ensures ToolCallsFold(env, p, m, calls).Continue?
    decreases |calls|
  {
    if calls != [] {
      var c := calls[0];
      if c.toolType != "function" {
        ToolCallsNeverFail(env, p, m, calls[1..]);
      } else {
        var (s, res) := env.exec(p.state, c.call.name, c.call.arguments);
        assert res.Ok?;
        ToolCallsNeverFail(env, Progress(s, p.messages + [m, ToolMessage(c, env.encode(res.value))],
                                         p.results + [FunctionResult(c.call.name, true, res.value)], p.warnings),
                           m, calls[1..]);
      }
    }
  }

  /** With the text fallback off, a turn adds no warning. */
  lemma NoFallbackTurn<S>(env: Env<S>, p: Progress<S>, m: ChatMessage)
    requires !env.settings.enableTextFallback
    ensures !Step(env, p, m).Failed? ==> Step(env, p, m).progress.warnings == p.warnings
  {
    StepPrecedence(env, p, m);
    assert !UsesFallback(env, m);
  }

  /** With the text fallback off, a successful answer never carries warnings. */
  lemma {:induction false} NoFallbackNoWarnings<S>(env: Env<S>, p: Progress<S>, attempt: nat)
    requires !env.settings.enableTextFallback && p.warnings == []
    ensures ChatFrom(env, p, attempt).result.Ok? ==> ChatFrom(env, p, attempt).result.value.warnings.None?
    decreases MaxIterations - attempt
  {
    if attempt < MaxIterations {
      ChatFromAt(env, p, attempt);
      var r := CallApi(env, p.messages, false, attempt);
      if r.Ok? && r.value.choices != [] {
        var turn := Step(env, p, r.value.choices[0].message);
        NoFallbackTurn(env, p, r.value.choices[0].message);
        if turn.Continue? {
          NoFallbackNoWarnings(env, turn.progress, attempt + 1);
        }
      }
    }
  }

  /** Without an API key the conversation fails before anything runs. */
  lemma MissingKeyFailsFirst<S>(env: Env<S>, request: AiChatRequest, s0: S)
    requires env.settings.apiKey.None?
    ensures RunChat(env, request, s0) == Outcome(s0, Err(MissingApiKey))
  {
  }

  // ---------------------------------------------------------------------------
  // The methods

  method RunToolCalls<S>(env: Env<S>, p0: Progress<S>, assistant: ChatMessage, calls: seq<ToolCall>)
    returns (t: Turn<S>)
    ensures t == ToolCallsFold(env, p0, assistant, calls)
  {
    var p := p0;
    var i := 0;
    while i < |calls|
      invariant 0 <= i <= |calls|
      invariant ToolCallsFold(env, p, assistant, calls[i..]) == ToolCallsFold(env, p0, assistant, calls)
    {
      var c := calls[i];
      assert calls[i..][1..] == calls[i + 1..];
      if c.toolType == "function" {
        var (s, res) := env.exec(p.state, c.call.name, c.call.arguments);
        if res.Err? {
          return Failed(s, res.error);
        }
        p := Progress(s, p.messages + [assistant, ToolMessage(c, env.encode(res.value))],
                      p.results + [FunctionResult(c.call.name, true, res.value)], p.warnings);
      }
      i := i + 1;
    }
    t := Continue(p);
  }

  method RunExtracted<S>(env: Env<S>, p0: Progress<S>, extracted: seq<ExtractedCall>, content: string)
    returns (r: (Turn<S>, string))
    ensures r == ExtractedFold(env, p0, extracted, content)
  {
    var p := p0;
    var cleaned := content;
    var i := 0;
    while i < |extracted|
      invariant 0 <= i <= |extracted|
      invariant ExtractedFold(env, p, extracted[i..], cleaned) == ExtractedFold(env, p0, extracted, content)
    {
      var c := extracted[i];
      assert extracted[i..][1..] == extracted[i + 1..];
      var (s, res) := env.exec(p.state, c.name, c.arguments);
      if res.Err? {
        return (Failed(s, res.error), cleaned);
      }
      p := Progress(s, p.messages, p.results + [FunctionResult(c.name, true, res.value)], p.warnings);
      cleaned := RemoveAll(cleaned, c.originalText);
      i := i + 1;
    }
    r := (Continue(p), cleaned);
  }

  method AppendResultMessages<S>(env: Env<S>, messages0: seq<ChatMessage>, results: seq<FunctionResult>)
    returns (messages: seq<ChatMessage>)
    ensures messages == messages0 + ResultMessages(env, results)
  {
    messages := messages0;
    var j := 0;
    while j < |results|
      invariant 0 <= j <= |results|
      invariant messages == messages0 + ResultMessages(env, results)[..j]
    {
      var result := results[j];
      messages := messages + [FunctionMessage(result.functionName, env.encode(result.result))];
      assert ResultMessages(env, results)[..j + 1] == ResultMessages(env, results)[..j] + [ResultMessages(env, results)[j]];
      j := j + 1;
    }
    assert ResultMessages(env, results)[..j] == ResultMessages(env, results);
  }

  method RunFallback<S>(env: Env<S>, p0: Progress<S>, content: string) returns (t: Turn<S>)
    ensures t == FallbackStep(env, p0, content)
  {
    var extracted := env.parseText(content);
    var p1 := p0.(warnings := p0.warnings + [FallbackWarning]);
    var r := RunExtracted(env, p1, extracted, content);
    if r.0.Failed? {
      return r.0;
    }
    var p := r.0.progress;
    var messages := AppendResultMessages(env, p.messages + [AssistantText(RustTrim(r.1))], p.results);
    t := Continue(p.(messages := messages));
  }

  method RunStep<S>(env: Env<S>, p: Progress<S>, m: ChatMessage) returns (turn: Turn<S>)
    ensures turn == Step(env, p, m)
  {
    if m.toolCalls.Some? {
      turn := RunToolCalls(env, p, m, m.toolCalls.value);
    } else if m.functionCall.Some? {
      turn := LegacyStep(env, p, m, m.functionCall.value);
    } else if UsesFallback(env, m) {
      turn := RunFallback(env, p, m.content.value);
    } else {
      turn := Final(p, m.content);
    }
  }

  /** One request of `chat` and the handling of its reply: either the chat ends
      with `outcome`, or it goes on from `next`. */
  method ChatRound<S>(env: Env<S>, p: Progress<S>, attempt: nat) returns (done: bool, outcome: Outcome<S>, next: Progress<S>)
    requires attempt < MaxIterations
    ensures done ==> outcome == ChatFrom(env, p, attempt)
    ensures !done ==> ChatFrom(env, next, attempt + 1) == ChatFrom(env, p, attempt)
  {
    ChatFromAt(env, p, attempt);
    next := p;
    var response := CallApi(env, p.messages, false, attempt);
    if response.Err? {
      return true, Outcome(p.state, Err(response.error)), p;
    }
    if response.value.choices == [] {
      return true, Outcome(p.state, Err(ApiError("No response choice"))), p;
    }
    var m := response.value.choices[0].message;
    var turn := RunStep(env, p, m);
    assert ChatFrom(env, p, attempt) == AfterStep(env, turn, attempt);
    match turn
    case Failed(s, e) =>
      return true, Outcome(s, Err(e)), p;
    case Final(p', content) =>
      var updated := env.listTodos(p'.state);
      return true, Outcome(p'.state, Ok(FinalResponse(p', content, updated))), p;
    case Continue(p') =>
      return false, Outcome(p.state, Err(TooManyFunctionCalls)), p';
  }

  /** `chat`: the conversation is built once, then at most five requests follow,
      each reply handled by `Step`. */
  method Chat<S>(env: Env<S>, request: AiChatRequest, s0: S) returns (outcome: Outcome<S>)
    ensures outcome == RunChat(env, request, s0)
  {
    var messages := BuildMessages(env.settings, request, env.listTodos(s0));
    outcome := ChatLoop(env, Progress(s0, messages, [], []));
  }

  /** The request loop of `chat`, from the first attempt. */
  method ChatLoop<S>(env: Env<S>, start: Progress<S>) returns (outcome: Outcome<S>)
    ensures outcome == ChatFrom(env, start, 0)
  {
    var p := start;
    var attempt := 0;
    while attempt < MaxIterations
      invariant 0 <= attempt <= MaxIterations
      invariant ChatFrom(env, p, attempt) == ChatFrom(env, start, 0)
    {
      var done, result, next := ChatRound(env, p, attempt);
      if done {
        return result;
      }
      p := next;
      attempt := attempt + 1;
    }
    outcome := Outcome(p.state, Err(TooManyFunctionCalls));
  }
}
