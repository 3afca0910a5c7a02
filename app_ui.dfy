/** The desktop front end: the list views derived from the task list, the list
    updaters the todo handlers apply to a command's reply, and the chat handler's
    transcript.

    Each handler's command goes into `calls` with the request the back end
    receives; the command's reply (the value it returned, or the value its promise
    was rejected with) is a parameter. The message ids read the clock, given as one
    reading per message slot. */
module AppUi {
  import opened Wrappers
  import opened Text
  import opened JsonValue
  import opened Seqs
  import opened TodoModel
  import opened AppErrors
  import AiService

  // ---------------------------------------------------------------------------
  // Derived views

  function IsActive(t: Todo): bool {
    !t.completed && t.status != Cancelled
  }

  function IsArchived(t: Todo): bool {
    t.status == Cancelled
  }

  function IsDone(t: Todo): bool {
    t.completed
  }

  function ActiveTodos(todos: seq<Todo>): seq<Todo> {
    Filter(todos, IsActive)
  }

  function ArchivedTodos(todos: seq<Todo>): seq<Todo> {
    Filter(todos, IsArchived)
  }

  function CompletedCount(todos: seq<Todo>): nat {
    Count(todos, IsDone)
  }

  /** The active view holds exactly the open, uncancelled tasks, the archive exactly
      the cancelled ones, and no task is in both. */
  lemma ViewsPartition(todos: seq<Todo>, t: Todo)
    ensures t in ActiveTodos(todos) <==> t in todos && !t.completed && t.status != Cancelled
    ensures t in ArchivedTodos(todos) <==> t in todos && t.status == Cancelled
    ensures !(t in ActiveTodos(todos) && t in ArchivedTodos(todos))
  {
    if t in todos {
      var i :| 0 <= i < |todos| && todos[i] == t;
      assert IsActive(todos[i]) ==> todos[i] in ActiveTodos(todos);
      assert IsArchived(todos[i]) ==> todos[i] in ArchivedTodos(todos);
    }
    if t in ActiveTodos(todos) {
      var i :| 0 <= i < |ActiveTodos(todos)| && ActiveTodos(todos)[i] == t;
    }
    if t in ArchivedTodos(todos) {
      var i :| 0 <= i < |ArchivedTodos(todos)| && ArchivedTodos(todos)[i] == t;
    }
  }

  /** The completed count is the number of tasks with the done flag, and every task
      is active, archived or done. */
  lemma {:induction false} ViewsCover(todos: seq<Todo>)
    ensures CompletedCount(todos) == |Filter(todos, IsDone)|
    ensures |ActiveTodos(todos)| + |ArchivedTodos(todos)| + Count(todos, (t: Todo) => t.completed && t.status != Cancelled)
            == |todos|
  {
    CountIsFilterLength(todos, IsDone);
    var doneOpen := (t: Todo) => t.completed && t.status != Cancelled;
    var rest := (t: Todo) => !IsActive(t);
    CountSplits(todos, IsActive, rest);
    CountIsFilterLength(todos, IsActive);
    CountSplits3(todos, doneOpen);
    CountIsFilterLength(todos, IsArchived);
  }

  /** The tasks that are not active split into the archived and the done-but-open. */
  lemma {:induction false} CountSplits3(todos: seq<Todo>, doneOpen: Todo -> bool)
    requires forall t :: doneOpen(t) == (t.completed && t.status != Cancelled)
    ensures Count(todos, (t: Todo) => !IsActive(t)) == Count(todos, IsArchived) + Count(todos, doneOpen)
  {
    if todos != [] {
      CountSplits3(todos[..|todos| - 1], doneOpen);
    }
  }

  // ---------------------------------------------------------------------------
  // List updaters

  /** `prev.map(t => t.id === updated.id ? updated : t)`. */
  function ReplaceById(todos: seq<Todo>, updated: Todo): (r: seq<Todo>)
    ensures |r| == |todos|
    ensures forall i :: 0 <= i < |r| ==> r[i] == (if todos[i].id == updated.id then updated else todos[i])
  {
    seq(|todos|, i requires 0 <= i < |todos| => if todos[i].id == updated.id then updated else todos[i])
  }

  /** A second replacement by the same record changes nothing, and a record whose
      id is not listed leaves the list as it was. */
  lemma ReplaceByIdSettles(todos: seq<Todo>, updated: Todo)
    ensures ReplaceById(ReplaceById(todos, updated), updated) == ReplaceById(todos, updated)
    ensures (forall i :: 0 <= i < |todos| ==> todos[i].id != updated.id) ==> ReplaceById(todos, updated) == todos
  {
  }

  function HasOtherId(id: string): Todo -> bool {
    (t: Todo) => t.id != id
  }

  /** `prev.filter(t => t.id !== id)`. */
  function RemoveById(todos: seq<Todo>, id: string): (r: seq<Todo>)
    ensures forall i :: 0 <= i < |r| ==> r[i].id != id && r[i] in todos
    ensures forall t :: t in todos && t.id != id ==> t in r
  {
    Filter(todos, HasOtherId(id))
  }

  /** Removal takes out exactly the tasks with that id. */
  lemma {:induction false} RemoveByIdCount(todos: seq<Todo>, id: string)
    ensures |RemoveById(todos, id)| + Count(todos, (t: Todo) => t.id == id) == |todos|
    ensures (forall i :: 0 <= i < |todos| ==> todos[i].id != id) ==> RemoveById(todos, id) == todos
  {
    CountIsFilterLength(todos, HasOtherId(id));
    CountSplits(todos, HasOtherId(id), (t: Todo) => t.id == id);
    if forall i :: 0 <= i < |todos| ==> todos[i].id != id {
      FilterKeepsAll(todos, HasOtherId(id));
    }
  }

  // ---------------------------------------------------------------------------
  // Chat transcript

  datatype UiMessage = UiMessage(id: string, role: string, content: string)

  const Welcome := UiMessage("welcome", "assistant", "你好！我是你的 AI 助手，可以帮你拆解任务和做周期回顾。")
  const UpdatedText: string := "✓ 任务列表已根据 AI 建议更新。"
  const KeyHint: string := "请先在「设置」中配置 API Key，再使用 AI 功能。"
  const FallbackFailureText: string := "请检查网络和设置。"
  const WarningPrefix: string := "⚠️ "

  /** The command a handler invokes, as the back end receives it. */
  datatype Command =
    | CreateTodo(request: CreateTodoRequest)
    | BatchCreateTodos(requests: seq<CreateTodoRequest>)
    | UpdateTodo(id: string, updates: UpdateTodoRequest)
    | DeleteTodo(id: string)
    | AiChat(chat: AiService.AiChatRequest)

  /** What `invoke("ai_chat")` settles with: the response, or the serialized error. */
  function ChatCommandReply(result: Result<AiService.AiChatResponse, AppError>): (r: Result<AiService.AiChatResponse, Json>)
    ensures result.Ok? <==> r.Ok?
    ensures result.Err? ==> r.error.Object? && "message" in r.error.fields && r.error.fields["message"] == Str(Message(result.error))
  {
    match result
    case Ok(response) => Ok(response)
    case Err(e) => Err(ToJson(e))
  }

  /** The history sent with a chat: every transcript message with its role and text. */
  function History(messages: seq<UiMessage>): (h: seq<AiService.ChatMessage>)
    ensures |h| == |messages|
    ensures forall i :: 0 <= i < |h| ==>
              h[i].role == messages[i].role && h[i].content == Some(messages[i].content)
              && h[i].functionCall.None? && h[i].toolCalls.None?
  {
    seq(|messages|, i requires 0 <= i < |messages| =>
      AiService.ChatMessage(messages[i].role, Some(messages[i].content), None, None, None, None))
  }

  /** The error text the handler reads from a rejection: a string is taken as is,
      otherwise its `message` (absent or null read as empty). `None` stands for a
      `message` that is not a string, which `includes` then either accepts through
      the array case or throws on. */
  function ErrorText(e: Json): (r: Option<string>)
    ensures r.None? <==> e.Object? && "message" in e.fields && !e.fields["message"].Null? && !e.fields["message"].Str?
    ensures e.Str? ==> r == Some(e.s)
  {
    match e
    case Str(s) => Some(s)
    case Object(fields) =>
      if "message" !in fields then Some("")
      else
        (match fields["message"]
         case Null => Some("")
         case Str(s) => Some(s)
         case _ => None)
    case _ => Some("")
  }

  predicate MentionsKey(msg: string) {
    Contains(msg, "MISSING_API_KEY") || Contains(ToLower(msg), "api key")
  }

  /** The text shown for a failed chat. */
  function Hint(msg: string): (h: string)
    ensures MentionsKey(msg) ==> h == KeyHint
    ensures !MentionsKey(msg) && msg != "" ==> h == "AI 调用失败：" + msg
    ensures !MentionsKey(msg) && msg == "" ==> h == "AI 调用失败：" + FallbackFailureText
  {
    if MentionsKey(msg) then KeyHint
    else "AI 调用失败：" + (if msg == "" then FallbackFailureText else msg)
  }

  /** The message appended for a rejection, if the error handling itself does not
      throw: a non-string `message` only gets as far as `includes`, which an array
      holding the missing-key code satisfies. */
  function ErrorMessages(e: Json, stamp: nat): (r: seq<UiMessage>)
    ensures |r| <= 1
    ensures ErrorText(e).Some? ==> r == [UiMessage("assistant-error-" + Decimal(stamp), "assistant", Hint(ErrorText(e).value))]
  {
    match ErrorText(e)
    case Some(msg) => [UiMessage("assistant-error-" + Decimal(stamp), "assistant", Hint(msg))]
    case None =>
      if e.Object? && "message" in e.fields && e.fields["message"].Array?
         && Str("MISSING_API_KEY") in e.fields["message"].items then [UiMessage("assistant-error-" + Decimal(stamp), "assistant", KeyHint)]
      else []
  }

  /** The messages a successful chat appends after the user's: the reply, the
      warnings if there are any, and the update notice when a list came back. */
  function ReplyMessages(response: AiService.AiChatResponse, clock: nat -> nat): (r: seq<UiMessage>)
    ensures 1 <= |r| <= 3
    ensures r[0] == UiMessage("assistant-" + Decimal(clock(1)), "assistant", response.message)
    ensures var warned := response.warnings.Some? && response.warnings.value != [];
            && (warned ==> |r| >= 2 && r[1] == UiMessage("warning-" + Decimal(clock(2)), "system",
                                             WarningPrefix + Join(response.warnings.value, "\n")))
            && (response.updatedTodos.Some? <==> |r| == (if warned then 3 else 2))
            && (response.updatedTodos.Some? ==> r[|r| - 1] == UiMessage("system-" + Decimal(clock(3)), "system", UpdatedText))
  {
    [UiMessage("assistant-" + Decimal(clock(1)), "assistant", response.message)]
    + (if response.warnings.Some? && response.warnings.value != []
       then [UiMessage("warning-" + Decimal(clock(2)), "system", WarningPrefix + Join(response.warnings.value, "\n"))]
       else [])
    + (if response.updatedTodos.Some? then [UiMessage("system-" + Decimal(clock(3)), "system", UpdatedText)] else [])
  }

  /** When the back end has no API key, the chat fails before any request and the
      user is told to configure one. */
  lemma MissingKeyShowsHint<S>(env: AiService.Env<S>, request: AiService.AiChatRequest, s0: S, stamp: nat)
    requires env.settings.apiKey.None?
    ensures var reply := ChatCommandReply(AiService.RunChat(env, request, s0).result);
            reply.Err? && ErrorMessages(reply.error, stamp) == [UiMessage("assistant-error-" + Decimal(stamp), "assistant", KeyHint)]
  {
    AiService.MissingKeyFailsFirst(env, request, s0);
    MissingApiKeyMentionsApiKey();
    var e := ToJson(MissingApiKey);
    assert ErrorText(e) == Some("Missing API key");
    assert MentionsKey("Missing API key");
  }

  const Medium: Priority := TodoModel.Medium

  class DesktopApp {
    var todos: seq<Todo>
    var messages: seq<UiMessage>
    var chatInput: string
    var isTyping: bool
    var newTodoInput: string
    var calls: seq<Command>

    constructor ()
      ensures todos == [] && messages == [Welcome] && chatInput == "" && !isTyping
      ensures newTodoInput == "" && calls == []
    {
      todos := [];
      messages := [Welcome];
      chatInput := "";
      isTyping := false;
      newTodoInput := "";
      calls := [];
    }

    /** `handleAddTodo`: blank input does nothing; otherwise the trimmed text is
        created with medium priority, and a created task goes in front. */
    method AddTodo(created: Result<Todo, Json>)
      modifies this
      ensures JsTrim(old(newTodoInput)) == [] ==>
                calls == old(calls) && todos == old(todos) && newTodoInput == old(newTodoInput)
      ensures JsTrim(old(newTodoInput)) != [] ==>
                && calls == old(calls) + [CreateTodo(CreateTodoRequest(JsTrim(old(newTodoInput)), Some(Medium), None, None))]
                && (created.Ok? ==> todos == [created.value] + old(todos) && newTodoInput == "")
                && (created.Err? ==> todos == old(todos) && newTodoInput == old(newTodoInput))
      ensures messages == old(messages) && chatInput == old(chatInput) && isTyping == old(isTyping)
    {
      var text := JsTrim(newTodoInput);
      if text == [] {
        return;
      }
      CreateTrimmed(text, created);
    }

    /** `handleAddTodo` past its blank-input guard, with the trimmed text. */
    method CreateTrimmed(text: string, created: Result<Todo, Json>)
      modifies this
      ensures calls == old(calls) + [CreateTodo(CreateTodoRequest(text, Some(Medium), None, None))]
      ensures created.Ok? ==> todos == [created.value] + old(todos) && newTodoInput == ""
      ensures created.Err? ==> todos == old(todos) && newTodoInput == old(newTodoInput)
      ensures messages == old(messages) && chatInput == old(chatInput) && isTyping == old(isTyping)
    {
      calls := calls + [CreateTodo(CreateTodoRequest(text, Some(Medium), None, None))];
      if created.Ok? {
        todos := [created.value] + todos;
        newTodoInput := "";
      }
    }

    /** `handleBatchAddTodos`: nothing is sent for an empty batch; otherwise each
        text becomes a medium-priority request without tags, and the created tasks
        go in front, in order. */
    method BatchAddTodos(actions: seq<string>, created: Result<seq<Todo>, Json>)
      modifies this
      ensures actions == [] ==> calls == old(calls) && todos == old(todos)
      ensures actions != [] ==>
                && calls == old(calls) + [BatchCreateTodos(BatchRequests(actions))]
                && todos == (if created.Ok? then created.value + old(todos) else old(todos))
      ensures messages == old(messages) && chatInput == old(chatInput) && isTyping == old(isTyping)
      ensures newTodoInput == old(newTodoInput)
    {
      if |actions| == 0 {
        return;
      }
      calls := calls + [BatchCreateTodos(BatchRequests(actions))];
      if created.Ok? {
        todos := created.value + todos;
      }
    }

    /** `toggleComplete`: asks for the opposite flag with the matching status, and
        puts the updated record in place of the one with its id. */
    method ToggleComplete(todo: Todo, updated: Result<Todo, Json>)
      modifies this
      ensures calls == old(calls) + [UpdateTodo(todo.id, ToggleRequest(todo))]
      ensures todos == (if updated.Ok? then ReplaceById(old(todos), updated.value) else old(todos))
      ensures messages == old(messages) && chatInput == old(chatInput) && isTyping == old(isTyping)
      ensures newTodoInput == old(newTodoInput)
    {
      calls := calls + [UpdateTodo(todo.id, ToggleRequest(todo))];
      if updated.Ok? {
        todos := ReplaceById(todos, updated.value);
      }
    }

    /** `updateStatus`: archives or restores one task. */
    method UpdateStatus(todo: Todo, newStatus: TodoStatus, updated: Result<Todo, Json>)
      requires newStatus == Cancelled || newStatus == Pending
      modifies this
      ensures calls == old(calls) + [UpdateTodo(todo.id, NoUpdate.(status := Some(newStatus)))]
      ensures todos == (if updated.Ok? then ReplaceById(old(todos), updated.value) else old(todos))
      ensures messages == old(messages) && chatInput == old(chatInput) && isTyping == old(isTyping)
      ensures newTodoInput == old(newTodoInput)
    {
      calls := calls + [UpdateTodo(todo.id, NoUpdate.(status := Some(newStatus)))];
      if updated.Ok? {
        todos := ReplaceById(todos, updated.value);
      }
    }

    /** `deleteTodo`: once the back end confirms, every task with that id leaves
        the list. */
    method DeleteTodo(todo: Todo, deleted: Result<(), Json>)
      modifies this
      ensures calls == old(calls) + [Command.DeleteTodo(todo.id)]
      ensures todos == (if deleted.Ok? then RemoveById(old(todos), todo.id) else old(todos))
      ensures messages == old(messages) && chatInput == old(chatInput) && isTyping == old(isTyping)
      ensures newTodoInput == old(newTodoInput)
    {
      calls := calls + [Command.DeleteTodo(todo.id)];
      if deleted.Ok? {
        todos := RemoveById(todos, todo.id);
      }
    }

    /** `handleSendChat`: blank input does nothing. Otherwise the trimmed text is
        shown and sent with the transcript before it as history, and the reply's
        messages (or the error hint) follow; a returned list replaces the tasks. */
    method SendChat(reply: Result<AiService.AiChatResponse, Json>, clock: nat -> nat)
      modifies this
      ensures JsTrim(old(chatInput)) == [] ==>
                messages == old(messages) && calls == old(calls) && chatInput == old(chatInput)
                && isTyping == old(isTyping) && todos == old(todos)
      ensures JsTrim(old(chatInput)) != [] ==>
                var text := JsTrim(old(chatInput));
                && calls == old(calls) + [AiChat(AiService.AiChatRequest(text, Some(History(old(messages)))))]
                && chatInput == "" && !isTyping
                && messages == old(messages) + [UiMessage("user-" + Decimal(clock(0)), "user", text)]
                               + SendOutcome(reply, clock)
                && todos == (if reply.Ok? && reply.value.updatedTodos.Some? then reply.value.updatedTodos.value
                             else old(todos))
      ensures newTodoInput == old(newTodoInput)
    {
      var text := JsTrim(chatInput);
      if text == [] {
        return;
      }
      SendTrimmed(text, reply, clock);
    }

    /** `handleSendChat` past its blank-input guard, with the trimmed text. */
    method SendTrimmed(text: string, reply: Result<AiService.AiChatResponse, Json>, clock: nat -> nat)
      modifies this
      ensures calls == old(calls) + [AiChat(AiService.AiChatRequest(text, Some(History(old(messages)))))]
      ensures chatInput == "" && !isTyping
      ensures messages == old(messages) + [UiMessage("user-" + Decimal(clock(0)), "user", text)]
                          + SendOutcome(reply, clock)
      ensures todos == (if reply.Ok? && reply.value.updatedTodos.Some? then reply.value.updatedTodos.value
                        else old(todos))
      ensures newTodoInput == old(newTodoInput)
    {
      var before := messages;
      messages := messages + [UiMessage("user-" + Decimal(clock(0)), "user", text)];
      ghost var shown := messages;
      chatInput := "";
      isTyping := true;
      calls := calls + [AiChat(AiService.AiChatRequest(text, Some(History(before))))];
      isTyping := false;
      ShowReply(reply, clock);
      assert messages == shown + SendOutcome(reply, clock);
    }

    /** The second half of `handleSendChat`: what the settled command adds. */
    method ShowReply(reply: Result<AiService.AiChatResponse, Json>, clock: nat -> nat)
      modifies this
      ensures messages == old(messages) + SendOutcome(reply, clock)
      ensures todos == (if reply.Ok? && reply.value.updatedTodos.Some? then reply.value.updatedTodos.value
                        else old(todos))
      ensures calls == old(calls) && chatInput == old(chatInput) && isTyping == old(isTyping)
      ensures newTodoInput == old(newTodoInput)
    {
      match reply {
        case Ok(response) =>
          var shown := messages;
          messages := messages + [UiMessage("assistant-" + Decimal(clock(1)), "assistant", response.message)];
          if response.warnings.Some? && |response.warnings.value| > 0 {
            messages := messages + [UiMessage("warning-" + Decimal(clock(2)), "system",
                                              WarningPrefix + Join(response.warnings.value, "\n"))];
          }
          if response.updatedTodos.Some? {
            todos := response.updatedTodos.value;
            messages := messages + [UiMessage("system-" + Decimal(clock(3)), "system", UpdatedText)];
          }
          assert messages == shown + ReplyMessages(response, clock);
        case Err(e) =>
          messages := messages + ErrorMessages(e, clock(1));
      }
    }
  }

  function BatchRequests(actions: seq<string>): (reqs: seq<CreateTodoRequest>)
    ensures |reqs| == |actions|
    ensures forall i :: 0 <= i < |reqs| ==> reqs[i] == CreateTodoRequest(actions[i], Some(Medium), None, Some([]))
  {
    seq(|actions|, i requires 0 <= i < |actions| => CreateTodoRequest(actions[i], Some(Medium), None, Some([])))
  }

  /** The update `toggleComplete` sends. */
  function ToggleRequest(todo: Todo): (req: UpdateTodoRequest)
    ensures req.completed == Some(!todo.completed)
    ensures req.status == Some(if todo.completed then Pending else Completed)
    ensures req.text.None? && req.priority.None? && req.dueDate.None? && req.tags.None?
  {
    NoUpdate.(completed := Some(!todo.completed), status := Some(if !todo.completed then Completed else Pending))
  }

  /** The messages a sent chat adds after the user's. */
  function SendOutcome(reply: Result<AiService.AiChatResponse, Json>, clock: nat -> nat): seq<UiMessage> {
    match reply
    case Ok(response) => ReplyMessages(response, clock)
    case Err(e) => ErrorMessages(e, clock(1))
  }

  /** A failed chat adds at most one message, always from the assistant. */
  lemma FailureAddsOneAssistantMessage(e: Json, clock: nat -> nat)
    ensures |SendOutcome(Err(e), clock)| <= 1
    ensures forall m :: m in SendOutcome(Err(e), clock) ==> m.role == "assistant"
  {
  }
}
