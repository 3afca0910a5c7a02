/** The web demo's assistant: a local simulator used when no API key is set, the
    reading of a Gemini reply (fence stripping, JSON parse, the `new_todos`
    convention, failures turned into an error reply), the order the task list is
    shown in, and the chat handler that appends messages and saves generated tasks.

    The demo's values are JavaScript values: a missing property is `None`, a
    present one a decoded JSON value. The HTTP exchange is a parameter (the decoded
    body, or the message of the error it threw), as are `JSON.parse`, the text of
    a `TypeError`, and `String(v)` for non-string values. The Firestore store is
    the list of documents written. */
module Demo {
  import opened Wrappers
  import opened Text
  import opened JsonValue
  import opened Seqs
  import opened Sorting

  datatype DemoTodo = DemoTodo(id: string, text: Json, completed: bool, status: string, createdAt: Option<int>)

  /** A task the assistant proposes. */
  datatype Action = Action(text: Json, completed: bool, status: string)

  datatype ReplyKind = Generation | Summary | ChatReply | ErrorReply

  /** `callAI`'s result: `text` is `None` where the reply's `response` is missing. */
  datatype AiReply = AiReply(text: Option<Json>, actions: Option<seq<Action>>, kind: ReplyKind)

  datatype DemoSettings = DemoSettings(apiKey: string, model: string)

  /** The two kinds of `TypeError` the reply reading can raise. */
  datatype JsFault = NullProperty(property: string) | NotAFunction(name: string)

  // ---------------------------------------------------------------------------
  // The simulator

  const GenerationText: string := "（模拟模式）没问题，我已经为你把这个大目标拆解成了几个可执行的小任务（配置 API Key 可体验真实智能生成）："
  const ChatText: string := "我是你的效率助手。你可以在“设置”中配置 API Key 来激活我的完全体。目前我可以模拟生成计划或总结。"

  function SimulatedActions(): seq<Action> {
    [ Action(Str("调研相关竞品分析"), false, "active"),
      Action(Str("草拟项目需求文档 (PRD)"), false, "active"),
      Action(Str("设计初步 UI 原型"), false, "active") ]
  }

  predicate AsksForPlan(lowerInput: string) {
    Contains(lowerInput, "生成") || Contains(lowerInput, "计划") || Contains(lowerInput, "帮我")
  }

  predicate AsksForSummary(lowerInput: string) {
    Contains(lowerInput, "总结") || Contains(lowerInput, "回顾")
  }

  function CompletedCount(todos: seq<DemoTodo>): nat {
    |Filter(todos, (t: DemoTodo) => t.completed)|
  }

  function PendingCount(todos: seq<DemoTodo>): nat {
    |Filter(todos, (t: DemoTodo) => !t.completed && t.status == "active")|
  }

  function SummaryText(completed: nat, pending: nat): string {
    "（模拟模式）本周工作小结：已完成 " + Decimal(completed) + " 项，待办 " + Decimal(pending)
    + " 项。建议优先处理高优先级事项。"
  }

  /** The simulated reply: the first rule whose keywords occur wins. */
  function Simulate(input: string, todos: seq<DemoTodo>): (r: AiReply)
    ensures AsksForPlan(ToLower(input)) ==> r.kind == Generation
    ensures !AsksForPlan(ToLower(input)) && AsksForSummary(ToLower(input)) ==> r.kind == Summary
    ensures !AsksForPlan(ToLower(input)) && !AsksForSummary(ToLower(input)) ==> r == AiReply(Some(Str(ChatText)), None, ChatReply)
    ensures r.kind == Generation ==>
              && r.actions.Some? && |r.actions.value| == 3
              && forall i :: 0 <= i < 3 ==> !r.actions.value[i].completed && r.actions.value[i].status == "active"
    ensures r.kind == Summary ==>
              r == AiReply(Some(Str(SummaryText(CompletedCount(todos), PendingCount(todos)))), None, Summary)
  {
    var lowerInput := ToLower(input);
    if AsksForPlan(lowerInput) then AiReply(Some(Str(GenerationText)), Some(SimulatedActions()), Generation)
    else if AsksForSummary(lowerInput) then
      AiReply(Some(Str(SummaryText(CompletedCount(todos), PendingCount(todos)))), None, Summary)
    else AiReply(Some(Str(ChatText)), None, ChatReply)
  }

  /** Asking for help with a summary ("帮我总结") is a plan request. */
  lemma PlanRuleComesFirst(input: string, todos: seq<DemoTodo>)
    requires Contains(input, "帮我")
    ensures Simulate(input, todos).kind == Generation
  {
    assert ToLower("帮我") == "帮我";
    ContainsFolded(input, "帮我");
  }

  /** Lower-casing keeps every occurrence of a word that has no upper-case letters. */
  lemma ContainsFolded(s: string, q: string)
    requires Contains(s, q) && ToLower(q) == q
    ensures Contains(ToLower(s), q)
  {
    ContainsIffOccurs(s, q);
    var i :| OccursAt(s, q, i);
    assert ToLower(s)[i..i + |q|] == ToLower(s[i..i + |q|]);
    assert OccursAt(ToLower(s), q, i);
    ContainsIffOccurs(ToLower(s), q);
  }

  /** The summary shows both counts. */
  lemma SummaryShowsCounts(completed: nat, pending: nat)
    ensures Contains(SummaryText(completed, pending), Decimal(completed))
    ensures Contains(SummaryText(completed, pending), Decimal(pending))
  {
    var s := SummaryText(completed, pending);
    var rest := " 项，待办 " + Decimal(pending) + " 项。建议优先处理高优先级事项。";
    assert s == "（模拟模式）本周工作小结：已完成 " + Decimal(completed) + rest;
    ContainsInfix("（模拟模式）本周工作小结：已完成 ", Decimal(completed), rest);
    assert s == ("（模拟模式）本周工作小结：已完成 " + Decimal(completed) + " 项，待办 ") + Decimal(pending)
                + " 项。建议优先处理高优先级事项。";
    ContainsInfix("（模拟模式）本周工作小结：已完成 " + Decimal(completed) + " 项，待办 ", Decimal(pending),
                  " 项。建议优先处理高优先级事项。");
  }

  // ---------------------------------------------------------------------------
  // Reading a Gemini reply

  /** JavaScript truthiness; a missing value is falsy. */
  predicate Truthy(v: Option<Json>) {
    match v
    case None => false
    case Some(j) =>
      match j
      case Null => false
      case Bool(b) => b
      case Number(n) => n != 0
      case Str(s) => s != ""
      case Array(_) => true
      case Object(_) => true
  }

  /** `v?.key`. */
  function Prop(v: Option<Json>, key: string): Option<Json> {
    if v.Some? && v.value.Object? && key in v.value.fields then Some(v.value.fields[key]) else None
  }

  /** `v?.[0]`. */
  function First(v: Option<Json>): Option<Json> {
    if v.Some? && v.value.Array? && v.value.items != [] then Some(v.value.items[0]) else None
  }

  /** `data.candidates?.[0]?.content?.parts?.[0]?.text`. */
  function RawText(data: Json): Option<Json> {
    Prop(First(Prop(Prop(First(Prop(Some(data), "candidates")), "content"), "parts")), "text")
  }

  /** `rawText.replace(/```json|```/g, '')`: at each position the longer marker is
      tried first. */
  function StripFences(s: string): (r: string)
    ensures |r| <= |s|
    decreases |s|
  {
    if s == [] then []
    else if StartsWith(s, "```json") then StripFences(s[7..])
    else if StartsWith(s, "```") then StripFences(s[3..])
    else [s[0]] + StripFences(s[1..])
  }

  function CleanJson(raw: string): string {
    JsTrim(StripFences(raw))
  }

  /** Text without backticks passes through, and stays in front of what follows. */
  lemma {:induction false} StripFencesKeeps(a: string, b: string)
    requires '`' !in a
    ensures StripFences(a + b) == a + StripFences(b)
    decreases |a|
  {
    if a != [] {
      NoBacktickRest(a);
      ConcatFirst(a, b);
      StripPlainStep(a + b);
      StripFencesKeeps(a[1..], b);
      PrependFirst(a, StripFences(b));
    } else {
      assert a + b == b;
    }
  }

  lemma NoBacktickRest(a: string)
    requires a != [] && '`' !in a
    ensures a[0] != '`' && '`' !in a[1..]
  {
    assert a[0] in a;
    forall c | c in a[1..] ensures c != '`' { }
  }

  lemma ConcatFirst(a: string, b: string)
    requires a != []
    ensures a + b != [] && (a + b)[0] == a[0] && (a + b)[1..] == a[1..] + b
  {
  }

  /** A first character other than a backtick is kept. */
  lemma StripPlainStep(s: string)
    requires s != [] && s[0] != '`'
    ensures StripFences(s) == [s[0]] + StripFences(s[1..])
  {
    assert !StartsWith(s, "```json") by {
      if 7 <= |s| { assert s[..7][0] == s[0]; }
    }
    assert !StartsWith(s, "```") by {
      if 3 <= |s| { assert s[..3][0] == s[0]; }
    }
  }

  lemma PrependFirst(a: string, t: string)
    requires a != []
    ensures [a[0]] + (a[1..] + t) == a + t
  {
    assert a == [a[0]] + a[1..];
  }

  /** A reply fenced as a `json` code block reads exactly like the bare reply. */
  lemma FencedReadsLikeBare(j: string)
    requires '`' !in j
    ensures CleanJson("```json" + j + "```") == CleanJson(j)
  {
    assert ("```json" + j + "```")[7..] == j + "```";
    StripFencesKeeps(j, "```");
    StripFencesKeeps(j, "");
    assert j + "" == j;
    assert StripFences("```") == StripFences("") == "";
    assert StripFences("```json" + j + "```") == StripFences(j + "```");
  }

  function FailureText(message: string): string {
    "AI 请求失败: " + message + "。请检查设置中的 API Key 和网络。"
  }

  function Failure(message: string): AiReply {
    AiReply(Some(Str(FailureText(message))), None, ErrorReply)
  }

  /** `new Error(v).message`. */
  function ErrorText(v: Option<Json>, jsString: Json -> string): string {
    match v
    case None => ""
    case Some(Str(s)) => s
    case Some(other) => jsString(other)
  }

  /** The reply read from a parsed JSON answer. */
  function Interpret(parsed: Json, typeErrorText: JsFault -> string): (r: AiReply)
    ensures parsed == Null ==> r == Failure(typeErrorText(NullProperty("new_todos")))
    ensures parsed != Null && Prop(Some(parsed), "new_todos").Some?
            && Prop(Some(parsed), "new_todos").value.Array? ==>
              var items := Prop(Some(parsed), "new_todos").value.items;
              && r.kind == Generation && r.text == Prop(Some(parsed), "response")
              && r.actions.Some? && |r.actions.value| == |items|
              && forall i :: 0 <= i < |items| ==> r.actions.value[i] == Action(items[i], false, "active")
    ensures parsed != Null && !(Prop(Some(parsed), "new_todos").Some? && Prop(Some(parsed), "new_todos").value.Array?) ==>
              r == AiReply(Prop(Some(parsed), "response"), None, ChatReply)
  {
    if parsed == Null then Failure(typeErrorText(NullProperty("new_todos")))
    else
      var newTodos := Prop(Some(parsed), "new_todos");
      if Truthy(newTodos) && newTodos.value.Array? then
        var items := newTodos.value.items;
        AiReply(Prop(Some(parsed), "response"),
                Some(seq(|items|, i requires 0 <= i < |items| => Action(items[i], false, "active"))),
                Generation)
      else AiReply(Prop(Some(parsed), "response"), None, ChatReply)
  }

  /** A decoded body that is not `null` and carries no truthy `error`. */
  predicate Readable(data: Json) {
    data != Null && !Truthy(Prop(Some(data), "error"))
  }

  /** The Gemini path: `fetched` is the decoded body, or the message of the error
      the request or the body decoding threw. */
  function Remote(fetched: Result<Json, string>, parseJson: string -> Option<Json>,
                  typeErrorText: JsFault -> string, jsString: Json -> string): (r: AiReply)
    ensures fetched.Err? ==> r == Failure(fetched.error)
    ensures fetched.Ok? && fetched.value == Null ==> r == Failure(typeErrorText(NullProperty("error")))
    ensures fetched.Ok? && fetched.value != Null && Truthy(Prop(Some(fetched.value), "error")) ==>
              r == Failure(ErrorText(Prop(Prop(Some(fetched.value), "error"), "message"), jsString))
    ensures fetched.Ok? && Readable(fetched.value) && !Truthy(RawText(fetched.value)) ==>
              r == Failure("API 返回为空")
    ensures fetched.Ok? && Readable(fetched.value) && Truthy(RawText(fetched.value))
            && !RawText(fetched.value).value.Str? ==>
              r == Failure(typeErrorText(NotAFunction("rawText.replace")))
    ensures fetched.Ok? && Readable(fetched.value) && Truthy(RawText(fetched.value))
            && RawText(fetched.value).value.Str? ==>
              var raw := RawText(fetched.value).value.s;
              && (parseJson(CleanJson(raw)).None? ==> r == AiReply(Some(Str(raw)), None, ChatReply))
              && (parseJson(CleanJson(raw)).Some? ==> r == Interpret(parseJson(CleanJson(raw)).value, typeErrorText))
  {
    match fetched
    case Err(message) => Failure(message)
    case Ok(data) =>
      if data == Null then Failure(typeErrorText(NullProperty("error")))
      else if Truthy(Prop(Some(data), "error")) then
        Failure(ErrorText(Prop(Prop(Some(data), "error"), "message"), jsString))
      else
        var rawText := RawText(data);
        if !Truthy(rawText) then Failure("API 返回为空")
        else if !rawText.value.Str? then Failure(typeErrorText(NotAFunction("rawText.replace")))
        else
          var raw := rawText.value.s;
          match parseJson(CleanJson(raw))
          case None => AiReply(Some(Str(raw)), None, ChatReply)
          case Some(parsed) => Interpret(parsed, typeErrorText)
  }

  /** `callAI`: without a key the simulator answers and nothing is fetched. */
  function CallAI(input: string, todos: seq<DemoTodo>, settings: DemoSettings, fetched: Result<Json, string>,
                  parseJson: string -> Option<Json>, typeErrorText: JsFault -> string,
                  jsString: Json -> string): (r: AiReply)
    ensures settings.apiKey == "" ==> r == Simulate(input, todos)
    ensures settings.apiKey != "" ==> r == Remote(fetched, parseJson, typeErrorText, jsString)
  {
    if settings.apiKey == "" then Simulate(input, todos) else Remote(fetched, parseJson, typeErrorText, jsString)
  }

  /** A reply whose JSON carries a `new_todos` array is a generation with one open
      action per entry, even when the array is empty. */
  lemma NewTodosGenerate(raw: string, fetched: Result<Json, string>, parseJson: string -> Option<Json>,
                         typeErrorText: JsFault -> string, jsString: Json -> string, items: seq<Json>)
    requires fetched.Ok? && Readable(fetched.value)
    requires RawText(fetched.value) == Some(Str(raw)) && raw != ""
    requires parseJson(CleanJson(raw)).Some? && parseJson(CleanJson(raw)).value.Object?
    requires Prop(parseJson(CleanJson(raw)), "new_todos") == Some(Array(items))
    ensures var r := Remote(fetched, parseJson, typeErrorText, jsString);
            && r.kind == Generation && |r.actions.value| == |items|
            && forall i :: 0 <= i < |items| ==> r.actions.value[i] == Action(items[i], false, "active")
  {
  }

  // ---------------------------------------------------------------------------
  // The list order

  function CreatedOr0(t: DemoTodo): int {
    t.createdAt.GetOr(0)
  }

  /** The snapshot comparator. */
  function Compare(a: DemoTodo, b: DemoTodo): int {
    if a.completed == b.completed then CreatedOr0(b) - CreatedOr0(a)
    else if a.completed then 1 else -1
  }

  function DemoKey(t: DemoTodo): Rank {
    Rank(if t.completed then 1 else 0, -CreatedOr0(t))
  }

  /** The comparator is the rank order "incomplete first, then newest first". */
  lemma CompareIsRankOrder(a: DemoTodo, b: DemoTodo)
    ensures Compare(a, b) <= 0 <==> RankLe(DemoKey(a), DemoKey(b))
    ensures Compare(a, b) < 0 <==> !RankLe(DemoKey(b), DemoKey(a))
    ensures Compare(a, b) == -Compare(b, a)
  {
  }

  /** The list as the snapshot listener stores it. */
  function Ordered(docs: seq<DemoTodo>): (r: seq<DemoTodo>)
    ensures multiset(r) == multiset(docs)
  {
    SortByKey(docs, DemoKey)
  }

  /** Every pair in the stored list is in comparator order: incomplete tasks first,
      and within each group the newest first (a missing creation time counts as 0). */
  lemma OrderedFollowsComparator(docs: seq<DemoTodo>)
    ensures var r := Ordered(docs);
            forall i, j :: 0 <= i < j < |r| ==>
              && Compare(r[i], r[j]) <= 0
              && (!r[i].completed || r[j].completed)
              && (r[i].completed == r[j].completed ==> CreatedOr0(r[i]) >= CreatedOr0(r[j]))
  {
    SortByKeySorted(docs, DemoKey);
    var r := Ordered(docs);
    forall i, j | 0 <= i < j < |r|
      ensures Compare(r[i], r[j]) <= 0
    {
      CompareIsRankOrder(r[i], r[j]);
    }
  }

  // ---------------------------------------------------------------------------
  // The chat handler and the batch write

  datatype DemoMessage = DemoMessage(role: string, content: Option<Json>)

  /** A Firestore document written for a task. */
  datatype StoredDoc = StoredDoc(id: string, text: Json, completed: bool, status: string, createdAt: int, date: string)

  const SorryText: string := "抱歉，出现了一些错误。"

  function AddedText(count: nat): string {
    "✓ 已自动添加 " + Decimal(count) + " 个任务到列表"
  }

  /** The documents a batch writes: each action with its own id and clock reading. */
  function BatchDocs(actions: seq<Action>, newId: nat -> string, clock: nat -> int, dateText: nat -> string)
    : (docs: seq<StoredDoc>)
    ensures |docs| == |actions|
    ensures forall i :: 0 <= i < |docs| ==>
              docs[i].text == actions[i].text && docs[i].completed == actions[i].completed
              && docs[i].status == actions[i].status
    ensures forall i :: 0 <= i < |docs| ==>
              docs[i].id == newId(i) && docs[i].createdAt == clock(i) && docs[i].date == dateText(i)
  {
    seq(|actions|, i requires 0 <= i < |actions| =>
      StoredDoc(newId(i), actions[i].text, actions[i].completed, actions[i].status, clock(i), dateText(i)))
  }

  class DemoChat {
    var messages: seq<DemoMessage>
    var chatInput: string
    var isTyping: bool
    var todos: seq<DemoTodo>
    var settings: DemoSettings
    var signedIn: bool
    var store: seq<StoredDoc>

    constructor (settings: DemoSettings, signedIn: bool)
      ensures messages == [DemoMessage("ai", Some(Str("你好！我是你的 AI 助手。")))]
      ensures chatInput == "" && !isTyping && todos == [] && store == []
      ensures this.settings == settings && this.signedIn == signedIn
    {
      messages := [DemoMessage("ai", Some(Str("你好！我是你的 AI 助手。")))];
      chatInput := "";
      isTyping := false;
      todos := [];
      this.settings := settings;
      this.signedIn := signedIn;
      store := [];
    }

    /** `handleBatchAddTodos`: signed out, nothing is written; `ok` is whether the
        store accepted the batch. */
    method BatchAdd(actions: seq<Action>, newId: nat -> string, clock: nat -> int, dateText: nat -> string, ok: bool)
      returns (failed: bool)
      modifies this
      ensures failed <==> signedIn && !ok
      ensures store == old(store) + (if signedIn && ok then BatchDocs(actions, newId, clock, dateText) else [])
      ensures messages == old(messages) && chatInput == old(chatInput) && isTyping == old(isTyping)
      ensures todos == old(todos) && settings == old(settings) && signedIn == old(signedIn)
    {
      if !signedIn {
        return false;
      }
      if !ok {
        return true;
      }
      store := store + BatchDocs(actions, newId, clock, dateText);
      failed := false;
    }

    /** `handleSendChat`: the user's message, the reply, and for a generation the
        saved tasks with a confirmation (or an apology when saving fails). */
    method SendChat(fetched: Result<Json, string>, parseJson: string -> Option<Json>,
                    typeErrorText: JsFault -> string, jsString: Json -> string,
                    newId: nat -> string, clock: nat -> int, dateText: nat -> string, ok: bool)
      modifies this
      ensures JsTrim(old(chatInput)) == [] ==>
                messages == old(messages) && chatInput == old(chatInput) && isTyping == old(isTyping)
                && store == old(store)
      ensures JsTrim(old(chatInput)) != [] ==>
                var reply := CallAI(old(chatInput), old(todos), old(settings), fetched, parseJson, typeErrorText, jsString);
                && chatInput == "" && !isTyping
                && messages == old(messages) + ChatAppended(old(chatInput), reply, signedIn, ok)
                && store == old(store) + StoreAppended(reply, signedIn, ok, newId, clock, dateText)
      ensures todos == old(todos) && settings == old(settings) && signedIn == old(signedIn)
    {
      if JsTrim(chatInput) == [] {
        return;
      }
      Submit(fetched, parseJson, typeErrorText, jsString, newId, clock, dateText, ok);
    }

    /** `handleSendChat` past its empty-input guard. */
    method Submit(fetched: Result<Json, string>, parseJson: string -> Option<Json>,
                  typeErrorText: JsFault -> string, jsString: Json -> string,
                  newId: nat -> string, clock: nat -> int, dateText: nat -> string, ok: bool)
      modifies this
      ensures var reply := CallAI(old(chatInput), old(todos), old(settings), fetched, parseJson, typeErrorText, jsString);
              && chatInput == "" && !isTyping
              && messages == old(messages) + ChatAppended(old(chatInput), reply, signedIn, ok)
              && store == old(store) + StoreAppended(reply, signedIn, ok, newId, clock, dateText)
      ensures todos == old(todos) && settings == old(settings) && signedIn == old(signedIn)
    {
      var content, todos0, settings0 := chatInput, todos, settings;
      ghost var messages0 := messages;
      messages := messages + [DemoMessage("user", Some(Str(content)))];
      chatInput := "";
      isTyping := true;
      var response := CallAI(content, todos0, settings0, fetched, parseJson, typeErrorText, jsString);
      Deliver(response, newId, clock, dateText, ok);
      UserThenReply(messages0, content, response, signedIn, ok);
    }

    /** The second half of `handleSendChat`: the reply is shown and a generation
        is saved. */
    method Deliver(response: AiReply, newId: nat -> string, clock: nat -> int, dateText: nat -> string, ok: bool)
      modifies this
      ensures !isTyping
      ensures messages == old(messages) + ReplyAppended(response, signedIn, ok)
      ensures store == old(store) + StoreAppended(response, signedIn, ok, newId, clock, dateText)
      ensures chatInput == old(chatInput) && todos == old(todos) && settings == old(settings)
      ensures signedIn == old(signedIn)
    {
      isTyping := false;
      messages := messages + [DemoMessage("ai", response.text)];
      if Generated(response) {
        var failed := BatchAdd(response.actions.value, newId, clock, dateText, ok);
        if failed {
          messages := messages + [DemoMessage("ai", Some(Str(SorryText)))];
        } else {
          messages := messages + [DemoMessage("system", Some(Str(AddedText(|response.actions.value|))))];
        }
      }
    }
  }

  predicate Generated(reply: AiReply) {
    reply.kind == Generation && reply.actions.Some?
  }

  lemma UserThenReply(m0: seq<DemoMessage>, input: string, reply: AiReply, signedIn: bool, ok: bool)
    ensures m0 + [DemoMessage("user", Some(Str(input)))] + ReplyAppended(reply, signedIn, ok)
            == m0 + ChatAppended(input, reply, signedIn, ok)
  {
  }

  /** The messages one sent chat adds: the user's text, then the reply's. */
  function ChatAppended(input: string, reply: AiReply, signedIn: bool, ok: bool): seq<DemoMessage> {
    [DemoMessage("user", Some(Str(input)))] + ReplyAppended(reply, signedIn, ok)
  }

  /** The reply, and after a generation the confirmation or, when a signed-in
      write fails, the apology. */
  function ReplyAppended(reply: AiReply, signedIn: bool, ok: bool): seq<DemoMessage> {
    [DemoMessage("ai", reply.text)]
    + (if !Generated(reply) then []
       else if signedIn && !ok then [DemoMessage("ai", Some(Str(SorryText)))]
       else [DemoMessage("system", Some(Str(AddedText(|reply.actions.value|))))])
  }

  /** The documents one sent chat writes. */
  function StoreAppended(reply: AiReply, signedIn: bool, ok: bool, newId: nat -> string, clock: nat -> int,
                         dateText: nat -> string): seq<StoredDoc> {
    if Generated(reply) && signedIn && ok then BatchDocs(reply.actions.value, newId, clock, dateText) else []
  }

  /** A signed-in chat that generates tasks writes one open document per proposed
      task, and the confirmation counts them; without a key, asking for a plan
      writes the three simulated tasks. */
  lemma PlanRequestWritesThree(input: string, todos: seq<DemoTodo>, settings: DemoSettings,
                               fetched: Result<Json, string>, parseJson: string -> Option<Json>,
                               typeErrorText: JsFault -> string, jsString: Json -> string,
                               newId: nat -> string, clock: nat -> int, dateText: nat -> string)
    requires settings.apiKey == "" && Contains(input, "帮我")
    ensures var reply := CallAI(input, todos, settings, fetched, parseJson, typeErrorText, jsString);
            var docs := StoreAppended(reply, true, true, newId, clock, dateText);
            && |docs| == 3
            && (forall i :: 0 <= i < 3 ==> !docs[i].completed && docs[i].status == "active")
            && ChatAppended(input, reply, true, true)[2] == DemoMessage("system", Some(Str(AddedText(3))))
  {
    PlanRuleComesFirst(input, todos);
  }
}
