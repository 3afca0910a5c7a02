/** The functions the assistant offers the language model, and the executor that
    runs a model-issued call against the task repository. Arguments arrive as JSON
    text; its parsing is not modelled, so a call's arguments are the decoded value,
    or None when the text is not valid JSON. Fresh ids and clock readings for the
    tasks a call creates or updates come from the caller, indexed by the position
    of the write within the call. */
module FunctionCall {
  import opened Wrappers
  import opened Text
  import opened JsonValue
  import opened TodoModel
  import opened AppErrors
  import opened Seqs
  import opened TodoRepo
  import Sorting
  import SqlLike

  datatype FunctionDefinition = FunctionDefinition(name: string, description: string, parameters: Json)

  /** What `get_ai_functions` hands the front end. */
  datatype FunctionInfo = FunctionInfo(name: string, description: string)

  function StrProp(description: string): Json {
    Object(map["type" := Str("string"), "description" := Str(description)])
  }

  function ObjectSchema(properties: map<string, Json>): Json {
    Object(map["type" := Str("object"), "properties" := Object(properties)])
  }

  function AddTodosParameters(): Json {
    var item := Object(map[
      "type" := Str("object"),
      "properties" := Object(map[
        "text" := StrProp("任务内容，应该具体、可执行"),
        "priority" := Object(map[
          "type" := Str("string"),
          "enum" := Array([Str("low"), Str("medium"), Str("high")]),
          "description" := Str("优先级")])]),
      "required" := Array([Str("text")])]);
    Object(map[
      "type" := Str("object"),
      "properties" := Object(map[
        "todos" := Object(map[
          "type" := Str("array"),
          "description" := Str("要添加的任务列表"),
          "items" := item])]),
      "required" := Array([Str("todos")])])
  }

  /** The names of the offered functions, in the order they are offered. */
  const FunctionNames: seq<string> := ["add_todos", "complete_todo", "delete_todo", "query_todos", "get_statistics"]

  /** `get_function_definitions`, in the order they are offered. */
  function FunctionDefinitions(): (defs: seq<FunctionDefinition>)
    ensures |defs| == |FunctionNames|
  {
    seq(5, i requires 0 <= i < 5 => DefinitionAt(i))
  }

  function DefinitionAt(i: nat): (d: FunctionDefinition)
    requires i < 5
    ensures d.name == FunctionNames[i]
  {
    FunctionDefinition(FunctionNames[i], DescriptionAt(i), ParametersAt(i))
  }

  function DescriptionAt(i: nat): string
    requires i < 5
  {
    if i == 0 then "批量添加一个或多个待办任务。当用户说'帮我创建'、'添加任务'、'生成计划'时使用此函数。"
    else if i == 1 then "将指定任务标记为已完成。当用户说'完成了'、'做完了'、'标记完成'时使用。"
    else if i == 2 then "删除指定任务。当用户说'删除'、'移除'、'不要了'时使用。"
    else if i == 3 then "查询待办任务列表。当用户询问'有什么任务'、'任务列表'、'待办事项'时使用。"
    else "获取任务统计信息。当用户询问'统计'、'完成了多少'、'进度如何'时使用。"
  }

  function ParametersAt(i: nat): Json
    requires i < 5
  {
    if i == 0 then AddTodosParameters()
    else if i == 1 then
      ObjectSchema(map["id" := StrProp("任务ID（如果已知）"),
                       "search" := StrProp("通过关键词搜索任务（如果不知道ID）")])
    else if i == 2 then
      ObjectSchema(map["id" := StrProp("任务ID（如果已知）"),
                       "search" := StrProp("通过关键词搜索任务（如果不知道ID）"),
                       "delete_all_completed" := Object(map["type" := Str("boolean"),
                                                            "description" := Str("是否删除所有已完成的任务")])])
    else if i == 3 then
      ObjectSchema(map["status" := Object(map["type" := Str("string"),
                                              "enum" := Array([Str("pending"), Str("in_progress"),
                                                               Str("completed"), Str("cancelled")]),
                                              "description" := Str("按状态过滤")]),
                       "completed" := Object(map["type" := Str("boolean"), "description" := Str("是否已完成")]),
                       "search" := StrProp("关键词搜索")])
    else ObjectSchema(map[])
  }

  /** `get_function_infos`: name and description of each definition, in order. */
  function FunctionInfos(): (infos: seq<FunctionInfo>)
    ensures |infos| == |FunctionDefinitions()|
    ensures forall i :: 0 <= i < |infos| ==>
              infos[i].name == FunctionDefinitions()[i].name
              && infos[i].description == FunctionDefinitions()[i].description
  {
    var defs := FunctionDefinitions();
    seq(|defs|, i requires 0 <= i < |defs| => FunctionInfo(defs[i].name, defs[i].description))
  }

  /** The five offered functions, in the order they are offered. */
  lemma DefinitionNames()
    ensures var defs := FunctionDefinitions();
            [defs[0].name, defs[1].name, defs[2].name, defs[3].name, defs[4].name]
            == ["add_todos", "complete_todo", "delete_todo", "query_todos", "get_statistics"]
  {
    var defs := FunctionDefinitions();
    assert forall i :: 0 <= i < 5 ==> defs[i].name == FunctionNames[i];
  }

  /** The executor's branches. */
  datatype Kind = AddTodosKind | CompleteTodoKind | DeleteTodoKind | QueryTodosKind | GetStatisticsKind

  /** The `match name` of `execute`. */
  function KindOf(name: string): (k: Option<Kind>)
    ensures k.Some? <==> name in FunctionNames
  {
    if name == "add_todos" then Some(AddTodosKind)
    else if name == "complete_todo" then Some(CompleteTodoKind)
    else if name == "delete_todo" then Some(DeleteTodoKind)
    else if name == "query_todos" then Some(QueryTodosKind)
    else if name == "get_statistics" then Some(GetStatisticsKind)
    else None
  }

  /** Arguments that are not valid JSON are read as `{}`. */
  function Arguments(parsed: Option<Json>): Json {
    parsed.GetOr(EmptyObject())
  }

  // ---------------------------------------------------------------------------
  // JSON forms of results

  /** serde's lowercase name of a priority. */
  function PriorityName(p: Priority): string {
    match p
    case Low => "low"
    case Medium => "medium"
    case High => "high"
  }

  /** The executor's reading of a priority name: anything but "high" and "medium"
      is Low. */
  function PriorityFromName(p: string): (r: Priority)
    ensures p == "high" ==> r == High
    ensures p == "medium" ==> r == Medium
    ensures p != "high" && p != "medium" ==> r == Low
  {
    if p == "high" then High else if p == "medium" then Medium else Low
  }

  /** Each serialized priority name reads back as its priority. */
  lemma PriorityNameRoundTrip(p: Priority)
    ensures PriorityFromName(PriorityName(p)) == p
  {
  }

  /** A task as serde writes it (camelCase members); `timeText` renders a clock
      reading as RFC 3339 text. */
  function TodoJson(t: Todo, timeText: Timestamp -> string): (j: Json)
    ensures j.Object? && GetStr(j, "id") == Some(t.id) && GetStr(j, "text") == Some(t.text)
    ensures GetBool(j, "completed") == Some(t.completed)
  {
    Object(map[
      "id" := Str(t.id),
      "text" := Str(t.text),
      "completed" := Bool(t.completed),
      "status" := Str(StatusText(t.status)),
      "priority" := Str(PriorityName(t.priority)),
      "dueDate" := (if t.dueDate.Some? then Str(t.dueDate.value) else Null),
      "tags" := Array(seq(|t.tags|, i requires 0 <= i < |t.tags| => Str(t.tags[i]))),
      "createdAt" := Str(timeText(t.createdAt)),
      "updatedAt" := Str(timeText(t.updatedAt))])
  }

  function TodosJson(ts: seq<Todo>, timeText: Timestamp -> string): (j: seq<Json>)
    ensures |j| == |ts|
  {
    seq(|ts|, i requires 0 <= i < |ts| => TodoJson(ts[i], timeText))
  }

  function AddedJson(created: seq<Todo>, timeText: Timestamp -> string): Json {
    Object(map[
      "success" := Bool(true),
      "created_count" := Number(|created|),
      "message" := Str("成功创建了 " + Decimal(|created|) + " 个任务"),
      "todos" := Array(TodosJson(created, timeText))])
  }

  function CompletedJson(t: Todo, timeText: Timestamp -> string): Json {
    Object(map[
      "success" := Bool(true),
      "message" := Str("已完成任务: " + t.text),
      "todo" := TodoJson(t, timeText)])
  }

  function DeletedCountJson(count: nat): Json {
    Object(map[
      "success" := Bool(true),
      "deleted_count" := Number(count),
      "message" := Str("已删除 " + Decimal(count) + " 个已完成的任务")])
  }

  function DeletedJson(text: string): Json {
    Object(map["success" := Bool(true), "message" := Str("已删除任务: " + text)])
  }

  function QueryJson(ts: seq<Todo>, timeText: Timestamp -> string): Json {
    Object(map["success" := Bool(true), "count" := Number(|ts|), "todos" := Array(TodosJson(ts, timeText))])
  }

  function StatisticsJson(s: TodoStatistics): Json {
    Object(map[
      "success" := Bool(true),
      "statistics" := Object(map[
        "total" := Number(s.total),
        "completed" := Number(s.completed),
        "pending" := Number(s.pending),
        "in_progress" := Number(s.inProgress),
        "cancelled" := Number(s.cancelled)]),
      "message" := Str("共 " + Decimal(s.total) + " 个任务，已完成 " + Decimal(s.completed)
                       + "，待办 " + Decimal(s.pending) + "，进行中 " + Decimal(s.inProgress))])
  }

  // ---------------------------------------------------------------------------
  // add_todos

  /** The create request an entry of `todos` stands for: None when its `text` is not
      a string. A present non-string `priority` is ignored. */
  function EntryRequest(e: Json): (r: Option<CreateTodoRequest>)
    ensures r.Some? <==> Index(e, "text").Str?
    ensures r.Some? ==> r.value.text == Index(e, "text").s && r.value.dueDate.None? && r.value.tags.None?
    ensures r.Some? ==> (r.value.priority.Some? <==> GetStr(e, "priority").Some?)
  {
    match AsStr(Index(e, "text"))
    case None => None
    case Some(text) =>
      var priority := match GetStr(e, "priority")
        case Some(p) => Some(PriorityFromName(p))
        case None => None;
      Some(CreateTodoRequest(text, priority, None, None))
  }

  /** The index of the first entry without a string text; `|entries|` if none. */
  function FirstInvalid(entries: seq<Json>, from: nat): (k: nat)
    requires from <= |entries|
    ensures from <= k <= |entries|
    ensures forall j :: from <= j < k ==> EntryRequest(entries[j]).Some?
    ensures k < |entries| ==> EntryRequest(entries[k]).None?
    decreases |entries| - from
  {
    if from == |entries| || EntryRequest(entries[from]).None? then from
    else FirstInvalid(entries, from + 1)
  }

  function Prefix<T>(count: nat, f: nat -> T): (s: seq<T>)
    ensures |s| == count
    ensures forall j :: 0 <= j < count ==> s[j] == f(j)
  {
    seq(count, j requires 0 <= j < count => f(j))
  }

  /** The requests of the valid leading entries. */
  function LeadingRequests(entries: seq<Json>): (reqs: seq<CreateTodoRequest>)
    ensures |reqs| == FirstInvalid(entries, 0)
  {
    var v := FirstInvalid(entries, 0);
    seq(v, k requires 0 <= k < v => EntryRequest(entries[k]).value)
  }

  /** What `add_todos` does to the table `rows0` (giving `rows1`) and returns. The
      entries are created one by one: the first entry without a text, or the first
      insert that fails, ends the call with the earlier tasks kept. */
  predicate AddTodosOutcome(rows0: seq<Row>, rows1: seq<Row>, args: Json, newId: nat -> string,
                            clock: nat -> Timestamp, timeText: Timestamp -> string, r: Result<Json, AppError>)
  {
    match AsArray(Index(args, "todos"))
    case None => r == Err(InvalidArgument("todos must be an array")) && rows1 == rows0
    case Some(entries) =>
      var reqs := LeadingRequests(entries);
      var ids, stamps := Prefix(|reqs|, newId), Prefix(|reqs|, clock);
      var c := FirstClash(rows0, ids, 0);
      var created := Created(reqs, ids, stamps)[..c];
      && rows1 == rows0 + EncodeAll(created)
      && (c < |reqs| ==> r == Err(Database(DuplicateIdMessage)))
      && (c == |reqs| < |entries| ==> r == Err(InvalidArgument("text is required")))
      && (c == |entries| ==> r == Ok(AddedJson(created, timeText)))
  }

  /** When `add_todos` succeeds, it created one task per entry, reports that number
      and added exactly those rows. */
  lemma AddTodosSuccessCount(rows0: seq<Row>, rows1: seq<Row>, args: Json, newId: nat -> string,
                             clock: nat -> Timestamp, timeText: Timestamp -> string, r: Result<Json, AppError>)
    requires AddTodosOutcome(rows0, rows1, args, newId, clock, timeText, r) && r.Ok?
    ensures Index(args, "todos").Array?
    ensures r.value.Object? && "created_count" in r.value.fields
    ensures r.value.fields["created_count"] == Number(|Index(args, "todos").items|)
    ensures |rows1| == |rows0| + |Index(args, "todos").items|
  {
    var entries := Index(args, "todos").items;
    var reqs := LeadingRequests(entries);
    var c := FirstClash(rows0, Prefix(|reqs|, newId), 0);
    assert c == |entries|;
  }

  /** An entry's priority: "high" and "medium" by name, any other string Low, and
      none at all leaves the repository's default, which is also Low. */
  lemma EntryPriority(e: Json)
    requires Index(e, "text").Str?
    ensures GetStr(e, "priority") == Some("high") ==> EntryRequest(e).value.priority == Some(High)
    ensures GetStr(e, "priority") == Some("medium") ==> EntryRequest(e).value.priority == Some(Medium)
    ensures GetStr(e, "priority").Some? && GetStr(e, "priority").value !in {"high", "medium"}
            ==> EntryRequest(e).value.priority == Some(Low)
    ensures GetStr(e, "priority").None?
            ==> EntryRequest(e).value.priority.GetOr(DefaultPriority) == Low
  {
  }

  // ---------------------------------------------------------------------------
  // Selection for complete_todo and delete_todo

  /** `id` if it is a string, else the first `search` result, else an error. */
  function Selection(rows: seq<Row>, args: Json): (r: Result<Todo, AppError>)
    ensures GetStr(args, "id").None? && GetStr(args, "search").None?
            ==> r == Err(InvalidArgument("id or search required"))
    ensures GetStr(args, "id").Some? ==> r == Lookup(rows, GetStr(args, "id").value)
  {
    match GetStr(args, "id")
    case Some(id) => Lookup(rows, id)
    case None =>
      match GetStr(args, "search")
      case Some(s) =>
        var found := Query(rows, NoFilter.(search := Some(s)));
        if found == [] then Err(TodoNotFound(s)) else Ok(found[0])
      case None => Err(InvalidArgument("id or search required"))
  }

  /** A selected task is one the table holds: the row found by its id. */
  lemma SelectionIsStored(rows: seq<Row>, args: Json)
    requires UniqueIds(rows) && Selection(rows, args).Ok?
    ensures var t := Selection(rows, args).value;
            IndexOf(rows, t.id).Some? && Decode(rows[IndexOf(rows, t.id).value]) == t
  {
    if GetStr(args, "id").None? {
      SearchIsStored(rows, GetStr(args, "search").value);
    }
  }

  /** The first search result is the decoded row its id finds. */
  lemma SearchIsStored(rows: seq<Row>, s: string)
    requires UniqueIds(rows) && Query(rows, NoFilter.(search := Some(s))) != []
    ensures var t := Query(rows, NoFilter.(search := Some(s)))[0];
            IndexOf(rows, t.id).Some? && Decode(rows[IndexOf(rows, t.id).value]) == t
  {
    var matched := Filter(rows, MatchesFilter(NoFilter.(search := Some(s))));
    var ordered := Sorting.SortByKey(matched, RowKey);
    Sorting.SortByKeyMembers(matched, RowKey);
    assert ordered[0] in matched;
    var i :| 0 <= i < |rows| && rows[i] == ordered[0];
    StoredAt(rows, i);
  }

  /** With unique ids, a row's id finds that row. */
  lemma StoredAt(rows: seq<Row>, i: int)
    requires UniqueIds(rows) && 0 <= i < |rows|
    ensures IndexOf(rows, rows[i].id) == Some(i)
  {
    assert HasId(rows, rows[i].id);
  }

  /** A search picks a stored task whose text contains the keyword (ignoring case),
      and no stored match comes before it in `get_all`'s order: it is the newest
      incomplete match if there is one. */
  lemma SearchSelectsFirstMatch(rows: seq<Row>, args: Json)
    requires AllCanonical(rows)
    requires GetStr(args, "id").None? && GetStr(args, "search").Some?
    requires SqlLike.NoWildcards(GetStr(args, "search").value)
    requires Selection(rows, args).Ok?
    ensures var t, s := Selection(rows, args).value, GetStr(args, "search").value;
            && t in DecodeAll(rows) && SqlLike.ContainsFolded(t.text, s)
            && forall u :: u in DecodeAll(rows) && SqlLike.ContainsFolded(u.text, s) ==>
                 (!t.completed || u.completed)
                 && (t.completed == u.completed ==> t.createdAt >= u.createdAt)
  {
    var s := GetStr(args, "search").value;
    var f := NoFilter.(search := Some(s));
    var found := Query(rows, f);
    QueryIsTodoQuery(rows, f);
    SearchFindsText(DecodeAll(rows), s);
    TodoQueryOrdered(DecodeAll(rows), f);
    forall u | u in DecodeAll(rows) && SqlLike.ContainsFolded(u.text, s)
      ensures (!found[0].completed || u.completed)
              && (found[0].completed == u.completed ==> found[0].createdAt >= u.createdAt)
    {
      var j :| 0 <= j < |found| && found[j] == u;
    }
  }

  /** The update `complete_todo` applies. */
  const CompleteRequest: UpdateTodoRequest := NoUpdate.(completed := Some(true), status := Some(Completed))

  /** After `complete_todo` the task is done and only its flag, status and update
      time changed. */
  lemma CompleteMarksDone(t: Todo, now: Timestamp)
    ensures Merge(t, CompleteRequest, now) == t.(completed := true, status := Completed, updatedAt := now)
  {
  }

  predicate CompleteTodoOutcome(rows0: seq<Row>, rows1: seq<Row>, args: Json, now: Timestamp,
                                timeText: Timestamp -> string, r: Result<Json, AppError>)
  {
    match Selection(rows0, args)
    case Err(e) => r == Err(e) && rows1 == rows0
    case Ok(t) =>
      match IndexOf(rows0, t.id)
      case None => false
      case Some(i) =>
        var m := Merge(Decode(rows0[i]), CompleteRequest, now);
        rows1 == rows0[i := Encode(m)] && r == Ok(CompletedJson(m, timeText))
  }

  predicate DeleteTodoOutcome(rows0: seq<Row>, rows1: seq<Row>, args: Json, r: Result<Json, AppError>) {
    if GetBool(args, "delete_all_completed").GetOr(false) then
      rows1 == Filter(rows0, NotCompleted)
      && r == Ok(DeletedCountJson(Count(rows0, FlagIs(1)) % 0x1_0000_0000))
    else
      match Selection(rows0, args)
      case Err(e) => r == Err(e) && rows1 == rows0
      case Ok(t) => rows1 == Filter(rows0, IdIsNot(t.id)) && r == Ok(DeletedJson(t.text))
  }

  /** Without the short-cut, deleting a selected task removes exactly its row. */
  lemma DeleteRemovesSelected(rows0: seq<Row>, rows1: seq<Row>, args: Json, r: Result<Json, AppError>)
    requires UniqueIds(rows0) && DeleteTodoOutcome(rows0, rows1, args, r)
    requires !GetBool(args, "delete_all_completed").GetOr(false) && Selection(rows0, args).Ok?
    ensures var t := Selection(rows0, args).value;
            && IndexOf(rows0, t.id).Some?
            && var i := IndexOf(rows0, t.id).value;
               Decode(rows0[i]) == t && rows1 == rows0[..i] + rows0[i + 1..]
  {
    var t := Selection(rows0, args).value;
    assert rows1 == Filter(rows0, IdIsNot(t.id)) by {
      DeleteOutcomeRows(rows0, rows1, args, r, t);
    }
    SelectionIsStored(rows0, args);
    DeleteRemovesOne(rows0, t.id);
  }

  lemma DeleteOutcomeRows(rows0: seq<Row>, rows1: seq<Row>, args: Json, r: Result<Json, AppError>, t: Todo)
    requires DeleteTodoOutcome(rows0, rows1, args, r)
    requires !GetBool(args, "delete_all_completed").GetOr(false) && Selection(rows0, args) == Ok(t)
    ensures rows1 == Filter(rows0, IdIsNot(t.id))
  {
  }

  /** With the short-cut set, `id` and `search` play no part. */
  lemma DeleteAllCompletedIgnoresSelection(rows0: seq<Row>, rows1: seq<Row>, args: Json,
                                           r: Result<Json, AppError>, id: Json, search: Json)
    requires args.Object? && GetBool(args, "delete_all_completed") == Some(true)
    ensures DeleteTodoOutcome(rows0, rows1, args, r)
            <==> DeleteTodoOutcome(rows0, rows1, Object(args.fields["id" := id]["search" := search]), r)
  {
    var args' := Object(args.fields["id" := id]["search" := search]);
    assert GetBool(args', "delete_all_completed") == Some(true);
  }

  // ---------------------------------------------------------------------------
  // query_todos and get_statistics

  /** The filter `query_todos` builds: status text (unknown text reads as pending),
      completed flag and search text; priority and tag are never set. */
  function ArgsFilter(args: Json): (f: TodoFilter)
    ensures f.priority.None? && f.tag.None?
    ensures f.search == GetStr(args, "search") && f.completed == GetBool(args, "completed")
    ensures f.status.Some? <==> GetStr(args, "status").Some?
    ensures GetStr(args, "status").Some? ==> f.status == Some(StatusFromText(GetStr(args, "status").value))
  {
    TodoFilter(
      match GetStr(args, "status") case Some(s) => Some(StatusFromText(s)) case None => None,
      GetBool(args, "completed"),
      None,
      GetStr(args, "search"),
      None)
  }

  function StatisticsOutcome(rows: seq<Row>): Result<Json, AppError> {
    if |rows| < 0x1_0000_0000 then Ok(StatisticsJson(Statistics(rows)))
    else Err(CountOverflow(|rows|))
  }

  class FunctionExecutor {
    const repo: TodoRepository
    const timeText: Timestamp -> string

    constructor (repo: TodoRepository, timeText: Timestamp -> string)
      ensures this.repo == repo && this.timeText == timeText
    {
      this.repo := repo;
      this.timeText := timeText;
    }

    /** `execute`: reads the arguments (`{}` when malformed) and dispatches on the
        name; an unknown name is an error and touches nothing. */
    method Execute(name: string, parsedArgs: Option<Json>, newId: nat -> string, clock: nat -> Timestamp)
      returns (r: Result<Json, AppError>)
      requires repo.Valid()
      modifies repo
      ensures repo.Valid()
      ensures var args := Arguments(parsedArgs);
              match KindOf(name)
              case None => r == Err(UnknownFunction(name)) && repo.rows == old(repo.rows)
              case Some(AddTodosKind) => AddTodosOutcome(old(repo.rows), repo.rows, args, newId, clock, timeText, r)
              case Some(CompleteTodoKind) => CompleteTodoOutcome(old(repo.rows), repo.rows, args, clock(0), timeText, r)
              case Some(DeleteTodoKind) => DeleteTodoOutcome(old(repo.rows), repo.rows, args, r)
              case Some(QueryTodosKind) =>
                r == Ok(QueryJson(Query(old(repo.rows), ArgsFilter(args)), timeText)) && repo.rows == old(repo.rows)
              case Some(GetStatisticsKind) => r == StatisticsOutcome(old(repo.rows)) && repo.rows == old(repo.rows)
    {
      var args := Arguments(parsedArgs);
      if name == "add_todos" {
        r := AddTodos(args, newId, clock);
      } else if name == "complete_todo" {
        r := CompleteTodo(args, clock(0));
      } else if name == "delete_todo" {
        r := DeleteTodo(args);
      } else if name == "query_todos" {
        r := QueryTodos(args);
      } else if name == "get_statistics" {
        r := GetStatistics();
      } else {
        r := Err(UnknownFunction(name));
      }
    }

    method AddTodos(args: Json, newId: nat -> string, clock: nat -> Timestamp) returns (r: Result<Json, AppError>)
      requires repo.Valid()
      modifies repo
      ensures repo.Valid()
      ensures AddTodosOutcome(old(repo.rows), repo.rows, args, newId, clock, timeText, r)
    {
      var todos := AsArray(Index(args, "todos"));
      if todos.None? {
        return Err(InvalidArgument("todos must be an array"));
      }
      var created, failure := CreateEntries(todos.value, newId, clock);
      if failure.Some? {
        return Err(failure.value);
      }
      r := Ok(AddedJson(created, timeText));
    }

    /** The loop of `add_todos`: one create per entry, stopping at the first entry
        without text or the first failing create. */
    method CreateEntries(entries: seq<Json>, newId: nat -> string, clock: nat -> Timestamp)
      returns (created: seq<Todo>, failure: Option<AppError>)
      requires repo.Valid()
      modifies repo
      ensures repo.Valid()
      ensures var reqs := LeadingRequests(entries);
              var ids, stamps := Prefix(|reqs|, newId), Prefix(|reqs|, clock);
              var c := FirstClash(old(repo.rows), ids, 0);
              && created == Created(reqs, ids, stamps)[..c]
              && repo.rows == old(repo.rows) + EncodeAll(created)
              && (c < |reqs| ==> failure == Some(Database(DuplicateIdMessage)))
              && (c == |reqs| < |entries| ==> failure == Some(InvalidArgument("text is required")))
              && (c == |entries| ==> failure.None?)
    {
      ghost var rows0 := repo.rows;
      ghost var reqs := LeadingRequests(entries);
      ghost var ids, stamps := Prefix(|reqs|, newId), Prefix(|reqs|, clock);
      ghost var c := FirstClash(rows0, ids, 0);
      created := [];
      var i := 0;
      while i < |entries|
        invariant 0 <= i <= c <= |reqs| <= |entries|
        invariant created == Created(reqs, ids, stamps)[..i]
        invariant repo.rows == rows0 + EncodeAll(created)
        invariant repo.Valid()
      {
        var req := EntryRequest(entries[i]);
        if req.None? {
          assert i == |reqs|;
          return created, Some(InvalidArgument("text is required"));
        }
        assert i < |reqs|;
        assert HasId(repo.rows, ids[i]) <==> HasId(rows0, ids[i]) || ids[i] in ids[..i] by {
          HasIdAppend(rows0, created, ids[i]);
          assert forall j :: 0 <= j < i ==> created[j].id == ids[..i][j];
        }
        var t := repo.Create(req.value, newId(i), clock(i));
        if t.Err? {
          assert i == c;
          return created, Some(t.error);
        }
        CreatedSnoc(reqs, ids, stamps, i, created, t.value);
        created := created + [t.value];
        i := i + 1;
      }
      assert created == Created(reqs, ids, stamps)[..c];
      failure := None;
    }

    method Select(args: Json) returns (r: Result<Todo, AppError>)
      ensures r == Selection(repo.rows, args)
    {
      var id := GetStr(args, "id");
      if id.Some? {
        r := repo.GetById(id.value);
        return;
      }
      var search := GetStr(args, "search");
      if search.None? {
        return Err(InvalidArgument("id or search required"));
      }
      var results := repo.Search(search.value);
      if results == [] {
        return Err(TodoNotFound(search.value));
      }
      r := Ok(results[0]);
    }

    method CompleteTodo(args: Json, now: Timestamp) returns (r: Result<Json, AppError>)
      requires repo.Valid()
      modifies repo
      ensures repo.Valid()
      ensures CompleteTodoOutcome(old(repo.rows), repo.rows, args, now, timeText, r)
    {
      var todo := Select(args);
      if todo.Err? {
        return Err(todo.error);
      }
      SelectionIsStored(repo.rows, args);
      var updated := repo.Update(todo.value.id, CompleteRequest, now);
      assert updated.Ok?;
      r := Ok(CompletedJson(updated.value, timeText));
    }

    method DeleteTodo(args: Json) returns (r: Result<Json, AppError>)
      requires repo.Valid()
      modifies repo
      ensures repo.Valid()
      ensures DeleteTodoOutcome(old(repo.rows), repo.rows, args, r)
    {
      if GetBool(args, "delete_all_completed").GetOr(false) {
        var count := repo.DeleteCompleted();
        return Ok(DeletedCountJson(count));
      }
      var todo := Select(args);
      if todo.Err? {
        return Err(todo.error);
      }
      SelectionIsStored(repo.rows, args);
      var text := todo.value.text;
      var deleted := repo.Delete(todo.value.id);
      assert deleted.Ok?;
      r := Ok(DeletedJson(text));
    }

    method QueryTodos(args: Json) returns (r: Result<Json, AppError>)
      ensures r == Ok(QueryJson(Query(repo.rows, ArgsFilter(args)), timeText))
    {
      var filter := ArgsFilter(args);
      var todos := repo.GetAll(Some(filter));
      r := Ok(QueryJson(todos, timeText));
    }

    method GetStatistics() returns (r: Result<Json, AppError>)
      ensures r == StatisticsOutcome(repo.rows)
    {
      var stats := repo.GetStatistics();
      if stats.Err? {
        return Err(stats.error);
      }
      r := Ok(StatisticsJson(stats.value));
    }
  }
}
