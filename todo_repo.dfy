/** The `todos` table and the repository over it. The table is a sequence of rows
    in the encoding its columns hold (status as text, priority as an integer,
    completed as 0/1); the id is its primary key. Ids and timestamps, which the
    source draws from `Uuid::new_v4()` and `Utc::now()`, are supplied by the caller.
    Queries are modelled as SQLite evaluates them: every WHERE condition must hold,
    then rows are ordered by `completed ASC, created_at DESC`. */
module TodoRepo {
  import opened Wrappers
  import opened Text
  import opened TodoModel
  import opened AppErrors
  import opened SqlLike
  import opened Sorting
  import opened Seqs

  /** One stored row. The `tags` column holds `TagsJson(tags)`; reading it back with
      `serde_json::from_str` gives `tags` again, so the list itself is kept. */
  datatype Row = Row(
    id: string,
    text: string,
    completed: int,
    status: string,
    priority: int,
    dueDate: Option<string>,
    tags: seq<string>,
    createdAt: Timestamp,
    updatedAt: Timestamp)

  /** The column values an INSERT or UPDATE writes for a task. */
  function Encode(t: Todo): (r: Row)
    ensures Decode(r) == t
    ensures r.completed == 0 || r.completed == 1
  {
    Row(t.id, t.text, if t.completed then 1 else 0, StatusText(t.status),
        PriorityCode(t.priority), t.dueDate, t.tags, t.createdAt, t.updatedAt)
  }

  /** The row mapper of the SELECT queries: any non-zero flag reads as completed,
      unknown status text as Pending and unknown priority codes as Low. */
  function Decode(r: Row): Todo {
    Todo(r.id, r.text, r.completed != 0, StatusFromText(r.status),
         PriorityFromCode(r.priority), r.dueDate, r.tags, r.createdAt, r.updatedAt)
  }

  /** A row as the repository itself writes it. */
  predicate Canonical(r: Row) {
    Encode(Decode(r)) == r
  }

  predicate AllCanonical(rows: seq<Row>) {
    forall r :: r in rows ==> Canonical(r)
  }

  function DecodeAll(rows: seq<Row>): (ts: seq<Todo>)
    ensures |ts| == |rows|
  {
    seq(|rows|, i requires 0 <= i < |rows| => Decode(rows[i]))
  }

  function EncodeAll(ts: seq<Todo>): (rows: seq<Row>)
    ensures |rows| == |ts|
    ensures AllCanonical(rows)
    ensures DecodeAll(rows) == ts
  {
    seq(|ts|, i requires 0 <= i < |ts| => Encode(ts[i]))
  }

  lemma DecodeAllSnoc(rows: seq<Row>, r: Row)
    ensures DecodeAll(rows + [r]) == DecodeAll(rows) + [Decode(r)]
  {
  }

  // ---------------------------------------------------------------------------
  // The JSON text of the tags column (serde_json::to_string of a string list)

  function HexDigit(d: int): char
    requires 0 <= d < 16
  {
    "0123456789abcdef"[d]
  }

  /** serde_json's escape of one character inside a string literal. */
  function EscapeChar(c: char): (r: string)
    ensures r != []
  {
    if c == '"' then "\\\""
    else if c == '\\' then "\\\\"
    else if c == '\U{0008}' then "\\b"
    else if c == '\U{000C}' then "\\f"
    else if c == '\n' then "\\n"
    else if c == '\r' then "\\r"
    else if c == '\t' then "\\t"
    else if (c as int) < 0x20 then "\\u00" + [HexDigit(c as int / 16), HexDigit(c as int % 16)]
    else [c]
  }

  function JsonEscape(s: string): string {
    if s == [] then [] else EscapeChar(s[0]) + JsonEscape(s[1..])
  }

  /** Characters serde_json writes unchanged. */
  predicate PlainText(s: string) {
    forall i :: 0 <= i < |s| ==> s[i] != '"' && s[i] != '\\' && (s[i] as int) >= 0x20
  }

  lemma {:induction false} JsonEscapeAppend(a: string, b: string)
    ensures JsonEscape(a + b) == JsonEscape(a) + JsonEscape(b)
  {
    if a == [] {
      assert a + b == b;
    } else {
      assert (a + b)[0] == a[0];
      assert (a + b)[1..] == a[1..] + b;
      JsonEscapeAppend(a[1..], b);
    }
  }

  lemma {:induction false} JsonEscapePlain(s: string)
    requires PlainText(s)
    ensures JsonEscape(s) == s
  {
    if s != [] {
      JsonEscapePlain(s[1..]);
    }
  }

  function JsonString(s: string): string {
    "\"" + JsonEscape(s) + "\""
  }

  /** `serde_json::to_string(&tags)`: a compact array of string literals. */
  function TagsJson(tags: seq<string>): (r: string)
    ensures |r| >= 2 && r[0] == '[' && r[|r| - 1] == ']'
  {
    "[" + Join(seq(|tags|, i requires 0 <= i < |tags| => JsonString(tags[i])), ",") + "]"
  }

  // ---------------------------------------------------------------------------
  // Queries

  /** One `AND ...` condition of the WHERE clause, with its bound parameter. */
  datatype Condition =
    | StatusIs(statusText: string)
    | CompletedIs(flag: int)
    | PriorityIs(code: int)
    | TextLike(pattern: string)
    | TagsLike(pattern: string)

  function StatusCondition(f: TodoFilter): seq<Condition> {
    if f.status.Some? then [StatusIs(StatusText(f.status.value))] else []
  }

  function CompletedCondition(f: TodoFilter): seq<Condition> {
    if f.completed.Some? then [CompletedIs(if f.completed.value then 1 else 0)] else []
  }

  function PriorityCondition(f: TodoFilter): seq<Condition> {
    if f.priority.Some? then [PriorityIs(PriorityCode(f.priority.value))] else []
  }

  function SearchCondition(f: TodoFilter): seq<Condition> {
    if f.search.Some? then [TextLike("%" + f.search.value + "%")] else []
  }

  function TagCondition(f: TodoFilter): seq<Condition> {
    if f.tag.Some? then [TagsLike("%\"" + f.tag.value + "%")] else []
  }

  /** The conditions `get_all` appends, in order, for the filter's present fields. */
  function Conditions(f: TodoFilter): (cs: seq<Condition>)
    ensures |cs| <= 5
  {
    StatusCondition(f) + CompletedCondition(f) + PriorityCondition(f)
    + SearchCondition(f) + TagCondition(f)
  }

  predicate Holds(r: Row, c: Condition) {
    match c
    case StatusIs(t) => r.status == t
    case CompletedIs(v) => r.completed == v
    case PriorityIs(p) => r.priority == p
    case TextLike(pat) => Like(r.text, pat)
    case TagsLike(pat) => Like(TagsJson(r.tags), pat)
  }

  /** `WHERE 1=1 AND c1 AND c2 ...`. */
  predicate AllHold(r: Row, cs: seq<Condition>) {
    cs == [] || (Holds(r, cs[0]) && AllHold(r, cs[1..]))
  }

  lemma {:induction false} AllHoldAppend(r: Row, a: seq<Condition>, b: seq<Condition>)
    ensures AllHold(r, a + b) <==> AllHold(r, a) && AllHold(r, b)
  {
    if a == [] {
      assert a + b == b;
    } else {
      assert (a + b)[0] == a[0];
      assert (a + b)[1..] == a[1..] + b;
      AllHoldAppend(r, a[1..], b);
    }
  }

  predicate Matches(r: Row, f: TodoFilter) {
    AllHold(r, Conditions(f))
  }

  /** The WHERE clause is the conjunction of the per-field conditions. */
  lemma MatchesParts(r: Row, f: TodoFilter)
    ensures Matches(r, f) <==>
              && AllHold(r, StatusCondition(f)) && AllHold(r, CompletedCondition(f))
              && AllHold(r, PriorityCondition(f)) && AllHold(r, SearchCondition(f))
              && AllHold(r, TagCondition(f))
  {
    var s, c, p, t, g := StatusCondition(f), CompletedCondition(f), PriorityCondition(f),
                         SearchCondition(f), TagCondition(f);
    AllHoldAppend(r, s + c + p + t, g);
    AllHoldAppend(r, s + c + p, t);
    AllHoldAppend(r, s + c, p);
    AllHoldAppend(r, s, c);
  }

  function MatchesFilter(f: TodoFilter): Row -> bool {
    r => Matches(r, f)
  }

  /** `ORDER BY completed ASC, created_at DESC`. */
  function RowKey(r: Row): Rank {
    Rank(r.completed, -(r.createdAt as int))
  }

  /** What `get_all(filter)` returns for a table. Rows that tie on both keys keep
      their insertion order. */
  function Query(rows: seq<Row>, f: TodoFilter): (ts: seq<Todo>)
    ensures |ts| == Count(rows, MatchesFilter(f))
  {
    CountIsFilterLength(rows, MatchesFilter(f));
    DecodeAll(SortByKey(Filter(rows, MatchesFilter(f)), RowKey))
  }

  // The same query stated on tasks rather than rows: the reference it is checked
  // against.

  predicate TodoMatches(t: Todo, f: TodoFilter) {
    && (f.status.None? || t.status == f.status.value)
    && (f.completed.None? || t.completed == f.completed.value)
    && (f.priority.None? || t.priority == f.priority.value)
    && (f.search.None? || Like(t.text, "%" + f.search.value + "%"))
    && (f.tag.None? || Like(TagsJson(t.tags), "%\"" + f.tag.value + "%"))
  }

  function TodoMatchesFilter(f: TodoFilter): Todo -> bool {
    t => TodoMatches(t, f)
  }

  /** Incomplete before complete, then newest first. */
  function TodoKey(t: Todo): Rank {
    Rank(if t.completed then 1 else 0, -(t.createdAt as int))
  }

  function TodoQuery(ts: seq<Todo>, f: TodoFilter): seq<Todo> {
    SortByKey(Filter(ts, TodoMatchesFilter(f)), TodoKey)
  }

  /** On a row the repository wrote, the WHERE clause means what the filter says. */
  lemma MatchesCanonical(r: Row, f: TodoFilter)
    requires Canonical(r)
    ensures Matches(r, f) <==> TodoMatches(Decode(r), f)
    ensures RowKey(r) == TodoKey(Decode(r))
  {
    var t := Decode(r);
    MatchesParts(r, f);
    if f.status.Some? {
      StatusTextInjective(t.status, f.status.value);
      AllHoldSingle(r, StatusIs(StatusText(f.status.value)));
    }
    if f.completed.Some? {
      AllHoldSingle(r, CompletedIs(if f.completed.value then 1 else 0));
    }
    if f.priority.Some? {
      PriorityCodeInjective(t.priority, f.priority.value);
      AllHoldSingle(r, PriorityIs(PriorityCode(f.priority.value)));
    }
    if f.search.Some? {
      AllHoldSingle(r, TextLike("%" + f.search.value + "%"));
    }
    if f.tag.Some? {
      AllHoldSingle(r, TagsLike("%\"" + f.tag.value + "%"));
    }
  }

  lemma AllHoldSingle(r: Row, c: Condition)
    ensures AllHold(r, [c]) <==> Holds(r, c)
  {
    assert [c][1..] == [];
  }

  lemma {:induction false} FilterDecodes(rows: seq<Row>, f: TodoFilter)
    requires AllCanonical(rows)
    ensures DecodeAll(Filter(rows, MatchesFilter(f))) == Filter(DecodeAll(rows), TodoMatchesFilter(f))
  {
    if rows != [] {
      var init, last := rows[..|rows| - 1], rows[|rows| - 1];
      assert rows == init + [last];
      FilterDecodes(init, f);
      MatchesCanonical(last, f);
      DecodeAllSnoc(init, last);
      FilterSnoc(DecodeAll(init), Decode(last), TodoMatchesFilter(f));
      if Matches(last, f) {
        DecodeAllSnoc(Filter(init, MatchesFilter(f)), last);
      }
    }
  }

  lemma {:induction false} InsertDecodes(x: Row, rows: seq<Row>)
    requires Canonical(x) && AllCanonical(rows)
    ensures DecodeAll(Insert(x, rows, RowKey)) == Insert(Decode(x), DecodeAll(rows), TodoKey)
  {
    MatchesCanonical(x, NoFilter);
    if rows == [] {
      DecodeAllCons(x, rows);
    } else {
      MatchesCanonical(rows[0], NoFilter);
      DecodeAllCons(rows[0], rows[1..]);
      assert [rows[0]] + rows[1..] == rows;
      if !RankLe(RowKey(x), RowKey(rows[0])) {
        InsertDecodes(x, rows[1..]);
        DecodeAllCons(rows[0], Insert(x, rows[1..], RowKey));
      } else {
        DecodeAllCons(x, rows);
      }
    }
  }

  lemma DecodeAllCons(r: Row, rows: seq<Row>)
    ensures DecodeAll([r] + rows) == [Decode(r)] + DecodeAll(rows)
  {
    assert DecodeAll([r] + rows) == [Decode(r)] + DecodeAll(rows);
  }

  lemma {:induction false} SortDecodes(rows: seq<Row>)
    requires AllCanonical(rows)
    ensures DecodeAll(SortByKey(rows, RowKey)) == SortByKey(DecodeAll(rows), TodoKey)
  {
    if rows != [] {
      assert DecodeAll(rows)[0] == Decode(rows[0]);
      assert DecodeAll(rows)[1..] == DecodeAll(rows[1..]);
      SortDecodes(rows[1..]);
      var sorted := SortByKey(rows[1..], RowKey);
      SortByKeyMembers(rows[1..], RowKey);
      assert AllCanonical(sorted);
      InsertDecodes(rows[0], sorted);
    }
  }

  /** On a table the repository wrote, the SQL query is the task-level query. */
  lemma QueryIsTodoQuery(rows: seq<Row>, f: TodoFilter)
    requires AllCanonical(rows)
    ensures Query(rows, f) == TodoQuery(DecodeAll(rows), f)
  {
    var selected := Filter(rows, MatchesFilter(f));
    assert AllCanonical(selected) by {
      forall r | r in selected ensures Canonical(r) {
        var i :| 0 <= i < |selected| && selected[i] == r;
      }
    }
    SortDecodes(selected);
    FilterDecodes(rows, f);
  }

  /** `get_all` returns exactly the tasks that satisfy every supplied condition. */
  lemma TodoQueryMembers(ts: seq<Todo>, f: TodoFilter)
    ensures forall t :: t in TodoQuery(ts, f) <==> t in ts && TodoMatches(t, f)
  {
    var selected := Filter(ts, TodoMatchesFilter(f));
    SortByKeyMembers(selected, TodoKey);
    forall t | t in ts && TodoMatches(t, f) ensures t in selected {
      var i :| 0 <= i < |ts| && ts[i] == t;
    }
    forall t | t in selected ensures t in ts && TodoMatches(t, f) {
      var i :| 0 <= i < |selected| && selected[i] == t;
    }
  }

  /** `get_all` lists incomplete tasks before completed ones, and newer before older
      within each group. */
  lemma TodoQueryOrdered(ts: seq<Todo>, f: TodoFilter)
    ensures var r := TodoQuery(ts, f);
            forall i, j :: 0 <= i < j < |r| ==>
              (!r[i].completed || r[j].completed)
              && (r[i].completed == r[j].completed ==> r[i].createdAt >= r[j].createdAt)
  {
    var r := TodoQuery(ts, f);
    SortByKeySorted(Filter(ts, TodoMatchesFilter(f)), TodoKey);
    forall i, j | 0 <= i < j < |r|
      ensures (!r[i].completed || r[j].completed)
              && (r[i].completed == r[j].completed ==> r[i].createdAt >= r[j].createdAt)
    {
      assert RankLe(TodoKey(r[i]), TodoKey(r[j]));
    }
  }

  /** Without a filter `get_all` returns every task exactly once. */
  lemma TodoQueryAll(ts: seq<Todo>)
    ensures multiset(TodoQuery(ts, NoFilter)) == multiset(ts)
  {
    FilterKeepsAll(ts, TodoMatchesFilter(NoFilter));
  }

  /** A search text without wildcard characters selects the tasks whose text
      contains it, ignoring ASCII case. */
  lemma SearchFindsText(ts: seq<Todo>, keyword: string)
    requires NoWildcards(keyword)
    ensures forall t :: t in TodoQuery(ts, NoFilter.(search := Some(keyword)))
                        <==> t in ts && ContainsFolded(t.text, keyword)
  {
    var f := NoFilter.(search := Some(keyword));
    TodoQueryMembers(ts, f);
    forall t: Todo ensures TodoMatches(t, f) <==> ContainsFolded(t.text, keyword) {
      LikeInfixIsFoldedContains(t.text, keyword);
    }
  }

  /** The tag filter `tags LIKE '%"tag%'` selects a task having a tag that starts
      with the given one (so "work" also selects "workshop"). */
  lemma TagFilterFindsPrefix(tags: seq<string>, k: int, tag: string)
    requires 0 <= k < |tags| && StartsWith(tags[k], tag)
    requires NoWildcards(tag) && PlainText(tag)
    ensures Like(TagsJson(tags), "%\"" + tag + "%")
  {
    var q := "\"" + tag;
    TagsJsonHasPrefixLiteral(tags, k, tag);
    ContainsFoldedOf(TagsJson(tags), q);
    assert NoWildcards(q);
    assert "%\"" + tag + "%" == "%" + q + "%";
    LikeInfixIsFoldedContains(TagsJson(tags), q);
  }

  /** The column text contains a quote followed by any plain prefix of a tag. */
  lemma TagsJsonHasPrefixLiteral(tags: seq<string>, k: int, tag: string)
    requires 0 <= k < |tags| && StartsWith(tags[k], tag) && PlainText(tag)
    ensures Contains(TagsJson(tags), "\"" + tag)
  {
    var before, after := TagsJsonSplit(tags, k);
    var q := "\"" + tag;
    var tail := LiteralStartsWithTag(tags[k], tag);
    ContainsPiece(before, JsonString(tags[k]), q, tail, after);
  }


  /** A string literal starts with a quote and the plain prefix of its text. */
  lemma LiteralStartsWithTag(s: string, tag: string) returns (tail: string)
    requires StartsWith(s, tag) && PlainText(tag)
    ensures JsonString(s) == "\"" + tag + tail
  {
    var rest := s[|tag|..];
    assert s == tag + rest;
    JsonEscapeAppend(tag, rest);
    JsonEscapePlain(tag);
    tail := JsonEscape(rest) + "\"";
    assert "\"" + (tag + JsonEscape(rest)) + "\"" == "\"" + tag + tail;
  }

  /** The literal of each tag appears in the column text. */
  lemma TagsJsonSplit(tags: seq<string>, k: int) returns (before: string, after: string)
    requires 0 <= k < |tags|
    ensures TagsJson(tags) == before + JsonString(tags[k]) + after
  {
    var literals := seq(|tags|, i requires 0 <= i < |tags| => JsonString(tags[i]));
    var b, a := JoinSplit(literals, ",", k);
    before, after := "[" + b, a + "]";
  }

  // ---------------------------------------------------------------------------
  // Table-level specifications

  predicate HasId(rows: seq<Row>, id: string) {
    exists i :: 0 <= i < |rows| && rows[i].id == id
  }

  predicate UniqueIds(rows: seq<Row>) {
    forall i, j :: 0 <= i < j < |rows| ==> rows[i].id != rows[j].id
  }

  /** The position of the row with this id. */
  function IndexOf(rows: seq<Row>, id: string): (r: Option<nat>)
    ensures r.None? <==> !HasId(rows, id)
    ensures r.Some? ==> r.value < |rows| && rows[r.value].id == id
    ensures r.Some? ==> forall j :: 0 <= j < r.value ==> rows[j].id != id
  {
    if rows == [] then None
    else if rows[0].id == id then Some(0)
    else
      match IndexOf(rows[1..], id)
      case None =>
        assert forall j :: 0 < j < |rows| ==> rows[j] == rows[1..][j - 1];
        None
      case Some(k) => Some(k + 1)
  }

  /** The message SQLite gives for a second row with the same primary key. */
  const DuplicateIdMessage: string := "UNIQUE constraint failed: todos.id"

  /** The task `create` inserts and returns. */
  function NewTodo(req: CreateTodoRequest, id: string, now: Timestamp): (t: Todo)
    ensures t.id == id && t.text == req.text && t.dueDate == req.dueDate
    ensures !t.completed && t.status == DefaultStatus
    ensures t.priority == req.priority.GetOr(DefaultPriority) && t.tags == req.tags.GetOr([])
    ensures t.createdAt == now && t.updatedAt == now
  {
    Todo(id, req.text, false, Pending, req.priority.GetOr(DefaultPriority),
         req.dueDate, req.tags.GetOr([]), now, now)
  }

  /** The tasks a batch creates when every insert succeeds, in request order. */
  function Created(reqs: seq<CreateTodoRequest>, ids: seq<string>, stamps: seq<Timestamp>): (ts: seq<Todo>)
    requires |ids| == |reqs| && |stamps| == |reqs|
    ensures |ts| == |reqs|
  {
    seq(|reqs|, i requires 0 <= i < |reqs| => NewTodo(reqs[i], ids[i], stamps[i]))
  }

  /** One more created task extends the created prefix, and its row the encoded one. */
  lemma CreatedSnoc(reqs: seq<CreateTodoRequest>, ids: seq<string>, stamps: seq<Timestamp>, i: nat,
                    created: seq<Todo>, t: Todo)
    requires |ids| == |reqs| && |stamps| == |reqs| && i < |reqs|
    requires created == Created(reqs, ids, stamps)[..i]
    requires t == NewTodo(reqs[i], ids[i], stamps[i])
    ensures created + [t] == Created(reqs, ids, stamps)[..i + 1]
    ensures EncodeAll(created) + [Encode(t)] == EncodeAll(created + [t])
  {
    assert EncodeAll(created) + [Encode(t)] == EncodeAll(created + [t]);
  }

  /** The index of the first batch entry whose id is already taken, by the table
      or by an earlier entry; `|ids|` when there is none. */
  function FirstClash(rows: seq<Row>, ids: seq<string>, from: nat): (k: nat)
    requires from <= |ids|
    ensures from <= k <= |ids|
    ensures forall j :: from <= j < k ==> !HasId(rows, ids[j]) && ids[j] !in ids[..j]
    ensures k < |ids| ==> HasId(rows, ids[k]) || ids[k] in ids[..k]
    decreases |ids| - from
  {
    if from == |ids| then from
    else if HasId(rows, ids[from]) || ids[from] in ids[..from] then from
    else FirstClash(rows, ids, from + 1)
  }

  /** `update`'s merge: each supplied field replaces the stored one, the rest are
      kept; the id and creation time never change and the update time is `now`.
      A due date can be set but not cleared (`Option::or`). */
  function Merge(t: Todo, req: UpdateTodoRequest, now: Timestamp): (m: Todo)
    ensures req.text.Some? ==> m.text == req.text.value
    ensures req.completed.Some? ==> m.completed == req.completed.value
    ensures req.status.Some? ==> m.status == req.status.value
    ensures req.priority.Some? ==> m.priority == req.priority.value
    ensures req.dueDate.Some? ==> m.dueDate == req.dueDate
    ensures req.tags.Some? ==> m.tags == req.tags.value
  {
    Todo(t.id, req.text.GetOr(t.text), req.completed.GetOr(t.completed),
         req.status.GetOr(t.status), req.priority.GetOr(t.priority),
         if req.dueDate.Some? then req.dueDate else t.dueDate,
         req.tags.GetOr(t.tags), t.createdAt, now)
  }

  /** Applying `a` then `b`: `b`'s fields win where present. */
  function Overlay(a: UpdateTodoRequest, b: UpdateTodoRequest): UpdateTodoRequest {
    UpdateTodoRequest(
      if b.text.Some? then b.text else a.text,
      if b.completed.Some? then b.completed else a.completed,
      if b.status.Some? then b.status else a.status,
      if b.priority.Some? then b.priority else a.priority,
      if b.dueDate.Some? then b.dueDate else a.dueDate,
      if b.tags.Some? then b.tags else a.tags)
  }

  /** An empty update only touches the update time. */
  lemma MergeNothing(t: Todo, now: Timestamp)
    ensures Merge(t, NoUpdate, now) == t.(updatedAt := now)
  {
  }

  /** Two updates in a row act as one with the later fields winning. */
  lemma MergeTwice(t: Todo, a: UpdateTodoRequest, b: UpdateTodoRequest, n1: Timestamp, n2: Timestamp)
    ensures Merge(Merge(t, a, n1), b, n2) == Merge(t, Overlay(a, b), n2)
  {
  }

  /** A field the update leaves out keeps its value; the id and creation time are
      always kept, and a due date once set stays set. */
  lemma MergeKeeps(t: Todo, req: UpdateTodoRequest, now: Timestamp)
    ensures var m := Merge(t, req, now);
            && m.id == t.id && m.createdAt == t.createdAt && m.updatedAt == now
            && (req.text.None? ==> m.text == t.text)
            && (req.completed.None? ==> m.completed == t.completed)
            && (req.status.None? ==> m.status == t.status)
            && (req.priority.None? ==> m.priority == t.priority)
            && (req.tags.None? ==> m.tags == t.tags)
            && (t.dueDate.Some? ==> m.dueDate.Some?)
  {
  }

  /** `get_by_id`. */
  function Lookup(rows: seq<Row>, id: string): (r: Result<Todo, AppError>)
    ensures r.Err? <==> !HasId(rows, id)
    ensures r.Err? ==> r.error == TodoNotFound(id)
  {
    match IndexOf(rows, id)
    case Some(i) => Ok(Decode(rows[i]))
    case None => Err(TodoNotFound(id))
  }

  function IdIsNot(id: string): Row -> bool {
    (r: Row) => r.id != id
  }

  /** `DELETE ... WHERE completed = 1` keeps exactly these. */
  function NotCompleted(r: Row): bool {
    r.completed != 1
  }

  function FlagIs(v: int): Row -> bool {
    (r: Row) => r.completed == v
  }

  function StatusTextIs(t: string): Row -> bool {
    (r: Row) => r.status == t
  }

  /** The five `COUNT(*)` queries of `get_statistics`. */
  function Statistics(rows: seq<Row>): (st: TodoStatistics)
    ensures st.total == |rows|
    ensures st.completed <= st.total && st.pending <= st.total && st.inProgress <= st.total && st.cancelled <= st.total
  {
    TodoStatistics(|rows|, Count(rows, FlagIs(1)), Count(rows, StatusTextIs("pending")),
                   Count(rows, StatusTextIs("in_progress")), Count(rows, StatusTextIs("cancelled")))
  }

  /** rusqlite's conversion error when a count does not fit `u32`. */
  function CountOverflow(n: nat): AppError {
    Database("Integer " + Decimal(n) + " out of range at index 0")
  }

  /** After `get_by_id` of a created task, the task comes back as created. */
  lemma LookupAfterCreate(rows: seq<Row>, req: CreateTodoRequest, id: string, now: Timestamp)
    requires !HasId(rows, id)
    ensures Lookup(rows + [Encode(NewTodo(req, id, now))], id) == Ok(NewTodo(req, id, now))
  {
    var rows' := rows + [Encode(NewTodo(req, id, now))];
    assert rows'[|rows|].id == id;
  }

  /** After an update the task reads back as merged. */
  lemma LookupAfterUpdate(rows: seq<Row>, id: string, req: UpdateTodoRequest, now: Timestamp)
    requires UniqueIds(rows) && HasId(rows, id)
    ensures var i := IndexOf(rows, id).value;
            var m := Merge(Decode(rows[i]), req, now);
            Lookup(rows[i := Encode(m)], id) == Ok(m)
  {
    var i := IndexOf(rows, id).value;
    var m := Merge(Decode(rows[i]), req, now);
    var rows' := rows[i := Encode(m)];
    assert rows'[i].id == id;
    assert IndexOf(rows', id) == Some(i);
  }

  /** After a delete the id is gone. */
  lemma LookupAfterDelete(rows: seq<Row>, id: string)
    ensures Lookup(Filter(rows, IdIsNot(id)), id) == Err(TodoNotFound(id))
  {
  }

  /** With unique ids, deleting an existing id removes that one row and keeps the
      others in order. */
  lemma DeleteRemovesOne(rows: seq<Row>, id: string)
    requires UniqueIds(rows) && HasId(rows, id)
    ensures var i := IndexOf(rows, id).value;
            Filter(rows, IdIsNot(id)) == rows[..i] + rows[i + 1..]
  {
    var i := IndexOf(rows, id).value;
    FilterAllBut(rows, IdIsNot(id), i);
  }

  lemma {:induction false} FilterKeepsUniqueIds(rows: seq<Row>, p: Row -> bool)
    requires UniqueIds(rows)
    ensures UniqueIds(Filter(rows, p))
  {
    if rows != [] {
      var init, last := rows[..|rows| - 1], rows[|rows| - 1];
      assert rows == init + [last];
      FilterKeepsUniqueIds(init, p);
      FilterSnoc(init, last, p);
      var fi := Filter(init, p);
      forall j | 0 <= j < |fi| ensures fi[j].id != last.id {
        var k :| 0 <= k < |init| && init[k] == fi[j];
      }
    }
  }

  /** A new task counts once in the total and once as pending. */
  lemma StatisticsAfterCreate(rows: seq<Row>, t: Todo)
    requires !t.completed && t.status == Pending
    ensures var s := Statistics(rows);
            Statistics(rows + [Encode(t)])
            == s.(total := s.total + 1, pending := s.pending + 1)
  {
    var x := Encode(t);
    CountSnoc(rows, x, FlagIs(1));
    CountSnoc(rows, x, StatusTextIs("pending"));
    CountSnoc(rows, x, StatusTextIs("in_progress"));
    CountSnoc(rows, x, StatusTextIs("cancelled"));
  }

  /** On a table the repository wrote, the three status counts and the completed
      status together make up the total. */
  lemma {:induction false} StatusCountsAddUp(rows: seq<Row>)
    requires AllCanonical(rows)
    ensures var s := Statistics(rows);
            s.pending + s.inProgress + s.cancelled + Count(rows, StatusTextIs("completed")) == s.total
  {
    if rows != [] {
      var init, last := rows[..|rows| - 1], rows[|rows| - 1];
      assert rows == init + [last];
      assert last in rows;
      StatusCountsAddUp(init);
      assert Canonical(last);
      assert last.status == StatusText(Decode(last).status);
    }
  }

  /** The result loop of `get_all`: each selected row decoded and pushed in order. */
  method DecodeRows(rows: seq<Row>) returns (result: seq<Todo>)
    ensures result == DecodeAll(rows)
  {
    result := [];
    for i := 0 to |rows|
      invariant result == DecodeAll(rows[..i])
    {
      DecodeAllSnoc(rows[..i], rows[i]);
      assert rows[..i + 1] == rows[..i] + [rows[i]];
      result := result + [Decode(rows[i])];
    }
    assert rows[..|rows|] == rows;
  }

  class TodoRepository {
    var rows: seq<Row>

    /** Primary-key uniqueness, and every row as the repository writes it. */
    predicate Valid()
      reads this
    {
      UniqueIds(rows) && AllCanonical(rows)
    }

    constructor ()
      ensures rows == [] && Valid()
    {
      rows := [];
    }

    /** `create`: one INSERT with the fresh id `id`, taken at `now`. */
    method Create(req: CreateTodoRequest, id: string, now: Timestamp) returns (r: Result<Todo, AppError>)
      requires Valid()
      modifies this
      ensures Valid()
      ensures HasId(old(rows), id) ==> r == Err(Database(DuplicateIdMessage)) && rows == old(rows)
      ensures !HasId(old(rows), id) ==>
                && r.Ok?
                && r.value.id == id && r.value.text == req.text
                && !r.value.completed && r.value.status == Pending
                && r.value.priority == req.priority.GetOr(DefaultPriority)
                && r.value.dueDate == req.dueDate && r.value.tags == req.tags.GetOr([])
                && r.value.createdAt == now && r.value.updatedAt == now
                && r.value == NewTodo(req, id, now)
                && rows == old(rows) + [Encode(r.value)]
    {
      if HasId(rows, id) {
        return Err(Database(DuplicateIdMessage));
      }
      var todo := NewTodo(req, id, now);
      rows := rows + [Encode(todo)];
      r := Ok(todo);
    }

    /** `batch_create`: one `create` per request, stopping at the first failure with
        the rows already inserted left in place. */
    method BatchCreate(reqs: seq<CreateTodoRequest>, ids: seq<string>, stamps: seq<Timestamp>)
      returns (r: Result<seq<Todo>, AppError>)
      requires Valid() && |ids| == |reqs| && |stamps| == |reqs|
      modifies this
      ensures Valid()
      ensures var k := FirstClash(old(rows), ids, 0);
              && rows == old(rows) + EncodeAll(Created(reqs, ids, stamps)[..k])
              && (k == |reqs| ==> r == Ok(Created(reqs, ids, stamps)))
              && (k < |reqs| ==> r == Err(Database(DuplicateIdMessage)))
    {
      var created: seq<Todo> := [];
      var i := 0;
      ghost var k := FirstClash(rows, ids, 0);
      ghost var rows0 := rows;
      while i < |reqs|
        invariant 0 <= i <= k
        invariant created == Created(reqs, ids, stamps)[..i]
        invariant rows == rows0 + EncodeAll(created)
        invariant Valid()
      {
        assert HasId(rows, ids[i]) <==> HasId(rows0, ids[i]) || ids[i] in ids[..i] by {
          HasIdAppend(rows0, created, ids[i]);
          assert forall j :: 0 <= j < i ==> created[j].id == ids[..i][j];
        }
        var t := Create(reqs[i], ids[i], stamps[i]);
        if t.Err? {
          assert i == k;
          return Err(t.error);
        }
        created := created + [t.value];
        i := i + 1;
      }
      assert Created(reqs, ids, stamps)[..i] == Created(reqs, ids, stamps);
      r := Ok(created);
    }

    /** `get_all`: builds the WHERE conditions, selects the matching rows, orders
        them and maps each row to a task. */
    method GetAll(filter: Option<TodoFilter>) returns (result: seq<Todo>)
      ensures result == Query(rows, filter.GetOr(NoFilter))
    {
      var f := filter.GetOr(NoFilter);
      var matched := SelectWhere(MatchesFilter(f));
      var ordered := SortByKey(matched, RowKey);
      result := DecodeRows(ordered);
    }

    /** The rows a WHERE clause keeps, in table order. */
    method SelectWhere(p: Row -> bool) returns (matched: seq<Row>)
      ensures matched == Filter(rows, p)
    {
      matched := [];
      for i := 0 to |rows|
        invariant matched == Filter(rows[..i], p)
      {
        assert rows[..i + 1] == rows[..i] + [rows[i]];
        FilterSnoc(rows[..i], rows[i], p);
        if p(rows[i]) {
          matched := matched + [rows[i]];
        }
      }
      assert rows[..|rows|] == rows;
    }

    /** `get_by_id`. */
    method GetById(id: string) returns (r: Result<Todo, AppError>)
      ensures r == Lookup(rows, id)
      ensures r.Ok? ==> r.value.id == id
    {
      var i := IndexOf(rows, id);
      if i.None? {
        return Err(TodoNotFound(id));
      }
      r := Ok(Decode(rows[i.value]));
    }

    /** `update`: reads the stored task, merges the request into it and writes the
        merged fields back together with the new update time. */
    method Update(id: string, req: UpdateTodoRequest, now: Timestamp) returns (r: Result<Todo, AppError>)
      requires Valid()
      modifies this
      ensures Valid()
      ensures r.Err? <==> !HasId(old(rows), id)
      ensures r.Err? ==> r.error == TodoNotFound(id) && rows == old(rows)
      ensures r.Ok? ==> var i := IndexOf(old(rows), id).value;
                        && r.value == Merge(Decode(old(rows)[i]), req, now)
                        && rows == old(rows)[i := Encode(r.value)]
    {
      var i := IndexOf(rows, id);
      if i.None? {
        return Err(TodoNotFound(id));
      }
      var existing := Decode(rows[i.value]);
      var merged := Merge(existing, req, now);
      rows := rows[i.value := Encode(merged)];
      r := Ok(merged);
    }

    /** `delete`: removes every row with the id; none is an error. */
    method Delete(id: string) returns (r: Result<(), AppError>)
      requires Valid()
      modifies this
      ensures Valid()
      ensures rows == Filter(old(rows), IdIsNot(id))
      ensures r.Err? <==> !HasId(old(rows), id)
      ensures r.Err? ==> r.error == TodoNotFound(id)
    {
      var kept := Filter(rows, IdIsNot(id));
      FilterKeepsUniqueIds(rows, IdIsNot(id));
      if HasId(rows, id) {
        var i :| 0 <= i < |rows| && rows[i].id == id;
        FilterDropsOne(rows, IdIsNot(id), i);
      } else {
        FilterKeepsAll(rows, IdIsNot(id));
      }
      var removed := |rows| - |kept|;
      rows := kept;
      if removed == 0 {
        return Err(TodoNotFound(id));
      }
      r := Ok(());
    }

    /** `delete_completed`: removes the rows flagged completed and reports how many,
        as `u32` (`rows as u32` truncates). */
    method DeleteCompleted() returns (n: int)
      requires Valid()
      modifies this
      ensures Valid()
      ensures rows == Filter(old(rows), NotCompleted)
      ensures n == Count(old(rows), FlagIs(1)) % 0x1_0000_0000
      ensures forall t :: t in DecodeAll(rows) ==> !t.completed
    {
      var kept := Filter(rows, NotCompleted);
      FilterKeepsUniqueIds(rows, NotCompleted);
      CountIsFilterLength(rows, NotCompleted);
      CountSplits(rows, FlagIs(1), NotCompleted);
      n := (|rows| - |kept|) % 0x1_0000_0000;
      rows := kept;
      forall t | t in DecodeAll(rows) ensures !t.completed {
        var i :| 0 <= i < |rows| && DecodeAll(rows)[i] == t;
        assert rows[i] in old(rows);
      }
    }

    /** `search`: `get_all` with only the search text set. */
    method Search(keyword: string) returns (result: seq<Todo>)
      ensures result == Query(rows, NoFilter.(search := Some(keyword)))
    {
      result := GetAll(Some(NoFilter.(search := Some(keyword))));
    }

    /** One `SELECT COUNT(*) ... WHERE p`. */
    method CountWhere(p: Row -> bool) returns (n: nat)
      ensures n == Count(rows, p)
    {
      n := 0;
      for i := 0 to |rows|
        invariant n == Count(rows[..i], p)
      {
        assert rows[..i + 1] == rows[..i] + [rows[i]];
        CountSnoc(rows[..i], rows[i], p);
        if p(rows[i]) {
          n := n + 1;
        }
      }
      assert rows[..|rows|] == rows;
    }

    /** `get_statistics`: five counts, each read as `u32`. */
    method GetStatistics() returns (r: Result<TodoStatistics, AppError>)
      ensures |rows| < 0x1_0000_0000 ==> r == Ok(Statistics(rows))
      ensures |rows| >= 0x1_0000_0000 ==> r == Err(CountOverflow(|rows|))
    {
      var total := CountWhere(_ => true);
      assert total == |rows| by {
        CountSplits(rows, _ => true, _ => false);
        FilterDropsAll(rows, _ => false);
        CountIsFilterLength(rows, _ => false);
      }
      if total >= 0x1_0000_0000 {
        return Err(CountOverflow(total));
      }
      var completed := CountWhere(FlagIs(1));
      var pending := CountWhere(StatusTextIs("pending"));
      var inProgress := CountWhere(StatusTextIs("in_progress"));
      var cancelled := CountWhere(StatusTextIs("cancelled"));
      r := Ok(TodoStatistics(total, completed, pending, inProgress, cancelled));
    }
  }

  lemma HasIdAppend(rows: seq<Row>, ts: seq<Todo>, id: string)
    ensures HasId(rows + EncodeAll(ts), id) <==> HasId(rows, id) || exists j :: 0 <= j < |ts| && ts[j].id == id
  {
    var all := rows + EncodeAll(ts);
    if HasId(all, id) {
      var i :| 0 <= i < |all| && all[i].id == id;
      if i >= |rows| {
        assert ts[i - |rows|].id == id;
      }
    }
    if exists j :: 0 <= j < |ts| && ts[j].id == id {
      var j :| 0 <= j < |ts| && ts[j].id == id;
      assert all[|rows| + j].id == id;
    }
    if HasId(rows, id) {
      var i :| 0 <= i < |rows| && rows[i].id == id;
      assert all[i].id == id;
    }
  }
}
