// The FindTasks query compiler (db/dbtasks.go:268-373), in two views: the SQL text with its
// positional argument list, and the row predicate plus ordering that the statement means.
module DbQuery {
  import opened Wrappers
  import opened Strconv
  import opened Clock
  import opened Settings
  import opened Tasks
  import opened DbCore
  import opened DbTasks
  import Sorting

  /** A value bound to a '?' of the statement: a formatted time or a tag id. */
  datatype SqlArg = TimeArg(time: Time) | TextArg(text: string)

  /** The shapes of the WHERE conjuncts FindTasks appends; their values come from the argument list. */
  datatype Clause =
    | CompletedIs            // completed = ?
    | CompletedFromOrOpen    // (completed >= ? OR completed = ?)
    | CompletedToOrOpen      // (completed <= ? OR completed = ?)
    | CompletedIsNot         // completed != ?
    | WipIs(on: bool)        // wip = 1 / wip = 0
    | PlannedIs(on: bool)    // planned = 1 / planned = 0
    | TagIn(count: nat)      // id in ( select task_id from TasksTags where tag_id in (?, ..., ?))

  /** How many '?' the clause holds. */
  function Arity(c: Clause): nat {
    match c
    case CompletedIs => 1
    case CompletedFromOrOpen => 2
    case CompletedToOrOpen => 2
    case CompletedIsNot => 1
    case WipIs(_) => 0
    case PlannedIs(_) => 0
    case TagIn(n) => n
  }

  /** The number of '?' in a text. */
  function Placeholders(s: string): nat { MarksIn(s, |s|) }

  /** The number of '?' among the first n characters. */
  function MarksIn(s: string, n: nat): nat
    requires n <= |s|
  {
    if n == 0 then 0 else MarksIn(s, n - 1) + (if s[n - 1] == '?' then 1 else 0)
  }

  lemma {:induction false} MarksInPrefix(a: string, b: string, n: nat)
    requires n <= |a|
    ensures MarksIn(a + b, n) == MarksIn(a, n)
  {
    if n > 0 {
      MarksInPrefix(a, b, n - 1);
      assert (a + b)[n - 1] == a[n - 1];
    }
  }

  lemma {:induction false} MarksInSuffix(a: string, b: string, k: nat)
    requires k <= |b|
    ensures MarksIn(a + b, |a| + k) == MarksIn(a, |a|) + MarksIn(b, k)
  {
    if k == 0 {
      MarksInPrefix(a, b, |a|);
    } else {
      MarksInSuffix(a, b, k - 1);
      assert (a + b)[|a| + k - 1] == b[k - 1];
    }
  }

  /** Counting is additive over concatenation. */
  lemma MarksJoin(a: string, b: string)
    ensures Placeholders(a + b) == Placeholders(a) + Placeholders(b)
  {
    MarksInSuffix(a, b, |b|);
  }

  lemma MarksAdd(a: string, b: string, c: string)
    ensures Placeholders(a + b + c) == Placeholders(a) + Placeholders(b) + Placeholders(c)
  {
    MarksJoin(a, b);
    MarksJoin(a + b, c);
  }

  predicate NoMarks(s: string) { forall i | 0 <= i < |s| :: s[i] != '?' }

  lemma {:induction false} NoMarksIn(s: string, n: nat)
    requires NoMarks(s) && n <= |s|
    ensures MarksIn(s, n) == 0
  {
    if n > 0 {
      NoMarksIn(s, n - 1);
    }
  }

  lemma NoMarksCount(s: string)
    requires NoMarks(s)
    ensures Placeholders(s) == 0
  {
    NoMarksIn(s, |s|);
  }

  // The statement text, in pieces short enough to be checked character by character.
  const SelectColumns: string := "SELECT id, title, content, created," + " updated, completed, priority, wip," + " planned, impact, cost, value, fun"
  const SelectTasks: string := SelectColumns + " FROM tasks" + " WHERE 1=1"
  const TagInOpen: string := " AND id in ( select task_id" + " from TasksTags where tag_id in ("
  const TagInClose: string := "))"

  // The literal pieces, a few per lemma: checking many at once is more than the solver takes.
  lemma SelectPiecesHaveNoMarks()
    ensures NoMarks("SELECT id, title, content, created,")
    ensures NoMarks(" updated, completed, priority, wip,")
    ensures NoMarks(" planned, impact, cost, value, fun")
    ensures NoMarks(" FROM tasks") && NoMarks(" WHERE 1=1")
  {
  }

  lemma TagPiecesHaveNoMarks()
    ensures NoMarks(" AND id in ( select task_id") && NoMarks(" from TasksTags where tag_id in (")
    ensures NoMarks("))")
  {
  }

  lemma CompletedPiecesHaveNoMarks()
    ensures NoMarks(" AND completed = ") && NoMarks(" AND completed != ")
    ensures NoMarks(" AND (completed >= ") && NoMarks(" AND (completed <= ")
    ensures NoMarks(" OR completed = ") && NoMarks(")")
  {
  }

  lemma FlagPiecesHaveNoMarks()
    ensures NoMarks(" AND wip = 1") && NoMarks(" AND wip = 0")
    ensures NoMarks(" AND planned = 1") && NoMarks(" AND planned = 0")
  {
  }

  lemma OrderPiecesHaveNoMarks()
    ensures NoMarks(" ORDER BY ") && NoMarks(" DESC") && NoMarks(" ASC")
    ensures forall c | c in ["completed", "created", "priority", "impact", "wip", "planned", "cost", "value", "fun"] :: NoMarks(c)
  {
  }

  lemma OneMark()
    ensures Placeholders("?") == 1
  {
  }

  lemma NoComma()
    ensures Placeholders(", ") == 0
  {
    assert NoMarks(", ");
    NoMarksCount(", ");
  }

  lemma SelectHasNoMarks()
    ensures Placeholders(SelectTasks) == 0
  {
    SelectPiecesHaveNoMarks();
    NoMarksCount("SELECT id, title, content, created,");
    NoMarksCount(" updated, completed, priority, wip,");
    NoMarksCount(" planned, impact, cost, value, fun");
    NoMarksCount(" FROM tasks");
    NoMarksCount(" WHERE 1=1");
    MarksAdd("SELECT id, title, content, created,", " updated, completed, priority, wip,", " planned, impact, cost, value, fun");
    MarksAdd(SelectColumns, " FROM tasks", " WHERE 1=1");
  }

  lemma TagInHasNoMarks()
    ensures Placeholders(TagInOpen) == 0 && Placeholders(TagInClose) == 0
  {
    TagPiecesHaveNoMarks();
    NoMarksCount(" AND id in ( select task_id");
    NoMarksCount(" from TasksTags where tag_id in (");
    NoMarksCount("))");
    MarksJoin(" AND id in ( select task_id", " from TasksTags where tag_id in (");
  }

  /** The list "?, ?, ..., ?" of n placeholders that the tags loop writes. */
  function Marks(n: nat): string {
    if n == 0 then "" else Marks(n - 1) + (if n == 1 then "?" else ", " + "?")
  }

  lemma {:induction false} MarksCount(n: nat)
    ensures Placeholders(Marks(n)) == n
  {
    if n > 0 {
      MarksCount(n - 1);
      OneMark();
      NoComma();
      if n == 1 {
        MarksJoin(Marks(n - 1), "?");
      } else {
        MarksJoin(", ", "?");
        MarksJoin(Marks(n - 1), ", " + "?");
      }
    }
  }

  /** A text with one '?' after its head. */
  lemma OneMarkAfter(a: string)
    ensures Placeholders(a + "?") == Placeholders(a) + 1
  {
    OneMark();
    MarksJoin(a, "?");
  }

  function ClauseText(c: Clause): string {
    match c
    case CompletedIs => " AND completed = " + "?"
    case CompletedFromOrOpen => " AND (completed >= " + "?" + " OR completed = " + "?" + ")"
    case CompletedToOrOpen => " AND (completed <= " + "?" + " OR completed = " + "?" + ")"
    case CompletedIsNot => " AND completed != " + "?"
    case WipIs(on) => if on then " AND wip = 1" else " AND wip = 0"
    case PlannedIs(on) => if on then " AND planned = 1" else " AND planned = 0"
    case TagIn(n) => TagInOpen + Marks(n) + TagInClose
  }

  lemma CompletedIsMarks()
    ensures Placeholders(ClauseText(CompletedIs)) == 1 && Placeholders(ClauseText(CompletedIsNot)) == 1
  {
    CompletedPiecesHaveNoMarks();
    NoMarksCount(" AND completed = ");
    NoMarksCount(" AND completed != ");
    OneMarkAfter(" AND completed = ");
    OneMarkAfter(" AND completed != ");
  }

  lemma CompletedBoundMarks()
    ensures Placeholders(ClauseText(CompletedFromOrOpen)) == 2 && Placeholders(ClauseText(CompletedToOrOpen)) == 2
  {
    CompletedPiecesHaveNoMarks();
    NoMarksCount(" AND (completed >= ");
    NoMarksCount(" AND (completed <= ");
    NoMarksCount(" OR completed = ");
    NoMarksCount(")");
    TwoMarksAmong(" AND (completed >= ", " OR completed = ", ")");
    TwoMarksAmong(" AND (completed <= ", " OR completed = ", ")");
  }

  /** A text with a '?' after each of its first two pieces. */
  lemma TwoMarksAmong(a: string, b: string, c: string)
    ensures Placeholders(a + "?" + b + "?" + c) == Placeholders(a) + Placeholders(b) + Placeholders(c) + 2
  {
    OneMarkAfter(a);
    MarksJoin(a + "?", b);
    OneMarkAfter(a + "?" + b);
    MarksJoin(a + "?" + b + "?", c);
  }

  lemma FlagMarks(on: bool)
    ensures Placeholders(ClauseText(WipIs(on))) == 0 && Placeholders(ClauseText(PlannedIs(on))) == 0
  {
    FlagPiecesHaveNoMarks();
    NoMarksCount(" AND wip = 1");
    NoMarksCount(" AND wip = 0");
    NoMarksCount(" AND planned = 1");
    NoMarksCount(" AND planned = 0");
  }

  /** Each clause holds exactly as many '?' as it takes values. */
  lemma ClauseMarks(c: Clause)
    ensures Placeholders(ClauseText(c)) == Arity(c)
  {
    match c
    case CompletedIs => CompletedIsMarks();
    case CompletedFromOrOpen => CompletedBoundMarks();
    case CompletedToOrOpen => CompletedBoundMarks();
    case CompletedIsNot => CompletedIsMarks();
    case WipIs(on) => FlagMarks(on);
    case PlannedIs(on) => FlagMarks(on);
    case TagIn(n) =>
      TagInHasNoMarks();
      MarksCount(n);
      MarksAdd(TagInOpen, Marks(n), TagInClose);
  }

  /** A clause with the values the compiler binds to its placeholders. */
  datatype Bound = Bound(clause: Clause, values: seq<SqlArg>)

  /** The WHERE conjuncts in order. */
  function WhereText(bs: seq<Bound>): string {
    if bs == [] then "" else WhereText(bs[..|bs| - 1]) + ClauseText(bs[|bs| - 1].clause)
  }

  /** How many values the conjuncts take, in total. */
  function TotalArity(bs: seq<Bound>): nat {
    if bs == [] then 0 else TotalArity(bs[..|bs| - 1]) + Arity(bs[|bs| - 1].clause)
  }

  lemma {:induction false} WhereMarks(bs: seq<Bound>)
    ensures Placeholders(WhereText(bs)) == TotalArity(bs)
  {
    if bs != [] {
      WhereMarks(bs[..|bs| - 1]);
      ClauseMarks(bs[|bs| - 1].clause);
      MarksJoin(WhereText(bs[..|bs| - 1]), ClauseText(bs[|bs| - 1].clause));
    }
  }

  function TimeArgs(ts: seq<Time>): (r: seq<SqlArg>)
    ensures |r| == |ts| && forall i | 0 <= i < |ts| :: r[i] == TimeArg(ts[i])
  {
    seq(|ts|, i requires 0 <= i < |ts| => TimeArg(ts[i]))
  }

  function TagArgs(tags: seq<string>): (r: seq<SqlArg>)
    ensures |r| == |tags| && forall i | 0 <= i < |tags| :: r[i] == TextArg(tags[i])
  {
    seq(|tags|, i requires 0 <= i < |tags| => TextArg(tags[i]))
  }

  function Opt(cond: bool, b: Bound): seq<Bound> { if cond then [b] else [] }

  /** The completion conjuncts: completed = NOT_COMPLETED, or the bounds that also let open tasks through. */
  function CompletionBindings(q: TasksQuery): seq<Bound> {
    if q.filterCompleted then [Bound(CompletedIs, [TimeArg(NotCompleted)])]
    else
      Opt(!IsZero(q.completedFrom), Bound(CompletedFromOrOpen, [TimeArg(q.completedFrom), TimeArg(NotCompleted)]))
      + Opt(!IsZero(q.completedTo), Bound(CompletedToOrOpen, [TimeArg(q.completedTo), TimeArg(NotCompleted)]))
  }

  /** The conjuncts FindTasks appends for a query, each with its values, in the order it appends them. */
  function Bindings(q: TasksQuery): seq<Bound> {
    CompletionBindings(q)
    + Opt(q.filterIncompleted, Bound(CompletedIsNot, [TimeArg(NotCompleted)]))
    + Opt(q.filterWip, Bound(WipIs(true), []))
    + Opt(q.filterNonWip, Bound(WipIs(false), []))
    + Opt(q.planned, Bound(PlannedIs(true), []))
    + Opt(q.nonPlanned, Bound(PlannedIs(false), []))
    + Opt(|q.tags| > 0, Bound(TagIn(|q.tags|), TagArgs(q.tags)))
  }

  /** Every conjunct gets as many values as it has placeholders. */
  predicate Fits(bs: seq<Bound>) { forall b | b in bs :: |b.values| == Arity(b.clause) }

  lemma FitsOpt(bs: seq<Bound>, cond: bool, b: Bound)
    requires Fits(bs) && |b.values| == Arity(b.clause)
    ensures Fits(bs + Opt(cond, b))
  {
  }

  lemma BindingsFit(q: TasksQuery)
    ensures Fits(Bindings(q))
  {
    var from := Bound(CompletedFromOrOpen, [TimeArg(q.completedFrom), TimeArg(NotCompleted)]);
    FitsOpt([], !IsZero(q.completedFrom), from);
    assert [] + Opt(!IsZero(q.completedFrom), from) == Opt(!IsZero(q.completedFrom), from);
    FitsOpt(Opt(!IsZero(q.completedFrom), from), !IsZero(q.completedTo), Bound(CompletedToOrOpen, [TimeArg(q.completedTo), TimeArg(NotCompleted)]));
    var bs := CompletionBindings(q);
    FitsOpt(bs, q.filterIncompleted, Bound(CompletedIsNot, [TimeArg(NotCompleted)]));
    bs := bs + Opt(q.filterIncompleted, Bound(CompletedIsNot, [TimeArg(NotCompleted)]));
    FitsOpt(bs, q.filterWip, Bound(WipIs(true), []));
    bs := bs + Opt(q.filterWip, Bound(WipIs(true), []));
    FitsOpt(bs, q.filterNonWip, Bound(WipIs(false), []));
    bs := bs + Opt(q.filterNonWip, Bound(WipIs(false), []));
    FitsOpt(bs, q.planned, Bound(PlannedIs(true), []));
    bs := bs + Opt(q.planned, Bound(PlannedIs(true), []));
    FitsOpt(bs, q.nonPlanned, Bound(PlannedIs(false), []));
    bs := bs + Opt(q.nonPlanned, Bound(PlannedIs(false), []));
    FitsOpt(bs, |q.tags| > 0, Bound(TagIn(|q.tags|), TagArgs(q.tags)));
  }

  function Clauses(bs: seq<Bound>): (r: seq<Clause>)
    ensures |r| == |bs| && forall i | 0 <= i < |bs| :: r[i] == bs[i].clause
  {
    if bs == [] then [] else Clauses(bs[..|bs| - 1]) + [bs[|bs| - 1].clause]
  }

  function Values(bs: seq<Bound>): seq<SqlArg> {
    if bs == [] then [] else Values(bs[..|bs| - 1]) + bs[|bs| - 1].values
  }

  function ClausesOf(q: TasksQuery): seq<Clause> { Clauses(Bindings(q)) }
  function ArgsOf(q: TasksQuery): seq<SqlArg> { Values(Bindings(q)) }

  /** The ORDER BY of a query: none, or a column and whether it is descending. */
  datatype Order = Unordered | OrderBy(column: string, desc: bool)

  /** The column FindTasks orders by: each listed column names itself, any other value orders by created. */
  function SortColumnName(c: GoInt): (r: string)
    ensures r in ["completed", "created", "priority", "impact", "wip", "planned", "cost", "value", "fun"]
    ensures c !in [ColumnCompleted, ColumnPriority, ColumnImpact, ColumnWip, ColumnPlanned, ColumnCost, ColumnValue, ColumnFun] ==> r == "created"
  {
    if c == ColumnCompleted then "completed"
    else if c == ColumnCreated then "created"
    else if c == ColumnPriority then "priority"
    else if c == ColumnImpact then "impact"
    else if c == ColumnWip then "wip"
    else if c == ColumnPlanned then "planned"
    else if c == ColumnCost then "cost"
    else if c == ColumnValue then "value"
    else if c == ColumnFun then "fun"
    else "created"
  }

  /** ColumnUndefined adds no ORDER BY; Desc sorts descending and every other direction ascending. */
  function OrderOf(q: TasksQuery): (r: Order)
    ensures r.Unordered? <==> q.sortColumn == ColumnUndefined
    ensures r.OrderBy? ==> r.column == SortColumnName(q.sortColumn) && (r.desc <==> q.sortDirection == Desc)
  {
    if q.sortColumn == ColumnUndefined then Unordered else OrderBy(SortColumnName(q.sortColumn), q.sortDirection == Desc)
  }

  function OrderText(o: Order): string {
    match o
    case Unordered => ""
    case OrderBy(column, desc) => " ORDER BY " + column + (if desc then " DESC" else " ASC")
  }

  lemma OrderMarks(q: TasksQuery)
    ensures Placeholders(OrderText(OrderOf(q))) == 0
  {
    var o := OrderOf(q);
    if o.OrderBy? {
      OrderPiecesHaveNoMarks();
      NoMarksCount(" ORDER BY ");
      NoMarksCount(o.column);
      NoMarksCount(" DESC");
      NoMarksCount(" ASC");
      MarksAdd(" ORDER BY ", o.column, if o.desc then " DESC" else " ASC");
    }
  }

  /** The statement FindTasks sends. */
  function Statement(q: TasksQuery): string {
    SelectTasks + WhereText(Bindings(q)) + OrderText(OrderOf(q))
  }

  /** Values and placeholders line up, clause by clause. */
  lemma {:induction false} ValuesFit(bs: seq<Bound>)
    requires Fits(bs)
    ensures |Values(bs)| == TotalArity(bs)
  {
    if bs != [] {
      var init := bs[..|bs| - 1];
      assert forall b | b in init :: b in bs;
      ValuesFit(init);
    }
  }

  /** Every '?' of the statement has exactly one value. */
  lemma StatementFits(q: TasksQuery)
    ensures Placeholders(Statement(q)) == |ArgsOf(q)| == TotalArity(Bindings(q))
  {
    SelectHasNoMarks();
    WhereMarks(Bindings(q));
    OrderMarks(q);
    MarksAdd(SelectTasks, WhereText(Bindings(q)), OrderText(OrderOf(q)));
    BindingsFit(q);
    ValuesFit(Bindings(q));
  }

  /** Appending one conjunct extends the clause list, the values and the text by its own. */
  lemma Snoc(bs: seq<Bound>, b: Bound)
    ensures Values(bs + [b]) == Values(bs) + b.values
    ensures WhereText(bs + [b]) == WhereText(bs) + ClauseText(b.clause)
  {
    assert (bs + [b])[..|bs|] == bs;
  }

  /**
   * FindTasks' construction of the statement: the SQL text grows by one conjunct per set filter
   * and the arguments by that conjunct's values, then the ORDER BY follows.
   */
  method CompileFindTasks(q: TasksQuery) returns (sql: string, args: seq<SqlArg>)
    ensures sql == Statement(q) && args == ArgsOf(q)
    ensures Placeholders(sql) == |args|
  {
    sql := SelectTasks;
    args := [];
    Start(sql);
    sql, args := AppendCompletion(q, SelectTasks, sql, args);
    sql, args := AppendFilters(q, SelectTasks, sql, args);
    sql := sql + OrderText(OrderOf(q));
    StatementFits(q);
  }

  /** The completion conjuncts: completed = NOT_COMPLETED, or each lower and upper bound that is set. */
  method AppendCompletion(q: TasksQuery, ghost pre: string, sql0: string, args0: seq<SqlArg>) returns (sql: string, args: seq<SqlArg>)
    requires sql0 == pre + WhereText([]) && args0 == Values([])
    ensures sql == pre + WhereText(CompletionBindings(q)) && args == Values(CompletionBindings(q))
  {
    sql, args := sql0, args0;
    if q.filterCompleted {
      Grow(pre, sql, args, [], Bound(CompletedIs, [TimeArg(NotCompleted)]));
      sql := sql + ClauseText(CompletedIs);
      args := args + [TimeArg(NotCompleted)];
      assert [] + [Bound(CompletedIs, [TimeArg(NotCompleted)])] == CompletionBindings(q);
    } else {
      ghost var from := Bound(CompletedFromOrOpen, [TimeArg(q.completedFrom), TimeArg(NotCompleted)]);
      ghost var to := Bound(CompletedToOrOpen, [TimeArg(q.completedTo), TimeArg(NotCompleted)]);
      GrowIf(pre, sql, args, [], !IsZero(q.completedFrom), from);
      if !IsZero(q.completedFrom) {
        sql := sql + ClauseText(CompletedFromOrOpen);
        args := args + [TimeArg(q.completedFrom), TimeArg(NotCompleted)];
      }
      GrowIf(pre, sql, args, [] + Opt(!IsZero(q.completedFrom), from), !IsZero(q.completedTo), to);
      if !IsZero(q.completedTo) {
        sql := sql + ClauseText(CompletedToOrOpen);
        args := args + [TimeArg(q.completedTo), TimeArg(NotCompleted)];
      }
      assert [] + Opt(!IsZero(q.completedFrom), from) + Opt(!IsZero(q.completedTo), to) == CompletionBindings(q);
    }
  }

  /** The conjuncts after the completion ones: completed != NOT_COMPLETED, the wip and planned flags, the tags. */
  method AppendFilters(q: TasksQuery, ghost pre: string, sql0: string, args0: seq<SqlArg>) returns (sql: string, args: seq<SqlArg>)
    requires sql0 == pre + WhereText(CompletionBindings(q)) && args0 == Values(CompletionBindings(q))
    ensures sql == pre + WhereText(Bindings(q)) && args == Values(Bindings(q))
  {
    ghost var b1, b2, b3 := Bound(CompletedIsNot, [TimeArg(NotCompleted)]), Bound(WipIs(true), []), Bound(WipIs(false), []);
    ghost var b4, b5, b6 := Bound(PlannedIs(true), []), Bound(PlannedIs(false), []), Bound(TagIn(|q.tags|), TagArgs(q.tags));
    ghost var p0 := CompletionBindings(q);
    ghost var p1 := p0 + Opt(q.filterIncompleted, b1);
    ghost var p2 := p1 + Opt(q.filterWip, b2);
    ghost var p3 := p2 + Opt(q.filterNonWip, b3);
    ghost var p4 := p3 + Opt(q.planned, b4);
    ghost var p5 := p4 + Opt(q.nonPlanned, b5);
    assert p5 + Opt(|q.tags| > 0, b6) == Bindings(q);
    sql, args := sql0, args0;
    GrowIf(pre, sql, args, p0, q.filterIncompleted, b1);
    if q.filterIncompleted {
      sql := sql + ClauseText(CompletedIsNot);
      args := args + [TimeArg(NotCompleted)];
    }
    GrowIf(pre, sql, args, p1, q.filterWip, b2);
    if q.filterWip {
      sql := sql + ClauseText(WipIs(true));
    }
    GrowIf(pre, sql, args, p2, q.filterNonWip, b3);
    if q.filterNonWip {
      sql := sql + ClauseText(WipIs(false));
    }
    GrowIf(pre, sql, args, p3, q.planned, b4);
    if q.planned {
      sql := sql + ClauseText(PlannedIs(true));
    }
    GrowIf(pre, sql, args, p4, q.nonPlanned, b5);
    if q.nonPlanned {
      sql := sql + ClauseText(PlannedIs(false));
    }
    GrowIf(pre, sql, args, p5, |q.tags| > 0, b6);
    if |q.tags| > 0 {
      sql, args := AppendTagIn(sql, args, q.tags);
    }
  }

  /** The tags conjunct: the sub-select, then one '?' per tag joined by ", ", each bound to its tag id. */
  method AppendTagIn(sql0: string, args0: seq<SqlArg>, tags: seq<string>) returns (sql: string, args: seq<SqlArg>)
    ensures sql == sql0 + ClauseText(TagIn(|tags|)) && args == args0 + TagArgs(tags)
  {
    sql := sql0 + TagInOpen;
    ghost var open := sql;
    args := args0;
    var i := 0;
    while i < |tags|
      invariant 0 <= i <= |tags|
      invariant sql == open + Marks(i)
      invariant args == args0 + TagArgs(tags[..i])
    {
      MarksGrow(open, i);
      TagArgsGrow(args0, tags, i);
      if i != 0 {
        sql := sql + ", ";
      }
      sql := sql + "?";
      args := args + [TextArg(tags[i])];
      i := i + 1;
    }
    assert tags[..i] == tags;
    sql := sql + TagInClose;
    TagInAppended(sql0, |tags|);
  }

  lemma TagArgsGrow(args0: seq<SqlArg>, tags: seq<string>, i: nat)
    requires i < |tags|
    ensures args0 + TagArgs(tags[..i]) + [TextArg(tags[i])] == args0 + TagArgs(tags[..i + 1])
  {
    assert TagArgs(tags[..i + 1]) == TagArgs(tags[..i]) + [TextArg(tags[i])];
  }

  lemma TagInAppended(sql0: string, n: nat)
    ensures sql0 + TagInOpen + Marks(n) + TagInClose == sql0 + ClauseText(TagIn(n))
  {
    var m := Marks(n);
    assert ClauseText(TagIn(n)) == TagInOpen + m + TagInClose;
    Assoc(TagInOpen, m, TagInClose);
    Assoc(sql0 + TagInOpen, m, TagInClose);
    Assoc(sql0, TagInOpen, m + TagInClose);
  }

  lemma Start(pre: string)
    ensures pre == pre + WhereText([]) && [] == Values([])
  {
  }

  /** One conjunct appended when its filter is set: the text and the values grow by its own. */
  lemma GrowIf(pre: string, sql: string, args: seq<SqlArg>, bs: seq<Bound>, cond: bool, b: Bound)
    requires sql == pre + WhereText(bs) && args == Values(bs)
    ensures (if cond then sql + ClauseText(b.clause) else sql) == pre + WhereText(bs + Opt(cond, b))
    ensures (if cond then args + b.values else args) == Values(bs + Opt(cond, b))
  {
    if cond {
      assert bs + Opt(cond, b) == bs + [b];
      Grow(pre, sql, args, bs, b);
    } else {
      assert bs + Opt(cond, b) == bs;
    }
  }

  lemma Grow(pre: string, sql: string, args: seq<SqlArg>, bs: seq<Bound>, b: Bound)
    requires sql == pre + WhereText(bs) && args == Values(bs)
    ensures sql + ClauseText(b.clause) == pre + WhereText(bs + [b])
    ensures args + b.values == Values(bs + [b])
  {
    Snoc(bs, b);
    Assoc(pre, WhereText(bs), ClauseText(b.clause));
  }

  lemma Assoc(a: string, b: string, c: string)
    ensures a + b + c == a + (b + c)
  {
  }

  lemma MarksGrow(pre: string, i: nat)
    ensures i != 0 ==> pre + Marks(i) + ", " + "?" == pre + Marks(i + 1)
    ensures i == 0 ==> pre + Marks(i) + "?" == pre + Marks(i + 1)
  {
  }
}
