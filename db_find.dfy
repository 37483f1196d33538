// What the FindTasks statement selects (db/dbtasks.go:268-373): the engine reads the conjuncts with
// their positional arguments, and the result is proved to be exactly the rows a direct reading of the
// query accepts, in the requested order.
module DbFind {
  import opened Wrappers
  import opened Clock
  import opened Settings
  import opened Tasks
  import opened DbCore
  import opened DbTasks
  import opened DbQuery
  import Sorting

  /** The engine's reading of one conjunct against a tasks row, with the values bound to its '?'s. */
  predicate Holds(c: Clause, vals: seq<SqlArg>, id: string, row: TaskRow, links: set<Link>) {
    match c
    case CompletedIs =>
      |vals| == 1 && vals[0].TimeArg? && row.completed == vals[0].time
    case CompletedFromOrOpen =>
      |vals| == 2 && vals[0].TimeArg? && vals[1].TimeArg?
      && (row.completed >= vals[0].time || row.completed == vals[1].time)
    case CompletedToOrOpen =>
      |vals| == 2 && vals[0].TimeArg? && vals[1].TimeArg?
      && (row.completed <= vals[0].time || row.completed == vals[1].time)
    case CompletedIsNot =>
      |vals| == 1 && vals[0].TimeArg? && row.completed != vals[0].time
    case WipIs(on) => row.wip == BoolInt(on)
    case PlannedIs(on) => row.planned == BoolInt(on)
    case TagIn(n) =>
      |vals| == n && exists k | 0 <= k < n :: vals[k].TextArg? && (id, vals[k].text) in links
  }

  /**
   * The WHERE clause with positional arguments: each conjunct takes as many of the arguments as it
   * has '?'s, in order, and a statement whose argument count differs from its '?' count selects nothing.
   */
  predicate EvalWhere(cs: seq<Clause>, args: seq<SqlArg>, id: string, row: TaskRow, links: set<Link>) {
    if cs == [] then args == []
    else
      var k := Arity(cs[|cs| - 1]);
      k <= |args|
      && Holds(cs[|cs| - 1], args[|args| - k..], id, row, links)
      && EvalWhere(cs[..|cs| - 1], args[..|args| - k], id, row, links)
  }

  /** Every conjunct holds with its own values. */
  predicate AllHold(bs: seq<Bound>, id: string, row: TaskRow, links: set<Link>) {
    forall i | 0 <= i < |bs| :: Holds(bs[i].clause, bs[i].values, id, row, links)
  }

  /** The last conjunct of a list takes the last of its clauses and the tail of its values. */
  lemma SplitLast(bs: seq<Bound>)
    requires bs != []
    ensures var cs, args, last := Clauses(bs), Values(bs), bs[|bs| - 1];
      |last.values| <= |args| && cs[|cs| - 1] == last.clause && cs[..|cs| - 1] == Clauses(bs[..|bs| - 1])
      && args[|args| - |last.values|..] == last.values && args[..|args| - |last.values|] == Values(bs[..|bs| - 1])
  {
    var args, last := Values(bs), bs[|bs| - 1];
    assert args == Values(bs[..|bs| - 1]) + last.values;
  }

  /** The conjuncts of a list hold when those before the last do and the last does. */
  lemma AllHoldLast(bs: seq<Bound>, id: string, row: TaskRow, links: set<Link>)
    requires bs != []
    ensures AllHold(bs, id, row, links) <==>
      AllHold(bs[..|bs| - 1], id, row, links) && Holds(bs[|bs| - 1].clause, bs[|bs| - 1].values, id, row, links)
  {
    var init := bs[..|bs| - 1];
    assert forall i | 0 <= i < |init| :: init[i] == bs[i];
  }

  /** Reading the arguments positionally gives each conjunct back the values the compiler bound to it. */
  lemma {:induction false} EvalBindings(bs: seq<Bound>, id: string, row: TaskRow, links: set<Link>)
    requires Fits(bs)
    ensures EvalWhere(Clauses(bs), Values(bs), id, row, links) <==> AllHold(bs, id, row, links)
  {
    if bs != [] {
      var init, last := bs[..|bs| - 1], bs[|bs| - 1];
      assert Fits(init) by {
        assert forall b | b in init :: b in bs;
      }
      assert |last.values| == Arity(last.clause);
      SplitLast(bs);
      AllHoldLast(bs, id, row, links);
      EvalBindings(init, id, row, links);
    }
  }

  /** The rows the query asks for, read off its fields. */
  predicate Matches(q: TasksQuery, id: string, row: TaskRow, links: set<Link>) {
    (if q.filterCompleted then row.completed == NotCompleted
     else (IsZero(q.completedFrom) || row.completed >= q.completedFrom || row.completed == NotCompleted)
          && (IsZero(q.completedTo) || row.completed <= q.completedTo || row.completed == NotCompleted))
    && (q.filterIncompleted ==> row.completed != NotCompleted)
    && (q.filterWip ==> row.wip == 1)
    && (q.filterNonWip ==> row.wip == 0)
    && (q.planned ==> row.planned == 1)
    && (q.nonPlanned ==> row.planned == 0)
    && (|q.tags| > 0 ==> exists t | t in q.tags :: (id, t) in links)
  }

  lemma HoldsOpt(bs: seq<Bound>, cond: bool, b: Bound, id: string, row: TaskRow, links: set<Link>)
    ensures AllHold(bs + Opt(cond, b), id, row, links)
      <==> AllHold(bs, id, row, links) && (cond ==> Holds(b.clause, b.values, id, row, links))
  {
    var r := bs + Opt(cond, b);
    assert forall i | 0 <= i < |bs| :: r[i] == bs[i];
    if cond {
      assert r[|bs|] == b;
    }
  }

  lemma TagsHold(tags: seq<string>, id: string, row: TaskRow, links: set<Link>)
    ensures Holds(TagIn(|tags|), TagArgs(tags), id, row, links) <==> exists t | t in tags :: (id, t) in links
  {
    var vals := TagArgs(tags);
    if exists t | t in tags :: (id, t) in links {
      var t :| t in tags && (id, t) in links;
      var k :| 0 <= k < |tags| && tags[k] == t;
      assert vals[k].TextArg? && (id, vals[k].text) in links;
    }
    if exists k | 0 <= k < |tags| :: vals[k].TextArg? && (id, vals[k].text) in links {
      var k :| 0 <= k < |tags| && vals[k].TextArg? && (id, vals[k].text) in links;
      assert tags[k] in tags;
    }
  }

  lemma CompletionHolds(q: TasksQuery, id: string, row: TaskRow, links: set<Link>)
    ensures AllHold(CompletionBindings(q), id, row, links) <==>
      if q.filterCompleted then row.completed == NotCompleted
      else (IsZero(q.completedFrom) || row.completed >= q.completedFrom || row.completed == NotCompleted)
           && (IsZero(q.completedTo) || row.completed <= q.completedTo || row.completed == NotCompleted)
  {
    if !q.filterCompleted {
      var from := Bound(CompletedFromOrOpen, [TimeArg(q.completedFrom), TimeArg(NotCompleted)]);
      var to := Bound(CompletedToOrOpen, [TimeArg(q.completedTo), TimeArg(NotCompleted)]);
      HoldsOpt([], !IsZero(q.completedFrom), from, id, row, links);
      assert [] + Opt(!IsZero(q.completedFrom), from) == Opt(!IsZero(q.completedFrom), from);
      HoldsOpt(Opt(!IsZero(q.completedFrom), from), !IsZero(q.completedTo), to, id, row, links);
    } else {
      assert CompletionBindings(q)[0] == Bound(CompletedIs, [TimeArg(NotCompleted)]);
    }
  }

  /** The conjuncts hold together exactly when the row is one the query asks for. */
  lemma BindingsMeaning(q: TasksQuery, id: string, row: TaskRow, links: set<Link>)
    ensures AllHold(Bindings(q), id, row, links) <==> Matches(q, id, row, links)
  {
    var bs := CompletionBindings(q);
    CompletionHolds(q, id, row, links);
    HoldsOpt(bs, q.filterIncompleted, Bound(CompletedIsNot, [TimeArg(NotCompleted)]), id, row, links);
    bs := bs + Opt(q.filterIncompleted, Bound(CompletedIsNot, [TimeArg(NotCompleted)]));
    HoldsOpt(bs, q.filterWip, Bound(WipIs(true), []), id, row, links);
    bs := bs + Opt(q.filterWip, Bound(WipIs(true), []));
    HoldsOpt(bs, q.filterNonWip, Bound(WipIs(false), []), id, row, links);
    bs := bs + Opt(q.filterNonWip, Bound(WipIs(false), []));
    HoldsOpt(bs, q.planned, Bound(PlannedIs(true), []), id, row, links);
    bs := bs + Opt(q.planned, Bound(PlannedIs(true), []));
    HoldsOpt(bs, q.nonPlanned, Bound(PlannedIs(false), []), id, row, links);
    bs := bs + Opt(q.nonPlanned, Bound(PlannedIs(false), []));
    HoldsOpt(bs, |q.tags| > 0, Bound(TagIn(|q.tags|), TagArgs(q.tags)), id, row, links);
    TagsHold(q.tags, id, row, links);
  }

  /** The compiled statement, run with its argument list, selects exactly the rows the query asks for. */
  lemma CompiledQueryMeaning(q: TasksQuery, id: string, row: TaskRow, links: set<Link>)
    ensures EvalWhere(ClausesOf(q), ArgsOf(q), id, row, links) <==> Matches(q, id, row, links)
  {
    BindingsFit(q);
    EvalBindings(Bindings(q), id, row, links);
    BindingsMeaning(q, id, row, links);
  }

  /** With FilterCompleted set the date bounds play no part: only open tasks are listed. */
  lemma FilterCompletedIgnoresBounds(q: TasksQuery, from: Time, to: Time, id: string, row: TaskRow, links: set<Link>)
    requires q.filterCompleted
    ensures Matches(q, id, row, links) <==> Matches(q.(completedFrom := from, completedTo := to), id, row, links)
    ensures Matches(q, id, row, links) ==> row.completed == NotCompleted
  {
  }

  /** The date bounds never hide an open task: they only narrow the completed ones. */
  lemma BoundsKeepOpenTasks(q: TasksQuery, id: string, row: TaskRow, links: set<Link>)
    requires row.completed == NotCompleted
    ensures Matches(q, id, row, links) <==> Matches(q.(completedFrom := NotCompleted, completedTo := NotCompleted), id, row, links)
  {
  }

  /** A completed task passes the bounds exactly when its completion time lies within the set ones. */
  lemma BoundsOnCompletedTasks(q: TasksQuery, id: string, row: TaskRow, links: set<Link>)
    requires !q.filterCompleted && row.completed != NotCompleted
    ensures Matches(q, id, row, links) <==>
      (IsZero(q.completedFrom) || q.completedFrom <= row.completed)
      && (IsZero(q.completedTo) || row.completed <= q.completedTo)
      && Matches(q.(completedFrom := NotCompleted, completedTo := NotCompleted), id, row, links)
  {
  }

  /** A flag and its opposite together select no row. */
  lemma OpposedFiltersSelectNothing(q: TasksQuery, id: string, row: TaskRow, links: set<Link>)
    requires (q.filterCompleted && q.filterIncompleted) || (q.filterWip && q.filterNonWip) || (q.planned && q.nonPlanned)
    ensures !Matches(q, id, row, links)
  {
  }

  /** Tags select any-of: one more tag never drops a row a non-empty tag list selected. */
  lemma MoreTagsSelectMore(q: TasksQuery, tag: string, id: string, row: TaskRow, links: set<Link>)
    requires |q.tags| > 0 && Matches(q, id, row, links)
    ensures Matches(q.(tags := q.tags + [tag]), id, row, links)
  {
    var t :| t in q.tags && (id, t) in links;
    assert t in q.tags + [tag];
  }

  /** The zero query filters nothing. */
  lemma ZeroQuerySelectsAll(id: string, row: TaskRow, links: set<Link>)
    ensures Matches(ZeroQuery, id, row, links)
  {
  }

  /** The value ORDER BY compares for a column the statement can name. */
  function RowKey(column: string, row: TaskRow): real {
    if column == "completed" then row.completed as real
    else if column == "priority" then row.priority as real
    else if column == "impact" then row.impact as real
    else if column == "wip" then row.wip as real
    else if column == "planned" then row.planned as real
    else if column == "cost" then row.cost as real
    else if column == "value" then row.value
    else if column == "fun" then row.fun as real
    else row.created as real
  }

  /** Ascending or descending by the column, as the ORDER BY says; no ORDER BY promises no order. */
  predicate InOrder(o: Order, rows: map<string, TaskRow>, ids: seq<string>)
    requires forall id | id in ids :: id in rows
  {
    o.OrderBy? ==>
      forall i, j | 0 <= i < j < |ids| ::
        if o.desc then RowKey(o.column, rows[ids[i]]) >= RowKey(o.column, rows[ids[j]])
        else RowKey(o.column, rows[ids[i]]) <= RowKey(o.column, rows[ids[j]])
  }

  /** The ids of the stored tasks the query selects. */
  function Selected(q: TasksQuery, rows: map<string, TaskRow>, links: set<Link>): (r: set<string>)
    ensures r <= rows.Keys
  {
    set id | id in rows && Matches(q, id, rows[id], links)
  }

  /**
   * FindTasks: compile the query, let the engine select the rows the statement accepts and order them,
   * and scan each. A missing table or column makes the statement fail.
   */
  method FindTasks(d: Database, q: TasksQuery) returns (r: Result<seq<Task>, DbError>)
    ensures !HasColumns(d.schema, TasksTable, TaskColumns) ==> r == Err(SchemaError(TasksTable))
    ensures HasColumns(d.schema, TasksTable, TaskColumns) && |q.tags| > 0 && !HasColumns(d.schema, TasksTagsTable, TasksTagsColumns)
      ==> r == Err(SchemaError(TasksTagsTable))
    ensures HasColumns(d.schema, TasksTable, TaskColumns) && (|q.tags| == 0 || HasColumns(d.schema, TasksTagsTable, TasksTagsColumns)) ==>
      r.Ok? && multiset(Ids(r.value)) == multiset(Selected(q, d.tasks, d.tasksTags))
      && (forall t | t in r.value :: t.id in d.tasks && t == ScanTask(t.id, d.tasks[t.id]))
      && InOrder(OrderOf(q), d.tasks, Ids(r.value))
  {
    var sql, args := CompileFindTasks(q);
    if !HasColumns(d.schema, TasksTable, TaskColumns) {
      return Err(SchemaError(TasksTable));
    }
    if |q.tags| > 0 && !HasColumns(d.schema, TasksTagsTable, TasksTagsColumns) {
      return Err(SchemaError(TasksTagsTable));
    }
    var rows := d.tasks;
    var ids := SelectIds(q, args, rows, d.tasksTags);
    ids := OrderIds(OrderOf(q), rows, ids);
    return Ok(ScanAll(ids, rows));
  }

  /** The engine's ORDER BY on the selected rows; without one they stay in the order the pass found them. */
  method OrderIds(o: Order, rows: map<string, TaskRow>, ids: seq<string>) returns (sorted: seq<string>)
    requires forall id | id in ids :: id in rows
    ensures multiset(sorted) == multiset(ids)
    ensures forall id | id in sorted :: id in rows
    ensures InOrder(o, rows, sorted)
  {
    sorted := ids;
    if o.OrderBy? {
      var key := (id: string) => if id in rows then (if o.desc then -RowKey(o.column, rows[id]) else RowKey(o.column, rows[id])) else 0.0;
      sorted := Sorting.SortBy(ids, key);
      SameMembers(ids, sorted, rows.Keys);
      forall i, j | 0 <= i < j < |sorted|
        ensures if o.desc then RowKey(o.column, rows[sorted[i]]) >= RowKey(o.column, rows[sorted[j]])
                else RowKey(o.column, rows[sorted[i]]) <= RowKey(o.column, rows[sorted[j]])
      {
        assert key(sorted[i]) <= key(sorted[j]);
      }
    }
  }

  lemma SameMembers(a: seq<string>, b: seq<string>, keys: set<string>)
    requires multiset(a) == multiset(b) && forall x | x in a :: x in keys
    ensures forall x | x in b :: x in keys
  {
    forall x | x in b ensures x in keys {
      assert x in multiset(b);
    }
  }

  /** One more row visited: it joins the selection exactly when the query selects it. */
  lemma SelectedStep(q: TasksQuery, rows: map<string, TaskRow>, links: set<Link>, rest: set<string>, id: string)
    requires id in rest && rest <= rows.Keys
    ensures Matches(q, id, rows[id], links) ==>
      Selected(q, rows, links) - (rest - {id}) == (Selected(q, rows, links) - rest) + {id}
    ensures !Matches(q, id, rows[id], links) ==>
      Selected(q, rows, links) - (rest - {id}) == Selected(q, rows, links) - rest
  {
  }

  /** A sequence counting a set, extended by an element outside it, counts the set with that element. */
  lemma CountAddOne(ids: seq<string>, done: set<string>, id: string)
    requires multiset(ids) == multiset(done) && id !in done
    ensures multiset(ids + [id]) == multiset(done + {id})
  {
    assert multiset(done + {id}) == multiset(done) + multiset{id};
  }

  /** A sequence counting a set of stored ids holds only stored ids. */
  lemma CountedAreStored(ids: seq<string>, done: set<string>, keys: set<string>)
    requires multiset(ids) == multiset(done) && done <= keys
    ensures forall id | id in ids :: id in keys
  {
    forall id | id in ids ensures id in keys {
      assert id in multiset(done);
    }
  }

  /** The engine's pass over the tasks table: each row the compiled WHERE clause accepts, once. */
  method SelectIds(q: TasksQuery, args: seq<SqlArg>, rows: map<string, TaskRow>, links: set<Link>) returns (ids: seq<string>)
    requires args == ArgsOf(q)
    ensures multiset(ids) == multiset(Selected(q, rows, links))
    ensures forall id | id in ids :: id in rows
  {
    ghost var sel := Selected(q, rows, links);
    var rest := rows.Keys;
    ids := [];
    while rest != {}
      invariant rest <= rows.Keys
      invariant multiset(ids) == multiset(sel - rest)
      decreases |rest|
    {
      var id :| id in rest;
      var keep := EvalWhere(ClausesOf(q), args, id, rows[id], links);
      CompiledQueryMeaning(q, id, rows[id], links);
      SelectedStep(q, rows, links, rest, id);
      if keep {
        CountAddOne(ids, sel - rest, id);
        ids := ids + [id];
      }
      rest := rest - {id};
    }
    assert sel - rest == sel;
    CountedAreStored(ids, sel, rows.Keys);
  }
}
