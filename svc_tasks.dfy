// The task service: the listing with its in-memory filter and sort, and the update, flip, save
// and delete operations the handlers call (services/tasksService.go).
module TasksService {
  import opened Wrappers
  import opened Strconv
  import opened Clock
  import opened Tasks
  import opened Settings
  import opened Sorting
  import opened DbCore
  import DbTasks

  /** The tasks table has the columns every task statement names. */
  predicate TasksReady(schema: Schema) {
    HasColumns(schema, TasksTable, TaskColumns)
  }

  /** The filter FindTasks applies when completed tasks are hidden. */
  predicate Incomplete(t: Task) { !IsCompleted(t) }

  /** Whether a task belongs in the listing. */
  predicate Shown(filterCompleted: bool, t: Task) { !filterCompleted || Incomplete(t) }

  /** The tasks the listing holds: every stored row as it reads, completed ones dropped when filtering. */
  function Listed(filterCompleted: bool, rows: map<string, TaskRow>): set<Task> {
    set id | id in rows && Shown(filterCompleted, DbTasks.ScanTask(id, rows[id])) :: DbTasks.ScanTask(id, rows[id])
  }

  /** A task is listed exactly when it is a stored row as it reads and it passes the filter. */
  lemma ListedMeaning(filterCompleted: bool, rows: map<string, TaskRow>, t: Task)
    ensures t in Listed(filterCompleted, rows) <==>
      t.id in rows && t == DbTasks.ScanTask(t.id, rows[t.id]) && (filterCompleted ==> !IsCompleted(t))
  {
    if t.id in rows && t == DbTasks.ScanTask(t.id, rows[t.id]) && (filterCompleted ==> !IsCompleted(t)) {
      assert Shown(filterCompleted, DbTasks.ScanTask(t.id, rows[t.id]));
    }
  }

  /**
   * The sort key of the comparator passed to slices.SortFunc: Completed, Created or Priority,
   * negated for Desc so that ascending keys mean descending values; any other column orders by
   * Created, newest first. Times compare as Unix seconds.
   */
  function SortValue(sort: GoInt, dir: GoInt, t: Task): real {
    var v: int :=
      if sort == ColumnCompleted then t.completed
      else if sort == ColumnCreated then t.created
      else if sort == ColumnPriority then t.priority
      else t.created;
    var descending := (sort in {ColumnCompleted, ColumnCreated, ColumnPriority} && dir == Desc)
      || sort !in {ColumnCompleted, ColumnCreated, ColumnPriority};
    if descending then -(v as real) else v as real
  }

  function OrderKey(sort: GoInt, dir: GoInt): Task -> real {
    t => SortValue(sort, dir, t)
  }

  /** What being in OrderKey order means for each column and direction. */
  lemma OrderMeaning(s: seq<Task>, sort: GoInt, dir: GoInt, i: int, j: int)
    requires SortedBy(s, OrderKey(sort, dir)) && 0 <= i < j < |s|
    ensures sort == ColumnCompleted && dir == Desc ==> s[i].completed >= s[j].completed
    ensures sort == ColumnCompleted && dir != Desc ==> s[i].completed <= s[j].completed
    ensures sort == ColumnCreated && dir == Desc ==> s[i].created >= s[j].created
    ensures sort == ColumnCreated && dir != Desc ==> s[i].created <= s[j].created
    ensures sort == ColumnPriority && dir == Desc ==> s[i].priority >= s[j].priority
    ensures sort == ColumnPriority && dir != Desc ==> s[i].priority <= s[j].priority
    ensures sort !in {ColumnCompleted, ColumnCreated, ColumnPriority} ==> s[i].created >= s[j].created
  {
    assert OrderKey(sort, dir)(s[i]) <= OrderKey(sort, dir)(s[j]);
  }

  /** The list after the filter step. */
  function Kept(cards: seq<Task>, filterCompleted: bool): seq<Task> {
    if filterCompleted then Filter(cards, Incomplete) else cards
  }

  /** In a list of stored rows as they read, a task occurs as often as its id does, if it is its row's reading. */
  lemma {:induction false} CountById(cards: seq<Task>, rows: map<string, TaskRow>, t: Task)
    requires forall u | u in cards :: u.id in rows && u == DbTasks.ScanTask(u.id, rows[u.id])
    ensures multiset(cards)[t] ==
      if t.id in rows && t == DbTasks.ScanTask(t.id, rows[t.id]) then multiset(DbTasks.Ids(cards))[t.id] else 0
  {
    if cards != [] {
      var init, last := cards[..|cards| - 1], cards[|cards| - 1];
      assert cards == init + [last];
      assert forall u | u in init :: u in cards;
      CountById(init, rows, t);
      assert DbTasks.Ids(cards) == DbTasks.Ids(init) + [last.id];
    }
  }

  /** Filtering all stored tasks gives, as a multiset, exactly the listed set. */
  lemma ListedTasks(cards: seq<Task>, rows: map<string, TaskRow>, filterCompleted: bool)
    requires multiset(DbTasks.Ids(cards)) == multiset(rows.Keys)
    requires forall t | t in cards :: t.id in rows && t == DbTasks.ScanTask(t.id, rows[t.id])
    ensures multiset(Kept(cards, filterCompleted)) == multiset(Listed(filterCompleted, rows))
  {
    forall t ensures multiset(Kept(cards, filterCompleted))[t] == multiset(Listed(filterCompleted, rows))[t] {
      CountById(cards, rows, t);
      ListedMeaning(filterCompleted, rows, t);
      if filterCompleted {
        FilterMultiset(cards, Incomplete);
      }
    }
  }

  /**
   * FindTasks: all tasks, completed ones dropped in place when filtering, then sorted in place by
   * the chosen column and direction. The result holds each listed task once.
   */
  method FindTasks(d: Database, filterCompleted: bool, sort: GoInt, dir: GoInt) returns (r: Result<seq<Task>, DbError>)
    ensures !TasksReady(d.schema) ==> r == Err(SchemaError(TasksTable))
    ensures TasksReady(d.schema) ==>
      r.Ok? && multiset(r.value) == multiset(Listed(filterCompleted, d.tasks)) && SortedBy(r.value, OrderKey(sort, dir))
  {
    var all := DbTasks.AllTasks(d);
    if all.Err? {
      return Err(all.error);
    }
    var cards := all.value;
    var a := new Task[|cards|](i requires 0 <= i < |cards| => cards[i]);
    assert a[..] == cards;
    var n := a.Length;
    if filterCompleted {
      n := FilterInPlace(a, Incomplete);
    }
    assert a[..n] == Kept(cards, filterCompleted);
    SortInPlace(a, n, OrderKey(sort, dir));
    ListedTasks(cards, d.tasks, filterCompleted);
    return Ok(a[..n]);
  }

  /** DeleteTask: the store's delete, its error returned unchanged. */
  method DeleteTask(d: Database, taskId: string) returns (r: Outcome<DbError>)
    requires d.Valid()
    modifies d`tasks, d`tasksTags
    ensures d.Valid()
    ensures r.Pass? <==>
      HasColumns(d.schema, TasksTagsTable, TasksTagsColumns) && TasksReady(d.schema) && taskId in old(d.tasks)
    ensures r.Fail? && HasColumns(d.schema, TasksTagsTable, TasksTagsColumns) && TasksReady(d.schema) ==> r.error == NotFound
    ensures r.Pass? ==> d.tasks == old(d.tasks) - {taskId} && d.tasksTags == set l | l in old(d.tasksTags) && l.0 != taskId
    ensures r.Fail? ==> d.tasks == old(d.tasks) && d.tasksTags == old(d.tasksTags)
  {
    r := DbTasks.DeleteTask(d, taskId);
  }

  /** DeleteAllTasks: the store's delete of every task row, its error returned unchanged. */
  method DeleteAllTasks(d: Database) returns (r: Outcome<DbError>)
    requires d.Valid()
    modifies d`tasks
    ensures d.Valid()
    ensures r.Pass? <==> TasksReady(d.schema) && d.tasksTags == {}
    ensures d.tasks == if r.Pass? then map[] else old(d.tasks)
  {
    r := DbTasks.DeleteAllTasks(d);
  }

  /** SaveTask: the store's upsert, its error returned unchanged. */
  method SaveTask(d: Database, t: Task) returns (r: Outcome<DbError>)
    requires d.Valid()
    modifies d`tasks
    ensures d.Valid()
    ensures r == if TasksReady(d.schema) then Pass else Fail(SchemaError(TasksTable))
    ensures d.tasks == if r.Pass? then old(d.tasks)[t.id := DbTasks.EncodeTask(t)] else old(d.tasks)
  {
    r := DbTasks.SaveTask(d, t);
  }

  /** The row UpdateTask writes over a stored row: the stored task as it reads, updated by the change. */
  function UpdatedRow(id: string, row: TaskRow, c: Task, now: Time): (r: TaskRow)
    ensures r.created == row.created && r.updated == now
    ensures (r.completed != NotCompleted) == IsCompleted(c)
  {
    DbTasks.EncodeTask(Update(DbTasks.ScanTask(id, row), c, now))
  }

  /** Updating a task with the same change a second time leaves its row as the first update wrote it. */
  lemma UpdatedRowIdempotent(id: string, row: TaskRow, c: Task, now: Time)
    ensures UpdatedRow(id, UpdatedRow(id, row, c, now), c, now) == UpdatedRow(id, row, c, now)
  {
    var u := Update(DbTasks.ScanTask(id, row), c, now);
    DbTasks.ScanEncodeTask(u);
    assert DbTasks.ScanTask(id, DbTasks.EncodeTask(u)) == u.(tags := []);
    assert Update(u.(tags := []), c, now) == Update(u, c, now);
    UpdateIdempotent(DbTasks.ScanTask(id, row), c, now);
  }

  /** UpdateTask: a task that cannot be found is not saved; otherwise the found task, updated, is. */
  method UpdateTask(d: Database, c: Task, now: Time) returns (r: Outcome<DbError>)
    requires d.Valid()
    modifies d`tasks
    ensures d.Valid()
    ensures !TasksReady(d.schema) ==> r == Fail(SchemaError(TasksTable))
    ensures TasksReady(d.schema) ==> r == if c.id in old(d.tasks) then Pass else Fail(NotFound)
    ensures d.tasks == if r.Pass? then old(d.tasks)[c.id := UpdatedRow(c.id, old(d.tasks)[c.id], c, now)] else old(d.tasks)
  {
    var found := DbTasks.FindTask(d, c.id);
    if found.Err? {
      return Fail(found.error);
    }
    var card := Update(found.value, c, now);
    r := DbTasks.SaveTask(d, card);
  }

  /** The task FlipTask saves: completed now when it was not completed, not completed otherwise. */
  function Flipped(t: Task, now: Time): (r: Task)
    ensures now != NotCompleted ==> (IsCompleted(r) <==> !IsCompleted(t))
    ensures IsCompleted(t) ==> r.completed == NotCompleted
    ensures r.updated == now && r.(completed := t.completed, updated := t.updated) == t
  {
    if t.completed == NotCompleted then Complete(t, now) else Uncomplete(t, now)
  }

  /** Flipping a not completed task twice gives it back, touched at the second time. */
  lemma FlipTwice(t: Task, now: Time, later: Time)
    requires !IsCompleted(t) && now != NotCompleted
    ensures Flipped(Flipped(t, now), later) == t.(updated := later)
  {
  }

  /** FlipTask: saves the task with its completion toggled; a failed save leaves the store as it was. */
  method FlipTask(d: Database, card: Task, now: Time) returns (r: Outcome<DbError>)
    requires d.Valid()
    modifies d`tasks
    ensures d.Valid()
    ensures r == if TasksReady(d.schema) then Pass else Fail(SchemaError(TasksTable))
    ensures d.tasks == if r.Pass? then old(d.tasks)[card.id := DbTasks.EncodeTask(Flipped(card, now))] else old(d.tasks)
  {
    var flipped := if card.completed == NotCompleted then Complete(card, now) else Uncomplete(card, now);
    r := DbTasks.SaveTask(d, flipped);
  }
}
