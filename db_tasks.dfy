// The tasks table: its creation and column migrations, the row codec, reads, the upsert and the
// deletes with their TasksTags cascade (db/dbtasks.go, FindTasks apart).
module DbTasks {
  import opened Wrappers
  import opened Clock
  import opened Tasks
  import opened DbCore
  import opened DbMigration
  import opened DbSQLite
  import opened DbTags
  import Sorting

  const ValueMigrationId: string := "task_table_add_value_column"

  /** The columns initTasks leaves on a store that had no tasks table: the created ones, then value and fun. */
  const FreshTaskColumns: seq<string> := TaskCreateColumns + ["value", "fun"]

  /** addTasksWipColumn */
  method AddTasksWipColumn(d: Database) returns (e: Exit)
    modifies d`schema
    ensures Migrated(d.schema, d.ledger, e) == Gate(old(d.schema), d.ledger, TasksTable, "wip")
  {
    e := ColumnGate(d, TasksTable, "wip");
  }

  /** addTasksPlannedColumn */
  method AddTasksPlannedColumn(d: Database) returns (e: Exit)
    modifies d`schema
    ensures Migrated(d.schema, d.ledger, e) == Gate(old(d.schema), d.ledger, TasksTable, "planned")
  {
    e := ColumnGate(d, TasksTable, "planned");
  }

  /** addTasksImpactColumn */
  method AddTasksImpactColumn(d: Database) returns (e: Exit)
    modifies d`schema
    ensures Migrated(d.schema, d.ledger, e) == Gate(old(d.schema), d.ledger, TasksTable, "impact")
  {
    e := ColumnGate(d, TasksTable, "impact");
  }

  /** addTasksCostColumn */
  method AddTasksCostColumn(d: Database) returns (e: Exit)
    modifies d`schema
    ensures Migrated(d.schema, d.ledger, e) == Gate(old(d.schema), d.ledger, TasksTable, "cost")
  {
    e := ColumnGate(d, TasksTable, "cost");
  }

  /** addTasksFunColumn */
  method AddTasksFunColumn(d: Database) returns (e: Exit)
    modifies d`schema
    ensures Migrated(d.schema, d.ledger, e) == Gate(old(d.schema), d.ledger, TasksTable, "fun")
  {
    e := ColumnGate(d, TasksTable, "fun");
  }

  /** addValueColumn: the one task column behind a ledger id rather than columnExists. */
  method AddValueColumn(d: Database) returns (e: Exit)
    modifies d`schema, d`ledger
    ensures Migrated(d.schema, d.ledger, e) == LedgerGate(old(d.schema), old(d.ledger), ValueMigrationId, TasksTable, "value")
  {
    e := LedgerGatedAddColumn(d, ValueMigrationId, TasksTable, "value");
  }

  /** The gates of initTasks after its CREATE TABLE, in order; the first panic stops the sequence. */
  function TaskGates(m: Migrated): (r: Migrated)
    requires m.exit.Normal?
  {
    var m1 := Gate(m.schema, m.ledger, TasksTable, "wip");
    if m1.exit.Panic? then m1 else
    var m2 := Gate(m1.schema, m1.ledger, TasksTable, "planned");
    if m2.exit.Panic? then m2 else
    var m3 := Gate(m2.schema, m2.ledger, TasksTable, "impact");
    if m3.exit.Panic? then m3 else
    var m4 := Gate(m3.schema, m3.ledger, TasksTable, "cost");
    if m4.exit.Panic? then m4 else
    var m5 := LedgerGate(m4.schema, m4.ledger, ValueMigrationId, TasksTable, "value");
    if m5.exit.Panic? then m5 else
    Gate(m5.schema, m5.ledger, TasksTable, "fun")
  }

  /** What initTasks does to the schema and the ledger. */
  function InitTasksEffect(schema: Schema, ledger: set<string>): Migrated {
    TaskGates(Migrated(TableCreated(schema, TasksTable, TaskCreateColumns), ledger, Normal))
  }

  /** Which columns the CREATE TABLE statement already has and which the migrations add. */
  lemma TaskColumnFacts()
    ensures TasksTable != MigrationTable
    ensures forall c :: c in ["wip", "planned", "impact", "cost"] ==> c in TaskCreateColumns
    ensures "value" !in TaskCreateColumns && "fun" !in TaskCreateColumns + ["value"]
    ensures TaskCreateColumns + ["value"] + ["fun"] == FreshTaskColumns
    ensures forall c :: c in TaskColumns ==> c in FreshTaskColumns
  {
  }

  /** On a store with a ledger and no tasks table, initTasks builds the full table and records the value migration. */
  lemma InitTasksOnNewStore(schema: Schema, ledger: set<string>)
    requires HasColumns(schema, MigrationTable, MigrationColumns) && TasksTable !in schema
    requires ValueMigrationId !in ledger
    ensures InitTasksEffect(schema, ledger) == Migrated(schema[TasksTable := FreshTaskColumns], ledger + {ValueMigrationId}, Normal)
    ensures HasColumns(InitTasksEffect(schema, ledger).schema, TasksTable, TaskColumns)
  {
    TaskColumnFacts();
    var s1 := TableCreated(schema, TasksTable, TaskCreateColumns);
    assert s1 == schema[TasksTable := TaskCreateColumns];
    var m4 := Gate(s1, ledger, TasksTable, "cost");
    assert m4.schema == s1;
    var m5 := LedgerGate(s1, ledger, ValueMigrationId, TasksTable, "value");
    assert m5.schema == schema[TasksTable := TaskCreateColumns + ["value"]];
    assert HasColumns(m5.schema, MigrationTable, MigrationColumns);
  }

  /** On a store it has already initialised, initTasks changes nothing. */
  lemma InitTasksSettled(schema: Schema, ledger: set<string>)
    requires HasColumns(schema, MigrationTable, ["id"]) && HasColumns(schema, TasksTable, TaskColumns)
    requires ValueMigrationId in ledger
    ensures InitTasksEffect(schema, ledger) == Migrated(schema, ledger, Normal)
  {
  }

  /** initTasks twice does what it does once. */
  lemma InitTasksIdempotent(schema: Schema, ledger: set<string>)
    requires HasColumns(schema, MigrationTable, MigrationColumns) && TasksTable !in schema
    requires ValueMigrationId !in ledger
    ensures var m := InitTasksEffect(schema, ledger); InitTasksEffect(m.schema, m.ledger) == m
  {
    InitTasksOnNewStore(schema, ledger);
    var m := InitTasksEffect(schema, ledger);
    TaskColumnFacts();
    assert HasColumns(m.schema, MigrationTable, ["id"]);
    InitTasksSettled(m.schema, m.ledger);
  }

  /** Without a ledger table, initTasks panics. */
  lemma InitTasksNeedsLedger(schema: Schema, ledger: set<string>)
    requires !HasColumns(schema, MigrationTable, ["id"])
    ensures InitTasksEffect(schema, ledger).exit.Panic?
  {
    TaskColumnFacts();
  }

  /** initTasks: CREATE TABLE IF NOT EXISTS, then the gates in the order wip, planned, impact, cost, value, fun. */
  method InitTasks(d: Database) returns (e: Exit)
    modifies d`schema, d`ledger
    ensures Migrated(d.schema, d.ledger, e) == InitTasksEffect(old(d.schema), old(d.ledger))
  {
    CreateTableIfNotExists(d, TasksTable, TaskCreateColumns);
    e := AddTasksWipColumn(d);
    if e.Panic? { return; }
    e := AddTasksPlannedColumn(d);
    if e.Panic? { return; }
    e := AddTasksImpactColumn(d);
    if e.Panic? { return; }
    e := AddTasksCostColumn(d);
    if e.Panic? { return; }
    e := AddValueColumn(d);
    if e.Panic? { return; }
    e := AddTasksFunColumn(d);
  }

  /** The integer SQLite stores for a Go bool. */
  function BoolInt(b: bool): int { if b then 1 else 0 }

  /** The row SaveTask writes: every column but id, flags as 0/1; the tags live in TasksTags. */
  function EncodeTask(t: Task): TaskRow {
    TaskRow(t.title, t.content, t.created, t.updated, t.completed, t.priority,
            BoolInt(t.wip), BoolInt(t.planned), t.impact, t.cost, t.value, t.fun)
  }

  /** scanNextTask: a flag is set exactly when its column holds 1; tags are not read. */
  function ScanTask(id: string, row: TaskRow): (t: Task)
    ensures t.id == id && t.tags == []
  {
    Task(id, row.title, row.content, row.created, row.updated, row.completed, row.priority,
         row.wip == 1, row.planned == 1, row.impact, row.cost, row.fun, row.value, [])
  }

  /** A saved task reads back as itself, without its tags. */
  lemma ScanEncodeTask(t: Task)
    ensures ScanTask(t.id, EncodeTask(t)) == t.(tags := [])
  {
  }

  /** A row whose flags hold 0 or 1 is what saving its scan writes; any other flag value reads as false. */
  lemma EncodeScanTask(id: string, row: TaskRow)
    ensures row.wip in {0, 1} && row.planned in {0, 1} ==> EncodeTask(ScanTask(id, row)) == row
    ensures row.wip !in {0, 1} ==> !ScanTask(id, row).wip
  {
  }

  /** The ids of a list of tasks, in order. */
  function Ids(ts: seq<Task>): (r: seq<string>)
    ensures |r| == |ts| && forall i :: 0 <= i < |ts| ==> r[i] == ts[i].id
  {
    if ts == [] then [] else Ids(ts[..|ts| - 1]) + [ts[|ts| - 1].id]
  }

  /** scanNextTask over the rows of a result set, in their order. */
  function ScanAll(ids: seq<string>, rows: map<string, TaskRow>): (r: seq<Task>)
    requires forall id | id in ids :: id in rows
    ensures Ids(r) == ids && forall i | 0 <= i < |ids| :: r[i] == ScanTask(ids[i], rows[ids[i]])
  {
    if ids == [] then []
    else ScanAll(ids[..|ids| - 1], rows) + [ScanTask(ids[|ids| - 1], rows[ids[|ids| - 1]])]
  }

  /** AllTasks: every stored task once, each as its row reads, in no promised order. */
  method AllTasks(d: Database) returns (r: Result<seq<Task>, DbError>)
    ensures !HasColumns(d.schema, TasksTable, TaskColumns) ==> r == Err(SchemaError(TasksTable))
    ensures HasColumns(d.schema, TasksTable, TaskColumns) ==>
      r.Ok? && multiset(Ids(r.value)) == multiset(d.tasks.Keys)
      && (forall t | t in r.value :: t.id in d.tasks && t == ScanTask(t.id, d.tasks[t.id]))
  {
    if !HasColumns(d.schema, TasksTable, TaskColumns) {
      return Err(SchemaError(TasksTable));
    }
    var ids := Sorting.Enumerate(d.tasks.Keys);
    forall id | id in ids ensures id in d.tasks {
      assert id in multiset(ids);
    }
    return Ok(ScanAll(ids, d.tasks));
  }

  /** FindTask: the task as its row reads, or ErrNotFound. */
  method FindTask(d: Database, taskId: string) returns (r: Result<Task, DbError>)
    ensures !HasColumns(d.schema, TasksTable, TaskColumns) ==> r == Err(SchemaError(TasksTable))
    ensures HasColumns(d.schema, TasksTable, TaskColumns) ==>
      r == if taskId in d.tasks then Ok(ScanTask(taskId, d.tasks[taskId])) else Err(NotFound)
  {
    if !HasColumns(d.schema, TasksTable, TaskColumns) {
      return Err(SchemaError(TasksTable));
    }
    if taskId !in d.tasks {
      return Err(NotFound);
    }
    return Ok(ScanTask(taskId, d.tasks[taskId]));
  }

  /** SaveTask: an upsert keyed by id that writes all twelve other columns; no other row changes. */
  method SaveTask(d: Database, t: Task) returns (r: Outcome<DbError>)
    requires d.Valid()
    modifies d`tasks
    ensures d.Valid()
    ensures r.Pass? <==> HasColumns(d.schema, TasksTable, TaskColumns)
    ensures r.Fail? ==> r.error == SchemaError(TasksTable)
    ensures d.tasks == if r.Pass? then old(d.tasks)[t.id := EncodeTask(t)] else old(d.tasks)
  {
    if !HasColumns(d.schema, TasksTable, TaskColumns) {
      return Fail(SchemaError(TasksTable));
    }
    d.tasks := d.tasks[t.id := EncodeTask(t)];
    return Pass;
  }

  /**
   * DeleteTask: in one transaction, the task's TasksTags rows and then its row. When there is no
   * such task the transaction rolls back, so its associations stay, and the result is ErrNotFound.
   */
  method DeleteTask(d: Database, taskId: string) returns (r: Outcome<DbError>)
    requires d.Valid()
    modifies d`tasks, d`tasksTags
    ensures d.Valid()
    ensures !HasColumns(d.schema, TasksTagsTable, TasksTagsColumns) ==> r == Fail(SchemaError(TasksTagsTable))
    ensures HasColumns(d.schema, TasksTagsTable, TasksTagsColumns) && !HasColumns(d.schema, TasksTable, TaskColumns) ==>
      r == Fail(SchemaError(TasksTable))
    ensures (HasColumns(d.schema, TasksTagsTable, TasksTagsColumns) && HasColumns(d.schema, TasksTable, TaskColumns)
             && taskId !in old(d.tasks)) ==> r == Fail(NotFound)
    ensures r.Pass? <==>
      (HasColumns(d.schema, TasksTagsTable, TasksTagsColumns) && HasColumns(d.schema, TasksTable, TaskColumns) && taskId in old(d.tasks))
    ensures r.Pass? ==> d.tasks == old(d.tasks) - {taskId} && d.tasksTags == set l | l in old(d.tasksTags) && l.0 != taskId
    ensures r.Fail? ==> d.tasks == old(d.tasks) && d.tasksTags == old(d.tasksTags)
  {
    var savedLinks := d.tasksTags;
    r := DeleteAllTagsFromTask(d, taskId);
    if r.Fail? {
      d.tasksTags := savedLinks;
      return;
    }
    if !HasColumns(d.schema, TasksTable, TaskColumns) {
      d.tasksTags := savedLinks;
      return Fail(SchemaError(TasksTable));
    }
    if taskId !in d.tasks {
      d.tasksTags := savedLinks;
      return Fail(NotFound);
    }
    d.tasks := d.tasks - {taskId};
    return Pass;
  }

  /**
   * DeleteAllTasks: DELETE FROM tasks, which never touches TasksTags; with the foreign keys of
   * TasksTags enforced, the statement fails while any task still has a tag.
   */
  method DeleteAllTasks(d: Database) returns (r: Outcome<DbError>)
    requires d.Valid()
    modifies d`tasks
    ensures d.Valid()
    ensures !HasColumns(d.schema, TasksTable, TaskColumns) ==> r == Fail(SchemaError(TasksTable))
    ensures r.Pass? <==> HasColumns(d.schema, TasksTable, TaskColumns) && d.tasksTags == {}
    ensures d.tasks == if r.Pass? then map[] else old(d.tasks)
  {
    if !HasColumns(d.schema, TasksTable, TaskColumns) {
      return Fail(SchemaError(TasksTable));
    }
    if d.tasksTags != {} {
      return Fail(ConstraintFailed("FOREIGN KEY constraint failed"));
    }
    d.tasks := map[];
    return Pass;
  }
}
