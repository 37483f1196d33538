// The service-level one-shot migration: every task is saved once more, behind the ledger id
// "update_task_value" (services/migration.go).
module ServiceMigration {
  import opened Tasks
  import opened DbCore
  import opened DbMigration
  import DbTasks
  import TasksService

  const TaskValueMigrationId: string := "update_task_value"

  /** What saving a row's task again writes: the row as it reads, encoded afresh. */
  function Resave(id: string, row: TaskRow): TaskRow {
    DbTasks.EncodeTask(DbTasks.ScanTask(id, row))
  }

  /** Every stored task saved again. */
  function Resaved(rows: map<string, TaskRow>): (r: map<string, TaskRow>)
    ensures r.Keys == rows.Keys
  {
    map id | id in rows :: Resave(id, rows[id])
  }

  /** Saving every task again changes no task as it reads. */
  lemma ResavedReadsTheSame(rows: map<string, TaskRow>, id: string)
    requires id in rows
    ensures DbTasks.ScanTask(id, Resaved(rows)[id]) == DbTasks.ScanTask(id, rows[id])
  {
    DbTasks.ScanEncodeTask(DbTasks.ScanTask(id, rows[id]));
  }

  /** A row whose flags are stored as 0 or 1 is rewritten as it was. */
  lemma ResavedKeepsCanonicalRows(rows: map<string, TaskRow>)
    requires forall id | id in rows :: rows[id].wip in {0, 1} && rows[id].planned in {0, 1}
    ensures Resaved(rows) == rows
  {
    forall id | id in rows ensures Resave(id, rows[id]) == rows[id] {
      DbTasks.EncodeScanTask(id, rows[id]);
    }
  }

  /** A second pass over the resaved tasks would change nothing. */
  lemma ResavedIdempotent(rows: map<string, TaskRow>)
    ensures Resaved(Resaved(rows)) == Resaved(rows)
  {
    forall id | id in rows ensures Resave(id, Resave(id, rows[id])) == Resave(id, rows[id]) {
      DbTasks.ScanEncodeTask(DbTasks.ScanTask(id, rows[id]));
    }
  }

  /** The ids of the first i tasks of a list. */
  function Done(ts: seq<Task>, i: nat): set<string>
    requires i <= |ts|
  {
    set j | 0 <= j < i :: ts[j].id
  }

  /** A list holding every stored id reaches every row. */
  lemma DoneCoversAll(ts: seq<Task>, rows: map<string, TaskRow>)
    requires multiset(DbTasks.Ids(ts)) == multiset(rows.Keys)
    ensures Done(ts, |ts|) == rows.Keys
  {
    DoneIsIds(ts);
    SameElements(DbTasks.Ids(ts), rows.Keys);
  }

  /** The ids done after the whole list are the elements of its id list. */
  lemma DoneIsIds(ts: seq<Task>)
    ensures forall k :: k in Done(ts, |ts|) <==> k in DbTasks.Ids(ts)
  {
    var ids := DbTasks.Ids(ts);
    forall k ensures k in Done(ts, |ts|) <==> k in ids {
      if k in ids {
        var j :| 0 <= j < |ids| && ids[j] == k;
        assert ts[j].id == k;
      }
      if k in Done(ts, |ts|) {
        var j :| 0 <= j < |ts| && ts[j].id == k;
        assert ids[j] == k;
      }
    }
  }

  /** A sequence and a set with the same multiset have the same elements. */
  lemma SameElements(a: seq<string>, b: set<string>)
    requires multiset(a) == multiset(b)
    ensures forall k :: k in a <==> k in b
  {
    forall k ensures k in a <==> k in b {
      assert (k in a) == (k in multiset(a));
      assert (k in b) == (k in multiset(b));
    }
  }

  /** One more task saved: its row now holds its resave, the others are as before. */
  lemma ResaveStep(cur: map<string, TaskRow>, rows0: map<string, TaskRow>, ts: seq<Task>, i: nat)
    requires i < |ts| && ts[i].id in rows0 && ts[i] == DbTasks.ScanTask(ts[i].id, rows0[ts[i].id])
    requires cur.Keys == rows0.Keys
    requires forall k | k in cur :: cur[k] == if k in Done(ts, i) then Resave(k, rows0[k]) else rows0[k]
    ensures cur[ts[i].id := DbTasks.EncodeTask(ts[i])].Keys == rows0.Keys
    ensures forall k | k in cur[ts[i].id := DbTasks.EncodeTask(ts[i])] ::
      cur[ts[i].id := DbTasks.EncodeTask(ts[i])][k] == if k in Done(ts, i + 1) then Resave(k, rows0[k]) else rows0[k]
  {
    assert Done(ts, i + 1) == Done(ts, i) + {ts[i].id};
  }

  /** Once every listed id is done, the rows are the resaved ones. */
  lemma ResaveDone(cur: map<string, TaskRow>, rows0: map<string, TaskRow>, ts: seq<Task>)
    requires multiset(DbTasks.Ids(ts)) == multiset(rows0.Keys)
    requires cur.Keys == rows0.Keys
    requires forall k | k in cur :: cur[k] == if k in Done(ts, |ts|) then Resave(k, rows0[k]) else rows0[k]
    ensures cur == Resaved(rows0)
  {
    DoneCoversAll(ts, rows0);
  }

  /** The loop of migrationTaskValue: every task of the list saved again, save results ignored. */
  method ResaveAll(d: Database, ts: seq<Task>)
    requires d.Valid() && TasksService.TasksReady(d.schema)
    requires multiset(DbTasks.Ids(ts)) == multiset(d.tasks.Keys)
    requires forall t | t in ts :: t.id in d.tasks && t == DbTasks.ScanTask(t.id, d.tasks[t.id])
    modifies d`tasks
    ensures d.Valid() && d.tasks == Resaved(old(d.tasks))
  {
    ghost var rows0 := d.tasks;
    var i := 0;
    while i < |ts|
      invariant 0 <= i <= |ts|
      invariant d.Valid()
      invariant d.tasks.Keys == rows0.Keys
      invariant forall k | k in d.tasks :: d.tasks[k] == if k in Done(ts, i) then Resave(k, rows0[k]) else rows0[k]
    {
      assert ts[i] in ts;
      ResaveStep(d.tasks, rows0, ts, i);
      var saved := TasksService.SaveTask(d, ts[i]);
      i := i + 1;
    }
    ResaveDone(d.tasks, rows0, ts);
  }

  /**
   * migrationTaskValue: when the ledger lacks its id, every task Tasks() returns is saved again,
   * save errors ignored, and the id is recorded; a Tasks() failure panics before the record.
   */
  method MigrationTaskValue(d: Database) returns (e: Exit)
    requires d.Valid()
    modifies d`tasks, d`ledger
    ensures d.Valid()
    ensures !HasColumns(d.schema, MigrationTable, ["id"]) ==>
      e == Panic(NoSuchTable) && d.tasks == old(d.tasks) && d.ledger == old(d.ledger)
    ensures HasColumns(d.schema, MigrationTable, ["id"]) && TaskValueMigrationId in old(d.ledger) ==>
      e == Normal && d.tasks == old(d.tasks) && d.ledger == old(d.ledger)
    ensures HasColumns(d.schema, MigrationTable, ["id"]) && TaskValueMigrationId !in old(d.ledger) && !TasksService.TasksReady(d.schema) ==>
      e.Panic? && d.tasks == old(d.tasks) && d.ledger == old(d.ledger)
    ensures HasColumns(d.schema, MigrationTable, ["id"]) && TaskValueMigrationId !in old(d.ledger) && TasksService.TasksReady(d.schema) ==>
      d.tasks == Resaved(old(d.tasks)) &&
      e == (if HasColumns(d.schema, MigrationTable, MigrationColumns) then Normal else Panic(NoSuchTable)) &&
      d.ledger == (if e.Normal? then old(d.ledger) + {TaskValueMigrationId} else old(d.ledger))
  {
    var found;
    e, found := MigrationExists(d, TaskValueMigrationId);
    if e.Panic? || found {
      return;
    }
    e := ResaveAndRecord(d);
  }

  /** The body of migrationTaskValue once its id is known to be missing: Tasks(), the saves, the record. */
  method ResaveAndRecord(d: Database) returns (e: Exit)
    requires d.Valid() && HasColumns(d.schema, MigrationTable, ["id"]) && TaskValueMigrationId !in d.ledger
    modifies d`tasks, d`ledger
    ensures d.Valid()
    ensures !TasksService.TasksReady(d.schema) ==> e.Panic? && d.tasks == old(d.tasks) && d.ledger == old(d.ledger)
    ensures TasksService.TasksReady(d.schema) ==>
      d.tasks == Resaved(old(d.tasks)) &&
      e == (if HasColumns(d.schema, MigrationTable, MigrationColumns) then Normal else Panic(NoSuchTable)) &&
      d.ledger == (if e.Normal? then old(d.ledger) + {TaskValueMigrationId} else old(d.ledger))
  {
    var all := DbTasks.AllTasks(d);
    if all.Err? {
      return Panic(NoSuchTable);
    }
    ResaveAll(d, all.value);
    e := RecordMigration(d, TaskValueMigrationId);
  }

  /** Init of the services: the task-value migration. */
  method Init(d: Database) returns (e: Exit)
    requires d.Valid()
    modifies d`tasks, d`ledger
    ensures d.Valid()
    ensures TaskValueMigrationId in old(d.ledger) && HasColumns(d.schema, MigrationTable, ["id"]) ==>
      e == Normal && d.tasks == old(d.tasks) && d.ledger == old(d.ledger)
    ensures TaskValueMigrationId !in old(d.ledger) && HasColumns(d.schema, MigrationTable, MigrationColumns) && TasksService.TasksReady(d.schema) ==>
      e == Normal && d.tasks == Resaved(old(d.tasks)) && d.ledger == old(d.ledger) + {TaskValueMigrationId}
  {
    e := MigrationTaskValue(d);
  }

  /** Two runs of Init: only the first one saves; the second finds its id and changes nothing. */
  method InitTwice(d: Database) returns (first: Exit, second: Exit)
    requires d.Valid() && HasColumns(d.schema, MigrationTable, MigrationColumns) && TasksService.TasksReady(d.schema)
    modifies d`tasks, d`ledger
    ensures first == Normal && second == Normal
    ensures d.ledger == old(d.ledger) + {TaskValueMigrationId}
    ensures d.tasks == if TaskValueMigrationId in old(d.ledger) then old(d.tasks) else Resaved(old(d.tasks))
  {
    first := Init(d);
    ghost var between := d.tasks;
    second := Init(d);
    assert d.tasks == between;
  }
}
