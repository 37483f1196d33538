// The SQLite store as a state machine: the schema (columns per table), the migration ledger,
// and the rows of the tasks, tags, TasksTags and settings tables.
module DbCore {
  import opened Wrappers
  import opened Strconv
  import opened Clock

  /** ErrNotFound, a failed constraint, a statement on a table or column that does not exist, unreadable stored text. */
  datatype DbError = NotFound | ConstraintFailed(constraint: string) | SchemaError(table: string) | Malformed(column: string)

  /** How an initialisation step ends: normally, or in a panic / log.Fatal that stops the program. */
  datatype Exit = Normal | Panic(reason: string)

  const TasksTable: string := "tasks"
  const SettingsTable: string := "settings"
  const MigrationTable: string := "migration"
  const TagsTable: string := "tags"
  const TasksTagsTable: string := "TasksTags"

  /** TASK_COLUMNS: what SaveTask writes and every task query reads. */
  const TaskColumns: seq<string> :=
    ["id", "title", "content", "created", "updated", "completed", "priority", "wip", "planned",
     "impact", "cost", "value", "fun"]
  /** The columns of the CREATE TABLE statement for tasks. */
  const TaskCreateColumns: seq<string> :=
    ["id", "title", "content", "created", "updated", "completed", "priority", "wip", "planned",
     "impact", "cost"]
  /** SETTINGS_COLUMNS of the current settings code. */
  const SettingsColumns: seq<string> :=
    ["id", "filter_completed", "filter_incompleted", "active_sort_column", "active_sort_direction",
     "completed_from", "completed_to", "filter_wip", "filter_non_wip", "planned", "non_planned",
     "tags", "search_text", "enable_limit", "limit_count"]
  /** The columns of the current CREATE TABLE statement for settings. */
  const SettingsCreateColumns: seq<string> :=
    ["id", "filter_completed", "filter_incompleted", "active_sort_column", "active_sort_direction",
     "completed_from", "completed_to", "filter_wip", "filter_non_wip", "planned", "non_planned"]
  /** SETTINGS_COLUMNS of the older seven-column settings code, also its CREATE TABLE columns. */
  const LegacySettingsColumns: seq<string> :=
    ["id", "filter_completed", "filter_incompleted", "active_sort_column", "active_sort_direction",
     "completed_from", "completed_to"]
  const MigrationColumns: seq<string> := ["id", "time"]
  const TagsColumns: seq<string> := ["id", "created"]
  const TasksTagsColumns: seq<string> := ["task_id", "tag_id"]

  /** A row of tasks without its key. Times are the instants the time columns hold; wip and planned the stored integers. */
  datatype TaskRow = TaskRow(
    title: string,
    content: string,
    created: Time,
    updated: Time,
    completed: Time,
    priority: GoInt,
    wip: int,
    planned: int,
    impact: GoInt,
    cost: GoInt,
    value: real,
    fun: GoInt)

  /** A row of settings without its key; dates and tags are kept as the text the columns hold. */
  datatype SettingsRow = SettingsRow(
    filterCompleted: bool,
    filterIncompleted: bool,
    activeSortColumn: GoInt,
    activeSortDirection: GoInt,
    completedFrom: string,
    completedTo: string,
    filterWip: bool,
    filterNonWip: bool,
    planned: bool,
    nonPlanned: bool,
    tags: string,
    searchText: string,
    enableLimit: bool,
    limitCount: GoInt)

  /** A TasksTags row: (task_id, tag_id). */
  type Link = (string, string)

  class Database {
    var schema: map<string, seq<string>>
    var ledger: set<string>
    var tasks: map<string, TaskRow>
    var tags: map<string, Time>
    var tasksTags: set<Link>
    var settings: map<string, SettingsRow>

    /** The foreign keys of TasksTags: every link names a stored task and a catalogued tag. */
    ghost predicate Valid()
      reads this
    {
      forall l :: l in tasksTags ==> l.0 in tasks && l.1 in tags
    }

    /** A new, empty database file. */
    constructor ()
      ensures schema == map[] && ledger == {} && tasks == map[] && tags == map[]
      ensures tasksTags == {} && settings == map[]
      ensures Valid()
    {
      schema := map[];
      ledger := {};
      tasks := map[];
      tags := map[];
      tasksTags := {};
      settings := map[];
    }
  }

  /** The columns of each table, in the order they were created and added. */
  type Schema = map<string, seq<string>>

  /** A statement can name these columns of the table. */
  predicate HasColumns(schema: map<string, seq<string>>, table: string, columns: seq<string>) {
    table in schema && forall c :: c in columns ==> c in schema[table]
  }

  /** The schema after CREATE TABLE IF NOT EXISTS: an existing table, and so its rows, stays as it is. */
  function TableCreated(schema: Schema, table: string, columns: seq<string>): (r: Schema)
    ensures table in r && r.Keys == schema.Keys + {table}
    ensures table in schema ==> r == schema
    ensures table !in schema ==> r[table] == columns
  {
    if table in schema then schema else schema[table := columns]
  }

  /** CREATE TABLE IF NOT EXISTS */
  method CreateTableIfNotExists(d: Database, table: string, columns: seq<string>)
    modifies d`schema
    ensures d.schema == TableCreated(old(d.schema), table, columns)
  {
    if table !in d.schema {
      d.schema := d.schema[table := columns];
    }
  }

  /** The errors SQLite reports for the statements of the migrations, each ending in a panic. */
  const NoSuchTable: string := "no such table"
  const DuplicateColumn: string := "duplicate column name"
  const UniqueViolation: string := "UNIQUE constraint failed"

  /** ALTER TABLE ... ADD COLUMN: fails on a missing table or an existing column, and the caller panics. */
  method AddColumn(d: Database, table: string, column: string) returns (e: Exit)
    modifies d`schema
    ensures e == if table !in old(d.schema) then Panic(NoSuchTable)
                 else if column in old(d.schema)[table] then Panic(DuplicateColumn) else Normal
    ensures e.Normal? ==> d.schema == old(d.schema)[table := old(d.schema)[table] + [column]]
    ensures e.Panic? ==> d.schema == old(d.schema)
  {
    if table !in d.schema {
      return Panic(NoSuchTable);
    }
    if column in d.schema[table] {
      return Panic(DuplicateColumn);
    }
    d.schema := d.schema[table := d.schema[table] + [column]];
    return Normal;
  }

  predicate ColumnIn(schema: Schema, table: string, column: string) {
    table in schema && column in schema[table]
  }

  /** The schema and ledger after an initialisation step, and how the step ended. */
  datatype Migrated = Migrated(schema: Schema, ledger: set<string>, exit: Exit)


  /**
   * One run of a column gate (a columnExists check, then ALTER TABLE when the column is missing):
   * afterwards the column is there, unless the table is missing and the program panics; no other
   * table changes and the ledger is not touched.
   */
  function Gate(schema: Schema, ledger: set<string>, table: string, column: string): (r: Migrated)
    ensures r.ledger == ledger && r.schema.Keys == schema.Keys
    ensures r.exit.Normal? <==> table in schema
    ensures r.exit.Normal? ==> ColumnIn(r.schema, table, column)
    ensures r.exit.Panic? ==> r.schema == schema
    ensures forall t | t in schema && t != table :: r.schema[t] == schema[t]
    ensures ColumnIn(schema, table, column) ==> r.schema == schema
    ensures table in schema && column !in schema[table] ==> r.schema[table] == schema[table] + [column]
  {
    if ColumnIn(schema, table, column) then Migrated(schema, ledger, Normal)
    else if table in schema then Migrated(schema[table := schema[table] + [column]], ledger, Normal)
    else Migrated(schema, ledger, Panic(NoSuchTable))
  }

  /** A gate that ends normally leaves nothing for a second run to do. */
  lemma GateIdempotent(schema: Schema, ledger: set<string>, table: string, column: string)
    ensures var m := Gate(schema, ledger, table, column);
      m.exit.Normal? ==> Gate(m.schema, m.ledger, table, column) == m
  {
  }

  /** The text SaveSettings writes for a date: the zero-date text for the zero time, the formatted day otherwise. */
  function DateText(t: Time): string {
    if IsZero(t) then ZeroDateText else FormatDate(t)
  }

  /** How FindSettings reads a date column: empty text counts as the zero date. */
  function DateFromText(text: string): Option<Time> {
    ParseDate(if text == "" then ZeroDateText else text)
  }

  /** Dates keep their day: midnights come back exactly, the zero time comes back as zero. */
  lemma DateRoundTrip(t: Time)
    ensures DateFromText(DateText(t)) == Some(Midnight(t))
    ensures DateFromText(DateText(NotCompleted)) == Some(NotCompleted)
    ensures DateFromText("") == Some(NotCompleted)
  {
    ParseFormatDate(t);
    ParseZeroDate();
  }

  /**
   * The row a settings insert produces for the columns it does not name: the defaults of the
   * ALTER TABLE migrations ('' for the text columns, 0 for the flags, 1 for enable_limit, 10 for
   * limit_count). filter_completed, active_sort_column and active_sort_direction have no
   * DEFAULT; every insert of the source names them, so their zeros here are never read.
   */
  const DefaultSettingsRow: SettingsRow :=
    SettingsRow(false, false, 0, 0, ZeroDateText, ZeroDateText, false, false, false, false, "", "", true, 10)
}
