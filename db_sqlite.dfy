// Schema introspection, the seven-column settings generation and its column gates (db/dbsqlite.go).
module DbSQLite {
  import opened Wrappers
  import opened Clock
  import opened Settings
  import opened DbCore

  /** columnExists: a scan of PRAGMA table_info, which lists no column for an unknown table. */
  method ColumnExists(d: Database, tableName: string, columnName: string) returns (b: bool)
    ensures b <==> ColumnIn(d.schema, tableName, columnName)
  {
    if tableName !in d.schema {
      return false;
    }
    var rows := d.schema[tableName];
    var i := 0;
    while i < |rows|
      invariant 0 <= i <= |rows|
      invariant columnName !in rows[..i]
    {
      if rows[i] == columnName {
        return true;
      }
      i := i + 1;
    }
    assert rows[..i] == rows;
    return false;
  }

  /** The shape of every columnExists gate: ALTER TABLE ... ADD COLUMN only when the column is missing; a failure panics. */
  method ColumnGate(d: Database, table: string, column: string) returns (e: Exit)
    modifies d`schema
    ensures Migrated(d.schema, d.ledger, e) == Gate(old(d.schema), d.ledger, table, column)
  {
    var present := ColumnExists(d, table, column);
    if !present {
      e := AddColumn(d, table, column);
    } else {
      e := Normal;
    }
  }

  /** addSettingsCompletedFrom */
  method AddSettingsCompletedFrom(d: Database) returns (e: Exit)
    modifies d`schema
    ensures Migrated(d.schema, d.ledger, e) == Gate(old(d.schema), d.ledger, SettingsTable, "completed_from")
  {
    e := ColumnGate(d, SettingsTable, "completed_from");
  }

  /** addSettingsCompletedTo */
  method AddSettingsCompletedTo(d: Database) returns (e: Exit)
    modifies d`schema
    ensures Migrated(d.schema, d.ledger, e) == Gate(old(d.schema), d.ledger, SettingsTable, "completed_to")
  {
    e := ColumnGate(d, SettingsTable, "completed_to");
  }

  /** addSettingsFilterIncomplete */
  method AddSettingsFilterIncomplete(d: Database) returns (e: Exit)
    modifies d`schema
    ensures Migrated(d.schema, d.ledger, e) == Gate(old(d.schema), d.ledger, SettingsTable, "filter_incompleted")
  {
    e := ColumnGate(d, SettingsTable, "filter_incompleted");
  }

  /** The settings of the seven-column generation, read from a row; the other query fields stay zero. */
  function LegacyDecode(id: string, row: SettingsRow): (r: Result<Settings, DbError>)
    ensures r.Ok? ==> r.value.id == id && r.value.tasksQuery.tags == [] && !r.value.tasksQuery.filterWip
    ensures r.Ok? <==> DateFromText(row.completedFrom).Some? && DateFromText(row.completedTo).Some?
  {
    match DateFromText(row.completedFrom)
    case None => Err(Malformed("completed_from"))
    case Some(from) =>
      match DateFromText(row.completedTo)
      case None => Err(Malformed("completed_to"))
      case Some(to) =>
        Ok(Settings(id, ZeroQuery.(filterCompleted := row.filterCompleted,
                                   filterIncompleted := row.filterIncompleted,
                                   sortColumn := row.activeSortColumn,
                                   sortDirection := row.activeSortDirection,
                                   completedFrom := from,
                                   completedTo := to)))
  }

  /** The seven columns an upsert of the older generation writes over `base`. */
  function LegacyEncode(s: Settings, base: SettingsRow): SettingsRow {
    base.(filterCompleted := s.tasksQuery.filterCompleted,
          filterIncompleted := s.tasksQuery.filterIncompleted,
          activeSortColumn := s.tasksQuery.sortColumn,
          activeSortDirection := s.tasksQuery.sortDirection,
          completedFrom := DateText(s.tasksQuery.completedFrom),
          completedTo := DateText(s.tasksQuery.completedTo))
  }

  /** What the seven-column generation stores survives a save and a find, dates at day granularity. */
  lemma LegacyRoundTrip(s: Settings, base: SettingsRow)
    ensures LegacyDecode(s.id, LegacyEncode(s, base)).Ok?
    ensures var q := LegacyDecode(s.id, LegacyEncode(s, base)).value.tasksQuery;
      q.filterCompleted == s.tasksQuery.filterCompleted && q.filterIncompleted == s.tasksQuery.filterIncompleted
      && q.sortColumn == s.tasksQuery.sortColumn && q.sortDirection == s.tasksQuery.sortDirection
      && q.completedFrom == Midnight(s.tasksQuery.completedFrom) && q.completedTo == Midnight(s.tasksQuery.completedTo)
  {
    DateRoundTrip(s.tasksQuery.completedFrom);
    DateRoundTrip(s.tasksQuery.completedTo);
  }

  /** FindSettings of the seven-column generation. */
  method LegacyFindSettings(d: Database, settingsId: string) returns (r: Result<Settings, DbError>)
    ensures !HasColumns(d.schema, SettingsTable, LegacySettingsColumns) ==> r == Err(SchemaError(SettingsTable))
    ensures HasColumns(d.schema, SettingsTable, LegacySettingsColumns) && settingsId !in d.settings ==> r == Err(NotFound)
    ensures HasColumns(d.schema, SettingsTable, LegacySettingsColumns) && settingsId in d.settings ==>
      r == LegacyDecode(settingsId, d.settings[settingsId])
  {
    if !HasColumns(d.schema, SettingsTable, LegacySettingsColumns) {
      return Err(SchemaError(SettingsTable));
    }
    if settingsId !in d.settings {
      return Err(NotFound);
    }
    r := LegacyDecode(settingsId, d.settings[settingsId]);
  }

  /** SaveSettings of the seven-column generation: an upsert of its seven columns; a new row gets the defaults elsewhere. */
  method LegacySaveSettings(d: Database, s: Settings) returns (r: Outcome<DbError>)
    modifies d`settings
    ensures r.Pass? <==> HasColumns(d.schema, SettingsTable, LegacySettingsColumns)
    ensures r.Fail? ==> r.error == SchemaError(SettingsTable) && d.settings == old(d.settings)
    ensures r.Pass? ==> d.settings == old(d.settings)[s.id := LegacyEncode(s,
      if s.id in old(d.settings) then old(d.settings)[s.id] else DefaultSettingsRow)]
  {
    if !HasColumns(d.schema, SettingsTable, LegacySettingsColumns) {
      return Fail(SchemaError(SettingsTable));
    }
    var base := if s.id in d.settings then d.settings[s.id] else DefaultSettingsRow;
    d.settings := d.settings[s.id := LegacyEncode(s, base)];
    return Pass;
  }
}
